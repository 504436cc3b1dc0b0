/** Rebalance callbacks: what a revoke persists, where an assignment seeks to, and why nothing
    above the watermark is skipped in between. */
module Rebalancing {
  import opened Types
  import opened Offsets
  import opened OffsetLaws
  import opened OffsetTracking

  /** The client's offsets, as next positions: storing offset N stores N + 1, a commit persists
      everything stored, a seek sets the position to fetch from. */
  datatype Client = Client(
    stored: map<TopicPartition, int>,
    persisted: map<TopicPartition, int>,
    position: map<TopicPartition, int>)

  /** Which calls the client accepts, by their index in the callback. */
  datatype Faults = Faults(stores: nat -> bool, commits: nat -> bool, seeks: nat -> bool)
  {
    function Stores(i: nat): bool {
      stores(i)
    }

    function Commits(i: nat): bool {
      commits(i)
    }

    function Seeks(i: nat): bool {
      seeks(i)
    }
  }

  datatype Rebalance = Assign(parts: seq<TopicPartition>) | Revoke(parts: seq<TopicPartition>) | Failed

  function RevokeOne(c: Client, t: Tracker, p: TopicPartition, stores: bool, commits: bool): Client {
    if p !in t || !stores then c
    else
      var stored := c.stored[p := t[p].committed + 1];
      Client(stored, if commits then c.persisted + stored else c.persisted, c.position)
  }

  /** Revoking the first `n` partitions of the list. */
  function Revoked(c: Client, t: Tracker, parts: seq<TopicPartition>, f: Faults, n: nat): Client
    requires n <= |parts|
  {
    if n == 0 then c else RevokeOne(Revoked(c, t, parts, f, n - 1), t, parts[n - 1], f.Stores(n - 1), f.Commits(n - 1))
  }

  /** In-memory progress wins; otherwise the offset fetched at startup; otherwise no seek. */
  function SeekTarget(t: Tracker, startup: map<TopicPartition, int>, p: TopicPartition): Option<int> {
    if p in t && t[p].committed >= 0 then Some(t[p].committed + 1)
    else if p in startup then Some(startup[p])
    else None
  }

  function AssignOne(c: Client, target: Option<int>, p: TopicPartition, seeks: bool): Client {
    if target.Some? && seeks then c.(position := c.position[p := target.value]) else c
  }

  function Assigned(c: Client, t: Tracker, startup: map<TopicPartition, int>, parts: seq<TopicPartition>, f: Faults, n: nat): Client
    requires n <= |parts|
  {
    if n == 0 then c
    else AssignOne(Assigned(c, t, startup, parts, f, n - 1), SeekTarget(t, startup, parts[n - 1]), parts[n - 1], f.Seeks(n - 1))
  }

  class ConsumerContext {
    const tracker: OffsetTracker
    var startupOffsets: map<TopicPartition, int>
    var paused: set<TopicPartition>
    var client: Client

    constructor (tracker: OffsetTracker)
      ensures this.tracker == tracker && startupOffsets == map[] && paused == {} && client == Client(map[], map[], map[])
    {
      this.tracker := tracker;
      startupOffsets := map[];
      paused := {};
      client := Client(map[], map[], map[]);
    }

    method SeedStartupOffsets(offsets: map<TopicPartition, int>)
      modifies this`startupOffsets
      ensures startupOffsets == offsets
    {
      startupOffsets := offsets;
    }

    /** Stores and commits one partition's watermark, if it has one. Whether the partition has a
        terminal failure is not asked here. */
    method Persist(p: TopicPartition, stores: bool, commits: bool)
      requires tracker.Valid()
      modifies this`client
      ensures client == RevokeOne(old(client), tracker.view, p, stores, commits)
    {
      var offset := tracker.HighestContiguous(p);
      if offset.Some? && stores {
        var stored := client.stored[p := offset.value + 1];
        var persisted := client.persisted;
        if commits {
          persisted := persisted + stored;
        }
        client := Client(stored, persisted, client.position);
      }
    }

    method PreRebalance(r: Rebalance, f: Faults)
      requires tracker.Valid()
      modifies this`client, this`paused
      ensures client == if r.Revoke? then Revoked(old(client), tracker.view, r.parts, f, |r.parts|) else old(client)
      ensures forall p :: p in paused <==> p in old(paused) && !(r.Revoke? && p in r.parts)
    {
      hide OffsetTracker.Valid, RevokeOne;
      if r.Revoke? {
        for i := 0 to |r.parts|
          invariant tracker.Valid() && tracker.view == old(tracker.view)
          invariant client == Revoked(old(client), tracker.view, r.parts, f, i)
          invariant forall p :: p in paused <==> p in old(paused) && p !in r.parts[..i]
        {
          assert r.parts[..i + 1] == r.parts[..i] + [r.parts[i]];
          Persist(r.parts[i], f.Stores(i), f.Commits(i));
          paused := paused - {r.parts[i]};
        }
        assert r.parts[..|r.parts|] == r.parts;
      }
    }

    method PostRebalance(r: Rebalance, f: Faults)
      requires tracker.Valid()
      modifies this`client
      ensures client == if r.Assign? then Assigned(old(client), tracker.view, startupOffsets, r.parts, f, |r.parts|) else old(client)
    {
      if r.Assign? {
        var parts := r.parts;
        for i := 0 to |parts|
          invariant client == Assigned(old(client), tracker.view, startupOffsets, parts, f, i)
        {
          var inMemory := tracker.CommittedOffset(parts[i]);
          var target;
          if inMemory >= 0 {
            target := Some(inMemory + 1);
          } else {
            target := if parts[i] in startupOffsets then Some(startupOffsets[parts[i]]) else None;
          }
          if target.Some? && f.Seeks(i) {
            client := client.(position := client.position[parts[i] := target.value]);
          }
        }
      }
    }
  }

  // ---------------------------------------------------------------------------------------
  // What a revoke persists
  // ---------------------------------------------------------------------------------------

  /** The `i`-th call to store is made and accepted. */
  ghost predicate Accepted(t: Tracker, parts: seq<TopicPartition>, f: Faults, i: nat)
    requires i < |parts|
  {
    parts[i] in t && f.Stores(i)
  }

  ghost predicate IsStored(t: Tracker, parts: seq<TopicPartition>, f: Faults, p: TopicPartition, n: nat)
    requires n <= |parts|
  {
    exists i :: 0 <= i < n && parts[i] == p && Accepted(t, parts, f, i)
  }

  ghost predicate IsCommitted(t: Tracker, parts: seq<TopicPartition>, f: Faults, n: nat)
    requires n <= |parts|
  {
    exists j :: 0 <= j < n && Accepted(t, parts, f, j) && f.Commits(j)
  }

  /** The partition was stored, and its own commit or one after it was accepted. */
  ghost predicate IsPersisted(t: Tracker, parts: seq<TopicPartition>, f: Faults, p: TopicPartition, n: nat)
    requires n <= |parts|
  {
    exists i, j :: 0 <= i <= j < n && parts[i] == p && Accepted(t, parts, f, i) && Accepted(t, parts, f, j) && f.Commits(j)
  }

  function At(m: map<TopicPartition, int>, p: TopicPartition): Option<int> {
    if p in m then Some(m[p]) else None
  }

  lemma RevokeSteps(t: Tracker, parts: seq<TopicPartition>, f: Faults, p: TopicPartition, n: nat)
    requires 0 < n <= |parts|
    ensures IsStored(t, parts, f, p, n) <==> IsStored(t, parts, f, p, n - 1) || (parts[n - 1] == p && Accepted(t, parts, f, n - 1))
    ensures var commits := Accepted(t, parts, f, n - 1) && f.Commits(n - 1);
            && (IsCommitted(t, parts, f, n) <==> IsCommitted(t, parts, f, n - 1) || commits)
            && (IsPersisted(t, parts, f, p, n) <==> IsPersisted(t, parts, f, p, n - 1) || (commits && IsStored(t, parts, f, p, n)))
  {
  }

  /** Exactly what a revoke of a whole list leaves stored and persisted, for every partition: its
      watermark + 1 if and only if it is registered, its store was accepted, and, to be persisted,
      its own or a later commit was accepted too. Otherwise what was stored before, if anything was
      committed at all, and else what was persisted before. */
  lemma {:induction false} RevokeExactly(c: Client, t: Tracker, parts: seq<TopicPartition>, f: Faults, p: TopicPartition, n: nat)
    requires n <= |parts|
    ensures IsPersisted(t, parts, f, p, n) ==> IsStored(t, parts, f, p, n)
    ensures IsStored(t, parts, f, p, n) ==> p in t
    ensures var after := Revoked(c, t, parts, f, n);
            && At(after.stored, p) == (if IsStored(t, parts, f, p, n) then Some(t[p].committed + 1) else At(c.stored, p))
            && At(after.persisted, p) ==
               (if IsPersisted(t, parts, f, p, n) then Some(t[p].committed + 1)
                else if IsCommitted(t, parts, f, n) && p in c.stored then At(c.stored, p)
                else At(c.persisted, p))
            && after.position == c.position
  {
    if n > 0 {
      RevokeExactly(c, t, parts, f, p, n - 1);
      RevokeSteps(t, parts, f, p, n);
      hide IsStored, IsCommitted, IsPersisted;
    }
  }

  /** The tracker after one more terminal failure. */
  function Poisoned(t: Tracker, p: TopicPartition): Tracker
    requires p in t
  {
    t[p := t[p].(terminal := true)]
  }

  /** Unlike the committer, a revoke does not ask for terminal failures: whatever the list and the
      client, it does the same for a partition that must not be committed. */
  lemma {:induction false} RevokeIgnoresTerminal(c: Client, t: Tracker, parts: seq<TopicPartition>, f: Faults, p: TopicPartition, n: nat)
    requires n <= |parts| && p in t
    ensures !ShouldCommit(Entry(Poisoned(t, p), p))
    ensures Revoked(c, Poisoned(t, p), parts, f, n) == Revoked(c, t, parts, f, n)
  {
    if n > 0 {
      RevokeIgnoresTerminal(c, t, parts, f, p, n - 1);
    }
  }

  // ---------------------------------------------------------------------------------------
  // Where an assignment resumes
  // ---------------------------------------------------------------------------------------

  ghost predicate IsSought(parts: seq<TopicPartition>, f: Faults, p: TopicPartition, n: nat)
    requires n <= |parts|
  {
    exists i :: 0 <= i < n && parts[i] == p && f.Seeks(i)
  }

  lemma SoughtStep(parts: seq<TopicPartition>, f: Faults, p: TopicPartition, n: nat)
    requires 0 < n <= |parts|
    ensures IsSought(parts, f, p, n) <==> IsSought(parts, f, p, n - 1) || (parts[n - 1] == p && f.Seeks(n - 1))
  {
  }

  /** Exactly where an assignment of a whole list leaves every partition: one whose seek works is
      fetched right above its watermark, or, never acked here, from its startup offset; without
      either, and in every other case, its position is left as it was. */
  lemma {:induction false} AssignExactly(c: Client, t: Tracker, startup: map<TopicPartition, int>, parts: seq<TopicPartition>, f: Faults, p: TopicPartition, n: nat)
    requires n <= |parts|
    ensures var after := Assigned(c, t, startup, parts, f, n);
            && At(after.position, p) ==
               (if !IsSought(parts, f, p, n) then At(c.position, p)
                else if p in t && t[p].committed >= 0 then Some(t[p].committed + 1)
                else if p in startup then Some(startup[p])
                else At(c.position, p))
            && after.persisted == c.persisted && after.stored == c.stored
  {
    if n > 0 {
      AssignExactly(c, t, startup, parts, f, p, n - 1);
      SoughtStep(parts, f, p, n);
      hide IsSought;
    }
  }

  /** The tracker of a process after some events: as `Feed` builds it from well-formed histories. */
  ghost predicate Tracks(t: Tracker, log: seq<Tagged>) {
    t == Feed(log) && forall p :: Wellformed(Of(log, p))
  }

  lemma RegisteredLevel(t: Tracker, log: seq<Tagged>, p: TopicPartition)
    requires Tracks(t, log)
    ensures p in t <==> HasAck(Of(log, p))
    ensures p in t ==> t[p].committed == Level(Of(log, p)) >= 0
  {
    PartitionsIndependent(log, p);
    RegisteredIffAcked(Of(log, p));
    if p in t {
      WatermarkRefinement(Of(log, p));
    }
  }

  /** Revoke and reassign within one process. Workers keep acking in between (`more`), so the fetch
      position is that of the watermark by then: never below the persisted one, above it exactly if
      the very next offset was acked meanwhile, and every offset it passes over was acked. */
  lemma {:induction false} ResumesAtWatermark(c: Client, t: Tracker, log: seq<Tagged>, u: Tracker, more: seq<Tagged>, startup: map<TopicPartition, int>,
                           revoked: seq<TopicPartition>, f: Faults, granted: seq<TopicPartition>, g: Faults, k: nat)
    requires Tracks(t, log) && Tracks(u, log + more)
    requires k < |granted| && g.Seeks(k) && IsPersisted(t, revoked, f, granted[k], |revoked|)
    ensures var p := granted[k];
            var left := Revoked(c, t, revoked, f, |revoked|);
            var back := Assigned(left, u, startup, granted, g, |granted|);
            && p in back.position && p in back.persisted && HasAck(Of(log, p)) && HasAck(Of(log + more, p))
            && var (kept, next) := (back.persisted[p], back.position[p]);
            && kept == Level(Of(log, p)) + 1 && next == Level(Of(log + more, p)) + 1
            && kept <= next
            && (kept < next <==> Acked(kept) in Of(more, p))
            && forall o :: kept <= o < next ==> Acked(o) in Of(log + more, p)
  {
    hide Tracks, Of, Level, Feed, HasAck, Wellformed, Revoked, Assigned;
    var p := granted[k];
    RevokeExactly(c, t, revoked, f, p, |revoked|);
    AckMeanwhile(t, log, u, more, p);
    AssignExactly(Revoked(c, t, revoked, f, |revoked|), u, startup, granted, g, p, |granted|);
  }

  lemma {:induction false} AckMeanwhile(t: Tracker, log: seq<Tagged>, u: Tracker, more: seq<Tagged>, p: TopicPartition)
    requires Tracks(t, log) && Tracks(u, log + more) && p in t
    ensures p in u && HasAck(Of(log, p)) && HasAck(Of(log + more, p))
    ensures var (was, now) := (t[p].committed, u[p].committed);
            && was == Level(Of(log, p)) >= 0 && now == Level(Of(log + more, p)) >= was
            && (was < now <==> Acked(was + 1) in Of(more, p))
            && forall o :: was < o <= now ==> Acked(o) in Of(log + more, p)
  {
    RegisteredLevel(t, log, p);
    OfAppend(log, more, p);
    var h, rest := Of(log, p), Of(more, p);
    RiseExactly(h, rest);
    RisesOverAcked(h, rest);
    LevelNeverDecreases(h, rest);
    RegisteredLevel(u, log + more, p);
  }

  /** It does happen: offset 1 is acked after the revoke persisted position 1, and the partition
      resumes at 2. */
  lemma AckAfterRevoke(c: Client, p: TopicPartition, f: Faults)
    requires f.Stores(0) && f.Commits(0) && f.Seeks(0)
    ensures var t := Feed([Tagged(p, Acked(0))]);
            var u := Feed([Tagged(p, Acked(0)), Tagged(p, Acked(1))]);
            var back := Assigned(Revoked(c, t, [p], f, 1), u, map[], [p], f, 1);
            At(back.persisted, p) == Some(1) && At(back.position, p) == Some(2)
  {
    var first, second := Tagged(p, Acked(0)), Tagged(p, Acked(1));
    FeedOne([], first);
    FeedOne([first], second);
    assert [] + [first] == [first] && [first] + [second] == [first, second];
    NextAck(FRESH, 0);
    NextAck(AckCursor(FRESH, 0), 1);
    var t, u := Feed([first]), Feed([first, second]);
    assert t[p] == AckCursor(FRESH, 0) && u[p] == AckCursor(t[p], 1);
    assert Revoked(c, t, [p], f, 0) == c;
    assert Assigned(Revoked(c, t, [p], f, 1), u, map[], [p], f, 0) == Revoked(c, t, [p], f, 1);
  }

  /** A new process has an empty tracker and starts from what the old one persisted: it resumes
      right above the old process's watermark at the revoke, and so fetches again every offset the
      old one had not covered. */
  lemma RestartResumes(c: Client, t: Tracker, log: seq<Tagged>, revoked: seq<TopicPartition>, f: Faults,
                       newClient: Client, granted: seq<TopicPartition>, g: Faults, k: nat)
    requires Tracks(t, log)
    requires k < |granted| && g.Seeks(k) && IsPersisted(t, revoked, f, granted[k], |revoked|)
    ensures var p := granted[k];
            var startup := Revoked(c, t, revoked, f, |revoked|).persisted;
            HasAck(Of(log, p)) && At(Assigned(newClient, map[], startup, granted, g, |granted|).position, p) == Some(Level(Of(log, p)) + 1)
  {
    RevokeExactly(c, t, revoked, f, granted[k], |revoked|);
    RegisteredLevel(t, log, granted[k]);
    AssignExactly(newClient, map[], Revoked(c, t, revoked, f, |revoked|).persisted, granted, g, granted[k], |granted|);
  }

  // ---------------------------------------------------------------------------------------
  // Replaying from there
  // ---------------------------------------------------------------------------------------

  /** Offsets delivered again from the watermark on close every gap: once each of W + 1 .. n has
      been acked (again) after its latest failure, the watermark is at least n, whatever else
      was acked or failed, re-acked or buffered before. And not before that. */
  lemma ReplayClosesGaps(h: History, g: History, n: int)
    requires Wellformed(h + g) && HasAck(h) && n > Level(h)
    ensures HasAck(h + g)
    ensures (forall o :: Level(h) < o <= n ==> Latest(h + g, o) == AckMark) ==> Level(h + g) >= n
    ensures Level(h + g) >= n ==> forall o :: Level(h) < o <= n ==> Acked(o) in h + g
  {
    HasAckExtends(h, g);
    LevelNeverDecreases(h, g);
    WatermarkRefinement(h + g);
    if forall o :: Level(h) < o <= n ==> Latest(h + g, o) == AckMark {
      var next := Level(h + g) + 1;
      assert next > n || Latest(h + g, next) == AckMark;
    }
    WellformedPrefix(h, g);
    WatermarkRefinement(h);
    FirstAckExtends(h, g);
  }

  /** Acking again what the watermark already covers, or what is already buffered, changes
      neither the watermark nor what is buffered above it. */
  lemma ReackIsHarmless(h: History, o: int)
    requires Wellformed(h) && HasAck(h) && o >= 0
    requires o <= Level(h) || Latest(h, o) == AckMark
    ensures var again := h + [Acked(o)];
            && HasAck(again) && Level(again) == Level(h)
            && Replay(h).Some? && Replay(again).Some?
            && forall x :: x > Level(h) ==>
                 && (x in Replay(again).value.pending <==> x in Replay(h).value.pending)
                 && (x in Replay(again).value.failed <==> x in Replay(h).value.failed)
  {
    var again := h + [Acked(o)];
    FrontOf(h, Acked(o));
    forall x | x > Level(h) ensures Latest(again, x) == Latest(h, x) {}
    hide Latest, Replay, Wellformed, HasAck, FirstAck, StepEntry;
    WatermarkRefinement(h);
    LevelStep(h, Acked(o));
    WatermarkRefinement(again);
    assert Latest(again, Level(h) + 1) != AckMark;
  }
}
