/** The throttled committer: what one cycle issues, and what every run guarantees while acks and
    failures interleave with it. Times are milliseconds of a monotone clock. */
module Commits {
  import opened Types
  import opened Offsets
  import opened OffsetLaws
  import opened OffsetTracking

  datatype CommitConfig = CommitConfig(intervalMs: nat, maxMessages: nat)

  datatype Throttle = Throttle(lastCommit: Option<int>, messageCount: nat)

  predicate Ready(t: Throttle, c: CommitConfig, now: int) {
    || (t.lastCommit.Some? ==> now - t.lastCommit.value >= c.intervalMs)
    || t.messageCount >= c.maxMessages
  }

  /** One attempt to store an offset, and then to commit what is stored. */
  datatype Issue = Issue(home: TopicPartition, offset: int, stored: bool, committed: bool)

  /** Whether the client accepts the `i`-th attempt. */
  datatype Client = Client(stores: nat -> bool, commits: nat -> bool)
  {
    function Stores(i: nat): bool {
      stores(i)
    }

    function Commits(i: nat): bool {
      commits(i)
    }
  }

  // ---------------------------------------------------------------------------------------
  // The committer as an object
  // ---------------------------------------------------------------------------------------

  /** The attempts are the watermarks of exactly the partitions that may be committed, once each. */
  ghost predicate CoversEligible(batch: seq<Issue>, t: Tracker) {
    && (forall i :: i in batch ==> ShouldCommit(Entry(t, i.home)) && i.offset == t[i.home].committed)
    && (forall p :: ShouldCommit(Entry(t, p)) ==> exists i :: i in batch && i.home == p)
    && (forall i, j :: 0 <= i < j < |batch| ==> batch[i].home != batch[j].home)
  }

  class OffsetCommitter {
    const tracker: OffsetTracker
    const config: CommitConfig
    const client: Client
    var lastCommit: Option<int>
    var messageCount: nat
    var issues: seq<Issue>

    ghost function State(): Throttle
      reads this
    {
      Throttle(lastCommit, messageCount)
    }

    constructor (tracker: OffsetTracker, config: CommitConfig, client: Client)
      ensures this.tracker == tracker && this.config == config && this.client == client
      ensures State() == Throttle(None, 0) && issues == []
    {
      this.tracker := tracker;
      this.config := config;
      this.client := client;
      lastCommit := None;
      messageCount := 0;
      issues := [];
    }

    method MayStart(now: int) returns (may: bool)
      ensures may <==> Ready(State(), config, now)
    {
      var intervalReady := lastCommit.None? || now - lastCommit.value >= config.intervalMs;
      var batchReady := messageCount >= config.maxMessages;
      may := intervalReady || batchReady;
    }

    method Reset(now: int)
      modifies this`lastCommit, this`messageCount
      ensures State() == Throttle(Some(now), 0)
    {
      lastCommit := Some(now);
      messageCount := 0;
    }

    /** A failed attempt is logged, never retried, and does not stop the cycle. */
    method CommitPartition(home: TopicPartition, offset: int)
      modifies this`issues
      ensures var n := |old(issues)|;
              issues == old(issues) + [Issue(home, offset, client.Stores(n), client.Stores(n) && client.Commits(n))]
    {
      var stored := client.Stores(|issues|);
      var committed := false;
      if stored {
        committed := client.Commits(|issues|);
      }
      issues := issues + [Issue(home, offset, stored, committed)];
    }

    method ProcessPartition(home: TopicPartition, now: int, end: int)
      requires tracker.Valid()
      modifies this
      ensures old(issues) <= issues
      ensures !Ready(old(State()), config, now) ==> State() == old(State()) && issues == old(issues)
      ensures Ready(old(State()), config, now) ==> State() == Throttle(Some(end), 0)
      ensures var batch := issues[|old(issues)|..];
              if Ready(old(State()), config, now) && ShouldCommit(Entry(tracker.view, home))
              then var n := |old(issues)|;
                   batch == [Issue(home, tracker.view[home].committed, client.Stores(n), client.Stores(n) && client.Commits(n))]
              else batch == []
    {
      var start := MayStart(now);
      if !start {
        return;
      }
      var may := tracker.MayCommit(home);
      if may {
        var offset := tracker.HighestContiguous(home);
        if offset.Some? {
          CommitPartition(home, offset.value);
        }
      }
      Reset(end);
    }

    method Select() returns (ready: seq<Place>)
      requires tracker.Valid()
      ensures forall p, o :: (p, o) in ready <==> ShouldCommit(Entry(tracker.view, p)) && o == tracker.view[p].committed
      ensures forall i, j :: 0 <= i < j < |ready| ==> ready[i].0 != ready[j].0
    {
      var all := tracker.AllPartitions();
      ready := [];
      for i := 0 to |all|
        invariant forall p, o :: (p, o) in ready <==> p in all[..i] && ShouldCommit(Entry(tracker.view, p)) && o == tracker.view[p].committed
        invariant forall j, k :: 0 <= j < k < |ready| ==> ready[j].0 != ready[k].0
      {
        assert all[..i + 1] == all[..i] + [all[i]];
        var may := tracker.MayCommit(all[i]);
        if may {
          var offset := tracker.HighestContiguous(all[i]);
          forall k | 0 <= k < |ready| ensures ready[k].0 != all[i] {
            var (p, o) := ready[k];
            assert ready[k] == (p, o) && (p, o) in ready;
          }
          ready := ready + [(all[i], offset.value)];
        }
      }
      assert all[..|all|] == all;
    }

    method ProcessReadyPartitions(now: int, end: int)
      requires tracker.Valid()
      modifies this
      ensures old(issues) <= issues
      ensures !Ready(old(State()), config, now) ==> State() == old(State()) && issues == old(issues)
      ensures Ready(old(State()), config, now) ==>
                State() == Throttle(Some(end), 0) && CoversEligible(issues[|old(issues)|..], tracker.view)
      ensures forall k :: |old(issues)| <= k < |issues| ==>
                issues[k].stored == client.Stores(k) && issues[k].committed == (client.Stores(k) && client.Commits(k))
    {
      hide OffsetTracker.Valid;
      var start := MayStart(now);
      if !start {
        return;
      }
      var ready := Select();
      var n := |issues|;
      for i := 0 to |ready|
        invariant tracker.Valid() && tracker.view == old(tracker.view)
        invariant |issues| == n + i && old(issues) == issues[..n]
        invariant forall k :: 0 <= k < i ==> (issues[n + k].home, issues[n + k].offset) == ready[k]
        invariant forall k :: n <= k < n + i ==>
                    issues[k].stored == client.Stores(k) && issues[k].committed == (client.Stores(k) && client.Commits(k))
      {
        CommitPartition(ready[i].0, ready[i].1);
      }
      Reset(end);
      Covered(issues[n..], ready, tracker.view);
    }
  }

  lemma Covered(batch: seq<Issue>, ready: seq<Place>, t: Tracker)
    requires |batch| == |ready| && forall k :: 0 <= k < |batch| ==> (batch[k].home, batch[k].offset) == ready[k]
    requires forall p, o :: (p, o) in ready <==> ShouldCommit(Entry(t, p)) && o == t[p].committed
    requires forall i, j :: 0 <= i < j < |ready| ==> ready[i].0 != ready[j].0
    ensures CoversEligible(batch, t)
  {
    forall p | ShouldCommit(Entry(t, p)) ensures exists i :: i in batch && i.home == p {
      assert (p, t[p].committed) in ready;
      var k :| 0 <= k < |ready| && ready[k] == (p, t[p].committed);
      assert batch[k] in batch;
    }
    forall i | i in batch ensures ShouldCommit(Entry(t, i.home)) && i.offset == t[i.home].committed {
      var k :| 0 <= k < |batch| && batch[k] == i;
      assert ready[k] in ready;
    }
  }

  // ---------------------------------------------------------------------------------------
  // The committer, and the final pass at shutdown, among concurrent acks and failures
  // ---------------------------------------------------------------------------------------

  /** One partition on its signal, all of them on a tick, or all of them once more at shutdown,
      where nothing is throttled. */
  datatype Kind = Signal | Scan | Shutdown

  /** A cycle under way: the tracker as it found it, the partitions still to check, the one that
      was found eligible but not read yet, the offsets read, and those already issued. */
  datatype Phase =
    | Idle
    | Cycling(begin: Tracker, started: int, kind: Kind, rest: seq<TopicPartition>, checked: Option<TopicPartition>,
              ready: seq<Place>, done: seq<Place>)

  datatype Cycle = Cycle(start: int, end: int)

  datatype System = System(
    config: CommitConfig,
    tracker: Tracker,
    throttle: Throttle,
    clock: int,
    phase: Phase,
    issues: seq<Issue>,
    cycles: seq<Cycle>)

  /** A cycle checks a partition, reads its watermark and issues it in separate steps, and the
      tracker moves between any two of them. */
  datatype Step =
    | Track(home: TopicPartition, event: Event)
    | Pass(ms: nat)
    | Begin(all: seq<TopicPartition>, kind: Kind)
    | Check
    | Read
    | Send(stored: bool, committed: bool)
    | End

  predicate Distinct(ps: seq<TopicPartition>) {
    forall i, j :: 0 <= i < j < |ps| ==> ps[i] != ps[j]
  }

  /** All partitions were checked and read. */
  predicate Collected(p: Phase) {
    p.Cycling? && p.rest == [] && p.checked.None?
  }

  /** A committer's cycle reads everything before it issues anything; at shutdown each watermark is
      issued right after it is read. */
  predicate Sendable(p: Phase) {
    p.Cycling? && p.checked.None? && p.ready != [] && (p.kind.Shutdown? || p.rest == [])
  }

  ghost predicate Enabled(s: System, step: Step) {
    match step
    case Track(_, e) => e.Acked? ==> e.offset >= 0
    case Pass(_) => true
    case Begin(all, kind) =>
      && s.phase.Idle? && (!kind.Shutdown? ==> Ready(s.throttle, s.config, s.clock))
      && if kind.Signal? then |all| == 1 else Distinct(all) && forall p :: p in all <==> p in s.tracker
    case Check => s.phase.Cycling? && s.phase.rest != [] && s.phase.checked.None? && (s.phase.kind.Shutdown? ==> s.phase.ready == [])
    case Read => s.phase.Cycling? && s.phase.checked.Some?
    case Send(stored, committed) => Sendable(s.phase) && (committed ==> stored)
    case End => Collected(s.phase) && s.phase.ready == []
  }

  function After(s: System, step: Step): System
    requires Enabled(s, step)
  {
    match step
    case Track(home, e) => s.(tracker := StepTracker(s.tracker, home, e))
    case Pass(ms) => s.(clock := s.clock + ms)
    case Begin(all, kind) => s.(phase := Cycling(s.tracker, s.clock, kind, all, None, [], []))
    case Check =>
      var p := s.phase.rest[0];
      s.(phase := s.phase.(rest := s.phase.rest[1..], checked := if ShouldCommit(Entry(s.tracker, p)) then Some(p) else None))
    case Read =>
      var p := s.phase.checked.value;
      s.(phase := s.phase.(checked := None,
                           ready := s.phase.ready + if p in s.tracker then [(p, s.tracker[p].committed)] else []))
    case Send(stored, committed) =>
      var place := s.phase.ready[0];
      s.(phase := s.phase.(ready := s.phase.ready[1..], done := s.phase.done + [place]),
         issues := s.issues + [Issue(place.0, place.1, stored, committed)])
    case End =>
      if s.phase.kind.Shutdown? then s.(phase := Idle)
      else s.(phase := Idle, throttle := Throttle(Some(s.clock), 0), cycles := s.cycles + [Cycle(s.phase.started, s.clock)])
  }

  ghost predicate Run(ss: seq<System>, steps: seq<Step>) {
    && |ss| == |steps| + 1
    && ss[0] == System(ss[0].config, map[], Throttle(None, 0), ss[0].clock, Idle, [], [])
    && forall i :: 0 <= i < |steps| ==> Enabled(ss[i], steps[i]) && ss[i + 1] == After(ss[i], steps[i])
  }

  // ---------------------------------------------------------------------------------------
  // Watermarks only grow, terminal failures stay
  // ---------------------------------------------------------------------------------------

  /** Every registered partition has a real watermark. */
  ghost predicate Real(t: Tracker) {
    forall p :: p in t ==> t[p].committed >= 0
  }

  ghost predicate Later(t: Tracker, u: Tracker) {
    forall p :: p in t ==> p in u && t[p].committed <= u[p].committed && (t[p].terminal ==> u[p].terminal)
  }

  lemma TrackerGrows(t: Tracker, home: TopicPartition, e: Event)
    requires Real(t) && (e.Acked? ==> e.offset >= 0)
    ensures Real(StepTracker(t, home, e)) && Later(t, StepTracker(t, home, e))
  {
    if e.Acked? {
      var c := if home in t then t[home] else FRESH;
      AdvanceEndsRun(Seeded(c, e.offset).(pending := c.pending + {e.offset}, failed := c.failed - {e.offset}));
    }
  }

  // ---------------------------------------------------------------------------------------
  // Soundness: issued offsets never pass the watermark and never go back
  // ---------------------------------------------------------------------------------------

  ghost predicate Below(t: Tracker, home: TopicPartition, offset: int) {
    home in t && offset <= t[home].committed
  }

  ghost predicate InOrder(issues: seq<Issue>) {
    forall i, j :: 0 <= i < j < |issues| && issues[i].home == issues[j].home ==> issues[i].offset <= issues[j].offset
  }

  /** The partitions of a cycle, each in one place only. */
  ghost predicate Apart(p: Phase)
    requires p.Cycling?
  {
    && Distinct(p.rest)
    && (p.checked.Some? ==> p.checked.value !in p.rest)
    && (forall q :: q in p.ready + p.done ==> q.0 !in p.rest && p.checked != Some(q.0))
    && (forall i, j :: 0 <= i < j < |p.done + p.ready| ==> (p.done + p.ready)[i].0 != (p.done + p.ready)[j].0)
  }

  ghost predicate Sound(s: System) {
    && Real(s.tracker)
    && InOrder(s.issues)
    && (forall i :: i in s.issues ==> Below(s.tracker, i.home, i.offset))
    && (s.phase.Cycling? ==>
          && Apart(s.phase)
          && (s.phase.checked.Some? ==> s.phase.checked.value in s.tracker)
          && forall q :: q in s.phase.ready ==>
               Below(s.tracker, q.0, q.1) && forall i :: i in s.issues && i.home == q.0 ==> i.offset <= q.1)
  }

  lemma SendSound(s: System, step: Step)
    requires Sound(s) && Enabled(s, step) && step.Send?
    ensures Sound(After(s, step))
  {
    hide ShouldCommit, Real, Ready;
    var after, ready := After(s, step), s.phase.ready;
    assert after.phase.done + after.phase.ready == s.phase.done + ready;
    assert ready == [ready[0]] + ready[1..];
    forall k | 0 <= k < |ready| - 1 ensures ready[0].0 != ready[1..][k].0 {
      var n := |s.phase.done|;
      assert (s.phase.done + ready)[n] == ready[0] && (s.phase.done + ready)[n + 1 + k] == ready[1..][k];
    }
    forall i, j | 0 <= i < j < |after.issues| && after.issues[i].home == after.issues[j].home
      ensures after.issues[i].offset <= after.issues[j].offset
    {
      assert after.issues[i] in s.issues;
    }
  }

  lemma SelectSound(s: System, step: Step)
    requires Sound(s) && Enabled(s, step) && (step.Check? || step.Read?)
    ensures Sound(After(s, step))
  {
    hide Real, Ready;
    var after, ready := After(s, step), s.phase.ready;
    if step.Check? {
      assert s.phase.rest == [s.phase.rest[0]] + s.phase.rest[1..];
      assert s.phase.rest[0] !in s.phase.rest[1..];
    } else {
      var p := s.phase.checked.value;
      var read := (p, s.tracker[p].committed);
      assert after.phase.ready == ready + [read];
      assert after.phase.done + after.phase.ready == (s.phase.done + ready) + [read];
      forall k | 0 <= k < |s.phase.done + ready| ensures (s.phase.done + ready)[k].0 != p {
        assert (s.phase.done + ready)[k] in ready + s.phase.done;
      }
    }
  }

  lemma StepSound(s: System, step: Step)
    requires Sound(s) && Enabled(s, step)
    ensures Sound(After(s, step))
  {
    match step
    case Track(home, e) =>
      TrackerGrows(s.tracker, home, e);
      hide StepTracker, Apart, InOrder, Real;
    case Send(_, _) => SendSound(s, step);
    case Check => SelectSound(s, step);
    case Read => SelectSound(s, step);
    case _ =>
  }

  lemma {:induction false} RunSound(ss: seq<System>, steps: seq<Step>, n: nat)
    requires Run(ss, steps) && n <= |steps|
    ensures Sound(ss[n])
  {
    if n > 0 {
      hide Sound, After, Enabled;
      RunSound(ss, steps, n - 1);
      StepSound(ss[n - 1], steps[n - 1]);
    }
  }

  /** Whatever acks and failures interleave with the cycles, an offset is not above its
      partition's watermark when it is issued, and the offsets of one partition never go back. */
  lemma CommitterSoundness(ss: seq<System>, steps: seq<Step>, n: nat)
    requires Run(ss, steps) && n < |steps| && steps[n].Send?
    ensures |ss[n + 1].issues| == |ss[n].issues| + 1
    ensures var i := ss[n + 1].issues[|ss[n].issues|];
            && i.home in ss[n].tracker && i.offset <= ss[n].tracker[i.home].committed
            && forall earlier :: earlier in ss[n].issues && earlier.home == i.home ==> earlier.offset <= i.offset
  {
    RunSound(ss, steps, n);
    assert ss[n].phase.ready[0] in ss[n].phase.ready;
  }

  // ---------------------------------------------------------------------------------------
  // Completeness of a scan
  // ---------------------------------------------------------------------------------------

  ghost predicate Has(places: seq<Place>, p: TopicPartition, atLeast: int) {
    exists q :: q in places && q.0 == p && q.1 >= atLeast
  }

  /** Nothing registered at the beginning is forgotten, nothing terminal then is picked. */
  ghost predicate Covering(s: System) {
    s.phase.Cycling? ==>
      var c := s.phase;
      && Later(c.begin, s.tracker)
      && (!c.kind.Signal? ==> forall p :: p in c.begin && !s.tracker[p].terminal ==>
            p in c.rest || c.checked == Some(p) || Has(c.ready + c.done, p, c.begin[p].committed))
      && (forall p :: p in c.begin && c.begin[p].terminal ==>
            c.checked != Some(p) && forall q :: q in c.ready + c.done ==> q.0 != p)
  }

  lemma HasMore(places: seq<Place>, more: seq<Place>, p: TopicPartition, least: int)
    requires Has(places, p, least) && forall q :: q in places ==> q in more
    ensures Has(more, p, least)
  {
  }

  lemma TrackCovers(s: System, home: TopicPartition, e: Event)
    requires Covering(s) && Sound(s) && Enabled(s, Track(home, e))
    ensures Covering(After(s, Track(home, e)))
  {
    hide StepTracker, Apart, InOrder, Has;
    TrackerGrows(s.tracker, home, e);
  }

  lemma CheckCovers(s: System)
    requires Covering(s) && Sound(s) && Enabled(s, Check)
    ensures Covering(After(s, Check))
  {
    hide Apart, InOrder, Has;
    assert s.phase.rest == [s.phase.rest[0]] + s.phase.rest[1..];
  }

  lemma ReadCovers(s: System)
    requires Covering(s) && Sound(s) && Enabled(s, Read)
    ensures Covering(After(s, Read))
  {
    hide Apart, InOrder;
    var c, after := s.phase, After(s, Read);
    var d := after.phase;
    var read := (c.checked.value, s.tracker[c.checked.value].committed);
    assert d.ready == c.ready + [read];
    forall p | !c.kind.Signal? && p in c.begin && !s.tracker[p].terminal
      ensures p in d.rest || d.checked == Some(p) || Has(d.ready + d.done, p, c.begin[p].committed)
    {
      if c.checked == Some(p) {
        assert read in d.ready + d.done;
      } else if Has(c.ready + c.done, p, c.begin[p].committed) {
        HasMore(c.ready + c.done, d.ready + d.done, p, c.begin[p].committed);
      }
    }
  }

  lemma SendCovers(s: System, step: Step)
    requires Covering(s) && Enabled(s, step) && step.Send?
    ensures Covering(After(s, step))
  {
    var c, d := s.phase, After(s, step).phase;
    assert c.ready == [c.ready[0]] + c.ready[1..];
    forall q ensures q in c.ready + c.done <==> q in d.ready + d.done {}
    forall p | !c.kind.Signal? && p in c.begin && !s.tracker[p].terminal
      ensures p in d.rest || d.checked == Some(p) || Has(d.ready + d.done, p, c.begin[p].committed)
    {
      if Has(c.ready + c.done, p, c.begin[p].committed) {
        HasMore(c.ready + c.done, d.ready + d.done, p, c.begin[p].committed);
      }
    }
  }

  lemma StepCovers(s: System, step: Step)
    requires Covering(s) && Sound(s) && Enabled(s, step)
    ensures Covering(After(s, step))
  {
    match step
    case Track(home, e) => TrackCovers(s, home, e);
    case Check => CheckCovers(s);
    case Read => ReadCovers(s);
    case Send(_, _) => SendCovers(s, step);
    case _ =>
  }

  lemma {:induction false} RunCovers(ss: seq<System>, steps: seq<Step>, n: nat)
    requires Run(ss, steps) && n <= |steps|
    ensures Covering(ss[n]) && Sound(ss[n])
  {
    RunSound(ss, steps, n);
    if n > 0 {
      hide Sound, Covering, After, Enabled;
      RunCovers(ss, steps, n - 1);
      StepCovers(ss[n - 1], steps[n - 1]);
    }
  }

  /** What a cycle did is the end of what was issued. */
  ghost predicate Logged(s: System) {
    s.phase.Cycling? ==>
      && |s.phase.done| <= |s.issues|
      && forall k :: 0 <= k < |s.phase.done| ==>
           var i := s.issues[|s.issues| - |s.phase.done| + k]; (i.home, i.offset) == s.phase.done[k]
  }

  lemma {:induction false} RunLogged(ss: seq<System>, steps: seq<Step>, n: nat)
    requires Run(ss, steps) && n <= |steps|
    ensures Logged(ss[n])
  {
    if n > 0 {
      RunLogged(ss, steps, n - 1);
      hide StepTracker, ShouldCommit, Distinct;
      assert ss[n] == After(ss[n - 1], steps[n - 1]);
    }
  }

  /** A finished scan issued every partition that was registered when it began and has no
      terminal failure when it ends, once, at an offset between its watermarks then and now;
      and it issued none that had a terminal failure when it began. */
  lemma ScanIssuesEligible(ss: seq<System>, steps: seq<Step>, n: nat, p: TopicPartition)
    requires Run(ss, steps) && n < |steps| && steps[n].End? && !ss[n].phase.kind.Signal? && p in ss[n].phase.begin
    ensures var (s, c) := (ss[n], ss[n].phase);
            && p in s.tracker
            && (!s.tracker[p].terminal ==>
                  exists q :: q in c.done && q.0 == p && c.begin[p].committed <= q.1)
            && (c.begin[p].terminal ==> forall q :: q in c.done ==> q.0 != p)
            && (forall i, j :: 0 <= i < j < |c.done| ==> c.done[i].0 != c.done[j].0)
            && Logged(s)
  {
    RunCovers(ss, steps, n);
    RunLogged(ss, steps, n);
    var c := ss[n].phase;
    assert c.ready + c.done == c.done == c.done + c.ready;
  }

  // ---------------------------------------------------------------------------------------
  // A terminal failure ends commits
  // ---------------------------------------------------------------------------------------

  predicate Picked(p: Phase, home: TopicPartition) {
    p.Cycling? && (p.checked == Some(home) || exists q :: q in p.ready && q.0 == home)
  }

  function IssuedOf(issues: seq<Issue>, home: TopicPartition): nat {
    if issues == [] then 0
    else IssuedOf(issues[..|issues| - 1], home) + if issues[|issues| - 1].home == home then 1 else 0
  }

  /** The partition's issues so far and the one a cycle is committed to by now. */
  function DueOf(s: System, home: TopicPartition): nat {
    IssuedOf(s.issues, home) + if Picked(s.phase, home) then 1 else 0
  }

  lemma IssuedMore(issues: seq<Issue>, i: Issue, home: TopicPartition)
    ensures IssuedOf(issues + [i], home) == IssuedOf(issues, home) + if i.home == home then 1 else 0
  {
    assert (issues + [i])[..|issues|] == issues;
  }

  /** Sending its offset is what ends a partition's pick. */
  lemma SentOnce(s: System, home: TopicPartition)
    requires Sound(s) && Sendable(s.phase)
    ensures var next := s.phase.(ready := s.phase.ready[1..], done := s.phase.done + [s.phase.ready[0]]);
            Picked(s.phase, home) <==> s.phase.ready[0].0 == home || Picked(next, home)
    ensures var next := s.phase.(ready := s.phase.ready[1..], done := s.phase.done + [s.phase.ready[0]]);
            s.phase.ready[0].0 == home ==> !Picked(next, home)
  {
    hide InOrder, Real;
    var ready, n := s.phase.ready, |s.phase.done|;
    assert ready == [ready[0]] + ready[1..] && ready[0] in ready;
    forall q | q in ready[1..] ensures q.0 != ready[0].0 {
      var k :| 0 <= k < |ready[1..]| && ready[1..][k] == q;
      assert (s.phase.done + ready)[n] == ready[0] && (s.phase.done + ready)[n + 1 + k] == q;
    }
  }

  lemma TerminalStep(s: System, step: Step, home: TopicPartition)
    requires Sound(s) && Enabled(s, step) && home in s.tracker && s.tracker[home].terminal
    ensures var after := After(s, step);
            && home in after.tracker && after.tracker[home].terminal
            && s.issues <= after.issues && DueOf(after, home) == DueOf(s, home)
  {
    match step
    case Track(p, e) =>
      hide Apart, InOrder, StepTracker, IssuedOf;
      TrackerGrows(s.tracker, p, e);
    case Send(stored, committed) =>
      hide Apart, InOrder, Real, Ready, ShouldCommit, StepTracker, Picked, IssuedOf;
      SentOnce(s, home);
      IssuedMore(s.issues, Issue(s.phase.ready[0].0, s.phase.ready[0].1, stored, committed), home);
    case _ =>
      hide Apart, InOrder, IssuedOf;
  }

  /** From a terminal failure on, a partition is issued no more, except that a cycle which had
      found it eligible before still issues it, exactly once: issues and pick together stay the
      same for good. */
  lemma {:induction false} TerminalEndsCommits(ss: seq<System>, steps: seq<Step>, n: nat, m: nat, home: TopicPartition)
    requires Run(ss, steps) && n <= m <= |steps|
    requires home in ss[n].tracker && ss[n].tracker[home].terminal
    ensures home in ss[m].tracker && ss[m].tracker[home].terminal
    ensures ss[n].issues <= ss[m].issues && DueOf(ss[m], home) == DueOf(ss[n], home)
    decreases m - n
  {
    if n < m {
      TerminalEndsCommits(ss, steps, n, m - 1, home);
      RunSound(ss, steps, m - 1);
      hide Sound, Enabled, After, DueOf;
      TerminalStep(ss[m - 1], steps[m - 1], home);
    }
  }

  lemma RunOn(ss: seq<System>, steps: seq<Step>, step: Step, next: System)
    requires Run(ss, steps) && Enabled(ss[|steps|], step) && After(ss[|steps|], step) == next
    ensures Run(ss + [next], steps + [step])
  {
    hide Enabled, After;
  }

  /** A cycle that has picked a partition which then fails for good. */
  function Caught(config: CommitConfig, clock: int, before: Tracker, after: Tracker, home: TopicPartition): System {
    System(config, after, Throttle(None, 0), clock, Cycling(before, clock, Scan, [], Some(home), [], []), [], [])
  }

  lemma RacePicks(config: CommitConfig, clock: int, home: TopicPartition)
    returns (ss: seq<System>, steps: seq<Step>, before: Tracker, after: Tracker)
    ensures Run(ss, steps) && |steps| == 4 && ss[0].config == config && ss[0].clock == clock
    ensures ss[4] == Caught(config, clock, before, after, home)
    ensures home in after && after[home].terminal && after[home].committed == 0
  {
    hide AckCursor;
    NextAck(FRESH, 0);
    var failure := Failed(1, Terminal(PoisonMessage));
    var s0 := System(config, map[], Throttle(None, 0), clock, Idle, [], []);
    var s1 := After(s0, Track(home, Acked(0)));
    var s2 := After(s1, Begin([home], Scan));
    var s3 := After(s2, Check);
    var s4 := After(s3, Track(home, failure));
    before, after := s1.tracker, s4.tracker;
    assert [home][1..] == [];
    ss, steps := [s0, s1, s2, s3, s4], [Track(home, Acked(0)), Begin([home], Scan), Check, Track(home, failure)];
  }

  /** That last issue does happen: the failure comes between the check and the read. */
  lemma TerminalRace(config: CommitConfig, clock: int, home: TopicPartition)
    ensures exists ss: seq<System>, steps: seq<Step> ::
              && Run(ss, steps) && |steps| == 6 && ss[0].config == config && ss[0].clock == clock
              && home in ss[4].tracker && ss[4].tracker[home].terminal && ss[4].issues == []
              && ss[6].issues == [Issue(home, 0, true, true)]
  {
    var ss, steps, before, after := RacePicks(config, clock, home);
    var s5 := After(ss[4], Read);
    RunOn(ss, steps, Read, s5);
    var s6 := After(s5, Send(true, true));
    RunOn(ss + [s5], steps + [Read], Send(true, true), s6);
    hide Run, After, Enabled;
    assert Run(ss + [s5] + [s6], steps + [Read] + [Send(true, true)]);
  }

  // ---------------------------------------------------------------------------------------
  // Throttling
  // ---------------------------------------------------------------------------------------

  ghost predicate Spaced(s: System) {
    && s.throttle.messageCount == 0
    && s.throttle.lastCommit == (if s.cycles == [] then None else Some(s.cycles[|s.cycles| - 1].end))
    && (s.throttle.lastCommit.Some? ==> s.throttle.lastCommit.value <= s.clock)
    && (s.config.maxMessages >= 1 ==>
          && (forall k :: 0 < k < |s.cycles| ==> s.cycles[k].start >= s.cycles[k - 1].end + s.config.intervalMs)
          && (s.phase.Cycling? && !s.phase.kind.Shutdown? && s.cycles != [] ==> s.phase.started >= s.cycles[|s.cycles| - 1].end + s.config.intervalMs))
  }

  lemma StepSpaced(s: System, step: Step)
    requires Spaced(s) && Enabled(s, step)
    ensures Spaced(After(s, step)) && After(s, step).config == s.config
  {
    hide StepTracker, ShouldCommit, Distinct;
    if step.End? {
      var after := After(s, step);
      forall k | s.config.maxMessages >= 1 && 0 < k < |after.cycles|
        ensures after.cycles[k].start >= after.cycles[k - 1].end + s.config.intervalMs
      {
        assert after.cycles[k - 1] == s.cycles[k - 1];
      }
    }
  }

  lemma {:induction false} RunSpaced(ss: seq<System>, steps: seq<Step>, n: nat)
    requires Run(ss, steps) && n <= |steps|
    ensures Spaced(ss[n]) && ss[n].config == ss[0].config
  {
    if n > 0 {
      hide Spaced, After, Enabled;
      RunSpaced(ss, steps, n - 1);
      StepSpaced(ss[n - 1], steps[n - 1]);
    }
  }

  /** With a message limit of at least one, every cycle starts at least the interval after the
      one before it ended. */
  lemma CyclesSpaced(ss: seq<System>, steps: seq<Step>, n: nat, k: nat)
    requires Run(ss, steps) && n <= |steps| && ss[0].config.maxMessages >= 1 && 0 < k < |ss[n].cycles|
    ensures ss[n].cycles[k].start >= ss[n].cycles[k - 1].end + ss[0].config.intervalMs
  {
    RunSpaced(ss, steps, n);
  }

  /** The documented early start on enough pending messages never happens: nothing counts the
      messages, so a cycle may start exactly when the interval has passed, or at any time if
      the message limit is zero. */
  lemma ThrottleExactly(ss: seq<System>, steps: seq<Step>, n: nat)
    requires Run(ss, steps) && n <= |steps|
    ensures var s := ss[n];
            Ready(s.throttle, s.config, s.clock) <==>
            || s.cycles == []
            || s.clock >= s.cycles[|s.cycles| - 1].end + s.config.intervalMs
            || s.config.maxMessages == 0
  {
    RunSpaced(ss, steps, n);
  }
}
