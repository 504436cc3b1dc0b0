/** What the watermark guarantees over whole histories: it never goes back, it does not
    depend on the order of acks, failures hold it, terminal failures stop commits, and
    partitions do not disturb each other. */
module OffsetLaws {
  import opened Types
  import opened Offsets

  /** The watermark of a registered partition. */
  ghost function Level(h: History): int
    requires HasAck(h)
  {
    RegisteredIffAcked(h);
    Replay(h).value.committed
  }

  lemma FrontOf(h: History, e: Event)
    ensures Front(h + [e]) == h && Last(h + [e]) == e
  {
  }

  lemma HasAckExtends(h: History, g: History)
    requires HasAck(h)
    ensures HasAck(h + g)
  {
    var i :| 0 <= i < |h| && h[i].Acked?;
    assert (h + g)[i].Acked?;
  }

  lemma {:induction false} FirstAckExtends(h: History, g: History)
    requires HasAck(h)
    ensures HasAck(h + g) && FirstAck(h + g) == FirstAck(h)
    decreases |g|
  {
    HasAckExtends(h, g);
    if g == [] {
      assert h + g == h;
    } else {
      FirstAckExtends(h, Front(g));
      assert Front(h + g) == h + Front(g);
    }
  }

  lemma WellformedPrefix(h: History, g: History)
    requires Wellformed(h + g)
    ensures Wellformed(h)
  {
    forall i | 0 <= i < |h| && h[i].Acked? ensures h[i].offset >= 0 {
      assert (h + g)[i] == h[i];
    }
  }

  /** Every further event moves the watermark exactly to the end of the acknowledged run. */
  lemma LevelStep(h: History, e: Event)
    requires Wellformed(h + [e]) && HasAck(h)
    ensures HasAck(h + [e]) && EndsRun(h + [e], Level(h), Level(h + [e]))
  {
    FrontOf(h, e);
    HasAckExtends(h, [e]);
    WellformedPrefix(h, [e]);
    WatermarkRefinement(h);
    StepKeepsReflection(h + [e]);
  }

  lemma {:induction false} LevelNeverDecreases(h: History, g: History)
    requires Wellformed(h + g) && HasAck(h)
    ensures HasAck(h + g) && Level(h) <= Level(h + g)
    decreases |g|
  {
    if g == [] {
      assert h + g == h;
    } else {
      var e := Last(g);
      assert h + g == (h + Front(g)) + [e];
      WellformedPrefix(h + Front(g), [e]);
      LevelNeverDecreases(h, Front(g));
      LevelStep(h + Front(g), e);
    }
  }

  /** One event raises the watermark exactly if it is an ack of the offset right above it. */
  lemma RiseByOne(h: History, e: Event)
    requires Wellformed(h + [e]) && HasAck(h)
    ensures HasAck(h + [e])
    ensures Level(h + [e]) > Level(h) <==> e == Acked(Level(h) + 1)
  {
    FrontOf(h, e);
    LevelStep(h, e);
    WellformedPrefix(h, [e]);
    WatermarkRefinement(h);
    assert Latest(h + [e], Level(h) + 1) == AckMark <==> e == Acked(Level(h) + 1);
  }

  /** Over any continuation it rises exactly if that offset is acked somewhere in it. */
  lemma {:induction false} RiseExactly(h: History, g: History)
    requires Wellformed(h + g) && HasAck(h)
    ensures HasAck(h + g)
    ensures Level(h + g) > Level(h) <==> Acked(Level(h) + 1) in g
    decreases |g|
  {
    if g == [] {
      assert h + g == h;
    } else {
      var front, e := Front(g), Last(g);
      assert h + g == (h + front) + [e] && g == front + [e];
      WellformedPrefix(h + front, [e]);
      RiseExactly(h, front);
      LevelNeverDecreases(h, front);
      RiseByOne(h + front, e);
      LevelNeverDecreases(h + front, [e]);
    }
  }

  /** And it rises over acked offsets only. */
  lemma RisesOverAcked(h: History, g: History)
    requires Wellformed(h + g) && HasAck(h)
    ensures HasAck(h + g) && forall o :: Level(h) < o <= Level(h + g) ==> Acked(o) in h + g
  {
    WellformedPrefix(h, g);
    FirstAckExtends(h, g);
    WatermarkRefinement(h);
    WatermarkRefinement(h + g);
  }

  /** A failed offset above the watermark holds it down until that very offset is acked. */
  lemma {:induction false} GapHoldsLevel(h: History, o: int, r: FailureReason, g: History)
    requires HasAck(h) && Level(h) < o
    requires Acked(o) !in g
    requires Wellformed(h + [Failed(o, r)] + g)
    ensures var all := h + [Failed(o, r)] + g;
            HasAck(all) && Level(all) < o && Latest(all, o) == FailMark
    decreases |g|
  {
    var start := h + [Failed(o, r)];
    if g == [] {
      assert start + g == start;
      FrontOf(h, Failed(o, r));
      LevelStep(h, Failed(o, r));
    } else {
      var e := Last(g);
      assert start + g == (start + Front(g)) + [e];
      FrontOf(start + Front(g), e);
      WellformedPrefix(start + Front(g), [e]);
      GapHoldsLevel(h, o, r, Front(g));
      LevelStep(start + Front(g), e);
      assert e != Acked(o);
      assert Latest(start + g, o) == FailMark;
    }
  }

  // ---------------------------------------------------------------------------------------
  // Order independence
  // ---------------------------------------------------------------------------------------

  ghost predicate AckOnly(h: History) {
    forall i :: 0 <= i < |h| ==> h[i].Acked?
  }

  lemma {:induction false} AckOnlyLatest(h: History, o: int)
    requires AckOnly(h) && Acked(o) in h
    ensures Latest(h, o) == AckMark
  {
    if Last(h) != Acked(o) {
      var i :| 0 <= i < |h| && h[i] == Acked(o);
      assert Front(h)[i] == Acked(o);
      AckOnlyLatest(Front(h), o);
    }
  }

  /** Without failures the watermark is the largest n with all of first-ack..n acknowledged. */
  lemma OrderIndependence(h: History, n: int)
    requires Wellformed(h) && HasAck(h) && AckOnly(h) && FirstAck(h) <= n
    ensures n <= Level(h) <==> forall k :: FirstAck(h) <= k <= n ==> Acked(k) in h
  {
    WatermarkRefinement(h);
    var next := Level(h) + 1;
    if next <= n && Acked(next) in h {
      AckOnlyLatest(h, next);
    }
  }

  /** So two ack-only histories with the same first ack and the same acknowledged offsets
      from there on agree on the watermark and on everything buffered above it, whatever
      their order, their duplicates and the older offsets they repeat. */
  lemma SameAcksSameLevel(h: History, g: History)
    requires Wellformed(h) && HasAck(h) && AckOnly(h)
    requires Wellformed(g) && HasAck(g) && AckOnly(g)
    requires FirstAck(h) == FirstAck(g)
    requires forall o :: o >= FirstAck(h) ==> (Acked(o) in h <==> Acked(o) in g)
    ensures Level(h) == Level(g)
    ensures forall o :: o > Level(h) ==> (o in Replay(h).value.pending <==> o in Replay(g).value.pending)
  {
    WatermarkRefinement(h);
    WatermarkRefinement(g);
    OrderIndependence(h, Level(g));
    OrderIndependence(g, Level(h));
    forall o | o > Level(h)
      ensures o in Replay(h).value.pending <==> Acked(o) in h
      ensures o in Replay(g).value.pending <==> Acked(o) in g
    {
      if Acked(o) in h { AckOnlyLatest(h, o); AckOnlyLatest(g, o); }
      if Latest(h, o) == AckMark { LatestAckWasAcked(h, o); }
      if Latest(g, o) == AckMark { LatestAckWasAcked(g, o); }
    }
  }

  // ---------------------------------------------------------------------------------------
  // The documented invariant, and exactly when it holds
  // ---------------------------------------------------------------------------------------

  /** "All offsets in the pending and the failed set are above the committed offset." */
  ghost predicate Documented(c: Cursor) {
    && (forall o :: o in c.pending ==> o > c.committed)
    && (forall o :: o in c.failed ==> o > c.committed)
  }

  /** Every event since registration was about an offset above the watermark of its time. */
  ghost predicate AlwaysAbove(h: History) {
    h != [] ==>
      && AlwaysAbove(Front(h))
      && (HasAck(Front(h)) ==> Last(h).offset > Level(Front(h)))
  }

  lemma ReackLeavesStaleEntry()
    ensures Replay([Acked(5), Acked(5)]).Some?
    ensures !Documented(Replay([Acked(5), Acked(5)]).value)
  {
    var h := [Acked(5)];
    FrontOf([], Acked(5));
    FrontOf(h, Acked(5));
    assert HasAck(h) by { assert h[0].Acked?; }
    assert !HasAck([]);
    assert [] + [Acked(5)] == h && h + [Acked(5)] == [Acked(5), Acked(5)];
    FirstAckReflected(h);
    AdvanceEndsRun(Cursor(5, {5}, {}, None, false));
    var c := Replay(h).value;
    assert Replay([Acked(5), Acked(5)]) == Some(AckCursor(c, 5));
    AdvanceEndsRun(c.(pending := c.pending + {5}, failed := c.failed - {5}));
    assert 5 in AckCursor(c, 5).pending;
  }

  lemma {:induction false} NoAckAlwaysAbove(h: History)
    requires !HasAck(h)
    ensures AlwaysAbove(h)
  {
    if h != [] {
      HasAckSplit(h);
      NoAckAlwaysAbove(Front(h));
    }
  }

  lemma DocumentedStep(c: Cursor, e: Event)
    requires c.committed >= 0 && c.pending !! c.failed
    ensures Documented(StepEntry(Some(c), e).value) <==> Documented(c) && e.offset > c.committed
  {
    match e
    case Acked(o) =>
      var buffered := c.(pending := c.pending + {o}, failed := c.failed - {o});
      AdvanceEndsRun(buffered);
      var r := Advance(buffered);
      assert o in r.pending || c.committed < o <= r.committed;
      if Documented(r) {
        forall x | x in c.pending ensures x > c.committed {
          assert x in r.pending || c.committed < x <= r.committed;
        }
        forall x | x in c.failed ensures x > c.committed { assert x == o || x in r.failed; }
      }
      if Documented(c) && o > c.committed {
        forall x | x in r.failed ensures x > r.committed {
          assert x !in buffered.pending;
        }
      }
    case Failed(o, reason) =>
      var r := FailCursor(c, o, reason);
      assert o in r.failed;
      if Documented(r) {
        forall x | x in c.pending ensures x > c.committed { assert x == o || x in r.pending; }
        forall x | x in c.failed ensures x > c.committed { assert x in r.failed; }
      }
  }

  lemma {:induction false} DocumentedExactly(h: History)
    requires Wellformed(h) && HasAck(h)
    ensures Replay(h).Some?
    ensures Documented(Replay(h).value) <==> AlwaysAbove(h)
  {
    HasAckSplit(h);
    RegisteredIffAcked(Front(h));
    if HasAck(Front(h)) {
      DocumentedExactly(Front(h));
      WatermarkRefinement(Front(h));
      DocumentedStep(Replay(Front(h)).value, Last(h));
    } else {
      NoAckAlwaysAbove(Front(h));
      FirstAckReflected(h);
    }
  }

  // ---------------------------------------------------------------------------------------
  // Terminal failures
  // ---------------------------------------------------------------------------------------

  function ShouldCommit(entry: Option<Cursor>): bool {
    && entry.Some?
    && !entry.value.terminal
    && (entry.value.pending != {} || entry.value.committed >= 0)
  }

  /** A terminal failure was reported while the partition was registered. */
  ghost predicate SawTerminal(h: History) {
    h != [] &&
    (SawTerminal(Front(h)) ||
     (HasAck(Front(h)) && Last(h).Failed? && Last(h).reason.Terminal?))
  }

  lemma {:induction false} TerminalExactly(h: History)
    ensures Replay(h).Some? ==> (Replay(h).value.terminal <==> SawTerminal(h))
    ensures SawTerminal(h) ==> HasAck(h)
  {
    if h != [] {
      TerminalExactly(Front(h));
      RegisteredIffAcked(Front(h));
      HasAckSplit(h);
      if Last(h).Acked? {
        var c := if HasAck(Front(h)) then Replay(Front(h)).value else FRESH;
        var o := Last(h).offset;
        AdvanceEndsRun(Seeded(c, o).(pending := c.pending + {o}, failed := c.failed - {o}));
      }
    }
  }

  /** A partition may be committed exactly when it is registered and saw no terminal failure. */
  lemma ShouldCommitExactly(h: History)
    requires Wellformed(h)
    ensures ShouldCommit(Replay(h)) <==> HasAck(h) && !SawTerminal(h)
  {
    RegisteredIffAcked(h);
    TerminalExactly(h);
    if HasAck(h) {
      WatermarkRefinement(h);
    }
  }

  lemma {:induction false} TerminalIsForever(h: History, g: History)
    requires Wellformed(h + g) && SawTerminal(h)
    ensures SawTerminal(h + g) && !ShouldCommit(Replay(h + g))
    decreases |g|
  {
    if g == [] {
      assert h + g == h;
    } else {
      assert h + g == (h + Front(g)) + [Last(g)];
      FrontOf(h + Front(g), Last(g));
      WellformedPrefix(h + Front(g), [Last(g)]);
      TerminalIsForever(h, Front(g));
    }
    ShouldCommitExactly(h + g);
  }

  lemma AckInPrefix(h: History, i: nat)
    requires i <= |h|
    ensures HasAck(h[..i]) ==> HasAck(h)
  {
    if HasAck(h[..i]) {
      var k :| 0 <= k < |h[..i]| && h[..i][k].Acked?;
      assert h[k].Acked?;
    }
  }

  /** The partition remembers why it failed last: the latest failure since it was registered. */
  lemma {:induction false} LastReasonIsLatest(h: History)
    requires Replay(h).Some?
    ensures Replay(h).value.lastReason.None? <==> forall i :: 0 <= i < |h| && h[i].Failed? ==> !HasAck(h[..i])
    ensures forall i :: 0 <= i < |h| && h[i].Failed? && HasAck(h[..i]) && (forall j :: i < j < |h| ==> h[j].Acked?) ==>
              Replay(h).value.lastReason == Some(h[i].reason)
  {
    var n := |h| - 1;
    RegisteredIffAcked(Front(h));
    assert forall i :: 0 <= i < n ==> h[..i] == Front(h)[..i];
    if HasAck(Front(h)) {
      LastReasonIsLatest(Front(h));
    } else {
      forall i | 0 <= i <= n ensures !HasAck(h[..i]) {
        AckInPrefix(Front(h), i);
        assert Front(h)[..i] == h[..i];
      }
    }
    if Last(h).Acked? {
      var c := if HasAck(Front(h)) then Replay(Front(h)).value else FRESH;
      var o := Last(h).offset;
      AdvanceEndsRun(Seeded(c, o).(pending := c.pending + {o}, failed := c.failed - {o}));
    }
  }

  // ---------------------------------------------------------------------------------------
  // All partitions together
  // ---------------------------------------------------------------------------------------

  type Tracker = map<TopicPartition, Cursor>

  datatype Tagged = Tagged(home: TopicPartition, event: Event)

  function Entry(t: Tracker, p: TopicPartition): Option<Cursor> {
    if p in t then Some(t[p]) else None
  }

  function StepTracker(t: Tracker, p: TopicPartition, e: Event): Tracker {
    var entry := StepEntry(Entry(t, p), e);
    if entry.Some? then t[p := entry.value] else t
  }

  function Feed(log: seq<Tagged>): Tracker {
    if log == [] then map[]
    else
      var last := log[|log| - 1];
      StepTracker(Feed(log[..|log| - 1]), last.home, last.event)
  }

  lemma FeedOne(log: seq<Tagged>, e: Tagged)
    ensures Feed(log + [e]) == StepTracker(Feed(log), e.home, e.event)
  {
    assert (log + [e])[..|log|] == log;
  }

  /** The events of one partition, in order. */
  function Of(log: seq<Tagged>, p: TopicPartition): History {
    if log == [] then []
    else
      var last := log[|log| - 1];
      Of(log[..|log| - 1], p) + if last.home == p then [last.event] else []
  }

  /** Each partition sees only its own events. */
  lemma {:induction false} PartitionsIndependent(log: seq<Tagged>, p: TopicPartition)
    ensures Entry(Feed(log), p) == Replay(Of(log, p))
  {
    if log != [] {
      var last := log[|log| - 1];
      PartitionsIndependent(log[..|log| - 1], p);
      var before := Of(log[..|log| - 1], p);
      if last.home == p {
        FrontOf(before, last.event);
      } else {
        assert before + [] == before;
      }
    }
  }

  lemma {:induction false} OfAppend(log: seq<Tagged>, more: seq<Tagged>, p: TopicPartition)
    ensures Of(log + more, p) == Of(log, p) + Of(more, p)
  {
    if more == [] {
      assert log + more == log;
    } else {
      assert (log + more)[..|log + more| - 1] == log + more[..|more| - 1];
      OfAppend(log, more[..|more| - 1], p);
    }
  }
}
