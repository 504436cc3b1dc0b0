/** The per-partition watermark: what one acknowledgement or failure does to a
    partition's cursor, and what the cursor means in terms of the events so far. */
module Offsets {
  import opened Types

  /** The value of one partition's state. `committed` is the watermark, -1 before the first ack. */
  datatype Cursor = Cursor(
    committed: int,
    pending: set<int>,
    failed: set<int>,
    lastReason: Option<FailureReason>,
    terminal: bool)

  const FRESH := Cursor(-1, {}, {}, None, false)

  /** Moves the watermark over every directly following pending offset. */
  function Advance(c: Cursor): Cursor
    decreases |c.pending|
  {
    var next := c.committed + 1;
    if next in c.pending then Advance(c.(committed := next, pending := c.pending - {next})) else c
  }

  /** The first ack seeds the watermark just below its own offset. */
  function AckCursor(c: Cursor, offset: int): Cursor {
    Advance(Seeded(c, offset).(pending := c.pending + {offset}, failed := c.failed - {offset}))
  }

  function Seeded(c: Cursor, offset: int): Cursor {
    if c.committed == -1 then c.(committed := offset - 1) else c
  }

  function FailCursor(c: Cursor, offset: int, reason: FailureReason): Cursor {
    c.(pending := c.pending - {offset},
       failed := c.failed + {offset},
       lastReason := Some(reason),
       terminal := c.terminal || reason.Category() == TerminalCategory)
  }

  // ---------------------------------------------------------------------------------------
  // Histories of one partition
  // ---------------------------------------------------------------------------------------

  datatype Event = Acked(offset: int) | Failed(offset: int, reason: FailureReason)

  type History = seq<Event>

  function Last(h: History): Event
    requires h != []
  {
    h[|h| - 1]
  }

  function Front(h: History): History
    requires h != []
  {
    h[..|h| - 1]
  }

  /** Only acks of non-negative offsets get past the tracker's assertion. */
  ghost predicate Wellformed(h: History) {
    forall i :: 0 <= i < |h| && h[i].Acked? ==> h[i].offset >= 0
  }

  ghost predicate HasAck(h: History) {
    exists i :: 0 <= i < |h| && h[i].Acked?
  }

  /** A partition is registered by its first ack; a failure before that is ignored. */
  function StepEntry(entry: Option<Cursor>, e: Event): Option<Cursor> {
    match e
    case Acked(o) => Some(AckCursor(if entry.Some? then entry.value else FRESH, o))
    case Failed(o, r) => if entry.Some? then Some(FailCursor(entry.value, o, r)) else None
  }

  function Replay(h: History): Option<Cursor> {
    if h == [] then None else StepEntry(Replay(Front(h)), Last(h))
  }

  ghost function FirstAck(h: History): int
    requires HasAck(h)
  {
    if HasAck(Front(h)) then FirstAck(Front(h)) else Last(h).offset
  }

  datatype Mark = Unmarked | AckMark | FailMark

  /** The latest event about `o` since the partition was registered. */
  ghost function Latest(h: History, o: int): Mark {
    if h == [] then Unmarked
    else match Last(h)
      case Acked(x) => if x == o then AckMark else Latest(Front(h), o)
      case Failed(x, _) => if x == o && HasAck(Front(h)) then FailMark else Latest(Front(h), o)
  }

  /** `n` ends the run of acknowledged offsets that starts just above `from`. */
  ghost predicate EndsRun(h: History, from: int, n: int) {
    && from <= n
    && (forall k :: from < k <= n ==> Latest(h, k) == AckMark)
    && Latest(h, n + 1) != AckMark
  }

  /** The watermark read off the history alone, with no buffered sets: it starts at the
      first ack and each event extends it over the acknowledged run above it. */
  ghost predicate Watermark(h: History, w: int)
    decreases |h|
  {
    && HasAck(h)
    && if HasAck(Front(h)) then exists v :: Watermark(Front(h), v) && EndsRun(h, v, w)
       else w == Last(h).offset
  }

  // ---------------------------------------------------------------------------------------
  // Stepping lemmas
  // ---------------------------------------------------------------------------------------

  lemma HasAckSplit(h: History)
    requires h != []
    ensures HasAck(h) <==> HasAck(Front(h)) || Last(h).Acked?
  {
    if HasAck(h) {
      var i :| 0 <= i < |h| && h[i].Acked?;
      assert i < |h| - 1 ==> Front(h)[i].Acked?;
    }
    if HasAck(Front(h)) {
      var i :| 0 <= i < |Front(h)| && Front(h)[i].Acked?;
      assert h[i].Acked?;
    }
  }

  lemma {:induction false} RegisteredIffAcked(h: History)
    ensures Replay(h).Some? <==> HasAck(h)
  {
    if h != [] {
      RegisteredIffAcked(Front(h));
      HasAckSplit(h);
    }
  }

  /** What the advancing loop leaves: it eats exactly one maximal run. */
  lemma {:induction false} AdvanceEndsRun(c: Cursor)
    ensures var r := Advance(c);
            && c.committed <= r.committed
            && (forall k :: c.committed < k <= r.committed ==> k in c.pending)
            && r.committed + 1 !in c.pending
            && r.committed + 1 !in r.pending
            && r.pending == (set k | k in c.pending && !(c.committed < k <= r.committed))
            && r.failed == c.failed && r.terminal == c.terminal && r.lastReason == c.lastReason
    decreases |c.pending|
  {
    var next := c.committed + 1;
    if next in c.pending {
      var c' := c.(committed := next, pending := c.pending - {next});
      AdvanceEndsRun(c');
      forall k | c.committed < k <= Advance(c).committed ensures k in c.pending {
        assert k == next || k in c'.pending;
      }
    }
  }

  /** With nothing buffered, an ack right above the watermark, or the first ack, moves it there. */
  lemma NextAck(c: Cursor, o: int)
    requires c.pending == {} && (o == c.committed + 1 || c.committed == -1)
    ensures AckCursor(c, o).committed == o && AckCursor(c, o).pending == {} && AckCursor(c, o).terminal == c.terminal
  {
    var buffered := Seeded(c, o).(pending := c.pending + {o}, failed := c.failed - {o});
    AdvanceEndsRun(buffered);
    assert buffered.pending == {o};
  }

  /** Everything the buffered sets mean, at and above the watermark. */
  ghost predicate Reflects(h: History, c: Cursor)
    requires HasAck(h)
  {
    && 0 <= FirstAck(h) <= c.committed
    && (forall n :: FirstAck(h) <= n <= c.committed ==> Acked(n) in h)
    && c.committed + 1 !in c.pending
    && c.pending !! c.failed
    && (forall o :: o > c.committed ==> (o in c.pending <==> Latest(h, o) == AckMark))
    && (forall o :: o > c.committed ==> (o in c.failed <==> Latest(h, o) == FailMark))
  }

  lemma {:induction false} LatestAckWasAcked(h: History, o: int)
    requires Latest(h, o) == AckMark
    ensures Acked(o) in h
  {
    if Last(h) != Acked(o) {
      LatestAckWasAcked(Front(h), o);
    }
  }

  lemma {:induction false} NoAckNoMark(h: History, o: int)
    requires !HasAck(h)
    ensures Latest(h, o) == Unmarked
  {
    if h != [] {
      HasAckSplit(h);
      NoAckNoMark(Front(h), o);
    }
  }

  /** The watermark refinement, for every interleaving of acks and failures. */
  lemma {:induction false} WatermarkRefinement(h: History)
    requires Wellformed(h) && HasAck(h)
    ensures Replay(h).Some? && Reflects(h, Replay(h).value)
  {
    HasAckSplit(h);
    RegisteredIffAcked(Front(h));
    if HasAck(Front(h)) {
      WatermarkRefinement(Front(h));
      StepKeepsReflection(h);
    } else {
      FirstAckReflected(h);
    }
  }

  lemma FirstAckReflected(h: History)
    requires Wellformed(h) && HasAck(h) && !HasAck(Front(h)) && Last(h).Acked?
    requires Replay(Front(h)) == None
    ensures Replay(h).Some? && Reflects(h, Replay(h).value)
    ensures Replay(h).value.committed == Last(h).offset == FirstAck(h)
    ensures Replay(h).value.pending == {} && Replay(h).value.failed == {}
  {
    var o := Last(h).offset;
    var start := Cursor(o - 1, {o}, {}, None, false);
    assert Replay(h) == Some(Advance(start)) by {
      assert {} + {o} == {o};
      assert {} - {o} == {};
    }
    AdvanceEndsRun(start);
    var c := Advance(start);
    assert c.committed == o;
    forall x ensures Latest(Front(h), x) == Unmarked {
      NoAckNoMark(Front(h), x);
    }
  }

  lemma AckKeepsReflection(h: History)
    requires Wellformed(h) && HasAck(h) && HasAck(Front(h)) && Last(h).Acked?
    requires Replay(Front(h)).Some? && Reflects(Front(h), Replay(Front(h)).value)
    ensures Replay(h).Some? && Reflects(h, Replay(h).value)
    ensures EndsRun(h, Replay(Front(h)).value.committed, Replay(h).value.committed)
  {
    var was := Replay(Front(h)).value;
    var o := Last(h).offset;
    var buffered := was.(pending := was.pending + {o}, failed := was.failed - {o});
    AdvanceEndsRun(buffered);
    var c := Advance(buffered);
    assert Replay(h) == Some(c) && FirstAck(h) == FirstAck(Front(h));
    forall x | x > was.committed ensures x in buffered.pending <==> Latest(h, x) == AckMark {}
    forall n | FirstAck(h) <= n <= c.committed ensures Acked(n) in h {
      if n <= was.committed {
        assert Acked(n) in Front(h);
      } else {
        LatestAckWasAcked(h, n);
      }
    }
  }

  lemma FailKeepsReflection(h: History)
    requires Wellformed(h) && HasAck(h) && HasAck(Front(h)) && Last(h).Failed?
    requires Replay(Front(h)).Some? && Reflects(Front(h), Replay(Front(h)).value)
    ensures Replay(h).Some? && Reflects(h, Replay(h).value)
    ensures EndsRun(h, Replay(Front(h)).value.committed, Replay(h).value.committed)
  {
    assert FirstAck(h) == FirstAck(Front(h));
    forall n | Acked(n) in Front(h) ensures Acked(n) in h {}
  }

  lemma StepKeepsReflection(h: History)
    requires Wellformed(h) && HasAck(h) && HasAck(Front(h))
    requires Replay(Front(h)).Some? && Reflects(Front(h), Replay(Front(h)).value)
    ensures Replay(h).Some? && Reflects(h, Replay(h).value)
    ensures EndsRun(h, Replay(Front(h)).value.committed, Replay(h).value.committed)
  {
    if Last(h).Acked? {
      AckKeepsReflection(h);
    } else {
      FailKeepsReflection(h);
    }
  }

  /** The cursor's watermark is the one the history defines, both ways. */
  lemma {:induction false} CursorIsWatermark(h: History, w: int)
    requires Wellformed(h)
    ensures Watermark(h, w) <==> Replay(h).Some? && w == Replay(h).value.committed
    decreases |h|
  {
    RegisteredIffAcked(h);
    if HasAck(h) {
      HasAckSplit(h);
      RegisteredIffAcked(Front(h));
      if HasAck(Front(h)) {
        var v := Replay(Front(h)).value.committed;
        WatermarkRefinement(Front(h));
        StepKeepsReflection(h);
        CursorIsWatermark(Front(h), v);
        forall u | Watermark(Front(h), u) ensures u == v {
          CursorIsWatermark(Front(h), u);
        }
        EndsRunUnique(h, v, w, Replay(h).value.committed);
      } else {
        FirstAckReflected(h);
      }
    }
  }

  lemma EndsRunUnique(h: History, from: int, m: int, n: int)
    ensures EndsRun(h, from, m) && EndsRun(h, from, n) ==> m == n
  {
  }
}
