/** How long a message may wait in the batch worker. */
module BatchLaws {
  import opened Types
  import opened Effects
  import opened Retry
  import opened Worker
  import opened Accumulation
  import opened BatchLoop

  /** The arrival times of partition `p`, in order. */
  ghost function Times(received: seq<Arrival>, p: int): seq<int> {
    if received == [] then []
    else
      var last := received[|received| - 1];
      Times(received[..|received| - 1], p) + if last.m.partition == p then [last.now] else []
  }

  ghost predicate ClockMonotone(received: seq<Arrival>) {
    forall i, j :: 0 <= i < j < |received| ==> received[i].now <= received[j].now
  }

  lemma {:induction false} TimesMatch(received: seq<Arrival>, p: int)
    ensures |Times(received, p)| == |Arrived(received, p)|
    ensures FirstArrival(received, p) == if Times(received, p) == [] then None else Some(Times(received, p)[0])
  {
    if received != [] {
      TimesMatch(received[..|received| - 1], p);
    }
  }

  lemma {:induction false} FirstIsEarliest(received: seq<Arrival>, k: nat)
    requires ClockMonotone(received) && k < |received|
    ensures FirstArrival(received, received[k].m.partition).Some?
    ensures FirstArrival(received, received[k].m.partition).value <= received[k].now
  {
    var n := |received| - 1;
    var front := received[..n];
    var p := received[k].m.partition;
    if k < n {
      assert front[k] == received[k];
      FirstIsEarliest(front, k);
    } else if FirstArrival(front, p).Some? {
      FirstArrivalHappened(front, p);
    }
  }

  lemma {:induction false} FirstArrivalHappened(received: seq<Arrival>, p: int)
    requires FirstArrival(received, p).Some?
    ensures exists i :: 0 <= i < |received| && received[i].now == FirstArrival(received, p).value
  {
    var n := |received| - 1;
    if FirstArrival(received[..n], p).Some? {
      FirstArrivalHappened(received[..n], p);
      var i :| 0 <= i < n && received[..n][i].now == FirstArrival(received, p).value;
      assert received[i].now == FirstArrival(received, p).value;
    } else {
      assert received[n].now == FirstArrival(received, p).value;
    }
  }

  /** At every point of every run, and so also after earlier flushes, the partition of every
      message received so far has a deadline, no later than that message's arrival plus the
      maximal wait; the earliest deadline, which the loop sleeps on, is no later either. */
  lemma BoundedWaiting(d: Desk, max: nat, wait: nat, k: nat, earliest: Option<int>)
    requires Kept(d, max, wait) && ClockMonotone(d.received) && k < |d.received|
    requires earliest.Some? ==> forall p :: DeadlineOf(d.acc, p).Some? ==> earliest.value <= DeadlineOf(d.acc, p).value
    requires earliest.None? <==> forall p :: DeadlineOf(d.acc, p).None?
    ensures var p := d.received[k].m.partition;
            && DeadlineOf(d.acc, p).Some? && DeadlineOf(d.acc, p).value <= d.received[k].now + wait
            && earliest.Some? && earliest.value <= d.received[k].now + wait
  {
    FirstIsEarliest(d.received, k);
  }

  /** The documented window, first buffered message plus maximal wait, is the code's deadline
      exactly until the partition is flushed for the first time: the timer never restarts. */
  lemma FixedWindowExactly(d: Desk, max: nat, wait: nat, p: int)
    requires Kept(d, max, wait) && Held(d.acc, p) != []
    requires forall i, j :: 0 <= i < j < |Times(d.received, p)| ==> Times(d.received, p)[i] < Times(d.received, p)[j]
    ensures |Held(d.acc, p)| <= |Times(d.received, p)|
    ensures var oldest := Times(d.received, p)[|Times(d.received, p)| - |Held(d.acc, p)|];
            DeadlineOf(d.acc, p) == Some(oldest + wait) <==> Drained(d.flushed, p) == []
  {
    TimesMatch(d.received, p);
    assert Drained(d.flushed, p) + Held(d.acc, p) == Arrived(d.received, p);
  }

  /** A message, a fired deadline, and another message of the same partition. */
  function FlushedBetween(m: Message, start: int, n: Message, later: int): seq<Input> {
    [Arrives(m, start, false), DeadlineFired, Arrives(n, later, false)]
  }

  lemma WhatIsExpected(m: Message, start: int, n: Message, later: int, max: nat)
    requires max >= 2 && n.partition == m.partition
    ensures forall q :: Expected(FlushedBetween(m, start, n, later), q, max) == if q == m.partition then [n] else []
    ensures forall q :: ExpectedBatches(FlushedBetween(m, start, n, later), q, max) == if q == m.partition then [[m]] else []
    ensures ArrivalsIn(FlushedBetween(m, start, n, later)) == [Arrival(m, start), Arrival(n, later)]
  {
    var inputs := FlushedBetween(m, start, n, later);
    assert inputs[..3] == inputs && inputs[..0] == [];
    ArrivalsStep(inputs, 0);
    ArrivalsStep(inputs, 1);
    ArrivalsStep(inputs, 2);
    assert ArrivalsIn(inputs[..1]) == [Arrival(m, start)] == ArrivalsIn(inputs[..2]);
    hide Expected, ExpectedBatches, ArrivalsIn;
    forall q
      ensures Expected(inputs, q, max) == if q == m.partition then [n] else []
      ensures ExpectedBatches(inputs, q, max) == if q == m.partition then [[m]] else []
    {
      ExpectedAt(inputs, m, start, n, later, q, max);
    }
  }

  lemma ExpectedAt(inputs: seq<Input>, m: Message, start: int, n: Message, later: int, q: int, max: nat)
    requires inputs == FlushedBetween(m, start, n, later) && max >= 2 && n.partition == m.partition
    ensures Expected(inputs, q, max) == if q == m.partition then [n] else []
    ensures ExpectedBatches(inputs, q, max) == if q == m.partition then [[m]] else []
  {
    assert inputs[..3] == inputs && inputs[..0] == [];
    assert Expected(inputs[..0], q, max) == [] && ExpectedBatches(inputs[..0], q, max) == [] && !Pressed(inputs[..0]);
    hide Expected, ExpectedBatches, Pressed;
    ExpectedStep(inputs, 0, max);
    assert Expected(inputs[..1], q, max) == (if q == m.partition then [m] else []) && ExpectedBatches(inputs[..1], q, max) == [];
    ExpectedStep(inputs, 1, max);
    assert Expected(inputs[..2], q, max) == [] && ExpectedBatches(inputs[..2], q, max) == if q == m.partition then [[m]] else [];
    ExpectedStep(inputs, 2, max);
  }

  /** A stale deadline in the loop's own states: the first message is flushed when its deadline
      fires, and the next one, whenever it arrives, is due one wait after the arrival of that first
      message; if that is over by then, it is overdue on arrival. */
  lemma StaleDeadline(d: Desk, p: RetryPolicy, w: World, parts: seq<seq<seq<Effect>>>, handler: Handler, random: real,
                       max: nat, wait: nat, m: Message, start: int, n: Message, later: int)
    requires max >= 2 && n.partition == m.partition
    requires Progress(d, d.acc, max, wait, FlushedBetween(m, start, n, later), p, w, parts, handler, random)
    ensures Held(d.acc, m.partition) == [n]
    ensures DeadlineOf(d.acc, m.partition) == Some(start + wait)
    ensures later > start + wait ==> DeadlineOf(d.acc, m.partition).value < later
  {
    hide Kept, AllSettled, FlushedBetween, Expected, ExpectedBatches, ArrivalsIn;
    WhatIsExpected(m, start, n, later, max);
    TwoArrivals(d, max, wait, m, start, n, later);
  }

  /** And the loop does get there, whatever its handler says about the first batch. */
  lemma StaleDeadlineReached(p: RetryPolicy, w: World, handler: Handler, random: real, max: nat, wait: nat, m: Message, start: int, n: Message, later: int)
    requires max >= 2 && n.partition == m.partition && m.offset >= 0 && n.offset >= 0
    ensures exists d: Desk, parts: seq<seq<seq<Effect>>> :: Progress(d, d.acc, max, wait, FlushedBetween(m, start, n, later), p, w, parts, handler, random)
  {
    hide Kept, Expected, ExpectedBatches, FlushedBetween, ArrivalsIn, SettledAs, Held, Taken, SettleEffects, BatchSettled, AllSettled, OneDone, BatchDone, ApplyAll, Flat;
    var d := FlushedDesk(max, wait, m, start, n, later);
    var result := handler.Result(0);
    var part := SettleEffects(p, w.retry, m, result, random);
    WhatIsExpected(m, start, n, later, max);
    TakenOne(d.flushed);
    OneSettled(p, w, m, result, random);
    FlatNone(p, w);
    NoneSettled(p, w, result, random);
    SettledOneMore(p, w, [], [], result, random, part, m);
    assert [] + [part] == [part] && [] + [m] == [m];
    OneBatchSettled(p, w, [part], d.flushed[0], handler, 0, random);
    assert Progress(d, d.acc, max, wait, FlushedBetween(m, start, n, later), p, w, [[part]], handler, random);
  }

  lemma FlushedDesk(max: nat, wait: nat, m: Message, start: int, n: Message, later: int) returns (d: Desk)
    requires max >= 2 && n.partition == m.partition
    ensures Kept(d, max, wait)
    ensures d.received == [Arrival(m, start), Arrival(n, later)] && d.flushed == [Batch(m.partition, [m])]
    ensures forall q :: Held(d.acc, q) == if q == m.partition then [n] else []
  {
    var p := m.partition;
    var d0 := Desk([], [], map[]);
    EmptyKept(max, wait);
    var d1 := Receive(d0, m, start, wait);
    hide Kept, AddTo, Emptied;
    ReceiveKeeps(d0, max, wait, m, start);
    assert Held(d0.acc, p) == [] && Held(d1.acc, p) == [m];
    FlushOneKeeps(d1, max, wait, p);
    var d2 := Desk(d1.received, d1.flushed + [Batch(p, Held(d1.acc, p))], Emptied(d1.acc, p));
    ReceiveKeeps(d2, max, wait, n, later);
    d := Receive(d2, n, later, wait);
  }

  lemma EmptyKept(max: nat, wait: nat)
    ensures Kept(Desk([], [], map[]), max, wait)
  {
  }

  lemma TwoArrivals(d: Desk, max: nat, wait: nat, m: Message, start: int, n: Message, later: int)
    requires Kept(d, max, wait) && d.received == [Arrival(m, start), Arrival(n, later)]
    ensures DeadlineOf(d.acc, m.partition) == Some(start + wait)
  {
    ReceivedOne([], Arrival(m, start));
    ReceivedOne([Arrival(m, start)], Arrival(n, later));
    assert [] + [Arrival(m, start)] == [Arrival(m, start)];
    assert [Arrival(m, start)] + [Arrival(n, later)] == d.received;
  }

  /** The documented "no deadline if all buffers are empty" holds only before the very first
      message: the earliest deadline is absent exactly if nothing was ever received. */
  lemma NoDeadlineExactly(d: Desk, max: nat, wait: nat)
    requires Kept(d, max, wait)
    ensures (forall p :: DeadlineOf(d.acc, p).None?) <==> d.received == []
  {
    if d.received != [] {
      var p := d.received[0].m.partition;
      ArrivedAt(d.received, 0);
      ArrivedSince(d.received, p);
      assert DeadlineOf(d.acc, p).Some?;
    }
  }

  lemma {:induction false} ArrivedAt(received: seq<Arrival>, k: nat)
    requires k < |received|
    ensures Arrived(received, received[k].m.partition) != []
  {
    var n := |received| - 1;
    if k < n {
      assert received[..n][k] == received[k];
      ArrivedAt(received[..n], k);
    }
  }

  /** So once the first window is over the timer is due at every later moment, also while all
      buffers are empty. */
  lemma TimerStaysDue(d: Desk, max: nat, wait: nat, now: int, earliest: Option<int>)
    requires Kept(d, max, wait) && ClockMonotone(d.received)
    requires d.received != [] && d.received[0].now + wait <= now
    requires earliest.Some? ==> forall p :: DeadlineOf(d.acc, p).Some? ==> earliest.value <= DeadlineOf(d.acc, p).value
    requires earliest.None? <==> forall p :: DeadlineOf(d.acc, p).None?
    ensures earliest.Some? && earliest.value <= now
  {
    BoundedWaiting(d, max, wait, 0, earliest);
  }
}
