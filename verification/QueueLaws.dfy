/** What every run of one queue keeps: conservation of messages, the permit bound and its
    leak, and the hysteresis between pausing and resuming. */
module QueueLaws {
  import opened Types
  import opened Queues

  /** A queue with the messages its worker took and has not acked back yet, the messages lost
      with a dropped receiver, and whether its topic is paused. */
  datatype Line = Line(q: Queue, held: seq<Message>, dropped: nat, paused: bool)

  datatype Move =
    | Send(m: Message, pauseWorks: bool)
    | Take
    | Settle(which: nat)
    | Close

  predicate Enabled(l: Line, move: Move) {
    match move
    case Send(_, _) => true
    case Take => l.q.open && l.q.channel != []
    case Settle(i) => i < |l.held|
    case Close => l.q.open
  }

  function Step(l: Line, move: Move): Line
    requires Enabled(l, move)
  {
    match move
    case Send(m, pauseWorks) =>
      var (q, r) := SendStep(l.q, m);
      l.(q := q,
         paused := if Resumes(l.q, r) then false else l.paused || (r.Pauses() && pauseWorks))
    case Take => l.(q := l.q.(channel := l.q.channel[1..]), held := l.held + [l.q.channel[0]])
    case Settle(i) => l.(q := AckStep(l.q, 1), held := l.held[..i] + l.held[i + 1..])
    case Close => l.(q := l.q.(open := false, channel := []), dropped := l.dropped + |l.q.channel|)
  }

  ghost predicate Run(ls: seq<Line>, ms: seq<Move>) {
    && |ls| == |ms| + 1
    && ls[0] == Line(NewQueue(ls[0].q.capacity, ls[0].q.limit), [], 0, false)
    && forall i :: 0 <= i < |ms| ==> Enabled(ls[i], ms[i]) && ls[i + 1] == Step(ls[i], ms[i])
  }

  function Result(l: Line, move: Move): SendResult
    requires move.Send?
  {
    SendStep(l.q, move.m).1
  }

  /** Sends among the first `n` moves that were refused after their permit was taken. */
  ghost function Leaks(ls: seq<Line>, ms: seq<Move>, n: nat): nat
    requires Run(ls, ms) && n <= |ms|
  {
    if n == 0 then 0
    else
      Leaks(ls, ms, n - 1) +
      if ms[n - 1].Send? && (Result(ls[n - 1], ms[n - 1]).Full? || Result(ls[n - 1], ms[n - 1]).Closed?) then 1 else 0
  }

  ghost predicate Conserved(l: Line, leaks: nat) {
    && l.q.depth == l.q.inflight == |l.q.channel| + |l.held| + l.dropped
    && (l.q.open ==> l.dropped == 0)
    && |l.q.channel| <= l.q.capacity
    && (l.q.limit.Some? ==> l.q.inflight + leaks == l.q.permits <= l.q.limit.value)
  }

  lemma {:induction false} RunConserves(ls: seq<Line>, ms: seq<Move>, n: nat)
    requires Run(ls, ms) && n <= |ms|
    ensures ls[n].q.capacity == ls[0].q.capacity && ls[n].q.limit == ls[0].q.limit
    ensures Conserved(ls[n], Leaks(ls, ms, n))
  {
    if n > 0 {
      RunConserves(ls, ms, n - 1);
      assert ls[n] == Step(ls[n - 1], ms[n - 1]);
    }
  }

  /** While the receiver is open both counters count exactly the messages in the channel and
      in the worker's hands, so an ack of a held message never saturates. */
  lemma QueueConservation(ls: seq<Line>, ms: seq<Move>, n: nat)
    requires Run(ls, ms) && n <= |ms| && ls[n].q.open
    ensures ls[n].q.depth == ls[n].q.inflight == |ls[n].q.channel| + |ls[n].held|
    ensures forall i :: Enabled(ls[n], Settle(i)) ==>
              && Step(ls[n], Settle(i)).q.depth + 1 == ls[n].q.depth
              && Step(ls[n], Settle(i)).q.inflight + 1 == ls[n].q.inflight
              && (ls[n].q.limit.Some? ==> Step(ls[n], Settle(i)).q.permits + 1 == ls[n].q.permits)
  {
    RunConserves(ls, ms, n);
  }

  /** A worker that takes a message only with empty hands keeps at most one beyond the channel. */
  lemma {:induction false} SingleWorkerBound(ls: seq<Line>, ms: seq<Move>, n: nat)
    requires Run(ls, ms) && n <= |ms|
    requires forall i :: 0 <= i < n && ms[i].Take? ==> ls[i].held == []
    ensures |ls[n].held| <= 1
    ensures ls[n].q.open ==> ls[n].q.inflight <= ls[n].q.capacity + 1
  {
    if n > 0 {
      SingleWorkerBound(ls, ms, n - 1);
      assert ls[n] == Step(ls[n - 1], ms[n - 1]);
    }
    RunConserves(ls, ms, n);
  }

  // ---------------------------------------------------------------------------------------
  // Permits
  // ---------------------------------------------------------------------------------------

  /** The concurrency bound, and exactly when the permits in use are the messages in flight:
      as long as no send was refused after taking its permit. */
  lemma PermitBound(ls: seq<Line>, ms: seq<Move>, n: nat)
    requires Run(ls, ms) && n <= |ms| && ls[0].q.limit.Some?
    ensures ls[n].q.inflight <= ls[n].q.permits <= ls[0].q.limit.value
    ensures ls[n].q.permits == ls[n].q.inflight <==>
            forall i :: 0 <= i < n && ms[i].Send? ==> !Result(ls[i], ms[i]).Full? && !Result(ls[i], ms[i]).Closed?
  {
    RunConserves(ls, ms, n);
    LeaksZeroIff(ls, ms, n);
  }

  lemma {:induction false} LeaksZeroIff(ls: seq<Line>, ms: seq<Move>, n: nat)
    requires Run(ls, ms) && n <= |ms|
    ensures Leaks(ls, ms, n) == 0 <==>
            forall i :: 0 <= i < n && ms[i].Send? ==> !Result(ls[i], ms[i]).Full? && !Result(ls[i], ms[i]).Closed?
  {
    if n > 0 {
      LeaksZeroIff(ls, ms, n - 1);
    }
  }

  lemma {:induction false} OpenUntilClosed(ls: seq<Line>, ms: seq<Move>, n: nat)
    requires Run(ls, ms) && n <= |ms| && Close !in ms
    ensures ls[n].q.open
  {
    if n > 0 {
      OpenUntilClosed(ls, ms, n - 1);
      assert ms[n - 1] in ms;
      assert ls[n] == Step(ls[n - 1], ms[n - 1]);
    }
  }

  /** With room for every permit in the channel, a send that got a permit is never refused. */
  lemma {:induction false} GrantedNeverFull(ls: seq<Line>, ms: seq<Move>, n: nat, m: Message)
    requires Run(ls, ms) && n <= |ms| && Close !in ms
    requires ls[0].q.limit.Some? && ls[0].q.limit.value <= ls[0].q.capacity
    ensures SendStep(ls[n].q, m).1.Sent? || SendStep(ls[n].q, m).1.NoPermit?
    ensures ls[n].q.permits == ls[n].q.inflight
  {
    OpenUntilClosed(ls, ms, n);
    RunConserves(ls, ms, n);
    if n > 0 {
      GrantedNeverFull(ls, ms, n - 1, if ms[n - 1].Send? then ms[n - 1].m else m);
      assert ls[n] == Step(ls[n - 1], ms[n - 1]);
      RunConserves(ls, ms, n - 1);
    }
  }

  /** A leak is for good. */
  lemma {:induction false} LeaksStay(ls: seq<Line>, ms: seq<Move>, n: nat, later: nat)
    requires Run(ls, ms) && n <= later <= |ms|
    ensures Leaks(ls, ms, n) <= Leaks(ls, ms, later)
    decreases later - n
  {
    if n < later {
      LeaksStay(ls, ms, n, later - 1);
    }
  }

  lemma OpenBefore(ls: seq<Line>, ms: seq<Move>, n: nat)
    requires Run(ls, ms) && 0 < n <= |ms| && ls[n].q.open
    ensures ls[n - 1].q.open
  {
    assert ls[n] == Step(ls[n - 1], ms[n - 1]);
  }

  /** While the receiver lives only the permits beyond the capacity can leak: a send is refused as
      full only with a channel full of messages that hold a permit each. The leaked permits are
      missing from the limit, which thereby never falls below the smaller of limit and capacity. */
  lemma {:induction false} LeaksBounded(ls: seq<Line>, ms: seq<Move>, n: nat)
    requires Run(ls, ms) && n <= |ms| && ls[0].q.limit.Some? && ls[n].q.open
    ensures var (limit, leaks, q) := (ls[0].q.limit.value, Leaks(ls, ms, n), ls[n].q);
            && (leaks == 0 || leaks + q.capacity <= limit)
            && limit - leaks >= MinNat(limit, q.capacity)
            && q.inflight <= limit - leaks
            && forall m :: SendStep(q, m).1.NoPermit? <==> q.inflight == limit - leaks
  {
    hide Conserved;
    RunConserves(ls, ms, n);
    if n > 0 {
      OpenBefore(ls, ms, n);
      LeaksBounded(ls, ms, n - 1);
      RunConserves(ls, ms, n - 1);
      if ms[n - 1].Send? {
        RefusalNeedsPermits(ls[n - 1], Leaks(ls, ms, n - 1), ms[n - 1].m);
      }
    }
    BoundMeans(ls[n], Leaks(ls, ms, n));
  }

  /** A live queue refuses as full only while a permit is left over from a full channel's. */
  lemma RefusalNeedsPermits(l: Line, leaks: nat, m: Message)
    requires Conserved(l, leaks) && l.q.open && l.q.limit.Some?
    ensures !SendStep(l.q, m).1.Closed?
    ensures SendStep(l.q, m).1.Full? ==> leaks + 1 + l.q.capacity <= l.q.limit.value
  {
  }

  lemma BoundMeans(l: Line, leaks: nat)
    requires Conserved(l, leaks) && l.q.open && l.q.limit.Some?
    ensures l.q.inflight <= l.q.limit.value - leaks
    ensures forall m :: SendStep(l.q, m).1.NoPermit? <==> l.q.inflight == l.q.limit.value - leaks
  {
  }

  /** The line after `i` sends of one message and nothing else. */
  function Flooded(capacity: nat, limit: nat, m: Message, i: nat): Line {
    var n := MinNat(i, capacity);
    Line(Queue(capacity, Some(limit), seq(n, _ => m), true, n, n, i), [], 0, false)
  }

  lemma FloodStep(capacity: nat, limit: nat, m: Message, i: nat)
    requires i < limit
    ensures Step(Flooded(capacity, limit, m, i), Send(m, false)) == Flooded(capacity, limit, m, i + 1)
    ensures SendStep(Flooded(capacity, limit, m, i).q, m).1.Full? <==> i >= capacity
  {
    var (l, next) := (Flooded(capacity, limit, m, i), Flooded(capacity, limit, m, i + 1));
    if i < capacity {
      assert l.q.channel + [m] == next.q.channel;
    } else {
      assert l.q.channel == next.q.channel;
    }
  }

  /** The bound is met: for every capacity and every larger limit there is a run on a live queue
      that leaks all the permits beyond the capacity. */
  lemma LeaksReachBound(capacity: nat, limit: nat, m: Message)
    requires capacity <= limit
    ensures exists ls: seq<Line>, ms: seq<Move> ::
              && Run(ls, ms) && ls[0].q == NewQueue(capacity, Some(limit))
              && ls[|ms|].q.open && Leaks(ls, ms, |ms|) == limit - capacity
  {
    var ls := seq(limit + 1, i requires 0 <= i => Flooded(capacity, limit, m, i));
    var ms := seq(limit, _ => Send(m, false));
    forall i | 0 <= i < |ms| ensures Enabled(ls[i], ms[i]) && ls[i + 1] == Step(ls[i], ms[i]) {
      FloodStep(capacity, limit, m, i);
    }
    assert ls[0].q == NewQueue(capacity, Some(limit));
    assert Run(ls, ms);
    FloodLeaks(ls, ms, capacity, limit, m, limit);
  }

  lemma {:induction false} FloodLeaks(ls: seq<Line>, ms: seq<Move>, capacity: nat, limit: nat, m: Message, n: nat)
    requires Run(ls, ms) && n <= |ms| == limit
    requires forall i :: 0 <= i < limit ==> ls[i] == Flooded(capacity, limit, m, i) && ms[i] == Send(m, false)
    ensures Leaks(ls, ms, n) == if n <= capacity then 0 else n - capacity
  {
    if n > 0 {
      FloodLeaks(ls, ms, capacity, limit, m, n - 1);
      FloodStep(capacity, limit, m, n - 1);
    }
  }

  // ---------------------------------------------------------------------------------------
  // Pause and resume
  // ---------------------------------------------------------------------------------------

  ghost function Settled(ms: seq<Move>, from: nat, to: nat): nat
    requires from <= to <= |ms|
  {
    if from == to then 0 else Settled(ms, from, to - 1) + if ms[to - 1].Settle? then 1 else 0
  }

  lemma {:induction false} DepthFallsBySettling(ls: seq<Line>, ms: seq<Move>, from: nat, to: nat)
    requires Run(ls, ms) && from <= to <= |ms|
    ensures ls[to].q.depth + Settled(ms, from, to) >= ls[from].q.depth
  {
    if from < to {
      DepthFallsBySettling(ls, ms, from, to - 1);
      assert ls[to] == Step(ls[to - 1], ms[to - 1]);
    }
  }

  /** When a send leaves the topic paused: an accepted one only if it was paused and stays at half
      the capacity or above; one that the channel did not take, on a live queue or for want of a
      permit, if it was paused or the client accepts the pause. */
  lemma PausedExactly(l: Line, m: Message, pauseWorks: bool)
    ensures var (q, after) := (l.q, Step(l, Send(m, pauseWorks)));
            var limited := q.limit.Some? && q.permits >= q.limit.value;
            after.paused <==>
            if |after.q.channel| > |q.channel| then l.paused && q.depth + 1 >= q.capacity / 2
            else l.paused || (pauseWorks && (q.open || limited))
  {
  }

  /** Between a queue-full refusal and any later resume of the topic, messages for more than
      half the queue's capacity were acked. */
  lemma PauseResumeHysteresis(ls: seq<Line>, ms: seq<Move>, refused: nat, resumed: nat)
    requires Run(ls, ms) && refused < resumed < |ms|
    requires ms[refused].Send? && Result(ls[refused], ms[refused]).Full?
    requires ms[resumed].Send? && ls[resumed].paused && !ls[resumed + 1].paused
    ensures 2 * Settled(ms, refused + 1, resumed) > ls[0].q.capacity
  {
    RunConserves(ls, ms, refused);
    RunConserves(ls, ms, resumed);
    assert ls[refused + 1] == Step(ls[refused], ms[refused]);
    assert ls[resumed + 1] == Step(ls[resumed], ms[resumed]);
    DepthFallsBySettling(ls, ms, refused + 1, resumed);
  }
}
