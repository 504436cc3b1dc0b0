/** The pipeline's fine-grained steps against the workers' whole methods: a worker left alone
    makes exactly the calls of one attempt. */
module Stepwise {
  import opened Types
  import opened Retry
  import opened Effects
  import opened Pipeline
  import opened BatchLoop
  import W = Worker

  predicate Records(todo: seq<Effect>) {
    exists i :: 0 <= i < |todo| && todo[i].RecordFailure?
  }

  /** A bound on the calls still to come. */
  function Rank(c: Crew): nat {
    if !Busy(c) then 0
    else |TaskOf(c).todo| + if Records(TaskOf(c).todo) then 4 else 0
  }

  lemma CallsEnd(p: RetryPolicy, book: RetryBook, c: Crew)
    requires Busy(c)
    ensures Rank(Onward(p, book, c, TaskOf(c).todo[0])) < Rank(c)
  {
    var todo := TaskOf(c).todo;
    if Records(todo[1..]) {
      var i :| 0 <= i < |todo[1..]| && todo[1..][i].RecordFailure?;
      assert todo[i + 1].RecordFailure?;
    }
  }

  /** The calls a worker makes, and where it ends up, when nobody else moves. */
  function Alone(p: RetryPolicy, w: World, c: Crew): (seq<Effect>, Crew)
    decreases Rank(c)
  {
    if !Busy(c) then ([], c)
    else
      var e := TaskOf(c).todo[0];
      CallsEnd(p, w.retry, c);
      var (es, end) := Alone(p, Apply(p, w, e), Onward(p, w.retry, c, e));
      ([e] + es, end)
  }

  lemma Rested(p: RetryPolicy, w: World, c: Crew)
    requires !Busy(c)
    ensures Alone(p, w, c) == ([], c)
  {
  }

  lemma OneCall(p: RetryPolicy, w: World, c: Crew, e: Effect, next: Crew, es: seq<Effect>, end: Crew)
    requires Busy(c) && TaskOf(c).todo[0] == e && Onward(p, w.retry, c, e) == next
    requires Alone(p, Apply(p, w, e), next) == (es, end)
    ensures Alone(p, w, c) == ([e] + es, end)
  {
    CallsEnd(p, w.retry, c);
  }

  /** Calls other than a failure's report are made one by one, in order. */
  lemma {:induction false} Straight(p: RetryPolicy, w: World, m: Message, todo: seq<Effect>, timeout: Option<nat>)
    requires todo != [] && forall e :: e in todo ==> !e.RecordFailure?
    ensures Alone(p, w, Single(Acting(Task(m, todo, timeout)))) == (todo, Single(Idle))
    decreases |todo|
  {
    hide Apply, Alone, Records;
    var e := todo[0];
    var c := Single(Acting(Task(m, todo, timeout)));
    if |todo| == 1 {
      Rested(p, Apply(p, w, e), Single(Idle));
      OneCall(p, w, c, e, Single(Idle), [], Single(Idle));
      assert todo == [e] + [];
    } else {
      Straight(p, Apply(p, w, e), m, todo[1..], timeout);
      OneCall(p, w, c, e, Single(Acting(Task(m, todo[1..], timeout))), todo[1..], Single(Idle));
      assert todo == [e] + todo[1..];
    }
  }

  /** A single-message worker whose handler just returned makes the calls of `W.Attempt`, and
      goes back to waiting, for a retry exactly if the coordinator granted one. */
  lemma SingleStepsAreAnAttempt(p: RetryPolicy, w: World, m: Message, result: ExecutionResult, random: real)
    ensures var c := Single(Acting(Task(m, FirstCalls(m, result, random), W.TimeoutSeconds(result))));
            Alone(p, w, c) ==
            (W.Attempt(p, w.retry, m, result, random),
             if !result.Succeeded? && WillRetry(p, w.retry, KeyOf(m), result.Reason()) then Single(BackingOff(m)) else Single(Idle))
  {
    var timeout := W.TimeoutSeconds(result);
    if result.Succeeded? {
      Straight(p, w, m, SuccessEffects(m), timeout);
    } else {
      var reason := result.Reason();
      var mark, note := MarkFailed(m.Home(), m.offset, reason), RecordFailure(KeyOf(m), reason, random);
      var c, d := Single(Acting(Task(m, [mark, note], timeout))), Single(Acting(Task(m, [note], timeout)));
      var marked := Apply(p, w, mark);
      var tail := W.FailureTail(p, w.retry, m, result, random);
      var end := if WillRetry(p, w.retry, KeyOf(m), reason) then Single(BackingOff(m)) else Single(Idle);
      assert marked.retry == w.retry;
      hide Alone, Apply, FailureBook, WillRetry, AttemptCount, Records;
      if end.hand.BackingOff? {
        Rested(p, Apply(p, marked, note), end);
        OneCall(p, marked, d, note, end, [], end);
      } else {
        var attempts := AttemptCount(FailureBook(p, w.retry, KeyOf(m), reason), KeyOf(m));
        var last := DeadLetterEffects(Record(m, reason, attempts, timeout), m.topic);
        Straight(p, Apply(p, marked, note), m, last, timeout);
        OneCall(p, marked, d, note, Single(Acting(Task(m, last, timeout))), last, end);
      }
      OneCall(p, w, c, mark, d, tail, end);
    }
  }

  lemma {:induction false} StraightInBatch(p: RetryPolicy, w: World, c: Crew, m: Message, todo: seq<Effect>, timeout: Option<nat>)
    requires c.Batching? && c.current.None?
    requires todo != [] && forall e :: e in todo ==> !e.RecordFailure?
    ensures Alone(p, w, c.(current := Some(Task(m, todo, timeout)))) == (todo, c)
    decreases |todo|
  {
    hide Apply, Alone, Records;
    var e := todo[0];
    var d := c.(current := Some(Task(m, todo, timeout)));
    if |todo| == 1 {
      Rested(p, Apply(p, w, e), c);
      OneCall(p, w, d, e, c, [], c);
      assert todo == [e] + [];
    } else {
      StraightInBatch(p, Apply(p, w, e), c, m, todo[1..], timeout);
      OneCall(p, w, d, e, c.(current := Some(Task(m, todo[1..], timeout))), todo[1..], c);
      assert todo == [e] + todo[1..];
    }
  }

  /** A batch worker settles its next message with the calls of its batch method. */
  lemma BatchStepsSettleOne(p: RetryPolicy, w: World, c: Crew, m: Message, random: real)
    requires c.Batching? && c.current.None?
    ensures Alone(p, w, c.(current := Some(Task(m, BatchCalls(m, c.result, random), None)))) ==
            (if c.result.AllSuccess? then SuccessEffects(m)
             else GiveUpEffects(m, c.result.reason, random, AttemptCount(FailureBook(p, w.retry, KeyOf(m), c.result.reason), KeyOf(m))),
             c)
  {
    if c.result.AllSuccess? {
      StraightInBatch(p, w, c, m, SuccessEffects(m), None);
    } else {
      var reason := c.result.reason;
      var note, mark := RecordFailure(KeyOf(m), reason, random), MarkFailed(m.Home(), m.offset, reason);
      var attempts := AttemptCount(FailureBook(p, w.retry, KeyOf(m), reason), KeyOf(m));
      var rest := [mark] + DeadLetterEffects(Record(m, reason, attempts, None), m.topic);
      hide Alone, Apply, FailureBook, WillRetry, AttemptCount, Records;
      StraightInBatch(p, Apply(p, w, note), c, m, rest, None);
      OneCall(p, w, c.(current := Some(Task(m, [note], None))), note, c.(current := Some(Task(m, rest, None))), rest, c);
      assert [note] + rest == GiveUpEffects(m, reason, random, attempts);
    }
  }
}
