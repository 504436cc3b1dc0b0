/** The single-message worker: each message is invoked until it succeeds, is given up to the
    dead-letter queue, or the worker is cancelled while waiting to retry. */
module Worker {
  import opened Sequences
  import opened Types
  import opened Offsets
  import opened OffsetLaws
  import opened Retry
  import opened Effects

  datatype ExecutionAction = AckAction | RetryAction(delay: real) | DlqAction

  /** Everything the worker cannot decide: what invocation `i` comes to, the random draw for
      its backoff, and whether the worker is cancelled during that backoff. */
  datatype Fate = Fate(outcome: nat -> ExecutionResult, random: nat -> real, cancelled: nat -> bool)
  {
    function Outcome(i: nat): ExecutionResult {
      outcome(i)
    }

    function Random(i: nat): real {
      random(i)
    }

    function Cancelled(i: nat): bool {
      cancelled(i)
    }
  }

  function TimeoutSeconds(result: ExecutionResult): Option<nat> {
    if result.TimedOut? then Some(result.timeoutMs / 1000) else None
  }

  /** The effects of a failed invocation after the offset was marked failed. */
  function FailureTail(p: RetryPolicy, book: RetryBook, m: Message, result: ExecutionResult, random: real): seq<Effect>
    requires !result.Succeeded?
  {
    var key, reason := KeyOf(m), result.Reason();
    var after := FailureBook(p, book, key, reason);
    [RecordFailure(key, reason, random)] +
    if WillRetry(p, book, key, reason) then []
    else DeadLetterEffects(Record(m, reason, AttemptCount(after, key), TimeoutSeconds(result)), m.topic)
  }

  /** The effects of one invocation. */
  function Attempt(p: RetryPolicy, book: RetryBook, m: Message, result: ExecutionResult, random: real): seq<Effect> {
    if result.Succeeded? then SuccessEffects(m)
    else [MarkFailed(m.Home(), m.offset, result.Reason())] + FailureTail(p, book, m, result, random)
  }

  datatype Ending = Settled | DeadLettered | Cancelled

  datatype Tale = Tale(effects: seq<Effect>, ending: Ending, invocations: nat)
  {
    /** The tale that starts with one more invocation. */
    function After(now: seq<Effect>): Tale {
      Tale(now + effects, ending, 1 + invocations)
    }

    /** What is left of the tale after `n` invocations with the effects `done`. */
    ghost predicate Is(done: seq<Effect>, n: nat, rest: Tale) {
      effects == done + rest.effects && ending == rest.ending && invocations == n + rest.invocations
    }
  }

  /** How many invocations the retry book still allows before the message is given up. */
  function Left(p: RetryPolicy, book: RetryBook, key: RetryKey): nat {
    if key !in book then p.maxAttempts
    else match book[key]
      case Exhausted => 0
      case Retrying(n) => if n < p.maxAttempts then p.maxAttempts - n else 0
  }

  lemma RetryUsesOneUp(p: RetryPolicy, book: RetryBook, key: RetryKey, reason: FailureReason)
    requires WillRetry(p, book, key, reason)
    ensures 1 <= Left(p, FailureBook(p, book, key, reason), key) < Left(p, book, key)
  {
  }

  /** The whole life of one message in the worker, from its `i`-th invocation on. */
  function Tell(p: RetryPolicy, book: RetryBook, m: Message, fate: Fate, i: nat): Tale
    decreases Left(p, book, KeyOf(m))
  {
    var result := fate.Outcome(i);
    var now := Attempt(p, book, m, result, fate.Random(i));
    if result.Succeeded? then Tale(now, Settled, 1)
    else
      var after := FailureBook(p, book, KeyOf(m), result.Reason());
      if !WillRetry(p, book, KeyOf(m), result.Reason()) then Tale(now, DeadLettered, 1)
      else if fate.Cancelled(i) then Tale(now, Cancelled, 1)
      else Tell(p, after, m, fate, i + 1).After(now)
  }

  // ---------------------------------------------------------------------------------------
  // Exactly-once settlement
  // ---------------------------------------------------------------------------------------

  function Due(ending: Ending): Tally {
    match ending
    case Settled => Tally(1, 1, 0)
    case DeadLettered => Tally(0, 1, 1)
    case Cancelled => Tally(0, 0, 0)
  }

  function AtLeastOne(n: nat): nat {
    if n == 0 then 1 else n
  }

  lemma SuccessTally(m: Message)
    ensures TallyOf(SuccessEffects(m)) == Due(Settled)
  {
    var es := SuccessEffects(m);
    assert es[..2][..1][..0] == [] && es[..2][..1] == es[..1];
    forall kind ensures Count(es, kind) == Count(es[..2], kind) + if Is(es[2], kind) then 1 else 0 {}
    forall kind ensures Count(es[..2], kind) == Count(es[..1], kind) + if Is(es[1], kind) then 1 else 0 {}
    forall kind ensures Count(es[..1], kind) == if Is(es[0], kind) then 1 else 0 {}
  }

  lemma DeadLetterTally(record: DlqRecord, topic: string)
    ensures TallyOf(DeadLetterEffects(record, topic)) == Due(DeadLettered)
  {
    var es := DeadLetterEffects(record, topic);
    forall kind ensures Count(es, kind) == Count(es[..1], kind) + if Is(es[1], kind) then 1 else 0 {}
    forall kind ensures Count(es[..1], kind) == if Is(es[0], kind) then 1 else 0 {}
  }

  lemma AttemptTally(p: RetryPolicy, book: RetryBook, m: Message, result: ExecutionResult, random: real)
    ensures TallyOf(Attempt(p, book, m, result, random)) ==
            if result.Succeeded? then Due(Settled)
            else if WillRetry(p, book, KeyOf(m), result.Reason()) then Due(Cancelled)
            else Due(DeadLettered)
    ensures forall e :: e in Attempt(p, book, m, result, random) ==> About(e, m)
  {
    if result.Succeeded? {
      SuccessTally(m);
    } else {
      var key, reason := KeyOf(m), result.Reason();
      var mark, note := [MarkFailed(m.Home(), m.offset, reason)], [RecordFailure(key, reason, random)];
      var after, retried := FailureBook(p, book, key, reason), WillRetry(p, book, key, reason);
      var tail := if retried then [] else
        DeadLetterEffects(Record(m, reason, AttemptCount(after, key), TimeoutSeconds(result)), m.topic);
      TallyAppend(note, tail);
      TallyAppend(mark, note + tail);
      assert TallyOf(mark) == TallyOf(note) == TallyOf([]) == Due(Cancelled);
      if !retried {
        DeadLetterTally(Record(m, reason, AttemptCount(after, key), TimeoutSeconds(result)), m.topic);
      }
    }
  }

  /** Whatever the handler does, a message is invoked at least once and at most as often as
      the retry book allows, and is settled exactly once: by one offset ack and one queue ack
      after its only successful invocation, by one hand-off and one queue ack, or, cancelled
      during a backoff, not at all. No effect touches another message. */
  lemma {:induction false} Settlement(p: RetryPolicy, book: RetryBook, m: Message, fate: Fate, i: nat)
    ensures var t := Tell(p, book, m, fate, i);
            && 1 <= t.invocations <= AtLeastOne(Left(p, book, KeyOf(m)))
            && TallyOf(t.effects) == Due(t.ending)
            && (forall e :: e in t.effects ==> About(e, m))
            && (forall k: nat :: i <= k < i + t.invocations - 1 ==> !fate.Outcome(k).Succeeded? && !fate.Cancelled(k))
            && (t.ending.Settled? <==> fate.Outcome(i + t.invocations - 1).Succeeded?)
            && (t.ending.Cancelled? ==> fate.Cancelled(i + t.invocations - 1))
    decreases Left(p, book, KeyOf(m))
  {
    hide Attempt, TallyOf;
    var result, random := fate.Outcome(i), fate.Random(i);
    AttemptTally(p, book, m, result, random);
    if !result.Succeeded? {
      var after := FailureBook(p, book, KeyOf(m), result.Reason());
      if WillRetry(p, book, KeyOf(m), result.Reason()) && !fate.Cancelled(i) {
        RetryUsesOneUp(p, book, KeyOf(m), result.Reason());
        Settlement(p, after, m, fate, i + 1);
        TallyAppend(Attempt(p, book, m, result, random), Tell(p, after, m, fate, i + 1).effects);
      }
    }
  }

  /** The bound is met: a message that keeps failing retryably is invoked as often as allowed. */
  lemma {:induction false} StubbornFailure(p: RetryPolicy, book: RetryBook, m: Message, fate: Fate, i: nat)
    requires forall k :: k >= i ==> !fate.Outcome(k).Succeeded? && fate.Outcome(k).Reason().Retryable?
    requires forall k :: k >= i ==> !fate.Cancelled(k)
    ensures var t := Tell(p, book, m, fate, i);
            t.ending == DeadLettered && t.invocations == AtLeastOne(Left(p, book, KeyOf(m)))
    decreases Left(p, book, KeyOf(m))
  {
    var reason := fate.Outcome(i).Reason();
    var after := FailureBook(p, book, KeyOf(m), reason);
    if WillRetry(p, book, KeyOf(m), reason) {
      RetryUsesOneUp(p, book, KeyOf(m), reason);
      assert !fate.Cancelled(i);
      StubbornFailure(p, after, m, fate, i + 1);
    }
  }

  /** What the dead-letter producer gets: the message's own place, key and payload (empty if there
      is none), whole seconds of a timeout, and the retries counted so far, except that a message
      which used up its retries is reported with zero attempts. */
  lemma DeadLetterContents(p: RetryPolicy, book: RetryBook, m: Message, result: ExecutionResult, random: real)
    requires !result.Succeeded? && !WillRetry(p, book, KeyOf(m), result.Reason())
    ensures var calls := Attempt(p, book, m, result, random);
            |calls| == 4 && calls[2].HandOff? &&
            var r := calls[2].record;
            && r.home == m.Home() && r.offset == m.offset && r.key == m.key
            && r.reason == (match result case Error(x) => x case Rejected(x) => x case _ => Terminal(HandlerPanic))
            && (m.payload.Some? ==> r.payload == m.payload.value) && (m.payload.None? ==> r.payload == [])
            && r.attempts == (if result.Reason().Retryable? then 0 else AttemptCount(book, KeyOf(m)))
            && (r.timeoutSeconds.Some? <==> result.TimedOut?)
            && (result.TimedOut? ==> 1000 * r.timeoutSeconds.value <= result.timeoutMs < 1000 * (r.timeoutSeconds.value + 1))
  {
  }

  /** Applying one invocation's effects changes the retry book as its decision says. */
  lemma AttemptBook(p: RetryPolicy, w: World, m: Message, result: ExecutionResult, random: real)
    ensures var after := ApplyAll(p, w, Attempt(p, w.retry, m, result, random));
            after.retry == if result.Succeeded? then w.retry - {KeyOf(m)}
                           else FailureBook(p, w.retry, KeyOf(m), result.Reason())
  {
    if result.Succeeded? {
      var es := SuccessEffects(m);
      HandOffKeepsBook(p, ApplyAll(p, w, es[..1]), es[1..]);
      ApplyAllAppend(p, w, es[..1], es[1..]);
      assert es == es[..1] + es[1..] && es[..1][..0] == [];
      assert ApplyAll(p, w, es[..1]).retry == w.retry - {KeyOf(m)};
    } else {
      var mark := [MarkFailed(m.Home(), m.offset, result.Reason())];
      var note := [RecordFailure(KeyOf(m), result.Reason(), random)];
      var tail := FailureTail(p, w.retry, m, result, random);
      ApplyAllAppend(p, w, mark, tail);
      ApplyAllAppend(p, ApplyAll(p, w, mark), note, tail[1..]);
      assert tail == note + tail[1..];
      HandOffKeepsBook(p, ApplyAll(p, ApplyAll(p, w, mark), note), tail[1..]);
    }
  }

  lemma {:induction false} HandOffKeepsBook(p: RetryPolicy, w: World, es: seq<Effect>)
    requires forall e :: e in es ==> e.HandOff? || e.QueueAck? || e.OffsetAck?
    ensures ApplyAll(p, w, es).retry == w.retry
  {
    if es != [] {
      HandOffKeepsBook(p, w, es[..|es| - 1]);
    }
  }

  lemma {:induction false} NoOffsetCalls(p: RetryPolicy, w: World, es: seq<Effect>)
    requires forall e :: e in es ==> !e.OffsetAck? && !e.MarkFailed?
    ensures ApplyAll(p, w, es).tracker == w.tracker
  {
    if es != [] {
      NoOffsetCalls(p, w, es[..|es| - 1]);
    }
  }

  /** A failed attempt is reported to the tracker once, with its own reason. */
  lemma AttemptTracked(p: RetryPolicy, w: World, m: Message, result: ExecutionResult, random: real)
    requires !result.Succeeded?
    ensures ApplyAll(p, w, Attempt(p, w.retry, m, result, random)).tracker ==
            StepTracker(w.tracker, m.Home(), Failed(m.offset, match result
                                                              case Error(x) => x
                                                              case Rejected(x) => x
                                                              case _ => Terminal(HandlerPanic)))
  {
    var mark := [MarkFailed(m.Home(), m.offset, result.Reason())];
    var tail := FailureTail(p, w.retry, m, result, random);
    ApplyAllAppend(p, w, mark, tail);
    assert mark[..0] == [];
    NoOffsetCalls(p, ApplyAll(p, w, mark), tail);
  }

  /** A timeout counts as a handler panic: the message is given up at once, and its partition, if
      registered, may not be committed any more. */
  lemma TimeoutIsFinal(p: RetryPolicy, w: World, m: Message, fate: Fate, i: nat)
    requires fate.Outcome(i).TimedOut?
    ensures var t := Tell(p, w.retry, m, fate, i);
            && t.ending == DeadLettered && t.invocations == 1
            && (m.Home() in w.tracker ==> !ShouldCommit(Entry(ApplyAll(p, w, t.effects).tracker, m.Home())))
  {
    hide Attempt;
    AttemptTracked(p, w, m, fate.Outcome(i), fate.Random(i));
  }

  /** What the retry book says about the message afterwards. */
  lemma {:induction false} BookAfterwards(p: RetryPolicy, w: World, m: Message, fate: Fate, i: nat)
    ensures var t := Tell(p, w.retry, m, fate, i);
            var book := ApplyAll(p, w, t.effects).retry;
            && (t.ending.Settled? ==> KeyOf(m) !in book)
            && (t.ending.Cancelled? ==> 1 <= Left(p, book, KeyOf(m)) < Left(p, w.retry, KeyOf(m)))
            && (forall key :: key != KeyOf(m) ==> (key in book <==> key in w.retry) && (key in book ==> book[key] == w.retry[key]))
    decreases Left(p, w.retry, KeyOf(m))
  {
    hide Attempt;
    var result, random := fate.Outcome(i), fate.Random(i);
    var now := Attempt(p, w.retry, m, result, random);
    AttemptBook(p, w, m, result, random);
    if !result.Succeeded? {
      var after := FailureBook(p, w.retry, KeyOf(m), result.Reason());
      if WillRetry(p, w.retry, KeyOf(m), result.Reason()) {
        RetryUsesOneUp(p, w.retry, KeyOf(m), result.Reason());
        if !fate.Cancelled(i) {
          BookAfterwards(p, ApplyAll(p, w, now), m, fate, i + 1);
          ApplyAllAppend(p, w, now, Tell(p, after, m, fate, i + 1).effects);
        }
      }
    }
  }

  // ---------------------------------------------------------------------------------------
  // The loop
  // ---------------------------------------------------------------------------------------

  method HandleExecutionFailure(s: Services, m: Message, result: ExecutionResult, random: real) returns (action: ExecutionAction)
    requires s.Valid() && !result.Succeeded?
    modifies s.Repr
    ensures s.Valid() && fresh(s.Repr - old(s.Repr))
    ensures s.log == old(s.log) + FailureTail(s.Policy(), old(s.world).retry, m, result, random)
    ensures s.world == ApplyAll(s.Policy(), old(s.world), FailureTail(s.Policy(), old(s.world).retry, m, result, random))
    ensures var d := Decide(s.Policy(), old(s.world).retry, KeyOf(m), result.Reason(), random);
            action == if d.shouldRetry then RetryAction(d.delay.value) else DlqAction
  {
    hide Services.Valid;
    ghost var p, before := s.Policy(), s.world;
    var reason := result.Reason();
    var d := s.RecordRetryableFailure(KeyOf(m), reason, random);
    ghost var note := [RecordFailure(KeyOf(m), reason, random)];
    assert ApplyAll(p, before, note) == s.world by { assert note[..0] == []; }
    if d.shouldRetry && d.delay.Some? {
      assert note + [] == note;
      return RetryAction(d.delay.value);
    }
    if d.shouldDlq {
      var attempts := s.Attempts(KeyOf(m));
      var record := Record(m, reason, attempts, TimeoutSeconds(result));
      s.Produce(record);
      assert ApplyAll(p, before, note + [HandOff(record)]) == s.world by {
        assert (note + [HandOff(record)])[..1] == note;
      }
      s.AckQueue(m.topic);
      ghost var all := note + DeadLetterEffects(record, m.topic);
      assert ApplyAll(p, before, all) == s.world by {
        assert all[..2] == note + [HandOff(record)];
      }
      return DlqAction;
    }
    // The coordinator always decides one way or the other.
    assert false;
    return AckAction;
  }

  method HandleExecutionResult(s: Services, m: Message, result: ExecutionResult, random: real) returns (action: Option<ExecutionAction>)
    requires s.Valid() && m.offset >= 0
    modifies s.Repr
    ensures s.Valid() && fresh(s.Repr - old(s.Repr))
    ensures s.log == old(s.log) + Attempt(s.Policy(), old(s.world).retry, m, result, random)
    ensures s.world == ApplyAll(s.Policy(), old(s.world), Attempt(s.Policy(), old(s.world).retry, m, result, random))
    ensures action.None? <==> result.Succeeded?
    ensures action.Some? ==> !action.value.AckAction?
    ensures action.Some? ==> (action.value.RetryAction? <==> WillRetry(s.Policy(), old(s.world).retry, KeyOf(m), result.Reason()))
    ensures action.Some? && action.value.RetryAction? ==>
              Decide(s.Policy(), old(s.world).retry, KeyOf(m), result.Reason(), random).delay == Some(action.value.delay)
  {
    hide Services.Valid;
    ghost var p, before := s.Policy(), s.world;
    if result.Succeeded? {
      ghost var es := SuccessEffects(m);
      s.RecordSuccess(KeyOf(m));
      assert ApplyAll(p, before, es[..1]) == s.world by { assert es[..1][..0] == []; }
      s.AckQueue(m.topic);
      assert ApplyAll(p, before, es[..2]) == s.world by { assert es[..2][..1] == es[..1]; }
      s.AckOffset(m.Home(), m.offset);
      return None;
    }
    s.FailOffset(m.Home(), m.offset, result.Reason());
    ghost var mark := [MarkFailed(m.Home(), m.offset, result.Reason())];
    assert ApplyAll(p, before, mark) == s.world by { assert mark[..0] == []; }
    var chosen := HandleExecutionFailure(s, m, result, random);
    ApplyAllAppend(p, before, mark, FailureTail(p, before.retry, m, result, random));
    return Some(chosen);
  }

  /** How the tale goes on after one invocation with the effects `now` that led to `next`:
      either it ends there, or one invocation fewer is left. */
  ghost predicate GoesOn(p: RetryPolicy, here: World, next: World, m: Message, fate: Fate, n: nat, now: seq<Effect>, ending: Option<Ending>) {
    match ending
    case Some(how) => Tell(p, here.retry, m, fate, n) == Tale(now, how, 1)
    case None =>
      && Left(p, next.retry, KeyOf(m)) < Left(p, here.retry, KeyOf(m))
      && Tell(p, here.retry, m, fate, n) == Tell(p, next.retry, m, fate, n + 1).After(now)
  }

  /** Invokes the handler once and deals with the result; None asks for another turn. */
  method InvokeOnce(s: Services, m: Message, fate: Fate, n: nat) returns (ending: Option<Ending>, ghost now: seq<Effect>)
    requires s.Valid() && m.offset >= 0
    modifies s.Repr
    ensures s.Valid() && fresh(s.Repr - old(s.Repr))
    ensures s.log == old(s.log) + now && s.world == ApplyAll(s.Policy(), old(s.world), now)
    ensures GoesOn(s.Policy(), old(s.world), s.world, m, fate, n, now, ending)
  {
    var result, random := fate.Outcome(n), fate.Random(n);
    now := Attempt(s.Policy(), s.world.retry, m, result, random);
    AttemptBook(s.Policy(), s.world, m, result, random);
    var action := HandleExecutionResult(s, m, result, random);
    if action.None? {
      return Some(Settled), now;
    }
    if !action.value.RetryAction? {
      return Some(DeadLettered), now;
    }
    if fate.Cancelled(n) {
      return Some(Cancelled), now;
    }
    return None, now;
  }

  lemma TaleGoesOn(whole: Tale, done: seq<Effect>, n: nat, rest: Tale, now: seq<Effect>, left: Tale)
    requires whole.Is(done, n, rest) && rest == left.After(now)
    ensures whole.Is(done + now, n + 1, left)
  {
    Regroup(done, now, left.effects);
  }

  /** The message's whole tale `t`, told from world `w`, ends in world `next`. */
  ghost predicate Link(p: RetryPolicy, w: World, next: World, m: Message, fate: Fate, t: Tale) {
    t == Tell(p, w.retry, m, fate, 0) && next == ApplyAll(p, w, t.effects)
  }

  /** Invokes the message until its tale ends. */
  method ProcessMessage(s: Services, m: Message, fate: Fate) returns (ending: Ending, invocations: nat, ghost t: Tale)
    requires s.Valid() && m.offset >= 0
    modifies s.Repr
    ensures s.Valid() && fresh(s.Repr - old(s.Repr))
    ensures Link(s.Policy(), old(s.world), s.world, m, fate, t)
    ensures s.log == old(s.log) + t.effects
    ensures ending == t.ending && invocations == t.invocations
  {
    hide Tell, Services.Valid;
    ghost var p, before, start := s.Policy(), s.world, s.log;
    ghost var done: seq<Effect> := [];
    t := Tell(p, s.world.retry, m, fate, 0);
    var next: Option<Ending> := None;
    invocations := 0;
    while next.None?
      invariant s.Valid() && fresh(s.Repr - old(s.Repr))
      invariant s.log == start + done && s.world == ApplyAll(p, before, done)
      invariant next.None? ==> t.Is(done, invocations, Tell(p, s.world.retry, m, fate, invocations))
      invariant next.Some? ==> t == Tale(done, next.value, invocations)
      decreases next.None?, Left(p, s.world.retry, KeyOf(m))
    {
      ghost var rest, now := Tell(p, s.world.retry, m, fate, invocations), [];
      next, now := InvokeOnce(s, m, fate, invocations);
      ApplyAllAppend(p, before, done, now);
      Regroup(start, done, now);
      if next.None? {
        TaleGoesOn(t, done, invocations, rest, now, Tell(p, s.world.retry, m, fate, invocations + 1));
      }
      done := done + now;
      invocations := invocations + 1;
    }
    ending := next.value;
  }

  // ---------------------------------------------------------------------------------------
  // The loop over the inbox
  // ---------------------------------------------------------------------------------------

  /** What the environment does around one message: its fate, and whether shutdown is seen
      before it is taken (while idle, or right after the message before it). */
  datatype Turn = Turn(fate: Fate, stops: bool)

  /** These effects are all about `m` and settle it exactly as `ending` is due. */
  ghost predicate SettledAs(es: seq<Effect>, m: Message, ending: Ending) {
    TallyOf(es) == Due(ending) && forall e :: e in es ==> About(e, m)
  }

  /** What became of a message is its tale, told from the retry book of world `w`. */
  ghost predicate IsTale(p: RetryPolicy, w: World, m: Message, fate: Fate, effects: seq<Effect>, ending: Ending, calls: nat) {
    Tell(p, w.retry, m, fate, 0) == Tale(effects, ending, calls)
  }

  /** The handler was called `calls` times: every call but the last failed and was retried, and the
      last one decides the ending. */
  ghost predicate DecidedBy(fate: Fate, ending: Ending, calls: nat) {
    && 1 <= calls
    && (forall i: nat :: i < calls - 1 ==> !fate.Outcome(i).Succeeded? && !fate.Cancelled(i))
    && (ending.Settled? <==> fate.Outcome(calls - 1).Succeeded?)
    && (ending.Cancelled? ==> fate.Cancelled(calls - 1))
  }

  /** One turn of the loop: the message is processed as its fate has it, and thereby settled once. */
  method Deliver(s: Services, m: Message, fate: Fate) returns (ending: Ending, calls: nat, ghost effects: seq<Effect>)
    requires s.Valid() && m.offset >= 0
    modifies s.Repr
    ensures s.Valid() && fresh(s.Repr - old(s.Repr))
    ensures s.log == old(s.log) + effects && s.world == ApplyAll(s.Policy(), old(s.world), effects)
    ensures IsTale(s.Policy(), old(s.world), m, fate, effects, ending, calls)
    ensures SettledAs(effects, m, ending) && DecidedBy(fate, ending, calls)
    ensures calls <= AtLeastOne(Left(s.Policy(), old(s.world).retry, KeyOf(m)))
  {
    ghost var t;
    Settlement(s.Policy(), s.world.retry, m, fate, 0);
    ending, calls, t := ProcessMessage(s, m, fate);
    effects := t.effects;
  }

  ghost function Flat(parts: seq<seq<Effect>>): seq<Effect> {
    if parts == [] then [] else Flat(parts[..|parts| - 1]) + parts[|parts| - 1]
  }

  lemma FlatNone(p: RetryPolicy, w: World)
    ensures Flat([]) == [] && ApplyAll(p, w, []) == w
  {
  }

  lemma FlatGrows(parts: seq<seq<Effect>>, part: seq<Effect>)
    ensures Flat(parts + [part]) == Flat(parts) + part
  {
    assert (parts + [part])[..|parts|] == parts;
  }

  /** Each message's tale is told from the retry book that the messages before it left. */
  ghost predicate AllTold(p: RetryPolicy, before: World, inbox: seq<Message>, turns: seq<Turn>,
                          parts: seq<seq<Effect>>, endings: seq<Ending>, calls: seq<nat>) {
    && |parts| == |endings| == |calls| <= |inbox| == |turns|
    && forall k :: 0 <= k < |parts| ==>
         IsTale(p, ApplyAll(p, before, Flat(parts[..k])), inbox[k], turns[k].fate, parts[k], endings[k], calls[k])
  }

  lemma ToldOneMore(p: RetryPolicy, before: World, inbox: seq<Message>, turns: seq<Turn>,
                    parts: seq<seq<Effect>>, endings: seq<Ending>, calls: seq<nat>, part: seq<Effect>, ending: Ending, n: nat)
    requires AllTold(p, before, inbox, turns, parts, endings, calls) && |parts| < |inbox|
    requires IsTale(p, ApplyAll(p, before, Flat(parts)), inbox[|parts|], turns[|parts|].fate, part, ending, n)
    ensures AllTold(p, before, inbox, turns, parts + [part], endings + [ending], calls + [n])
  {
    hide IsTale, ApplyAll, Flat;
    var more := parts + [part];
    forall k | 0 <= k < |more|
      ensures IsTale(p, ApplyAll(p, before, Flat(more[..k])), inbox[k], turns[k].fate, more[k], (endings + [ending])[k], (calls + [n])[k])
    {
      assert more[..k] == parts[..k];
      assert parts[..|parts|] == parts;
    }
  }

  /** Takes the inbox's messages one by one, in order, until shutdown is seen; each message
      taken is settled as its fate decides, exactly once, before the next one is taken. */
  method WorkerLoop(s: Services, inbox: seq<Message>, turns: seq<Turn>)
    returns (endings: seq<Ending>, calls: seq<nat>, ghost parts: seq<seq<Effect>>)
    requires s.Valid() && |turns| == |inbox| && forall m :: m in inbox ==> m.offset >= 0
    modifies s.Repr
    ensures s.Valid() && fresh(s.Repr - old(s.Repr))
    ensures |endings| == |parts| == |calls| <= |inbox|
    ensures s.log == old(s.log) + Flat(parts) && s.world == ApplyAll(s.Policy(), old(s.world), Flat(parts))
    ensures AllTold(s.Policy(), old(s.world), inbox, turns, parts, endings, calls)
    ensures forall k :: 0 <= k < |parts| ==> SettledAs(parts[k], inbox[k], endings[k]) && DecidedBy(turns[k].fate, endings[k], calls[k])
    ensures forall k :: 0 <= k < |endings| ==> !turns[k].stops && (endings[k].Cancelled? ==> k == |endings| - 1)
    ensures |endings| < |inbox| ==> turns[|endings|].stops || (endings != [] && endings[|endings| - 1].Cancelled?)
  {
    hide Services.Valid, SettledAs, DecidedBy, IsTale, Flat, ApplyAll;
    ghost var p, before, start := s.Policy(), s.world, s.log;
    endings, calls, parts := [], [], [];
    FlatNone(p, before);
    var running := true;
    while running && |endings| < |inbox| && !turns[|endings|].stops
      invariant |endings| == |parts| == |calls| <= |inbox|
      invariant s.Valid() && fresh(s.Repr - old(s.Repr))
      invariant s.log == start + Flat(parts) && s.world == ApplyAll(p, before, Flat(parts))
      invariant AllTold(p, before, inbox, turns, parts, endings, calls)
      invariant forall k :: 0 <= k < |parts| ==> SettledAs(parts[k], inbox[k], endings[k]) && DecidedBy(turns[k].fate, endings[k], calls[k])
      invariant forall k :: 0 <= k < |endings| ==> !turns[k].stops && (endings[k].Cancelled? ==> !running && k == |endings| - 1)
      invariant !running ==> endings != [] && endings[|endings| - 1].Cancelled?
      decreases |inbox| - |endings|
    {
      var k := |endings|;
      var ending, n, effects := Deliver(s, inbox[k], turns[k].fate);
      ToldOneMore(p, before, inbox, turns, parts, endings, calls, effects, ending, n);
      FlatGrows(parts, effects);
      Regroup(start, Flat(parts), effects);
      ApplyAllAppend(p, before, Flat(parts), effects);
      parts, endings, calls := parts + [effects], endings + [ending], calls + [n];
      running := !ending.Cancelled?;
    }
  }

  function CountEndings(endings: seq<Ending>, ending: Ending): nat {
    if endings == [] then 0
    else CountEndings(endings[..|endings| - 1], ending) + if endings[|endings| - 1] == ending then 1 else 0
  }

  /** So over a whole inbox there is one offset ack per settled message, one hand-off per dead
      letter, one queue ack for each of both, and no effect on a message that was not taken. */
  lemma {:induction false} InboxSettledOnce(inbox: seq<Message>, endings: seq<Ending>, parts: seq<seq<Effect>>)
    requires |endings| == |parts| <= |inbox|
    requires forall k :: 0 <= k < |parts| ==> SettledAs(parts[k], inbox[k], endings[k])
    ensures var settled, dead := CountEndings(endings, Settled), CountEndings(endings, DeadLettered);
            TallyOf(Flat(parts)) == Tally(settled, settled + dead, dead)
    ensures forall e :: e in Flat(parts) ==> exists k :: 0 <= k < |parts| && About(e, inbox[k])
  {
    if parts != [] {
      var n := |parts| - 1;
      InboxSettledOnce(inbox, endings[..n], parts[..n]);
      assert SettledAs(parts[n], inbox[n], endings[n]);
      TallyAppend(Flat(parts[..n]), parts[n]);
    }
  }
}
