/** The batch worker: messages are collected per partition and flushed in batches; each flushed
    message is settled once. */
module BatchLoop {
  import opened Sequences
  import opened Types
  import opened Offsets
  import opened OffsetLaws
  import Queues
  import opened Retry
  import opened Effects
  import opened Accumulation
  import opened Worker

  // ---------------------------------------------------------------------------------------
  // Settling a batch
  // ---------------------------------------------------------------------------------------

  /** A batch succeeds or fails as a whole, and a failed message is never retried in place. */
  function EndingFor(result: BatchResult): Ending {
    if result.AllSuccess? then Settled else DeadLettered
  }

  function GiveUpEffects(m: Message, reason: FailureReason, random: real, attempts: nat): seq<Effect> {
    [RecordFailure(KeyOf(m), reason, random), MarkFailed(m.Home(), m.offset, reason)] +
    DeadLetterEffects(Record(m, reason, attempts, None), m.topic)
  }

  lemma GiveUpTally(m: Message, reason: FailureReason, random: real, attempts: nat)
    ensures SettledAs(GiveUpEffects(m, reason, random, attempts), m, DeadLettered)
  {
    var noted, marked := [RecordFailure(KeyOf(m), reason, random)], [MarkFailed(m.Home(), m.offset, reason)];
    var tail := DeadLetterEffects(Record(m, reason, attempts, None), m.topic);
    DeadLetterTally(Record(m, reason, attempts, None), m.topic);
    TallyAppend(noted, marked);
    TallyAppend(noted + marked, tail);
    assert TallyOf(noted) == TallyOf(marked) == Tally(0, 0, 0);
    assert GiveUpEffects(m, reason, random, attempts) == noted + marked + tail;
  }

  /** The effects of settling one message of a batch. */
  function SettleEffects(p: RetryPolicy, book: RetryBook, m: Message, result: BatchResult, random: real): seq<Effect> {
    match result
    case AllSuccess => SuccessEffects(m)
    case AllFailure(reason) => GiveUpEffects(m, reason, random, AttemptCount(FailureBook(p, book, KeyOf(m), reason), KeyOf(m)))
  }

  /** The dead letter of a message that failed with its batch. */
  ghost predicate Carries(r: DlqRecord, m: Message, reason: FailureReason) {
    && r.home == m.Home() && r.offset == m.offset && r.key == m.key
    && r.payload == (if m.payload.Some? then m.payload.value else [])
    && r.reason == reason && r.timeoutSeconds.None?
  }

  /** What the services know afterwards: the message is reported to the tracker once, as acked or
      as failed with the batch's own reason; a success is forgotten by the retry book, a failure is
      handed to the dead-letter producer with the attempts counted by then. */
  ghost predicate OneDone(before: World, after: World, m: Message, result: BatchResult) {
    match result
    case AllSuccess =>
      && after.tracker == StepTracker(before.tracker, m.Home(), Acked(m.offset))
      && after.retry == before.retry - {KeyOf(m)}
      && after.dlq == before.dlq
    case AllFailure(reason) =>
      && after.tracker == StepTracker(before.tracker, m.Home(), Failed(m.offset, reason))
      && |after.dlq| == |before.dlq| + 1 && before.dlq <= after.dlq
      && Carries(after.dlq[|before.dlq|], m, reason)
      && after.dlq[|before.dlq|].attempts == AttemptCount(after.retry, KeyOf(m))
  }

  lemma OneSettled(p: RetryPolicy, w: World, m: Message, result: BatchResult, random: real)
    ensures OneDone(w, ApplyAll(p, w, SettleEffects(p, w.retry, m, result, random)), m, result)
    ensures SettledAs(SettleEffects(p, w.retry, m, result, random), m, EndingFor(result))
  {
    hide StepTracker, Queues.AckTopic, FailureBook, AttemptCount, TallyOf;
    Applied(p, w, SettleEffects(p, w.retry, m, result, random));
    match result
    case AllSuccess => SuccessTally(m);
    case AllFailure(reason) => GiveUpTally(m, reason, random, AttemptCount(FailureBook(p, w.retry, KeyOf(m), reason), KeyOf(m)));
  }

  method AcknowledgeOne(s: Services, m: Message, random: real) returns (ghost part: seq<Effect>)
    requires s.Valid() && m.offset >= 0
    modifies s.Repr
    ensures s.Valid() && fresh(s.Repr - old(s.Repr))
    ensures s.log == old(s.log) + part && s.world == ApplyAll(s.Policy(), old(s.world), part)
    ensures part == SettleEffects(s.Policy(), old(s.world).retry, m, AllSuccess, random)
    ensures SettledAs(part, m, Settled) && OneDone(old(s.world), s.world, m, AllSuccess)
  {
    hide Services.Valid, OneDone, SettledAs;
    part := SuccessEffects(m);
    OneSettled(s.Policy(), s.world, m, AllSuccess, random);
    Applied(s.Policy(), s.world, part);
    s.RecordSuccess(KeyOf(m));
    s.AckQueue(m.topic);
    s.AckOffset(m.Home(), m.offset);
  }

  /** Retryable or not, the message goes to the dead-letter queue: the coordinator always
      answers "retry" or "dead-letter", and batch mode takes both for the latter. */
  method GiveUpOne(s: Services, m: Message, reason: FailureReason, random: real) returns (ghost part: seq<Effect>)
    requires s.Valid()
    modifies s.Repr
    ensures s.Valid() && fresh(s.Repr - old(s.Repr))
    ensures s.log == old(s.log) + part && s.world == ApplyAll(s.Policy(), old(s.world), part)
    ensures part == SettleEffects(s.Policy(), old(s.world).retry, m, AllFailure(reason), random)
    ensures SettledAs(part, m, DeadLettered) && OneDone(old(s.world), s.world, m, AllFailure(reason))
  {
    hide Services.Valid, OneDone, SettledAs;
    ghost var before := s.world;
    OneSettled(s.Policy(), before, m, AllFailure(reason), random);
    var d := s.RecordRetryableFailure(KeyOf(m), reason, random);
    s.FailOffset(m.Home(), m.offset, reason);
    var attempts := s.Attempts(KeyOf(m));
    if d.shouldDlq || d.shouldRetry {
      s.Produce(Record(m, reason, attempts, None));
    }
    s.AckQueue(m.topic);
    part := GiveUpEffects(m, reason, random, attempts);
    Applied(s.Policy(), before, part);
  }

  /** Unrolls a short list of effects. */
  lemma Applied(p: RetryPolicy, w: World, es: seq<Effect>)
    ensures |es| == 3 ==> ApplyAll(p, w, es) == Apply(p, Apply(p, Apply(p, w, es[0]), es[1]), es[2])
    ensures |es| == 4 ==> ApplyAll(p, w, es) == Apply(p, Apply(p, Apply(p, Apply(p, w, es[0]), es[1]), es[2]), es[3])
  {
    hide Apply;
    if 3 <= |es| <= 4 {
      assert ApplyAll(p, w, es[..0]) == w;
      assert es[..1][..0] == es[..0] && ApplyAll(p, w, es[..1]) == Apply(p, w, es[0]);
      assert es[..2][..1] == es[..1] && ApplyAll(p, w, es[..2]) == Apply(p, ApplyAll(p, w, es[..1]), es[1]);
      assert es[..3][..2] == es[..2] && ApplyAll(p, w, es[..3]) == Apply(p, ApplyAll(p, w, es[..2]), es[2]);
      assert |es| == 3 ==> es[..3] == es;
    }
  }

  /** These effects settle the messages one after the other, as the batch's result demands, each on
      what the ones before it left of world `w`. */
  ghost predicate BatchSettled(p: RetryPolicy, w: World, parts: seq<seq<Effect>>, messages: seq<Message>, result: BatchResult, random: real) {
    && |parts| == |messages|
    && forall k :: 0 <= k < |parts| ==>
         && SettledAs(parts[k], messages[k], EndingFor(result))
         && parts[k] == SettleEffects(p, ApplyAll(p, w, Flat(parts[..k])).retry, messages[k], result, random)
  }

  lemma SettledOneMore(p: RetryPolicy, w: World, parts: seq<seq<Effect>>, messages: seq<Message>, result: BatchResult, random: real,
                       part: seq<Effect>, m: Message)
    requires BatchSettled(p, w, parts, messages, result, random)
    requires SettledAs(part, m, EndingFor(result)) && part == SettleEffects(p, ApplyAll(p, w, Flat(parts)).retry, m, result, random)
    ensures BatchSettled(p, w, parts + [part], messages + [m], result, random)
  {
    hide SettledAs, SettleEffects, ApplyAll, Flat;
    var more := parts + [part];
    forall k | 0 <= k < |more|
      ensures SettledAs(more[k], (messages + [m])[k], EndingFor(result))
      ensures more[k] == SettleEffects(p, ApplyAll(p, w, Flat(more[..k])).retry, (messages + [m])[k], result, random)
    {
      assert more[..k] == parts[..k];
      assert parts[..|parts|] == parts;
    }
  }

  /** The tracker after every message of a batch was reported to it, in order. */
  function Reported(t: Tracker, messages: seq<Message>, result: BatchResult): Tracker {
    if messages == [] then t
    else
      var m := messages[|messages| - 1];
      StepTracker(Reported(t, messages[..|messages| - 1], result), m.Home(),
                  if result.AllSuccess? then Acked(m.offset) else Failed(m.offset, result.reason))
  }

  /** `OneDone` for a whole batch. */
  ghost predicate BatchDone(before: World, after: World, messages: seq<Message>, result: BatchResult) {
    && after.tracker == Reported(before.tracker, messages, result)
    && before.dlq <= after.dlq
    && (result.AllSuccess? ==> after.dlq == before.dlq && forall m :: m in messages ==> KeyOf(m) !in after.retry)
    && (result.AllFailure? ==>
          && |after.dlq| == |before.dlq| + |messages|
          && forall k :: 0 <= k < |messages| ==> Carries(after.dlq[|before.dlq| + k], messages[k], result.reason))
  }

  lemma DoneOneMore(before: World, between: World, after: World, messages: seq<Message>, m: Message, result: BatchResult)
    requires BatchDone(before, between, messages, result) && OneDone(between, after, m, result)
    ensures BatchDone(before, after, messages + [m], result)
  {
    hide StepTracker, Carries, AttemptCount, KeyOf;
    assert (messages + [m])[..|messages|] == messages;
    if result.AllFailure? {
      forall k | 0 <= k < |messages + [m]| ensures Carries(after.dlq[|before.dlq| + k], (messages + [m])[k], result.reason) {
        if k < |messages| {
          assert after.dlq[|before.dlq| + k] == between.dlq[|before.dlq| + k];
        }
      }
    }
  }

  method HandleBatchResult(s: Services, messages: seq<Message>, result: BatchResult, random: real) returns (ghost parts: seq<seq<Effect>>)
    requires s.Valid() && forall m :: m in messages ==> m.offset >= 0
    modifies s.Repr
    ensures s.Valid() && fresh(s.Repr - old(s.Repr))
    ensures s.log == old(s.log) + Flat(parts) && s.world == ApplyAll(s.Policy(), old(s.world), Flat(parts))
    ensures BatchSettled(s.Policy(), old(s.world), parts, messages, result, random)
    ensures BatchDone(old(s.world), s.world, messages, result)
  {
    hide Services.Valid, SettledAs, Flat, ApplyAll, SettleEffects, BatchSettled, BatchDone, OneDone;
    ghost var p, before, start := s.Policy(), s.world, s.log;
    parts := [];
    FlatNone(p, before);
    NoneSettled(p, before, result, random);
    for i := 0 to |messages|
      invariant s.Valid() && fresh(s.Repr - old(s.Repr))
      invariant s.log == start + Flat(parts) && s.world == ApplyAll(p, before, Flat(parts))
      invariant BatchSettled(p, before, parts, messages[..i], result, random)
      invariant BatchDone(before, s.world, messages[..i], result)
    {
      ghost var part, between;
      between := s.world;
      if result.AllSuccess? {
        part := AcknowledgeOne(s, messages[i], random);
      } else {
        part := GiveUpOne(s, messages[i], result.reason, random);
      }
      SettledOneMore(p, before, parts, messages[..i], result, random, part, messages[i]);
      DoneOneMore(before, between, s.world, messages[..i], messages[i], result);
      assert messages[..i] + [messages[i]] == messages[..i + 1];
      FlatGrows(parts, part);
      Regroup(start, Flat(parts), part);
      ApplyAllAppend(p, before, Flat(parts), part);
      parts := parts + [part];
    }
    assert messages[..|messages|] == messages;
  }

  lemma NoneSettled(p: RetryPolicy, w: World, result: BatchResult, random: real)
    ensures BatchSettled(p, w, [], [], result, random) && BatchDone(w, w, [], result)
  {
  }

  /** A batch that failed for good leaves its registered partitions with a terminal failure. */
  lemma {:induction false} TerminalBatchBlocks(t: Tracker, messages: seq<Message>, reason: FailureReason, home: TopicPartition)
    requires reason.Terminal? && home in t
    ensures home in Reported(t, messages, AllFailure(reason))
    ensures (exists m :: m in messages && m.Home() == home) ==> Reported(t, messages, AllFailure(reason))[home].terminal
    ensures t[home].terminal ==> Reported(t, messages, AllFailure(reason))[home].terminal
  {
    if messages != [] {
      var front, last := messages[..|messages| - 1], messages[|messages| - 1];
      TerminalBatchBlocks(t, front, reason, home);
      assert forall m :: m in messages <==> m in front || m == last;
    }
  }

  ghost function FlatAll(parts: seq<seq<seq<Effect>>>): seq<Effect> {
    if parts == [] then [] else FlatAll(parts[..|parts| - 1]) + Flat(parts[|parts| - 1])
  }

  lemma FlatAllGrows(parts: seq<seq<seq<Effect>>>, part: seq<seq<Effect>>)
    ensures FlatAll(parts + [part]) == FlatAll(parts) + Flat(part)
  {
    assert (parts + [part])[..|parts|] == parts;
  }

  lemma {:induction false} FlatAllAppend(parts: seq<seq<seq<Effect>>>, more: seq<seq<seq<Effect>>>)
    ensures FlatAll(parts + more) == FlatAll(parts) + FlatAll(more)
  {
    if more == [] {
      assert parts + more == parts;
    } else {
      assert (parts + more)[..|parts + more| - 1] == parts + more[..|more| - 1];
      FlatAllAppend(parts, more[..|more| - 1]);
    }
  }

  lemma FlatAllNone(p: RetryPolicy, w: World)
    ensures FlatAll([]) == [] && ApplyAll(p, w, []) == w
  {
  }

  /** The results a handler gives, batch by batch. */
  datatype Handler = Handler(result: nat -> BatchResult)
  {
    function Result(i: nat): BatchResult {
      result(i)
    }
  }

  ghost predicate AllSettled(p: RetryPolicy, w: World, parts: seq<seq<seq<Effect>>>, batches: seq<Batch>,
                             handler: Handler, first: nat, random: real) {
    && |parts| == |batches|
    && forall i :: 0 <= i < |parts| ==>
         BatchSettled(p, ApplyAll(p, w, FlatAll(parts[..i])), parts[i], batches[i].messages, handler.Result(first + i), random)
  }

  lemma AllSettledNone(p: RetryPolicy, w: World, handler: Handler, first: nat, random: real)
    ensures AllSettled(p, w, [], [], handler, first, random) && ReportedAll(w.tracker, [], handler, first) == w.tracker
  {
  }

  lemma AllSettledAppend(p: RetryPolicy, w: World, parts: seq<seq<seq<Effect>>>, batches: seq<Batch>, handler: Handler, first: nat, random: real,
                         more: seq<seq<seq<Effect>>>, batches': seq<Batch>)
    requires AllSettled(p, w, parts, batches, handler, first, random)
    requires AllSettled(p, ApplyAll(p, w, FlatAll(parts)), more, batches', handler, first + |batches|, random)
    ensures AllSettled(p, w, parts + more, batches + batches', handler, first, random)
  {
    hide BatchSettled, ApplyAll, FlatAll;
    var all, n := parts + more, |parts|;
    forall i | 0 <= i < |all|
      ensures BatchSettled(p, ApplyAll(p, w, FlatAll(all[..i])), all[i], (batches + batches')[i].messages, handler.Result(first + i), random)
    {
      if i < n {
        assert all[..i] == parts[..i];
      } else {
        var j := i - n;
        assert all[..i] == parts + more[..j];
        FlatAllAppend(parts, more[..j]);
        ApplyAllAppend(p, w, FlatAll(parts), FlatAll(more[..j]));
        assert BatchSettled(p, ApplyAll(p, ApplyAll(p, w, FlatAll(parts)), FlatAll(more[..j])), more[j], batches'[j].messages,
                            handler.Result(first + |batches| + j), random);
      }
    }
  }

  lemma OneBatchSettled(p: RetryPolicy, w: World, part: seq<seq<Effect>>, b: Batch, handler: Handler, first: nat, random: real)
    requires BatchSettled(p, w, part, b.messages, handler.Result(first), random)
    ensures AllSettled(p, w, [part], [b], handler, first, random)
  {
    hide BatchSettled;
    assert [part][..0] == [];
  }

  /** The tracker after batch upon batch was reported to it. */
  function ReportedAll(t: Tracker, batches: seq<Batch>, handler: Handler, first: nat): Tracker {
    if batches == [] then t
    else
      var n := |batches| - 1;
      Reported(ReportedAll(t, batches[..n], handler, first), batches[n].messages, handler.Result(first + n))
  }

  lemma {:induction false} ReportedAppend(t: Tracker, batches: seq<Batch>, more: seq<Batch>, handler: Handler, first: nat)
    ensures ReportedAll(t, batches + more, handler, first) ==
            ReportedAll(ReportedAll(t, batches, handler, first), more, handler, first + |batches|)
  {
    if more == [] {
      assert batches + more == batches;
    } else {
      var n := |more| - 1;
      assert (batches + more)[..|batches| + n] == batches + more[..n];
      ReportedAppend(t, batches, more[..n], handler, first);
    }
  }

  lemma {:induction false} TerminalKept(t: Tracker, messages: seq<Message>, result: BatchResult, home: TopicPartition)
    requires home in t && t[home].terminal
    ensures home in Reported(t, messages, result) && Reported(t, messages, result)[home].terminal
  {
    if messages != [] {
      var front, m := messages[..|messages| - 1], messages[|messages| - 1];
      TerminalKept(t, front, result, home);
      var here := Reported(t, front, result);
      if result.AllSuccess? && m.Home() == home {
        var c := here[home];
        AdvanceEndsRun(Seeded(c, m.offset).(pending := c.pending + {m.offset}, failed := c.failed - {m.offset}));
      }
    }
  }

  /** Over all batches of a loop: once a batch of a registered partition fails for good, the
      partition may not be committed after any of the later batches. */
  lemma {:induction false} TerminalBatchStays(t: Tracker, batches: seq<Batch>, handler: Handler, first: nat, i: nat, m: Message)
    requires i < |batches| && m in batches[i].messages && m.Home() in ReportedAll(t, batches[..i], handler, first)
    requires handler.Result(first + i).AllFailure? && handler.Result(first + i).reason.Terminal?
    ensures m.Home() in ReportedAll(t, batches, handler, first) && ReportedAll(t, batches, handler, first)[m.Home()].terminal
    ensures !ShouldCommit(Entry(ReportedAll(t, batches, handler, first), m.Home()))
  {
    var n := |batches| - 1;
    var here := ReportedAll(t, batches[..n], handler, first);
    if i == n {
      TerminalBatchBlocks(here, batches[n].messages, handler.Result(first + n).reason, m.Home());
    } else {
      assert batches[..n][..i] == batches[..i];
      TerminalBatchStays(t, batches[..n], handler, first, i, m);
      TerminalKept(here, batches[n].messages, handler.Result(first + n), m.Home());
    }
  }

  /** Invokes the handler on each batch in turn; an empty batch is skipped by the caller. */
  method FlushBatches(s: Services, batches: seq<Batch>, handler: Handler, first: nat, random: real) returns (ghost parts: seq<seq<seq<Effect>>>)
    requires s.Valid() && forall b, m :: b in batches && m in b.messages ==> m.offset >= 0
    modifies s.Repr
    ensures s.Valid() && fresh(s.Repr - old(s.Repr))
    ensures s.log == old(s.log) + FlatAll(parts) && s.world == ApplyAll(s.Policy(), old(s.world), FlatAll(parts))
    ensures AllSettled(s.Policy(), old(s.world), parts, batches, handler, first, random)
    ensures s.world.tracker == ReportedAll(old(s.world).tracker, batches, handler, first)
  {
    hide Services.Valid, BatchSettled, AllSettled, FlatAll, Flat, ApplyAll, Reported;
    ghost var p, before, start := s.Policy(), s.world, s.log;
    parts := [];
    FlatAllNone(p, before);
    AllSettledNone(p, before, handler, first, random);
    for i := 0 to |batches|
      invariant s.Valid() && fresh(s.Repr - old(s.Repr))
      invariant s.log == start + FlatAll(parts) && s.world == ApplyAll(p, before, FlatAll(parts))
      invariant AllSettled(p, before, parts, batches[..i], handler, first, random)
      invariant s.world.tracker == ReportedAll(before.tracker, batches[..i], handler, first)
    {
      assert batches[i] in batches;
      ghost var between := s.world;
      var part := HandleBatchResult(s, batches[i].messages, handler.Result(first + i), random);
      OneBatchSettled(p, between, part, batches[i], handler, first + i, random);
      AllSettledAppend(p, before, parts, batches[..i], handler, first, random, [part], [batches[i]]);
      assert batches[..i] + [batches[i]] == batches[..i + 1] && batches[..i + 1][..i] == batches[..i];
      FlatAllGrows(parts, part);
      Regroup(start, FlatAll(parts), Flat(part));
      ApplyAllAppend(p, before, FlatAll(parts), Flat(part));
      parts := parts + [part];
    }
    assert batches[..|batches|] == batches;
  }

  // ---------------------------------------------------------------------------------------
  // The collected messages
  // ---------------------------------------------------------------------------------------

  datatype Arrival = Arrival(m: Message, now: int)

  /** What a batch worker received, flushed and still holds. */
  datatype Desk = Desk(received: seq<Arrival>, flushed: seq<Batch>, acc: Buffers)

  /** The messages of partition `p`, in order of arrival. */
  function Arrived(received: seq<Arrival>, p: int): seq<Message> {
    if received == [] then []
    else
      var last := received[|received| - 1].m;
      Arrived(received[..|received| - 1], p) + if last.partition == p then [last] else []
  }

  /** When partition `p` saw its very first message. */
  function FirstArrival(received: seq<Arrival>, p: int): Option<int> {
    if received == [] then None
    else
      var before := FirstArrival(received[..|received| - 1], p);
      var last := received[|received| - 1];
      if before.None? && last.m.partition == p then Some(last.now) else before
  }

  ghost predicate InOrder(d: Desk) {
    forall p :: Drained(d.flushed, p) + Held(d.acc, p) == Arrived(d.received, p)
  }

  /** Once started, a partition's timer stands where its first message put it. */
  ghost predicate Timed(d: Desk, wait: nat) {
    forall p :: DeadlineOf(d.acc, p) ==
                match FirstArrival(d.received, p) case None => None case Some(t) => Some(t + wait)
  }

  ghost predicate Pure(messages: seq<Message>, p: int, received: seq<Arrival>) {
    forall m :: m in messages ==> m.partition == p && exists a :: a in received && a.m == m
  }

  ghost predicate Bounded(d: Desk, max: nat) {
    && (forall p :: Pure(Held(d.acc, p), p, d.received))
    && (forall b :: b in d.flushed ==> 0 < |b.messages| <= AtLeastOne(max) && Pure(b.messages, b.partition, d.received))
  }

  /** Every buffer is short of a full batch. */
  ghost predicate Small(acc: Buffers, max: nat) {
    forall p :: |Held(acc, p)| < AtLeastOne(max)
  }

  ghost predicate Kept(d: Desk, max: nat, wait: nat) {
    InOrder(d) && Timed(d, wait) && Bounded(d, max)
  }

  function Receive(d: Desk, m: Message, now: int, wait: nat): Desk {
    Desk(d.received + [Arrival(m, now)], d.flushed, AddTo(d.acc, m, now, wait))
  }

  lemma ReceivedOne(received: seq<Arrival>, a: Arrival)
    ensures forall p :: Arrived(received + [a], p) == Arrived(received, p) + if a.m.partition == p then [a.m] else []
    ensures forall p :: FirstArrival(received + [a], p) ==
                        if FirstArrival(received, p).None? && a.m.partition == p then Some(a.now) else FirstArrival(received, p)
  {
    assert (received + [a])[..|received|] == received;
  }

  lemma {:induction false} ArrivedSince(received: seq<Arrival>, p: int)
    ensures FirstArrival(received, p).None? <==> Arrived(received, p) == []
  {
    if received != [] {
      ArrivedSince(received[..|received| - 1], p);
    }
  }

  lemma HeldAfterAdding(acc: Buffers, m: Message, now: int, wait: nat)
    ensures forall p :: Held(AddTo(acc, m, now, wait), p) == Held(acc, p) + if p == m.partition then [m] else []
    ensures forall p :: p != m.partition ==> DeadlineOf(AddTo(acc, m, now, wait), p) == DeadlineOf(acc, p)
    ensures DeadlineOf(AddTo(acc, m, now, wait), m.partition) ==
            if Held(acc, m.partition) == [] && DeadlineOf(acc, m.partition).None? then Some(now + wait)
            else DeadlineOf(acc, m.partition)
  {
  }

  lemma ReceiveInOrder(d: Desk, m: Message, now: int, wait: nat)
    requires InOrder(d)
    ensures InOrder(Receive(d, m, now, wait))
  {
    hide Arrived, FirstArrival, Drained, Held, AddTo;
    var after := Receive(d, m, now, wait);
    ReceivedOne(d.received, Arrival(m, now));
    HeldAfterAdding(d.acc, m, now, wait);
    forall p ensures Drained(after.flushed, p) + Held(after.acc, p) == Arrived(after.received, p) {
      assert Drained(d.flushed, p) + Held(d.acc, p) == Arrived(d.received, p);
    }
  }

  lemma ReceiveTimed(d: Desk, m: Message, now: int, wait: nat)
    requires InOrder(d) && Timed(d, wait)
    ensures Timed(Receive(d, m, now, wait), wait)
  {
    hide Arrived, FirstArrival, Drained, Held, AddTo, DeadlineOf;
    ReceivedOne(d.received, Arrival(m, now));
    HeldAfterAdding(d.acc, m, now, wait);
    ArrivedSince(d.received, m.partition);
    var p := m.partition;
    assert Drained(d.flushed, p) + Held(d.acc, p) == Arrived(d.received, p);
  }

  lemma ReceiveBounded(d: Desk, max: nat, m: Message, now: int, wait: nat)
    requires Bounded(d, max)
    ensures Bounded(Receive(d, m, now, wait), max)
  {
    hide Arrived, FirstArrival, Drained, Held, AddTo;
    var after := Receive(d, m, now, wait);
    HeldAfterAdding(d.acc, m, now, wait);
    assert Arrival(m, now) in after.received;
    forall a | a in d.received ensures a in after.received {}
    forall b | b in d.flushed ensures Pure(b.messages, b.partition, after.received) {
      assert Pure(b.messages, b.partition, d.received);
    }
    forall p ensures Pure(Held(after.acc, p), p, after.received) {
      assert Pure(Held(d.acc, p), p, d.received);
    }
  }

  lemma ReceiveKeeps(d: Desk, max: nat, wait: nat, m: Message, now: int)
    requires Kept(d, max, wait)
    ensures Kept(Receive(d, m, now, wait), max, wait)
    ensures forall p :: Held(Receive(d, m, now, wait).acc, p) == Held(d.acc, p) + if p == m.partition then [m] else []
  {
    ReceiveInOrder(d, m, now, wait);
    ReceiveTimed(d, m, now, wait);
    ReceiveBounded(d, max, m, now, wait);
    HeldAfterAdding(d.acc, m, now, wait);
    hide InOrder, Timed, Bounded, Held, AddTo;
  }

  lemma FlushAllKeeps(d: Desk, max: nat, wait: nat, batches: seq<Batch>)
    requires Kept(d, max, wait) && Small(d.acc, max)
    requires forall p :: Drained(batches, p) == Held(d.acc, p)
    requires forall b :: b in batches ==> b.messages != [] && b.messages == Held(d.acc, b.partition)
    ensures var after := Desk(d.received, d.flushed + batches, AllEmptied(d.acc));
            Kept(after, max, wait) && Small(after.acc, max) && forall p :: Held(after.acc, p) == []
  {
    hide Arrived, FirstArrival, Drained;
    forall p ensures Drained(d.flushed + batches, p) == Arrived(d.received, p) {
      DrainedAppend(d.flushed, batches, p);
      assert Drained(d.flushed, p) + Held(d.acc, p) == Arrived(d.received, p);
    }
    var after := Desk(d.received, d.flushed + batches, AllEmptied(d.acc));
    assert forall p :: Held(after.acc, p) == [] && DeadlineOf(after.acc, p) == DeadlineOf(d.acc, p);
    assert forall p :: Drained(after.flushed, p) + [] == Drained(after.flushed, p);
    forall b | b in batches ensures 0 < |b.messages| <= AtLeastOne(max) && Pure(b.messages, b.partition, d.received) {
      assert |Held(d.acc, b.partition)| < AtLeastOne(max);
    }
  }

  lemma FlushOneKeeps(d: Desk, max: nat, wait: nat, p: int)
    requires Kept(d, max, wait) && Held(d.acc, p) != [] && |Held(d.acc, p)| <= AtLeastOne(max)
    ensures Kept(Desk(d.received, d.flushed + [Batch(p, Held(d.acc, p))], Emptied(d.acc, p)), max, wait)
    ensures forall q :: Held(Emptied(d.acc, p), q) == if q == p then [] else Held(d.acc, q)
  {
    hide Arrived, FirstArrival, Drained;
    var b := Batch(p, Held(d.acc, p));
    var after := Desk(d.received, d.flushed + [b], Emptied(d.acc, p));
    DrainedOne(d.flushed, b);
    assert forall q :: Held(after.acc, q) == (if q == p then [] else Held(d.acc, q)) && DeadlineOf(after.acc, q) == DeadlineOf(d.acc, q);
    forall q ensures Drained(after.flushed, q) + Held(after.acc, q) == Arrived(after.received, q) {
      assert Drained(d.flushed, q) + Held(d.acc, q) == Arrived(d.received, q);
    }
  }

  // ---------------------------------------------------------------------------------------
  // The loop
  // ---------------------------------------------------------------------------------------

  /** What the loop wakes up for. `atCapacity` says whether the topic's queue counter stood at
      its capacity when the message was received. */
  datatype Input =
    | DeadlineFired
    | Arrives(m: Message, now: int, atCapacity: bool)
    | ChannelClosed
    | ShutdownSignal

  datatype BatchState = Normal | Backpressure

  /** What a partition still holds once one more of its messages came in. */
  function Refilled(before: seq<Message>, m: Message, max: nat): seq<Message> {
    if |before| + 1 >= max then [] else before + [m]
  }

  /** What partition `p` holds after the loop woke up for `input`; `pressed` says whether the loop
      is in its backpressure state. */
  function HeldAfter(held: seq<Message>, p: int, input: Input, pressed: bool, max: nat): seq<Message> {
    match input
    case Arrives(m, _, atCapacity) =>
      var base := if atCapacity && !pressed then [] else held;
      if m.partition == p then Refilled(base, m, max) else base
    case _ => []
  }

  /** The batches of partition `p` that are flushed on the same wake-up: under pressure, at a deadline
      or on leaving all it held at once, and what a message filled up. */
  function FlushedAfter(held: seq<Message>, p: int, input: Input, pressed: bool, max: nat): seq<seq<Message>> {
    match input
    case Arrives(m, _, atCapacity) =>
      var (first, base) := if atCapacity && !pressed then (Whole(held), []) else ([], held);
      first + if m.partition == p && |base| + 1 >= max then [base + [m]] else []
    case _ => Whole(held)
  }

  function Pressed(inputs: seq<Input>): bool {
    inputs != [] &&
    (Pressed(inputs[..|inputs| - 1]) || (inputs[|inputs| - 1].Arrives? && inputs[|inputs| - 1].atCapacity))
  }

  /** What partition `p` holds after all these inputs, read off the inputs alone. */
  function Expected(inputs: seq<Input>, p: int, max: nat): seq<Message> {
    if inputs == [] then []
    else
      var front := inputs[..|inputs| - 1];
      HeldAfter(Expected(front, p, max), p, inputs[|inputs| - 1], Pressed(front), max)
  }

  /** The batches of partition `p` the handler is called with, read off the inputs alone. */
  function ExpectedBatches(inputs: seq<Input>, p: int, max: nat): seq<seq<Message>> {
    if inputs == [] then []
    else
      var front := inputs[..|inputs| - 1];
      ExpectedBatches(front, p, max) + FlushedAfter(Expected(front, p, max), p, inputs[|inputs| - 1], Pressed(front), max)
  }

  ghost predicate Apart(s: Services, acc: BatchAccumulator)
    reads s, acc
  {
    {acc} + acc.buffers.Values !! s.Repr
  }

  ghost predicate Sound(d: Desk, acc: Buffers, max: nat, wait: nat) {
    && d.acc == acc
    && Kept(d, max, wait) && Small(acc, max)
    && forall a :: a in d.received ==> a.m.offset >= 0
  }

  lemma HeldOffsets(d: Desk, acc: Buffers, max: nat, wait: nat, p: int)
    requires d.acc == acc && Kept(d, max, wait) && forall a :: a in d.received ==> a.m.offset >= 0
    ensures forall m :: m in Held(acc, p) ==> m.offset >= 0
  {
    assert Pure(Held(d.acc, p), p, d.received);
  }

  /** Flushes every partition. */
  method FlushEverything(s: Services, acc: BatchAccumulator, handler: Handler, first: nat, random: real, ghost d: Desk)
    returns (ghost d': Desk, ghost parts: seq<seq<seq<Effect>>>, count: nat)
    requires s.Valid() && acc.Valid() && Apart(s, acc)
    requires Sound(d, acc.view, acc.maxBatchSize, acc.maxBatchWait) && first == |d.flushed|
    modifies s.Repr, acc, acc.buffers.Values
    ensures s.Valid() && fresh(s.Repr - old(s.Repr)) && acc.Valid() && acc.buffers == old(acc.buffers) && Apart(s, acc)
    ensures Sound(d', acc.view, acc.maxBatchSize, acc.maxBatchWait)
    ensures forall p :: Held(acc.view, p) == []
    ensures d'.received == d.received && d.flushed <= d'.flushed && count == |d'.flushed| - |d.flushed|
    ensures forall p :: Taken(d'.flushed[|d.flushed|..], p) == Whole(Held(old(acc.view), p))
    ensures AllSettled(s.Policy(), old(s.world), parts, d'.flushed[|d.flushed|..], handler, |d.flushed|, random)
    ensures s.world.tracker == ReportedAll(old(s.world).tracker, d'.flushed[|d.flushed|..], handler, |d.flushed|)
    ensures s.log == old(s.log) + FlatAll(parts) && s.world == ApplyAll(s.Policy(), old(s.world), FlatAll(parts))
  {
    hide Services.Valid, BatchAccumulator.Valid, AllSettled, FlatAll, ApplyAll, ReportedAll, Kept, Drained, AllEmptied, Held;
    var max, wait := acc.maxBatchSize, acc.maxBatchWait;
    ghost var before := acc.view;
    var batches := acc.FlushAll();
    forall b, m | b in batches && m in b.messages ensures m.offset >= 0 {
      HeldOffsets(d, before, max, wait, b.partition);
    }
    FlushAllKeeps(d, max, wait, batches);
    d' := Desk(d.received, d.flushed + batches, AllEmptied(d.acc));
    parts := FlushBatches(s, batches, handler, first, random);
    count := |batches|;
  }

  /** Takes a full partition's batch out and flushes it. */
  method FlushFull(s: Services, acc: BatchAccumulator, p: int, handler: Handler, first: nat, random: real, ghost d: Desk)
    returns (ghost d': Desk, ghost parts: seq<seq<seq<Effect>>>, count: nat)
    requires s.Valid() && acc.Valid() && Apart(s, acc) && first == |d.flushed|
    requires d.acc == acc.view && Kept(d, acc.maxBatchSize, acc.maxBatchWait)
    requires forall a :: a in d.received ==> a.m.offset >= 0
    requires forall q :: q != p ==> |Held(acc.view, q)| < AtLeastOne(acc.maxBatchSize)
    requires 0 < |Held(acc.view, p)| <= AtLeastOne(acc.maxBatchSize)
    modifies s.Repr, acc, acc.buffers.Values
    ensures s.Valid() && fresh(s.Repr - old(s.Repr)) && acc.Valid() && acc.buffers == old(acc.buffers) && Apart(s, acc)
    ensures Sound(d', acc.view, acc.maxBatchSize, acc.maxBatchWait)
    ensures forall q :: Held(acc.view, q) == if q == p && |Held(old(acc.view), p)| >= acc.maxBatchSize then [] else Held(old(acc.view), q)
    ensures d'.received == d.received && d.flushed <= d'.flushed && count == |d'.flushed| - |d.flushed|
    ensures d'.flushed[|d.flushed|..] == if |Held(old(acc.view), p)| >= acc.maxBatchSize then [Batch(p, Held(old(acc.view), p))] else []
    ensures AllSettled(s.Policy(), old(s.world), parts, d'.flushed[|d.flushed|..], handler, |d.flushed|, random)
    ensures s.world.tracker == ReportedAll(old(s.world).tracker, d'.flushed[|d.flushed|..], handler, |d.flushed|)
    ensures s.log == old(s.log) + FlatAll(parts) && s.world == ApplyAll(s.Policy(), old(s.world), FlatAll(parts))
  {
    hide Services.Valid, BatchAccumulator.Valid, AllSettled, FlatAll, ApplyAll, ReportedAll, Kept, Drained, Emptied, Held;
    var max, wait := acc.maxBatchSize, acc.maxBatchWait;
    ghost var before, p0 := acc.view, s.Policy();
    d', parts, count := d, [], 0;
    FlatAllNone(p0, s.world);
    AllSettledNone(s.Policy(), s.world, handler, first, random);
    var full := acc.WouldFillPartition(p);
    FullExactly(before, p, max);
    if full {
      var taken := acc.FlushPartition(p);
      HeldOffsets(d, before, max, wait, p);
      FlushOneKeeps(d, max, wait, p);
      var batch := Batch(p, taken.value);
      d' := Desk(d.received, d.flushed + [batch], Emptied(d.acc, p));
      parts := FlushBatches(s, [batch], handler, first, random);
      count := 1;
      assert d'.flushed[|d.flushed|..] == [batch];
    } else {
      assert d'.flushed[|d.flushed|..] == [];
    }
  }

  lemma FullExactly(acc: Buffers, p: int, max: nat)
    requires Held(acc, p) != []
    ensures Full(acc, p, max) <==> |Held(acc, p)| >= AtLeastOne(max)
  {
  }

  /** A short buffer that counts as full is empty, so flushing it first takes nothing. */
  lemma PreemptiveFlushIsIdle(acc: Buffers, p: int, max: nat)
    requires Small(acc, max) && Full(acc, p, max)
    ensures Held(acc, p) == [] && Emptied(acc, p) == acc
  {
    assert |Held(acc, p)| < AtLeastOne(max);
  }

  lemma SoundReceives(d: Desk, acc: Buffers, max: nat, wait: nat, m: Message, now: int)
    requires Sound(d, acc, max, wait) && m.offset >= 0
    ensures var d' := Receive(d, m, now, wait);
            && Kept(d', max, wait) && d'.acc == AddTo(acc, m, now, wait)
            && (forall a :: a in d'.received ==> a.m.offset >= 0)
            && (forall q :: Held(d'.acc, q) == Held(acc, q) + if q == m.partition then [m] else [])
            && (forall q :: q != m.partition ==> |Held(d'.acc, q)| < AtLeastOne(max))
            && 0 < |Held(d'.acc, m.partition)| <= AtLeastOne(max)
  {
    hide Kept, AddTo, Held;
    ReceiveKeeps(d, max, wait, m, now);
  }

  /** Adds one message, flushing its partition if that fills the batch. */
  method Collect(s: Services, acc: BatchAccumulator, m: Message, now: int, handler: Handler, first: nat, random: real, ghost d: Desk)
    returns (ghost d': Desk, ghost parts: seq<seq<seq<Effect>>>, count: nat)
    requires s.Valid() && acc.Valid() && Apart(s, acc) && m.offset >= 0
    requires Sound(d, acc.view, acc.maxBatchSize, acc.maxBatchWait) && first == |d.flushed|
    modifies s.Repr, acc, acc.buffers.Values
    ensures s.Valid() && fresh(s.Repr - old(s.Repr)) && acc.Valid() && Apart(s, acc)
    ensures fresh(acc.buffers.Values - old(acc.buffers.Values))
    ensures Sound(d', acc.view, acc.maxBatchSize, acc.maxBatchWait)
    ensures forall q :: Held(acc.view, q) ==
              if q == m.partition then Refilled(Held(old(acc.view), q), m, acc.maxBatchSize) else Held(old(acc.view), q)
    ensures d'.received == d.received + [Arrival(m, now)] && d.flushed <= d'.flushed && count == |d'.flushed| - |d.flushed|
    ensures d'.flushed[|d.flushed|..] ==
            if |Held(old(acc.view), m.partition)| + 1 >= acc.maxBatchSize then [Batch(m.partition, Held(old(acc.view), m.partition) + [m])] else []
    ensures AllSettled(s.Policy(), old(s.world), parts, d'.flushed[|d.flushed|..], handler, |d.flushed|, random)
    ensures s.world.tracker == ReportedAll(old(s.world).tracker, d'.flushed[|d.flushed|..], handler, |d.flushed|)
    ensures s.log == old(s.log) + FlatAll(parts) && s.world == ApplyAll(s.Policy(), old(s.world), FlatAll(parts))
  {
    hide Services.Valid, BatchAccumulator.Valid, AllSettled, FlatAll, ApplyAll, ReportedAll, Kept, Emptied, Held, AddTo, Full;
    var full := acc.WouldFillPartition(m.partition);
    if full {
      PreemptiveFlushIsIdle(acc.view, m.partition, acc.maxBatchSize);
      var preempted := acc.FlushPartition(m.partition);
      if preempted.Some? {
        assert false;
      }
    }
    SoundReceives(d, acc.view, acc.maxBatchSize, acc.maxBatchWait, m, now);
    acc.Add(m, now);
    d', parts, count := FlushFull(s, acc, m.partition, handler, first, random, Receive(d, m, now, acc.maxBatchWait));
  }

  lemma TakenAll(a: seq<Batch>, b: seq<Batch>)
    ensures forall p :: Taken(a + b, p) == Taken(a, p) + Taken(b, p)
  {
    forall p ensures Taken(a + b, p) == Taken(a, p) + Taken(b, p) {
      TakenAppend(a, b, p);
    }
  }

  lemma NothingTaken()
    ensures Whole([]) == [] && forall p :: Taken([], p) == []
  {
  }

  /** What a message's arrival flushes, first under pressure and then by filling up. */
  lemma ArrivalFlushes(before: Buffers, between: Buffers, first: seq<Batch>, filled: seq<Batch>,
                       m: Message, now: int, atCapacity: bool, pressed: bool, max: nat)
    requires if atCapacity && !pressed
             then forall q :: Taken(first, q) == Whole(Held(before, q)) && Held(between, q) == []
             else first == [] && between == before
    requires filled == if |Held(between, m.partition)| + 1 >= max then [Batch(m.partition, Held(between, m.partition) + [m])] else []
    ensures forall q :: Taken(first + filled, q) == FlushedAfter(Held(before, q), q, Arrives(m, now, atCapacity), pressed, max)
  {
    var p := m.partition;
    TakenOne(filled);
    NothingTaken();
    hide Held, Whole, Taken;
    forall q ensures Taken(first + filled, q) == FlushedAfter(Held(before, q), q, Arrives(m, now, atCapacity), pressed, max) {
      TakenAll(first, filled);
      assert q != p || filled == [] ==> Taken(filled, q) == [];
    }
  }

  lemma TakenOne(batches: seq<Batch>)
    ensures |batches| == 1 ==> forall q :: Taken(batches, q) == if q == batches[0].partition then [batches[0].messages] else []
  {
    if |batches| == 1 {
      assert batches[..0] == [];
    }
  }

  /** A message comes in: at capacity everything is flushed first, once in the loop's life. */
  method TakeIn(s: Services, acc: BatchAccumulator, m: Message, now: int, atCapacity: bool, state: BatchState,
                handler: Handler, first: nat, random: real, ghost d: Desk)
    returns (state': BatchState, count: nat, ghost d': Desk, ghost parts: seq<seq<seq<Effect>>>)
    requires s.Valid() && acc.Valid() && Apart(s, acc) && m.offset >= 0
    requires Sound(d, acc.view, acc.maxBatchSize, acc.maxBatchWait) && first == |d.flushed|
    modifies s.Repr, acc, acc.buffers.Values
    ensures s.Valid() && fresh(s.Repr - old(s.Repr)) && acc.Valid() && Apart(s, acc)
    ensures fresh(acc.buffers.Values - old(acc.buffers.Values))
    ensures Sound(d', acc.view, acc.maxBatchSize, acc.maxBatchWait)
    ensures d'.received == d.received + [Arrival(m, now)]
    ensures d.flushed <= d'.flushed && count == |d'.flushed| - |d.flushed|
    ensures forall q :: Taken(d'.flushed[|d.flushed|..], q) ==
                        FlushedAfter(Held(old(acc.view), q), q, Arrives(m, now, atCapacity), state.Backpressure?, acc.maxBatchSize)
    ensures AllSettled(s.Policy(), old(s.world), parts, d'.flushed[|d.flushed|..], handler, |d.flushed|, random)
    ensures s.world.tracker == ReportedAll(old(s.world).tracker, d'.flushed[|d.flushed|..], handler, |d.flushed|)
    ensures s.log == old(s.log) + FlatAll(parts) && s.world == ApplyAll(s.Policy(), old(s.world), FlatAll(parts))
    ensures forall q :: Held(acc.view, q) ==
                        HeldAfter(Held(old(acc.view), q), q, Arrives(m, now, atCapacity), state.Backpressure?, acc.maxBatchSize)
    ensures state' == if atCapacity then Backpressure else state
  {
    hide Services.Valid, BatchAccumulator.Valid, AllSettled, FlatAll, ApplyAll, ReportedAll, Sound, Held, Taken, Whole, FlushedAfter;
    ghost var p, before, start := s.Policy(), s.world, s.log;
    state', count, d', parts := state, 0, d, [];
    FlatAllNone(p, before);
    AllSettledNone(p, before, handler, first, random);
    assert d.flushed[|d.flushed|..] == [] && start + [] == start;
    if state.Normal? && atCapacity {
      state' := Backpressure;
      d', parts, count := FlushEverything(s, acc, handler, first, random, d);
    }
    ghost var between, sofar, middle := d', parts, acc.view;
    ghost var more;
    var added;
    d', more, added := Collect(s, acc, m, now, handler, first + count, random, between);
    parts, count := sofar + more, count + added;
    ghost var (a, b) := (between.flushed[|d.flushed|..], d'.flushed[|between.flushed|..]);
    assert d'.flushed[|d.flushed|..] == a + b;
    AllSettledAppend(p, before, sofar, a, handler, first, random, more, b);
    ReportedAppend(before.tracker, a, b, handler, first);
    ArrivalFlushes(old(acc.view), middle, a, b, m, now, atCapacity, state.Backpressure?, acc.maxBatchSize);
    FlatAllAppend(sofar, more);
    Regroup(start, FlatAll(sofar), FlatAll(more));
    ApplyAllAppend(p, before, FlatAll(sofar), FlatAll(more));
  }

  /** One turn of the loop. */
  method Turn(s: Services, acc: BatchAccumulator, input: Input, state: BatchState, handler: Handler, first: nat, random: real, ghost d: Desk)
    returns (state': BatchState, exit: bool, count: nat, ghost d': Desk, ghost parts: seq<seq<seq<Effect>>>)
    requires s.Valid() && acc.Valid() && Apart(s, acc) && (input.Arrives? ==> input.m.offset >= 0)
    requires Sound(d, acc.view, acc.maxBatchSize, acc.maxBatchWait) && first == |d.flushed|
    modifies s.Repr, acc, acc.buffers.Values
    ensures s.Valid() && fresh(s.Repr - old(s.Repr)) && acc.Valid() && Apart(s, acc)
    ensures fresh(acc.buffers.Values - old(acc.buffers.Values))
    ensures Sound(d', acc.view, acc.maxBatchSize, acc.maxBatchWait)
    ensures d'.received == d.received + (if input.Arrives? then [Arrival(input.m, input.now)] else [])
    ensures d.flushed <= d'.flushed && count == |d'.flushed| - |d.flushed|
    ensures forall q :: Taken(d'.flushed[|d.flushed|..], q) == FlushedAfter(Held(old(acc.view), q), q, input, state.Backpressure?, acc.maxBatchSize)
    ensures AllSettled(s.Policy(), old(s.world), parts, d'.flushed[|d.flushed|..], handler, |d.flushed|, random)
    ensures s.world.tracker == ReportedAll(old(s.world).tracker, d'.flushed[|d.flushed|..], handler, |d.flushed|)
    ensures s.log == old(s.log) + FlatAll(parts) && s.world == ApplyAll(s.Policy(), old(s.world), FlatAll(parts))
    ensures exit <==> input.ChannelClosed? || input.ShutdownSignal?
    ensures exit ==> forall q :: Held(acc.view, q) == []
    ensures forall q :: Held(acc.view, q) == HeldAfter(Held(old(acc.view), q), q, input, state.Backpressure?, acc.maxBatchSize)
    ensures state' == if input.Arrives? && input.atCapacity then Backpressure else state
  {
    hide Services.Valid, BatchAccumulator.Valid, AllSettled, FlatAll, ApplyAll, ReportedAll, Sound, Held, Taken, Whole;
    ghost var p, before, start := s.Policy(), s.world, s.log;
    state', exit, count, d', parts := state, false, 0, d, [];
    FlatAllNone(p, before);
    NothingTaken();
    AllSettledNone(s.Policy(), s.world, handler, first, random);
    assert d.flushed[|d.flushed|..] == [] && d.received + [] == d.received && start + [] == start;
    match input {
      case DeadlineFired =>
        var empty := acc.IsEmpty();
        if !empty {
          d', parts, count := FlushEverything(s, acc, handler, first, random, d);
        }
      case Arrives(m, now, atCapacity) =>
        state', count, d', parts := TakeIn(s, acc, m, now, atCapacity, state, handler, first, random, d);
      case ChannelClosed =>
        d', parts, count := FlushEverything(s, acc, handler, first, random, d);
        exit := true;
      case ShutdownSignal =>
        d', parts, count := FlushEverything(s, acc, handler, first, random, d);
        exit := true;
    }
  }

  function ArrivalsIn(inputs: seq<Input>): seq<Arrival> {
    if inputs == [] then []
    else
      var last := inputs[|inputs| - 1];
      ArrivalsIn(inputs[..|inputs| - 1]) + if last.Arrives? then [Arrival(last.m, last.now)] else []
  }

  /** Everything the loop keeps, at its head. */
  ghost predicate Progress(d: Desk, acc: Buffers, max: nat, wait: nat, inputs: seq<Input>,
                           p: RetryPolicy, w: World, parts: seq<seq<seq<Effect>>>, handler: Handler, random: real) {
    && Sound(d, acc, max, wait)
    && d.received == ArrivalsIn(inputs)
    && (forall q :: Held(acc, q) == Expected(inputs, q, max) && Taken(d.flushed, q) == ExpectedBatches(inputs, q, max))
    && AllSettled(p, w, parts, d.flushed, handler, 0, random)
  }

  /** Runs the worker over what it wakes up for; its inputs are those of any point of any run. */
  method BatchWorkerLoop(s: Services, maxBatchSize: nat, maxBatchWait: nat, inputs: seq<Input>, handler: Handler, random: real)
    returns (taken: nat, exited: bool, pressured: nat, ghost d: Desk, ghost parts: seq<seq<seq<Effect>>>)
    requires s.Valid() && forall i :: i in inputs && i.Arrives? ==> i.m.offset >= 0
    modifies s.Repr
    ensures s.Valid() && fresh(s.Repr - old(s.Repr)) && taken <= |inputs|
    ensures Progress(d, d.acc, maxBatchSize, maxBatchWait, inputs[..taken], s.Policy(), old(s.world), parts, handler, random)
    ensures s.world.tracker == ReportedAll(old(s.world).tracker, d.flushed, handler, 0)
    ensures s.log == old(s.log) + FlatAll(parts) && s.world == ApplyAll(s.Policy(), old(s.world), FlatAll(parts))
    ensures exited ==> forall p :: Held(d.acc, p) == []
    ensures exited <==> exists i :: 0 <= i < taken && Exits(inputs[i])
    ensures taken < |inputs| ==> exited
    ensures pressured <= 1
  {
    hide Services.Valid, BatchAccumulator.Valid, AllSettled, FlatAll, ApplyAll, ReportedAll, Sound, Held, ArrivalsIn, Expected, Pressed, HeldAfter, Taken, ExpectedBatches, FlushedAfter;
    ghost var p, before, start := s.Policy(), s.world, s.log;
    var acc := new BatchAccumulator(maxBatchSize, maxBatchWait);
    var state, flushes := Normal, 0;
    taken, exited, pressured := 0, false, 0;
    d, parts := Desk([], [], map[]), [];
    FlatAllNone(p, before);
    NothingYet(maxBatchSize, maxBatchWait, inputs, p, before, handler, random);
    AllSettledNone(p, before, handler, 0, random);
    while taken < |inputs| && !exited
      invariant taken <= |inputs| && pressured == (if state.Backpressure? then 1 else 0)
      invariant state.Backpressure? <==> Pressed(inputs[..taken])
      invariant s.Valid() && fresh(s.Repr - old(s.Repr)) && acc.Valid() && Apart(s, acc)
      invariant fresh(acc) && fresh(acc.buffers.Values)
      invariant acc.maxBatchSize == maxBatchSize && acc.maxBatchWait == maxBatchWait
      invariant Progress(d, acc.view, maxBatchSize, maxBatchWait, inputs[..taken], p, before, parts, handler, random) && flushes == |d.flushed|
      invariant s.world.tracker == ReportedAll(before.tracker, d.flushed, handler, 0)
      invariant s.log == start + FlatAll(parts) && s.world == ApplyAll(p, before, FlatAll(parts))
      invariant exited ==> forall p :: Held(acc.view, p) == []
      invariant exited <==> exists i :: 0 <= i < taken && Exits(inputs[i])
      decreases |inputs| - taken
    {
      var input := inputs[taken];
      assert input in inputs;
      ghost var was, sofar := d, parts;
      if state.Normal? && input.Arrives? && input.atCapacity {
        pressured := pressured + 1;
      }
      ghost var more;
      var count;
      state, exited, count, d, more := Turn(s, acc, input, state, handler, flushes, random, was);
      TakenAll(was.flushed, d.flushed[|was.flushed|..]);
      AllSettledAppend(p, before, sofar, was.flushed, handler, 0, random, more, d.flushed[|was.flushed|..]);
      ReportedAppend(before.tracker, was.flushed, d.flushed[|was.flushed|..], handler, 0);
      assert d.flushed == was.flushed + d.flushed[|was.flushed|..];
      FlatAllAppend(sofar, more);
      Regroup(start, FlatAll(sofar), FlatAll(more));
      ApplyAllAppend(p, before, FlatAll(sofar), FlatAll(more));
      ArrivalsStep(inputs, taken);
      ExpectedStep(inputs, taken, maxBatchSize);
      parts, flushes, taken := sofar + more, flushes + count, taken + 1;
    }
    SoundDesk(d, acc.view, maxBatchSize, maxBatchWait);
  }

  predicate Exits(input: Input) {
    input.ChannelClosed? || input.ShutdownSignal?
  }

  lemma NothingYet(max: nat, wait: nat, inputs: seq<Input>, p: RetryPolicy, w: World, handler: Handler, random: real)
    ensures Progress(Desk([], [], map[]), map[], max, wait, inputs[..0], p, w, [], handler, random) && !Pressed(inputs[..0])
  {
  }

  lemma ArrivalsStep(inputs: seq<Input>, n: nat)
    requires n < |inputs|
    ensures ArrivalsIn(inputs[..n + 1]) ==
            ArrivalsIn(inputs[..n]) + if inputs[n].Arrives? then [Arrival(inputs[n].m, inputs[n].now)] else []
  {
    assert inputs[..n + 1][..n] == inputs[..n];
  }

  lemma ExpectedStep(inputs: seq<Input>, n: nat, max: nat)
    requires n < |inputs|
    ensures Pressed(inputs[..n + 1]) <==> Pressed(inputs[..n]) || (inputs[n].Arrives? && inputs[n].atCapacity)
    ensures forall p :: Expected(inputs[..n + 1], p, max) ==
                        HeldAfter(Expected(inputs[..n], p, max), p, inputs[n], Pressed(inputs[..n]), max)
    ensures forall p :: ExpectedBatches(inputs[..n + 1], p, max) ==
                        ExpectedBatches(inputs[..n], p, max) + FlushedAfter(Expected(inputs[..n], p, max), p, inputs[n], Pressed(inputs[..n]), max)
  {
    assert inputs[..n + 1][..n] == inputs[..n];
  }

  lemma SoundDesk(d: Desk, acc: Buffers, max: nat, wait: nat)
    requires Sound(d, acc, max, wait)
    ensures d.acc == acc
  {
  }
}
