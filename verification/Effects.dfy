/** The shared services a worker acts on, and the atomic effects it has on them: each effect
    is one call that the program makes under one lock. */
module Effects {
  import opened Types
  import opened Offsets
  import opened OffsetLaws
  import opened OffsetTracking
  import opened Retry
  import Queues

  /** What the dead-letter producer is handed. */
  datatype DlqRecord = DlqRecord(
    home: TopicPartition,
    offset: int,
    reason: FailureReason,
    attempts: nat,
    timeoutSeconds: Option<nat>,
    key: Option<Bytes>,
    payload: Bytes)

  datatype Effect =
    | ClearRetry(retryKey: RetryKey)
    | QueueAck(topic: string)
    | OffsetAck(home: TopicPartition, offset: int)
    | MarkFailed(home: TopicPartition, offset: int, reason: FailureReason)
    | RecordFailure(retryKey: RetryKey, reason: FailureReason, random: real)
    | HandOff(record: DlqRecord)

  datatype World = World(tracker: Tracker, retry: RetryBook, queues: Queues.Queues, dlq: seq<DlqRecord>)

  function Apply(p: RetryPolicy, w: World, e: Effect): World {
    match e
    case ClearRetry(key) => w.(retry := w.retry - {key})
    case QueueAck(topic) => w.(queues := Queues.AckTopic(w.queues, topic, 1))
    case OffsetAck(home, offset) => w.(tracker := StepTracker(w.tracker, home, Acked(offset)))
    case MarkFailed(home, offset, reason) => w.(tracker := StepTracker(w.tracker, home, Failed(offset, reason)))
    case RecordFailure(key, reason, _) => w.(retry := FailureBook(p, w.retry, key, reason))
    case HandOff(record) => w.(dlq := w.dlq + [record])
  }

  function ApplyAll(p: RetryPolicy, w: World, es: seq<Effect>): World {
    if es == [] then w else Apply(p, ApplyAll(p, w, es[..|es| - 1]), es[|es| - 1])
  }

  lemma {:induction false} ApplyAllAppend(p: RetryPolicy, w: World, es: seq<Effect>, more: seq<Effect>)
    ensures ApplyAll(p, w, es + more) == ApplyAll(p, ApplyAll(p, w, es), more)
  {
    if more == [] {
      assert es + more == es;
    } else {
      assert (es + more)[..|es + more| - 1] == es + more[..|more| - 1];
      ApplyAllAppend(p, w, es, more[..|more| - 1]);
    }
  }

  // ---------------------------------------------------------------------------------------
  // The effects of settling one message
  // ---------------------------------------------------------------------------------------

  function KeyOf(m: Message): RetryKey {
    RetryKey(m.Home(), m.offset)
  }

  /** Retries are counted per message: two messages share a key only at the same offset of the same
      partition. */
  lemma KeysApart(a: Message, b: Message)
    ensures KeyOf(a) == KeyOf(b) <==> a.topic == b.topic && a.partition == b.partition && a.offset == b.offset
  {
  }

  function Record(m: Message, reason: FailureReason, attempts: nat, timeoutSeconds: Option<nat>): DlqRecord {
    DlqRecord(m.Home(), m.offset, reason, attempts, timeoutSeconds, m.key,
              if m.payload.Some? then m.payload.value else [])
  }

  function SuccessEffects(m: Message): seq<Effect> {
    [ClearRetry(KeyOf(m)), QueueAck(m.topic), OffsetAck(m.Home(), m.offset)]
  }

  function DeadLetterEffects(record: DlqRecord, topic: string): seq<Effect> {
    [HandOff(record), QueueAck(topic)]
  }

  // ---------------------------------------------------------------------------------------
  // Counting effects
  // ---------------------------------------------------------------------------------------

  datatype Kind = OffsetAcks | QueueAcks | HandOffs

  predicate Is(e: Effect, kind: Kind) {
    match kind
    case OffsetAcks => e.OffsetAck?
    case QueueAcks => e.QueueAck?
    case HandOffs => e.HandOff?
  }

  function Count(es: seq<Effect>, kind: Kind): nat {
    if es == [] then 0 else Count(es[..|es| - 1], kind) + if Is(es[|es| - 1], kind) then 1 else 0
  }

  lemma {:induction false} CountAppend(es: seq<Effect>, more: seq<Effect>, kind: Kind)
    ensures Count(es + more, kind) == Count(es, kind) + Count(more, kind)
  {
    if more == [] {
      assert es + more == es;
    } else {
      assert (es + more)[..|es + more| - 1] == es + more[..|more| - 1];
      CountAppend(es, more[..|more| - 1], kind);
    }
  }

  datatype Tally = Tally(offsetAcks: nat, queueAcks: nat, handOffs: nat)

  function TallyOf(es: seq<Effect>): Tally {
    Tally(Count(es, OffsetAcks), Count(es, QueueAcks), Count(es, HandOffs))
  }

  lemma TallyAppend(es: seq<Effect>, more: seq<Effect>)
    ensures var (a, b, both) := (TallyOf(es), TallyOf(more), TallyOf(es + more));
            && both.offsetAcks == a.offsetAcks + b.offsetAcks
            && both.queueAcks == a.queueAcks + b.queueAcks
            && both.handOffs == a.handOffs + b.handOffs
  {
    CountAppend(es, more, OffsetAcks);
    CountAppend(es, more, QueueAcks);
    CountAppend(es, more, HandOffs);
  }

  /** The effect concerns this message and no other. */
  predicate About(e: Effect, m: Message) {
    match e
    case ClearRetry(key) => key == KeyOf(m)
    case QueueAck(topic) => topic == m.topic
    case OffsetAck(home, offset) => home == m.Home() && offset == m.offset
    case MarkFailed(home, offset, _) => home == m.Home() && offset == m.offset
    case RecordFailure(key, _, _) => key == KeyOf(m)
    case HandOff(record) => record.home == m.Home() && record.offset == m.offset && record.key == m.key
  }

  // ---------------------------------------------------------------------------------------
  // The services as objects
  // ---------------------------------------------------------------------------------------

  /** `world` is the value of everything the services keep, `log` every effect on it so far. */
  class Services {
    const tracker: OffsetTracker
    const retry: RetryCoordinator
    const queues: Queues.QueueManager
    var dlq: seq<DlqRecord>
    ghost var world: World
    ghost var log: seq<Effect>
    ghost var Repr: set<object>

    ghost predicate Valid()
      reads this, Repr
    {
      && this in Repr && tracker in Repr && retry in Repr && queues in Repr
      && tracker.partitions.Values <= Repr && queues.handlers.Values <= Repr
      && tracker.Valid() && queues.Valid()
      && world == World(tracker.view, retry.state, queues.view, dlq)
    }

    ghost function Policy(): RetryPolicy {
      retry.policy
    }

    constructor (tracker: OffsetTracker, retry: RetryCoordinator, queues: Queues.QueueManager)
      requires tracker.Valid() && queues.Valid()
      ensures Valid() && this.tracker == tracker && this.retry == retry && this.queues == queues
      ensures world == World(tracker.view, retry.state, queues.view, []) && log == []
    {
      this.tracker := tracker;
      this.retry := retry;
      this.queues := queues;
      dlq := [];
      world := World(tracker.view, retry.state, queues.view, []);
      log := [];
      Repr := {this, tracker, retry, queues} + tracker.partitions.Values + queues.handlers.Values;
    }

    method RecordSuccess(key: RetryKey)
      requires Valid()
      modifies Repr
      ensures Valid() && fresh(Repr - old(Repr))
      ensures log == old(log) + [ClearRetry(key)] && world == Apply(Policy(), old(world), ClearRetry(key))
    {
      hide OffsetTracker.Valid, Queues.QueueManager.Valid, StepTracker, Queues.AckTopic, Decide, FailureBook;
      retry.RecordSuccess(key);
      log := log + [ClearRetry(key)];
      world := World(tracker.view, retry.state, queues.view, dlq);
    }

    method RecordRetryableFailure(key: RetryKey, reason: FailureReason, random: real) returns (d: Decision)
      requires Valid()
      modifies Repr
      ensures Valid() && fresh(Repr - old(Repr))
      ensures log == old(log) + [RecordFailure(key, reason, random)] && world == Apply(Policy(), old(world), RecordFailure(key, reason, random))
      ensures d == Decide(Policy(), old(world).retry, key, reason, random)
    {
      hide OffsetTracker.Valid, Queues.QueueManager.Valid, StepTracker, Queues.AckTopic, Decide, FailureBook;
      d := retry.RecordFailure(key, reason, random);
      log := log + [RecordFailure(key, reason, random)];
      world := World(tracker.view, retry.state, queues.view, dlq);
    }

    method AckQueue(topic: string)
      requires Valid()
      modifies Repr
      ensures Valid() && fresh(Repr - old(Repr))
      ensures log == old(log) + [QueueAck(topic)] && world == Apply(Policy(), old(world), QueueAck(topic))
    {
      hide OffsetTracker.Valid, Queues.QueueManager.Valid, StepTracker, Queues.AckTopic, Decide, FailureBook;
      queues.Ack(topic, 1);
      log := log + [QueueAck(topic)];
      world := World(tracker.view, retry.state, queues.view, dlq);
    }

    method AckOffset(home: TopicPartition, offset: int)
      requires Valid() && offset >= 0
      modifies Repr
      ensures Valid() && fresh(Repr - old(Repr))
      ensures log == old(log) + [OffsetAck(home, offset)] && world == Apply(Policy(), old(world), OffsetAck(home, offset))
    {
      hide OffsetTracker.Valid, Queues.QueueManager.Valid, StepTracker, Queues.AckTopic, Decide, FailureBook;
      tracker.Ack(home, offset);
      Repr := Repr + tracker.partitions.Values;
      log := log + [OffsetAck(home, offset)];
      world := World(tracker.view, retry.state, queues.view, dlq);
    }

    method FailOffset(home: TopicPartition, offset: int, reason: FailureReason)
      requires Valid()
      modifies Repr
      ensures Valid() && fresh(Repr - old(Repr))
      ensures log == old(log) + [MarkFailed(home, offset, reason)] && world == Apply(Policy(), old(world), MarkFailed(home, offset, reason))
    {
      hide OffsetTracker.Valid, Queues.QueueManager.Valid, StepTracker, Queues.AckTopic, Decide, FailureBook;
      tracker.MarkFailed(home, offset, reason);
      log := log + [MarkFailed(home, offset, reason)];
      world := World(tracker.view, retry.state, queues.view, dlq);
    }

    method Attempts(key: RetryKey) returns (n: nat)
      requires Valid()
      ensures n == AttemptCount(world.retry, key)
    {
      n := retry.Attempts(key);
    }

    /** Fire and forget. */
    method Produce(record: DlqRecord)
      requires Valid()
      modifies Repr
      ensures Valid() && fresh(Repr - old(Repr))
      ensures log == old(log) + [HandOff(record)] && world == Apply(Policy(), old(world), HandOff(record))
    {
      hide OffsetTracker.Valid, Queues.QueueManager.Valid, StepTracker, Queues.AckTopic, Decide, FailureBook;
      dlq := dlq + [record];
      log := log + [HandOff(record)];
      world := World(tracker.view, retry.state, queues.view, dlq);
    }
  }
}
