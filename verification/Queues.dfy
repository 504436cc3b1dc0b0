/** The bounded per-topic queues: what one dispatch, receive or queue ack does to the
    channel and its counters, and the objects that do it. */
module Queues {
  import opened Types

  /** One handler's queue. `limit` is the number of permits of its semaphore, if it has one;
      `open` is false once the receiver is gone. */
  datatype Queue = Queue(
    capacity: nat,
    limit: Option<nat>,
    channel: seq<Message>,
    open: bool,
    depth: nat,
    inflight: nat,
    permits: nat)

  function NewQueue(capacity: nat, limit: Option<nat>): Queue {
    Queue(capacity, limit, [], true, 0, 0, 0)
  }

  datatype SendResult = Sent(queueDepth: nat) | NoPermit | Full | Closed | NotRegistered
  {
    /** Both backpressure errors carry the signal to pause the topic. */
    predicate Pauses() {
      NoPermit? || Full?
    }
  }

  predicate PermitFree(q: Queue) {
    q.limit.Some? ==> q.permits < q.limit.value
  }

  /** A send takes its permit first and keeps it even when the channel then refuses. */
  function SendStep(q: Queue, m: Message): (Queue, SendResult) {
    if !PermitFree(q) then (q, NoPermit)
    else
      var granted := if q.limit.Some? then q.(permits := q.permits + 1) else q;
      if !q.open then (granted, Closed)
      else if |q.channel| >= q.capacity then (granted, Full)
      else (granted.(channel := q.channel + [m], depth := q.depth + 1, inflight := q.inflight + 1), Sent(q.depth + 1))
  }

  function MinNat(a: nat, b: nat): nat {
    if a <= b then a else b
  }

  function SaturatingSub(a: nat, b: nat): nat {
    if a >= b then a - b else 0
  }

  function AckStep(q: Queue, count: nat): Queue {
    q.(depth := SaturatingSub(q.depth, count),
       inflight := SaturatingSub(q.inflight, count),
       permits := if q.limit.Some? then q.permits - MinNat(count, q.permits) else q.permits)
  }

  /** Below half the capacity, rounded down, a paused topic may resume. */
  predicate Resumes(q: Queue, result: SendResult) {
    result.Sent? && result.queueDepth < q.capacity / 2
  }

  type Queues = map<string, Queue>

  function AckTopic(qs: Queues, topic: string, count: nat): Queues {
    if topic in qs then qs[topic := AckStep(qs[topic], count)] else qs
  }

  function SendTopic(qs: Queues, m: Message): (Queues, SendResult) {
    if m.topic !in qs then (qs, NotRegistered)
    else
      var (q, r) := SendStep(qs[m.topic], m);
      (qs[m.topic := q], r)
  }

  /** What each answer to a send means for the message and its queue. */
  lemma AnswersExactly(qs: Queues, m: Message)
    ensures var (after, r) := SendTopic(qs, m);
            && (r.NotRegistered? <==> m.topic !in qs)
            && (m.topic !in qs ==> after == qs)
            && (m.topic in qs ==>
                  && after.Keys == qs.Keys && (forall t :: t in qs && t != m.topic ==> after[t] == qs[t])
                  && var (was, now) := (qs[m.topic], after[m.topic]);
                     && (r.Sent? <==> now.channel == was.channel + [m])
                     && (r.Sent? ==> r.queueDepth == now.depth == was.depth + 1)
                     && (!r.Sent? ==> now.channel == was.channel && now.depth == was.depth && now.inflight == was.inflight)
                     && (r.NoPermit? <==> was.limit.Some? && was.permits >= was.limit.value)
                     && (r.Closed? <==> !r.NoPermit? && !was.open)
                     && (r.Full? <==> !r.NoPermit? && was.open && |was.channel| >= was.capacity))
  {
  }

  /** A registered topic whose channel took nothing, although its receiver lives or its permits were
      all taken before the channel was even tried. */
  ghost predicate HeldBack(before: Queues, after: Queues, topic: string) {
    && topic in before && topic in after && after[topic].channel == before[topic].channel
    && (before[topic].open || (before[topic].limit.Some? && before[topic].permits >= before[topic].limit.value))
  }

  class HandlerEntry {
    const capacity: nat
    const semaphoreLimit: Option<nat>
    var channel: seq<Message>
    var receiverOpen: bool
    var queueDepth: nat
    var inflight: nat
    var outstandingPermits: nat

    ghost function View(): Queue
      reads this
    {
      Queue(capacity, semaphoreLimit, channel, receiverOpen, queueDepth, inflight, outstandingPermits)
    }

    constructor (capacity: nat, limit: Option<nat>)
      ensures View() == NewQueue(capacity, limit)
    {
      this.capacity := capacity;
      semaphoreLimit := limit;
      channel := [];
      receiverOpen := true;
      queueDepth := 0;
      inflight := 0;
      outstandingPermits := 0;
    }

    method TryAcquireSemaphore() returns (granted: bool)
      modifies this`outstandingPermits
      ensures granted <==> PermitFree(old(View()))
      ensures outstandingPermits == old(outstandingPermits) + if granted && semaphoreLimit.Some? then 1 else 0
    {
      if semaphoreLimit.None? {
        return true;
      }
      if outstandingPermits >= semaphoreLimit.value {
        return false;
      }
      outstandingPermits := outstandingPermits + 1;
      return true;
    }

    method ReleasePermits(count: nat)
      modifies this`outstandingPermits
      ensures outstandingPermits ==
              old(outstandingPermits) - if semaphoreLimit.Some? then MinNat(count, old(outstandingPermits)) else 0
    {
      if semaphoreLimit.Some? {
        var toRelease := MinNat(count, outstandingPermits);
        if toRelease > 0 {
          outstandingPermits := outstandingPermits - toRelease;
        }
      }
    }

    /** The counters are decremented one after the other, then the permits go back. */
    method Ack(count: nat)
      modifies this
      ensures View() == AckStep(old(View()), count)
    {
      queueDepth := SaturatingSub(queueDepth, count);
      inflight := SaturatingSub(inflight, count);
      ReleasePermits(count);
    }

    method Send(m: Message) returns (result: SendResult)
      modifies this
      ensures (View(), result) == SendStep(old(View()), m)
    {
      var granted := TryAcquireSemaphore();
      if !granted {
        return NoPermit;
      }
      inflight := inflight + 1;
      if !receiverOpen {
        inflight := inflight - 1;
        return Closed;
      }
      if |channel| >= capacity {
        inflight := inflight - 1;
        return Full;
      }
      channel := channel + [m];
      queueDepth := queueDepth + 1;
      return Sent(queueDepth);
    }
  }

  class QueueManager {
    var handlers: map<string, HandlerEntry>
    ghost var view: Queues

    /** No two topics share an entry, and `view` is the value of them all. */
    ghost predicate Valid()
      reads this, handlers.Values
    {
      && (forall s, t :: s in handlers && t in handlers && handlers[s] == handlers[t] ==> s == t)
      && handlers.Keys == view.Keys
      && (forall t :: t in handlers ==> handlers[t].View() == view[t])
    }

    constructor ()
      ensures Valid() && view == map[] && handlers == map[]
    {
      handlers := map[];
      view := map[];
    }

    /** A channel of capacity zero is refused (by a panic). */
    method Register(topic: string, capacity: nat, limit: Option<nat>)
      requires Valid() && capacity > 0
      modifies this
      ensures Valid() && fresh(handlers.Values - old(handlers.Values))
      ensures view == old(view)[topic := NewQueue(capacity, limit)]
    {
      var entry := new HandlerEntry(capacity, limit);
      handlers := handlers[topic := entry];
      view := view[topic := entry.View()];
    }

    method Ack(topic: string, count: nat)
      requires Valid()
      modifies this`view, handlers.Values
      ensures Valid() && handlers == old(handlers)
      ensures view == AckTopic(old(view), topic, count)
    {
      if topic in handlers {
        handlers[topic].Ack(count);
      }
      view := AckTopic(view, topic, count);
    }

    /** The dispatcher's send; the signal is the partition to pause. */
    method Send(m: Message) returns (result: SendResult, signal: Option<TopicPartition>)
      requires Valid()
      modifies this`view, handlers.Values
      ensures Valid() && handlers == old(handlers)
      ensures view == SendTopic(old(view), m).0 && result == SendTopic(old(view), m).1
      ensures signal == if result.Pauses() then Some(m.Home()) else None
      ensures signal == Some(m.Home()) <==> HeldBack(old(view), view, m.topic)
    {
      if m.topic !in handlers {
        return NotRegistered, None;
      }
      result := handlers[m.topic].Send(m);
      view := SendTopic(view, m).0;
      signal := if result.Pauses() then Some(m.Home()) else None;
    }
  }

  /** The dispatch loop's bookkeeping of paused topics. */
  class ConsumerDispatcher {
    var pausedTopics: set<string>
    const queues: QueueManager

    constructor (queues: QueueManager)
      ensures pausedTopics == {} && this.queues == queues
    {
      pausedTopics := {};
      this.queues := queues;
    }

    /** One message off the stream. `pauseWorks` says whether the client accepted the pause
        request; `resumed` whether a resume request was made. */
    method Dispatch(m: Message, pauseWorks: bool) returns (result: SendResult, resumed: bool)
      requires queues.Valid()
      modifies this, queues, queues.handlers.Values
      ensures queues.Valid() && queues.handlers == old(queues.handlers)
      ensures queues.view == SendTopic(old(queues.view), m).0 && result == SendTopic(old(queues.view), m).1
      ensures resumed <==> m.topic in old(pausedTopics) && m.topic in old(queues.view) && Resumes(old(queues.view)[m.topic], result)
      ensures pausedTopics == if resumed then old(pausedTopics) - {m.topic}
                              else if HeldBack(old(queues.view), queues.view, m.topic) && pauseWorks then old(pausedTopics) + {m.topic}
                              else old(pausedTopics)
      ensures resumed <==>
              && m.topic in old(pausedTopics) && m.topic in old(queues.view) && m.topic in queues.view
              && |queues.view[m.topic].channel| > |old(queues.view)[m.topic].channel|
              && queues.view[m.topic].depth < queues.view[m.topic].capacity / 2
    {
      var signal;
      result, signal := queues.Send(m);
      resumed := false;
      if result.Sent? {
        resumed := CheckResume(m.topic, result.queueDepth);
      } else if signal.Some? && pauseWorks {
        pausedTopics := pausedTopics + {signal.value.topic};
      }
    }

    method CheckResume(topic: string, depth: nat) returns (resumed: bool)
      modifies this
      ensures resumed <==> topic in old(pausedTopics) && topic in queues.handlers && depth < queues.handlers[topic].capacity / 2
      ensures pausedTopics == if resumed then old(pausedTopics) - {topic} else old(pausedTopics)
    {
      if topic !in queues.handlers {
        return false;
      }
      var threshold := queues.handlers[topic].capacity / 2;
      resumed := depth < threshold && topic in pausedTopics;
      if resumed {
        pausedTopics := pausedTopics - {topic};
      }
    }
  }
}
