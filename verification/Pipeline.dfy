/** The whole delivery pipeline as one state machine: a poll loop, one bounded queue and one
    worker per topic, the shared tracker, retry book and dead-letter producer, and a committer.
    Every lock-protected call is one step, and the steps of all workers interleave freely. */
module Pipeline {
  import opened Types
  import opened Offsets
  import opened OffsetLaws
  import opened Retry
  import opened Effects
  import Queues
  import W = Worker

  // ---------------------------------------------------------------------------------------
  // Workers
  // ---------------------------------------------------------------------------------------

  /** A message whose handler has returned, and the calls still to be made for it. */
  datatype Task = Task(m: Message, todo: seq<Effect>, timeout: Option<nat>)

  datatype Hand =
    | Idle
    | Invoking(m: Message)
    | Acting(task: Task)
    | BackingOff(m: Message)
    | Stopped(abandoned: Option<Message>)

  /** A single-message worker, or a batch worker with the messages it collected, the batch it is
      settling, that batch's result and the message in progress. */
  datatype Crew =
    | Single(hand: Hand)
    | Batching(held: seq<Message>, batch: seq<Message>, result: BatchResult, current: Option<Task>, stopped: bool)

  /** The message is settled once its offset is acked or it was handed off. */
  predicate Unsettled(todo: seq<Effect>) {
    todo != [] && !(|todo| == 1 && todo[0].QueueAck?)
  }

  function Unfinished(task: Task): seq<Message> {
    if Unsettled(task.todo) then [task.m] else []
  }

  function Maybe(m: Option<Message>): seq<Message> {
    if m.Some? then [m.value] else []
  }

  /** The messages a worker took and has not settled, oldest first within a partition. */
  function InHand(c: Crew): seq<Message> {
    match c
    case Single(Idle) => []
    case Single(Invoking(m)) => [m]
    case Single(Acting(task)) => Unfinished(task)
    case Single(BackingOff(m)) => [m]
    case Single(Stopped(abandoned)) => Maybe(abandoned)
    case Batching(held, batch, _, current, _) =>
      (if current.Some? then Unfinished(current.value) else []) + batch + held
  }

  /** The queue ack of the message is still to come. */
  predicate OwesAck(todo: seq<Effect>) {
    todo != [] && !(|todo| == 1 && todo[0].OffsetAck?)
  }

  function Owed(task: Task): nat {
    if OwesAck(task.todo) then 1 else 0
  }

  /** How many messages a worker took and has not acked back to the queue. */
  function Unacked(c: Crew): nat {
    match c
    case Single(Idle) => 0
    case Single(Invoking(_)) => 1
    case Single(Acting(task)) => Owed(task)
    case Single(BackingOff(_)) => 1
    case Single(Stopped(abandoned)) => |Maybe(abandoned)|
    case Batching(held, batch, _, current, _) =>
      (if current.Some? then Owed(current.value) else 0) + |batch| + |held|
  }

  function Pick(ms: seq<Message>, p: int): seq<Message> {
    if ms == [] then []
    else
      var last := ms[|ms| - 1];
      Pick(ms[..|ms| - 1], p) + if last.partition == p then [last] else []
  }

  function Leave(ms: seq<Message>, p: int): seq<Message> {
    if ms == [] then []
    else
      var last := ms[|ms| - 1];
      Leave(ms[..|ms| - 1], p) + if last.partition == p then [] else [last]
  }

  // ---------------------------------------------------------------------------------------
  // The system
  // ---------------------------------------------------------------------------------------

  function PlaceOf(m: Message): Place {
    (m.Home(), m.offset)
  }

  /** The live state (workers and world) and what the theorems look back on: everything polled,
      refused and taken, where a handler succeeded, the tracker's events in order, and the
      offsets the committer selected and issued. */
  datatype Sys = Sys(
    policy: RetryPolicy,
    crews: map<string, Crew>,
    world: World,
    polled: set<Place>,
    refused: set<Place>,
    taken: set<Message>,
    succeeded: set<Place>,
    log: seq<Tagged>,
    selected: set<Place>,
    issued: seq<Place>)

  datatype Step =
    | Poll(m: Message)
    | Take(topic: string)
    | Finish(topic: string, result: ExecutionResult, random: real)
    | Act(topic: string)
    | Wake(topic: string)
    | Cancel(topic: string)
    | Flush(topic: string, partition: int, batchResult: BatchResult)
    | Next(topic: string, draw: real)
    | Select(home: TopicPartition)
    | Issue(place: Place)

  ghost predicate Enabled(s: Sys, step: Step) {
    match step
    case Poll(m) =>
      // Within a session the client delivers a partition's offsets in increasing order.
      m.offset >= 0 && forall q :: q in s.polled && q.0 == m.Home() ==> q.1 < m.offset
    case Take(t) =>
      && t in s.crews && t in s.world.queues && s.world.queues[t].channel != []
      && (match s.crews[t]
          case Single(hand) => hand.Idle?
          case Batching(_, batch, _, current, stopped) => batch == [] && current.None? && !stopped)
    case Finish(t, _, _) => t in s.crews && s.crews[t].Single? && s.crews[t].hand.Invoking?
    case Act(t) => t in s.crews && Busy(s.crews[t])
    case Wake(t) => t in s.crews && s.crews[t].Single? && s.crews[t].hand.BackingOff?
    case Cancel(t) =>
      && t in s.crews && t in s.world.queues
      && (match s.crews[t]
          case Single(hand) => hand.Idle? || hand.BackingOff?
          case Batching(held, batch, _, current, _) => held == [] && batch == [] && current.None?)
    case Flush(t, p, _) =>
      && t in s.crews && s.crews[t].Batching? && s.crews[t].batch == [] && s.crews[t].current.None?
      && Pick(s.crews[t].held, p) != []
    case Next(t, _) => t in s.crews && s.crews[t].Batching? && s.crews[t].batch != [] && s.crews[t].current.None?
    case Select(home) => home in s.world.tracker
    case Issue(place) => place in s.selected
  }

  predicate Busy(c: Crew) {
    match c
    case Single(hand) => hand.Acting? && hand.task.todo != []
    case Batching(_, _, _, current, _) => current.Some? && current.value.todo != []
  }

  function TaskOf(c: Crew): Task
    requires Busy(c)
  {
    match c
    case Single(hand) => hand.task
    case Batching(_, _, _, current, _) => current.value
  }

  /** What the worker does after its call `e`; the retry decision is taken on the book as the
      call finds it. */
  function Onward(p: RetryPolicy, book: RetryBook, c: Crew, e: Effect): Crew
    requires Busy(c)
  {
    var task := TaskOf(c);
    match c
    case Single(_) =>
      if e.RecordFailure? then
        if WillRetry(p, book, e.retryKey, e.reason) then Single(BackingOff(task.m))
        else
          var attempts := AttemptCount(FailureBook(p, book, e.retryKey, e.reason), e.retryKey);
          Single(Acting(task.(todo := DeadLetterEffects(Record(task.m, e.reason, attempts, task.timeout), task.m.topic))))
      else if |task.todo| == 1 then Single(Idle)
      else Single(Acting(task.(todo := task.todo[1..])))
    case Batching(held, batch, result, _, stopped) =>
      if e.RecordFailure? then
        var attempts := AttemptCount(FailureBook(p, book, e.retryKey, e.reason), e.retryKey);
        var todo := [MarkFailed(task.m.Home(), task.m.offset, e.reason)] +
                    DeadLetterEffects(Record(task.m, e.reason, attempts, None), task.m.topic);
        Batching(held, batch, result, Some(task.(todo := todo)), stopped)
      else if |task.todo| == 1 then Batching(held, batch, result, None, stopped)
      else Batching(held, batch, result, Some(task.(todo := task.todo[1..])), stopped)
  }

  /** The tracker events of a call. */
  function EventsOf(e: Effect): seq<Tagged> {
    match e
    case OffsetAck(home, offset) => [Tagged(home, Acked(offset))]
    case MarkFailed(home, offset, reason) => [Tagged(home, Failed(offset, reason))]
    case _ => []
  }

  /** The calls for a single message whose handler returned. */
  function FirstCalls(m: Message, result: ExecutionResult, random: real): seq<Effect> {
    if result.Succeeded? then SuccessEffects(m)
    else [MarkFailed(m.Home(), m.offset, result.Reason()), RecordFailure(KeyOf(m), result.Reason(), random)]
  }

  /** The calls for a message of a batch whose handler returned. */
  function BatchCalls(m: Message, result: BatchResult, random: real): seq<Effect> {
    if result.AllSuccess? then SuccessEffects(m) else [RecordFailure(KeyOf(m), result.reason, random)]
  }

  function PlacesOf(ms: seq<Message>): set<Place> {
    set m | m in ms :: PlaceOf(m)
  }

  function After(s: Sys, step: Step): Sys
    requires Enabled(s, step)
  {
    match step
    case Poll(m) =>
      var (qs, r) := Queues.SendTopic(s.world.queues, m);
      s.(world := s.world.(queues := qs),
         polled := s.polled + {PlaceOf(m)},
         refused := if r.Sent? then s.refused else s.refused + {PlaceOf(m)})
    case Take(t) =>
      var q := s.world.queues[t];
      var m := q.channel[0];
      var c := s.crews[t];
      var crew := if c.Single? then Single(Invoking(m)) else c.(held := c.held + [m]);
      s.(crews := s.crews[t := crew],
         world := s.world.(queues := s.world.queues[t := q.(channel := q.channel[1..])]),
         taken := s.taken + {m})
    case Finish(t, result, random) =>
      var m := s.crews[t].hand.m;
      s.(crews := s.crews[t := Single(Acting(Task(m, FirstCalls(m, result, random), W.TimeoutSeconds(result))))],
         succeeded := if result.Succeeded? then s.succeeded + {PlaceOf(m)} else s.succeeded)
    case Act(t) =>
      var e := TaskOf(s.crews[t]).todo[0];
      s.(crews := s.crews[t := Onward(s.policy, s.world.retry, s.crews[t], e)],
         world := Apply(s.policy, s.world, e),
         log := s.log + EventsOf(e))
    case Wake(t) => s.(crews := s.crews[t := Single(Invoking(s.crews[t].hand.m))])
    case Cancel(t) =>
      // The worker returns and its receiver goes with it.
      var c := s.crews[t];
      var crew := if c.Single? then Single(Stopped(if c.hand.BackingOff? then Some(c.hand.m) else None))
                  else c.(stopped := true);
      s.(crews := s.crews[t := crew],
         world := s.world.(queues := s.world.queues[t := s.world.queues[t].(channel := [], open := false)]))
    case Flush(t, p, result) =>
      var c := s.crews[t];
      var batch := Pick(c.held, p);
      s.(crews := s.crews[t := c.(batch := batch, held := Leave(c.held, p), result := result)],
         succeeded := if result.AllSuccess? then s.succeeded + PlacesOf(batch) else s.succeeded)
    case Next(t, draw) =>
      var c := s.crews[t];
      var m := c.batch[0];
      s.(crews := s.crews[t := c.(batch := c.batch[1..], current := Some(Task(m, BatchCalls(m, c.result, draw), None)))])
    case Select(home) => s.(selected := s.selected + {(home, s.world.tracker[home].committed)})
    case Issue(place) => s.(issued := s.issued + [place])
  }

  predicate FreshCrew(c: Crew) {
    match c
    case Single(hand) => hand.Idle?
    case Batching(held, batch, _, current, stopped) => held == [] && batch == [] && current.None? && !stopped
  }

  ghost predicate Init(s: Sys) {
    && s.crews.Keys == s.world.queues.Keys
    && (forall t :: t in s.crews ==> FreshCrew(s.crews[t]))
    && (forall t :: t in s.world.queues ==> s.world.queues[t] == Queues.NewQueue(s.world.queues[t].capacity, s.world.queues[t].limit))
    && s.world.tracker == map[] && s.world.dlq == [] && s.log == []
    && s.polled == {} && s.refused == {} && s.taken == {} && s.succeeded == {} && s.selected == {} && s.issued == []
  }

  /** A run of the pipeline: any interleaving of enabled steps. The retry book it starts with
      is arbitrary. */
  ghost predicate Run(ss: seq<Sys>, steps: seq<Step>) {
    && |ss| == |steps| + 1 && Init(ss[0])
    && forall i :: 0 <= i < |steps| ==> Enabled(ss[i], steps[i]) && ss[i + 1] == After(ss[i], steps[i])
  }
}
