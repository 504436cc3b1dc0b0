/** What every reachable state of the pipeline keeps, and the delivery guarantees that follow. */
module PipelineLaws {
  import opened Sequences
  import opened Types
  import opened Offsets
  import opened OffsetLaws
  import opened Retry
  import opened Effects
  import opened Pipeline
  import Queues

  // ---------------------------------------------------------------------------------------
  // Unsettled messages, in order
  // ---------------------------------------------------------------------------------------

  function ChannelOf(s: Sys, t: string): seq<Message> {
    if t in s.world.queues then s.world.queues[t].channel else []
  }

  /** The messages of a topic that are not settled, in the worker's hands or still queued. */
  function Line(s: Sys, t: string): seq<Message> {
    (if t in s.crews then InHand(s.crews[t]) else []) + ChannelOf(s, t)
  }

  /** The offsets of one partition among the messages. */
  function For(ms: seq<Message>, home: TopicPartition): seq<int> {
    if ms == [] then []
    else
      var last := ms[|ms| - 1];
      For(ms[..|ms| - 1], home) + if last.Home() == home then [last.offset] else []
  }

  lemma {:induction false} ForAppend(a: seq<Message>, b: seq<Message>, home: TopicPartition)
    ensures For(a + b, home) == For(a, home) + For(b, home)
  {
    if b == [] {
      assert a + b == a;
    } else {
      assert (a + b)[..|a + b| - 1] == a + b[..|b| - 1];
      ForAppend(a, b[..|b| - 1], home);
    }
  }

  lemma {:induction false} ForHolds(ms: seq<Message>, home: TopicPartition)
    ensures forall o :: o in For(ms, home) <==> exists m :: m in ms && m.Home() == home && m.offset == o
  {
    if ms != [] {
      var front, last := ms[..|ms| - 1], ms[|ms| - 1];
      ForHolds(front, home);
      forall o ensures o in For(ms, home) <==> exists m :: m in ms && m.Home() == home && m.offset == o {
        if o in For(ms, home) {
          if o in For(front, home) {
            var m :| m in front && m.Home() == home && m.offset == o;
            assert m in ms;
          } else {
            assert last in ms && last.Home() == home && last.offset == o;
          }
        }
        if m :| m in ms && m.Home() == home && m.offset == o {
          assert m in front || m == last;
        }
      }
    }
  }

  /** Taking a partition's batch out first does not change any partition's order. */
  lemma {:induction false} PickFirst(ms: seq<Message>, p: int, home: TopicPartition)
    ensures For(Pick(ms, p), home) == if home.partition == p then For(ms, home) else []
    ensures For(Leave(ms, p), home) == if home.partition == p then [] else For(ms, home)
  {
    if ms != [] {
      var front, last := ms[..|ms| - 1], ms[|ms| - 1];
      PickFirst(front, p, home);
      ForAppend(Pick(front, p), if last.partition == p then [last] else [], home);
      ForAppend(Leave(front, p), if last.partition == p then [] else [last], home);
      assert For([last], home) == if last.Home() == home then [last.offset] else [] by {
        assert [last][..0] == [];
      }
    }
  }

  lemma {:induction false} PickSplits(ms: seq<Message>, p: int)
    ensures forall m :: m in ms <==> m in Pick(ms, p) || m in Leave(ms, p)
    ensures |Pick(ms, p)| + |Leave(ms, p)| == |ms|
  {
    if ms != [] {
      PickSplits(ms[..|ms| - 1], p);
      assert ms == ms[..|ms| - 1] + [ms[|ms| - 1]];
    }
  }

  // ---------------------------------------------------------------------------------------
  // The invariant
  // ---------------------------------------------------------------------------------------

  ghost function AckedPlaces(log: seq<Tagged>): set<Place> {
    set e | e in log && e.event.Acked? :: (e.home, e.event.offset)
  }

  ghost function HandedPlaces(dlq: seq<DlqRecord>): set<Place> {
    set r | r in dlq :: (r.home, r.offset)
  }

  /** Acked after success, or handed to the dead-letter producer. */
  ghost function Settled(s: Sys): set<Place> {
    AckedPlaces(s.log) + HandedPlaces(s.world.dlq)
  }

  predicate Settles(e: Effect) {
    e.OffsetAck? || e.HandOff?
  }

  /** The calls still to be made for a message are what is left of one of the call sequences. */
  predicate Shaped(m: Message, todo: seq<Effect>) {
    && (forall e :: e in todo ==> About(e, m))
    && match |todo|
       case 1 => todo[0].OffsetAck? || todo[0].QueueAck? || todo[0].RecordFailure?
       case 2 =>
         || (todo[0].QueueAck? && todo[1].OffsetAck?)
         || (todo[0].MarkFailed? && todo[1].RecordFailure?)
         || (todo[0].HandOff? && todo[1].QueueAck?)
       case 3 =>
         || (todo[0].ClearRetry? && todo[1].QueueAck? && todo[2].OffsetAck?)
         || (todo[0].MarkFailed? && todo[1].HandOff? && todo[2].QueueAck?)
       case _ => false
  }

  ghost predicate TaskSound(s: Sys, task: Task) {
    && Shaped(task.m, task.todo)
    && task.m.offset >= 0
    && (task.todo[|task.todo| - 1].OffsetAck? ==> PlaceOf(task.m) in s.succeeded)
  }

  ghost predicate CrewSound(s: Sys, t: string, c: Crew) {
    match c
    case Single(Acting(task)) => task.m.topic == t && TaskSound(s, task)
    case Single(_) => true
    case Batching(held, batch, result, current, stopped) =>
      && (current.Some? ==> current.value.m.topic == t && TaskSound(s, current.value))
      && (result.AllSuccess? ==> forall m :: m in batch ==> PlaceOf(m) in s.succeeded)
  }

  ghost predicate Waiting(s: Sys, t: string, m: Message) {
    m.topic == t && m.offset >= 0 && PlaceOf(m) in s.polled && PlaceOf(m) !in s.refused
  }

  ghost predicate LinesSound(s: Sys) {
    && s.crews.Keys == s.world.queues.Keys
    && (forall t :: t in s.crews ==> CrewSound(s, t, s.crews[t]))
    && (forall t, m :: m in Line(s, t) ==> Waiting(s, t, m))
  }

  ghost predicate Increasing(xs: seq<int>) {
    forall i, j :: 0 <= i < j < |xs| ==> xs[i] < xs[j]
  }

  /** A partition's unsettled offsets are in order, above every settled one. */
  ghost predicate OrderedAt(s: Sys, home: TopicPartition) {
    var xs := For(Line(s, home.topic), home);
    && Increasing(xs)
    && forall o, x :: (home, o) in Settled(s) && x in xs ==> o < x
  }

  ghost predicate PlacesSound(s: Sys) {
    && s.world.tracker == Feed(s.log)
    && (forall e :: e in s.log && e.event.Acked? ==> e.event.offset >= 0)
    && AckedPlaces(s.log) <= s.succeeded
    && Settled(s) <= s.polled && s.refused <= s.polled
    && Settled(s) !! s.refused
    && AckedPlaces(s.log) !! HandedPlaces(s.world.dlq)
  }

  ghost predicate TakenSound(s: Sys) {
    forall m :: m in s.taken ==>
      m.topic in s.crews && (PlaceOf(m) in Settled(s) || m in InHand(s.crews[m.topic]))
  }

  /** Nothing selected or issued is above the watermark. */
  ghost predicate CommitsSound(s: Sys) {
    && (forall place :: place in s.selected ==> place.0 in s.world.tracker && place.1 <= s.world.tracker[place.0].committed)
    && (forall place :: place in s.issued ==> place in s.selected)
  }

  /** Queue conservation, with the messages the worker actually owes an ack for. */
  ghost predicate QueuesSound(s: Sys) {
    forall t :: t in s.crews && t in s.world.queues && s.world.queues[t].open ==>
      var q := s.world.queues[t];
      q.depth == q.inflight == |q.channel| + Unacked(s.crews[t])
  }

  ghost predicate Inv(s: Sys) {
    && LinesSound(s) && PlacesSound(s) && TakenSound(s) && CommitsSound(s) && QueuesSound(s)
    && forall home :: OrderedAt(s, home)
  }

  lemma InitSound(s: Sys)
    requires Init(s)
    ensures Inv(s)
  {
    forall t ensures Line(s, t) == [] {}
    forall t | t in s.crews ensures Unacked(s.crews[t]) == 0 && CrewSound(s, t, s.crews[t]) {
      assert FreshCrew(s.crews[t]);
    }
  }

  // ---------------------------------------------------------------------------------------
  // Steps
  // ---------------------------------------------------------------------------------------

  /** Making the first call settles the message, or acks it to its queue, or neither. */
  lemma CallMade(task: Task)
    requires Shaped(task.m, task.todo)
    ensures var e, rest := task.todo[0], task.(todo := task.todo[1..]);
            if e.RecordFailure? then !Settles(e) && Unfinished(task) == [task.m] && Owed(task) == 1
            else
              && Unfinished(task) == (if Settles(e) then [task.m] else []) + Unfinished(rest)
              && Owed(task) == (if e.QueueAck? then 1 else 0) + Owed(rest)
  {
  }

  lemma GivenUp(m: Message, timeout: Option<nat>, record: DlqRecord, mark: Effect)
    requires mark.MarkFailed?
    ensures var task := Task(m, DeadLetterEffects(record, m.topic), timeout);
            Unfinished(task) == [m] && Owed(task) == 1
    ensures var task := Task(m, [mark] + DeadLetterEffects(record, m.topic), timeout);
            Unfinished(task) == [m] && Owed(task) == 1
  {
  }

  lemma AllMade(task: Task)
    requires task.todo == []
    ensures Unfinished(task) == [] && Owed(task) == 0
  {
  }

  /** One call moves at most the message in progress out of the worker's hands. */
  lemma OnwardHand(p: RetryPolicy, book: RetryBook, c: Crew)
    requires Busy(c) && Shaped(TaskOf(c).m, TaskOf(c).todo)
    ensures var e := TaskOf(c).todo[0];
            var next := Onward(p, book, c, e);
            && InHand(c) == (if Settles(e) then [TaskOf(c).m] else []) + InHand(next)
            && Unacked(c) == (if e.QueueAck? then 1 else 0) + Unacked(next)
            && (c.Single? <==> next.Single?)
  {
    hide Unfinished, Owed, Shaped, DeadLetterEffects, WillRetry, FailureBook, AttemptCount, Record, Settles;
    var task := TaskOf(c);
    var e := task.todo[0];
    CallMade(task);
    if e.RecordFailure? {
      var attempts := AttemptCount(FailureBook(p, book, e.retryKey, e.reason), e.retryKey);
      var timeout := if c.Single? then task.timeout else None;
      GivenUp(task.m, task.timeout, Record(task.m, e.reason, attempts, timeout), MarkFailed(task.m.Home(), task.m.offset, e.reason));
    } else if |task.todo| == 1 {
      AllMade(task.(todo := task.todo[1..]));
    }
    if c.Batching? {
      var next := Onward(p, book, c, e);
      var first, left := Unfinished(task), if next.current.Some? then Unfinished(next.current.value) else [];
      assert (first + c.batch) + c.held == InHand(c);
      assert first == (if Settles(e) then [task.m] else []) + left;
      var settled := if Settles(e) then [task.m] else [];
      Regroup(settled, left, c.batch);
      Regroup(settled, left + c.batch, c.held);
    }
  }

  lemma ActLine(s: Sys, u: string, t: string)
    requires LinesSound(s) && Enabled(s, Act(u))
    ensures var task := TaskOf(s.crews[u]);
            var was, now := Line(s, t), Line(After(s, Act(u)), t);
            if u == t && Settles(task.todo[0]) then was == [task.m] + now else now == was
    ensures var e := TaskOf(s.crews[u]).todo[0];
            Unacked(s.crews[u]) == (if e.QueueAck? then 1 else 0) + Unacked(After(s, Act(u)).crews[u])
  {
    hide Onward, InHand, Unacked, Feed, FailureBook;
    assert CrewSound(s, u, s.crews[u]);
    OnwardHand(s.policy, s.world.retry, s.crews[u]);
    var task := TaskOf(s.crews[u]);
    assert ChannelOf(After(s, Act(u)), t) == ChannelOf(s, t);
  }

  /** A free worker takes one more message into its hands. */
  lemma TakeHand(c: Crew, m: Message)
    requires match c
             case Single(hand) => hand.Idle?
             case Batching(_, batch, _, current, _) => batch == [] && current.None?
    ensures var next := if c.Single? then Single(Invoking(m)) else c.(held := c.held + [m]);
            InHand(next) == InHand(c) + [m] && Unacked(next) == Unacked(c) + 1
  {
  }

  lemma TakeLine(s: Sys, u: string, t: string)
    requires Enabled(s, Take(u))
    ensures Line(After(s, Take(u)), t) == Line(s, t)
    ensures Unacked(After(s, Take(u)).crews[u]) == Unacked(s.crews[u]) + 1
  {
    hide InHand, Unacked, PlacesOf, Onward, Apply, FirstCalls, BatchCalls, Pick, Leave;
    var channel := s.world.queues[u].channel;
    TakeHand(s.crews[u], channel[0]);
    HeadMoves(InHand(s.crews[u]), channel);
  }

  lemma HeadMoves(a: seq<Message>, b: seq<Message>)
    requires b != []
    ensures (a + [b[0]]) + b[1..] == a + b
  {
  }

  lemma NextLine(s: Sys, u: string, draw: real, t: string)
    requires Enabled(s, Next(u, draw))
    ensures Line(After(s, Next(u, draw)), t) == Line(s, t)
    ensures Unacked(After(s, Next(u, draw)).crews[u]) == Unacked(s.crews[u])
  {
    hide BatchCalls, Unsettled, OwesAck;
    var c := s.crews[u];
    BatchCallsOpen(c.batch[0], c.result, draw);
    assert c.batch == [c.batch[0]] + c.batch[1..];
  }

  lemma BatchCallsOpen(m: Message, result: BatchResult, draw: real)
    ensures Unsettled(BatchCalls(m, result, draw)) && OwesAck(BatchCalls(m, result, draw))
    ensures Shaped(m, BatchCalls(m, result, draw))
  {
  }

  lemma PickedFirst(held: seq<Message>, p: int, tail: seq<Message>, home: TopicPartition)
    ensures For(Pick(held, p) + Leave(held, p) + tail, home) == For(held + tail, home)
    ensures forall m :: m in Pick(held, p) + Leave(held, p) + tail <==> m in held + tail
    ensures |Pick(held, p) + Leave(held, p)| == |held|
  {
    hide For, Pick, Leave;
    PickSplits(held, p);
    PickFirst(held, p, home);
    ForAppend(Pick(held, p), Leave(held, p), home);
    ForAppend(Pick(held, p) + Leave(held, p), tail, home);
    ForAppend(held, tail, home);
  }

  lemma FlushHand(c: Crew, p: int, result: BatchResult)
    requires c.Batching? && c.batch == [] && c.current.None?
    ensures var next := c.(batch := Pick(c.held, p), held := Leave(c.held, p), result := result);
            InHand(c) == c.held && InHand(next) == Pick(c.held, p) + Leave(c.held, p) && Unacked(c) == Unacked(next)
  {
    hide Pick, Leave;
    PickSplits(c.held, p);
  }

  lemma FlushLine(s: Sys, u: string, p: int, result: BatchResult, t: string, home: TopicPartition)
    requires Enabled(s, Flush(u, p, result))
    ensures For(Line(After(s, Flush(u, p, result)), t), home) == For(Line(s, t), home)
    ensures forall m :: m in Line(After(s, Flush(u, p, result)), t) <==> m in Line(s, t)
    ensures Unacked(After(s, Flush(u, p, result)).crews[u]) == Unacked(s.crews[u])
  {
    hide For, Pick, Leave, InHand, Unacked, PlacesOf;
    var c := s.crews[u];
    FlushHand(c, p, result);
    PickedFirst(c.held, p, ChannelOf(s, t), home);
  }

  lemma CancelLine(s: Sys, u: string, t: string)
    requires Enabled(s, Cancel(u))
    ensures Line(After(s, Cancel(u)), t) <= Line(s, t)
  {
  }

  lemma PollLine(s: Sys, m: Message, t: string)
    requires Enabled(s, Poll(m))
    ensures var was, now := Line(s, t), Line(After(s, Poll(m)), t);
            now == was || (t == m.topic && now == was + [m] && After(s, Poll(m)).refused == s.refused)
  {
  }

  // ---------------------------------------------------------------------------------------
  // Order is kept
  // ---------------------------------------------------------------------------------------

  lemma ForInLine(s: Sys, home: TopicPartition)
    requires LinesSound(s)
    ensures forall x :: x in For(Line(s, home.topic), home) ==> (home, x) in s.polled && (home, x) !in s.refused
  {
    ForHolds(Line(s, home.topic), home);
    forall x | x in For(Line(s, home.topic), home) ensures (home, x) in s.polled && (home, x) !in s.refused {
      var m :| m in Line(s, home.topic) && m.Home() == home && m.offset == x;
      assert Waiting(s, home.topic, m);
    }
  }

  /** What one call adds to the settled places. */
  lemma ActSettles(s: Sys, u: string)
    requires LinesSound(s) && Enabled(s, Act(u))
    ensures var task := TaskOf(s.crews[u]);
            var e, after := task.todo[0], After(s, Act(u));
            && AckedPlaces(after.log) == AckedPlaces(s.log) + (if e.OffsetAck? then {PlaceOf(task.m)} else {})
            && HandedPlaces(after.world.dlq) == HandedPlaces(s.world.dlq) + (if e.HandOff? then {PlaceOf(task.m)} else {})
            && Settled(after) == Settled(s) + (if Settles(e) then {PlaceOf(task.m)} else {})
  {
    hide Onward, StepTracker, Queues.AckTopic, FailureBook;
    assert CrewSound(s, u, s.crews[u]);
    var task := TaskOf(s.crews[u]);
    var e := task.todo[0];
    assert About(e, task.m);
    AckedPlacesAppend(s.log, EventsOf(e));
    HandedPlacesAppend(s.world.dlq, if e.HandOff? then [e.record] else []);
    assert s.world.dlq + [] == s.world.dlq;
  }

  lemma AckedPlacesAppend(a: seq<Tagged>, b: seq<Tagged>)
    ensures AckedPlaces(a + b) == AckedPlaces(a) + AckedPlaces(b)
    ensures |b| == 1 ==> AckedPlaces(b) == if b[0].event.Acked? then {(b[0].home, b[0].event.offset)} else {}
  {
    forall place | place in AckedPlaces(a) + AckedPlaces(b) ensures place in AckedPlaces(a + b) {
      var e :| e in a + b && e.event.Acked? && place == (e.home, e.event.offset);
    }
  }

  lemma HandedPlacesAppend(a: seq<DlqRecord>, b: seq<DlqRecord>)
    ensures HandedPlaces(a + b) == HandedPlaces(a) + HandedPlaces(b)
    ensures |b| == 1 ==> HandedPlaces(b) == {(b[0].home, b[0].offset)}
  {
    forall place | place in HandedPlaces(a) + HandedPlaces(b) ensures place in HandedPlaces(a + b) {
      var r :| r in a + b && place == (r.home, r.offset);
    }
  }

  lemma SameSettled(s: Sys, step: Step)
    requires Enabled(s, step) && !step.Act?
    ensures After(s, step).log == s.log && After(s, step).world.dlq == s.world.dlq && After(s, step).world.tracker == s.world.tracker
    ensures Settled(After(s, step)) == Settled(s)
  {
  }

  lemma ForOne(m: Message, home: TopicPartition)
    ensures For([m], home) == if m.Home() == home then [m.offset] else []
  {
    assert [m][..0] == [];
  }

  lemma ActOrder(s: Sys, u: string, home: TopicPartition)
    requires LinesSound(s) && OrderedAt(s, home) && Enabled(s, Act(u))
    ensures OrderedAt(After(s, Act(u)), home)
  {
    var t, task, after := home.topic, TaskOf(s.crews[u]), After(s, Act(u));
    assert task.m.topic == u by { assert CrewSound(s, u, s.crews[u]); }
    hide Line, For, Settled, After, LinesSound, Enabled;
    ActLine(s, u, t);
    ActSettles(s, u);
    var now := Line(after, t);
    if u == t && Settles(task.todo[0]) {
      ForAppend([task.m], now, home);
      ForOne(task.m, home);
      var ys := For(now, home);
      if task.m.Home() == home {
        HeadDropped(task.m.offset, ys);
      } else {
        assert [] + ys == ys;
      }
    }
  }

  lemma HeadDropped(o: int, ys: seq<int>)
    requires Increasing([o] + ys)
    ensures Increasing(ys) && forall x :: x in ys ==> o < x && x in [o] + ys
  {
    var xs := [o] + ys;
    forall i, j | 0 <= i < j < |ys| ensures ys[i] < ys[j] {
      assert xs[i + 1] < xs[j + 1];
    }
    forall x | x in ys ensures o < x && x in xs {
      var i :| 0 <= i < |ys| && ys[i] == x;
      assert xs[0] < xs[i + 1];
    }
  }

  lemma TailAdded(xs: seq<int>, o: int)
    requires Increasing(xs) && forall x :: x in xs ==> x < o
    ensures Increasing(xs + [o])
  {
    forall i, j | 0 <= i < j < |xs + [o]| ensures (xs + [o])[i] < (xs + [o])[j] {
      assert xs[i] in xs;
    }
  }

  /** A message above everything settled or unsettled of its partition may join the line. */
  lemma OrderGrows(s: Sys, after: Sys, m: Message, home: TopicPartition)
    requires OrderedAt(s, home) && Settled(after) == Settled(s)
    requires Line(after, home.topic) == Line(s, home.topic) + [m]
    requires m.Home() == home ==> forall x :: x in For(Line(s, home.topic), home) || (home, x) in Settled(s) ==> x < m.offset
    ensures OrderedAt(after, home)
  {
    var was := Line(s, home.topic);
    hide Line, For, Settled, Increasing;
    ForAppend(was, [m], home);
    ForOne(m, home);
    if m.Home() == home {
      TailAdded(For(was, home), m.offset);
    } else {
      assert For(was, home) + [] == For(was, home);
    }
  }

  lemma PollOrder(s: Sys, m: Message, home: TopicPartition)
    requires LinesSound(s) && PlacesSound(s) && OrderedAt(s, home) && Enabled(s, Poll(m))
    ensures OrderedAt(After(s, Poll(m)), home)
  {
    var t, after := home.topic, After(s, Poll(m));
    SameSettled(s, Poll(m));
    PollLine(s, m, t);
    ForInLine(s, home);
    assert Settled(s) <= s.polled && forall q :: q in s.polled && q.0 == m.Home() ==> q.1 < m.offset;
    hide Line, For, Settled, After, LinesSound, PlacesSound, Enabled, Increasing;
    if Line(after, t) != Line(s, t) {
      OrderGrows(s, after, m, home);
    }
  }

  lemma PrefixOrdered(ys: seq<int>, zs: seq<int>)
    requires Increasing(ys + zs)
    ensures Increasing(ys) && forall x :: x in ys ==> x in ys + zs
  {
    forall i, j | 0 <= i < j < |ys| ensures ys[i] < ys[j] {
      assert (ys + zs)[i] < (ys + zs)[j];
    }
  }

  lemma OrderKept(s: Sys, step: Step, home: TopicPartition)
    requires LinesSound(s) && PlacesSound(s) && OrderedAt(s, home) && Enabled(s, step)
    ensures OrderedAt(After(s, step), home)
  {
    hide Line, For, Settled, After, LinesSound, PlacesSound, Enabled;
    var t := home.topic;
    var was, now := Line(s, t), Line(After(s, step), t);
    match step
    case Act(u) =>
      ActLine(s, u, t);
      ActSettles(s, u);
      ActOrder(s, u, home);
    case Poll(m) =>
      SameSettled(s, step);
      PollLine(s, m, t);
      PollOrder(s, m, home);
    case Cancel(u) =>
      SameSettled(s, step);
      CancelLine(s, u, t);
      ForAppend(now, was[|now|..], home);
      assert was == now + was[|now|..];
      PrefixOrdered(For(now, home), For(was[|now|..], home));
    case Flush(u, p, result) =>
      SameSettled(s, step);
      FlushLine(s, u, p, result, t, home);
    case Take(u) =>
      SameSettled(s, step);
      TakeLine(s, u, t);
    case Next(u, draw) =>
      SameSettled(s, step);
      NextLine(s, u, draw, t);
    case _ =>
      SameSettled(s, step);
      StillLine(s, step, t);
  }

  lemma StillLine(s: Sys, step: Step, t: string)
    requires Enabled(s, step) && (step.Finish? || step.Wake? || step.Select? || step.Issue?)
    ensures Line(After(s, step), t) == Line(s, t)
  {
    hide FirstCalls, Unsettled;
    if step.Finish? {
      FirstCallsSound(s.crews[step.topic].hand.m, step.result, step.random);
    }
  }

  // ---------------------------------------------------------------------------------------
  // The rest of the invariant is kept
  // ---------------------------------------------------------------------------------------

  /** What is left of a call sequence keeps its shape. */
  lemma OnwardSound(s: Sys, u: string)
    requires LinesSound(s) && Enabled(s, Act(u))
    ensures CrewSound(s, u, Onward(s.policy, s.world.retry, s.crews[u], TaskOf(s.crews[u]).todo[0]))
  {
    hide Line, InHand;
    var c := s.crews[u];
    assert CrewSound(s, u, c);
    var task := TaskOf(c);
    assert task.todo == [task.todo[0]] + task.todo[1..];
  }

  lemma FirstCallsSound(m: Message, result: ExecutionResult, random: real)
    ensures Shaped(m, FirstCalls(m, result, random))
    ensures FirstCalls(m, result, random)[|FirstCalls(m, result, random)| - 1].OffsetAck? ==> result.Succeeded?
    ensures Unsettled(FirstCalls(m, result, random)) && OwesAck(FirstCalls(m, result, random))
  {
  }

  lemma CrewMonotone(s: Sys, after: Sys, t: string, c: Crew)
    requires CrewSound(s, t, c) && s.succeeded <= after.succeeded
    ensures CrewSound(after, t, c)
  {
  }

  lemma CrewKept(s: Sys, step: Step, t: string)
    requires LinesSound(s) && Enabled(s, step) && t in After(s, step).crews
    ensures CrewSound(After(s, step), t, After(s, step).crews[t])
  {
    var after := After(s, step);
    assert t in s.crews && CrewSound(s, t, s.crews[t]);
    CrewMonotone(s, after, t, s.crews[t]);
    match step
    case Act(u) =>
      if u == t {
        OnwardSound(s, u);
        CrewMonotone(s, after, t, after.crews[t]);
      }
    case Finish(u, result, random) =>
      if u == t {
        var m := s.crews[u].hand.m;
        assert m in Line(s, u);
        assert Waiting(s, u, m);
        FirstCallsSound(m, result, random);
      }
    case Next(u, draw) =>
      if u == t {
        var m := s.crews[u].batch[0];
        assert m in Line(s, u);
        assert Waiting(s, u, m);
        BatchCallsOpen(m, s.crews[u].result, draw);
      }
    case Flush(u, p, result) =>
      if u == t && result.AllSuccess? {
        forall m | m in Pick(s.crews[u].held, p) ensures PlaceOf(m) in after.succeeded {
          assert PlaceOf(m) in PlacesOf(Pick(s.crews[u].held, p));
        }
      }
    case _ =>
  }

  lemma LineKept(s: Sys, step: Step, t: string)
    requires LinesSound(s) && PlacesSound(s) && Enabled(s, step)
    ensures forall m :: m in Line(After(s, step), t) ==> Waiting(After(s, step), t, m)
  {
    var after, was, now := After(s, step), Line(s, t), Line(After(s, step), t);
    match step {
      case Act(u) => ActLine(s, u, t);
      case Poll(m) => PollLine(s, m, t);
      case Cancel(u) => CancelLine(s, u, t);
      case Flush(u, p, result) => FlushLine(s, u, p, result, t, TopicPartition(t, p));
      case Take(u) => TakeLine(s, u, t);
      case Next(u, draw) => NextLine(s, u, draw, t);
      case _ => StillLine(s, step, t);
    }
    forall m | m in now ensures Waiting(after, t, m) {
      if m in was {
        assert Waiting(s, t, m);
        if step.Poll? {
          assert PlaceOf(m) in s.polled;
          assert PlaceOf(step.m) !in s.polled;
        }
      } else {
        assert step.Poll? && m == step.m;
      }
    }
  }

  /** A message that is being settled was not settled before. */
  lemma SettlesOnce(s: Sys, u: string)
    requires LinesSound(s) && Enabled(s, Act(u))
    requires Settles(TaskOf(s.crews[u]).todo[0])
    requires OrderedAt(s, TaskOf(s.crews[u]).m.Home())
    ensures var m := TaskOf(s.crews[u]).m;
            Waiting(s, u, m) && m.topic == u && PlaceOf(m) !in Settled(s)
  {
    var m := TaskOf(s.crews[u]).m;
    assert m.topic == u by { assert CrewSound(s, u, s.crews[u]); }
    ActLine(s, u, u);
    hide For, Settled, After;
    assert m in Line(s, u);
    assert Waiting(s, u, m);
    ForHolds(Line(s, u), m.Home());
    assert m.offset in For(Line(s, u), m.Home());
  }

  /** The tracker is what its events make of it. */
  lemma FeedGoesOn(p: RetryPolicy, w: World, log: seq<Tagged>, e: Effect)
    requires w.tracker == Feed(log)
    ensures Apply(p, w, e).tracker == Feed(log + EventsOf(e))
  {
    hide StepTracker, Queues.AckTopic, FailureBook;
    match e {
      case OffsetAck(home, offset) => FeedOne(log, Tagged(home, Acked(offset)));
      case MarkFailed(home, offset, reason) => FeedOne(log, Tagged(home, Failed(offset, reason)));
      case _ => assert log + [] == log;
    }
  }

  lemma ActFeeds(s: Sys, u: string)
    requires s.world.tracker == Feed(s.log) && Enabled(s, Act(u))
    ensures After(s, Act(u)).world.tracker == Feed(After(s, Act(u)).log)
  {
    hide Apply, Onward, EventsOf, Feed;
    FeedGoesOn(s.policy, s.world, s.log, TaskOf(s.crews[u]).todo[0]);
  }

  /** An ack comes only after the handler succeeded on a real offset. */
  lemma ActAcks(s: Sys, u: string)
    requires LinesSound(s) && Enabled(s, Act(u))
    ensures var task := TaskOf(s.crews[u]);
            && task.m.topic == u && About(task.todo[0], task.m)
            && (task.todo[0].OffsetAck? ==> PlaceOf(task.m) in s.succeeded && task.m.offset >= 0)
  {
    hide Line;
    var task := TaskOf(s.crews[u]);
    assert TaskSound(s, task) by { assert CrewSound(s, u, s.crews[u]); }
  }

  /** Settling one more polled message, accepted by its queue and not settled yet. */
  lemma PlacesGrow(s: Sys, after: Sys, m: Message, e: Effect)
    requires PlacesSound(s)
    requires after.world.tracker == Feed(after.log) && after.log == s.log + EventsOf(e) && About(e, m)
    requires after.polled == s.polled && after.refused == s.refused && after.succeeded == s.succeeded
    requires AckedPlaces(after.log) == AckedPlaces(s.log) + (if e.OffsetAck? then {PlaceOf(m)} else {})
    requires HandedPlaces(after.world.dlq) == HandedPlaces(s.world.dlq) + (if e.HandOff? then {PlaceOf(m)} else {})
    requires Settled(after) == Settled(s) + (if Settles(e) then {PlaceOf(m)} else {})
    requires e.OffsetAck? ==> PlaceOf(m) in s.succeeded && m.offset >= 0
    requires Settles(e) ==> PlaceOf(m) in s.polled && PlaceOf(m) !in s.refused && PlaceOf(m) !in Settled(s)
    ensures PlacesSound(after)
  {
    hide AckedPlaces, HandedPlaces, Feed;
  }

  lemma ActPlaces(s: Sys, u: string)
    requires LinesSound(s) && PlacesSound(s) && Enabled(s, Act(u))
    requires forall home :: OrderedAt(s, home)
    ensures PlacesSound(After(s, Act(u)))
  {
    hide Line, OrderedAt, CrewSound, Settled, AckedPlaces, HandedPlaces, Feed, Apply, Onward, EventsOf, About, Shaped;
    ActFeeds(s, u);
    ActAcks(s, u);
    ActSettles(s, u);
    var task := TaskOf(s.crews[u]);
    if Settles(task.todo[0]) {
      SettlesOnce(s, u);
    }
    PlacesGrow(s, After(s, Act(u)), task.m, task.todo[0]);
  }

  lemma PlacesKept(s: Sys, step: Step)
    requires LinesSound(s) && PlacesSound(s) && Enabled(s, step)
    requires forall home :: OrderedAt(s, home)
    ensures PlacesSound(After(s, step))
  {
    if step.Act? {
      ActPlaces(s, step.topic);
    } else {
      hide AckedPlaces, HandedPlaces, Feed, OrderedAt, Line;
      SameSettled(s, step);
      if step.Poll? {
        assert PlaceOf(step.m) !in s.polled;
      }
    }
  }

  lemma TakenKept(s: Sys, step: Step)
    requires LinesSound(s) && TakenSound(s) && Enabled(s, step)
    ensures TakenSound(After(s, step))
  {
    var after := After(s, step);
    forall m | m in after.taken
      ensures m.topic in after.crews && (PlaceOf(m) in Settled(after) || m in InHand(after.crews[m.topic]))
    {
      if step.Act? {
        ActTaken(s, step.topic, m);
      } else {
        SameSettled(s, step);
        HandKept(s, step, m);
      }
    }
  }

  lemma ActTaken(s: Sys, u: string, m: Message)
    requires LinesSound(s) && Enabled(s, Act(u)) && m.topic in s.crews
    requires PlaceOf(m) in Settled(s) || m in InHand(s.crews[m.topic])
    ensures PlaceOf(m) in Settled(After(s, Act(u))) || m in InHand(After(s, Act(u)).crews[m.topic])
  {
    hide Line, Onward, InHand, Settled, Unacked;
    assert CrewSound(s, u, s.crews[u]);
    OnwardHand(s.policy, s.world.retry, s.crews[u]);
    ActSettles(s, u);
  }

  lemma HandKept(s: Sys, step: Step, m: Message)
    requires Enabled(s, step) && !step.Act? && m in After(s, step).taken
    requires m in s.taken ==> m.topic in s.crews && (PlaceOf(m) in Settled(s) || m in InHand(s.crews[m.topic]))
    requires LinesSound(s)
    ensures m.topic in s.crews
    ensures PlaceOf(m) in Settled(s) || m in InHand(After(s, step).crews[m.topic])
  {
    hide Settled, Pick, Leave, FirstCalls, BatchCalls, Unsettled, OwesAck, Queues.SendTopic, Apply;
    match step
    case Take(u) =>
      if m !in s.taken {
        assert m in Line(s, u);
        assert Waiting(s, u, m);
      }
    case Finish(u, result, random) => FirstCallsSound(s.crews[u].hand.m, result, random);
    case Next(u, draw) => BatchCallsOpen(s.crews[u].batch[0], s.crews[u].result, draw);
    case Flush(u, p, result) => PickSplits(s.crews[u].held, p);
    case _ =>
  }

  /** No event unregisters a partition or lowers its watermark. */
  lemma StepNeverLowers(t: Tracker, p: TopicPartition, e: Event)
    requires e.Acked? ==> e.offset >= 0
    ensures forall q :: q in t ==> q in StepTracker(t, p, e) && t[q].committed <= StepTracker(t, p, e)[q].committed
  {
    if e.Acked? {
      var c := if p in t then t[p] else FRESH;
      AdvanceEndsRun(Seeded(c, e.offset).(pending := c.pending + {e.offset}, failed := c.failed - {e.offset}));
    }
  }

  lemma WatermarksKept(s: Sys, step: Step)
    requires LinesSound(s) && Enabled(s, step)
    ensures var was, now := s.world.tracker, After(s, step).world.tracker;
            forall p :: p in was ==> p in now && was[p].committed <= now[p].committed
  {
    hide Line, StepTracker, Queues.AckTopic, FailureBook, Queues.SendTopic, Onward;
    if step.Act? {
      ActAcks(s, step.topic);
      match TaskOf(s.crews[step.topic]).todo[0] {
        case OffsetAck(home, offset) => StepNeverLowers(s.world.tracker, home, Acked(offset));
        case MarkFailed(home, offset, reason) => StepNeverLowers(s.world.tracker, home, Failed(offset, reason));
        case _ =>
      }
    }
  }

  lemma CommitsKept(s: Sys, step: Step)
    requires LinesSound(s) && CommitsSound(s) && Enabled(s, step)
    ensures CommitsSound(After(s, step))
  {
    WatermarksKept(s, step);
    hide LinesSound, Apply, Onward, Queues.SendTopic;
  }

  lemma OwedKept(s: Sys, step: Step, t: string)
    requires Enabled(s, step) && t in s.crews && !step.Act? && !step.Take? && !step.Cancel?
    ensures Unacked(After(s, step).crews[t]) == Unacked(s.crews[t])
  {
    hide FirstCalls, BatchCalls, OwesAck, Pick, Leave, Apply, Queues.SendTopic;
    match step
    case Finish(u, result, random) => FirstCallsSound(s.crews[u].hand.m, result, random);
    case Next(u, draw) => NextLine(s, u, draw, u);
    case Flush(u, p, result) => FlushLine(s, u, p, result, u, TopicPartition(u, p));
    case _ =>
  }

  /** What one step does to a queue whose receiver is and stays open. */
  lemma QueueMoves(s: Sys, step: Step, t: string)
    requires LinesSound(s) && Enabled(s, step) && t in s.world.queues && After(s, step).world.queues[t].open
    ensures t in s.crews && s.world.queues[t].open && !(step.Cancel? && step.topic == t)
    ensures var was, now := s.world.queues[t], After(s, step).world.queues[t];
            match step
            case Act(u) => now == if u == t && TaskOf(s.crews[u]).todo[0].QueueAck? then Queues.AckStep(was, 1) else was
            case Take(u) => now == if u == t then was.(channel := was.channel[1..]) else was
            case Poll(m) => now == if m.topic == t then Queues.SendStep(was, m).0 else was
            case _ => now == was
  {
    hide Line, Feed, StepTracker, FailureBook, Onward;
    if step.Act? {
      ActAcks(s, step.topic);
    }
  }

  lemma QueuesKept(s: Sys, step: Step)
    requires LinesSound(s) && QueuesSound(s) && Enabled(s, step)
    ensures QueuesSound(After(s, step))
  {
    var after := After(s, step);
    forall t | t in after.crews && t in after.world.queues && after.world.queues[t].open
      ensures var q := after.world.queues[t]; q.depth == q.inflight == |q.channel| + Unacked(after.crews[t])
    {
      assert t in s.world.queues;
      QueueMoves(s, step, t);
      match step {
        case Act(u) => ActLine(s, u, t);
        case Take(u) => TakeLine(s, u, t);
        case Cancel(u) =>
        case _ => OwedKept(s, step, t);
      }
      assert after.crews[t] == s.crews[t] || !(step.Poll? || step.Select? || step.Issue?);
      hide Unacked, After, LinesSound, Line;
    }
  }

  // ---------------------------------------------------------------------------------------
  // Every reachable state
  // ---------------------------------------------------------------------------------------

  lemma LinesKept(s: Sys, step: Step)
    requires LinesSound(s) && PlacesSound(s) && Enabled(s, step)
    ensures LinesSound(After(s, step))
  {
    var after := After(s, step);
    assert after.crews.Keys == after.world.queues.Keys == s.crews.Keys by {
      hide Line, Onward, StepTracker, FailureBook;
    }
    hide Line, After, Enabled, PlacesSound, CrewSound, Waiting;
    forall t | t in after.crews ensures CrewSound(after, t, after.crews[t]) {
      CrewKept(s, step, t);
    }
    forall t, m | m in Line(after, t) ensures Waiting(after, t, m) {
      LineKept(s, step, t);
    }
  }

  lemma InvKept(s: Sys, step: Step)
    requires Inv(s) && Enabled(s, step)
    ensures Inv(After(s, step))
  {
    hide After, Enabled, LinesSound, PlacesSound, TakenSound, CommitsSound, QueuesSound, OrderedAt;
    LinesKept(s, step);
    PlacesKept(s, step);
    TakenKept(s, step);
    CommitsKept(s, step);
    QueuesKept(s, step);
    forall home ensures OrderedAt(After(s, step), home) {
      OrderKept(s, step, home);
    }
  }

  lemma {:induction false} RunKeepsInv(ss: seq<Sys>, steps: seq<Step>, n: nat)
    requires Run(ss, steps) && n <= |steps|
    ensures Inv(ss[n])
  {
    hide Inv, After, Enabled, Init;
    if n == 0 {
      InitSound(ss[0]);
    } else {
      RunKeepsInv(ss, steps, n - 1);
      InvKept(ss[n - 1], steps[n - 1]);
    }
  }
}
