/** The delivery guarantees of the whole pipeline, in every reachable state of every run: what
    the watermark and the offsets issued for commit say about the messages polled so far. */
module Delivery {
  import opened Types
  import opened Offsets
  import opened OffsetLaws
  import opened Retry
  import opened Effects
  import opened Pipeline
  import opened PipelineLaws
  import Q = Queues

  // ---------------------------------------------------------------------------------------
  // Nothing accepted gets lost from sight
  // ---------------------------------------------------------------------------------------

  /** Accepted by its queue, but neither acked nor handed off. */
  ghost predicate Open(s: Sys, q: Place) {
    q in s.polled && q !in s.refused && q !in Settled(s)
  }

  /** The worker has returned and left nothing behind that it could still act on. */
  predicate Retired(c: Crew) {
    match c
    case Single(hand) => hand.Stopped?
    case Batching(held, batch, _, current, stopped) => stopped && held == [] && batch == [] && current.None?
  }

  /** An open place is still in its line while the receiver lives, and above every settled
      place of its partition for good. */
  ghost predicate Accounted(s: Sys, home: TopicPartition) {
    forall o :: Open(s, (home, o)) ==>
      && home.topic in s.crews && home.topic in s.world.queues
      && (s.world.queues[home.topic].open ==> o in For(Line(s, home.topic), home))
      && forall x :: (home, x) in Settled(s) ==> x < o
  }

  ghost predicate ClosedMeansRetired(s: Sys) {
    forall t :: t in s.crews && t in s.world.queues && !s.world.queues[t].open ==> Retired(s.crews[t])
  }

  /** The committer only ever selects offsets that were acked. */
  ghost predicate SelectedAcked(s: Sys) {
    s.selected <= AckedPlaces(s.log)
  }

  ghost predicate Books(s: Sys) {
    ClosedMeansRetired(s) && SelectedAcked(s) && forall home :: Accounted(s, home)
  }

  lemma RetiredKept(s: Sys, step: Step)
    requires LinesSound(s) && ClosedMeansRetired(s) && Enabled(s, step)
    ensures ClosedMeansRetired(After(s, step))
  {
    hide Line, CrewSound, Onward, StepTracker, FailureBook, FirstCalls, BatchCalls;
    if step.Act? {
      ActAcks(s, step.topic);
    }
  }

  lemma ActBooks(s: Sys, u: string)
    requires LinesSound(s) && ClosedMeansRetired(s) && Enabled(s, Act(u))
    ensures var after := After(s, Act(u));
            && after.polled == s.polled && after.refused == s.refused
            && after.crews.Keys == s.crews.Keys && after.world.queues.Keys == s.world.queues.Keys
            && (forall t :: t in s.world.queues ==> after.world.queues[t].open == s.world.queues[t].open)
            && (u in s.world.queues ==> s.world.queues[u].open)
  {
    hide Line, CrewSound, Onward, StepTracker, FailureBook;
    assert !Retired(s.crews[u]);
  }

  /** Settling the places that leave a line keeps its open places accounted for. */
  lemma AccountedOn(s: Sys, after: Sys, home: TopicPartition)
    requires Accounted(s, home) && OrderedAt(after, home)
    requires after.polled == s.polled && after.refused == s.refused && Settled(s) <= Settled(after)
    requires after.crews.Keys == s.crews.Keys && after.world.queues.Keys == s.world.queues.Keys
    requires var t := home.topic;
             t in s.world.queues ==> after.world.queues[t].open == s.world.queues[t].open
    requires var t := home.topic;
             t in s.world.queues && !s.world.queues[t].open ==> forall x :: (home, x) in Settled(after) ==> (home, x) in Settled(s)
    requires forall o :: o in For(Line(s, home.topic), home) && (home, o) !in Settled(after) ==> o in For(Line(after, home.topic), home)
    ensures Accounted(after, home)
  {
    hide For, Line, Settled, Increasing;
    forall o | Open(after, (home, o)) ensures Open(s, (home, o)) {}
  }

  lemma AccountedByAct(s: Sys, u: string, home: TopicPartition)
    requires LinesSound(s) && ClosedMeansRetired(s) && Accounted(s, home) && Enabled(s, Act(u))
    requires OrderedAt(After(s, Act(u)), home)
    ensures Accounted(After(s, Act(u)), home)
  {
    var t, after, task := home.topic, After(s, Act(u)), TaskOf(s.crews[u]);
    hide For, Line, After, LinesSound, Settled, ClosedMeansRetired, OrderedAt, Onward, Accounted, AckedPlaces, HandedPlaces;
    ActLine(s, u, t);
    ActSettles(s, u);
    ActAcks(s, u);
    ActBooks(s, u);
    ForAppend([task.m], Line(after, t), home);
    ForOne(task.m, home);
    AccountedOn(s, after, home);
  }

  /** A polled message either joins its line or is refused. */
  lemma PollBooks(s: Sys, m: Message, t: string)
    requires LinesSound(s) && PlacesSound(s) && Enabled(s, Poll(m))
    ensures var after := After(s, Poll(m));
            && PlaceOf(m) !in s.refused
            && after.polled == s.polled + {PlaceOf(m)}
            && after.crews == s.crews && after.world.queues.Keys == s.world.queues.Keys
            && (t in s.world.queues ==> after.world.queues[t].open == s.world.queues[t].open)
            && (if after.refused == s.refused
                then m.topic in s.crews && (m.topic == t ==> Line(after, t) == Line(s, t) + [m])
                else after.refused == s.refused + {PlaceOf(m)} && Line(after, t) == Line(s, t))
  {
    hide CrewSound, Settled, Feed, InHand, Waiting;
    assert PlaceOf(m) !in s.polled;
  }

  lemma AccountedByPoll(s: Sys, m: Message, home: TopicPartition)
    requires Inv(s) && Accounted(s, home) && Enabled(s, Poll(m))
    ensures Accounted(After(s, Poll(m)), home)
  {
    var t, after := home.topic, After(s, Poll(m));
    SameSettled(s, Poll(m));
    PollBooks(s, m, t);
    PollLine(s, m, t);
    ForAppend(Line(s, t), [m], home);
    ForOne(m, home);
    assert Settled(s) <= s.polled && forall q :: q in s.polled && q.0 == m.Home() ==> q.1 < m.offset;
    hide For, Line, After, Enabled, Inv, Settled;
    forall o | Open(after, (home, o))
      ensures t in s.crews && t in s.world.queues && (s.world.queues[t].open ==> o in For(Line(after, t), home))
      ensures forall x :: (home, x) in Settled(s) ==> x < o
    {
      assert Open(s, (home, o)) || (home, o) == PlaceOf(m);
    }
  }

  lemma AccountedStill(s: Sys, step: Step, home: TopicPartition)
    requires LinesSound(s) && Accounted(s, home) && Enabled(s, step) && !step.Act? && !step.Poll?
    ensures Accounted(After(s, step), home)
  {
    var t, after := home.topic, After(s, step);
    SameSettled(s, step);
    assert after.polled == s.polled && after.refused == s.refused;
    assert after.crews.Keys == s.crews.Keys && after.world.queues.Keys == s.world.queues.Keys;
    assert t in s.world.queues && after.world.queues[t].open ==> s.world.queues[t].open && !(step.Cancel? && step.topic == t);
    match step {
      case Take(u) => TakeLine(s, u, t);
      case Flush(u, p, result) => FlushLine(s, u, p, result, t, home);
      case Next(u, draw) => NextLine(s, u, draw, t);
      case Cancel(u) =>
      case _ => StillLine(s, step, t);
    }
    assert !(step.Cancel? && step.topic == t) ==> For(Line(after, t), home) == For(Line(s, t), home);
    hide For, Line, After, Enabled, LinesSound, Settled;
    forall o | Open(after, (home, o)) ensures Open(s, (home, o)) {}
  }

  lemma SelectedKept(s: Sys, step: Step)
    requires LinesSound(s) && PlacesSound(s) && SelectedAcked(s) && Enabled(s, step)
    ensures SelectedAcked(After(s, step))
  {
    if step.Act? {
      ActSettles(s, step.topic);
      hide LinesSound, PlacesSound, Onward, Apply, AckedPlaces;
    } else {
      SameSettled(s, step);
      if step.Select? {
        WatermarkAcked(s, step.home);
      }
      hide LinesSound, PlacesSound, AckedPlaces;
    }
  }

  lemma BooksKept(s: Sys, step: Step)
    requires Inv(s) && Books(s) && Enabled(s, step) && Inv(After(s, step))
    ensures Books(After(s, step))
  {
    RetiredKept(s, step);
    SelectedKept(s, step);
    hide After, Enabled, LinesSound, PlacesSound, TakenSound, CommitsSound, QueuesSound, OrderedAt, Accounted, ClosedMeansRetired, SelectedAcked;
    forall home ensures Accounted(After(s, step), home) {
      if step.Act? {
        AccountedByAct(s, step.topic, home);
      } else if step.Poll? {
        AccountedByPoll(s, step.m, home);
      } else {
        AccountedStill(s, step, home);
      }
    }
  }

  lemma {:induction false} RunKeepsBooks(ss: seq<Sys>, steps: seq<Step>, n: nat)
    requires Run(ss, steps) && n <= |steps|
    ensures Inv(ss[n]) && Books(ss[n])
  {
    hide Inv, Books, After, Enabled, Init;
    RunKeepsInv(ss, steps, n);
    if n == 0 {
      FreshBooks(ss[0]);
    } else {
      RunKeepsBooks(ss, steps, n - 1);
      BooksKept(ss[n - 1], steps[n - 1]);
    }
  }

  lemma FreshBooks(s: Sys)
    requires Init(s)
    ensures Books(s)
  {
  }

  // ---------------------------------------------------------------------------------------
  // What a watermark means
  // ---------------------------------------------------------------------------------------

  lemma {:induction false} OfHolds(log: seq<Tagged>, home: TopicPartition)
    ensures forall e :: e in Of(log, home) <==> Tagged(home, e) in log
  {
    if log != [] {
      var front, last := log[..|log| - 1], log[|log| - 1];
      OfHolds(front, home);
      assert forall x :: x in log <==> x in front || x == last;
    }
  }

  lemma AckedIn(log: seq<Tagged>, home: TopicPartition, o: int)
    ensures Acked(o) in Of(log, home) <==> (home, o) in AckedPlaces(log)
  {
    OfHolds(log, home);
    if (home, o) in AckedPlaces(log) {
      var e :| e in log && e.event.Acked? && (home, o) == (e.home, e.event.offset);
      assert e == Tagged(home, Acked(o));
    }
    if Acked(o) in Of(log, home) {
      assert Tagged(home, Acked(o)) in log;
    }
  }

  /** The offset of the first ack of a registered partition. */
  ghost function FirstAckOf(s: Sys, home: TopicPartition): int
    requires PlacesSound(s) && home in s.world.tracker
  {
    PartitionsIndependent(s.log, home);
    RegisteredIffAcked(Of(s.log, home));
    FirstAck(Of(s.log, home))
  }

  /** From the first ack up to the watermark every offset was acked. */
  lemma WatermarkMeaning(s: Sys, home: TopicPartition)
    requires PlacesSound(s) && home in s.world.tracker
    ensures 0 <= FirstAckOf(s, home) <= s.world.tracker[home].committed
    ensures forall o :: FirstAckOf(s, home) <= o <= s.world.tracker[home].committed ==> (home, o) in AckedPlaces(s.log)
  {
    var h := Of(s.log, home);
    PartitionsIndependent(s.log, home);
    RegisteredIffAcked(h);
    OfHolds(s.log, home);
    assert Wellformed(h) by {
      forall i | 0 <= i < |h| && h[i].Acked? ensures h[i].offset >= 0 {
        assert Tagged(home, h[i]) in s.log;
      }
    }
    WatermarkRefinement(h);
    forall o | FirstAckOf(s, home) <= o <= s.world.tracker[home].committed ensures (home, o) in AckedPlaces(s.log) {
      assert Acked(o) in h;
      AckedIn(s.log, home, o);
    }
  }

  lemma WatermarkAcked(s: Sys, home: TopicPartition)
    requires PlacesSound(s) && home in s.world.tracker
    ensures (home, s.world.tracker[home].committed) in AckedPlaces(s.log)
  {
    WatermarkMeaning(s, home);
  }

  // ---------------------------------------------------------------------------------------
  // The guarantees
  // ---------------------------------------------------------------------------------------

  /** The message is in its worker's hands or in its queue. */
  ghost predicate InTheLine(s: Sys, m: Message) {
    m in Line(s, m.topic)
  }

  /** At-least-once: a polled offset at or below the watermark had its handler succeed and was
      acked, or was handed to the dead-letter producer, or never got into its queue; nothing
      a worker took is unsettled at or below it, and nothing queued, batched, being called or
      awaiting a retry is either. */
  lemma AtLeastOnce(ss: seq<Sys>, steps: seq<Step>, n: nat, home: TopicPartition, o: int)
    requires Run(ss, steps) && n <= |steps|
    requires home in ss[n].world.tracker && o <= ss[n].world.tracker[home].committed
    ensures var s := ss[n];
            && ((home, o) in s.polled ==>
                 || ((home, o) in AckedPlaces(s.log) && (home, o) in s.succeeded)
                 || (home, o) in HandedPlaces(s.world.dlq)
                 || (home, o) in s.refused)
            && (forall m :: m in s.taken && PlaceOf(m) == (home, o) ==> (home, o) in Settled(s))
            && (forall m :: PlaceOf(m) == (home, o) ==> !InTheLine(s, m))
  {
    var s := ss[n];
    RunKeepsBooks(ss, steps, n);
    WatermarkAcked(s, home);
    var w := s.world.tracker[home].committed;
    assert (home, w) in Settled(s);
    assert Accounted(s, home) && OrderedAt(s, home);
    assert AckedPlaces(s.log) <= s.succeeded;
    assert !Open(s, (home, o));
    forall m | m in Line(s, home.topic) && m.Home() == home ensures w < m.offset {
      ForHolds(Line(s, home.topic), home);
      assert m.offset in For(Line(s, home.topic), home);
    }
    assert TakenSound(s);
    forall m | m in s.taken && m.Home() == home ensures PlaceOf(m) in Settled(s) || w < m.offset {
      if m in InHand(s.crews[m.topic]) {
        assert m in Line(s, home.topic);
      }
    }
  }

  /** Acked and handed off are two different ends, and neither happens to a refused message. */
  lemma EndsApart(ss: seq<Sys>, steps: seq<Step>, n: nat)
    requires Run(ss, steps) && n <= |steps|
    ensures AckedPlaces(ss[n].log) !! HandedPlaces(ss[n].world.dlq)
    ensures Settled(ss[n]) !! ss[n].refused
  {
    RunKeepsBooks(ss, steps, n);
  }

  /** A dead letter or a refused message holds the watermark for good, exactly unless it came
      before the first ack of its partition: then the watermark starts out beyond it. */
  lemma WatermarkPassesOnlyBeforeFirstAck(ss: seq<Sys>, steps: seq<Step>, n: nat, home: TopicPartition, o: int)
    requires Run(ss, steps) && n <= |steps|
    requires home in ss[n].world.tracker
    requires (home, o) in HandedPlaces(ss[n].world.dlq) || (home, o) in ss[n].refused
    ensures PlacesSound(ss[n])
    ensures o <= ss[n].world.tracker[home].committed <==> o < FirstAckOf(ss[n], home)
  {
    RunKeepsBooks(ss, steps, n);
    WatermarkMeaning(ss[n], home);
    EndsApart(ss, steps, n);
  }

  lemma LogGrows(s: Sys, step: Step)
    requires Enabled(s, step)
    ensures s.log <= After(s, step).log
  {
  }

  /** The first ack of a partition stays its first ack. */
  lemma FirstAckStays(s: Sys, step: Step, home: TopicPartition)
    requires Inv(s) && Enabled(s, step) && home in s.world.tracker
    ensures PlacesSound(After(s, step)) && home in After(s, step).world.tracker
    ensures FirstAckOf(After(s, step), home) == FirstAckOf(s, home)
  {
    InvKept(s, step);
    WatermarksKept(s, step);
    LogGrows(s, step);
    var log, more := s.log, After(s, step).log[|s.log|..];
    assert After(s, step).log == log + more;
    hide After, Enabled, LinesSound, Feed, Of;
    PartitionsIndependent(log, home);
    RegisteredIffAcked(Of(log, home));
    OfAppend(log, more, home);
    FirstAckExtends(Of(log, home), Of(more, home));
  }

  /** Every offset issued to the broker was acked, is not above the watermark, and leaves no
      accepted message behind: all polled offsets up to it are settled or were refused. */
  lemma CommitsAreSafe(ss: seq<Sys>, steps: seq<Step>, n: nat, i: nat, o: int)
    requires Run(ss, steps) && n <= |steps| && i < |ss[n].issued|
    ensures var s, place := ss[n], ss[n].issued[i];
            && place.0 in s.world.tracker && place.1 <= s.world.tracker[place.0].committed
            && place in AckedPlaces(s.log)
            && ((place.0, o) in s.polled && o <= place.1 ==> (place.0, o) in Settled(s) + s.refused)
            && (forall m :: m in s.taken && m.Home() == place.0 && m.offset <= place.1 ==> PlaceOf(m) in Settled(s))
  {
    var s, place := ss[n], ss[n].issued[i];
    RunKeepsBooks(ss, steps, n);
    assert CommitsSound(s) && SelectedAcked(s);
    assert place in s.issued && place in s.selected;
    hide Books, Inv, Settled;
    if (place.0, o) in s.polled && o <= place.1 {
      AtLeastOnce(ss, steps, n, place.0, o);
      assert Settled(s) == AckedPlaces(s.log) + HandedPlaces(s.world.dlq) by { SettledIs(s); }
    }
    forall m | m in s.taken && m.Home() == place.0 && m.offset <= place.1 ensures PlaceOf(m) in Settled(s) {
      AtLeastOnce(ss, steps, n, place.0, m.offset);
    }
  }

  lemma SettledIs(s: Sys)
    ensures Settled(s) == AckedPlaces(s.log) + HandedPlaces(s.world.dlq)
  {
  }

  /** In every run a queue with a live receiver counts exactly the messages in its channel and
      those its worker has not acked back, so no queue ack of the pipeline ever saturates. */
  lemma PipelineConservation(ss: seq<Sys>, steps: seq<Step>, n: nat, t: string)
    requires Run(ss, steps) && n <= |steps|
    requires t in ss[n].crews && t in ss[n].world.queues && ss[n].world.queues[t].open
    ensures var q := ss[n].world.queues[t];
            q.depth == q.inflight == |q.channel| + Unacked(ss[n].crews[t])
    ensures Busy(ss[n].crews[t]) && TaskOf(ss[n].crews[t]).todo[0].QueueAck? ==> ss[n].world.queues[t].depth >= 1
  {
    RunKeepsBooks(ss, steps, n);
    var c := ss[n].crews[t];
    assert QueuesSound(ss[n]);
    if Busy(c) {
      assert CrewSound(ss[n], t, c);
      OnwardHand(ss[n].policy, ss[n].world.retry, c);
    }
  }

  lemma {:induction false} PickHolds(ms: seq<Message>, m: Message)
    requires m in ms
    ensures m in Pick(ms, m.partition)
  {
    var n := |ms| - 1;
    if m != ms[n] {
      assert m in ms[..n];
      PickHolds(ms[..n], m);
    }
  }

  /** No worker ever gets stuck with a message: in every reachable state each thing that can befall
      what it holds may befall it, whatever the handler returns and whatever is drawn. */
  lemma NeverStuck(ss: seq<Sys>, steps: seq<Step>, n: nat, t: string)
    requires Run(ss, steps) && n <= |steps| && t in ss[n].crews
    ensures var s := ss[n];
            match s.crews[t]
            case Single(Invoking(_)) => forall result, random :: Enabled(s, Finish(t, result, random))
            case Single(Acting(_)) => Enabled(s, Act(t))
            case Single(BackingOff(_)) => Enabled(s, Wake(t)) && Enabled(s, Cancel(t))
            case Single(_) => true
            case Batching(held, batch, _, current, _) =>
              if current.Some? then Enabled(s, Act(t))
              else if batch != [] then forall draw :: Enabled(s, Next(t, draw))
              else forall m, result :: m in held ==> Enabled(s, Flush(t, m.partition, result))
  {
    RunKeepsInv(ss, steps, n);
    var s := ss[n];
    assert LinesSound(s) && CrewSound(s, t, s.crews[t]);
    hide Line, OrderedAt, PlacesSound, TakenSound, CommitsSound, QueuesSound, Run, Pick;
    if s.crews[t].Batching? {
      forall m | m in s.crews[t].held ensures Pick(s.crews[t].held, m.partition) != [] {
        PickHolds(s.crews[t].held, m);
      }
    }
  }

  // ---------------------------------------------------------------------------------------
  // A run in which a message is lost
  // ---------------------------------------------------------------------------------------

  ghost predicate Reachable(s: Sys) {
    exists ss, steps :: Run(ss, steps) && ss[|steps|] == s
  }

  lemma Reach(s: Sys, step: Step)
    requires Reachable(s) && Enabled(s, step)
    ensures Reachable(After(s, step))
  {
    hide Enabled, After, Init;
    var ss, steps :| Run(ss, steps) && ss[|steps|] == s;
    var more, next := ss + [After(s, step)], steps + [step];
    assert more[|next|] == After(s, step);
    assert Run(more, next);
  }

  /** The worker of the topic takes the only queued message, its handler succeeds, and it is acked. */
  lemma DeliverOne(s: Sys, m: Message) returns (end: Sys)
    requires Reachable(s) && m.topic in s.crews && m.topic in s.world.queues
    requires s.crews[m.topic] == Single(Idle) && s.world.queues[m.topic].channel == [m]
    ensures Reachable(end) && end.polled == s.polled && end.refused == s.refused && end.selected == s.selected && end.issued == s.issued
    ensures end.crews == s.crews
    ensures end.world.queues == Q.AckTopic(s.world.queues[m.topic := s.world.queues[m.topic].(channel := [])], m.topic, 1)
    ensures end.world.tracker == StepTracker(s.world.tracker, m.Home(), Acked(m.offset))
  {
    hide Reachable, StepTracker, FailureBook, AttemptCount, WillRetry, Pick, Leave;
    var t := m.topic;
    Reach(s, Take(t));
    var taken := After(s, Take(t));
    assert s.world.queues[t].channel[1..] == [];
    Reach(taken, Finish(t, Succeeded, 0.0));
    var done := After(taken, Finish(t, Succeeded, 0.0));
    assert done.crews[t] == Single(Acting(Task(m, SuccessEffects(m), None)));
    Reach(done, Act(t));
    var cleared := After(done, Act(t));
    assert cleared.crews[t] == Single(Acting(Task(m, SuccessEffects(m)[1..], None)));
    Reach(cleared, Act(t));
    var released := After(cleared, Act(t));
    assert released.crews[t] == Single(Acting(Task(m, SuccessEffects(m)[2..], None)));
    Reach(released, Act(t));
    end := After(released, Act(t));
    assert end.crews[t] == Single(Idle);
    assert end.crews == s.crews;
  }

  /** One topic, one worker, a queue for one message. */
  function Small(policy: RetryPolicy, topic: string): Sys {
    Sys(policy, map[topic := Single(Idle)], World(map[], map[], map[topic := Q.NewQueue(1, None)], []), {}, {}, {}, {}, [], {}, [])
  }

  lemma SmallReachable(policy: RetryPolicy, topic: string)
    ensures Reachable(Small(policy, topic))
  {
    var ss: seq<Sys>, steps: seq<Step> := [Small(policy, topic)], [];
    assert Run(ss, steps) && ss[|steps|] == Small(policy, topic);
  }

  /** A message of partition 0 is refused while the queue holds one of partition 1, which is then
      delivered. */
  lemma OneRefused(policy: RetryPolicy, topic: string) returns (s: Sys)
    ensures var home := TopicPartition(topic, 0);
            && Reachable(s) && s.crews == map[topic := Single(Idle)] && s.world.queues == map[topic := Q.NewQueue(1, None)]
            && s.polled == {(TopicPartition(topic, 1), 0), (home, 0)} && s.refused == {(home, 0)} && s.issued == []
            && s.world.tracker == StepTracker(map[], TopicPartition(topic, 1), Acked(0))
  {
    var other, lost := Message(topic, 1, 0, None, None), Message(topic, 0, 0, None, None);
    var s0 := Small(policy, topic);
    SmallReachable(policy, topic);
    hide Reachable, StepTracker;
    Reach(s0, Poll(other));
    var s1 := After(s0, Poll(other));
    assert s1.world.queues[topic].channel == [other];
    Reach(s1, Poll(lost));
    var s2 := After(s1, Poll(lost));
    assert s2.refused == {PlaceOf(lost)} && s2.world == s1.world && s2.crews == s0.crews;
    s := DeliverOne(s2, other);
  }

  /** When the next message of partition 0 is then the first one of it to be acked, the watermark
      and the committed offset pass over the refused one, which nobody will ever see again. */
  lemma RefusedAndPassedOver(policy: RetryPolicy, topic: string)
    ensures exists s: Sys ::
              var home := TopicPartition(topic, 0);
              && Reachable(s) && (home, 0) in s.refused && s.issued == [(home, 1)]
              && home in s.world.tracker && s.world.tracker[home].committed == 1
  {
    var home, next := TopicPartition(topic, 0), Message(topic, 0, 1, None, None);
    var s0 := OneRefused(policy, topic);
    hide Reachable, StepTracker;
    Reach(s0, Poll(next));
    var s1 := After(s0, Poll(next));
    assert s1.world.queues[topic].channel == [next] && s1.refused == s0.refused;
    var s2 := DeliverOne(s1, next);
    BothTracked(TopicPartition(topic, 1), home);
    Reach(s2, Select(home));
    var s3 := After(s2, Select(home));
    Reach(s3, Issue((home, 1)));
    assert After(s3, Issue((home, 1))).issued == [(home, 1)];
  }

  lemma BothTracked(p: TopicPartition, q: TopicPartition)
    requires p != q
    ensures var t := StepTracker(StepTracker(map[], p, Acked(0)), q, Acked(1));
            q in t && t[q].committed == 1
  {
    NextAck(FRESH, 1);
  }
}
