/** Per-partition batching: what the accumulator holds, and the objects that hold it. Times
    are milliseconds of a clock the caller reads. */
module Accumulation {
  import opened Types

  datatype Buffer = Buffer(messages: seq<Message>, deadline: Option<int>)

  type Buffers = map<int, Buffer>

  /** A batch taken out of one partition. */
  datatype Batch = Batch(partition: int, messages: seq<Message>)

  function Held(acc: Buffers, p: int): seq<Message> {
    if p in acc then acc[p].messages else []
  }

  function DeadlineOf(acc: Buffers, p: int): Option<int> {
    if p in acc then acc[p].deadline else None
  }

  /** The timer starts with the first message of an empty buffer, unless it already runs. */
  function Added(b: Buffer, m: Message, now: int, wait: nat): Buffer {
    var deadline := if b.messages == [] && b.deadline.None? then Some(now + wait) else b.deadline;
    Buffer(b.messages + [m], deadline)
  }

  function AddTo(acc: Buffers, m: Message, now: int, wait: nat): Buffers {
    var b := if m.partition in acc then acc[m.partition] else Buffer([], None);
    acc[m.partition := Added(b, m, now, wait)]
  }

  predicate Full(acc: Buffers, p: int, max: nat) {
    p in acc && |acc[p].messages| >= max
  }

  /** Taking the messages leaves the old deadline in place. */
  function Emptied(acc: Buffers, p: int): Buffers {
    if p in acc then acc[p := acc[p].(messages := [])] else acc
  }

  function AllEmptied(acc: Buffers): Buffers {
    map p | p in acc :: acc[p].(messages := [])
  }

  /** What the batches took from partition `p`, in order. */
  function Drained(batches: seq<Batch>, p: int): seq<Message> {
    if batches == [] then []
    else
      var last := batches[|batches| - 1];
      Drained(batches[..|batches| - 1], p) + if last.partition == p then last.messages else []
  }

  lemma {:induction false} DrainedAppend(a: seq<Batch>, b: seq<Batch>, p: int)
    ensures Drained(a + b, p) == Drained(a, p) + Drained(b, p)
  {
    if b == [] {
      assert a + b == a;
    } else {
      assert (a + b)[..|a + b| - 1] == a + b[..|b| - 1];
      DrainedAppend(a, b[..|b| - 1], p);
    }
  }

  /** The batches of partition `p`, in order. */
  function Taken(batches: seq<Batch>, p: int): seq<seq<Message>> {
    if batches == [] then []
    else
      var last := batches[|batches| - 1];
      Taken(batches[..|batches| - 1], p) + if last.partition == p then [last.messages] else []
  }

  lemma {:induction false} TakenAppend(a: seq<Batch>, b: seq<Batch>, p: int)
    ensures Taken(a + b, p) == Taken(a, p) + Taken(b, p)
  {
    if b == [] {
      assert a + b == a;
    } else {
      assert (a + b)[..|a + b| - 1] == a + b[..|b| - 1];
      TakenAppend(a, b[..|b| - 1], p);
    }
  }

  /** A buffer flushed as a whole: one batch, or none if it is empty. */
  function Whole(messages: seq<Message>): seq<seq<Message>> {
    if messages == [] then [] else [messages]
  }

  lemma NonEmpty(partitions: set<int>)
    ensures partitions == {} || exists p :: p in partitions
  {
    if !exists p :: p in partitions {
      assert partitions == {};
    }
  }

  lemma DrainedOne(batches: seq<Batch>, b: Batch)
    ensures forall p :: Drained(batches + [b], p) == Drained(batches, p) + if b.partition == p then b.messages else []
    ensures forall p :: Taken(batches + [b], p) == Taken(batches, p) + if b.partition == p then [b.messages] else []
  {
    assert (batches + [b])[..|batches|] == batches;
  }

  /** All partitions but `rest` have been taken out of `before` into `batches`, leaving `now`. */
  ghost predicate Draining(before: Buffers, now: Buffers, rest: set<int>, batches: seq<Batch>) {
    && rest <= before.Keys == now.Keys
    && (forall p :: p in before ==> now[p] == if p in rest then before[p] else before[p].(messages := []))
    && (forall p :: Drained(batches, p) == if p in rest then [] else Held(before, p))
    && (forall b :: b in batches ==> b.messages != [] && b.messages == Held(before, b.partition))
  }

  /** Each partition but `rest` was taken out as a whole. */
  ghost predicate TakenWhole(before: Buffers, rest: set<int>, batches: seq<Batch>) {
    forall p :: Taken(batches, p) == if p in rest then [] else Whole(Held(before, p))
  }

  lemma TakenStep(before: Buffers, rest: set<int>, batches: seq<Batch>, p: int)
    requires TakenWhole(before, rest, batches) && p in rest
    ensures var taken := Held(before, p);
            TakenWhole(before, rest - {p}, if taken == [] then batches else batches + [Batch(p, taken)])
  {
    hide Taken;
    DrainedOne(batches, Batch(p, Held(before, p)));
  }

  lemma DrainBegins(before: Buffers)
    ensures Draining(before, before, before.Keys, []) && TakenWhole(before, before.Keys, [])
  {
  }

  lemma DrainStep(before: Buffers, now: Buffers, rest: set<int>, batches: seq<Batch>, p: int)
    requires Draining(before, now, rest, batches) && p in rest
    ensures var taken := Held(now, p);
            taken == Held(before, p) && Draining(before, Emptied(now, p), rest - {p}, if taken == [] then batches else batches + [Batch(p, taken)])
  {
    hide Drained, Taken;
    DrainedOne(batches, Batch(p, Held(now, p)));
    assert Held(now, p) == Held(before, p);
  }

  lemma DrainEnds(before: Buffers, now: Buffers, batches: seq<Batch>)
    requires Draining(before, now, {}, batches) && TakenWhole(before, {}, batches)
    ensures now == AllEmptied(before)
    ensures forall p :: Drained(batches, p) == Held(before, p) && Taken(batches, p) == Whole(Held(before, p))
    ensures forall b :: b in batches ==> b.messages != [] && b.messages == Held(before, b.partition)
  {
    hide Drained, Taken;
    assert forall p :: p in now ==> now[p] == before[p].(messages := []);
  }

  class PerPartitionBuffer {
    var messages: seq<Message>
    var deadline: Option<int>

    ghost function View(): Buffer
      reads this
    {
      Buffer(messages, deadline)
    }

    constructor ()
      ensures View() == Buffer([], None)
    {
      messages := [];
      deadline := None;
    }

    method StartTimer(now: int, wait: nat)
      modifies this`deadline
      ensures deadline == if old(deadline).None? then Some(now + wait) else old(deadline)
    {
      if deadline.None? {
        deadline := Some(now + wait);
      }
    }

    method Add(m: Message, now: int, wait: nat)
      modifies this
      ensures View() == Added(old(View()), m, now, wait)
    {
      if messages == [] {
        StartTimer(now, wait);
      }
      messages := messages + [m];
    }

    method TakeMessages() returns (taken: seq<Message>)
      modifies this`messages
      ensures taken == old(messages) && messages == []
    {
      taken := messages;
      messages := [];
    }
  }

  class BatchAccumulator {
    var buffers: map<int, PerPartitionBuffer>
    const maxBatchSize: nat
    const maxBatchWait: nat
    ghost var view: Buffers

    ghost predicate Valid()
      reads this, buffers.Values
    {
      && (forall p, q :: p in buffers && q in buffers && buffers[p] == buffers[q] ==> p == q)
      && buffers.Keys == view.Keys
      && (forall p :: p in buffers ==> buffers[p].View() == view[p])
    }

    constructor (maxBatchSize: nat, maxBatchWait: nat)
      ensures Valid() && view == map[] && buffers == map[]
      ensures this.maxBatchSize == maxBatchSize && this.maxBatchWait == maxBatchWait
    {
      this.maxBatchSize := maxBatchSize;
      this.maxBatchWait := maxBatchWait;
      buffers := map[];
      view := map[];
    }

    method WouldFillPartition(p: int) returns (full: bool)
      requires Valid()
      ensures full <==> Full(view, p, maxBatchSize)
    {
      full := p in buffers && |buffers[p].messages| >= maxBatchSize;
    }

    method Add(m: Message, now: int)
      requires Valid()
      modifies this, buffers.Values
      ensures Valid() && fresh(buffers.Values - old(buffers.Values))
      ensures view == AddTo(old(view), m, now, maxBatchWait)
    {
      if m.partition !in buffers {
        var created := new PerPartitionBuffer();
        buffers := buffers[m.partition := created];
      }
      buffers[m.partition].Add(m, now, maxBatchWait);
      view := AddTo(view, m, now, maxBatchWait);
    }

    /** The earliest deadline of any partition. */
    method NextDeadline() returns (earliest: Option<int>)
      requires Valid()
      ensures earliest.None? <==> forall p :: DeadlineOf(view, p).None?
      ensures earliest.Some? ==> exists p :: DeadlineOf(view, p) == earliest
      ensures earliest.Some? ==> forall p :: DeadlineOf(view, p).Some? ==> earliest.value <= DeadlineOf(view, p).value
    {
      earliest := None;
      var rest := buffers.Keys;
      while rest != {}
        invariant rest <= buffers.Keys
        invariant earliest.None? <==> forall p :: p !in rest ==> DeadlineOf(view, p).None?
        invariant earliest.Some? ==> exists p :: DeadlineOf(view, p) == earliest
        invariant earliest.Some? ==> forall p :: p !in rest && DeadlineOf(view, p).Some? ==> earliest.value <= DeadlineOf(view, p).value
        decreases rest
      {
        NonEmpty(rest);
        var p :| p in rest;
        var d := buffers[p].deadline;
        assert d == DeadlineOf(view, p);
        if d.Some? && (earliest.None? || d.value < earliest.value) {
          earliest := d;
        }
        rest := rest - {p};
      }
    }

    method IsEmpty() returns (empty: bool)
      requires Valid()
      ensures empty <==> forall p :: Held(view, p) == []
    {
      empty := forall p | p in buffers :: buffers[p].messages == [];
      assert forall p :: p in buffers ==> Held(view, p) == buffers[p].messages;
    }

    method FlushPartition(p: int) returns (taken: Option<seq<Message>>)
      requires Valid()
      modifies this`view, buffers.Values
      ensures Valid() && buffers == old(buffers)
      ensures taken == if Held(old(view), p) == [] then None else Some(Held(old(view), p))
      ensures view == Emptied(old(view), p)
    {
      taken := None;
      if p in buffers && buffers[p].messages != [] {
        var messages := buffers[p].TakeMessages();
        taken := Some(messages);
      }
      view := Emptied(view, p);
    }

    method Partitions() returns (all: set<int>)
      requires Valid()
      ensures all == view.Keys
    {
      all := buffers.Keys;
    }

    /** Every nonempty partition's messages, in no particular order of partitions. */
    method FlushAll() returns (batches: seq<Batch>)
      requires Valid()
      modifies this`view, buffers.Values
      ensures Valid() && buffers == old(buffers)
      ensures view == AllEmptied(old(view))
      ensures forall p :: Drained(batches, p) == Held(old(view), p) && Taken(batches, p) == Whole(Held(old(view), p))
      ensures forall b :: b in batches ==> b.messages != [] && b.messages == Held(old(view), b.partition)
    {
      hide *;
      batches := [];
      ghost var before := view;
      var rest := Partitions();
      DrainBegins(before);
      while rest != {}
        invariant Valid() && buffers == old(buffers)
        invariant Draining(before, view, rest, batches) && TakenWhole(before, rest, batches)
        decreases rest
      {
        NonEmpty(rest);
        ghost var here, sofar := view, batches;
        var p :| p in rest;
        var taken := FlushPartition(p);
        if taken.Some? {
          batches := batches + [Batch(p, taken.value)];
        }
        DrainStep(before, here, rest, sofar, p);
        TakenStep(before, rest, sofar, p);
        rest := rest - {p};
      }
      DrainEnds(before, view, batches);
    }
  }
}
