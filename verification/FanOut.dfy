/** Fan-out tracking: the slot counter with its load / compare-exchange acquisition, and the
    completion counters that decide when the waiter may return. All counters are one byte. */
module FanOut {
  import opened Types

  datatype BranchResult = Done | Broken(reason: FailureReason, exception: string) | Late(timeoutMs: nat)

  /** The tracker's shared memory. */
  datatype Counters = Counters(max: nat, inflight: nat, total: nat, completed: nat, results: seq<(nat, BranchResult)>)

  const MAX_SLOTS := 64

  function NewCounters(maxFanOut: nat): Counters {
    Counters(if maxFanOut <= MAX_SLOTS then maxFanOut else MAX_SLOTS, 0, 0, 0, [])
  }

  /** One-byte counters wrap around. */
  function Byte(n: nat): nat {
    n % 256
  }

  function Up(n: nat): nat {
    Byte(n + 1)
  }

  function Down(n: nat): nat {
    (n + 255) % 256
  }

  function Released(c: Counters): Counters {
    c.(inflight := Down(c.inflight))
  }

  /** The new branch is named by the count so far. */
  function Registered(c: Counters): (Counters, nat) {
    (c.(total := Up(c.total)), c.total)
  }

  function Pushed(c: Counters, id: nat, result: BranchResult): Counters {
    c.(results := c.results + [(id, result)])
  }

  function Counted(c: Counters): Counters {
    c.(completed := Up(c.completed))
  }

  class FanOutTracker {
    const maxFanOut: nat
    var inflight: nat
    var total: nat
    var completed: nat
    var results: seq<(nat, BranchResult)>

    ghost function View(): Counters
      reads this
    {
      Counters(maxFanOut, inflight, total, completed, results)
    }

    constructor (maxFanOut: nat)
      ensures View() == NewCounters(maxFanOut)
    {
      this.maxFanOut := if maxFanOut <= MAX_SLOTS then maxFanOut else MAX_SLOTS;
      inflight := 0;
      total := 0;
      completed := 0;
      results := [];
    }

    method CompareExchange(current: nat, next: nat) returns (swapped: bool)
      modifies this`inflight
      ensures swapped <==> old(inflight) == current
      ensures inflight == if swapped then next else old(inflight)
    {
      swapped := inflight == current;
      if swapped {
        inflight := next;
      }
    }

    /** Uncontended, it succeeds exactly while slots are left; see `Step` for what others may do
        between its load and its exchange. */
    method TryAcquireSlot() returns (acquired: bool)
      modifies this`inflight
      ensures acquired <==> old(inflight) < maxFanOut
      ensures inflight == old(inflight) + if acquired then 1 else 0
    {
      var current := inflight;
      if current >= maxFanOut {
        return false;
      }
      acquired := CompareExchange(current, current + 1);
    }

    method ReleaseSlot()
      modifies this`inflight
      ensures View() == Released(old(View()))
    {
      inflight := (inflight + 255) % 256;
    }

    method RegisterBranch() returns (id: nat)
      modifies this`total
      ensures (View(), id) == Registered(old(View()))
    {
      id := total;
      total := (total + 1) % 256;
    }

    /** The result is pushed under its lock first, then counted. */
    method RecordBranchResult(id: nat, result: BranchResult) returns (notifies: bool)
      modifies this`results, this`completed
      ensures View() == Counted(Pushed(old(View()), id, result))
      ensures notifies <==> completed >= total
    {
      results := results + [(id, result)];
      completed := (completed + 1) % 256;
      notifies := completed >= total;
    }

    /** One pass of the waiter's loop: the results, or None to wait for the next notification. */
    method CheckDone() returns (all: Option<seq<(nat, BranchResult)>>)
      ensures all == if completed >= total && completed > 0 then Some(results) else None
    {
      var seen := completed;
      if seen >= total && seen > 0 {
        return Some(results);
      }
      return None;
    }
  }

  // ---------------------------------------------------------------------------------------
  // Slots under interleaving
  // ---------------------------------------------------------------------------------------

  datatype Caller = Away | Loaded(current: nat) | Owner

  /** `strays` counts the releases by callers that held no slot. */
  datatype Slots = Slots(memory: Counters, callers: map<nat, Caller>, strays: nat)

  datatype SlotStep = Load(who: nat) | Exchange(who: nat) | Release(who: nat) | StrayRelease

  predicate SlotEnabled(s: Slots, step: SlotStep) {
    match step
    case Load(c) => c in s.callers && s.callers[c].Away?
    case Exchange(c) => c in s.callers && s.callers[c].Loaded?
    case Release(c) => c in s.callers && s.callers[c].Owner?
    case StrayRelease => true
  }

  function SlotAfter(s: Slots, step: SlotStep): Slots
    requires SlotEnabled(s, step)
  {
    match step
    case Load(c) =>
      s.(callers := s.callers[c := if s.memory.inflight >= s.memory.max then Away else Loaded(s.memory.inflight)])
    case Exchange(c) =>
      var current := s.callers[c].current;
      if s.memory.inflight == current
      then s.(memory := s.memory.(inflight := current + 1), callers := s.callers[c := Owner])
      else s.(callers := s.callers[c := Away])
    case Release(c) => s.(memory := Released(s.memory), callers := s.callers[c := Away])
    case StrayRelease => s.(memory := Released(s.memory), strays := s.strays + 1)
  }

  function Holding(callers: map<nat, Caller>): set<nat> {
    set c | c in callers && callers[c].Owner?
  }

  function Holders(s: Slots): set<nat> {
    Holding(s.callers)
  }

  ghost predicate SlotRun(ss: seq<Slots>, steps: seq<SlotStep>, maxFanOut: nat) {
    && |ss| == |steps| + 1
    && ss[0].memory == NewCounters(maxFanOut) && ss[0].strays == 0
    && (forall c :: c in ss[0].callers ==> ss[0].callers[c] == Away)
    && forall i :: 0 <= i < |steps| ==> SlotEnabled(ss[i], steps[i]) && ss[i + 1] == SlotAfter(ss[i], steps[i])
  }

  ghost predicate SlotsSound(s: Slots) {
    && s.memory.max <= MAX_SLOTS
    && s.memory.inflight == (|Holders(s)| - s.strays) % 256
    && (forall c :: c in s.callers && s.callers[c].Loaded? ==> s.callers[c].current < s.memory.max)
    && (s.strays == 0 ==> |Holders(s)| <= s.memory.max)
  }

  lemma OneMoves(callers: map<nat, Caller>, c: nat, now: Caller)
    ensures |Holding(callers[c := now])| ==
            |Holding(callers)| + (if now.Owner? then 1 else 0) - (if c in callers && callers[c].Owner? then 1 else 0)
  {
    var others := Holding(callers) - {c};
    assert Holding(callers) == if c in callers && callers[c].Owner? then others + {c} else others;
    assert Holding(callers[c := now]) == if now.Owner? then others + {c} else others;
  }

  lemma HoldersMove(s: Slots, step: SlotStep)
    requires SlotEnabled(s, step)
    ensures var was, now := Holders(s), Holders(SlotAfter(s, step));
            match step
            case Exchange(c) => |now| == |was| + if s.memory.inflight == s.callers[c].current then 1 else 0
            case Release(c) => |now| == |was| - 1
            case _ => |now| == |was|
  {
    hide Holding;
    if !step.StrayRelease? {
      OneMoves(s.callers, step.who, SlotAfter(s, step).callers[step.who]);
    }
  }

  lemma StepSlots(s: Slots, step: SlotStep)
    requires SlotsSound(s) && SlotEnabled(s, step)
    ensures SlotsSound(SlotAfter(s, step)) && SlotAfter(s, step).memory.max == s.memory.max
  {
    HoldersMove(s, step);
    hide Holders;
  }

  /** In every run the counter is the number of holders less the stray releases, modulo 256. If
      nobody releases a slot it does not hold, it is exactly the number of holders, never more
      than the configured degree, which is capped at 64. */
  lemma {:induction false} SlotCount(ss: seq<Slots>, steps: seq<SlotStep>, maxFanOut: nat, n: nat)
    requires SlotRun(ss, steps, maxFanOut) && n <= |steps|
    ensures SlotsSound(ss[n]) && ss[n].memory.max == if maxFanOut <= MAX_SLOTS then maxFanOut else MAX_SLOTS
    ensures ss[n].memory.inflight == (|Holders(ss[n])| - ss[n].strays) % 256
    ensures ss[n].strays == 0 ==>
              ss[n].memory.inflight == |Holders(ss[n])| && |Holders(ss[n])| <= maxFanOut && |Holders(ss[n])| <= MAX_SLOTS
  {
    if n == 0 {
      assert Holders(ss[0]) == {};
    } else {
      SlotCount(ss, steps, maxFanOut, n - 1);
      StepSlots(ss[n - 1], steps[n - 1]);
    }
  }

  /** A slot is granted exactly while one is left, if nobody comes in between the load and the
      exchange; if somebody did, it is granted exactly if the counter is back where it was. */
  lemma SlotGranted(s: Slots, who: nat, between: Slots)
    requires who in s.callers && s.callers[who].Away?
    requires var loaded := SlotAfter(s, Load(who));
             between.callers == loaded.callers && between.memory.max == s.memory.max
    ensures s.memory.inflight >= s.memory.max ==> between.callers[who].Away?
    ensures s.memory.inflight < s.memory.max ==>
              && SlotEnabled(between, Exchange(who))
              && var after := SlotAfter(between, Exchange(who));
                 if between.memory.inflight == s.memory.inflight
                 then after.callers[who].Owner? && after.memory.inflight == between.memory.inflight + 1
                 else after.callers[who].Away? && after.memory == between.memory
  {
  }

  /** The dispatching worker never acquires but releases once per branch: after `k` branches of a
      fresh tracker the counter stands at -k modulo 256, so that for the first 192 of them every
      caller that does try to acquire is turned away. */
  lemma WorkerReleasesOnly(ss: seq<Slots>, steps: seq<SlotStep>, maxFanOut: nat, k: nat)
    requires SlotRun(ss, steps, maxFanOut) && k <= |steps|
    requires forall i :: 0 <= i < k ==> steps[i] == StrayRelease
    ensures ss[k].memory.inflight == (-(k as int)) % 256
    ensures 0 < k <= 256 - MAX_SLOTS ==> ss[k].memory.inflight >= ss[k].memory.max
  {
    StraysCounted(ss, steps, maxFanOut, k);
    SlotCount(ss, steps, maxFanOut, k);
  }

  lemma {:induction false} StraysCounted(ss: seq<Slots>, steps: seq<SlotStep>, maxFanOut: nat, k: nat)
    requires SlotRun(ss, steps, maxFanOut) && k <= |steps|
    requires forall i :: 0 <= i < k ==> steps[i] == StrayRelease
    ensures ss[k].strays == k && Holders(ss[k]) == {}
  {
    if k > 0 {
      StraysCounted(ss, steps, maxFanOut, k - 1);
      assert ss[k] == SlotAfter(ss[k - 1], steps[k - 1]);
    } else {
      assert Holders(ss[0]) == {};
    }
  }

  // ---------------------------------------------------------------------------------------
  // Completion under interleaving
  // ---------------------------------------------------------------------------------------

  /** The waiter: between its two loads, between them and reading the results, and returned.
      `counted` are the branches counted at the first load, `seen` those registered at the
      second one. */
  datatype Waiter =
    | Waiting
    | SawCompleted(done: nat, counted: set<nat>)
    | Passed(seen: set<nat>)
    | Returned(all: seq<(nat, BranchResult)>, seen: set<nat>)

  /** `branches` branches, numbered from 0; `ids` names the registered ones, `outcomes` holds what
      was pushed and `order` in which order, `counted` the branches whose completion was counted. */
  datatype Board = Board(
    branches: nat,
    memory: Counters,
    ids: map<nat, nat>,
    outcomes: map<nat, BranchResult>,
    order: seq<nat>,
    counted: set<nat>,
    waiter: Waiter)

  datatype BoardStep =
    | Register(b: nat)
    | Push(b: nat, result: BranchResult)
    | CountUp(b: nat)
    | LoadCompleted
    | LoadTotal
    | Clone

  predicate BoardEnabled(s: Board, step: BoardStep) {
    match step
    case Register(b) => b < s.branches && b !in s.ids
    case Push(b, _) => b in s.ids && b !in s.outcomes
    case CountUp(b) => b in s.outcomes && b !in s.counted
    case LoadCompleted => s.waiter.Waiting?
    case LoadTotal => s.waiter.SawCompleted?
    case Clone => s.waiter.Passed?
  }

  function BoardAfter(s: Board, step: BoardStep): Board
    requires BoardEnabled(s, step)
  {
    match step
    case Register(b) =>
      var (memory, id) := Registered(s.memory);
      s.(memory := memory, ids := s.ids[b := id])
    case Push(b, result) =>
      s.(memory := Pushed(s.memory, s.ids[b], result), outcomes := s.outcomes[b := result], order := s.order + [b])
    case CountUp(b) => s.(memory := Counted(s.memory), counted := s.counted + {b})
    case LoadCompleted => s.(waiter := SawCompleted(s.memory.completed, s.counted))
    case LoadTotal =>
      var done := s.waiter.done;
      s.(waiter := if done >= s.memory.total && done > 0 then Passed(s.ids.Keys) else Waiting)
    case Clone => s.(waiter := Returned(s.memory.results, s.waiter.seen))
  }

  ghost predicate BoardRun(ss: seq<Board>, steps: seq<BoardStep>) {
    && |ss| == |steps| + 1
    && ss[0] == Board(ss[0].branches, NewCounters(ss[0].memory.max), map[], map[], [], {}, Waiting)
    && forall i :: 0 <= i < |steps| ==> BoardEnabled(ss[i], steps[i]) && ss[i + 1] == BoardAfter(ss[i], steps[i])
  }

  /** The list holds one result for each branch pushed, in order, under the branch's own id. */
  ghost predicate Lists(all: seq<(nat, BranchResult)>, order: seq<nat>, ids: map<nat, nat>, outcomes: map<nat, BranchResult>) {
    && |all| == |order|
    && (forall i :: 0 <= i < |order| ==> order[i] in ids && order[i] in outcomes && all[i] == (ids[order[i]], outcomes[order[i]]))
    && (forall i, j :: 0 <= i < j < |order| ==> order[i] != order[j])
  }

  /** Some earlier part of the order, holding all these branches. */
  ghost predicate Snapshot(s: Board, all: seq<(nat, BranchResult)>, seen: set<nat>) {
    && |all| <= |s.order|
    && Lists(all, s.order[..|all|], s.ids, s.outcomes)
    && forall b :: b in seen ==> b in s.order[..|all|]
  }

  /** Ids tell the branches apart, unless the byte wrapped. */
  ghost predicate IdsApart(s: Board) {
    && (forall a, b :: a in s.ids && b in s.ids && a != b ==> s.ids[a] != s.ids[b])
    && (forall b :: b in s.ids ==> s.ids[b] < |s.ids|)
  }

  ghost predicate MemorySound(s: Board) {
    && (forall b :: b in s.ids ==> b < s.branches)
    && s.counted <= s.outcomes.Keys <= s.ids.Keys
    && s.memory.total == Byte(|s.ids|) && s.memory.completed == Byte(|s.counted|)
    && (s.branches <= 255 ==> IdsApart(s))
    && Lists(s.memory.results, s.order, s.ids, s.outcomes)
    && (forall b :: b in s.order <==> b in s.outcomes)
  }

  ghost predicate WaiterSound(s: Board) {
    match s.waiter
    case Waiting => true
    case SawCompleted(done, counted) => counted <= s.counted && done == |counted|
    case Passed(seen) => seen != {} && seen <= s.counted
    case Returned(all, seen) => seen != {} && Snapshot(s, all, seen)
  }

  ghost predicate BoardSound(s: Board) {
    MemorySound(s) && (s.branches <= 255 ==> WaiterSound(s))
  }

  /** The numbers below `n`. */
  function Below(n: nat): set<nat> {
    if n == 0 then {} else Below(n - 1) + {n - 1}
  }

  lemma {:induction false} BelowSize(n: nat)
    ensures |Below(n)| == n && forall i: nat :: i in Below(n) <==> i < n
  {
    if n > 0 {
      BelowSize(n - 1);
    }
  }

  lemma SubsetSize(a: set<nat>, b: set<nat>)
    requires a <= b
    ensures |a| <= |b| && (|a| == |b| ==> a == b)
  {
    assert b == a + (b - a);
    assert |b| == |a| + |b - a|;
  }

  lemma FewIds(s: Board)
    requires BoardSound(s)
    ensures |s.ids| <= s.branches && |s.counted| <= |s.ids|
  {
    BelowSize(s.branches);
    SubsetSize(s.ids.Keys, Below(s.branches));
    SubsetSize(s.counted, s.ids.Keys);
    assert |s.ids.Keys| == |s.ids|;
  }

  lemma FewIdsAfter(s: Board, b: nat)
    requires BoardSound(s) && BoardEnabled(s, Register(b))
    ensures |s.ids| < s.branches
  {
    BelowSize(s.branches);
    SubsetSize(s.ids.Keys + {b}, Below(s.branches));
    assert |s.ids.Keys + {b}| == |s.ids| + 1;
  }

  lemma UpWraps(n: nat)
    ensures Up(Byte(n)) == Byte(n + 1)
    ensures n < 256 ==> Byte(n) == n
  {
  }

  /** Nothing recorded is forgotten or changed. */
  ghost predicate Extends(t: Board, s: Board) {
    && s.order <= t.order
    && (forall b :: b in s.ids ==> b in t.ids && t.ids[b] == s.ids[b])
    && (forall b :: b in s.outcomes ==> b in t.outcomes && t.outcomes[b] == s.outcomes[b])
    && s.counted <= t.counted && t.waiter == s.waiter
  }

  lemma SnapshotStays(s: Board, t: Board, all: seq<(nat, BranchResult)>, seen: set<nat>)
    requires Extends(t, s) && Snapshot(s, all, seen)
    ensures Snapshot(t, all, seen)
  {
    assert t.order[..|all|] == s.order[..|all|];
  }

  lemma WaiterStays(s: Board, t: Board)
    requires Extends(t, s) && WaiterSound(s)
    ensures WaiterSound(t)
  {
    if s.waiter.Returned? {
      SnapshotStays(s, t, s.waiter.all, s.waiter.seen);
    }
    hide Snapshot;
  }

  /** The count of registered branches is a new id. */
  lemma NewIdApart(s: Board, b: nat)
    requires IdsApart(s) && BoardEnabled(s, Register(b)) && s.memory.total == |s.ids|
    ensures IdsApart(BoardAfter(s, Register(b)))
  {
    var after := BoardAfter(s, Register(b));
    assert |after.ids| == |s.ids| + 1;
    assert after.ids == s.ids[b := |s.ids|];
  }

  lemma ListsStay(all: seq<(nat, BranchResult)>, order: seq<nat>, ids: map<nat, nat>, b: nat, id: nat, outcomes: map<nat, BranchResult>)
    requires Lists(all, order, ids, outcomes) && b !in ids
    ensures Lists(all, order, ids[b := id], outcomes)
  {
  }

  lemma RegisterMemory(s: Board, b: nat)
    requires MemorySound(s) && BoardEnabled(s, Register(b)) && |s.ids| < s.branches
    ensures MemorySound(BoardAfter(s, Register(b)))
  {
    hide Byte, Up, Lists, IdsApart;
    UpWraps(|s.ids|);
    ListsStay(s.memory.results, s.order, s.ids, b, s.memory.total, s.outcomes);
    if s.branches <= 255 {
      NewIdApart(s, b);
    }
    assert |BoardAfter(s, Register(b)).ids| == |s.ids| + 1;
  }

  lemma RegisterSound(s: Board, b: nat)
    requires BoardSound(s) && BoardEnabled(s, Register(b))
    ensures BoardSound(BoardAfter(s, Register(b)))
  {
    FewIdsAfter(s, b);
    RegisterMemory(s, b);
    var after := BoardAfter(s, Register(b));
    assert Extends(after, s);
    hide MemorySound, WaiterSound, Extends;
    if s.branches <= 255 {
      WaiterStays(s, after);
    }
  }

  lemma PushMemory(s: Board, b: nat, result: BranchResult)
    requires MemorySound(s) && BoardEnabled(s, Push(b, result))
    ensures MemorySound(BoardAfter(s, Push(b, result)))
  {
    assert b !in s.order;
    hide IdsApart;
    assert IdsApart(BoardAfter(s, Push(b, result))) == IdsApart(s) by { SameIds(s, BoardAfter(s, Push(b, result))); }
  }

  lemma SameIds(s: Board, t: Board)
    requires s.ids == t.ids
    ensures IdsApart(s) == IdsApart(t)
  {
  }

  lemma PushSound(s: Board, b: nat, result: BranchResult)
    requires BoardSound(s) && BoardEnabled(s, Push(b, result))
    ensures BoardSound(BoardAfter(s, Push(b, result)))
  {
    PushMemory(s, b, result);
    var after := BoardAfter(s, Push(b, result));
    assert Extends(after, s) by { assert b !in s.outcomes; }
    hide MemorySound, WaiterSound, Extends;
    if s.branches <= 255 {
      WaiterStays(s, after);
    }
  }

  lemma CountSound(s: Board, b: nat)
    requires BoardSound(s) && BoardEnabled(s, CountUp(b))
    ensures BoardSound(BoardAfter(s, CountUp(b)))
  {
    var after := BoardAfter(s, CountUp(b));
    assert MemorySound(after) by {
      hide Byte, Up, IdsApart, Lists;
      assert |after.counted| == |s.counted| + 1;
      UpWraps(|s.counted|);
      SameIds(s, after);
    }
    assert Extends(after, s);
    hide MemorySound, WaiterSound, Extends;
    if s.branches <= 255 {
      WaiterStays(s, after);
    }
  }

  lemma LoadCompletedSound(s: Board)
    requires BoardSound(s) && BoardEnabled(s, LoadCompleted)
    ensures BoardSound(BoardAfter(s, LoadCompleted))
  {
    hide Lists, Snapshot;
    FewIds(s);
  }

  /** As many were counted earlier as are registered now: these are the same ones. */
  lemma AllCounted(before: set<nat>, counted: set<nat>, ids: set<nat>)
    requires before <= counted <= ids && |before| >= |ids| > 0
    ensures ids == counted && ids != {}
  {
    SubsetSize(before, ids);
  }

  lemma LoadTotalSound(s: Board)
    requires BoardSound(s) && BoardEnabled(s, LoadTotal)
    ensures BoardSound(BoardAfter(s, LoadTotal))
  {
    hide Lists, Snapshot;
    FewIds(s);
    var done := s.waiter.done;
    if s.branches <= 255 && done >= s.memory.total && done > 0 {
      assert s.waiter.counted <= s.counted <= s.ids.Keys;
      assert |s.ids.Keys| == |s.ids| == s.memory.total;
      SubsetSize(s.waiter.counted, s.ids.Keys);
      AllCounted(s.waiter.counted, s.counted, s.ids.Keys);
    }
  }

  lemma CloneSound(s: Board)
    requires BoardSound(s) && BoardEnabled(s, Clone)
    ensures BoardSound(BoardAfter(s, Clone))
  {
    hide Lists;
    assert s.order[..|s.order|] == s.order;
    assert |s.memory.results| == |s.order| by { ListSize(s.memory.results, s.order, s.ids, s.outcomes); }
  }

  lemma ListSize(all: seq<(nat, BranchResult)>, order: seq<nat>, ids: map<nat, nat>, outcomes: map<nat, BranchResult>)
    requires Lists(all, order, ids, outcomes)
    ensures |all| == |order|
  {
  }

  lemma BoardStepSound(s: Board, step: BoardStep)
    requires BoardSound(s) && BoardEnabled(s, step)
    ensures BoardSound(BoardAfter(s, step)) && BoardAfter(s, step).branches == s.branches
  {
    hide BoardSound;
    match step
    case Register(b) => RegisterSound(s, b);
    case Push(b, result) => PushSound(s, b, result);
    case CountUp(b) => CountSound(s, b);
    case Clone => CloneSound(s);
    case LoadCompleted => LoadCompletedSound(s);
    case LoadTotal => LoadTotalSound(s);
  }

  lemma {:induction false} BoardRunSound(ss: seq<Board>, steps: seq<BoardStep>, n: nat)
    requires BoardRun(ss, steps) && n <= |steps|
    ensures BoardSound(ss[n]) && ss[n].branches == ss[0].branches
  {
    if n > 0 {
      hide BoardSound, BoardAfter, BoardEnabled;
      BoardRunSound(ss, steps, n - 1);
      BoardStepSound(ss[n - 1], steps[n - 1]);
    }
  }

  /** One entry for the branch, under its own id and with its own outcome, and no other. */
  ghost predicate OnceIn(all: seq<(nat, BranchResult)>, id: nat, result: BranchResult) {
    exists i :: 0 <= i < |all| && all[i] == (id, result) && forall j :: 0 <= j < |all| && all[j].0 == id ==> j == i
  }

  /** With at most 255 branches, whatever the interleaving: when the waiter returns, its list
      holds every branch that was registered when it compared the counters, exactly once. */
  lemma WaiterSeesRegistered(ss: seq<Board>, steps: seq<BoardStep>, n: nat, b: nat)
    requires BoardRun(ss, steps) && n <= |steps| && ss[0].branches <= 255
    requires ss[n].waiter.Returned? && b in ss[n].waiter.seen
    ensures b in ss[n].ids && b in ss[n].outcomes && OnceIn(ss[n].waiter.all, ss[n].ids[b], ss[n].outcomes[b])
  {
    BoardRunSound(ss, steps, n);
    var s := ss[n];
    var all := s.waiter.all;
    assert Snapshot(s, all, s.waiter.seen);
    var i :| 0 <= i < |all| && s.order[..|all|][i] == b;
    assert all[i] == (s.ids[b], s.outcomes[b]);
    forall j | 0 <= j < |all| && all[j].0 == s.ids[b] ensures j == i {
      assert s.order[..|all|][j] in s.ids;
    }
  }

  /** Undisturbed, a waiter's two loads let it through exactly if there are branches and all that
      are registered were counted. */
  lemma PassesExactly(ss: seq<Board>, steps: seq<BoardStep>, n: nat)
    requires BoardRun(ss, steps) && n <= |steps| && ss[0].branches <= 255 && ss[n].waiter.Waiting?
    ensures BoardAfter(BoardAfter(ss[n], LoadCompleted), LoadTotal).waiter.Passed? <==>
            ss[n].ids != map[] && forall b :: b in ss[n].ids ==> b in ss[n].counted
  {
    BoardRunSound(ss, steps, n);
    var s := ss[n];
    FewIds(s);
    UpWraps(|s.ids|);
    UpWraps(|s.counted|);
    SubsetSize(s.counted, s.ids.Keys);
    assert |s.ids.Keys| == |s.ids|;
    if forall b :: b in s.ids ==> b in s.counted {
      assert s.counted == s.ids.Keys;
    }
    if s.ids != map[] {
      var b :| b in s.ids;
      assert b in s.ids.Keys;
    }
  }

  /** All branches are registered before the first one records its result. */
  ghost predicate RegisteredFirst(ss: seq<Board>, steps: seq<BoardStep>)
    requires BoardRun(ss, steps)
  {
    forall i, b: nat :: 0 <= i < |steps| && steps[i].Push? && b < ss[0].branches ==> b in ss[i].ids
  }

  lemma {:induction false} PushedMeansAll(ss: seq<Board>, steps: seq<BoardStep>, n: nat, b: nat)
    requires BoardRun(ss, steps) && RegisteredFirst(ss, steps) && n <= |steps| && b < ss[0].branches
    ensures ss[n].outcomes != map[] ==> b in ss[n].ids
  {
    if n > 0 {
      PushedMeansAll(ss, steps, n - 1, b);
      assert ss[n] == BoardAfter(ss[n - 1], steps[n - 1]);
    }
  }

  lemma PassedPushed(s: Board)
    requires BoardSound(s) && s.branches <= 255 && s.waiter.Passed?
    ensures s.outcomes != map[]
  {
    var x :| x in s.waiter.seen;
    assert x in s.counted && x in s.outcomes;
  }

  lemma {:induction false} SeenMeansAll(ss: seq<Board>, steps: seq<BoardStep>, n: nat, b: nat)
    requires BoardRun(ss, steps) && RegisteredFirst(ss, steps) && n <= |steps| && ss[0].branches <= 255 && b < ss[0].branches
    ensures ss[n].waiter.Passed? || ss[n].waiter.Returned? ==> b in ss[n].waiter.seen
  {
    if n > 0 {
      SeenMeansAll(ss, steps, n - 1, b);
      assert ss[n] == BoardAfter(ss[n - 1], steps[n - 1]);
      if steps[n - 1].LoadTotal? && ss[n].waiter.Passed? {
        BoardRunSound(ss, steps, n);
        PassedPushed(ss[n]);
        hide BoardSound;
        PushedMeansAll(ss, steps, n - 1, b);
      }
    }
  }

  /** So a caller that registers all its branches, at most 255, before any of them records gets
      exactly one result for each of them and nothing else. */
  lemma WaitAllComplete(ss: seq<Board>, steps: seq<BoardStep>, n: nat)
    requires BoardRun(ss, steps) && RegisteredFirst(ss, steps) && n <= |steps| && ss[0].branches <= 255
    requires ss[n].waiter.Returned?
    ensures var s := ss[n];
            && |s.waiter.all| == s.branches
            && forall b: nat :: b < s.branches ==> b in s.ids && b in s.outcomes && OnceIn(s.waiter.all, s.ids[b], s.outcomes[b])
  {
    var s := ss[n];
    BoardRunSound(ss, steps, n);
    forall b: nat | b < s.branches
      ensures b in s.waiter.seen && b in s.ids && b in s.outcomes && OnceIn(s.waiter.all, s.ids[b], s.outcomes[b])
    {
      SeenMeansAll(ss, steps, n, b);
      WaiterSeesRegistered(ss, steps, n, b);
    }
    SnapshotSize(s);
  }

  function Elements(order: seq<nat>): set<nat> {
    set b | b in order
  }

  lemma {:induction false} DistinctSize(order: seq<nat>)
    requires forall i, j :: 0 <= i < j < |order| ==> order[i] != order[j]
    ensures |Elements(order)| == |order|
  {
    if order == [] {
      assert Elements(order) == {};
    } else {
      var front, last := order[..|order| - 1], order[|order| - 1];
      DistinctSize(front);
      assert order == front + [last] && last !in front;
      assert Elements(order) == Elements(front) + {last};
    }
  }

  lemma SnapshotSize(s: Board)
    requires BoardSound(s) && s.branches <= 255 && s.waiter.Returned?
    requires forall b: nat :: b < s.branches ==> b in s.waiter.seen
    ensures |s.waiter.all| == s.branches
  {
    var order := s.order[..|s.waiter.all|];
    assert Snapshot(s, s.waiter.all, s.waiter.seen);
    BelowSize(s.branches);
    DistinctSize(order);
    assert forall b :: b in order ==> b in s.ids;
    assert Elements(order) == Below(s.branches);
  }

  lemma BoardOn(ss: seq<Board>, steps: seq<BoardStep>, step: BoardStep, next: Board)
    requires BoardRun(ss, steps) && BoardEnabled(ss[|steps|], step) && BoardAfter(ss[|steps|], step) == next
    ensures BoardRun(ss + [next], steps + [step])
  {
    hide BoardEnabled, BoardAfter;
  }

  /** A run that registers the first `k` branches and does nothing else. */
  lemma {:induction false} RegisterMany(max: nat, branches: nat, k: nat) returns (ss: seq<Board>, steps: seq<BoardStep>, ids: map<nat, nat>)
    requires max <= MAX_SLOTS && k <= branches
    ensures BoardRun(ss, steps) && |steps| == k && ss[0].branches == branches
    ensures ss[k] == Board(branches, NewCounters(max).(total := Byte(k)), ids, map[], [], {}, Waiting)
    ensures (forall b: nat :: b in ids <==> b < k) && (k > 0 ==> ids[0] == 0)
    ensures forall step :: step in steps ==> step.Register?
  {
    hide Byte;
    if k == 0 {
      UpWraps(0);
      ids := map[];
      ss, steps := [Board(branches, NewCounters(max), map[], map[], [], {}, Waiting)], [];
    } else {
      ss, steps, ids := RegisterMany(max, branches, k - 1);
      UpWraps(k - 1);
      var next := BoardAfter(ss[k - 1], Register(k - 1));
      BoardOn(ss, steps, Register(k - 1), next);
      ids := next.ids;
      ss, steps := ss + [next], steps + [Register(k - 1)];
    }
  }

  /** The limit of 255 is sharp: with 256 branches, all registered before the first result, there
      is a run in which the total reads zero and the waiter returns with that one result. */
  lemma TooManyBranches(max: nat, result: BranchResult)
    requires max <= MAX_SLOTS
    ensures exists ss: seq<Board>, steps: seq<BoardStep> ::
              && BoardRun(ss, steps) && RegisteredFirst(ss, steps) && ss[0].branches == 256
              && |ss[|steps|].ids| == 256 && ss[|steps|].waiter.Returned? && ss[|steps|].waiter.all == [(0, result)]
  {
    var ss, steps, ids := RegisterMany(max, 256, 256);
    var s0 := ss[256];
    var s1 := BoardAfter(s0, Push(0, result));
    var s2 := BoardAfter(s1, CountUp(0));
    assert s2.memory.completed == 1 && s2.memory.total == 0;
    var s3 := BoardAfter(s2, LoadCompleted);
    var s4 := BoardAfter(s3, LoadTotal);
    var s5 := BoardAfter(s4, Clone);
    assert s5.waiter.all == [(0, result)] && s5.ids == ids;
    var (more, all) := (ss + [s1] + [s2] + [s3] + [s4] + [s5], steps + [Push(0, result)] + [CountUp(0)] + [LoadCompleted] + [LoadTotal] + [Clone]);
    BoardOn(ss, steps, Push(0, result), s1);
    BoardOn(ss + [s1], steps + [Push(0, result)], CountUp(0), s2);
    BoardOn(ss + [s1] + [s2], steps + [Push(0, result)] + [CountUp(0)], LoadCompleted, s3);
    BoardOn(ss + [s1] + [s2] + [s3], steps + [Push(0, result)] + [CountUp(0)] + [LoadCompleted], LoadTotal, s4);
    BoardOn(ss + [s1] + [s2] + [s3] + [s4], steps + [Push(0, result)] + [CountUp(0)] + [LoadCompleted] + [LoadTotal], Clone, s5);
    hide BoardRun, BoardAfter, BoardEnabled;
    IdsCounted(ids, 256);
    assert forall i :: 0 <= i < 256 ==> all[i] in steps;
    assert forall i :: 0 <= i < |all| && all[i].Push? ==> i == 256;
    assert more[256] == s0 && RegisteredFirst(more, all);
    assert more[|all|] == s5;
  }

  lemma IdsCounted(ids: map<nat, nat>, n: nat)
    requires forall b: nat :: b in ids <==> b < n
    ensures |ids| == n
  {
    BelowSize(n);
    assert ids.Keys == Below(n);
    assert |ids.Keys| == |ids|;
  }

  /** Registering inside the branch's own task, as the dispatching worker does, breaks this: here
      the waiter returns with one result while the second branch has not even started. */
  lemma LateRegistrationMissed(max: nat, result: BranchResult)
    requires max <= MAX_SLOTS
    ensures exists ss: seq<Board>, steps: seq<BoardStep> ::
              && BoardRun(ss, steps) && ss[0].branches == 2 && |steps| == 6
              && ss[6].waiter == Returned([(0, result)], {0}) && 1 !in ss[6].ids
  {
    var s0 := Board(2, NewCounters(max), map[], map[], [], {}, Waiting);
    var s1 := BoardAfter(s0, Register(0));
    var s2 := BoardAfter(s1, Push(0, result));
    var s3 := BoardAfter(s2, CountUp(0));
    var s4 := BoardAfter(s3, LoadCompleted);
    var s5 := BoardAfter(s4, LoadTotal);
    var s6 := BoardAfter(s5, Clone);
    var ss := [s0, s1, s2, s3, s4, s5, s6];
    var steps := [Register(0), Push(0, result), CountUp(0), LoadCompleted, LoadTotal, Clone];
    assert s6.waiter == Returned([(0, result)], {0});
    assert BoardRun(ss, steps);
  }
}
