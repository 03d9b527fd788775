/** The semaphore ring queue as a state machine: any number of threads, each inside `Equeue`,
    inside `Pop` or outside both, interleaved at the granularity of single statements. */
module RingMachine {
  import opened Tally
  import opened Modulo
  import Fifo

  /** Where one thread stands; each constructor names the statement it will execute next. */
  datatype Call<+T> =
    | Idle
    | EqueueP(item: T) | EqueueLock(item: T) | EqueueStore(item: T)
    | EqueueBump | EqueueWrap | EqueueUnlock | EqueueV
    | PopP | PopLock | PopLoad
    | PopBump(out: T) | PopWrap(out: T) | PopUnlock(out: T) | PopV(out: T)

  /** The queue's fields, its threads, and the history of the run so far: `puts` and `takes`
      are the slot writes and slot reads in the order they happened, `offered` everything
      passed to `Equeue`, `returned` everything `Pop` has handed back. */
  datatype Ring<T> = Ring(
    cap: nat, slots: seq<T>, blank: nat, date: nat, pStep: nat, cStep: nat,
    pLock: Option<nat>, cLock: Option<nat>, calls: seq<Call<T>>,
    puts: seq<T>, takes: seq<T>, offered: seq<T>, returned: seq<T>)

  datatype Act<+T> = CallEqueue(t: nat, item: T) | CallPop(t: nat) | Continue(t: nat)

  predicate Init<T>(s: Ring<T>) {
    && |s.slots| == s.cap && s.blank == s.cap && s.date == 0 && s.pStep == 0 && s.cStep == 0
    && s.pLock == None && s.cLock == None && s.puts == [] && s.takes == []
    && s.offered == [] && s.returned == []
    && forall t :: 0 <= t < |s.calls| ==> s.calls[t] == Idle
  }

  /** The thread is inside a call and its next statement does not block. */
  predicate Ready<T>(s: Ring<T>, t: nat) {
    t < |s.calls| &&
    match s.calls[t]
    case Idle => false
    case EqueueP(_) => s.blank > 0
    case EqueueLock(_) => s.pLock == None
    case PopP => s.date > 0
    case PopLock => s.cLock == None
    case _ => true
  }

  /** The next statement indexes inside the vector and does not divide by zero. */
  predicate NoFault<T>(s: Ring<T>, t: nat) {
    t < |s.calls| &&
    match s.calls[t]
    case EqueueStore(_) => s.pStep < |s.slots|
    case PopLoad => s.cStep < |s.slots|
    case EqueueWrap => s.cap > 0
    case PopWrap(_) => s.cap > 0
    case _ => true
  }

  function Goto<T>(s: Ring<T>, t: nat, c: Call<T>): Ring<T>
    requires t < |s.calls|
  {
    s.(calls := s.calls[t := c])
  }

  /** Thread `t`, inside `Equeue`, executes its next statement. */
  function AdvanceEqueue<T>(s: Ring<T>, t: nat): Ring<T>
    requires Ready(s, t) && NoFault(s, t) && InEqueue(s.calls[t])
  {
    match s.calls[t]
    case EqueueP(x) => Goto(s, t, EqueueLock(x)).(blank := s.blank - 1)
    case EqueueLock(x) => Goto(s, t, EqueueStore(x)).(pLock := Some(t))
    case EqueueStore(x) => Goto(s, t, EqueueBump).(slots := s.slots[s.pStep := x], puts := s.puts + [x])
    case EqueueBump => Goto(s, t, EqueueWrap).(pStep := s.pStep + 1)
    case EqueueWrap => Goto(s, t, EqueueUnlock).(pStep := s.pStep % s.cap)
    case EqueueUnlock => Goto(s, t, EqueueV).(pLock := None)
    case EqueueV => Goto(s, t, Idle).(date := s.date + 1)
  }

  /** Thread `t`, inside `Pop`, executes its next statement. */
  function AdvancePop<T>(s: Ring<T>, t: nat): Ring<T>
    requires Ready(s, t) && NoFault(s, t) && !InEqueue(s.calls[t])
  {
    match s.calls[t]
    case PopP => Goto(s, t, PopLock).(date := s.date - 1)
    case PopLock => Goto(s, t, PopLoad).(cLock := Some(t))
    case PopLoad =>
      var out := s.slots[s.cStep];
      Goto(s, t, PopBump(out)).(takes := s.takes + [out])
    case PopBump(x) => Goto(s, t, PopWrap(x)).(cStep := s.cStep + 1)
    case PopWrap(x) => Goto(s, t, PopUnlock(x)).(cStep := s.cStep % s.cap)
    case PopUnlock(x) => Goto(s, t, PopV(x)).(cLock := None)
    case PopV(x) => Goto(s, t, Idle).(blank := s.blank + 1, returned := s.returned + [x])
  }

  predicate InEqueue<T>(c: Call<T>) {
    c.EqueueP? || c.EqueueLock? || c.EqueueStore? || c.EqueueBump? || c.EqueueWrap? || c.EqueueUnlock? || c.EqueueV?
  }

  /** Thread `t` executes its next statement. */
  function Advance<T>(s: Ring<T>, t: nat): Ring<T>
    requires Ready(s, t) && NoFault(s, t)
  {
    if InEqueue(s.calls[t]) then AdvanceEqueue(s, t) else AdvancePop(s, t)
  }

  predicate Enabled<T>(s: Ring<T>, a: Act<T>) {
    match a
    case CallEqueue(t, _) => t < |s.calls| && s.calls[t] == Idle
    case CallPop(t) => t < |s.calls| && s.calls[t] == Idle
    case Continue(t) => Ready(s, t) && NoFault(s, t)
  }

  function Apply<T>(s: Ring<T>, a: Act<T>): Ring<T>
    requires Enabled(s, a)
  {
    match a
    case CallEqueue(t, x) => Goto(s, t, EqueueP(x)).(offered := s.offered + [x])
    case CallPop(t) => Goto(s, t, PopP)
    case Continue(t) => Advance(s, t)
  }

  /** The schedule `acts` is possible from `s` and ends in `last`. */
  ghost predicate Run<T>(s: Ring<T>, acts: seq<Act<T>>, last: Ring<T>)
    decreases |acts|
  {
    if acts == [] then last == s
    else Enabled(s, acts[0]) && Run(Apply(s, acts[0]), acts[1..], last)
  }

  // ---- the inductive invariant ----

  // The four kinds of thread holding a permit: producers before and after their slot write,
  // consumers before and after their slot read.
  function Writing<T>(c: Call<T>): nat { if c.EqueueLock? || c.EqueueStore? then 1 else 0 }
  function Written<T>(c: Call<T>): nat {
    if c.EqueueBump? || c.EqueueWrap? || c.EqueueUnlock? || c.EqueueV? then 1 else 0
  }
  function Reading<T>(c: Call<T>): nat { if c.PopLock? || c.PopLoad? then 1 else 0 }
  function HasRead<T>(c: Call<T>): nat {
    if c.PopBump? || c.PopWrap? || c.PopUnlock? || c.PopV? then 1 else 0
  }

  ghost predicate Permits<T>(s: Ring<T>) {
    && |s.puts| - |s.takes| == s.cap - s.blank - Sum(s.calls, Writing) - Sum(s.calls, HasRead)
    && |s.puts| - |s.takes| == s.date + Sum(s.calls, Written) + Sum(s.calls, Reading)
  }

  predicate InPutSection<T>(c: Call<T>) { c.EqueueStore? || c.EqueueBump? || c.EqueueWrap? || c.EqueueUnlock? }
  predicate InTakeSection<T>(c: Call<T>) { c.PopLoad? || c.PopBump? || c.PopWrap? || c.PopUnlock? }

  /** A lock is held by exactly the threads inside the section it guards. */
  ghost predicate Guarded<T>(lock: Option<nat>, calls: seq<Call<T>>, inside: Call<T> -> bool) {
    && (lock.Some? ==> lock.value < |calls|)
    && forall t :: 0 <= t < |calls| ==> (inside(calls[t]) <==> lock == Some(t))
  }

  ghost predicate PLocked<T>(s: Ring<T>) { Guarded(s.pLock, s.calls, InPutSection) }
  ghost predicate CLocked<T>(s: Ring<T>) { Guarded(s.cLock, s.calls, InTakeSection) }

  /** What the thread holding a lock is about to do; `Idle` when nobody holds it. */
  function Owner<T>(lock: Option<nat>, calls: seq<Call<T>>): Call<T> {
    if lock.Some? && lock.value < |calls| then calls[lock.value] else Idle
  }

  /** The slot of the `k`-th item. */
  function Slot(k: nat, cap: nat): nat { if cap == 0 then 0 else k % cap }

  /** An index is the slot of the next item, except for a moment around its update. */
  ghost predicate PIndex<T>(s: Ring<T>) {
    var owner := Owner(s.pLock, s.calls);
    if owner.EqueueBump? then s.puts != [] && s.pStep == Slot(|s.puts| - 1, s.cap)
    else if owner.EqueueWrap? then s.puts != [] && s.pStep == Slot(|s.puts| - 1, s.cap) + 1
    else s.pStep == Slot(|s.puts|, s.cap)
  }

  ghost predicate CIndex<T>(s: Ring<T>) {
    var owner := Owner(s.cLock, s.calls);
    if owner.PopBump? then s.takes != [] && s.cStep == Slot(|s.takes| - 1, s.cap)
    else if owner.PopWrap? then s.takes != [] && s.cStep == Slot(|s.takes| - 1, s.cap) + 1
    else s.cStep == Slot(|s.takes|, s.cap)
  }

  /** What has been put and not yet taken lies in its slots; what has been taken is what was put. */
  ghost predicate Contents<T>(s: Ring<T>) {
    && |s.slots| == s.cap
    && |s.takes| <= |s.puts|
    && s.takes == s.puts[..|s.takes|]
    && forall k :: |s.takes| <= k < |s.puts| ==> Slot(k, s.cap) < s.cap && s.slots[Slot(k, s.cap)] == s.puts[k]
  }

  /** Items on their way into the ring, and out of it. */
  function Bringing<T>(c: Call<T>): Option<T> {
    if c.EqueueP? || c.EqueueLock? || c.EqueueStore? then Some(c.item) else None
  }
  function Carrying<T>(c: Call<T>): Option<T> {
    if c.PopBump? || c.PopWrap? || c.PopUnlock? || c.PopV? then Some(c.out) else None
  }

  ghost predicate FlowIn<T>(s: Ring<T>) {
    multiset(s.offered) == Bag(s.calls, Bringing) + multiset(s.puts)
  }
  ghost predicate FlowOut<T>(s: Ring<T>) {
    multiset(s.takes) == Bag(s.calls, Carrying) + multiset(s.returned)
  }

  ghost predicate Inv<T>(s: Ring<T>) {
    Permits(s) && PLocked(s) && CLocked(s) && PIndex(s) && CIndex(s) && Contents(s) && FlowIn(s) && FlowOut(s)
  }

  lemma SlotNext(k: nat, cap: nat)
    requires cap > 0
    ensures Slot(k + 1, cap) == (Slot(k, cap) + 1) % cap
  {
    ModNext(k, cap);
  }

  /** Two of the items `i < j < i + cap` never share a slot. */
  lemma SlotsDiffer(i: nat, j: nat, cap: nat)
    requires i < j < i + cap
    ensures Slot(i, cap) != Slot(j, cap)
  {
    ModDiffer(i, j, cap);
  }

  // ---- what one step changes, seen from the thread that takes it ----

  /** What an observer of the ring's data sees when the act is carried out. */
  function EventOf<T>(s: Ring<T>, a: Act<T>): Fifo.Event<T>
    requires Enabled(s, a)
  {
    if a.Continue? && s.calls[a.t].EqueueStore? then Fifo.Put(s.calls[a.t].item)
    else if a.Continue? && s.calls[a.t].PopLoad? then Fifo.Take(s.slots[s.cStep])
    else Fifo.Quiet
  }

  /** Permits only move between the semaphores, the stored items and thread `t`. */
  ghost predicate PermitsMove<T>(s: Ring<T>, t: nat, s': Ring<T>)
    requires t < |s.calls| && t < |s'.calls|
  {
    var c, c' := s.calls[t], s'.calls[t];
    && s'.calls == s.calls[t := c'] && s'.cap == s.cap
    && |s'.puts| - |s'.takes| + s'.blank + Writing(c') + HasRead(c')
       == |s.puts| - |s.takes| + s.blank + Writing(c) + HasRead(c)
    && |s'.puts| - |s'.takes| - s'.date - Written(c') - Reading(c')
       == |s.puts| - |s.takes| - s.date - Written(c) - Reading(c)
  }

  /** A slot write is the put of the item brought along, a slot read a take; nothing else touches the data. */
  ghost predicate DataMoves<T>(s: Ring<T>, t: nat, e: Fifo.Event<T>, s': Ring<T>)
    requires t < |s.calls| && t < |s'.calls|
  {
    match e
    case Put(x) => s.pStep < |s.slots| && s.calls[t] == EqueueStore(x) && s'.slots == s.slots[s.pStep := x]
                   && s'.puts == s.puts + [x] && s'.takes == s.takes
    case Take(x) => s.cStep < |s.slots| && s.calls[t] == PopLoad && s.slots[s.cStep] == x && s'.slots == s.slots
                    && s'.puts == s.puts && s'.takes == s.takes + [x]
    case Quiet => s'.slots == s.slots && s'.puts == s.puts && s'.takes == s.takes
  }

  /** An item enters a thread by a call and leaves it by a put; enters it by a take and leaves it by a return. */
  ghost predicate ItemsMove<T>(s: Ring<T>, t: nat, e: Fifo.Event<T>, s': Ring<T>)
    requires t < |s.calls| && t < |s'.calls|
  {
    var c, c' := s.calls[t], s'.calls[t];
    && (if e.Put? then Bringing(c) == Some(e.item) && Bringing(c') == None && s'.offered == s.offered
        else if c == Idle && Bringing(c').Some? then s'.offered == s.offered + [Bringing(c').value]
        else Bringing(c') == Bringing(c) && s'.offered == s.offered)
    && (if e.Take? then Carrying(c) == None && Carrying(c') == Some(e.item) && s'.returned == s.returned
        else if Carrying(c).Some? && c' == Idle then s'.returned == s.returned + [Carrying(c).value]
        else Carrying(c') == Carrying(c) && s'.returned == s.returned)
  }

  lemma EqueueStatement<T>(s: Ring<T>, t: nat)
    requires Ready(s, t) && NoFault(s, t) && InEqueue(s.calls[t])
    ensures var s', e := AdvanceEqueue(s, t), EventOf(s, Continue(t));
      PermitsMove(s, t, s') && DataMoves(s, t, e, s') && ItemsMove(s, t, e, s')
  {
  }

  lemma PopStatement<T>(s: Ring<T>, t: nat)
    requires Ready(s, t) && NoFault(s, t) && !InEqueue(s.calls[t])
    ensures var s', e := AdvancePop(s, t), EventOf(s, Continue(t));
      PermitsMove(s, t, s') && DataMoves(s, t, e, s') && ItemsMove(s, t, e, s')
  {
  }

  lemma StepMoves<T>(s: Ring<T>, a: Act<T>)
    requires Enabled(s, a)
    ensures var s', e := Apply(s, a), EventOf(s, a);
      PermitsMove(s, a.t, s') && DataMoves(s, a.t, e, s') && ItemsMove(s, a.t, e, s')
  {
    if a.Continue? {
      if InEqueue(s.calls[a.t]) {
        EqueueStatement(s, a.t);
      } else {
        PopStatement(s, a.t);
      }
    }
  }

  // ---- every step keeps the invariant ----

  lemma PermitsKept<T>(s: Ring<T>, t: nat, s': Ring<T>)
    requires t < |s.calls| && t < |s'.calls|
    requires Permits(s) && PermitsMove(s, t, s')
    ensures Permits(s')
  {
    SumUpdate(s.calls, t, s'.calls[t], Writing);
    SumUpdate(s.calls, t, s'.calls[t], Written);
    SumUpdate(s.calls, t, s'.calls[t], Reading);
    SumUpdate(s.calls, t, s'.calls[t], HasRead);
  }

  /** Moving one thread keeps a lock guarded when it takes a free lock on entering the section,
      releases its own on leaving, and touches nothing otherwise. */
  lemma GuardedKept<T>(lock: Option<nat>, lock': Option<nat>, calls: seq<Call<T>>, t: nat, c: Call<T>, inside: Call<T> -> bool)
    requires t < |calls| && Guarded(lock, calls, inside)
    requires !inside(calls[t]) && inside(c) ==> lock == None
    requires lock' == if inside(calls[t]) == inside(c) then lock else if inside(c) then Some(t) else None
    ensures Guarded(lock', calls[t := c], inside)
  {
  }

  lemma PLockKept<T>(s: Ring<T>, a: Act<T>)
    requires PLocked(s) && Enabled(s, a)
    ensures PLocked(Apply(s, a))
  {
    GuardedKept(s.pLock, Apply(s, a).pLock, s.calls, a.t, Apply(s, a).calls[a.t], InPutSection);
  }

  lemma CLockKept<T>(s: Ring<T>, a: Act<T>)
    requires CLocked(s) && Enabled(s, a)
    ensures CLocked(Apply(s, a))
  {
    GuardedKept(s.cLock, Apply(s, a).cLock, s.calls, a.t, Apply(s, a).calls[a.t], InTakeSection);
  }

  /** Permits bound what is in the ring: room for a producer about to write, an item for a
      consumer about to read. */
  lemma RoomAndItems<T>(s: Ring<T>)
    requires Permits(s)
    ensures |s.takes| <= |s.puts| <= |s.takes| + s.cap
    ensures forall t :: 0 <= t < |s.calls| && (s.calls[t].EqueueLock? || s.calls[t].EqueueStore?) ==> |s.puts| < |s.takes| + s.cap
    ensures forall t :: 0 <= t < |s.calls| && (s.calls[t].PopLock? || s.calls[t].PopLoad?) ==> |s.takes| < |s.puts|
    ensures forall t :: 0 <= t < |s.calls| && s.calls[t] != Idle && !s.calls[t].EqueueP? && s.calls[t] != PopP ==> s.cap > 0
  {
    forall t | 0 <= t < |s.calls|
      ensures Writing(s.calls[t]) <= Sum(s.calls, Writing) && Written(s.calls[t]) <= Sum(s.calls, Written)
      ensures Reading(s.calls[t]) <= Sum(s.calls, Reading) && HasRead(s.calls[t]) <= Sum(s.calls, HasRead)
    {
      SumMember(s.calls, t, Writing);
      SumMember(s.calls, t, Written);
      SumMember(s.calls, t, Reading);
      SumMember(s.calls, t, HasRead);
    }
  }

  /** A step of a thread outside a section, before and after, leaves the lock's owner as it is. */
  lemma OwnerKept<T>(lock: Option<nat>, calls: seq<Call<T>>, t: nat, c: Call<T>, inside: Call<T> -> bool)
    requires t < |calls| && Guarded(lock, calls, inside) && !inside(calls[t])
    ensures Owner(lock, calls[t := c]) == Owner(lock, calls)
  {
  }

  lemma PIndexKept<T>(s: Ring<T>, t: nat)
    requires Permits(s) && PLocked(s) && PIndex(s) && Ready(s, t) && NoFault(s, t) && InEqueue(s.calls[t])
    ensures PIndex(AdvanceEqueue(s, t))
  {
    RoomAndItems(s);
    if InPutSection(s.calls[t]) {
      assert Owner(s.pLock, s.calls) == s.calls[t];
      if s.calls[t].EqueueWrap? {
        SlotNext(|s.puts| - 1, s.cap);
      }
    } else {
      OwnerKept(s.pLock, s.calls, t, AdvanceEqueue(s, t).calls[t], InPutSection);
    }
  }

  lemma CIndexKept<T>(s: Ring<T>, t: nat)
    requires Permits(s) && CLocked(s) && CIndex(s) && Ready(s, t) && NoFault(s, t) && !InEqueue(s.calls[t])
    ensures CIndex(AdvancePop(s, t))
  {
    RoomAndItems(s);
    if InTakeSection(s.calls[t]) {
      assert Owner(s.cLock, s.calls) == s.calls[t];
      if s.calls[t].PopWrap? {
        SlotNext(|s.takes| - 1, s.cap);
      }
    } else {
      OwnerKept(s.cLock, s.calls, t, AdvancePop(s, t).calls[t], InTakeSection);
    }
  }

  /** Consumers do not disturb the producers' index ... */
  lemma PIndexAlways<T>(s: Ring<T>, a: Act<T>)
    requires Permits(s) && PLocked(s) && PIndex(s) && Enabled(s, a)
    ensures PIndex(Apply(s, a))
  {
    if a.Continue? && InEqueue(s.calls[a.t]) {
      PIndexKept(s, a.t);
    } else {
      OwnerKept(s.pLock, s.calls, a.t, Apply(s, a).calls[a.t], InPutSection);
    }
  }

  /** ... nor producers the consumers'. */
  lemma CIndexAlways<T>(s: Ring<T>, a: Act<T>)
    requires Permits(s) && CLocked(s) && CIndex(s) && Enabled(s, a)
    ensures CIndex(Apply(s, a))
  {
    if a.Continue? && !InEqueue(s.calls[a.t]) {
      CIndexKept(s, a.t);
    } else {
      OwnerKept(s.cLock, s.calls, a.t, Apply(s, a).calls[a.t], InTakeSection);
    }
  }

  /** The slot about to be written is that of the next put, the slot about to be read that of the next take. */
  lemma SlotsInUse<T>(s: Ring<T>, t: nat)
    requires t < |s.calls| && Permits(s) && PLocked(s) && CLocked(s) && PIndex(s) && CIndex(s) && Contents(s)
    ensures s.calls[t].EqueueStore? ==>
      s.pStep == Slot(|s.puts|, s.cap) < s.cap && |s.puts| < |s.takes| + s.cap
    ensures s.calls[t].PopLoad? ==>
      s.cStep == Slot(|s.takes|, s.cap) < s.cap && |s.takes| < |s.puts| && s.slots[s.cStep] == s.puts[|s.takes|]
  {
    RoomAndItems(s);
    assert s.calls[t].EqueueStore? ==> Owner(s.pLock, s.calls) == s.calls[t];
    assert s.calls[t].PopLoad? ==> Owner(s.cLock, s.calls) == s.calls[t];
  }

  lemma ContentsKept<T>(s: Ring<T>, t: nat, e: Fifo.Event<T>, s': Ring<T>)
    requires t < |s.calls| && t < |s'.calls| && s'.cap == s.cap
    requires Permits(s) && PLocked(s) && CLocked(s) && PIndex(s) && CIndex(s) && Contents(s)
    requires DataMoves(s, t, e, s')
    ensures Contents(s')
  {
    SlotsInUse(s, t);
    if e.Put? {
      var n := |s.puts|;
      forall k | |s.takes| <= k < n
        ensures s'.slots[Slot(k, s.cap)] == s'.puts[k]
      {
        SlotsDiffer(k, n, s.cap);
      }
    }
  }

  lemma FlowInKept<T>(s: Ring<T>, t: nat, e: Fifo.Event<T>, s': Ring<T>)
    requires t < |s.calls| && t < |s'.calls| && s'.calls == s.calls[t := s'.calls[t]]
    requires FlowIn(s) && DataMoves(s, t, e, s') && ItemsMove(s, t, e, s')
    ensures FlowIn(s')
  {
    BagMoves(s.calls, t, s'.calls[t], Bringing);
  }

  lemma FlowOutKept<T>(s: Ring<T>, t: nat, e: Fifo.Event<T>, s': Ring<T>)
    requires t < |s.calls| && t < |s'.calls| && s'.calls == s.calls[t := s'.calls[t]]
    requires FlowOut(s) && DataMoves(s, t, e, s') && ItemsMove(s, t, e, s')
    ensures FlowOut(s')
  {
    BagMoves(s.calls, t, s'.calls[t], Carrying);
  }

  lemma InvKept<T>(s: Ring<T>, a: Act<T>)
    requires Inv(s) && Enabled(s, a)
    ensures Inv(Apply(s, a))
  {
    var s', e := Apply(s, a), EventOf(s, a);
    StepMoves(s, a);
    PermitsKept(s, a.t, s');
    PLockKept(s, a);
    CLockKept(s, a);
    PIndexAlways(s, a);
    CIndexAlways(s, a);
    ContentsKept(s, a.t, e, s');
    FlowInKept(s, a.t, e, s');
    FlowOutKept(s, a.t, e, s');
  }

  lemma InvInit<T>(s: Ring<T>)
    requires Init(s)
    ensures Inv(s)
  {
    SumZero(s.calls, Writing);
    SumZero(s.calls, Written);
    SumZero(s.calls, Reading);
    SumZero(s.calls, HasRead);
    BagEmpty(s.calls, Bringing);
    BagEmpty(s.calls, Carrying);
  }
}
