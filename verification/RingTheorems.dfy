/** What the ring queue promises over every run: any capacity, any number of threads, any schedule. */
module RingTheorems {
  import opened Tally
  import opened RingMachine
  import Fifo

  /** The items in the ring, oldest first. */
  function Queue<T>(s: Ring<T>): seq<T>
    requires |s.takes| <= |s.puts|
  {
    s.puts[|s.takes|..]
  }

  /** The events an observer of the data sees while the schedule is carried out. */
  function Events<T>(s: Ring<T>, acts: seq<Act<T>>): seq<Fifo.Event<T>>
    decreases |acts|
  {
    if acts == [] || !Enabled(s, acts[0]) then []
    else [EventOf(s, acts[0])] + Events(Apply(s, acts[0]), acts[1..])
  }

  lemma DataRefinesFifo<T>(s: Ring<T>, t: nat, e: Fifo.Event<T>, s': Ring<T>)
    requires t < |s.calls| && t < |s'.calls| && Inv(s) && DataMoves(s, t, e, s')
    ensures |s'.takes| <= |s'.puts| && Fifo.Step(s.cap, Queue(s), e, Queue(s'))
    ensures s'.puts == s.puts + Fifo.PutOf(e) && s'.takes == s.takes + Fifo.TakeOf(e)
  {
    SlotsInUse(s, t);
  }

  /** A single statement is at most one put or one take of a bounded queue, whatever the other
      threads are in the middle of. */
  lemma StepRefinesFifo<T>(s: Ring<T>, a: Act<T>)
    requires Inv(s) && Enabled(s, a)
    ensures Inv(Apply(s, a)) && Apply(s, a).cap == s.cap
    ensures Fifo.Step(s.cap, Queue(s), EventOf(s, a), Queue(Apply(s, a)))
    ensures Apply(s, a).puts == s.puts + Fifo.PutOf(EventOf(s, a))
    ensures Apply(s, a).takes == s.takes + Fifo.TakeOf(EventOf(s, a))
  {
    InvKept(s, a);
    StepMoves(s, a);
    DataRefinesFifo(s, a.t, EventOf(s, a), Apply(s, a));
  }

  lemma {:induction false} RunRefinesFifo<T(!new)>(s: Ring<T>, acts: seq<Act<T>>, last: Ring<T>)
    requires Inv(s) && Run(s, acts, last)
    ensures Inv(last) && last.cap == s.cap
    ensures Fifo.Run(s.cap, Queue(s), Events(s, acts), Queue(last))
    ensures last.puts == s.puts + Fifo.Puts(Events(s, acts))
    ensures last.takes == s.takes + Fifo.Takes(Events(s, acts))
    decreases |acts|
  {
    if acts != [] {
      var mid, e := Apply(s, acts[0]), EventOf(s, acts[0]);
      StepRefinesFifo(s, acts[0]);
      RunRefinesFifo(mid, acts[1..], last);
      Fifo.RunExtend(s.cap, Queue(s), e, Queue(mid), Events(mid, acts[1..]), Queue(last));
      Fifo.Grow(s.puts, Fifo.PutOf(e), Fifo.Puts(Events(mid, acts[1..])));
      Fifo.Grow(s.takes, Fifo.TakeOf(e), Fifo.Takes(Events(mid, acts[1..])));
    }
  }

  lemma Reached<T(!new)>(s: Ring<T>, acts: seq<Act<T>>, last: Ring<T>)
    requires Init(s) && Run(s, acts, last)
    ensures Inv(last) && last.cap == s.cap
  {
    InvInit(s);
    RunRefinesFifo(s, acts, last);
  }

  /** From a freshly built queue, every schedule of every set of threads behaves like one bounded
      FIFO: the values taken in `_cmutex` order are a prefix of the values put in `_pmutex` order,
      never more than `cap` behind, and what lies in between is stored in the ring. */
  lemma RingIsBoundedFifo<T(!new)>(s: Ring<T>, acts: seq<Act<T>>, last: Ring<T>)
    requires Init(s) && Run(s, acts, last)
    ensures last.takes <= last.puts && |last.puts| - |last.takes| <= s.cap
    ensures exists es :: Fifo.Run(s.cap, [], es, last.puts[|last.takes|..]) && Fifo.Puts(es) == last.puts && Fifo.Takes(es) == last.takes
    ensures forall k :: |last.takes| <= k < |last.puts| ==> Slot(k, s.cap) < |last.slots| && last.slots[Slot(k, s.cap)] == last.puts[k]
  {
    InvInit(s);
    RunRefinesFifo(s, acts, last);
    var es := Events(s, acts);
    assert Queue(s) == [];
    assert Fifo.Puts(es) == last.puts && Fifo.Takes(es) == last.takes;
    Fifo.TakesFollowPuts(s.cap, [], es, Queue(last));
    assert last.puts == last.takes + Queue(last) && |Queue(last)| <= s.cap;
  }

  // ---- what the schedule asked for, and what became of it ----

  /** The items of the calls of `Equeue` in a schedule, in the order of the calls. */
  function Items<T>(acts: seq<Act<T>>): seq<T> {
    if acts == [] then [] else (if acts[0].CallEqueue? then [acts[0].item] else []) + Items(acts[1..])
  }

  function PopCalls<T>(acts: seq<Act<T>>): nat {
    if acts == [] then 0 else (if acts[0].CallPop? then 1 else 0) + PopCalls(acts[1..])
  }

  /** The statements executed in a schedule, as opposed to the calls begun. */
  function Statements<T>(acts: seq<Act<T>>): nat {
    if acts == [] then 0 else (if acts[0].Continue? then 1 else 0) + Statements(acts[1..])
  }

  function Popping<T>(c: Call<T>): nat { if c == Idle || InEqueue(c) then 0 else 1 }

  /** How many of the seven statements of its call a thread still has before it. */
  function Left<T>(c: Call<T>): nat {
    match c
    case Idle => 0
    case EqueueP(_) => 7
    case EqueueLock(_) => 6
    case EqueueStore(_) => 5
    case EqueueBump => 4
    case EqueueWrap => 3
    case EqueueUnlock => 2
    case EqueueV => 1
    case PopP => 7
    case PopLock => 6
    case PopLoad => 5
    case PopBump(_) => 4
    case PopWrap(_) => 3
    case PopUnlock(_) => 2
    case PopV(_) => 1
  }

  /** One act, as the thread that takes it sees it. */
  ghost predicate Counts<T>(s: Ring<T>, a: Act<T>, s': Ring<T>)
    requires a.t < |s.calls| && a.t < |s'.calls|
  {
    var c, c' := s.calls[a.t], s'.calls[a.t];
    && s'.calls == s.calls[a.t := c']
    && s'.offered == s.offered + (if a.CallEqueue? then [a.item] else [])
    && |s'.returned| + Popping(c') == |s.returned| + Popping(c) + (if a.CallPop? then 1 else 0)
    && Left(c') + (if a.Continue? then 1 else 0) == Left(c) + (if a.Continue? then 0 else 7)
  }

  lemma StepCounts<T>(s: Ring<T>, a: Act<T>)
    requires Enabled(s, a)
    ensures Counts(s, a, Apply(s, a))
  {
    if a.Continue? {
      if InEqueue(s.calls[a.t]) {
        EqueueCounts(s, a.t);
      } else {
        PopCounts(s, a.t);
      }
    }
  }

  lemma EqueueCounts<T>(s: Ring<T>, t: nat)
    requires Ready(s, t) && NoFault(s, t) && InEqueue(s.calls[t])
    ensures Counts(s, Continue(t), AdvanceEqueue(s, t))
  {
  }

  lemma PopCounts<T>(s: Ring<T>, t: nat)
    requires Ready(s, t) && NoFault(s, t) && !InEqueue(s.calls[t])
    ensures Counts(s, Continue(t), AdvancePop(s, t))
  {
  }

  lemma {:induction false} RunCounts<T>(s: Ring<T>, acts: seq<Act<T>>, last: Ring<T>)
    requires Run(s, acts, last)
    ensures last.offered == s.offered + Items(acts)
    ensures |last.returned| + Sum(last.calls, Popping) == |s.returned| + Sum(s.calls, Popping) + PopCalls(acts)
    ensures Statements(acts) + Sum(last.calls, Left) == Sum(s.calls, Left) + 7 * (|acts| - Statements(acts))
    decreases |acts|
  {
    if acts != [] {
      var a, mid := acts[0], Apply(s, acts[0]);
      StepCounts(s, a);
      SumUpdate(s.calls, a.t, mid.calls[a.t], Popping);
      SumUpdate(s.calls, a.t, mid.calls[a.t], Left);
      RunCounts(mid, acts[1..], last);
      Fifo.Grow(s.offered, if a.CallEqueue? then [a.item] else [], Items(acts[1..]));
    }
  }

  /** Every call counts, whatever the state it is begun in: what has been offered is what the calls of
      `Equeue` passed, every call of `Pop` has returned an item or is still inside, and every call takes
      exactly seven statements, so none is lost, repeated or cut short. */
  lemma EveryCallCounts<T>(s: Ring<T>, acts: seq<Act<T>>, last: Ring<T>)
    requires Init(s) && Run(s, acts, last)
    ensures last.offered == Items(acts)
    ensures |last.returned| + Sum(last.calls, Popping) == PopCalls(acts)
    ensures Statements(acts) + Sum(last.calls, Left) == 7 * (|acts| - Statements(acts))
  {
    SumZero(s.calls, Popping);
    SumZero(s.calls, Left);
    RunCounts(s, acts, last);
  }

  /** A thread outside both calls can always begin either, however full or empty the ring, and is then inside it. */
  lemma IdleMayCall<T>(s: Ring<T>, t: nat, item: T)
    requires t < |s.calls| && s.calls[t] == Idle
    ensures Enabled(s, CallEqueue(t, item)) && Bringing(Apply(s, CallEqueue(t, item)).calls[t]) == Some(item)
    ensures Enabled(s, CallPop(t)) && Popping(Apply(s, CallPop(t)).calls[t]) == 1
  {
  }

  lemma Regrouped<T>(offered: multiset<T>, bringing: multiset<T>, puts: multiset<T>, takes: multiset<T>,
                     queue: multiset<T>, carrying: multiset<T>, returned: multiset<T>)
    requires offered == bringing + puts && puts == takes + queue && takes == carrying + returned
    ensures offered == bringing + queue + carrying + returned
  {
  }

  lemma StateConserves<T>(s: Ring<T>)
    requires Contents(s) && FlowIn(s) && FlowOut(s)
    ensures multiset(s.offered)
         == Bag(s.calls, Bringing) + multiset(Queue(s)) + Bag(s.calls, Carrying) + multiset(s.returned)
  {
    assert s.puts == s.takes + Queue(s);
    Regrouped(multiset(s.offered), Bag(s.calls, Bringing), multiset(s.puts), multiset(s.takes),
              multiset(Queue(s)), Bag(s.calls, Carrying), multiset(s.returned));
  }

  /** No item is lost, duplicated or invented: whatever the calls of `Equeue` passed is still being
      brought in, stored, being carried out, or returned by `Pop`, each as often as it was passed. */
  lemma ItemsConserved<T(!new)>(s: Ring<T>, acts: seq<Act<T>>, last: Ring<T>)
    requires Init(s) && Run(s, acts, last)
    ensures |last.takes| <= |last.puts|
    ensures multiset(Items(acts)) == Bag(last.calls, Bringing) + multiset(Queue(last))
                                     + Bag(last.calls, Carrying) + multiset(last.returned)
  {
    Reached(s, acts, last);
    EveryCallCounts(s, acts, last);
    StateConserves(last);
  }

  lemma NextStatementSafe<T>(s: Ring<T>, t: nat)
    requires Inv(s) && Ready(s, t)
    ensures NoFault(s, t)
  {
    RoomAndItems(s);
    SlotsInUse(s, t);
  }

  /** No reachable state indexes outside the vector or divides by zero, for any capacity. */
  lemma NeverFaults<T(!new)>(s: Ring<T>, acts: seq<Act<T>>, last: Ring<T>, t: nat)
    requires Init(s) && Run(s, acts, last) && Ready(last, t)
    ensures NoFault(last, t)
  {
    Reached(s, acts, last);
    NextStatementSafe(last, t);
  }

  lemma SectionsExclude<T>(s: Ring<T>, p: nat, c: nat)
    requires Inv(s) && p < |s.calls| && c < |s.calls|
    requires s.calls[p].EqueueStore? && s.calls[c].PopLoad?
    ensures s.pStep != s.cStep && s.pStep < |s.slots| && s.cStep < |s.slots|
    ensures 0 < |s.puts| - |s.takes| < s.cap
    ensures forall t :: 0 <= t < |s.calls| ==>
      (InPutSection(s.calls[t]) <==> t == p) && (InTakeSection(s.calls[t]) <==> t == c)
  {
    SlotsInUse(s, p);
    SlotsInUse(s, c);
    SlotsDiffer(|s.takes|, |s.puts|, s.cap);
  }

  /** The producer in its critical section and the consumer in its own, which share no lock, are at
      different slots; and no second producer or consumer is inside with them. */
  lemma SlotExclusion<T(!new)>(s: Ring<T>, acts: seq<Act<T>>, last: Ring<T>, p: nat, c: nat)
    requires Init(s) && Run(s, acts, last) && p < |last.calls| && c < |last.calls|
    requires last.calls[p].EqueueStore? && last.calls[c].PopLoad?
    ensures last.pStep != last.cStep && last.pStep < |last.slots| && last.cStep < |last.slots|
    ensures 0 < |last.puts| - |last.takes| < s.cap
    ensures forall t :: 0 <= t < |last.calls| ==>
      (InPutSection(last.calls[t]) <==> t == p) && (InTakeSection(last.calls[t]) <==> t == c)
  {
    Reached(s, acts, last);
    SectionsExclude(last, p, c);
  }

  /** Permits are conserved, and with its mutex free each index is the slot of the next item. */
  lemma PermitsConserved<T(!new)>(s: Ring<T>, acts: seq<Act<T>>, last: Ring<T>)
    requires Init(s) && Run(s, acts, last)
    ensures last.blank + last.date + Sum(last.calls, Writing) + Sum(last.calls, Written)
            + Sum(last.calls, Reading) + Sum(last.calls, HasRead) == s.cap
    ensures last.pLock == None ==> last.pStep == Slot(|last.puts|, s.cap)
    ensures last.cLock == None ==> last.cStep == Slot(|last.takes|, s.cap)
  {
    Reached(s, acts, last);
  }

  // ---- progress ----

  ghost predicate Stuck<T>(s: Ring<T>) { forall t :: 0 <= t < |s.calls| ==> !Ready(s, t) }

  /** Every thread inside a call waits for room in a full ring. */
  ghost predicate AllWaitForRoom<T>(s: Ring<T>) {
    && |s.puts| - |s.takes| == s.cap
    && forall t :: 0 <= t < |s.calls| ==> s.calls[t] == Idle || s.calls[t].EqueueP?
  }

  /** Every thread inside a call waits for an item of an empty ring. */
  ghost predicate AllWaitForItems<T>(s: Ring<T>) {
    && |s.puts| == |s.takes|
    && forall t :: 0 <= t < |s.calls| ==> s.calls[t] == Idle || s.calls[t] == PopP
  }

  /** A thread past its first semaphore is never held up for good: it or the lock's owner can go on. */
  lemma OnlySemaphoresBlock<T>(s: Ring<T>)
    requires PLocked(s) && CLocked(s) && Stuck(s)
    ensures forall t :: 0 <= t < |s.calls| ==> s.calls[t] == Idle || s.calls[t].EqueueP? || s.calls[t] == PopP
  {
    assert s.pLock.Some? ==> InPutSection(s.calls[s.pLock.value]) && !Ready(s, s.pLock.value);
    assert s.cLock.Some? ==> InTakeSection(s.calls[s.cLock.value]) && !Ready(s, s.cLock.value);
    forall t | 0 <= t < |s.calls|
      ensures s.calls[t] == Idle || s.calls[t].EqueueP? || s.calls[t] == PopP
    {
      assert !Ready(s, t);
    }
  }

  lemma NothingInFlight<T>(s: Ring<T>)
    requires Permits(s)
    requires forall t :: 0 <= t < |s.calls| ==> s.calls[t] == Idle || s.calls[t].EqueueP? || s.calls[t] == PopP
    ensures s.blank == s.cap - (|s.puts| - |s.takes|) && s.date == |s.puts| - |s.takes|
  {
    SumZero(s.calls, Writing);
    SumZero(s.calls, Written);
    SumZero(s.calls, Reading);
    SumZero(s.calls, HasRead);
  }

  lemma StuckWhen<T>(s: Ring<T>)
    requires Inv(s)
    ensures Stuck(s) <==>
      || AllWaitForRoom(s)
      || AllWaitForItems(s)
      || (forall t :: 0 <= t < |s.calls| ==> s.calls[t] == Idle)
      || (s.cap == 0 && forall t :: 0 <= t < |s.calls| ==> s.calls[t] == Idle || s.calls[t].EqueueP? || s.calls[t] == PopP)
  {
    if Stuck(s) {
      OnlySemaphoresBlock(s);
    }
    if forall t :: 0 <= t < |s.calls| ==> s.calls[t] == Idle || s.calls[t].EqueueP? || s.calls[t] == PopP {
      NothingInFlight(s);
      assert forall t :: 0 <= t < |s.calls| ==> (Ready(s, t) <==>
        (s.calls[t].EqueueP? && s.blank > 0) || (s.calls[t] == PopP && s.date > 0));
    }
  }

  /** Exactly when nobody can move: nobody is inside a call, all wait for room in a full ring, or
      all wait for items of an empty one; a capacity of zero lets both kinds wait at once. */
  lemma StuckExactly<T(!new)>(s: Ring<T>, acts: seq<Act<T>>, last: Ring<T>)
    requires Init(s) && Run(s, acts, last)
    ensures Stuck(last) <==>
      || AllWaitForRoom(last)
      || AllWaitForItems(last)
      || (forall t :: 0 <= t < |last.calls| ==> last.calls[t] == Idle)
      || (s.cap == 0 && forall t :: 0 <= t < |last.calls| ==> last.calls[t] == Idle || last.calls[t].EqueueP? || last.calls[t] == PopP)
  {
    Reached(s, acts, last);
    StuckWhen(last);
  }

  lemma ConsumersMove<T>(s: Ring<T>)
    requires CLocked(s)
    ensures (forall t :: 0 <= t < |s.calls| && Popping(s.calls[t]) == 1 ==> !Ready(s, t)) <==>
      forall t :: 0 <= t < |s.calls| && Popping(s.calls[t]) == 1 ==> s.calls[t] == PopP && s.date == 0
  {
    if s.cLock.Some? {
      var o := s.cLock.value;
      assert InTakeSection(s.calls[o]) && Popping(s.calls[o]) == 1 && Ready(s, o);
    }
  }

  lemma ProducersMove<T>(s: Ring<T>)
    requires PLocked(s)
    ensures (forall t :: 0 <= t < |s.calls| && InEqueue(s.calls[t]) ==> !Ready(s, t)) <==>
      forall t :: 0 <= t < |s.calls| && InEqueue(s.calls[t]) ==> s.calls[t].EqueueP? && s.blank == 0
  {
    if s.pLock.Some? {
      var o := s.pLock.value;
      assert InPutSection(s.calls[o]) && InEqueue(s.calls[o]) && Ready(s, o);
    }
  }

  /** Producers and consumers share no lock: the consumers as such are stuck only if all of them wait for
      an item and there is no permit for one, whatever the producers do, and the other way round. */
  lemma RolesIndependent<T(!new)>(s: Ring<T>, acts: seq<Act<T>>, last: Ring<T>)
    requires Init(s) && Run(s, acts, last)
    ensures (forall t :: 0 <= t < |last.calls| && Popping(last.calls[t]) == 1 ==> !Ready(last, t)) <==>
      forall t :: 0 <= t < |last.calls| && Popping(last.calls[t]) == 1 ==> last.calls[t] == PopP && last.date == 0
    ensures (forall t :: 0 <= t < |last.calls| && InEqueue(last.calls[t]) ==> !Ready(last, t)) <==>
      forall t :: 0 <= t < |last.calls| && InEqueue(last.calls[t]) ==> last.calls[t].EqueueP? && last.blank == 0
  {
    Reached(s, acts, last);
    ConsumersMove(last);
    ProducersMove(last);
  }

  /** With room for at least one item, a producer and a consumer inside their calls never deadlock. */
  lemma NoDeadlock<T(!new)>(s: Ring<T>, acts: seq<Act<T>>, last: Ring<T>, p: nat, c: nat)
    requires Init(s) && s.cap >= 1 && Run(s, acts, last) && p < |last.calls| && c < |last.calls|
    requires InEqueue(last.calls[p]) && last.calls[c] != Idle && !InEqueue(last.calls[c])
    ensures exists t :: 0 <= t < |last.calls| && Ready(last, t) && NoFault(last, t)
  {
    StuckExactly(s, acts, last);
    var t :| 0 <= t < |last.calls| && Ready(last, t);
    NeverFaults(s, acts, last, t);
  }
}
