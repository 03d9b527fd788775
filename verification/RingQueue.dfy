/** The ring queue itself: its fields, and its statements carried out in place. */
module RingQueues {
  import opened Tally
  import opened RingMachine
  import opened RingTheorems

  /** The state after one whole `Equeue` that nobody interrupts ... */
  function Enqueued<T>(s: Ring<T>, item: T): Ring<T>
    requires s.blank > 0 && s.cap > 0 && s.pStep < |s.slots|
  {
    s.(blank := s.blank - 1, slots := s.slots[s.pStep := item], pStep := (s.pStep + 1) % s.cap,
       date := s.date + 1, puts := s.puts + [item], offered := s.offered + [item])
  }

  /** ... and after one whole `Pop`. */
  function Popped<T>(s: Ring<T>): Ring<T>
    requires s.date > 0 && s.cap > 0 && s.cStep < |s.slots|
  {
    var out := s.slots[s.cStep];
    s.(date := s.date - 1, cStep := (s.cStep + 1) % s.cap, blank := s.blank + 1,
       takes := s.takes + [out], returned := s.returned + [out])
  }

  /** A schedule carried out with the acts that are not possible at their turn skipped. */
  function After<T>(s: Ring<T>, acts: seq<Act<T>>): Ring<T>
    decreases |acts|
  {
    if acts == [] then s
    else After(if Enabled(s, acts[0]) then Apply(s, acts[0]) else s, acts[1..])
  }

  /** A schedule possible at every turn is carried out whole. */
  lemma {:induction false} RunIsAfter<T>(s: Ring<T>, acts: seq<Act<T>>, last: Ring<T>)
    requires Run(s, acts, last)
    ensures After(s, acts) == last
    decreases |acts|
  {
    if acts != [] {
      RunIsAfter(Apply(s, acts[0]), acts[1..], last);
    }
  }

  /** The acts of thread `t` in one whole call: the call itself and its seven statements. */
  function Script<T>(call: Act<T>): seq<Act<T>> {
    var c := Continue(call.t);
    [call, c, c, c, c, c, c, c]
  }

  lemma RunFirst<T>(s: Ring<T>, a: Act<T>, acts: seq<Act<T>>, last: Ring<T>)
    requires Enabled(s, a) && Run(Apply(s, a), acts, last)
    ensures Run(s, [a] + acts, last)
  {
    assert ([a] + acts)[1..] == acts;
  }

  lemma RunTwo<T>(s: Ring<T>, a: Act<T>, b: Act<T>, acts: seq<Act<T>>, last: Ring<T>)
    requires Enabled(s, a) && Enabled(Apply(s, a), b) && Run(Apply(Apply(s, a), b), acts, last)
    ensures Run(s, [a, b] + acts, last)
  {
    RunFirst(Apply(s, a), b, acts, last);
    RunFirst(s, a, [b] + acts, last);
    assert [a] + ([b] + acts) == [a, b] + acts;
  }

  lemma EqueueEnds<T>(s: Ring<T>, t: nat)
    requires t < |s.calls| && s.calls[t].EqueueUnlock?
    ensures Run(s, [Continue(t), Continue(t)], Goto(s, t, Idle).(pLock := None, date := s.date + 1))
  {
    var last := Goto(s, t, Idle).(pLock := None, date := s.date + 1);
    assert Apply(Apply(s, Continue(t)), Continue(t)) == last;
    RunTwo(s, Continue(t), Continue(t), [], last);
  }

  lemma EqueueMovesOn<T>(s: Ring<T>, t: nat)
    requires t < |s.calls| && s.calls[t].EqueueBump? && s.cap > 0
    ensures var c := Continue(t);
      Run(s, [c, c, c, c], Goto(s, t, Idle).(pStep := (s.pStep + 1) % s.cap, pLock := None, date := s.date + 1))
  {
    var c, mid := Continue(t), Goto(s, t, EqueueUnlock).(pStep := (s.pStep + 1) % s.cap);
    var last := Goto(s, t, Idle).(pStep := (s.pStep + 1) % s.cap, pLock := None, date := s.date + 1);
    assert Apply(Apply(s, c), c) == mid;
    EqueueEnds(mid, t);
    assert Goto(mid, t, Idle).(pLock := None, date := s.date + 1) == last;
    RunTwo(s, c, c, [c, c], last);
  }

  lemma EqueuePuts<T>(s: Ring<T>, t: nat)
    requires t < |s.calls| && s.calls[t].EqueueLock? && s.pLock == None && s.pStep < |s.slots|
    ensures var c, x := Continue(t), s.calls[t].item;
      Enabled(s, c) && Enabled(Apply(s, c), c)
      && Apply(Apply(s, c), c)
         == Goto(s, t, EqueueBump).(pLock := Some(t), slots := s.slots[s.pStep := x], puts := s.puts + [x])
  {
  }

  lemma EqueueWrites<T>(s: Ring<T>, t: nat)
    requires t < |s.calls| && s.calls[t].EqueueLock? && s.pLock == None && s.cap > 0 && s.pStep < |s.slots|
    ensures var c, x := Continue(t), s.calls[t].item;
      Run(s, [c, c, c, c, c, c], Goto(s, t, Idle).(slots := s.slots[s.pStep := x], puts := s.puts + [x],
          pStep := (s.pStep + 1) % s.cap, pLock := None, date := s.date + 1))
  {
    var c, x := Continue(t), s.calls[t].item;
    var mid := Goto(s, t, EqueueBump).(pLock := Some(t), slots := s.slots[s.pStep := x], puts := s.puts + [x]);
    EqueuePuts(s, t);
    EqueueMovesOn(mid, t);
    var last := Goto(mid, t, Idle).(pStep := (s.pStep + 1) % s.cap, pLock := None, date := s.date + 1);
    RunTwo(s, c, c, [c, c, c, c], last);
    assert last.calls == s.calls[t := Idle];
  }

  /** A call nobody interrupts is one run of the machine. */
  lemma EqueueIsRun<T>(s: Ring<T>, t: nat, item: T)
    requires t < |s.calls| && s.calls[t] == Idle && s.blank > 0 && s.pLock == None
    requires s.cap > 0 && s.pStep < |s.slots|
    ensures Run(s, Script(CallEqueue(t, item)), Enqueued(s, item))
  {
    var c, mid := Continue(t), Goto(s, t, EqueueLock(item)).(blank := s.blank - 1, offered := s.offered + [item]);
    assert Apply(Apply(s, CallEqueue(t, item)), c) == mid;
    EqueueWrites(mid, t);
    assert mid.calls[t := Idle] == s.calls;
    RunTwo(s, CallEqueue(t, item), c, [c, c, c, c, c, c], Enqueued(s, item));
  }

  lemma PopEnds<T>(s: Ring<T>, t: nat)
    requires t < |s.calls| && s.calls[t].PopUnlock?
    ensures Run(s, [Continue(t), Continue(t)],
                Goto(s, t, Idle).(cLock := None, blank := s.blank + 1, returned := s.returned + [s.calls[t].out]))
  {
    var last := Goto(s, t, Idle).(cLock := None, blank := s.blank + 1, returned := s.returned + [s.calls[t].out]);
    assert Apply(Apply(s, Continue(t)), Continue(t)) == last;
    RunTwo(s, Continue(t), Continue(t), [], last);
  }

  lemma PopMovesOn<T>(s: Ring<T>, t: nat)
    requires t < |s.calls| && s.calls[t].PopBump? && s.cap > 0
    ensures var c := Continue(t);
      Run(s, [c, c, c, c], Goto(s, t, Idle).(cStep := (s.cStep + 1) % s.cap, cLock := None,
          blank := s.blank + 1, returned := s.returned + [s.calls[t].out]))
  {
    var c, x := Continue(t), s.calls[t].out;
    var mid := Goto(s, t, PopUnlock(x)).(cStep := (s.cStep + 1) % s.cap);
    assert Apply(Apply(s, c), c) == mid;
    PopEnds(mid, t);
    var last := Goto(mid, t, Idle).(cLock := None, blank := s.blank + 1, returned := s.returned + [x]);
    RunTwo(s, c, c, [c, c], last);
    assert last.calls == s.calls[t := Idle];
  }

  lemma PopTakes<T>(s: Ring<T>, t: nat)
    requires t < |s.calls| && s.calls[t].PopLock? && s.cLock == None && s.cStep < |s.slots|
    ensures var c, x := Continue(t), s.slots[s.cStep];
      Enabled(s, c) && Enabled(Apply(s, c), c)
      && Apply(Apply(s, c), c) == Goto(s, t, PopBump(x)).(cLock := Some(t), takes := s.takes + [x])
  {
  }

  lemma PopReads<T>(s: Ring<T>, t: nat)
    requires t < |s.calls| && s.calls[t].PopLock? && s.cLock == None && s.cap > 0 && s.cStep < |s.slots|
    ensures var c, x := Continue(t), s.slots[s.cStep];
      Run(s, [c, c, c, c, c, c], Goto(s, t, Idle).(takes := s.takes + [x], cStep := (s.cStep + 1) % s.cap,
          cLock := None, blank := s.blank + 1, returned := s.returned + [x]))
  {
    var c, x := Continue(t), s.slots[s.cStep];
    var mid := Goto(s, t, PopBump(x)).(cLock := Some(t), takes := s.takes + [x]);
    PopTakes(s, t);
    PopAfterTake(s, mid, t);
    RunTwo(s, c, c, [c, c, c, c], Goto(s, t, Idle).(takes := s.takes + [x], cStep := (s.cStep + 1) % s.cap,
           cLock := None, blank := s.blank + 1, returned := s.returned + [x]));
  }

  lemma PopAfterTake<T>(s: Ring<T>, mid: Ring<T>, t: nat)
    requires t < |s.calls| && s.cap > 0 && s.cStep < |s.slots|
    requires mid == Goto(s, t, PopBump(s.slots[s.cStep])).(cLock := Some(t), takes := s.takes + [s.slots[s.cStep]])
    ensures var c, x := Continue(t), s.slots[s.cStep];
      Run(mid, [c, c, c, c], Goto(s, t, Idle).(takes := s.takes + [x], cStep := (s.cStep + 1) % s.cap,
          cLock := None, blank := s.blank + 1, returned := s.returned + [x]))
  {
    PopMovesOn(mid, t);
    assert mid.calls[t := Idle] == s.calls[t := Idle];
  }

  lemma PopStarts<T>(s: Ring<T>, t: nat)
    requires t < |s.calls| && s.calls[t] == Idle && s.date > 0
    ensures var c := Continue(t);
      Enabled(s, CallPop(t)) && Enabled(Apply(s, CallPop(t)), c)
      && Apply(Apply(s, CallPop(t)), c) == Goto(s, t, PopLock).(date := s.date - 1)
  {
  }

  lemma PopAfterPermit<T>(s: Ring<T>, mid: Ring<T>, t: nat)
    requires t < |s.calls| && s.calls[t] == Idle && s.date > 0 && s.cLock == None
    requires s.cap > 0 && s.cStep < |s.slots| && mid == Goto(s, t, PopLock).(date := s.date - 1)
    ensures var c := Continue(t);
      Run(mid, [c, c, c, c, c, c], Popped(s))
  {
    PopReads(mid, t);
    assert mid.calls[t := Idle] == s.calls;
  }

  lemma PopIsRun<T>(s: Ring<T>, t: nat)
    requires t < |s.calls| && s.calls[t] == Idle && s.date > 0 && s.cLock == None
    requires s.cap > 0 && s.cStep < |s.slots|
    ensures Run(s, Script(CallPop(t)), Popped(s))
  {
    var c := Continue(t);
    PopStarts(s, t);
    PopAfterPermit(s, Goto(s, t, PopLock).(date := s.date - 1), t);
    RunTwo(s, CallPop(t), c, [c, c, c, c, c, c], Popped(s));
  }

  /** Between calls, a free permit and a free lock mean a slot in range, holding the right item. */
  lemma CallsFit<T>(s: Ring<T>)
    requires Inv(s)
    ensures s.blank > 0 && s.pLock == None ==> s.cap > 0 && s.pStep < |s.slots|
    ensures s.date > 0 && s.cLock == None ==>
      s.cap > 0 && s.cStep < |s.slots| && |s.takes| < |s.puts| && s.slots[s.cStep] == s.puts[|s.takes|]
  {
    RoomAndItems(s);
  }

  lemma EqueueCall<T(!new)>(s: Ring<T>, t: nat, item: T)
    requires Inv(s) && t < |s.calls| && s.calls[t] == Idle && s.blank > 0 && s.pLock == None
    ensures s.cap > 0 && s.pStep < |s.slots|
    ensures Inv(Enqueued(s, item)) && Run(s, Script(CallEqueue(t, item)), Enqueued(s, item))
  {
    CallsFit(s);
    EqueueIsRun(s, t, item);
    RunRefinesFifo(s, Script(CallEqueue(t, item)), Enqueued(s, item));
  }

  lemma PopCall<T(!new)>(s: Ring<T>, t: nat)
    requires Inv(s) && t < |s.calls| && s.calls[t] == Idle && s.date > 0 && s.cLock == None
    ensures s.cap > 0 && s.cStep < |s.slots| && |s.takes| < |s.puts| && s.slots[s.cStep] == s.puts[|s.takes|]
    ensures Inv(Popped(s)) && Run(s, Script(CallPop(t)), Popped(s))
  {
    CallsFit(s);
    PopIsRun(s, t);
    RunRefinesFifo(s, Script(CallPop(t)), Popped(s));
  }

  class RingQueue<T(0,!new)> {
    var slots: array<T>
    const cap: nat
    var blank: nat
    var date: nat
    var pStep: nat
    var cStep: nat
    var pLock: Option<nat>
    var cLock: Option<nat>
    var calls: seq<Call<T>>
    ghost var puts: seq<T>
    ghost var takes: seq<T>
    ghost var offered: seq<T>
    ghost var returned: seq<T>

    ghost function View(): Ring<T>
      reads this, slots
    {
      Ring(cap, slots[..], blank, date, pStep, cStep, pLock, cLock, calls, puts, takes, offered, returned)
    }

    ghost predicate Valid()
      reads this, slots
    {
      Inv(View())
    }

    constructor (cap: nat, threads: nat)
      ensures Init(View()) && Valid() && this.cap == cap && |calls| == threads && fresh(slots)
    {
      this.cap := cap;
      slots := new T[cap];
      blank, date, pStep, cStep := cap, 0, 0, 0;
      pLock, cLock := None, None;
      calls := seq(threads, _ => Idle);
      puts, takes, offered, returned := [], [], [], [];
      new;
      InvInit(View());
    }

    /** Neither semaphore nor mutex holds thread `t` up. */
    predicate MayContinue(t: nat)
      reads this, slots
      ensures MayContinue(t) == Ready(View(), t)
    {
      t < |calls| &&
      match calls[t]
      case Idle => false
      case EqueueP(_) => blank > 0
      case EqueueLock(_) => pLock.None?
      case PopP => date > 0
      case PopLock => cLock.None?
      case _ => true
    }

    /** Thread `t` inside `Equeue` executes its next statement. */
    method ContinueEqueue(t: nat)
      requires Ready(View(), t) && NoFault(View(), t) && InEqueue(calls[t])
      modifies this, slots
      ensures slots == old(slots) && View() == AdvanceEqueue(old(View()), t)
    {
      match calls[t]
      case EqueueP(x) => blank := blank - 1; calls := calls[t := EqueueLock(x)];
      case EqueueLock(x) => pLock := Some(t); calls := calls[t := EqueueStore(x)];
      case EqueueStore(x) => slots[pStep] := x; puts := puts + [x]; calls := calls[t := EqueueBump];
      case EqueueBump => pStep := pStep + 1; calls := calls[t := EqueueWrap];
      case EqueueWrap => pStep := pStep % cap; calls := calls[t := EqueueUnlock];
      case EqueueUnlock => pLock := None; calls := calls[t := EqueueV];
      case EqueueV => date := date + 1; calls := calls[t := Idle];
    }

    /** Thread `t` inside `Pop` executes its next statement. */
    method ContinuePop(t: nat)
      requires Ready(View(), t) && NoFault(View(), t) && !InEqueue(calls[t])
      modifies this
      ensures slots == old(slots) && View() == AdvancePop(old(View()), t)
    {
      match calls[t]
      case PopP => date := date - 1; calls := calls[t := PopLock];
      case PopLock => cLock := Some(t); calls := calls[t := PopLoad];
      case PopLoad => takes := takes + [slots[cStep]]; calls := calls[t := PopBump(slots[cStep])];
      case PopBump(x) => cStep := cStep + 1; calls := calls[t := PopWrap(x)];
      case PopWrap(x) => cStep := cStep % cap; calls := calls[t := PopUnlock(x)];
      case PopUnlock(x) => cLock := None; calls := calls[t := PopV(x)];
      case PopV(x) => blank := blank + 1; returned := returned + [x]; calls := calls[t := Idle];
    }

    /** A thread outside both calls enters one of them. */
    method Begin(a: Act<T>)
      requires !a.Continue?
      modifies `offered, `calls
      ensures View() == if old(Enabled(View(), a)) then Apply(old(View()), a) else old(View())
    {
      if a.t < |calls| && calls[a.t].Idle? {
        if a.CallEqueue? {
          offered := offered + [a.item];
          calls := calls[a.t := EqueueP(a.item)];
        } else {
          calls := calls[a.t := PopP];
        }
      }
    }

    /** One act, unless it is not possible now. */
    method Step(a: Act<T>)
      requires Valid()
      modifies this, slots
      ensures Valid() && slots == old(slots)
      ensures View() == if old(Enabled(View(), a)) then Apply(old(View()), a) else old(View())
    {
      ghost var s := View();
      if Enabled(s, a) {
        InvKept(s, a);
      }
      if !a.Continue? {
        Begin(a);
      } else if MayContinue(a.t) {
        NextStatementSafe(s, a.t);
        if InEqueue(calls[a.t]) {
          ContinueEqueue(a.t);
        } else {
          ContinuePop(a.t);
        }
      }
    }

    /** Any interleaving of any number of calls: whatever the schedule, the ring stays a bounded FIFO. */
    method Interleave(acts: seq<Act<T>>)
      requires Valid()
      modifies this, slots
      ensures Valid() && slots == old(slots)
      ensures View() == After(old(View()), acts)
      ensures takes <= puts && |puts| - |takes| <= cap
    {
      for i := 0 to |acts|
        invariant Valid() && slots == old(slots)
        invariant After(View(), acts[i..]) == After(old(View()), acts)
      {
        Step(acts[i]);
        assert acts[i..][1..] == acts[i + 1..];
      }
      RoomAndItems(View());
    }

    /** `Equeue` past its semaphore and its mutex, in place. */
    method Produce(item: T)
      requires blank > 0 && cap > 0 && pStep < slots.Length
      modifies this, slots
      ensures slots == old(slots) && View() == Enqueued(old(View()), item)
    {
      blank := blank - 1;
      slots[pStep] := item;
      pStep := pStep + 1;
      pStep := pStep % cap;
      date := date + 1;
      puts, offered := puts + [item], offered + [item];
    }

    /** `Pop` past its semaphore and its mutex, in place. */
    method Consume() returns (out: T)
      requires date > 0 && cap > 0 && cStep < slots.Length
      modifies this
      ensures slots == old(slots) && out == slots[old(cStep)] && View() == Popped(old(View()))
    {
      date := date - 1;
      out := slots[cStep];
      cStep := cStep + 1;
      cStep := cStep % cap;
      blank := blank + 1;
      takes, returned := takes + [out], returned + [out];
    }

    /** A whole call of `Equeue` by thread `t` while the other threads stand still is one run of the
        machine. It comes back unless the semaphore or the mutex holds it up, and then nothing has changed. */
    method Equeue(t: nat, item: T) returns (done: bool)
      requires Valid() && t < |calls| && calls[t].Idle?
      modifies this, slots
      ensures Valid() && slots == old(slots)
      ensures done <==> old(blank) > 0 && old(pLock) == None
      ensures done ==> puts == old(puts) + [item] && takes == old(takes)
      ensures done ==> Run(old(View()), Script(CallEqueue(t, item)), View())
      ensures !done ==> View() == old(View())
    {
      done := blank > 0 && pLock.None?;
      if done {
        EqueueCall(View(), t, item);
        Produce(item);
      }
    }

    /** A whole call of `Pop` by thread `t` while the other threads stand still. */
    method Pop(t: nat) returns (done: bool, out: Option<T>)
      requires Valid() && t < |calls| && calls[t].Idle?
      modifies this
      ensures Valid() && slots == old(slots)
      ensures done <==> old(date) > 0 && old(cLock) == None
      ensures done ==> |old(takes)| < |old(puts)| && out == Some(old(puts)[|old(takes)|])
      ensures done ==> puts == old(puts) && takes == old(takes) + [out.value]
      ensures done ==> Run(old(View()), Script(CallPop(t)), View())
      ensures !done ==> View() == old(View())
    {
      done, out := date > 0 && cLock.None?, None;
      if done {
        PopCall(View(), t);
        var item := Consume();
        out := Some(item);
      }
    }
  }
}
