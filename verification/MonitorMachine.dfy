/** The blocking queue as a state machine: any number of producers and consumers around one mutex.
    All of its fields are guarded by the mutex, so a step is a critical section: from acquiring the
    mutex, at the start of a call or on return from a wait, to giving it up, by waiting or returning. */
module MonitorMachine {
  import opened Tally
  import Fifo

  /** `Waiting` threads are blocked on their condition; `Woken` ones have been signalled, or woken
      spuriously, and compete for the mutex with newcomers. */
  datatype Call<+T> =
    | Idle
    | PEnter(item: T) | PWaiting(item: T) | PWoken(item: T)
    | CEnter | CWaiting | CWoken

  datatype Monitor<T> = Monitor(
    cap: int, queue: seq<T>, csleep: int, psleep: int, calls: seq<Call<T>>,
    offered: seq<T>, puts: seq<T>, takes: seq<T>)

  datatype Act<+T> =
    | CallEqueue(t: nat, item: T) | CallPop(t: nat)
    | Enter(t: nat, wake: nat)   // `wake`: the waiting thread a signal would reach
    | Spurious(t: nat)

  /** `_queue.size() == _cap` compares as `size_t`: a negative capacity is a huge one. */
  function Limit(cap: int): (n: nat)
    requires -0x8000_0000 <= cap
    ensures cap >= 0 ==> n == cap
    ensures cap < 0 ==> n == 0xFFFF_FFFF_FFFF_FFFF + cap + 1
  {
    if cap >= 0 then cap else cap + 0x1_0000_0000_0000_0000
  }

  predicate Init<T>(s: Monitor<T>) {
    && -0x8000_0000 <= s.cap && s.queue == [] && s.csleep == 0 && s.psleep == 0
    && s.offered == [] && s.puts == [] && s.takes == []
    && forall t :: 0 <= t < |s.calls| ==> s.calls[t] == Idle
  }

  function Goto<T>(s: Monitor<T>, t: nat, c: Call<T>): Monitor<T>
    requires t < |s.calls|
  {
    s.(calls := s.calls[t := c])
  }

  predicate Producing<T>(c: Call<T>) { c.PEnter? || c.PWoken? }
  predicate Consuming<T>(c: Call<T>) { c.CEnter? || c.CWoken? }
  function Back<T>(c: Call<T>): nat { if c.PWoken? || c.CWoken? then 1 else 0 }

  /** A producer's critical section, but for the signal. */
  function Produce<T>(s: Monitor<T>, t: nat): Monitor<T>
    requires -0x8000_0000 <= s.cap && t < |s.calls| && Producing(s.calls[t])
  {
    var c := s.calls[t];
    if |s.queue| == Limit(s.cap) then
      Goto(s, t, PWaiting(c.item)).(psleep := s.psleep - Back(c) + 1)
    else
      Goto(s, t, Idle).(psleep := s.psleep - Back(c), queue := s.queue + [c.item], puts := s.puts + [c.item])
  }

  /** A consumer's critical section, but for the signal. */
  function Consume<T>(s: Monitor<T>, t: nat): Monitor<T>
    requires t < |s.calls| && Consuming(s.calls[t])
  {
    var c := s.calls[t];
    if |s.queue| == 0 then
      Goto(s, t, CWaiting).(csleep := s.csleep - Back(c) + 1)
    else
      Goto(s, t, Idle).(csleep := s.csleep - Back(c), queue := s.queue[1..], takes := s.takes + [s.queue[0]])
  }

  predicate Waits<T>(s: Monitor<T>, k: nat, consumer: bool) {
    k < |s.calls| && if consumer then s.calls[k].CWaiting? else s.calls[k].PWaiting?
  }

  predicate SomeWaits<T>(s: Monitor<T>, consumer: bool) {
    exists k :: 0 <= k < |s.calls| && Waits(s, k, consumer)
  }

  function Wake<T>(s: Monitor<T>, k: nat): Monitor<T>
    requires k < |s.calls| && (s.calls[k].CWaiting? || s.calls[k].PWaiting?)
  {
    Goto(s, k, if s.calls[k].CWaiting? then CWoken else PWoken(s.calls[k].item))
  }

  /** `_empty_cond.Signal()` or `_full_cond.Signal()`: reaches one waiting thread if there is one. */
  function Signal<T>(s: Monitor<T>, counter: int, wake: nat, consumer: bool): Monitor<T> {
    if counter > 0 && Waits(s, wake, consumer) then Wake(s, wake) else s
  }

  predicate Reaches<T>(s: Monitor<T>, wake: nat, consumer: bool) {
    Waits(s, wake, consumer) || !SomeWaits(s, consumer)
  }

  predicate Enabled<T>(s: Monitor<T>, a: Act<T>) {
    && -0x8000_0000 <= s.cap && a.t < |s.calls|
    && match a
       case CallEqueue(t, _) => s.calls[t] == Idle
       case CallPop(t) => s.calls[t] == Idle
       case Spurious(t) => s.calls[t].PWaiting? || s.calls[t].CWaiting?
       case Enter(t, wake) =>
         || (Producing(s.calls[t]) && Reaches(Produce(s, t), wake, true))
         || (Consuming(s.calls[t]) && Reaches(Consume(s, t), wake, false))
  }

  function Apply<T>(s: Monitor<T>, a: Act<T>): Monitor<T>
    requires Enabled(s, a)
  {
    match a
    case CallEqueue(t, x) => Goto(s, t, PEnter(x)).(offered := s.offered + [x])
    case CallPop(t) => Goto(s, t, CEnter)
    case Spurious(t) => Wake(s, t)
    case Enter(t, wake) =>
      if Producing(s.calls[t]) then
        var s1 := Produce(s, t);
        if s1.calls[t].Idle? then Signal(s1, s1.csleep, wake, true) else s1
      else
        var s1 := Consume(s, t);
        if s1.calls[t].Idle? then Signal(s1, s1.psleep, wake, false) else s1
  }

  ghost predicate Run<T>(s: Monitor<T>, acts: seq<Act<T>>, last: Monitor<T>)
    decreases |acts|
  {
    if acts == [] then last == s
    else Enabled(s, acts[0]) && Run(Apply(s, acts[0]), acts[1..], last)
  }

  // ---- the inductive invariant ----

  function CW<T>(c: Call<T>): nat { if c.CWaiting? then 1 else 0 }
  function CK<T>(c: Call<T>): nat { if c.CWoken? then 1 else 0 }
  function PW<T>(c: Call<T>): nat { if c.PWaiting? then 1 else 0 }
  function PK<T>(c: Call<T>): nat { if c.PWoken? then 1 else 0 }

  function Bringing<T>(c: Call<T>): Option<T> {
    if c.PEnter? || c.PWaiting? || c.PWoken? then Some(c.item) else None
  }

  ghost predicate Bounded<T>(s: Monitor<T>) {
    -0x8000_0000 <= s.cap && |s.queue| <= Limit(s.cap)
  }

  /** The sleep counters count the waiting together with the woken. */
  ghost predicate Counted<T>(s: Monitor<T>) {
    && s.csleep == Sum(s.calls, CW) + Sum(s.calls, CK)
    && s.psleep == Sum(s.calls, PW) + Sum(s.calls, PK)
  }

  /** Whenever somebody waits, what he waits for is covered by threads already woken. */
  ghost predicate Covered<T>(s: Monitor<T>) {
    && Bounded(s)
    && (Sum(s.calls, CW) > 0 ==> |s.queue| <= Sum(s.calls, CK))
    && (Sum(s.calls, PW) > 0 ==> Limit(s.cap) - |s.queue| <= Sum(s.calls, PK))
  }

  ghost predicate Ordered<T>(s: Monitor<T>) { s.puts == s.takes + s.queue }

  /** Everything passed to `Equeue` has been put, or is still with the thread that brings it. */
  ghost predicate Brought<T>(s: Monitor<T>) {
    multiset(s.offered) == Bag(s.calls, Bringing) + multiset(s.puts)
  }

  ghost predicate Inv<T>(s: Monitor<T>) { Counted(s) && Covered(s) && Ordered(s) && Brought(s) }

  lemma CountsMove<T>(s: Monitor<T>, t: nat, c: Call<T>)
    requires t < |s.calls|
    ensures var after := s.calls[t := c];
      && Sum(after, CW) + CW(s.calls[t]) == Sum(s.calls, CW) + CW(c)
      && Sum(after, CK) + CK(s.calls[t]) == Sum(s.calls, CK) + CK(c)
      && Sum(after, PW) + PW(s.calls[t]) == Sum(s.calls, PW) + PW(c)
      && Sum(after, PK) + PK(s.calls[t]) == Sum(s.calls, PK) + PK(c)
  {
    SumUpdate(s.calls, t, c, CW);
    SumUpdate(s.calls, t, c, CK);
    SumUpdate(s.calls, t, c, PW);
    SumUpdate(s.calls, t, c, PK);
  }

  lemma WaitersCounted<T>(s: Monitor<T>)
    ensures Sum(s.calls, CW) > 0 <==> SomeWaits(s, true)
    ensures Sum(s.calls, PW) > 0 <==> SomeWaits(s, false)
  {
    SumZero(s.calls, CW);
    SumZero(s.calls, PW);
    assert SomeWaits(s, true) <==> exists k :: 0 <= k < |s.calls| && CW(s.calls[k]) != 0 by {
      assert forall k :: 0 <= k < |s.calls| ==> (Waits(s, k, true) <==> CW(s.calls[k]) != 0);
    }
    assert SomeWaits(s, false) <==> exists k :: 0 <= k < |s.calls| && PW(s.calls[k]) != 0 by {
      assert forall k :: 0 <= k < |s.calls| ==> (Waits(s, k, false) <==> PW(s.calls[k]) != 0);
    }
  }

  /** Waking a thread, by a signal or for no reason, only moves it from waiting to woken. */
  lemma WakeKeeps<T>(s: Monitor<T>, k: nat)
    requires k < |s.calls| && (s.calls[k].CWaiting? || s.calls[k].PWaiting?)
    ensures Counted(s) ==> Counted(Wake(s, k))
    ensures Covered(s) ==> Covered(Wake(s, k))
    ensures Brought(s) ==> Brought(Wake(s, k))
  {
    CountsMove(s, k, Wake(s, k).calls[k]);
    BagMoves(s.calls, k, Wake(s, k).calls[k], Bringing);
  }

  /** A put leaves the waiting consumers one short of cover, which is what the signal is for. */
  ghost predicate Short<T>(s: Monitor<T>, c: nat, p: nat) {
    && Bounded(s)
    && (Sum(s.calls, CW) > 0 ==> |s.queue| <= Sum(s.calls, CK) + c)
    && (Sum(s.calls, PW) > 0 ==> Limit(s.cap) - |s.queue| <= Sum(s.calls, PK) + p)
  }

  lemma ProduceKeeps<T>(s: Monitor<T>, t: nat)
    requires Counted(s) && Covered(s) && t < |s.calls| && Producing(s.calls[t])
    ensures var s1 := Produce(s, t);
      Counted(s1) && Short(s1, if s1.calls[t].Idle? then 1 else 0, 0)
  {
    CountsMove(s, t, Produce(s, t).calls[t]);
  }

  lemma ConsumeKeeps<T>(s: Monitor<T>, t: nat)
    requires Counted(s) && Covered(s) && t < |s.calls| && Consuming(s.calls[t])
    ensures var s1 := Consume(s, t);
      Counted(s1) && Short(s1, 0, if s1.calls[t].Idle? then 1 else 0)
  {
    CountsMove(s, t, Consume(s, t).calls[t]);
  }

  lemma SignalCovers<T>(s: Monitor<T>, wake: nat, consumer: bool)
    requires Counted(s) && Short(s, if consumer then 1 else 0, if consumer then 0 else 1)
    requires Reaches(s, wake, consumer)
    ensures var s' := Signal(s, if consumer then s.csleep else s.psleep, wake, consumer); Counted(s') && Covered(s')
  {
    WaitersCounted(s);
    if Waits(s, wake, consumer) {
      CountsMove(s, wake, Wake(s, wake).calls[wake]);
    }
  }

  lemma EnterKeeps<T>(s: Monitor<T>, t: nat, wake: nat)
    requires Counted(s) && Covered(s) && Enabled(s, Enter(t, wake))
    ensures Counted(Apply(s, Enter(t, wake))) && Covered(Apply(s, Enter(t, wake)))
  {
    if Producing(s.calls[t]) {
      ProduceKeeps(s, t);
      if Produce(s, t).calls[t].Idle? {
        SignalCovers(Produce(s, t), wake, true);
      }
    } else {
      ConsumeKeeps(s, t);
      if Consume(s, t).calls[t].Idle? {
        SignalCovers(Consume(s, t), wake, false);
      }
    }
  }

  lemma CoveredKept<T>(s: Monitor<T>, a: Act<T>)
    requires Counted(s) && Covered(s) && Enabled(s, a)
    ensures Counted(Apply(s, a)) && Covered(Apply(s, a))
  {
    match a
    case CallEqueue(t, x) => CountsMove(s, t, PEnter(x));
    case CallPop(t) => CountsMove(s, t, CEnter);
    case Spurious(t) => WakeKeeps(s, t);
    case Enter(t, wake) => EnterKeeps(s, t, wake);
  }

  // ---- data ----

  function EventOf<T>(s: Monitor<T>, a: Act<T>): Fifo.Event<T>
    requires Enabled(s, a)
  {
    if a.Enter? && Producing(s.calls[a.t]) && |s.queue| != Limit(s.cap) then Fifo.Put(s.calls[a.t].item)
    else if a.Enter? && Consuming(s.calls[a.t]) && |s.queue| != 0 then Fifo.Take(s.queue[0])
    else Fifo.Quiet
  }

  lemma SignalKeepsData<T>(s: Monitor<T>, counter: int, wake: nat, consumer: bool)
    ensures var s' := Signal(s, counter, wake, consumer);
      && s'.queue == s.queue && s'.puts == s.puts && s'.takes == s.takes && s'.cap == s.cap
      && (Brought(s) ==> Brought(s'))
  {
    if Waits(s, wake, consumer) {
      WakeKeeps(s, wake);
    }
  }

  /** A critical section is at most one put or one take. */
  lemma EnterMovesData<T>(s: Monitor<T>, a: Act<T>)
    requires Bounded(s) && Enabled(s, a)
    ensures var s', e := Apply(s, a), EventOf(s, a);
      && s'.cap == s.cap && Fifo.Step(Limit(s.cap), s.queue, e, s'.queue)
      && s'.puts == s.puts + Fifo.PutOf(e) && s'.takes == s.takes + Fifo.TakeOf(e)
  {
    if a.Enter? && Producing(s.calls[a.t]) {
      SignalKeepsData(Produce(s, a.t), Produce(s, a.t).csleep, a.wake, true);
    } else if a.Enter? {
      SignalKeepsData(Consume(s, a.t), Consume(s, a.t).psleep, a.wake, false);
    }
  }

  lemma OrderedKept<T>(s: Monitor<T>, a: Act<T>)
    requires Ordered(s) && Bounded(s) && Enabled(s, a)
    ensures Ordered(Apply(s, a))
  {
    EnterMovesData(s, a);
    Fifo.StepOrder(Limit(s.cap), s.queue, EventOf(s, a), Apply(s, a).queue);
    Fifo.Appended(s.takes, s.queue, Fifo.PutOf(EventOf(s, a)), Fifo.TakeOf(EventOf(s, a)), Apply(s, a).queue);
  }

  lemma ProduceBrings<T>(s: Monitor<T>, t: nat)
    requires Brought(s) && Bounded(s) && t < |s.calls| && Producing(s.calls[t])
    ensures Brought(Produce(s, t))
  {
    BagMoves(s.calls, t, Produce(s, t).calls[t], Bringing);
  }

  lemma ConsumeBrings<T>(s: Monitor<T>, t: nat)
    requires Brought(s) && t < |s.calls| && Consuming(s.calls[t])
    ensures Brought(Consume(s, t))
  {
    BagMoves(s.calls, t, Consume(s, t).calls[t], Bringing);
  }

  lemma BroughtEnter<T>(s: Monitor<T>, t: nat, wake: nat)
    requires Brought(s) && Bounded(s) && Enabled(s, Enter(t, wake))
    ensures Brought(Apply(s, Enter(t, wake)))
  {
    if Producing(s.calls[t]) {
      ProduceBrings(s, t);
      SignalKeepsData(Produce(s, t), Produce(s, t).csleep, wake, true);
    } else {
      ConsumeBrings(s, t);
      SignalKeepsData(Consume(s, t), Consume(s, t).psleep, wake, false);
    }
  }

  lemma BroughtKept<T>(s: Monitor<T>, a: Act<T>)
    requires Brought(s) && Bounded(s) && Enabled(s, a)
    ensures Brought(Apply(s, a))
  {
    match a
    case CallEqueue(t, x) => BagMoves(s.calls, t, PEnter(x), Bringing);
    case CallPop(t) => BagMoves(s.calls, t, CEnter, Bringing);
    case Spurious(t) => WakeKeeps(s, t);
    case Enter(t, wake) => BroughtEnter(s, t, wake);
  }

  lemma InvKept<T>(s: Monitor<T>, a: Act<T>)
    requires Inv(s) && Enabled(s, a)
    ensures Inv(Apply(s, a))
  {
    CoveredKept(s, a);
    OrderedKept(s, a);
    BroughtKept(s, a);
  }

  lemma InvInit<T>(s: Monitor<T>)
    requires Init(s)
    ensures Inv(s)
  {
    SumZero(s.calls, CW);
    SumZero(s.calls, CK);
    SumZero(s.calls, PW);
    SumZero(s.calls, PK);
    BagEmpty(s.calls, Bringing);
  }
}
