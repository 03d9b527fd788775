/** What the blocking queue promises over every run: any capacity, any number of threads, newcomers
    overtaking woken threads, and wakeups for no reason. */
module MonitorTheorems {
  import opened Tally
  import opened MonitorMachine
  import Fifo

  function Events<T>(s: Monitor<T>, acts: seq<Act<T>>): seq<Fifo.Event<T>>
    decreases |acts|
  {
    if acts == [] || !Enabled(s, acts[0]) then []
    else [EventOf(s, acts[0])] + Events(Apply(s, acts[0]), acts[1..])
  }

  lemma {:induction false} RunRefinesFifo<T(!new)>(s: Monitor<T>, acts: seq<Act<T>>, last: Monitor<T>)
    requires Inv(s) && Run(s, acts, last)
    ensures Inv(last) && last.cap == s.cap
    ensures Fifo.Run(Limit(s.cap), s.queue, Events(s, acts), last.queue)
    ensures last.puts == s.puts + Fifo.Puts(Events(s, acts))
    ensures last.takes == s.takes + Fifo.Takes(Events(s, acts))
    decreases |acts|
  {
    if acts != [] {
      var mid, e := Apply(s, acts[0]), EventOf(s, acts[0]);
      InvKept(s, acts[0]);
      EnterMovesData(s, acts[0]);
      RunRefinesFifo(mid, acts[1..], last);
      Fifo.RunExtend(Limit(s.cap), s.queue, e, mid.queue, Events(mid, acts[1..]), last.queue);
      Fifo.Grow(s.puts, Fifo.PutOf(e), Fifo.Puts(Events(mid, acts[1..])));
      Fifo.Grow(s.takes, Fifo.TakeOf(e), Fifo.Takes(Events(mid, acts[1..])));
    }
  }

  // ---- what the schedule asked for, and what became of it ----

  /** The items of the calls of `Equeue` in a schedule, in the order of the calls. */
  function Items<T>(acts: seq<Act<T>>): seq<T> {
    if acts == [] then [] else (if acts[0].CallEqueue? then [acts[0].item] else []) + Items(acts[1..])
  }

  function PopCalls<T>(acts: seq<Act<T>>): nat {
    if acts == [] then 0 else (if acts[0].CallPop? then 1 else 0) + PopCalls(acts[1..])
  }

  /** The critical sections of a schedule ... */
  function Sections<T>(acts: seq<Act<T>>): nat {
    if acts == [] then 0 else (if acts[0].Enter? then 1 else 0) + Sections(acts[1..])
  }

  /** ... and at most how many its calls and its wakeups for no reason cause. */
  function Caused<T>(acts: seq<Act<T>>): nat {
    if acts == [] then 0 else (if acts[0].Enter? then 0 else if acts[0].Spurious? then 1 else 2) + Caused(acts[1..])
  }

  function Popping<T>(c: Call<T>): nat { if c.CEnter? || c.CWaiting? || c.CWoken? then 1 else 0 }

  function Work<T>(c: Call<T>): nat {
    if c == Idle then 0 else if c.PWaiting? || c.CWaiting? then 1 else 2
  }

  lemma CallCounts<T>(s: Monitor<T>, t: nat, c: Call<T>)
    requires t < |s.calls|
    ensures Sum(s.calls[t := c], Work) + Work(s.calls[t]) == Sum(s.calls, Work) + Work(c)
    ensures Sum(s.calls[t := c], Popping) + Popping(s.calls[t]) == Sum(s.calls, Popping) + Popping(c)
  {
    SumUpdate(s.calls, t, c, Work);
    SumUpdate(s.calls, t, c, Popping);
  }

  /** A signal makes work for the one thread it wakes. */
  lemma SignalCounts<T>(s: Monitor<T>, counter: int, wake: nat, consumer: bool)
    ensures var s' := Signal(s, counter, wake, consumer);
      && s'.offered == s.offered && s'.takes == s.takes
      && Sum(s'.calls, Work) <= Sum(s.calls, Work) + 1 && Sum(s'.calls, Popping) == Sum(s.calls, Popping)
  {
    if Waits(s, wake, consumer) {
      CallCounts(s, wake, Wake(s, wake).calls[wake]);
    }
  }

  lemma EnterCounts<T>(s: Monitor<T>, t: nat, wake: nat)
    requires Enabled(s, Enter(t, wake))
    ensures var s' := Apply(s, Enter(t, wake));
      && s'.offered == s.offered
      && |s'.takes| + Sum(s'.calls, Popping) == |s.takes| + Sum(s.calls, Popping)
      && Sum(s'.calls, Work) + 1 <= Sum(s.calls, Work)
  {
    if Producing(s.calls[t]) {
      CallCounts(s, t, Produce(s, t).calls[t]);
      SignalCounts(Produce(s, t), Produce(s, t).csleep, wake, true);
    } else {
      CallCounts(s, t, Consume(s, t).calls[t]);
      SignalCounts(Consume(s, t), Consume(s, t).psleep, wake, false);
    }
  }

  lemma StepCounts<T>(s: Monitor<T>, a: Act<T>)
    requires Enabled(s, a)
    ensures var s' := Apply(s, a);
      && s'.offered == s.offered + Items([a])
      && |s'.takes| + Sum(s'.calls, Popping) == |s.takes| + Sum(s.calls, Popping) + PopCalls([a])
      && Sections([a]) + Sum(s'.calls, Work) <= Sum(s.calls, Work) + Caused([a])
  {
    assert [a][1..] == [];
    match a
    case CallEqueue(t, x) => CallCounts(s, t, PEnter(x));
    case CallPop(t) => CallCounts(s, t, CEnter);
    case Spurious(t) => CallCounts(s, t, Wake(s, t).calls[t]);
    case Enter(t, wake) => EnterCounts(s, t, wake);
  }

  lemma {:induction false} RunCounts<T>(s: Monitor<T>, acts: seq<Act<T>>, last: Monitor<T>)
    requires Run(s, acts, last)
    ensures last.offered == s.offered + Items(acts)
    ensures |last.takes| + Sum(last.calls, Popping) == |s.takes| + Sum(s.calls, Popping) + PopCalls(acts)
    ensures Sections(acts) + Sum(last.calls, Work) <= Sum(s.calls, Work) + Caused(acts)
    decreases |acts|
  {
    if acts != [] {
      var a, mid := acts[0], Apply(s, acts[0]);
      StepCounts(s, a);
      RunCounts(mid, acts[1..], last);
      assert [a][1..] == [];
      Fifo.Grow(s.offered, Items([a]), Items(acts[1..]));
    }
  }

  /** Every call counts, whatever the state it is begun in: what has been offered is what the calls of
      `Equeue` passed, every call of `pop` has taken an item or is still inside, and the number of critical
      sections is bounded by that of calls and of wakeups for no reason, so nobody loops between the
      mutex and the wait. */
  lemma EveryCallCounts<T>(s: Monitor<T>, acts: seq<Act<T>>, last: Monitor<T>)
    requires Init(s) && Run(s, acts, last)
    ensures last.offered == Items(acts)
    ensures |last.takes| + Sum(last.calls, Popping) == PopCalls(acts)
    ensures Sections(acts) + Sum(last.calls, Work) <= Caused(acts)
  {
    SumZero(s.calls, Popping);
    SumZero(s.calls, Work);
    RunCounts(s, acts, last);
  }

  /** A thread outside both calls can always begin either, and then competes for the mutex. */
  lemma IdleMayCall<T>(s: Monitor<T>, t: nat, item: T)
    requires -0x8000_0000 <= s.cap && t < |s.calls| && s.calls[t] == Idle
    ensures Enabled(s, CallEqueue(t, item)) && Apply(s, CallEqueue(t, item)).calls[t] == PEnter(item)
    ensures Enabled(s, CallPop(t)) && Apply(s, CallPop(t)).calls[t] == CEnter
  {
  }

  /** A waiting thread can always be woken for no reason, and then competes for the mutex again. */
  lemma SleeperMayWake<T>(s: Monitor<T>, t: nat)
    requires -0x8000_0000 <= s.cap && t < |s.calls| && (s.calls[t].PWaiting? || s.calls[t].CWaiting?)
    ensures Enabled(s, Spurious(t))
    ensures Apply(s, Spurious(t)).calls == s.calls[t := if s.calls[t].CWaiting? then CWoken else PWoken(s.calls[t].item)]
  {
  }

  /** Nobody but the thread inside the section and one woken sleeper changes his place. */
  lemma SignalElsewhere<T>(s: Monitor<T>, counter: int, wake: nat, consumer: bool, t: nat)
    requires t < |s.calls| && s.calls[t] == Idle
    ensures Signal(s, counter, wake, consumer).calls[t] == Idle && Signal(s, counter, wake, consumer).queue == s.queue
    ensures Signal(s, counter, wake, consumer).takes == s.takes
  {
  }

  /** A producer that gets the mutex waits if and only if the queue holds `_cap` items; otherwise its item
      is the last of the queue. A negative capacity stands for a huge number. */
  lemma ProducerSection<T(!new)>(s: Monitor<T>, acts: seq<Act<T>>, last: Monitor<T>, t: nat, wake: nat)
    requires Init(s) && Run(s, acts, last) && Enabled(last, Enter(t, wake)) && Producing(last.calls[t])
    ensures var s', x := Apply(last, Enter(t, wake)), last.calls[t].item;
      if |last.queue| == (if s.cap >= 0 then s.cap else 0x1_0000_0000_0000_0000 + s.cap)
      then s'.calls[t] == PWaiting(x) && s'.queue == last.queue
      else s'.calls[t] == Idle && s'.queue == last.queue + [x]
  {
    InvInit(s);
    RunRefinesFifo(s, acts, last);
    var s1 := Produce(last, t);
    if s1.calls[t].Idle? {
      SignalElsewhere(s1, s1.csleep, wake, true, t);
    }
  }

  /** A consumer that gets the mutex waits if and only if the queue is empty; otherwise it takes the first item. */
  lemma ConsumerSection<T>(s: Monitor<T>, t: nat, wake: nat)
    requires Enabled(s, Enter(t, wake)) && Consuming(s.calls[t])
    ensures var s' := Apply(s, Enter(t, wake));
      if s.queue == [] then s'.calls[t] == CWaiting && s'.queue == [] && s'.takes == s.takes
      else s'.calls[t] == Idle && s.queue == [s.queue[0]] + s'.queue && s'.takes == s.takes + [s.queue[0]]
  {
    var s1 := Consume(s, t);
    if s1.calls[t].Idle? {
      SignalElsewhere(s1, s1.psleep, wake, false, t);
    }
  }

  /** Every run is a run of one bounded FIFO: the values popped are a prefix of the values pushed,
      the queue holds the rest, and it never outgrows its capacity, so testing for equality suffices. */
  lemma QueueIsBoundedFifo<T(!new)>(s: Monitor<T>, acts: seq<Act<T>>, last: Monitor<T>)
    requires Init(s) && Run(s, acts, last)
    ensures last.cap == s.cap && |last.queue| <= Limit(s.cap) && (s.cap >= 0 ==> |last.queue| <= s.cap)
    ensures last.takes <= last.puts && last.puts == last.takes + last.queue
    ensures exists es :: Fifo.Run(Limit(s.cap), [], es, last.queue) && Fifo.Puts(es) == last.puts && Fifo.Takes(es) == last.takes
    ensures multiset(Items(acts)) == Bag(last.calls, Bringing) + multiset(last.puts)
  {
    InvInit(s);
    RunRefinesFifo(s, acts, last);
    EveryCallCounts(s, acts, last);
    var es := Events(s, acts);
    assert Fifo.Puts(es) == last.puts && Fifo.Takes(es) == last.takes;
    Fifo.TakesFollowPuts(Limit(s.cap), [], es, last.queue);
    assert last.puts == last.takes + last.queue;
  }

  /** No wakeup is lost: while a consumer waits, every stored item is covered by a consumer already
      woken, and while a producer waits, every free place by a producer already woken. */
  lemma NoLostWakeup<T(!new)>(s: Monitor<T>, acts: seq<Act<T>>, last: Monitor<T>)
    requires Init(s) && Run(s, acts, last)
    ensures last.csleep == Sum(last.calls, CW) + Sum(last.calls, CK)
    ensures last.psleep == Sum(last.calls, PW) + Sum(last.calls, PK)
    ensures SomeWaits(last, true) ==> |last.queue| <= Sum(last.calls, CK)
    ensures last.cap == s.cap && (SomeWaits(last, false) ==> Limit(s.cap) - |last.queue| <= Sum(last.calls, PK))
    ensures s.cap >= 0 && SomeWaits(last, false) ==> s.cap - |last.queue| <= Sum(last.calls, PK)
  {
    InvInit(s);
    RunRefinesFifo(s, acts, last);
    WaitersCounted(last);
  }

  /** A thread that wants the mutex can have it. */
  lemma CompetitorsMove<T>(s: Monitor<T>, t: nat)
    requires Bounded(s) && t < |s.calls| && (Producing(s.calls[t]) || Consuming(s.calls[t]))
    ensures exists wake: nat :: Enabled(s, Enter(t, wake))
  {
    var s1 := if Producing(s.calls[t]) then Produce(s, t) else Consume(s, t);
    var consumer := Producing(s.calls[t]);
    if SomeWaits(s1, consumer) {
      var k :| 0 <= k < |s1.calls| && Waits(s1, k, consumer);
      assert Enabled(s, Enter(t, k));
    } else {
      assert Enabled(s, Enter(t, 0));
    }
  }

  ghost predicate AllAsleep<T>(s: Monitor<T>) {
    forall t :: 0 <= t < |s.calls| ==> s.calls[t] == Idle || s.calls[t].PWaiting? || s.calls[t] == CWaiting
  }

  lemma AsleepWhen<T(!new)>(s: Monitor<T>)
    requires Inv(s)
    ensures AllAsleep(s) <==> forall t: nat, wake: nat :: !Enabled(s, Enter(t, wake))
    ensures AllAsleep(s) && SomeWaits(s, true) ==> s.queue == []
    ensures AllAsleep(s) && SomeWaits(s, false) ==> |s.queue| == Limit(s.cap)
  {
    WaitersCounted(s);
    if AllAsleep(s) {
      SumZero(s.calls, CK);
      SumZero(s.calls, PK);
    } else {
      var t :| 0 <= t < |s.calls| && s.calls[t] != Idle && !s.calls[t].PWaiting? && s.calls[t] != CWaiting;
      CompetitorsMove(s, t);
    }
  }

  /** Everybody is asleep exactly when no thread inside a call can go on; and then consumers sleep only
      over an empty queue, producers only over a full one. */
  lemma AsleepExactly<T(!new)>(s: Monitor<T>, acts: seq<Act<T>>, last: Monitor<T>)
    requires Init(s) && Run(s, acts, last)
    ensures AllAsleep(last) <==> forall t: nat, wake: nat :: !Enabled(last, Enter(t, wake))
    ensures AllAsleep(last) && SomeWaits(last, true) ==> last.queue == []
    ensures last.cap == s.cap && (AllAsleep(last) && SomeWaits(last, false) ==> |last.queue| == Limit(s.cap))
    ensures s.cap >= 0 && AllAsleep(last) && SomeWaits(last, false) ==> |last.queue| == s.cap
  {
    InvInit(s);
    RunRefinesFifo(s, acts, last);
    AsleepWhen(last);
  }

  /** With any capacity but zero, a producer and a consumer inside their calls are never both
      asleep with nobody left to go on, despite overtaking and spurious wakeups. */
  lemma NoDeadlock<T(!new)>(s: Monitor<T>, acts: seq<Act<T>>, last: Monitor<T>, p: nat, c: nat)
    requires Init(s) && s.cap != 0 && Run(s, acts, last) && p < |last.calls| && c < |last.calls|
    requires last.calls[p].PEnter? || last.calls[p].PWaiting? || last.calls[p].PWoken?
    requires last.calls[c].CEnter? || last.calls[c].CWaiting? || last.calls[c].CWoken?
    ensures exists t: nat, wake: nat :: Enabled(last, Enter(t, wake))
  {
    AsleepExactly(s, acts, last);
    if AllAsleep(last) {
      assert Waits(last, p, false) && Waits(last, c, true);
    }
  }
}
