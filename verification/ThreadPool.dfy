/** The thread pool itself: its fields, and the statements of its threads carried out in place. */
module ThreadPools {
  import opened Tally
  import opened PoolMachine
  import opened PoolInvariants
  import opened PoolTheorems
  import opened PoolShutdown

  /** An act that is not possible now is skipped. */
  function Try<T>(s: Pool<T>, a: Act<T>): Pool<T> { if Enabled(s, a) then Apply(s, a) else s }

  /** A schedule carried out with the acts that are not possible at their turn skipped. */
  function After<T>(s: Pool<T>, acts: seq<Act<T>>): Pool<T>
    decreases |acts|
  {
    if acts == [] then s
    else After(Try(s, acts[0]), acts[1..])
  }

  /** A schedule possible at every turn is carried out whole. */
  lemma {:induction false} RunIsAfter<T>(s: Pool<T>, acts: seq<Act<T>>, last: Pool<T>)
    requires Run(s, acts, last)
    ensures After(s, acts) == last
    decreases |acts|
  {
    if acts != [] {
      RunIsAfter(Apply(s, acts[0]), acts[1..], last);
    }
  }

  /** The state after one whole `Equeue` of a running pool that nobody interrupts; if every thread
      counts as asleep the signal reaches `wake`. */
  function Enqueued<T>(s: Pool<T>, x: T, wake: nat): Pool<T> {
    s.(queue := s.queue + [x], pushed := s.pushed + [x], late := if AllExited(s) then s.late + [x] else s.late,
       accepted := s.accepted + [x], workers := Signalled(s, wake))
  }

  /** The acts of caller `c` in it. */
  function Script<T>(c: nat, x: T, wake: nat): seq<Act<T>> {
    [BeginEqueue(c, x), Call(c, 0)] + ([Call(c, 0), Call(c, 0)] + [Call(c, wake), Call(c, 0)])
  }

  lemma EqueueChecks<T>(s: Pool<T>, c: nat, x: T)
    requires c < |s.callers| && s.callers[c] == Outside && s.running
    ensures Run(s, [BeginEqueue(c, x), Call(c, 0)], PutC(s, c, Entering(x)))
  {
    Two(s, BeginEqueue(c, x), Call(c, 0), PutC(s, c, Entering(x)));
  }

  lemma EqueuePushes<T>(s: Pool<T>, c: nat, x: T)
    requires c < |s.callers| && s.callers[c] == Entering(x) && s.lock == None
    ensures Run(s, [Call(c, 0), Call(c, 0)],
                PutC(s, c, Signalling(x)).(lock := Some(C(c)), queue := s.queue + [x], pushed := s.pushed + [x],
                                           late := if AllExited(s) then s.late + [x] else s.late))
  {
    Two(s, Call(c, 0), Call(c, 0),
        PutC(s, c, Signalling(x)).(lock := Some(C(c)), queue := s.queue + [x], pushed := s.pushed + [x],
                                   late := if AllExited(s) then s.late + [x] else s.late));
  }

  /** The signal of an `Equeue`: it reaches `wake` if every thread counts as asleep and that one is. */
  function Signalled<T>(s: Pool<T>, wake: nat): seq<Worker<T>> {
    if |s.workers| == s.sleepers && wake < |s.workers| && s.workers[wake].Asleep? then s.workers[wake := Awake] else s.workers
  }

  lemma SignalStep<T>(s: Pool<T>, c: nat, x: T, wake: nat)
    requires c < |s.callers| && s.callers[c] == Signalling(x)
    requires |s.workers| == s.sleepers ==> NoneAsleep(s) || (wake < |s.workers| && s.workers[wake].Asleep?)
    ensures CanCall(s, c, wake) && CallerStep(s, c, wake) == PutC(s, c, Finishing(x)).(workers := Signalled(s, wake))
  {
  }

  lemma FinishStep<T>(s: Pool<T>, c: nat, x: T)
    requires c < |s.callers| && s.callers[c] == Finishing(x)
    ensures CanCall(s, c, 0) && CallerStep(s, c, 0) == PutC(s, c, Outside).(lock := None, accepted := s.accepted + [x])
  {
  }

  lemma EqueueSignals<T>(s: Pool<T>, c: nat, x: T, wake: nat)
    requires c < |s.callers| && s.callers[c] == Signalling(x)
    requires |s.workers| == s.sleepers ==> NoneAsleep(s) || (wake < |s.workers| && s.workers[wake].Asleep?)
    ensures Run(s, [Call(c, wake), Call(c, 0)],
                PutC(s, c, Outside).(lock := None, accepted := s.accepted + [x], workers := Signalled(s, wake)))
  {
    var mid := PutC(s, c, Finishing(x)).(workers := Signalled(s, wake));
    SignalStep(s, c, x, wake);
    FinishStep(mid, c, x);
    assert mid.callers[c := Outside] == s.callers[c := Outside];
    Two(s, Call(c, wake), Call(c, 0),
        PutC(s, c, Outside).(lock := None, accepted := s.accepted + [x], workers := Signalled(s, wake)));
  }

  /** A call nobody interrupts is one run of the machine. */
  lemma EqueueIsRun<T>(s: Pool<T>, c: nat, x: T, wake: nat)
    requires c < |s.callers| && s.callers[c] == Outside && s.running && s.lock == None
    requires |s.workers| == s.sleepers ==> NoneAsleep(s) || (wake < |s.workers| && s.workers[wake].Asleep?)
    ensures Run(s, Script(c, x, wake), Enqueued(s, x, wake))
  {
    var inside := PutC(s, c, Entering(x));
    var pushed := PutC(s, c, Signalling(x)).(lock := Some(C(c)), queue := s.queue + [x], pushed := s.pushed + [x],
                                             late := if AllExited(s) then s.late + [x] else s.late);
    EqueueChecks(s, c, x);
    EqueuePushes(inside, c, x);
    assert PutC(inside, c, Signalling(x)).callers == pushed.callers;
    EqueueSignals(pushed, c, x, wake);
    assert pushed.callers[c := Outside] == s.callers;
    RunJoin(inside, [Call(c, 0), Call(c, 0)], pushed, [Call(c, wake), Call(c, 0)], Enqueued(s, x, wake));
    RunJoin(s, [BeginEqueue(c, x), Call(c, 0)], inside,
            [Call(c, 0), Call(c, 0)] + [Call(c, wake), Call(c, 0)], Enqueued(s, x, wake));
  }

  lemma EqueueCall<T>(s: Pool<T>, c: nat, x: T, wake: nat)
    requires Inv(s) && c < |s.callers| && s.callers[c] == Outside && s.running && s.lock == None
    requires |s.workers| == s.sleepers ==> NoneAsleep(s) || (wake < |s.workers| && s.workers[wake].Asleep?)
    ensures Run(s, Script(c, x, wake), Enqueued(s, x, wake)) && Inv(Enqueued(s, x, wake))
  {
    EqueueIsRun(s, c, x, wake);
    RunKeepsInv(s, Script(c, x, wake), Enqueued(s, x, wake));
  }

  lemma TaskThere<T>(s: Pool<T>, i: nat)
    requires WorkersOk(s)
    ensures i < |s.workers| ==> HasFront(s, i)
  {
    if i < |s.workers| {
      assert WorkerOk(s.workers[i], |s.queue| > 0, s.running, s.swept);
    }
  }

  ghost predicate Follows<T>(s: Pool<T>, a: Act<T>, s': Pool<T>) { Enabled(s, a) && s' == Apply(s, a) }

  // ---- `Stop` and `Join` among other threads ----

  /** Some schedule leads from `s` to `s'`. */
  ghost predicate Reaches<T(!new)>(s: Pool<T>, s': Pool<T>) { exists acts :: Run(s, acts, s') }

  lemma ReachesSelf<T(!new)>(s: Pool<T>)
    ensures Reaches(s, s)
  {
    assert Run(s, [], s);
  }

  lemma ReachesJoin<T(!new)>(s: Pool<T>, mid: Pool<T>, last: Pool<T>)
    requires Reaches(s, mid) && Reaches(mid, last)
    ensures Reaches(s, last)
  {
    var acts :| Run(s, acts, mid);
    var more :| Run(mid, more, last);
    RunJoin(s, acts, mid, more, last);
  }

  lemma ReachesNext<T(!new)>(s: Pool<T>, mid: Pool<T>, a: Act<T>, last: Pool<T>)
    requires Reaches(s, mid) && Follows(mid, a, last)
    ensures Reaches(s, last)
  {
    RunFirst(mid, a, [], last);
    ReachesJoin(s, mid, last);
  }

  predicate ByCaller<T>(a: Act<T>, c: nat) { (IsCall(a) || a.Call?) && a.c == c }

  /** What the others do leaves a caller where it is, and leaves the flag alone if there are no other callers. */
  lemma OthersAct<T>(s: Pool<T>, a: Act<T>, s': Pool<T>, c: nat)
    requires Begun(s) && c < |s.callers| && s.callers[c] != Outside && Follows(s, a, s') && !ByCaller(a, c)
    ensures Begun(s') && |s'.callers| == |s.callers| && s'.callers[c] == s.callers[c] && |s'.workers| == |s.workers|
    ensures |s.callers| == 1 ==> s'.running == s.running
  {
    OthersStay(s, a, c);
    SameCallers(s, a);
    ExitedStays(s, a);
    FlagAlone(s, a, c);
  }

  lemma FlagAlone<T>(s: Pool<T>, a: Act<T>, c: nat)
    requires Begun(s) && c < |s.callers| && Enabled(s, a) && !ByCaller(a, c)
    ensures Begun(Apply(s, a))
    ensures |s.callers| == 1 ==> Apply(s, a).running == s.running
  {
  }

  /** What the two statements of `Stop` before `WakeUpAllThread` leave alone. */
  lemma StopStep<T>(s: Pool<T>, c: nat)
    requires Begun(s) && c < |s.callers| && (s.callers[c].StopChecking? || s.callers[c].StopClearing?)
    ensures CanCall(s, c, 0)
    ensures var s' := CallerStep(s, c, 0);
      && Begun(s') && s'.workers == s.workers && s'.callers == s.callers[c := s'.callers[c]]
      && s'.callers[c] == (if s.callers[c].StopClearing? then WakeLocking else if s.running then StopClearing else Outside)
      && s'.running == (s.running && !s.callers[c].StopClearing?)
  {
  }

  lemma RunningHasWorkers<T>(s: Pool<T>)
    requires WorkersOk(s)
    ensures s.running && s.workers != [] ==> !AllExited(s)
  {
    if s.running && s.workers != [] {
      assert WorkerOk(s.workers[0], |s.queue| > 0, s.running, s.swept);
    }
  }

  /** Some worker is left, and no `Equeue` is between its check of the flag and the mutex. */
  predicate Quiet<T>(s: Pool<T>) { !AllExited(s) && NobodyEntering(s) }

  lemma QuietStays<T>(s: Pool<T>, s': Pool<T>, c: nat)
    requires c < |s.callers| && |s'.callers| == |s.callers| && s'.callers == s.callers[c := s'.callers[c]] && !s'.callers[c].Entering?
    requires s'.workers == s.workers
    ensures Quiet(s) ==> Quiet(s')
    ensures |s.callers| == 1 && !AllExited(s) ==> Quiet(s')
  {
  }

  class ThreadPool<T(!new)> {
    var taskQueue: seq<T>
    var isRunning: bool
    var sleepNum: int
    var lock: Option<Agent>
    var starter: Starter
    var workers: seq<Worker<T>>
    var callers: seq<Caller<T>>
    ghost var swept: bool
    ghost var pushed: seq<T>
    ghost var popped: seq<T>
    ghost var ran: seq<T>
    ghost var late: seq<T>
    ghost var accepted: seq<T>

    ghost function View(): Pool<T>
      reads this
    {
      Pool(taskQueue, isRunning, sleepNum, lock, starter, workers, callers, swept, pushed, popped, ran, late, accepted)
    }

    ghost predicate Valid()
      reads this
    {
      Inv(View())
    }

    constructor (num: nat, clients: nat)
      ensures Init(View()) && Valid() && |workers| == num && |callers| == clients
    {
      taskQueue, isRunning, sleepNum, lock, starter := [], false, 0, None, StartChecking;
      workers := seq(num, _ => Unstarted);
      callers := seq(clients, _ => Outside);
      swept, pushed, popped, ran, late, accepted := false, [], [], [], [], [];
      new;
      InvInit(View());
    }

    /** The next statement of `Start`. */
    method StartStatement()
      requires CanStart(View())
      modifies this
      ensures View() == StarterStep(old(View()))
    {
      match starter
      case StartChecking => starter := if isRunning then Started else StartSetting;
      case StartSetting => isRunning := true; starter := Launching(0);
      case Launching(k) =>
        if k >= |workers| {
          starter := Started;
        } else {
          if workers[k].Unstarted? {
            workers := workers[k := Locking];
          }
          starter := Launching(k + 1);
        }
    }

    /** The next statement of worker `i` in `HandlerTask`. */
    method HandlerStatement(i: nat)
      requires CanWork(View(), i) && HasFront(View(), i)
      modifies this
      ensures View() == WorkerStep(old(View()), i)
    {
      match workers[i]
      case Locking => lock := Some(W(i)); workers := workers[i := Testing];
      case Testing =>
        if |taskQueue| == 0 && isRunning {
          workers := workers[i := Counting];
        } else {
          workers := workers[i := Retesting];
        }
      case Counting => sleepNum := sleepNum + 1; workers := workers[i := Waiting];
      case Waiting => lock := None; workers := workers[i := Asleep];
      case Awake => lock := Some(W(i)); workers := workers[i := Uncounting];
      case Uncounting => sleepNum := sleepNum - 1; workers := workers[i := Testing];
      case Retesting =>
        if !isRunning && |taskQueue| == 0 {
          workers := workers[i := Leaving];
        } else {
          workers := workers[i := Taking];
        }
      case Taking =>
        workers := workers[i := Releasing(taskQueue[0])];
        popped := popped + [taskQueue[0]];
        taskQueue := taskQueue[1..];
      case Releasing(t) => lock := None; workers := workers[i := Running(t)];
      case Running(t) => ran := ran + [t]; workers := workers[i := Locking];
      case Leaving => lock := None; workers := workers[i := Exited];
    }

    /** The next statement of caller `c` in `Equeue`. */
    method EqueueStatement(c: nat, wake: nat)
      requires CanCall(View(), c, wake) && InEqueue(callers[c])
      modifies this
      ensures View() == CallerStep(old(View()), c, wake)
    {
      match callers[c]
      case Checking(t) => callers := callers[c := if isRunning then Entering(t) else Outside];
      case Entering(t) => lock := Some(C(c)); callers := callers[c := Pushing(t)];
      case Pushing(t) =>
        taskQueue := taskQueue + [t];
        pushed := pushed + [t];
        late := if AllExited(View()) then late + [t] else late;
        callers := callers[c := Signalling(t)];
      case Signalling(t) =>
        if |workers| == sleepNum && wake < |workers| && workers[wake].Asleep? {
          workers := workers[wake := Awake];
        }
        callers := callers[c := Finishing(t)];
      case Finishing(t) => lock := None; accepted := accepted + [t]; callers := callers[c := Outside];
    }

    /** The next statement of caller `c` in `Stop` or in the `WakeUpAllThread` it calls. */
    method StopStatement(c: nat)
      requires CanCall(View(), c, 0) && !InEqueue(callers[c]) && !callers[c].Joining?
      modifies this
      ensures View() == CallerStep(old(View()), c, 0)
    {
      match callers[c]
      case StopChecking => callers := callers[c := if isRunning then StopClearing else Outside];
      case StopClearing => isRunning := false; callers := callers[c := WakeLocking];
      case WakeLocking => lock := Some(C(c)); callers := callers[c := WakeTesting];
      case WakeTesting =>
        if sleepNum > 0 {
          workers := WakeAll(workers);
        }
        swept := true;
        callers := callers[c := WakeUnlocking];
      case WakeUnlocking => lock := None; callers := callers[c := Outside];
    }

    /** The next turn of the loop of caller `c` in `Join`. */
    method JoinStatement(c: nat)
      requires CanCall(View(), c, 0) && callers[c].Joining?
      modifies this
      ensures View() == CallerStep(old(View()), c, 0)
    {
      callers := callers[c := if callers[c].left == 0 then Outside else Joining(callers[c].left - 1)];
    }

    /** The act is one its thread can take now: only the mutex, a condition wait and a join hold a thread up. */
    predicate Possible(a: Act<T>)
      reads this
    {
      match a
      case Start => !starter.Started?
      case Work(i) =>
        && i < |workers| && !workers[i].Unstarted? && !workers[i].Asleep? && !workers[i].Exited?
        && (workers[i].Locking? || workers[i].Awake? ==> lock.None?)
      case Spurious(i) => i < |workers| && workers[i].Asleep?
      case BeginEqueue(c, _) => c < |callers| && callers[c].Outside?
      case BeginStop(c) => c < |callers| && callers[c].Outside?
      case BeginJoin(c) => c < |callers| && callers[c].Outside?
      case Call(c, wake) => MayContinue(c, wake)
    }

    predicate MayContinue(c: nat, wake: nat)
      reads this
      ensures MayContinue(c, wake) <==> CanCall(View(), c, wake)
    {
      && c < |callers| && !callers[c].Outside?
      && (callers[c].Entering? || callers[c].WakeLocking? ==> lock.None?)
      && (callers[c].Signalling? && |workers| == sleepNum ==>
              (forall i :: 0 <= i < |workers| ==> !workers[i].Asleep?) || (wake < |workers| && workers[wake].Asleep?))
      && (callers[c].Joining? && 0 < callers[c].left <= |workers| ==> workers[|workers| - callers[c].left].Exited?)
    }

    /** What is possible is safe: a worker about to take a task finds one. */
    lemma PossibleWork(i: nat)
      requires Valid()
      ensures Possible(Work(i)) <==> CanWork(View(), i) && HasFront(View(), i)
    {
      TaskThere(View(), i);
    }

    lemma PossibleIsEnabled(a: Act<T>)
      requires Valid()
      ensures Possible(a) <==> Enabled(View(), a)
    {
      match a
      case Start =>
      case Work(i) => PossibleWork(i);
      case Spurious(i) =>
      case BeginEqueue(c, t) =>
      case BeginStop(c) =>
      case BeginJoin(c) =>
      case Call(c, wake) =>
    }

    /** One act that is possible now. */
    method Perform(a: Act<T>)
      requires Enabled(View(), a)
      modifies this
      ensures View() == Apply(old(View()), a)
    {
      match a
      case Start => StartStatement();
      case Work(i) => HandlerStatement(i);
      case Spurious(i) => workers := workers[i := Awake];
      case BeginEqueue(c, t) => callers := callers[c := Checking(t)];
      case BeginStop(c) => callers := callers[c := StopChecking];
      case BeginJoin(c) => callers := callers[c := Joining(|workers|)];
      case Call(c, wake) => CallStatement(c, wake);
    }

    /** One act, unless it is not possible now. */
    method Step(a: Act<T>)
      requires Valid()
      modifies this
      ensures Valid() && View() == Try(old(View()), a)
    {
      PossibleIsEnabled(a);
      if Possible(a) {
        InvKept(View(), a);
        Perform(a);
      }
    }

    /** The next statement of caller `c`, whichever call it is in. */
    method CallStatement(c: nat, wake: nat)
      requires CanCall(View(), c, wake)
      modifies this
      ensures View() == CallerStep(old(View()), c, wake)
    {
      if InEqueue(callers[c]) {
        EqueueStatement(c, wake);
      } else {
        WakeUnused(View(), c, wake);
        if callers[c].Joining? {
          JoinStatement(c);
        } else {
          StopStatement(c);
        }
      }
    }

    /** Any interleaving of starter, workers and callers. */
    method Interleave(acts: seq<Act<T>>)
      requires Valid()
      modifies this
      ensures Valid() && View() == After(old(View()), acts)
      ensures pushed == popped + taskQueue
      ensures (forall i :: 0 <= i < |workers| ==> workers[i].Exited?) ==> taskQueue == late && multiset(ran) == multiset(popped)
    {
      for i := 0 to |acts|
        invariant Valid()
        invariant After(View(), acts[i..]) == After(old(View()), acts)
      {
        Step(acts[i]);
        assert acts[i..][1..] == acts[i + 1..];
      }
      RecordsAgree(View());
    }

    /** `Equeue` past its check and its mutex, in place. */
    method Push(task: T) returns (ghost wake: nat)
      modifies this
      ensures View() == Enqueued(old(View()), task, wake)
      ensures old(|workers| == sleepNum) ==> old(NoneAsleep(View())) || (wake < |old(workers)| && old(workers)[wake].Asleep?)
    {
      wake := 0;
      taskQueue := taskQueue + [task];
      pushed, accepted := pushed + [task], accepted + [task];
      late := if AllExited(View()) then late + [task] else late;
      if |workers| == sleepNum && exists i :: 0 <= i < |workers| && workers[i].Asleep? {
        var sleeper: nat :| sleeper < |workers| && workers[sleeper].Asleep?;
        workers := workers[sleeper := Awake];
        wake := sleeper;
      }
    }

    /** A whole call of `Equeue` by caller `c` while the other threads stand still: it is refused by a
        pool that does not run; otherwise, unless the mutex holds it up and nothing changes, the task
        goes to the end of the queue, and if every thread counts as asleep one that is gets woken. */
    method Equeue(c: nat, task: T) returns (answer: Option<bool>, ghost wake: nat)
      requires Valid() && c < |callers| && callers[c].Outside?
      modifies this
      ensures Valid()
      ensures answer == if !old(isRunning) then Some(false) else if old(lock) == None then Some(true) else None
      ensures answer != Some(true) ==> View() == old(View())
      ensures answer == Some(true) ==> Run(old(View()), Script(c, task, wake), View())
      ensures answer == Some(true) ==> taskQueue == old(taskQueue) + [task] && accepted == old(accepted) + [task]
      ensures answer == Some(true) ==> lock == None && callers == old(callers) && sleepNum == old(sleepNum)
      ensures answer == Some(true) ==>
        if old(|workers| == sleepNum && !NoneAsleep(View()))
        then wake < |old(workers)| && old(workers)[wake].Asleep? && workers == old(workers)[wake := Awake]
        else workers == old(workers)
    {
      wake := 0;
      if !isRunning {
        return Some(false), wake;
      }
      if lock.Some? {
        return None, wake;
      }
      ghost var s := View();
      wake := Push(task);
      EqueueCall(s, c, task, wake);
      return Some(true), wake;
    }

    lemma SomebodyCan()
      requires Valid() && Stopping(View()) && !Over(View())
      ensures || Possible(Start)
              || (exists i: nat :: i < |workers| && Possible(Work(i)))
              || (exists c: nat, wake: nat :: c < |callers| && wake <= |workers| && Possible(Call(c, wake)))
    {
      var next := SomebodyMoves(View());
      PossibleIsEnabled(next);
      match next
      case Start =>
      case Work(i) => assert i < |workers| && Possible(Work(i));
      case Call(c, wake) => assert c < |callers| && wake <= |workers| && Possible(Call(c, wake));
    }

    /** The system's choice of the thread that runs next, or wakes up for no reason. */
    method Choose() returns (act: Act<T>)
      requires Valid() && Stopping(View()) && !Over(View())
      ensures Possible(act) && !IsCall(act)
    {
      SomebodyCan();
      if {
        case Possible(Start) => act := Start;
        case i: nat :| i < |workers| && Possible(Work(i)) => act := Work(i);
        case i: nat :| i < |workers| && Possible(Spurious(i)) => act := Spurious(i);
        case c: nat, wake: nat :| c < |callers| && wake <= |workers| && Possible(Call(c, wake)) => act := Call(c, wake);
      }
    }

    /** That thread takes one step. */
    method SomeStep() returns (ghost a: Act<T>)
      requires Valid() && Stopping(View()) && !Over(View())
      modifies this
      ensures Valid() && !IsCall(a) && Follows(old(View()), a, View())
    {
      var act := Choose();
      PossibleIsEnabled(act);
      InvKept(View(), act);
      Perform(act);
      a := act;
    }

    /** With the flag cleared, the call caller `c` is in comes back, however the threads are scheduled and
        whenever other callers begin the calls listed. */
    method RunUntilBack(c: nat, calls: seq<Act<T>>)
      requires Valid() && Stopping(View()) && c < |callers|
      modifies this
      ensures Valid() && Stopping(View()) && c < |callers| && callers[c].Outside?
      ensures Reaches(old(View()), View())
    {
      var more := calls;
      ReachesSelf(View());
      while !callers[c].Outside?
        invariant Valid() && Stopping(View()) && c < |callers|
        invariant Reaches(old(View()), View())
        decreases |more|, Measure(View())
      {
        ghost var s := View();
        if {
          case more != [] =>
            var act := more[0];
            more := more[1..];
            if IsCall(act) && !ByCaller(act, c) && Possible(act) {
              Take(act);
              StepEnds(old(View()), s, act, View());
            }
          case true =>
            var a := SomeStep();
            StepEnds(old(View()), s, a, View());
        }
      }
    }

    /** One act that is possible now. */
    method Take(a: Act<T>)
      requires Valid() && Possible(a)
      modifies this
      ensures Valid() && Follows(old(View()), a, View())
    {
      PossibleIsEnabled(a);
      InvKept(View(), a);
      Perform(a);
    }

    /** What the other threads do while caller `c` pauses inside a call; acts not possible are skipped. */
    method Meanwhile(c: nat, acts: seq<Act<T>>)
      requires Valid() && Begun(View()) && c < |callers| && callers[c] != Outside
      modifies this
      ensures Valid() && Begun(View()) && |callers| == |old(callers)| && callers[c] == old(callers)[c]
      ensures |workers| == |old(workers)| && Reaches(old(View()), View())
      ensures |callers| == 1 ==> isRunning == old(isRunning)
      ensures acts == [] ==> View() == old(View())
    {
      ReachesSelf(View());
      for k := 0 to |acts|
        invariant Valid() && Begun(View()) && |callers| == |old(callers)| && callers[c] == old(callers)[c]
        invariant |workers| == |old(workers)| && Reaches(old(View()), View())
        invariant |callers| == 1 ==> isRunning == old(isRunning)
        invariant acts == [] ==> View() == old(View())
      {
        if !ByCaller(acts[k], c) && Possible(acts[k]) {
          ghost var s := View();
          Take(acts[k]);
          ReachesNext(old(View()), s, acts[k], View());
          OthersAct(s, acts[k], View(), c);
        }
      }
    }

    /** The call of `Stop` ... */
    method BeginStopping(c: nat)
      requires Valid() && Begun(View()) && c < |callers| && callers[c].Outside?
      modifies this
      ensures Valid() && Begun(View()) && Reaches(old(View()), View())
      ensures workers == old(workers) && callers == old(callers)[c := StopChecking] && isRunning == old(isRunning)
    {
      ghost var s := View();
      Take(BeginStop(c));
      ReachesSelf(s);
      ReachesNext(s, s, BeginStop(c), View());
    }

    /** ... and each of its own two statements. */
    method TakeStop(c: nat)
      requires Valid() && Begun(View()) && c < |callers| && (callers[c].StopChecking? || callers[c].StopClearing?)
      modifies this
      ensures Valid() && Begun(View()) && Reaches(old(View()), View())
      ensures workers == old(workers) && |callers| == |old(callers)| && callers == old(callers)[c := callers[c]]
      ensures callers[c] == if old(callers)[c].StopClearing? then WakeLocking else if old(isRunning) then StopClearing else Outside
      ensures isRunning == (old(isRunning) && !old(callers)[c].StopClearing?)
    {
      ghost var s := View();
      StopStep(s, c);
      PossibleIsEnabled(Call(c, 0));
      Take(Call(c, 0));
      ReachesSelf(s);
      ReachesNext(s, s, Call(c, 0), View());
    }

    /** A `Stop` that has been called and has not yet checked the flag. */
    method CallStop(c: nat, early: seq<Act<T>>)
      requires Valid() && Begun(View()) && c < |callers| && callers[c].Outside?
      modifies this
      ensures Valid() && Begun(View()) && Reaches(old(View()), View())
      ensures |callers| == |old(callers)| && |workers| == |old(workers)| && callers[c].StopChecking?
      ensures |callers| == 1 ==> isRunning == old(isRunning)
      ensures early == [] && old(Quiet(View())) ==> Quiet(View())
    {
      ghost var s := View();
      BeginStopping(c);
      ghost var called := View();
      QuietStays(s, called, c);
      Meanwhile(c, early);
      ReachesJoin(s, called, View());
    }

    /** `Stop` up to its check of the flag. */
    method CheckFlag(c: nat, early: seq<Act<T>>)
      requires Valid() && Begun(View()) && c < |callers| && callers[c].Outside?
      modifies this
      ensures Valid() && Begun(View()) && Reaches(old(View()), View())
      ensures |callers| == |old(callers)| && |workers| == |old(workers)|
      ensures callers[c] == if isRunning then StopClearing else Outside
      ensures |callers| == 1 ==> isRunning == old(isRunning)
      ensures early == [] && old(Quiet(View())) ==> Quiet(View())
    {
      ghost var s := View();
      CallStop(c, early);
      ghost var mid := View();
      TakeStop(c);
      QuietStays(mid, View(), c);
      ReachesJoin(s, mid, View());
    }

    /** The statement that clears the flag, after a pause. */
    method ClearFlag(c: nat, late: seq<Act<T>>)
      requires Valid() && Begun(View()) && c < |callers| && callers[c].StopClearing?
      modifies this
      ensures Valid() && Stopping(View()) && Reaches(old(View()), View())
      ensures |callers| == |old(callers)| && callers[c].WakeLocking?
      ensures |callers| == 1 && old(isRunning) && old(workers) != [] ==> Quiet(View())
      ensures late == [] && old(Quiet(View())) ==> Quiet(View())
    {
      ghost var s := View();
      Meanwhile(c, late);
      ghost var mid := View();
      RunningHasWorkers(mid);
      TakeStop(c);
      QuietStays(mid, View(), c);
      ReachesJoin(s, mid, View());
    }

    /** `Stop` until the flag is cleared, by it or by another. */
    method StopFlag(c: nat, early: seq<Act<T>>, late: seq<Act<T>>)
      requires Valid() && Begun(View()) && c < |callers| && callers[c].Outside?
      modifies this
      ensures Valid() && Stopping(View()) && c < |callers| && Reaches(old(View()), View())
      ensures |old(callers)| == 1 && old(isRunning) && old(workers) != [] ==> Quiet(View())
      ensures early == [] && late == [] && old(Quiet(View())) ==> Quiet(View())
    {
      ghost var s := View();
      CheckFlag(c, early);
      if callers[c].StopClearing? {
        ghost var mid := View();
        ClearFlag(c, late);
        ReachesJoin(s, mid, View());
      }
    }

    /** `Stop` and then `Join`, as at the end of the example program: both return, with all workers gone,
        whatever the other threads do before the check of the flag (`early`), between the check and the
        clearing (`late`), and afterwards, when they may begin the calls in `stopping` and `joining`.
        Everything pushed, and so everything accepted, has then been run in order if no caller was
        between its check and the mutex when the flag was cleared. */
    method StopAndJoin(c: nat, early: seq<Act<T>>, late: seq<Act<T>>, stopping: seq<Act<T>>, joining: seq<Act<T>>)
      returns (ghost cleared: Pool<T>)
      requires Valid() && Begun(View()) && c < |callers| && callers[c].Outside?
      modifies this
      ensures Valid() && !isRunning && c < |callers| && callers[c].Outside?
      ensures Stopping(cleared) && Reaches(old(View()), cleared) && Reaches(cleared, View())
      ensures forall i :: 0 <= i < |workers| ==> workers[i].Exited?
      ensures Quiet(cleared) ==>
        && taskQueue == [] && popped == pushed && multiset(ran) == multiset(pushed)
        && multiset(accepted) <= multiset(ran)
      ensures |old(callers)| == 1 && old(isRunning) && old(workers) != [] ==> Quiet(cleared)
      ensures early == [] && late == [] && old(Quiet(View())) ==> Quiet(cleared)
    {
      StopFlag(c, early, late);
      cleared := View();
      RunUntilBack(c, stopping);
      ghost var back := View();
      Take(BeginJoin(c));
      ghost var joined := View();
      StoppingKept(back, BeginJoin(c));
      RunUntilBack(c, joining);
      JoinEnds(cleared, back, c, joined, View());
    }
  }

  lemma StepEnds<T(!new)>(s: Pool<T>, mid: Pool<T>, a: Act<T>, last: Pool<T>)
    requires Reaches(s, mid) && Stopping(mid) && Follows(mid, a, last)
    ensures Reaches(s, last) && Stopping(last) && |last.callers| == |mid.callers|
    ensures !IsCall(a) ==> Measure(last) < Measure(mid)
  {
    ReachesNext(s, mid, a, last);
    StoppingKept(mid, a);
    MeasureDrops(mid, a);
    SameCallers(mid, a);
  }

  lemma JoinEnds<T(!new)>(cleared: Pool<T>, back: Pool<T>, c: nat, joined: Pool<T>, last: Pool<T>)
    requires Inv(cleared) && Stopping(cleared) && Reaches(cleared, back) && Follows(back, BeginJoin(c), joined)
    requires Reaches(joined, last) && c < |last.callers| && last.callers[c].Outside?
    ensures Reaches(cleared, last) && AllExited(last)
    ensures Quiet(cleared) ==> Served(last) && Kept(last)
  {
    var acts :| Run(joined, acts, last);
    JoinReturnsLast(back, acts, last, c);
    ReachesNext(cleared, back, BeginJoin(c), joined);
    ReachesJoin(cleared, joined, last);
    if Quiet(cleared) {
      var all :| Run(cleared, all, last);
      ClosedRunServes(cleared, all, last);
    }
  }

  lemma RecordsAgree<T>(s: Pool<T>)
    requires Inv(s)
    ensures s.pushed == s.popped + s.queue
    ensures AllExited(s) ==> s.queue == s.late && multiset(s.ran) == multiset(s.popped)
  {
    if AllExited(s) {
      BagEmpty(s.workers, InHand);
    }
  }

  lemma WakeUnused<T>(s: Pool<T>, c: nat, wake: nat)
    requires CanCall(s, c, wake) && !InEqueue(s.callers[c])
    ensures CanCall(s, c, 0) && CallerStep(s, c, 0) == CallerStep(s, c, wake)
  {
  }

  predicate InEqueue<T>(d: Caller<T>) {
    d.Checking? || d.Entering? || d.Pushing? || d.Signalling? || d.Finishing?
  }
}
