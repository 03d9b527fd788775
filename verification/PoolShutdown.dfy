/** What stopping the thread pool comes to: that it ends, and which tasks have been run by then. */
module PoolShutdown {
  import opened Tally
  import opened PoolMachine
  import opened PoolInvariants
  import opened PoolTheorems

  /** `Start` has set the flag and a `Stop` has cleared it. */
  predicate Stopping<T>(s: Pool<T>) { Begun(s) && !s.running }

  // ---- a bound on what is left to do ----

  /** At most how many steps a worker takes, apart from those a further task costs. */
  function Weight<T>(w: Worker<T>): nat {
    match w
    case Unstarted => 9
    case Counting => 9
    case Waiting => 8
    case Asleep => 7
    case Releasing(_) => 7
    case Awake => 6
    case Running(_) => 6
    case Locking => 5
    case Uncounting => 5
    case Testing => 4
    case Retesting => 3
    case Taking => 2
    case Leaving => 1
    case Exited => 0
  }

  /** At most how many steps a caller takes in its present call and causes by it. */
  function Duty<T>(d: Caller<T>): nat {
    match d
    case Outside => 0
    case Checking(_) => 1
    case Entering(_) => 11
    case Pushing(_) => 10
    case Signalling(_) => 2
    case Finishing(_) => 1
    case StopChecking => 1
    case StopClearing => 4
    case WakeLocking => 3
    case WakeTesting => 2
    case WakeUnlocking => 1
    case Joining(left) => left + 1
  }

  function StartsLeft<T>(s: Pool<T>): nat {
    match s.starter
    case Launching(k) => if k <= |s.workers| then |s.workers| - k + 1 else 1
    case _ => 0
  }

  function Measure<T>(s: Pool<T>): nat {
    Sum(s.workers, Weight) + Sum(s.callers, Duty) + 6 * |s.queue| + StartsLeft(s)
  }

  predicate IsCall<T>(a: Act<T>) { a.BeginEqueue? || a.BeginStop? || a.BeginJoin? }

  /** A new call adds this much to what is left to do; of `n` threads, a `Join` waits for each. */
  function Added<T>(a: Act<T>, n: nat): nat { if a.BeginJoin? then n + 1 else 1 }

  lemma StoppingKept<T>(s: Pool<T>, a: Act<T>)
    requires Stopping(s) && Enabled(s, a)
    ensures Stopping(Apply(s, a))
  {
  }

  lemma WorkerTires<T>(s: Pool<T>, i: nat)
    requires Stopping(s) && CanWork(s, i) && HasFront(s, i)
    ensures var s' := WorkerStep(s, i);
      && s'.workers == s.workers[i := s'.workers[i]] && s'.callers == s.callers && s'.starter == s.starter
      && Weight(s'.workers[i]) + 6 * |s'.queue| < Weight(s.workers[i]) + 6 * |s.queue|
  {
  }

  lemma CallerTires<T>(s: Pool<T>, c: nat, wake: nat)
    requires Stopping(s) && CanCall(s, c, wake)
    ensures var s' := CallerStep(s, c, wake);
      && s'.callers == s.callers[c := s'.callers[c]] && s'.starter == s.starter
      && Duty(s'.callers[c]) + 6 * |s'.queue| < Duty(s.callers[c]) + 6 * |s.queue|
  {
  }

  lemma MeasureWork<T>(s: Pool<T>, i: nat)
    requires Stopping(s) && CanWork(s, i) && HasFront(s, i)
    ensures Measure(WorkerStep(s, i)) < Measure(s) && |WorkerStep(s, i).workers| == |s.workers|
  {
    WorkerTires(s, i);
    SumUpdate(s.workers, i, WorkerStep(s, i).workers[i], Weight);
  }

  lemma MeasureCall<T>(s: Pool<T>, c: nat, wake: nat)
    requires Stopping(s) && CanCall(s, c, wake)
    ensures Measure(CallerStep(s, c, wake)) < Measure(s) && |CallerStep(s, c, wake).workers| == |s.workers|
  {
    CallerTires(s, c, wake);
    CallerWakes(s, c, wake);
    SumAtMost(s.workers, CallerStep(s, c, wake).workers, Weight);
    SumUpdate(s.callers, c, CallerStep(s, c, wake).callers[c], Duty);
  }

  lemma MeasureStart<T>(s: Pool<T>)
    requires Stopping(s) && CanStart(s)
    ensures Measure(StarterStep(s)) < Measure(s) && |StarterStep(s).workers| == |s.workers|
  {
    if s.starter.k < |s.workers| {
      SumUpdate(s.workers, s.starter.k, Locking, Weight);
    }
  }

  lemma MeasureBegin<T>(s: Pool<T>, c: nat, d: Caller<T>)
    requires c < |s.callers| && s.callers[c] == Outside
    ensures Measure(PutC(s, c, d)) == Measure(s) + Duty(d)
  {
    SumUpdate(s.callers, c, d, Duty);
  }

  /** Every step but the beginning of a call leaves less to do. */
  lemma MeasureDrops<T>(s: Pool<T>, a: Act<T>)
    requires Stopping(s) && Enabled(s, a)
    ensures |Apply(s, a).workers| == |s.workers|
    ensures if IsCall(a) then Measure(Apply(s, a)) <= Measure(s) + Added(a, |s.workers|) else Measure(Apply(s, a)) < Measure(s)
  {
    match a
    case Start => MeasureStart(s);
    case Work(i) => MeasureWork(s, i);
    case Spurious(i) => SumUpdate(s.workers, i, Awake, Weight);
    case BeginEqueue(c, t) => MeasureBegin(s, c, Checking(t));
    case BeginStop(c) => MeasureBegin(s, c, StopChecking);
    case BeginJoin(c) => MeasureBegin(s, c, Joining(|s.workers|));
    case Call(c, wake) => MeasureCall(s, c, wake);
  }

  /** The steps of a schedule, not counting beginnings of calls ... */
  function Steps<T>(acts: seq<Act<T>>): nat {
    if acts == [] then 0 else (if IsCall(acts[0]) then 0 else 1) + Steps(acts[1..])
  }

  /** ... and what the calls begun in it add. */
  function CallsCost<T>(acts: seq<Act<T>>, n: nat): nat {
    if acts == [] then 0 else (if IsCall(acts[0]) then Added(acts[0], n) else 0) + CallsCost(acts[1..], n)
  }

  /** With the flag cleared the whole program, its callers included, takes a bounded number of steps,
      however the threads are scheduled; only a new call can add to them, and only a fixed amount. */
  lemma {:induction false} StopTerminates<T>(s: Pool<T>, acts: seq<Act<T>>, last: Pool<T>)
    requires Stopping(s) && Run(s, acts, last)
    ensures Stopping(last) && |last.workers| == |s.workers|
    ensures Steps(acts) + Measure(last) <= Measure(s) + CallsCost(acts, |s.workers|)
    decreases |acts|
  {
    if acts != [] {
      StoppingKept(s, acts[0]);
      MeasureDrops(s, acts[0]);
      StopTerminates(Apply(s, acts[0]), acts[1..], last);
    }
  }

  // ---- somebody can go on until everything is over ----

  /** Steps a thread takes by itself, without a new call and without a spurious wakeup. */
  predicate Own<T>(a: Act<T>) { a.Start? || a.Work? || a.Call? }

  /** Every worker has left and every call has returned. */
  predicate Over<T>(s: Pool<T>) {
    AllExited(s) && s.starter.Started? && forall c :: 0 <= c < |s.callers| ==> s.callers[c].Outside?
  }

  lemma HolderMoves<T>(s: Pool<T>) returns (a: Act<T>)
    requires Inv(s) && s.lock.Some?
    ensures Enabled(s, a) && Own(a) && (a.Call? ==> s.lock == Some(C(a.c)) && a.wake <= |s.workers|)
  {
    if s.lock.value.W? {
      var i := s.lock.value.i;
      assert WorkerHolds(s.workers[i]) && WorkerOk(s.workers[i], |s.queue| > 0, s.running, s.swept);
      a := Work(i);
    } else {
      var c := s.lock.value.c;
      assert CallerHolds(s.callers[c]);
      if NoneAsleep(s) {
        a := Call(c, 0);
      } else {
        var i :| 0 <= i < |s.workers| && s.workers[i].Asleep?;
        a := Call(c, i);
      }
    }
  }

  /** A worker still asleep has a broadcast coming. */
  lemma WorkerMoves<T>(s: Pool<T>, i: nat) returns (a: Act<T>)
    requires Inv(s) && Stopping(s) && s.lock == None && i < |s.workers| && !s.workers[i].Exited?
    ensures Enabled(s, a) && Own(a) && (a.Call? ==> s.callers[a.c].WakeLocking? && a.wake == 0)
  {
    assert WorkerOk(s.workers[i], |s.queue| > 0, s.running, s.swept);
    if s.workers[i].Unstarted? {
      a := Start;
    } else if s.workers[i].Asleep? {
      var c :| 0 <= c < |s.callers| && (s.callers[c].WakeLocking? || s.callers[c].WakeTesting?);
      assert !CallerHolds(s.callers[c]);
      a := Call(c, 0);
    } else {
      a := Work(i);
    }
  }

  lemma CallerMoves<T>(s: Pool<T>, c: nat)
    requires AllExited(s) && s.lock == None && c < |s.callers| && s.callers[c] != Outside
    ensures Enabled(s, Call(c, 0))
  {
  }

  lemma SomebodyMoves<T>(s: Pool<T>) returns (a: Act<T>)
    requires Inv(s) && Stopping(s) && !Over(s)
    ensures Enabled(s, a) && Own(a) && (a.Call? ==> a.wake <= |s.workers|)
  {
    if s.lock.Some? {
      a := HolderMoves(s);
    } else if !AllExited(s) {
      var i :| 0 <= i < |s.workers| && !s.workers[i].Exited?;
      a := WorkerMoves(s, i);
    } else if !s.starter.Started? {
      a := Start;
    } else {
      var c :| 0 <= c < |s.callers| && !s.callers[c].Outside?;
      CallerMoves(s, c);
      a := Call(c, 0);
    }
  }

  /** ... and it comes to rest only with all workers gone and all calls returned, `Join` among them. */
  lemma StopProgresses<T>(s: Pool<T>, acts: seq<Act<T>>, last: Pool<T>)
    requires Init(s) && Run(s, acts, last) && Stopping(last)
    ensures Over(last) <==> forall a: Act<T> :: Own(a) ==> !Enabled(last, a)
  {
    InvInit(s);
    RunKeepsInv(s, acts, last);
    if !Over(last) {
      var a := SomebodyMoves(last);
    }
  }

  /** Every worker waits on the condition, and the calls under way are `Join`s waiting for a thread. */
  predicate Resting<T>(s: Pool<T>) {
    && s.starter.Started? && (forall i :: 0 <= i < |s.workers| ==> s.workers[i].Asleep?)
    && forall c :: 0 <= c < |s.callers| ==>
         s.callers[c].Outside? || (s.callers[c].Joining? && 0 < s.callers[c].left <= |s.workers|)
  }

  lemma RestingWhen<T>(s: Pool<T>)
    requires Inv(s) && s.running && s.workers != [] && forall a: Act<T> :: Own(a) ==> !Enabled(s, a)
    ensures Resting(s) && s.lock == None
  {
    if s.lock.Some? {
      var a := HolderMoves(s);
    }
    var start: Act<T> := Start;
    assert Own(start) && !Enabled(s, start);
    forall i | 0 <= i < |s.workers| ensures s.workers[i].Asleep? {
      var a: Act<T> := Work(i);
      assert Own(a) && !Enabled(s, a);
      StillWorker(s, i);
    }
    forall c | 0 <= c < |s.callers|
      ensures s.callers[c].Outside? || (s.callers[c].Joining? && 0 < s.callers[c].left <= |s.workers|)
    {
      var a: Act<T> := Call(c, 0);
      assert !CallerHolds(s.callers[c]) && Own(a) && !Enabled(s, a);
    }
  }

  lemma StillWorker<T>(s: Pool<T>, i: nat)
    requires Core(s) && s.running && s.lock == None && s.starter.Started? && i < |s.workers| && !Enabled(s, Work(i))
    ensures s.workers[i].Asleep?
  {
    assert WorkerOk(s.workers[i], |s.queue| > 0, s.running, s.swept);
  }

  lemma RestingServed<T>(s: Pool<T>)
    requires Inv(s) && s.running && s.workers != [] && Resting(s)
    ensures Served(s) && Kept(s)
  {
    assert !SomeUp(s) && !SomeSignalling(s);
    BagEmpty(s.workers, InHand);
  }

  lemma RestingStays<T>(s: Pool<T>, a: Act<T>)
    requires Resting(s) && Own(a)
    ensures !Enabled(s, a)
  {
  }

  /** Why it is enough to signal only when every thread counts as asleep: a running pool comes to rest
      only with every worker waiting, and then nothing is left in the queue or unrun. */
  lemma RunningPoolRests<T>(s: Pool<T>, acts: seq<Act<T>>, last: Pool<T>)
    requires Init(s) && s.workers != [] && Run(s, acts, last) && last.running
    ensures Resting(last) <==> forall a: Act<T> :: Own(a) ==> !Enabled(last, a)
    ensures Resting(last) ==> Served(last) && Kept(last)
  {
    InvInit(s);
    RunKeepsInv(s, acts, last);
    SameWorkers(s, acts, last);
    if forall a: Act<T> :: Own(a) ==> !Enabled(last, a) {
      RestingWhen(last);
    }
    if Resting(last) {
      RestingServed(last);
      forall a: Act<T> | Own(a) ensures !Enabled(last, a) {
        RestingStays(last, a);
      }
    }
  }

  // ---- `Join` ----

  /** Caller `c` inside `Join` has found the threads before the one it waits for gone. */
  predicate JoinedSoFar<T>(s: Pool<T>, c: nat) {
    && c < |s.callers| && s.callers[c].Joining? && s.callers[c].left <= |s.workers|
    && forall i :: 0 <= i < |s.workers| - s.callers[c].left ==> s.workers[i].Exited?
  }

  lemma ExitedStays<T>(s: Pool<T>, a: Act<T>)
    requires Enabled(s, a)
    ensures |Apply(s, a).workers| == |s.workers|
    ensures forall i :: 0 <= i < |s.workers| && s.workers[i].Exited? ==> Apply(s, a).workers[i].Exited?
  {
    match a
    case Start => StartLeaves(s);
    case Work(i) => WorkMovesOne(s, i);
    case Spurious(i) =>
    case BeginEqueue(c, t) =>
    case BeginStop(c) =>
    case BeginJoin(c) =>
    case Call(c, wake) => CallerWakes(s, c, wake);
  }

  lemma OthersStay<T>(s: Pool<T>, a: Act<T>, c: nat)
    requires Enabled(s, a) && c < |s.callers| && s.callers[c] != Outside && !(a.Call? && a.c == c)
    ensures c < |Apply(s, a).callers| && Apply(s, a).callers[c] == s.callers[c]
  {
    match a
    case Start => StartLeaves(s);
    case Work(i) => WorkLeaves(s, i);
    case Spurious(i) =>
    case BeginEqueue(k, t) =>
    case BeginStop(k) =>
    case BeginJoin(k) =>
    case Call(k, wake) => CallLeaves(s, k, wake);
  }

  lemma JoinGoesOn<T>(s: Pool<T>, a: Act<T>, c: nat)
    requires Enabled(s, a) && (AllExited(s) || JoinedSoFar(s, c))
    ensures AllExited(Apply(s, a)) || JoinedSoFar(Apply(s, a), c)
  {
    ExitedStays(s, a);
    if JoinedSoFar(s, c) && !(a.Call? && a.c == c) {
      OthersStay(s, a, c);
    }
  }

  lemma {:induction false} JoinRun<T>(s: Pool<T>, acts: seq<Act<T>>, last: Pool<T>, c: nat)
    requires Run(s, acts, last) && (AllExited(s) || JoinedSoFar(s, c))
    ensures AllExited(last) || JoinedSoFar(last, c)
    decreases |acts|
  {
    if acts != [] {
      JoinGoesOn(s, acts[0], c);
      JoinRun(Apply(s, acts[0]), acts[1..], last, c);
    }
  }

  /** When `Join` has returned, all workers have left. */
  lemma JoinReturnsLast<T>(s: Pool<T>, acts: seq<Act<T>>, last: Pool<T>, c: nat)
    requires Enabled(s, BeginJoin(c)) && Run(Apply(s, BeginJoin(c)), acts, last)
    requires c < |last.callers| && last.callers[c].Outside?
    ensures AllExited(last)
  {
    JoinRun(Apply(s, BeginJoin(c)), acts, last, c);
  }

  // ---- which accepted tasks are run ----

  lemma {:induction false} GoneForGood<T>(s: Pool<T>, acts: seq<Act<T>>, last: Pool<T>)
    requires AllExited(s) && Run(s, acts, last)
    ensures AllExited(last) && last.ran == s.ran && last.popped == s.popped && s.queue <= last.queue
    decreases |acts|
  {
    if acts != [] {
      GoneNext(s, acts[0]);
      GoneForGood(Apply(s, acts[0]), acts[1..], last);
    }
  }

  lemma GoneNext<T>(s: Pool<T>, a: Act<T>)
    requires AllExited(s) && Enabled(s, a)
    ensures var s' := Apply(s, a);
      AllExited(s') && s'.ran == s.ran && s'.popped == s.popped && s.queue <= s'.queue
  {
    ExitedStays(s, a);
  }

  /** A pool built for no threads accepts tasks and never runs any. */
  lemma EmptyPoolRunsNothing<T>(s: Pool<T>, acts: seq<Act<T>>, last: Pool<T>)
    requires Init(s) && s.workers == [] && Run(s, acts, last)
    ensures last.ran == [] && last.queue == last.pushed && multiset(last.accepted) <= multiset(last.queue)
    ensures Kept(last) <==> last.accepted == []
  {
    InvInit(s);
    RunKeepsInv(s, acts, last);
    GoneForGood(s, acts, last);
  }

  /** No `Equeue` is between its check of the flag and the mutex. */
  predicate NobodyEntering<T>(s: Pool<T>) {
    forall c :: 0 <= c < |s.callers| ==> !s.callers[c].Entering?
  }

  /** Everything pushed has been run. */
  ghost predicate Served<T>(s: Pool<T>) {
    s.queue == [] && s.popped == s.pushed && multiset(s.ran) == multiset(s.pushed)
  }

  /** Everything for which `Equeue` has returned true has been run. */
  ghost predicate Kept<T>(s: Pool<T>) { multiset(s.accepted) <= multiset(s.ran) }

  /** Nobody can push any more once the workers have left. */
  ghost predicate Closed<T>(s: Pool<T>) {
    && Stopping(s) && s.late == [] && NobodyEntering(s)
    && (AllExited(s) ==> forall c :: 0 <= c < |s.callers| ==> !s.callers[c].Pushing?)
  }

  /** The last worker to leave holds the mutex, so nobody is about to push. */
  lemma ClosedWork<T>(s: Pool<T>, i: nat)
    requires Locked(s) && Closed(s) && CanWork(s, i) && HasFront(s, i)
    ensures Closed(WorkerStep(s, i))
  {
    var s' := WorkerStep(s, i);
    assert s'.callers == s.callers && s'.late == s.late;
    if AllExited(s') {
      assert s'.workers[i].Exited?;
      assert WorkerHolds(s.workers[i]);
      assert forall c :: 0 <= c < |s.callers| ==> !CallerHolds(s.callers[c]);
    }
  }

  lemma ClosedCall<T>(s: Pool<T>, c: nat, wake: nat)
    requires Closed(s) && CanCall(s, c, wake)
    ensures Closed(CallerStep(s, c, wake))
  {
    var s' := CallerStep(s, c, wake);
    CallerWakes(s, c, wake);
    assert AllExited(s') ==> AllExited(s);
    assert s'.callers == s.callers[c := s'.callers[c]];
  }

  lemma ClosedKept<T>(s: Pool<T>, a: Act<T>)
    requires Locked(s) && Closed(s) && Enabled(s, a)
    ensures Closed(Apply(s, a))
  {
    match a
    case Start =>
      StartLeaves(s);
    case Work(i) => ClosedWork(s, i);
    case Spurious(i) => assert !Apply(s, a).workers[i].Exited?;
    case BeginEqueue(c, t) =>
    case BeginStop(c) =>
    case BeginJoin(c) =>
    case Call(c, wake) => ClosedCall(s, c, wake);
  }

  lemma {:induction false} ClosedForGood<T>(s: Pool<T>, acts: seq<Act<T>>, last: Pool<T>)
    requires Inv(s) && Closed(s) && Run(s, acts, last)
    ensures Inv(last) && Closed(last)
    decreases |acts|
  {
    if acts != [] {
      InvKept(s, acts[0]);
      ClosedKept(s, acts[0]);
      ClosedForGood(Apply(s, acts[0]), acts[1..], last);
    }
  }

  lemma ClosedServes<T>(s: Pool<T>)
    requires Inv(s) && s.late == [] && AllExited(s)
    ensures Served(s) && Kept(s)
  {
    BagEmpty(s.workers, InHand);
  }

  // ---- a caller that enters late ----

  /** While caller `c` stands before the mutex, everybody else can finish. */
  lemma WorkersLeaveBefore<T>(s: Pool<T>, c: nat) returns (acts: seq<Act<T>>, last: Pool<T>)
    requires Inv(s) && Stopping(s) && c < |s.callers| && s.callers[c].Entering?
    ensures Run(s, acts, last) && Inv(last) && AllExited(last) && last.lock == None
    ensures c < |last.callers| && last.callers[c] == s.callers[c]
    decreases Measure(s)
  {
    var a: Act<T>;
    if s.lock.Some? {
      a := HolderMoves(s);
    } else if !AllExited(s) {
      var i :| 0 <= i < |s.workers| && !s.workers[i].Exited?;
      a := WorkerMoves(s, i);
    } else {
      return [], s;
    }
    InvKept(s, a);
    StoppingKept(s, a);
    MeasureDrops(s, a);
    OthersStay(s, a, c);
    acts, last := WorkersLeaveBefore(Apply(s, a), c);
    RunFirst(s, a, acts, last);
    acts := [a] + acts;
  }

  lemma RunFirst<T>(s: Pool<T>, a: Act<T>, acts: seq<Act<T>>, last: Pool<T>)
    requires Enabled(s, a) && Run(Apply(s, a), acts, last)
    ensures Run(s, [a] + acts, last)
  {
    assert ([a] + acts)[1..] == acts;
  }

  lemma Joined<U>(a: seq<U>, b: seq<U>)
    ensures if a == [] then a + b == b else [a[0]] + (a[1..] + b) == a + b
  {
  }

  lemma RunThen<T>(s: Pool<T>, a: Act<T>, next: Pool<T>, acts: seq<Act<T>>, last: Pool<T>)
    requires Enabled(s, a) && next == Apply(s, a) && Run(next, acts, last)
    ensures Run(s, [a] + acts, last)
  {
    RunFirst(s, a, acts, last);
  }

  lemma {:induction false} RunJoin<T>(s: Pool<T>, acts: seq<Act<T>>, mid: Pool<T>, more: seq<Act<T>>, last: Pool<T>)
    requires Run(s, acts, mid) && Run(mid, more, last)
    ensures Run(s, acts + more, last)
    decreases |acts|
  {
    Joined(acts, more);
    if acts != [] {
      var a, next := acts[0], Apply(s, acts[0]);
      RunJoin(next, acts[1..], mid, more, last);
      RunThen(s, a, next, acts[1..] + more, last);
    }
  }

  lemma Two<T>(s: Pool<T>, a: Act<T>, b: Act<T>, last: Pool<T>)
    requires Enabled(s, a) && Enabled(Apply(s, a), b) && Apply(Apply(s, a), b) == last
    ensures Run(s, [a, b], last)
  {
    assert [a, b][1..] == [b] && [b][1..] == [];
  }

  lemma LatePush<T>(s: Pool<T>, c: nat, x: T)
    requires AllExited(s) && s.lock == None && c < |s.callers| && s.callers[c] == Entering(x)
    ensures Run(s, [Call(c, 0), Call(c, 0)],
                PutC(s, c, Signalling(x)).(lock := Some(C(c)), queue := s.queue + [x], pushed := s.pushed + [x], late := s.late + [x]))
  {
    Two(s, Call(c, 0), Call(c, 0),
        PutC(s, c, Signalling(x)).(lock := Some(C(c)), queue := s.queue + [x], pushed := s.pushed + [x], late := s.late + [x]));
  }

  lemma LateReturn<T>(s: Pool<T>, c: nat, x: T)
    requires AllExited(s) && c < |s.callers| && s.callers[c] == Signalling(x)
    ensures Run(s, [Call(c, 0), Call(c, 0)], PutC(s, c, Outside).(lock := None, accepted := s.accepted + [x]))
  {
    Two(s, Call(c, 0), Call(c, 0), PutC(s, c, Outside).(lock := None, accepted := s.accepted + [x]));
  }

  /** With everybody out and something in the queue, something has been accepted and not run. */
  lemma LeftoversAccepted<T>(s: Pool<T>)
    requires Inv(s) && AllExited(s) && s.lock == None && s.queue != []
    ensures !Kept(s)
  {
    BagEmpty(s.workers, InHand);
    forall c | 0 <= c < |s.callers| ensures Unanswered(s.callers[c]) == None {
      assert !CallerHolds(s.callers[c]);
    }
    BagEmpty(s.callers, Unanswered);
    Outnumbered(s.accepted, s.pushed, s.popped, s.ran);
  }

  lemma Outnumbered<T>(accepted: seq<T>, pushed: seq<T>, popped: seq<T>, ran: seq<T>)
    requires multiset(accepted) == multiset(pushed) && multiset(ran) == multiset(popped) && |pushed| > |popped|
    ensures !(multiset(accepted) <= multiset(ran))
  {
    assert |multiset(accepted)| == |pushed| by {
      assert |multiset(pushed)| == |pushed|;
    }
    assert |multiset(ran)| == |popped| by {
      assert |multiset(popped)| == |popped|;
    }
    if multiset(accepted) <= multiset(ran) {
      PartIsSmaller(multiset(accepted), multiset(ran));
    }
  }

  lemma PartIsSmaller<T>(a: multiset<T>, b: multiset<T>)
    requires a <= b
    ensures |a| <= |b|
  {
    assert b == a + (b - a);
  }

  /** A caller past the check and before the mutex may be held up until the workers have left; its
      task is then accepted and never run. */
  lemma EnteringMayLose<T>(s: Pool<T>, c: nat) returns (acts: seq<Act<T>>, last: Pool<T>)
    requires Inv(s) && Stopping(s) && c < |s.callers| && s.callers[c].Entering?
    ensures Run(s, acts, last) && AllExited(last) && !Kept(last) && last.queue != []
  {
    var x := s.callers[c].task;
    var left: Pool<T>;
    acts, left := WorkersLeaveBefore(s, c);
    var pushed := PutC(left, c, Signalling(x)).(lock := Some(C(c)), queue := left.queue + [x],
                                                pushed := left.pushed + [x], late := left.late + [x]);
    last := PutC(pushed, c, Outside).(lock := None, accepted := left.accepted + [x]);
    LatePush(left, c, x);
    LateReturn(pushed, c, x);
    RunJoin(left, [Call(c, 0), Call(c, 0)], pushed, [Call(c, 0), Call(c, 0)], last);
    RunKeepsInv(left, [Call(c, 0), Call(c, 0)] + [Call(c, 0), Call(c, 0)], last);
    LeftoversAccepted(last);
    RunJoin(s, acts, left, [Call(c, 0), Call(c, 0)] + [Call(c, 0), Call(c, 0)], last);
    acts := acts + ([Call(c, 0), Call(c, 0)] + [Call(c, 0), Call(c, 0)]);
  }

  /** In every run from `s` in which all workers have left, every accepted task has been run. */
  ghost predicate SureToRun<T(!new)>(s: Pool<T>) {
    forall acts, last :: Run(s, acts, last) && AllExited(last) ==> Kept(last)
  }

  /** ... and everything pushed has been run, and the queue is empty. */
  ghost predicate SureToServe<T(!new)>(s: Pool<T>) {
    forall acts, last :: Run(s, acts, last) && AllExited(last) ==> Served(last)
  }

  lemma ClosedRunServes<T>(s: Pool<T>, acts: seq<Act<T>>, last: Pool<T>)
    requires Inv(s) && Stopping(s) && !AllExited(s) && NobodyEntering(s) && Run(s, acts, last) && AllExited(last)
    ensures Served(last) && Kept(last)
  {
    ClosedForGood(s, acts, last);
    ClosedServes(last);
  }

  lemma KeptExactly<T(!new)>(s: Pool<T>)
    requires Inv(s) && Stopping(s) && !AllExited(s)
    ensures NobodyEntering(s) <==> SureToRun(s)
    ensures NobodyEntering(s) <==> SureToServe(s)
  {
    if NobodyEntering(s) {
      forall acts, last | Run(s, acts, last) && AllExited(last) ensures Served(last) && Kept(last) {
        ClosedRunServes(s, acts, last);
      }
    } else {
      var c :| 0 <= c < |s.callers| && s.callers[c].Entering?;
      var acts, last := EnteringMayLose(s, c);
      assert Run(s, acts, last) && AllExited(last) && !Kept(last) && !Served(last);
    }
  }

  /** With the flag cleared and a worker left, every accepted task is sure to be run by the time the
      workers leave if and only if no `Equeue` is between its check and the mutex. */
  lemma AcceptedTasksRunExactly<T(!new)>(s: Pool<T>, before: seq<Act<T>>, mid: Pool<T>)
    requires Init(s) && Run(s, before, mid) && Stopping(mid) && !AllExited(mid)
    ensures NobodyEntering(mid) <==> SureToRun(mid)
    ensures NobodyEntering(mid) <==> SureToServe(mid)
  {
    InvInit(s);
    RunKeepsInv(s, before, mid);
    KeptExactly(mid);
  }

  /** With nobody between check and mutex, even a task pushed after the flag was cleared is run. */
  lemma QuietStopRunsEverything<T>(s: Pool<T>, before: seq<Act<T>>, mid: Pool<T>, acts: seq<Act<T>>, last: Pool<T>)
    requires Init(s) && Run(s, before, mid) && Stopping(mid) && !AllExited(mid) && NobodyEntering(mid)
    requires Run(mid, acts, last) && AllExited(last)
    ensures Served(last) && Kept(last)
  {
    InvInit(s);
    RunKeepsInv(s, before, mid);
    ClosedRunServes(mid, acts, last);
  }

  /** The same, seen by the `Stop` that is about to clear the flag of a running pool. */
  lemma StopSafeExactly<T(!new)>(s: Pool<T>, before: seq<Act<T>>, mid: Pool<T>, c: nat)
    requires Init(s) && s.workers != [] && Run(s, before, mid) && mid.running
    requires c < |mid.callers| && mid.callers[c].StopClearing?
    ensures CanCall(mid, c, 0)
    ensures NobodyEntering(mid) <==> SureToRun(CallerStep(mid, c, 0))
    ensures NobodyEntering(mid) <==> SureToServe(CallerStep(mid, c, 0))
  {
    InvInit(s);
    RunKeepsInv(s, before, mid);
    SameWorkers(s, before, mid);
    ClearingChanges(mid, c);
    InvKept(mid, Call(c, 0));
    KeptExactly(CallerStep(mid, c, 0));
  }

  lemma ClearingChanges<T>(s: Pool<T>, c: nat)
    requires Core(s) && s.running && s.workers != [] && c < |s.callers| && s.callers[c].StopClearing?
    ensures CanCall(s, c, 0)
    ensures var s' := CallerStep(s, c, 0);
      Stopping(s') && !AllExited(s') && (NobodyEntering(s') <==> NobodyEntering(s))
  {
    var s' := CallerStep(s, c, 0);
    assert WorkerOk(s.workers[0], |s.queue| > 0, s.running, s.swept) && !s'.workers[0].Exited?;
    if NobodyEntering(s') {
      forall k | 0 <= k < |s.callers| ensures !s.callers[k].Entering? {
        assert k == c || s.callers[k] == s'.callers[k];
      }
    }
  }

  lemma {:induction false} SameWorkers<T>(s: Pool<T>, acts: seq<Act<T>>, last: Pool<T>)
    requires Run(s, acts, last)
    ensures |last.workers| == |s.workers| && |last.callers| == |s.callers|
    decreases |acts|
  {
    if acts != [] {
      ExitedStays(s, acts[0]);
      SameCallers(s, acts[0]);
      SameWorkers(Apply(s, acts[0]), acts[1..], last);
    }
  }

  lemma SameCallers<T>(s: Pool<T>, a: Act<T>)
    requires Enabled(s, a)
    ensures |Apply(s, a).callers| == |s.callers|
  {
    match a
    case Start => StartLeaves(s);
    case Work(i) => WorkLeaves(s, i);
    case Spurious(i) =>
    case BeginEqueue(c, t) =>
    case BeginStop(c) =>
    case BeginJoin(c) =>
    case Call(c, wake) => CallLeaves(s, c, wake);
  }

  // ---- a program with one controlling thread ----

  /** The only caller cannot be in the middle of an `Equeue` once it has cleared the flag. */
  ghost predicate Solo<T>(s: Pool<T>) {
    && |s.callers| == 1 && s.workers != [] && s.late == []
    && (s.callers[0].Entering? || s.callers[0].Pushing? ==> s.running)
  }

  lemma SoloCall<T>(s: Pool<T>, c: nat, wake: nat)
    requires Inv(s) && Solo(s) && CanCall(s, c, wake)
    ensures Solo(CallerStep(s, c, wake))
  {
    CallerWakes(s, c, wake);
    assert WorkerOk(s.workers[0], |s.queue| > 0, s.running, s.swept);
  }

  lemma SoloWork<T>(s: Pool<T>, i: nat)
    requires Solo(s) && CanWork(s, i) && HasFront(s, i)
    ensures Solo(WorkerStep(s, i))
  {
  }

  lemma SoloKept<T>(s: Pool<T>, a: Act<T>)
    requires Inv(s) && Solo(s) && Enabled(s, a)
    ensures Solo(Apply(s, a))
  {
    if a.Call? {
      SoloCall(s, a.c, a.wake);
    } else if a.Work? {
      SoloWork(s, a.i);
    }
  }

  lemma {:induction false} SoloRun<T>(s: Pool<T>, acts: seq<Act<T>>, last: Pool<T>)
    requires Inv(s) && Solo(s) && Run(s, acts, last)
    ensures Inv(last) && Solo(last)
    decreases |acts|
  {
    if acts != [] {
      InvKept(s, acts[0]);
      SoloKept(s, acts[0]);
      SoloRun(Apply(s, acts[0]), acts[1..], last);
    }
  }

  lemma OverAnswered<T>(s: Pool<T>)
    requires Answered(s) && Over(s)
    ensures multiset(s.accepted) == multiset(s.pushed)
  {
    BagEmpty(s.callers, Unanswered);
  }

  /** When one thread makes all the calls, as in the example program, a run in which it has cleared the
      flag and nobody can go on has all workers gone and all calls returned, and every task for which
      `Equeue` returned true has been taken in order and run exactly once. */
  lemma SoloRunsEverything<T>(s: Pool<T>, acts: seq<Act<T>>, last: Pool<T>)
    requires Init(s) && |s.callers| == 1 && s.workers != []
    requires Run(s, acts, last) && Stopping(last) && forall a: Act<T> :: Own(a) ==> !Enabled(last, a)
    ensures Over(last) && last.queue == [] && last.popped == last.pushed
    ensures multiset(last.ran) == multiset(last.pushed) == multiset(last.accepted)
  {
    InvInit(s);
    SoloRun(s, acts, last);
    StopProgresses(s, acts, last);
    ClosedServes(last);
    OverAnswered(last);
  }

  // ---- a task accepted and never run ----

  /** A pool of one worker and two callers, none of whose tasks has been taken, and in which a task
      can only have been pushed after the worker had left. */
  function Pair<T>(queue: seq<T>, running: bool, lock: Option<Agent>, starter: Starter, w: Worker<T>,
                   first: Caller<T>, second: Caller<T>, accepted: seq<T>): Pool<T>
  {
    Pool(queue, running, 0, lock, starter, [w], [first, second], false, queue, [], [], queue, accepted)
  }

  /** One caller has called `Equeue`, the pool runs ... */
  lemma LateCalls<T>(x: T) returns (acts: seq<Act<T>>)
    ensures Run(Pair([], false, None, StartChecking, Unstarted, Outside, Outside, []), acts,
                Pair([], true, None, Launching(1), Locking, Checking(x), Outside, []))
  {
    var s0: Pool<T> := Pair([], false, None, StartChecking, Unstarted, Outside, Outside, []);
    var s1: Pool<T> := Pair([], true, None, Launching(0), Unstarted, Outside, Outside, []);
    var s2: Pool<T> := Pair([], true, None, Launching(1), Locking, Checking(x), Outside, []);
    Two(s0, Start, Start, s1);
    Two(s1, Start, BeginEqueue(0, x), s2);
    acts := [Start, Start] + [Start, BeginEqueue(0, x)];
    RunJoin(s0, [Start, Start], s1, [Start, BeginEqueue(0, x)], s2);
  }

  /** ... it reads the flag as set and pauses, the other clears the flag ... */
  lemma LatePauses<T>(x: T) returns (acts: seq<Act<T>>)
    ensures Run(Pair([], true, None, Launching(1), Locking, Checking(x), Outside, []), acts,
                Pair([], false, None, Launching(1), Locking, Entering(x), WakeLocking, []))
  {
    var s0: Pool<T> := Pair([], true, None, Launching(1), Locking, Checking(x), Outside, []);
    var s1: Pool<T> := Pair([], true, None, Launching(1), Locking, Entering(x), StopChecking, []);
    var s2: Pool<T> := Pair([], false, None, Launching(1), Locking, Entering(x), WakeLocking, []);
    Two(s0, Call(0, 0), BeginStop(1), s1);
    Two(s1, Call(1, 0), Call(1, 0), s2);
    acts := [Call(0, 0), BeginStop(1)] + [Call(1, 0), Call(1, 0)];
    RunJoin(s0, [Call(0, 0), BeginStop(1)], s1, [Call(1, 0), Call(1, 0)], s2);
  }

  /** ... the worker finds the queue empty and leaves ... */
  lemma LateLeaves<T>(x: T) returns (acts: seq<Act<T>>)
    ensures Run(Pair([], false, None, Launching(1), Locking, Entering(x), WakeLocking, []), acts,
                Pair([], false, None, Launching(1), Exited, Entering(x), WakeLocking, []))
  {
    var s0: Pool<T> := Pair([], false, None, Launching(1), Locking, Entering(x), WakeLocking, []);
    var s1: Pool<T> := Pair([], false, Some(W(0)), Launching(1), Retesting, Entering(x), WakeLocking, []);
    var s2: Pool<T> := Pair([], false, None, Launching(1), Exited, Entering(x), WakeLocking, []);
    Two(s0, Work(0), Work(0), s1);
    Two(s1, Work(0), Work(0), s2);
    acts := [Work(0), Work(0)] + [Work(0), Work(0)];
    RunJoin(s0, [Work(0), Work(0)], s1, [Work(0), Work(0)], s2);
  }

  /** ... and the first goes on, pushes and returns true. */
  lemma LateAccepts<T>(x: T) returns (acts: seq<Act<T>>)
    ensures Run(Pair([], false, None, Launching(1), Exited, Entering(x), WakeLocking, []), acts,
                Pair([x], false, None, Launching(1), Exited, Outside, WakeLocking, [x]))
  {
    var s0: Pool<T> := Pair([], false, None, Launching(1), Exited, Entering(x), WakeLocking, []);
    var s1: Pool<T> := Pair([x], false, Some(C(0)), Launching(1), Exited, Signalling(x), WakeLocking, []);
    var s2: Pool<T> := Pair([x], false, None, Launching(1), Exited, Outside, WakeLocking, [x]);
    Two(s0, Call(0, 0), Call(0, 0), s1);
    Two(s1, Call(0, 0), Call(0, 0), s2);
    acts := [Call(0, 0), Call(0, 0)] + [Call(0, 0), Call(0, 0)];
    RunJoin(s0, [Call(0, 0), Call(0, 0)], s1, [Call(0, 0), Call(0, 0)], s2);
  }

  lemma LateRun<T>(x: T) returns (acts: seq<Act<T>>)
    ensures Run(Pair([], false, None, StartChecking, Unstarted, Outside, Outside, []), acts,
                Pair([x], false, None, Launching(1), Exited, Outside, WakeLocking, [x]))
  {
    var s: Pool<T> := Pair([], false, None, StartChecking, Unstarted, Outside, Outside, []);
    var called: Pool<T> := Pair([], true, None, Launching(1), Locking, Checking(x), Outside, []);
    var paused: Pool<T> := Pair([], false, None, Launching(1), Locking, Entering(x), WakeLocking, []);
    var left: Pool<T> := Pair([], false, None, Launching(1), Exited, Entering(x), WakeLocking, []);
    var last: Pool<T> := Pair([x], false, None, Launching(1), Exited, Outside, WakeLocking, [x]);
    acts := LateCalls(x);
    var more := LatePauses(x);
    RunJoin(s, acts, called, more, paused);
    acts := acts + more;
    more := LateLeaves(x);
    RunJoin(s, acts, paused, more, left);
    acts := acts + more;
    more := LateAccepts(x);
    RunJoin(s, acts, left, more, last);
    acts := acts + more;
  }

  /** The condition does fail: with two callers an `Equeue` can return true after the only worker has
      gone, and then no continuation runs its task. */
  lemma RacingEqueueLosesTask<T>(x: T)
    ensures exists s: Pool<T>, acts: seq<Act<T>>, last: Pool<T> ::
      && Init(s) && |s.callers| == 2 && |s.workers| == 1 && Run(s, acts, last)
      && last.accepted == [x] && AllExited(last)
      && forall more, end :: Run(last, more, end) ==> end.ran == [] && [x] <= end.queue
  {
    var s: Pool<T> := Pair([], false, None, StartChecking, Unstarted, Outside, Outside, []);
    var last: Pool<T> := Pair([x], false, None, Launching(1), Exited, Outside, WakeLocking, [x]);
    var acts := LateRun(x);
    forall more, end | Run(last, more, end) ensures end.ran == [] && [x] <= end.queue {
      GoneForGood(last, more, end);
    }
    assert Init(s) && Run(s, acts, last);
  }
}
