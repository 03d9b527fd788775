/** What a running thread pool does with the calls made on it: every call counts, every accepted task
    is run without any `Stop`. */
module PoolRunning {
  import opened Tally
  import opened PoolMachine
  import opened PoolInvariants
  import opened PoolTheorems
  import opened PoolShutdown

  // ---- what the schedule asked for, and what became of it ----

  /** The tasks passed to `Equeue` in a schedule. */
  function Tasks<T>(acts: seq<Act<T>>): multiset<T> {
    if acts == [] then multiset{} else OfferedBy(acts[0]) + Tasks(acts[1..])
  }

  /** The task, if the act is the check of an `Equeue` that finds the flag clear. */
  function RefusedBy<T>(s: Pool<T>, a: Act<T>): multiset<T> {
    if a.Call? && a.c < |s.callers| && s.callers[a.c].Checking? && !s.running then multiset{s.callers[a.c].task} else multiset{}
  }

  /** The tasks whose `Equeue` finds the flag clear in the course of a schedule. */
  function Refused<T>(s: Pool<T>, acts: seq<Act<T>>): multiset<T>
    decreases |acts|
  {
    if acts == [] || !Enabled(s, acts[0]) then multiset{}
    else RefusedBy(s, acts[0]) + Refused(Apply(s, acts[0]), acts[1..])
  }

  function Offering<T>(d: Caller<T>): Option<T> {
    if d.Checking? || d.Entering? || d.Pushing? then Some(d.task) else None
  }

  /** A caller's step: the task stays with it, is pushed, or is refused by a pool whose flag is clear. */
  ghost predicate OfferMoves<T>(s: Pool<T>, c: nat, s': Pool<T>)
    requires c < |s.callers| && c < |s'.callers|
  {
    var d, d' := s.callers[c], s'.callers[c];
    && s'.callers == s.callers[c := d']
    && if d.Pushing? then Unoffered(d') && s'.pushed == s.pushed + [d.task]
       else if d.Checking? && !s.running then Unoffered(d') && s'.pushed == s.pushed
       else Offering(d') == Offering(d) && s'.pushed == s.pushed
  }

  predicate Unoffered<T>(d: Caller<T>) { Offering(d) == None }

  lemma CallMovesOffer<T>(s: Pool<T>, c: nat, wake: nat)
    requires CanCall(s, c, wake)
    ensures OfferMoves(s, c, CallerStep(s, c, wake))
  {
  }

  /** `offered` more tasks are asked for in a step, `refused` are turned down, and the account is even. */
  ghost predicate Even<T>(s: Pool<T>, offered: multiset<T>, s': Pool<T>, refused: multiset<T>) {
    Bag(s.callers, Offering) + multiset(s.pushed) + offered == Bag(s'.callers, Offering) + multiset(s'.pushed) + refused
  }

  lemma OfferKept<T>(s: Pool<T>, c: nat, wake: nat)
    requires CanCall(s, c, wake)
    ensures Even(s, multiset{}, CallerStep(s, c, wake), RefusedBy(s, Call(c, wake)))
  {
    CallMovesOffer(s, c, wake);
    OfferBalanced(s, c, CallerStep(s, c, wake));
  }

  lemma OfferBalanced<T>(s: Pool<T>, c: nat, s': Pool<T>)
    requires c < |s.callers| && c < |s'.callers| && OfferMoves(s, c, s')
    ensures Even(s, multiset{}, s', if s.callers[c].Checking? && !s.running then multiset{s.callers[c].task} else multiset{})
  {
    BagMoves(s.callers, c, s'.callers[c], Offering);
  }

  lemma OfferBegins<T>(s: Pool<T>, c: nat, d: Caller<T>)
    requires c < |s.callers| && s.callers[c] == Outside
    ensures Even(s, One(Offering(d)), PutC(s, c, d), multiset{})
  {
    BagMoves(s.callers, c, d, Offering);
  }

  lemma NoOffer<T>(s: Pool<T>, s': Pool<T>)
    requires s'.callers == s.callers && s'.pushed == s.pushed
    ensures Even(s, multiset{}, s', multiset{})
  {
  }

  lemma OfferWork<T>(s: Pool<T>, i: nat)
    requires CanWork(s, i) && HasFront(s, i)
    ensures Even(s, multiset{}, WorkerStep(s, i), multiset{})
  {
    WorkLeaves(s, i);
    NoOffer(s, WorkerStep(s, i));
  }

  lemma OfferStart<T>(s: Pool<T>)
    requires CanStart(s)
    ensures Even(s, multiset{}, StarterStep(s), multiset{})
  {
    StartLeaves(s);
    NoOffer(s, StarterStep(s));
  }

  function OfferedBy<T>(a: Act<T>): multiset<T> { if a.BeginEqueue? then multiset{a.task} else multiset{} }

  lemma OfferBegin<T>(s: Pool<T>, a: Act<T>)
    requires Enabled(s, a) && IsCall(a)
    ensures Even(s, OfferedBy(a), Apply(s, a), multiset{})
  {
    match a
    case BeginEqueue(c, t) => OfferBegins(s, c, Checking(t));
    case BeginStop(c) => OfferBegins(s, c, StopChecking);
    case BeginJoin(c) => OfferBegins(s, c, Joining(|s.workers|));
  }

  /** One act's share in the account. */
  lemma OfferStep<T>(s: Pool<T>, a: Act<T>)
    requires Enabled(s, a)
    ensures Even(s, OfferedBy(a), Apply(s, a), RefusedBy(s, a))
  {
    if IsCall(a) {
      OfferBegin(s, a);
    } else {
      match a
      case Start => OfferStart(s);
      case Work(i) => OfferWork(s, i);
      case Spurious(i) => NoOffer(s, PutW(s, i, Awake));
      case Call(c, wake) => OfferKept(s, c, wake);
    }
  }

  lemma Balance<U>(a: multiset<U>, offered: multiset<U>, b: multiset<U>, refused: multiset<U>, more: multiset<U>,
                   z: multiset<U>, others: multiset<U>)
    requires a + offered == b + refused && b + more == z + others
    ensures a + (offered + more) == z + (refused + others)
  {
    assert a + (offered + more) == (a + offered) + more;
    assert (b + refused) + more == (b + more) + refused;
    assert (z + others) + refused == z + (refused + others);
  }

  lemma {:induction false} OfferRun<T>(s: Pool<T>, acts: seq<Act<T>>, last: Pool<T>)
    requires Run(s, acts, last)
    ensures Bag(s.callers, Offering) + multiset(s.pushed) + Tasks(acts)
         == Bag(last.callers, Offering) + multiset(last.pushed) + Refused(s, acts)
    decreases |acts|
  {
    if acts != [] {
      var a, mid := acts[0], Apply(s, acts[0]);
      OfferStep(s, a);
      OfferRun(mid, acts[1..], last);
      Balance(Bag(s.callers, Offering) + multiset(s.pushed), OfferedBy(a),
              Bag(mid.callers, Offering) + multiset(mid.pushed), RefusedBy(s, a), Tasks(acts[1..]),
              Bag(last.callers, Offering) + multiset(last.pushed), Refused(mid, acts[1..]));
    }
  }

  /** Every task passed to `Equeue` is still with its caller, has been pushed, or was refused by a check
      that found the flag clear; none disappears and none is refused while the flag is set. */
  lemma TasksAccounted<T>(s: Pool<T>, acts: seq<Act<T>>, last: Pool<T>)
    requires Init(s) && Run(s, acts, last)
    ensures Tasks(acts) == Bag(last.callers, Offering) + multiset(last.pushed) + Refused(s, acts)
  {
    BagEmpty(s.callers, Offering);
    OfferRun(s, acts, last);
  }

  /** A caller that is outside can always begin any call, and is then inside it. */
  lemma OutsideMayCall<T>(s: Pool<T>, c: nat, task: T)
    requires c < |s.callers| && s.callers[c] == Outside
    ensures Enabled(s, BeginEqueue(c, task)) && Offering(Apply(s, BeginEqueue(c, task)).callers[c]) == Some(task)
    ensures Enabled(s, BeginStop(c)) && Apply(s, BeginStop(c)).callers[c].StopChecking?
    ensures Enabled(s, BeginJoin(c)) && Apply(s, BeginJoin(c)).callers[c] == Joining(|s.workers|)
  {
  }

  // ---- starting ----

  function ToStart<T>(s: Pool<T>): nat {
    match s.starter
    case StartChecking => |s.workers| + 3
    case StartSetting => |s.workers| + 2
    case Launching(k) => if k <= |s.workers| then |s.workers| - k + 1 else 1
    case Started => 0
  }

  function Starts<T>(acts: seq<Act<T>>): nat {
    if acts == [] then 0 else (if acts[0] == Start then 1 else 0) + Starts(acts[1..])
  }

  predicate OutOfStop<T>(d: Caller<T>) {
    !d.StopChecking? && !d.StopClearing? && !d.WakeLocking? && !d.WakeTesting? && !d.WakeUnlocking?
  }

  /** Nobody is inside `Stop`, and the flag says whether `Start` has set it. */
  predicate NeverStopped<T>(s: Pool<T>) {
    (s.running <==> Begun(s)) && forall c :: 0 <= c < |s.callers| ==> OutOfStop(s.callers[c])
  }

  lemma StarterLeaves<T>(s: Pool<T>, a: Act<T>)
    requires Enabled(s, a)
    ensures |Apply(s, a).workers| == |s.workers| && (a != Start ==> Apply(s, a).starter == s.starter)
  {
    ExitedStays(s, a);
    if a.Work? {
      WorkLeavesStarter(s, a.i);
    }
  }

  lemma WorkLeavesStarter<T>(s: Pool<T>, i: nat)
    requires CanWork(s, i) && HasFront(s, i)
    ensures WorkerStep(s, i).starter == s.starter && WorkerStep(s, i).running == s.running
  {
  }

  lemma NeverStoppedKept<T>(s: Pool<T>, a: Act<T>)
    requires NeverStopped(s) && Enabled(s, a) && !a.BeginStop?
    ensures NeverStopped(Apply(s, a))
  {
    match a
    case Start => StartLeaves(s);
    case Work(i) => WorkLeaves(s, i); WorkLeavesStarter(s, i);
    case Spurious(i) =>
    case BeginEqueue(c, t) =>
    case BeginStop(c) =>
    case BeginJoin(c) =>
    case Call(c, wake) => NeverStoppedCall(s, c, wake);
  }

  lemma NeverStoppedCall<T>(s: Pool<T>, c: nat, wake: nat)
    requires NeverStopped(s) && CanCall(s, c, wake)
    ensures NeverStopped(CallerStep(s, c, wake))
  {
    CallLeaves(s, c, wake);
    assert OutOfStop(s.callers[c]);
  }

  lemma {:induction false} StartRun<T>(s: Pool<T>, acts: seq<Act<T>>, last: Pool<T>)
    requires Run(s, acts, last)
    ensures |last.workers| == |s.workers| && Starts(acts) + ToStart(last) <= ToStart(s)
    ensures NeverStopped(s) && (forall a :: a in acts ==> !a.BeginStop?) ==> NeverStopped(last)
    decreases |acts|
  {
    if acts != [] {
      StarterLeaves(s, acts[0]);
      assert acts[0] in acts && forall a :: a in acts[1..] ==> a in acts;
      if NeverStopped(s) && !acts[0].BeginStop? {
        NeverStoppedKept(s, acts[0]);
      }
      StartRun(Apply(s, acts[0]), acts[1..], last);
    }
  }

  /** `Start` takes at most one step per thread and three more, and as long as nobody calls `Stop` the flag
      it set stays set. */
  lemma StartTerminates<T>(s: Pool<T>, acts: seq<Act<T>>, last: Pool<T>)
    requires Init(s) && Run(s, acts, last)
    ensures Starts(acts) + ToStart(last) <= |s.workers| + 3
    ensures (forall a :: a in acts ==> !a.BeginStop?) ==> (last.running <==> Begun(last))
  {
    StartRun(s, acts, last);
  }

  // ---- a running pool gets its tasks done ----

  /** At most how many steps a worker of a running pool takes before it waits, apart from those a task costs. */
  function Toil<T>(w: Worker<T>): nat {
    match w
    case Releasing(_) => 6
    case Unstarted => 5
    case Running(_) => 5
    case Awake => 5
    case Locking => 4
    case Uncounting => 4
    case Testing => 3
    case Counting => 2
    case Retesting => 2
    case Waiting => 1
    case Taking => 1
    case Asleep => 0
    case Leaving => 0
    case Exited => 0
  }

  /** At most how many steps a caller takes in its present call and causes by it. */
  function Burden<T>(d: Caller<T>): nat {
    match d
    case Outside => 0
    case Checking(_) => 16
    case Entering(_) => 15
    case Pushing(_) => 14
    case Signalling(_) => 7
    case Finishing(_) => 1
    case StopChecking => 2
    case StopClearing => 1
    case Joining(left) => left + 1
    case _ => 0
  }

  function Load<T>(s: Pool<T>): nat {
    Sum(s.workers, Toil) + Sum(s.callers, Burden) + 6 * |s.queue| + ToStart(s)
  }

  lemma WorkerToils<T>(s: Pool<T>, i: nat)
    requires Core(s) && s.running && CanWork(s, i) && HasFront(s, i)
    ensures var s' := WorkerStep(s, i);
      Toil(s'.workers[i]) + 6 * |s'.queue| < Toil(s.workers[i]) + 6 * |s.queue|
  {
    assert WorkerOk(s.workers[i], |s.queue| > 0, s.running, s.swept);
  }

  lemma LoadWork<T>(s: Pool<T>, i: nat)
    requires Core(s) && s.running && CanWork(s, i) && HasFront(s, i)
    ensures Load(WorkerStep(s, i)) < Load(s)
  {
    WorkerToils(s, i);
    WorkMovesOne(s, i);
    WorkLeaves(s, i);
    WorkLeavesStarter(s, i);
    SumUpdate(s.workers, i, WorkerStep(s, i).workers[i], Toil);
  }

  /** What a signal makes a worker do is charged to the caller that sends it. */
  lemma CallerPays<T>(s: Pool<T>, c: nat, wake: nat)
    requires Core(s) && s.running && CanCall(s, c, wake) && CallerStep(s, c, wake).running
    ensures var s' := CallerStep(s, c, wake);
      && s'.callers == s.callers[c := s'.callers[c]] && s'.starter == s.starter
      && (s'.workers == s.workers
          || (wake < |s.workers| && s.workers[wake].Asleep? && s'.workers == s.workers[wake := Awake]))
      && Burden(s'.callers[c]) + 6 * |s'.queue| + (if s'.workers == s.workers then 0 else 5)
         < Burden(s.callers[c]) + 6 * |s.queue|
  {
    assert CallerOk(s.callers[c], Begun(s), s.running, s.swept);
  }

  lemma LoadCall<T>(s: Pool<T>, c: nat, wake: nat)
    requires Core(s) && s.running && CanCall(s, c, wake) && CallerStep(s, c, wake).running
    ensures Load(CallerStep(s, c, wake)) < Load(s)
  {
    CallerPays(s, c, wake);
    SumUpdate(s.callers, c, CallerStep(s, c, wake).callers[c], Burden);
    if wake < |s.workers| {
      SumUpdate(s.workers, wake, Awake, Toil);
    }
  }

  lemma LoadStart<T>(s: Pool<T>)
    requires CanStart(s) && Begun(s)
    ensures Load(StarterStep(s)) < Load(s)
  {
    if s.starter.k < |s.workers| {
      SumUpdate(s.workers, s.starter.k, Locking, Toil);
    }
  }

  lemma LoadBegin<T>(s: Pool<T>, c: nat, d: Caller<T>)
    requires c < |s.callers| && s.callers[c] == Outside
    ensures Load(PutC(s, c, d)) == Load(s) + Burden(d)
  {
    SumUpdate(s.callers, c, d, Burden);
  }

  /** What an act adds from outside: a call, or a wakeup for no reason; of `n` threads a `Join` waits for each. */
  function Extra<T>(a: Act<T>, n: nat): nat {
    match a
    case BeginEqueue(_, _) => 16
    case BeginStop(_) => 2
    case BeginJoin(_) => n + 1
    case Spurious(_) => 5
    case _ => 0
  }

  lemma LoadDrops<T>(s: Pool<T>, a: Act<T>)
    requires Core(s) && s.running && Enabled(s, a) && Apply(s, a).running
    ensures Load(Apply(s, a)) + (if Own(a) then 1 else 0) <= Load(s) + Extra(a, |s.workers|)
  {
    match a
    case Start => LoadStart(s);
    case Work(i) => LoadWork(s, i);
    case Spurious(i) => SumUpdate(s.workers, i, Awake, Toil);
    case BeginEqueue(c, t) => LoadBegin(s, c, Checking(t));
    case BeginStop(c) => LoadBegin(s, c, StopChecking);
    case BeginJoin(c) => LoadBegin(s, c, Joining(|s.workers|));
    case Call(c, wake) => LoadCall(s, c, wake);
  }

  function OwnSteps<T>(acts: seq<Act<T>>): nat {
    if acts == [] then 0 else (if Own(acts[0]) then 1 else 0) + OwnSteps(acts[1..])
  }

  function Extras<T>(acts: seq<Act<T>>, n: nat): nat {
    if acts == [] then 0 else Extra(acts[0], n) + Extras(acts[1..], n)
  }

  lemma {:induction false} RunningBounded<T>(s: Pool<T>, acts: seq<Act<T>>, last: Pool<T>)
    requires Inv(s) && Run(s, acts, last) && s.running && last.running
    ensures OwnSteps(acts) + Load(last) <= Load(s) + Extras(acts, |s.workers|)
    decreases |acts|
  {
    if acts != [] {
      var mid := Apply(s, acts[0]);
      InvKept(s, acts[0]);
      StillRunning(s, acts, last);
      LoadDrops(s, acts[0]);
      StarterLeaves(s, acts[0]);
      RunningBounded(mid, acts[1..], last);
    }
  }

  /** The flag, once cleared, stays cleared; so it has been set all the time if it still is. */
  lemma StillRunning<T>(s: Pool<T>, acts: seq<Act<T>>, last: Pool<T>)
    requires Inv(s) && acts != [] && Run(s, acts, last) && s.running && last.running
    ensures Apply(s, acts[0]).running
  {
    var mid := Apply(s, acts[0]);
    if !mid.running {
      BegunStays(s, acts[0]);
      StopTerminates(mid, acts[1..], last);
    }
  }

  lemma BegunStays<T>(s: Pool<T>, a: Act<T>)
    requires Begun(s) && Enabled(s, a)
    ensures Begun(Apply(s, a))
  {
    if a != Start {
      StarterLeaves(s, a);
    }
  }

  /** A running pool does not spin: between calls and wakeups for no reason its threads take a bounded
      number of steps, and what it comes to rest with is described by `RunningPoolRests`. So every accepted
      task is run without any `Stop`. */
  lemma RunningPoolGetsDone<T>(s: Pool<T>, before: seq<Act<T>>, mid: Pool<T>, acts: seq<Act<T>>, last: Pool<T>)
    requires Init(s) && s.workers != [] && Run(s, before, mid) && mid.running && Run(mid, acts, last) && last.running
    ensures OwnSteps(acts) + Load(last) <= Load(mid) + Extras(acts, |s.workers|)
    ensures (forall a: Act<T> :: Own(a) ==> !Enabled(last, a)) ==> Resting(last) && Served(last) && Kept(last)
  {
    InvInit(s);
    RunKeepsInv(s, before, mid);
    SameWorkers(s, before, mid);
    RunningBounded(mid, acts, last);
    RunJoin(s, before, mid, acts, last);
    RunningPoolRests(s, before + acts, last);
  }
}
