/** The thread pool as a state machine: one starting thread, any number of workers inside
    `HandlerTask`, any number of callers inside `Equeue` or `Stop`, one statement at a time. */
module PoolMachine {
  import opened Tally

  /** Where a worker stands; `Testing` is line 106, `Waiting` is line 109, `Retesting` is line 113. */
  datatype Worker<+T> =
    | Unstarted
    | Locking | Testing | Counting | Waiting | Asleep | Awake | Uncounting
    | Retesting | Taking | Releasing(task: T) | Running(task: T)
    | Leaving | Exited

  /** Where a caller stands inside `Equeue` (lines 126-132), `Stop` and `WakeUpAllThread` (83-87, 24-30),
      or `Join` (91-94), where `left` threads are still to be joined. */
  datatype Caller<+T> =
    | Outside
    | Checking(task: T) | Entering(task: T) | Pushing(task: T) | Signalling(task: T) | Finishing(task: T)
    | StopChecking | StopClearing | WakeLocking | WakeTesting | WakeUnlocking
    | Joining(left: nat)

  /** `Start`, lines 53-60: `Launching(k)` is about to start thread `k`. */
  datatype Starter = StartChecking | StartSetting | Launching(k: nat) | Started

  datatype Agent = W(i: nat) | C(c: nat)

  /** The pool's fields and threads; then the history: whether a `WakeUpAllThread` has made its
      broadcast, the tasks pushed, popped and run, those pushed with every worker gone, and those
      for which `Equeue` has returned true. */
  datatype Pool<T> = Pool(
    queue: seq<T>, running: bool, sleepers: int, lock: Option<Agent>,
    starter: Starter, workers: seq<Worker<T>>, callers: seq<Caller<T>>,
    swept: bool, pushed: seq<T>, popped: seq<T>, ran: seq<T>, late: seq<T>, accepted: seq<T>)

  datatype Act<+T> =
    | Start
    | Work(i: nat) | Spurious(i: nat)
    | BeginEqueue(c: nat, task: T) | BeginStop(c: nat) | BeginJoin(c: nat)
    | Call(c: nat, wake: nat)   // `wake`: the sleeper a signal would reach

  predicate Init<T>(s: Pool<T>) {
    && s.queue == [] && !s.running && s.sleepers == 0 && s.lock == None && s.starter == StartChecking
    && (forall i :: 0 <= i < |s.workers| ==> s.workers[i] == Unstarted)
    && (forall c :: 0 <= c < |s.callers| ==> s.callers[c] == Outside)
    && !s.swept && s.pushed == [] && s.popped == [] && s.ran == [] && s.late == [] && s.accepted == []
  }

  // ---- steps ----

  function PutW<T>(s: Pool<T>, i: nat, w: Worker<T>): Pool<T>
    requires i < |s.workers|
  {
    s.(workers := s.workers[i := w])
  }

  function PutC<T>(s: Pool<T>, c: nat, d: Caller<T>): Pool<T>
    requires c < |s.callers|
  {
    s.(callers := s.callers[c := d])
  }

  /** A worker blocks on the mutex only; `front()` needs a task to be there. */
  predicate CanWork<T>(s: Pool<T>, i: nat) {
    && i < |s.workers| && !s.workers[i].Unstarted? && !s.workers[i].Asleep? && !s.workers[i].Exited?
    && (s.workers[i].Locking? || s.workers[i].Awake? ==> s.lock == None)
  }

  predicate HasFront<T>(s: Pool<T>, i: nat) {
    i < |s.workers| && (s.workers[i].Taking? ==> s.queue != [])
  }

  function WorkerStep<T>(s: Pool<T>, i: nat): Pool<T>
    requires CanWork(s, i) && HasFront(s, i)
  {
    match s.workers[i]
    case Locking => PutW(s, i, Testing).(lock := Some(W(i)))
    case Testing => PutW(s, i, if |s.queue| == 0 && s.running then Counting else Retesting)
    case Counting => PutW(s, i, Waiting).(sleepers := s.sleepers + 1)
    case Waiting => PutW(s, i, Asleep).(lock := None)
    case Awake => PutW(s, i, Uncounting).(lock := Some(W(i)))
    case Uncounting => PutW(s, i, Testing).(sleepers := s.sleepers - 1)
    case Retesting => PutW(s, i, if !s.running && |s.queue| == 0 then Leaving else Taking)
    case Taking => PutW(s, i, Releasing(s.queue[0])).(queue := s.queue[1..], popped := s.popped + [s.queue[0]])
    case Releasing(t) => PutW(s, i, Running(t)).(lock := None)
    case Running(t) => PutW(s, i, Locking).(ran := s.ran + [t])
    case Leaving => PutW(s, i, Exited).(lock := None)
  }

  predicate AllExited<T>(s: Pool<T>) { forall i :: 0 <= i < |s.workers| ==> s.workers[i].Exited? }

  predicate NoneAsleep<T>(s: Pool<T>) { forall i :: 0 <= i < |s.workers| ==> !s.workers[i].Asleep? }

  function WakeAll<T>(ws: seq<Worker<T>>): (r: seq<Worker<T>>)
    ensures |r| == |ws|
    ensures forall i :: 0 <= i < |ws| ==> r[i] == if ws[i].Asleep? then Awake else ws[i]
  {
    if ws == [] then [] else [if ws[0].Asleep? then Awake else ws[0]] + WakeAll(ws[1..])
  }

  /** A caller blocks on the mutex, or on a thread it joins; a signal with sleepers around reaches one of them. */
  predicate CanCall<T>(s: Pool<T>, c: nat, wake: nat) {
    && c < |s.callers| && s.callers[c] != Outside
    && (s.callers[c].Entering? || s.callers[c].WakeLocking? ==> s.lock == None)
    && (s.callers[c].Signalling? && |s.workers| == s.sleepers ==>
          NoneAsleep(s) || (wake < |s.workers| && s.workers[wake].Asleep?))
    && (s.callers[c].Joining? && 0 < s.callers[c].left <= |s.workers| ==>
          s.workers[|s.workers| - s.callers[c].left].Exited?)
  }

  function CallerStep<T>(s: Pool<T>, c: nat, wake: nat): Pool<T>
    requires CanCall(s, c, wake)
  {
    match s.callers[c]
    case Checking(t) => PutC(s, c, if s.running then Entering(t) else Outside)
    case Entering(t) => PutC(s, c, Pushing(t)).(lock := Some(C(c)))
    case Pushing(t) =>
      PutC(s, c, Signalling(t)).(queue := s.queue + [t], pushed := s.pushed + [t],
                                 late := if AllExited(s) then s.late + [t] else s.late)
    case Signalling(t) =>
      if |s.workers| == s.sleepers && wake < |s.workers| && s.workers[wake].Asleep?
      then PutC(PutW(s, wake, Awake), c, Finishing(t))
      else PutC(s, c, Finishing(t))
    case Finishing(t) => PutC(s, c, Outside).(lock := None, accepted := s.accepted + [t])
    case StopChecking => PutC(s, c, if s.running then StopClearing else Outside)
    case StopClearing => PutC(s, c, WakeLocking).(running := false)
    case WakeLocking => PutC(s, c, WakeTesting).(lock := Some(C(c)))
    case WakeTesting =>
      PutC(s, c, WakeUnlocking).(swept := true, workers := if s.sleepers > 0 then WakeAll(s.workers) else s.workers)
    case WakeUnlocking => PutC(s, c, Outside).(lock := None)
    case Joining(left) => PutC(s, c, if left == 0 then Outside else Joining(left - 1))
  }

  predicate CanStart<T>(s: Pool<T>) { !s.starter.Started? }

  function StarterStep<T>(s: Pool<T>): Pool<T>
    requires CanStart(s)
  {
    match s.starter
    case StartChecking => s.(starter := if s.running then Started else StartSetting)
    case StartSetting => s.(running := true, starter := Launching(0))
    case Launching(k) =>
      if k >= |s.workers| then s.(starter := Started)
      else if s.workers[k].Unstarted? then PutW(s, k, Locking).(starter := Launching(k + 1))
      else s.(starter := Launching(k + 1))
  }

  predicate Enabled<T>(s: Pool<T>, a: Act<T>) {
    match a
    case Start => CanStart(s)
    case Work(i) => CanWork(s, i) && HasFront(s, i)
    case Spurious(i) => i < |s.workers| && s.workers[i].Asleep?
    case BeginEqueue(c, _) => c < |s.callers| && s.callers[c] == Outside
    case BeginStop(c) => c < |s.callers| && s.callers[c] == Outside
    case BeginJoin(c) => c < |s.callers| && s.callers[c] == Outside
    case Call(c, wake) => CanCall(s, c, wake)
  }

  function Apply<T>(s: Pool<T>, a: Act<T>): Pool<T>
    requires Enabled(s, a)
  {
    match a
    case Start => StarterStep(s)
    case Work(i) => WorkerStep(s, i)
    case Spurious(i) => PutW(s, i, Awake)
    case BeginEqueue(c, t) => PutC(s, c, Checking(t))
    case BeginStop(c) => PutC(s, c, StopChecking)
    case BeginJoin(c) => PutC(s, c, Joining(|s.workers|))
    case Call(c, wake) => CallerStep(s, c, wake)
  }

  // ---- what the steps leave alone ----

  lemma StartLeaves<T>(s: Pool<T>)
    requires CanStart(s)
    ensures var s' := StarterStep(s);
      && s'.callers == s.callers && s'.swept == s.swept && |s'.workers| == |s.workers|
      && s'.pushed == s.pushed && s'.accepted == s.accepted
      && forall i :: 0 <= i < |s.workers| ==> (s'.workers[i].Exited? <==> s.workers[i].Exited?)
  {
  }

  lemma WorkMovesOne<T>(s: Pool<T>, i: nat)
    requires CanWork(s, i) && HasFront(s, i)
    ensures WorkerStep(s, i).workers == s.workers[i := WorkerStep(s, i).workers[i]]
  {
  }

  lemma WorkLeaves<T>(s: Pool<T>, i: nat)
    requires CanWork(s, i) && HasFront(s, i)
    ensures var s' := WorkerStep(s, i);
      && s'.callers == s.callers && s'.swept == s.swept && |s'.workers| == |s.workers|
      && s'.pushed == s.pushed && s'.accepted == s.accepted
  {
  }

  lemma CallLeaves<T>(s: Pool<T>, c: nat, wake: nat)
    requires CanCall(s, c, wake)
    ensures CallerStep(s, c, wake).callers == s.callers[c := CallerStep(s, c, wake).callers[c]]
  {
  }

  ghost predicate Run<T>(s: Pool<T>, acts: seq<Act<T>>, last: Pool<T>)
    decreases |acts|
  {
    if acts == [] then last == s
    else Enabled(s, acts[0]) && Run(Apply(s, acts[0]), acts[1..], last)
  }

  // ---- the inductive invariant ----

  predicate WorkerHolds<T>(w: Worker<T>) {
    w.Testing? || w.Counting? || w.Waiting? || w.Uncounting? || w.Retesting? || w.Taking? || w.Releasing? || w.Leaving?
  }

  predicate CallerHolds<T>(d: Caller<T>) {
    d.Pushing? || d.Signalling? || d.Finishing? || d.WakeTesting? || d.WakeUnlocking?
  }

  /** The mutex is held by exactly the thread that is inside a section it guards. */
  ghost predicate Exclusive<T>(lock: Option<Agent>, ws: seq<Worker<T>>, cs: seq<Caller<T>>) {
    && (forall i :: 0 <= i < |ws| ==> (WorkerHolds(ws[i]) <==> lock == Some(W(i))))
    && (forall c :: 0 <= c < |cs| ==> (CallerHolds(cs[c]) <==> lock == Some(C(c))))
    && (lock.Some? && lock.value.W? ==> lock.value.i < |ws|)
    && (lock.Some? && lock.value.C? ==> lock.value.c < |cs|)
  }

  ghost predicate Locked<T>(s: Pool<T>) { Exclusive(s.lock, s.workers, s.callers) }

  function Sleeping<T>(w: Worker<T>): nat {
    if w.Waiting? || w.Asleep? || w.Awake? || w.Uncounting? then 1 else 0
  }

  /** `_sleeprnum` counts the waiting threads together with the woken ones that lack the mutex. */
  ghost predicate Counted<T>(s: Pool<T>) { s.sleepers == Sum(s.workers, Sleeping) }

  /** `Start` has set the flag; from then on the flag can only be cleared. */
  predicate Begun<T>(s: Pool<T>) { s.starter.Launching? || s.starter.Started? }

  ghost predicate Phased<T>(s: Pool<T>) {
    && (s.running ==> Begun(s))
    && (s.swept ==> Begun(s) && !s.running)
    && (!Begun(s) ==> forall i :: 0 <= i < |s.workers| ==> s.workers[i].Unstarted?)
    && (s.starter.Launching? ==> forall i :: 0 <= i < |s.workers| ==> (s.workers[i].Unstarted? <==> s.starter.k <= i))
    && (s.starter.Started? ==> forall i :: 0 <= i < |s.workers| ==> !s.workers[i].Unstarted?)
  }

  /** What a worker has seen and can rely on. */
  predicate WorkerOk<T>(w: Worker<T>, pending: bool, running: bool, swept: bool) {
    match w
    case Counting => !pending && !swept
    case Waiting => !pending && !swept
    case Asleep => !swept
    case Retesting => pending || !running
    case Taking => pending
    case Leaving => !pending && !running
    case Exited => !running
    case _ => true
  }

  ghost predicate WorkersOk<T>(s: Pool<T>) {
    forall i :: 0 <= i < |s.workers| ==> WorkerOk(s.workers[i], |s.queue| > 0, s.running, s.swept)
  }

  predicate CallerOk<T>(d: Caller<T>, begun: bool, running: bool, swept: bool) {
    match d
    case Entering(_) => begun
    case Pushing(_) => begun
    case Signalling(_) => begun
    case StopClearing => begun
    case WakeLocking => begun && !running
    case WakeTesting => begun && !running
    case WakeUnlocking => begun && !running && swept
    case _ => true
  }

  ghost predicate CallersOk<T>(s: Pool<T>) {
    forall c :: 0 <= c < |s.callers| ==> CallerOk(s.callers[c], Begun(s), s.running, s.swept)
  }

  ghost predicate Core<T>(s: Pool<T>) {
    Locked(s) && Counted(s) && Phased(s) && WorkersOk(s) && CallersOk(s)
  }

  // ---- the mutex ----

  lemma ExclusiveWorker<T>(lock: Option<Agent>, lock': Option<Agent>, ws: seq<Worker<T>>, cs: seq<Caller<T>>, i: nat, w: Worker<T>)
    requires Exclusive(lock, ws, cs) && i < |ws|
    requires WorkerHolds(w) && !WorkerHolds(ws[i]) ==> lock == None
    requires lock' == if WorkerHolds(w) == WorkerHolds(ws[i]) then lock else if WorkerHolds(w) then Some(W(i)) else None
    ensures Exclusive(lock', ws[i := w], cs)
  {
  }

  lemma ExclusiveCaller<T>(lock: Option<Agent>, lock': Option<Agent>, ws: seq<Worker<T>>, cs: seq<Caller<T>>, c: nat, d: Caller<T>)
    requires Exclusive(lock, ws, cs) && c < |cs|
    requires CallerHolds(d) && !CallerHolds(cs[c]) ==> lock == None
    requires lock' == if CallerHolds(d) == CallerHolds(cs[c]) then lock else if CallerHolds(d) then Some(C(c)) else None
    ensures Exclusive(lock', ws, cs[c := d])
  {
  }

  lemma ExclusiveWake<T>(lock: Option<Agent>, ws: seq<Worker<T>>, ws': seq<Worker<T>>, cs: seq<Caller<T>>)
    requires Exclusive(lock, ws, cs) && |ws'| == |ws|
    requires forall i :: 0 <= i < |ws| ==> ws'[i] == ws[i] || (ws[i].Asleep? && ws'[i].Awake?)
    ensures Exclusive(lock, ws', cs)
  {
    forall i | 0 <= i < |ws| ensures WorkerHolds(ws'[i]) <==> WorkerHolds(ws[i]) {
      assert ws'[i] == ws[i] || (ws[i].Asleep? && ws'[i].Awake?);
    }
  }

  lemma LockedWork<T>(s: Pool<T>, i: nat)
    requires Locked(s) && CanWork(s, i) && HasFront(s, i)
    ensures Locked(WorkerStep(s, i))
  {
    ExclusiveWorker(s.lock, WorkerStep(s, i).lock, s.workers, s.callers, i, WorkerStep(s, i).workers[i]);
  }

  /** The workers a caller's step wakes; nothing else happens to the workers. */
  ghost predicate Woken<T>(ws: seq<Worker<T>>, ws': seq<Worker<T>>) {
    |ws'| == |ws| && forall i :: 0 <= i < |ws| ==> ws'[i] == ws[i] || (ws[i].Asleep? && ws'[i].Awake?)
  }

  lemma CallerWakes<T>(s: Pool<T>, c: nat, wake: nat)
    requires CanCall(s, c, wake)
    ensures Woken(s.workers, CallerStep(s, c, wake).workers)
  {
  }

  lemma LockedCall<T>(s: Pool<T>, c: nat, wake: nat)
    requires Locked(s) && CanCall(s, c, wake)
    ensures Locked(CallerStep(s, c, wake))
  {
    var s' := CallerStep(s, c, wake);
    CallerWakes(s, c, wake);
    ExclusiveWake(s.lock, s.workers, s'.workers, s.callers);
    ExclusiveCaller(s.lock, s'.lock, s'.workers, s.callers, c, s'.callers[c]);
  }

  lemma LockedKept<T>(s: Pool<T>, a: Act<T>)
    requires Locked(s) && Enabled(s, a)
    ensures Locked(Apply(s, a))
  {
    match a
    case Start =>
    case Work(i) => LockedWork(s, i);
    case Spurious(i) => ExclusiveWake(s.lock, s.workers, s.workers[i := Awake], s.callers);
    case BeginEqueue(c, t) => ExclusiveCaller(s.lock, s.lock, s.workers, s.callers, c, Checking(t));
    case BeginStop(c) => ExclusiveCaller(s.lock, s.lock, s.workers, s.callers, c, StopChecking);
    case BeginJoin(c) => ExclusiveCaller(s.lock, s.lock, s.workers, s.callers, c, Joining(|s.workers|));
    case Call(c, wake) => LockedCall(s, c, wake);
  }

  // ---- the sleep counter ----

  /** A worker counts itself just before it waits, and takes itself off the count once it has the mutex back. */
  lemma SleepersFollow<T>(s: Pool<T>, i: nat)
    requires CanWork(s, i) && HasFront(s, i)
    ensures WorkerStep(s, i).sleepers + Sleeping(s.workers[i]) == s.sleepers + Sleeping(WorkerStep(s, i).workers[i])
  {
    var w := s.workers[i];
    if w.Counting? || w.Uncounting? {
    } else {
      assert WorkerStep(s, i).sleepers == s.sleepers;
    }
  }

  lemma CountedWork<T>(s: Pool<T>, i: nat)
    requires Counted(s) && CanWork(s, i) && HasFront(s, i)
    ensures Counted(WorkerStep(s, i))
  {
    SleepersFollow(s, i);
    WorkMovesOne(s, i);
    SumUpdate(s.workers, i, WorkerStep(s, i).workers[i], Sleeping);
  }

  lemma CountedKept<T>(s: Pool<T>, a: Act<T>)
    requires Counted(s) && Enabled(s, a)
    ensures Counted(Apply(s, a))
  {
    match a
    case Start =>
      if s.starter.Launching? && s.starter.k < |s.workers| {
        SumUpdate(s.workers, s.starter.k, Locking, Sleeping);
      }
    case Work(i) => CountedWork(s, i);
    case Spurious(i) => SumUpdate(s.workers, i, Awake, Sleeping);
    case BeginEqueue(c, t) =>
    case BeginStop(c) =>
    case BeginJoin(c) =>
    case Call(c, wake) =>
      CallerWakes(s, c, wake);
      SumSame(s.workers, CallerStep(s, c, wake).workers, Sleeping);
  }
}
