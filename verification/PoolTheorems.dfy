/** What the thread pool promises over every run, and the one thing it does not. */
module PoolTheorems {
  import opened Tally
  import opened PoolMachine
  import opened PoolInvariants

  lemma {:induction false} RunKeepsInv<T>(s: Pool<T>, acts: seq<Act<T>>, last: Pool<T>)
    requires Inv(s) && Run(s, acts, last)
    ensures Inv(last)
    decreases |acts|
  {
    if acts != [] {
      InvKept(s, acts[0]);
      RunKeepsInv(Apply(s, acts[0]), acts[1..], last);
    }
  }

  /** `front()` is never called on an empty queue, although the flag is read twice and its writer
      holds no lock: a worker past the second test has a task to take. */
  lemma FrontNeverEmpty<T>(s: Pool<T>, acts: seq<Act<T>>, last: Pool<T>, i: nat)
    requires Init(s) && Run(s, acts, last) && CanWork(last, i)
    ensures HasFront(last, i)
  {
    InvInit(s);
    RunKeepsInv(s, acts, last);
    assert WorkerOk(last.workers[i], |last.queue| > 0, last.running, last.swept);
  }

  /** At most one thread is inside the sections guarded by the mutex. */
  lemma OneInside<T>(s: Pool<T>, acts: seq<Act<T>>, last: Pool<T>)
    requires Init(s) && Run(s, acts, last)
    ensures forall i, j :: 0 <= i < j < |last.workers| ==> !WorkerHolds(last.workers[i]) || !WorkerHolds(last.workers[j])
    ensures forall c, d :: 0 <= c < d < |last.callers| ==> !CallerHolds(last.callers[c]) || !CallerHolds(last.callers[d])
    ensures forall i, c :: 0 <= i < |last.workers| && 0 <= c < |last.callers| ==>
      !WorkerHolds(last.workers[i]) || !CallerHolds(last.callers[c])
  {
    InvInit(s);
    RunKeepsInv(s, acts, last);
  }

  // ---- stopping ----

  lemma SweptForever<T>(s: Pool<T>, a: Act<T>)
    requires Enabled(s, a) && s.swept
    ensures Apply(s, a).swept
  {
  }

  lemma {:induction false} SweptStays<T>(s: Pool<T>, acts: seq<Act<T>>, last: Pool<T>)
    requires Inv(s) && s.swept && Run(s, acts, last)
    ensures last.swept && !last.running
    ensures forall i :: 0 <= i < |last.workers| ==>
      !last.workers[i].Counting? && !last.workers[i].Waiting? && !last.workers[i].Asleep?
    decreases |acts|
  {
    if acts != [] {
      InvKept(s, acts[0]);
      SweptForever(s, acts[0]);
      SweptStays(Apply(s, acts[0]), acts[1..], last);
    } else {
      forall i | 0 <= i < |last.workers|
        ensures !last.workers[i].Counting? && !last.workers[i].Waiting? && !last.workers[i].Asleep?
      {
        assert WorkerOk(last.workers[i], |last.queue| > 0, last.running, last.swept);
      }
    }
  }

  /** No wakeup is lost in stopping: once `WakeUpAllThread` has made its broadcast, at no later point
      of any run is a worker waiting, about to wait, or about to count itself asleep. */
  lemma StopWakesAll<T>(s: Pool<T>, before: seq<Act<T>>, mid: Pool<T>, acts: seq<Act<T>>, last: Pool<T>)
    requires Init(s) && Run(s, before, mid) && mid.swept && Run(mid, acts, last)
    ensures last.swept && !last.running
    ensures forall i :: 0 <= i < |last.workers| ==>
      !last.workers[i].Counting? && !last.workers[i].Waiting? && !last.workers[i].Asleep?
  {
    InvInit(s);
    RunKeepsInv(s, before, mid);
    SweptStays(mid, acts, last);
  }

  /** Caller `c` has cleared the flag, or is about to, and the broadcast is still before it. */
  predicate StopUnderWay<T>(s: Pool<T>, c: nat) {
    c < |s.callers| && (s.callers[c].StopClearing? || s.callers[c].WakeLocking? || s.callers[c].WakeTesting?)
  }

  lemma StopGoesOn<T>(s: Pool<T>, a: Act<T>, c: nat)
    requires Enabled(s, a) && (s.swept || StopUnderWay(s, c))
    ensures Apply(s, a).swept || StopUnderWay(Apply(s, a), c)
  {
    match a
    case Start => StartLeaves(s);
    case Work(i) => WorkLeaves(s, i);
    case Spurious(i) =>
    case BeginEqueue(k, t) =>
    case BeginStop(k) =>
    case BeginJoin(k) =>
    case Call(k, wake) => StopCallGoesOn(s, k, wake, c);
  }

  lemma StopCallGoesOn<T>(s: Pool<T>, k: nat, wake: nat, c: nat)
    requires CanCall(s, k, wake) && (s.swept || StopUnderWay(s, c))
    ensures CallerStep(s, k, wake).swept || StopUnderWay(CallerStep(s, k, wake), c)
  {
    CallLeaves(s, k, wake);
  }

  lemma {:induction false} StopRun<T>(s: Pool<T>, acts: seq<Act<T>>, last: Pool<T>, c: nat)
    requires Run(s, acts, last) && (s.swept || StopUnderWay(s, c))
    ensures last.swept || StopUnderWay(last, c)
    decreases |acts|
  {
    if acts != [] {
      StopGoesOn(s, acts[0], c);
      StopRun(Apply(s, acts[0]), acts[1..], last, c);
    }
  }

  /** By the time a `Stop` that clears the flag has returned, the broadcast has been made and nobody
      waits on the condition. */
  lemma StopReturnsSwept<T>(s: Pool<T>, before: seq<Act<T>>, mid: Pool<T>, acts: seq<Act<T>>, last: Pool<T>, c: nat)
    requires Init(s) && Run(s, before, mid) && c < |mid.callers| && mid.callers[c].StopClearing?
    requires Run(mid, acts, last) && c < |last.callers| && last.callers[c].Outside?
    ensures last.swept && !last.running && NoneAsleep(last)
  {
    InvInit(s);
    RunKeepsInv(s, before, mid);
    RunKeepsInv(mid, acts, last);
    StopRun(mid, acts, last, c);
    SweptStays(last, [], last);
  }

  function Blocked<T>(w: Worker<T>): nat { if w.Asleep? || w.Awake? then 1 else 0 }

  /** Whenever a caller is inside the mutex, `_sleeprnum` is the number of threads waiting plus those
      woken that have not got the mutex back. */
  lemma SleepersSeenByCallers<T>(s: Pool<T>, acts: seq<Act<T>>, last: Pool<T>, c: nat)
    requires Init(s) && Run(s, acts, last) && c < |last.callers| && CallerHolds(last.callers[c])
    ensures last.sleepers == Sum(last.workers, Blocked)
  {
    InvInit(s);
    RunKeepsInv(s, acts, last);
    assert forall i :: 0 <= i < |last.workers| ==> !WorkerHolds(last.workers[i]);
    NobodyInBetween(last.workers);
  }

  lemma {:induction false} NobodyInBetween<T>(ws: seq<Worker<T>>)
    requires forall i :: 0 <= i < |ws| ==> !WorkerHolds(ws[i])
    ensures Sum(ws, Sleeping) == Sum(ws, Blocked)
  {
    if ws != [] {
      assert !WorkerHolds(ws[0]);
      assert forall i :: 0 <= i < |ws[1..]| ==> ws[1..][i] == ws[i + 1];
      NobodyInBetween(ws[1..]);
    }
  }

  /** Why clearing the flag without the mutex is safe: a worker that read it as set and has not yet
      reached its wait still holds the mutex, and the caller that cleared the flag has its broadcast
      still before it, behind that mutex. */
  lemma StopWaitsForSleepers<T>(s: Pool<T>, acts: seq<Act<T>>, last: Pool<T>, i: nat)
    requires Init(s) && Run(s, acts, last) && !last.running && i < |last.workers|
    requires last.workers[i].Counting? || last.workers[i].Waiting?
    ensures last.lock == Some(W(i)) && !last.swept
    ensures exists c :: 0 <= c < |last.callers| && last.callers[c].WakeLocking?
  {
    InvInit(s);
    RunKeepsInv(s, acts, last);
    assert WorkerOk(last.workers[i], |last.queue| > 0, last.running, last.swept) && WorkerHolds(last.workers[i]);
    var c :| 0 <= c < |last.callers| && (last.callers[c].WakeLocking? || last.callers[c].WakeTesting?);
    assert !CallerHolds(last.callers[c]);
  }

  /** While the pool runs, a task in the queue has a worker that is awake, although `Equeue`
      signals only when every thread counts as asleep. */
  lemma TasksAttended<T>(s: Pool<T>, acts: seq<Act<T>>, last: Pool<T>)
    requires Init(s) && Run(s, acts, last) && last.workers != []
    requires last.running && last.queue != [] && !SomeSignalling(last)
    ensures exists i :: 0 <= i < |last.workers| && !last.workers[i].Asleep? && !last.workers[i].Exited?
  {
    InvInit(s);
    RunKeepsInv(s, acts, last);
    var i :| 0 <= i < |last.workers| && !last.workers[i].Asleep?;
    assert WorkerOk(last.workers[i], |last.queue| > 0, last.running, last.swept);
  }

  // ---- what has been done when every worker has left ----

  /** Every popped task has been run exactly as often as it was popped, in first-come order; what was
      accepted and not run is exactly what was pushed after the last worker had left. */
  lemma AllTasksRunExceptLate<T>(s: Pool<T>, acts: seq<Act<T>>, last: Pool<T>)
    requires Init(s) && Run(s, acts, last) && AllExited(last)
    ensures last.pushed == last.popped + last.late
    ensures multiset(last.ran) == multiset(last.popped)
    ensures (multiset(last.ran) == multiset(last.pushed) && last.queue == []) <==> last.late == []
  {
    InvInit(s);
    RunKeepsInv(s, acts, last);
    BagEmpty(last.workers, InHand);
  }
}
