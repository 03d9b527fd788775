/** Every step of the thread pool keeps its invariant. */
module PoolInvariants {
  import opened Tally
  import opened PoolMachine

  // ---- the life of the pool ----

  lemma PhasedStart<T>(s: Pool<T>)
    requires Phased(s) && CanStart(s)
    ensures Phased(StarterStep(s))
  {
  }

  /** Only the starter starts workers. */
  lemma PhasedFollows<T>(s: Pool<T>, s': Pool<T>)
    requires Phased(s) && s'.starter == s.starter && |s'.workers| == |s.workers|
    requires forall i :: 0 <= i < |s.workers| ==> (s'.workers[i].Unstarted? <==> s.workers[i].Unstarted?)
    requires s'.running ==> s.running
    requires s'.swept ==> Begun(s') && !s'.running
    ensures Phased(s')
  {
  }

  lemma PhasedWork<T>(s: Pool<T>, i: nat)
    requires Phased(s) && CanWork(s, i) && HasFront(s, i)
    ensures Phased(WorkerStep(s, i))
  {
    PhasedFollows(s, WorkerStep(s, i));
  }

  lemma PhasedCall<T>(s: Pool<T>, c: nat, wake: nat)
    requires Phased(s) && CallersOk(s) && CanCall(s, c, wake)
    ensures Phased(CallerStep(s, c, wake))
  {
    CallerWakes(s, c, wake);
    PhasedFollows(s, CallerStep(s, c, wake));
  }

  lemma PhasedKept<T>(s: Pool<T>, a: Act<T>)
    requires Phased(s) && CallersOk(s) && Enabled(s, a)
    ensures Phased(Apply(s, a))
  {
    match a
    case Start => PhasedStart(s);
    case Work(i) => PhasedWork(s, i);
    case Spurious(i) => PhasedFollows(s, PutW(s, i, Awake));
    case BeginEqueue(c, t) =>
    case BeginStop(c) =>
    case BeginJoin(c) =>
    case Call(c, wake) => PhasedCall(s, c, wake);
  }

  // ---- what callers rely on: the flag, once cleared, stays cleared ----

  lemma CallersStart<T>(s: Pool<T>)
    requires Phased(s) && CallersOk(s) && CanStart(s)
    ensures CallersOk(StarterStep(s))
  {
    forall c | 0 <= c < |s.callers|
      ensures CallerOk(s.callers[c], Begun(StarterStep(s)), StarterStep(s).running, s.swept)
    {
      assert CallerOk(s.callers[c], Begun(s), s.running, s.swept);
    }
  }

  lemma CallersFollow<T>(s: Pool<T>, s': Pool<T>, c: nat)
    requires CallersOk(s) && c < |s.callers| && Begun(s') == Begun(s) && (s'.running ==> s.running) && (s.swept ==> s'.swept)
    requires |s'.callers| == |s.callers|
    requires s'.callers == s.callers[c := s'.callers[c]]
    requires CallerOk(s'.callers[c], Begun(s'), s'.running, s'.swept)
    ensures CallersOk(s')
  {
    forall k | 0 <= k < |s'.callers|
      ensures CallerOk(s'.callers[k], Begun(s'), s'.running, s'.swept)
    {
      assert CallerOk(s.callers[k], Begun(s), s.running, s.swept);
    }
  }

  lemma CallersCall<T>(s: Pool<T>, c: nat, wake: nat)
    requires Phased(s) && CallersOk(s) && CanCall(s, c, wake)
    ensures CallersOk(CallerStep(s, c, wake))
  {
    assert CallerOk(s.callers[c], Begun(s), s.running, s.swept);
    CallersFollow(s, CallerStep(s, c, wake), c);
  }

  lemma CallersKept<T>(s: Pool<T>, a: Act<T>)
    requires Phased(s) && CallersOk(s) && Enabled(s, a)
    ensures CallersOk(Apply(s, a))
  {
    match a
    case Start => CallersStart(s);
    case Work(i) =>
    case Spurious(i) =>
    case BeginEqueue(c, t) => CallersFollow(s, Apply(s, a), c);
    case BeginStop(c) => CallersFollow(s, Apply(s, a), c);
    case BeginJoin(c) => CallersFollow(s, Apply(s, a), c);
    case Call(c, wake) => CallersCall(s, c, wake);
  }

  // ---- what workers rely on ----

  /** A worker without the mutex relies on nothing about the queue, and on the flag only to stay cleared. */
  lemma OutsiderOk<T>(w: Worker<T>, pending: bool, pending': bool, running: bool, running': bool, swept: bool)
    requires WorkerOk(w, pending, running, swept) && (running' ==> running)
    requires WorkerHolds(w) ==> pending' == pending
    ensures WorkerOk(w, pending', running', swept)
  {
  }

  lemma WorkersFollow<T>(s: Pool<T>, s': Pool<T>)
    requires WorkersOk(s) && |s'.workers| == |s.workers| && s'.swept == s.swept && (s'.running ==> s.running)
    requires forall j :: 0 <= j < |s.workers| ==>
      || WorkerOk(s'.workers[j], |s'.queue| > 0, s'.running, s'.swept)
      || (s'.workers[j] == s.workers[j] && (WorkerHolds(s.workers[j]) ==> (|s'.queue| > 0) == (|s.queue| > 0)))
    ensures WorkersOk(s')
  {
    forall j | 0 <= j < |s'.workers|
      ensures WorkerOk(s'.workers[j], |s'.queue| > 0, s'.running, s'.swept)
    {
      assert WorkerOk(s.workers[j], |s.queue| > 0, s.running, s.swept);
      if s'.workers[j] == s.workers[j] && (WorkerHolds(s.workers[j]) ==> (|s'.queue| > 0) == (|s.queue| > 0)) {
        OutsiderOk(s.workers[j], |s.queue| > 0, |s'.queue| > 0, s.running, s'.running, s.swept);
      }
    }
  }

  /** The worker that moves has just checked what it is about to rely on. */
  lemma MoverOk<T>(s: Pool<T>, i: nat)
    requires Phased(s) && WorkersOk(s) && CanWork(s, i) && HasFront(s, i)
    ensures var s' := WorkerStep(s, i); WorkerOk(s'.workers[i], |s'.queue| > 0, s'.running, s'.swept)
  {
    assert WorkerOk(s.workers[i], |s.queue| > 0, s.running, s.swept);
  }

  lemma TakerHolds<T>(s: Pool<T>, i: nat)
    requires Locked(s) && CanWork(s, i) && HasFront(s, i)
    ensures WorkerStep(s, i).workers == s.workers[i := WorkerStep(s, i).workers[i]]
    ensures WorkerStep(s, i).swept == s.swept && WorkerStep(s, i).running == s.running
    ensures WorkerStep(s, i).queue == s.queue || s.lock == Some(W(i))
  {
  }

  lemma WorkersWork<T>(s: Pool<T>, i: nat)
    requires Locked(s) && Phased(s) && WorkersOk(s) && CanWork(s, i) && HasFront(s, i)
    ensures WorkersOk(WorkerStep(s, i))
  {
    var s' := WorkerStep(s, i);
    MoverOk(s, i);
    TakerHolds(s, i);
    WorkersFollow(s, s');
  }

  /** The broadcast leaves nobody asleep, and nobody on the way to sleep. */
  lemma SweepsAll<T>(s: Pool<T>, c: nat, wake: nat)
    requires Locked(s) && Counted(s) && WorkersOk(s) && CanCall(s, c, wake) && s.callers[c].WakeTesting?
    ensures WorkersOk(CallerStep(s, c, wake))
  {
    var s' := CallerStep(s, c, wake);
    SumZero(s.workers, Sleeping);
    forall j | 0 <= j < |s.workers|
      ensures WorkerOk(s'.workers[j], |s'.queue| > 0, s'.running, s'.swept)
    {
      assert WorkerOk(s.workers[j], |s.queue| > 0, s.running, s.swept) && !WorkerHolds(s.workers[j]);
      assert s.sleepers <= 0 ==> Sleeping(s.workers[j]) == 0;
      assert s'.workers[j] == if s.workers[j].Asleep? then Awake else s.workers[j];
    }
  }

  lemma WorkersCall<T>(s: Pool<T>, c: nat, wake: nat)
    requires Locked(s) && Counted(s) && WorkersOk(s) && CanCall(s, c, wake)
    ensures WorkersOk(CallerStep(s, c, wake))
  {
    if s.callers[c].WakeTesting? {
      SweepsAll(s, c, wake);
    } else {
      CallerWakes(s, c, wake);
      assert s.callers[c].Pushing? ==> s.lock == Some(C(c));
      WorkersFollow(s, CallerStep(s, c, wake));
    }
  }

  lemma WorkersStart<T>(s: Pool<T>)
    requires Phased(s) && WorkersOk(s) && CanStart(s)
    ensures WorkersOk(StarterStep(s))
  {
    forall j | 0 <= j < |s.workers|
      ensures WorkerOk(StarterStep(s).workers[j], |s.queue| > 0, StarterStep(s).running, s.swept)
    {
      assert WorkerOk(s.workers[j], |s.queue| > 0, s.running, s.swept);
    }
  }

  lemma WorkersKept<T>(s: Pool<T>, a: Act<T>)
    requires Core(s) && Enabled(s, a)
    ensures WorkersOk(Apply(s, a))
  {
    match a
    case Start => WorkersStart(s);
    case Work(i) => WorkersWork(s, i);
    case Spurious(i) => WorkersFollow(s, Apply(s, a));
    case BeginEqueue(c, t) =>
    case BeginStop(c) =>
    case BeginJoin(c) =>
    case Call(c, wake) => WorkersCall(s, c, wake);
  }

  lemma CoreKept<T>(s: Pool<T>, a: Act<T>)
    requires Core(s) && Enabled(s, a)
    ensures Core(Apply(s, a))
  {
    LockedKept(s, a);
    CountedKept(s, a);
    PhasedKept(s, a);
    CallersKept(s, a);
    WorkersKept(s, a);
  }

  lemma CoreInit<T>(s: Pool<T>)
    requires Init(s)
    ensures Core(s)
  {
    SumZero(s.workers, Sleeping);
  }

  // ---- history ----

  function InHand<T>(w: Worker<T>): Option<T> {
    if w.Releasing? || w.Running? then Some(w.task) else None
  }

  /** Tasks leave the queue in the order they came, and each is run or about to be. */
  ghost predicate Recorded<T>(s: Pool<T>) {
    && s.pushed == s.popped + s.queue
    && multiset(s.popped) == Bag(s.workers, InHand) + multiset(s.ran)
  }

  /** A pop puts a task in a worker's hand, the end of its run takes it out. */
  ghost predicate HandMoves<T>(s: Pool<T>, i: nat, s': Pool<T>)
    requires i < |s.workers| && i < |s'.workers|
  {
    var w, w' := s.workers[i], s'.workers[i];
    && s'.workers == s.workers[i := w']
    && s'.pushed == s.pushed
    && if w.Taking? then
         && InHand(w) == None && s.queue != [] && InHand(w') == Some(s.queue[0])
         && s'.queue == s.queue[1..] && s'.popped == s.popped + [s.queue[0]] && s'.ran == s.ran
       else if w.Running? then
         InHand(w') == None && s'.queue == s.queue && s'.popped == s.popped && s'.ran == s.ran + [w.task]
       else InHand(w') == InHand(w) && s'.queue == s.queue && s'.popped == s.popped && s'.ran == s.ran
  }

  lemma WorkMovesHand<T>(s: Pool<T>, i: nat)
    requires CanWork(s, i) && HasFront(s, i)
    ensures HandMoves(s, i, WorkerStep(s, i))
  {
  }

  lemma RecordedTake<T>(s: Pool<T>, i: nat, s': Pool<T>)
    requires i < |s.workers| && i < |s'.workers| && Recorded(s) && HandMoves(s, i, s') && s.workers[i].Taking?
    ensures Recorded(s')
  {
    BagMoves(s.workers, i, s'.workers[i], InHand);
    assert (s.popped + [s.queue[0]]) + s.queue[1..] == s.popped + s.queue;
  }

  lemma RecordedMoves<T>(s: Pool<T>, i: nat, s': Pool<T>)
    requires i < |s.workers| && i < |s'.workers| && Recorded(s) && HandMoves(s, i, s')
    ensures Recorded(s')
  {
    if s.workers[i].Taking? {
      RecordedTake(s, i, s');
    } else {
      BagMoves(s.workers, i, s'.workers[i], InHand);
    }
  }

  lemma RecordedFollows<T>(s: Pool<T>, s': Pool<T>)
    requires Recorded(s) && |s'.workers| == |s.workers|
    requires forall i :: 0 <= i < |s.workers| ==> InHand(s'.workers[i]) == InHand(s.workers[i])
    requires s'.popped == s.popped && s'.ran == s.ran && s'.pushed == s'.popped + s'.queue
    ensures Recorded(s')
  {
    BagSame(s.workers, s'.workers, InHand);
  }

  lemma RecordedCall<T>(s: Pool<T>, c: nat, wake: nat)
    requires Recorded(s) && CanCall(s, c, wake)
    ensures Recorded(CallerStep(s, c, wake))
  {
    var s' := CallerStep(s, c, wake);
    CallerWakes(s, c, wake);
    assert forall i :: 0 <= i < |s.workers| ==> InHand(s'.workers[i]) == InHand(s.workers[i]);
    if s.callers[c].Pushing? {
      assert s.popped + (s.queue + [s.callers[c].task]) == (s.popped + s.queue) + [s.callers[c].task];
    }
    RecordedFollows(s, s');
  }

  lemma RecordedStart<T>(s: Pool<T>)
    requires Recorded(s) && CanStart(s)
    ensures Recorded(StarterStep(s))
  {
    RecordedFollows(s, StarterStep(s));
  }

  lemma RecordedKept<T>(s: Pool<T>, a: Act<T>)
    requires Recorded(s) && Enabled(s, a)
    ensures Recorded(Apply(s, a))
  {
    match a
    case Start => RecordedStart(s);
    case Work(i) =>
      WorkMovesHand(s, i);
      RecordedMoves(s, i, WorkerStep(s, i));
    case Spurious(i) => RecordedFollows(s, PutW(s, i, Awake));
    case BeginEqueue(c, t) =>
    case BeginStop(c) =>
    case BeginJoin(c) =>
    case Call(c, wake) => RecordedCall(s, c, wake);
  }

  // ---- what `Equeue` has answered ----

  function Unanswered<T>(d: Caller<T>): Option<T> {
    if d.Signalling? || d.Finishing? then Some(d.task) else None
  }

  /** `Equeue` returns true for what has been pushed, and for nothing else. */
  ghost predicate Answered<T>(s: Pool<T>) {
    multiset(s.pushed) == Bag(s.callers, Unanswered) + multiset(s.accepted)
  }

  /** A push puts a task in a caller's hand, the return of its `Equeue` takes it out. */
  ghost predicate AnswerMoves<T>(s: Pool<T>, c: nat, s': Pool<T>)
    requires c < |s.callers| && c < |s'.callers|
  {
    var d, d' := s.callers[c], s'.callers[c];
    && s'.callers == s.callers[c := d']
    && if d.Pushing? then
         Unanswered(d) == None && Unanswered(d') == Some(d.task) && s'.pushed == s.pushed + [d.task] && s'.accepted == s.accepted
       else if d.Finishing? then
         Unanswered(d') == None && s'.pushed == s.pushed && s'.accepted == s.accepted + [d.task]
       else Unanswered(d') == Unanswered(d) && s'.pushed == s.pushed && s'.accepted == s.accepted
  }

  lemma CallMovesAnswer<T>(s: Pool<T>, c: nat, wake: nat)
    requires CanCall(s, c, wake)
    ensures AnswerMoves(s, c, CallerStep(s, c, wake))
  {
  }

  lemma AnsweredMoves<T>(s: Pool<T>, c: nat, s': Pool<T>)
    requires c < |s.callers| && c < |s'.callers| && Answered(s) && AnswerMoves(s, c, s')
    ensures Answered(s')
  {
    BagMoves(s.callers, c, s'.callers[c], Unanswered);
  }

  lemma AnsweredWork<T>(s: Pool<T>, i: nat)
    requires Answered(s) && CanWork(s, i) && HasFront(s, i)
    ensures Answered(WorkerStep(s, i))
  {
    WorkLeaves(s, i);
  }

  lemma AnsweredBegin<T>(s: Pool<T>, c: nat, d: Caller<T>)
    requires Answered(s) && c < |s.callers| && s.callers[c] == Outside && Unanswered(d) == None
    ensures Answered(PutC(s, c, d))
  {
    BagMoves(s.callers, c, d, Unanswered);
  }

  lemma AnsweredCall<T>(s: Pool<T>, c: nat, wake: nat)
    requires Answered(s) && CanCall(s, c, wake)
    ensures Answered(CallerStep(s, c, wake))
  {
    CallMovesAnswer(s, c, wake);
    AnsweredMoves(s, c, CallerStep(s, c, wake));
  }

  lemma AnsweredStart<T>(s: Pool<T>)
    requires Answered(s) && CanStart(s)
    ensures Answered(StarterStep(s))
  {
    StartLeaves(s);
  }

  lemma AnsweredKept<T>(s: Pool<T>, a: Act<T>)
    requires Answered(s) && Enabled(s, a)
    ensures Answered(Apply(s, a))
  {
    match a
    case Start => AnsweredStart(s);
    case Work(i) => AnsweredWork(s, i);
    case Spurious(i) =>
    case BeginEqueue(c, t) => AnsweredBegin(s, c, Checking(t));
    case BeginStop(c) => AnsweredBegin(s, c, StopChecking);
    case BeginJoin(c) => AnsweredBegin(s, c, Joining(|s.workers|));
    case Call(c, wake) => AnsweredCall(s, c, wake);
  }

  // ---- tasks that come too late ----

  ghost predicate LateOnly<T>(s: Pool<T>) {
    if AllExited(s) then s.queue == s.late else s.late == []
  }

  lemma LateWork<T>(s: Pool<T>, i: nat)
    requires WorkersOk(s) && LateOnly(s) && CanWork(s, i) && HasFront(s, i)
    ensures LateOnly(WorkerStep(s, i))
  {
    var s' := WorkerStep(s, i);
    assert !s.workers[i].Exited? && WorkerOk(s.workers[i], |s.queue| > 0, s.running, s.swept);
    assert s'.workers[i].Exited? <==> s.workers[i].Leaving?;
  }

  lemma LateFollows<T>(s: Pool<T>, s': Pool<T>)
    requires LateOnly(s) && |s'.workers| == |s.workers|
    requires forall i :: 0 <= i < |s.workers| ==> (s'.workers[i].Exited? <==> s.workers[i].Exited?)
    requires if AllExited(s) then s'.queue == s'.late else s'.late == s.late
    ensures LateOnly(s')
  {
    assert AllExited(s') <==> AllExited(s);
  }

  lemma LateCall<T>(s: Pool<T>, c: nat, wake: nat)
    requires LateOnly(s) && CanCall(s, c, wake)
    ensures LateOnly(CallerStep(s, c, wake))
  {
    CallerWakes(s, c, wake);
    LateFollows(s, CallerStep(s, c, wake));
  }

  lemma LateStart<T>(s: Pool<T>)
    requires LateOnly(s) && CanStart(s)
    ensures LateOnly(StarterStep(s))
  {
    LateFollows(s, StarterStep(s));
  }

  lemma LateKept<T>(s: Pool<T>, a: Act<T>)
    requires WorkersOk(s) && LateOnly(s) && Enabled(s, a)
    ensures LateOnly(Apply(s, a))
  {
    match a
    case Start => LateStart(s);
    case Work(i) => LateWork(s, i);
    case Spurious(i) => LateFollows(s, PutW(s, i, Awake));
    case BeginEqueue(c, t) =>
    case BeginStop(c) =>
    case BeginJoin(c) =>
    case Call(c, wake) => LateCall(s, c, wake);
  }

  // ---- no task is left to sleepers ----

  predicate SomeSignalling<T>(s: Pool<T>) { exists c :: 0 <= c < |s.callers| && s.callers[c].Signalling? }
  predicate SomeUp<T>(s: Pool<T>) { exists i :: 0 <= i < |s.workers| && !s.workers[i].Asleep? }

  /** While the pool runs, a waiting task has a worker that is not asleep, or a signal under way. */
  ghost predicate Attended<T>(s: Pool<T>) {
    s.running && s.queue != [] && s.workers != [] ==> SomeSignalling(s) || SomeUp(s)
  }

  lemma AttendedWork<T>(s: Pool<T>, i: nat)
    requires WorkersOk(s) && CanWork(s, i) && HasFront(s, i)
    ensures Attended(WorkerStep(s, i))
  {
    var s' := WorkerStep(s, i);
    assert WorkerOk(s.workers[i], |s.queue| > 0, s.running, s.swept);
    if !s.workers[i].Waiting? {
      assert !s'.workers[i].Asleep?;
    }
  }

  /** The signal test of line 130: unless every thread counts as asleep, one is not. */
  lemma SignalAttends<T>(s: Pool<T>, c: nat, wake: nat)
    requires Counted(s) && CanCall(s, c, wake) && s.callers[c].Signalling? && s.workers != []
    ensures SomeUp(CallerStep(s, c, wake))
  {
    var s' := CallerStep(s, c, wake);
    if |s.workers| == s.sleepers {
      if wake < |s.workers| && s.workers[wake].Asleep? {
        assert !s'.workers[wake].Asleep?;
      } else {
        assert !s'.workers[0].Asleep?;
      }
    } else {
      SumFull(s.workers, Sleeping);
      var i :| 0 <= i < |s.workers| && Sleeping(s.workers[i]) != 1;
      assert !s'.workers[i].Asleep?;
    }
  }

  lemma AttendedCall<T>(s: Pool<T>, c: nat, wake: nat)
    requires Counted(s) && Attended(s) && CanCall(s, c, wake)
    ensures Attended(CallerStep(s, c, wake))
  {
    var s' := CallerStep(s, c, wake);
    CallerWakes(s, c, wake);
    if s.workers != [] {
      if s.callers[c].Signalling? {
        SignalAttends(s, c, wake);
      } else if s.callers[c].Pushing? {
        assert s'.callers[c].Signalling?;
      } else if SomeUp(s) {
        var i :| 0 <= i < |s.workers| && !s.workers[i].Asleep?;
        assert !s'.workers[i].Asleep?;
      } else if SomeSignalling(s) {
        var k :| 0 <= k < |s.callers| && s.callers[k].Signalling?;
        assert s'.callers[k].Signalling?;
      }
    }
  }

  lemma AttendedStart<T>(s: Pool<T>)
    requires Phased(s) && Attended(s) && CanStart(s)
    ensures Attended(StarterStep(s))
  {
    var s' := StarterStep(s);
    if s'.workers != [] && !Begun(s) {
      assert !s'.workers[0].Asleep?;
    } else if s'.workers != [] && SomeUp(s) {
      var i :| 0 <= i < |s.workers| && !s.workers[i].Asleep?;
      assert !s'.workers[i].Asleep?;
    }
  }

  lemma AttendedKept<T>(s: Pool<T>, a: Act<T>)
    requires Core(s) && Attended(s) && Enabled(s, a)
    ensures Attended(Apply(s, a))
  {
    match a
    case Start => AttendedStart(s);
    case Work(i) => AttendedWork(s, i);
    case Spurious(i) => assert !Apply(s, a).workers[i].Asleep?;
    case BeginEqueue(c, t) => AttendedBegin(s, a);
    case BeginStop(c) => AttendedBegin(s, a);
    case BeginJoin(c) => AttendedBegin(s, a);
    case Call(c, wake) => AttendedCall(s, c, wake);
  }

  lemma AttendedBegin<T>(s: Pool<T>, a: Act<T>)
    requires Attended(s) && Enabled(s, a) && (a.BeginEqueue? || a.BeginStop? || a.BeginJoin?)
    ensures Attended(Apply(s, a))
  {
    if SomeSignalling(s) {
      var k :| 0 <= k < |s.callers| && s.callers[k].Signalling?;
      assert Apply(s, a).callers[k].Signalling?;
    }
  }

  // ---- a cleared flag is always followed by a broadcast ----

  predicate SweepComing<T>(s: Pool<T>) {
    exists c :: 0 <= c < |s.callers| && (s.callers[c].WakeLocking? || s.callers[c].WakeTesting?)
  }

  ghost predicate StopFollowed<T>(s: Pool<T>) {
    Begun(s) && !s.running && !s.swept ==> SweepComing(s)
  }

  lemma SweepStays<T>(s: Pool<T>, s': Pool<T>, k: nat)
    requires k < |s.callers| == |s'.callers| && (s.callers[k].WakeLocking? || s.callers[k].WakeTesting?)
    requires s'.callers[k] == s.callers[k]
    ensures SweepComing(s')
  {
  }

  lemma StopCall<T>(s: Pool<T>, c: nat, wake: nat)
    requires StopFollowed(s) && CanCall(s, c, wake)
    ensures StopFollowed(CallerStep(s, c, wake))
  {
    var s' := CallerStep(s, c, wake);
    if s.callers[c].StopClearing? {
      assert s'.callers[c].WakeLocking?;
    } else if SweepComing(s) {
      var k :| 0 <= k < |s.callers| && (s.callers[k].WakeLocking? || s.callers[k].WakeTesting?);
      if k == c {
        assert s'.swept || s'.callers[c].WakeTesting?;
      } else {
        SweepStays(s, s', k);
      }
    }
  }

  lemma StopWork<T>(s: Pool<T>, i: nat)
    requires StopFollowed(s) && CanWork(s, i) && HasFront(s, i)
    ensures StopFollowed(WorkerStep(s, i))
  {
    if SweepComing(s) {
      var k :| 0 <= k < |s.callers| && (s.callers[k].WakeLocking? || s.callers[k].WakeTesting?);
      SweepStays(s, WorkerStep(s, i), k);
    }
  }

  lemma StopKept<T>(s: Pool<T>, a: Act<T>)
    requires Phased(s) && StopFollowed(s) && Enabled(s, a)
    ensures StopFollowed(Apply(s, a))
  {
    if a.Call? {
      StopCall(s, a.c, a.wake);
    } else if a.Work? {
      StopWork(s, a.i);
    } else if SweepComing(s) {
      var k :| 0 <= k < |s.callers| && (s.callers[k].WakeLocking? || s.callers[k].WakeTesting?);
      SweepStays(s, Apply(s, a), k);
    }
  }

  // ---- together ----

  ghost predicate Inv<T>(s: Pool<T>) {
    Core(s) && Recorded(s) && Answered(s) && LateOnly(s) && Attended(s) && StopFollowed(s)
  }

  lemma InvInit<T>(s: Pool<T>)
    requires Init(s)
    ensures Inv(s)
  {
    CoreInit(s);
    BagEmpty(s.workers, InHand);
    BagEmpty(s.callers, Unanswered);
  }

  lemma InvKept<T>(s: Pool<T>, a: Act<T>)
    requires Inv(s) && Enabled(s, a)
    ensures Inv(Apply(s, a))
  {
    CoreKept(s, a);
    RecordedKept(s, a);
    AnsweredKept(s, a);
    LateKept(s, a);
    AttendedKept(s, a);
    StopKept(s, a);
  }
}
