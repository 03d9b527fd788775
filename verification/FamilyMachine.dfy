/** The process pool after `Create`: a parent that deals commands round robin and then closes its
    pipes, and children that read their own pipe until end-of-file while they keep the write ends
    they inherited of all earlier pipes. */
module FamilyMachine {
  import opened Tally
  import opened Modulo

  datatype Proc = Parent | Child(i: nat)

  /** What the parent still has to do: commands to send, then the loops of `StopSubPocess` and of
      `WaitSubProcess` (which closes once more), then nothing. */
  datatype Phase = Dispatching(todo: seq<int>) | Closing(i: nat) | Reclosing(i: nat) | Gone

  /** `writers[i]` are the processes with an open write end of pipe `i`; `capacity` is how many
      commands fit into a pipe. `dispatched`, `sent` and `executed` record the run. */
  datatype Family = Family(
    capacity: nat, pipes: seq<seq<int>>, writers: seq<set<Proc>>, alive: seq<bool>, next: nat, phase: Phase,
    dispatched: seq<int>, sent: seq<seq<int>>, executed: seq<seq<int>>)

  datatype Act = ParentActs | ChildActs(i: nat)

  /** The processes left with a write end of pipe `i` when `n` children have been forked. */
  function Heirs(i: nat, n: nat): set<Proc> {
    {Parent} + set j: nat | i < j < n :: Child(j)
  }

  predicate Shaped(s: Family) {
    |s.pipes| == |s.writers| == |s.sent| == |s.executed| == |s.alive|
  }

  predicate Init(s: Family, codes: seq<int>) {
    && Shaped(s) && s.capacity > 0 && s.alive != [] && s.next == 0 && s.phase == Dispatching(codes) && s.dispatched == []
    && forall i :: 0 <= i < |s.alive| ==>
         s.alive[i] && s.pipes[i] == [] && s.sent[i] == [] && s.executed[i] == [] && s.writers[i] == Heirs(i, |s.alive|)
  }

  /** `write` blocks on a full pipe; a `read` on an empty one, until nobody can write to it. */
  predicate Enabled(s: Family, a: Act) {
    Shaped(s) &&
    match a
    case ParentActs =>
      && !s.phase.Gone?
      && (s.phase.Dispatching? && s.phase.todo != [] ==>
            s.next < |s.alive| && |s.pipes[s.next]| < s.capacity)
    case ChildActs(i) =>
      i < |s.alive| && s.alive[i] && (s.pipes[i] != [] || s.writers[i] == {})
  }

  /** Closing all of a process's descriptors, as its exit does. */
  function Released(writers: seq<set<Proc>>, p: Proc): (r: seq<set<Proc>>)
    ensures |r| == |writers| && forall k :: 0 <= k < |writers| ==> r[k] == writers[k] - {p}
  {
    seq(|writers|, k requires 0 <= k < |writers| => writers[k] - {p})
  }

  function ParentStep(s: Family): Family
    requires Enabled(s, ParentActs)
  {
    match s.phase
    case Dispatching(todo) =>
      if todo == [] then s.(phase := Closing(0))
      else s.(phase := Dispatching(todo[1..]), dispatched := s.dispatched + [todo[0]],
              pipes := s.pipes[s.next := s.pipes[s.next] + [todo[0]]],
              sent := s.sent[s.next := s.sent[s.next] + [todo[0]]],
              next := (s.next + 1) % |s.alive|)
    case Closing(i) =>
      if i < |s.alive| then s.(writers := s.writers[i := s.writers[i] - {Parent}], phase := Closing(i + 1))
      else s.(phase := Reclosing(0))
    case Reclosing(i) =>
      if i < |s.alive| then s.(phase := Reclosing(i + 1)) else s.(phase := Gone)
  }

  /** One round of `work`: a command is executed, or end-of-file is met and the child exits. */
  function ChildStep(s: Family, i: nat): Family
    requires Enabled(s, ChildActs(i))
  {
    if s.pipes[i] != [] then
      s.(pipes := s.pipes[i := s.pipes[i][1..]], executed := s.executed[i := s.executed[i] + [s.pipes[i][0]]])
    else
      s.(alive := s.alive[i := false], writers := Released(s.writers, Child(i)))
  }

  function Apply(s: Family, a: Act): Family
    requires Enabled(s, a)
  {
    match a
    case ParentActs => ParentStep(s)
    case ChildActs(i) => ChildStep(s, i)
  }

  ghost predicate Run(s: Family, acts: seq<Act>, last: Family)
    decreases |acts|
  {
    if acts == [] then last == s
    else Enabled(s, acts[0]) && Run(Apply(s, acts[0]), acts[1..], last)
  }

  // ---- round robin ----

  /** The commands at positions i, i + n, i + 2n, ... */
  function Deal(codes: seq<int>, i: nat, n: nat): seq<int>
    requires n > 0
  {
    if codes == [] then []
    else
      var before := Deal(codes[..|codes| - 1], i, n);
      if (|codes| - 1) % n == i then before + [codes[|codes| - 1]] else before
  }

  lemma DealNext(codes: seq<int>, c: int, i: nat, n: nat)
    requires n > 0
    ensures Deal(codes + [c], i, n) == if |codes| % n == i then Deal(codes, i, n) + [c] else Deal(codes, i, n)
  {
    assert (codes + [c])[..|codes|] == codes;
  }

  // ---- the inductive invariant ----

  predicate ParentHolds(phase: Phase, i: nat) {
    phase.Dispatching? || (phase.Closing? && phase.i <= i)
  }

  /** A write end is open in the parent until it closes it, and in every later child until it exits. */
  ghost predicate Held(s: Family) {
    Shaped(s) && forall i, p :: 0 <= i < |s.alive| ==>
      (p in s.writers[i] <==> match p
                              case Parent => ParentHolds(s.phase, i)
                              case Child(j) => i < j < |s.alive| && s.alive[j])
  }

  /** A child that has exited had no writer left and nothing to read. */
  ghost predicate Quiet(s: Family) {
    Shaped(s) && forall i :: 0 <= i < |s.alive| && !s.alive[i] ==>
      && s.pipes[i] == [] && !ParentHolds(s.phase, i)
      && forall j :: i < j < |s.alive| ==> !s.alive[j]
  }

  /** Every child was sent its share, in order, and has executed it up to what is in its pipe. */
  ghost predicate Dealt(s: Family) {
    && Shaped(s) && s.alive != [] && s.next == |s.dispatched| % |s.alive|
    && forall i :: 0 <= i < |s.alive| ==>
         && s.sent[i] == s.executed[i] + s.pipes[i]
         && s.sent[i] == Deal(s.dispatched, i, |s.alive|)
  }

  ghost predicate Plan(s: Family, codes: seq<int>) {
    s.dispatched + (if s.phase.Dispatching? then s.phase.todo else []) == codes
  }

  ghost predicate Inv(s: Family, codes: seq<int>) {
    Held(s) && Quiet(s) && Dealt(s) && Plan(s, codes) && s.capacity > 0
  }

  lemma HeldParent(s: Family)
    requires Held(s) && Enabled(s, ParentActs)
    ensures Held(ParentStep(s))
  {
  }

  lemma HeldChild(s: Family, k: nat)
    requires Held(s) && Enabled(s, ChildActs(k))
    ensures Held(ChildStep(s, k))
  {
  }

  lemma AliveToDispatch(s: Family, i: nat)
    requires Quiet(s) && s.phase.Dispatching? && i < |s.alive|
    ensures s.alive[i]
  {
  }

  lemma QuietParent(s: Family)
    requires Quiet(s) && Enabled(s, ParentActs)
    ensures Quiet(ParentStep(s))
  {
    if s.phase.Dispatching? {
      forall i | 0 <= i < |s.alive| ensures s.alive[i] {
        AliveToDispatch(s, i);
      }
    }
  }

  lemma WriterlessWhen(s: Family, i: nat)
    requires Held(s) && i < |s.alive|
    ensures s.writers[i] == {} <==> !ParentHolds(s.phase, i) && forall j :: i < j < |s.alive| ==> !s.alive[j]
  {
    if s.writers[i] == {} {
      assert Parent !in s.writers[i];
      forall j | i < j < |s.alive| ensures !s.alive[j] {
        assert Child(j) !in s.writers[i];
      }
    } else {
      var p :| p in s.writers[i];
    }
  }

  lemma QuietChild(s: Family, k: nat)
    requires Held(s) && Quiet(s) && Enabled(s, ChildActs(k))
    ensures Quiet(ChildStep(s, k))
  {
    if s.pipes[k] == [] {
      WriterlessWhen(s, k);
    }
  }

  lemma DealtParent(s: Family)
    requires Dealt(s) && Enabled(s, ParentActs)
    ensures Dealt(ParentStep(s))
  {
    var s', n := ParentStep(s), |s.alive|;
    if s.phase.Dispatching? && s.phase.todo != [] {
      var c := s.phase.todo[0];
      ModNext(|s.dispatched|, n);
      forall i | 0 <= i < n
        ensures s'.sent[i] == s'.executed[i] + s'.pipes[i] && s'.sent[i] == Deal(s'.dispatched, i, n)
      {
        DealNext(s.dispatched, c, i, n);
        assert s.sent[i] + [c] == s.executed[i] + (s.pipes[i] + [c]);
      }
    }
  }

  lemma DealtChild(s: Family, k: nat)
    requires Dealt(s) && Enabled(s, ChildActs(k))
    ensures Dealt(ChildStep(s, k))
  {
    if s.pipes[k] != [] {
      assert s.executed[k] + s.pipes[k] == (s.executed[k] + [s.pipes[k][0]]) + s.pipes[k][1..];
    }
  }

  lemma PlanKept(s: Family, a: Act, codes: seq<int>)
    requires Plan(s, codes) && Enabled(s, a)
    ensures Plan(Apply(s, a), codes)
  {
  }

  lemma InvKept(s: Family, a: Act, codes: seq<int>)
    requires Inv(s, codes) && Enabled(s, a)
    ensures Inv(Apply(s, a), codes)
  {
    PlanKept(s, a, codes);
    match a
    case ParentActs =>
      HeldParent(s);
      QuietParent(s);
      DealtParent(s);
    case ChildActs(i) =>
      HeldChild(s, i);
      QuietChild(s, i);
      DealtChild(s, i);
  }

  lemma InvInit(s: Family, codes: seq<int>)
    requires Init(s, codes)
    ensures Inv(s, codes)
  {
  }

  // ---- the cascade ----

  function Length(p: seq<int>): nat { |p| }
  function Living(b: bool): nat { if b then 1 else 0 }

  function Remaining(phase: Phase, n: nat): nat {
    match phase
    case Dispatching(todo) => 2 * |todo| + 2 * n + 4
    case Closing(i) => (if i <= n then n - i else 0) + n + 3
    case Reclosing(i) => (if i <= n then n - i else 0) + 1
    case Gone => 0
  }

  /** How many steps the family can still take. */
  function Measure(s: Family): nat {
    Remaining(s.phase, |s.alive|) + Sum(s.pipes, Length) + Sum(s.alive, Living)
  }

  lemma MeasureDrops(s: Family, a: Act)
    requires Enabled(s, a)
    ensures Measure(Apply(s, a)) < Measure(s)
  {
    match a
    case ParentActs =>
      if s.phase.Dispatching? && s.phase.todo != [] {
        SumUpdate(s.pipes, s.next, s.pipes[s.next] + [s.phase.todo[0]], Length);
      }
    case ChildActs(i) =>
      if s.pipes[i] != [] {
        SumUpdate(s.pipes, i, s.pipes[i][1..], Length);
      } else {
        SumUpdate(s.alive, i, false, Living);
      }
  }

  lemma StepKeeps(s: Family, a: Act, codes: seq<int>)
    requires Inv(s, codes) && Enabled(s, a)
    ensures Inv(Apply(s, a), codes) && Measure(Apply(s, a)) < Measure(s) && |Apply(s, a).alive| == |s.alive|
  {
    InvKept(s, a, codes);
    MeasureDrops(s, a);
  }

  predicate AllOver(s: Family) {
    s.phase.Gone? && forall i :: 0 <= i < |s.alive| ==> !s.alive[i]
  }

  lemma SomebodyMovesFrom(s: Family, codes: seq<int>)
    requires Inv(s, codes) && !AllOver(s)
    ensures Enabled(s, ParentActs) || exists i :: 0 <= i < |s.alive| && Enabled(s, ChildActs(i))
  {
    if !Enabled(s, ParentActs) {
      if s.phase.Dispatching? {
        AliveToDispatch(s, s.next);
        assert Enabled(s, ChildActs(s.next));
      } else {
        var i := LastLiving(s, |s.alive|);
        WriterlessWhen(s, i);
        assert Enabled(s, ChildActs(i));
      }
    }
  }

  lemma {:induction false} LastLiving(s: Family, n: nat) returns (i: nat)
    requires n <= |s.alive| && exists k :: 0 <= k < n && s.alive[k]
    ensures i < n && s.alive[i] && forall k :: i < k < n ==> !s.alive[k]
  {
    if s.alive[n - 1] {
      i := n - 1;
    } else {
      i := LastLiving(s, n - 1);
    }
  }

  lemma {:induction false} RunKeepsInv(s: Family, acts: seq<Act>, last: Family, codes: seq<int>)
    requires Inv(s, codes) && Run(s, acts, last)
    ensures Inv(last, codes) && |last.alive| == |s.alive|
    ensures |acts| + Measure(last) <= Measure(s)
    decreases |acts|
  {
    if acts != [] {
      StepKeeps(s, acts[0], codes);
      RunKeepsInv(Apply(s, acts[0]), acts[1..], last, codes);
    }
  }

  /** Somebody can always go on until the parent is done and all children have exited: the last living
      child, once nobody after it in the cascade holds its pipe. */
  lemma SomebodyMoves(s: Family, acts: seq<Act>, last: Family, codes: seq<int>)
    requires Init(s, codes) && Run(s, acts, last) && !AllOver(last)
    ensures Enabled(last, ParentActs) || exists i :: 0 <= i < |last.alive| && Enabled(last, ChildActs(i))
  {
    InvInit(s, codes);
    RunKeepsInv(s, acts, last, codes);
    SomebodyMovesFrom(last, codes);
  }

  /** The turns of its loops that the parent of `n` children has before it. */
  function Turns(phase: Phase, n: nat): int {
    match phase
    case Dispatching(todo) => |todo| + 1 + (n + 1) + (n + 1)
    case Closing(i) => (n - i + 1) + (n + 1)
    case Reclosing(i) => n - i + 1
    case Gone => 0
  }

  function ParentSteps(acts: seq<Act>): nat {
    if acts == [] then 0 else (if acts[0].ParentActs? then 1 else 0) + ParentSteps(acts[1..])
  }

  predicate InRange(phase: Phase, n: nat) { (phase.Closing? || phase.Reclosing?) ==> phase.i <= n }

  lemma {:induction false} ParentRun(s: Family, acts: seq<Act>, last: Family)
    requires Run(s, acts, last) && InRange(s.phase, |s.alive|)
    ensures |last.alive| == |s.alive| && InRange(last.phase, |s.alive|)
    ensures ParentSteps(acts) + Turns(last.phase, |s.alive|) == Turns(s.phase, |s.alive|)
    decreases |acts|
  {
    if acts != [] {
      ParentRun(Apply(s, acts[0]), acts[1..], last);
    }
  }

  /** The parent sends each command once and closes each descriptor twice, in two loops over all children,
      whatever the children do. */
  lemma ParentStepsExactly(s: Family, acts: seq<Act>, last: Family, codes: seq<int>)
    requires Init(s, codes) && Run(s, acts, last)
    ensures ParentSteps(acts) + Turns(last.phase, |s.alive|) == |codes| + 2 * |s.alive| + 3
  {
    ParentRun(s, acts, last);
  }

  lemma {:induction false} PipesRun(s: Family, acts: seq<Act>, last: Family)
    requires Run(s, acts, last) && forall i :: 0 <= i < |s.pipes| ==> |s.pipes[i]| <= s.capacity
    ensures last.capacity == s.capacity && forall i :: 0 <= i < |last.pipes| ==> |last.pipes[i]| <= s.capacity
    decreases |acts|
  {
    if acts != [] {
      PipesRun(Apply(s, acts[0]), acts[1..], last);
    }
  }

  /** No pipe ever holds more than it can. */
  lemma PipesFit(s: Family, acts: seq<Act>, last: Family, codes: seq<int>)
    requires Init(s, codes) && Run(s, acts, last)
    ensures forall i :: 0 <= i < |last.pipes| ==> |last.pipes[i]| <= s.capacity
  {
    PipesRun(s, acts, last);
  }

  /** While commands are sent every child is alive, so no write meets a closed pipe. */
  lemma DispatchedAlive(s: Family, acts: seq<Act>, last: Family, codes: seq<int>, i: nat)
    requires Init(s, codes) && Run(s, acts, last) && last.phase.Dispatching? && i < |last.alive|
    ensures last.alive[i]
  {
    InvInit(s, codes);
    RunKeepsInv(s, acts, last, codes);
    AliveToDispatch(last, i);
  }

  /** A child can meet end-of-file exactly when the parent has closed its pipe and every later child
      has exited. */
  lemma EndOfFileNeedsLaterChildren(s: Family, acts: seq<Act>, last: Family, codes: seq<int>, i: nat)
    requires Init(s, codes) && Run(s, acts, last) && i < |last.alive|
    ensures i < |last.writers|
    ensures last.writers[i] == {} <==> !ParentHolds(last.phase, i) && forall j :: i < j < |last.alive| ==> !last.alive[j]
  {
    InvInit(s, codes);
    RunKeepsInv(s, acts, last, codes);
    WriterlessWhen(last, i);
  }

  lemma AllOverMeansDone(s: Family, codes: seq<int>)
    requires Inv(s, codes) && AllOver(s)
    ensures forall i :: 0 <= i < |s.alive| ==> s.executed[i] == Deal(codes, i, |s.alive|)
  {
    forall i | 0 <= i < |s.alive| ensures s.executed[i] == Deal(codes, i, |s.alive|) {
      assert s.pipes[i] == [] && s.dispatched == codes;
    }
  }

  /** For any number of children, any commands and any scheduling: no run is longer than the initial
      measure, and a run that cannot be continued has ended with the parent done, every child exited,
      and every child having executed exactly the commands dealt to it, in order. */
  lemma ShutdownCompletes(s: Family, acts: seq<Act>, last: Family, codes: seq<int>)
    requires Init(s, codes) && Run(s, acts, last)
    ensures |acts| <= Measure(s) && |last.alive| == |s.alive| == |last.executed|
    ensures (forall a :: !Enabled(last, a)) <==> AllOver(last)
    ensures AllOver(last) ==> forall i :: 0 <= i < |s.alive| ==> last.executed[i] == Deal(codes, i, |s.alive|)
  {
    InvInit(s, codes);
    RunKeepsInv(s, acts, last, codes);
    NobodyMovesAtTheEnd(last, codes);
    if AllOver(last) {
      AllOverMeansDone(last, codes);
    }
  }

  lemma NobodyMovesAtTheEnd(s: Family, codes: seq<int>)
    requires Inv(s, codes)
    ensures (forall a :: !Enabled(s, a)) <==> AllOver(s)
  {
    if !AllOver(s) {
      SomebodyMovesFrom(s, codes);
    }
  }
}
