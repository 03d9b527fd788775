/** `GetInstance`: creation on first use with a check before and a check under the lock, for any
    number of callers, one statement at a time, under sequential consistency. */
module Singleton {
  import opened Tally

  /** `locked` says whether the call went through the lock. */
  datatype Caller =
    | Outside
    | FirstCheck | Locking | SecondCheck | Constructing | Starting | Unlocking
    | Returning(locked: bool) | Returned(pool: Option<nat>, locked: bool)

  /** `inc` points to pool number `inc.value`; `starts` lists the pools `Start` was called on. */
  datatype Factory = Factory(inc: Option<nat>, built: nat, starts: seq<nat>, lock: Option<nat>, callers: seq<Caller>)

  predicate Init(s: Factory) {
    && s.inc == None && s.built == 0 && s.starts == [] && s.lock == None
    && forall t :: 0 <= t < |s.callers| ==> s.callers[t] == Outside
  }

  /** A caller blocks on the lock only; `inc->Start()` needs a pool. */
  predicate Enabled(s: Factory, t: nat) {
    t < |s.callers| && (s.callers[t].Locking? ==> s.lock == None) && (s.callers[t].Starting? ==> s.inc.Some?)
  }

  function Goto(s: Factory, t: nat, c: Caller): Factory
    requires t < |s.callers|
  {
    s.(callers := s.callers[t := c])
  }

  /** The next statement of caller `t`; one that has returned may call again. */
  function Step(s: Factory, t: nat): Factory
    requires Enabled(s, t)
  {
    match s.callers[t]
    case Outside => Goto(s, t, FirstCheck)
    case FirstCheck => Goto(s, t, if s.inc == None then Locking else Returning(false))
    case Locking => Goto(s, t, SecondCheck).(lock := Some(t))
    case SecondCheck => Goto(s, t, if s.inc == None then Constructing else Unlocking)
    case Constructing => Goto(s, t, Starting).(inc := Some(s.built), built := s.built + 1)
    case Starting => Goto(s, t, Unlocking).(starts := s.starts + [s.inc.value])
    case Unlocking => Goto(s, t, Returning(true)).(lock := None)
    case Returning(locked) => Goto(s, t, Returned(s.inc, locked))
    case Returned(_, _) => Goto(s, t, FirstCheck)
  }

  ghost predicate Run(s: Factory, schedule: seq<nat>, last: Factory)
    decreases |schedule|
  {
    if schedule == [] then last == s
    else Enabled(s, schedule[0]) && Run(Step(s, schedule[0]), schedule[1..], last)
  }

  predicate Inside(c: Caller) { c.SecondCheck? || c.Constructing? || c.Starting? || c.Unlocking? }

  /** What a caller knows at each statement. */
  predicate Knows(c: Caller, s: Factory) {
    match c
    case Constructing => s.built == 0
    case Starting => s.built == 1 && s.starts == []
    case Unlocking => s.built == 1 && s.starts == [0]
    case Returning(locked) => s.built == 1 && (locked ==> s.starts == [0])
    case Returned(p, locked) => s.built == 1 && p == Some(0) && (locked ==> s.starts == [0])
    case _ => true
  }

  predicate SomeStarting(s: Factory) { exists t :: 0 <= t < |s.callers| && s.callers[t].Starting? }

  ghost predicate Inv(s: Factory) {
    && s.built <= 1 && s.inc == (if s.built == 0 then None else Some(0))
    && (s.built == 0 ==> s.starts == []) && (s.starts == [] || s.starts == [0])
    && (s.built == 1 && s.starts == [] ==> SomeStarting(s))
    && (s.lock.Some? ==> s.lock.value < |s.callers|)
    && (forall t :: 0 <= t < |s.callers| ==> (Inside(s.callers[t]) <==> s.lock == Some(t)))
    && (forall t :: 0 <= t < |s.callers| ==> Knows(s.callers[t], s))
  }

  /** Everybody else keeps what he knows. */
  lemma KnowsKept(s: Factory, t: nat, u: nat)
    requires Inv(s) && Enabled(s, t) && u < |s.callers| && u != t
    ensures Knows(s.callers[u], Step(s, t))
  {
    assert Knows(s.callers[t], s) && Knows(s.callers[u], s);
    assert Inside(s.callers[u]) ==> !Inside(s.callers[t]);
  }

  lemma MoverKnows(s: Factory, t: nat)
    requires Inv(s) && Enabled(s, t)
    ensures Knows(Step(s, t).callers[t], Step(s, t))
  {
    assert Knows(s.callers[t], s);
    if SomeStarting(s) {
      var k :| 0 <= k < |s.callers| && s.callers[k].Starting?;
      assert Inside(s.callers[k]);
    }
  }

  lemma StartComing(s: Factory, t: nat)
    requires Inv(s) && Enabled(s, t) && Step(s, t).built == 1 && Step(s, t).starts == []
    ensures SomeStarting(Step(s, t))
  {
    if s.callers[t].Constructing? {
      assert Step(s, t).callers[t].Starting?;
    } else {
      var k :| 0 <= k < |s.callers| && s.callers[k].Starting?;
      assert Step(s, t).callers[k].Starting?;
    }
  }

  lemma InvKept(s: Factory, t: nat)
    requires Inv(s) && Enabled(s, t)
    ensures Inv(Step(s, t))
  {
    var s' := Step(s, t);
    assert Knows(s.callers[t], s);
    MoverKnows(s, t);
    forall u | 0 <= u < |s'.callers| ensures Knows(s'.callers[u], s') {
      if u != t {
        KnowsKept(s, t, u);
      }
    }
    if s'.built == 1 && s'.starts == [] {
      StartComing(s, t);
    }
  }

  lemma {:induction false} RunKeepsInv(s: Factory, schedule: seq<nat>, last: Factory)
    requires Inv(s) && Run(s, schedule, last)
    ensures Inv(last)
    decreases |schedule|
  {
    if schedule != [] {
      InvKept(s, schedule[0]);
      RunKeepsInv(Step(s, schedule[0]), schedule[1..], last);
    }
  }

  /** Whatever the interleaving: at most one pool is built, `Start` is called at most once and on it,
      every caller gets it, and once it is built it has been started if and only if nobody stands
      between its assignment and its start. A caller that went through the lock gets it started. */
  lemma OnePoolForAll(s: Factory, schedule: seq<nat>, last: Factory)
    requires Init(s) && Run(s, schedule, last)
    ensures last.built <= 1 && (last.starts == [] || last.starts == [0])
    ensures forall t :: 0 <= t < |last.callers| && last.callers[t].Returned? ==> last.callers[t].pool == Some(0) && last.built == 1
    ensures last.built == 1 ==> (last.starts == [0] <==> !SomeStarting(last))
    ensures last.lock == None && last.built == 1 ==> last.starts == [0]
    ensures forall t :: 0 <= t < |last.callers| && last.callers[t].Returned? && last.callers[t].locked ==> last.starts == [0]
  {
    RunKeepsInv(s, schedule, last);
    assert forall t :: 0 <= t < |last.callers| ==> Knows(last.callers[t], last);
    if SomeStarting(last) {
      var k :| 0 <= k < |last.callers| && last.callers[k].Starting?;
      assert Inside(last.callers[k]);
    }
  }

  // ---- every call returns ----

  /** How many statements a caller still has before it at most. */
  function Left(c: Caller): nat {
    match c
    case FirstCheck => 7
    case Locking => 6
    case SecondCheck => 5
    case Constructing => 4
    case Starting => 3
    case Unlocking => 2
    case Returning(_) => 1
    case _ => 0
  }

  predicate Calling(c: Caller) { !c.Outside? && !c.Returned? }

  /** How many of the steps of a schedule begin a call. */
  function Calls(s: Factory, schedule: seq<nat>): nat
    decreases |schedule|
  {
    if schedule == [] || !Enabled(s, schedule[0]) then 0
    else (if Calling(s.callers[schedule[0]]) then 0 else 1) + Calls(Step(s, schedule[0]), schedule[1..])
  }

  lemma {:induction false} StepsBounded(s: Factory, schedule: seq<nat>, last: Factory)
    requires Run(s, schedule, last)
    ensures |schedule| + Sum(last.callers, Left) <= Sum(s.callers, Left) + 8 * Calls(s, schedule)
    decreases |schedule|
  {
    if schedule != [] {
      var t := schedule[0];
      SumUpdate(s.callers, t, Step(s, t).callers[t], Left);
      StepsBounded(Step(s, t), schedule[1..], last);
    }
  }

  /** No call of `GetInstance` takes more than eight steps, and as long as somebody is inside one,
      somebody inside can go on; so every call returns. */
  lemma EveryCallReturns(s: Factory, schedule: seq<nat>, last: Factory)
    requires Init(s) && Run(s, schedule, last)
    ensures |schedule| + Sum(last.callers, Left) <= 8 * Calls(s, schedule)
    ensures (exists t :: 0 <= t < |last.callers| && Calling(last.callers[t])) ==>
      exists t :: 0 <= t < |last.callers| && Calling(last.callers[t]) && Enabled(last, t)
  {
    SumZero(s.callers, Left);
    StepsBounded(s, schedule, last);
    RunKeepsInv(s, schedule, last);
    if t :| 0 <= t < |last.callers| && Calling(last.callers[t]) {
      assert Knows(last.callers[t], last);
      if last.lock.Some? {
        assert Inside(last.callers[last.lock.value]) && Knows(last.callers[last.lock.value], last);
        assert Enabled(last, last.lock.value);
      } else {
        assert Enabled(last, t);
      }
    }
  }

  /** The pool a caller gets need not have been started: the unlocked check can see the pointer
      between its assignment and the call of `Start`. */
  lemma ReturnedMayBeUnstarted()
    ensures exists s: Factory, schedule: seq<nat>, last: Factory ::
      && Init(s) && Run(s, schedule, last)
      && |last.callers| == 2 && last.callers[1] == Returned(Some(0), false) && last.starts == []
  {
    var s := Factory(None, 0, [], None, [Outside, Outside]);
    var s4 := Factory(None, 0, [], Some(0), [Constructing, Outside]);
    var s5 := Factory(Some(0), 1, [], Some(0), [Starting, Outside]);
    var last := Factory(Some(0), 1, [], Some(0), [Starting, Returned(Some(0), false)]);
    FourSteps(s, s4);
    Three(s5, last);
    assert Step(s4, 0) == s5;
    Join(s4, [0], s5, [1, 1, 1], last);
    Join(s, [0, 0, 0, 0], s4, [0] + [1, 1, 1], last);
  }

  lemma FourSteps(s: Factory, last: Factory)
    requires s == Factory(None, 0, [], None, [Outside, Outside])
    requires last == Factory(None, 0, [], Some(0), [Constructing, Outside])
    ensures Run(s, [0, 0, 0, 0], last)
  {
    var mid := Factory(None, 0, [], None, [Locking, Outside]);
    assert Step(Step(s, 0), 0) == mid && Step(Step(mid, 0), 0) == last;
    assert [0, 0, 0, 0][1..] == [0, 0, 0] && [0, 0, 0][1..] == [0, 0] && [0, 0][1..] == [0] && [0][1..] == [];
  }

  lemma Three(s: Factory, last: Factory)
    requires s == Factory(Some(0), 1, [], Some(0), [Starting, Outside])
    requires last == Factory(Some(0), 1, [], Some(0), [Starting, Returned(Some(0), false)])
    ensures Run(s, [1, 1, 1], last)
  {
    var checked := Factory(Some(0), 1, [], Some(0), [Starting, Returning(false)]);
    assert Step(Step(s, 1), 1) == checked && Step(checked, 1) == last;
    assert [1, 1, 1][1..] == [1, 1] && [1, 1][1..] == [1] && [1][1..] == [];
  }

  lemma Join(s: Factory, a: seq<nat>, mid: Factory, b: seq<nat>, last: Factory)
    requires Run(s, a, mid) && Run(mid, b, last)
    ensures Run(s, a + b, last)
    decreases |a|
  {
    if a == [] {
      assert a + b == b;
    } else {
      Join(Step(s, a[0]), a[1..], mid, b, last);
      assert (a + b)[1..] == a[1..] + b;
    }
  }
}
