/** Sums and bags taken over a table of threads, one entry per thread. */
module Tally {

  datatype Option<+T> = None | Some(value: T)

  function Sum<T>(s: seq<T>, w: T -> nat): nat {
    if s == [] then 0 else w(s[0]) + Sum(s[1..], w)
  }

  lemma {:induction false} SumUpdate<T>(s: seq<T>, i: nat, x: T, w: T -> nat)
    requires i < |s|
    ensures Sum(s[i := x], w) + w(s[i]) == Sum(s, w) + w(x)
  {
    if i == 0 {
      assert s[0 := x][1..] == s[1..];
    } else {
      assert s[i := x][1..] == s[1..][i - 1 := x];
      SumUpdate(s[1..], i - 1, x, w);
    }
  }

  lemma {:induction false} SumMember<T>(s: seq<T>, i: nat, w: T -> nat)
    requires i < |s|
    ensures w(s[i]) <= Sum(s, w)
  {
    if i > 0 {
      SumMember(s[1..], i - 1, w);
    }
  }

  lemma {:induction false} SumZero<T>(s: seq<T>, w: T -> nat)
    ensures Sum(s, w) == 0 <==> forall i :: 0 <= i < |s| ==> w(s[i]) == 0
  {
    if s != [] {
      SumZero(s[1..], w);
      assert forall i :: 0 < i < |s| ==> s[i] == s[1..][i - 1];
      assert forall i :: 0 <= i < |s[1..]| ==> s[1..][i] == s[i + 1];
    }
  }

  /** A count reaches the number of entries only when every entry counts. */
  lemma {:induction false} SumFull<T>(s: seq<T>, w: T -> nat)
    requires forall i :: 0 <= i < |s| ==> w(s[i]) <= 1
    ensures Sum(s, w) <= |s|
    ensures Sum(s, w) == |s| <==> forall i :: 0 <= i < |s| ==> w(s[i]) == 1
  {
    if s != [] {
      assert forall i :: 0 <= i < |s[1..]| ==> s[1..][i] == s[i + 1];
      SumFull(s[1..], w);
      assert forall i :: 0 < i < |s| ==> s[i] == s[1..][i - 1];
    }
  }

  lemma {:induction false} SumSame<T>(s: seq<T>, s': seq<T>, w: T -> nat)
    requires |s| == |s'| && forall i :: 0 <= i < |s| ==> w(s[i]) == w(s'[i])
    ensures Sum(s, w) == Sum(s', w)
  {
    if s != [] {
      assert forall i :: 0 <= i < |s[1..]| ==> s[1..][i] == s[i + 1] && s'[1..][i] == s'[i + 1];
      SumSame(s[1..], s'[1..], w);
    }
  }

  lemma {:induction false} SumAtMost<T>(s: seq<T>, s': seq<T>, w: T -> nat)
    requires |s| == |s'| && forall i :: 0 <= i < |s| ==> w(s'[i]) <= w(s[i])
    ensures Sum(s', w) <= Sum(s, w)
  {
    if s != [] {
      assert forall i :: 0 <= i < |s[1..]| ==> s[1..][i] == s[i + 1] && s'[1..][i] == s'[i + 1];
      SumAtMost(s[1..], s'[1..], w);
    }
  }

  function One<U>(o: Option<U>): multiset<U> {
    if o.Some? then multiset{o.value} else multiset{}
  }

  /** What the threads hold between them, at most one thing each. */
  function Bag<T, U>(s: seq<T>, hold: T -> Option<U>): multiset<U> {
    if s == [] then multiset{} else One(hold(s[0])) + Bag(s[1..], hold)
  }

  lemma Regroup<U>(head: multiset<U>, a: multiset<U>, was: multiset<U>, b: multiset<U>, now: multiset<U>)
    requires a + was == b + now
    ensures (head + a) + was == (head + b) + now
  {
    assert (head + a) + was == head + (a + was);
    assert (head + b) + now == head + (b + now);
  }

  lemma {:induction false} BagUpdate<T, U>(s: seq<T>, i: nat, x: T, hold: T -> Option<U>)
    requires i < |s|
    ensures Bag(s[i := x], hold) + One(hold(s[i])) == Bag(s, hold) + One(hold(x))
  {
    var s' := s[i := x];
    if i == 0 {
      assert s'[1..] == s[1..];
      Swap(One(hold(s[0])), Bag(s[1..], hold), One(hold(x)));
    } else {
      assert s'[1..] == s[1..][i - 1 := x];
      BagUpdate(s[1..], i - 1, x, hold);
      Regroup(One(hold(s[0])), Bag(s'[1..], hold), One(hold(s[i])), Bag(s[1..], hold), One(hold(x)));
    }
  }

  lemma Swap<U>(a: multiset<U>, rest: multiset<U>, b: multiset<U>)
    ensures (b + rest) + a == (a + rest) + b
  {
  }

  /** The bag after one thread changed what it holds: kept, picked up, or put down. */
  lemma BagMoves<T, U>(s: seq<T>, i: nat, x: T, hold: T -> Option<U>)
    requires i < |s|
    ensures hold(x) == hold(s[i]) ==> Bag(s[i := x], hold) == Bag(s, hold)
    ensures hold(s[i]) == None ==> Bag(s[i := x], hold) == Bag(s, hold) + One(hold(x))
    ensures hold(x) == None ==> Bag(s[i := x], hold) + One(hold(s[i])) == Bag(s, hold)
  {
    BagUpdate(s, i, x, hold);
    var b, b' := Bag(s, hold), Bag(s[i := x], hold);
    assert (b' + One(hold(s[i]))) - One(hold(s[i])) == b';
    assert (b + One(hold(x))) - One(hold(x)) == b;
  }

  lemma {:induction false} BagEmpty<T, U>(s: seq<T>, hold: T -> Option<U>)
    requires forall i :: 0 <= i < |s| ==> hold(s[i]) == None
    ensures Bag(s, hold) == multiset{}
  {
    if s != [] {
      BagEmpty(s[1..], hold);
    }
  }

  lemma {:induction false} BagSame<T, U>(s: seq<T>, s': seq<T>, hold: T -> Option<U>)
    requires |s| == |s'| && forall i :: 0 <= i < |s| ==> hold(s[i]) == hold(s'[i])
    ensures Bag(s, hold) == Bag(s', hold)
  {
    if s != [] {
      assert forall i :: 0 <= i < |s[1..]| ==> s[1..][i] == s[i + 1] && s'[1..][i] == s'[i + 1];
      BagSame(s[1..], s'[1..], hold);
    }
  }
}
