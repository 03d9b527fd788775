/** The process pool itself: who holds which pipe end after `Create`, and its loops in place. */
module ProcessPools {
  import opened Tally
  import opened Modulo
  import opened FamilyMachine

  // ---- what dealing round robin means ----

  /** Child `i` gets exactly the commands at positions i, i + n, i + 2n, ..., in that order. */
  lemma {:induction false} DealIsEveryNth(codes: seq<int>, i: nat, n: nat)
    requires i < n
    ensures var share := Deal(codes, i, n);
      && Place(|share|, i, n) >= |codes|
      && forall k :: 0 <= k < |share| ==> Place(k, i, n) < |codes| && share[k] == codes[Place(k, i, n)]
  {
    if codes != [] {
      var m := |codes| - 1;
      var before := Deal(codes[..m], i, n);
      DealIsEveryNth(codes[..m], i, n);
      NextPlace(m, i, n, |before|);
    }
  }

  /** The position of the `k`-th command of child `i`. */
  function Place(k: nat, i: nat, n: nat): nat { n * k + i }

  /** Position `m` is the first one left for child `i` exactly if it is its turn. */
  lemma NextPlace(m: nat, i: nat, n: nat, l: nat)
    requires i < n && Place(l, i, n) >= m && (l > 0 ==> Place(l - 1, i, n) < m)
    ensures m % n == i <==> Place(l, i, n) == m
    ensures m % n == i ==> Place(l + 1, i, n) > m
  {
    assert n * (l + 1) == n * l + n && (l > 0 ==> n * (l - 1) == n * l - n);
    if Place(l, i, n) == m {
      ModIs(m, n, l, i);
    } else {
      var q := if l > 0 && m >= n * l then l else if l > 0 then l - 1 else 0;
      assert m == n * q + (m - n * q) && 0 <= m - n * q < n;
      ModIs(m, n, q, m - n * q);
    }
  }

  lemma LoadBound(n: nat, total: nat, a: nat, b: nat, i: nat, j: nat)
    requires i < n && j < n && (a > 0 ==> n * (a - 1) + i < total) && total <= n * b + j
    ensures a <= b + 1
    ensures j <= i ==> a <= b
  {
    var e := a - 1 - b;
    assert a > 0 ==> n * e + i < j by {
      assert a > 0 ==> n * (a - 1) == n * e + n * b;
    }
    Multiples(n, e);
  }

  /** However many commands have been dealt, no child got two more than another. */
  lemma LoadsDifferByOne(codes: seq<int>, i: nat, j: nat, n: nat)
    requires i < j < n
    ensures |Deal(codes, j, n)| <= |Deal(codes, i, n)| <= |Deal(codes, j, n)| + 1
  {
    DealIsEveryNth(codes, i, n);
    DealIsEveryNth(codes, j, n);
    var a, b := |Deal(codes, i, n)|, |Deal(codes, j, n)|;
    assert a > 0 ==> Place(a - 1, i, n) < |codes|;
    assert b > 0 ==> Place(b - 1, j, n) < |codes|;
    LoadBound(n, |codes|, |Deal(codes, j, n)|, |Deal(codes, i, n)|, j, i);
    LoadBound(n, |codes|, |Deal(codes, i, n)|, |Deal(codes, j, n)|, i, j);
  }

  /** The channel that call number `k` of `Select` returns. */
  function Turn(k: nat, n: nat): nat requires n > 0 { k % n }

  /** Any `n` consecutive calls of `Select` reach every channel exactly once. */
  lemma WindowHitsOnce(k: nat, i: nat, n: nat)
    requires i < n
    ensures exists d :: k <= d < k + n && Turn(d, n) == i
    ensures forall d, e :: k <= d < e < k + n ==> Turn(d, n) != Turn(e, n)
  {
    TurnComes(k, i, n);
    forall d, e | k <= d < e < k + n ensures Turn(d, n) != Turn(e, n) {
      ModDiffer(d, e, n);
    }
  }

  lemma TurnComes(k: nat, i: nat, n: nat)
    requires i < n
    ensures exists d :: k <= d < k + n && Turn(d, n) == i
  {
    var r, q := k % n, k / n;
    assert k == n * q + r;
    if i >= r {
      ModIs(n * q + i, n, q, i);
      assert Turn(n * q + i, n) == i;
    } else {
      assert n * (q + 1) == n * q + n;
      ModIs(n * (q + 1) + i, n, q + 1, i);
      assert Turn(n * (q + 1) + i, n) == i;
    }
  }

  /** Every process that holds an end of a pipe hands it on to the child it forks. */
  function Inherited(ends: seq<set<Proc>>, child: Proc): (r: seq<set<Proc>>)
    ensures |r| == |ends|
    ensures forall k :: 0 <= k < |ends| ==> r[k] == if Parent in ends[k] then ends[k] + {child} else ends[k]
  {
    seq(|ends|, k requires 0 <= k < |ends| => if Parent in ends[k] then ends[k] + {child} else ends[k])
  }

  /** The ends of `pipe()` number `n`, opened and inherited, after both sides closed what they do not use. */
  ghost predicate Plumbed(writers: seq<set<Proc>>, readers: seq<set<Proc>>, n: nat) {
    && |writers| == |readers| == n
    && forall i :: 0 <= i < n ==> writers[i] == Heirs(i, n) && readers[i] == {Child(i)}
  }

  /** One round of `pipe`, `fork` and the two `close` calls adds one child to the plumbing. */
  lemma PlumbedGrows(writers: seq<set<Proc>>, readers: seq<set<Proc>>, n: nat)
    requires Plumbed(writers, readers, n)
    ensures var ws, rs := Inherited(writers + [{Parent}], Child(n)), Inherited(readers + [{Parent}], Child(n));
      Plumbed(ws[n := ws[n] - {Child(n)}], rs[n := rs[n] - {Parent}], n + 1)
  {
    var ws, rs := Inherited(writers + [{Parent}], Child(n)), Inherited(readers + [{Parent}], Child(n));
    forall i | 0 <= i < n ensures ws[i] == Heirs(i, n + 1) && rs[i] == {Child(i)} {
      assert ws[i] == Heirs(i, n) + {Child(n)};
    }
    assert ws[n] - {Child(n)} == Heirs(n, n + 1);
    assert rs[n] - {Parent} == {Child(n)};
  }

  class ProcessPool {
    var channels: seq<nat>
    var next: nat
    var pipes: seq<seq<int>>
    var writers: seq<set<Proc>>
    var readers: seq<set<Proc>>
    var strayWriters: set<Proc>   // the ends of a pipe that has no child
    var strayReaders: set<Proc>
    var alive: seq<bool>
    var phase: Phase
    const capacity: nat
    ghost var dispatched: seq<int>
    ghost var sent: seq<seq<int>>
    ghost var executed: seq<seq<int>>

    ghost function View(): Family
      reads this
    {
      Family(capacity, pipes, writers, alive, next, phase, dispatched, sent, executed)
    }

    /** Channel number `i` writes to pipe `i`, and `next` is whose turn it is. */
    ghost predicate Manages()
      reads this
    {
      && |channels| == |alive| && (forall i :: 0 <= i < |channels| ==> channels[i] == i)
      && (channels == [] ==> next == 0)
      && (channels != [] ==> next == |dispatched| % |channels|)
    }

    ghost predicate Empty()
      reads this
    {
      && alive == [] && pipes == [] && writers == [] && readers == [] && channels == [] && next == 0
      && dispatched == [] && sent == [] && executed == [] && strayWriters == {} && strayReaders == {}
    }

    constructor (capacity: nat, codes: seq<int>)
      ensures this.capacity == capacity && phase == Dispatching(codes) && Empty() && Manages()
    {
      this.capacity, phase, channels, next := capacity, Dispatching(codes), [], 0;
      pipes, writers, readers, alive := [], [], [], [];
      dispatched, sent, executed := [], [], [];
      strayWriters, strayReaders := {}, {};
    }

    /** The bookkeeping for child number `|alive|`. */
    method BuildChannel()
      requires Manages() && dispatched == [] && |alive| == |pipes| == |sent| == |executed|
      modifies `channels, `alive, `pipes, `sent, `executed
      ensures Manages() && |alive| == old(|alive|) + 1
      ensures alive == old(alive) + [true] && pipes == old(pipes) + [[]]
      ensures sent == old(sent) + [[]] && executed == old(executed) + [[]]
    {
      channels, alive, pipes := channels + [|alive|], alive + [true], pipes + [[]];
      sent, executed := sent + [[]], executed + [[]];
    }

    /** Child `n` is forked, inherits every end the parent has, and both close what they do not use. */
    method Fork(n: nat)
      requires Plumbed(writers, readers, n) && strayWriters == strayReaders == {Parent}
      modifies `writers, `readers, `strayWriters, `strayReaders
      ensures Plumbed(writers, readers, n + 1) && strayWriters == strayReaders == {}
    {
      PlumbedGrows(writers, readers, n);
      writers, readers := writers + [strayWriters], readers + [strayReaders];
      strayWriters, strayReaders := {}, {};
      writers, readers := Inherited(writers, Child(n)), Inherited(readers, Child(n));
      writers := writers[n := writers[n] - {Child(n)}];
      readers := readers[n := readers[n] - {Parent}];
    }

    /** `Create`, where the `pipeFails`-th `pipe` and the `forkFails`-th `fork` fail, if it comes to that.
        Whatever happens, each child made holds the write ends of all earlier pipes, and nobody but
        child `i` can read pipe `i`; a pipe whose `fork` failed stays behind in the parent alone. */
    method Create(num: nat, pipeFails: nat, forkFails: nat) returns (ok: bool)
      requires Empty() && Manages() && phase.Dispatching?
      modifies this
      ensures Manages() && phase == old(phase) && (ok <==> num <= pipeFails && num <= forkFails)
      ensures |alive| == if ok then num else if forkFails < pipeFails then forkFails else pipeFails
      ensures Plumbed(writers, readers, |alive|)
      ensures strayWriters == strayReaders == if !ok && forkFails < pipeFails then {Parent} else {}
      ensures alive != [] && capacity > 0 ==> Init(View(), old(phase).todo)
    {
      for i := 0 to num
        invariant Manages() && dispatched == [] && phase == old(phase) && next == 0
        invariant i <= pipeFails && i <= forkFails && |alive| == i
        invariant |pipes| == |sent| == |executed| == i
        invariant forall k :: 0 <= k < i ==> alive[k] && pipes[k] == [] && sent[k] == [] && executed[k] == []
        invariant Plumbed(writers, readers, i) && strayWriters == {} && strayReaders == {}
      {
        if i == pipeFails {
          return false;
        }
        strayWriters, strayReaders := {Parent}, {Parent};
        if i == forkFails {
          return false;
        }
        Fork(i);
        BuildChannel();
      }
      return true;
    }

    /** `Select`: the `k`-th call returns channel `k mod n`. */
    method Select() returns (c: nat)
      requires Manages() && channels != []
      modifies `next
      ensures c == channels[old(next)] == |dispatched| % |channels| && next == (|dispatched| + 1) % |channels|
    {
      ModNext(|dispatched|, |channels|);
      c := channels[next];
      next := next + 1;
      next := next % |channels|;
    }

    /** `Run`: the next command goes to the next child; `write` waits while its pipe is full. */
    method Run()
      requires Enabled(View(), ParentActs) && Manages() && phase.Dispatching? && phase.todo != []
      modifies this
      ensures View() == ParentStep(old(View())) && Manages()
    {
      var code := phase.todo[0];
      ModNext(|dispatched|, |channels|);
      var c := Select();
      pipes := pipes[c := pipes[c] + [code]];
      phase := Dispatching(phase.todo[1..]);
      sent, dispatched := sent[c := sent[c] + [code]], dispatched + [code];
    }

    /** The rest of the parent: one turn of a loop of `Stop`. */
    method StopStep()
      requires Enabled(View(), ParentActs) && (phase.Dispatching? ==> phase.todo == [])
      modifies `phase, `writers
      ensures View() == ParentStep(old(View()))
    {
      match phase
      case Dispatching(_) => phase := Closing(0);
      case Closing(i) =>
        if i < |alive| {
          writers := writers[i := writers[i] - {Parent}];
          phase := Closing(i + 1);
        } else {
          phase := Reclosing(0);
        }
      case Reclosing(i) =>
        if i < |alive| {
          phase := Reclosing(i + 1);
        } else {
          phase := Gone;
        }
    }

    /** One turn of the loop in `work` of child `i`. */
    method Work(i: nat)
      requires Enabled(View(), ChildActs(i))
      modifies this
      ensures View() == ChildStep(old(View()), i) && channels == old(channels) && next == old(next) && dispatched == old(dispatched)
    {
      if pipes[i] != [] {
        executed := executed[i := executed[i] + [pipes[i][0]]];
        pipes := pipes[i := pipes[i][1..]];
      } else {
        alive := alive[i := false];
        writers := Released(writers, Child(i));
      }
    }

    /** The parent blocks on a full pipe only ... */
    predicate ParentCan()
      requires Shaped(View())
      reads this
      ensures ParentCan() <==> Enabled(View(), ParentActs)
    {
      && !phase.Gone?
      && (phase.Dispatching? && phase.todo != [] ==> next < |alive| && |pipes[next]| < capacity)
    }

    /** ... and a child on an empty one that somebody can still write to. */
    predicate ChildCan(i: nat)
      requires Shaped(View())
      reads this
      ensures ChildCan(i) <==> Enabled(View(), ChildActs(i))
    {
      i < |alive| && alive[i] && (pipes[i] != [] || writers[i] == {})
    }

    /** The parent's next step, whatever it is. */
    method ParentMoves()
      requires Enabled(View(), ParentActs) && Manages()
      modifies this
      ensures View() == ParentStep(old(View())) && Manages()
    {
      if phase.Dispatching? && phase.todo != [] {
        Run();
      } else {
        StopStep();
      }
    }

    /** Something is left to do. */
    predicate Unfinished()
      reads this
      ensures !Unfinished() <==> AllOver(View())
    {
      !phase.Gone? || exists i :: 0 <= i < |alive| && alive[i]
    }

    /** The whole program after `Create`, with whichever process the system lets run next: it ends, all
        children have exited, and each has executed the commands dealt to it. */
    method RunToEnd(ghost codes: seq<int>)
      requires Init(View(), codes) && Manages()
      modifies this
      ensures AllOver(View()) && |executed| == |alive| == |old(alive)|
      ensures forall i :: 0 <= i < |alive| ==> executed[i] == Deal(codes, i, |alive|)
    {
      InvInit(View(), codes);
      while Unfinished()
        invariant Inv(View(), codes) && Manages() && |alive| == |old(alive)|
        decreases Measure(View())
      {
        SomebodyMovesFrom(View(), codes);
        ghost var before := View();
        if !ParentCan() {
          ghost var k :| 0 <= k < |alive| && Enabled(before, ChildActs(k));
          assert ChildCan(k);
        }
        if {
          case ParentCan() =>
            StepKeeps(before, ParentActs, codes);
            ParentMoves();
          case i: nat :| 0 <= i < |alive| && ChildCan(i) =>
            StepKeeps(before, ChildActs(i), codes);
            Work(i);
        }
      }
      AllOverMeansDone(View(), codes);
    }

    /** The example program, which ignores what `Create` returns: if at least one child was made the
        commands are dealt to the children there are. Otherwise it comes to index an empty vector. */
    method CreateAndRun(num: nat, pipeFails: nat, forkFails: nat) returns (goes: bool)
      requires Empty() && Manages() && phase.Dispatching? && capacity > 0
      modifies this
      ensures goes <==> num > 0 && pipeFails > 0 && forkFails > 0
      ensures goes ==> AllOver(View()) && |executed| == |alive| > 0
      ensures goes ==> (num <= pipeFails && num <= forkFails ==> |alive| == num)
      ensures goes ==> forall i :: 0 <= i < |alive| ==> executed[i] == Deal(old(phase).todo, i, |alive|)
      ensures !goes ==> channels == []
    {
      ghost var codes := phase.todo;
      var ok := Create(num, pipeFails, forkFails);
      if |channels| == 0 {
        return false;
      }
      RunToEnd(codes);
      return true;
    }
  }
}
