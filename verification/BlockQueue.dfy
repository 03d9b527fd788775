/** The blocking queue itself: its fields, and its critical sections carried out in place. */
module BlockQueues {
  import opened Tally
  import opened MonitorMachine
  import opened MonitorTheorems

  function After<T>(s: Monitor<T>, acts: seq<Act<T>>): Monitor<T>
    decreases |acts|
  {
    if acts == [] then s
    else After(if Enabled(s, acts[0]) then Apply(s, acts[0]) else s, acts[1..])
  }

  /** A schedule possible at every turn is carried out whole. */
  lemma {:induction false} RunIsAfter<T>(s: Monitor<T>, acts: seq<Act<T>>, last: Monitor<T>)
    requires Run(s, acts, last)
    ensures After(s, acts) == last
    decreases |acts|
  {
    if acts != [] {
      RunIsAfter(Apply(s, acts[0]), acts[1..], last);
    }
  }

  class BlockQueue<T(!new)> {
    var queue: seq<T>
    const cap: int
    var csleepNum: int
    var psleepNum: int
    var calls: seq<Call<T>>
    ghost var offered: seq<T>
    ghost var puts: seq<T>
    ghost var takes: seq<T>

    ghost function View(): Monitor<T>
      reads this
    {
      Monitor(cap, queue, csleepNum, psleepNum, calls, offered, puts, takes)
    }

    ghost predicate Valid()
      reads this
    {
      Inv(View())
    }

    constructor (cap: int, threads: nat)
      requires -0x8000_0000 <= cap
      ensures Init(View()) && Valid() && this.cap == cap && |calls| == threads
    {
      this.cap := cap;
      queue, csleepNum, psleepNum := [], 0, 0;
      calls := seq(threads, _ => Idle);
      offered, puts, takes := [], [], [];
      new;
      InvInit(View());
    }

    predicate IsFull()
      requires -0x8000_0000 <= cap
      reads this
      ensures cap >= 0 ==> (IsFull() <==> |queue| == cap)
    {
      |queue| == Limit(cap)
    }

    predicate IsEmpty()
      reads this
    {
      |queue| == 0
    }

    predicate Waiting(k: nat, consumer: bool)
      reads this
      ensures Waiting(k, consumer) == Waits(View(), k, consumer)
    {
      k < |calls| && if consumer then calls[k].CWaiting? else calls[k].PWaiting?
    }

    /** Wakes thread `wake` if it waits as asked. */
    method Notify(wake: nat, consumer: bool)
      modifies this
      ensures View() == if old(Waits(View(), wake, consumer)) then MonitorMachine.Wake(old(View()), wake) else old(View())
    {
      if Waiting(wake, consumer) {
        if consumer {
          calls := calls[wake := CWoken];
        } else {
          calls := calls[wake := PWoken(calls[wake].item)];
        }
      }
    }

    /** `Equeue` of thread `t` from getting the mutex, on entry or back from a wait, to giving it up. */
    method Equeue(t: nat, wake: nat)
      requires Enabled(View(), Enter(t, wake)) && Producing(calls[t])
      modifies this
      ensures View() == Apply(old(View()), Enter(t, wake))
      ensures cap >= 0 ==>
        if old(|queue|) == cap then queue == old(queue) && calls[t] == PWaiting(old(calls)[t].item)
        else queue == old(queue) + [old(calls)[t].item] && calls[t] == Idle
    {
      var data := calls[t].item;
      if calls[t].PWoken? {
        psleepNum := psleepNum - 1;
      }
      if IsFull() {
        psleepNum := psleepNum + 1;
        calls := calls[t := PWaiting(data)];
        return;
      }
      queue, puts := queue + [data], puts + [data];
      calls := calls[t := Idle];
      if csleepNum > 0 {
        Notify(wake, true);
      }
    }

    /** `pop` of thread `t` from getting the mutex to giving it up; the item taken if it returns. */
    method Pop(t: nat, wake: nat) returns (data: Option<T>)
      requires Enabled(View(), Enter(t, wake)) && Consuming(calls[t])
      modifies this
      ensures View() == Apply(old(View()), Enter(t, wake))
      ensures data == if old(queue) == [] then None else Some(old(queue)[0])
      ensures if old(queue) == [] then queue == [] && calls[t] == CWaiting else queue == old(queue)[1..] && calls[t] == Idle
    {
      if calls[t].CWoken? {
        csleepNum := csleepNum - 1;
      }
      if IsEmpty() {
        csleepNum := csleepNum + 1;
        calls := calls[t := CWaiting];
        return None;
      }
      data := Some(queue[0]);
      takes := takes + [queue[0]];
      queue := queue[1..];
      calls := calls[t := Idle];
      if psleepNum > 0 {
        Notify(wake, false);
      }
    }

    /** The mutex is free between steps; a signal must name a waiting thread if there is one. */
    predicate Possible(a: Act<T>)
      reads this
    {
      a.t < |calls| &&
      match a
      case CallEqueue(t, _) => calls[t].Idle?
      case CallPop(t) => calls[t].Idle?
      case Spurious(t) => calls[t].PWaiting? || calls[t].CWaiting?
      case Enter(t, wake) =>
        && (Producing(calls[t]) || Consuming(calls[t]))
        && var consumer := Producing(calls[t]);
           Waiting(wake, consumer) || forall k :: 0 <= k < |calls| ==> !Waiting(k, consumer)
    }

    /** The thread inside the section is neither kind of sleeper it might signal. */
    lemma PossibleIsEnabled(a: Act<T>)
      requires Valid()
      ensures Possible(a) <==> Enabled(View(), a)
    {
      if a.Enter? && a.t < |calls| && Producing(calls[a.t]) {
        SameWaiters(View(), Produce(View(), a.t), a.t, a.wake, true);
        assert Enabled(View(), a) <==> Reaches(Produce(View(), a.t), a.wake, true);
        assert forall k :: 0 <= k < |calls| ==> (Waiting(k, true) <==> Waits(View(), k, true));
      } else if a.Enter? && a.t < |calls| && Consuming(calls[a.t]) {
        SameWaiters(View(), Consume(View(), a.t), a.t, a.wake, false);
        assert Enabled(View(), a) <==> Reaches(Consume(View(), a.t), a.wake, false);
        assert forall k :: 0 <= k < |calls| ==> (Waiting(k, false) <==> Waits(View(), k, false));
      }
    }

    method Step(a: Act<T>)
      requires Valid()
      modifies this
      ensures Valid()
      ensures View() == if old(Enabled(View(), a)) then Apply(old(View()), a) else old(View())
    {
      PossibleIsEnabled(a);
      if !Possible(a) {
        return;
      }
      InvKept(View(), a);
      match a
      case CallEqueue(t, x) => offered := offered + [x]; calls := calls[t := PEnter(x)];
      case CallPop(t) => calls := calls[t := CEnter];
      case Spurious(t) => calls := calls[t := if calls[t].CWaiting? then CWoken else PWoken(calls[t].item)];
      case Enter(t, wake) =>
        if Producing(calls[t]) {
          Equeue(t, wake);
        } else {
          var _ := Pop(t, wake);
        }
    }

    /** Any interleaving of critical sections and wakeups. */
    method Interleave(acts: seq<Act<T>>)
      requires Valid()
      modifies this
      ensures Valid() && View() == After(old(View()), acts)
      ensures puts == takes + queue && |queue| <= Limit(cap) && (cap >= 0 ==> |queue| <= cap)
    {
      for i := 0 to |acts|
        invariant Valid()
        invariant After(View(), acts[i..]) == After(old(View()), acts)
      {
        Step(acts[i]);
        assert acts[i..][1..] == acts[i + 1..];
      }
    }
  }

  lemma SameWaiters<T>(s: Monitor<T>, s1: Monitor<T>, t: nat, wake: nat, consumer: bool)
    requires t < |s.calls| && |s1.calls| == |s.calls| && s1.calls == s.calls[t := s1.calls[t]]
    requires !Waits(s, t, consumer) && !Waits(s1, t, consumer)
    ensures Reaches(s1, wake, consumer) <==> Waits(s, wake, consumer) || forall k :: 0 <= k < |s.calls| ==> !Waits(s, k, consumer)
  {
    assert forall k :: 0 <= k < |s.calls| ==> (Waits(s1, k, consumer) <==> Waits(s, k, consumer));
  }
}
