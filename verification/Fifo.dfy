/** The bounded first-in-first-out queue that both bounded buffers are proved to refine. */
module Fifo {

  datatype Event<+T> = Put(item: T) | Take(item: T) | Quiet

  /** One step of a queue holding `before`, bounded by `limit`: what an observer may see. */
  ghost predicate Step<T>(limit: nat, before: seq<T>, e: Event<T>, after: seq<T>) {
    match e
    case Put(x) => |before| < limit && after == before + [x]
    case Take(x) => before != [] && x == before[0] && after == before[1..]
    case Quiet => after == before
  }

  /** `e` as it shows in a history of puts or of takes. */
  function PutOf<T>(e: Event<T>): seq<T> { if e.Put? then [e.item] else [] }
  function TakeOf<T>(e: Event<T>): seq<T> { if e.Take? then [e.item] else [] }

  function Puts<T>(es: seq<Event<T>>): seq<T> {
    if es == [] then [] else PutOf(es[0]) + Puts(es[1..])
  }

  function Takes<T>(es: seq<Event<T>>): seq<T> {
    if es == [] then [] else TakeOf(es[0]) + Takes(es[1..])
  }

  /** `es` leads the queue from `before` to `after`, one bounded step at a time. */
  ghost predicate Run<T(!new)>(limit: nat, before: seq<T>, es: seq<Event<T>>, after: seq<T>)
    decreases |es|
  {
    if es == [] then after == before
    else exists mid :: Step(limit, before, es[0], mid) && Run(limit, mid, es[1..], after)
  }

  lemma RunExtend<T(!new)>(limit: nat, before: seq<T>, e: Event<T>, mid: seq<T>, es: seq<Event<T>>, after: seq<T>)
    requires Step(limit, before, e, mid) && Run(limit, mid, es, after)
    ensures Run(limit, before, [e] + es, after)
    ensures Puts([e] + es) == PutOf(e) + Puts(es) && Takes([e] + es) == TakeOf(e) + Takes(es)
  {
    assert ([e] + es)[1..] == es;
  }

  lemma Grow<T>(a: seq<T>, b: seq<T>, c: seq<T>)
    ensures (a + b) + c == a + (b + c)
  {
  }

  lemma StepOrder<T>(limit: nat, before: seq<T>, e: Event<T>, after: seq<T>)
    requires Step(limit, before, e, after)
    ensures before + PutOf(e) == TakeOf(e) + after
    ensures |before| <= limit ==> |after| <= limit
  {
  }

  lemma Chain<T>(a: seq<T>, put: seq<T>, puts: seq<T>, take: seq<T>, takes: seq<T>, mid: seq<T>, z: seq<T>)
    requires a + put == take + mid && mid + puts == takes + z
    ensures a + (put + puts) == (take + takes) + z
  {
    assert a + (put + puts) == (take + mid) + puts;
    assert (take + mid) + puts == take + (takes + z);
  }

  lemma Appended<T>(takes: seq<T>, queue: seq<T>, put: seq<T>, take: seq<T>, queue': seq<T>)
    requires queue + put == take + queue'
    ensures (takes + queue) + put == (takes + take) + queue'
  {
    assert (takes + queue) + put == takes + (queue + put);
    assert (takes + take) + queue' == takes + (take + queue');
  }

  /** Every run hands items out in the order they went in: what was held at the start,
      followed by everything put, is everything taken followed by what is still held. */
  lemma {:induction false} TakesFollowPuts<T(!new)>(limit: nat, before: seq<T>, es: seq<Event<T>>, after: seq<T>)
    requires Run(limit, before, es, after)
    ensures before + Puts(es) == Takes(es) + after
    ensures |before| <= limit ==> |after| <= limit
    decreases |es|
  {
    if es != [] {
      var mid :| Step(limit, before, es[0], mid) && Run(limit, mid, es[1..], after);
      TakesFollowPuts(limit, mid, es[1..], after);
      StepOrder(limit, before, es[0], mid);
      Chain(before, PutOf(es[0]), Puts(es[1..]), TakeOf(es[0]), Takes(es[1..]), mid, after);
    }
  }
}
