/** The few facts about remainders that the round-robin indices rest on. */
module Modulo {

  lemma Multiples(d: int, e: int)
    requires d > 0
    ensures e >= 1 ==> d * e >= d
    ensures e <= -1 ==> d * e <= -d
  {
  }

  lemma ModIs(x: nat, d: nat, q: nat, r: nat)
    requires r < d && x == d * q + r
    ensures x % d == r && x / d == q
  {
    Multiples(d, x / d - q);
  }

  lemma ModNext(k: nat, d: nat)
    requires d > 0
    ensures (k + 1) % d == (k % d + 1) % d
  {
    Successor(k, d, k / d, k % d);
  }

  lemma Successor(k: nat, d: nat, q: nat, r: nat)
    requires r < d && k == d * q + r
    ensures (k + 1) % d == (r + 1) % d
  {
    if r + 1 < d {
      ModIs(k + 1, d, q, r + 1);
    } else {
      assert d * (q + 1) == d * q + d;
      ModIs(k + 1, d, q + 1, 0);
    }
  }

  /** Fewer than `d` steps apart, two different numbers have different remainders. */
  lemma ModDiffer(i: nat, j: nat, d: nat)
    requires i < j < i + d
    ensures i % d != j % d
  {
    var e := j / d - i / d;
    assert i == d * (i / d) + i % d && j == d * (j / d) + j % d;
    assert j - i == d * e + (j % d - i % d);
    Multiples(d, e);
  }
}
