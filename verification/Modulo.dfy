/** Remainders of sums, for arithmetic that wraps. */
module Modulo {
  lemma SmallMultiple(k: int, d: int)
    requires -d < k * d < d
    ensures k == 0
  {
    assert k >= 1 ==> k * d >= d;
    assert k <= -1 ==> k * d <= -d;
  }

  lemma ModOfSum(k: nat, x: nat, p: nat)
    requires x < p
    ensures (k * p + x) % p == x
  {
    var v := k * p + x;
    var k', x' := v / p, v % p;
    assert v == k' * p + x';
    assert (k' - k) * p == k' * p - k * p;
    SmallMultiple(k' - k, p);
  }

  lemma ModOfMultiple(x: nat, k: nat, m: nat)
    requires m > 0
    ensures (x + k * m) % m == x % m
  {
    var q, r := x / m, x % m;
    assert x + k * m == (q + k) * m + r;
    ModOfSum(q + k, r, m);
  }

  lemma ModOfParts(a: nat, b: nat, c: nat, m: nat)
    requires m > 0
    ensures ((a + b % m) % m + c) % m == (a + b + c) % m
  {
    var x := a + b % m;
    ModOfMultiple(x % m + c, x / m, m);
    assert x % m + c + x / m * m == x + c;
    ModOfMultiple(x + c, b / m, m);
    assert x + c + b / m * m == a + b + c;
  }
}
