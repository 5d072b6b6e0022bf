/** Quotients and remainders, for the hash words and for the worker counter. */
module Arithmetic {
  lemma MultipleIsFar(k: int, n: nat)
    ensures k == 0 || k * n >= n || k * n + n <= 0
  {
    if k > 0 {
      assert (k - 1) * n >= 0;
    } else if k < 0 {
      assert (-k - 1) * n >= 0;
    }
  }

  lemma Multiple(r: nat, q: int, n: nat)
    requires r < n
    ensures (q * n + r) % n == r && (q * n + r) / n == q
  {
    var t := (q * n + r) / n;
    assert q * n + r == t * n + (q * n + r) % n;
    MultipleIsFar(q - t, n);
  }

  lemma Small(x: nat, n: nat)
    requires x < n
    ensures x % n == x && x / n == 0
  {
    Multiple(x, 0, n);
  }

  lemma Successor(x: nat, n: nat)
    requires n > 0
    ensures (x + 1) % n == if x % n + 1 == n then 0 else x % n + 1
  {
    var q, r := x / n, x % n;
    assert x == q * n + r;
    if r + 1 == n {
      assert x + 1 == (q + 1) * n;
      Multiple(0, q + 1, n);
    } else {
      Multiple(r + 1, q, n);
    }
  }

  lemma AddOne(x: nat, n: nat)
    requires n > 0
    ensures (x + n) / n == x / n + 1
  {
    var q, r := x / n, x % n;
    assert x == q * n + r;
    assert x + n == (q + 1) * n + r;
    Multiple(r, q + 1, n);
  }

  lemma QuotientMonotone(x: nat, y: nat, n: nat)
    requires x <= y && n > 0
    ensures x / n <= y / n
  {
    var p, q := x / n, y / n;
    assert x == p * n + x % n && y == q * n + y % n;
    MultipleIsFar(p - q, n);
    assert (p - q) * n == p * n - q * n;
  }
}
