/** Facts about natural-number multiplication and remainder that the solver
    does not find unaided. */
module Arith {
  lemma {:induction false} MulStep(x: nat, m: nat)
    ensures (x + 1) * m == x * m + m
  {
  }

  lemma {:induction false} MulAtLeast(x: nat, m: nat)
    requires 1 <= x
    ensures m <= x * m
    decreases x
  {
    if x > 1 {
      MulAtLeast(x - 1, m);
      MulStep(x - 1, m);
    }
  }

  lemma MulSub(x: nat, y: nat, m: nat)
    requires y <= x
    ensures (x - y) * m == x * m - y * m
  {
  }

  /** The remainder is the unique `b` below `m` with `k == a * m + b`. */
  lemma ModUnique(k: nat, m: nat, a: nat, b: nat)
    requires 0 <= b < m && k == a * m + b
    ensures k % m == b
  {
    var q := k / m;
    if q > a {
      MulSub(q, a, m);
      MulAtLeast(q - a, m);
    } else if q < a {
      MulSub(a, q, m);
      MulAtLeast(a - q, m);
    }
  }

  /** The quotient is the unique `a` with `k == a * m + b` and `b` below `m`. */
  lemma DivUnique(k: nat, m: nat, a: nat, b: nat)
    requires 0 <= b < m && k == a * m + b
    ensures k / m == a
  {
    ModUnique(k, m, a, b);
    var q := k / m;
    if q > a {
      MulSub(q, a, m);
      MulAtLeast(q - a, m);
    } else if q < a {
      MulSub(a, q, m);
      MulAtLeast(a - q, m);
    }
  }

  /** Counting on by one modulo `m`. */
  lemma ModSucc(j: nat, m: nat)
    requires 0 < m
    ensures (j + 1) % m == if j % m + 1 == m then 0 else j % m + 1
  {
    var q, r := j / m, j % m;
    assert j == q * m + r;
    if r + 1 == m {
      MulStep(q, m);
      ModUnique(j + 1, m, q + 1, 0);
    } else {
      ModUnique(j + 1, m, q, r + 1);
    }
  }

  /** A value below `n` whole multiples of `d` is fewer than `n` multiples of `d`. */
  lemma DivBelow(x: nat, d: nat, n: nat)
    requires 0 < d && x < n * d
    ensures x / d < n
  {
    if x / d >= n {
      MulSub(x / d, n, d);
    }
  }
}
