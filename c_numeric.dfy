/** C's unsigned 32-bit arithmetic and its float-to-integer casts, written out
    on the model's unbounded integers and reals. */
module CNumeric {
  const U32: nat := 0x1_0000_0000
  const U16: nat := 0x1_0000

  /** `now - since` in 32-bit unsigned arithmetic. */
  function Elapsed(now: nat, since: nat): (e: nat)
    requires now < U32 && since < U32
    ensures e < U32 && (since + e) % U32 == now
  {
    if since <= now then now - since else now + U32 - since
  }

  /** `fabsf`: the magnitude of a value. */
  function Abs(x: real): (r: real)
    ensures 0.0 <= r && (r == x || r == -x)
  {
    if x < 0.0 then -x else x
  }

  /** `(uint16_t)(x * wrap)` for `x` in [0,1]: the product rounded down. */
  function Scale(x: real, wrap: nat): (l: nat)
    requires 0.0 <= x <= 1.0
    ensures l <= wrap
    ensures l as real <= x * wrap as real < l as real + 1.0
  {
    var p := x * wrap as real;
    assert 0.0 <= p <= wrap as real by {
      MulUnitBounds(x, wrap as real);
    }
    assert p.Floor as real <= p < p.Floor as real + 1.0;
    p.Floor
  }

  /** `(uint32_t)(x * n + 0.5)` for `x` in [0,1] is defined and does not exceed `n`. */
  lemma RoundedShare(x: real, n: nat)
    requires 0.0 <= x <= 1.0 && n < U16
    ensures 0.0 <= x * n as real && x * n as real + 0.5 < U32 as real
    ensures (x * n as real + 0.5).Floor <= n
  {
    MulUnitBounds(x, n as real);
    var y := x * n as real + 0.5;
    assert y < n as real + 1.0;
  }

  lemma MulUnitBounds(x: real, w: real)
    requires 0.0 <= x <= 1.0 && 0.0 <= w
    ensures 0.0 <= x * w <= w
  {
    assert w - x * w == (1.0 - x) * w;
  }

  /** A larger fraction never gives a lower level. */
  lemma ScaleMonotone(x: real, y: real, wrap: nat)
    requires 0.0 <= x <= 1.0 && 0.0 <= y <= 1.0 && x <= y
    ensures Scale(x, wrap) <= Scale(y, wrap)
  {
    var w := wrap as real;
    var px, py := x * w, y * w;
    MulMonotone(x, y, w);
    var lx, ly := Scale(x, wrap), Scale(y, wrap);
    assert lx as real <= px <= py < ly as real + 1.0;
  }

  lemma MulMonotone(x: real, y: real, w: real)
    requires x <= y && 0.0 <= w
    ensures x * w <= y * w
  {
    assert y * w - x * w == (y - x) * w;
  }

  lemma MulStrict(x: real, y: real, w: real)
    requires x < y && 0.0 < w
    ensures x * w < y * w
  {
    assert y * w - x * w == (y - x) * w;
  }

  lemma QuotientAtLeastOne(a: real, b: real)
    requires 0.0 < b <= a
    ensures a / b >= 1.0
  {
  }

  lemma QuotientBelowOne(a: real, b: real)
    requires 0.0 <= a < b
    ensures a / b < 1.0
  {
  }

  /** Multiplying back by the divisor, and comparing through it. */
  lemma QuotientCompare(s: real, t: real, m: real)
    requires 0.0 < t
    ensures t * (s / t) == s
    ensures m <= s / t ==> t * m <= s
    ensures s / t < m ==> s < t * m
  {
  }

  /** A larger divisor gives a smaller quotient. */
  lemma QuotientAntitone(s: real, a: real, b: real)
    requires 0.0 <= s && 0.0 < a <= b
    ensures s / b <= s / a
  {
    QuotientCompare(s, a, s / b);
    MulMonotone(a, b, s / b);
  }
}
