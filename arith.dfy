/** Integer facts shared by the index arithmetic of the model (strides, frames, chunks). */
module Arith {

  /** `Math.ceil(n / d)` for a natural `n` and a positive `d`. */
  function CeilDiv(n: nat, d: nat): nat
    requires d >= 1
  {
    (n + d - 1) / d
  }

  lemma MulMonotone(a: int, b: int, d: int)
    requires a <= b && d >= 0
    ensures a * d <= b * d
  {
    assert b * d - a * d == (b - a) * d;
  }

  /** Floor division characterised by multiplication. */
  lemma {:induction false} DivLower(a: int, m: int, d: int)
    requires d > 0
    ensures a <= m / d <==> a * d <= m
  {
    var q, r := m / d, m % d;
    assert m == q * d + r && 0 <= r < d;
    if a <= q {
      MulMonotone(a, q, d);
    } else {
      MulMonotone(q + 1, a, d);
      assert (q + 1) * d == q * d + d;
    }
  }

  /** `k` counts a multiple of `d` below `n` exactly when `k < ceil(n / d)`. */
  lemma {:induction false} CeilDivBelow(k: nat, n: nat, d: nat)
    requires d >= 1
    ensures k < CeilDiv(n, d) <==> k * d < n
  {
    DivLower(k + 1, n + d - 1, d);
    assert (k + 1) * d == k * d + d;
  }

  /** `ceil(n / d)` is the one count whose multiples of `d` reach `n` but do not overshoot it by a full step. */
  lemma {:induction false} CeilDivUnique(c: nat, n: nat, d: nat)
    requires d >= 1
    requires n <= c * d
    requires c == 0 || (c - 1) * d < n
    ensures c == CeilDiv(n, d)
  {
    if c > 0 {
      CeilDivBelow(c - 1, n, d);
    }
    CeilDivBelow(c, n, d);
  }

  lemma {:induction false} MulDivCancel(k: int, d: int)
    requires d > 0
    ensures (k * d) / d == k
  {
    DivLower(k, k * d, d);
    DivLower(k + 1, k * d, d);
    assert (k + 1) * d == k * d + d;
  }

  /** `ceil(n / d)` steps of `d` cover `n`, and one step fewer does not. */
  lemma {:induction false} CeilDivTimes(n: nat, d: nat)
    requires d >= 1
    ensures CeilDiv(n, d) * d >= n
    ensures CeilDiv(n, d) == 0 || (CeilDiv(n, d) - 1) * d < n
  {
    var c := CeilDiv(n, d);
    if c * d < n {
      CeilDivBelow(c, n, d);
    }
    if c > 0 {
      CeilDivBelow(c - 1, n, d);
    }
  }

  /** Multiplying by a positive factor keeps a strict order, both ways. */
  lemma MulLess(a: int, b: int, d: int)
    requires d > 0
    ensures a * d < b * d <==> a < b
  {
    if a < b {
      MulMonotone(a + 1, b, d);
      assert (a + 1) * d == a * d + d;
    } else {
      MulMonotone(b, a, d);
    }
  }

  lemma MulAssoc(a: int, b: int, c: int)
    ensures a * (b * c) == (a * b) * c
  {
  }
}
