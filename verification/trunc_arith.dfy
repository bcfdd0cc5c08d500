/**
 Integer division that rounds toward zero.

 The engine converts real-valued quotients to whole minutes with a numeric cast,
 which drops the fractional part (it rounds toward zero, so -1.5 becomes -1).
 Dafny's `/` on `int` is Euclidean instead (it would give -2), so the cast is
 written out here and specified independently of how it is computed.
 */
module TruncArith {

  /** `q` is the quotient `a / b` with its fractional part dropped. */
  ghost predicate IsTruncQuotient(q: int, a: int, b: int)
    requires b > 0
  {
    if a >= 0 then 0 <= b * q <= a < b * q + b
    else b * q - b < a <= b * q <= 0
  }

  /** The cast `int(a / b)` for a positive divisor. */
  function TruncDiv(a: int, b: int): (q: int)
    requires b > 0
    ensures IsTruncQuotient(q, a, b)
  {
    if a >= 0 then a / b else -((-a) / b)
  }

  /** `b * x` grows with `x`. */
  lemma MulStep(b: int, x: int, y: int)
    requires b > 0 && x < y
    ensures b * x + b <= b * y
  {
    var d := y - x - 1;
    assert b * y == b * x + b + b * d;
    assert b * d >= 0;
  }

  /** The truncated quotient is determined by its defining bounds. */
  lemma TruncQuotientUnique(q1: int, q2: int, a: int, b: int)
    requires b > 0 && IsTruncQuotient(q1, a, b) && IsTruncQuotient(q2, a, b)
    ensures q1 == q2
  {
    if q1 < q2 {
      MulStep(b, q1, q2);
    } else if q2 < q1 {
      MulStep(b, q2, q1);
    }
  }

  /** Truncating division is monotone in the dividend. */
  lemma TruncDivMonotone(a: int, c: int, b: int)
    requires b > 0 && a <= c
    ensures TruncDiv(a, b) <= TruncDiv(c, b)
  {
    var qa, qc := TruncDiv(a, b), TruncDiv(c, b);
    if qc < qa {
      MulStep(b, qc, qa);
    }
  }

  /** Adding a multiple of the divisor to a non-negative dividend adds to the quotient. */
  lemma TruncDivAddMultiple(k: int, x: int, b: int)
    requires b > 0 && k >= 0 && x >= 0
    ensures TruncDiv(b * k + x, b) == k + x / b
  {
    var q := k + x / b;
    assert b * q == b * k + b * (x / b);
    assert IsTruncQuotient(q, b * k + x, b);
    TruncQuotientUnique(TruncDiv(b * k + x, b), q, b * k + x, b);
  }
}
