/** The few facts about products that the solver needs one at a time. */
module Nonlinear {

  lemma MulLe(a: int, b: int, c: int)
    requires a <= b && 0 <= c
    ensures a * c <= b * c
  {
  }

  lemma MulLt(a: int, b: int, c: int)
    requires a < b && 0 < c
    ensures a * c < b * c
  {
  }

  lemma MulLeBoth(a: int, b: int, c: int, d: int)
    requires 0 <= a <= b && 0 <= c <= d
    ensures a * c <= b * d
  {
    MulLe(a, b, c);
    MulLe(c, d, b);
    assert b * c == c * b && b * d == d * b;
  }

  /** Cancel a positive factor. */
  lemma CancelLe(a: int, b: int, c: int)
    requires 0 < c && a * c <= b * c
    ensures a <= b
  {
    if b < a { MulLt(b, a, c); }
  }

  lemma CancelLt(a: int, b: int, c: int)
    requires 0 < c && a * c < b * c
    ensures a < b
  {
    if b <= a { MulLe(b, a, c); }
  }

  lemma Commute(a: int, b: int)
    ensures a * b == b * a
  {
  }

  lemma ProductPositive(a: int, b: int)
    requires 0 < a && 0 < b
    ensures 0 < a * b
  {
  }

  /** (ab)(cd) regroups as (ac)(bd). */
  lemma Regroup(a: int, b: int, c: int, d: int)
    ensures (a * b) * (c * d) == (a * c) * (b * d)
  {
    calc {
      (a * b) * (c * d);
      a * (b * (c * d));
      { assert b * (c * d) == (b * c) * d == (c * b) * d == c * (b * d); }
      a * (c * (b * d));
      (a * c) * (b * d);
    }
  }
}
