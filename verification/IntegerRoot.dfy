/** The Newton square root used for the first deposit into a pool. */
module IntegerRoot {
  import opened Words
  import opened Nonlinear

  /** r is the largest number whose square does not exceed n. */
  predicate IsFloorRoot(n: nat, r: nat) {
    r * r <= n < (r + 1) * (r + 1)
  }

  function FloorRoot(n: nat): (r: nat)
    ensures IsFloorRoot(n, r)
  {
    if n == 0 then 0
    else
      var r := FloorRoot(n - 1);
      if (r + 1) * (r + 1) <= n then r + 1 else r
  }

  lemma SquareGrows(a: nat, b: nat)
    requires a < b
    ensures (a + 1) * (a + 1) <= b * b
  {
    assert b * b == (a + 1) * (a + 1) + (b - a - 1) * (b + a + 1);
  }

  /** There is only one floor square root. */
  lemma FloorRootUnique(n: nat, r: nat)
    requires IsFloorRoot(n, r)
    ensures r == FloorRoot(n)
  {
    var q := FloorRoot(n);
    if r < q { SquareGrows(r, q); } else if q < r { SquareGrows(q, r); }
  }

  /** The quotient q of n by x, without division. */
  predicate IsQuotient(n: nat, x: nat, q: nat) {
    q * x <= n < q * x + x
  }

  /** A Newton step never leaves the word: x + n / x <= n + 1. */
  lemma NewtonSumBound(n: nat, x: nat, q: nat)
    requires 1 <= x <= n && IsQuotient(n, x, q)
    ensures 1 <= q <= n - x + 1
  {
    if q > n - x + 1 {
      MulLe(n - x + 2, q, x);
      MulLe(0, n - x, x - 1);
      Expand(n, x);
    }
  }

  lemma Expand(n: int, x: int)
    ensures (n - x + 2) * x == n + (n - x) * (x - 1) + x
  {
  }

  /** The arithmetic mean is not below the geometric one: 4ab <= (a + b)^2. */
  lemma FourProducts(a: int, b: int)
    ensures 4 * (a * b) <= (a + b) * (a + b)
  {
    assert (a + b) * (a + b) == 4 * (a * b) + (a - b) * (a - b);
    assert 0 <= (a - b) * (a - b);
  }

  /** A Newton step stays above the root: 4n < 4x(q + 1) <= (x + q + 1)^2. */
  lemma NewtonStaysAbove(n: nat, x: nat, q: nat, y: nat)
    requires 1 <= x && IsQuotient(n, x, q)
    requires x + q <= 2 * y + 1
    ensures n < (y + 1) * (y + 1)
  {
    FourProducts(q + 1, x);
    var t, z := q + 1 + x, 2 * (y + 1);
    MulLeBoth(t, z, t, z);
    assert z * z == 4 * ((y + 1) * (y + 1));
    assert (q + 1) * x == q * x + x;
  }

  /** When the iteration stops descending, x is not above the root. */
  lemma NewtonFixpoint(n: nat, x: nat, q: nat)
    requires IsQuotient(n, x, q) && x <= q
    ensures x * x <= n
  {
    assert q * x == x * x + (q - x) * x;
  }

  /** The loop invariant: x is a word not below the root, and q its quotient. */
  ghost predicate Newton(n: nat, x: nat, q: nat) {
    1 <= x <= n && 1 <= q && IsQuotient(n, x, q) && n < (x + 1) * (x + 1)
  }

  lemma NewtonStart(n: nat)
    requires 0 < n
    ensures Newton(n, n, 1)
  {
    NewtonStaysAbove(n, n, 1, n);
  }

  /** The next guess, in 64-bit words. */
  function NextGuess(n: u64, x: u64): u64
    requires x > 0
  {
    QuotientBounds(n, x);
    (x + n / x) % TWO_64 / 2
  }

  /** While the mean is below x the iteration goes on, and the next sum stays within a word. */
  lemma NewtonStep(n: nat, x: nat, q: nat, y: nat)
    requires Newton(n, x, q) && y == (x + q) / 2 < x
    ensures 1 <= y && Newton(n, y, n / y) && y + n / y <= n + 1
  {
    NewtonStaysAbove(n, x, q, y);
    QuotientBounds(n, y);
    NewtonSumBound(n, y, n / y);
  }

  /** A sum that fits is halved exactly. */
  lemma GuessExact(n: u64, y: u64, q: nat)
    requires 0 < y && q == n / y && y + q < TWO_64
    ensures NextGuess(n, y) == (y + q) / 2
  {
  }

  /** One round of the loop. */
  lemma NewtonRound(n: u64, x: u64, q: nat, y: u64) returns (next: nat)
    requires n < MAX_U64 && Newton(n, x, q) && y == (x + q) / 2 < x
    ensures 1 <= y && Newton(n, y, next) && NextGuess(n, y) == (y + next) / 2
  {
    NewtonStep(n, x, q, y);
    next := n / y;
    GuessExact(n, y, next);
  }

  lemma NewtonExit(n: nat, x: nat, q: nat)
    requires Newton(n, x, q) && x <= (x + q) / 2
    ensures x == FloorRoot(n)
  {
    NewtonFixpoint(n, x, q);
    FloorRootUnique(n, x);
  }

  /**
   The square root on 64-bit words. Every intermediate sum is reduced modulo 2^64 as the hardware
   does; at n == 2^64 - 1 the first sum wraps to zero and the next division faults.
   */
  method IntSqrt(n: u64) returns (r: Result<u64>)
    ensures r == if n == MAX_U64 then Err(DivisionByZero) else Ok(FloorRoot(n))
  {
    if n == 0 {
      return Ok(0);
    }
    var x: u64 := n;
    var y: u64 := (x + 1) % TWO_64 / 2;
    ghost var q: nat := 1;
    NewtonStart(n);
    while y < x
      invariant n == MAX_U64 ==> x == n && y == 0
      invariant n < MAX_U64 ==> Newton(n, x, q) && y == (x + q) / 2
      decreases x
    {
      if n < MAX_U64 {
        q := NewtonRound(n, x, q, y);
      }
      x := y;
      if x == 0 {
        return Err(DivisionByZero);
      }
      y := NextGuess(n, x);
    }
    NewtonExit(n, x, q);
    return Ok(x);
  }
}
