/** What every pool operation keeps, despite rounding. */
module PoolProofs {
  import opened Words
  import opened Nonlinear
  import opened Amm

  ghost predicate PoolOk(p: Pool) {
    && p.asset0 == VEIL && p.asset1 == VAI
    && MIN_FEE_BIPS <= p.feeBips <= MAX_FEE_BIPS
    && (p.totalLp == 0 <==> p.reserve0 == 0)
    && (p.totalLp == 0 <==> p.reserve1 == 0)
    && p.totalLp * p.totalLp <= p.reserve0 * p.reserve1
  }

  /** Reserve product per squared LP supply, compared by cross-multiplication. */
  ghost predicate ShareValueLe(p: Pool, q: Pool) {
    (p.reserve0 * p.reserve1) * (q.totalLp * q.totalLp) <= (q.reserve0 * q.reserve1) * (p.totalLp * p.totalLp)
  }

  ghost predicate ShareValueLt(p: Pool, q: Pool) {
    (p.reserve0 * p.reserve1) * (q.totalLp * q.totalLp) < (q.reserve0 * q.reserve1) * (p.totalLp * p.totalLp)
  }

  lemma ShareValueTransitive(p: Pool, q: Pool, r: Pool)
    requires ShareValueLe(p, q) && ShareValueLe(q, r) && q.totalLp > 0
    ensures ShareValueLe(p, r)
  {
    var kp, kq, kr := p.reserve0 * p.reserve1, q.reserve0 * q.reserve1, r.reserve0 * r.reserve1;
    var lp, lq, lr := p.totalLp * p.totalLp, q.totalLp * q.totalLp, r.totalLp * r.totalLp;
    ProductPositive(q.totalLp, q.totalLp);
    ProductNonNegative(r.totalLp, r.totalLp);
    ProductNonNegative(p.totalLp, p.totalLp);
    CrossTransitive(kp, lp, kq, lq, kr, lr);
  }

  /** a/b <= c/d <= e/f implies a/b <= e/f. */
  lemma CrossTransitive(a: int, b: nat, c: int, d: nat, e: int, f: nat)
    requires a * d <= c * b && c * f <= e * d && 0 < d
    ensures a * f <= e * b
  {
    calc {
      (a * f) * d;
    ==
      (a * d) * f;
    <= { MulLe(a * d, c * b, f); }
      (c * b) * f;
    ==
      (c * f) * b;
    <= { MulLe(c * f, e * d, b); }
      (e * d) * b;
    ==
      (e * b) * d;
    }
    CancelLe(a * f, e * b, d);
  }

  /** If both reserves scale at least like the LP supply, the share value does not fall. */
  lemma ScaledReserves(p: Pool, q: Pool)
    requires p.reserve0 * q.totalLp <= q.reserve0 * p.totalLp
    requires p.reserve1 * q.totalLp <= q.reserve1 * p.totalLp
    ensures ShareValueLe(p, q)
  {
    ProductNonNegative(p.reserve0, q.totalLp);
    ProductNonNegative(p.reserve1, q.totalLp);
    MulLeBoth(p.reserve0 * q.totalLp, q.reserve0 * p.totalLp, p.reserve1 * q.totalLp, q.reserve1 * p.totalLp);
    Regroup(p.reserve0, q.totalLp, p.reserve1, q.totalLp);
    Regroup(q.reserve0, p.totalLp, q.reserve1, p.totalLp);
  }

  /** A share value that does not fall keeps the product above the squared supply. */
  lemma ProductStaysAbove(p: Pool, q: Pool)
    requires p.totalLp > 0 && p.totalLp * p.totalLp <= p.reserve0 * p.reserve1 && ShareValueLe(p, q)
    ensures q.totalLp * q.totalLp <= q.reserve0 * q.reserve1
  {
    var l, m := p.totalLp * p.totalLp, q.totalLp * q.totalLp;
    ProductPositive(p.totalLp, p.totalLp);
    ProductNonNegative(q.totalLp, q.totalLp);
    MulLe(l, p.reserve0 * p.reserve1, m);
    assert m * l == l * m;
    CancelLe(m, q.reserve0 * q.reserve1, l);
  }

  /** The floor in MulDiv, as an inequality. */
  lemma MulDivFloor(a: u64, b: u64, den: u64)
    requires MulDiv(a, b, den).Ok?
    ensures var q := MulDiv(a, b, den).value; q * den <= a * b < q * den + den
  {
    QuotientBounds(a * b, den);
  }

  /** Minting never outpaces either reserve. */
  lemma MintedBound(p: Pool, x: u64, y: u64)
    requires p.totalLp > 0 && LpFor(p, x, y).Ok?
    ensures var m := LpFor(p, x, y).value; m * p.reserve0 <= x * p.totalLp && m * p.reserve1 <= y * p.totalLp
  {
    var lp0, lp1 := MulDiv(x, p.totalLp, p.reserve0).value, MulDiv(y, p.totalLp, p.reserve1).value;
    var m := LpFor(p, x, y).value;
    MulDivFloor(x, p.totalLp, p.reserve0);
    MulDivFloor(y, p.totalLp, p.reserve1);
    MulLe(m, lp0, p.reserve0);
    MulLe(m, lp1, p.reserve1);
  }

  lemma DepositKeeps(p: Pool, x: u64, y: u64)
    requires PoolOk(p) && x > 0 && y > 0
    requires LpFor(p, x, y).Ok? && LpFor(p, x, y).value > 0
    requires Deposit(p, x, y, LpFor(p, x, y).value).Ok?
    ensures var q := Deposit(p, x, y, LpFor(p, x, y).value).value;
            && PoolOk(q) && q.totalLp > 0 && (p.totalLp > 0 ==> ShareValueLe(p, q))
            && q.feeBips == p.feeBips && q.reserve0 == p.reserve0 + x && q.reserve1 == p.reserve1 + y
  {
    var m := LpFor(p, x, y).value;
    var q := Deposit(p, x, y, m).value;
    if p.totalLp > 0 {
      MintedBound(p, x, y);
      Distribute(p.reserve0, p.totalLp, x, m);
      Distribute(p.reserve1, p.totalLp, y, m);
      ScaledReserves(p, q);
      ProductStaysAbove(p, q);
    }
  }

  /** r(l + m) = rl + mr and (r + x)l = rl + xl. */
  lemma Distribute(r: int, l: int, x: int, m: int)
    ensures r * (l + m) == r * l + m * r
    ensures (r + x) * l == r * l + x * l
  {
  }

  lemma WithdrawKeeps(p: Pool, lp: u64)
    requires PoolOk(p) && p.totalLp > 0 && 0 < lp <= p.totalLp
    requires WithdrawalFor(p, lp).Ok?
    ensures var (o0, o1) := WithdrawalFor(p, lp).value;
            && o0 * p.totalLp <= lp * p.reserve0 && o1 * p.totalLp <= lp * p.reserve1
            && Withdraw(p, lp, o0, o1).Ok?
            && var q := Withdraw(p, lp, o0, o1).value;
               && PoolOk(q) && ShareValueLe(p, q) && q.feeBips == p.feeBips && q.totalLp == p.totalLp - lp
  {
    var (o0, o1) := WithdrawalFor(p, lp).value;
    MulDivFloor(lp, p.reserve0, p.totalLp);
    MulDivFloor(lp, p.reserve1, p.totalLp);
    PayoutBound(p.reserve0, p.totalLp, lp, o0);
    PayoutBound(p.reserve1, p.totalLp, lp, o1);
    var q := Withdraw(p, lp, o0, o1).value;
    ScaledReserves(p, q);
    ProductStaysAbove(p, q);
  }

  /** A payout o = floor(lp * r / total) leaves at least the remaining holders' part. */
  lemma PayoutBound(r: int, total: int, lp: int, o: int)
    requires 0 <= o && 0 < r && 0 < lp <= total && o * total <= lp * r < o * total + total
    ensures o <= r && r * (total - lp) <= (r - o) * total
    ensures r - o == 0 <==> total == lp
  {
    MulLe(lp, total, r);
    CancelLe(o, r, total);
    Distribute(r, total, -o, -lp);
    if lp < total { MulLt(0, total - lp, r); CancelLt(0, r - o, total); }
    if lp == total { CancelLt(r, o + 1, total); }
  }

  /** The output of a swap leaves the out-reserve positive and, with the fee, raises the product. */
  lemma SwapBound(reserveIn: u64, reserveOut: u64, feeBips: u16, amountIn: u64, minOut: u64)
    requires reserveIn > 0 && reserveOut > 0 && amountIn > 0
    requires MIN_FEE_BIPS <= feeBips <= MAX_FEE_BIPS
    requires SwapOutput(reserveIn, reserveOut, feeBips, amountIn, minOut).Ok?
    ensures var out := SwapOutput(reserveIn, reserveOut, feeBips, amountIn, minOut).value;
            0 < out < reserveOut && reserveIn * reserveOut < (reserveIn + amountIn) * (reserveOut - out)
  {
    var out := SwapOutput(reserveIn, reserveOut, feeBips, amountIn, minOut).value;
    var keep := (10_000 - feeBips) % 0x1_0000;
    var paid := MulDiv(amountIn, keep, 10_000).value;
    MulDivFloor(amountIn, keep, 10_000);
    MulLt(keep, 10_000, amountIn);
    assert paid < amountIn by { assert amountIn * keep == keep * amountIn; }
    var den := reserveIn + paid;
    MulDivFloor(reserveOut, paid, den);
    MulLt(paid, den, reserveOut);
    assert reserveOut * paid == paid * reserveOut && reserveOut * den == den * reserveOut;
    CancelLt(out, reserveOut, den);
    Distribute(reserveIn, reserveOut, paid, 0);
    assert (reserveOut - out) * den == reserveOut * den - out * den;
    assert reserveIn * reserveOut <= (reserveOut - out) * den;
    MulLt(den, reserveIn + amountIn, reserveOut - out);
    assert (reserveOut - out) * den == den * (reserveOut - out);
  }

  /** A trade in either direction strictly raises the product of the reserves. */
  lemma TradeRaisesProduct(p: Pool, forward: bool, amountIn: u64, minOut: u64, out: u64)
    requires PoolOk(p) && p.totalLp > 0 && amountIn > 0
    requires SwapOutput(if forward then p.reserve0 else p.reserve1, if forward then p.reserve1 else p.reserve0,
                        p.feeBips, amountIn, minOut) == Ok(out)
    requires Trade(p, forward, amountIn, out).Ok?
    ensures var q := Trade(p, forward, amountIn, out).value;
            p.reserve0 * p.reserve1 < q.reserve0 * q.reserve1 && q.reserve0 > 0 && q.reserve1 > 0
  {
    if forward {
      SwapBound(p.reserve0, p.reserve1, p.feeBips, amountIn, minOut);
    } else {
      SwapBound(p.reserve1, p.reserve0, p.feeBips, amountIn, minOut);
      Commute(p.reserve0, p.reserve1);
      Commute(p.reserve0 - out, p.reserve1 + amountIn);
    }
  }

  lemma TradeKeeps(p: Pool, forward: bool, amountIn: u64, minOut: u64, out: u64)
    requires PoolOk(p) && p.totalLp > 0 && amountIn > 0
    requires SwapOutput(if forward then p.reserve0 else p.reserve1, if forward then p.reserve1 else p.reserve0,
                        p.feeBips, amountIn, minOut) == Ok(out)
    requires Trade(p, forward, amountIn, out).Ok?
    ensures var q := Trade(p, forward, amountIn, out).value;
            && PoolOk(q) && q.totalLp == p.totalLp && q.feeBips == p.feeBips && ShareValueLt(p, q)
            && p.reserve0 * p.reserve1 < q.reserve0 * q.reserve1
            && (if forward then q.reserve0 == p.reserve0 + amountIn && q.reserve1 == p.reserve1 - out
                else q.reserve1 == p.reserve1 + amountIn && q.reserve0 == p.reserve0 - out)
  {
    var q := Trade(p, forward, amountIn, out).value;
    TradeRaisesProduct(p, forward, amountIn, minOut, out);
    assert q == p.(reserve0 := q.reserve0, reserve1 := q.reserve1);
    RaisedProduct(p, q);
  }

  lemma RaisedProduct(p: Pool, q: Pool)
    requires PoolOk(p) && p.totalLp > 0 && q == p.(reserve0 := q.reserve0, reserve1 := q.reserve1)
    requires p.reserve0 * p.reserve1 < q.reserve0 * q.reserve1 && q.reserve0 > 0 && q.reserve1 > 0
    ensures PoolOk(q) && ShareValueLt(p, q)
  {
    ProductPositive(p.totalLp, p.totalLp);
    MulLt(p.reserve0 * p.reserve1, q.reserve0 * q.reserve1, p.totalLp * p.totalLp);
  }

  /** Withdrawing what a deposit just minted never returns more of either asset than was deposited. */
  lemma RoundTripNoProfit(p: Pool, x: u64, y: u64)
    requires PoolOk(p) && x > 0 && y > 0
    requires LpFor(p, x, y).Ok? && LpFor(p, x, y).value > 0
    requires Deposit(p, x, y, LpFor(p, x, y).value).Ok?
    requires WithdrawalFor(Deposit(p, x, y, LpFor(p, x, y).value).value, LpFor(p, x, y).value).Ok?
    ensures var m := LpFor(p, x, y).value;
            var (o0, o1) := WithdrawalFor(Deposit(p, x, y, m).value, m).value;
            o0 <= x && o1 <= y
  {
    var m := LpFor(p, x, y).value;
    var q := Deposit(p, x, y, m).value;
    var (o0, o1) := WithdrawalFor(q, m).value;
    MulDivFloor(m, q.reserve0, q.totalLp);
    MulDivFloor(m, q.reserve1, q.totalLp);
    if p.totalLp > 0 { MintedBound(p, x, y); }
    RefundBound(m, p.reserve0, x, p.totalLp);
    RefundBound(m, p.reserve1, y, p.totalLp);
    CancelLe(o0, x, q.totalLp);
    CancelLe(o1, y, q.totalLp);
  }

  lemma RefundBound(m: int, r: int, x: int, l: int)
    requires m * r <= x * l
    ensures m * (r + x) <= x * (l + m)
  {
    assert m * (r + x) == m * r + m * x;
    assert x * (l + m) == x * l + m * x;
  }
}
