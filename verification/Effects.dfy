/** What each step does to each account, stated without reference to how the step is computed. */
module Effects {
  import opened Words
  import opened Nonlinear
  import opened Balances
  import opened IntegerRoot
  import opened Preimage
  import opened Chain
  import opened PoolProofs
  import opened LedgerProofs
  import Amm

  /** What an account has of an asset. */
  function Funds(b: Amm.Bank, who: Address, asset: u8): u64 {
    Balance(if asset == Amm.VEIL then b.veil else b.vai, who)
  }

  lemma DebitFunds(b: Amm.Bank, payer: Address, asset: u8, amount: u64, who: Address, other: u8)
    requires Amm.Supported(asset) && Amm.Supported(other) && Amm.DebitAsset(b, payer, asset, amount).Ok?
    ensures Funds(Amm.DebitAsset(b, payer, asset, amount).value, who, other)
            == Funds(b, who, other) - if who == payer && other == asset then amount else 0
  {
  }

  lemma CreditFunds(b: Amm.Bank, payee: Address, asset: u8, amount: u64, who: Address, other: u8)
    requires Amm.Supported(asset) && Amm.Supported(other) && Amm.CreditAsset(b, payee, asset, amount).Ok?
    ensures Funds(Amm.CreditAsset(b, payee, asset, amount).value, who, other)
            == Funds(b, who, other) + if who == payee && other == asset then amount else 0
  {
  }

  /** The fee-reduced input and the output it buys, in exact arithmetic. */
  function Paid(feeBips: u16, amountIn: nat): nat
    requires feeBips <= Amm.MAX_FEE_BIPS
  {
    ProductNonNegative(amountIn, BIPS - feeBips);
    amountIn * (BIPS - feeBips) / BIPS
  }

  function Bought(rin: nat, rout: nat, paid: nat): nat
    requires rin > 0
  {
    ProductNonNegative(rout, paid);
    rout * paid / (rin + paid)
  }

  /** The fee step never overflows and never exceeds the input. */
  lemma PaidExact(feeBips: u16, amountIn: u64)
    requires feeBips <= Amm.MAX_FEE_BIPS
    ensures var paid := Paid(feeBips, amountIn);
            MulDiv(amountIn, (10_000 - feeBips) % 0x1_0000, 10_000) == Ok(paid) && paid <= amountIn
  {
    var keep: int := BIPS - feeBips;
    QuotientBounds(amountIn * keep, BIPS);
    MulLe(keep, BIPS, amountIn);
    Commute(keep, amountIn);
  }

  /** The output step never overflows and never exceeds the reserve. */
  lemma BoughtExact(rin: u64, rout: u64, paid: u64)
    requires rin > 0 && rin + paid <= MAX_U64
    ensures MulDiv(rout, paid, rin + paid) == Ok(Bought(rin, rout, paid)) && Bought(rin, rout, paid) <= rout
  {
    var den: int := rin + paid;
    QuotientBounds(rout * paid, den);
    MulLe(paid, den, rout);
    Commute(paid, rout);
    Commute(den, rout);
    CancelLe(Bought(rin, rout, paid), rout, den);
  }

  /** What a swap is quoted, in exact arithmetic: the overflow test is the only trace of the word size. */
  ghost function QuoteOf(rin: nat, rout: nat, feeBips: u16, amountIn: nat, minOut: nat): Result<nat>
    requires rin > 0 && feeBips <= Amm.MAX_FEE_BIPS
  {
    var paid := Paid(feeBips, amountIn);
    var out := Bought(rin, rout, paid);
    if paid == 0 then Err(InvalidSwapAmount)
    else if rin + paid > MAX_U64 then Err(Overflow)
    else if out == 0 || out < minOut then Err(SlippageExceeded)
    else Ok(out)
  }

  /** The step-by-step word arithmetic of a swap computes the exact quote. */
  lemma QuoteExact(rin: u64, rout: u64, feeBips: u16, amountIn: u64, minOut: u64)
    requires rin > 0 && feeBips <= Amm.MAX_FEE_BIPS
    ensures Amm.SwapOutput(rin, rout, feeBips, amountIn, minOut) == QuoteOf(rin, rout, feeBips, amountIn, minOut)
  {
    PaidExact(feeBips, amountIn);
    if rin + Paid(feeBips, amountIn) <= MAX_U64 { BoughtExact(rin, rout, Paid(feeBips, amountIn)); }
  }

  /** The part of a reserve that `lp` of `total` tokens withdraw. */
  function Part(lp: nat, reserve: nat, total: nat): nat
    requires total > 0
  {
    ProductNonNegative(lp, reserve);
    lp * reserve / total
  }

  /** LP tokens for a deposit of (x, y) in the pool's order: the geometric mean first, the smaller share later. */
  function Minted(p: Amm.Pool, x: nat, y: nat): nat
    requires p.totalLp > 0 ==> p.reserve0 > 0 && p.reserve1 > 0
  {
    ProductNonNegative(x, y);
    if p.totalLp == 0 then FloorRoot(x * y)
    else
      var lp0, lp1 := Part(x, p.totalLp, p.reserve0), Part(y, p.totalLp, p.reserve1);
      if lp0 < lp1 then lp0 else lp1
  }

  /** No intermediate result of a deposit overflows: not the first product, and not the larger share either. */
  predicate MintFits(p: Amm.Pool, x: nat, y: nat)
    requires p.totalLp > 0 ==> p.reserve0 > 0 && p.reserve1 > 0
  {
    if p.totalLp == 0 then x * y < MAX_U64
    else Part(x, p.totalLp, p.reserve0) <= MAX_U64 && Part(y, p.totalLp, p.reserve1) <= MAX_U64
  }

  /** The word arithmetic of a deposit mints the exact amount, exactly when no intermediate result overflows. */
  lemma LpForExact(p: Amm.Pool, x: u64, y: u64)
    requires PoolOk(p)
    ensures Amm.LpFor(p, x, y).Ok? <==> MintFits(p, x, y)
    ensures Amm.LpFor(p, x, y).Ok? ==> Amm.LpFor(p, x, y).value == Minted(p, x, y)
  {
    ProductNonNegative(x, y);
  }

  /** The word arithmetic of a withdrawal pays the exact parts, and is refused exactly when one of them is nothing. */
  lemma WithdrawalExact(p: Amm.Pool, lp: u64)
    requires PoolOk(p) && 0 < lp <= p.totalLp
    ensures var o0, o1 := Part(lp, p.reserve0, p.totalLp), Part(lp, p.reserve1, p.totalLp);
            && o0 <= p.reserve0 && o1 <= p.reserve1
            && Amm.WithdrawalFor(p, lp) == if 0 < o0 && 0 < o1 then Ok((o0, o1)) else Err(InsufficientLiquidity)
  {
    PartWithin(lp, p.reserve0, p.totalLp);
    PartWithin(lp, p.reserve1, p.totalLp);
  }

  lemma PartWithin(lp: nat, reserve: nat, total: nat)
    requires lp <= total && 0 < total
    ensures Part(lp, reserve, total) <= reserve
  {
    QuotientBounds(lp * reserve, total);
    MulLe(lp, total, reserve);
    Commute(total, reserve);
    CancelLe(Part(lp, reserve, total), reserve, total);
  }

  /** LP tokens for a first deposit: the floor of the geometric mean. */
  lemma FirstDepositMintsRoot(p: Amm.Pool, x: u64, y: u64)
    requires p.totalLp == 0
    ensures Amm.LpFor(p, x, y).Ok? <==> x * y < MAX_U64
    ensures Amm.LpFor(p, x, y).Ok? ==>
              var m := Amm.LpFor(p, x, y).value; m * m <= x * y < (m + 1) * (m + 1)
  {
  }

  /** LP tokens for a later deposit: the most that dilutes neither reserve. */
  lemma LaterDepositMintsMost(p: Amm.Pool, x: u64, y: u64, n: nat)
    requires p.totalLp > 0 && Amm.LpFor(p, x, y).Ok?
    ensures n * p.reserve0 <= x * p.totalLp && n * p.reserve1 <= y * p.totalLp <==> n <= Amm.LpFor(p, x, y).value
  {
    var m := Amm.LpFor(p, x, y).value;
    MulDivFloor(x, p.totalLp, p.reserve0);
    MulDivFloor(y, p.totalLp, p.reserve1);
    var lp0: int, lp1: int := MulDiv(x, p.totalLp, p.reserve0).value, MulDiv(y, p.totalLp, p.reserve1).value;
    if n <= m {
      MulLe(n, lp0, p.reserve0);
      MulLe(n, lp1, p.reserve1);
    } else if lp0 < n {
      MulLe(lp0 + 1, n, p.reserve0);
    } else {
      MulLe(lp1 + 1, n, p.reserve1);
    }
  }

  function Minus(applies: bool, x: int): int { if applies then -x else 0 }

  /** The signed change a successful step makes to an account's holding of an asset. */
  ghost function Delta(b: Amm.Bank, tx: Tx, who: Address, asset: u8): int
    requires BankOk(b)
  {
    var mine := who == tx.actor;
    var pays := mine && asset == Amm.VEIL;
    match tx.action
    case Transfer(to, value, _) => (if who == to && asset == Amm.VEIL then value else 0) + Minus(pays, value)
    case CreateMarket(_, _, _, bond, _) => Minus(pays, bond)
    case Dispute(_, bond, _) => Minus(pays, bond)
    case RouteFees(amount) => Minus(pays, amount)
    case DeductFee(amount) => Minus(pays, amount)
    case MintVai(to, amount) => if who == to && asset == Amm.VAI then amount else 0
    case BurnVai(amount) => Minus(mine && asset == Amm.VAI, amount)
    case AddLiquidity(a0, _, x, y, _) => Minus(mine, if asset == a0 then x else y)
    case RemoveLiquidity(_, _, lp, _, _) =>
      if mine && b.pool.Some? && b.pool.value.totalLp > 0
      then Part(lp, PoolHolds(b, asset), b.pool.value.totalLp) else 0
    case SwapExactIn(i, o, amountIn, _) =>
      if asset == i then Minus(mine, amountIn) else if mine then Output(b, i, o, amountIn) else 0
    case _ => 0
  }

  /** What the pool pays for amountIn of asset i. */
  ghost function Output(b: Amm.Bank, i: u8, o: u8, amountIn: nat): nat
    requires BankOk(b)
  {
    if b.pool.None? || PoolHolds(b, i) == 0 then 0
    else Bought(PoolHolds(b, i), PoolHolds(b, o), Paid(b.pool.value.feeBips, amountIn))
  }

  lemma TransferFunds(
    b: Amm.Bank, from: Address, to: Address, value: u64, memo: nat, c: Amm.Bank, who: Address, asset: u8)
    requires Amm.Transfer(b, from, to, value, memo) == Ok(c) && Amm.Supported(asset)
    ensures Funds(c, who, asset) == Funds(b, who, asset) + (if who == to && asset == Amm.VEIL then value else 0)
                                    - if who == from && asset == Amm.VEIL then value else 0
  {
    DebitFunds(b, from, Amm.VEIL, value, who, asset);
    CreditFunds(Amm.DebitAsset(b, from, Amm.VEIL, value).value, to, Amm.VEIL, value, who, asset);
  }

  lemma SwapFunds(
    b: Amm.Bank, actor: Address, i: u8, o: u8, amountIn: u64, minOut: u64, c: Amm.Bank, who: Address, asset: u8)
    requires BankOk(b) && Amm.SwapExactIn(b, actor, i, o, amountIn, minOut) == Ok(c) && Amm.Supported(asset)
    ensures Funds(c, who, asset) == Funds(b, who, asset) +
              if who != actor then 0 else if asset == i then -(amountIn as int) else Output(b, i, o, amountIn)
  {
    var p := b.pool.value;
    var forward := Amm.SwapDirection(p, i, o).value;
    var rin, rout := if forward then p.reserve0 else p.reserve1, if forward then p.reserve1 else p.reserve0;
    QuoteExact(rin, rout, p.feeBips, amountIn, minOut);
    var out := Amm.SwapOutput(rin, rout, p.feeBips, amountIn, minOut).value;
    assert out == Output(b, i, o, amountIn);
    DebitFunds(b, actor, i, amountIn, who, asset);
    var b1 := Amm.DebitAsset(b, actor, i, amountIn).value;
    CreditFunds(b1.(pool := Some(Amm.Trade(p, forward, amountIn, out).value)), actor, o, out, who, asset);
  }

  lemma AddFunds(
    b: Amm.Bank, actor: Address, a0: u8, a1: u8, x: u64, y: u64, minLp: u64, c: Amm.Bank, who: Address, asset: u8)
    requires Amm.AddLiquidity(b, actor, a0, a1, x, y, minLp) == Ok(c) && Amm.Supported(asset)
    ensures Funds(c, who, asset) == Funds(b, who, asset) - if who != actor then 0 else if asset == a0 then x else y
  {
    DebitFunds(b, actor, a0, x, who, asset);
    DebitFunds(Amm.DebitAsset(b, actor, a0, x).value, actor, a1, y, who, asset);
  }

  lemma RemoveFunds(
    b: Amm.Bank, actor: Address, a0: u8, a1: u8, lp: u64, min0: u64, min1: u64, c: Amm.Bank, who: Address, asset: u8)
    requires BankOk(b) && Amm.RemoveLiquidity(b, actor, a0, a1, lp, min0, min1) == Ok(c) && Amm.Supported(asset)
    ensures b.pool.Some? && b.pool.value.totalLp > 0
    ensures Funds(c, who, asset) == Funds(b, who, asset) +
              if who != actor then 0 else Part(lp, PoolHolds(b, asset), b.pool.value.totalLp)
  {
    var p := b.pool.value;
    var (o0, o1) := Amm.WithdrawalFor(p, lp).value;
    var b0 := b.(pool := Some(Amm.Withdraw(p, lp, o0, o1).value), lp := Debit(b.lp, actor, lp).value);
    CreditFunds(b0, actor, p.asset0, o0, who, asset);
    CreditFunds(Amm.CreditAsset(b0, actor, p.asset0, o0).value, actor, p.asset1, o1, who, asset);
  }

  /** Every account's every holding moves by exactly its delta, in every successful step. */
  lemma AccountsMove(sha: Hash, s: State, tx: Tx, t: State, who: Address, asset: u8)
    requires LedgerOk(s) && Execute(sha, s, tx) == Ok(t) && Amm.Supported(asset)
    ensures Funds(t.bank, who, asset) == Funds(s.bank, who, asset) + Delta(s.bank, tx, who, asset)
  {
    if BankAction(tx.action) {
      BankAccountsMove(s.bank, IsGovernance(s, tx.actor), tx, t.bank, who, asset);
    } else if EconAction(tx.action) {
      EconAccountsMove(s, tx, t, who, asset);
    } else {
      BoardAccountsMove(sha, s, tx, t, who, asset);
    }
  }

  lemma BankAccountsMove(b: Amm.Bank, governance: bool, tx: Tx, c: Amm.Bank, who: Address, asset: u8)
    requires BankOk(b) && Amm.Supported(asset) && BankAction(tx.action)
    requires BankStep(b, governance, tx.actor, tx.action) == Ok(c)
    ensures Funds(c, who, asset) == Funds(b, who, asset) + Delta(b, tx, who, asset)
  {
    var a := tx.action;
    if a.Transfer? {
      TransferFunds(b, tx.actor, a.to, a.value, |a.memo|, c, who, asset);
    } else if a.DeductFee? {
      DebitFunds(b, tx.actor, Amm.VEIL, a.amount, who, asset);
    } else if a.AddLiquidity? {
      AddMoves(b, governance, tx, c, who, asset);
    } else if a.RemoveLiquidity? {
      RemoveMoves(b, governance, tx, c, who, asset);
    } else if a.SwapExactIn? {
      SwapMoves(b, governance, tx, c, who, asset);
    }
  }

  lemma AddMoves(b: Amm.Bank, governance: bool, tx: Tx, c: Amm.Bank, who: Address, asset: u8)
    requires BankOk(b) && Amm.Supported(asset) && tx.action.AddLiquidity?
    requires BankStep(b, governance, tx.actor, tx.action) == Ok(c)
    ensures Funds(c, who, asset) == Funds(b, who, asset) + Delta(b, tx, who, asset)
  {
    var a := tx.action;
    AddFunds(b, tx.actor, a.asset0, a.asset1, a.amount0, a.amount1, a.minLp, c, who, asset);
  }

  lemma RemoveMoves(b: Amm.Bank, governance: bool, tx: Tx, c: Amm.Bank, who: Address, asset: u8)
    requires BankOk(b) && Amm.Supported(asset) && tx.action.RemoveLiquidity?
    requires BankStep(b, governance, tx.actor, tx.action) == Ok(c)
    ensures Funds(c, who, asset) == Funds(b, who, asset) + Delta(b, tx, who, asset)
  {
    var a := tx.action;
    RemoveFunds(b, tx.actor, a.asset0, a.asset1, a.lp, a.min0, a.min1, c, who, asset);
  }

  lemma SwapMoves(b: Amm.Bank, governance: bool, tx: Tx, c: Amm.Bank, who: Address, asset: u8)
    requires BankOk(b) && Amm.Supported(asset) && tx.action.SwapExactIn?
    requires BankStep(b, governance, tx.actor, tx.action) == Ok(c)
    ensures Funds(c, who, asset) == Funds(b, who, asset) + Delta(b, tx, who, asset)
  {
    var a := tx.action;
    SwapFunds(b, tx.actor, a.assetIn, a.assetOut, a.amountIn, a.minOut, c, who, asset);
  }

  lemma EconAccountsMove(s: State, tx: Tx, t: State, who: Address, asset: u8)
    requires BankOk(s.bank) && Amm.Supported(asset) && EconAction(tx.action)
    requires EconStep(s, tx.actor, tx.now, tx.action) == Ok(t)
    ensures Funds(t.bank, who, asset) == Funds(s.bank, who, asset) + Delta(s.bank, tx, who, asset)
  {
    match tx.action
    case RouteFees(amount) => DebitFunds(s.bank, tx.actor, Amm.VEIL, amount, who, asset);
    case MintVai(to, amount) => CreditFunds(s.bank, to, Amm.VAI, amount, who, asset);
    case BurnVai(amount) => DebitFunds(s.bank, tx.actor, Amm.VAI, amount, who, asset);
    case ReleaseTranche(_) =>
    case UpdateReserve(_) =>
    case SetRiskParams(_) =>
  }

  lemma BoardAccountsMove(sha: Hash, s: State, tx: Tx, t: State, who: Address, asset: u8)
    requires BankOk(s.bank) && Amm.Supported(asset) && BoardAction(tx.action) && BoardStep(sha, s, tx) == Ok(t)
    ensures Funds(t.bank, who, asset) == Funds(s.bank, who, asset) + Delta(s.bank, tx, who, asset)
  {
    if tx.action.CreateMarket? {
      DebitFunds(s.bank, tx.actor, Amm.VEIL, tx.action.creatorBond, who, asset);
    } else if tx.action.Dispute? {
      DebitFunds(s.bank, tx.actor, Amm.VEIL, tx.action.bond, who, asset);
    }
  }

  /** The signed change a successful step makes to an account's LP balance. */
  ghost function LpDelta(b: Amm.Bank, tx: Tx, who: Address): int
    requires BankOk(b)
  {
    match tx.action
    case AddLiquidity(a0, _, x, y, _) =>
      if who != tx.actor || b.pool.None? then 0
      else if a0 == Amm.VEIL then Minted(b.pool.value, x, y) else Minted(b.pool.value, y, x)
    case RemoveLiquidity(_, _, lp, _, _) => Minus(who == tx.actor, lp)
    case _ => 0
  }

  /** LP balances move for the depositor and the withdrawer alone, by exactly what is minted and burned. */
  lemma LpMoves(sha: Hash, s: State, tx: Tx, t: State, who: Address)
    requires LedgerOk(s) && Execute(sha, s, tx) == Ok(t)
    ensures Balance(t.bank.lp, who) == Balance(s.bank.lp, who) + LpDelta(s.bank, tx, who)
  {
    var a := tx.action;
    if BankAction(a) {
      BankLpMoves(s.bank, IsGovernance(s, tx.actor), tx, t.bank, who);
    }
  }

  lemma BankLpMoves(b: Amm.Bank, governance: bool, tx: Tx, c: Amm.Bank, who: Address)
    requires BankOk(b) && BankAction(tx.action) && BankStep(b, governance, tx.actor, tx.action) == Ok(c)
    ensures Balance(c.lp, who) == Balance(b.lp, who) + LpDelta(b, tx, who)
  {
    var a := tx.action;
    if a.AddLiquidity? {
      AddLp(b, tx.actor, a.asset0, a.asset1, a.amount0, a.amount1, a.minLp, c, who);
    } else if a.RemoveLiquidity? {
      RemoveLp(b, tx.actor, a.asset0, a.asset1, a.lp, a.min0, a.min1, c, who);
    }
  }

  lemma AddLp(b: Amm.Bank, actor: Address, a0: u8, a1: u8, x: u64, y: u64, minLp: u64, c: Amm.Bank, who: Address)
    requires BankOk(b) && Amm.AddLiquidity(b, actor, a0, a1, x, y, minLp) == Ok(c)
    ensures b.pool.Some?
    ensures var minted := if a0 == Amm.VEIL then Minted(b.pool.value, x, y) else Minted(b.pool.value, y, x);
            Balance(c.lp, who) == Balance(b.lp, who) + if who == actor then minted else 0
  {
    var p := b.pool.value;
    var (px, py) := Amm.PairToPool(p, a0, a1, x, y).value;
    LpForExact(p, px, py);
    assert Credit(b.lp, actor, Minted(p, px, py)) == Ok(c.lp);
  }

  lemma RemoveLp(b: Amm.Bank, actor: Address, a0: u8, a1: u8, lp: u64, min0: u64, min1: u64, c: Amm.Bank, who: Address)
    requires Amm.RemoveLiquidity(b, actor, a0, a1, lp, min0, min1) == Ok(c)
    ensures Balance(c.lp, who) == Balance(b.lp, who) + Minus(who == actor, lp)
  {
    assert Debit(b.lp, actor, lp) == Ok(c.lp);
  }
}
