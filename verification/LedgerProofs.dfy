/** Conservation of VEIL and VAI, and the pool invariant, over every step. */
module LedgerProofs {
  import opened Words
  import opened Balances
  import opened Economy
  import opened Preimage
  import opened PoolProofs
  import opened Chain
  import Amm
  import Nonlinear

  ghost predicate BankOk(b: Amm.Bank) {
    match b.pool
    case None => Total(b.lp) == 0
    case Some(p) => PoolOk(p) && Total(b.lp) == p.totalLp
  }

  /** What the pool holds of an asset. */
  function PoolHolds(b: Amm.Bank, asset: u8): nat {
    match b.pool
    case None => 0
    case Some(p) => if asset == p.asset0 then p.reserve0 else if asset == p.asset1 then p.reserve1 else 0
  }

  /** All of an asset, in accounts and in the pool. */
  ghost function Held(b: Amm.Bank, asset: u8): nat {
    (if asset == Amm.VEIL then Total(b.veil) else Total(b.vai)) + PoolHolds(b, asset)
  }

  ghost function VeilSupply(s: State): nat {
    var e := s.econ;
    Held(s.bank, Amm.VEIL) + e.fees.msrb + e.fees.col + e.fees.ops + e.treasury.locked + e.treasury.live
  }

  ghost predicate EconOk(e: Econ) {
    && ValidFeeConfig(e.feeCfg) && ValidRisk(e.risk)
    && e.vai.totalDebt <= e.vaiCfg.debtCeiling
    && e.vai.epochMinted <= e.vaiCfg.epochMintLimit
  }

  ghost predicate LedgerOk(s: State) {
    && BankOk(s.bank) && EconOk(s.econ)
    && Held(s.bank, Amm.VAI) == s.econ.vai.totalDebt
    && VeilSupply(s) <= MAX_U64
  }

  /** VEIL that a successful step takes out of the ledger: bonds and transaction fees. */
  function Sunk(a: Action): nat {
    match a
    case CreateMarket(_, _, _, bond, _) => bond
    case Dispute(_, bond, _) => bond
    case DeductFee(amount) => amount
    case _ => 0
  }

  // ----- Accounts -----

  lemma DebitHeld(b: Amm.Bank, who: Address, asset: u8, amount: u64)
    requires Amm.Supported(asset) && Amm.DebitAsset(b, who, asset, amount).Ok?
    ensures var c := Amm.DebitAsset(b, who, asset, amount).value;
            && c.lp == b.lp && c.pool == b.pool
            && Held(c, asset) == Held(b, asset) - amount
            && Held(c, 1 - asset) == Held(b, 1 - asset)
  {
    DebitTotal(if asset == Amm.VEIL then b.veil else b.vai, who, amount);
  }

  lemma CreditHeld(b: Amm.Bank, who: Address, asset: u8, amount: u64)
    requires Amm.Supported(asset)
    ensures var r := Amm.CreditAsset(b, who, asset, amount);
            r.Ok? ==>
              && r.value.lp == b.lp && r.value.pool == b.pool
              && Held(r.value, asset) == Held(b, asset) + amount
              && Held(r.value, 1 - asset) == Held(b, 1 - asset)
    ensures Held(b, asset) + amount <= MAX_U64 ==> Amm.CreditAsset(b, who, asset, amount).Ok?
  {
    CreditTotal(if asset == Amm.VEIL then b.veil else b.vai, who, amount);
  }

  ghost predicate SameHoldings(b: Amm.Bank, c: Amm.Bank) {
    Held(c, Amm.VEIL) == Held(b, Amm.VEIL) && Held(c, Amm.VAI) == Held(b, Amm.VAI)
  }

  lemma TransferKeeps(b: Amm.Bank, from: Address, to: Address, value: u64, memo: nat)
    requires BankOk(b) && Amm.Transfer(b, from, to, value, memo).Ok?
    ensures var c := Amm.Transfer(b, from, to, value, memo).value; BankOk(c) && SameHoldings(b, c)
  {
    DebitHeld(b, from, Amm.VEIL, value);
    CreditHeld(Amm.DebitAsset(b, from, Amm.VEIL, value).value, to, Amm.VEIL, value);
  }

  // ----- Pool -----

  lemma AddLiquidityKeeps(b: Amm.Bank, actor: Address, a0: u8, a1: u8, x: u64, y: u64, minLp: u64)
    requires BankOk(b) && Amm.AddLiquidity(b, actor, a0, a1, x, y, minLp).Ok?
    ensures var c := Amm.AddLiquidity(b, actor, a0, a1, x, y, minLp).value;
            && BankOk(c) && SameHoldings(b, c)
            && (b.pool.value.totalLp > 0 ==> ShareValueLe(b.pool.value, c.pool.value))
  {
    var p := b.pool.value;
    var (px, py) := Amm.PairToPool(p, a0, a1, x, y).value;
    var b1 := Amm.DebitAsset(b, actor, a0, x).value;
    DebitHeld(b, actor, a0, x);
    DebitHeld(b1, actor, a1, y);
    DepositKeeps(p, px, py);
    CreditTotal(b.lp, actor, Amm.LpFor(p, px, py).value);
  }

  lemma RemoveLiquidityKeeps(b: Amm.Bank, actor: Address, a0: u8, a1: u8, lp: u64, min0: u64, min1: u64)
    requires BankOk(b) && Amm.RemoveLiquidity(b, actor, a0, a1, lp, min0, min1).Ok?
    ensures var c := Amm.RemoveLiquidity(b, actor, a0, a1, lp, min0, min1).value;
            BankOk(c) && SameHoldings(b, c) && ShareValueLe(b.pool.value, c.pool.value)
  {
    var p := b.pool.value;
    BalanceWithinTotal(b.lp, actor);
    WithdrawKeeps(p, lp);
    var (o0, o1) := Amm.WithdrawalFor(p, lp).value;
    DebitTotal(b.lp, actor, lp);
    var b0 := b.(pool := Some(Amm.Withdraw(p, lp, o0, o1).value), lp := Debit(b.lp, actor, lp).value);
    CreditHeld(b0, actor, p.asset0, o0);
    CreditHeld(Amm.CreditAsset(b0, actor, p.asset0, o0).value, actor, p.asset1, o1);
  }

  lemma SwapKeeps(b: Amm.Bank, actor: Address, i: u8, o: u8, amountIn: u64, minOut: u64)
    requires BankOk(b) && Amm.SwapExactIn(b, actor, i, o, amountIn, minOut).Ok?
    ensures var c := Amm.SwapExactIn(b, actor, i, o, amountIn, minOut).value;
            && BankOk(c) && SameHoldings(b, c)
            && c.pool.value.totalLp == b.pool.value.totalLp > 0 && c.pool.value.feeBips == b.pool.value.feeBips
            && ShareValueLt(b.pool.value, c.pool.value)
            && b.pool.value.reserve0 * b.pool.value.reserve1 < c.pool.value.reserve0 * c.pool.value.reserve1
  {
    var p := b.pool.value;
    var forward := Amm.SwapDirection(p, i, o).value;
    var rin, rout := if forward then p.reserve0 else p.reserve1, if forward then p.reserve1 else p.reserve0;
    var b1 := Amm.DebitAsset(b, actor, i, amountIn).value;
    var out := Amm.SwapOutput(rin, rout, p.feeBips, amountIn, minOut).value;
    DebitHeld(b, actor, i, amountIn);
    TradeKeeps(p, forward, amountIn, minOut, out);
    CreditHeld(b1.(pool := Some(Amm.Trade(p, forward, amountIn, out).value)), actor, o, out);
  }

  // ----- Fee router and treasury -----

  /** A 64-bit product only ever loses value, so shares never exceed the exact ones. */
  lemma ShareBound(bips: u16, amount: u64)
    ensures Share(bips, amount) * BIPS <= bips * amount
  {
    ProductNonNegative(bips, amount);
    ModBelow(bips * amount, TWO_64);
    QuotientBounds(WrapMul(bips, amount), BIPS);
  }

  /** Reducing a product modulo 2^64 before dividing is exact precisely when there is nothing to reduce. */
  lemma WrappedQuotientIff(product: nat)
    ensures var q := product % TWO_64 / BIPS; q * BIPS <= product < q * BIPS + BIPS <==> product < TWO_64
  {
    if product >= TWO_64 { WrapLoses(product); }
  }

  lemma WrapLoses(product: nat)
    requires product >= TWO_64
    ensures product % TWO_64 <= product - TWO_64
  {
  }

  /** A share is the exact proportional part, rounded down, precisely when its 64-bit product does not wrap. */
  lemma ShareExactIff(bips: u16, amount: u64)
    ensures Share(bips, amount) * BIPS <= bips * amount < Share(bips, amount) * BIPS + BIPS <==> bips * amount < TWO_64
  {
    ProductNonNegative(bips, amount);
    WrappedQuotientIff(bips * amount);
  }

  /** The release cap is the exact fraction, rounded down, precisely when its 64-bit product does not wrap. */
  lemma CapExactIff(c: TreasuryConfig, t: Treasury)
    ensures var product, cap := t.locked * c.maxReleaseBips, ReleaseCap(c, t);
            cap * BIPS <= product < cap * BIPS + BIPS <==> product < TWO_64
  {
    ProductNonNegative(t.locked, c.maxReleaseBips);
    WrappedQuotientIff(t.locked * c.maxReleaseBips);
  }

  lemma ModBelow(n: nat, d: nat)
    requires d > 0
    ensures n % d <= n
  {
  }

  /** The three shares always add up to the amount routed, wrapped products included. */
  lemma SharesAddUp(c: FeeConfig, amount: u64)
    requires ValidFeeConfig(c)
    ensures Share(c.msrbBips, amount) + Share(c.colBips, amount) + OpsShare(c, amount) == amount
  {
    ShareBound(c.msrbBips, amount);
    ShareBound(c.colBips, amount);
    var m, k := c.msrbBips, c.colBips;
    assert m * amount + k * amount <= BIPS * amount by {
      assert m * amount + k * amount == (m + k) * amount;
      Nonlinear.MulLe(m + k, BIPS, amount);
    }
  }

  lemma RouteFeesKeeps(c: FeeConfig, f: Fees, amount: u64)
    requires ValidFeeConfig(c) && Economy.RouteFees(c, f, amount).Ok?
    ensures var g := Economy.RouteFees(c, f, amount).value;
            g.msrb + g.col + g.ops == f.msrb + f.col + f.ops + amount
  {
    SharesAddUp(c, amount);
  }

  // ----- Every step -----

  /** What one successful step promises about the ledger. */
  ghost predicate LedgerStep(s: State, a: Action, t: State) {
    LedgerOk(t) && VeilSupply(t) + Sunk(a) == VeilSupply(s)
  }

  lemma BankStepKeeps(sha: Hash, s: State, tx: Tx)
    requires LedgerOk(s) && Execute(sha, s, tx).Ok? && BankAction(tx.action)
    ensures LedgerStep(s, tx.action, Execute(sha, s, tx).value)
  {
    var b, actor := s.bank, tx.actor;
    match tx.action
    case Transfer(to, value, memo) => TransferKeeps(b, actor, to, value, |memo|);
    case CreatePool(a0, a1, fee) =>
    case AddLiquidity(a0, a1, x, y, minLp) => AddLiquidityKeeps(b, actor, a0, a1, x, y, minLp);
    case RemoveLiquidity(a0, a1, lp, min0, min1) => RemoveLiquidityKeeps(b, actor, a0, a1, lp, min0, min1);
    case SwapExactIn(i, o, amountIn, minOut) => SwapKeeps(b, actor, i, o, amountIn, minOut);
    case DeductFee(amount) => DebitHeld(b, actor, Amm.VEIL, amount);
  }

  lemma RouteFeesStep(sha: Hash, s: State, tx: Tx)
    requires LedgerOk(s) && Execute(sha, s, tx).Ok? && tx.action.RouteFees?
    ensures LedgerStep(s, tx.action, Execute(sha, s, tx).value)
  {
    DebitHeld(s.bank, tx.actor, Amm.VEIL, tx.action.amount);
    RouteFeesKeeps(s.econ.feeCfg, s.econ.fees, tx.action.amount);
  }

  lemma MintStepKeeps(sha: Hash, s: State, tx: Tx)
    requires LedgerOk(s) && Execute(sha, s, tx).Ok? && tx.action.MintVai?
    ensures LedgerStep(s, tx.action, Execute(sha, s, tx).value)
  {
    CreditHeld(s.bank, tx.action.to, Amm.VAI, tx.action.amount);
  }

  lemma BurnStepKeeps(sha: Hash, s: State, tx: Tx)
    requires LedgerOk(s) && Execute(sha, s, tx).Ok? && tx.action.BurnVai?
    ensures LedgerStep(s, tx.action, Execute(sha, s, tx).value)
  {
    DebitHeld(s.bank, tx.actor, Amm.VAI, tx.action.amount);
  }

  lemma EconStepKeeps(sha: Hash, s: State, tx: Tx)
    requires LedgerOk(s) && Execute(sha, s, tx).Ok? && EconAction(tx.action)
    ensures LedgerStep(s, tx.action, Execute(sha, s, tx).value)
  {
    match tx.action
    case RouteFees(_) => RouteFeesStep(sha, s, tx);
    case MintVai(_, _) => MintStepKeeps(sha, s, tx);
    case BurnVai(_) => BurnStepKeeps(sha, s, tx);
    case ReleaseTranche(_) =>
    case UpdateReserve(_) =>
    case SetRiskParams(_) =>
  }

  lemma BoardStepKeeps(sha: Hash, s: State, tx: Tx)
    requires LedgerOk(s) && Execute(sha, s, tx).Ok? && BoardAction(tx.action)
    ensures LedgerStep(s, tx.action, Execute(sha, s, tx).value)
    ensures Execute(sha, s, tx).value.econ == s.econ && Execute(sha, s, tx).value.bank.pool == s.bank.pool
  {
    match tx.action
    case CreateMarket(_, _, _, bond, _) => DebitHeld(s.bank, tx.actor, Amm.VEIL, bond);
    case Dispute(_, bond, _) => DebitHeld(s.bank, tx.actor, Amm.VEIL, bond);
    case _ =>
  }

  /** One step keeps the ledger invariant and moves VEIL nowhere but into the sinks. */
  lemma StepKeepsLedger(sha: Hash, s: State, tx: Tx)
    requires LedgerOk(s) && Execute(sha, s, tx).Ok?
    ensures LedgerStep(s, tx.action, Execute(sha, s, tx).value)
  {
    if BankAction(tx.action) {
      BankStepKeeps(sha, s, tx);
    } else if EconAction(tx.action) {
      EconStepKeeps(sha, s, tx);
    } else {
      BoardStepKeeps(sha, s, tx);
    }
  }
}
