/** Exactly when steps succeed on a sound ledger; where 64 bits are too few, the condition says so. */
module Progress {
  import opened Words
  import opened Nonlinear
  import opened Balances
  import opened Preimage
  import opened Chain
  import opened PoolProofs
  import opened LedgerProofs
  import opened EconomyProofs
  import opened BoardProofs
  import opened Limits
  import opened Effects
  import Amm
  import Clearing
  import Verifier

  lemma DebitIff(b: Amm.Bank, who: Address, asset: u8, amount: u64)
    requires Amm.Supported(asset) && amount > 0
    ensures Amm.DebitAsset(b, who, asset, amount).Ok? <==> amount <= Funds(b, who, asset)
  {
  }

  /** Every asset in circulation fits a word. */
  lemma HeldFits(s: State, asset: u8)
    requires LedgerOk(s) && Amm.Supported(asset)
    ensures Held(s.bank, asset) <= MAX_U64
  {
  }

  /** The balance check made before a fee is deducted. */
  predicate CanDeduct(b: Amm.Bank, who: Address, amount: u64) { amount <= Balance(b.veil, who) }

  /** A fee that passes the check is deducted, unless it is a zero fee on an account that does not exist. */
  lemma DeductIff(sha: Hash, s: State, tx: Tx)
    requires tx.action.DeductFee? && CanDeduct(s.bank, tx.actor, tx.action.amount)
    ensures Execute(sha, s, tx).Ok? <==> 0 < tx.action.amount || tx.actor in s.bank.veil
  {
  }

  lemma TransferIff(sha: Hash, s: State, tx: Tx)
    requires LedgerOk(s) && tx.action.Transfer?
    ensures var a := tx.action;
            Execute(sha, s, tx).Ok? <==> 0 < a.value <= Funds(s.bank, tx.actor, Amm.VEIL) && |a.memo| <= 256
  {
    var a := tx.action;
    if 0 < a.value {
      DebitIff(s.bank, tx.actor, Amm.VEIL, a.value);
      if a.value <= Funds(s.bank, tx.actor, Amm.VEIL) {
        DebitHeld(s.bank, tx.actor, Amm.VEIL, a.value);
        CreditHeld(Amm.DebitAsset(s.bank, tx.actor, Amm.VEIL, a.value).value, a.to, Amm.VEIL, a.value);
      }
    }
  }

  /** The debt-invariant error cannot occur. */
  lemma BurnIff(sha: Hash, s: State, tx: Tx)
    requires LedgerOk(s) && tx.action.BurnVai?
    ensures Execute(sha, s, tx).Ok? <==> 0 < tx.action.amount <= Funds(s.bank, tx.actor, Amm.VAI)
  {
    var amount := tx.action.amount;
    if 0 < amount {
      DebitIff(s.bank, tx.actor, Amm.VAI, amount);
      BalanceWithinTotal(s.bank.vai, tx.actor);
    }
  }

  lemma RouteFeesIff(sha: Hash, s: State, tx: Tx)
    requires LedgerOk(s) && tx.action.RouteFees?
    ensures Execute(sha, s, tx).Ok? <==> 0 < tx.action.amount <= Funds(s.bank, tx.actor, Amm.VEIL)
  {
    var amount := tx.action.amount;
    if 0 < amount {
      DebitIff(s.bank, tx.actor, Amm.VEIL, amount);
      BalanceWithinTotal(s.bank.veil, tx.actor);
      SharesAddUp(s.econ.feeCfg, amount);
    }
  }

  /**
   A mint succeeds exactly when the authority mints a positive amount that ceiling, backing floor and epoch
   have room for; crediting it never fails.
   */
  lemma MintIff(sha: Hash, s: State, tx: Tx)
    requires LedgerOk(s) && tx.action.MintVai? && 0 < tx.now && 0 <= s.econ.vai.epochStart <= tx.now
    ensures var e, amount := s.econ, tx.action.amount;
            Execute(sha, s, tx).Ok?
            <==> && tx.actor == e.vaiCfg.mintAuthority && 0 < amount && e.vai.totalDebt + amount <= e.vaiCfg.debtCeiling
                 && (e.vai.totalDebt + amount) * e.risk.backingFloorBips <= e.reserve.exogenous * BIPS
                 && CountedAlready(e.vaiCfg, e.vai, tx.now) + amount <= e.vaiCfg.epochMintLimit
  {
    var e := s.econ;
    MintExecutes(sha, s, tx);
    MintExact(e.vaiCfg, e.vai, e.risk, e.reserve, tx.actor, tx.now, tx.action.amount);
  }

  /**
   A release succeeds exactly when governance, having waited, releases a positive amount of what is locked that
   ten thousand times over does not exceed the wrapped product; no addition overflows.
   */
  lemma ReleaseIff(sha: Hash, s: State, tx: Tx)
    requires LedgerOk(s) && tx.action.ReleaseTranche? && s.econ.treasury.lastReleaseMs <= tx.now
    requires s.econ.treasury.locked + s.econ.treasury.released <= MAX_U64
    ensures var c, t, amount := s.econ.treasuryCfg, s.econ.treasury, tx.action.amount;
            Execute(sha, s, tx).Ok?
            <==> && tx.actor == c.governance && 0 < amount <= t.locked
                 && amount * BIPS <= t.locked * c.maxReleaseBips % TWO_64
                 && (t.lastReleaseMs > 0 ==> Waited(t.lastReleaseMs, c.releaseEpochSeconds, tx.now))
  {
    var c, t := s.econ.treasuryCfg, s.econ.treasury;
    CapIff(t.locked * c.maxReleaseBips % TWO_64, tx.action.amount);
    if t.lastReleaseMs > 0 { DeadlineExact(t.lastReleaseMs, c.releaseEpochSeconds); }
  }

  lemma CapIff(word: int, amount: int)
    ensures amount <= word / BIPS <==> amount * BIPS <= word
  {
  }

  // ----- The pool -----

  /** A swap succeeds exactly when the trader can pay, the pool is liquid, and the exact output is worth having. */
  lemma SwapIff(sha: Hash, s: State, tx: Tx)
    requires LedgerOk(s) && tx.action.SwapExactIn?
    ensures var a, b := tx.action, s.bank;
            Execute(sha, s, tx).Ok?
            <==> && Amm.Supported(a.assetIn) && a.assetOut == 1 - a.assetIn
                 && b.pool.Some? && b.pool.value.totalLp > 0
                 && 0 < a.amountIn <= Funds(b, tx.actor, a.assetIn)
                 && var p := b.pool.value;
                    var paid := Paid(p.feeBips, a.amountIn);
                    var out := Bought(PoolHolds(b, a.assetIn), PoolHolds(b, a.assetOut), paid);
                    0 < paid && 0 < out && a.minOut <= out
  {
    var a, b := tx.action, s.bank;
    if && Amm.Supported(a.assetIn) && a.assetOut == 1 - a.assetIn
       && b.pool.Some? && b.pool.value.totalLp > 0 && 0 < a.amountIn {
      DebitIff(b, tx.actor, a.assetIn, a.amountIn);
      if a.amountIn <= Funds(b, tx.actor, a.assetIn) {
        SwapNeverStuck(s, tx.actor, a.assetIn, a.amountIn, a.minOut);
      }
    }
  }

  /** Past the debit, only the quote decides. */
  lemma SwapNeverStuck(s: State, actor: Address, i: u8, amountIn: u64, minOut: u64)
    requires LedgerOk(s) && Amm.Supported(i) && s.bank.pool.Some? && s.bank.pool.value.totalLp > 0
    requires 0 < amountIn <= Funds(s.bank, actor, i)
    ensures var b, o := s.bank, 1 - i;
            var paid := Paid(b.pool.value.feeBips, amountIn);
            var out := Bought(PoolHolds(b, i), PoolHolds(b, o), paid);
            Amm.SwapExactIn(b, actor, i, o, amountIn, minOut).Ok? <==> 0 < paid && 0 < out && minOut <= out
  {
    var b: Amm.Bank, o: u8 := s.bank, 1 - i;
    var p := b.pool.value;
    var rin: u64, rout: u64 := PoolHolds(b, i), PoolHolds(b, o);
    BalanceWithinTotal(if i == Amm.VEIL then b.veil else b.vai, actor);
    HeldFits(s, i);
    HeldFits(s, o);
    PaidExact(p.feeBips, amountIn);
    QuoteExact(rin, rout, p.feeBips, amountIn, minOut);
    var quote := Amm.SwapOutput(rin, rout, p.feeBips, amountIn, minOut);
    if quote.Ok? {
      SwapBound(rin, rout, p.feeBips, amountIn, minOut);
      DebitHeld(b, actor, i, amountIn);
      var b1 := Amm.DebitAsset(b, actor, i, amountIn).value;
      var next := Amm.Trade(p, i == Amm.VEIL, amountIn, quote.value).value;
      CreditHeld(b1.(pool := Some(next)), actor, o, quote.value);
    }
  }

  /** A withdrawal succeeds exactly when the LP balance covers it and both exact parts are worth having. */
  lemma RemoveIff(sha: Hash, s: State, tx: Tx)
    requires LedgerOk(s) && tx.action.RemoveLiquidity?
    ensures var a, b := tx.action, s.bank;
            Execute(sha, s, tx).Ok?
            <==> && Amm.Supported(a.asset0) && a.asset1 == 1 - a.asset0
                 && b.pool.Some? && b.pool.value.totalLp > 0 && 0 < a.lp <= Balance(b.lp, tx.actor)
                 && var total := b.pool.value.totalLp;
                    var o0, o1 := Part(a.lp, PoolHolds(b, a.asset0), total), Part(a.lp, PoolHolds(b, a.asset1), total);
                    0 < o0 && 0 < o1 && a.min0 <= o0 && a.min1 <= o1
  {
    var a, b := tx.action, s.bank;
    BalanceWithinTotal(b.lp, tx.actor);
    if b.pool.Some? && 0 < a.lp <= Balance(b.lp, tx.actor) {
      WithdrawalExact(b.pool.value, a.lp);
      if Amm.WithdrawalFor(b.pool.value, a.lp).Ok? { PayoutsFit(s, tx.actor, a.lp); }
    }
  }

  lemma PayoutsFit(s: State, actor: Address, lp: u64)
    requires LedgerOk(s) && s.bank.pool.Some? && 0 < lp <= Balance(s.bank.lp, actor)
    requires Amm.WithdrawalFor(s.bank.pool.value, lp).Ok?
    ensures var b, p := s.bank, s.bank.pool.value;
            var (o0, o1) := Amm.WithdrawalFor(p, lp).value;
            && Amm.Withdraw(p, lp, o0, o1).Ok? && Debit(b.lp, actor, lp).Ok?
            && var b0 := b.(pool := Some(Amm.Withdraw(p, lp, o0, o1).value), lp := Debit(b.lp, actor, lp).value);
               && Amm.CreditAsset(b0, actor, p.asset0, o0).Ok?
               && Amm.CreditAsset(Amm.CreditAsset(b0, actor, p.asset0, o0).value, actor, p.asset1, o1).Ok?
  {
    var b, p := s.bank, s.bank.pool.value;
    var (o0, o1) := Amm.WithdrawalFor(p, lp).value;
    BalanceWithinTotal(b.lp, actor);
    WithdrawKeeps(p, lp);
    var b0 := b.(pool := Some(Amm.Withdraw(p, lp, o0, o1).value), lp := Debit(b.lp, actor, lp).value);
    HeldFits(s, Amm.VEIL);
    HeldFits(s, Amm.VAI);
    CreditHeld(b0, actor, p.asset0, o0);
    CreditHeld(Amm.CreditAsset(b0, actor, p.asset0, o0).value, actor, p.asset1, o1);
  }

  /** The LP supply stays within a word whenever the reserves do. */
  lemma LpSupplyFits(p: Amm.Pool, x: u64, y: u64)
    requires PoolOk(p) && Amm.LpFor(p, x, y).Ok? && p.reserve0 + x <= MAX_U64 && p.reserve1 + y <= MAX_U64
    ensures p.totalLp + Amm.LpFor(p, x, y).value <= MAX_U64
  {
    var l: int, m: int := p.totalLp, Amm.LpFor(p, x, y).value;
    if l > 0 {
      MintedBound(p, x, y);
      SupplyBound(p.reserve0, p.reserve1, l, x, y, m);
      RootWithin(l + m, p.reserve0 + x, p.reserve1 + y, MAX_U64);
    }
  }

  lemma SupplyBound(a: int, b: int, l: int, x: int, y: int, m: int)
    requires 0 <= a && 0 <= b && 0 < l && 0 <= x && 0 <= y && 0 <= m
    requires l * l <= a * b && m * a <= x * l && m * b <= y * l
    ensures (l + m) * (l + m) <= (a + x) * (b + y)
  {
    Distribute(a, l, x, m);
    Distribute(b, l, y, m);
    GrownSupply(a, b, l, a + x, b + y, l + m);
  }

  lemma RootWithin(n: nat, a: nat, b: nat, limit: nat)
    requires n * n <= a * b && a <= limit && b <= limit
    ensures n <= limit
  {
    MulLeBoth(a, limit, b, limit);
    if n > limit { MulLeBoth(limit + 1, n, limit + 1, n); }
  }

  /** If both reserves grow at least like the supply, the product stays above its square. */
  lemma GrownSupply(a: nat, b: nat, l: nat, r0: nat, r1: nat, n: nat)
    requires l > 0 && l * l <= a * b && a * n <= r0 * l && b * n <= r1 * l
    ensures n * n <= r0 * r1
  {
    MulLeBoth(a * n, r0 * l, b * n, r1 * l);
    Regroup(a, n, b, n);
    Regroup(r0, l, r1, l);
    ProductPositive(l, l);
    MulLe(l * l, a * b, n * n);
    assert (n * n) * (l * l) == (l * l) * (n * n);
    CancelLe(n * n, r0 * r1, l * l);
  }

  /** The amounts of a deposit in the pool's order. */
  function VeilPart(a: Action): u64
    requires a.AddLiquidity?
  {
    if a.asset0 == Amm.VEIL then a.amount0 else a.amount1
  }

  function VaiPart(a: Action): u64
    requires a.AddLiquidity?
  {
    if a.asset0 == Amm.VEIL then a.amount1 else a.amount0
  }

  /** A deposit of a valid pair into an existing pool, covered by the depositor's funds. */
  ghost predicate CoveredDeposit(b: Amm.Bank, actor: Address, a: Action)
    requires a.AddLiquidity?
  {
    && Amm.Supported(a.asset0) && a.asset1 == 1 - a.asset0 && b.pool.Some?
    && 0 < a.amount0 <= Funds(b, actor, a.asset0) && 0 < a.amount1 <= Funds(b, actor, a.asset1)
  }

  /**
   A deposit succeeds exactly when it is covered, no intermediate result overflows, and it mints enough. On a first
   deposit the product must stay below 2^64 - 1; later both shares must fit a word, also the larger, unused one.
   */
  lemma AddIff(sha: Hash, s: State, tx: Tx)
    requires LedgerOk(s) && tx.action.AddLiquidity?
    ensures var a, b := tx.action, s.bank;
            Execute(sha, s, tx).Ok?
            <==> && CoveredDeposit(b, tx.actor, a)
                 && MintFits(b.pool.value, VeilPart(a), VaiPart(a))
                 && var minted := Minted(b.pool.value, VeilPart(a), VaiPart(a)); 0 < minted && a.minLp <= minted
  {
    var a, b := tx.action, s.bank;
    if CoveredDeposit(b, tx.actor, a) { CoveredDepositIff(s, tx.actor, a); } else { UncoveredDeposit(b, tx.actor, a); }
  }

  lemma UncoveredDeposit(b: Amm.Bank, actor: Address, a: Action)
    requires a.AddLiquidity? && !CoveredDeposit(b, actor, a)
    ensures Amm.AddLiquidity(b, actor, a.asset0, a.asset1, a.amount0, a.amount1, a.minLp).Err?
  {
    if Amm.Supported(a.asset0) && a.asset1 == 1 - a.asset0 && 0 < a.amount0 && 0 < a.amount1 {
      DebitIff(b, actor, a.asset0, a.amount0);
      if a.amount0 <= Funds(b, actor, a.asset0) {
        DebitIff(Amm.DebitAsset(b, actor, a.asset0, a.amount0).value, actor, a.asset1, a.amount1);
      }
    }
  }

  /** Past the two debits, only overflow and slippage decide, and which of them. */
  lemma CoveredDepositIff(s: State, actor: Address, a: Action)
    requires LedgerOk(s) && a.AddLiquidity? && CoveredDeposit(s.bank, actor, a)
    ensures var p, x, y := s.bank.pool.value, VeilPart(a), VaiPart(a);
            var r := Amm.AddLiquidity(s.bank, actor, a.asset0, a.asset1, a.amount0, a.amount1, a.minLp);
            if !MintFits(p, x, y) then
              r == Err(if p.totalLp == 0 && x * y == MAX_U64 then DivisionByZero else Overflow)
            else if Minted(p, x, y) == 0 || Minted(p, x, y) < a.minLp then r == Err(SlippageExceeded)
            else r.Ok?
  {
    var b, x, y := s.bank, VeilPart(a), VaiPart(a);
    DebitIff(b, actor, a.asset0, a.amount0);
    DebitIff(Amm.DebitAsset(b, actor, a.asset0, a.amount0).value, actor, a.asset1, a.amount1);
    LpForExact(b.pool.value, x, y);
    DepositFits(s, actor, x, y);
  }

  lemma DepositFits(s: State, actor: Address, x: u64, y: u64)
    requires LedgerOk(s) && s.bank.pool.Some?
    requires x <= Funds(s.bank, actor, Amm.VEIL) && y <= Funds(s.bank, actor, Amm.VAI)
    ensures var p := s.bank.pool.value;
            Amm.LpFor(p, x, y).Ok? ==>
              && Amm.Deposit(p, x, y, Amm.LpFor(p, x, y).value).Ok?
              && Credit(s.bank.lp, actor, Amm.LpFor(p, x, y).value).Ok?
  {
    var p := s.bank.pool.value;
    BalanceWithinTotal(s.bank.veil, actor);
    BalanceWithinTotal(s.bank.vai, actor);
    HeldFits(s, Amm.VEIL);
    HeldFits(s, Amm.VAI);
    if Amm.LpFor(p, x, y).Ok? {
      LpSupplyFits(p, x, y);
      CreditTotal(s.bank.lp, actor, Amm.LpFor(p, x, y).value);
    }
  }

  // ----- Batches -----

  /** The market of a batch can be traded. */
  predicate Trading(s: State, market: Id) {
    market in s.board.markets && s.board.markets[market].status == Clearing.ACTIVE
  }

  /**
   A submission succeeds exactly when proofs are required, the authority brings a well-sized proof of the required type
   for an aligned window of a trading market, after its close and by a deadline that fits, nobody did so before, and
   the verifier accepts it; no later write fails.
   */
  lemma SubmitIff(sha: Hash, s: State, tx: Tx)
    requires BoardOk(sha, s.board) && tx.action.SubmitBatchProof?
    ensures var a, c := tx.action.submission, s.board.config;
            Execute(sha, s, tx).Ok?
            <==> && c.requireProof && tx.actor == c.proverAuthority && a.proofType == c.requiredProofType
                 && WellSized(a) && Trading(s, a.slot.market) && a.slot !in s.board.proofs.records
                 && 0 < a.windowCloseAtMs && a.windowCloseAtMs % c.batchWindowMs == 0
                 && a.windowCloseAtMs <= tx.now <= a.windowCloseAtMs + c.proofDeadlineMs < TWO_63
                 && Verifier.Accepts(tx.setup, a.proofType, a.proof, a.publicInputsHash)
  {
    ExecuteSubmit(sha, s, tx);
    SubmittableIff(tx.setup, s.board, tx.actor, tx.now, tx.action.submission);
  }

  /** What a required proof adds to the conditions of a clear. */
  ghost predicate Proved(sha: Hash, s: State, tx: Tx)
    requires tx.action.ClearBatch?
  {
    var x, c, p := tx.action.clear, s.board.config, s.board.proofs;
    && tx.actor == c.proverAuthority && CommitsTo(sha, p, x)
    && var r, blob := p.records[Clearing.Slot(x.market, x.window)], p.blobs[Clearing.Slot(x.market, x.window)];
       && r.proofType == c.requiredProofType && OnTime(c, r.windowCloseAtMs, r.submittedAtMs)
       && Verifier.Accepts(tx.setup, r.proofType, blob, r.publicInputsHash)
  }

  /**
   A clear succeeds exactly with a price and a 32-byte fills hash on a trading market, by anybody while proofs are not
   required, and otherwise by the authority with a timely record that commits to the inputs and still verifies.
   */
  lemma ClearIff(sha: Hash, s: State, tx: Tx)
    requires BoardOk(sha, s.board) && tx.action.ClearBatch?
    ensures var x := tx.action.clear;
            Execute(sha, s, tx).Ok?
            <==> && x.price != 0 && |x.fills| == 32 && Trading(s, x.market)
                 && (s.board.config.requireProof ==> Proved(sha, s, tx))
  {
    ExecuteClear(sha, s, tx);
    ProofGateIff(sha, tx.setup, s.board, tx.actor, tx.action.clear);
  }
}
