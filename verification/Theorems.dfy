/** What holds in every state of every run that starts at a valid genesis. */
module Theorems {
  import opened Words
  import opened Nonlinear
  import opened Balances
  import opened Preimage
  import opened Chain
  import opened Genesis
  import opened PoolProofs
  import opened LedgerProofs
  import opened EconomyProofs
  import opened BoardProofs
  import opened MarketProofs
  import opened StorageKeys
  import opened ByteStore
  import opened StateKeys
  import opened StateBytes
  import opened ByteMachine
  import opened Effects
  import opened Outcomes
  import Amm

  /** A valid genesis satisfies every invariant, and holds exactly the configured supply. */
  lemma GenesisOk(sha: Hash, allocs: seq<Allocation>, t: Tokenomics)
    requires ValidTokenomics(allocs, t)
    ensures GenesisState(allocs, t).Ok?
    ensures var s := GenesisState(allocs, t).value;
            && LedgerOk(s) && VeilSupply(s) == GenesisTotal(allocs, t)
            && BoardOk(sha, s.board) && MarketsOk(s.board) && IsBacked(s) && EpochOk(s, 0)
            && s.econ.treasuryCfg == t.treasury && s.econ.feeCfg == t.fees && s.econ.vaiCfg == t.vai
            && s.econ.risk == t.risk && s.econ.reserve == t.reserve && s.board.config == t.proof
  {
    CreditAllTotal(allocs);
    var b := GenesisState(allocs, t).value.board;
    forall who: Address
      ensures CountedExactly(b.proofs, who)
    {
      assert RecordsOf(b.proofs, who) == {};
    }
  }

  /** VEIL taken out of the ledger by a run: creator and dispute bonds, and transaction fees. */
  function SunkBy(sha: Hash, s: State, txs: seq<Tx>): nat
    decreases |txs|
  {
    if txs == [] then 0
    else (if Execute(sha, s, txs[0]).Ok? then Sunk(txs[0].action) else 0) + SunkBy(sha, Apply(sha, s, txs[0]), txs[1..])
  }

  lemma {:induction false} RunKeepsLedger(sha: Hash, s: State, txs: seq<Tx>)
    requires LedgerOk(s)
    ensures LedgerOk(Run(sha, s, txs)) && VeilSupply(Run(sha, s, txs)) + SunkBy(sha, s, txs) == VeilSupply(s)
    decreases |txs|
  {
    if txs != [] {
      if Execute(sha, s, txs[0]).Ok? { StepKeepsLedger(sha, s, txs[0]); }
      RunKeepsLedger(sha, Apply(sha, s, txs[0]), txs[1..]);
    }
  }

  /**
   Conservation: in every reachable state the VEIL in accounts, pool, budgets and vaults, plus the bonds
   and fees taken so far, is the genesis total; the VAI in accounts and pool is the debt, within its ceiling;
   LP balances add up to the LP supply; the reserve product is at least the squared LP supply.
   */
  lemma Conservation(sha: Hash, allocs: seq<Allocation>, t: Tokenomics, txs: seq<Tx>)
    requires ValidTokenomics(allocs, t)
    ensures GenesisState(allocs, t).Ok?
    ensures var g := GenesisState(allocs, t).value;
            var s := Run(sha, g, txs);
            && VeilSupply(s) + SunkBy(sha, g, txs) == GenesisTotal(allocs, t)
            && Held(s.bank, Amm.VAI) == s.econ.vai.totalDebt <= s.econ.vaiCfg.debtCeiling
            && (s.bank.pool.Some? ==> PoolOk(s.bank.pool.value) && Total(s.bank.lp) == s.bank.pool.value.totalLp)
  {
    GenesisOk(sha, allocs, t);
    RunKeepsLedger(sha, GenesisState(allocs, t).value, txs);
  }

  /** The clearing and market invariants of every reachable state. */
  lemma BoardSafety(sha: Hash, allocs: seq<Allocation>, t: Tokenomics, txs: seq<Tx>)
    requires ValidTokenomics(allocs, t)
    ensures GenesisState(allocs, t).Ok?
    ensures var s := Run(sha, GenesisState(allocs, t).value, txs); BoardOk(sha, s.board) && MarketsOk(s.board)
  {
    GenesisOk(sha, allocs, t);
    RunKeepsBoard(sha, GenesisState(allocs, t).value, txs);
    RunEvolvesMarkets(sha, GenesisState(allocs, t).value, txs);
  }

  lemma ReachableSound(sha: Hash, allocs: seq<Allocation>, t: Tokenomics, txs: seq<Tx>)
    requires ValidTokenomics(allocs, t)
    ensures GenesisState(allocs, t).Ok? && Sound(sha, GenesisState(allocs, t).value)
    ensures Sound(sha, Run(sha, GenesisState(allocs, t).value, txs))
  {
    GenesisOk(sha, allocs, t);
    RunKeepsLedger(sha, GenesisState(allocs, t).value, txs);
    RunKeepsBoard(sha, GenesisState(allocs, t).value, txs);
  }

  /** In every reachable state every stored value, under every key, is accepted by its Put and read back by its Get. */
  lemma ReachableValuesWritable(sha: Hash, allocs: seq<Allocation>, t: Tokenomics, txs: seq<Tx>, k: Key)
    requires ValidTokenomics(allocs, t)
    ensures GenesisState(allocs, t).Ok?
    ensures var s := Run(sha, GenesisState(allocs, t).value, txs);
            Lookup(s, k).Some? ==> Legal(Insert(k, Lookup(s, k).value))
  {
    ReachableSound(sha, allocs, t, txs);
    var s := Run(sha, GenesisState(allocs, t).value, txs);
    if Lookup(s, k).Some? { EntryLegal(sha, s, k); }
  }

  /**
   Running every transaction on bytes alone, from the bytes of genesis, leaves bytes that read under any key as the
   state that the run leaves.
   */
  lemma BytesOfEveryRun(sha: Hash, allocs: seq<Allocation>, t: Tokenomics, txs: seq<Tx>, first: u8, k: Key)
    requires ValidTokenomics(allocs, t) && first + 20 < 256
    ensures GenesisState(allocs, t).Ok? && AllLegal(WritesOf(GenesisState(allocs, t).value, GenesisKeys(allocs)))
    ensures var g := GenesisState(allocs, t).value;
            var bytes := ByteRun(first, sha, Raw(first, WritesOf(g, GenesisKeys(allocs))), txs);
            var held := Lookup(Run(sha, g, txs), k);
            Read(first, bytes, k) == if held.Some? then Some(Ok(held.value)) else None
  {
    ReachableSound(sha, allocs, t, txs);
    var g := GenesisState(allocs, t).value;
    var ws := WritesOf(g, GenesisKeys(allocs));
    GenesisRepresented(sha, allocs, t);
    ByteRunCommutes(first, sha, ws, g, txs);
    BytesReadBack(first, ws + RunWrites(sha, g, txs), Run(sha, g, txs), k);
  }

  // ----- The pool over whole runs -----

  /** The pool is there and has liquidity throughout the run. */
  predicate LiquidThroughout(sha: Hash, s: State, txs: seq<Tx>)
    decreases |txs|
  {
    && s.bank.pool.Some? && s.bank.pool.value.totalLp > 0
    && (txs != [] ==> LiquidThroughout(sha, Apply(sha, s, txs[0]), txs[1..]))
  }

  lemma SwapStep(sha: Hash, s: State, tx: Tx, u: State)
    requires LedgerOk(s) && Execute(sha, s, tx) == Ok(u) && tx.action.SwapExactIn?
    ensures s.bank.pool.Some? && u.bank.pool.Some?
    ensures var p, q := s.bank.pool.value, u.bank.pool.value;
            && q.totalLp == p.totalLp > 0 && ShareValueLt(p, q)
            && p.reserve0 * p.reserve1 < q.reserve0 * q.reserve1
  {
    var a := tx.action;
    SwapKeeps(s.bank, tx.actor, a.assetIn, a.assetOut, a.amountIn, a.minOut);
  }

  /** No step lowers the share value of a liquid pool. */
  lemma PoolStep(sha: Hash, s: State, tx: Tx, u: State)
    requires LedgerOk(s) && Execute(sha, s, tx) == Ok(u) && s.bank.pool.Some? && s.bank.pool.value.totalLp > 0
    ensures u.bank.pool.Some? && ShareValueLe(s.bank.pool.value, u.bank.pool.value)
  {
    match tx.action
    case AddLiquidity(a0, a1, x, y, minLp) => AddLiquidityKeeps(s.bank, tx.actor, a0, a1, x, y, minLp);
    case RemoveLiquidity(a0, a1, lp, min0, min1) => RemoveLiquidityKeeps(s.bank, tx.actor, a0, a1, lp, min0, min1);
    case SwapExactIn(_, _, _, _) => SwapStep(sha, s, tx, u);
    case _ => PoolStays(sha, s, tx, u);
  }

  /** While the pool stays liquid, no run ever lowers the reserve product per squared LP share. */
  lemma {:induction false} ShareValueNeverFalls(sha: Hash, s: State, txs: seq<Tx>)
    requires LedgerOk(s) && LiquidThroughout(sha, s, txs)
    ensures Run(sha, s, txs).bank.pool.Some?
    ensures ShareValueLe(s.bank.pool.value, Run(sha, s, txs).bank.pool.value)
    decreases |txs|
  {
    if txs != [] {
      var u := Apply(sha, s, txs[0]);
      if Execute(sha, s, txs[0]).Ok? {
        PoolStep(sha, s, txs[0], u);
        StepKeepsLedger(sha, s, txs[0]);
      }
      ShareValueNeverFalls(sha, u, txs[1..]);
      ShareValueTransitive(s.bank.pool.value, u.bank.pool.value, Run(sha, s, txs).bank.pool.value);
    }
  }

  predicate NoLiquidityChange(txs: seq<Tx>) {
    forall i :: 0 <= i < |txs| ==> !txs[i].action.AddLiquidity? && !txs[i].action.RemoveLiquidity?
  }

  /** The number of successful swaps in a run. */
  function Swaps(sha: Hash, s: State, txs: seq<Tx>): nat
    decreases |txs|
  {
    if txs == [] then 0
    else (if txs[0].action.SwapExactIn? && Execute(sha, s, txs[0]).Ok? then 1 else 0)
         + Swaps(sha, Apply(sha, s, txs[0]), txs[1..])
  }

  lemma {:induction false} SwapsRaiseProduct(sha: Hash, s: State, txs: seq<Tx>)
    requires LedgerOk(s) && NoLiquidityChange(txs) && s.bank.pool.Some? && s.bank.pool.value.totalLp > 0
    ensures Run(sha, s, txs).bank.pool.Some?
    ensures var p, q := s.bank.pool.value, Run(sha, s, txs).bank.pool.value;
            q.totalLp == p.totalLp && p.reserve0 * p.reserve1 + Swaps(sha, s, txs) <= q.reserve0 * q.reserve1
    decreases |txs|
  {
    if txs != [] {
      var u, rest := Apply(sha, s, txs[0]), txs[1..];
      assert forall i :: 0 <= i < |rest| ==> rest[i] == txs[i + 1];
      assert !txs[0].action.AddLiquidity? && !txs[0].action.RemoveLiquidity?;
      if Execute(sha, s, txs[0]).Ok? {
        if txs[0].action.SwapExactIn? { SwapStep(sha, s, txs[0], u); } else { PoolStays(sha, s, txs[0], u); }
        StepKeepsLedger(sha, s, txs[0]);
      }
      SwapsRaiseProduct(sha, u, rest);
    }
  }

  /** No trading cycle profits: if one reserve is back at or below its start, the other is strictly above. */
  lemma NoProfitableCycle(sha: Hash, s: State, txs: seq<Tx>)
    requires LedgerOk(s) && NoLiquidityChange(txs) && s.bank.pool.Some? && s.bank.pool.value.totalLp > 0
    requires Swaps(sha, s, txs) > 0
    ensures Run(sha, s, txs).bank.pool.Some?
    ensures var p, q := s.bank.pool.value, Run(sha, s, txs).bank.pool.value;
            && (q.reserve0 <= p.reserve0 ==> p.reserve1 < q.reserve1)
            && (q.reserve1 <= p.reserve1 ==> p.reserve0 < q.reserve0)
  {
    SwapsRaiseProduct(sha, s, txs);
    var p, q := s.bank.pool.value, Run(sha, s, txs).bank.pool.value;
    if q.reserve0 <= p.reserve0 && q.reserve1 <= p.reserve1 {
      MulLeBoth(q.reserve0, p.reserve0, q.reserve1, p.reserve1);
    }
  }

  /** Every transaction is a swap by one trader. */
  predicate SwapsBy(who: Address, txs: seq<Tx>) {
    forall i :: 0 <= i < |txs| ==> txs[i].actor == who && txs[i].action.SwapExactIn?
  }

  /** What the trader and the pool have of an asset together. */
  function Between(b: Amm.Bank, who: Address, asset: u8): nat { Funds(b, who, asset) + PoolHolds(b, asset) }

  /** Swaps move both assets between trader and pool alone. */
  lemma {:induction false} SwapsMoveBetween(sha: Hash, s: State, who: Address, txs: seq<Tx>, asset: u8)
    requires LedgerOk(s) && SwapsBy(who, txs) && Amm.Supported(asset) && s.bank.pool.Some?
    ensures Between(Run(sha, s, txs).bank, who, asset) == Between(s.bank, who, asset)
    decreases |txs|
  {
    if txs != [] {
      var tx, u, rest := txs[0], Apply(sha, s, txs[0]), txs[1..];
      assert forall i :: 0 <= i < |rest| ==> rest[i] == txs[i + 1];
      if Execute(sha, s, tx).Ok? {
        PoolMoves(sha, s, tx, u);
        AccountsMove(sha, s, tx, u, who, asset);
        StepKeepsLedger(sha, s, tx);
      }
      SwapsMoveBetween(sha, u, who, rest, asset);
    }
  }

  /** No trader profits: whoever swaps and ends with no less of one asset ends with strictly less of the other. */
  lemma TraderNeverProfits(sha: Hash, s: State, who: Address, txs: seq<Tx>)
    requires LedgerOk(s) && SwapsBy(who, txs) && s.bank.pool.Some? && s.bank.pool.value.totalLp > 0
    requires Swaps(sha, s, txs) > 0
    ensures var b, c := s.bank, Run(sha, s, txs).bank;
            && (Funds(b, who, Amm.VEIL) <= Funds(c, who, Amm.VEIL) ==> Funds(c, who, Amm.VAI) < Funds(b, who, Amm.VAI))
            && (Funds(b, who, Amm.VAI) <= Funds(c, who, Amm.VAI) ==> Funds(c, who, Amm.VEIL) < Funds(b, who, Amm.VEIL))
  {
    NoProfitableCycle(sha, s, txs);
    RunKeepsLedger(sha, s, txs);
    SwapsMoveBetween(sha, s, who, txs, Amm.VEIL);
    SwapsMoveBetween(sha, s, who, txs, Amm.VAI);
  }

  /**
   Depositing, then at once withdrawing the minted LP, leaves the depositor with no more of either asset,
   in whichever order the two calls name the pair.
   */
  lemma DepositWithdrawNoProfit(b: Amm.Bank, who: Address, a0: u8, a1: u8, x: u64, y: u64, minLp: u64, c: Amm.Bank,
                                w0: u8, w1: u8, minted: u64, min0: u64, min1: u64, d: Amm.Bank)
    requires BankOk(b) && Amm.AddLiquidity(b, who, a0, a1, x, y, minLp) == Ok(c)
    requires b.pool.Some? && c.pool.Some? && c.pool.value.totalLp == b.pool.value.totalLp + minted
    requires Amm.RemoveLiquidity(c, who, w0, w1, minted, min0, min1) == Ok(d)
    ensures Funds(d, who, Amm.VEIL) <= Funds(b, who, Amm.VEIL) && Funds(d, who, Amm.VAI) <= Funds(b, who, Amm.VAI)
  {
    DepositedFunds(b, who, a0, a1, x, y, minLp, c, minted);
    WithdrawnParts(c, who, w0, w1, minted, min0, min1, d);
  }

  lemma DepositedFunds(b: Amm.Bank, who: Address, a0: u8, a1: u8, x: u64, y: u64, minLp: u64, c: Amm.Bank, minted: u64)
    requires BankOk(b) && Amm.AddLiquidity(b, who, a0, a1, x, y, minLp) == Ok(c)
    requires b.pool.Some? && c.pool.Some? && c.pool.value.totalLp == b.pool.value.totalLp + minted
    ensures BankOk(c)
    ensures var parts := Amm.WithdrawalFor(c.pool.value, minted);
            parts.Ok? ==> && Funds(c, who, Amm.VEIL) + parts.value.0 <= Funds(b, who, Amm.VEIL)
                          && Funds(c, who, Amm.VAI) + parts.value.1 <= Funds(b, who, Amm.VAI)
  {
    AddLiquidityKeeps(b, who, a0, a1, x, y, minLp);
    var veil: u64, vai: u64 := if a0 == Amm.VEIL then x else y, if a0 == Amm.VEIL then y else x;
    DepositedPool(b, who, a0, a1, x, y, minLp, c);
    if Amm.WithdrawalFor(c.pool.value, minted).Ok? { RoundTripNoProfit(b.pool.value, veil, vai); }
    AddFunds(b, who, a0, a1, x, y, minLp, c, who, Amm.VEIL);
    AddFunds(b, who, a0, a1, x, y, minLp, c, who, Amm.VAI);
  }

  lemma DepositedPool(b: Amm.Bank, who: Address, a0: u8, a1: u8, x: u64, y: u64, minLp: u64, c: Amm.Bank)
    requires Amm.AddLiquidity(b, who, a0, a1, x, y, minLp) == Ok(c) && BankOk(b)
    ensures var p, veil, vai := b.pool.value, if a0 == Amm.VEIL then x else y, if a0 == Amm.VEIL then y else x;
            && a0 != a1 && (a0 == Amm.VEIL || a0 == Amm.VAI) && (a1 == Amm.VEIL || a1 == Amm.VAI)
            && x > 0 && y > 0 && Amm.LpFor(p, veil, vai).Ok? && Amm.LpFor(p, veil, vai).value > 0
            && c.pool.Some? && Amm.Deposit(p, veil, vai, Amm.LpFor(p, veil, vai).value) == Ok(c.pool.value)
  {
  }

  lemma WithdrawnParts(c: Amm.Bank, who: Address, w0: u8, w1: u8, lp: u64, min0: u64, min1: u64, d: Amm.Bank)
    requires BankOk(c) && Amm.RemoveLiquidity(c, who, w0, w1, lp, min0, min1) == Ok(d)
    ensures var parts := Amm.WithdrawalFor(c.pool.value, lp);
            && parts.Ok?
            && Funds(d, who, Amm.VEIL) == Funds(c, who, Amm.VEIL) + parts.value.0
            && Funds(d, who, Amm.VAI) == Funds(c, who, Amm.VAI) + parts.value.1
  {
    RemoveFunds(c, who, w0, w1, lp, min0, min1, d, who, Amm.VEIL);
    RemoveFunds(c, who, w0, w1, lp, min0, min1, d, who, Amm.VAI);
  }

  // ----- Rates over whole runs -----

  /** In every run from genesis, any window as long as a mint epoch mints less than twice the epoch limit. */
  lemma MintRate(sha: Hash, allocs: seq<Allocation>, t: Tokenomics, txs: seq<Tx>, from: int)
    requires ValidTokenomics(allocs, t) && Timed(0, txs) && DeadlinesFit(t.vai.mintEpochSeconds * 1_000, 0, txs)
    ensures GenesisState(allocs, t).Ok?
    ensures MintedIn(sha, GenesisState(allocs, t).value, txs, from, t.vai.mintEpochSeconds * 1_000)
            <= 2 * t.vai.epochMintLimit - 1
  {
    GenesisOk(sha, allocs, t);
    MintedWithinAllowance(sha, GenesisState(allocs, t).value, txs, 0, from);
  }

  /** In every run from genesis, n releases leave at least (1 - cap)^n locked, spread over n - 1 epochs. */
  lemma ReleaseRate(sha: Hash, allocs: seq<Allocation>, t: Tokenomics, txs: seq<Tx>)
    requires ValidTokenomics(allocs, t) && Timed(0, txs) && DeadlinesFit(t.treasury.releaseEpochSeconds * 1_000, 0, txs)
    ensures GenesisState(allocs, t).Ok?
    ensures var g := GenesisState(allocs, t).value;
            var u, times := Run(sha, g, txs).econ.treasury, ReleaseTimes(sha, g, txs);
            && t.locked * Power(BIPS - t.treasury.maxReleaseBips, |times|) <= u.locked * Power(BIPS, |times|)
            && u.locked + u.live == t.locked + t.live && u.locked + u.released == t.locked
            && (times != [] ==>
                  (|times| - 1) * (t.treasury.releaseEpochSeconds * 1_000) <= times[|times| - 1] - times[0])
  {
    GenesisOk(sha, allocs, t);
    var g := GenesisState(allocs, t).value;
    LockedDecay(sha, g, txs);
    ReleasesSpaced(sha, g, txs, 0);
  }

  /** A run that loses the backing floor loses it in a successful governance step, and the lemma names that step. */
  lemma {:induction false} BackingLost(sha: Hash, s: State, txs: seq<Tx>) returns (i: nat)
    requires IsBacked(s) && !IsBacked(Run(sha, s, txs))
    ensures i < |txs| && (txs[i].action.UpdateReserve? || txs[i].action.SetRiskParams?)
    ensures var u := Run(sha, s, txs[..i]);
            && IsBacked(u) && IsGovernance(u, txs[i].actor)
            && Execute(sha, u, txs[i]).Ok? && !IsBacked(Execute(sha, u, txs[i]).value)
    decreases |txs|
  {
    var u, rest := Apply(sha, s, txs[0]), txs[1..];
    if Execute(sha, s, txs[0]).Ok? { BackingStep(sha, s, txs[0]); }
    if IsBacked(u) {
      var j := BackingLost(sha, u, rest);
      i := j + 1;
      assert txs[i] == rest[j] && txs[..i][0] == txs[0] && txs[..i][1..] == rest[..j];
    } else {
      i := 0;
      assert txs[..0] == [];
    }
  }
}
