/** The mutable store, with one method per action, refining the state machine of module Chain. */
module Store {
  import opened Words
  import opened Wire
  import opened Balances
  import opened IntegerRoot
  import opened Economy
  import opened Preimage
  import opened Chain
  import opened Genesis
  import opened PoolProofs
  import opened LedgerProofs
  import opened MarketProofs
  import opened Verifier
  import Amm
  import Clearing

  /** An operation behaved as specified: same verdict, and on success the specified value. */
  ghost predicate Refines<S, T>(spec: Result<S>, r: Result<T>, after: S) {
    match spec
    case Ok(t) => r.Ok? && after == t
    case Err(e) => r.Err? && r.error == e
  }

  /** Only the entry at k differs, and it is there afterwards. */
  ghost predicate ChangedAt<K, V>(m: map<K, V>, n: map<K, V>, k: K) {
    n.Keys == m.Keys + {k} && forall j :: j in m && j != k ==> n[j] == m[j]
  }

  /** What a swap does once its direction is known. */
  function SwapFor(b: Amm.Bank, p: Amm.Pool, forward: bool, actor: Address, i: u8, o: u8, amountIn: u64, minOut: u64)
    : Result<Amm.Bank>
  {
    var rin, rout := if forward then p.reserve0 else p.reserve1, if forward then p.reserve1 else p.reserve0;
    var b1 :- Amm.DebitAsset(b, actor, i, amountIn);
    var out :- Amm.SwapOutput(rin, rout, p.feeBips, amountIn, minOut);
    var next :- Amm.Trade(p, forward, amountIn, out);
    Amm.CreditAsset(b1.(pool := Some(next)), actor, o, out)
  }

  lemma SwapUnfolds(b: Amm.Bank, forward: bool, actor: Address, i: u8, o: u8, amountIn: u64, minOut: u64)
    requires Amm.ValidatePair(i, o).Pass? && amountIn != 0 && b.pool.Some?
    requires Amm.SwapDirection(b.pool.value, i, o) == Ok(forward)
    requires b.pool.value.reserve0 != 0 && b.pool.value.reserve1 != 0
    ensures Amm.SwapExactIn(b, actor, i, o, amountIn, minOut)
            == SwapFor(b, b.pool.value, forward, actor, i, o, amountIn, minOut)
  {
  }

  class Store {
    var veil: Accounts
    var vai: Accounts
    var lp: Accounts
    var pool: Option<Amm.Pool>
    const treasuryCfg: TreasuryConfig
    var treasury: Treasury
    const feeCfg: FeeConfig
    var fees: Fees
    const vaiCfg: VaiConfig
    var vaiState: Vai
    var risk: Risk
    var reserve: Reserve
    var proofCfg: Clearing.ProofConfig
    var markets: map<Id, Clearing.Market>
    var orders: map<Clearing.OrderSlot, Bytes>
    var oracle: map<Clearing.OracleSlot, Bytes>
    var batches: map<Clearing.Slot, Clearing.BatchResult>
    var records: map<Clearing.Slot, Clearing.Record>
    var blobs: map<Clearing.Slot, Bytes>
    var sworn: map<Address, Clearing.Bloodsworn>
    var glyphs: map<Clearing.Slot, Clearing.Glyph>

    function Bank(): Amm.Bank
      reads this`veil, this`vai, this`lp, this`pool
    {
      Amm.Bank(veil, vai, lp, pool)
    }

    function Economy(): Econ
      reads this`treasury, this`fees, this`vaiState, this`risk, this`reserve
    {
      Econ(treasuryCfg, treasury, feeCfg, fees, vaiCfg, vaiState, risk, reserve)
    }

    function Proofs(): Clearing.Proofs
      reads this`records, this`blobs, this`sworn, this`glyphs
    {
      Clearing.Proofs(records, blobs, sworn, glyphs)
    }

    function Board(): Clearing.Board
      reads this`proofCfg, this`markets, this`orders, this`oracle, this`batches
      reads this`records, this`blobs, this`sworn, this`glyphs
    {
      Clearing.Board(proofCfg, markets, orders, oracle, batches, Proofs())
    }

    /** The store as a value. */
    function View(): State
      reads this
    {
      State(Bank(), Economy(), Board())
    }

    constructor (s: State)
      ensures View() == s
    {
      veil, vai, lp, pool := s.bank.veil, s.bank.vai, s.bank.lp, s.bank.pool;
      treasuryCfg, treasury, feeCfg, fees := s.econ.treasuryCfg, s.econ.treasury, s.econ.feeCfg, s.econ.fees;
      vaiCfg, vaiState, risk, reserve := s.econ.vaiCfg, s.econ.vai, s.econ.risk, s.econ.reserve;
      proofCfg, markets, orders, oracle := s.board.config, s.board.markets, s.board.orders, s.board.oracle;
      batches, records, blobs := s.board.batches, s.board.proofs.records, s.board.proofs.blobs;
      sworn, glyphs := s.board.proofs.sworn, s.board.proofs.glyphs;
    }

    // ----- Rollback -----

    method RestoreBank(b: Amm.Bank)
      modifies this`veil, this`vai, this`lp, this`pool
      ensures Bank() == b
    {
      veil, vai, lp, pool := b.veil, b.vai, b.lp, b.pool;
    }

    method RestoreEconomy(e: Econ)
      requires e.treasuryCfg == treasuryCfg && e.feeCfg == feeCfg && e.vaiCfg == vaiCfg
      modifies this`treasury, this`fees, this`vaiState, this`risk, this`reserve
      ensures Economy() == e
    {
      treasury, fees, vaiState, risk, reserve := e.treasury, e.fees, e.vai, e.risk, e.reserve;
    }

    method RestoreBoard(b: Clearing.Board)
      modifies this`proofCfg, this`markets, this`orders, this`oracle, this`batches
      modifies this`records, this`blobs, this`sworn, this`glyphs
      ensures Board() == b
    {
      proofCfg, markets, orders, oracle, batches := b.config, b.markets, b.orders, b.oracle, b.batches;
      records, blobs, sworn, glyphs := b.proofs.records, b.proofs.blobs, b.proofs.sworn, b.proofs.glyphs;
    }

    /** Put every key back. */
    method Rollback(s: State)
      requires s.econ.treasuryCfg == treasuryCfg && s.econ.feeCfg == feeCfg && s.econ.vaiCfg == vaiCfg
      modifies this
      ensures View() == s
    {
      RestoreBank(s.bank);
      RestoreEconomy(s.econ);
      RestoreBoard(s.board);
    }

    /** Build the store of a valid genesis: credit the allocations one by one, validate, write the singletons. */
    static method InitializeState(allocs: seq<Allocation>, t: Tokenomics) returns (r: Result<Store>)
      ensures r.Ok? <==> GenesisState(allocs, t).Ok?
      ensures r.Ok? ==> fresh(r.value) && r.value.View() == GenesisState(allocs, t).value
      ensures r.Ok? ==> r.value.treasuryCfg == t.treasury && r.value.feeCfg == t.fees && r.value.vaiCfg == t.vai
      ensures r.Ok? ==> r.value.risk == t.risk && r.value.reserve == t.reserve && r.value.proofCfg == t.proof
      ensures r.Ok? ==> r.value.treasury.locked == t.locked && r.value.treasury.live == t.live
    {
      var m: Accounts := map[];
      for i := 0 to |allocs|
        invariant CreditAll(map[], allocs[..i]) == Ok(m)
      {
        assert allocs[..i + 1][..i] == allocs[..i];
        var credited := Credit(m, allocs[i].address, allocs[i].balance);
        if credited.Err? {
          CreditAllPrefix(allocs, i + 1);
          return Err(credited.error);
        }
        m := credited.value;
      }
      assert allocs[..|allocs|] == allocs;
      var valid := ValidateTokenomics(allocs, t);
      if valid.Fail? {
        return Err(valid.error);
      }
      var store := new Store(State(Amm.Bank(m, map[], map[], None), InitialEcon(t), InitialBoard(t)));
      return Ok(store);
    }

    // ----- Balances -----

    method SubAssetBalance(who: Address, asset: u8, amount: u64) returns (r: Result<u64>)
      modifies this`veil, this`vai
      ensures Refines(Amm.DebitAsset(old(Bank()), who, asset, amount), r, Bank())
      ensures r.Ok? ==> r.value == Balance(if asset == Amm.VEIL then veil else vai, who)
    {
      if asset != Amm.VEIL && asset != Amm.VAI {
        return Err(UnsupportedAsset);
      }
      var m := if asset == Amm.VEIL then veil else vai;
      if who !in m {
        return Err(InvalidBalance);
      }
      if m[who] < amount {
        return Err(InvalidBalance);
      }
      var left: u64 := m[who] - amount;
      if left == 0 {
        m := m - {who};
      } else {
        m := m[who := left];
      }
      if asset == Amm.VEIL { veil := m; } else { vai := m; }
      return Ok(left);
    }

    method AddAssetBalance(who: Address, asset: u8, amount: u64) returns (r: Result<u64>)
      modifies this`veil, this`vai
      ensures Refines(Amm.CreditAsset(old(Bank()), who, asset, amount), r, Bank())
      ensures r.Ok? ==> r.value == Balance(if asset == Amm.VEIL then veil else vai, who)
    {
      if asset != Amm.VEIL && asset != Amm.VAI {
        return Err(UnsupportedAsset);
      }
      var m := if asset == Amm.VEIL then veil else vai;
      var sum := CheckedAdd(Balance(m, who), amount);
      if sum.Err? {
        return Err(InvalidBalance);
      }
      m := m[who := sum.value];
      if asset == Amm.VEIL { veil := m; } else { vai := m; }
      return Ok(sum.value);
    }

    method Transfer(actor: Address, to: Address, value: u64, memo: Bytes) returns (r: Result<()>)
      modifies this`veil, this`vai
      ensures Refines(Amm.Transfer(old(Bank()), actor, to, value, |memo|), r, Bank())
    {
      if value == 0 {
        return Err(InvalidValue);
      }
      :- Need(|memo| <= 256, MemoTooLarge);
      var _ :- SubAssetBalance(actor, Amm.VEIL, value);
      var _ :- AddAssetBalance(to, Amm.VEIL, value);
      return Ok(());
    }

    method DeductFee(sponsor: Address, amount: u64) returns (r: Result<()>)
      modifies this`veil, this`vai
      ensures Refines(Amm.DebitAsset(old(Bank()), sponsor, Amm.VEIL, amount), r, Bank())
    {
      var _ :- SubAssetBalance(sponsor, Amm.VEIL, amount);
      return Ok(());
    }

    // ----- Pool -----

    method CreatePool(actor: Address, a0: u8, a1: u8, feeBips: u16) returns (r: Result<()>)
      modifies this`pool
      ensures Refines(Amm.CreatePool(old(Bank()), actor == treasuryCfg.governance, a0, a1, feeBips), r, Bank())
      ensures r.Ok? ==> old(pool).None? && pool.Some? && PoolOk(pool.value) && pool.value.totalLp == 0
      ensures r.Err? ==> pool == old(pool)
    {
      var supported := Amm.ValidatePair(a0, a1);
      :- supported;
      :- Need(Amm.MIN_FEE_BIPS <= feeBips <= Amm.MAX_FEE_BIPS, InvalidPoolFee);
      :- Need(actor == treasuryCfg.governance, Unauthorized);
      :- Need(pool.None?, PoolExists);
      var (lo, hi) := Amm.SortedPair(a0, a1);
      pool := Some(Amm.Pool(lo, hi, feeBips, 0, 0, 0));
      return Ok(());
    }

    /** LP tokens for a deposit: the square root on the first one, the smaller proportional share later. */
    static method MintedFor(p: Amm.Pool, x: u64, y: u64) returns (r: Result<u64>)
      ensures r == Amm.LpFor(p, x, y)
    {
      if p.totalLp == 0 {
        var product :- CheckedMul(x, y);
        r := IntSqrt(product);
        Amm.RootFits(product);
        return;
      }
      :- Need(p.reserve0 != 0 && p.reserve1 != 0, InsufficientLiquidity);
      var lp0 :- MulDiv(x, p.totalLp, p.reserve0);
      var lp1 :- MulDiv(y, p.totalLp, p.reserve1);
      if lp0 < lp1 {
        return Ok(lp0);
      }
      return Ok(lp1);
    }

    /** Returns the LP tokens minted: what the LP supply grew by. */
    method AddLiquidity(actor: Address, a0: u8, a1: u8, amount0: u64, amount1: u64, minLp: u64)
      returns (r: Result<u64>)
      modifies this`veil, this`vai, this`lp, this`pool
      ensures Refines(Amm.AddLiquidity(old(Bank()), actor, a0, a1, amount0, amount1, minLp), r, Bank())
      ensures r.Ok? ==> old(pool).Some? && pool.Some? && pool.value.totalLp == old(pool).value.totalLp + r.value
    {
      var supported := Amm.ValidatePair(a0, a1);
      :- supported;
      :- Need(amount0 != 0 && amount1 != 0, InvalidLiquidityAmount);
      :- Need(pool.Some?, PoolNotFound);
      var p := pool.value;
      var pair :- Amm.PairToPool(p, a0, a1, amount0, amount1);
      var _ :- SubAssetBalance(actor, a0, amount0);
      var _ :- SubAssetBalance(actor, a1, amount1);
      var minted :- MintedFor(p, pair.0, pair.1);
      :- Need(minted != 0 && minted >= minLp, SlippageExceeded);
      var next :- Amm.Deposit(p, pair.0, pair.1, minted);
      pool := Some(next);
      var shares :- Credit(lp, actor, minted);
      lp := shares;
      return Ok(minted);
    }

    /** Returns what was paid out of each named asset: what the pool's holdings fell by. */
    method RemoveLiquidity(actor: Address, a0: u8, a1: u8, amount: u64, min0: u64, min1: u64)
      returns (r: Result<(u64, u64)>)
      modifies this`veil, this`vai, this`lp, this`pool
      ensures Refines(Amm.RemoveLiquidity(old(Bank()), actor, a0, a1, amount, min0, min1), r, Bank())
      ensures r.Ok? ==>
                && PoolHolds(Bank(), a0) + r.value.0 == PoolHolds(old(Bank()), a0)
                && PoolHolds(Bank(), a1) + r.value.1 == PoolHolds(old(Bank()), a1)
    {
      var supported := Amm.ValidatePair(a0, a1);
      :- supported;
      :- Need(amount != 0, InvalidLiquidityAmount);
      :- Need(pool.Some?, PoolNotFound);
      var p := pool.value;
      :- Need(p.totalLp != 0 && p.reserve0 != 0 && p.reserve1 != 0, InsufficientLiquidity);
      :- Need(amount <= Balance(lp, actor), InsufficientLPBalance);
      var out :- Amm.WithdrawalFor(p, amount);
      var least :- Amm.PairToPool(p, a0, a1, min0, min1);
      :- Need(least.0 <= out.0 && least.1 <= out.1, SlippageExceeded);
      var next :- Amm.Withdraw(p, amount, out.0, out.1);
      pool := Some(next);
      var shares :- Debit(lp, actor, amount);
      lp := shares;
      var _ :- AddAssetBalance(actor, p.asset0, out.0);
      var _ :- AddAssetBalance(actor, p.asset1, out.1);
      r := Amm.PoolToPair(p, a0, a1, out.0, out.1);
    }

    /** Returns the amount paid out: what the pool's holding of assetOut fell by. */
    method SwapExactIn(actor: Address, assetIn: u8, assetOut: u8, amountIn: u64, minOut: u64)
      returns (r: Result<u64>)
      modifies this`veil, this`vai, this`lp, this`pool
      ensures Refines(Amm.SwapExactIn(old(Bank()), actor, assetIn, assetOut, amountIn, minOut), r, Bank())
      ensures r.Ok? ==>
                && PoolHolds(Bank(), assetIn) == PoolHolds(old(Bank()), assetIn) + amountIn
                && PoolHolds(Bank(), assetOut) + r.value == PoolHolds(old(Bank()), assetOut)
                && pool.Some? && old(pool).Some? && pool.value.feeBips == old(pool).value.feeBips
                && pool.value.totalLp == old(pool).value.totalLp && lp == old(lp)
    {
      var supported := Amm.ValidatePair(assetIn, assetOut);
      :- supported;
      :- Need(amountIn != 0, InvalidSwapAmount);
      :- Need(pool.Some?, PoolNotFound);
      var p := pool.value;
      var reserveIn: u64, reserveOut: u64, inIs0 := 0, 0, false;
      if p.asset0 == assetIn && p.asset1 == assetOut {
        inIs0, reserveIn, reserveOut := true, p.reserve0, p.reserve1;
      } else if p.asset0 == assetOut && p.asset1 == assetIn {
        reserveIn, reserveOut := p.reserve1, p.reserve0;
      } else {
        return Err(InvalidAssetPair);
      }
      :- Need(reserveIn != 0 && reserveOut != 0, InsufficientLiquidity);
      SwapUnfolds(Bank(), inIs0, actor, assetIn, assetOut, amountIn, minOut);
      r := SwapFrom(p, inIs0, actor, assetIn, assetOut, amountIn, minOut);
    }

    /** Take the input, price it, write the traded pool and pay the output. */
    method SwapFrom(p: Amm.Pool, inIs0: bool, actor: Address, assetIn: u8, assetOut: u8, amountIn: u64, minOut: u64)
      returns (r: Result<u64>)
      modifies this`veil, this`vai, this`pool
      ensures Refines(SwapFor(old(Bank()), p, inIs0, actor, assetIn, assetOut, amountIn, minOut), r, Bank())
      ensures r.Ok? ==> pool.Some? && Amm.Trade(p, inIs0, amountIn, r.value) == Ok(pool.value)
    {
      var reserveIn, reserveOut := if inIs0 then p.reserve0 else p.reserve1, if inIs0 then p.reserve1 else p.reserve0;
      var _ :- SubAssetBalance(actor, assetIn, amountIn);
      var out :- Amm.SwapOutput(reserveIn, reserveOut, p.feeBips, amountIn, minOut);
      var next :- Amm.Trade(p, inIs0, amountIn, out);
      var _ :- SettleSwap(next, actor, assetOut, out);
      return Ok(out);
    }

    /** Write the traded pool and pay the trader. */
    method SettleSwap(next: Amm.Pool, actor: Address, assetOut: u8, out: u64) returns (r: Result<u64>)
      modifies this`veil, this`vai, this`pool
      ensures Refines(Amm.CreditAsset(old(Bank()).(pool := Some(next)), actor, assetOut, out), r, Bank())
      ensures pool == Some(next)
    {
      pool := Some(next);
      r := AddAssetBalance(actor, assetOut, out);
    }

    // ----- Economy -----

    method RouteFees(actor: Address, amount: u64) returns (r: Result<()>)
      modifies this`veil, this`vai, this`fees
      ensures Refines(FeesRouted(old(View()), actor, amount), r, View())
      ensures r.Ok? ==>
                && fees.msrb == old(fees).msrb + Share(feeCfg.msrbBips, amount)
                && fees.col == old(fees).col + Share(feeCfg.colBips, amount)
    {
      if amount == 0 {
        return Err(InvalidFeeAmount);
      }
      :- Need(ValidFeeConfig(feeCfg), InvalidFeeRouterConfig);
      var state := fees;
      var _ :- SubAssetBalance(actor, Amm.VEIL, amount);
      var msrb := WrapMul(feeCfg.msrbBips, amount) / 10_000;
      var col := WrapMul(feeCfg.colBips, amount) / 10_000;
      var ops := (amount - msrb - col) % TWO_64;
      var nextMsrb :- CheckedAdd(state.msrb, msrb);
      var nextCol :- CheckedAdd(state.col, col);
      var nextOps :- CheckedAdd(state.ops, ops);
      fees := Fees(nextMsrb, nextCol, nextOps);
      return Ok(());
    }

    method ReleaseTranche(actor: Address, now: i64, amount: u64) returns (r: Result<()>)
      modifies this`treasury
      ensures Refines(TrancheReleased(old(View()), actor, now, amount), r, View())
    {
      var t := treasury;
      :- Need(amount != 0, InvalidReleaseAmount);
      :- Need(actor == treasuryCfg.governance, Unauthorized);
      var nextAllowed := NextRelease(treasuryCfg, t);
      if t.lastReleaseMs > 0 && now < nextAllowed {
        return Err(ReleaseTooEarly);
      }
      :- Need(amount <= t.locked, InsufficientLockedCOL);
      var cap := ReleaseCap(treasuryCfg, t);
      if cap == 0 || amount > cap {
        return Err(ReleaseCapExceeded);
      }
      t := t.(locked := t.locked - amount);
      var live :- CheckedAdd(t.live, amount);
      var released :- CheckedAdd(t.released, amount);
      treasury := t.(live := live, released := released, lastReleaseMs := now);
      return Ok(());
    }

    /** Throttle, ceiling and backing checks of a mint, and the stablecoin state it would leave; it only reads. */
    method NextVai(actor: Address, now: i64, amount: u64) returns (r: Result<Vai>)
      ensures r == Mint(vaiCfg, vaiState, risk, reserve, actor, now, amount)
    {
      if amount == 0 {
        return Err(InvalidVAIAmount);
      }
      :- Need(actor == vaiCfg.mintAuthority, Unauthorized);
      var v := vaiState;
      if v.epochStart == 0 {
        v := v.(epochStart := now);
      }
      if now >= EpochEnd(vaiCfg, v.epochStart) {
        v := v.(epochStart := now, epochMinted := 0);
      }
      var minted :- CheckedAdd(v.epochMinted, amount);
      :- Need(minted <= vaiCfg.epochMintLimit, EpochMintLimitExceeded);
      var debt :- CheckedAdd(v.totalDebt, amount);
      :- Need(debt <= vaiCfg.debtCeiling, DebtCeilingExceeded);
      :- Need(ValidRisk(risk), InvalidRiskConfig);
      if debt > 0 && !Backed(debt, risk, reserve) {
        return Err(BackingRatioViolation);
      }
      return Ok(v.(epochMinted := minted, totalDebt := debt));
    }

    method MintVai(actor: Address, now: i64, to: Address, amount: u64) returns (r: Result<()>)
      modifies this`veil, this`vai, this`vaiState
      ensures Refines(VaiMinted(old(View()), actor, now, to, amount), r, View())
    {
      var v :- NextVai(actor, now, amount);
      var _ :- AddAssetBalance(to, Amm.VAI, amount);
      vaiState := v;
      return Ok(());
    }

    method BurnVai(actor: Address, amount: u64) returns (r: Result<()>)
      modifies this`veil, this`vai, this`vaiState
      ensures Refines(VaiBurned(old(View()), actor, amount), r, View())
    {
      if amount == 0 {
        return Err(InvalidVAIAmount);
      }
      var _ :- SubAssetBalance(actor, Amm.VAI, amount);
      :- Need(amount <= vaiState.totalDebt, DebtInvariant);
      vaiState := vaiState.(totalDebt := vaiState.totalDebt - amount);
      return Ok(());
    }

    // ----- Markets and clearing -----

    method CreateMarket(actor: Address, id: Id, outcomes: u8, time: i64, bond: u64, question: Bytes)
      returns (r: Result<()>)
      modifies this`veil, this`vai, this`markets
      ensures Refines(Bonded(old(View()), actor, bond,
                             Clearing.CreateMarket(old(Board()), id, outcomes, time, bond, question)), r, View())
      ensures r.Ok? ==> id !in old(markets) && ChangedAt(old(markets), markets, id)
      ensures r.Ok? ==> markets[id].status == Clearing.ACTIVE
      ensures r.Ok? ==> Balance(veil, actor) + bond == Balance(old(veil), actor)
      ensures r.Err? ==> markets == old(markets)
    {
      if outcomes < 2 {
        return Err(InvalidOutcomes);
      }
      :- Need(time > 0, InvalidResolutionTime);
      :- Need(bond != 0, BondZero);
      :- Need(|question| <= Clearing.MAX_QUESTION, TooLarge);
      :- Need(id !in markets, MarketExists);
      r := OpenMarket(actor, id, Clearing.Market(Clearing.ACTIVE, outcomes, time, 0, question), bond);
    }

    /** Take the bond, then write the market. */
    method OpenMarket(actor: Address, id: Id, market: Clearing.Market, bond: u64) returns (r: Result<()>)
      modifies this`veil, this`vai, this`markets
      ensures Refines(Amm.DebitAsset(old(Bank()), actor, Amm.VEIL, bond), r, Bank())
      ensures r.Ok? ==> markets == old(markets)[id := market] && ChangedAt(old(markets), markets, id)
      ensures r.Ok? ==> Balance(veil, actor) + bond == Balance(old(veil), actor)
      ensures r.Err? ==> markets == old(markets)
    {
      var _ :- SubAssetBalance(actor, Amm.VEIL, bond);
      markets := markets[id := market];
      return Ok(());
    }

    method ResolveMarket(id: Id, outcome: u8, signature: Bytes) returns (r: Result<()>)
      modifies this`markets
      ensures Refines(Clearing.ResolveMarket(old(Board()), id, outcome, signature), r, Board())
      ensures r.Ok? ==> id in old(markets) && ChangedAt(old(markets), markets, id)
      ensures r.Ok? ==> old(markets)[id].status == Clearing.ACTIVE && MarketEvolves(old(markets)[id], markets[id])
      ensures r.Ok? ==> markets[id].status == Clearing.RESOLVED
      ensures r.Ok? ==> markets[id].resolvedOutcome == outcome < markets[id].outcomes
      ensures r.Err? ==> markets == old(markets)
    {
      if |signature| == 0 {
        return Err(Empty);
      }
      :- Need(|signature| <= Clearing.MAX_SIGNATURE, TooLarge);
      :- Clearing.NeedActive(Board(), id);
      var m := markets[id];
      :- Need(outcome < m.outcomes, InvalidOutcome);
      markets := markets[id := m.(status := Clearing.RESOLVED, resolvedOutcome := outcome)];
      return Ok(());
    }

    method Dispute(actor: Address, id: Id, bond: u64, evidence: Bytes) returns (r: Result<()>)
      modifies this`veil, this`vai, this`markets, this`oracle
      ensures Refines(Bonded(old(View()), actor, bond, Clearing.Dispute(old(Board()), id, bond, evidence)), r, View())
      ensures r.Ok? ==> id in old(markets) && ChangedAt(old(markets), markets, id)
      ensures r.Ok? ==> MarketEvolves(old(markets)[id], markets[id])
      ensures r.Ok? ==> ChangedAt(old(oracle), oracle, Clearing.OracleSlot(id, Clearing.DISPUTE_INDEX))
      ensures r.Ok? ==> Balance(veil, actor) + bond == Balance(old(veil), actor)
      ensures r.Err? ==> markets == old(markets) && oracle == old(oracle)
    {
      if bond == 0 {
        return Err(BondZero);
      }
      :- Need(|evidence| != 0, Empty);
      :- Need(|evidence| <= Clearing.MAX_EVIDENCE, TooLarge);
      :- Need(id in markets, MarketNotFound);
      :- Need(markets[id].status == Clearing.RESOLVED, MarketNotResolved);
      r := FileDispute(actor, id, bond, evidence);
    }

    /** Take the bond, then write the new status and the dispute. */
    method FileDispute(actor: Address, id: Id, bond: u64, evidence: Bytes) returns (r: Result<()>)
      requires id in markets
      modifies this`veil, this`vai, this`markets, this`oracle
      ensures Refines(Amm.DebitAsset(old(Bank()), actor, Amm.VEIL, bond), r, Bank())
      ensures r.Ok? ==> markets == old(markets)[id := old(markets)[id].(status := Clearing.DISPUTED)]
      ensures r.Ok? ==> var k := Clearing.OracleSlot(id, Clearing.DISPUTE_INDEX);
                        oracle == old(oracle)[k := Clearing.DisputeEntry(bond, evidence)]
      ensures r.Ok? ==> ChangedAt(old(markets), markets, id)
      ensures r.Ok? ==> ChangedAt(old(oracle), oracle, Clearing.OracleSlot(id, Clearing.DISPUTE_INDEX))
      ensures r.Ok? ==> Balance(veil, actor) + bond == Balance(old(veil), actor)
      ensures r.Err? ==> markets == old(markets) && oracle == old(oracle)
    {
      var _ :- SubAssetBalance(actor, Amm.VEIL, bond);
      markets := markets[id := markets[id].(status := Clearing.DISPUTED)];
      oracle := oracle[Clearing.OracleSlot(id, Clearing.DISPUTE_INDEX) := Clearing.DisputeEntry(bond, evidence)];
      return Ok(());
    }

    method CommitOrder(trader: Address, slot: Clearing.Slot, envelope: Bytes, commitment: Bytes) returns (r: Result<()>)
      modifies this`orders
      ensures Refines(Clearing.CommitOrder(old(Board()), trader, slot, envelope, commitment), r, Board())
      ensures r.Ok? ==> slot.market in markets && markets[slot.market].status == Clearing.ACTIVE
      ensures r.Ok? ==> ChangedAt(old(orders), orders, Clearing.OrderSlot(slot.market, slot.window, trader))
      ensures r.Err? ==> orders == old(orders)
    {
      if |envelope| == 0 {
        return Err(Empty);
      }
      :- Need(|envelope| <= Clearing.MAX_ORDER_ENVELOPE, TooLarge);
      :- Need(|commitment| != 0, Empty);
      :- Need(|commitment| <= Clearing.MAX_COMMITMENT, TooLarge);
      :- Clearing.NeedActive(Board(), slot.market);
      orders := orders[Clearing.OrderSlot(slot.market, slot.window, trader) := commitment + envelope];
      return Ok(());
    }

    method RevealBatch(slot: Clearing.Slot, index: u32, share: Bytes) returns (r: Result<()>)
      modifies this`oracle
      ensures Refines(Clearing.RevealBatch(old(Board()), slot, index, share), r, Board())
      ensures r.Ok? ==> slot.market in markets && markets[slot.market].status == Clearing.ACTIVE
      ensures r.Ok? ==> ChangedAt(old(oracle), oracle, Clearing.OracleSlot(slot.market, index))
      ensures r.Err? ==> oracle == old(oracle)
    {
      if |share| == 0 {
        return Err(Empty);
      }
      :- Need(|share| <= Clearing.MAX_SHARE, TooLarge);
      :- Clearing.NeedActive(Board(), slot.market);
      oracle := oracle[Clearing.OracleSlot(slot.market, index) := U64(slot.window) + share];
      return Ok(());
    }

    method ClearBatch(sha: Hash, setup: Setup, actor: Address, x: Clear) returns (r: Result<()>)
      modifies this`batches
      ensures Refines(Clearing.ClearBatch(sha, setup, old(Board()), actor, x), r, Board())
      ensures r.Ok? ==> ChangedAt(old(batches), batches, Clearing.Slot(x.market, x.window))
      ensures r.Ok? ==> var b := batches[Clearing.Slot(x.market, x.window)];
                        b.price == x.price && b.volume == x.volume && b.fillsHash == x.fills
      ensures r.Err? ==> batches == old(batches)
    {
      if x.price == 0 {
        return Err(ClearPriceZero);
      }
      :- Need(|x.fills| != 0, Empty);
      :- Need(|x.fills| <= 64, TooLarge);
      :- Need(|x.fills| == Clearing.HASH_SIZE, WrongSize);
      :- Clearing.NeedActive(Board(), x.market);
      :- Need(Clearing.ValidConfig(proofCfg), InvalidProofConfig);
      if proofCfg.requireProof {
        :- Clearing.CheckProof(sha, setup, Board(), actor, x);
      }
      batches := batches[Clearing.Slot(x.market, x.window) := Clearing.BatchResult(x.price, x.volume, x.fills)];
      return Ok(());
    }

    method SubmitBatchProof(sha: Hash, setup: Setup, actor: Address, now: i64, id: Id, a: Clearing.Submission)
      returns (r: Result<()>)
      modifies this`records, this`blobs, this`sworn, this`glyphs
      ensures Refines(Clearing.SubmitProof(sha, setup, old(Board()), actor, now, id, a), r, Board())
      ensures r.Ok? ==> a.slot !in old(records) && a.slot in records && a.slot in blobs
      ensures r.Ok? ==> records[a.slot].submittedAtMs == now && records[a.slot].windowCloseAtMs == a.windowCloseAtMs
      ensures r.Ok? ==> blobs[a.slot] == a.proof
    {
      var accepted := Clearing.CheckSubmission(setup, Board(), actor, now, a);
      :- accepted;
      RecordProof(sha, actor, now, id, a);
      return Ok(());
    }

    /** Write record, blob, prover counter and glyph. */
    method RecordProof(sha: Hash, actor: Address, now: i64, id: Id, a: Clearing.Submission)
      modifies this`records, this`blobs, this`sworn, this`glyphs
      ensures Proofs() == Clearing.Recorded(sha, old(Proofs()), actor, now, id, a)
      ensures ChangedAt(old(records), records, a.slot) && ChangedAt(old(blobs), blobs, a.slot)
      ensures ChangedAt(old(glyphs), glyphs, a.slot) && ChangedAt(old(sworn), sworn, actor)
      ensures records[a.slot] == Clearing.Record(a.proofType, now, a.windowCloseAtMs, actor, sha(a.proof),
                                                 a.publicInputsHash, a.fillsHash)
      ensures blobs[a.slot] == a.proof && sworn[actor].lastProofAtMs == now && glyphs[a.slot].createdAtMs == now
    {
      var commitment := sha(a.proof);
      records := records[a.slot :=
        Clearing.Record(a.proofType, now, a.windowCloseAtMs, actor, commitment, a.publicInputsHash, a.fillsHash)];
      blobs := blobs[a.slot := a.proof];
      var w := if actor in sworn then sworn[actor] else Clearing.Bloodsworn(0, 0, 0, 0);
      w := w.(accepted := (w.accepted + 1) % TWO_64);
      w := w.(streak := (w.streak + 1) % TWO_64);
      w := w.(lastProofAtMs := now);
      sworn := sworn[actor := w];
      var glyph := Clearing.DeriveGlyph(sha, id, a.slot, actor, commitment, a.publicInputsHash, now);
      glyphs := glyphs[a.slot := glyph];
    }

    method SetProofConfig(actor: Address, c: Clearing.ProofConfig) returns (r: Result<()>)
      modifies this`proofCfg
      ensures Refines(Clearing.SetConfig(old(Board()), actor == treasuryCfg.governance, c), r, Board())
      ensures r.Ok? <==> actor == treasuryCfg.governance && Clearing.ValidConfig(c)
      ensures proofCfg == if r.Ok? then c else old(proofCfg)
    {
      if actor != treasuryCfg.governance {
        return Err(Unauthorized);
      }
      :- Need(Clearing.ValidConfig(c), InvalidProofConfig);
      proofCfg := c;
      return Ok(());
    }

    // ----- Transactions -----

    /** Dispatch on the action; a failing action may leave partial writes behind. */
    method Dispatch(sha: Hash, tx: Tx) returns (r: Result<()>)
      modifies this
      ensures Refines(Execute(sha, old(View()), tx), r, View())
    {
      if BankAction(tx.action) {
        r := DispatchBank(tx);
      } else if EconAction(tx.action) {
        r := DispatchEconomy(tx);
      } else {
        r := DispatchBoard(sha, tx);
      }
    }

    method DispatchBank(tx: Tx) returns (r: Result<()>)
      requires BankAction(tx.action)
      modifies this`veil, this`vai, this`lp, this`pool
      ensures Refines(BankStep(old(Bank()), tx.actor == treasuryCfg.governance, tx.actor, tx.action), r, Bank())
    {
      match tx.action
      case Transfer(to, value, memo) => r := Transfer(tx.actor, to, value, memo);
      case CreatePool(a0, a1, fee) => r := CreatePool(tx.actor, a0, a1, fee);
      case AddLiquidity(a0, a1, x, y, minLp) =>
        var _ :- AddLiquidity(tx.actor, a0, a1, x, y, minLp);
        r := Ok(());
      case RemoveLiquidity(a0, a1, amount, min0, min1) =>
        var _ :- RemoveLiquidity(tx.actor, a0, a1, amount, min0, min1);
        r := Ok(());
      case SwapExactIn(i, o, amountIn, minOut) =>
        var _ :- SwapExactIn(tx.actor, i, o, amountIn, minOut);
        r := Ok(());
      case DeductFee(amount) => r := DeductFee(tx.actor, amount);
    }

    method DispatchEconomy(tx: Tx) returns (r: Result<()>)
      requires EconAction(tx.action)
      modifies this
      ensures Refines(EconStep(old(View()), tx.actor, tx.now, tx.action), r, View())
    {
      match tx.action
      case RouteFees(amount) => r := RouteFees(tx.actor, amount);
      case ReleaseTranche(amount) => r := ReleaseTranche(tx.actor, tx.now, amount);
      case MintVai(to, amount) => r := MintVai(tx.actor, tx.now, to, amount);
      case BurnVai(amount) => r := BurnVai(tx.actor, amount);
      case UpdateReserve(next) =>
        :- Need(tx.actor == treasuryCfg.governance, Unauthorized);
        reserve := next;
        r := Ok(());
      case SetRiskParams(next) =>
        :- Need(tx.actor == treasuryCfg.governance, Unauthorized);
        :- Need(ValidRisk(next), InvalidRiskConfig);
        risk := next;
        r := Ok(());
    }

    method DispatchBoard(sha: Hash, tx: Tx) returns (r: Result<()>)
      requires BoardAction(tx.action)
      modifies this
      ensures Refines(BoardStep(sha, old(View()), tx), r, View())
    {
      if tx.action.CreateMarket? || tx.action.Dispute? {
        r := DispatchBonded(sha, tx);
      } else {
        r := DispatchMove(sha, tx);
      }
    }

    method DispatchBonded(sha: Hash, tx: Tx) returns (r: Result<()>)
      requires tx.action.CreateMarket? || tx.action.Dispute?
      modifies this`veil, this`vai, this`markets, this`oracle
      ensures Refines(BoardStep(sha, old(View()), tx), r, View())
    {
      var a := tx.action;
      if a.CreateMarket? {
        r := CreateMarket(tx.actor, a.market, a.outcomes, a.resolutionTime, a.creatorBond, a.question);
      } else {
        r := Dispute(tx.actor, a.market, a.bond, a.evidence);
      }
    }

    method DispatchMove(sha: Hash, tx: Tx) returns (r: Result<()>)
      requires BoardAction(tx.action) && !tx.action.CreateMarket? && !tx.action.Dispute?
      modifies this`proofCfg, this`markets, this`orders, this`oracle, this`batches
      modifies this`records, this`blobs, this`sworn, this`glyphs
      ensures Refines(BoardMove(sha, old(Board()), tx.actor == treasuryCfg.governance, tx), r, Board())
    {
      var a := tx.action;
      if a.CommitOrder? {
        r := CommitOrder(tx.actor, a.slot, a.envelope, a.commitment);
      } else if a.RevealBatch? {
        r := RevealBatch(a.slot, a.validatorIndex, a.share);
      } else if a.ClearBatch? {
        r := ClearBatch(sha, tx.setup, tx.actor, a.clear);
      } else if a.ResolveMarket? {
        r := ResolveMarket(a.market, a.outcome, a.signature);
      } else if a.SubmitBatchProof? {
        r := SubmitBatchProof(sha, tx.setup, tx.actor, tx.now, tx.id, a.submission);
      } else {
        r := SetProofConfig(tx.actor, a.config);
      }
    }

    /** Run one transaction: commit its writes, or roll them all back. */
    method Submit(sha: Hash, tx: Tx) returns (r: Result<()>)
      modifies this
      ensures View() == Apply(sha, old(View()), tx)
      ensures Refines(Execute(sha, old(View()), tx), r, View())
      ensures r.Err? ==> View() == old(View())
    {
      var before := View();
      r := Dispatch(sha, tx);
      if r.Err? {
        Rollback(before);
      }
    }

    /** Run transactions in order. */
    method SubmitAll(sha: Hash, txs: seq<Tx>)
      modifies this
      ensures View() == Run(sha, old(View()), txs)
    {
      for i := 0 to |txs|
        invariant View() == Run(sha, old(View()), txs[..i])
      {
        var _ := Submit(sha, txs[i]);
        RunSnoc(sha, old(View()), txs, i);
      }
      assert txs[..|txs|] == txs;
    }
  }

  /** A failing credit of a prefix fails the whole list. */
  lemma {:induction false} CreditAllPrefix(allocs: seq<Allocation>, i: nat)
    requires i <= |allocs| && CreditAll(map[], allocs[..i]).Err?
    ensures CreditAll(map[], allocs).Err?
    decreases |allocs|
  {
    if i == |allocs| {
      assert allocs[..i] == allocs;
    } else {
      var front := allocs[..|allocs| - 1];
      assert front[..i] == allocs[..i];
      CreditAllPrefix(front, i);
    }
  }

  lemma RunSnoc(sha: Hash, s: State, txs: seq<Tx>, i: nat)
    requires i < |txs|
    ensures Run(sha, s, txs[..i + 1]) == Apply(sha, Run(sha, s, txs[..i]), txs[i])
  {
    assert txs[..i + 1] == txs[..i] + [txs[i]];
    RunConcat(sha, s, txs[..i], [txs[i]]);
    var t := Run(sha, s, txs[..i]);
    assert Run(sha, t, [txs[i]]) == Run(sha, Apply(sha, t, txs[i]), [txs[i]][1..]);
  }
}
