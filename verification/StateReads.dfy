/** What an action reads: its outcome depends on nothing but the keys it declares. */
module StateReads {
  import opened Words
  import opened Balances
  import opened Economy
  import opened Preimage
  import opened Clearing
  import opened Chain
  import opened StorageKeys
  import opened StateKeys
  import opened Wire
  import Amm
  import Verifier

  /** The keys an action may read or write, as its StateKeys declares them; the fee is the sponsor's. */
  function DeclaredKeys(actor: Address, a: Action): seq<Key> {
    match a
    case Transfer(to, _, _) => [VeilOf(actor), VeilOf(to)]
    case CreateMarket(id, _, _, _, _) => [VeilOf(actor), MarketKey(id)]
    case CommitOrder(slot, _, _) => [MarketKey(slot.market), CommitmentKey(slot.market, slot.window, actor)]
    case RevealBatch(slot, index, _) => [MarketKey(slot.market), OracleKey(slot.market, index)]
    case ClearBatch(x) =>
      [MarketKey(x.market), WindowKey(BatchResultOf, x.market, x.window), SingletonKey(ProofConfigKey),
       WindowKey(BatchProofOf, x.market, x.window), WindowKey(VellumProofOf, x.market, x.window)]
    case ResolveMarket(id, _, _) => [MarketKey(id)]
    case Dispute(id, _, _) => [VeilOf(actor), MarketKey(id), DisputeKey(id)]
    case RouteFees(_) => [VeilOf(actor), SingletonKey(FeeRouterConfigKey), SingletonKey(FeeRouterStateKey)]
    case ReleaseTranche(_) => [SingletonKey(TreasuryConfigKey), SingletonKey(TreasuryStateKey)]
    case MintVai(to, _) =>
      [SingletonKey(VaiConfigKey), SingletonKey(VaiStateKey), SingletonKey(RiskConfigKey),
       SingletonKey(ReserveStateKey), VaiOf(to)]
    case BurnVai(_) => [VaiOf(actor), SingletonKey(VaiStateKey)]
    case CreatePool(x, y, _) => [SingletonKey(TreasuryConfigKey), Canon(PoolKey(x, y))]
    case AddLiquidity(x, y, _, _, _) =>
      [VeilOf(actor), VaiOf(actor), Canon(PoolKey(x, y)), Canon(LpBalanceKey(x, y, actor))]
    case RemoveLiquidity(x, y, _, _, _) =>
      [VeilOf(actor), VaiOf(actor), Canon(PoolKey(x, y)), Canon(LpBalanceKey(x, y, actor))]
    case SwapExactIn(x, y, _, _) => [VeilOf(actor), VaiOf(actor), Canon(PoolKey(x, y))]
    case UpdateReserve(_) => [SingletonKey(TreasuryConfigKey), SingletonKey(ReserveStateKey)]
    case SetRiskParams(_) => [SingletonKey(TreasuryConfigKey), SingletonKey(RiskConfigKey)]
    case SubmitBatchProof(p) =>
      [MarketKey(p.slot.market), SingletonKey(ProofConfigKey), WindowKey(BatchProofOf, p.slot.market, p.slot.window),
       WindowKey(VellumProofOf, p.slot.market, p.slot.window), AccountKey(BloodswornOf, actor),
       WindowKey(GlyphOf, p.slot.market, p.slot.window)]
    case SetProofConfig(_) => [SingletonKey(TreasuryConfigKey), SingletonKey(ProofConfigKey)]
    case DeductFee(_) => [VeilOf(actor)]
  }

  ghost predicate Agree(s: State, u: State, keys: seq<Key>) {
    forall k :: k in keys ==> Lookup(s, k) == Lookup(u, k)
  }

  // ----- Accounts and pool -----

  ghost predicate BanksAgree(b: Amm.Bank, c: Amm.Bank, keys: seq<Key>) {
    forall k :: k in keys && BankKey(k) ==> SameAt(b, c, k)
  }

  /** Two bank computations on banks that agree come out the same. */
  ghost predicate SameBanks(r: Result<Amm.Bank>, q: Result<Amm.Bank>, keys: seq<Key>) {
    match r
    case Ok(b) => q.Ok? && BanksAgree(b, q.value, keys)
    case Err(e) => q == Err(e)
  }

  function BalanceKey(who: Address, asset: u8): Key { if asset == Amm.VEIL then VeilOf(who) else VaiOf(who) }

  lemma DebitReadsAt(b: Amm.Bank, c: Amm.Bank, who: Address, asset: u8, amount: u64, k: Key)
    requires Amm.Supported(asset) && BankKey(k) && SameAt(b, c, k) && SameAt(b, c, BalanceKey(who, asset))
    ensures var r, q := Amm.DebitAsset(b, who, asset, amount), Amm.DebitAsset(c, who, asset, amount);
            if r.Ok? then q.Ok? && SameAt(r.value, q.value, k) else q == r
  {
  }

  lemma CreditReadsAt(b: Amm.Bank, c: Amm.Bank, who: Address, asset: u8, amount: u64, k: Key)
    requires Amm.Supported(asset) && BankKey(k) && SameAt(b, c, k) && SameAt(b, c, BalanceKey(who, asset))
    ensures var r, q := Amm.CreditAsset(b, who, asset, amount), Amm.CreditAsset(c, who, asset, amount);
            if r.Ok? then q.Ok? && SameAt(r.value, q.value, k) else q == r
  {
  }

  lemma DebitReads(b: Amm.Bank, c: Amm.Bank, who: Address, asset: u8, amount: u64, keys: seq<Key>)
    requires BanksAgree(b, c, keys) && Amm.Supported(asset) && BalanceKey(who, asset) in keys
    ensures SameBanks(Amm.DebitAsset(b, who, asset, amount), Amm.DebitAsset(c, who, asset, amount), keys)
  {
    DebitReadsAt(b, c, who, asset, amount, BalanceKey(who, asset));
    forall k | k in keys && BankKey(k)
      ensures var r, q := Amm.DebitAsset(b, who, asset, amount), Amm.DebitAsset(c, who, asset, amount);
              r.Ok? ==> SameAt(r.value, q.value, k)
    {
      DebitReadsAt(b, c, who, asset, amount, k);
    }
  }

  lemma CreditReads(b: Amm.Bank, c: Amm.Bank, who: Address, asset: u8, amount: u64, keys: seq<Key>)
    requires BanksAgree(b, c, keys) && Amm.Supported(asset) && BalanceKey(who, asset) in keys
    ensures SameBanks(Amm.CreditAsset(b, who, asset, amount), Amm.CreditAsset(c, who, asset, amount), keys)
  {
    CreditReadsAt(b, c, who, asset, amount, BalanceKey(who, asset));
    forall k | k in keys && BankKey(k)
      ensures var r, q := Amm.CreditAsset(b, who, asset, amount), Amm.CreditAsset(c, who, asset, amount);
              r.Ok? ==> SameAt(r.value, q.value, k)
    {
      CreditReadsAt(b, c, who, asset, amount, k);
    }
  }

  lemma TransferReads(b: Amm.Bank, c: Amm.Bank, from: Address, to: Address, value: u64, memo: nat, keys: seq<Key>)
    requires BanksAgree(b, c, keys) && VeilOf(from) in keys && VeilOf(to) in keys
    ensures SameBanks(Amm.Transfer(b, from, to, value, memo), Amm.Transfer(c, from, to, value, memo), keys)
  {
    DebitReads(b, c, from, Amm.VEIL, value, keys);
    var r, q := Amm.DebitAsset(b, from, Amm.VEIL, value), Amm.DebitAsset(c, from, Amm.VEIL, value);
    if r.Ok? { CreditReads(r.value, q.value, to, Amm.VEIL, value, keys); }
  }

  const POOL: Key := PoolKey(Amm.VEIL, Amm.VAI)
  function LpOf(who: Address): Key { LpBalanceKey(Amm.VEIL, Amm.VAI, who) }

  /** The keys of a pool action on a valid pair. */
  predicate PoolKeysIn(actor: Address, keys: seq<Key>) {
    VeilOf(actor) in keys && VaiOf(actor) in keys && POOL in keys
  }

  lemma SamePool(b: Amm.Bank, c: Amm.Bank, keys: seq<Key>)
    requires BanksAgree(b, c, keys) && POOL in keys
    ensures b.pool == c.pool
  {
    assert SameAt(b, c, POOL);
  }

  /** Writing the same pool and LP balance keeps banks in agreement. */
  lemma WrittenAgree(b: Amm.Bank, c: Amm.Bank, pool: Option<Amm.Pool>, lp: Accounts, lq: Accounts, keys: seq<Key>)
    requires BanksAgree(b, c, keys)
    requires forall k :: k in keys && k.LpBalanceKey? && VeilVai(k.asset0, k.asset1) ==>
                           AmountAt(lp, k.who) == AmountAt(lq, k.who)
    ensures BanksAgree(b.(pool := pool, lp := lp), c.(pool := pool, lp := lq), keys)
  {
    forall k | k in keys && BankKey(k)
      ensures SameAt(b.(pool := pool, lp := lp), c.(pool := pool, lp := lq), k)
    {
      assert SameAt(b, c, k);
    }
  }

  /** The LP balances of the keys agree before and after a credit of one of them. */
  lemma LpCreditReads(b: Amm.Bank, c: Amm.Bank, actor: Address, amount: u64, keys: seq<Key>)
    requires BanksAgree(b, c, keys) && LpOf(actor) in keys
    ensures var r, q := Credit(b.lp, actor, amount), Credit(c.lp, actor, amount);
            if r.Err? then q == r
            else q.Ok? && forall k :: k in keys && k.LpBalanceKey? && VeilVai(k.asset0, k.asset1) ==>
                            AmountAt(r.value, k.who) == AmountAt(q.value, k.who)
  {
    assert SameAt(b, c, LpOf(actor));
    forall k | k in keys && k.LpBalanceKey? && VeilVai(k.asset0, k.asset1)
      ensures AmountAt(b.lp, k.who) == AmountAt(c.lp, k.who)
    {
      assert SameAt(b, c, k);
    }
  }

  lemma LpDebitReads(b: Amm.Bank, c: Amm.Bank, actor: Address, amount: u64, keys: seq<Key>)
    requires BanksAgree(b, c, keys) && LpOf(actor) in keys
    ensures Balance(b.lp, actor) == Balance(c.lp, actor)
    ensures var r, q := Debit(b.lp, actor, amount), Debit(c.lp, actor, amount);
            if r.Err? then q == r
            else q.Ok? && forall k :: k in keys && k.LpBalanceKey? && VeilVai(k.asset0, k.asset1) ==>
                            AmountAt(r.value, k.who) == AmountAt(q.value, k.who)
  {
    assert SameAt(b, c, LpOf(actor));
    forall k | k in keys && k.LpBalanceKey? && VeilVai(k.asset0, k.asset1)
      ensures AmountAt(b.lp, k.who) == AmountAt(c.lp, k.who)
    {
      assert SameAt(b, c, k);
    }
  }

  lemma AddReads(b: Amm.Bank, c: Amm.Bank, actor: Address, a0: u8, a1: u8, x: u64, y: u64, minLp: u64, keys: seq<Key>)
    requires BanksAgree(b, c, keys) && PoolKeysIn(actor, keys) && LpOf(actor) in keys
    ensures SameBanks(Amm.AddLiquidity(b, actor, a0, a1, x, y, minLp),
                      Amm.AddLiquidity(c, actor, a0, a1, x, y, minLp), keys)
  {
    SamePool(b, c, keys);
    if Amm.ValidatePair(a0, a1).Pass? && b.pool.Some? && Amm.PairToPool(b.pool.value, a0, a1, x, y).Ok? {
      DebitReads(b, c, actor, a0, x, keys);
      if Amm.DebitAsset(b, actor, a0, x).Ok? {
        var b1, c1 := Amm.DebitAsset(b, actor, a0, x).value, Amm.DebitAsset(c, actor, a0, x).value;
        DebitReads(b1, c1, actor, a1, y, keys);
        AddedAgree(b, c, b1, c1, actor, a0, a1, x, y, minLp, keys);
      }
    }
  }

  lemma AddedAgree(b: Amm.Bank, c: Amm.Bank, b1: Amm.Bank, c1: Amm.Bank, actor: Address, a0: u8, a1: u8, x: u64, y: u64,
                   minLp: u64, keys: seq<Key>)
    requires BanksAgree(b, c, keys) && LpOf(actor) in keys && b.pool == c.pool && b.pool.Some?
    requires Amm.ValidatePair(a0, a1).Pass? && Amm.PairToPool(b.pool.value, a0, a1, x, y).Ok?
    requires Amm.DebitAsset(b, actor, a0, x) == Ok(b1) && Amm.DebitAsset(c, actor, a0, x) == Ok(c1)
    requires SameBanks(Amm.DebitAsset(b1, actor, a1, y), Amm.DebitAsset(c1, actor, a1, y), keys)
    ensures SameBanks(Amm.AddLiquidity(b, actor, a0, a1, x, y, minLp),
                      Amm.AddLiquidity(c, actor, a0, a1, x, y, minLp), keys)
  {
    var r, q := Amm.DebitAsset(b1, actor, a1, y), Amm.DebitAsset(c1, actor, a1, y);
    var p := b.pool.value;
    var (px, py) := Amm.PairToPool(p, a0, a1, x, y).value;
    if r.Ok? && Amm.LpFor(p, px, py).Ok? {
      var minted := Amm.LpFor(p, px, py).value;
      LpCreditReads(b, c, actor, minted, keys);
      if Amm.Deposit(p, px, py, minted).Ok? && Credit(b.lp, actor, minted).Ok? {
        WrittenAgree(r.value, q.value, Some(Amm.Deposit(p, px, py, minted).value),
                     Credit(b.lp, actor, minted).value, Credit(c.lp, actor, minted).value, keys);
      }
    }
  }

  /** Paying both assets out of agreeing banks. */
  lemma PaidOutReads(b: Amm.Bank, c: Amm.Bank, actor: Address, a0: u8, x: u64, a1: u8, y: u64, keys: seq<Key>)
    requires BanksAgree(b, c, keys) && VeilOf(actor) in keys && VaiOf(actor) in keys
    ensures SameBanks(PaidOut(b, actor, a0, x, a1, y), PaidOut(c, actor, a0, x, a1, y), keys)
  {
    if Amm.Supported(a0) { CreditReads(b, c, actor, a0, x, keys); }
    var r, q := Amm.CreditAsset(b, actor, a0, x), Amm.CreditAsset(c, actor, a0, x);
    if r.Ok? && Amm.Supported(a1) { CreditReads(r.value, q.value, actor, a1, y, keys); }
  }

  function PaidOut(b: Amm.Bank, actor: Address, a0: u8, x: u64, a1: u8, y: u64): Result<Amm.Bank> {
    var b1 :- Amm.CreditAsset(b, actor, a0, x);
    Amm.CreditAsset(b1, actor, a1, y)
  }

  lemma RemoveReads(
    b: Amm.Bank, c: Amm.Bank, actor: Address, a0: u8, a1: u8, lp: u64, min0: u64, min1: u64, keys: seq<Key>)
    requires BanksAgree(b, c, keys) && PoolKeysIn(actor, keys) && LpOf(actor) in keys
    ensures SameBanks(Amm.RemoveLiquidity(b, actor, a0, a1, lp, min0, min1),
                      Amm.RemoveLiquidity(c, actor, a0, a1, lp, min0, min1), keys)
  {
    SamePool(b, c, keys);
    LpDebitReads(b, c, actor, lp, keys);
    if b.pool.Some? {
      RemoveSplits(b, actor, a0, a1, lp, min0, min1);
      RemoveSplits(c, actor, a0, a1, lp, min0, min1);
      WithdrawnReads(b, c, b.pool.value, actor, lp, keys);
    }
  }

  /** The checks of a withdrawal that come before its first write. */
  function RemoveChecks(p: Amm.Pool, held: u64, a0: u8, a1: u8, lp: u64, min0: u64, min1: u64): Check {
    if Amm.ValidatePair(a0, a1).Fail? then Amm.ValidatePair(a0, a1)
    else if lp == 0 then Fail(InvalidLiquidityAmount)
    else if p.totalLp == 0 || p.reserve0 == 0 || p.reserve1 == 0 then Fail(InsufficientLiquidity)
    else if held < lp then Fail(InsufficientLPBalance)
    else
      var out, least := Amm.WithdrawalFor(p, lp), Amm.PairToPool(p, a0, a1, min0, min1);
      if out.Err? then Fail(out.error)
      else if least.Err? then Fail(least.error)
      else Need(least.value.0 <= out.value.0 && least.value.1 <= out.value.1, SlippageExceeded)
  }

  /** The writes of a withdrawal. */
  function Withdrawn(b: Amm.Bank, p: Amm.Pool, actor: Address, lp: u64): Result<Amm.Bank> {
    var out :- Amm.WithdrawalFor(p, lp);
    var next :- Amm.Withdraw(p, lp, out.0, out.1);
    var shares :- Debit(b.lp, actor, lp);
    PaidOut(b.(pool := Some(next), lp := shares), actor, p.asset0, out.0, p.asset1, out.1)
  }

  lemma RemoveSplits(b: Amm.Bank, actor: Address, a0: u8, a1: u8, lp: u64, min0: u64, min1: u64)
    requires b.pool.Some?
    ensures var p := b.pool.value;
            var checks := RemoveChecks(p, Balance(b.lp, actor), a0, a1, lp, min0, min1);
            Amm.RemoveLiquidity(b, actor, a0, a1, lp, min0, min1)
            == if checks.Fail? then Err(checks.error) else Withdrawn(b, p, actor, lp)
  {
  }

  lemma WithdrawnReads(b: Amm.Bank, c: Amm.Bank, p: Amm.Pool, actor: Address, lp: u64, keys: seq<Key>)
    requires BanksAgree(b, c, keys) && PoolKeysIn(actor, keys) && LpOf(actor) in keys
    ensures SameBanks(Withdrawn(b, p, actor, lp), Withdrawn(c, p, actor, lp), keys)
  {
    LpDebitReads(b, c, actor, lp, keys);
    if Amm.WithdrawalFor(p, lp).Ok? {
      var (o0, o1) := Amm.WithdrawalFor(p, lp).value;
      if Amm.Withdraw(p, lp, o0, o1).Ok? && Debit(b.lp, actor, lp).Ok? {
        var next := Some(Amm.Withdraw(p, lp, o0, o1).value);
        var b0 := b.(pool := next, lp := Debit(b.lp, actor, lp).value);
        var c0 := c.(pool := next, lp := Debit(c.lp, actor, lp).value);
        WrittenAgree(b, c, next, b0.lp, c0.lp, keys);
        PaidOutReads(b0, c0, actor, p.asset0, o0, p.asset1, o1, keys);
      }
    }
  }

  lemma SwapReads(b: Amm.Bank, c: Amm.Bank, actor: Address, i: u8, o: u8, amountIn: u64, minOut: u64, keys: seq<Key>)
    requires BanksAgree(b, c, keys) && PoolKeysIn(actor, keys)
    ensures SameBanks(Amm.SwapExactIn(b, actor, i, o, amountIn, minOut),
                      Amm.SwapExactIn(c, actor, i, o, amountIn, minOut), keys)
  {
    SamePool(b, c, keys);
    if Amm.ValidatePair(i, o).Pass? && b.pool.Some? && Amm.SwapDirection(b.pool.value, i, o).Ok? {
      DebitReads(b, c, actor, i, amountIn, keys);
      var r, q := Amm.DebitAsset(b, actor, i, amountIn), Amm.DebitAsset(c, actor, i, amountIn);
      if r.Ok? {
        SwapAfterDebit(b, actor, i, o, amountIn, minOut, r.value);
        SwapAfterDebit(c, actor, i, o, amountIn, minOut, q.value);
        SettledReads(r.value, q.value, b.pool.value, actor, i, o, amountIn, minOut, keys);
      }
    }
  }

  /** What a swap does after its debit. */
  function Settled(b: Amm.Bank, p: Amm.Pool, actor: Address, i: u8, o: u8, amountIn: u64, minOut: u64): Result<Amm.Bank>
    requires Amm.SwapDirection(p, i, o).Ok?
  {
    var forward := Amm.SwapDirection(p, i, o).value;
    var rin, rout := if forward then p.reserve0 else p.reserve1, if forward then p.reserve1 else p.reserve0;
    var out :- Amm.SwapOutput(rin, rout, p.feeBips, amountIn, minOut);
    var next :- Amm.Trade(p, forward, amountIn, out);
    Amm.CreditAsset(b.(pool := Some(next)), actor, o, out)
  }

  lemma SwapAfterDebit(b: Amm.Bank, actor: Address, i: u8, o: u8, amountIn: u64, minOut: u64, b1: Amm.Bank)
    requires Amm.ValidatePair(i, o).Pass? && b.pool.Some? && Amm.SwapDirection(b.pool.value, i, o).Ok?
    requires Amm.DebitAsset(b, actor, i, amountIn) == Ok(b1)
    ensures var p := b.pool.value;
            Amm.SwapExactIn(b, actor, i, o, amountIn, minOut)
            == if amountIn == 0 then Err(InvalidSwapAmount)
               else if p.reserve0 == 0 || p.reserve1 == 0 then Err(InsufficientLiquidity)
               else Settled(b1, p, actor, i, o, amountIn, minOut)
  {
  }

  lemma SettledReads(b: Amm.Bank, c: Amm.Bank, p: Amm.Pool, actor: Address, i: u8, o: u8, amountIn: u64, minOut: u64,
                     keys: seq<Key>)
    requires BanksAgree(b, c, keys) && PoolKeysIn(actor, keys)
    requires Amm.ValidatePair(i, o).Pass? && Amm.SwapDirection(p, i, o).Ok?
    ensures SameBanks(Settled(b, p, actor, i, o, amountIn, minOut), Settled(c, p, actor, i, o, amountIn, minOut), keys)
  {
    var forward := Amm.SwapDirection(p, i, o).value;
    var rin, rout := if forward then p.reserve0 else p.reserve1, if forward then p.reserve1 else p.reserve0;
    var out := Amm.SwapOutput(rin, rout, p.feeBips, amountIn, minOut);
    if out.Ok? && Amm.Trade(p, forward, amountIn, out.value).Ok? {
      var next := Amm.Trade(p, forward, amountIn, out.value).value;
      PoolWrittenAgree(b, c, next, keys);
      CreditReads(b.(pool := Some(next)), c.(pool := Some(next)), actor, o, out.value, keys);
    }
  }

  lemma PoolWrittenAgree(b: Amm.Bank, c: Amm.Bank, next: Amm.Pool, keys: seq<Key>)
    requires BanksAgree(b, c, keys)
    ensures BanksAgree(b.(pool := Some(next)), c.(pool := Some(next)), keys)
  {
    forall k | k in keys && BankKey(k)
      ensures SameAt(b.(pool := Some(next)), c.(pool := Some(next)), k)
    {
      assert SameAt(b, c, k);
    }
  }

  lemma BankReads(b: Amm.Bank, c: Amm.Bank, governance: bool, actor: Address, a: Action)
    requires BankAction(a) && BanksAgree(b, c, DeclaredKeys(actor, a))
    ensures SameBanks(BankStep(b, governance, actor, a), BankStep(c, governance, actor, a), DeclaredKeys(actor, a))
  {
    var keys := DeclaredKeys(actor, a);
    if a.Transfer? {
      TransferReads(b, c, actor, a.to, a.value, |a.memo|, keys);
    } else if a.DeductFee? {
      DebitReads(b, c, actor, Amm.VEIL, a.amount, keys);
    } else if a.CreatePool? {
      CreateReads(b, c, governance, a.asset0, a.asset1, a.feeBips, keys);
    } else {
      PoolReads(b, c, governance, actor, a);
    }
  }

  lemma CreateReads(b: Amm.Bank, c: Amm.Bank, governance: bool, x: u8, y: u8, fee: u16, keys: seq<Key>)
    requires BanksAgree(b, c, keys) && Canon(PoolKey(x, y)) in keys
    ensures SameBanks(Amm.CreatePool(b, governance, x, y, fee), Amm.CreatePool(c, governance, x, y, fee), keys)
  {
    if Amm.ValidatePair(x, y).Pass? {
      SamePool(b, c, keys);
      if b.pool.None? {
        var (lo, hi) := Amm.SortedPair(x, y);
        PoolWrittenAgree(b, c, Amm.Pool(lo, hi, fee, 0, 0, 0), keys);
      }
    }
  }

  lemma PoolReads(b: Amm.Bank, c: Amm.Bank, governance: bool, actor: Address, a: Action)
    requires (a.AddLiquidity? || a.RemoveLiquidity? || a.SwapExactIn?) && BanksAgree(b, c, DeclaredKeys(actor, a))
    ensures SameBanks(BankStep(b, governance, actor, a), BankStep(c, governance, actor, a), DeclaredKeys(actor, a))
  {
    var keys := DeclaredKeys(actor, a);
    if a.AddLiquidity? {
      if Amm.ValidatePair(a.asset0, a.asset1).Pass? {
        AddReads(b, c, actor, a.asset0, a.asset1, a.amount0, a.amount1, a.minLp, keys);
      }
    } else if a.RemoveLiquidity? {
      if Amm.ValidatePair(a.asset0, a.asset1).Pass? {
        RemoveReads(b, c, actor, a.asset0, a.asset1, a.lp, a.min0, a.min1, keys);
      }
    } else if Amm.ValidatePair(a.assetIn, a.assetOut).Pass? {
      SwapReads(b, c, actor, a.assetIn, a.assetOut, a.amountIn, a.minOut, keys);
    }
  }

  // ----- Treasury, fees and stablecoin -----

  ghost predicate SameStates(r: Result<State>, q: Result<State>, keys: seq<Key>) {
    match r
    case Ok(t) => q.Ok? && Agree(t, q.value, keys)
    case Err(e) => q == Err(e)
  }

  ghost predicate Alike(s: State, u: State, k: Key) { Lookup(s, k) == Lookup(u, k) }

  lemma RouteFeesReads(s: State, u: State, actor: Address, amount: u64)
    requires Agree(s, u, DeclaredKeys(actor, RouteFees(amount)))
    ensures SameStates(FeesRouted(s, actor, amount), FeesRouted(u, actor, amount),
                       DeclaredKeys(actor, RouteFees(amount)))
  {
    assert Alike(s, u, VeilOf(actor));
    assert Alike(s, u, SingletonKey(FeeRouterConfigKey)) && Alike(s, u, SingletonKey(FeeRouterStateKey));
    DebitReadsAt(s.bank, u.bank, actor, Amm.VEIL, amount, VeilOf(actor));
  }

  lemma ReleaseReads(s: State, u: State, actor: Address, now: i64, amount: u64)
    requires Agree(s, u, DeclaredKeys(actor, ReleaseTranche(amount)))
    ensures SameStates(TrancheReleased(s, actor, now, amount), TrancheReleased(u, actor, now, amount),
                       DeclaredKeys(actor, ReleaseTranche(amount)))
  {
    assert Alike(s, u, SingletonKey(TreasuryConfigKey)) && Alike(s, u, SingletonKey(TreasuryStateKey));
  }

  lemma MintReads(s: State, u: State, actor: Address, now: i64, to: Address, amount: u64)
    requires Agree(s, u, DeclaredKeys(actor, MintVai(to, amount)))
    ensures SameStates(VaiMinted(s, actor, now, to, amount), VaiMinted(u, actor, now, to, amount),
                       DeclaredKeys(actor, MintVai(to, amount)))
  {
    MintConfigRead(s, u, actor, to, amount);
    var e, f := s.econ, u.econ;
    var v := Mint(e.vaiCfg, e.vai, e.risk, e.reserve, actor, now, amount);
    assert v == Mint(f.vaiCfg, f.vai, f.risk, f.reserve, actor, now, amount);
    if v.Ok? { CreditedReads(s, u, actor, to, amount, v.value); }
  }

  lemma MintConfigRead(s: State, u: State, actor: Address, to: Address, amount: u64)
    requires Agree(s, u, DeclaredKeys(actor, MintVai(to, amount)))
    ensures s.econ.vaiCfg == u.econ.vaiCfg && s.econ.vai == u.econ.vai
    ensures s.econ.risk == u.econ.risk && s.econ.reserve == u.econ.reserve
    ensures Alike(s, u, VaiOf(to))
  {
    assert Alike(s, u, SingletonKey(VaiConfigKey)) && Alike(s, u, SingletonKey(VaiStateKey));
    assert Alike(s, u, SingletonKey(RiskConfigKey)) && Alike(s, u, SingletonKey(ReserveStateKey));
    assert Alike(s, u, VaiOf(to));
  }

  /** Crediting the minted VAI and storing the stablecoin state. */
  lemma CreditedReads(s: State, u: State, actor: Address, to: Address, amount: u64, v: Vai)
    requires s.econ.vaiCfg == u.econ.vaiCfg && s.econ.risk == u.econ.risk && s.econ.reserve == u.econ.reserve
    requires Alike(s, u, VaiOf(to))
    ensures var r, q := Amm.CreditAsset(s.bank, to, Amm.VAI, amount), Amm.CreditAsset(u.bank, to, Amm.VAI, amount);
            if r.Err? then q == r
            else q.Ok? && Agree(s.(bank := r.value, econ := s.econ.(vai := v)),
                                u.(bank := q.value, econ := u.econ.(vai := v)),
                                DeclaredKeys(actor, MintVai(to, amount)))
  {
    CreditReadsAt(s.bank, u.bank, to, Amm.VAI, amount, VaiOf(to));
    var r, q := Amm.CreditAsset(s.bank, to, Amm.VAI, amount), Amm.CreditAsset(u.bank, to, Amm.VAI, amount);
    if r.Ok? {
      var t, w := s.(bank := r.value, econ := s.econ.(vai := v)), u.(bank := q.value, econ := u.econ.(vai := v));
      forall k | k in DeclaredKeys(actor, MintVai(to, amount))
        ensures Lookup(t, k) == Lookup(w, k)
      {
        MintedAlike(t, w, to, k);
      }
    }
  }

  lemma MintedAlike(t: State, w: State, to: Address, k: Key)
    requires t.econ.vaiCfg == w.econ.vaiCfg && t.econ.vai == w.econ.vai
    requires t.econ.risk == w.econ.risk && t.econ.reserve == w.econ.reserve && SameAt(t.bank, w.bank, VaiOf(to))
    requires || k == VaiOf(to) || k == SingletonKey(VaiConfigKey) || k == SingletonKey(VaiStateKey)
             || k == SingletonKey(RiskConfigKey) || k == SingletonKey(ReserveStateKey)
    ensures Lookup(t, k) == Lookup(w, k)
  {
  }

  lemma BurnReads(s: State, u: State, actor: Address, amount: u64)
    requires Agree(s, u, DeclaredKeys(actor, BurnVai(amount)))
    ensures SameStates(VaiBurned(s, actor, amount), VaiBurned(u, actor, amount), DeclaredKeys(actor, BurnVai(amount)))
  {
    assert Alike(s, u, VaiOf(actor)) && Alike(s, u, SingletonKey(VaiStateKey));
    DebitReadsAt(s.bank, u.bank, actor, Amm.VAI, amount, VaiOf(actor));
  }

  lemma EconReads(s: State, u: State, actor: Address, now: i64, a: Action)
    requires EconAction(a) && Agree(s, u, DeclaredKeys(actor, a))
    ensures SameStates(EconStep(s, actor, now, a), EconStep(u, actor, now, a), DeclaredKeys(actor, a))
  {
    if a.RouteFees? {
      RouteFeesReads(s, u, actor, a.amount);
    } else if a.ReleaseTranche? {
      ReleaseReads(s, u, actor, now, a.amount);
    } else if a.MintVai? {
      MintReads(s, u, actor, now, a.to, a.amount);
    } else if a.BurnVai? {
      BurnReads(s, u, actor, a.amount);
    } else {
      assert Alike(s, u, SingletonKey(TreasuryConfigKey));
    }
  }

  // ----- Markets and batches -----

  predicate SameUnder(b: Board, c: Board, k: Key)
    requires BoardKey(k)
  {
    BoardLookup(b, k) == BoardLookup(c, k)
  }

  ghost predicate BoardsAgree(b: Board, c: Board, keys: seq<Key>) {
    forall k :: k in keys && BoardKey(k) ==> SameUnder(b, c, k)
  }

  ghost predicate SameBoards(r: Result<Board>, q: Result<Board>, keys: seq<Key>) {
    match r
    case Ok(b) => q.Ok? && BoardsAgree(b, q.value, keys)
    case Err(e) => q == Err(e)
  }

  lemma SameMarket(b: Board, c: Board, id: Id)
    requires SameUnder(b, c, MarketKey(id))
    ensures id in b.markets <==> id in c.markets
    ensures id in b.markets ==> b.markets[id] == c.markets[id]
    ensures NeedActive(b, id) == NeedActive(c, id)
  {
  }

  lemma CreateMarketReads(
    b: Board, c: Board, id: Id, outcomes: u8, time: i64, bond: u64, question: Bytes, keys: seq<Key>)
    requires BoardsAgree(b, c, keys) && MarketKey(id) in keys
    ensures SameBoards(Clearing.CreateMarket(b, id, outcomes, time, bond, question),
                       Clearing.CreateMarket(c, id, outcomes, time, bond, question), keys)
  {
    SameMarket(b, c, id);
    MarketWritten(b, c, id, Market(ACTIVE, outcomes, time, 0, question), keys);
  }

  lemma MarketWritten(b: Board, c: Board, id: Id, m: Market, keys: seq<Key>)
    requires BoardsAgree(b, c, keys)
    ensures BoardsAgree(b.(markets := b.markets[id := m]), c.(markets := c.markets[id := m]), keys)
  {
    forall k | k in keys && BoardKey(k)
      ensures SameUnder(b.(markets := b.markets[id := m]), c.(markets := c.markets[id := m]), k)
    {
      assert SameUnder(b, c, k);
    }
  }

  lemma OracleWritten(b: Board, c: Board, slot: OracleSlot, v: Bytes, keys: seq<Key>)
    requires BoardsAgree(b, c, keys)
    ensures BoardsAgree(b.(oracle := b.oracle[slot := v]), c.(oracle := c.oracle[slot := v]), keys)
  {
    forall k | k in keys && BoardKey(k)
      ensures SameUnder(b.(oracle := b.oracle[slot := v]), c.(oracle := c.oracle[slot := v]), k)
    {
      OracleWrittenAt(b, c, slot, v, k);
    }
  }

  lemma OracleWrittenAt(b: Board, c: Board, slot: OracleSlot, v: Bytes, k: Key)
    requires BoardKey(k) && SameUnder(b, c, k)
    ensures SameUnder(b.(oracle := b.oracle[slot := v]), c.(oracle := c.oracle[slot := v]), k)
  {
  }

  lemma OrderWritten(b: Board, c: Board, slot: OrderSlot, v: Bytes, keys: seq<Key>)
    requires BoardsAgree(b, c, keys)
    ensures BoardsAgree(b.(orders := b.orders[slot := v]), c.(orders := c.orders[slot := v]), keys)
  {
    forall k | k in keys && BoardKey(k)
      ensures SameUnder(b.(orders := b.orders[slot := v]), c.(orders := c.orders[slot := v]), k)
    {
      assert SameUnder(b, c, k);
    }
  }

  lemma BatchWritten(b: Board, c: Board, slot: Slot, v: BatchResult, keys: seq<Key>)
    requires BoardsAgree(b, c, keys)
    ensures BoardsAgree(b.(batches := b.batches[slot := v]), c.(batches := c.batches[slot := v]), keys)
  {
    forall k | k in keys && BoardKey(k)
      ensures SameUnder(b.(batches := b.batches[slot := v]), c.(batches := c.batches[slot := v]), k)
    {
      assert SameUnder(b, c, k);
    }
  }

  lemma ConfigWritten(b: Board, c: Board, v: ProofConfig, keys: seq<Key>)
    requires BoardsAgree(b, c, keys)
    ensures BoardsAgree(b.(config := v), c.(config := v), keys)
  {
    forall k | k in keys && BoardKey(k)
      ensures SameUnder(b.(config := v), c.(config := v), k)
    {
      assert SameUnder(b, c, k);
    }
  }

  lemma ResolveReads(b: Board, c: Board, id: Id, outcome: u8, signature: Bytes, keys: seq<Key>)
    requires BoardsAgree(b, c, keys) && MarketKey(id) in keys
    ensures SameBoards(Clearing.ResolveMarket(b, id, outcome, signature),
                       Clearing.ResolveMarket(c, id, outcome, signature), keys)
  {
    SameMarket(b, c, id);
    if id in b.markets {
      MarketWritten(b, c, id, b.markets[id].(status := RESOLVED, resolvedOutcome := outcome), keys);
    }
  }

  lemma DisputeReads(b: Board, c: Board, id: Id, bond: u64, evidence: Bytes, keys: seq<Key>)
    requires BoardsAgree(b, c, keys) && MarketKey(id) in keys
    ensures SameBoards(Clearing.Dispute(b, id, bond, evidence), Clearing.Dispute(c, id, bond, evidence), keys)
  {
    SameMarket(b, c, id);
    if id in b.markets {
      var m, slot := b.markets[id].(status := DISPUTED), OracleSlot(id, DISPUTE_INDEX);
      MarketWritten(b, c, id, m, keys);
      OracleWritten(b.(markets := b.markets[id := m]), c.(markets := c.markets[id := m]), slot,
                    DisputeEntry(bond, evidence), keys);
    }
  }

  lemma CommitReads(b: Board, c: Board, trader: Address, slot: Slot, envelope: Bytes, commitment: Bytes, keys: seq<Key>)
    requires BoardsAgree(b, c, keys) && MarketKey(slot.market) in keys
    ensures SameBoards(Clearing.CommitOrder(b, trader, slot, envelope, commitment),
                       Clearing.CommitOrder(c, trader, slot, envelope, commitment), keys)
  {
    SameMarket(b, c, slot.market);
    OrderWritten(b, c, OrderSlot(slot.market, slot.window, trader), commitment + envelope, keys);
  }

  lemma ShareReads(b: Board, c: Board, slot: Slot, index: u32, share: Bytes, keys: seq<Key>)
    requires BoardsAgree(b, c, keys) && MarketKey(slot.market) in keys
    ensures SameBoards(Clearing.RevealBatch(b, slot, index, share), Clearing.RevealBatch(c, slot, index, share), keys)
  {
    SameMarket(b, c, slot.market);
    OracleWritten(b, c, OracleSlot(slot.market, index), U64(slot.window) + share, keys);
  }

  /** The keys the proof gate reads. */
  predicate GateKeysIn(slot: Slot, keys: seq<Key>) {
    && MarketKey(slot.market) in keys && SingletonKey(ProofConfigKey) in keys
    && WindowKey(BatchProofOf, slot.market, slot.window) in keys
    && WindowKey(VellumProofOf, slot.market, slot.window) in keys
  }

  lemma SameGate(b: Board, c: Board, slot: Slot, keys: seq<Key>)
    requires BoardsAgree(b, c, keys) && GateKeysIn(slot, keys)
    ensures b.config == c.config && NeedActive(b, slot.market) == NeedActive(c, slot.market)
    ensures slot in b.proofs.records <==> slot in c.proofs.records
    ensures slot in b.proofs.records ==> b.proofs.records[slot] == c.proofs.records[slot]
    ensures slot in b.proofs.blobs <==> slot in c.proofs.blobs
    ensures slot in b.proofs.blobs ==> b.proofs.blobs[slot] == c.proofs.blobs[slot]
  {
    SameMarket(b, c, slot.market);
    assert SameUnder(b, c, SingletonKey(ProofConfigKey));
    assert SameUnder(b, c, WindowKey(BatchProofOf, slot.market, slot.window));
    assert SameUnder(b, c, WindowKey(VellumProofOf, slot.market, slot.window));
  }

  lemma ClearReads(sha: Hash, setup: Verifier.Setup, b: Board, c: Board, actor: Address, x: Clear, keys: seq<Key>)
    requires BoardsAgree(b, c, keys) && GateKeysIn(Slot(x.market, x.window), keys)
    ensures SameBoards(Clearing.ClearBatch(sha, setup, b, actor, x), Clearing.ClearBatch(sha, setup, c, actor, x), keys)
  {
    SameGate(b, c, Slot(x.market, x.window), keys);
    assert CheckProof(sha, setup, b, actor, x) == CheckProof(sha, setup, c, actor, x);
    BatchWritten(b, c, Slot(x.market, x.window), BatchResult(x.price, x.volume, x.fills), keys);
  }

  lemma SubmitReads(
    sha: Hash, setup: Verifier.Setup, b: Board, c: Board, actor: Address, now: i64, id: Id, a: Submission,
    keys: seq<Key>)
    requires BoardsAgree(b, c, keys) && GateKeysIn(a.slot, keys) && AccountKey(BloodswornOf, actor) in keys
    ensures SameBoards(SubmitProof(sha, setup, b, actor, now, id, a),
                       SubmitProof(sha, setup, c, actor, now, id, a), keys)
  {
    SameGate(b, c, a.slot, keys);
    assert CheckSubmission(setup, b, actor, now, a) == CheckSubmission(setup, c, actor, now, a);
    RecordedAgree(sha, b, c, actor, now, id, a, keys);
  }

  function WithProof(b: Board, slot: Slot, actor: Address, r: Record, blob: Bytes, w: Bloodsworn, g: Glyph): Board {
    b.(proofs := Proofs(b.proofs.records[slot := r], b.proofs.blobs[slot := blob], b.proofs.sworn[actor := w],
                        b.proofs.glyphs[slot := g]))
  }

  lemma ProofWritten(
    b: Board, c: Board, slot: Slot, actor: Address, r: Record, blob: Bytes, w: Bloodsworn, g: Glyph, k: Key)
    requires BoardKey(k) && SameUnder(b, c, k)
    ensures SameUnder(WithProof(b, slot, actor, r, blob, w, g), WithProof(c, slot, actor, r, blob, w, g), k)
  {
  }

  lemma RecordedAgree(sha: Hash, b: Board, c: Board, actor: Address, now: i64, id: Id, a: Submission, keys: seq<Key>)
    requires BoardsAgree(b, c, keys) && AccountKey(BloodswornOf, actor) in keys
    ensures BoardsAgree(b.(proofs := Recorded(sha, b.proofs, actor, now, id, a)),
                        c.(proofs := Recorded(sha, c.proofs, actor, now, id, a)), keys)
  {
    assert SameUnder(b, c, AccountKey(BloodswornOf, actor));
    assert Sworn(b.proofs, actor) == Sworn(c.proofs, actor);
    var w := Accepted(Sworn(b.proofs, actor), now);
    var commitment := sha(a.proof);
    var r := Record(a.proofType, now, a.windowCloseAtMs, actor, commitment, a.publicInputsHash, a.fillsHash);
    var g := DeriveGlyph(sha, id, a.slot, actor, commitment, a.publicInputsHash, now);
    var d, e := WithProof(b, a.slot, actor, r, a.proof, w, g), WithProof(c, a.slot, actor, r, a.proof, w, g);
    forall k | k in keys && BoardKey(k)
      ensures SameUnder(d, e, k)
    {
      ProofWritten(b, c, a.slot, actor, r, a.proof, w, g, k);
    }
  }

  /** Actions on the board that move no tokens. */
  lemma BoardReads(sha: Hash, b: Board, c: Board, governance: bool, tx: Tx)
    requires BoardAction(tx.action) && !tx.action.CreateMarket? && !tx.action.Dispute?
    requires BoardsAgree(b, c, DeclaredKeys(tx.actor, tx.action))
    ensures SameBoards(BoardMove(sha, b, governance, tx), BoardMove(sha, c, governance, tx),
                       DeclaredKeys(tx.actor, tx.action))
  {
    var a, keys := tx.action, DeclaredKeys(tx.actor, tx.action);
    if a.CommitOrder? {
      CommitReads(b, c, tx.actor, a.slot, a.envelope, a.commitment, keys);
    } else if a.RevealBatch? {
      ShareReads(b, c, a.slot, a.validatorIndex, a.share, keys);
    } else if a.ClearBatch? {
      ClearReads(sha, tx.setup, b, c, tx.actor, a.clear, keys);
    } else if a.ResolveMarket? {
      ResolveReads(b, c, a.market, a.outcome, a.signature, keys);
    } else if a.SubmitBatchProof? {
      SubmitReads(sha, tx.setup, b, c, tx.actor, tx.now, tx.id, a.submission, keys);
    } else {
      ConfigWritten(b, c, a.config, keys);
    }
  }

  // ----- Every action -----

  lemma AgreeParts(s: State, u: State, keys: seq<Key>)
    requires Agree(s, u, keys)
    ensures BanksAgree(s.bank, u.bank, keys) && BoardsAgree(s.board, u.board, keys)
  {
    forall k | k in keys && BankKey(k)
      ensures SameAt(s.bank, u.bank, k)
    {
      assert Alike(s, u, k);
    }
    forall k | k in keys && BoardKey(k)
      ensures SameUnder(s.board, u.board, k)
    {
      assert Alike(s, u, k);
    }
  }

  lemma AgreeWhole(s: State, u: State, t: State, v: State, keys: seq<Key>)
    requires Agree(s, u, keys) && t.econ == s.econ && v.econ == u.econ
    requires BanksAgree(t.bank, v.bank, keys) && BoardsAgree(t.board, v.board, keys)
    ensures Agree(t, v, keys)
  {
    forall k | k in keys
      ensures Lookup(t, k) == Lookup(v, k)
    {
      assert Alike(s, u, k);
      if BankKey(k) { assert SameAt(t.bank, v.bank, k); } else if BoardKey(k) { assert SameUnder(t.board, v.board, k); }
    }
  }

  lemma BankStepReads(sha: Hash, s: State, u: State, tx: Tx)
    requires BankAction(tx.action) && Agree(s, u, DeclaredKeys(tx.actor, tx.action))
    ensures SameStates(Execute(sha, s, tx), Execute(sha, u, tx), DeclaredKeys(tx.actor, tx.action))
  {
    var a, keys := tx.action, DeclaredKeys(tx.actor, tx.action);
    var g, h := IsGovernance(s, tx.actor), IsGovernance(u, tx.actor);
    AgreeParts(s, u, keys);
    if a.CreatePool? { assert Alike(s, u, SingletonKey(TreasuryConfigKey)); }
    BankReads(s.bank, u.bank, g, tx.actor, a);
    GovernanceMatters(u.bank, g, h, tx.actor, a);
    var r, q := BankStep(s.bank, g, tx.actor, a), BankStep(u.bank, h, tx.actor, a);
    if r.Ok? { AgreeWhole(s, u, s.(bank := r.value), u.(bank := q.value), keys); }
  }

  /** Only creating a pool asks who governs. */
  lemma GovernanceMatters(b: Amm.Bank, g: bool, h: bool, actor: Address, a: Action)
    requires BankAction(a) && (a.CreatePool? ==> g == h)
    ensures BankStep(b, g, actor, a) == BankStep(b, h, actor, a)
  {
  }

  lemma BoardStepReads(sha: Hash, s: State, u: State, tx: Tx)
    requires BoardAction(tx.action) && Agree(s, u, DeclaredKeys(tx.actor, tx.action))
    ensures SameStates(BoardStep(sha, s, tx), BoardStep(sha, u, tx), DeclaredKeys(tx.actor, tx.action))
  {
    var a, keys := tx.action, DeclaredKeys(tx.actor, tx.action);
    AgreeParts(s, u, keys);
    if a.CreateMarket? {
      CreateMarketReads(s.board, u.board, a.market, a.outcomes, a.resolutionTime, a.creatorBond, a.question, keys);
      BondedReads(s, u, tx.actor, a.creatorBond,
                  Clearing.CreateMarket(s.board, a.market, a.outcomes, a.resolutionTime, a.creatorBond, a.question),
                  Clearing.CreateMarket(u.board, a.market, a.outcomes, a.resolutionTime, a.creatorBond, a.question),
                  keys);
    } else if a.Dispute? {
      DisputeReads(s.board, u.board, a.market, a.bond, a.evidence, keys);
      BondedReads(s, u, tx.actor, a.bond, Clearing.Dispute(s.board, a.market, a.bond, a.evidence),
                  Clearing.Dispute(u.board, a.market, a.bond, a.evidence), keys);
    } else {
      MoveReads(sha, s, u, tx);
    }
  }

  lemma BondedReads(s: State, u: State, actor: Address, bond: u64, r: Result<Board>, q: Result<Board>, keys: seq<Key>)
    requires Agree(s, u, keys) && SameBoards(r, q, keys) && VeilOf(actor) in keys
    ensures SameStates(Bonded(s, actor, bond, r), Bonded(u, actor, bond, q), keys)
  {
    AgreeParts(s, u, keys);
    DebitReads(s.bank, u.bank, actor, Amm.VEIL, bond, keys);
    var d, e := Amm.DebitAsset(s.bank, actor, Amm.VEIL, bond), Amm.DebitAsset(u.bank, actor, Amm.VEIL, bond);
    if r.Ok? && d.Ok? {
      AgreeWhole(s, u, s.(bank := d.value, board := r.value), u.(bank := e.value, board := q.value), keys);
    }
  }

  lemma MoveReads(sha: Hash, s: State, u: State, tx: Tx)
    requires BoardAction(tx.action) && !tx.action.CreateMarket? && !tx.action.Dispute?
    requires Agree(s, u, DeclaredKeys(tx.actor, tx.action))
    ensures SameStates(WithBoard(s, BoardMove(sha, s.board, IsGovernance(s, tx.actor), tx)),
                       WithBoard(u, BoardMove(sha, u.board, IsGovernance(u, tx.actor), tx)),
                       DeclaredKeys(tx.actor, tx.action))
  {
    var a, keys := tx.action, DeclaredKeys(tx.actor, tx.action);
    var g, h := IsGovernance(s, tx.actor), IsGovernance(u, tx.actor);
    AgreeParts(s, u, keys);
    if a.SetProofConfig? { assert Alike(s, u, SingletonKey(TreasuryConfigKey)); }
    BoardReads(sha, s.board, u.board, g, tx);
    assert BoardMove(sha, u.board, g, tx) == BoardMove(sha, u.board, h, tx);
    var r, q := BoardMove(sha, s.board, g, tx), BoardMove(sha, u.board, h, tx);
    if r.Ok? { AgreeWhole(s, u, s.(board := r.value), u.(board := q.value), keys); }
  }

  /**
   An action reads nothing but its declared keys: on states that agree there it gives the same verdict, and leaves
   states that agree there.
   */
  lemma StepReads(sha: Hash, s: State, u: State, tx: Tx)
    requires Agree(s, u, DeclaredKeys(tx.actor, tx.action))
    ensures SameStates(Execute(sha, s, tx), Execute(sha, u, tx), DeclaredKeys(tx.actor, tx.action))
  {
    if BankAction(tx.action) {
      BankStepReads(sha, s, u, tx);
    } else if EconAction(tx.action) {
      EconReads(s, u, tx.actor, tx.now, tx.action);
    } else {
      BoardStepReads(sha, s, u, tx);
    }
  }

  /** Whatever an action may write it also declares. */
  lemma WritesAreDeclared(actor: Address, a: Action, k: Key)
    requires k in WriteKeys(actor, a)
    ensures k in DeclaredKeys(actor, a)
  {
  }
}
