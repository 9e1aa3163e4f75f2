/** The state key by key, and the keys that each action declares for writing. */
module StateKeys {
  import opened Words
  import opened Wire
  import opened Balances
  import opened Preimage
  import opened Clearing
  import opened Chain
  import opened StorageKeys
  import opened ByteStore
  import opened BoardProofs
  import Amm

  // ----- The state, key by key -----

  predicate BankKey(k: Key) { k.PoolKey? || k.LpBalanceKey? || (k.AccountKey? && k.kind != BloodswornOf) }
  predicate EconKey(k: Key) { k.SingletonKey? && k.which != ProofConfigKey }
  predicate BoardKey(k: Key) { !BankKey(k) && !EconKey(k) }

  function AmountAt(m: Accounts, who: Address): Option<Entry> {
    if who in m then Some(AmountEntry(m[who])) else None
  }

  /** The pair of the one pool, in either order. */
  predicate VeilVai(a: u8, b: u8) { Amm.SortedPair(a, b) == (Amm.VEIL, Amm.VAI) }

  function BankLookup(b: Amm.Bank, k: Key): Option<Entry>
    requires BankKey(k)
  {
    match k
    case AccountKey(VeilBalance, who) => AmountAt(b.veil, who)
    case AccountKey(VaiBalance, who) => AmountAt(b.vai, who)
    case PoolKey(x, y) => if VeilVai(x, y) && b.pool.Some? then Some(PoolEntry(b.pool.value)) else None
    case LpBalanceKey(x, y, who) => if VeilVai(x, y) then AmountAt(b.lp, who) else None
  }

  function EconLookup(e: Econ, k: Key): Option<Entry>
    requires EconKey(k)
  {
    match k.which
    case TreasuryConfigKey => Some(TreasuryConfigEntry(e.treasuryCfg))
    case TreasuryStateKey => Some(TreasuryEntry(e.treasury))
    case FeeRouterConfigKey => Some(FeeConfigEntry(e.feeCfg))
    case FeeRouterStateKey => Some(FeesEntry(e.fees))
    case VaiConfigKey => Some(VaiConfigEntry(e.vaiCfg))
    case VaiStateKey => Some(VaiEntry(e.vai))
    case RiskConfigKey => Some(RiskEntry(e.risk))
    case ReserveStateKey => Some(ReserveEntry(e.reserve))
  }

  /** A batch result is stored as raw bytes. */
  function ResultBytes(r: BatchResult): Bytes { U64(r.price) + (U64(r.volume) + r.fillsHash) }

  function RawAt<K>(m: map<K, Bytes>, k: K): Option<Entry> {
    if k in m then Some(RawEntry(m[k])) else None
  }

  function WindowLookup(b: Board, item: PerWindow, slot: Slot): Option<Entry> {
    match item
    case BatchResultOf => if slot in b.batches then Some(RawEntry(ResultBytes(b.batches[slot]))) else None
    case BatchProofOf => if slot in b.proofs.records then Some(RecordEntry(b.proofs.records[slot])) else None
    case VellumProofOf => if slot in b.proofs.blobs then Some(VellumEntry(b.proofs.blobs[slot])) else None
    case GlyphOf => if slot in b.proofs.glyphs then Some(GlyphEntry(b.proofs.glyphs[slot])) else None
  }

  function BoardLookup(b: Board, k: Key): Option<Entry>
    requires BoardKey(k)
  {
    match k
    case SingletonKey(_) => Some(ProofConfigEntry(b.config))
    case AccountKey(_, who) => if who in b.proofs.sworn then Some(SwornEntry(b.proofs.sworn[who])) else None
    case MarketKey(id) => if id in b.markets then Some(MarketEntry(b.markets[id])) else None
    case CommitmentKey(id, window, who) => RawAt(b.orders, OrderSlot(id, window, who))
    case OracleKey(id, index) => RawAt(b.oracle, OracleSlot(id, index))
    case WindowKey(item, id, window) => WindowLookup(b, item, Slot(id, window))
  }

  /** What the store holds under a key. */
  function Lookup(s: State, k: Key): Option<Entry> {
    if BankKey(k) then BankLookup(s.bank, k)
    else if EconKey(k) then EconLookup(s.econ, k)
    else BoardLookup(s.board, k)
  }

  lemma LookupCanon(s: State, k: Key)
    ensures Lookup(s, Canon(k)) == Lookup(s, k)
  {
  }

  // ----- The keys an action declares for writing -----

  function VeilOf(who: Address): Key { AccountKey(VeilBalance, who) }
  function VaiOf(who: Address): Key { AccountKey(VaiBalance, who) }

  /** The keys an action may write, as its StateKeys declares them; the fee is the sponsor's. */
  function WriteKeys(actor: Address, a: Action): seq<Key> {
    match a
    case Transfer(to, _, _) => [VeilOf(actor), VeilOf(to)]
    case CreateMarket(id, _, _, _, _) => [VeilOf(actor), MarketKey(id)]
    case CommitOrder(slot, _, _) => [CommitmentKey(slot.market, slot.window, actor)]
    case RevealBatch(slot, index, _) => [OracleKey(slot.market, index)]
    case ClearBatch(x) => [WindowKey(BatchResultOf, x.market, x.window)]
    case ResolveMarket(id, _, _) => [MarketKey(id)]
    case Dispute(id, _, _) => [VeilOf(actor), MarketKey(id), DisputeKey(id)]
    case RouteFees(_) => [VeilOf(actor), SingletonKey(FeeRouterStateKey)]
    case ReleaseTranche(_) => [SingletonKey(TreasuryStateKey)]
    case MintVai(to, _) => [SingletonKey(VaiStateKey), VaiOf(to)]
    case BurnVai(_) => [VaiOf(actor), SingletonKey(VaiStateKey)]
    case CreatePool(x, y, _) => [Canon(PoolKey(x, y))]
    case AddLiquidity(x, y, _, _, _) =>
      [VeilOf(actor), VaiOf(actor), Canon(PoolKey(x, y)), Canon(LpBalanceKey(x, y, actor))]
    case RemoveLiquidity(x, y, _, _, _) =>
      [VeilOf(actor), VaiOf(actor), Canon(PoolKey(x, y)), Canon(LpBalanceKey(x, y, actor))]
    case SwapExactIn(x, y, _, _) => [VeilOf(actor), VaiOf(actor), Canon(PoolKey(x, y))]
    case UpdateReserve(_) => [SingletonKey(ReserveStateKey)]
    case SetRiskParams(_) => [SingletonKey(RiskConfigKey)]
    case SubmitBatchProof(p) =>
      [WindowKey(BatchProofOf, p.slot.market, p.slot.window), WindowKey(VellumProofOf, p.slot.market, p.slot.window),
       AccountKey(BloodswornOf, actor), WindowKey(GlyphOf, p.slot.market, p.slot.window)]
    case SetProofConfig(_) => [SingletonKey(ProofConfigKey)]
    case DeductFee(_) => [VeilOf(actor)]
  }

  /** Accounts other than the one debited or credited stay as they are. */
  predicate SameAt(b: Amm.Bank, c: Amm.Bank, k: Key)
    requires BankKey(k)
  {
    BankLookup(c, k) == BankLookup(b, k)
  }

  lemma DebitFrame(b: Amm.Bank, who: Address, asset: u8, amount: u64, c: Amm.Bank, k: Key)
    requires Amm.DebitAsset(b, who, asset, amount) == Ok(c) && BankKey(k)
    requires k != if asset == Amm.VEIL then VeilOf(who) else VaiOf(who)
    ensures SameAt(b, c, k)
  {
  }

  lemma CreditFrame(b: Amm.Bank, who: Address, asset: u8, amount: u64, c: Amm.Bank, k: Key)
    requires Amm.CreditAsset(b, who, asset, amount) == Ok(c) && BankKey(k)
    requires k != if asset == Amm.VEIL then VeilOf(who) else VaiOf(who)
    ensures SameAt(b, c, k)
  {
  }

  lemma TransferFrame(b: Amm.Bank, from: Address, to: Address, value: u64, memo: nat, c: Amm.Bank, k: Key)
    requires Amm.Transfer(b, from, to, value, memo) == Ok(c) && BankKey(k) && k != VeilOf(from) && k != VeilOf(to)
    ensures SameAt(b, c, k)
  {
    var b1 := Amm.DebitAsset(b, from, Amm.VEIL, value).value;
    DebitFrame(b, from, Amm.VEIL, value, b1, k);
    CreditFrame(b1, to, Amm.VEIL, value, c, k);
  }

  /** A pool action moves the actor's two balances, the pool and at most the actor's LP balance. */
  predicate PoolKeys(actor: Address, k: Key) {
    || k == VeilOf(actor) || k == VaiOf(actor)
    || (k.PoolKey? && VeilVai(k.asset0, k.asset1))
    || (k.LpBalanceKey? && VeilVai(k.asset0, k.asset1) && k.who == actor)
  }

  lemma AddFrame(b: Amm.Bank, actor: Address, a0: u8, a1: u8, x: u64, y: u64, minLp: u64, c: Amm.Bank, k: Key)
    requires Amm.AddLiquidity(b, actor, a0, a1, x, y, minLp) == Ok(c) && BankKey(k) && !PoolKeys(actor, k)
    ensures SameAt(b, c, k) && VeilVai(a0, a1)
  {
    var b1 := Amm.DebitAsset(b, actor, a0, x).value;
    var b2 := Amm.DebitAsset(b1, actor, a1, y).value;
    DebitFrame(b, actor, a0, x, b1, k);
    DebitFrame(b1, actor, a1, y, b2, k);
    assert c == b2.(pool := c.pool, lp := c.lp) && b2.lp == b.lp;
  }

  lemma RemoveFrame(b: Amm.Bank, actor: Address, a0: u8, a1: u8, lp: u64, min0: u64, min1: u64, c: Amm.Bank, k: Key)
    requires Amm.RemoveLiquidity(b, actor, a0, a1, lp, min0, min1) == Ok(c) && BankKey(k) && !PoolKeys(actor, k)
    ensures SameAt(b, c, k) && VeilVai(a0, a1)
  {
    var p := b.pool.value;
    var (o0, o1) := Amm.WithdrawalFor(p, lp).value;
    var b0 := b.(pool := Some(Amm.Withdraw(p, lp, o0, o1).value), lp := Debit(b.lp, actor, lp).value);
    var b1 := Amm.CreditAsset(b0, actor, p.asset0, o0).value;
    CreditFrame(b0, actor, p.asset0, o0, b1, k);
    CreditFrame(b1, actor, p.asset1, o1, c, k);
    assert SameAt(b, b0, k);
  }

  lemma SwapFrame(b: Amm.Bank, actor: Address, i: u8, o: u8, amountIn: u64, minOut: u64, c: Amm.Bank, k: Key)
    requires Amm.SwapExactIn(b, actor, i, o, amountIn, minOut) == Ok(c) && BankKey(k)
    requires k != VeilOf(actor) && k != VaiOf(actor) && !(k.PoolKey? && VeilVai(k.asset0, k.asset1))
    ensures SameAt(b, c, k) && VeilVai(i, o)
  {
    var b1 := Amm.DebitAsset(b, actor, i, amountIn).value;
    DebitFrame(b, actor, i, amountIn, b1, k);
    var p := b.pool.value;
    var forward := Amm.SwapDirection(p, i, o).value;
    var rin, rout := if forward then p.reserve0 else p.reserve1, if forward then p.reserve1 else p.reserve0;
    var out := Amm.SwapOutput(rin, rout, p.feeBips, amountIn, minOut).value;
    var b2 := b1.(pool := Some(Amm.Trade(p, forward, amountIn, out).value));
    CreditFrame(b2, actor, o, out, c, k);
  }

  lemma AddStepFrame(b: Amm.Bank, actor: Address, a: Action, c: Amm.Bank, k: Key)
    requires a.AddLiquidity? && BankKey(k) && Canon(k) !in WriteKeys(actor, a)
    requires Amm.AddLiquidity(b, actor, a.asset0, a.asset1, a.amount0, a.amount1, a.minLp) == Ok(c)
    ensures SameAt(b, c, k)
  {
    AddFrame(b, actor, a.asset0, a.asset1, a.amount0, a.amount1, a.minLp, c, k);
  }

  lemma RemoveStepFrame(b: Amm.Bank, actor: Address, a: Action, c: Amm.Bank, k: Key)
    requires a.RemoveLiquidity? && BankKey(k) && Canon(k) !in WriteKeys(actor, a)
    requires Amm.RemoveLiquidity(b, actor, a.asset0, a.asset1, a.lp, a.min0, a.min1) == Ok(c)
    ensures SameAt(b, c, k)
  {
    RemoveFrame(b, actor, a.asset0, a.asset1, a.lp, a.min0, a.min1, c, k);
  }

  lemma SwapStepFrame(b: Amm.Bank, actor: Address, a: Action, c: Amm.Bank, k: Key)
    requires a.SwapExactIn? && BankKey(k) && Canon(k) !in WriteKeys(actor, a)
    requires Amm.SwapExactIn(b, actor, a.assetIn, a.assetOut, a.amountIn, a.minOut) == Ok(c)
    ensures SameAt(b, c, k)
  {
    SwapFrame(b, actor, a.assetIn, a.assetOut, a.amountIn, a.minOut, c, k);
  }

  lemma CreateFrame(b: Amm.Bank, governance: bool, x: u8, y: u8, fee: u16, c: Amm.Bank, k: Key)
    requires Amm.CreatePool(b, governance, x, y, fee) == Ok(c) && BankKey(k) && Canon(k) != Canon(PoolKey(x, y))
    ensures SameAt(b, c, k)
  {
  }

  lemma BankFrame(b: Amm.Bank, governance: bool, actor: Address, a: Action, c: Amm.Bank, k: Key)
    requires BankAction(a) && BankStep(b, governance, actor, a) == Ok(c) && BankKey(k)
    requires Canon(k) !in WriteKeys(actor, a)
    ensures SameAt(b, c, k)
  {
    if a.Transfer? {
      TransferFrame(b, actor, a.to, a.value, |a.memo|, c, k);
    } else if a.DeductFee? {
      DebitFrame(b, actor, Amm.VEIL, a.amount, c, k);
    } else if a.CreatePool? {
      CreateFrame(b, governance, a.asset0, a.asset1, a.feeBips, c, k);
    } else if a.AddLiquidity? {
      AddStepFrame(b, actor, a, c, k);
    } else if a.RemoveLiquidity? {
      RemoveStepFrame(b, actor, a, c, k);
    } else {
      SwapStepFrame(b, actor, a, c, k);
    }
  }

  lemma EconStepFrame(s: State, actor: Address, now: i64, a: Action, t: State, k: Key)
    requires EconAction(a) && EconStep(s, actor, now, a) == Ok(t) && Canon(k) !in WriteKeys(actor, a)
    ensures Lookup(t, k) == Lookup(s, k)
  {
  }

  lemma MarketFrame(sha: Hash, b: Board, tx: Tx, c: Board, k: Key)
    requires BoardMoves(sha, b, tx, c) && BoardKey(k) && Canon(k) !in WriteKeys(tx.actor, tx.action)
    requires tx.action.CreateMarket? || tx.action.ResolveMarket? || tx.action.Dispute?
    ensures BoardLookup(c, k) == BoardLookup(b, k)
  {
  }

  lemma OrderFrame(sha: Hash, b: Board, tx: Tx, c: Board, k: Key)
    requires BoardMoves(sha, b, tx, c) && BoardKey(k) && Canon(k) !in WriteKeys(tx.actor, tx.action)
    requires tx.action.CommitOrder? || tx.action.RevealBatch?
    ensures BoardLookup(c, k) == BoardLookup(b, k)
  {
  }

  lemma ProofFrame(sha: Hash, b: Board, tx: Tx, c: Board, k: Key)
    requires BoardMoves(sha, b, tx, c) && BoardKey(k) && Canon(k) !in WriteKeys(tx.actor, tx.action)
    requires tx.action.SubmitBatchProof? || tx.action.ClearBatch? || tx.action.SetProofConfig?
    ensures BoardLookup(c, k) == BoardLookup(b, k)
  {
  }

  /** No action changes a key that it has not declared for writing. */
  lemma StepFrame(sha: Hash, s: State, tx: Tx, t: State, k: Key)
    requires Execute(sha, s, tx) == Ok(t) && Canon(k) !in WriteKeys(tx.actor, tx.action)
    ensures Lookup(t, k) == Lookup(s, k)
  {
    var a := tx.action;
    if BankAction(a) {
      if BankKey(k) { BankFrame(s.bank, IsGovernance(s, tx.actor), tx.actor, a, t.bank, k); }
    } else if EconAction(a) {
      EconStepFrame(s, tx.actor, tx.now, a, t, k);
    } else {
      BoardStepFrame(sha, s, tx, t, k);
    }
  }

  lemma BoardStepFrame(sha: Hash, s: State, tx: Tx, t: State, k: Key)
    requires BoardAction(tx.action) && Execute(sha, s, tx) == Ok(t) && Canon(k) !in WriteKeys(tx.actor, tx.action)
    ensures Lookup(t, k) == Lookup(s, k)
  {
    var a := tx.action;
    BoardFrame(sha, s, tx, t);
    if BankKey(k) {
      if a.CreateMarket? { DebitFrame(s.bank, tx.actor, Amm.VEIL, a.creatorBond, t.bank, k); }
      if a.Dispute? { DebitFrame(s.bank, tx.actor, Amm.VEIL, a.bond, t.bank, k); }
    } else if BoardKey(k) {
      if a.CreateMarket? || a.ResolveMarket? || a.Dispute? {
        MarketFrame(sha, s.board, tx, t.board, k);
      } else if a.CommitOrder? || a.RevealBatch? {
        OrderFrame(sha, s.board, tx, t.board, k);
      } else {
        ProofFrame(sha, s.board, tx, t.board, k);
      }
    }
  }
}
