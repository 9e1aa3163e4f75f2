/** The byte keys of the store. */
module StorageKeys {
  import opened Words
  import opened Wire
  import Amm

  datatype Single =
    | TreasuryConfigKey | TreasuryStateKey | FeeRouterConfigKey | FeeRouterStateKey | VaiConfigKey | VaiStateKey
    | RiskConfigKey | ReserveStateKey | ProofConfigKey
  datatype PerAccount = VeilBalance | VaiBalance | BloodswornOf
  datatype PerWindow = BatchResultOf | BatchProofOf | VellumProofOf | GlyphOf

  /** A key by what it addresses. A dispute is the oracle key at the largest index. */
  datatype Key =
    | SingletonKey(which: Single)
    | AccountKey(kind: PerAccount, who: Address)
    | MarketKey(market: Id)
    | CommitmentKey(market: Id, window: u64, who: Address)
    | WindowKey(item: PerWindow, market: Id, window: u64)
    | OracleKey(market: Id, index: u32)
    | PoolKey(asset0: u8, asset1: u8)
    | LpBalanceKey(asset0: u8, asset1: u8, who: Address)

  function DisputeKey(market: Id): Key { OracleKey(market, 0xFFFF_FFFF) }

  /** The prefix byte, counted from the first one free for applications. */
  function Prefix(k: Key): (p: nat)
    ensures p <= 20
  {
    match k
    case AccountKey(VeilBalance, _) => 0
    case MarketKey(_) => 1
    case CommitmentKey(_, _, _) => 2
    case WindowKey(BatchResultOf, _, _) => 3
    case OracleKey(_, _) => 4
    case SingletonKey(TreasuryConfigKey) => 5
    case SingletonKey(TreasuryStateKey) => 6
    case SingletonKey(FeeRouterConfigKey) => 7
    case SingletonKey(FeeRouterStateKey) => 8
    case SingletonKey(VaiConfigKey) => 9
    case SingletonKey(VaiStateKey) => 10
    case AccountKey(VaiBalance, _) => 11
    case PoolKey(_, _) => 12
    case LpBalanceKey(_, _, _) => 13
    case SingletonKey(RiskConfigKey) => 14
    case SingletonKey(ReserveStateKey) => 15
    case SingletonKey(ProofConfigKey) => 16
    case WindowKey(BatchProofOf, _, _) => 17
    case WindowKey(VellumProofOf, _, _) => 18
    case AccountKey(BloodswornOf, _) => 19
    case WindowKey(GlyphOf, _, _) => 20
  }

  /** The size hint every key ends with; it depends on the prefix alone. */
  function Chunks(prefix: nat): u16 {
    if prefix == 0 || prefix == 11 || prefix == 13 then 1
    else if prefix == 7 then 2
    else if prefix == 1 || prefix == 4 || prefix == 17 then 8
    else if prefix == 2 || prefix == 20 then 16
    else if prefix == 18 then 128
    else 4
  }

  function Payload(k: Key): Bytes {
    match k
    case SingletonKey(_) => []
    case AccountKey(_, who) => who
    case MarketKey(market) => market
    case CommitmentKey(market, window, who) => market + (U64(window) + who)
    case WindowKey(_, market, window) => market + U64(window)
    case OracleKey(market, index) => market + U32(index)
    case PoolKey(a, b) => [Amm.SortedPair(a, b).0] + [Amm.SortedPair(a, b).1]
    case LpBalanceKey(a, b, who) => [Amm.SortedPair(a, b).0] + ([Amm.SortedPair(a, b).1] + who)
  }

  /** `first` is the first prefix the platform leaves to applications. */
  function KeyBytes(first: u8, k: Key): Bytes
    requires first + 20 < 256
  {
    [first + Prefix(k)] + Payload(k) + U16(Chunks(Prefix(k)))
  }

  /** Keys that mean the same: pools are unordered pairs. */
  function Canon(k: Key): Key {
    match k
    case PoolKey(a, b) => var (x, y) := Amm.SortedPair(a, b); PoolKey(x, y)
    case LpBalanceKey(a, b, who) => var (x, y) := Amm.SortedPair(a, b); LpBalanceKey(x, y, who)
    case _ => k
  }

  lemma PayloadLength(k: Key, l: Key)
    requires Prefix(k) == Prefix(l)
    ensures |Payload(k)| == |Payload(l)|
  {
  }

  /** Within one kind the payload determines the key. */
  lemma PayloadInjective(k: Key, l: Key)
    requires Prefix(k) == Prefix(l) && Payload(k) == Payload(l)
    ensures Canon(k) == Canon(l)
  {
    match k
    case SingletonKey(_) =>
    case AccountKey(_, _) =>
    case MarketKey(_) =>
    case CommitmentKey(m, w, a) =>
      SplitConcat(m, U64(w) + a, l.market, U64(l.window) + l.who);
      SplitConcat(U64(w), a, U64(l.window), l.who);
      U64Injective(w, l.window);
    case WindowKey(_, m, w) =>
      SplitConcat(m, U64(w), l.market, U64(l.window));
      U64Injective(w, l.window);
    case OracleKey(m, i) =>
      SplitConcat(m, U32(i), l.market, U32(l.index));
      WordRoundTrips(0, i, 0, 0);
      WordRoundTrips(0, l.index, 0, 0);
    case PoolKey(a, b) =>
      var (x, y) := Amm.SortedPair(a, b);
      var (u, v) := Amm.SortedPair(l.asset0, l.asset1);
      SplitConcat([x], [y], [u], [v]);
    case LpBalanceKey(a, b, who) =>
      var (x, y) := Amm.SortedPair(a, b);
      var (u, v) := Amm.SortedPair(l.asset0, l.asset1);
      SplitConcat([x], [y] + who, [u], [v] + l.who);
      SplitConcat([y], who, [v], l.who);
  }

  /** Two keys have the same bytes exactly when they mean the same; only a pair's order is forgotten. */
  lemma KeyBytesInjective(first: u8, k: Key, l: Key)
    requires first + 20 < 256
    ensures KeyBytes(first, k) == KeyBytes(first, l) <==> Canon(k) == Canon(l)
  {
    var a, b := KeyBytes(first, k), KeyBytes(first, l);
    if a == b {
      assert a[0] == first + Prefix(k) && b[0] == first + Prefix(l);
      PayloadLength(k, l);
      assert Payload(k) == a[1..1 + |Payload(k)|] && Payload(l) == b[1..1 + |Payload(l)|];
      PayloadInjective(k, l);
    }
    if Canon(k) == Canon(l) {
      assert Prefix(k) == Prefix(Canon(k)) && Prefix(l) == Prefix(Canon(l));
      assert Payload(k) == Payload(Canon(k)) && Payload(l) == Payload(Canon(l));
    }
  }

  /** The dispute of a market shares its key with exactly one oracle slot. */
  lemma DisputeKeyAliases(first: u8, market: Id, k: Key)
    requires first + 20 < 256
    ensures KeyBytes(first, k) == KeyBytes(first, DisputeKey(market)) <==> k == OracleKey(market, 0xFFFF_FFFF)
  {
    KeyBytesInjective(first, k, DisputeKey(market));
  }
}
