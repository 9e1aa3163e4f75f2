/** The byte-keyed store behaves like independent typed maps. */
module ByteStore {
  import opened Words
  import opened Economy
  import opened Clearing
  import opened StorageKeys
  import opened StorageCodecs
  import Amm

  /** A stored value; commitments, oracle shares, disputes and batch results are written as raw bytes. */
  datatype Entry =
    | AmountEntry(amount: u64)
    | MarketEntry(listing: Market)
    | PoolEntry(pool: Amm.Pool)
    | TreasuryConfigEntry(treasuryConfig: TreasuryConfig)
    | TreasuryEntry(treasury: Treasury)
    | FeeConfigEntry(feeConfig: FeeConfig)
    | FeesEntry(fees: Fees)
    | VaiConfigEntry(vaiConfig: VaiConfig)
    | VaiEntry(vai: Vai)
    | RiskEntry(risk: Risk)
    | ReserveEntry(reserve: Reserve)
    | ProofConfigEntry(config: ProofConfig)
    | RecordEntry(record: Record)
    | VellumEntry(proof: Bytes)
    | SwornEntry(sworn: Bloodsworn)
    | GlyphEntry(glyph: Glyph)
    | RawEntry(raw: Bytes)

  function Encode(e: Entry): Result<Bytes> {
    match e
    case AmountEntry(n) => Ok(PutAmount(n))
    case MarketEntry(m) => Ok(PutMarket(m))
    case PoolEntry(p) => Ok(PutPool(p))
    case TreasuryConfigEntry(c) => Ok(PutTreasuryConfig(c))
    case TreasuryEntry(t) => Ok(PutTreasury(t))
    case FeeConfigEntry(c) => Ok(PutFeeConfig(c))
    case FeesEntry(f) => Ok(PutFees(f))
    case VaiConfigEntry(c) => Ok(PutVaiConfig(c))
    case VaiEntry(v) => Ok(PutVai(v))
    case RiskEntry(r) => PutRisk(r)
    case ReserveEntry(r) => Ok(PutReserve(r))
    case ProofConfigEntry(c) => PutProofConfig(c)
    case RecordEntry(r) => PutRecord(r)
    case VellumEntry(p) => PutVellum(p)
    case SwornEntry(w) => Ok(PutSworn(w))
    case GlyphEntry(g) => PutGlyph(g)
    case RawEntry(b) => Ok(b)
  }

  datatype Kind =
    | Amounts | Markets | Pools | TreasuryConfigs | Treasuries | FeeConfigs | FeeStates | VaiConfigs | VaiStates
    | Risks | Reserves | ProofConfigs | Records | Vellums | Sworns | Glyphs | Raws

  function KindOfKey(k: Key): Kind {
    match k
    case AccountKey(BloodswornOf, _) => Sworns
    case AccountKey(_, _) => Amounts
    case LpBalanceKey(_, _, _) => Amounts
    case MarketKey(_) => Markets
    case PoolKey(_, _) => Pools
    case SingletonKey(TreasuryConfigKey) => TreasuryConfigs
    case SingletonKey(TreasuryStateKey) => Treasuries
    case SingletonKey(FeeRouterConfigKey) => FeeConfigs
    case SingletonKey(FeeRouterStateKey) => FeeStates
    case SingletonKey(VaiConfigKey) => VaiConfigs
    case SingletonKey(VaiStateKey) => VaiStates
    case SingletonKey(RiskConfigKey) => Risks
    case SingletonKey(ReserveStateKey) => Reserves
    case SingletonKey(ProofConfigKey) => ProofConfigs
    case WindowKey(BatchProofOf, _, _) => Records
    case WindowKey(VellumProofOf, _, _) => Vellums
    case WindowKey(GlyphOf, _, _) => Glyphs
    case WindowKey(BatchResultOf, _, _) => Raws
    case CommitmentKey(_, _, _) => Raws
    case OracleKey(_, _) => Raws
  }

  function KindOfEntry(e: Entry): Kind {
    match e
    case AmountEntry(_) => Amounts
    case MarketEntry(_) => Markets
    case PoolEntry(_) => Pools
    case TreasuryConfigEntry(_) => TreasuryConfigs
    case TreasuryEntry(_) => Treasuries
    case FeeConfigEntry(_) => FeeConfigs
    case FeesEntry(_) => FeeStates
    case VaiConfigEntry(_) => VaiConfigs
    case VaiEntry(_) => VaiStates
    case RiskEntry(_) => Risks
    case ReserveEntry(_) => Reserves
    case ProofConfigEntry(_) => ProofConfigs
    case RecordEntry(_) => Records
    case VellumEntry(_) => Vellums
    case SwornEntry(_) => Sworns
    case GlyphEntry(_) => Glyphs
    case RawEntry(_) => Raws
  }

  /** Read a value of the given kind. */
  function Decode(kind: Kind, b: Bytes): Result<Entry> {
    match kind
    case Amounts => var v :- GetAmount(b); Ok(AmountEntry(v))
    case Markets => var v :- GetMarket(b); Ok(MarketEntry(v))
    case Pools => var v :- GetPool(b); Ok(PoolEntry(v))
    case TreasuryConfigs => var v :- GetTreasuryConfig(b); Ok(TreasuryConfigEntry(v))
    case Treasuries => var v :- GetTreasury(b); Ok(TreasuryEntry(v))
    case FeeConfigs => var v :- GetFeeConfig(b); Ok(FeeConfigEntry(v))
    case FeeStates => var v :- GetFees(b); Ok(FeesEntry(v))
    case VaiConfigs => var v :- GetVaiConfig(b); Ok(VaiConfigEntry(v))
    case VaiStates => var v :- GetVai(b); Ok(VaiEntry(v))
    case Risks => var v :- GetRisk(b); Ok(RiskEntry(v))
    case Reserves => var v :- GetReserve(b); Ok(ReserveEntry(v))
    case ProofConfigs => var v :- GetProofConfig(b); Ok(ProofConfigEntry(v))
    case Records => var v :- GetRecord(b); Ok(RecordEntry(v))
    case Vellums => var v :- GetVellum(b); Ok(VellumEntry(v))
    case Sworns => var v :- GetSworn(b); Ok(SwornEntry(v))
    case Glyphs => var v :- GetGlyph(b); Ok(GlyphEntry(v))
    case Raws => Ok(RawEntry(b))
  }

  /** The entries the actions write: accepted by Put, pools sorted, fee shares complete. */
  predicate Writable(e: Entry) {
    && Encode(e).Ok?
    && (e.PoolEntry? ==> e.pool.asset0 <= e.pool.asset1)
    && (e.FeeConfigEntry? ==> ValidFeeConfig(e.feeConfig))
  }

  predicate TokenEntry(e: Entry) { e.AmountEntry? || e.PoolEntry? || e.TreasuryEntry? || e.FeesEntry? || e.VaiEntry? }

  predicate ConfigEntry(e: Entry) {
    || e.TreasuryConfigEntry? || e.FeeConfigEntry? || e.VaiConfigEntry?
    || e.RiskEntry? || e.ReserveEntry? || e.ProofConfigEntry?
  }

  lemma TokenRoundTrip(e: Entry)
    requires Writable(e) && TokenEntry(e)
    ensures Decode(KindOfEntry(e), Encode(e).value) == Ok(e)
  {
    match e
    case AmountEntry(n) => U64s(n, 0, 0);
    case PoolEntry(p) => PoolRoundTrip(p);
    case TreasuryEntry(t) => TreasuryRoundTrip(t);
    case FeesEntry(f) => FeesRoundTrip(f);
    case VaiEntry(v) => VaiRoundTrip(v);
  }

  lemma ConfigRoundTrip(e: Entry)
    requires Writable(e) && ConfigEntry(e)
    ensures Decode(KindOfEntry(e), Encode(e).value) == Ok(e)
  {
    match e
    case TreasuryConfigEntry(c) => TreasuryConfigRoundTrip(c);
    case FeeConfigEntry(c) => FeeConfigRoundTrip(c);
    case VaiConfigEntry(c) => VaiConfigRoundTrip(c);
    case RiskEntry(r) => RiskRoundTrip(r);
    case ReserveEntry(r) => ReserveRoundTrip(r);
    case ProofConfigEntry(c) => ProofConfigRoundTrip(c);
  }

  predicate ProofEntry(e: Entry) { e.RecordEntry? || e.VellumEntry? || e.GlyphEntry? }

  lemma ProofRoundTrip(e: Entry)
    requires Writable(e) && ProofEntry(e)
    ensures Decode(KindOfEntry(e), Encode(e).value) == Ok(e)
  {
    match e
    case RecordEntry(r) => RecordRoundTrip(r);
    case VellumEntry(p) => VellumRoundTrip(p);
    case GlyphEntry(g) => GlyphRoundTrip(g);
  }

  lemma OtherRoundTrip(e: Entry)
    requires Writable(e) && (e.MarketEntry? || e.SwornEntry? || e.RawEntry?)
    ensures Decode(KindOfEntry(e), Encode(e).value) == Ok(e)
  {
    match e
    case MarketEntry(m) => MarketRoundTrip(m);
    case SwornEntry(w) => SwornRoundTrip(w);
    case RawEntry(_) =>
  }

  /** Every value the actions store is read back as it was written. */
  lemma EntryRoundTrip(e: Entry)
    requires Writable(e)
    ensures Decode(KindOfEntry(e), Encode(e).value) == Ok(e)
  {
    if TokenEntry(e) {
      TokenRoundTrip(e);
    } else if ConfigEntry(e) {
      ConfigRoundTrip(e);
    } else if ProofEntry(e) {
      ProofRoundTrip(e);
    } else {
      OtherRoundTrip(e);
    }
  }

  // ----- Histories of writes -----

  datatype Write = Insert(key: Key, entry: Entry) | Remove(key: Key)

  predicate Legal(w: Write) {
    w.Insert? ==> KindOfKey(w.key) == KindOfEntry(w.entry) && Writable(w.entry)
  }

  /** The store as one map per kind of key, addressed by meaning. */
  function Typed(ws: seq<Write>): map<Key, Entry> {
    if ws == [] then map[]
    else
      var m, w := Typed(ws[..|ws| - 1]), ws[|ws| - 1];
      match w
      case Insert(k, e) => m[Canon(k) := e]
      case Remove(k) => m - {Canon(k)}
  }

  /** The store as the database sees it. */
  function Raw(first: u8, ws: seq<Write>): map<Bytes, Bytes>
    requires first + 20 < 256 && forall i :: 0 <= i < |ws| ==> Legal(ws[i])
  {
    if ws == [] then map[]
    else
      var m, w := Raw(first, ws[..|ws| - 1]), ws[|ws| - 1];
      assert Legal(w);
      match w
      case Insert(k, e) => m[KeyBytes(first, k) := Encode(e).value]
      case Remove(k) => m - {KeyBytes(first, k)}
  }

  /** Reading a key through the bytes. */
  function Read(first: u8, m: map<Bytes, Bytes>, k: Key): Option<Result<Entry>>
    requires first + 20 < 256
  {
    if KeyBytes(first, k) in m then Some(Decode(KindOfKey(k), m[KeyBytes(first, k)])) else None
  }

  /** After any history of writes, reading bytes under any key gives what the typed maps hold. */
  lemma {:induction false} BytesRefineTyped(first: u8, ws: seq<Write>, k: Key)
    requires first + 20 < 256 && forall i :: 0 <= i < |ws| ==> Legal(ws[i])
    ensures Read(first, Raw(first, ws), k)
            == if Canon(k) in Typed(ws) then Some(Ok(Typed(ws)[Canon(k)])) else None
    decreases |ws|
  {
    if ws != [] {
      var w := ws[|ws| - 1];
      BytesRefineTyped(first, ws[..|ws| - 1], k);
      assert Legal(w);
      KeyBytesInjective(first, k, w.key);
      if w.Insert? && Canon(k) == Canon(w.key) {
        assert KindOfKey(k) == KindOfKey(Canon(k)) == KindOfKey(w.key);
        EntryRoundTrip(w.entry);
      }
    }
  }
}
