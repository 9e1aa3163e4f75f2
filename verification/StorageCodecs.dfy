/** The byte values of the store: what each Put writes and each Get reads back. */
module StorageCodecs {
  import opened Words
  import opened Wire
  import opened Economy
  import opened Clearing
  import Amm
  import Envelope

  // ----- Fixed-width layouts -----

  function Sum(ws: seq<nat>): nat {
    if ws == [] then 0 else ws[0] + Sum(ws[1..])
  }

  function Concat(parts: seq<Bytes>): Bytes {
    if parts == [] then [] else parts[0] + Concat(parts[1..])
  }

  /** Cut off fields of the given widths. */
  function Split(ws: seq<nat>, b: Bytes): (parts: seq<Bytes>)
    requires Sum(ws) <= |b|
    ensures |parts| == |ws| && forall i :: 0 <= i < |ws| ==> |parts[i]| == ws[i]
  {
    if ws == [] then [] else [b[..ws[0]]] + Split(ws[1..], b[ws[0]..])
  }

  predicate HasWidths(parts: seq<Bytes>, ws: seq<nat>) {
    |parts| == |ws| && forall i :: 0 <= i < |ws| ==> |parts[i]| == ws[i]
  }

  /** Splitting undoes concatenation, and leaves what follows. */
  lemma {:induction false} SplitOfConcat(ws: seq<nat>, parts: seq<Bytes>, rest: Bytes)
    requires HasWidths(parts, ws)
    ensures |Concat(parts)| == Sum(ws)
    ensures Split(ws, Concat(parts) + rest) == parts && (Concat(parts) + rest)[Sum(ws)..] == rest
  {
    if ws != [] {
      SplitOfConcat(ws[1..], parts[1..], rest);
      var b, tail := Concat(parts) + rest, Concat(parts[1..]) + rest;
      assert b == parts[0] + tail;
      assert b[..ws[0]] == parts[0] && b[ws[0]..] == tail;
      assert b[Sum(ws)..] == tail[Sum(ws[1..])..];
    }
  }

  lemma SplitOfConcatExact(ws: seq<nat>, parts: seq<Bytes>)
    requires HasWidths(parts, ws)
    ensures |Concat(parts)| == Sum(ws) && Split(ws, Concat(parts)) == parts
  {
    SplitOfConcat(ws, parts, []);
    assert Concat(parts) + [] == Concat(parts);
  }

  lemma U64s(a: u64, b: u64, c: u64)
    ensures AsU64(U64(a)) == a && AsU64(U64(b)) == b && AsU64(U64(c)) == c
  {
    WordRoundTrips(0, 0, a, 0);
    WordRoundTrips(0, 0, b, 0);
    WordRoundTrips(0, 0, c, 0);
  }

  lemma U16s(a: u16, b: u16, c: u16)
    ensures AsU16(U16(a)) == a && AsU16(U16(b)) == b && AsU16(U16(c)) == c
  {
    WordRoundTrips(a, 0, 0, 0);
    WordRoundTrips(b, 0, 0, 0);
    WordRoundTrips(c, 0, 0, 0);
  }

  // ----- Balances -----

  function PutAmount(n: u64): Bytes { U64(n) }

  function GetAmount(b: Bytes): Result<u64> {
    if |b| != 8 then Err(InvalidData) else Ok(AsU64(b))
  }

  // ----- Pool -----

  const POOL := [1, 1, 2, 8, 8, 8]

  /** The asset ids are sorted, the reserves are not. */
  function PutPool(p: Amm.Pool): Bytes {
    var (lo, hi) := Amm.SortedPair(p.asset0, p.asset1);
    Concat([[lo], [hi], U16(p.feeBips), U64(p.reserve0), U64(p.reserve1), U64(p.totalLp)])
  }

  function GetPool(b: Bytes): Result<Amm.Pool> {
    if |b| < Sum(POOL) then Err(InvalidData)
    else
      var f := Split(POOL, b);
      Ok(Amm.Pool(f[0][0], f[1][0], AsU16(f[2]), AsU64(f[3]), AsU64(f[4]), AsU64(f[5])))
  }

  /** A pool survives storage exactly when its assets are already in order. */
  lemma PoolRoundTrip(p: Amm.Pool)
    ensures GetPool(PutPool(p)) == Ok(p) <==> p.asset0 <= p.asset1
    ensures GetPool(PutPool(p)).Ok?
  {
    var (lo, hi) := Amm.SortedPair(p.asset0, p.asset1);
    SplitOfConcatExact(POOL, [[lo], [hi], U16(p.feeBips), U64(p.reserve0), U64(p.reserve1), U64(p.totalLp)]);
    U16s(p.feeBips, 0, 0);
    U64s(p.reserve0, p.reserve1, p.totalLp);
  }

  /** A pool whose assets are not in order reads back with each reserve under the other asset. */
  lemma UnsortedPoolMisread(p: Amm.Pool)
    requires p.asset0 > p.asset1
    ensures GetPool(PutPool(p)) == Ok(p.(asset0 := p.asset1, asset1 := p.asset0))
  {
    SplitOfConcatExact(POOL, [[p.asset1], [p.asset0], U16(p.feeBips), U64(p.reserve0), U64(p.reserve1),
                              U64(p.totalLp)]);
    U16s(p.feeBips, 0, 0);
    U64s(p.reserve0, p.reserve1, p.totalLp);
  }

  // ----- Markets -----

  const MARKET := [1, 1, 8, 1]

  function PutMarket(m: Market): Bytes {
    Concat([[m.status], [m.outcomes], I64(m.resolutionTime), [m.resolvedOutcome]]) + m.question
  }

  function GetMarket(b: Bytes): Result<Market> {
    if |b| < Sum(MARKET) then Err(InvalidData)
    else
      var f := Split(MARKET, b);
      Ok(Market(f[0][0], f[1][0], AsI64(f[2]), f[3][0], b[Sum(MARKET)..]))
  }

  lemma MarketRoundTrip(m: Market)
    ensures GetMarket(PutMarket(m)) == Ok(m)
  {
    SplitOfConcat(MARKET, [[m.status], [m.outcomes], I64(m.resolutionTime), [m.resolvedOutcome]], m.question);
    WordRoundTrips(0, 0, 0, m.resolutionTime);
  }

  // ----- Treasury and fees -----

  const TREASURY_CONFIG := [33, 33, 2, 8]

  function PutTreasuryConfig(c: TreasuryConfig): Bytes {
    Concat([c.governance, c.operations, U16(c.maxReleaseBips), I64(c.releaseEpochSeconds)])
  }

  function GetTreasuryConfig(b: Bytes): Result<TreasuryConfig> {
    if |b| < Sum(TREASURY_CONFIG) then Err(InvalidTokenomicsConfig)
    else
      var f := Split(TREASURY_CONFIG, b);
      Ok(TreasuryConfig(f[0], f[1], AsU16(f[2]), AsI64(f[3])))
  }

  lemma TreasuryConfigRoundTrip(c: TreasuryConfig)
    ensures GetTreasuryConfig(PutTreasuryConfig(c)) == Ok(c)
  {
    SplitOfConcatExact(TREASURY_CONFIG,
                       [c.governance, c.operations, U16(c.maxReleaseBips), I64(c.releaseEpochSeconds)]);
    WordRoundTrips(c.maxReleaseBips, 0, 0, c.releaseEpochSeconds);
  }

  const TREASURY := [8, 8, 8, 8]

  function PutTreasury(t: Treasury): Bytes {
    Concat([U64(t.locked), U64(t.live), U64(t.released), I64(t.lastReleaseMs)])
  }

  function GetTreasury(b: Bytes): Result<Treasury> {
    if |b| < Sum(TREASURY) then Err(InvalidTokenomicsConfig)
    else
      var f := Split(TREASURY, b);
      Ok(Treasury(AsU64(f[0]), AsU64(f[1]), AsU64(f[2]), AsI64(f[3])))
  }

  lemma TreasuryRoundTrip(t: Treasury)
    ensures GetTreasury(PutTreasury(t)) == Ok(t)
  {
    SplitOfConcatExact(TREASURY, [U64(t.locked), U64(t.live), U64(t.released), I64(t.lastReleaseMs)]);
    U64s(t.locked, t.live, t.released);
    WordRoundTrips(0, 0, 0, t.lastReleaseMs);
  }

  const FEE_CONFIG := [2, 2, 2]

  function PutFeeConfig(c: FeeConfig): Bytes {
    Concat([U16(c.msrbBips), U16(c.colBips), U16(c.opsBips)])
  }

  /** Reading rejects a configuration whose shares do not add up; writing does not check. */
  function GetFeeConfig(b: Bytes): Result<FeeConfig> {
    if |b| < Sum(FEE_CONFIG) then Err(InvalidFeeRouterConfig)
    else
      var f := Split(FEE_CONFIG, b);
      var c := FeeConfig(AsU16(f[0]), AsU16(f[1]), AsU16(f[2]));
      if ValidFeeConfig(c) then Ok(c) else Err(InvalidFeeRouterConfig)
  }

  lemma FeeConfigRoundTrip(c: FeeConfig)
    ensures GetFeeConfig(PutFeeConfig(c)) == if ValidFeeConfig(c) then Ok(c) else Err(InvalidFeeRouterConfig)
  {
    SplitOfConcatExact(FEE_CONFIG, [U16(c.msrbBips), U16(c.colBips), U16(c.opsBips)]);
    U16s(c.msrbBips, c.colBips, c.opsBips);
  }

  const THREE_WORDS := [8, 8, 8]

  function PutFees(f: Fees): Bytes { Concat([U64(f.msrb), U64(f.col), U64(f.ops)]) }

  function GetFees(b: Bytes): Result<Fees> {
    if |b| < Sum(THREE_WORDS) then Err(InvalidFeeRouterConfig)
    else
      var f := Split(THREE_WORDS, b);
      Ok(Fees(AsU64(f[0]), AsU64(f[1]), AsU64(f[2])))
  }

  lemma FeesRoundTrip(f: Fees)
    ensures GetFees(PutFees(f)) == Ok(f)
  {
    SplitOfConcatExact(THREE_WORDS, [U64(f.msrb), U64(f.col), U64(f.ops)]);
    U64s(f.msrb, f.col, f.ops);
  }

  // ----- Stablecoin -----

  const VAI_CONFIG := [33, 8, 8, 8]

  function PutVaiConfig(c: VaiConfig): Bytes {
    Concat([c.mintAuthority, U64(c.debtCeiling), U64(c.epochMintLimit), I64(c.mintEpochSeconds)])
  }

  function GetVaiConfig(b: Bytes): Result<VaiConfig> {
    if |b| < Sum(VAI_CONFIG) then Err(InvalidTokenomicsConfig)
    else
      var f := Split(VAI_CONFIG, b);
      Ok(VaiConfig(f[0], AsU64(f[1]), AsU64(f[2]), AsI64(f[3])))
  }

  lemma VaiConfigRoundTrip(c: VaiConfig)
    ensures GetVaiConfig(PutVaiConfig(c)) == Ok(c)
  {
    SplitOfConcatExact(VAI_CONFIG,
                       [c.mintAuthority, U64(c.debtCeiling), U64(c.epochMintLimit), I64(c.mintEpochSeconds)]);
    U64s(c.debtCeiling, c.epochMintLimit, 0);
    WordRoundTrips(0, 0, 0, c.mintEpochSeconds);
  }

  function PutVai(v: Vai): Bytes { Concat([U64(v.totalDebt), I64(v.epochStart), U64(v.epochMinted)]) }

  function GetVai(b: Bytes): Result<Vai> {
    if |b| < Sum(THREE_WORDS) then Err(InvalidTokenomicsConfig)
    else
      var f := Split(THREE_WORDS, b);
      Ok(Vai(AsU64(f[0]), AsI64(f[1]), AsU64(f[2])))
  }

  lemma VaiRoundTrip(v: Vai)
    ensures GetVai(PutVai(v)) == Ok(v)
  {
    SplitOfConcatExact(THREE_WORDS, [U64(v.totalDebt), I64(v.epochStart), U64(v.epochMinted)]);
    U64s(v.totalDebt, v.epochMinted, 0);
    WordRoundTrips(0, 0, 0, v.epochStart);
  }

  const RISK := [4, 2, 2, 2, 2, 2, 2]

  function PutRisk(r: Risk): Result<Bytes> {
    if !ValidRisk(r) then Err(InvalidRiskConfig)
    else Ok(Concat([U32(r.backingFloorBips), U16(r.veilLtv), U16(r.wveilLtv), U16(r.wsveilLtv),
                    U16(r.veilHaircut), U16(r.wveilHaircut), U16(r.wsveilHaircut)]))
  }

  function GetRisk(b: Bytes): Result<Risk> {
    if |b| < Sum(RISK) then Err(InvalidRiskConfig)
    else
      var f := Split(RISK, b);
      var r := Risk(AsU32(f[0]), AsU16(f[1]), AsU16(f[2]), AsU16(f[3]), AsU16(f[4]), AsU16(f[5]), AsU16(f[6]));
      if ValidRisk(r) then Ok(r) else Err(InvalidRiskConfig)
  }

  lemma RiskRoundTrip(r: Risk)
    requires PutRisk(r).Ok?
    ensures GetRisk(PutRisk(r).value) == Ok(r)
  {
    SplitOfConcatExact(RISK, [U32(r.backingFloorBips), U16(r.veilLtv), U16(r.wveilLtv), U16(r.wsveilLtv),
                              U16(r.veilHaircut), U16(r.wveilHaircut), U16(r.wsveilHaircut)]);
    WordRoundTrips(0, r.backingFloorBips, 0, 0);
    U16s(r.veilLtv, r.wveilLtv, r.wsveilLtv);
    U16s(r.veilHaircut, r.wveilHaircut, r.wsveilHaircut);
  }

  const RESERVE := [8, 8]

  function PutReserve(r: Reserve): Bytes { Concat([U64(r.exogenous), U64(r.vaiBuffer)]) }

  function GetReserve(b: Bytes): Result<Reserve> {
    if |b| < Sum(RESERVE) then Err(InvalidReserveState)
    else
      var f := Split(RESERVE, b);
      Ok(Reserve(AsU64(f[0]), AsU64(f[1])))
  }

  lemma ReserveRoundTrip(r: Reserve)
    ensures GetReserve(PutReserve(r)) == Ok(r)
  {
    SplitOfConcatExact(RESERVE, [U64(r.exogenous), U64(r.vaiBuffer)]);
    U64s(r.exogenous, r.vaiBuffer, 0);
  }

  // ----- Proofs -----

  const PROOF_CONFIG := [1, 1, 8, 8, 33]

  function PutProofConfig(c: ProofConfig): Result<Bytes> {
    if !ValidConfig(c) then Err(InvalidProofConfig)
    else Ok(Concat([[if c.requireProof then 1 else 0], [c.requiredProofType], I64(c.batchWindowMs),
                    I64(c.proofDeadlineMs), c.proverAuthority]))
  }

  function GetProofConfig(b: Bytes): Result<ProofConfig> {
    if |b| < Sum(PROOF_CONFIG) then Err(InvalidProofConfig)
    else
      var f := Split(PROOF_CONFIG, b);
      var c := ProofConfig(f[0][0] == 1, f[1][0], AsI64(f[2]), AsI64(f[3]), f[4]);
      if ValidConfig(c) then Ok(c) else Err(InvalidProofConfig)
  }

  lemma ProofConfigRoundTrip(c: ProofConfig)
    requires PutProofConfig(c).Ok?
    ensures GetProofConfig(PutProofConfig(c).value) == Ok(c)
  {
    SplitOfConcatExact(PROOF_CONFIG, [[if c.requireProof then 1 else 0], [c.requiredProofType], I64(c.batchWindowMs),
                                      I64(c.proofDeadlineMs), c.proverAuthority]);
    WordRoundTrips(0, 0, 0, c.batchWindowMs);
    WordRoundTrips(0, 0, 0, c.proofDeadlineMs);
  }

  const RECORD := [1, 8, 8, 33, 32, 2]

  predicate RecordFits(r: Record) { 0 < |r.publicInputsHash| <= 32 && 0 < |r.fillsHash| <= 64 }

  /** The fixed head of a record; the two hashes follow with their lengths. */
  function RecordHead(r: Record): seq<Bytes>
    requires RecordFits(r)
  {
    [[r.proofType], I64(r.submittedAtMs), I64(r.windowCloseAtMs), r.prover, r.commitment, U16(|r.publicInputsHash|)]
  }

  function PutRecord(r: Record): Result<Bytes> {
    if !RecordFits(r) then Err(InvalidProofEnvelope)
    else Ok(Concat(RecordHead(r)) + (r.publicInputsHash + (U16(|r.fillsHash|) + r.fillsHash)))
  }

  function GetRecord(b: Bytes): Result<Record> {
    if |b| < Sum(RECORD) + 2 then Err(InvalidProofEnvelope)
    else
      var f := Split(RECORD, b);
      var rest, n := b[Sum(RECORD)..], AsU16(f[5]);
      if n <= 0 || n > 32 || |rest| < n + 2 then Err(InvalidProofEnvelope)
      else
        var tail := rest[n..];
        var m := AsU16(tail[..2]);
        if m <= 0 || m > 64 || |tail| - 2 < m then Err(InvalidProofEnvelope)
        else Ok(Record(f[0][0], AsI64(f[1]), AsI64(f[2]), f[3], f[4], rest[..n], tail[2..2 + m]))
  }

  lemma RecordRoundTrip(r: Record)
    requires PutRecord(r).Ok?
    ensures GetRecord(PutRecord(r).value) == Ok(r)
  {
    var tail := U16(|r.fillsHash|) + r.fillsHash;
    var rest := r.publicInputsHash + tail;
    SplitOfConcat(RECORD, RecordHead(r), rest);
    WordRoundTrips(|r.publicInputsHash|, 0, 0, r.submittedAtMs);
    WordRoundTrips(|r.fillsHash|, 0, 0, r.windowCloseAtMs);
    assert rest[..|r.publicInputsHash|] == r.publicInputsHash && rest[|r.publicInputsHash|..] == tail;
    assert tail[..2] == U16(|r.fillsHash|) && tail[2..2 + |r.fillsHash|] == r.fillsHash;
  }

  function PutVellum(proof: Bytes): Result<Bytes> {
    if |proof| == 0 || |proof| > Envelope.MAX_PROOF_BYTES then Err(InvalidVellumProof) else Ok(U32(|proof|) + proof)
  }

  function GetVellum(b: Bytes): Result<Bytes> {
    if |b| < 4 then Err(InvalidVellumProof)
    else
      var n := AsU32(b[..4]);
      if n <= 0 || n > Envelope.MAX_PROOF_BYTES || |b| != 4 + n then Err(InvalidVellumProof) else Ok(b[4..])
  }

  lemma VellumRoundTrip(proof: Bytes)
    requires PutVellum(proof).Ok?
    ensures GetVellum(PutVellum(proof).value) == Ok(proof)
  {
    WordRoundTrips(0, |proof|, 0, 0);
    assert PutVellum(proof).value[..4] == U32(|proof|);
  }

  const BLOODSWORN := [8, 8, 8, 4]

  function PutSworn(w: Bloodsworn): Bytes {
    Concat([U64(w.accepted), U64(w.streak), I64(w.lastProofAtMs), U32(w.scars)])
  }

  function GetSworn(b: Bytes): Result<Bloodsworn> {
    if |b| < Sum(BLOODSWORN) then Err(InvalidBloodsworn)
    else
      var f := Split(BLOODSWORN, b);
      Ok(Bloodsworn(AsU64(f[0]), AsU64(f[1]), AsI64(f[2]), AsU32(f[3])))
  }

  lemma SwornRoundTrip(w: Bloodsworn)
    ensures GetSworn(PutSworn(w)) == Ok(w)
  {
    SplitOfConcatExact(BLOODSWORN, [U64(w.accepted), U64(w.streak), I64(w.lastProofAtMs), U32(w.scars)]);
    U64s(w.accepted, w.streak, 0);
    WordRoundTrips(0, w.scars, 0, w.lastProofAtMs);
  }

  const GLYPH := [1, 1, 8, 33, 32, 32, 32]

  function PutGlyph(g: Glyph): Result<Bytes> {
    if g.class_ == 0 || g.rarity == 0 || g.createdAtMs <= 0 then Err(InvalidGlyph)
    else Ok(Concat([[g.class_], [g.rarity], I64(g.createdAtMs), g.prover, g.commitment, g.publicInputsHash, g.entropy]))
  }

  function GetGlyph(b: Bytes): Result<Glyph> {
    if |b| < Sum(GLYPH) then Err(InvalidGlyph)
    else
      var f := Split(GLYPH, b);
      Ok(Glyph(f[0][0], f[1][0], AsI64(f[2]), f[3], f[4], f[5], f[6]))
  }

  lemma GlyphRoundTrip(g: Glyph)
    requires PutGlyph(g).Ok?
    ensures GetGlyph(PutGlyph(g).value) == Ok(g)
  {
    SplitOfConcatExact(GLYPH, [[g.class_], [g.rarity], I64(g.createdAtMs), g.prover, g.commitment, g.publicInputsHash,
                               g.entropy]);
    WordRoundTrips(0, 0, 0, g.createdAtMs);
  }
}
