/** Where every byte is: words, hash preimages, proof envelopes, store keys and stored values, by position. */
module Layouts {
  import opened Words
  import opened Wire
  import opened Preimage
  import opened StorageKeys
  import opened StorageCodecs
  import opened Chain
  import opened ByteStore
  import opened StateKeys
  import opened StateBytes
  import Amm
  import Clearing
  import Economy
  import Envelope

  // ----- Words -----

  /** Words are stored with the most significant byte first. */
  lemma U16Bytes(n: u16)
    ensures U16(n) == [n / 0x100, n % 0x100]
  {
    assert BigEndian(n / 256, 1) == BigEndian(n / 256 / 256, 0) + [n / 256 % 256];
  }

  lemma U32Bytes(n: u32)
    ensures U32(n) == [n / 0x100_0000, n / 0x1_0000 % 0x100, n / 0x100 % 0x100, n % 0x100]
  {
    var a: int := n / 256;
    var b: int := a / 256;
    var c: int := b / 256;
    assert BigEndian(n, 4) == BigEndian(a, 3) + [n % 256];
    assert BigEndian(a, 3) == BigEndian(b, 2) + [a % 256];
    assert BigEndian(b, 2) == BigEndian(c, 1) + [b % 256];
    assert BigEndian(c, 1) == BigEndian(c / 256, 0) + [c % 256];
  }

  /** The upper and the lower half of a 64-bit word. */
  lemma U64Bytes(n: u64)
    ensures U64(n) == U32(n / 0x1_0000_0000) + U32(n % 0x1_0000_0000)
  {
    BigEndianSplit(n / 0x1_0000_0000, n % 0x1_0000_0000, 4);
    Powers();
  }

  lemma {:induction false} BigEndianSplit(hi: nat, lo: nat, k: nat)
    requires lo < Pow256(k)
    ensures BigEndian(hi * Pow256(k) + lo, 4 + k) == BigEndian(hi, 4) + BigEndian(lo, k)
  {
    if k > 0 {
      var m: int := hi * Pow256(k - 1);
      ProductNonNegative(hi, Pow256(k - 1));
      BigEndianSplit(hi, lo / 256, k - 1);
      Scale(hi, Pow256(k - 1));
      LastByte(m, lo);
      var n: nat := 256 * m + lo;
      assert BigEndian(n, 4 + k) == BigEndian(n / 256, 4 + (k - 1)) + [n % 256];
    } else {
      assert BigEndian(hi, 4) + [] == BigEndian(hi, 4);
      assert hi * Pow256(0) + lo == hi;
    }
  }

  lemma Scale(x: int, y: int)
    ensures x * (256 * y) == 256 * (x * y)
  {
  }

  lemma LastByte(m: nat, lo: nat)
    ensures (256 * m + lo) / 256 == m + lo / 256 && (256 * m + lo) % 256 == lo % 256
  {
  }

  /** Negative int64 values are stored in two's complement. */
  lemma I64Bytes(x: i64)
    ensures I64(x) == U64(if x < 0 then x + TWO_64 else x)
  {
    SignedResidue(x);
  }

  lemma SignedResidue(x: i64)
    ensures x % TWO_64 == if x < 0 then x + TWO_64 else x
  {
  }

  // ----- Hash preimages -----

  /** The seven parts of a canonical preimage behind a tag of the given length. */
  ghost predicate PreimageAt(b: Bytes, tag: Bytes, x: Clear) {
    var t := |tag|;
    && |b| == t + 58 + |x.fills| && b[..t] == tag
    && b[t..t + 32] == x.market && b[t + 32..t + 40] == U64(x.window) && b[t + 40..t + 48] == U64(x.price)
    && b[t + 48..t + 56] == U64(x.volume) && b[t + 56..t + 58] == U16(|x.fills| % 0x1_0000) && b[t + 58..] == x.fills
  }

  lemma FieldsAt(tag: Bytes, x: Clear)
    ensures PreimageAt(tag + Fields(x), tag, x)
  {
    var b, f, t := tag + Fields(x), Fields(x), |tag|;
    assert b[..t] == tag && b[t..] == f;
    assert f[..32] == x.market && f[32..40] == U64(x.window) && f[40..48] == U64(x.price);
    assert f[48..56] == U64(x.volume) && f[56..58] == U16(|x.fills| % 0x1_0000) && f[58..] == x.fills;
    assert forall i, j :: 0 <= i <= j <= |f| ==> b[t + i..t + j] == f[i..j];
    assert b[t + 58..] == f[58..];
  }

  /** The preimage of a clear: VEIL_CLEAR_V1, market, window, price, volume, length of the fills hash, fills hash. */
  lemma ClearPreimageAt(x: Clear)
    ensures PreimageAt(ClearPreimage(x), [86, 69, 73, 76, 95, 67, 76, 69, 65, 82, 95, 86, 49], x)
  {
    FieldsAt(CLEAR_TAG, x);
    assert CLEAR_TAG == [86, 69, 73, 76, 95, 67, 76, 69, 65, 82, 95, 86, 49];
  }

  /** The preimage of a shielded clear: VEIL_SHIELDED_LEDGER_V1 and the same fields. */
  lemma ShieldedPreimageAt(x: Clear)
    ensures PreimageAt(ShieldedPreimage(x), [86, 69, 73, 76, 95, 83, 72, 73, 69, 76, 68, 69, 68, 95,
                                             76, 69, 68, 71, 69, 82, 95, 86, 49], x)
  {
    FieldsAt(SHIELDED_TAG, x);
    assert SHIELDED_TAG == [86, 69, 73, 76, 95, 83, 72, 73, 69, 76, 68, 69, 68, 95, 76, 69, 68, 71, 69, 82, 95, 86, 49];
  }

  /** The two circuit names: clearhash-v1 and shielded-ledger-v1. */
  lemma CircuitNames()
    ensures CLEARHASH_V1 == [99, 108, 101, 97, 114, 104, 97, 115, 104, 45, 118, 49]
    ensures SHIELDED_V1 == [115, 104, 105, 101, 108, 100, 101, 100, 45, 108, 101, 100, 103, 101, 114, 45, 118, 49]
  {
  }

  // ----- Proof envelopes -----

  /** VZK1, type, two lengths, proof, public witness; built exactly from non-empty parts that fit 131072 bytes. */
  lemma EnvelopeV1At(proofType: u8, proof: Bytes, inputs: Bytes)
    ensures Envelope.BuildV1(proofType, proof, inputs).Ok?
            <==> proofType != 0 && 0 < |proof| && 0 < |inputs| && 13 + |proof| + |inputs| <= 131_072
    ensures Envelope.BuildV1(proofType, proof, inputs).Ok? ==>
              var b, p := Envelope.BuildV1(proofType, proof, inputs).value, 13 + |proof|;
              && |b| == p + |inputs| && b[..4] == [86, 90, 75, 49] && b[4] == proofType
              && b[5..9] == U32(|proof|) && b[9..13] == U32(|inputs|) && b[13..p] == proof && b[p..] == inputs
  {
    MagicBytes();
  }

  /** VZK2, type, three lengths, circuit, proof, public witness. */
  lemma EnvelopeV2At(proofType: u8, id: Bytes, proof: Bytes, inputs: Bytes)
    ensures Envelope.BuildV2(proofType, id, proof, inputs).Ok?
            <==> && proofType != 0 && 0 < |proof| && 0 < |inputs| && Envelope.ValidCircuitId(TrimSpace(id))
                 && 14 + |TrimSpace(id)| + |proof| + |inputs| <= 131_072
    ensures Envelope.BuildV2(proofType, id, proof, inputs).Ok? ==>
              var b, circuit := Envelope.BuildV2(proofType, id, proof, inputs).value, TrimSpace(id);
              var c, p := 14 + |circuit|, 14 + |circuit| + |proof|;
              && |b| == p + |inputs| && b[..4] == [86, 90, 75, 50] && b[4] == proofType && b[5] == |circuit|
              && b[6..10] == U32(|proof|) && b[10..14] == U32(|inputs|)
              && b[14..c] == circuit && b[c..p] == proof && b[p..] == inputs
  {
    MagicBytes();
    var circuit := TrimSpace(id);
    if Envelope.BuildV2(proofType, id, proof, inputs).Ok? {
      Envelope.SlicesV2(proofType, circuit, U32(|proof|), U32(|inputs|), proof, inputs);
    }
  }

  lemma MagicBytes()
    ensures Envelope.MAGIC_V1 == [86, 90, 75, 49] && Envelope.MAGIC_V2 == [86, 90, 75, 50]
  {
  }

  /** Everything that does not start with one of the two magics is a raw proof. */
  lemma RawProofs(blob: Bytes)
    requires |blob| < 4 || (blob[..4] != [86, 90, 75, 49] && blob[..4] != [86, 90, 75, 50])
    ensures Envelope.Parse(blob) == Ok(Envelope.Parsed(0, [], blob, [], false))
  {
    MagicBytes();
  }

  /** Circuit names have 1 to 63 lower-case letters, digits, hyphens, underscores and dots. */
  lemma CircuitIdIff(id: Bytes)
    ensures Envelope.ValidCircuitId(id)
            <==> 1 <= |id| <= 63 && forall i :: 0 <= i < |id| ==>
                   97 <= id[i] <= 122 || 48 <= id[i] <= 57 || id[i] == 45 || id[i] == 95 || id[i] == 46
  {
    assert forall c: u8 ::
        Envelope.CircuitChar(c) <==> 97 <= c <= 122 || 48 <= c <= 57 || c == 45 || c == 95 || c == 46;
  }

  /** Trimming cuts white space off both ends, and all of it. */
  lemma TrimExact(b: Bytes) returns (i: nat, j: nat)
    ensures i <= j <= |b| && TrimSpace(b) == b[i..j]
    ensures forall k :: 0 <= k < i || j <= k < |b| ==> 9 <= b[k] <= 13 || b[k] == 32
    ensures i < j ==> !IsSpace(b[i]) && !IsSpace(b[j - 1])
  {
    i := TrimLeftExact(b);
    j := TrimRightExact(b[i..]);
    j := i + j;
    assert b[i..][..j - i] == b[i..j];
    forall k | j <= k < |b|
      ensures 9 <= b[k] <= 13 || b[k] == 32
    {
      assert b[k] == b[i..][k - i];
    }
  }

  lemma {:induction false} TrimLeftExact(b: Bytes) returns (i: nat)
    ensures i <= |b| && TrimLeft(b) == b[i..] && (i < |b| ==> !IsSpace(b[i]))
    ensures forall k :: 0 <= k < i ==> 9 <= b[k] <= 13 || b[k] == 32
    decreases |b|
  {
    if b != [] && IsSpace(b[0]) {
      i := TrimLeftExact(b[1..]);
      assert forall k :: 0 <= k < |b| - 1 ==> b[1..][k] == b[k + 1];
      assert b[1..][i..] == b[i + 1..];
      forall k | 0 <= k < i + 1
        ensures 9 <= b[k] <= 13 || b[k] == 32
      {
        if k > 0 { assert b[k] == b[1..][k - 1]; }
      }
      i := i + 1;
    } else {
      i := 0;
      assert b[0..] == b;
    }
  }

  lemma {:induction false} TrimRightExact(b: Bytes) returns (j: nat)
    ensures j <= |b| && TrimRight(b) == b[..j] && (0 < j ==> !IsSpace(b[j - 1]))
    ensures forall k :: j <= k < |b| ==> 9 <= b[k] <= 13 || b[k] == 32
    decreases |b|
  {
    if b != [] && IsSpace(b[|b| - 1]) {
      var front := b[..|b| - 1];
      j := TrimRightExact(front);
      assert front[..j] == b[..j];
      assert forall k :: 0 <= k < |front| ==> front[k] == b[k];
    } else {
      j := |b|;
      assert b[..j] == b;
    }
  }

  // ----- Store keys -----

  /** One prefix byte, the parts, and the size hint in two bytes. */
  function Framed(prefix: u8, body: Bytes, chunks: u8): Bytes { [prefix] + body + [0, chunks] }

  function Lesser(a: u8, b: u8): u8 { if a < b then a else b }
  function Greater(a: u8, b: u8): u8 { if a < b then b else a }

  /** The bytes of every kind of key. */
  function KeyTable(first: u8, k: Key): Bytes
    requires first + 20 < 256
  {
    match k
    case AccountKey(VeilBalance, who) => Framed(first, who, 1)
    case MarketKey(id) => Framed(first + 1, id, 8)
    case CommitmentKey(id, window, who) => Framed(first + 2, id + U64(window) + who, 16)
    case WindowKey(BatchResultOf, id, window) => Framed(first + 3, id + U64(window), 4)
    case OracleKey(id, index) => Framed(first + 4, id + U32(index), 8)
    case SingletonKey(TreasuryConfigKey) => Framed(first + 5, [], 4)
    case SingletonKey(TreasuryStateKey) => Framed(first + 6, [], 4)
    case SingletonKey(FeeRouterConfigKey) => Framed(first + 7, [], 2)
    case SingletonKey(FeeRouterStateKey) => Framed(first + 8, [], 4)
    case SingletonKey(VaiConfigKey) => Framed(first + 9, [], 4)
    case SingletonKey(VaiStateKey) => Framed(first + 10, [], 4)
    case AccountKey(VaiBalance, who) => Framed(first + 11, who, 1)
    case PoolKey(a, b) => Framed(first + 12, [Lesser(a, b), Greater(a, b)], 4)
    case LpBalanceKey(a, b, who) => Framed(first + 13, [Lesser(a, b), Greater(a, b)] + who, 1)
    case SingletonKey(RiskConfigKey) => Framed(first + 14, [], 4)
    case SingletonKey(ReserveStateKey) => Framed(first + 15, [], 4)
    case SingletonKey(ProofConfigKey) => Framed(first + 16, [], 4)
    case WindowKey(BatchProofOf, id, window) => Framed(first + 17, id + U64(window), 8)
    case WindowKey(VellumProofOf, id, window) => Framed(first + 18, id + U64(window), 128)
    case AccountKey(BloodswornOf, who) => Framed(first + 19, who, 4)
    case WindowKey(GlyphOf, id, window) => Framed(first + 20, id + U64(window), 16)
  }

  /** Every key has the bytes of the table, and a dispute those of the oracle key at the largest index. */
  lemma KeysAt(first: u8, k: Key)
    requires first + 20 < 256
    ensures KeyBytes(first, k) == KeyTable(first, k)
  {
    U16Bytes(Chunks(Prefix(k)));
    PayloadAt(k);
  }

  lemma PayloadAt(k: Key)
    ensures k.CommitmentKey? ==> Payload(k) == k.market + U64(k.window) + k.who
    ensures k.LpBalanceKey? ==> Payload(k) == [Lesser(k.asset0, k.asset1), Greater(k.asset0, k.asset1)] + k.who
    ensures k.PoolKey? ==> Payload(k) == [Lesser(k.asset0, k.asset1), Greater(k.asset0, k.asset1)]
  {
  }

  // ----- Stored values -----

  lemma PoolAt(p: Amm.Pool)
    ensures var b := PutPool(p);
            && |b| == 28 && b[0] == Lesser(p.asset0, p.asset1) && b[1] == Greater(p.asset0, p.asset1)
            && b[2..4] == U16(p.feeBips) && b[4..12] == U64(p.reserve0) && b[12..20] == U64(p.reserve1)
            && b[20..28] == U64(p.totalLp)
  {
    Six([Lesser(p.asset0, p.asset1)], [Greater(p.asset0, p.asset1)], U16(p.feeBips), U64(p.reserve0), U64(p.reserve1),
        U64(p.totalLp));
  }

  /** A concatenation of up to six parts, written out. */
  lemma Six(a: Bytes, b: Bytes, c: Bytes, d: Bytes, e: Bytes, f: Bytes)
    ensures Concat([a, b, c, d, e, f]) == a + b + c + d + e + f
  {
    Five(b, c, d, e, f);
    assert [a, b, c, d, e, f][1..] == [b, c, d, e, f];
  }

  lemma Five(a: Bytes, b: Bytes, c: Bytes, d: Bytes, e: Bytes)
    ensures Concat([a, b, c, d, e]) == a + b + c + d + e
  {
    Four(b, c, d, e);
    assert [a, b, c, d, e][1..] == [b, c, d, e];
  }

  lemma Four(a: Bytes, b: Bytes, c: Bytes, d: Bytes)
    ensures Concat([a, b, c, d]) == a + b + c + d
  {
    Three(b, c, d);
    assert [a, b, c, d][1..] == [b, c, d];
  }

  lemma Three(a: Bytes, b: Bytes, c: Bytes)
    ensures Concat([a, b, c]) == a + b + c && Concat([b, c]) == b + c
  {
    assert [a, b, c][1..] == [b, c] && [b, c][1..] == [c] && [c][1..] == [];
    assert Concat([c]) == c && Concat([b, c]) == b + Concat([c]);
  }

  lemma MarketAt(m: Clearing.Market)
    ensures var b := PutMarket(m);
            && |b| == 11 + |m.question| && b[0] == m.status && b[1] == m.outcomes && b[2..10] == I64(m.resolutionTime)
            && b[10] == m.resolvedOutcome && b[11..] == m.question
  {
    Four([m.status], [m.outcomes], I64(m.resolutionTime), [m.resolvedOutcome]);
  }

  lemma TreasuryConfigAt(c: Economy.TreasuryConfig)
    ensures var b := PutTreasuryConfig(c);
            && |b| == 76 && b[..33] == c.governance && b[33..66] == c.operations && b[66..68] == U16(c.maxReleaseBips)
            && b[68..] == I64(c.releaseEpochSeconds)
  {
    Four(c.governance, c.operations, U16(c.maxReleaseBips), I64(c.releaseEpochSeconds));
  }

  lemma TreasuryAt(t: Economy.Treasury)
    ensures var b := PutTreasury(t);
            && |b| == 32 && b[..8] == U64(t.locked) && b[8..16] == U64(t.live) && b[16..24] == U64(t.released)
            && b[24..] == I64(t.lastReleaseMs)
  {
    Four(U64(t.locked), U64(t.live), U64(t.released), I64(t.lastReleaseMs));
  }

  lemma FeesAt(c: Economy.FeeConfig, f: Economy.Fees)
    ensures var b := PutFeeConfig(c);
            |b| == 6 && b[..2] == U16(c.msrbBips) && b[2..4] == U16(c.colBips) && b[4..] == U16(c.opsBips)
    ensures var b := PutFees(f); |b| == 24 && b[..8] == U64(f.msrb) && b[8..16] == U64(f.col) && b[16..] == U64(f.ops)
  {
    Three(U16(c.msrbBips), U16(c.colBips), U16(c.opsBips));
    Three(U64(f.msrb), U64(f.col), U64(f.ops));
  }

  lemma VaiAt(c: Economy.VaiConfig, v: Economy.Vai)
    ensures var b := PutVaiConfig(c);
            && |b| == 57 && b[..33] == c.mintAuthority && b[33..41] == U64(c.debtCeiling)
            && b[41..49] == U64(c.epochMintLimit) && b[49..] == I64(c.mintEpochSeconds)
    ensures var b := PutVai(v);
            |b| == 24 && b[..8] == U64(v.totalDebt) && b[8..16] == I64(v.epochStart) && b[16..] == U64(v.epochMinted)
  {
    Four(c.mintAuthority, U64(c.debtCeiling), U64(c.epochMintLimit), I64(c.mintEpochSeconds));
    Three(U64(v.totalDebt), I64(v.epochStart), U64(v.epochMinted));
  }

  lemma RiskAt(r: Economy.Risk)
    requires PutRisk(r).Ok?
    ensures var b := PutRisk(r).value;
            && |b| == 16 && b[..4] == U32(r.backingFloorBips) && b[4..6] == U16(r.veilLtv) && b[6..8] == U16(r.wveilLtv)
            && b[8..10] == U16(r.wsveilLtv) && b[10..12] == U16(r.veilHaircut) && b[12..14] == U16(r.wveilHaircut)
            && b[14..] == U16(r.wsveilHaircut)
  {
    Seven(U32(r.backingFloorBips), U16(r.veilLtv), U16(r.wveilLtv), U16(r.wsveilLtv), U16(r.veilHaircut),
          U16(r.wveilHaircut), U16(r.wsveilHaircut));
  }

  lemma Seven(a: Bytes, b: Bytes, c: Bytes, d: Bytes, e: Bytes, f: Bytes, g: Bytes)
    ensures Concat([a, b, c, d, e, f, g]) == a + b + c + d + e + f + g
  {
    Six(b, c, d, e, f, g);
    assert [a, b, c, d, e, f, g][1..] == [b, c, d, e, f, g];
  }

  lemma ReserveAt(r: Economy.Reserve)
    ensures var b := PutReserve(r); |b| == 16 && b[..8] == U64(r.exogenous) && b[8..] == U64(r.vaiBuffer)
  {
    Three([], U64(r.exogenous), U64(r.vaiBuffer));
  }

  lemma ProofConfigAt(c: Clearing.ProofConfig)
    requires PutProofConfig(c).Ok?
    ensures var b := PutProofConfig(c).value;
            && |b| == 51 && b[0] == (if c.requireProof then 1 else 0) && b[1] == c.requiredProofType
            && b[2..10] == I64(c.batchWindowMs) && b[10..18] == I64(c.proofDeadlineMs) && b[18..] == c.proverAuthority
  {
    Five([if c.requireProof then 1 else 0], [c.requiredProofType], I64(c.batchWindowMs), I64(c.proofDeadlineMs),
         c.proverAuthority);
  }

  /** A record is stored exactly with hashes of 1 to 32 and 1 to 64 bytes, each behind its length. */
  lemma RecordAt(r: Clearing.Record)
    ensures PutRecord(r).Ok? <==> 0 < |r.publicInputsHash| <= 32 && 0 < |r.fillsHash| <= 64
    ensures PutRecord(r).Ok? ==>
              var b, h := PutRecord(r).value, 84 + |r.publicInputsHash|;
              && |b| == h + 2 + |r.fillsHash| && b[0] == r.proofType && b[1..9] == I64(r.submittedAtMs)
              && b[9..17] == I64(r.windowCloseAtMs) && b[17..50] == r.prover && b[50..82] == r.commitment
              && b[82..84] == U16(|r.publicInputsHash|) && b[84..h] == r.publicInputsHash
              && b[h..h + 2] == U16(|r.fillsHash|) && b[h + 2..] == r.fillsHash
  {
    if PutRecord(r).Ok? {
      Six([r.proofType], I64(r.submittedAtMs), I64(r.windowCloseAtMs), r.prover, r.commitment,
          U16(|r.publicInputsHash|));
    }
  }

  lemma VellumAt(proof: Bytes)
    ensures PutVellum(proof).Ok? <==> 0 < |proof| <= 131_072
    ensures PutVellum(proof).Ok? ==> PutVellum(proof).value[..4] == U32(|proof|) && PutVellum(proof).value[4..] == proof
  {
  }

  lemma SwornAt(w: Clearing.Bloodsworn)
    ensures var b := PutSworn(w);
            && |b| == 28 && b[..8] == U64(w.accepted) && b[8..16] == U64(w.streak) && b[16..24] == I64(w.lastProofAtMs)
            && b[24..] == U32(w.scars)
  {
    Four(U64(w.accepted), U64(w.streak), I64(w.lastProofAtMs), U32(w.scars));
  }

  lemma GlyphAt(g: Clearing.Glyph)
    ensures PutGlyph(g).Ok? <==> g.class_ != 0 && g.rarity != 0 && 0 < g.createdAtMs
    ensures PutGlyph(g).Ok? ==>
              var b := PutGlyph(g).value;
              && |b| == 139 && b[0] == g.class_ && b[1] == g.rarity && b[2..10] == I64(g.createdAtMs)
              && b[10..43] == g.prover && b[43..75] == g.commitment && b[75..107] == g.publicInputsHash
              && b[107..] == g.entropy
  {
    if PutGlyph(g).Ok? {
      Seven([g.class_], [g.rarity], I64(g.createdAtMs), g.prover, g.commitment, g.publicInputsHash, g.entropy);
    }
  }

  /** Balances are one word; a batch result is price, volume and fills hash. */
  lemma AmountAndResultAt(n: u64, r: Clearing.BatchResult)
    ensures PutAmount(n) == U64(n)
    ensures var b := ResultBytes(r); b[..8] == U64(r.price) && b[8..16] == U64(r.volume) && b[16..] == r.fillsHash
  {
  }

  // ----- The whole store -----

  function PutAt<K>(m: map<K, u64>, k: K): Option<Result<Bytes>> { if k in m then Some(Ok(U64(m[k]))) else None }
  function RawBytesAt<K>(m: map<K, Bytes>, k: K): Option<Result<Bytes>> { if k in m then Some(Ok(m[k])) else None }

  /** The bytes that a state stores under every kind of key, if any. */
  function StoreTable(s: State, k: Key): Option<Result<Bytes>> {
    var e, b, p := s.econ, s.board, s.board.proofs;
    match k
    case AccountKey(VeilBalance, who) => PutAt(s.bank.veil, who)
    case AccountKey(VaiBalance, who) => PutAt(s.bank.vai, who)
    case LpBalanceKey(x, y, who) => if Lesser(x, y) == 0 && Greater(x, y) == 1 then PutAt(s.bank.lp, who) else None
    case PoolKey(x, y) =>
      if Lesser(x, y) == 0 && Greater(x, y) == 1 && s.bank.pool.Some?
      then Some(Ok(PutPool(s.bank.pool.value))) else None
    case SingletonKey(TreasuryConfigKey) => Some(Ok(PutTreasuryConfig(e.treasuryCfg)))
    case SingletonKey(TreasuryStateKey) => Some(Ok(PutTreasury(e.treasury)))
    case SingletonKey(FeeRouterConfigKey) => Some(Ok(PutFeeConfig(e.feeCfg)))
    case SingletonKey(FeeRouterStateKey) => Some(Ok(PutFees(e.fees)))
    case SingletonKey(VaiConfigKey) => Some(Ok(PutVaiConfig(e.vaiCfg)))
    case SingletonKey(VaiStateKey) => Some(Ok(PutVai(e.vai)))
    case SingletonKey(RiskConfigKey) => Some(PutRisk(e.risk))
    case SingletonKey(ReserveStateKey) => Some(Ok(PutReserve(e.reserve)))
    case SingletonKey(ProofConfigKey) => Some(PutProofConfig(b.config))
    case MarketKey(id) => if id in b.markets then Some(Ok(PutMarket(b.markets[id]))) else None
    case CommitmentKey(id, window, who) => RawBytesAt(b.orders, Clearing.OrderSlot(id, window, who))
    case OracleKey(id, index) => RawBytesAt(b.oracle, Clearing.OracleSlot(id, index))
    case WindowKey(BatchResultOf, id, window) =>
      var w := Clearing.Slot(id, window); if w in b.batches then Some(Ok(ResultBytes(b.batches[w]))) else None
    case WindowKey(BatchProofOf, id, window) =>
      var w := Clearing.Slot(id, window); if w in p.records then Some(PutRecord(p.records[w])) else None
    case WindowKey(VellumProofOf, id, window) =>
      var w := Clearing.Slot(id, window); if w in p.blobs then Some(PutVellum(p.blobs[w])) else None
    case WindowKey(GlyphOf, id, window) =>
      var w := Clearing.Slot(id, window); if w in p.glyphs then Some(PutGlyph(p.glyphs[w])) else None
    case AccountKey(BloodswornOf, who) => if who in p.sworn then Some(Ok(PutSworn(p.sworn[who]))) else None
  }

  /** The bytes are those that the Put gave. */
  predicate StoredAs(bytes: Option<Bytes>, put: Option<Result<Bytes>>) {
    if put.None? then bytes == None else bytes.Some? && put.value == Ok(bytes.value)
  }

  lemma EncodedTable(s: State, k: Key)
    ensures (if Lookup(s, k).Some? then Some(Encode(Lookup(s, k).value)) else None) == StoreTable(s, k)
  {
  }

  /** A store that represents a state holds, under the bytes of every key, the bytes of the table, and nothing else. */
  lemma StoreAt(first: u8, ws: seq<Write>, s: State, k: Key)
    requires first + 20 < 256 && Represents(ws, s)
    ensures StoredAs(Under(Raw(first, ws), KeyTable(first, k)), StoreTable(s, k))
  {
    KeysAt(first, k);
    StoredUnder(first, ws, s, k);
    EncodedTable(s, k);
  }
}
