/** The VZK1 and VZK2 proof envelopes. */
module Envelope {
  import opened Words
  import opened Wire

  const MAX_PROOF_BYTES: nat := 131_072
  const MAX_CIRCUIT_ID: nat := 63
  const V1_HEADER: nat := 13
  const V2_HEADER: nat := 14
  const MAGIC_V1: Bytes := Ascii("VZK1")
  const MAGIC_V2: Bytes := Ascii("VZK2")

  /** What a blob parses to; a blob without an envelope is a raw proof. */
  datatype Parsed = Parsed(proofType: u8, circuit: Bytes, proof: Bytes, pubWitness: Bytes, hasEnvelope: bool)

  predicate CircuitChar(c: u8) {
    'a' as int <= c <= 'z' as int || '0' as int <= c <= '9' as int
    || c == '-' as int || c == '_' as int || c == '.' as int
  }

  predicate ValidCircuitId(id: Bytes) {
    0 < |id| <= MAX_CIRCUIT_ID && forall i :: 0 <= i < |id| ==> CircuitChar(id[i])
  }

  /** The scan over the identifier's characters. */
  method IsValidCircuitId(id: Bytes) returns (ok: bool)
    ensures ok == ValidCircuitId(id)
  {
    if |id| == 0 || |id| > MAX_CIRCUIT_ID {
      return false;
    }
    for i := 0 to |id|
      invariant forall j :: 0 <= j < i ==> CircuitChar(id[j])
    {
      if id[i] > 127 {
        return false;
      }
      if !CircuitChar(id[i]) {
        return false;
      }
    }
    return true;
  }

  function BuildV1(proofType: u8, proof: Bytes, pubWitness: Bytes): Result<Bytes> {
    if proofType == 0 || |proof| == 0 || |proof| > MAX_PROOF_BYTES || |pubWitness| == 0
       || V1_HEADER + |proof| + |pubWitness| > MAX_PROOF_BYTES then Err(InvalidProofEnvelope)
    else Ok(FrameV1(proofType, U32(|proof|), U32(|pubWitness|), proof + pubWitness))
  }

  function BuildV2(proofType: u8, circuitId: Bytes, proof: Bytes, pubWitness: Bytes): Result<Bytes> {
    var circuit := TrimSpace(circuitId);
    if proofType == 0 || |proof| == 0 || |proof| > MAX_PROOF_BYTES || |pubWitness| == 0 || !ValidCircuitId(circuit)
       || V2_HEADER + |circuit| + |proof| + |pubWitness| > MAX_PROOF_BYTES then Err(InvalidProofEnvelope)
    else Ok(FrameV2(proofType, |circuit|, U32(|proof|), U32(|pubWitness|), circuit + proof + pubWitness))
  }

  function Parse(blob: Bytes): Result<Parsed> {
    if |blob| < 4 then Ok(Parsed(0, [], blob, [], false))
    else if blob[..4] == MAGIC_V1 then ParseV1(blob)
    else if blob[..4] == MAGIC_V2 then ParseV2(blob)
    else Ok(Parsed(0, [], blob, [], false))
  }

  function ParseV1(blob: Bytes): Result<Parsed> {
    if |blob| < V1_HEADER then Err(InvalidProofEnvelope)
    else
      var p, w := AsU32(blob[5..9]), AsU32(blob[9..13]);
      if p <= 0 || w <= 0 || |blob| != V1_HEADER + p + w then Err(InvalidProofEnvelope)
      else Ok(Parsed(blob[4], [], blob[13..13 + p], blob[13 + p..13 + p + w], true))
  }

  function ParseV2(blob: Bytes): Result<Parsed> {
    if |blob| < V2_HEADER then Err(InvalidProofEnvelope)
    else
      var c, p, w := blob[5], AsU32(blob[6..10]), AsU32(blob[10..14]);
      if c <= 0 || c > MAX_CIRCUIT_ID || p <= 0 || w <= 0 || |blob| != V2_HEADER + c + p + w then
        Err(InvalidProofEnvelope)
      else if !ValidCircuitId(blob[14..14 + c]) then Err(InvalidProofEnvelope)
      else
        Ok(Parsed(blob[4], blob[14..14 + c], blob[14 + c..14 + c + p], blob[14 + c + p..14 + c + p + w], true))
  }

  /** The blob that parses to e; the inverse of Parse on its successful results. */
  function Unparse(e: Parsed): Bytes {
    if !e.hasEnvelope then e.proof
    else if e.circuit == [] then
      FrameV1(e.proofType, BigEndian(|e.proof|, 4), BigEndian(|e.pubWitness|, 4), e.proof + e.pubWitness)
    else
      FrameV2(e.proofType, |e.circuit| % 256, BigEndian(|e.proof|, 4),
              BigEndian(|e.pubWitness|, 4), e.circuit + e.proof + e.pubWitness)
  }

  function FrameV1(proofType: u8, proofLength: Bytes, witnessLength: Bytes, body: Bytes): Bytes {
    MAGIC_V1 + [proofType] + proofLength + witnessLength + body
  }

  function FrameV2(proofType: u8, circuitLength: u8, proofLength: Bytes, witnessLength: Bytes, body: Bytes): Bytes {
    MAGIC_V2 + [proofType] + [circuitLength] + proofLength + witnessLength + body
  }

  lemma UnparseV1(blob: Bytes)
    requires |blob| >= 4 && blob[..4] == MAGIC_V1 && ParseV1(blob).Ok?
    ensures Unparse(ParseV1(blob).value) == blob
  {
    var e, p: nat := ParseV1(blob).value, AsU32(blob[5..9]);
    assert e.proof + e.pubWitness == blob[13..] by { Join(blob, 13, 13 + p); }
    assert BigEndian(|e.proof|, 4) == blob[5..9] by { U32OfBytes(blob[5..9]); }
    assert BigEndian(|e.pubWitness|, 4) == blob[9..13] by { U32OfBytes(blob[9..13]); }
    RejoinV1(blob);
  }

  lemma RejoinV1(blob: Bytes)
    requires 13 <= |blob| && blob[..4] == MAGIC_V1
    ensures blob == FrameV1(blob[4], blob[5..9], blob[9..13], blob[13..])
  {
  }

  lemma UnparseV2(blob: Bytes)
    requires |blob| >= 4 && blob[..4] == MAGIC_V2 && ParseV2(blob).Ok?
    ensures Unparse(ParseV2(blob).value) == blob
  {
    var e := ParseV2(blob).value;
    BodyV2(blob, blob[5], AsU32(blob[6..10]), AsU32(blob[10..14]));
    U32OfBytes(blob[6..10]);
    U32OfBytes(blob[10..14]);
    UnparseParts(e, blob);
  }

  /** A parsed result with the parts of a VZK2 blob unparses to the blob. */
  lemma UnparseParts(e: Parsed, blob: Bytes)
    requires e.hasEnvelope && 14 <= |blob| && blob[..4] == MAGIC_V2
    requires e.proofType == blob[4] && |e.circuit| == blob[5] > 0
    requires BigEndian(|e.proof|, 4) == blob[6..10] && BigEndian(|e.pubWitness|, 4) == blob[10..14]
    requires e.circuit + e.proof + e.pubWitness == blob[14..]
    ensures Unparse(e) == blob
  {
    RejoinV2(blob);
  }

  lemma BodyV2(blob: Bytes, c: nat, p: nat, w: nat)
    requires |blob| == 14 + c + p + w
    ensures blob[14..] == blob[14..14 + c] + blob[14 + c..14 + c + p] + blob[14 + c + p..14 + c + p + w]
  {
    Join(blob, 14, 14 + c);
    Join(blob, 14 + c, 14 + c + p);
  }

  lemma RejoinV2(blob: Bytes)
    requires 14 <= |blob| && blob[..4] == MAGIC_V2
    ensures blob == FrameV2(blob[4], blob[5], blob[6..10], blob[10..14], blob[14..])
  {
  }

  /** Every parsed blob is recovered from what it parsed to. */
  lemma UnparseParse(blob: Bytes)
    requires Parse(blob).Ok?
    ensures Unparse(Parse(blob).value) == blob
  {
    if |blob| >= 4 && blob[..4] == MAGIC_V1 {
      UnparseV1(blob);
    } else if |blob| >= 4 && blob[..4] == MAGIC_V2 {
      UnparseV2(blob);
    }
  }

  /** Parsing is injective over all blobs, raw ones included. */
  lemma ParseInjective(a: Bytes, b: Bytes)
    requires Parse(a).Ok? && Parse(a) == Parse(b)
    ensures a == b
  {
    UnparseParse(a);
    UnparseParse(b);
  }

  /** A built VZK1 envelope parses back to its parts. */
  lemma ParseBuildV1(proofType: u8, proof: Bytes, pubWitness: Bytes)
    requires BuildV1(proofType, proof, pubWitness).Ok?
    ensures Parse(BuildV1(proofType, proof, pubWitness).value) == Ok(Parsed(proofType, [], proof, pubWitness, true))
  {
    var blob := BuildV1(proofType, proof, pubWitness).value;
    WordRoundTrips(0, |proof|, 0, 0);
    WordRoundTrips(0, |pubWitness|, 0, 0);
    assert blob[..4] == MAGIC_V1;
    assert blob[5..9] == U32(|proof|) && blob[9..13] == U32(|pubWitness|);
    assert blob[13..13 + |proof|] == proof && blob[13 + |proof|..13 + |proof| + |pubWitness|] == pubWitness;
  }

  /** Where the parts of a VZK2 frame are. */
  lemma SlicesV2(proofType: u8, circuit: Bytes, p: Bytes, w: Bytes, proof: Bytes, pubWitness: Bytes)
    requires |circuit| < 256 && |p| == 4 && |w| == 4
    ensures var blob, c := FrameV2(proofType, |circuit|, p, w, circuit + proof + pubWitness), 14 + |circuit|;
            && |blob| == c + |proof| + |pubWitness|
            && blob[..4] == MAGIC_V2 && blob[4] == proofType && blob[5] == |circuit|
            && blob[6..10] == p && blob[10..14] == w && blob[14..c] == circuit
            && blob[c..c + |proof|] == proof && blob[c + |proof|..c + |proof| + |pubWitness|] == pubWitness
  {
    var blob, c := FrameV2(proofType, |circuit|, p, w, circuit + proof + pubWitness), 14 + |circuit|;
    var head := MAGIC_V2 + [proofType] + [|circuit|] + p + w;
    assert blob == head + circuit + proof + pubWitness;
    assert blob[14..c] == circuit;
  }

  /** A VZK2 frame with honest lengths parses to its parts. */
  lemma ParseFrameV2(proofType: u8, circuit: Bytes, proof: Bytes, pubWitness: Bytes)
    requires ValidCircuitId(circuit) && 0 < |proof| < 0x1_0000_0000 && 0 < |pubWitness| < 0x1_0000_0000
    ensures Parse(FrameV2(proofType, |circuit|, U32(|proof|), U32(|pubWitness|), circuit + proof + pubWitness))
            == Ok(Parsed(proofType, circuit, proof, pubWitness, true))
  {
    var p, w := U32(|proof|), U32(|pubWitness|);
    SlicesV2(proofType, circuit, p, w, proof, pubWitness);
    assert AsU32(p) == |proof| by { WordRoundTrips(0, |proof|, 0, 0); }
    assert AsU32(w) == |pubWitness| by { WordRoundTrips(0, |pubWitness|, 0, 0); }
    assert MAGIC_V1[3] != MAGIC_V2[3];
  }

  /** A built VZK2 envelope parses back to its parts, with the circuit identifier trimmed. */
  lemma ParseBuildV2(proofType: u8, circuitId: Bytes, proof: Bytes, pubWitness: Bytes)
    requires BuildV2(proofType, circuitId, proof, pubWitness).Ok?
    ensures Parse(BuildV2(proofType, circuitId, proof, pubWitness).value)
            == Ok(Parsed(proofType, TrimSpace(circuitId), proof, pubWitness, true))
  {
    ParseFrameV2(proofType, TrimSpace(circuitId), proof, pubWitness);
  }

  lemma TrimKeepsValidIds(id: Bytes)
    requires ValidCircuitId(id)
    ensures TrimSpace(id) == id
  {
    assert CircuitChar(id[0]) && CircuitChar(id[|id| - 1]);
  }

  /** A parsed envelope with a proof type, within the size limit, is rebuilt byte for byte. */
  lemma BuildParse(blob: Bytes)
    requires |blob| <= MAX_PROOF_BYTES && Parse(blob).Ok? && Parse(blob).value.hasEnvelope
    requires Parse(blob).value.proofType != 0
    ensures var e := Parse(blob).value;
            if e.circuit == [] then BuildV1(e.proofType, e.proof, e.pubWitness) == Ok(blob)
            else BuildV2(e.proofType, e.circuit, e.proof, e.pubWitness) == Ok(blob)
  {
    UnparseParse(blob);
    var e := Parse(blob).value;
    if e.circuit != [] { TrimKeepsValidIds(e.circuit); }
  }

  /** A proper truncation of an enveloped blob is rejected exactly when the magic survives it. */
  lemma TruncationRejected(blob: Bytes, k: nat)
    requires Parse(blob).Ok? && Parse(blob).value.hasEnvelope && k < |blob|
    ensures Parse(blob[..k]).Err? <==> 4 <= k
  {
    var cut := blob[..k];
    if 4 <= k {
      assert cut[..4] == blob[..4];
      if blob[..4] == MAGIC_V1 && k >= 13 {
        assert cut[5..9] == blob[5..9] && cut[9..13] == blob[9..13];
      } else if blob[..4] == MAGIC_V2 && k >= 14 {
        assert cut[6..10] == blob[6..10] && cut[10..14] == blob[10..14];
      }
    }
  }
}
