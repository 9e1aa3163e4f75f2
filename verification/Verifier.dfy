/** Proof verification as consensus sees it; the two proof systems are parameters. */
module Verifier {
  import opened Words
  import opened Wire
  import opened Envelope
  import opened Preimage

  const GROTH16: u8 := 1
  const PLONK: u8 := 2
  /** The order of the BN254 scalar field. */
  const FIELD: nat := 21888242871839275222246405745257275088548364400416034343698204186575808495617

  /** Acceptance of (circuit, proof, public inputs hash, public witness) under one verifying key. */
  type ProofSystem = (Bytes, Bytes, Bytes, Bytes) -> bool

  datatype Keys = Keys(requiredCircuit: Bytes, groth16: Option<ProofSystem>, plonk: Option<ProofSystem>)

  /** The process-wide verifier and whether its absence fails closed. */
  datatype Setup = Setup(verifier: Option<Keys>, strict: bool)

  function Verify(k: Keys, proofType: u8, circuitId: Bytes, proof: Bytes, hash: Bytes, pubWitness: Bytes): Check {
    var circuit := NormalizeCircuit(circuitId);
    if k.requiredCircuit != [] && circuit != k.requiredCircuit then Fail(ProofCircuitMismatch)
    else if !SupportedCircuit(circuit) then Fail(UnsupportedProofCircuit)
    else if proofType == GROTH16 then
      if k.groth16.None? then Fail(ProofVerifierUnavailable)
      else Need(k.groth16.value(circuit, proof, hash, pubWitness), ProofVerificationFailed)
    else if proofType == PLONK then
      if k.plonk.None? then Fail(ProofVerifierUnavailable)
      else Need(k.plonk.value(circuit, proof, hash, pubWitness), ProofVerificationFailed)
    else Fail(ProofTypeMismatch)
  }

  function VerifyBatchProof(setup: Setup, requiredType: u8, blob: Bytes, hash: Bytes): Check {
    var parsed := Parse(blob);
    if parsed.Err? then Fail(parsed.error)
    else
      var e := parsed.value;
      if e.hasEnvelope && e.proofType != requiredType then Fail(ProofTypeMismatch)
      else if setup.verifier.None? then
        if setup.strict then Fail(ProofVerifierUnavailable) else Pass
      else
        var r := Verify(setup.verifier.value, requiredType, e.circuit, e.proof, hash, e.pubWitness);
        if r.Pass? || r.error == ProofVerifierUnavailable then r else Fail(ProofVerificationFailed)
  }

  /** The proof system of a type, if its key is installed: Groth16 is type 1, PLONK type 2. */
  function SystemFor(k: Keys, proofType: u8): Option<ProofSystem> {
    if proofType == 1 then k.groth16 else k.plonk
  }

  /**
   What consensus asks of a blob: it can be read, an envelope names the required type, and the installed verifier
   accepts it for a supported circuit, the required one if any. Without a verifier everything readable passes, unless
   the node is strict.
   */
  ghost predicate Accepts(setup: Setup, requiredType: u8, blob: Bytes, hash: Bytes) {
    && Parse(blob).Ok?
    && var e := Parse(blob).value;
       && (e.hasEnvelope ==> e.proofType == requiredType)
       && match setup.verifier
          case None => !setup.strict
          case Some(k) =>
            var circuit, system := NormalizeCircuit(e.circuit), SystemFor(k, requiredType);
            && SupportedCircuit(circuit) && (k.requiredCircuit == [] || k.requiredCircuit == circuit)
            && system.Some? && system.value(circuit, e.proof, hash, e.pubWitness)
  }

  lemma AcceptsIff(setup: Setup, requiredType: u8, blob: Bytes, hash: Bytes)
    requires requiredType == GROTH16 || requiredType == PLONK
    ensures VerifyBatchProof(setup, requiredType, blob, hash).Pass? <==> Accepts(setup, requiredType, blob, hash)
  {
  }

  /** What the digest check accepts: the packed digest, or the digest byte by byte. */
  predicate DigestVectorMatches(hash: Bytes, vec: seq<nat>) {
    (|vec| == 1 && hash != [] && vec[0] == Number(hash) % FIELD)
    || (|vec| == 32 && |hash| == 32 && forall i :: 0 <= i < 32 ==> vec[i] == hash[i])
  }

  method ValidateDigestVector(hash: Bytes, vec: seq<nat>) returns (r: Check)
    ensures r.Pass? <==> DigestVectorMatches(hash, vec)
  {
    if |vec| == 1 {
      if hash == [] {
        return Fail(InvalidProofEnvelope);
      }
      return Need(vec[0] == Number(hash) % FIELD, ProofPublicInputsMismatch);
    }
    if |vec| != 32 {
      return Fail(InvalidProofEnvelope);
    }
    if |hash| != 32 {
      return Fail(InvalidProofEnvelope);
    }
    for i := 0 to 32
      invariant forall j :: 0 <= j < i ==> vec[j] == hash[j]
    {
      if vec[i] != hash[i] {
        return Fail(ProofPublicInputsMismatch);
      }
    }
    return Pass;
  }

  /** The field order in hexadecimal. */
  lemma FieldOrder()
    ensures FIELD == 0x30644E72E131A029B85045B68181585D2833E84879B9709143E1F593F0000001
  {
  }

  /** Every digest shares its residue with another one: the field order fits twice into 256 bits. */
  lemma ResidueSibling(g: Digest) returns (h: Digest)
    ensures h != g && Number(h) % FIELD == Number(g) % FIELD
  {
    var n := Number(g);
    NumberBound(g);
    DigestRange();
    var m := if n + FIELD < Pow256(32) then n + FIELD else n - FIELD;
    h := BigEndian(m, 32);
    NumberOfBigEndian(m, 32);
    SameResidue(n);
    SameResidue(m);
  }

  lemma SameResidue(n: nat)
    ensures (n + FIELD) % FIELD == n % FIELD
  {
  }

  /** An accepted digest vector stands for exactly one digest. */
  ghost predicate FixesDigest(vec: seq<nat>, g: Digest) {
    forall h: Digest :: DigestVectorMatches(h, vec) ==> h == g
  }

  /**
   An accepted vector fixes the digest exactly when it has 32 entries: a packed one is accepted, for every
   digest, together with a different digest.
   */
  lemma DigestVectorBinds(g: Digest, vec: seq<nat>)
    requires DigestVectorMatches(g, vec)
    ensures FixesDigest(vec, g) <==> |vec| == 32
  {
    if |vec| == 32 {
      forall h: Digest | DigestVectorMatches(h, vec)
        ensures h == g
      {
        assert forall i :: 0 <= i < 32 ==> h[i] == vec[i] == g[i];
      }
    } else {
      var h := ResidueSibling(g);
      assert DigestVectorMatches(h, vec);
    }
  }
}
