/** Markets and proof-gated batch clearing. */
module Clearing {
  import opened Words
  import opened Wire
  import opened Envelope
  import opened Preimage
  import opened Verifier

  const ACTIVE: u8 := 0
  const RESOLVED: u8 := 1
  const DISPUTED: u8 := 2
  const DISPUTE_INDEX: u32 := 0xFFFF_FFFF
  const MAX_QUESTION: nat := 1024
  const MAX_SIGNATURE: nat := 256
  const MAX_EVIDENCE: nat := 4096
  const MAX_SHARE: nat := 512
  const MAX_ORDER_ENVELOPE: nat := 4096
  const MAX_COMMITMENT: nat := 64
  const HASH_SIZE: nat := 32

  datatype Market = Market(status: u8, outcomes: u8, resolutionTime: i64, resolvedOutcome: u8, question: Bytes)
  datatype ProofConfig = ProofConfig(
    requireProof: bool, requiredProofType: u8, batchWindowMs: i64, proofDeadlineMs: i64, proverAuthority: Address)
  datatype Record = Record(
    proofType: u8, submittedAtMs: i64, windowCloseAtMs: i64, prover: Address,
    commitment: Digest, publicInputsHash: Bytes, fillsHash: Bytes)
  datatype Bloodsworn = Bloodsworn(accepted: u64, streak: u64, lastProofAtMs: i64, scars: u32)
  datatype Glyph = Glyph(
    class_: u8, rarity: u8, createdAtMs: i64, prover: Address,
    commitment: Digest, publicInputsHash: Digest, entropy: Digest)
  datatype BatchResult = BatchResult(price: u64, volume: u64, fillsHash: Bytes)

  /** One batch window of one market. */
  datatype Slot = Slot(market: Id, window: u64)
  datatype OrderSlot = OrderSlot(market: Id, window: u64, trader: Address)
  /** Decryption shares by validator index; disputes live at the largest index. */
  datatype OracleSlot = OracleSlot(market: Id, index: u32)

  /** What an accepted proof leaves behind. */
  datatype Proofs = Proofs(
    records: map<Slot, Record>,
    blobs: map<Slot, Bytes>,
    sworn: map<Address, Bloodsworn>,
    glyphs: map<Slot, Glyph>)

  datatype Board = Board(
    config: ProofConfig,
    markets: map<Id, Market>,
    orders: map<OrderSlot, Bytes>,
    oracle: map<OracleSlot, Bytes>,
    batches: map<Slot, BatchResult>,
    proofs: Proofs)

  predicate IsZeroAddress(a: Address) { forall i :: 0 <= i < |a| ==> a[i] == 0 }

  predicate ValidConfig(c: ProofConfig) {
    && (c.requiredProofType == GROTH16 || c.requiredProofType == PLONK)
    && c.batchWindowMs > 0 && c.proofDeadlineMs > 0
    && !IsZeroAddress(c.proverAuthority)
  }

  /** The market must exist and still be trading. */
  function NeedActive(b: Board, id: Id): Check {
    if id !in b.markets then Fail(MarketNotFound)
    else Need(b.markets[id].status == ACTIVE, MarketNotActive)
  }

  function CreateMarket(b: Board, id: Id, outcomes: u8, resolutionTime: i64, bond: u64, question: Bytes)
    : Result<Board>
  {
    if outcomes < 2 then Err(InvalidOutcomes)
    else if resolutionTime <= 0 then Err(InvalidResolutionTime)
    else if bond == 0 then Err(BondZero)
    else if |question| > MAX_QUESTION then Err(TooLarge)
    else if id in b.markets then Err(MarketExists)
    else Ok(b.(markets := b.markets[id := Market(ACTIVE, outcomes, resolutionTime, 0, question)]))
  }

  function ResolveMarket(b: Board, id: Id, outcome: u8, signature: Bytes): Result<Board> {
    if |signature| == 0 then Err(Empty)
    else if |signature| > MAX_SIGNATURE then Err(TooLarge)
    else if NeedActive(b, id).Fail? then Err(NeedActive(b, id).error)
    else if outcome >= b.markets[id].outcomes then Err(InvalidOutcome)
    else Ok(b.(markets := b.markets[id := b.markets[id].(status := RESOLVED, resolvedOutcome := outcome)]))
  }

  /** The stored form of a dispute. */
  function DisputeEntry(bond: u64, evidence: Bytes): Bytes { U64(bond) + evidence }

  function Dispute(b: Board, id: Id, bond: u64, evidence: Bytes): Result<Board> {
    if bond == 0 then Err(BondZero)
    else if |evidence| == 0 then Err(Empty)
    else if |evidence| > MAX_EVIDENCE then Err(TooLarge)
    else if id !in b.markets then Err(MarketNotFound)
    else if b.markets[id].status != RESOLVED then Err(MarketNotResolved)
    else Ok(b.(markets := b.markets[id := b.markets[id].(status := DISPUTED)],
               oracle := b.oracle[OracleSlot(id, DISPUTE_INDEX) := DisputeEntry(bond, evidence)]))
  }

  function CommitOrder(b: Board, trader: Address, slot: Slot, envelope: Bytes, commitment: Bytes): Result<Board> {
    if |envelope| == 0 then Err(Empty)
    else if |envelope| > MAX_ORDER_ENVELOPE then Err(TooLarge)
    else if |commitment| == 0 then Err(Empty)
    else if |commitment| > MAX_COMMITMENT then Err(TooLarge)
    else if NeedActive(b, slot.market).Fail? then Err(NeedActive(b, slot.market).error)
    else Ok(b.(orders := b.orders[OrderSlot(slot.market, slot.window, trader) := commitment + envelope]))
  }

  function RevealBatch(b: Board, slot: Slot, index: u32, share: Bytes): Result<Board> {
    if |share| == 0 then Err(Empty)
    else if |share| > MAX_SHARE then Err(TooLarge)
    else if NeedActive(b, slot.market).Fail? then Err(NeedActive(b, slot.market).error)
    else Ok(b.(oracle := b.oracle[OracleSlot(slot.market, index) := U64(slot.window) + share]))
  }

  function SetConfig(b: Board, authorized: bool, c: ProofConfig): Result<Board> {
    if !authorized then Err(Unauthorized)
    else if !ValidConfig(c) then Err(InvalidProofConfig)
    else Ok(b.(config := c))
  }

  /** The last moment a proof for a window closing at `close` is accepted, in 64-bit signed arithmetic. */
  function ProofDeadline(c: ProofConfig, close: i64): i64 { WrapI64(close + c.proofDeadlineMs) }

  datatype Submission = Submission(
    slot: Slot, windowCloseAtMs: i64, proofType: u8, publicInputsHash: Bytes, fillsHash: Bytes, proof: Bytes)

  /** Everything a submission must satisfy before it is recorded. */
  function CheckSubmission(setup: Setup, b: Board, actor: Address, now: i64, a: Submission): Check {
    var c := b.config;
    if a.windowCloseAtMs <= 0 || a.proofType == 0 || |a.publicInputsHash| != HASH_SIZE || |a.fillsHash| != HASH_SIZE
       || |a.proof| == 0 || |a.proof| > MAX_PROOF_BYTES then Fail(InvalidProofEnvelope)
    else if NeedActive(b, a.slot.market).Fail? then NeedActive(b, a.slot.market)
    else if !ValidConfig(c) then Fail(InvalidProofConfig)
    else if !c.requireProof then Fail(InvalidProofConfig)
    else if actor != c.proverAuthority then Fail(Unauthorized)
    else if a.proofType != c.requiredProofType then Fail(ProofTypeMismatch)
    else if a.windowCloseAtMs % c.batchWindowMs != 0 then Fail(InvalidProofEnvelope)
    else if now < a.windowCloseAtMs || now > ProofDeadline(c, a.windowCloseAtMs) then Fail(ProofDeadlineMissed)
    else if a.slot in b.proofs.records then Fail(ProofAlreadySubmitted)
    else VerifyBatchProof(setup, c.requiredProofType, a.proof, a.publicInputsHash)
  }

  /** The record, blob, prover counter and glyph of one more accepted proof. */
  function Recorded(sha: Hash, p: Proofs, actor: Address, now: i64, id: Id, a: Submission): Proofs {
    var commitment := sha(a.proof);
    var record := Record(a.proofType, now, a.windowCloseAtMs, actor, commitment, a.publicInputsHash, a.fillsHash);
    Proofs(p.records[a.slot := record],
           p.blobs[a.slot := a.proof],
           p.sworn[actor := Accepted(Sworn(p, actor), now)],
           p.glyphs[a.slot := DeriveGlyph(sha, id, a.slot, actor, commitment, a.publicInputsHash, now)])
  }

  // ----- Glyphs -----

  const GLYPH_TAG: Bytes := Ascii("VEIL_GLYPH_V1")

  function GlyphEntropy(sha: Hash, id: Id, slot: Slot, prover: Address, commitment: Digest, inputs: Bytes): Digest {
    sha(GLYPH_TAG + id + slot.market + U64(slot.window) + prover + commitment + inputs)
  }

  function GlyphClass(entropy: Digest): u8 { entropy[2] % 6 + 1 }

  function GlyphRarity(entropy: Digest): u8 {
    var roll := AsU16(entropy[..2]) * 10_000 / 65_536;
    if roll < 2 then 5 else if roll < 20 then 4 else if roll < 150 then 3 else if roll < 800 then 2 else 1
  }

  /** A byte string copied into a 32-byte array: cut off or padded with zeros. */
  function InDigest(b: Bytes): Digest {
    if |b| >= 32 then b[..32] else b + seq(32 - |b|, _ => 0)
  }

  function DeriveGlyph(
    sha: Hash, id: Id, slot: Slot, prover: Address, commitment: Digest, inputs: Bytes, now: i64): Glyph
  {
    var entropy := GlyphEntropy(sha, id, slot, prover, commitment, inputs);
    Glyph(GlyphClass(entropy), GlyphRarity(entropy), now, prover, commitment, InDigest(inputs), entropy)
  }

  function SubmitProof(sha: Hash, setup: Setup, b: Board, actor: Address, now: i64, id: Id, a: Submission)
    : Result<Board>
  {
    var check := CheckSubmission(setup, b, actor, now, a);
    :- check;
    Ok(b.(proofs := Recorded(sha, b.proofs, actor, now, id, a)))
  }

  function Sworn(p: Proofs, who: Address): Bloodsworn {
    if who in p.sworn then p.sworn[who] else Bloodsworn(0, 0, 0, 0)
  }

  /** Unchecked 64-bit increments. */
  function Accepted(w: Bloodsworn, now: i64): Bloodsworn {
    w.(accepted := (w.accepted + 1) % TWO_64, streak := (w.streak + 1) % TWO_64, lastProofAtMs := now)
  }

  /** The checks of a proof-gated clear against the stored record and blob. */
  function CheckProof(sha: Hash, setup: Setup, b: Board, actor: Address, x: Clear): Check {
    var c, slot := b.config, Slot(x.market, x.window);
    if actor != c.proverAuthority then Fail(Unauthorized)
    else if slot !in b.proofs.records then Fail(ProofNotFound)
    else
      var r := b.proofs.records[slot];
      if r.proofType != c.requiredProofType then Fail(ProofTypeMismatch)
      else if r.submittedAtMs > ProofDeadline(c, r.windowCloseAtMs) then Fail(ProofDeadlineMissed)
      else if r.fillsHash != x.fills then Fail(ProofFillsMismatch)
      else if slot !in b.proofs.blobs then Fail(VellumProofNotFound)
      else if sha(b.proofs.blobs[slot]) != r.commitment then Fail(ProofCommitmentMismatch)
      else
        var e := Parse(b.proofs.blobs[slot]);
        if e.Err? then Fail(e.error)
        else
          var expected := ExpectedHash(sha, e.value.circuit, x);
          if expected.Err? then Fail(expected.error)
          else if r.publicInputsHash != expected.value then Fail(ProofPublicInputsMismatch)
          else VerifyBatchProof(setup, r.proofType, b.proofs.blobs[slot], expected.value)
  }

  function ClearBatch(sha: Hash, setup: Setup, b: Board, actor: Address, x: Clear): Result<Board> {
    if x.price == 0 then Err(ClearPriceZero)
    else if |x.fills| == 0 then Err(Empty)
    else if |x.fills| > 64 then Err(TooLarge)
    else if |x.fills| != HASH_SIZE then Err(WrongSize)
    else if NeedActive(b, x.market).Fail? then Err(NeedActive(b, x.market).error)
    else if !ValidConfig(b.config) then Err(InvalidProofConfig)
    else
      :- if b.config.requireProof then CheckProof(sha, setup, b, actor, x) else Pass;
      Ok(b.(batches := b.batches[Slot(x.market, x.window) := BatchResult(x.price, x.volume, x.fills)]))
  }
}
