/** Safety and completeness of proof-gated clearing, over whole runs. */
module BoardProofs {
  import opened Words
  import opened Envelope
  import opened Preimage
  import opened Clearing
  import opened Chain
  import Verifier

  /** How a successful step moves the board: eight actions do, all others leave it alone. */
  ghost predicate BoardMoves(sha: Hash, b: Board, tx: Tx, c: Board) {
    match tx.action
    case CreateMarket(id, n, time, bond, question) => Clearing.CreateMarket(b, id, n, time, bond, question) == Ok(c)
    case CommitOrder(slot, envelope, commitment) =>
      Clearing.CommitOrder(b, tx.actor, slot, envelope, commitment) == Ok(c)
    case RevealBatch(slot, index, share) => Clearing.RevealBatch(b, slot, index, share) == Ok(c)
    case ClearBatch(x) =>
      c == b.(batches := b.batches[Slot(x.market, x.window) := BatchResult(x.price, x.volume, x.fills)])
    case ResolveMarket(id, outcome, sig) => Clearing.ResolveMarket(b, id, outcome, sig) == Ok(c)
    case Dispute(id, bond, evidence) => Clearing.Dispute(b, id, bond, evidence) == Ok(c)
    case SubmitBatchProof(a) => Submitted(sha, b, tx.actor, tx.now, tx.id, a, c)
    case SetProofConfig(config) => ValidConfig(config) && c == b.(config := config)
    case _ => c == b
  }

  predicate WellSized(a: Submission) {
    |a.publicInputsHash| == HASH_SIZE && |a.fillsHash| == HASH_SIZE && 0 < |a.proof| <= MAX_PROOF_BYTES
  }

  /** A submission found no record and a readable blob, and wrote record, blob, counter and glyph together. */
  ghost predicate Submitted(sha: Hash, b: Board, actor: Address, now: i64, id: Id, a: Submission, c: Board) {
    && a.slot !in b.proofs.records && Parse(a.proof).Ok? && WellSized(a) && 0 < a.windowCloseAtMs <= now
    && c == b.(proofs := Recorded(sha, b.proofs, actor, now, id, a))
  }

  lemma SubmitWrites(
    sha: Hash, setup: Verifier.Setup, b: Board, actor: Address, now: i64, id: Id, a: Submission, c: Board)
    requires SubmitProof(sha, setup, b, actor, now, id, a) == Ok(c)
    ensures Submitted(sha, b, actor, now, id, a, c)
  {
  }

  lemma ClearWrites(sha: Hash, setup: Verifier.Setup, b: Board, actor: Address, x: Clear, c: Board)
    requires Clearing.ClearBatch(sha, setup, b, actor, x) == Ok(c)
    ensures c == b.(batches := b.batches[Slot(x.market, x.window) := BatchResult(x.price, x.volume, x.fills)])
  {
  }

  lemma BoardFrame(sha: Hash, s: State, tx: Tx, t: State)
    requires Execute(sha, s, tx) == Ok(t)
    ensures BoardMoves(sha, s.board, tx, t.board)
  {
    match tx.action
    case SubmitBatchProof(a) => SubmitWrites(sha, tx.setup, s.board, tx.actor, tx.now, tx.id, a, t.board);
    case ClearBatch(x) => ClearWrites(sha, tx.setup, s.board, tx.actor, x, t.board);
    case _ =>
  }

  // ----- Write-once proof records -----

  /** Records are only ever added, and a recorded blob is never replaced. */
  ghost predicate RecordsExtend(p: Proofs, q: Proofs) {
    forall k :: k in p.records ==>
      && k in q.records && q.records[k] == p.records[k]
      && (k in p.blobs ==> k in q.blobs && q.blobs[k] == p.blobs[k])
  }

  /** Only a submission writes proofs. */
  lemma ProofsFrame(sha: Hash, b: Board, tx: Tx, c: Board)
    requires BoardMoves(sha, b, tx, c) && !tx.action.SubmitBatchProof?
    ensures c.proofs == b.proofs
  {
  }

  /** Only SetProofConfig writes the configuration, and only a valid one. */
  lemma ConfigFrame(sha: Hash, b: Board, tx: Tx, c: Board)
    requires BoardMoves(sha, b, tx, c)
    ensures if tx.action.SetProofConfig? then ValidConfig(c.config) else c.config == b.config
  {
  }

  lemma StepExtendsRecords(sha: Hash, b: Board, tx: Tx, c: Board)
    requires BoardMoves(sha, b, tx, c)
    ensures RecordsExtend(b.proofs, c.proofs)
  {
    if tx.action.SubmitBatchProof? {
      assert Submitted(sha, b, tx.actor, tx.now, tx.id, tx.action.submission, c);
    } else {
      ProofsFrame(sha, b, tx, c);
    }
  }

  lemma {:induction false} RunExtendsRecords(sha: Hash, s: State, txs: seq<Tx>)
    ensures RecordsExtend(s.board.proofs, Run(sha, s, txs).board.proofs)
    decreases |txs|
  {
    if txs != [] {
      var s1 := Apply(sha, s, txs[0]);
      if Execute(sha, s, txs[0]).Ok? {
        BoardFrame(sha, s, txs[0], s1);
        StepExtendsRecords(sha, s.board, txs[0], s1.board);
      }
      RunExtendsRecords(sha, s1, txs[1..]);
    }
  }

  // ----- One window, one settlement -----

  /** Two different canonical preimages with one digest. */
  ghost predicate CollisionBetween(sha: Hash, x: Clear, y: Clear) {
    exists id: Bytes ::
      && ExpectedPreimage(id, x).Ok? && ExpectedPreimage(id, y).Ok?
      && ExpectedPreimage(id, x) != ExpectedPreimage(id, y)
      && sha(ExpectedPreimage(id, x).value) == sha(ExpectedPreimage(id, y).value)
  }

  /** The window's record and blob are there, belong together, and commit to the inputs x. */
  ghost predicate CommitsTo(sha: Hash, p: Proofs, x: Clear) {
    var k := Slot(x.market, x.window);
    && k in p.records && k in p.blobs && Parse(p.blobs[k]).Ok?
    && p.records[k].fillsHash == x.fills && p.records[k].commitment == sha(p.blobs[k])
    && ExpectedHash(sha, Parse(p.blobs[k]).value.circuit, x) == Ok(p.records[k].publicInputsHash)
  }

  /** What a successful proof-gated clear has found on the board. */
  lemma GatedClear(sha: Hash, setup: Verifier.Setup, b: Board, actor: Address, x: Clear)
    requires b.config.requireProof && Clearing.ClearBatch(sha, setup, b, actor, x).Ok?
    ensures CommitsTo(sha, b.proofs, x)
  {
    assert CheckProof(sha, setup, b, actor, x).Pass?;
  }

  /** One record and one blob admit one set of inputs, up to a hash collision. */
  lemma RecordDeterminesClear(sha: Hash, p: Proofs, x: Clear, y: Clear)
    requires CommitsTo(sha, p, x) && CommitsTo(sha, p, y) && x.market == y.market && x.window == y.window
    ensures x == y || CollisionBetween(sha, x, y)
  {
    var id := Parse(p.blobs[Slot(x.market, x.window)]).value.circuit;
    if ExpectedPreimage(id, x) == ExpectedPreimage(id, y) { ExpectedPreimageInjective(id, x, id, y); }
  }

  /** A successful gated clear stores its inputs, and leaves record and blob as it found them. */
  lemma GatedClearStep(sha: Hash, s: State, tx: Tx, t: State)
    requires tx.action.ClearBatch? && s.board.config.requireProof && Execute(sha, s, tx) == Ok(t)
    ensures var x := tx.action.clear;
            var k := Slot(x.market, x.window);
            && CommitsTo(sha, s.board.proofs, x)
            && t.board == s.board.(batches := s.board.batches[k := BatchResult(x.price, x.volume, x.fills)])
  {
    ExecuteClear(sha, s, tx);
    ClearWrites(sha, tx.setup, s.board, tx.actor, tx.action.clear, t.board);
    GatedClear(sha, tx.setup, s.board, tx.actor, tx.action.clear);
  }

  /**
   Two gated clears of one window settle the same price, volume and fills, whatever runs in between;
   otherwise their canonical preimages are a SHA-256 collision.
   */
  lemma GatedClearsAgree(sha: Hash, s: State, first: Tx, s1: State, between: seq<Tx>, second: Tx, s3: State)
    requires first.action.ClearBatch? && second.action.ClearBatch?
    requires first.action.clear.market == second.action.clear.market
    requires first.action.clear.window == second.action.clear.window
    requires s.board.config.requireProof && Execute(sha, s, first) == Ok(s1)
    requires Run(sha, s1, between).board.config.requireProof && Execute(sha, Run(sha, s1, between), second) == Ok(s3)
    ensures var x, y := first.action.clear, second.action.clear;
            var k := Slot(x.market, x.window);
            || CollisionBetween(sha, x, y)
            || (x == y && k in s1.board.batches && k in s3.board.batches
                && s3.board.batches[k] == s1.board.batches[k] == BatchResult(x.price, x.volume, x.fills))
  {
    var x, y := first.action.clear, second.action.clear;
    var s2 := Run(sha, s1, between);
    GatedClearStep(sha, s, first, s1);
    GatedClearStep(sha, s2, second, s3);
    RunExtendsRecords(sha, s1, between);
    assert CommitsTo(sha, s2.board.proofs, x);
    RecordDeterminesClear(sha, s2.board.proofs, x, y);
  }

  /** Proofs are required in every state of the run. */
  predicate GatedThroughout(sha: Hash, s: State, txs: seq<Tx>)
    decreases |txs|
  {
    s.board.config.requireProof && (txs != [] ==> GatedThroughout(sha, Apply(sha, s, txs[0]), txs[1..]))
  }

  /** The window of x is settled with x, by a record that commits to x. */
  ghost predicate SettledBy(sha: Hash, b: Board, x: Clear) {
    var k := Slot(x.market, x.window);
    CommitsTo(sha, b.proofs, x) && k in b.batches && b.batches[k] == BatchResult(x.price, x.volume, x.fills)
  }

  /** A transaction clears the window of x with inputs whose canonical preimage collides with that of x. */
  ghost predicate Collides(sha: Hash, x: Clear, tx: Tx) {
    && tx.action.ClearBatch? && tx.action.clear.market == x.market && tx.action.clear.window == x.window
    && CollisionBetween(sha, x, tx.action.clear)
  }

  /** A gated step unsettles a window only by a clear that collides with its settlement. */
  lemma SettledStep(sha: Hash, s: State, tx: Tx, t: State, x: Clear)
    requires s.board.config.requireProof && SettledBy(sha, s.board, x) && Execute(sha, s, tx) == Ok(t)
    ensures SettledBy(sha, t.board, x) || Collides(sha, x, tx)
  {
    var k := Slot(x.market, x.window);
    if tx.action.ClearBatch? && Slot(tx.action.clear.market, tx.action.clear.window) == k {
      GatedClearStep(sha, s, tx, t);
      RecordDeterminesClear(sha, s.board.proofs, x, tx.action.clear);
    } else {
      BoardFrame(sha, s, tx, t);
      StepExtendsRecords(sha, s.board, tx, t.board);
      BatchesFrame(sha, s.board, tx, t.board, k);
    }
  }

  /** Only a clear of the window writes its result. */
  lemma BatchesFrame(sha: Hash, b: Board, tx: Tx, c: Board, k: Slot)
    requires BoardMoves(sha, b, tx, c) && k in b.batches
    requires tx.action.ClearBatch? ==> Slot(tx.action.clear.market, tx.action.clear.window) != k
    ensures k in c.batches && c.batches[k] == b.batches[k]
  {
  }

  /** Some successful clear of the run collides with the settlement x of its window. */
  ghost predicate CollisionInRun(sha: Hash, s: State, x: Clear, txs: seq<Tx>) {
    exists i :: 0 <= i < |txs| && Collides(sha, x, txs[i]) && Execute(sha, Run(sha, s, txs[..i]), txs[i]).Ok?
  }

  /**
   A settlement is final: while proofs are required, what a gated clear stored never changes, unless one of the
   successful clears of that very run is a SHA-256 collision with it.
   */
  lemma {:induction false} SettlementIsFinal(sha: Hash, s: State, x: Clear, later: seq<Tx>)
    requires SettledBy(sha, s.board, x) && GatedThroughout(sha, s, later)
    ensures SettledBy(sha, Run(sha, s, later).board, x) || CollisionInRun(sha, s, x, later)
    decreases |later|
  {
    if later != [] {
      var t, rest := Apply(sha, s, later[0]), later[1..];
      if Execute(sha, s, later[0]).Ok? { SettledStep(sha, s, later[0], t, x); }
      if SettledBy(sha, t.board, x) {
        SettlementIsFinal(sha, t, x, rest);
        if CollisionInRun(sha, t, x, rest) { CollisionLater(sha, s, x, later); }
      } else {
        assert later[..0] == [];
      }
    }
  }

  lemma CollisionLater(sha: Hash, s: State, x: Clear, txs: seq<Tx>)
    requires txs != [] && CollisionInRun(sha, Apply(sha, s, txs[0]), x, txs[1..])
    ensures CollisionInRun(sha, s, x, txs)
  {
    var t, rest := Apply(sha, s, txs[0]), txs[1..];
    var j :| 0 <= j < |rest| && Collides(sha, x, rest[j]) && Execute(sha, Run(sha, t, rest[..j]), rest[j]).Ok?;
    RunShift(sha, s, txs, j);
    assert Collides(sha, x, txs[j + 1]);
  }

  lemma RunShift(sha: Hash, s: State, txs: seq<Tx>, j: nat)
    requires j + 1 < |txs|
    ensures txs[j + 1] == txs[1..][j] && Run(sha, s, txs[..j + 1]) == Run(sha, Apply(sha, s, txs[0]), txs[1..][..j])
  {
    assert txs[..j + 1][0] == txs[0] && txs[..j + 1][1..] == txs[1..][..j];
  }

  /** A gated clear settles its window. */
  lemma GatedClearSettles(sha: Hash, s: State, tx: Tx, t: State)
    requires tx.action.ClearBatch? && s.board.config.requireProof && Execute(sha, s, tx) == Ok(t)
    ensures SettledBy(sha, t.board, tx.action.clear)
  {
    GatedClearStep(sha, s, tx, t);
  }

  // ----- An accepted proof can be cleared -----

  /** The submitted hash is the canonical one for the submitted blob's circuit and the inputs x. */
  ghost predicate Canonical(sha: Hash, a: Submission, x: Clear) {
    && a.slot == Slot(x.market, x.window) && a.fillsHash == x.fills && x.price != 0
    && Parse(a.proof).Ok?
    && ExpectedHash(sha, Parse(a.proof).value.circuit, x) == Ok(a.publicInputsHash)
  }

  lemma SubmittedProofPasses(
    sha: Hash, setup: Verifier.Setup, b: Board, actor: Address, now: i64, id: Id, a: Submission, d: Board, c: Board,
    x: Clear)
    requires SubmitProof(sha, setup, b, actor, now, id, a) == Ok(d) && Canonical(sha, a, x)
    requires RecordsExtend(d.proofs, c.proofs) && c.config == b.config
    ensures CheckProof(sha, setup, c, c.config.proverAuthority, x).Pass? && ValidConfig(c.config)
  {
    SubmitWrites(sha, setup, b, actor, now, id, a, d);
    assert a.slot in d.proofs.records && a.slot in d.proofs.blobs;
    assert c.proofs.records[a.slot] == d.proofs.records[a.slot] && c.proofs.blobs[a.slot] == a.proof;
  }

  /**
   Completeness: after an accepted canonical proof, in every later state with the same configuration and
   verifier and the market still active, the authority's clear with those inputs succeeds.
   */
  lemma AcceptedProofClears(sha: Hash, s: State, submit: Tx, s1: State, later: seq<Tx>, t: State, clear: Tx)
    requires submit.action.SubmitBatchProof? && Execute(sha, s, submit) == Ok(s1) && t == Run(sha, s1, later)
    requires clear.action.ClearBatch? && Canonical(sha, submit.action.submission, clear.action.clear)
    requires t.board.config == s.board.config && clear.setup == submit.setup
    requires clear.actor == s.board.config.proverAuthority
    requires var x := clear.action.clear;
             x.market in t.board.markets && t.board.markets[x.market].status == ACTIVE
    ensures var x := clear.action.clear;
            Execute(sha, t, clear)
            == Ok(t.(board := t.board.(batches :=
                   t.board.batches[Slot(x.market, x.window) := BatchResult(x.price, x.volume, x.fills)])))
  {
    var x, a := clear.action.clear, submit.action.submission;
    ExecuteSubmit(sha, s, submit);
    RunExtendsRecords(sha, s1, later);
    SubmittedProofPasses(sha, submit.setup, s.board, submit.actor, submit.now, submit.id, a, s1.board, t.board, x);
    assert |a.fillsHash| == HASH_SIZE;
    ClearSucceeds(sha, clear.setup, t.board, clear.actor, x);
    ExecuteClear(sha, t, clear);
  }

  /**
   Under the same conditions a clear of the submitted window succeeds exactly when the accepted hash is the canonical
   one for its inputs. The record is write-once, so an accepted hash that is not canonical for any inputs blocks the
   window.
   */
  lemma AcceptedProofClearsIff(sha: Hash, s: State, submit: Tx, s1: State, later: seq<Tx>, t: State, clear: Tx)
    requires submit.action.SubmitBatchProof? && Execute(sha, s, submit) == Ok(s1) && t == Run(sha, s1, later)
    requires clear.action.ClearBatch? && clear.setup == submit.setup && t.board.config == s.board.config
    requires clear.actor == s.board.config.proverAuthority
    requires var x, slot := clear.action.clear, submit.action.submission.slot;
             && slot == Slot(x.market, x.window)
             && x.market in t.board.markets && t.board.markets[x.market].status == ACTIVE
    ensures Execute(sha, t, clear).Ok? <==> Canonical(sha, submit.action.submission, clear.action.clear)
  {
    if Canonical(sha, submit.action.submission, clear.action.clear) {
      AcceptedProofClears(sha, s, submit, s1, later, t, clear);
    } else if Execute(sha, t, clear).Ok? {
      SubmitRequiresProof(sha, s, submit, s1);
      GatedClearIsCanonical(sha, s, submit, s1, later, clear);
    }
  }

  lemma SubmitRequiresProof(sha: Hash, s: State, tx: Tx, t: State)
    requires tx.action.SubmitBatchProof? && Execute(sha, s, tx) == Ok(t)
    ensures s.board.config.requireProof
    ensures Submitted(sha, s.board, tx.actor, tx.now, tx.id, tx.action.submission, t.board)
  {
    ExecuteSubmit(sha, s, tx);
    SubmitWrites(sha, tx.setup, s.board, tx.actor, tx.now, tx.id, tx.action.submission, t.board);
  }

  /** Whatever runs in between and whoever clears, a gated clear of a submitted window uses its canonical inputs. */
  lemma GatedClearIsCanonical(sha: Hash, s: State, submit: Tx, s1: State, later: seq<Tx>, clear: Tx)
    requires submit.action.SubmitBatchProof? && Execute(sha, s, submit) == Ok(s1)
    requires clear.action.ClearBatch? && Run(sha, s1, later).board.config.requireProof
    requires submit.action.submission.slot == Slot(clear.action.clear.market, clear.action.clear.window)
    requires Execute(sha, Run(sha, s1, later), clear).Ok?
    ensures Canonical(sha, submit.action.submission, clear.action.clear)
  {
    var t, a := Run(sha, s1, later), submit.action.submission;
    SubmitRequiresProof(sha, s, submit, s1);
    assert a.slot in s1.board.proofs.records && a.slot in s1.board.proofs.blobs;
    RunExtendsRecords(sha, s1, later);
    GatedClearStep(sha, t, clear, Execute(sha, t, clear).value);
    PricePositive(sha, t, clear);
  }

  lemma PricePositive(sha: Hash, s: State, tx: Tx)
    requires tx.action.ClearBatch? && Execute(sha, s, tx).Ok?
    ensures tx.action.clear.price != 0
  {
    ExecuteClear(sha, s, tx);
  }

  /** A proof for a circuit that clearing does not support is canonical for no inputs. */
  lemma UnsupportedCircuitBlocks(sha: Hash, a: Submission, x: Clear)
    requires Parse(a.proof).Ok? && !SupportedCircuit(NormalizeCircuit(Parse(a.proof).value.circuit))
    ensures !Canonical(sha, a, x)
  {
    ClearingAndVerifierAgree(Parse(a.proof).value.circuit, x);
  }

  /** A window whose accepted proof names such a circuit is never proved again, nor cleared under required proofs. */
  lemma BlockedWindow(sha: Hash, s: State, submit: Tx, s1: State, later: seq<Tx>, tx: Tx)
    requires submit.action.SubmitBatchProof? && Execute(sha, s, submit) == Ok(s1)
    requires var circuit := Parse(submit.action.submission.proof);
             circuit.Ok? && !SupportedCircuit(NormalizeCircuit(circuit.value.circuit))
    requires || (tx.action.SubmitBatchProof? && tx.action.submission.slot == submit.action.submission.slot)
             || (&& tx.action.ClearBatch? && Run(sha, s1, later).board.config.requireProof
                 && Slot(tx.action.clear.market, tx.action.clear.window) == submit.action.submission.slot)
    ensures Execute(sha, Run(sha, s1, later), tx).Err?
  {
    var t, a := Run(sha, s1, later), submit.action.submission;
    if Execute(sha, t, tx).Ok? {
      if tx.action.ClearBatch? {
        GatedClearIsCanonical(sha, s, submit, s1, later, tx);
        UnsupportedCircuitBlocks(sha, a, tx.action.clear);
      } else {
        SubmitRequiresProof(sha, s, submit, s1);
        assert a.slot in s1.board.proofs.records;
        RunExtendsRecords(sha, s1, later);
        SubmitRequiresProof(sha, t, tx, Execute(sha, t, tx).value);
      }
      assert false;
    }
  }

  lemma ClearSucceeds(sha: Hash, setup: Verifier.Setup, b: Board, actor: Address, x: Clear)
    requires x.price != 0 && |x.fills| == HASH_SIZE && NeedActive(b, x.market).Pass? && ValidConfig(b.config)
    requires CheckProof(sha, setup, b, actor, x).Pass?
    ensures Clearing.ClearBatch(sha, setup, b, actor, x)
            == Ok(b.(batches := b.batches[Slot(x.market, x.window) := BatchResult(x.price, x.volume, x.fills)]))
  {
  }

  lemma ExecuteSubmit(sha: Hash, s: State, tx: Tx)
    requires tx.action.SubmitBatchProof?
    ensures Execute(sha, s, tx)
            == WithBoard(s, SubmitProof(sha, tx.setup, s.board, tx.actor, tx.now, tx.id, tx.action.submission))
  {
  }

  lemma ExecuteClear(sha: Hash, s: State, tx: Tx)
    requires tx.action.ClearBatch?
    ensures Execute(sha, s, tx) == WithBoard(s, Clearing.ClearBatch(sha, tx.setup, s.board, tx.actor, tx.action.clear))
  {
  }

  // ----- The submission deadline -----

  /** A proof arrives after its window closes and no later than its deadline, which must fit an int64. */
  predicate OnTime(c: ProofConfig, close: i64, now: i64) {
    close <= now <= close + c.proofDeadlineMs < TWO_63
  }

  /** The 64-bit deadline test, exactly: a deadline that overflows rejects every proof of its window. */
  lemma OnTimeIff(c: ProofConfig, close: i64, now: i64)
    requires 0 < close && 0 < c.proofDeadlineMs
    ensures close <= now <= ProofDeadline(c, close) <==> OnTime(c, close, now)
  {
  }

  /** Everything a caller can check before submitting a proof. */
  ghost predicate Submittable(setup: Verifier.Setup, b: Board, actor: Address, now: i64, a: Submission) {
    && WellSized(a) && a.slot.market in b.markets && b.markets[a.slot.market].status == ACTIVE
    && ValidConfig(b.config) && b.config.requireProof && actor == b.config.proverAuthority
    && a.proofType == b.config.requiredProofType && a.windowCloseAtMs > 0
    && a.windowCloseAtMs % b.config.batchWindowMs == 0 && OnTime(b.config, a.windowCloseAtMs, now)
    && a.slot !in b.proofs.records
    && Verifier.Accepts(setup, a.proofType, a.proof, a.publicInputsHash)
  }

  /** The checks of a submission pass exactly then. */
  lemma SubmittableIff(setup: Verifier.Setup, b: Board, actor: Address, now: i64, a: Submission)
    ensures CheckSubmission(setup, b, actor, now, a).Pass? <==> Submittable(setup, b, actor, now, a)
  {
    if ValidConfig(b.config) {
      if a.windowCloseAtMs > 0 { OnTimeIff(b.config, a.windowCloseAtMs, now); }
      Verifier.AcceptsIff(setup, b.config.requiredProofType, a.proof, a.publicInputsHash);
    }
  }

  /** With the longest deadline a valid configuration can name, no proof is ever on time. */
  lemma LongestDeadlineRejects(setup: Verifier.Setup, b: Board, actor: Address, now: i64, a: Submission)
    requires b.config.proofDeadlineMs == TWO_63 - 1
    ensures CheckSubmission(setup, b, actor, now, a).Fail?
  {
    SubmittableIff(setup, b, actor, now, a);
  }

  // ----- The record invariant -----

  ghost function RecordsOf(p: Proofs, who: Address): set<Slot> {
    set k | k in p.records && p.records[k].prover == who
  }

  /** The 64-bit counter is the number of records naming the prover. */
  ghost predicate CountedExactly(p: Proofs, who: Address) {
    Sworn(p, who).accepted == |RecordsOf(p, who)| % TWO_64
  }

  /** One record with its blob and its glyph. */
  ghost predicate EntryOk(sha: Hash, r: Record, blob: Bytes, g: Glyph) {
    && r.commitment == sha(blob) == g.commitment && Parse(blob).Ok? && 0 < |blob| <= MAX_PROOF_BYTES
    && |r.publicInputsHash| == HASH_SIZE && |r.fillsHash| == HASH_SIZE
    && 0 < r.windowCloseAtMs <= r.submittedAtMs
    && g.class_ > 0 && g.rarity > 0 && g.createdAtMs > 0
  }

  /** Record, blob and glyph come together, commitments are genuine, and provers are counted exactly. */
  ghost predicate ProofsOk(sha: Hash, p: Proofs) {
    && p.records.Keys == p.blobs.Keys == p.glyphs.Keys
    && (forall k :: k in p.records ==> EntryOk(sha, p.records[k], p.blobs[k], p.glyphs[k]))
    && (forall who: Address :: CountedExactly(p, who))
  }

  ghost predicate BoardOk(sha: Hash, b: Board) { ProofsOk(sha, b.proofs) && ValidConfig(b.config) }

  /** One more record: one more for its prover, none for anybody else. */
  lemma RecordsGrow(sha: Hash, p: Proofs, actor: Address, now: i64, id: Id, a: Submission, who: Address)
    requires a.slot !in p.records
    ensures |RecordsOf(Recorded(sha, p, actor, now, id, a), who)| == |RecordsOf(p, who)| + if who == actor then 1 else 0
  {
    var q := Recorded(sha, p, actor, now, id, a);
    if who == actor {
      assert RecordsOf(q, who) == RecordsOf(p, who) + {a.slot};
    } else {
      assert RecordsOf(q, who) == RecordsOf(p, who);
    }
  }

  lemma CountAfter(sha: Hash, p: Proofs, actor: Address, now: i64, id: Id, a: Submission, who: Address)
    requires a.slot !in p.records && CountedExactly(p, who)
    ensures CountedExactly(Recorded(sha, p, actor, now, id, a), who)
  {
    RecordsGrow(sha, p, actor, now, id, a, who);
    NextCount(|RecordsOf(p, who)|);
  }

  lemma RecordedKeeps(sha: Hash, p: Proofs, actor: Address, now: i64, id: Id, a: Submission)
    requires ProofsOk(sha, p) && a.slot !in p.records && Parse(a.proof).Ok? && WellSized(a)
    requires 0 < a.windowCloseAtMs <= now
    ensures ProofsOk(sha, Recorded(sha, p, actor, now, id, a))
  {
    var q := Recorded(sha, p, actor, now, id, a);
    assert EntryOk(sha, q.records[a.slot], q.blobs[a.slot], q.glyphs[a.slot]);
    forall who: Address
      ensures CountedExactly(Recorded(sha, p, actor, now, id, a), who)
    {
      CountAfter(sha, p, actor, now, id, a, who);
    }
  }

  lemma NextCount(n: nat)
    ensures (n % TWO_64 + 1) % TWO_64 == (n + 1) % TWO_64
  {
  }

  lemma StepKeepsBoard(sha: Hash, b: Board, tx: Tx, c: Board)
    requires BoardOk(sha, b) && BoardMoves(sha, b, tx, c)
    ensures BoardOk(sha, c)
  {
    ConfigFrame(sha, b, tx, c);
    if tx.action.SubmitBatchProof? {
      RecordedKeeps(sha, b.proofs, tx.actor, tx.now, tx.id, tx.action.submission);
    } else {
      ProofsFrame(sha, b, tx, c);
    }
  }

  lemma {:induction false} RunKeepsBoard(sha: Hash, s: State, txs: seq<Tx>)
    requires BoardOk(sha, s.board)
    ensures BoardOk(sha, Run(sha, s, txs).board)
    decreases |txs|
  {
    if txs != [] {
      var s1 := Apply(sha, s, txs[0]);
      if Execute(sha, s, txs[0]).Ok? {
        BoardFrame(sha, s, txs[0], s1);
        StepKeepsBoard(sha, s.board, txs[0], s1.board);
      }
      RunKeepsBoard(sha, s1, txs[1..]);
    }
  }

  /**
   The proof gate of a clear, in the caller's terms: on a sound board it opens exactly for the authority, when the
   window's record commits to the inputs, is of the required type, was on time, and its blob still verifies.
   */
  lemma ProofGateIff(sha: Hash, setup: Verifier.Setup, b: Board, actor: Address, x: Clear)
    requires BoardOk(sha, b)
    ensures CheckProof(sha, setup, b, actor, x).Pass?
            <==> && actor == b.config.proverAuthority && CommitsTo(sha, b.proofs, x)
                 && var k := Slot(x.market, x.window);
                    var r := b.proofs.records[k];
                    && r.proofType == b.config.requiredProofType && OnTime(b.config, r.windowCloseAtMs, r.submittedAtMs)
                    && Verifier.Accepts(setup, r.proofType, b.proofs.blobs[k], r.publicInputsHash)
  {
    var k := Slot(x.market, x.window);
    if k in b.proofs.records {
      var r := b.proofs.records[k];
      OnTimeIff(b.config, r.windowCloseAtMs, r.submittedAtMs);
      if r.proofType == b.config.requiredProofType {
        Verifier.AcceptsIff(setup, r.proofType, b.proofs.blobs[k], r.publicInputsHash);
      }
    }
  }

  /** Errors that would mean the stored blob is missing, unreadable or not the one committed to. */
  predicate BadBlob(e: Error) {
    e == ProofCommitmentMismatch || e == VellumProofNotFound || e == InvalidProofEnvelope
  }

  lemma CheckNeverFindsBadBlob(sha: Hash, setup: Verifier.Setup, b: Board, actor: Address, x: Clear)
    requires var k := Slot(x.market, x.window);
             k in b.proofs.records ==>
               && k in b.proofs.blobs && Parse(b.proofs.blobs[k]).Ok?
               && b.proofs.records[k].commitment == sha(b.proofs.blobs[k])
    ensures CheckProof(sha, setup, b, actor, x).Fail? ==> !BadBlob(CheckProof(sha, setup, b, actor, x).error)
  {
  }

  /** A clear on such a board never finds a bad blob. */
  lemma ClearNeverFindsBadBlob(sha: Hash, s: State, tx: Tx)
    requires BoardOk(sha, s.board) && tx.action.ClearBatch?
    ensures Execute(sha, s, tx).Err? ==> !BadBlob(Execute(sha, s, tx).error)
  {
    ExecuteClear(sha, s, tx);
    CheckNeverFindsBadBlob(sha, tx.setup, s.board, tx.actor, tx.action.clear);
  }
}
