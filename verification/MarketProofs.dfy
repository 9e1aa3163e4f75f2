/** The life of markets and of the oracle slots that shares and disputes are stored in. */
module MarketProofs {
  import opened Words
  import opened Wire
  import opened Balances
  import opened Preimage
  import opened Clearing
  import opened Chain
  import opened BoardProofs

  /** How a market may change: status forwards only, the terms never, the outcome not once resolved. */
  ghost predicate MarketEvolves(m: Market, n: Market) {
    && m.status <= n.status <= DISPUTED
    && n.outcomes == m.outcomes && n.resolutionTime == m.resolutionTime && n.question == m.question
    && (m.status != ACTIVE ==> n.resolvedOutcome == m.resolvedOutcome)
  }

  ghost predicate MarketOk(m: Market) {
    m.status <= DISPUTED && m.resolvedOutcome < m.outcomes && 2 <= m.outcomes
  }

  /** Markets are never lost, evolve lawfully, and a stored dispute is never overwritten. */
  ghost predicate MarketsEvolve(b: Board, c: Board) {
    && (forall id :: id in b.markets ==> id in c.markets && MarketEvolves(b.markets[id], c.markets[id]))
    && (forall id ::
          id in b.markets && b.markets[id].status == DISPUTED && OracleSlot(id, DISPUTE_INDEX) in b.oracle ==>
          && OracleSlot(id, DISPUTE_INDEX) in c.oracle
          && c.oracle[OracleSlot(id, DISPUTE_INDEX)] == b.oracle[OracleSlot(id, DISPUTE_INDEX)])
  }

  ghost predicate MarketsOk(b: Board) {
    forall id :: id in b.markets ==>
      && MarketOk(b.markets[id])
      && (b.markets[id].status == DISPUTED ==> OracleSlot(id, DISPUTE_INDEX) in b.oracle)
  }

  predicate TouchesMarkets(a: Action) {
    a.CreateMarket? || a.ResolveMarket? || a.Dispute? || a.RevealBatch?
  }

  lemma MarketsFrame(sha: Hash, b: Board, tx: Tx, c: Board)
    requires BoardMoves(sha, b, tx, c) && !TouchesMarkets(tx.action)
    ensures (c.markets, c.oracle) == (b.markets, b.oracle)
  {
  }

  /** One step keeps markets lawful, and moves a status by at most one. */
  ghost predicate MarketStep(b: Board, c: Board) {
    && MarketsOk(c) && MarketsEvolve(b, c)
    && forall id :: id in b.markets ==> id in c.markets && c.markets[id].status <= b.markets[id].status + 1
  }

  lemma CreateEvolves(b: Board, id: Id, outcomes: u8, time: i64, bond: u64, question: Bytes, c: Board)
    requires MarketsOk(b) && Clearing.CreateMarket(b, id, outcomes, time, bond, question) == Ok(c)
    ensures MarketStep(b, c)
  {
  }

  lemma ResolveEvolves(b: Board, id: Id, outcome: u8, signature: Bytes, c: Board)
    requires MarketsOk(b) && Clearing.ResolveMarket(b, id, outcome, signature) == Ok(c)
    ensures MarketStep(b, c)
  {
  }

  lemma DisputeEvolves(b: Board, id: Id, bond: u64, evidence: Bytes, c: Board)
    requires MarketsOk(b) && Clearing.Dispute(b, id, bond, evidence) == Ok(c)
    ensures MarketStep(b, c)
  {
  }

  /** A share can be written at the dispute index, but only while the market is active. */
  lemma RevealEvolves(b: Board, slot: Slot, index: u32, share: Bytes, c: Board)
    requires MarketsOk(b) && Clearing.RevealBatch(b, slot, index, share) == Ok(c)
    ensures MarketStep(b, c)
  {
  }

  lemma StepEvolvesMarkets(sha: Hash, b: Board, tx: Tx, c: Board)
    requires MarketsOk(b) && BoardMoves(sha, b, tx, c)
    ensures MarketStep(b, c)
  {
    match tx.action
    case CreateMarket(id, n, time, bond, question) => CreateEvolves(b, id, n, time, bond, question, c);
    case ResolveMarket(id, outcome, sig) => ResolveEvolves(b, id, outcome, sig, c);
    case Dispute(id, bond, evidence) => DisputeEvolves(b, id, bond, evidence, c);
    case RevealBatch(slot, index, share) => RevealEvolves(b, slot, index, share, c);
    case _ => MarketsFrame(sha, b, tx, c);
  }

  lemma {:induction false} RunEvolvesMarkets(sha: Hash, s: State, txs: seq<Tx>)
    requires MarketsOk(s.board)
    ensures MarketsOk(Run(sha, s, txs).board) && MarketsEvolve(s.board, Run(sha, s, txs).board)
    decreases |txs|
  {
    if txs != [] {
      var s1 := Apply(sha, s, txs[0]);
      if Execute(sha, s, txs[0]).Ok? {
        BoardFrame(sha, s, txs[0], s1);
        StepEvolvesMarkets(sha, s.board, txs[0], s1.board);
      }
      RunEvolvesMarkets(sha, s1, txs[1..]);
    }
  }

  /** Once filed, a dispute's bond and evidence stay readable at the dispute index for ever. */
  lemma DisputeIsPermanent(sha: Hash, s: State, tx: Tx, s1: State, later: seq<Tx>)
    requires MarketsOk(s.board) && tx.action.Dispute? && Execute(sha, s, tx) == Ok(s1)
    ensures var a, c := tx.action, Run(sha, s1, later).board;
            && a.market in c.markets && c.markets[a.market].status == DISPUTED
            && OracleSlot(a.market, DISPUTE_INDEX) in c.oracle
            && c.oracle[OracleSlot(a.market, DISPUTE_INDEX)] == DisputeEntry(a.bond, a.evidence)
  {
    var a := tx.action;
    BoardFrame(sha, s, tx, s1);
    DisputeEvolves(s.board, a.market, a.bond, a.evidence, s1.board);
    assert s1.board.markets[a.market].status == DISPUTED;
    RunEvolvesMarkets(sha, s1, later);
  }

  // ----- Oracle slots -----

  /** The oracle bytes that a step writes at slot k, if it writes there. */
  function OracleWrite(a: Action, k: OracleSlot): Option<Bytes> {
    match a
    case RevealBatch(slot, index, share) =>
      if k == OracleSlot(slot.market, index) then Some(U64(slot.window) + share) else None
    case Dispute(id, bond, evidence) =>
      if k == OracleSlot(id, DISPUTE_INDEX) then Some(DisputeEntry(bond, evidence)) else None
    case _ => None
  }

  /** An oracle entry survives a step exactly when the step does not write other bytes at its slot. */
  lemma OracleEntrySurvivesIff(sha: Hash, s: State, tx: Tx, t: State, k: OracleSlot)
    requires Execute(sha, s, tx) == Ok(t) && k in s.board.oracle
    ensures k in t.board.oracle
    ensures t.board.oracle[k] == s.board.oracle[k]
            <==> && !(&& tx.action.RevealBatch? && k == OracleSlot(tx.action.slot.market, tx.action.validatorIndex)
                      && U64(tx.action.slot.window) + tx.action.share != s.board.oracle[k])
                 && !(&& tx.action.Dispute? && k == OracleSlot(tx.action.market, 0xFFFF_FFFF)
                      && DisputeEntry(tx.action.bond, tx.action.evidence) != s.board.oracle[k])
  {
    BoardFrame(sha, s, tx, t);
    OracleFrame(sha, s.board, tx, t.board, k);
  }

  lemma OracleFrame(sha: Hash, b: Board, tx: Tx, c: Board, k: OracleSlot)
    requires BoardMoves(sha, b, tx, c)
    ensures (k in c.oracle <==> k in b.oracle || OracleWrite(tx.action, k).Some?)
    ensures k in c.oracle ==>
              c.oracle[k] == if OracleWrite(tx.action, k).Some? then OracleWrite(tx.action, k).value else b.oracle[k]
  {
  }

  /**
   A share revealed at the dispute index is lost to any later dispute of the market, whatever runs in between and
   after it, unless the dispute happens to consist of the same bytes.
   */
  lemma DisputeReplacesShare(sha: Hash, s: State, first: Tx, s1: State, between: seq<Tx>, second: Tx, s3: State,
                             later: seq<Tx>)
    requires MarketsOk(s.board) && first.action.RevealBatch? && first.action.validatorIndex == DISPUTE_INDEX
    requires Execute(sha, s, first) == Ok(s1) && second.action.Dispute?
    requires second.action.market == first.action.slot.market
    requires Execute(sha, Run(sha, s1, between), second) == Ok(s3)
    ensures var k, share := OracleSlot(second.action.market, DISPUTE_INDEX), first.action.share;
            var window, bond, evidence := first.action.slot.window, second.action.bond, second.action.evidence;
            && k in s1.board.oracle && s1.board.oracle[k] == U64(window) + share
            && k in Run(sha, s3, later).board.oracle
            && (Run(sha, s3, later).board.oracle[k] == s1.board.oracle[k] <==> window == bond && share == evidence)
  {
    var k, share := OracleSlot(second.action.market, DISPUTE_INDEX), first.action.share;
    var window, bond, evidence := first.action.slot.window, second.action.bond, second.action.evidence;
    BoardFrame(sha, s, first, s1);
    OracleFrame(sha, s.board, first, s1.board, k);
    StepEvolvesMarkets(sha, s.board, first, s1.board);
    RunEvolvesMarkets(sha, s1, between);
    DisputeIsPermanent(sha, Run(sha, s1, between), second, s3, later);
    if U64(window) + share == U64(bond) + evidence {
      SplitConcat(U64(window), share, U64(bond), evidence);
      U64Injective(window, bond);
    }
  }

  /** Such a loss happens in every active market: three transactions that all succeed. */
  lemma ShareIsLost(sha: Hash, s: State, a: Tx, b: Tx, c: Tx) returns (s1: State, s2: State, s3: State)
    requires a.action.RevealBatch? && a.action.validatorIndex == DISPUTE_INDEX && 0 < |a.action.share| <= MAX_SHARE
    requires b.action.ResolveMarket? && 0 < |b.action.signature| <= MAX_SIGNATURE
    requires c.action.Dispute? && 0 < |c.action.evidence| <= MAX_EVIDENCE
    requires b.action.market == c.action.market == a.action.slot.market && b.action.market in s.board.markets
    requires s.board.markets[b.action.market].status == ACTIVE
    requires b.action.outcome < s.board.markets[b.action.market].outcomes
    requires 0 < c.action.bond <= Balance(s.bank.veil, c.actor)
    ensures Execute(sha, s, a) == Ok(s1) && Execute(sha, s1, b) == Ok(s2) && Execute(sha, s2, c) == Ok(s3)
    ensures var k := OracleSlot(c.action.market, DISPUTE_INDEX);
            && k in s1.board.oracle && s1.board.oracle[k] == U64(a.action.slot.window) + a.action.share
            && k in s3.board.oracle && s3.board.oracle[k] == DisputeEntry(c.action.bond, c.action.evidence)
  {
    s1 := Apply(sha, s, a);
    assert Execute(sha, s, a) == Ok(s1) && s1.bank == s.bank;
    s2 := Apply(sha, s1, b);
    assert Execute(sha, s1, b) == Ok(s2) && s2.bank == s.bank;
    s3 := Apply(sha, s2, c);
  }
}
