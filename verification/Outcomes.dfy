/** What every action leaves behind, field by field, and exactly when the actions on settings and markets succeed. */
module Outcomes {
  import opened Words
  import opened Wire
  import opened Balances
  import opened Economy
  import opened Preimage
  import opened Chain
  import opened LedgerProofs
  import opened Effects
  import opened Limits
  import opened BoardProofs
  import opened Progress
  import Amm
  import Clearing

  // ----- The pool -----

  predicate PoolAction(a: Action) { a.AddLiquidity? || a.RemoveLiquidity? || a.SwapExactIn? }

  /** Both pools trade the same pair for the same fee. */
  predicate SameTerms(p: Amm.Pool, q: Amm.Pool) {
    p.asset0 == q.asset0 && p.asset1 == q.asset1 && p.feeBips == q.feeBips
  }

  /** What one account gives is what the pool gets, and the LP supply grows by what the account is minted. */
  ghost predicate PoolMoved(b: Amm.Bank, tx: Tx, q: Amm.Pool)
    requires BankOk(b) && b.pool.Some?
  {
    var p := b.pool.value;
    && SameTerms(p, q)
    && q.reserve0 == p.reserve0 - Delta(b, tx, tx.actor, Amm.VEIL)
    && q.reserve1 == p.reserve1 - Delta(b, tx, tx.actor, Amm.VAI)
    && q.totalLp == p.totalLp + LpDelta(b, tx, tx.actor)
  }

  lemma AddMovesPool(b: Amm.Bank, tx: Tx, c: Amm.Bank)
    requires BankOk(b) && tx.action.AddLiquidity?
    requires var a := tx.action;
             Amm.AddLiquidity(b, tx.actor, a.asset0, a.asset1, a.amount0, a.amount1, a.minLp) == Ok(c)
    ensures b.pool.Some? && c.pool.Some? && PoolMoved(b, tx, c.pool.value)
  {
    var a, p := tx.action, b.pool.value;
    var (x, y) := Amm.PairToPool(p, a.asset0, a.asset1, a.amount0, a.amount1).value;
    LpForExact(p, x, y);
    assert Amm.Deposit(p, x, y, Minted(p, x, y)) == Ok(c.pool.value);
  }

  lemma RemoveMovesPool(b: Amm.Bank, tx: Tx, c: Amm.Bank)
    requires BankOk(b) && tx.action.RemoveLiquidity?
    requires var a := tx.action;
             Amm.RemoveLiquidity(b, tx.actor, a.asset0, a.asset1, a.lp, a.min0, a.min1) == Ok(c)
    ensures b.pool.Some? && c.pool.Some? && PoolMoved(b, tx, c.pool.value)
  {
    var a, p := tx.action, b.pool.value;
    BalanceWithinTotal(b.lp, tx.actor);
    WithdrawalExact(p, a.lp);
    var (o0, o1) := Amm.WithdrawalFor(p, a.lp).value;
    assert Amm.Withdraw(p, a.lp, o0, o1) == Ok(c.pool.value);
  }

  /** A swap stores the traded pool. */
  lemma SwapStores(b: Amm.Bank, actor: Address, i: u8, o: u8, amountIn: u64, minOut: u64, c: Amm.Bank)
    requires Amm.SwapExactIn(b, actor, i, o, amountIn, minOut) == Ok(c)
    ensures b.pool.Some? && c.pool.Some? && Amm.SwapDirection(b.pool.value, i, o).Ok?
    ensures var p, forward := b.pool.value, Amm.SwapDirection(b.pool.value, i, o).value;
            var rin, rout := if forward then p.reserve0 else p.reserve1, if forward then p.reserve1 else p.reserve0;
            var out := Amm.SwapOutput(rin, rout, p.feeBips, amountIn, minOut);
            rin > 0 && out.Ok? && Amm.Trade(p, forward, amountIn, out.value) == Ok(c.pool.value)
  {
  }

  lemma SwapMovesPool(b: Amm.Bank, tx: Tx, c: Amm.Bank)
    requires BankOk(b) && tx.action.SwapExactIn?
    requires var a := tx.action; Amm.SwapExactIn(b, tx.actor, a.assetIn, a.assetOut, a.amountIn, a.minOut) == Ok(c)
    ensures b.pool.Some? && c.pool.Some? && PoolMoved(b, tx, c.pool.value)
  {
    var a, p := tx.action, b.pool.value;
    SwapStores(b, tx.actor, a.assetIn, a.assetOut, a.amountIn, a.minOut, c);
    var forward := Amm.SwapDirection(p, a.assetIn, a.assetOut).value;
    var rin, rout := if forward then p.reserve0 else p.reserve1, if forward then p.reserve1 else p.reserve0;
    QuoteExact(rin, rout, p.feeBips, a.amountIn, a.minOut);
    var out := Amm.SwapOutput(rin, rout, p.feeBips, a.amountIn, a.minOut).value;
    assert out == Output(b, a.assetIn, a.assetOut, a.amountIn);
  }

  /** Every successful step on an existing pool: its terms stay, and its holdings move by what the actor's do. */
  lemma PoolMoves(sha: Hash, s: State, tx: Tx, t: State)
    requires LedgerOk(s) && Execute(sha, s, tx) == Ok(t) && s.bank.pool.Some?
    ensures t.bank.pool.Some?
    ensures if PoolAction(tx.action) then PoolMoved(s.bank, tx, t.bank.pool.value) else t.bank.pool == s.bank.pool
  {
    if tx.action.AddLiquidity? {
      AddMovesPool(s.bank, tx, t.bank);
    } else if tx.action.RemoveLiquidity? {
      RemoveMovesPool(s.bank, tx, t.bank);
    } else if tx.action.SwapExactIn? {
      SwapMovesPool(s.bank, tx, t.bank);
    } else {
      PoolStays(sha, s, tx, t);
    }
  }

  lemma PoolStays(sha: Hash, s: State, tx: Tx, t: State)
    requires Execute(sha, s, tx) == Ok(t) && s.bank.pool.Some? && !PoolAction(tx.action)
    ensures t.bank.pool == s.bank.pool
  {
  }

  /** Over every run a pool keeps its pair and its fee. */
  lemma {:induction false} PoolTermsFixed(sha: Hash, s: State, txs: seq<Tx>)
    requires LedgerOk(s) && s.bank.pool.Some?
    ensures Run(sha, s, txs).bank.pool.Some? && SameTerms(s.bank.pool.value, Run(sha, s, txs).bank.pool.value)
    decreases |txs|
  {
    if txs != [] {
      if Execute(sha, s, txs[0]).Ok? {
        PoolMoves(sha, s, txs[0], Apply(sha, s, txs[0]));
        StepKeepsLedger(sha, s, txs[0]);
      }
      PoolTermsFixed(sha, Apply(sha, s, txs[0]), txs[1..]);
    }
  }

  /** A pool is created exactly by governance, once, for the one pair, with a fee of 1 to 1000 bips, and empty. */
  lemma CreatePoolIff(sha: Hash, s: State, tx: Tx)
    requires tx.action.CreatePool?
    ensures var a := tx.action;
            Execute(sha, s, tx).Ok?
            <==> && tx.actor == s.econ.treasuryCfg.governance && s.bank.pool.None?
                 && ((a.asset0 == 0 && a.asset1 == 1) || (a.asset0 == 1 && a.asset1 == 0))
                 && 1 <= a.feeBips <= 1_000
    ensures Execute(sha, s, tx).Ok? ==>
              Execute(sha, s, tx).value
              == s.(bank := s.bank.(pool := Some(Amm.Pool(0, 1, tx.action.feeBips, 0, 0, 0))))
  {
  }

  // ----- Frames -----

  /** Actions on accounts and pool touch nothing else; transfers and fees touch VEIL balances alone. */
  lemma BankOutcome(sha: Hash, s: State, tx: Tx, t: State)
    requires BankAction(tx.action) && Execute(sha, s, tx) == Ok(t)
    ensures t.econ == s.econ && t.board == s.board
    ensures tx.action.Transfer? || tx.action.DeductFee? ==> t.bank == s.bank.(veil := t.bank.veil)
    ensures tx.action.SwapExactIn? ==> t.bank.lp == s.bank.lp
  {
  }

  // ----- Fees, treasury and stablecoin -----

  /** A budget grows by the floored proportional part of the amount. */
  predicate ProportionalPart(grown: int, bips: int, amount: int) {
    grown * 10_000 <= bips * amount < grown * 10_000 + 10_000
  }

  /**
   Routing gives each of the first two budgets its own floored share, wherever its 64-bit product does not wrap, and
   operations the rest, and changes nothing but the budgets and the payer's VEIL.
   */
  lemma RouteFeesOutcome(sha: Hash, s: State, tx: Tx, t: State)
    requires LedgerOk(s) && tx.action.RouteFees? && Execute(sha, s, tx) == Ok(t)
    ensures var f, g, c, amount := s.econ.fees, t.econ.fees, s.econ.feeCfg, tx.action.amount;
            && (c.msrbBips * amount < TWO_64 ==> ProportionalPart(g.msrb - f.msrb, c.msrbBips, amount))
            && (c.colBips * amount < TWO_64 ==> ProportionalPart(g.col - f.col, c.colBips, amount))
            && g.ops - f.ops == amount - (g.msrb - f.msrb) - (g.col - f.col)
    ensures t.econ == s.econ.(fees := t.econ.fees) && t.board == s.board && t.bank == s.bank.(veil := t.bank.veil)
  {
    var c, amount := s.econ.feeCfg, tx.action.amount;
    ShareExactIff(c.msrbBips, amount);
    ShareExactIff(c.colBips, amount);
    SharesAddUp(c, amount);
    FeesStored(s, tx.actor, amount, t);
  }

  lemma FeesStored(s: State, actor: Address, amount: u64, t: State)
    requires FeesRouted(s, actor, amount) == Ok(t)
    ensures var f, g, c := s.econ.fees, t.econ.fees, s.econ.feeCfg;
            && g.msrb == f.msrb + Share(c.msrbBips, amount) && g.col == f.col + Share(c.colBips, amount)
            && g.ops == f.ops + OpsShare(c, amount)
    ensures t.econ == s.econ.(fees := t.econ.fees) && t.board == s.board && t.bank == s.bank.(veil := t.bank.veil)
  {
  }

  /** A release moves its amount from locked to live, adds it to released and stamps the time, and nothing else. */
  lemma ReleaseOutcome(sha: Hash, s: State, tx: Tx, t: State)
    requires tx.action.ReleaseTranche? && Execute(sha, s, tx) == Ok(t)
    ensures var u, amount := s.econ.treasury, tx.action.amount;
            && 0 < amount <= u.locked && u.live + amount <= MAX_U64 && u.released + amount <= MAX_U64
            && t == s.(econ := s.econ.(treasury :=
                      Treasury(u.locked - amount, u.live + amount, u.released + amount, tx.now)))
  {
  }

  /** A mint writes the debt, the epoch and its counter, and credits VAI, and nothing else. */
  lemma MintOutcome(sha: Hash, s: State, tx: Tx, t: State)
    requires LedgerOk(s) && tx.action.MintVai? && 0 < tx.now && 0 <= s.econ.vai.epochStart <= tx.now
    requires Execute(sha, s, tx) == Ok(t)
    ensures var e, amount := s.econ, tx.action.amount;
            && e.vai.totalDebt + amount <= MAX_U64 && CountedAlready(e.vaiCfg, e.vai, tx.now) + amount <= MAX_U64
            && t.econ == e.(vai := Vai(e.vai.totalDebt + amount, EpochOf(e.vaiCfg, e.vai, tx.now),
                                       CountedAlready(e.vaiCfg, e.vai, tx.now) + amount))
    ensures t.board == s.board && t.bank == s.bank.(vai := t.bank.vai)
  {
    var e := s.econ;
    MintExecutes(sha, s, tx);
    MintExact(e.vaiCfg, e.vai, e.risk, e.reserve, tx.actor, tx.now, tx.action.amount);
  }

  /** A burn lowers the debt and the burner's VAI, and nothing else. */
  lemma BurnOutcome(sha: Hash, s: State, tx: Tx, t: State)
    requires tx.action.BurnVai? && Execute(sha, s, tx) == Ok(t)
    ensures tx.action.amount <= s.econ.vai.totalDebt
    ensures t.econ == s.econ.(vai := s.econ.vai.(totalDebt := s.econ.vai.totalDebt - tx.action.amount))
    ensures t.board == s.board && t.bank == s.bank.(vai := t.bank.vai)
  {
  }

  /** The reserve is what governance last reported, and nobody else can report it. */
  lemma UpdateReserveIff(sha: Hash, s: State, tx: Tx)
    requires tx.action.UpdateReserve?
    ensures Execute(sha, s, tx)
            == if tx.actor == s.econ.treasuryCfg.governance then Ok(s.(econ := s.econ.(reserve := tx.action.reserve)))
               else Err(Unauthorized)
  {
  }

  /** Governance may set risk parameters exactly within their bounds; they are stored as given. */
  lemma SetRiskParamsIff(sha: Hash, s: State, tx: Tx)
    requires tx.action.SetRiskParams?
    ensures var r := tx.action.risk;
            Execute(sha, s, tx)
            == if tx.actor != s.econ.treasuryCfg.governance then Err(Unauthorized)
               else if r.backingFloorBips == 0 || r.veilLtv > 10_000 || r.wveilLtv > 10_000 || r.wsveilLtv != 0
                       || r.veilHaircut > 10_000 || r.wveilHaircut > 10_000 || r.wsveilHaircut > 10_000
               then Err(InvalidRiskConfig)
               else Ok(s.(econ := s.econ.(risk := r)))
  {
  }

  // ----- Markets -----

  /** The actor can pay a bond, which must be positive. */
  ghost predicate CanBond(s: State, actor: Address, bond: int) { 0 < bond <= Funds(s.bank, actor, Amm.VEIL) }

  /** All but the actor's VEIL and the named parts of the board stays. */
  ghost predicate BondTaken(s: State, actor: Address, bond: int, t: State) {
    && t.econ == s.econ && t.bank == s.bank.(veil := t.bank.veil)
    && (forall who: Address ::
          Balance(t.bank.veil, who) == Balance(s.bank.veil, who) - if who == actor then bond else 0)
  }

  lemma BondMoves(s: State, actor: Address, bond: u64, board: Clearing.Board, t: State)
    requires Bonded(s, actor, bond, Ok(board)) == Ok(t)
    ensures BondTaken(s, actor, bond, t) && t.board == board
  {
    forall who: Address
      ensures Balance(t.bank.veil, who) == Balance(s.bank.veil, who) - if who == actor then bond else 0
    {
      DebitFunds(s.bank, actor, Amm.VEIL, bond, who, Amm.VEIL);
    }
  }

  /**
   A market is created exactly when it is new, has at least two outcomes, a positive time, a covered bond and a short
   question; it starts active and unresolved with exactly the terms given.
   */
  lemma CreateMarketIff(sha: Hash, s: State, tx: Tx)
    requires tx.action.CreateMarket?
    ensures var a := tx.action;
            Execute(sha, s, tx).Ok?
            <==> && 2 <= a.outcomes && 0 < a.resolutionTime && |a.question| <= 1_024 && a.market !in s.board.markets
                 && CanBond(s, tx.actor, a.creatorBond)
    ensures Execute(sha, s, tx).Ok? ==>
              var a, t := tx.action, Execute(sha, s, tx).value;
              && BondTaken(s, tx.actor, a.creatorBond, t)
              && t.board == s.board.(markets := s.board.markets[
                   a.market := Clearing.Market(0, a.outcomes, a.resolutionTime, 0, a.question)])
  {
    var a := tx.action;
    if a.creatorBond > 0 { DebitIff(s.bank, tx.actor, Amm.VEIL, a.creatorBond); }
    var board := Clearing.CreateMarket(s.board, a.market, a.outcomes, a.resolutionTime, a.creatorBond, a.question);
    if Execute(sha, s, tx).Ok? { BondMoves(s, tx.actor, a.creatorBond, board.value, Execute(sha, s, tx).value); }
  }

  /** A market is resolved exactly while active, with an outcome in range and a signature of bounded length. */
  lemma ResolveMarketIff(sha: Hash, s: State, tx: Tx)
    requires tx.action.ResolveMarket?
    ensures var a := tx.action;
            Execute(sha, s, tx).Ok?
            <==> && 0 < |a.signature| <= 256 && a.market in s.board.markets
                 && s.board.markets[a.market].status == 0 && a.outcome < s.board.markets[a.market].outcomes
    ensures Execute(sha, s, tx).Ok? ==>
              var a, t := tx.action, Execute(sha, s, tx).value;
              var m := s.board.markets[a.market];
              t == s.(board := s.board.(markets := s.board.markets[
                     a.market := Clearing.Market(1, m.outcomes, m.resolutionTime, a.outcome, m.question)]))
  {
  }

  /** A dispute is filed exactly against a resolved market, with a covered bond and evidence of bounded length. */
  lemma DisputeIff(sha: Hash, s: State, tx: Tx)
    requires tx.action.Dispute?
    ensures var a := tx.action;
            Execute(sha, s, tx).Ok?
            <==> && 0 < |a.evidence| <= 4_096 && a.market in s.board.markets && s.board.markets[a.market].status == 1
                 && CanBond(s, tx.actor, a.bond)
    ensures Execute(sha, s, tx).Ok? ==>
              var a, t := tx.action, Execute(sha, s, tx).value;
              var m := s.board.markets[a.market];
              && BondTaken(s, tx.actor, a.bond, t)
              && t.board == s.board.(
                   markets := s.board.markets[
                     a.market := Clearing.Market(2, m.outcomes, m.resolutionTime, m.resolvedOutcome, m.question)],
                   oracle := s.board.oracle[
                     Clearing.OracleSlot(a.market, 0xFFFF_FFFF) := U64(a.bond) + a.evidence])
  {
    var a := tx.action;
    if a.bond > 0 { DebitIff(s.bank, tx.actor, Amm.VEIL, a.bond); }
    var board := Clearing.Dispute(s.board, a.market, a.bond, a.evidence);
    if Execute(sha, s, tx).Ok? { BondMoves(s, tx.actor, a.bond, board.value, Execute(sha, s, tx).value); }
  }

  /** An order is committed exactly with an envelope and a commitment of bounded length on an active market. */
  lemma CommitOrderIff(sha: Hash, s: State, tx: Tx)
    requires tx.action.CommitOrder?
    ensures var a := tx.action;
            Execute(sha, s, tx).Ok?
            <==> 0 < |a.envelope| <= 4_096 && 0 < |a.commitment| <= 64 && Trading(s, a.slot.market)
    ensures Execute(sha, s, tx).Ok? ==>
              var a := tx.action;
              Execute(sha, s, tx).value
              == s.(board := s.board.(orders := s.board.orders[
                   Clearing.OrderSlot(a.slot.market, a.slot.window, tx.actor) := a.commitment + a.envelope]))
  {
  }

  /** A share is stored exactly with a bounded length on an active market, under its index, behind its window. */
  lemma RevealBatchIff(sha: Hash, s: State, tx: Tx)
    requires tx.action.RevealBatch?
    ensures var a := tx.action;
            Execute(sha, s, tx).Ok? <==> 0 < |a.share| <= 512 && Trading(s, a.slot.market)
    ensures Execute(sha, s, tx).Ok? ==>
              var a := tx.action;
              Execute(sha, s, tx).value
              == s.(board := s.board.(oracle := s.board.oracle[
                   Clearing.OracleSlot(a.slot.market, a.validatorIndex) := U64(a.slot.window) + a.share]))
  {
  }

  // ----- Proofs -----

  /** Governance may set a proof configuration exactly within its bounds; it is stored as given. */
  lemma SetProofConfigIff(sha: Hash, s: State, tx: Tx)
    requires tx.action.SetProofConfig?
    ensures var c := tx.action.config;
            Execute(sha, s, tx)
            == if tx.actor != s.econ.treasuryCfg.governance then Err(Unauthorized)
               else if (c.requiredProofType != 1 && c.requiredProofType != 2) || c.batchWindowMs <= 0
                       || c.proofDeadlineMs <= 0 || (forall i :: 0 <= i < 33 ==> c.proverAuthority[i] == 0)
               then Err(InvalidProofConfig)
               else Ok(s.(board := s.board.(config := c)))
  {
  }

  /** A clear stores price, volume and fills hash under its window, and nothing else. */
  lemma ClearOutcome(sha: Hash, s: State, tx: Tx, t: State)
    requires tx.action.ClearBatch? && Execute(sha, s, tx) == Ok(t)
    ensures var x := tx.action.clear;
            t == s.(board := s.board.(batches := s.board.batches[
                   Clearing.Slot(x.market, x.window) := Clearing.BatchResult(x.price, x.volume, x.fills)]))
  {
    ExecuteClear(sha, s, tx);
    ClearWrites(sha, tx.setup, s.board, tx.actor, tx.action.clear, t.board);
  }

  /** Only the entry at k differs, and it is there afterwards. */
  ghost predicate WrittenAt<K, V>(m: map<K, V>, n: map<K, V>, k: K) {
    n.Keys == m.Keys + {k} && forall j :: j in m && j != k ==> n[j] == m[j]
  }

  /**
   A submission adds one record, one blob and one glyph under its window and one to its prover's counters, each field
   as submitted, and nothing else.
   */
  lemma SubmitOutcome(sha: Hash, s: State, tx: Tx, t: State)
    requires tx.action.SubmitBatchProof? && Execute(sha, s, tx) == Ok(t)
    ensures var p, q, k := s.board.proofs, t.board.proofs, tx.action.submission.slot;
            && t == s.(board := s.board.(proofs := q)) && k !in p.records
            && WrittenAt(p.records, q.records, k) && WrittenAt(p.blobs, q.blobs, k)
            && WrittenAt(p.glyphs, q.glyphs, k) && WrittenAt(p.sworn, q.sworn, tx.actor)
            && RecordOf(sha, tx, q.records[k]) && q.blobs[k] == tx.action.submission.proof
            && GlyphOf(sha, tx, q.glyphs[k])
            && OneMore(if tx.actor in p.sworn then p.sworn[tx.actor] else Clearing.Bloodsworn(0, 0, 0, 0),
                       q.sworn[tx.actor], tx.now)
  {
    SubmitRequiresProof(sha, s, tx, t);
    ExecuteSubmit(sha, s, tx);
    RecordedOutcome(sha, s.board.proofs, tx);
  }

  lemma RecordedOutcome(sha: Hash, p: Clearing.Proofs, tx: Tx)
    requires tx.action.SubmitBatchProof? && |tx.action.submission.publicInputsHash| == 32
    ensures var q := Clearing.Recorded(sha, p, tx.actor, tx.now, tx.id, tx.action.submission);
            var k := tx.action.submission.slot;
            && WrittenAt(p.records, q.records, k) && WrittenAt(p.blobs, q.blobs, k)
            && WrittenAt(p.glyphs, q.glyphs, k) && WrittenAt(p.sworn, q.sworn, tx.actor)
            && RecordOf(sha, tx, q.records[k]) && q.blobs[k] == tx.action.submission.proof
            && GlyphOf(sha, tx, q.glyphs[k])
            && OneMore(if tx.actor in p.sworn then p.sworn[tx.actor] else Clearing.Bloodsworn(0, 0, 0, 0),
                       q.sworn[tx.actor], tx.now)
  {
    var a := tx.action.submission;
    GlyphExact(sha, tx, Clearing.DeriveGlyph(sha, tx.id, a.slot, tx.actor, sha(a.proof), a.publicInputsHash, tx.now));
  }

  lemma GlyphExact(sha: Hash, tx: Tx, g: Clearing.Glyph)
    requires tx.action.SubmitBatchProof? && |tx.action.submission.publicInputsHash| == 32
    requires var a := tx.action.submission;
             g == Clearing.DeriveGlyph(sha, tx.id, a.slot, tx.actor, sha(a.proof), a.publicInputsHash, tx.now)
    ensures GlyphOf(sha, tx, g)
  {
    GlyphTagBytes();
    RarityExact(g.entropy);
  }

  lemma GlyphTagBytes()
    ensures Clearing.GLYPH_TAG == [86, 69, 73, 76, 95, 71, 76, 89, 80, 72, 95, 86, 49]
  {
  }

  lemma RarityExact(e: Digest)
    ensures RarityIs(Clearing.GlyphRarity(e), e)
  {
    FirstTwo(e);
  }

  lemma FirstTwo(e: Digest)
    ensures AsU16(e[..2]) == e[0] as int * 256 + e[1]
  {
    assert e[..2][..1] == [e[0]] && [e[0]][..0] == [];
    assert Number([e[0]]) == e[0];
  }

  ghost predicate RecordOf(sha: Hash, tx: Tx, r: Clearing.Record)
    requires tx.action.SubmitBatchProof?
  {
    var a := tx.action.submission;
    && r.proofType == a.proofType && r.submittedAtMs == tx.now && r.windowCloseAtMs == a.windowCloseAtMs
    && r.prover == tx.actor && r.commitment == sha(a.proof)
    && r.publicInputsHash == a.publicInputsHash && r.fillsHash == a.fillsHash
  }

  predicate OneMore(w: Clearing.Bloodsworn, v: Clearing.Bloodsworn, now: int) {
    && v.accepted == (if w.accepted == MAX_U64 then 0 else w.accepted + 1)
    && v.streak == (if w.streak == MAX_U64 then 0 else w.streak + 1)
    && v.lastProofAtMs == now && v.scars == w.scars
  }

  /** What a glyph's entropy commits to, in order. */
  function GlyphPreimage(id: Id, slot: Clearing.Slot, prover: Address, commitment: Digest, inputs: Bytes): Bytes {
    [86, 69, 73, 76, 95, 71, 76, 89, 80, 72, 95, 86, 49]
    + id + slot.market + U64(slot.window) + prover + commitment + inputs
  }

  /** The rarity of a glyph: its first two bytes as a number, scaled to ten thousand. */
  predicate RarityIs(rarity: int, e: Digest) {
    var n: int := e[0] as int * 256 + e[1];
    var roll: int := n * 10_000 / 65_536;
    && 1 <= rarity <= 5
    && (rarity == 5 <==> roll < 2) && (rarity >= 4 <==> roll < 20) && (rarity >= 3 <==> roll < 150)
    && (rarity >= 2 <==> roll < 800)
  }

  ghost predicate GlyphOf(sha: Hash, tx: Tx, g: Clearing.Glyph)
    requires tx.action.SubmitBatchProof?
  {
    var a := tx.action.submission;
    && g.createdAtMs == tx.now && g.prover == tx.actor && g.commitment == sha(a.proof)
    && g.publicInputsHash == a.publicInputsHash
    && g.entropy == sha(GlyphPreimage(tx.id, a.slot, tx.actor, sha(a.proof), a.publicInputsHash))
    && g.class_ == g.entropy[2] % 6 + 1 && RarityIs(g.rarity, g.entropy)
  }
}
