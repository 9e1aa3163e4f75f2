/** Which error every action returns, and when, in terms a caller can check before the call. */
module Verdicts {
  import opened Words
  import opened Balances
  import opened Economy
  import opened Preimage
  import opened Chain
  import opened LedgerProofs
  import opened Effects
  import opened EconomyProofs
  import opened Limits
  import opened BoardProofs
  import opened Progress
  import opened StateReads
  import Amm
  import Clearing
  import Envelope
  import Verifier

  type Verdict = Option<Error>

  /** The result of an action whose verdict is v. */
  ghost predicate Says<T>(r: Result<T>, v: Verdict) {
    match v
    case None => r.Ok?
    case Some(e) => r.Err? && r.error == e
  }

  // ----- Accounts and pool -----

  ghost function TransferVerdict(b: Amm.Bank, who: Address, value: int, memo: int): Verdict {
    if value == 0 then Some(InvalidValue)
    else if memo > 256 then Some(MemoTooLarge)
    else if Funds(b, who, Amm.VEIL) < value then Some(InvalidBalance)
    else None
  }

  function PairVerdict(x: u8, y: u8): Verdict {
    if x > 1 || y > 1 then Some(UnsupportedAsset) else if x == y then Some(InvalidAssetPair) else None
  }

  function CreatePoolVerdict(s: State, who: Address, x: u8, y: u8, fee: u16): Verdict {
    if PairVerdict(x, y).Some? then PairVerdict(x, y)
    else if fee < 1 || fee > 1_000 then Some(InvalidPoolFee)
    else if who != s.econ.treasuryCfg.governance then Some(Unauthorized)
    else if s.bank.pool.Some? then Some(PoolExists)
    else None
  }

  ghost function AddVerdict(b: Amm.Bank, who: Address, a: Action): Verdict
    requires BankOk(b) && a.AddLiquidity?
  {
    if PairVerdict(a.asset0, a.asset1).Some? then PairVerdict(a.asset0, a.asset1)
    else if a.amount0 == 0 || a.amount1 == 0 then Some(InvalidLiquidityAmount)
    else if b.pool.None? then Some(PoolNotFound)
    else if Funds(b, who, a.asset0) < a.amount0 || Funds(b, who, a.asset1) < a.amount1 then Some(InvalidBalance)
    else
      var p, x, y := b.pool.value, VeilPart(a), VaiPart(a);
      if p.totalLp == 0 && x * y == MAX_U64 then Some(DivisionByZero)
      else if !MintFits(p, x, y) then Some(Overflow)
      else if Minted(p, x, y) == 0 || Minted(p, x, y) < a.minLp then Some(SlippageExceeded)
      else None
  }

  ghost function RemoveVerdict(b: Amm.Bank, who: Address, a: Action): Verdict
    requires BankOk(b) && a.RemoveLiquidity?
  {
    if PairVerdict(a.asset0, a.asset1).Some? then PairVerdict(a.asset0, a.asset1)
    else if a.lp == 0 then Some(InvalidLiquidityAmount)
    else if b.pool.None? then Some(PoolNotFound)
    else if b.pool.value.totalLp == 0 then Some(InsufficientLiquidity)
    else if Balance(b.lp, who) < a.lp then Some(InsufficientLPBalance)
    else
      var total := b.pool.value.totalLp;
      var o0, o1 := Part(a.lp, PoolHolds(b, a.asset0), total), Part(a.lp, PoolHolds(b, a.asset1), total);
      if o0 == 0 || o1 == 0 then Some(InsufficientLiquidity)
      else if o0 < a.min0 || o1 < a.min1 then Some(SlippageExceeded)
      else None
  }

  ghost function SwapVerdict(b: Amm.Bank, who: Address, a: Action): Verdict
    requires BankOk(b) && a.SwapExactIn?
  {
    if PairVerdict(a.assetIn, a.assetOut).Some? then PairVerdict(a.assetIn, a.assetOut)
    else if a.amountIn == 0 then Some(InvalidSwapAmount)
    else if b.pool.None? then Some(PoolNotFound)
    else if b.pool.value.totalLp == 0 then Some(InsufficientLiquidity)
    else if Funds(b, who, a.assetIn) < a.amountIn then Some(InvalidBalance)
    else if Paid(b.pool.value.feeBips, a.amountIn) == 0 then Some(InvalidSwapAmount)
    else if Output(b, a.assetIn, a.assetOut, a.amountIn) == 0 || Output(b, a.assetIn, a.assetOut, a.amountIn) < a.minOut
    then Some(SlippageExceeded)
    else None
  }

  lemma TransferSays(sha: Hash, s: State, tx: Tx)
    requires LedgerOk(s) && tx.action.Transfer?
    ensures Says(Execute(sha, s, tx), TransferVerdict(s.bank, tx.actor, tx.action.value, |tx.action.memo|))
  {
    TransferIff(sha, s, tx);
    if tx.action.value > 0 { DebitIff(s.bank, tx.actor, Amm.VEIL, tx.action.value); }
  }

  lemma CreatePoolSays(sha: Hash, s: State, tx: Tx)
    requires tx.action.CreatePool?
    ensures var a := tx.action;
            Says(Execute(sha, s, tx), CreatePoolVerdict(s, tx.actor, a.asset0, a.asset1, a.feeBips))
  {
  }

  lemma AddSays(sha: Hash, s: State, tx: Tx)
    requires LedgerOk(s) && tx.action.AddLiquidity?
    ensures Says(Execute(sha, s, tx), AddVerdict(s.bank, tx.actor, tx.action))
  {
    var a, b := tx.action, s.bank;
    if CoveredDeposit(b, tx.actor, a) {
      CoveredDepositIff(s, tx.actor, a);
    } else {
      UncoveredSays(b, tx.actor, a);
    }
  }

  lemma UncoveredSays(b: Amm.Bank, actor: Address, a: Action)
    requires BankOk(b) && a.AddLiquidity? && !CoveredDeposit(b, actor, a)
    ensures Says(Amm.AddLiquidity(b, actor, a.asset0, a.asset1, a.amount0, a.amount1, a.minLp), AddVerdict(b, actor, a))
  {
    if Amm.ValidatePair(a.asset0, a.asset1).Pass? && 0 < a.amount0 && 0 < a.amount1 && b.pool.Some? {
      UnpaidSays(b, actor, a);
    }
  }

  lemma UnpaidSays(b: Amm.Bank, actor: Address, a: Action)
    requires BankOk(b) && a.AddLiquidity? && Amm.ValidatePair(a.asset0, a.asset1).Pass? && b.pool.Some?
    requires 0 < a.amount0 && 0 < a.amount1
    requires Funds(b, actor, a.asset0) < a.amount0 || Funds(b, actor, a.asset1) < a.amount1
    ensures Amm.AddLiquidity(b, actor, a.asset0, a.asset1, a.amount0, a.amount1, a.minLp) == Err(InvalidBalance)
  {
    DebitIff(b, actor, a.asset0, a.amount0);
    if a.amount0 <= Funds(b, actor, a.asset0) {
      DebitIff(Amm.DebitAsset(b, actor, a.asset0, a.amount0).value, actor, a.asset1, a.amount1);
    }
  }

  lemma RemoveSays(sha: Hash, s: State, tx: Tx)
    requires LedgerOk(s) && tx.action.RemoveLiquidity?
    ensures Says(Execute(sha, s, tx), RemoveVerdict(s.bank, tx.actor, tx.action))
  {
    RemoveRefusal(s, tx.actor, tx.action);
  }

  lemma RemoveRefusal(s: State, actor: Address, a: Action)
    requires LedgerOk(s) && a.RemoveLiquidity?
    ensures Says(Amm.RemoveLiquidity(s.bank, actor, a.asset0, a.asset1, a.lp, a.min0, a.min1),
                 RemoveVerdict(s.bank, actor, a))
  {
    var b := s.bank;
    BalanceWithinTotal(b.lp, actor);
    if b.pool.Some? {
      RemoveSplits(b, actor, a.asset0, a.asset1, a.lp, a.min0, a.min1);
      if 0 < a.lp <= Balance(b.lp, actor) {
        WithdrawalExact(b.pool.value, a.lp);
        if Amm.WithdrawalFor(b.pool.value, a.lp).Ok? { WithdrawnOk(s, actor, a.lp); }
      }
    }
  }

  /** Past its checks a withdrawal cannot fail. */
  lemma WithdrawnOk(s: State, actor: Address, lp: u64)
    requires LedgerOk(s) && s.bank.pool.Some? && 0 < lp <= Balance(s.bank.lp, actor)
    requires Amm.WithdrawalFor(s.bank.pool.value, lp).Ok?
    ensures Withdrawn(s.bank, s.bank.pool.value, actor, lp).Ok?
  {
    PayoutsFit(s, actor, lp);
  }

  lemma SwapSays(sha: Hash, s: State, tx: Tx)
    requires LedgerOk(s) && tx.action.SwapExactIn?
    ensures Says(Execute(sha, s, tx), SwapVerdict(s.bank, tx.actor, tx.action))
  {
    var a, b := tx.action, s.bank;
    SwapIff(sha, s, tx);
    if Amm.ValidatePair(a.assetIn, a.assetOut).Pass? && b.pool.Some? && b.pool.value.totalLp > 0 && a.amountIn > 0 {
      DebitIff(b, tx.actor, a.assetIn, a.amountIn);
      if a.amountIn <= Funds(b, tx.actor, a.assetIn) { SwapPastDebit(s, tx.actor, a); }
    }
  }

  lemma SwapPastDebit(s: State, actor: Address, a: Action)
    requires LedgerOk(s) && a.SwapExactIn? && s.bank.pool.Some? && s.bank.pool.value.totalLp > 0
    requires Amm.ValidatePair(a.assetIn, a.assetOut).Pass? && 0 < a.amountIn <= Funds(s.bank, actor, a.assetIn)
    ensures Says(Amm.SwapExactIn(s.bank, actor, a.assetIn, a.assetOut, a.amountIn, a.minOut),
                 SwapVerdict(s.bank, actor, a))
  {
    var b, p := s.bank, s.bank.pool.value;
    var rin: u64, rout: u64 := PoolHolds(b, a.assetIn), PoolHolds(b, a.assetOut);
    BalanceWithinTotal(if a.assetIn == Amm.VEIL then b.veil else b.vai, actor);
    HeldFits(s, a.assetIn);
    PaidExact(p.feeBips, a.amountIn);
    QuoteExact(rin, rout, p.feeBips, a.amountIn, a.minOut);
    DebitIff(b, actor, a.assetIn, a.amountIn);
    SwapNeverStuck(s, actor, a.assetIn, a.amountIn, a.minOut);
  }

  // ----- Fees, treasury and stablecoin -----

  ghost function SpendVerdict(b: Amm.Bank, who: Address, asset: u8, amount: int, nothing: Error): Verdict {
    if amount == 0 then Some(nothing) else if Funds(b, who, asset) < amount then Some(InvalidBalance) else None
  }

  ghost function ReleaseVerdict(c: TreasuryConfig, t: Treasury, who: Address, now: i64, amount: int): Verdict {
    var product := t.locked * c.maxReleaseBips % TWO_64;
    if amount == 0 then Some(InvalidReleaseAmount)
    else if who != c.governance then Some(Unauthorized)
    else if t.lastReleaseMs > 0 && !Waited(t.lastReleaseMs, c.releaseEpochSeconds, now) then Some(ReleaseTooEarly)
    else if t.locked < amount then Some(InsufficientLockedCOL)
    else if product < amount * 10_000 then Some(ReleaseCapExceeded)
    else None
  }

  ghost function MintVerdict(e: Econ, who: Address, now: i64, amount: int): Verdict {
    var counted := CountedAlready(e.vaiCfg, e.vai, now);
    if amount == 0 then Some(InvalidVAIAmount)
    else if who != e.vaiCfg.mintAuthority then Some(Unauthorized)
    else if MAX_U64 < counted + amount then Some(Overflow)
    else if e.vaiCfg.epochMintLimit < counted + amount then Some(EpochMintLimitExceeded)
    else if MAX_U64 < e.vai.totalDebt + amount then Some(Overflow)
    else if e.vaiCfg.debtCeiling < e.vai.totalDebt + amount then Some(DebtCeilingExceeded)
    else if e.reserve.exogenous * 10_000 < (e.vai.totalDebt + amount) * e.risk.backingFloorBips
    then Some(BackingRatioViolation)
    else None
  }

  lemma RouteFeesSays(sha: Hash, s: State, tx: Tx)
    requires LedgerOk(s) && tx.action.RouteFees?
    ensures Says(Execute(sha, s, tx), SpendVerdict(s.bank, tx.actor, Amm.VEIL, tx.action.amount, InvalidFeeAmount))
  {
    RouteFeesIff(sha, s, tx);
    if tx.action.amount > 0 { DebitIff(s.bank, tx.actor, Amm.VEIL, tx.action.amount); }
  }

  lemma BurnSays(sha: Hash, s: State, tx: Tx)
    requires LedgerOk(s) && tx.action.BurnVai?
    ensures Says(Execute(sha, s, tx), SpendVerdict(s.bank, tx.actor, Amm.VAI, tx.action.amount, InvalidVAIAmount))
  {
    BurnIff(sha, s, tx);
    if tx.action.amount > 0 { DebitIff(s.bank, tx.actor, Amm.VAI, tx.action.amount); }
  }

  lemma ReleaseSays(sha: Hash, s: State, tx: Tx)
    requires LedgerOk(s) && tx.action.ReleaseTranche? && s.econ.treasury.lastReleaseMs <= tx.now
    requires s.econ.treasury.locked + s.econ.treasury.released <= MAX_U64
    ensures Says(Execute(sha, s, tx),
                 ReleaseVerdict(s.econ.treasuryCfg, s.econ.treasury, tx.actor, tx.now, tx.action.amount))
  {
    var c, t := s.econ.treasuryCfg, s.econ.treasury;
    ReleaseIff(sha, s, tx);
    CapIff(t.locked * c.maxReleaseBips % TWO_64, tx.action.amount);
    if t.lastReleaseMs > 0 { DeadlineExact(t.lastReleaseMs, c.releaseEpochSeconds); }
  }

  lemma MintSays(sha: Hash, s: State, tx: Tx)
    requires LedgerOk(s) && tx.action.MintVai? && 0 < tx.now && 0 <= s.econ.vai.epochStart <= tx.now
    ensures Says(Execute(sha, s, tx), MintVerdict(s.econ, tx.actor, tx.now, tx.action.amount))
  {
    MintIff(sha, s, tx);
    MintRefusal(s.econ, tx.actor, tx.now, tx.action.amount);
    CreditHeld(s.bank, tx.action.to, Amm.VAI, tx.action.amount);
  }

  lemma MintRefusal(e: Econ, who: Address, now: i64, amount: u64)
    requires ValidRisk(e.risk) && 0 < now && 0 <= e.vai.epochStart <= now
    ensures Says(Mint(e.vaiCfg, e.vai, e.risk, e.reserve, who, now, amount), MintVerdict(e, who, now, amount))
  {
    EpochOverIff(e.vaiCfg, if e.vai.epochStart == 0 then now else e.vai.epochStart, now);
    if e.vai.totalDebt + amount <= MAX_U64 {
      var debt: u64 := e.vai.totalDebt + amount;
      assert Backed(debt, e.risk, e.reserve) <==> debt * e.risk.backingFloorBips <= e.reserve.exogenous * BIPS;
    }
  }

  // ----- Markets -----

  function ActiveVerdict(s: State, market: Id): Verdict {
    if market !in s.board.markets then Some(MarketNotFound)
    else if s.board.markets[market].status != 0 then Some(MarketNotActive)
    else None
  }

  function SizeVerdict(n: int, most: int): Verdict {
    if n == 0 then Some(Empty) else if n > most then Some(TooLarge) else None
  }

  ghost function MarketVerdict(s: State, tx: Tx): Verdict
    requires tx.action.CreateMarket? || tx.action.ResolveMarket? || tx.action.Dispute?
  {
    var a := tx.action;
    if a.CreateMarket? then
      if a.outcomes < 2 then Some(InvalidOutcomes)
      else if a.resolutionTime <= 0 then Some(InvalidResolutionTime)
      else if a.creatorBond == 0 then Some(BondZero)
      else if |a.question| > 1_024 then Some(TooLarge)
      else if a.market in s.board.markets then Some(MarketExists)
      else if Funds(s.bank, tx.actor, Amm.VEIL) < a.creatorBond then Some(InvalidBalance)
      else None
    else if a.ResolveMarket? then
      if SizeVerdict(|a.signature|, 256).Some? then SizeVerdict(|a.signature|, 256)
      else if ActiveVerdict(s, a.market).Some? then ActiveVerdict(s, a.market)
      else if a.outcome >= s.board.markets[a.market].outcomes then Some(InvalidOutcome)
      else None
    else
      if a.bond == 0 then Some(BondZero)
      else if SizeVerdict(|a.evidence|, 4_096).Some? then SizeVerdict(|a.evidence|, 4_096)
      else if a.market !in s.board.markets then Some(MarketNotFound)
      else if s.board.markets[a.market].status != 1 then Some(MarketNotResolved)
      else if Funds(s.bank, tx.actor, Amm.VEIL) < a.bond then Some(InvalidBalance)
      else None
  }

  lemma MarketSays(sha: Hash, s: State, tx: Tx)
    requires tx.action.CreateMarket? || tx.action.ResolveMarket? || tx.action.Dispute?
    ensures Says(Execute(sha, s, tx), MarketVerdict(s, tx))
  {
    var a := tx.action;
    if a.CreateMarket? {
      CreateMarketSays(sha, s, tx);
    } else if a.Dispute? {
      DisputeSays(sha, s, tx);
    }
  }

  lemma CreateMarketSays(sha: Hash, s: State, tx: Tx)
    requires tx.action.CreateMarket?
    ensures Says(Execute(sha, s, tx), MarketVerdict(s, tx))
  {
    if tx.action.creatorBond > 0 { DebitIff(s.bank, tx.actor, Amm.VEIL, tx.action.creatorBond); }
  }

  lemma DisputeSays(sha: Hash, s: State, tx: Tx)
    requires tx.action.Dispute?
    ensures Says(Execute(sha, s, tx), MarketVerdict(s, tx))
  {
    if tx.action.bond > 0 { DebitIff(s.bank, tx.actor, Amm.VEIL, tx.action.bond); }
  }

  function OrderVerdict(s: State, tx: Tx): Verdict
    requires tx.action.CommitOrder? || tx.action.RevealBatch?
  {
    var a := tx.action;
    if a.CommitOrder? then
      if SizeVerdict(|a.envelope|, 4_096).Some? then SizeVerdict(|a.envelope|, 4_096)
      else if SizeVerdict(|a.commitment|, 64).Some? then SizeVerdict(|a.commitment|, 64)
      else ActiveVerdict(s, a.slot.market)
    else
      if SizeVerdict(|a.share|, 512).Some? then SizeVerdict(|a.share|, 512) else ActiveVerdict(s, a.slot.market)
  }

  lemma OrderSays(sha: Hash, s: State, tx: Tx)
    requires tx.action.CommitOrder? || tx.action.RevealBatch?
    ensures Says(Execute(sha, s, tx), OrderVerdict(s, tx))
  {
  }

  // ----- Proofs -----

  /** What the installed verifier says of a blob of the required type. */
  ghost function VerifierVerdict(setup: Verifier.Setup, required: u8, blob: Bytes, hash: Bytes): Verdict {
    var parsed := Envelope.Parse(blob);
    if parsed.Err? then Some(InvalidProofEnvelope)
    else if parsed.value.hasEnvelope && parsed.value.proofType != required then Some(ProofTypeMismatch)
    else
      match setup.verifier
      case None => if setup.strict then Some(ProofVerifierUnavailable) else None
      case Some(k) =>
        var e, circuit, system := parsed.value, NormalizeCircuit(parsed.value.circuit), Verifier.SystemFor(k, required);
        if !SupportedCircuit(circuit) || (k.requiredCircuit != [] && k.requiredCircuit != circuit)
        then Some(ProofVerificationFailed)
        else if system.None? then Some(ProofVerifierUnavailable)
        else if system.value(circuit, e.proof, hash, e.pubWitness) then None
        else Some(ProofVerificationFailed)
  }

  lemma VerifierSays(setup: Verifier.Setup, required: u8, blob: Bytes, hash: Bytes)
    requires required == 1 || required == 2
    ensures var r := Verifier.VerifyBatchProof(setup, required, blob, hash);
            match VerifierVerdict(setup, required, blob, hash)
            case None => r.Pass?
            case Some(e) => r.Fail? && r.error == e
  {
  }

  ghost function SubmitVerdict(s: State, tx: Tx): Verdict
    requires tx.action.SubmitBatchProof? && Clearing.ValidConfig(s.board.config)
  {
    var a, c := tx.action.submission, s.board.config;
    if a.windowCloseAtMs <= 0 || a.proofType == 0 || !WellSized(a) then Some(InvalidProofEnvelope)
    else if ActiveVerdict(s, a.slot.market).Some? then ActiveVerdict(s, a.slot.market)
    else if !c.requireProof then Some(InvalidProofConfig)
    else if tx.actor != c.proverAuthority then Some(Unauthorized)
    else if a.proofType != c.requiredProofType then Some(ProofTypeMismatch)
    else if a.windowCloseAtMs % c.batchWindowMs != 0 then Some(InvalidProofEnvelope)
    else if !OnTime(c, a.windowCloseAtMs, tx.now) then Some(ProofDeadlineMissed)
    else if a.slot in s.board.proofs.records then Some(ProofAlreadySubmitted)
    else VerifierVerdict(tx.setup, a.proofType, a.proof, a.publicInputsHash)
  }

  lemma SubmitSays(sha: Hash, s: State, tx: Tx)
    requires tx.action.SubmitBatchProof? && Clearing.ValidConfig(s.board.config)
    ensures Says(Execute(sha, s, tx), SubmitVerdict(s, tx))
  {
    ExecuteSubmit(sha, s, tx);
    SubmitRefusal(s, tx);
  }

  lemma SubmitRefusal(s: State, tx: Tx)
    requires tx.action.SubmitBatchProof? && Clearing.ValidConfig(s.board.config)
    ensures var r := Clearing.CheckSubmission(tx.setup, s.board, tx.actor, tx.now, tx.action.submission);
            match SubmitVerdict(s, tx)
            case None => r.Pass?
            case Some(e) => r.Fail? && r.error == e
  {
    var a, c := tx.action.submission, s.board.config;
    if a.windowCloseAtMs > 0 { OnTimeIff(c, a.windowCloseAtMs, tx.now); }
    VerifierSays(tx.setup, c.requiredProofType, a.proof, a.publicInputsHash);
  }

  /** What the proof gate says of a clear. */
  ghost function GateVerdict(sha: Hash, s: State, tx: Tx): Verdict
    requires tx.action.ClearBatch? && BoardOk(sha, s.board)
  {
    var x, c, p := tx.action.clear, s.board.config, s.board.proofs;
    var k := Clearing.Slot(x.market, x.window);
    if tx.actor != c.proverAuthority then Some(Unauthorized)
    else if k !in p.records then Some(ProofNotFound)
    else
      var r, circuit := p.records[k], NormalizeCircuit(Envelope.Parse(p.blobs[k]).value.circuit);
      if r.proofType != c.requiredProofType then Some(ProofTypeMismatch)
      else if !OnTime(c, r.windowCloseAtMs, r.submittedAtMs) then Some(ProofDeadlineMissed)
      else if r.fillsHash != x.fills then Some(ProofFillsMismatch)
      else if !SupportedCircuit(circuit) then Some(UnsupportedProofCircuit)
      else if r.publicInputsHash != sha(if circuit == CLEARHASH_V1 then ClearPreimage(x) else ShieldedPreimage(x))
      then Some(ProofPublicInputsMismatch)
      else VerifierVerdict(tx.setup, r.proofType, p.blobs[k], r.publicInputsHash)
  }

  lemma GateSays(sha: Hash, s: State, tx: Tx)
    requires tx.action.ClearBatch? && BoardOk(sha, s.board)
    ensures var r := Clearing.CheckProof(sha, tx.setup, s.board, tx.actor, tx.action.clear);
            match GateVerdict(sha, s, tx)
            case None => r.Pass?
            case Some(e) => r.Fail? && r.error == e
  {
    var x, c, p := tx.action.clear, s.board.config, s.board.proofs;
    var k := Clearing.Slot(x.market, x.window);
    if k in p.records {
      var r := p.records[k];
      OnTimeIff(c, r.windowCloseAtMs, r.submittedAtMs);
      ClearingAndVerifierAgree(Envelope.Parse(p.blobs[k]).value.circuit, x);
      if r.proofType == c.requiredProofType { VerifierSays(tx.setup, r.proofType, p.blobs[k], r.publicInputsHash); }
    }
  }

  ghost function ClearVerdict(sha: Hash, s: State, tx: Tx): Verdict
    requires tx.action.ClearBatch? && BoardOk(sha, s.board)
  {
    var x := tx.action.clear;
    if x.price == 0 then Some(ClearPriceZero)
    else if SizeVerdict(|x.fills|, 64).Some? then SizeVerdict(|x.fills|, 64)
    else if |x.fills| != 32 then Some(WrongSize)
    else if ActiveVerdict(s, x.market).Some? then ActiveVerdict(s, x.market)
    else if s.board.config.requireProof then GateVerdict(sha, s, tx)
    else None
  }

  lemma ClearSays(sha: Hash, s: State, tx: Tx)
    requires tx.action.ClearBatch? && BoardOk(sha, s.board)
    ensures Says(Execute(sha, s, tx), ClearVerdict(sha, s, tx))
  {
    ExecuteClear(sha, s, tx);
    ClearRefusal(sha, s, tx);
  }

  lemma ClearRefusal(sha: Hash, s: State, tx: Tx)
    requires tx.action.ClearBatch? && BoardOk(sha, s.board)
    ensures Says(Clearing.ClearBatch(sha, tx.setup, s.board, tx.actor, tx.action.clear), ClearVerdict(sha, s, tx))
  {
    GateSays(sha, s, tx);
  }
}
