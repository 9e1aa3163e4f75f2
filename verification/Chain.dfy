/** The whole state machine: one store, nineteen actions and the fee deduction around them. */
module Chain {
  import opened Words
  import opened Economy
  import opened Preimage
  import Amm
  import Clearing
  import Verifier

  datatype Econ = Econ(
    treasuryCfg: TreasuryConfig, treasury: Treasury,
    feeCfg: FeeConfig, fees: Fees,
    vaiCfg: VaiConfig, vai: Vai,
    risk: Risk, reserve: Reserve)

  datatype State = State(bank: Amm.Bank, econ: Econ, board: Clearing.Board)

  datatype Action =
    | Transfer(to: Address, value: u64, memo: Bytes)
    | CreateMarket(market: Id, outcomes: u8, resolutionTime: i64, creatorBond: u64, question: Bytes)
    | CommitOrder(slot: Clearing.Slot, envelope: Bytes, commitment: Bytes)
    | RevealBatch(slot: Clearing.Slot, validatorIndex: u32, share: Bytes)
    | ClearBatch(clear: Clear)
    | ResolveMarket(market: Id, outcome: u8, signature: Bytes)
    | Dispute(market: Id, bond: u64, evidence: Bytes)
    | RouteFees(amount: u64)
    | ReleaseTranche(amount: u64)
    | MintVai(to: Address, amount: u64)
    | BurnVai(amount: u64)
    | CreatePool(asset0: u8, asset1: u8, feeBips: u16)
    | AddLiquidity(asset0: u8, asset1: u8, amount0: u64, amount1: u64, minLp: u64)
    | RemoveLiquidity(asset0: u8, asset1: u8, lp: u64, min0: u64, min1: u64)
    | SwapExactIn(assetIn: u8, assetOut: u8, amountIn: u64, minOut: u64)
    | UpdateReserve(reserve: Reserve)
    | SetRiskParams(risk: Risk)
    | SubmitBatchProof(submission: Clearing.Submission)
    | SetProofConfig(config: Clearing.ProofConfig)
    | DeductFee(amount: u64)

  /** An action with its actor, its transaction id, its block timestamp and the verifier installed when it runs. */
  datatype Tx = Tx(actor: Address, id: Id, now: i64, setup: Verifier.Setup, action: Action)

  function WithBank(s: State, r: Result<Amm.Bank>): Result<State> {
    var bank :- r;
    Ok(s.(bank := bank))
  }

  function WithBoard(s: State, r: Result<Clearing.Board>): Result<State> {
    var board :- r;
    Ok(s.(board := board))
  }

  predicate IsGovernance(s: State, who: Address) { who == s.econ.treasuryCfg.governance }

  predicate BankAction(a: Action) {
    a.Transfer? || a.CreatePool? || a.AddLiquidity? || a.RemoveLiquidity? || a.SwapExactIn? || a.DeductFee?
  }

  predicate EconAction(a: Action) {
    a.RouteFees? || a.ReleaseTranche? || a.MintVai? || a.BurnVai? || a.UpdateReserve? || a.SetRiskParams?
  }

  predicate BoardAction(a: Action) { !BankAction(a) && !EconAction(a) }

  /** Actions on accounts and pool. */
  function BankStep(b: Amm.Bank, governance: bool, actor: Address, a: Action): Result<Amm.Bank>
    requires BankAction(a)
  {
    match a
    case Transfer(to, value, memo) => Amm.Transfer(b, actor, to, value, |memo|)
    case CreatePool(a0, a1, fee) => Amm.CreatePool(b, governance, a0, a1, fee)
    case AddLiquidity(a0, a1, x, y, minLp) => Amm.AddLiquidity(b, actor, a0, a1, x, y, minLp)
    case RemoveLiquidity(a0, a1, lp, min0, min1) => Amm.RemoveLiquidity(b, actor, a0, a1, lp, min0, min1)
    case SwapExactIn(assetIn, assetOut, amountIn, minOut) =>
      Amm.SwapExactIn(b, actor, assetIn, assetOut, amountIn, minOut)
    case DeductFee(amount) => Amm.DebitAsset(b, actor, Amm.VEIL, amount)
  }

  function FeesRouted(s: State, actor: Address, amount: u64): Result<State> {
    if amount == 0 then Err(InvalidFeeAmount)
    else if !ValidFeeConfig(s.econ.feeCfg) then Err(InvalidFeeRouterConfig)
    else
      var bank :- Amm.DebitAsset(s.bank, actor, Amm.VEIL, amount);
      var fees :- Economy.RouteFees(s.econ.feeCfg, s.econ.fees, amount);
      Ok(s.(bank := bank, econ := s.econ.(fees := fees)))
  }

  function TrancheReleased(s: State, actor: Address, now: i64, amount: u64): Result<State> {
    var t :- Economy.ReleaseTranche(s.econ.treasuryCfg, s.econ.treasury, actor, now, amount);
    Ok(s.(econ := s.econ.(treasury := t)))
  }

  function VaiMinted(s: State, actor: Address, now: i64, to: Address, amount: u64): Result<State> {
    var v :- Mint(s.econ.vaiCfg, s.econ.vai, s.econ.risk, s.econ.reserve, actor, now, amount);
    var bank :- Amm.CreditAsset(s.bank, to, Amm.VAI, amount);
    Ok(s.(bank := bank, econ := s.econ.(vai := v)))
  }

  function VaiBurned(s: State, actor: Address, amount: u64): Result<State> {
    if amount == 0 then Err(InvalidVAIAmount)
    else
      var bank :- Amm.DebitAsset(s.bank, actor, Amm.VAI, amount);
      var v :- Burn(s.econ.vai, amount);
      Ok(s.(bank := bank, econ := s.econ.(vai := v)))
  }

  /** Actions on treasury, fee router, stablecoin and risk parameters. */
  function EconStep(s: State, actor: Address, now: i64, a: Action): Result<State>
    requires EconAction(a)
  {
    var e := s.econ;
    match a
    case RouteFees(amount) => FeesRouted(s, actor, amount)
    case ReleaseTranche(amount) => TrancheReleased(s, actor, now, amount)
    case MintVai(to, amount) => VaiMinted(s, actor, now, to, amount)
    case BurnVai(amount) => VaiBurned(s, actor, amount)
    case UpdateReserve(reserve) =>
      if !IsGovernance(s, actor) then Err(Unauthorized) else Ok(s.(econ := e.(reserve := reserve)))
    case SetRiskParams(risk) =>
      if !IsGovernance(s, actor) then Err(Unauthorized)
      else if !ValidRisk(risk) then Err(InvalidRiskConfig)
      else Ok(s.(econ := e.(risk := risk)))
  }

  /** Actions on markets and batches that move no tokens. */
  function BoardMove(sha: Hash, b: Clearing.Board, governance: bool, tx: Tx): Result<Clearing.Board>
    requires BoardAction(tx.action) && !tx.action.CreateMarket? && !tx.action.Dispute?
  {
    match tx.action
    case CommitOrder(slot, envelope, commitment) => Clearing.CommitOrder(b, tx.actor, slot, envelope, commitment)
    case RevealBatch(slot, index, share) => Clearing.RevealBatch(b, slot, index, share)
    case ClearBatch(x) => Clearing.ClearBatch(sha, tx.setup, b, tx.actor, x)
    case ResolveMarket(id, outcome, signature) => Clearing.ResolveMarket(b, id, outcome, signature)
    case SubmitBatchProof(a) => Clearing.SubmitProof(sha, tx.setup, b, tx.actor, tx.now, tx.id, a)
    case SetProofConfig(config) => Clearing.SetConfig(b, governance, config)
  }

  /** An action on markets that first takes a bond. */
  function Bonded(s: State, actor: Address, bond: u64, r: Result<Clearing.Board>): Result<State> {
    var board :- r;
    var bank :- Amm.DebitAsset(s.bank, actor, Amm.VEIL, bond);
    Ok(s.(bank := bank, board := board))
  }

  /** Actions on markets and batches. */
  function BoardStep(sha: Hash, s: State, tx: Tx): Result<State>
    requires BoardAction(tx.action)
  {
    var a := tx.action;
    if a.CreateMarket? then
      Bonded(s, tx.actor, a.creatorBond,
             Clearing.CreateMarket(s.board, a.market, a.outcomes, a.resolutionTime, a.creatorBond, a.question))
    else if a.Dispute? then
      Bonded(s, tx.actor, a.bond, Clearing.Dispute(s.board, a.market, a.bond, a.evidence))
    else
      WithBoard(s, BoardMove(sha, s.board, IsGovernance(s, tx.actor), tx))
  }

  /** What an action computes from the store it runs on. */
  function Execute(sha: Hash, s: State, tx: Tx): Result<State> {
    if BankAction(tx.action) then
      WithBank(s, BankStep(s.bank, IsGovernance(s, tx.actor), tx.actor, tx.action))
    else if EconAction(tx.action) then
      EconStep(s, tx.actor, tx.now, tx.action)
    else
      BoardStep(sha, s, tx)
  }

  /** An action that fails leaves no trace. */
  function Apply(sha: Hash, s: State, tx: Tx): State {
    var r := Execute(sha, s, tx);
    if r.Ok? then r.value else s
  }

  /** The state after a sequence of transactions. */
  function Run(sha: Hash, s: State, txs: seq<Tx>): State
    decreases |txs|
  {
    if txs == [] then s else Run(sha, Apply(sha, s, txs[0]), txs[1..])
  }

  lemma {:induction false} RunConcat(sha: Hash, s: State, a: seq<Tx>, b: seq<Tx>)
    ensures Run(sha, s, a + b) == Run(sha, Run(sha, s, a), b)
    decreases |a|
  {
    if a == [] {
      assert a + b == b;
    } else {
      RunConcat(sha, Apply(sha, s, a[0]), a[1..], b);
      assert (a + b)[1..] == a[1..] + b;
    }
  }
}
