/** Concrete inputs, each from a valid genesis, at which the arithmetic wraps. */
module Witnesses {
  import opened Words
  import opened Economy
  import opened Preimage
  import opened Chain
  import opened Genesis
  import opened IntegerRoot
  import opened Wire
  import opened Envelope
  import opened LedgerProofs
  import opened BoardProofs
  import opened EconomyProofs
  import opened Effects
  import opened Limits
  import opened Progress
  import Theorems
  import Amm
  import Clearing
  import Verifier

  /** An ordinary block time: November 2023. */
  const NOVEMBER: i64 := 1_700_000_000_000
  /** An epoch whose milliseconds fit an int64, and whose end at an ordinary time does not. */
  const LONG_EPOCH: i64 := 9_223_372_036_854_775

  /** One founder in every role, and no allocations. */
  function Sample(who: Address, locked: u64, maxReleaseBips: u16, limit: u64): Tokenomics {
    Tokenomics(0, locked, 0,
               TreasuryConfig(who, who, maxReleaseBips, LONG_EPOCH), FeeConfig(10_000, 0, 0),
               VaiConfig(who, MAX_U64, limit, LONG_EPOCH),
               Risk(1, 0, 0, 0, 0, 0, 0), Reserve(MAX_U64, 0),
               Clearing.ProofConfig(true, 1, 1, 1, who))
  }

  lemma SampleValid(who: Address, locked: u64, maxReleaseBips: u16, limit: u64, allocs: seq<Allocation>)
    requires !Clearing.IsZeroAddress(who) && 1 <= maxReleaseBips <= BIPS && 1 <= limit
    requires AllocationSum(allocs) + locked <= MAX_U64
    ensures var t := Sample(who, locked, maxReleaseBips, limit);
            && ValidTokenomics(allocs, t) && GenesisState(allocs, t).Ok?
            && GenesisState(allocs, t).value.econ == InitialEcon(t) && LedgerOk(GenesisState(allocs, t).value)
  {
    CreditAllTotal(allocs);
  }

  /** Two releases at one timestamp, where every epoch should be almost three hundred million years long. */
  lemma ReleaseTwiceAtOnce(sha: Hash, who: Address, id: Id, setup: Verifier.Setup)
    requires !Clearing.IsZeroAddress(who)
    ensures ValidTokenomics([], Sample(who, 10_000, 1_000, 1)) && GenesisState([], Sample(who, 10_000, 1_000, 1)).Ok?
    ensures var g := GenesisState([], Sample(who, 10_000, 1_000, 1)).value;
            var tx := Tx(who, id, NOVEMBER, setup, Action.ReleaseTranche(1));
            ReleaseTimes(sha, g, [tx, tx]) == [NOVEMBER, NOVEMBER]
  {
    SampleValid(who, 10_000, 1_000, 1, []);
    var g := GenesisState([], Sample(who, 10_000, 1_000, 1)).value;
    var tx := Tx(who, id, NOVEMBER, setup, Action.ReleaseTranche(1));
    var s1 := Apply(sha, g, tx);
    assert s1.econ.treasury == Treasury(9_999, 1, 1, NOVEMBER);
    ReleaseAtOnceIff(s1.econ.treasuryCfg, s1.econ.treasury, 1);
    assert IsRelease(sha, s1, tx);
    assert [tx, tx][1..] == [tx] && [tx][1..] == [];
    assert ReleaseTimes(sha, s1, [tx]) == [NOVEMBER];
  }

  /** Three mints of the whole epoch limit at one timestamp: the window bound is 2 * 10 - 1. */
  lemma MintThriceAtOnce(sha: Hash, who: Address, id: Id, setup: Verifier.Setup)
    requires !Clearing.IsZeroAddress(who)
    ensures ValidTokenomics([], Sample(who, 0, 1, 10)) && GenesisState([], Sample(who, 0, 1, 10)).Ok?
    ensures var g := GenesisState([], Sample(who, 0, 1, 10)).value;
            var tx := Tx(who, id, NOVEMBER, setup, Action.MintVai(who, 10));
            MintedIn(sha, g, [tx, tx, tx], NOVEMBER, LONG_EPOCH * 1_000) == 30
  {
    SampleValid(who, 0, 1, 10, []);
    var g, tx := GenesisState([], Sample(who, 0, 1, 10)).value, Tx(who, id, NOVEMBER, setup, Action.MintVai(who, 10));
    var txs := [tx, tx, tx];
    assert txs[1..] == [tx, tx] && [tx, tx][1..] == [tx] && [tx][1..] == [];
    assert MintSum([tx]) == 10 && MintSum([tx, tx]) == 20;
    assert Timed(NOVEMBER, [tx]) && Timed(NOVEMBER, [tx, tx]);
    assert EpochWord(LONG_EPOCH) == LONG_EPOCH * 1_000;
    MintsUnthrottled(sha, g, txs, NOVEMBER, NOVEMBER, LONG_EPOCH * 1_000);
  }

  /** A quarter of the word range locked, four bips per release: nothing can ever be released. */
  lemma FrozenGenesis(sha: Hash, who: Address, txs: seq<Tx>)
    requires !Clearing.IsZeroAddress(who)
    ensures var t := Sample(who, 0x4000_0000_0000_0000, 4, 1);
            && ValidTokenomics([], t) && GenesisState([], t).Ok?
            && Run(sha, GenesisState([], t).value, txs).econ.treasury.locked == 0x4000_0000_0000_0000
  {
    SampleValid(who, 0x4000_0000_0000_0000, 4, 1, []);
    FrozenRun(sha, GenesisState([], Sample(who, 0x4000_0000_0000_0000, 4, 1)).value, txs);
  }

  const TWO_31: u64 := 0x8000_0000
  const TWO_40: u64 := 0x100_0000_0000
  const TWO_62: u64 := 0x4000_0000_0000_0000

  /** One account's funds and the pool, on a sound ledger. */
  ghost predicate Stage(s: State, who: Address, veil: nat, vai: nat, pool: Option<Amm.Pool>) {
    && LedgerOk(s) && IsGovernance(s, who) && s.bank.pool == pool
    && Funds(s.bank, who, Amm.VEIL) == veil && Funds(s.bank, who, Amm.VAI) == vai
  }

  const EMPTY_POOL := Amm.Pool(Amm.VEIL, Amm.VAI, 30, 0, 0, 0)

  lemma PoolCreated(sha: Hash, s: State, tx: Tx, veil: nat, vai: nat)
    requires Stage(s, tx.actor, veil, vai, None) && tx.action == Action.CreatePool(Amm.VEIL, Amm.VAI, 30)
    ensures Stage(Apply(sha, s, tx), tx.actor, veil, vai, Some(EMPTY_POOL))
  {
    StepKeepsLedger(sha, s, tx);
  }

  lemma FirstDeposit(sha: Hash, s: State, tx: Tx, veil: nat, vai: nat)
    requires Stage(s, tx.actor, veil, vai, Some(EMPTY_POOL)) && 1 <= veil && TWO_62 <= vai
    requires tx.action == Action.AddLiquidity(Amm.VEIL, Amm.VAI, 1, TWO_62, 0)
    ensures Stage(Apply(sha, s, tx), tx.actor, veil - 1, vai - TWO_62,
                  Some(EMPTY_POOL.(reserve0 := 1, reserve1 := TWO_62, totalLp := TWO_31)))
  {
    FirstMinted();
    CoveredDepositIff(s, tx.actor, tx.action);
    var t := Apply(sha, s, tx);
    StepKeepsLedger(sha, s, tx);
    AddFunds(s.bank, tx.actor, Amm.VEIL, Amm.VAI, 1, TWO_62, 0, t.bank, tx.actor, Amm.VEIL);
    AddFunds(s.bank, tx.actor, Amm.VEIL, Amm.VAI, 1, TWO_62, 0, t.bank, tx.actor, Amm.VAI);
    Theorems.DepositedPool(s.bank, tx.actor, Amm.VEIL, Amm.VAI, 1, TWO_62, 0, t.bank);
  }

  lemma FirstMinted()
    ensures MintFits(EMPTY_POOL, 1, TWO_62) && Minted(EMPTY_POOL, 1, TWO_62) == TWO_31
    ensures Amm.LpFor(EMPTY_POOL, 1, TWO_62) == Ok(TWO_31)
  {
    FloorRootUnique(TWO_62, TWO_31);
    LpForExact(EMPTY_POOL, 1, TWO_62);
  }

  /** A balanced deposit would now mint 512, is covered, and overflows: its larger share does not fit a word. */
  lemma SecondDeposit(sha: Hash, s: State, tx: Tx, veil: nat, vai: nat)
    requires Stage(s, tx.actor, veil, vai, Some(EMPTY_POOL.(reserve0 := 1, reserve1 := TWO_62, totalLp := TWO_31)))
    requires TWO_40 <= veil && TWO_40 <= vai
    requires tx.action == Action.AddLiquidity(Amm.VEIL, Amm.VAI, TWO_40, TWO_40, 0)
    ensures CoveredDeposit(s.bank, tx.actor, tx.action) && Minted(s.bank.pool.value, TWO_40, TWO_40) == 512
    ensures Execute(sha, s, tx) == Err(Overflow)
  {
    CoveredDepositIff(s, tx.actor, tx.action);
  }

  /** A genesis that gives the founder some VEIL. */
  function Funded(who: Address, veil: u64): Result<State> {
    GenesisState([Allocation(who, veil)], Sample(who, 0, 1, MAX_U64))
  }

  lemma FundedStage(who: Address, veil: u64)
    requires !Clearing.IsZeroAddress(who)
    ensures ValidTokenomics([Allocation(who, veil)], Sample(who, 0, 1, MAX_U64))
    ensures Funded(who, veil).Ok? && Stage(Funded(who, veil).value, who, veil, 0, None)
    ensures Funded(who, veil).value.econ == InitialEcon(Sample(who, 0, 1, MAX_U64))
    ensures Funded(who, veil).value.bank.veil == map[who := veil]
    ensures Funded(who, veil).value.board == InitialBoard(Sample(who, 0, 1, MAX_U64))
  {
    var allocs := [Allocation(who, veil)];
    assert allocs[..0] == [] && AllocationSum(allocs) == veil;
    SampleValid(who, 0, 1, MAX_U64, allocs);
    assert CreditAll(map[], allocs[..0]) == Ok(map[]);
  }

  function Opening(who: Address, id: Id, setup: Verifier.Setup, vai: u64): seq<Tx> {
    [Tx(who, id, NOVEMBER, setup, Action.MintVai(who, vai)),
     Tx(who, id, NOVEMBER, setup, Action.CreatePool(Amm.VEIL, Amm.VAI, 30))]
  }

  /** The founder mints some VAI and creates the pool. */
  lemma Opened(sha: Hash, who: Address, id: Id, setup: Verifier.Setup, veil: u64, vai: u64)
    requires !Clearing.IsZeroAddress(who) && vai > 0
    ensures Funded(who, veil).Ok?
    ensures Stage(Run(sha, Funded(who, veil).value, Opening(who, id, setup, vai)), who, veil, vai, Some(EMPTY_POOL))
  {
    FundedStage(who, veil);
    var g, txs := Funded(who, veil).value, Opening(who, id, setup, vai);
    assert EpochWord(LONG_EPOCH) == LONG_EPOCH * 1_000;
    var s1 := MintTaken(sha, g, txs[0]);
    EconAccountsMove(g, txs[0], s1, who, Amm.VEIL);
    EconAccountsMove(g, txs[0], s1, who, Amm.VAI);
    PoolCreated(sha, s1, txs[1], veil, vai);
    RunTwo(sha, g, txs[0], txs[1]);
  }

  lemma RunTwo(sha: Hash, s: State, a: Tx, b: Tx)
    ensures Run(sha, s, [a, b]) == Apply(sha, Apply(sha, s, a), b)
  {
    assert [a, b][1..] == [b] && [b][1..] == [];
    RunOne(sha, Apply(sha, s, a), b);
  }

  lemma RunOne(sha: Hash, s: State, a: Tx)
    ensures Run(sha, s, [a]) == Apply(sha, s, a)
  {
    assert [a][1..] == [];
  }

  /** From a valid genesis: open the pool, deposit (1, 2^62). The next, covered deposit overflows. */
  lemma DepositOverflowReached(sha: Hash, who: Address, id: Id, setup: Verifier.Setup)
    requires !Clearing.IsZeroAddress(who)
    ensures ValidTokenomics([Allocation(who, 2 * TWO_40)], Sample(who, 0, 1, MAX_U64)) && Funded(who, 2 * TWO_40).Ok?
    ensures var first := Tx(who, id, NOVEMBER, setup, Action.AddLiquidity(Amm.VEIL, Amm.VAI, 1, TWO_62, 0));
            var s := Run(sha, Funded(who, 2 * TWO_40).value, Opening(who, id, setup, 2 * TWO_62) + [first]);
            var tx := Tx(who, id, NOVEMBER, setup, Action.AddLiquidity(Amm.VEIL, Amm.VAI, TWO_40, TWO_40, 0));
            && BankOk(s.bank) && CoveredDeposit(s.bank, who, tx.action)
            && Minted(s.bank.pool.value, TWO_40, TWO_40) == 512
            && Execute(sha, s, tx) == Err(Overflow)
  {
    FundedStage(who, 2 * TWO_40);
    Opened(sha, who, id, setup, 2 * TWO_40, 2 * TWO_62);
    var g, txs := Funded(who, 2 * TWO_40).value, Opening(who, id, setup, 2 * TWO_62);
    var first := Tx(who, id, NOVEMBER, setup, Action.AddLiquidity(Amm.VEIL, Amm.VAI, 1, TWO_62, 0));
    var second := Tx(who, id, NOVEMBER, setup, Action.AddLiquidity(Amm.VEIL, Amm.VAI, TWO_40, TWO_40, 0));
    RunConcat(sha, g, txs, [first]);
    var s := Run(sha, g, txs);
    RunOne(sha, s, first);
    FirstDeposit(sha, s, first, 2 * TWO_40, 2 * TWO_62);
    SecondDeposit(sha, Apply(sha, s, first), second, 2 * TWO_40 - 1, TWO_62);
  }

  /** 3 times this is 2^64 - 1. */
  const THIRD: u64 := 6_148_914_691_236_517_205

  /** From a valid genesis: open the pool. A covered first deposit of (3, (2^64 - 1) / 3) divides by zero. */
  lemma DivisionByZeroReached(sha: Hash, who: Address, id: Id, setup: Verifier.Setup)
    requires !Clearing.IsZeroAddress(who)
    ensures ValidTokenomics([Allocation(who, 3)], Sample(who, 0, 1, MAX_U64)) && Funded(who, 3).Ok?
    ensures var s := Run(sha, Funded(who, 3).value, Opening(who, id, setup, THIRD));
            var tx := Tx(who, id, NOVEMBER, setup, Action.AddLiquidity(Amm.VEIL, Amm.VAI, 3, THIRD, 0));
            CoveredDeposit(s.bank, who, tx.action) && Execute(sha, s, tx) == Err(DivisionByZero)
  {
    FundedStage(who, 3);
    Opened(sha, who, id, setup, 3, THIRD);
    var s := Run(sha, Funded(who, 3).value, Opening(who, id, setup, THIRD));
    CoveredDepositIff(s, who, Action.AddLiquidity(Amm.VEIL, Amm.VAI, 3, THIRD, 0));
  }

  /** Half the word range, routed with every bip going to the first budget, goes to the last one instead. */
  lemma FeeShareLost(sha: Hash, who: Address, id: Id, setup: Verifier.Setup)
    requires !Clearing.IsZeroAddress(who)
    ensures ValidTokenomics([Allocation(who, 2 * TWO_62)], Sample(who, 0, 1, MAX_U64)) && Funded(who, 2 * TWO_62).Ok?
    ensures var s, tx := Funded(who, 2 * TWO_62).value, Tx(who, id, NOVEMBER, setup, Action.RouteFees(2 * TWO_62));
            && s.econ.feeCfg == FeeConfig(10_000, 0, 0) && Execute(sha, s, tx).Ok?
            && Execute(sha, s, tx).value.econ.fees == Fees(0, 0, 2 * TWO_62)
  {
    FundedStage(who, 2 * TWO_62);
    var s, tx := Funded(who, 2 * TWO_62).value, Tx(who, id, NOVEMBER, setup, Action.RouteFees(2 * TWO_62));
    RouteFeesIff(sha, s, tx);
    assert Share(10_000, 2 * TWO_62) == 0 && Share(0, 2 * TWO_62) == 0;
    assert Economy.RouteFees(s.econ.feeCfg, s.econ.fees, 2 * TWO_62) == Ok(Fees(0, 0, 2 * TWO_62));
  }

  /** In a genesis without accounts a zero fee passes the check and cannot be deducted. */
  lemma ZeroFeeRefused(sha: Hash, who: Address, id: Id, setup: Verifier.Setup)
    requires !Clearing.IsZeroAddress(who)
    ensures ValidTokenomics([], Sample(who, 0, 1, 1)) && GenesisState([], Sample(who, 0, 1, 1)).Ok?
    ensures var s := GenesisState([], Sample(who, 0, 1, 1)).value;
            var tx := Tx(who, id, NOVEMBER, setup, Action.DeductFee(0));
            CanDeduct(s.bank, who, 0) && Execute(sha, s, tx) == Err(InvalidBalance)
  {
    SampleValid(who, 0, 1, 1, []);
  }

  /** A VZK2 blob for a circuit called "x". */
  const FOREIGN: Bytes := FrameV2(1, 1, U32(1), U32(1), [120] + [0] + [0])

  lemma ForeignCircuit()
    ensures Parse(FOREIGN) == Ok(Parsed(1, [120], [0], [0], true)) && 0 < |FOREIGN| <= MAX_PROOF_BYTES
    ensures !SupportedCircuit(NormalizeCircuit([120]))
  {
    var circuit: Bytes, proof: Bytes := [120], [0];
    ParseFrameV2(1, circuit, proof, proof);
    TrimKeepsValidIds(circuit);
    assert |CLEARHASH_V1| != 1 && |SHIELDED_V1| != 1;
  }

  function Listing(who: Address, id: Id, setup: Verifier.Setup): Tx {
    Tx(who, id, NOVEMBER, setup, Action.CreateMarket(id, 2, 1, 1, []))
  }

  function ForeignProof(who: Address, id: Id, setup: Verifier.Setup): Tx {
    Tx(who, id, NOVEMBER, setup,
       Action.SubmitBatchProof(Clearing.Submission(Clearing.Slot(id, 0), NOVEMBER, 1, id, id, FOREIGN)))
  }

  /**
   From a valid genesis, on a node without a verifier that is not strict: a proof for an unknown circuit is accepted,
   and its window can never again be proved, nor cleared in any later state that requires proofs.
   */
  lemma WindowBlockedReached(sha: Hash, who: Address, id: Id, later: seq<Tx>, tx: Tx)
    requires !Clearing.IsZeroAddress(who)
    ensures ValidTokenomics([Allocation(who, 1)], Sample(who, 0, 1, MAX_U64)) && Funded(who, 1).Ok?
    ensures var setup := Verifier.Setup(None, false);
            var s := Apply(sha, Funded(who, 1).value, Listing(who, id, setup));
            && Execute(sha, s, ForeignProof(who, id, setup)).Ok?
            && var t := Run(sha, Execute(sha, s, ForeignProof(who, id, setup)).value, later);
               || (tx.action.SubmitBatchProof? && tx.action.submission.slot == Clearing.Slot(id, 0))
               || (&& tx.action.ClearBatch? && t.board.config.requireProof
                   && tx.action.clear.market == id && tx.action.clear.window == 0)
               ==> Execute(sha, t, tx).Err?
  {
    var setup := Verifier.Setup(None, false);
    FundedStage(who, 1);
    ForeignCircuit();
    var g := Funded(who, 1).value;
    var s := Apply(sha, g, Listing(who, id, setup));
    assert s.board == g.board.(markets := map[id := Clearing.Market(Clearing.ACTIVE, 2, 1, 0, [])]);
    var submit := ForeignProof(who, id, setup);
    ExecuteSubmit(sha, s, submit);
    SubmittableIff(setup, s.board, who, NOVEMBER, submit.action.submission);
    var s1 := Execute(sha, s, submit).value;
    var t := Run(sha, s1, later);
    if || (tx.action.SubmitBatchProof? && tx.action.submission.slot == Clearing.Slot(id, 0))
       || (&& tx.action.ClearBatch? && t.board.config.requireProof
           && tx.action.clear.market == id && tx.action.clear.window == 0) {
      BlockedWindow(sha, s, submit, s1, later, tx);
    }
  }
}
