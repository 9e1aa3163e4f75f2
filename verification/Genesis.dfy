/** The genesis configuration and the state it starts the chain from. */
module Genesis {
  import opened Words
  import opened Balances
  import opened Economy
  import opened Chain
  import Amm
  import Clearing

  datatype Allocation = Allocation(address: Address, balance: u64)

  /** The tokenomics section of the genesis file, grouped by the records it initializes. */
  datatype Tokenomics = Tokenomics(
    totalSupply: u64, locked: u64, live: u64,
    treasury: TreasuryConfig, fees: FeeConfig, vai: VaiConfig, risk: Risk, reserve: Reserve,
    proof: Clearing.ProofConfig)

  function AllocationSum(allocs: seq<Allocation>): nat {
    if allocs == [] then 0 else AllocationSum(allocs[..|allocs| - 1]) + allocs[|allocs| - 1].balance
  }

  /** All VEIL that exists at genesis. */
  function GenesisTotal(allocs: seq<Allocation>, t: Tokenomics): nat {
    AllocationSum(allocs) + t.locked + t.live
  }

  predicate ValidParameters(t: Tokenomics) {
    && t.treasury.releaseEpochSeconds > 0
    && 1 <= t.treasury.maxReleaseBips <= BIPS
    && t.vai.mintEpochSeconds > 0
    && 1 <= t.vai.epochMintLimit <= t.vai.debtCeiling
    && ValidRisk(t.risk)
    && Clearing.ValidConfig(t.proof)
    && ValidFeeConfig(t.fees)
  }

  predicate ValidTokenomics(allocs: seq<Allocation>, t: Tokenomics) {
    && ValidParameters(t)
    && GenesisTotal(allocs, t) <= MAX_U64
    && (t.totalSupply == 0 || t.totalSupply == GenesisTotal(allocs, t))
  }

  lemma {:induction false} PartialSums(allocs: seq<Allocation>, i: nat)
    requires i <= |allocs|
    ensures AllocationSum(allocs[..i]) <= AllocationSum(allocs)
    decreases |allocs|
  {
    if i == |allocs| {
      assert allocs[..i] == allocs;
    } else {
      PartialSums(allocs[..|allocs| - 1], i);
      assert allocs[..|allocs| - 1][..i] == allocs[..i];
    }
  }

  /** The checks of the genesis loader: a running 64-bit sum over the allocations, then the two vaults. */
  method ValidateTokenomics(allocs: seq<Allocation>, t: Tokenomics) returns (r: Check)
    ensures r.Pass? <==> ValidTokenomics(allocs, t)
  {
    if t.treasury.releaseEpochSeconds <= 0 {
      return Fail(InvalidTokenomicsConfig);
    }
    if t.treasury.maxReleaseBips == 0 || t.treasury.maxReleaseBips > BIPS {
      return Fail(InvalidTokenomicsConfig);
    }
    if t.vai.mintEpochSeconds <= 0 {
      return Fail(InvalidTokenomicsConfig);
    }
    if t.vai.debtCeiling == 0 {
      return Fail(InvalidTokenomicsConfig);
    }
    if t.vai.epochMintLimit == 0 || t.vai.epochMintLimit > t.vai.debtCeiling {
      return Fail(InvalidTokenomicsConfig);
    }
    if !ValidRisk(t.risk) {
      return Fail(InvalidRiskConfig);
    }
    if !Clearing.ValidConfig(t.proof) {
      return Fail(InvalidProofConfig);
    }
    if !ValidFeeConfig(t.fees) {
      return Fail(InvalidFeeRouterConfig);
    }
    var sum: u64 := 0;
    for i := 0 to |allocs|
      invariant sum == AllocationSum(allocs[..i])
    {
      assert allocs[..i + 1][..i] == allocs[..i];
      if sum + allocs[i].balance > MAX_U64 {
        PartialSums(allocs, i + 1);
        return Fail(Overflow);
      }
      sum := sum + allocs[i].balance;
    }
    assert allocs[..|allocs|] == allocs;
    if sum + t.locked > MAX_U64 {
      return Fail(Overflow);
    }
    if sum + t.locked + t.live > MAX_U64 {
      return Fail(Overflow);
    }
    if t.totalSupply != 0 && sum + t.locked + t.live != t.totalSupply {
      return Fail(InvalidTokenomicsConfig);
    }
    return Pass;
  }

  /** Allocations are credited one by one; an address may appear more than once. */
  function CreditAll(m: Accounts, allocs: seq<Allocation>): Result<Accounts> {
    if allocs == [] then Ok(m)
    else
      var n :- CreditAll(m, allocs[..|allocs| - 1]);
      Credit(n, allocs[|allocs| - 1].address, allocs[|allocs| - 1].balance)
  }

  lemma {:induction false} CreditAllTotal(allocs: seq<Allocation>)
    requires AllocationSum(allocs) <= MAX_U64
    ensures CreditAll(map[], allocs).Ok? && Total(CreditAll(map[], allocs).value) == AllocationSum(allocs)
  {
    if allocs != [] {
      var front, last := allocs[..|allocs| - 1], allocs[|allocs| - 1];
      CreditAllTotal(front);
      CreditTotal(CreditAll(map[], front).value, last.address, last.balance);
    }
  }

  function InitialEcon(t: Tokenomics): Econ {
    Econ(t.treasury, Treasury(t.locked, t.live, 0, 0), t.fees, Fees(0, 0, 0), t.vai, Vai(0, 0, 0), t.risk, t.reserve)
  }

  function InitialBoard(t: Tokenomics): Clearing.Board {
    Clearing.Board(t.proof, map[], map[], map[], map[], Clearing.Proofs(map[], map[], map[], map[]))
  }

  function GenesisState(allocs: seq<Allocation>, t: Tokenomics): Result<State> {
    var veil :- CreditAll(map[], allocs);
    :- Need(ValidTokenomics(allocs, t), InvalidTokenomicsConfig);
    Ok(State(Amm.Bank(veil, map[], map[], None), InitialEcon(t), InitialBoard(t)))
  }

  /** What the allocations give to one account together. */
  function AllocatedTo(allocs: seq<Allocation>, who: Address): nat {
    if allocs == [] then 0
    else (if allocs[0].address == who then allocs[0].balance else 0) + AllocatedTo(allocs[1..], who)
  }

  predicate Allocated(allocs: seq<Allocation>, who: Address) {
    exists i :: 0 <= i < |allocs| && allocs[i].address == who
  }

  lemma {:induction false} AllocatedSnoc(allocs: seq<Allocation>, last: Allocation, who: Address)
    ensures AllocatedTo(allocs + [last], who)
            == AllocatedTo(allocs, who) + if last.address == who then last.balance else 0
  {
    if allocs == [] {
      assert allocs + [last] == [last] && [last][1..] == [];
    } else {
      AllocatedSnoc(allocs[1..], last, who);
      assert (allocs + [last])[1..] == allocs[1..] + [last];
    }
  }

  /** Crediting the allocations one by one gives each account exactly its own. */
  lemma {:induction false} CreditAllExact(allocs: seq<Allocation>, who: Address)
    requires CreditAll(map[], allocs).Ok?
    ensures var m := CreditAll(map[], allocs).value;
            Balance(m, who) == AllocatedTo(allocs, who) && (who in m <==> Allocated(allocs, who))
  {
    if allocs != [] {
      var front, last := allocs[..|allocs| - 1], allocs[|allocs| - 1];
      CreditAllExact(front, who);
      assert allocs == front + [last];
      AllocatedSnoc(front, last, who);
      CreditExact(CreditAll(map[], front).value, last.address, last.balance, who);
      assert forall i :: 0 <= i < |front| ==> front[i] == allocs[i];
      if last.address == who { assert allocs[|allocs| - 1].address == who; }
    }
  }

  /** Each role, limit and share of the configuration, the allocations, and empty records everywhere else. */
  lemma GenesisExact(allocs: seq<Allocation>, t: Tokenomics, who: Address)
    requires GenesisState(allocs, t).Ok?
    ensures var e := GenesisState(allocs, t).value.econ;
            && e.treasuryCfg.governance == t.treasury.governance && e.treasuryCfg.operations == t.treasury.operations
            && e.treasuryCfg.maxReleaseBips == t.treasury.maxReleaseBips
            && e.treasuryCfg.releaseEpochSeconds == t.treasury.releaseEpochSeconds
            && e.treasury.locked == t.locked && e.treasury.live == t.live
            && e.treasury.released == 0 && e.treasury.lastReleaseMs == 0
            && e.feeCfg.msrbBips == t.fees.msrbBips && e.feeCfg.colBips == t.fees.colBips
            && e.feeCfg.opsBips == t.fees.opsBips && e.fees.msrb == 0 && e.fees.col == 0 && e.fees.ops == 0
            && e.vaiCfg.mintAuthority == t.vai.mintAuthority && e.vaiCfg.debtCeiling == t.vai.debtCeiling
            && e.vaiCfg.epochMintLimit == t.vai.epochMintLimit && e.vaiCfg.mintEpochSeconds == t.vai.mintEpochSeconds
            && e.vai.totalDebt == 0 && e.vai.epochStart == 0 && e.vai.epochMinted == 0
            && e.risk == t.risk && e.reserve == t.reserve
    ensures var g := GenesisState(allocs, t).value;
            && g.board.config == t.proof && g.board.markets == map[] && g.board.orders == map[]
            && g.board.oracle == map[] && g.board.batches == map[] && g.board.proofs.records == map[]
            && g.board.proofs.blobs == map[] && g.board.proofs.sworn == map[] && g.board.proofs.glyphs == map[]
            && g.bank.vai == map[] && g.bank.lp == map[] && g.bank.pool == None
            && Balance(g.bank.veil, who) == AllocatedTo(allocs, who)
            && (who in g.bank.veil <==> Allocated(allocs, who))
  {
    CreditAllExact(allocs, who);
  }

  /** A genesis is accepted exactly within these bounds. */
  lemma GenesisIff(allocs: seq<Allocation>, t: Tokenomics)
    ensures GenesisState(allocs, t).Ok?
            <==> && 0 < t.treasury.releaseEpochSeconds && 1 <= t.treasury.maxReleaseBips <= 10_000
                 && 0 < t.vai.mintEpochSeconds && 1 <= t.vai.epochMintLimit <= t.vai.debtCeiling
                 && t.fees.msrbBips + t.fees.colBips + t.fees.opsBips == 10_000
                 && 0 < t.risk.backingFloorBips && t.risk.veilLtv <= 10_000 && t.risk.wveilLtv <= 10_000
                 && t.risk.wsveilLtv == 0 && t.risk.veilHaircut <= 10_000 && t.risk.wveilHaircut <= 10_000
                 && t.risk.wsveilHaircut <= 10_000
                 && (t.proof.requiredProofType == 1 || t.proof.requiredProofType == 2)
                 && 0 < t.proof.batchWindowMs && 0 < t.proof.proofDeadlineMs
                 && (exists i :: 0 <= i < 33 && t.proof.proverAuthority[i] != 0)
                 && AllocationSum(allocs) + t.locked + t.live < TWO_64
                 && (t.totalSupply == 0 || t.totalSupply == AllocationSum(allocs) + t.locked + t.live)
  {
    if AllocationSum(allocs) <= MAX_U64 { CreditAllTotal(allocs); }
  }
}
