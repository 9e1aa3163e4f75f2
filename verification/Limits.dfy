/** Where the 64-bit arithmetic of treasury and mint wraps, and exactly what is accepted then. */
module Limits {
  import opened Words
  import opened Nonlinear
  import opened Economy
  import opened Preimage
  import opened Chain
  import opened Genesis
  import opened LedgerProofs
  import opened EconomyProofs
  import Amm
  import Verifier

  // ----- Deadlines -----

  /** What is left of the wait after `start`, for a time that is not before it. */
  predicate Waited(start: i64, seconds: i64, now: i64) {
    var end := start + EpochWord(seconds);
    end < TWO_63 ==> end <= now
  }

  /** There is no wait at all: the next action may come at once. */
  predicate NoWait(start: i64, seconds: i64) {
    EpochWord(seconds) == 0 || TWO_63 <= start + EpochWord(seconds)
  }

  // ----- Tranche releases -----

  /** Everything a release needs except the wait. */
  predicate Releasable(c: TreasuryConfig, t: Treasury, amount: u64) {
    && 0 < amount <= ReleaseCap(c, t) && amount <= t.locked
    && t.live + amount <= MAX_U64 && t.released + amount <= MAX_U64
  }

  /** At every time from the last release on, exactly when the next one is accepted. */
  lemma ReleaseWaitIff(c: TreasuryConfig, t: Treasury, now: i64, amount: u64)
    requires 0 < t.lastReleaseMs <= now && Releasable(c, t, amount)
    ensures Economy.ReleaseTranche(c, t, c.governance, now, amount).Ok?
            <==> Waited(t.lastReleaseMs, c.releaseEpochSeconds, now)
  {
    DeadlineExact(t.lastReleaseMs, c.releaseEpochSeconds);
  }

  /** A second release at the very time of the last one is accepted exactly when the deadline overflows. */
  lemma ReleaseAtOnceIff(c: TreasuryConfig, t: Treasury, amount: u64)
    requires 0 < c.releaseEpochSeconds * 1_000 < TWO_63 && 0 < t.lastReleaseMs && Releasable(c, t, amount)
    ensures Economy.ReleaseTranche(c, t, c.governance, t.lastReleaseMs, amount).Ok?
            <==> TWO_63 <= t.lastReleaseMs + c.releaseEpochSeconds * 1_000
  {
    DeadlineExact(t.lastReleaseMs, c.releaseEpochSeconds);
    ReleaseWaitIff(c, t, t.lastReleaseMs, amount);
  }

  // ----- The release cap -----

  /** Past the deadline some amount can be released exactly when the wrapped product reaches one unit. */
  lemma SomeReleaseIff(c: TreasuryConfig, t: Treasury, now: i64)
    requires t.live + t.locked <= MAX_U64 && t.released + t.locked <= MAX_U64
    requires t.lastReleaseMs > 0 ==> NextRelease(c, t) <= now
    ensures (exists amount: u64 :: Economy.ReleaseTranche(c, t, c.governance, now, amount).Ok?)
            <==> BIPS <= WrapMul(t.locked, c.maxReleaseBips)
  {
    if BIPS <= WrapMul(t.locked, c.maxReleaseBips) {
      assert Economy.ReleaseTranche(c, t, c.governance, now, 1).Ok?;
    }
  }

  lemma {:induction false} FrozenRun(sha: Hash, s: State, txs: seq<Tx>)
    requires WrapMul(s.econ.treasury.locked, s.econ.treasuryCfg.maxReleaseBips) < BIPS
    ensures Run(sha, s, txs).econ.treasury == s.econ.treasury
    decreases |txs|
  {
    if txs != [] {
      if Execute(sha, s, txs[0]).Ok? { EconFrame(sha, s, txs[0]); }
      FrozenRun(sha, Apply(sha, s, txs[0]), txs[1..]);
    }
  }

  ghost predicate Frozen(sha: Hash, s: State) {
    forall txs :: Run(sha, s, txs).econ.treasury == s.econ.treasury
  }

  /** The treasury is frozen for ever exactly when its wrapped cap product is below one unit. */
  lemma FrozenIff(sha: Hash, s: State)
    requires LedgerOk(s) && s.econ.treasury.locked + s.econ.treasury.released <= MAX_U64
    ensures Frozen(sha, s) <==> WrapMul(s.econ.treasury.locked, s.econ.treasuryCfg.maxReleaseBips) < BIPS
  {
    var c, t := s.econ.treasuryCfg, s.econ.treasury;
    if WrapMul(t.locked, c.maxReleaseBips) < BIPS {
      forall txs
        ensures Run(sha, s, txs).econ.treasury == t
      {
        FrozenRun(sha, s, txs);
      }
    } else {
      var tx := FirstRelease(sha, s);
      assert Run(sha, s, [tx]) == Run(sha, Apply(sha, s, tx), [tx][1..]);
    }
  }

  /** A treasury that is not frozen has a release that changes it. */
  lemma FirstRelease(sha: Hash, s: State) returns (tx: Tx)
    requires s.econ.treasury.locked + s.econ.treasury.live <= MAX_U64
    requires s.econ.treasury.locked + s.econ.treasury.released <= MAX_U64
    requires BIPS <= WrapMul(s.econ.treasury.locked, s.econ.treasuryCfg.maxReleaseBips)
    ensures Apply(sha, s, tx).econ.treasury.locked == s.econ.treasury.locked - 1
  {
    var c, t := s.econ.treasuryCfg, s.econ.treasury;
    var late: i64 := TWO_63 - 1;
    tx := Tx(c.governance, seq(32, _ => 0), late, Verifier.Setup(None, false), Action.ReleaseTranche(1));
    var deadline: i64 := NextRelease(c, t);
    assert deadline <= late;
    assert Economy.ReleaseTranche(c, t, c.governance, late, 1).Ok?;
  }

  // ----- Mint epochs -----

  /** At every time from its start on, exactly when an epoch is over. */
  lemma EpochOverIff(c: VaiConfig, start: i64, now: i64)
    requires 0 < start <= now
    ensures EpochEnd(c, start) <= now <==> Waited(start, c.mintEpochSeconds, now)
  {
    DeadlineExact(start, c.mintEpochSeconds);
  }

  /** Everything a mint needs except room in its epoch. */
  predicate Coverable(c: VaiConfig, debt: nat, risk: Risk, reserve: Reserve, amount: nat) {
    && amount > 0 && debt + amount <= c.debtCeiling
    && ValidRisk(risk) && (debt + amount) * risk.backingFloorBips <= reserve.exogenous * BIPS
  }

  /** When the epoch of a mint at time `now` began: now, if the one before is over. */
  function EpochOf(c: VaiConfig, v: Vai, now: i64): i64 {
    if v.epochStart == 0 || Waited(v.epochStart, c.mintEpochSeconds, now) then now else v.epochStart
  }

  /** What counts against the limit for a mint at time `now`. */
  function CountedAlready(c: VaiConfig, v: Vai, now: i64): u64 {
    if Waited(if v.epochStart == 0 then now else v.epochStart, c.mintEpochSeconds, now) then 0 else v.epochMinted
  }

  /** Exactly when a mint is accepted, and the state it leaves. */
  lemma MintExact(c: VaiConfig, v: Vai, risk: Risk, reserve: Reserve, actor: Address, now: i64, amount: u64)
    requires 0 < now && 0 <= v.epochStart <= now
    ensures var r := Mint(c, v, risk, reserve, actor, now, amount);
            && (r.Ok? <==> && actor == c.mintAuthority && Coverable(c, v.totalDebt, risk, reserve, amount)
                           && CountedAlready(c, v, now) + amount <= c.epochMintLimit)
            && (r.Ok? ==>
                  r.value == Vai(v.totalDebt + amount, EpochOf(c, v, now), CountedAlready(c, v, now) + amount))
  {
    EpochOverIff(c, if v.epochStart == 0 then now else v.epochStart, now);
    if v.totalDebt + amount <= MAX_U64 {
      var debt: u64 := v.totalDebt + amount;
      assert Backed(debt, risk, reserve) <==> debt * risk.backingFloorBips <= reserve.exogenous * BIPS;
    }
  }

  /** An exhausted epoch takes one more mint at the time it began exactly when there is no wait. */
  lemma MintAgainIff(c: VaiConfig, v: Vai, risk: Risk, reserve: Reserve, amount: u64)
    requires 0 < v.epochStart && v.epochMinted == c.epochMintLimit
    requires Coverable(c, v.totalDebt, risk, reserve, amount) && amount <= c.epochMintLimit
    ensures Mint(c, v, risk, reserve, c.mintAuthority, v.epochStart, amount).Ok?
            <==> NoWait(v.epochStart, c.mintEpochSeconds)
  {
    MintExact(c, v, risk, reserve, c.mintAuthority, v.epochStart, amount);
  }

  /** A mint of the state machine is the mint of the economy: crediting the minted VAI never fails. */
  lemma MintExecutes(sha: Hash, s: State, tx: Tx)
    requires LedgerOk(s) && tx.action.MintVai?
    ensures var e, r := s.econ, Execute(sha, s, tx);
            var m := Mint(e.vaiCfg, e.vai, e.risk, e.reserve, tx.actor, tx.now, tx.action.amount);
            && (r.Ok? <==> m.Ok?)
            && (r.Ok? ==> r.value.econ == e.(vai := m.value))
  {
    CreditHeld(s.bank, tx.action.to, Amm.VAI, tx.action.amount);
  }

  /** The economy accepts a mint. */
  predicate Accepts(e: Econ, tx: Tx, v: Vai) {
    tx.action.MintVai? && Mint(e.vaiCfg, e.vai, e.risk, e.reserve, tx.actor, tx.now, tx.action.amount) == Ok(v)
  }

  /** A mint that the economy accepts is taken. */
  lemma AcceptedMint(sha: Hash, s: State, tx: Tx, v: Vai) returns (s1: State)
    requires LedgerOk(s) && Accepts(s.econ, tx, v)
    ensures IsMint(sha, s, tx) && s1 == Apply(sha, s, tx) && LedgerOk(s1) && s1.econ == s.econ.(vai := v)
  {
    s1 := Apply(sha, s, tx);
    MintExecutes(sha, s, tx);
    StepKeepsLedger(sha, s, tx);
  }

  /** A mint step of a run, taken. */
  lemma MintTaken(sha: Hash, s: State, tx: Tx) returns (s1: State)
    requires LedgerOk(s) && tx.action.MintVai? && tx.actor == s.econ.vaiCfg.mintAuthority
    requires 0 < tx.now && 0 <= s.econ.vai.epochStart <= tx.now
    requires Coverable(s.econ.vaiCfg, s.econ.vai.totalDebt, s.econ.risk, s.econ.reserve, tx.action.amount)
    requires CountedAlready(s.econ.vaiCfg, s.econ.vai, tx.now) + tx.action.amount <= s.econ.vaiCfg.epochMintLimit
    ensures IsMint(sha, s, tx) && s1 == Apply(sha, s, tx) && LedgerOk(s1)
    ensures var e, amount := s.econ, tx.action.amount;
            s1.econ == e.(vai := Vai(e.vai.totalDebt + amount, EpochOf(e.vaiCfg, e.vai, tx.now),
                                     CountedAlready(e.vaiCfg, e.vai, tx.now) + amount))
  {
    var e, amount := s.econ, tx.action.amount;
    MintExact(e.vaiCfg, e.vai, e.risk, e.reserve, tx.actor, tx.now, amount);
    var v := Vai(e.vai.totalDebt + amount, EpochOf(e.vaiCfg, e.vai, tx.now),
                 CountedAlready(e.vaiCfg, e.vai, tx.now) + amount);
    s1 := AcceptedMint(sha, s, tx, v);
  }

  function MintSum(txs: seq<Tx>): nat {
    if txs == [] then 0 else (if txs[0].action.MintVai? then txs[0].action.amount else 0) + MintSum(txs[1..])
  }

  /** Mints by the authority, none above the limit of one epoch. */
  predicate Mints(c: VaiConfig, txs: seq<Tx>) {
    forall i :: 0 <= i < |txs| ==>
      txs[i].actor == c.mintAuthority && txs[i].action.MintVai? && 0 < txs[i].action.amount <= c.epochMintLimit
  }

  /** The ceiling and the backing floor leave room for `amount` more. */
  predicate RoomFor(e: Econ, amount: nat) {
    && e.vai.totalDebt + amount <= e.vaiCfg.debtCeiling
    && (e.vai.totalDebt + amount) * e.risk.backingFloorBips <= e.reserve.exogenous * BIPS
  }

  /**
   The throttle is void from the first time whose epoch has no wait: every mint then opens a new epoch,
   and one window mints whatever ceiling and floor leave room for.
   */
  lemma {:induction false} MintsUnthrottled(sha: Hash, s: State, txs: seq<Tx>, from: i64, last: int, length: int)
    requires LedgerOk(s) && Mints(s.econ.vaiCfg, txs) && RoomFor(s.econ, MintSum(txs))
    requires 0 < from <= last && NoWait(from, s.econ.vaiCfg.mintEpochSeconds)
    requires s.econ.vai.epochStart == 0 || from <= s.econ.vai.epochStart <= last
    requires Timed(last, txs) && forall i :: 0 <= i < |txs| ==> txs[i].now < from + length
    ensures MintedIn(sha, s, txs, from, length) == MintSum(txs)
    decreases |txs|
  {
    if txs != [] {
      var s1 := UnthrottledStep(sha, s, txs, from);
      var rest := txs[1..];
      assert forall i :: 0 <= i < |rest| ==> rest[i] == txs[i + 1];
      MintsUnthrottled(sha, s1, rest, from, txs[0].now, length);
    }
  }

  lemma UnthrottledStep(sha: Hash, s: State, txs: seq<Tx>, from: i64) returns (s1: State)
    requires txs != [] && LedgerOk(s) && Mints(s.econ.vaiCfg, txs) && RoomFor(s.econ, MintSum(txs))
    requires 0 < from <= txs[0].now && NoWait(from, s.econ.vaiCfg.mintEpochSeconds)
    requires s.econ.vai.epochStart == 0 || from <= s.econ.vai.epochStart <= txs[0].now
    ensures IsMint(sha, s, txs[0]) && s1 == Apply(sha, s, txs[0]) && LedgerOk(s1)
    ensures s1.econ.vaiCfg == s.econ.vaiCfg && RoomFor(s1.econ, MintSum(txs[1..]))
    ensures from <= s1.econ.vai.epochStart <= txs[0].now
  {
    var e, tx := s.econ, txs[0];
    assert tx.action.MintVai?;
    MulLe(e.vai.totalDebt + tx.action.amount, e.vai.totalDebt + MintSum(txs), e.risk.backingFloorBips);
    s1 := MintTaken(sha, s, tx);
  }

  // ----- The window bound is met -----

  function MintBy(c: VaiConfig, to: Address, id: Id, setup: Verifier.Setup, now: i64, amount: u64): Tx {
    Tx(c.mintAuthority, id, now, setup, Action.MintVai(to, amount))
  }

  /** The three mints that fill a window: one unit, the rest of its epoch at the last moment, the whole next epoch. */
  function WindowMints(c: VaiConfig, to: Address, id: Id, setup: Verifier.Setup, start: i64): seq<Tx>
    requires 0 < c.mintEpochSeconds && 0 < start && start + c.mintEpochSeconds * 1_000 < TWO_63 && 1 <= c.epochMintLimit
  {
    var e := c.mintEpochSeconds * 1_000;
    [MintBy(c, to, id, setup, start, 1), MintBy(c, to, id, setup, start + e - 1, c.epochMintLimit - 1),
     MintBy(c, to, id, setup, start + e, c.epochMintLimit)]
  }

  /** How a mint that is taken counts in a window. */
  lemma MintedNext(sha: Hash, s: State, txs: seq<Tx>, s1: State, from: int, length: int)
    requires txs != [] && IsMint(sha, s, txs[0]) && s1 == Apply(sha, s, txs[0])
    ensures MintedIn(sha, s, txs, from, length)
            == (if from <= txs[0].now < from + length then txs[0].action.amount else 0)
               + MintedIn(sha, s1, txs[1..], from, length)
  {
  }

  /** The three are accepted one after the other. */
  lemma WindowAccepted(e: Econ, to: Address, id: Id, setup: Verifier.Setup, start: i64)
    requires e.vai == Vai(0, 0, 0) && 2 <= e.vaiCfg.epochMintLimit && RoomFor(e, 2 * e.vaiCfg.epochMintLimit)
    requires ValidRisk(e.risk) && 0 < e.vaiCfg.mintEpochSeconds && 0 < start
    requires start + 2 * (e.vaiCfg.mintEpochSeconds * 1_000) < TWO_63
    ensures var txs, m, next := WindowMints(e.vaiCfg, to, id, setup, start), e.vaiCfg.epochMintLimit,
                                start + e.vaiCfg.mintEpochSeconds * 1_000;
            && Accepts(e, txs[0], Vai(1, start, 1))
            && Accepts(e.(vai := Vai(1, start, 1)), txs[1], Vai(m, start, m))
            && Accepts(e.(vai := Vai(m, start, m)), txs[2], Vai(2 * m, next, m))
  {
    var c, next: int, m: int := e.vaiCfg, start + e.vaiCfg.mintEpochSeconds * 1_000, e.vaiCfg.epochMintLimit;
    MulLe(1, 2 * m, e.risk.backingFloorBips);
    MulLe(m, 2 * m, e.risk.backingFloorBips);
    MintOpensEpoch(c, Vai(0, 0, 0), e.risk, e.reserve, start, 1);
    MintContinuesEpoch(c, Vai(1, start, 1), e.risk, e.reserve, next - 1, m - 1);
    MintOpensEpoch(c, Vai(m, start, m), e.risk, e.reserve, next, m);
  }

  /** Three accepted mints, the first one before the window. */
  lemma MintedThree(sha: Hash, s: State, txs: seq<Tx>, v1: Vai, v2: Vai, v3: Vai, from: int, length: int)
    requires LedgerOk(s) && |txs| == 3
    requires Accepts(s.econ, txs[0], v1) && Accepts(s.econ.(vai := v1), txs[1], v2)
    requires Accepts(s.econ.(vai := v2), txs[2], v3)
    requires txs[0].now < from <= txs[1].now < from + length && from <= txs[2].now < from + length
    ensures MintedIn(sha, s, txs, from, length) == txs[1].action.amount + txs[2].action.amount
  {
    var s1 := AcceptedMint(sha, s, txs[0], v1);
    var s2 := AcceptedMint(sha, s1, txs[1], v2);
    var s3 := AcceptedMint(sha, s2, txs[2], v3);
    MintedNext(sha, s, txs, s1, from, length);
    MintedNext(sha, s1, txs[1..], s2, from, length);
    MintedNext(sha, s2, txs[2..], s3, from, length);
    assert txs[1..][1..] == txs[2..] && txs[2..][1..] == txs[3..] == [];
  }

  /** From every genesis whose ceiling and floor allow it, a run mints twice the limit minus one in one window. */
  lemma WindowBoundReached(sha: Hash, allocs: seq<Allocation>, t: Tokenomics, to: Address, id: Id,
                           setup: Verifier.Setup, start: i64)
    requires ValidTokenomics(allocs, t)
    requires 2 <= t.vai.epochMintLimit && 2 * t.vai.epochMintLimit <= t.vai.debtCeiling
    requires (2 * t.vai.epochMintLimit) * t.risk.backingFloorBips <= t.reserve.exogenous * BIPS
    requires 0 < start && start + 2 * (t.vai.mintEpochSeconds * 1_000) < TWO_63
    ensures GenesisState(allocs, t).Ok?
    ensures var e, txs := t.vai.mintEpochSeconds * 1_000, WindowMints(t.vai, to, id, setup, start);
            MintedIn(sha, GenesisState(allocs, t).value, txs, start + e - 1, e) == 2 * t.vai.epochMintLimit - 1
  {
    CreditAllTotal(allocs);
    var g, next := GenesisState(allocs, t).value, start + t.vai.mintEpochSeconds * 1_000;
    var m: u64 := t.vai.epochMintLimit;
    WindowAccepted(g.econ, to, id, setup, start);
    MintedThree(sha, g, WindowMints(t.vai, to, id, setup, start),
                Vai(1, start, 1), Vai(m, start, m), Vai(2 * m, next, m),
                next - 1, t.vai.mintEpochSeconds * 1_000);
  }
}
