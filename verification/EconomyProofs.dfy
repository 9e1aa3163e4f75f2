/** Rate limits of the treasury and the mint, and the backing floor, over whole runs. */
module EconomyProofs {
  import opened Words
  import opened Nonlinear
  import opened Economy
  import opened Preimage
  import opened Chain

  /** Which step changes which part of the economy. */
  lemma EconFrame(sha: Hash, s: State, tx: Tx)
    requires Execute(sha, s, tx).Ok?
    ensures var e, f, a := s.econ, Execute(sha, s, tx).value.econ, tx.action;
            && f.vaiCfg == e.vaiCfg && f.treasuryCfg == e.treasuryCfg && f.feeCfg == e.feeCfg
            && (!a.ReleaseTranche? ==> f.treasury == e.treasury)
            && (!a.MintVai? && !a.BurnVai? ==> f.vai == e.vai)
            && (!a.SetRiskParams? ==> f.risk == e.risk)
            && (!a.UpdateReserve? ==> f.reserve == e.reserve)
            && (a.ReleaseTranche? ==>
                  Economy.ReleaseTranche(e.treasuryCfg, e.treasury, tx.actor, tx.now, a.amount) == Ok(f.treasury))
            && (a.MintVai? ==>
                  Mint(e.vaiCfg, e.vai, e.risk, e.reserve, tx.actor, tx.now, a.amount) == Ok(f.vai))
            && (a.BurnVai? ==> Burn(e.vai, a.amount) == Ok(f.vai))
  {
  }

  /** Block timestamps are positive and never run backwards. */
  predicate Timed(from: int, txs: seq<Tx>)
    decreases |txs|
  {
    txs == [] || (from <= txs[0].now && 0 < txs[0].now && Timed(txs[0].now, txs[1..]))
  }

  // ----- Deadlines -----

  /** The milliseconds in a number of seconds, as the 64 bits the product leaves. */
  function EpochWord(seconds: i64): u64 { seconds * 1_000 % TWO_64 }

  /** The deadline of an epoch: exact when it fits, and otherwise before its own start. */
  lemma DeadlineExact(start: i64, seconds: i64)
    requires 0 <= start
    ensures var end, exact := WrapI64(start + WrapI64(seconds * 1_000)), start + EpochWord(seconds);
            end == if exact < TWO_63 then exact else exact - TWO_64
    ensures 0 <= seconds * 1_000 < TWO_63 ==> EpochWord(seconds) == seconds * 1_000
  {
  }

  // ----- Tranche releases -----

  predicate IsRelease(sha: Hash, s: State, tx: Tx) {
    tx.action.ReleaseTranche? && Execute(sha, s, tx).Ok?
  }

  /** The times of the successful releases of a run. */
  function ReleaseTimes(sha: Hash, s: State, txs: seq<Tx>): seq<int>
    decreases |txs|
  {
    if txs == [] then []
    else (if IsRelease(sha, s, txs[0]) then [txs[0].now as int] else [])
         + ReleaseTimes(sha, Apply(sha, s, txs[0]), txs[1..])
  }

  function Power(b: nat, n: nat): nat {
    if n == 0 then 1 else b * Power(b, n - 1)
  }

  /** One release takes at most the configured fraction, even when the 64-bit cap product wraps. */
  lemma ReleaseStep(c: TreasuryConfig, t: Treasury, actor: Address, now: i64, amount: u64)
    requires Economy.ReleaseTranche(c, t, actor, now, amount).Ok? && c.maxReleaseBips <= BIPS
    ensures var u := Economy.ReleaseTranche(c, t, actor, now, amount).value;
            && t.locked * (BIPS - c.maxReleaseBips) <= u.locked * BIPS
            && u == Treasury(t.locked - amount, t.live + amount, t.released + amount, now)
  {
    var b: int := c.maxReleaseBips;
    ProductNonNegative(t.locked, b);
    assert WrapMul(t.locked, b) <= t.locked * b;
    QuotientBounds(WrapMul(t.locked, b), BIPS);
    assert amount * BIPS <= t.locked * b;
    assert t.locked * (BIPS - b) == t.locked * BIPS - t.locked * b;
  }

  /** After n releases at least (1 - cap)^n of the locked amount remains, and nothing is lost. */
  lemma {:induction false} LockedDecay(sha: Hash, s: State, txs: seq<Tx>)
    requires s.econ.treasuryCfg.maxReleaseBips <= BIPS
    ensures var t, u := s.econ.treasury, Run(sha, s, txs).econ.treasury;
            var n := |ReleaseTimes(sha, s, txs)|;
            && t.locked * Power(BIPS - s.econ.treasuryCfg.maxReleaseBips, n) <= u.locked * Power(BIPS, n)
            && u.locked + u.live == t.locked + t.live
            && u.locked + u.released == t.locked + t.released
    decreases |txs|
  {
    if txs != [] {
      var tx := txs[0];
      var s1 := Apply(sha, s, tx);
      if Execute(sha, s, tx).Ok? { EconFrame(sha, s, tx); }
      LockedDecay(sha, s1, txs[1..]);
      if IsRelease(sha, s, tx) {
        var c := s.econ.treasuryCfg;
        ReleaseStep(c, s.econ.treasury, tx.actor, tx.now, tx.action.amount);
        var n := |ReleaseTimes(sha, s1, txs[1..])|;
        DecayStep(s.econ.treasury.locked, s1.econ.treasury.locked, Run(sha, s, txs).econ.treasury.locked,
                  BIPS - c.maxReleaseBips, Power(BIPS - c.maxReleaseBips, n), BIPS, Power(BIPS, n));
      }
    }
  }

  /** a*k <= b*d and b*pk <= c*pd give a*(k*pk) <= c*(d*pd). */
  lemma DecayStep(a: nat, b: nat, c: nat, k: nat, pk: nat, d: nat, pd: nat)
    requires a * k <= b * d && b * pk <= c * pd
    ensures a * (k * pk) <= c * (d * pd)
  {
    MulLe(a * k, b * d, pk);
    MulLe(b * pk, c * pd, d);
    assert a * (k * pk) == (a * k) * pk;
    assert (b * d) * pk == (b * pk) * d;
    assert (c * pd) * d == c * (d * pd);
  }

  function ReleaseEpochMs(s: State): int { s.econ.treasuryCfg.releaseEpochSeconds * 1_000 }

  /** No deadline computed from a time of the run leaves the int64 range. */
  predicate DeadlinesFit(epochMs: int, from: int, txs: seq<Tx>) {
    from + epochMs < TWO_63 && forall i :: 0 <= i < |txs| ==> txs[i].now + epochMs < TWO_63
  }

  /** A release after an earlier one has waited a full epoch, if its deadline fits. */
  lemma ReleaseWaited(c: TreasuryConfig, t: Treasury, actor: Address, now: i64, amount: u64)
    requires Economy.ReleaseTranche(c, t, actor, now, amount).Ok?
    requires 0 < c.releaseEpochSeconds && 0 < t.lastReleaseMs
    requires t.lastReleaseMs + c.releaseEpochSeconds * 1_000 < TWO_63
    ensures t.lastReleaseMs + c.releaseEpochSeconds * 1_000 <= now
  {
    DeadlineExact(t.lastReleaseMs, c.releaseEpochSeconds);
  }

  /** Each time is at least i epochs after the first. */
  ghost predicate Spaced(ts: seq<int>, e: int) {
    forall i :: 0 <= i < |ts| ==> ts[0] + i * e <= ts[i]
  }

  /** Releases are at least an epoch apart, so n releases span at least n - 1 epochs. */
  lemma {:induction false} ReleasesSpaced(sha: Hash, s: State, txs: seq<Tx>, from: int)
    requires 0 < ReleaseEpochMs(s) && 0 <= s.econ.treasury.lastReleaseMs && Timed(from, txs)
    requires DeadlinesFit(ReleaseEpochMs(s), s.econ.treasury.lastReleaseMs, txs)
    ensures Spaced(ReleaseTimes(sha, s, txs), ReleaseEpochMs(s))
    ensures var ts, last := ReleaseTimes(sha, s, txs), s.econ.treasury.lastReleaseMs;
            ts != [] && last > 0 ==> last + ReleaseEpochMs(s) <= ts[0]
    decreases |txs|
  {
    if txs != [] {
      var tx, s1, rest := txs[0], Apply(sha, s, txs[0]), txs[1..];
      if Execute(sha, s, tx).Ok? { EconFrame(sha, s, tx); }
      assert forall i :: 0 <= i < |rest| ==> rest[i] == txs[i + 1];
      assert s1.econ.treasuryCfg == s.econ.treasuryCfg;
      assert s1.econ.treasury.lastReleaseMs == if IsRelease(sha, s, tx) then tx.now else s.econ.treasury.lastReleaseMs;
      ReleasesSpaced(sha, s1, rest, tx.now);
      if IsRelease(sha, s, tx) {
        if s.econ.treasury.lastReleaseMs > 0 {
          ReleaseWaited(s.econ.treasuryCfg, s.econ.treasury, tx.actor, tx.now, tx.action.amount);
        }
        PrependSpaced(tx.now, ReleaseTimes(sha, s1, rest), ReleaseEpochMs(s));
      }
    }
  }

  lemma PrependSpaced(t: int, ts: seq<int>, e: int)
    requires Spaced(ts, e) && (ts != [] ==> t + e <= ts[0])
    ensures Spaced([t] + ts, e)
  {
    forall i | 0 <= i < |ts| + 1
      ensures t + i * e <= ([t] + ts)[i]
    {
      if i > 0 {
        assert ts[0] + (i - 1) * e <= ts[i - 1];
        assert i * e == (i - 1) * e + e;
      }
    }
  }

  // ----- Mint throttle -----

  predicate IsMint(sha: Hash, s: State, tx: Tx) {
    tx.action.MintVai? && Execute(sha, s, tx).Ok?
  }

  /** VAI minted by a run at times in [from, from + length). */
  function MintedIn(sha: Hash, s: State, txs: seq<Tx>, from: int, length: int): nat
    decreases |txs|
  {
    if txs == [] then 0
    else (if IsMint(sha, s, txs[0]) && from <= txs[0].now < from + length then txs[0].action.amount else 0)
         + MintedIn(sha, Apply(sha, s, txs[0]), txs[1..], from, length)
  }

  function MintEpochMs(s: State): int { s.econ.vaiCfg.mintEpochSeconds * 1_000 }

  /** The epoch bookkeeping: the epoch began no later than `last`, and has minted something once it began. */
  predicate EpochOk(s: State, last: int) {
    var v := s.econ.vai;
    && 0 <= v.epochStart <= last && v.epochMinted <= s.econ.vaiCfg.epochMintLimit
    && (v.epochStart == 0 <==> v.epochMinted == 0)
  }

  /** What may still be minted in the window that opens at t, given the current epoch. */
  function Allowance(s: State, last: int, t: int): int {
    var v, limit := s.econ.vai, s.econ.vaiCfg.epochMintLimit;
    if last < t then 2 * limit - 1
    else if v.epochStart == 0 then limit
    else if v.epochStart >= t then limit - v.epochMinted
    else 2 * limit - v.epochMinted
  }

  lemma {:induction false} NothingMintedLater(sha: Hash, s: State, txs: seq<Tx>, t: int, e: int, last: int)
    requires Timed(last, txs) && t + e <= last
    ensures MintedIn(sha, s, txs, t, e) == 0
    decreases |txs|
  {
    if txs != [] { NothingMintedLater(sha, Apply(sha, s, txs[0]), txs[1..], t, e, txs[0].now); }
  }

  /** A mint counts into the current epoch and stays within its limit. */
  lemma MintCounts(c: VaiConfig, v: Vai, risk: Risk, reserve: Reserve, actor: Address, now: i64, amount: u64)
    requires Mint(c, v, risk, reserve, actor, now, amount).Ok?
    ensures var e, w := CurrentEpoch(c, v, now), Mint(c, v, risk, reserve, actor, now, amount).value;
            && w.epochStart == e.epochStart && w.epochMinted == e.epochMinted + amount <= c.epochMintLimit
            && w.totalDebt == v.totalDebt + amount <= c.debtCeiling
  {
  }

  /** How one mint moves the epoch. */
  lemma MintStep(c: VaiConfig, v: Vai, risk: Risk, reserve: Reserve, actor: Address, now: i64, amount: u64)
    requires Mint(c, v, risk, reserve, actor, now, amount).Ok?
    requires 0 < c.mintEpochSeconds && 0 <= v.epochStart <= now && 0 < now && now + c.mintEpochSeconds * 1_000 < TWO_63
    ensures var w := Mint(c, v, risk, reserve, actor, now, amount).value;
            && w.epochMinted <= c.epochMintLimit
            && if v.epochStart == 0 then w.epochStart == now && w.epochMinted == v.epochMinted + amount
               else if v.epochStart + c.mintEpochSeconds * 1_000 <= now then
                 w.epochStart == now && w.epochMinted == amount
               else w.epochStart == v.epochStart && w.epochMinted == v.epochMinted + amount
  {
    DeadlineExact(if v.epochStart == 0 then now else v.epochStart, c.mintEpochSeconds);
    MintCounts(c, v, risk, reserve, actor, now, amount);
  }

  /** One step of a run, as the mint throttle sees it. */
  lemma ThrottleStep(sha: Hash, s: State, txs: seq<Tx>, last: int)
    requires txs != [] && EpochOk(s, last) && Timed(last, txs)
    requires 0 < MintEpochMs(s) && DeadlinesFit(MintEpochMs(s), last, txs)
    ensures var s1 := Apply(sha, s, txs[0]);
            && EpochOk(s1, txs[0].now) && s1.econ.vaiCfg == s.econ.vaiCfg
            && DeadlinesFit(MintEpochMs(s), txs[0].now, txs[1..])
            && var v, w, now := s.econ.vai, s1.econ.vai, txs[0].now;
               if !IsMint(sha, s, txs[0]) then w.epochStart == v.epochStart && w.epochMinted == v.epochMinted
               else var amount := txs[0].action.amount;
                    if v.epochStart == 0 || v.epochStart + MintEpochMs(s) <= now
                    then w.epochStart == now && w.epochMinted == amount
                    else w.epochStart == v.epochStart && w.epochMinted == v.epochMinted + amount
  {
    var tx, rest := txs[0], txs[1..];
    assert forall i :: 0 <= i < |rest| ==> rest[i] == txs[i + 1];
    if Execute(sha, s, tx).Ok? { EconFrame(sha, s, tx); }
    if IsMint(sha, s, tx) {
      MintStep(s.econ.vaiCfg, s.econ.vai, s.econ.risk, s.econ.reserve, tx.actor, tx.now, tx.action.amount);
    }
  }

  /** Induction over the run: the window's mints never exceed the allowance. */
  lemma {:induction false} MintedWithinAllowance(sha: Hash, s: State, txs: seq<Tx>, last: int, t: int)
    requires EpochOk(s, last) && Timed(last, txs) && 0 < MintEpochMs(s) && DeadlinesFit(MintEpochMs(s), last, txs)
    requires 1 <= s.econ.vaiCfg.epochMintLimit
    ensures MintedIn(sha, s, txs, t, MintEpochMs(s)) <= Allowance(s, last, t)
    decreases |txs|
  {
    if txs != [] {
      var tx, s1, rest := txs[0], Apply(sha, s, txs[0]), txs[1..];
      ThrottleStep(sha, s, txs, last);
      MintedWithinAllowance(sha, s1, rest, tx.now, t);
      if t + MintEpochMs(s) <= tx.now { NothingMintedLater(sha, s1, rest, t, MintEpochMs(s), tx.now); }
    }
  }

  lemma {:induction false} EpochNeverMovesBack(sha: Hash, s: State, txs: seq<Tx>, last: int)
    requires EpochOk(s, last) && Timed(last, txs) && 0 < MintEpochMs(s) && DeadlinesFit(MintEpochMs(s), last, txs)
    ensures s.econ.vai.epochStart <= Run(sha, s, txs).econ.vai.epochStart
    decreases |txs|
  {
    if txs != [] {
      ThrottleStep(sha, s, txs, last);
      EpochNeverMovesBack(sha, Apply(sha, s, txs[0]), txs[1..], txs[0].now);
    }
  }

  /** While one epoch lasts, its counter is exactly what was minted, so an epoch mints at most its limit. */
  lemma {:induction false} MintedInEpoch(sha: Hash, s: State, txs: seq<Tx>, last: int)
    requires EpochOk(s, last) && Timed(last, txs) && 0 < MintEpochMs(s) && DeadlinesFit(MintEpochMs(s), last, txs)
    requires s.econ.vai.epochStart != 0 && Run(sha, s, txs).econ.vai.epochStart == s.econ.vai.epochStart
    ensures s.econ.vai.epochMinted + MintedIn(sha, s, txs, s.econ.vai.epochStart, MintEpochMs(s))
            == Run(sha, s, txs).econ.vai.epochMinted <= s.econ.vaiCfg.epochMintLimit
    decreases |txs|
  {
    if txs != [] {
      var s1 := Apply(sha, s, txs[0]);
      ThrottleStep(sha, s, txs, last);
      EpochNeverMovesBack(sha, s1, txs[1..], txs[0].now);
      MintedInEpoch(sha, s1, txs[1..], txs[0].now);
    }
  }

  /** The mint's conditions apart from its epoch. */
  ghost predicate Mintable(c: VaiConfig, debt: int, risk: Risk, reserve: Reserve, now: int, amount: int) {
    && 0 < amount <= c.epochMintLimit && debt + amount <= c.debtCeiling
    && ValidRisk(risk) && (debt + amount) * risk.backingFloorBips <= reserve.exogenous * BIPS
    && 0 < c.mintEpochSeconds && 0 < now && now + c.mintEpochSeconds * 1_000 < TWO_63
  }

  /** Such a mint succeeds when the current epoch has room. */
  lemma MintSucceeds(c: VaiConfig, v: Vai, risk: Risk, reserve: Reserve, now: i64, amount: u64)
    requires Mintable(c, v.totalDebt, risk, reserve, now, amount)
    requires CurrentEpoch(c, v, now).epochMinted + amount <= c.epochMintLimit
    ensures var e := CurrentEpoch(c, v, now);
            Mint(c, v, risk, reserve, c.mintAuthority, now, amount)
            == Ok(Vai(v.totalDebt + amount, e.epochStart, e.epochMinted + amount))
  {
    var debt: u64 := v.totalDebt + amount;
    assert Backed(debt, risk, reserve);
  }

  lemma MintOpensEpoch(c: VaiConfig, v: Vai, risk: Risk, reserve: Reserve, now: i64, amount: u64)
    requires Mintable(c, v.totalDebt, risk, reserve, now, amount)
    requires || (v.epochStart == 0 && v.epochMinted == 0)
             || (0 < v.epochStart && v.epochStart + c.mintEpochSeconds * 1_000 <= now)
    ensures Mint(c, v, risk, reserve, c.mintAuthority, now, amount) == Ok(Vai(v.totalDebt + amount, now, amount))
  {
    DeadlineExact(if v.epochStart == 0 then now else v.epochStart, c.mintEpochSeconds);
    MintSucceeds(c, v, risk, reserve, now, amount);
  }

  lemma MintContinuesEpoch(c: VaiConfig, v: Vai, risk: Risk, reserve: Reserve, now: i64, amount: u64)
    requires Mintable(c, v.totalDebt, risk, reserve, now, amount) && v.epochMinted + amount <= c.epochMintLimit
    requires 0 < v.epochStart <= now < v.epochStart + c.mintEpochSeconds * 1_000
    ensures Mint(c, v, risk, reserve, c.mintAuthority, now, amount)
            == Ok(Vai(v.totalDebt + amount, v.epochStart, v.epochMinted + amount))
  {
    DeadlineExact(v.epochStart, c.mintEpochSeconds);
    MintSucceeds(c, v, risk, reserve, now, amount);
  }

  // ----- Backing floor -----

  predicate IsBacked(s: State) { Backed(s.econ.vai.totalDebt, s.econ.risk, s.econ.reserve) }

  /** Only governance can break the backing floor, and every mint leaves it restored. */
  lemma BackingStep(sha: Hash, s: State, tx: Tx)
    requires Execute(sha, s, tx).Ok?
    ensures IsBacked(s) && !IsBacked(Execute(sha, s, tx).value) ==>
              (tx.action.UpdateReserve? || tx.action.SetRiskParams?) && IsGovernance(s, tx.actor)
    ensures tx.action.MintVai? ==> IsBacked(Execute(sha, s, tx).value)
  {
    EconFrame(sha, s, tx);
    if tx.action.BurnVai? {
      MulLe(s.econ.vai.totalDebt - tx.action.amount, s.econ.vai.totalDebt, s.econ.risk.backingFloorBips);
    }
  }

  /** The RPC's floored, saturating ratio gives the same verdict as the mint's exact test. */
  lemma ReportAgrees(debt: u64, risk: Risk, reserve: Reserve)
    ensures ReportsMeetsFloor(debt, risk, reserve) <==> Backed(debt, risk, reserve)
  {
    if debt > 0 {
      var num, floor := reserve.exogenous * BIPS, risk.backingFloorBips;
      var q := num / debt;
      QuotientBounds(num, debt);
      assert debt * floor == floor * debt;
      if floor <= q { MulLe(floor, q, debt); } else { MulLe(q + 1, floor, debt); }
    }
  }

  /** The reported ratio is the floored quotient in bips, the largest word if that does not fit, and 0 without debt. */
  lemma ReportExact(debt: u64, reserve: Reserve)
    ensures var r, num := ReportedRatio(debt, reserve), reserve.exogenous * 10_000;
            if debt == 0 then r == 0
            else if TWO_64 * debt <= num then r == MAX_U64
            else r * debt <= num < r * debt + debt
  {
    if debt > 0 {
      var num: int, d: int := reserve.exogenous * 10_000, debt;
      QuotientBounds(num, d);
      if TWO_64 <= num / d { MulLe(TWO_64, num / d, d); }
      if TWO_64 * d <= num && num / d < TWO_64 { MulLe(num / d + 1, TWO_64, d); }
    }
  }
}
