/** Treasury releases, fee routing and the VAI stablecoin. */
module Economy {
  import opened Words

  datatype TreasuryConfig =
    TreasuryConfig(governance: Address, operations: Address, maxReleaseBips: u16, releaseEpochSeconds: i64)
  datatype Treasury = Treasury(locked: u64, live: u64, released: u64, lastReleaseMs: i64)
  datatype FeeConfig = FeeConfig(msrbBips: u16, colBips: u16, opsBips: u16)
  datatype Fees = Fees(msrb: u64, col: u64, ops: u64)
  datatype VaiConfig =
    VaiConfig(mintAuthority: Address, debtCeiling: u64, epochMintLimit: u64, mintEpochSeconds: i64)
  datatype Vai = Vai(totalDebt: u64, epochStart: i64, epochMinted: u64)
  datatype Risk = Risk(
    backingFloorBips: u32,
    veilLtv: u16, wveilLtv: u16, wsveilLtv: u16,
    veilHaircut: u16, wveilHaircut: u16, wsveilHaircut: u16)
  datatype Reserve = Reserve(exogenous: u64, vaiBuffer: u64)

  predicate ValidRisk(r: Risk) {
    && r.backingFloorBips != 0
    && r.veilLtv <= BIPS && r.wveilLtv <= BIPS && r.wsveilLtv == 0
    && r.veilHaircut <= BIPS && r.wveilHaircut <= BIPS && r.wsveilHaircut <= BIPS
  }

  predicate ValidFeeConfig(c: FeeConfig) { c.msrbBips + c.colBips + c.opsBips == BIPS }

  // ----- COL treasury -----

  /** The earliest next release, in 64-bit signed arithmetic. */
  function NextRelease(c: TreasuryConfig, t: Treasury): i64 {
    WrapI64(t.lastReleaseMs + WrapI64(c.releaseEpochSeconds * 1_000))
  }

  /** The largest release allowed now; the product is a 64-bit word. */
  function ReleaseCap(c: TreasuryConfig, t: Treasury): u64 {
    WrapMul(t.locked, c.maxReleaseBips) / BIPS
  }

  function ReleaseTranche(c: TreasuryConfig, t: Treasury, actor: Address, now: i64, amount: u64): Result<Treasury> {
    if amount == 0 then Err(InvalidReleaseAmount)
    else if actor != c.governance then Err(Unauthorized)
    else if t.lastReleaseMs > 0 && now < NextRelease(c, t) then Err(ReleaseTooEarly)
    else if amount > t.locked then Err(InsufficientLockedCOL)
    else if ReleaseCap(c, t) == 0 || amount > ReleaseCap(c, t) then Err(ReleaseCapExceeded)
    else
      var live :- CheckedAdd(t.live, amount);
      var released :- CheckedAdd(t.released, amount);
      Ok(Treasury(t.locked - amount, live, released, now))
  }

  // ----- Fee router -----

  /** One share of the amount, with the 64-bit product. */
  function Share(bips: u16, amount: u64): u64 { WrapMul(bips, amount) / BIPS }

  /** What is left for operations, as a 64-bit word. */
  function OpsShare(c: FeeConfig, amount: u64): u64 {
    (amount - Share(c.msrbBips, amount) - Share(c.colBips, amount)) % TWO_64
  }

  function RouteFees(c: FeeConfig, f: Fees, amount: u64): Result<Fees> {
    var msrb :- CheckedAdd(f.msrb, Share(c.msrbBips, amount));
    var col :- CheckedAdd(f.col, Share(c.colBips, amount));
    var ops :- CheckedAdd(f.ops, OpsShare(c, amount));
    Ok(Fees(msrb, col, ops))
  }

  // ----- VAI -----

  function EpochEnd(c: VaiConfig, start: i64): i64 {
    WrapI64(start + WrapI64(c.mintEpochSeconds * 1_000))
  }

  /** The accounting epoch a mint at time `now` falls into. */
  function CurrentEpoch(c: VaiConfig, v: Vai, now: i64): Vai {
    var start := if v.epochStart == 0 then now else v.epochStart;
    if now >= EpochEnd(c, start) then v.(epochStart := now, epochMinted := 0) else v.(epochStart := start)
  }

  /** The mint-side backing test, by cross-multiplication. */
  predicate Backed(debt: u64, risk: Risk, reserve: Reserve) {
    debt * risk.backingFloorBips <= reserve.exogenous * BIPS
  }

  function Mint(c: VaiConfig, v: Vai, risk: Risk, reserve: Reserve, actor: Address, now: i64, amount: u64)
    : Result<Vai>
  {
    if amount == 0 then Err(InvalidVAIAmount)
    else if actor != c.mintAuthority then Err(Unauthorized)
    else
      var e := CurrentEpoch(c, v, now);
      var minted :- CheckedAdd(e.epochMinted, amount);
      :- Need(minted <= c.epochMintLimit, EpochMintLimitExceeded);
      var debt :- CheckedAdd(v.totalDebt, amount);
      :- Need(debt <= c.debtCeiling, DebtCeilingExceeded);
      :- Need(ValidRisk(risk), InvalidRiskConfig);
      :- Need(debt == 0 || Backed(debt, risk, reserve), BackingRatioViolation);
      Ok(Vai(debt, e.epochStart, minted))
  }

  function Burn(v: Vai, amount: u64): Result<Vai> {
    if amount > v.totalDebt then Err(DebtInvariant) else Ok(v.(totalDebt := v.totalDebt - amount))
  }

  /** The ratio the RPC reports: floored, and saturated at the largest word. */
  function ReportedRatio(debt: u64, reserve: Reserve): u64 {
    if debt == 0 then 0
    else
      QuotientBounds(reserve.exogenous * BIPS, debt);
      var ratio := reserve.exogenous * BIPS / debt;
      if ratio <= MAX_U64 then ratio else MAX_U64
  }

  /** The RPC-side backing test. */
  predicate ReportsMeetsFloor(debt: u64, risk: Risk, reserve: Reserve) {
    debt == 0 || ReportedRatio(debt, reserve) >= risk.backingFloorBips
  }
}
