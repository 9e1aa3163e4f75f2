/** Machine words, checked arithmetic and the outcome type every action returns. */
module Words {

  const MAX_U64: int := 0xFFFF_FFFF_FFFF_FFFF
  const TWO_64: int := 0x1_0000_0000_0000_0000
  const TWO_63: int := 0x8000_0000_0000_0000
  const BIPS: int := 10_000

  type u8 = x: int | 0 <= x < 0x100
  type u16 = x: int | 0 <= x < 0x1_0000
  type u32 = x: int | 0 <= x < 0x1_0000_0000
  type u64 = x: int | 0 <= x < 0x1_0000_0000_0000_0000
  type i64 = x: int | -0x8000_0000_0000_0000 <= x < 0x8000_0000_0000_0000

  type Bytes = seq<u8>
  /** A market or transaction identifier. */
  type Id = b: Bytes | |b| == 32 witness seq(32, _ => 0)
  /** An account address: a type byte and a 32-byte body. */
  type Address = b: Bytes | |b| == 33 witness seq(33, _ => 0)
  /** A SHA-256 result. */
  type Digest = b: Bytes | |b| == 32 witness seq(32, _ => 0)

  datatype Option<+T> = None | Some(value: T)

  datatype Error =
    | Overflow
    | DivisionByZero
    | InvalidBalance
    | Unauthorized
    | InvalidValue
    | MemoTooLarge
    | UnsupportedAsset
    | InvalidAssetPair
    | InvalidPoolFee
    | PoolNotFound
    | PoolExists
    | InvalidLiquidityAmount
    | InvalidSwapAmount
    | InsufficientLiquidity
    | InsufficientLPBalance
    | SlippageExceeded
    | InvalidTokenomicsConfig
    | InvalidFeeRouterConfig
    | InvalidFeeAmount
    | InvalidReleaseAmount
    | InsufficientLockedCOL
    | ReleaseTooEarly
    | ReleaseCapExceeded
    | InvalidVAIAmount
    | DebtCeilingExceeded
    | EpochMintLimitExceeded
    | DebtInvariant
    | BackingRatioViolation
    | InvalidRiskConfig
    | InvalidReserveState
    | InvalidOutcomes
    | InvalidResolutionTime
    | BondZero
    | TooLarge
    | Empty
    | WrongSize
    | MarketNotFound
    | MarketExists
    | MarketNotActive
    | MarketNotResolved
    | InvalidOutcome
    | ClearPriceZero
    | InvalidProofConfig
    | InvalidProofEnvelope
    | ProofNotFound
    | ProofAlreadySubmitted
    | ProofTypeMismatch
    | ProofCircuitMismatch
    | UnsupportedProofCircuit
    | ProofDeadlineMissed
    | ProofFillsMismatch
    | ProofCommitmentMismatch
    | ProofPublicInputsMismatch
    | ProofVerifierUnavailable
    | ProofVerificationFailed
    | VellumProofNotFound
    | InvalidVellumProof
    | InvalidGlyph
    | InvalidBloodsworn
    | InvalidData

  datatype Result<+T> = Ok(value: T) | Err(error: Error) {
    predicate IsFailure() { Err? }

    function PropagateFailure<U>(): Result<U>
      requires Err?
    {
      Err(error)
    }

    function Extract(): T
      requires Ok?
    {
      value
    }
  }

  /** The outcome of a check that yields no value. */
  datatype Check = Pass | Fail(error: Error) {
    predicate IsFailure() { Fail? }

    function PropagateFailure<U>(): Result<U>
      requires Fail?
    {
      Err(error)
    }
  }

  function Need(condition: bool, error: Error): Check {
    if condition then Pass else Fail(error)
  }

  /** 64-bit addition that reports overflow. */
  function CheckedAdd(a: u64, b: u64): Result<u64> {
    if a + b <= MAX_U64 then Ok(a + b) else Err(Overflow)
  }

  /** 64-bit subtraction that reports underflow. */
  function CheckedSub(a: u64, b: u64): Result<u64> {
    if b <= a then Ok(a - b) else Err(Overflow)
  }

  /** 64-bit multiplication that reports overflow. */
  function CheckedMul(a: u64, b: u64): Result<u64> {
    if a * b <= MAX_U64 then
      assert 0 <= a * b by { ProductNonNegative(a, b); }
      Ok(a * b)
    else Err(Overflow)
  }

  lemma ProductNonNegative(a: int, b: int)
    requires 0 <= a && 0 <= b
    ensures 0 <= a * b
  {
  }

  /** Multiplication as the hardware does it: modulo 2^64. */
  function WrapMul(a: u64, b: u64): u64 { a * b % TWO_64 }

  /** The int64 that a 64-bit signed computation with mathematical result x leaves. */
  function WrapI64(x: int): i64 {
    (x + TWO_63) % TWO_64 - TWO_63
  }

  /** Unbounded product, floor division, failure when the quotient does not fit. */
  function MulDiv(a: u64, b: u64, den: u64): Result<u64> {
    if den == 0 then Err(DivisionByZero)
    else if a * b / den <= MAX_U64 then
      assert 0 <= a * b / den by { QuotientBounds(a * b, den); }
      Ok(a * b / den)
    else Err(Overflow)
  }

  /** Floor division, without division: what q == n / d means. */
  lemma QuotientBounds(n: int, d: int)
    requires d > 0
    ensures n / d * d <= n < n / d * d + d
    ensures n >= 0 ==> 0 <= n / d
  {
    assert n == n / d * d + n % d;
  }
}
