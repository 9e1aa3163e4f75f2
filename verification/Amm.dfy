/** The constant-product pool between VEIL and VAI, and the accounts around it. */
module Amm {
  import opened Words
  import opened Balances
  import opened IntegerRoot
  import opened Nonlinear

  const VEIL: u8 := 0
  const VAI: u8 := 1
  const MIN_FEE_BIPS: u16 := 1
  const MAX_FEE_BIPS: u16 := 1_000

  datatype Pool = Pool(asset0: u8, asset1: u8, feeBips: u16, reserve0: u64, reserve1: u64, totalLp: u64)

  /**
   The token part of the store. Only VEIL and VAI are supported and a pair has two different assets,
   so the pool key has one possible value and the pool is an option rather than a map.
   */
  datatype Bank = Bank(veil: Accounts, vai: Accounts, lp: Accounts, pool: Option<Pool>)

  predicate Supported(asset: u8) { asset == VEIL || asset == VAI }

  function ValidatePair(a: u8, b: u8): Check {
    if !Supported(a) || !Supported(b) then Fail(UnsupportedAsset)
    else if a == b then Fail(InvalidAssetPair)
    else Pass
  }

  function SortedPair(a: u8, b: u8): (u8, u8) {
    if a <= b then (a, b) else (b, a)
  }

  /** Amounts given for (a, b), in the pool's own order. */
  function PairToPool(p: Pool, a: u8, b: u8, x: u64, y: u64): Result<(u64, u64)> {
    if a == p.asset0 && b == p.asset1 then Ok((x, y))
    else if a == p.asset1 && b == p.asset0 then Ok((y, x))
    else Err(InvalidAssetPair)
  }

  /** Amounts in the pool's order, as (a, b). */
  function PoolToPair(p: Pool, a: u8, b: u8, x: u64, y: u64): Result<(u64, u64)> {
    if a == p.asset0 && b == p.asset1 then Ok((x, y))
    else if a == p.asset1 && b == p.asset0 then Ok((y, x))
    else Err(InvalidAssetPair)
  }

  function DebitAsset(b: Bank, who: Address, asset: u8, amount: u64): Result<Bank> {
    if asset == VEIL then var m :- Debit(b.veil, who, amount); Ok(b.(veil := m))
    else if asset == VAI then var m :- Debit(b.vai, who, amount); Ok(b.(vai := m))
    else Err(UnsupportedAsset)
  }

  function CreditAsset(b: Bank, who: Address, asset: u8, amount: u64): Result<Bank> {
    if asset == VEIL then var m :- Credit(b.veil, who, amount); Ok(b.(veil := m))
    else if asset == VAI then var m :- Credit(b.vai, who, amount); Ok(b.(vai := m))
    else Err(UnsupportedAsset)
  }

  function GetPool(b: Bank): Result<Pool> {
    if b.pool.None? then Err(PoolNotFound) else Ok(b.pool.value)
  }

  // ----- Transfer and fees -----

  function Transfer(b: Bank, from: Address, to: Address, value: u64, memoLength: nat): Result<Bank> {
    if value == 0 then Err(InvalidValue)
    else if memoLength > 256 then Err(MemoTooLarge)
    else
      var taken :- DebitAsset(b, from, VEIL, value);
      CreditAsset(taken, to, VEIL, value)
  }

  // ----- Pool operations -----

  function CreatePool(b: Bank, authorized: bool, a0: u8, a1: u8, feeBips: u16): Result<Bank> {
    var supported := ValidatePair(a0, a1);
    :- supported;
    :- Need(MIN_FEE_BIPS <= feeBips <= MAX_FEE_BIPS, InvalidPoolFee);
    :- Need(authorized, Unauthorized);
    :- Need(b.pool.None?, PoolExists);
    var (lo, hi) := SortedPair(a0, a1);
    Ok(b.(pool := Some(Pool(lo, hi, feeBips, 0, 0, 0))))
  }

  /** LP tokens minted for a deposit of (x, y), before the slippage check. */
  function LpFor(p: Pool, x: u64, y: u64): Result<u64> {
    if p.totalLp == 0 then
      var product :- CheckedMul(x, y);
      if product == MAX_U64 then Err(DivisionByZero)
      else
        RootFits(product);
        Ok(FloorRoot(product))
    else if p.reserve0 == 0 || p.reserve1 == 0 then Err(InsufficientLiquidity)
    else
      var lp0 :- MulDiv(x, p.totalLp, p.reserve0);
      var lp1 :- MulDiv(y, p.totalLp, p.reserve1);
      Ok(if lp0 < lp1 then lp0 else lp1)
  }

  lemma RootFits(n: u64)
    ensures FloorRoot(n) <= n
  {
    var r := FloorRoot(n);
    if r >= 1 { MulLe(1, r, r); }
  }

  function Deposit(p: Pool, x: u64, y: u64, minted: u64): Result<Pool> {
    var r0 :- CheckedAdd(p.reserve0, x);
    var r1 :- CheckedAdd(p.reserve1, y);
    var lp :- CheckedAdd(p.totalLp, minted);
    Ok(p.(reserve0 := r0, reserve1 := r1, totalLp := lp))
  }

  function AddLiquidity(b: Bank, actor: Address, a0: u8, a1: u8, amount0: u64, amount1: u64, minLp: u64)
    : Result<Bank>
  {
    var supported := ValidatePair(a0, a1);
    :- supported;
    :- Need(amount0 != 0 && amount1 != 0, InvalidLiquidityAmount);
    var p :- GetPool(b);
    var (x, y) :- PairToPool(p, a0, a1, amount0, amount1);
    var b1 :- DebitAsset(b, actor, a0, amount0);
    var b2 :- DebitAsset(b1, actor, a1, amount1);
    var minted :- LpFor(p, x, y);
    :- Need(minted != 0 && minted >= minLp, SlippageExceeded);
    var next :- Deposit(p, x, y, minted);
    var lp :- Credit(b.lp, actor, minted);
    Ok(b2.(pool := Some(next), lp := lp))
  }

  /** What burning `lp` tokens pays out, in the pool's order. */
  function WithdrawalFor(p: Pool, lp: u64): Result<(u64, u64)> {
    var out0 :- MulDiv(lp, p.reserve0, p.totalLp);
    var out1 :- MulDiv(lp, p.reserve1, p.totalLp);
    :- Need(out0 != 0 && out1 != 0, InsufficientLiquidity);
    Ok((out0, out1))
  }

  function Withdraw(p: Pool, lp: u64, out0: u64, out1: u64): Result<Pool> {
    var r0 :- CheckedSub(p.reserve0, out0);
    var r1 :- CheckedSub(p.reserve1, out1);
    var rest :- CheckedSub(p.totalLp, lp);
    Ok(p.(reserve0 := r0, reserve1 := r1, totalLp := rest))
  }

  function RemoveLiquidity(b: Bank, actor: Address, a0: u8, a1: u8, lp: u64, min0: u64, min1: u64)
    : Result<Bank>
  {
    var supported := ValidatePair(a0, a1);
    :- supported;
    :- Need(lp != 0, InvalidLiquidityAmount);
    var p :- GetPool(b);
    :- Need(p.totalLp != 0 && p.reserve0 != 0 && p.reserve1 != 0, InsufficientLiquidity);
    :- Need(lp <= Balance(b.lp, actor), InsufficientLPBalance);
    var (out0, out1) :- WithdrawalFor(p, lp);
    var (least0, least1) :- PairToPool(p, a0, a1, min0, min1);
    :- Need(least0 <= out0 && least1 <= out1, SlippageExceeded);
    var next :- Withdraw(p, lp, out0, out1);
    var shares :- Debit(b.lp, actor, lp);
    var b1 :- CreditAsset(b.(pool := Some(next), lp := shares), actor, p.asset0, out0);
    CreditAsset(b1, actor, p.asset1, out1)
  }

  /** Whether assetIn is the pool's first asset. */
  function SwapDirection(p: Pool, assetIn: u8, assetOut: u8): Result<bool> {
    if p.asset0 == assetIn && p.asset1 == assetOut then Ok(true)
    else if p.asset0 == assetOut && p.asset1 == assetIn then Ok(false)
    else Err(InvalidAssetPair)
  }

  /** The constant-product output for amountIn after the fee, rounded down twice. */
  function SwapOutput(reserveIn: u64, reserveOut: u64, feeBips: u16, amountIn: u64, minOut: u64): Result<u64> {
    var paid :- MulDiv(amountIn, (10_000 - feeBips) % 0x1_0000, 10_000);
    :- Need(paid != 0, InvalidSwapAmount);
    var den :- CheckedAdd(reserveIn, paid);
    var out :- MulDiv(reserveOut, paid, den);
    :- Need(out != 0 && out >= minOut, SlippageExceeded);
    :- Need(out <= reserveOut, InsufficientLiquidity);
    Ok(out)
  }

  function Trade(p: Pool, zeroForOne: bool, amountIn: u64, amountOut: u64): Result<Pool> {
    if zeroForOne then
      var r0 :- CheckedAdd(p.reserve0, amountIn);
      var r1 :- CheckedSub(p.reserve1, amountOut);
      Ok(p.(reserve0 := r0, reserve1 := r1))
    else
      var r1 :- CheckedAdd(p.reserve1, amountIn);
      var r0 :- CheckedSub(p.reserve0, amountOut);
      Ok(p.(reserve0 := r0, reserve1 := r1))
  }

  function SwapExactIn(b: Bank, actor: Address, assetIn: u8, assetOut: u8, amountIn: u64, minOut: u64)
    : Result<Bank>
  {
    var supported := ValidatePair(assetIn, assetOut);
    :- supported;
    :- Need(amountIn != 0, InvalidSwapAmount);
    var p :- GetPool(b);
    var forward :- SwapDirection(p, assetIn, assetOut);
    var reserveIn, reserveOut := if forward then p.reserve0 else p.reserve1, if forward then p.reserve1 else p.reserve0;
    :- Need(reserveIn != 0 && reserveOut != 0, InsufficientLiquidity);
    var b1 :- DebitAsset(b, actor, assetIn, amountIn);
    var out :- SwapOutput(reserveIn, reserveOut, p.feeBips, amountIn, minOut);
    var next :- Trade(p, forward, amountIn, out);
    CreditAsset(b1.(pool := Some(next)), actor, assetOut, out)
  }
}
