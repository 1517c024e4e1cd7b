/** knight/src/arbitrage/calculator.cpp with intx registers: every operator wraps at the
    width the source gives it. */
module Calculator {
  import opened Common
  import opened Domain
  import opened IntegerSqrt

  const FEE_NUMERATOR: nat := 997
  const FEE_DENOMINATOR: nat := 1000
  const BPS_DENOMINATOR: nat := 10000

  datatype RouteQuote = RouteQuote(amountInB: U256, amountOutA: U256, amountOutB: U256)

  // ---------------------------------------------------------------- quotes

  function AmountOut(amountIn: U256, reserveIn: U256, reserveOut: U256): (r: Option<U256>)
  {
    if amountIn == 0 || reserveIn == 0 || reserveOut == 0 then None
    else
      var amountInWithFee := Wrap(WORD, amountIn * FEE_NUMERATOR);
      var denominator := Wrap(WORD, Wrap(WORD, reserveIn * FEE_DENOMINATOR) + amountInWithFee);
      if denominator == 0 then None
      else Some(Quotient(MulIn(WORD, amountInWithFee, reserveOut), denominator))
  }

  function ApplyBps(value: U256, bps: nat): (r: U256)
    ensures bps <= BPS_DENOMINATOR ==> r <= value
  {
    var product := Wrap(WORD, value * bps);
    QuotientAtMost(product, value, bps);
    Quotient(product, BPS_DENOMINATOR)
  }

  lemma QuotientAtMost(product: nat, value: nat, bps: nat)
    requires product <= value * bps
    ensures bps <= BPS_DENOMINATOR ==> Quotient(product, BPS_DENOMINATOR) <= value
  {
    QuotientFloors(product, BPS_DENOMINATOR);
    if bps <= BPS_DENOMINATOR {
      assert value * bps <= value * BPS_DENOMINATOR;
    }
  }

  function ApplyVictimSwap(snapshot: PoolSnapshot, swap: Swap): (r: Option<PoolSnapshot>)
    ensures r.Some? ==> r.value.pool == snapshot.pool
  {
    match swap
    case SwapExactAForB(amountIn, minAmountOut) =>
      var out := AmountOut(amountIn, snapshot.reserveA, snapshot.reserveB);
      if out.None? || out.value < minAmountOut || snapshot.reserveB < out.value then None
      else Some(snapshot.(reserveA := Wrap(WORD, snapshot.reserveA + amountIn),
                          reserveB := snapshot.reserveB - out.value))
    case SwapExactBForA(amountIn, minAmountOut) =>
      var out := AmountOut(amountIn, snapshot.reserveB, snapshot.reserveA);
      if out.None? || out.value < minAmountOut || snapshot.reserveA < out.value then None
      else Some(snapshot.(reserveA := snapshot.reserveA - out.value,
                          reserveB := Wrap(WORD, snapshot.reserveB + amountIn)))
  }

  function QuoteRoute(buy: PoolSnapshot, sell: PoolSnapshot, amountInB: U256): (r: Option<RouteQuote>)
  {
    var outA :- AmountOut(amountInB, buy.reserveB, buy.reserveA);
    var outB :- AmountOut(outA, sell.reserveA, sell.reserveB);
    Some(RouteQuote(amountInB, outA, outB))
  }

  // ---------------------------------------------------------------- optimal input

  /** Multiplication and addition in a register. */
  function MulIn(modulus: nat, x: nat, y: nat): (w: nat)
    requires modulus > 0
    ensures w < modulus
  {
    Wrap(modulus, Times(x, y))
  }

  function AddIn(modulus: nat, x: nat, y: nat): (w: nat)
    requires modulus > 0
    ensures w < modulus
  {
    Wrap(modulus, x + y)
  }

  const M1024: nat := Modulus(4 * LIMBS)
  const M2048: nat := Modulus(8 * LIMBS)

  /** k * x * y in a register, evaluated from the left. */
  function MulThree(modulus: nat, k: nat, x: nat, y: nat): (w: nat)
    requires modulus > 0
    ensures w < modulus
  {
    MulIn(modulus, MulIn(modulus, k, x), y)
  }

  /** The coefficients of amountOutB(x) = C*x / (D + E*x), in 1024-bit registers. */
  function CoefficientC(buy: PoolSnapshot, sell: PoolSnapshot): (c: nat)
    ensures c < M1024
  {
    MulThree(M1024, MulIn(M1024, FEE_NUMERATOR, FEE_NUMERATOR), buy.reserveA, sell.reserveB)
  }

  function CoefficientD(buy: PoolSnapshot, sell: PoolSnapshot): (d: nat)
    ensures d < M1024
  {
    MulThree(M1024, MulIn(M1024, FEE_DENOMINATOR, FEE_DENOMINATOR), buy.reserveB, sell.reserveA)
  }

  function CoefficientE(buy: PoolSnapshot, sell: PoolSnapshot): (e: nat)
    ensures e < M1024
  {
    AddIn(M1024,
          MulThree(M1024, FEE_NUMERATOR, FEE_DENOMINATOR, sell.reserveA),
          MulThree(M1024, FEE_NUMERATOR, FEE_NUMERATOR, buy.reserveA))
  }

  /** The same coefficients over the integers. */
  function C(buy: PoolSnapshot, sell: PoolSnapshot): nat {
    CoefC(buy.reserveA, sell.reserveB)
  }

  function D(buy: PoolSnapshot, sell: PoolSnapshot): nat {
    CoefD(buy.reserveB, sell.reserveA)
  }

  function E(buy: PoolSnapshot, sell: PoolSnapshot): nat {
    CoefE(sell.reserveA, buy.reserveA)
  }

  function CoefC(a1: nat, b2: nat): nat { Times(994009 * a1, b2) }

  function CoefD(b1: nat, a2: nat): nat { Times(1000000 * b1, a2) }

  function CoefE(a2: nat, a1: nat): nat { 997000 * a2 + 994009 * a1 }

  lemma ProductBelow(x: nat, y: nat, m: nat, n: nat)
    requires x < m && y < n
    ensures Times(x, y) < Times(m, n)
  {
    assert x * y <= x * n < m * n;
  }

  /** A 256-bit value times a small constant, and then times another 256-bit value. */
  lemma SmallTimesWords(k: nat, x: nat, y: nat, m: nat)
    requires k < m && x < m && y < m
    ensures k * x < m * m
    ensures Times(k * x, y) < Times(m * m, m)
  {
    ProductBelow(k, x, m, m);
    ProductBelow(k * x, y, m * m, m);
  }

  /** Room in registers four and eight times as wide as a word of w limbs. */
  lemma RegisterRoom(w: nat, m: nat, m3: nat)
    requires w > 0 && m == Modulus(w) && m3 == Times(m * m, m)
    ensures m > 1000000
    ensures m3 <= Modulus(4 * w) && m * m + m * m <= m3
    ensures Times(m3, m3) <= Modulus(8 * w)
  {
    ModulusMono(1, w);
    ModulusAdd(w, w);
    ModulusAdd(2 * w, w);
    ModulusAdd(3 * w, 3 * w);
    ModulusMono(3 * w, 4 * w);
    ModulusMono(6 * w, 8 * w);
    TwiceSquare(m * m, m);
  }

  lemma TwiceSquare(s: nat, m: nat)
    requires m >= 2
    ensures s + s <= s * m
  {
  }

  /** In a register of modulus m3 or more, k * x * y is exact for words x and y below m. */
  lemma MulThreeExact(modulus: nat, k: nat, x: nat, y: nat, m: nat)
    requires k < m && x < m && y < m && m > 0
    requires Times(m * m, m) <= modulus
    ensures MulThree(modulus, k, x, y) == Times(k * x, y) < Times(m * m, m)
  {
    SmallTimesWords(k, x, y, m);
    TimesAtLeast(m * m, m);
  }

  lemma TimesAtLeast(s: nat, m: nat)
    requires m > 0
    ensures s <= Times(s, m)
  {
  }

  lemma WideProducts(w: nat, a1: nat, b1: nat, a2: nat, b2: nat)
    requires w > 0
    requires a1 < Modulus(w) && b1 < Modulus(w) && a2 < Modulus(w) && b2 < Modulus(w)
    ensures MulThree(Modulus(4 * w), 994009, a1, b2) == CoefC(a1, b2)
    ensures MulThree(Modulus(4 * w), 1000000, b1, a2) == CoefD(b1, a2)
    ensures CoefE(a2, a1) < Modulus(4 * w)
    ensures Times(CoefC(a1, b2), CoefD(b1, a2)) < Modulus(8 * w)
  {
    var m := Modulus(w);
    var m3 := Times(m * m, m);
    RegisterRoom(w, m, m3);
    MulThreeExact(Modulus(4 * w), 994009, a1, b2, m);
    MulThreeExact(Modulus(4 * w), 1000000, b1, a2, m);
    SmallTimesWords(997000, a2, 0, m);
    SmallTimesWords(994009, a1, 0, m);
    ProductBelow(CoefC(a1, b2), CoefD(b1, a2), m3, m3);
  }

  /** For all 256-bit reserves no 1024-bit operator wraps and the 2048-bit product fits. */
  lemma CoefficientCExact(buy: PoolSnapshot, sell: PoolSnapshot)
    ensures CoefficientC(buy, sell) == C(buy, sell)
  {
    WideProducts(LIMBS, buy.reserveA, buy.reserveB, sell.reserveA, sell.reserveB);
  }

  lemma CoefficientDExact(buy: PoolSnapshot, sell: PoolSnapshot)
    ensures CoefficientD(buy, sell) == D(buy, sell)
  {
    WideProducts(LIMBS, buy.reserveA, buy.reserveB, sell.reserveA, sell.reserveB);
  }

  lemma CoefficientEExact(buy: PoolSnapshot, sell: PoolSnapshot)
    ensures CoefficientE(buy, sell) == E(buy, sell)
  {
    WideProducts(LIMBS, buy.reserveA, buy.reserveB, sell.reserveA, sell.reserveB);
  }

  lemma RadicandFits(buy: PoolSnapshot, sell: PoolSnapshot)
    ensures Times(C(buy, sell), D(buy, sell)) < M2048
  {
    WideProducts(LIMBS, buy.reserveA, buy.reserveB, sell.reserveA, sell.reserveB);
  }

  /** The input the closed form asks for, before and after the clamp, over the integers:
      (sqrt(C*D) - D) / E with every division rounded down. */
  function UnclampedInput(c: nat, d: nat, e: nat): (x: Option<nat>)
    ensures x.Some? ==> x.value > 0
  {
    if c == 0 || d == 0 || e == 0 then None
    else
      var root := FloorSqrt(Times(c, d));
      if root <= d then None
      else
        var x := Quotient(root - d, e);
        if x == 0 then None else Some(x)
  }

  function Min(x: nat, y: nat): nat { if x <= y then x else y }

  /** What the closed form leaves room for: (D + E*x)^2 <= C*D < (D + E*(x+1))^2. */
  lemma InputBracketsOptimum(c: nat, d: nat, e: nat)
    requires UnclampedInput(c, d, e).Some?
    ensures var x := UnclampedInput(c, d, e).value;
            && c > 0 && d > 0 && e > 0
            && Times(d + e * x, d + e * x) <= Times(c, d) < Times(d + e * (x + 1), d + e * (x + 1))
  {
    var x := UnclampedInput(c, d, e).value;
    var root := FloorSqrt(Times(c, d));
    QuotientFloors(root - d, e);
    BracketIdentity(e, x);
    SquareMono(d + e * x, root);
    SquareMono(root + 1, d + e * (x + 1));
  }

  lemma BracketIdentity(e: nat, x: nat)
    ensures e * x == x * e && e * (x + 1) == (x + 1) * e
  {
  }

  lemma SquareMono(a: nat, b: nat)
    requires a <= b
    ensures Times(a, a) <= Times(b, b)
  {
    assert a * a <= a * b <= b * b;
  }

  /** By the inequality of the means the closed form never asks for more than a quarter of
      the selling pool's TokenB reserve, so narrowing it to 256 bits loses nothing. */
  lemma InputBelowReserve(c: nat, d: nat, e: nat, a1: nat, b2: nat, x: nat)
    requires c == CoefC(a1, b2) && e >= 994009 * a1 && a1 > 0 && d > 0
    requires Times(d + e * x, d + e * x) <= Times(c, d)
    ensures 4 * x <= b2
  {
    var s := e * x;
    assert Times(d + s, d + s) == d * d + 2 * (d * s) + s * s;
    SquaresAtLeastTwice(d, s);
    assert d * (4 * s) <= d * c;
    CancelLeft(d, 4 * s, c);
    var k := 994009 * a1;
    assert k * x <= s by {
      assert k * x <= e * x;
    }
    assert k * (4 * x) <= k * b2;
    CancelLeft(k, 4 * x, b2);
  }

  lemma SquaresAtLeastTwice(a: nat, b: nat)
    ensures a * a + b * b >= 2 * (a * b)
  {
    var t := a - b;
    assert t * t == a * a - 2 * (a * b) + b * b;
  }

  /** optimal_amount_in_b with the registers of the source. */
  function OptimalAmountInB(buy: PoolSnapshot, sell: PoolSnapshot, params: Params): (r: Option<U256>)
  {
    ClampedInput(CoefficientC(buy, sell), CoefficientD(buy, sell), CoefficientE(buy, sell),
                 params.maxAmountInB)
  }

  function ClampedInput(c: nat, d: nat, e: nat, max: nat): (r: Option<U256>)
  {
    if c == 0 || d == 0 || e == 0 then None
    else
      InputFromRoot(FloorSqrt(MulIn(M2048, c, d)), d, e, max)
  }

  function InputFromRoot(root: nat, d: nat, e: nat, max: nat): (r: Option<U256>)
    requires e > 0
  {
    if root <= d then None
    else
      var amount := Quotient(root - d, e);
      if amount == 0 then None else Some(Wrap(WORD, Min(amount, max)))
  }

  lemma ClampedInputExact(c: nat, d: nat, e: nat, max: nat)
    requires Times(c, d) < M2048 && max < WORD
    ensures ClampedInput(c, d, e, max)
            == match UnclampedInput(c, d, e)
               case None => None
               case Some(x) => Some(Min(x, max))
  {
    FitsIn(M2048, Times(c, d));
  }

  lemma FitsIn(modulus: nat, x: nat)
    requires x < modulus
    ensures Wrap(modulus, x) == x
  {
  }

  /** The registers are wide enough for every input: the result is the integer closed form,
      cut at the caller's limit. */
  lemma OptimalAmountExact(buy: PoolSnapshot, sell: PoolSnapshot, params: Params)
    ensures OptimalAmountInB(buy, sell, params)
            == match UnclampedInput(C(buy, sell), D(buy, sell), E(buy, sell))
               case None => None
               case Some(x) => Some(Min(x, params.maxAmountInB))
  {
    CoefficientCExact(buy, sell);
    CoefficientDExact(buy, sell);
    CoefficientEExact(buy, sell);
    RadicandFits(buy, sell);
    ClampedInputExact(C(buy, sell), D(buy, sell), E(buy, sell), params.maxAmountInB);
  }

  /** The amount the square root asks for fits a word even before it is cut. */
  lemma UnclampedIsWord(buy: PoolSnapshot, sell: PoolSnapshot)
    requires UnclampedInput(C(buy, sell), D(buy, sell), E(buy, sell)).Some?
    ensures 4 * UnclampedInput(C(buy, sell), D(buy, sell), E(buy, sell)).value <= sell.reserveB
  {
    var c, d, e := C(buy, sell), D(buy, sell), E(buy, sell);
    InputBracketsOptimum(c, d, e);
    ZeroTimes(994009 * buy.reserveA, sell.reserveB);
    InputBelowReserve(c, d, e, buy.reserveA, sell.reserveB, UnclampedInput(c, d, e).value);
  }

  lemma ZeroTimes(x: nat, y: nat)
    ensures Times(x, y) > 0 <==> x > 0 && y > 0
  {
  }

  /** optimal_amount_in_b, computed with the bit-by-bit square root. */
  method ComputeOptimalAmountInB(buy: PoolSnapshot, sell: PoolSnapshot, params: Params)
    returns (r: Option<U256>)
    ensures r == OptimalAmountInB(buy, sell, params)
  {
    var c, d, e := CoefficientC(buy, sell), CoefficientD(buy, sell), CoefficientE(buy, sell);
    r := ComputeClampedInput(c, d, e, params.maxAmountInB);
  }

  method ComputeClampedInput(c: nat, d: nat, e: nat, max: nat) returns (r: Option<U256>)
    ensures r == ClampedInput(c, d, e, max)
  {
    if c == 0 || d == 0 || e == 0 {
      return None;
    }
    var root := IntegerSqrtOfLimbs(8 * LIMBS, MulIn(M2048, c, d));
    r := ComputeInputFromRoot(root, d, e, max);
  }

  method ComputeInputFromRoot(root: nat, d: nat, e: nat, max: nat) returns (r: Option<U256>)
    requires e > 0
    ensures r == InputFromRoot(root, d, e, max)
  {
    if root <= d {
      return None;
    }
    var amount: nat := Quotient(root - d, e);
    if amount == 0 {
      return None;
    }
    if amount > max {
      amount := max;
    }
    r := Some(Wrap(WORD, amount));
  }
}
