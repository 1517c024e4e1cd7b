/** How good the closed form of calculator.cpp is: the chosen input is within a fixed distance
    of every other input, and a rejection means that no input is profitable. */
module Optimality {
  import opened Common
  import opened Domain
  import opened ConstantProduct
  import opened Calculator
  import opened IntegerSqrt

  /** W(x) = D + E*x, the denominator of the exact route. */
  function W(d: nat, e: nat, x: nat): nat { d + e * x }

  /** The exact route bounds the floored one from above: q * (D + E*y) <= C*y.
      K stands for 997*y*a1, P for 1000*b1 + 997*y, S for 1000*a2. */
  lemma QuoteUpper(k: nat, p: nat, s: nat, b2: nat, a: nat, q: nat)
    requires a * p <= k
    requires q * (s + 997 * a) <= 997 * (a * b2)
    requires s > 0
    ensures q * (s * p + 997 * k) <= 997 * (k * b2)
  {
    assert q <= b2 by {
      assert q * (s + 997 * a) == q * s + 997 * (a * q);
      assert q > b2 ==> a * b2 <= a * q;
      assert q > 0 ==> q * s > 0;
    }
    var t := b2 - q;
    assert q * s <= 997 * (a * t) by {
      assert a * t == a * b2 - a * q;
      assert q * (s + 997 * a) == q * s + 997 * (a * q);
    }
    assert (q * s) * p <= (997 * (a * t)) * p;
    assert (a * t) * p == (a * p) * t;
    assert (a * p) * t <= k * t;
    assert (q * s) * p == q * (s * p);
    assert k * t == k * b2 - k * q;
    assert q * (s * p + 997 * k) == q * (s * p) + 997 * (k * q);
  }

  /** ... and rounding twice loses less than (D + E*x) + 997*b2*P of it. */
  lemma QuoteLower(k: nat, p: nat, s: nat, b2: nat, a: nat, q: nat)
    requires a * p <= k < (a + 1) * p
    requires 997 * (a * b2) < (q + 1) * (s + 997 * a)
    requires p > 0 && b2 > 0
    ensures 997 * (k * b2) < (q + 1) * (s * p + 997 * k) + 997 * (b2 * p)
  {
    var t := q + 1;
    MulLess(997 * (a * b2), t * (s + 997 * a), p);
    LowerLeft(t, s, a, p);
    LowerRight(a, b2, p);
    MulAtMost(a * p, k, t);
    MulLess(k, (a + 1) * p, b2);
    LowerGoal(t, s, p, k);
  }

  lemma LowerGoal(t: nat, s: nat, p: nat, k: nat)
    ensures t * (s * p + 997 * k) == t * (s * p) + 997 * (k * t)
  {
  }

  lemma LowerLeft(t: nat, s: nat, a: nat, p: nat)
    ensures (t * (s + 997 * a)) * p == t * (s * p) + 997 * ((a * p) * t)
  {
  }

  lemma LowerRight(a: nat, b2: nat, p: nat)
    ensures (997 * (a * b2)) * p + 997 * (b2 * p) == 997 * (((a + 1) * p) * b2)
  {
  }

  // ---------------------------------------------------------------- the exact profit curve

  /** Exact profits compared: C*x/W(x) - C*y/W(y) = C*D*(x - y) / (W(x)*W(y)). */
  lemma CrossDifference(c: nat, d: nat, e: nat, x: nat, y: nat)
    ensures (c * x) * W(d, e, y) - (c * y) * W(d, e, x) == (c * d) * (x - y)
  {
  }

  /** To the left of the optimum a larger input has a larger exact profit. */
  lemma RisesUpToOptimum(c: nat, d: nat, e: nat, x: nat, y: nat)
    requires y <= x && d > 0
    requires W(d, e, x) * W(d, e, x) <= c * d
    ensures (c * y) * W(d, e, x) + (W(d, e, x) * W(d, e, y)) * (x - y) <= (c * x) * W(d, e, y)
  {
    var wx, wy := W(d, e, x), W(d, e, y);
    CrossDifference(c, d, e, x, y);
    MulAtMost(y, x, e);
    MulAtMost(wy, wx, wx);
    MulAtMost(wx * wy, c * d, x - y);
  }

  /** One step past the optimum and beyond, the exact profit exceeds that of x by less than 1. */
  lemma GainsLessThanOneBeyond(c: nat, d: nat, e: nat, x: nat, n: nat)
    requires x > 0 && n > 0 && d > 0
    requires c * d < (W(d, e, x) + e) * (W(d, e, x) + e)
    ensures (c * (x + n)) * W(d, e, x)
            < (c * x) * W(d, e, x + n) + (W(d, e, x) * W(d, e, x + n)) * (n + 1)
  {
    var w := W(d, e, x);
    StepDifference(c, d, e, x, n);
    MulLess(c * d, (w + e) * (w + e), n);
    MulAtMost(1, x, e);
    StepBound(w, e, n);
  }

  lemma StepDifference(c: nat, d: nat, e: nat, x: nat, n: nat)
    ensures W(d, e, x + n) == W(d, e, x) + e * n
    ensures (c * (x + n)) * W(d, e, x) == (c * x) * W(d, e, x + n) + (c * d) * n
  {
    CrossDifference(c, d, e, x + n, x);
  }

  lemma StepBound(w: nat, e: nat, n: nat)
    requires w > e && n > 0
    ensures ((w + e) * (w + e)) * n <= (w * (w + e * n)) * (n + 1)
  {
    StepIdentity(w, e, n);
    MulAtMost(e, w, e);
    if n == 1 {
      MulAtMost(e, w, w);
    } else {
      MulAtMost(1, n - 1, n * (e * w));
      MulAtMost(e * e, e * w, n);
    }
  }

  lemma StepIdentity(w: nat, e: nat, n: nat)
    ensures (w * (w + e * n)) * (n + 1) - ((w + e) * (w + e)) * n
            == w * w + (n - 1) * (n * (e * w)) - (e * e) * n
  {
  }

  /** For the input chosen by the closed form and cut at `max`, every other admissible input
      has an exact profit less than one unit higher. */
  lemma ExactProfitGap(c: nat, d: nat, e: nat, max: nat, x: nat, y: nat)
    requires UnclampedInput(c, d, e).Some?
    requires x == Min(UnclampedInput(c, d, e).value, max)
    requires 1 <= y <= max
    ensures (c * y) * W(d, e, x) < (c * x) * W(d, e, y) + (W(d, e, x) * W(d, e, y)) * (y - x + 1)
  {
    var x0 := UnclampedInput(c, d, e).value;
    InputBracketsOptimum(c, d, e);
    if y <= x {
      GapBefore(c, d, e, x0, x, y);
    } else {
      GapBeyond(c, d, e, x, y - x);
    }
  }

  lemma GapBefore(c: nat, d: nat, e: nat, x0: nat, x: nat, y: nat)
    requires y <= x <= x0 && d > 0
    requires Times(W(d, e, x0), W(d, e, x0)) <= Times(c, d)
    ensures (c * y) * W(d, e, x) < (c * x) * W(d, e, y) + (W(d, e, x) * W(d, e, y)) * (y - x + 1)
  {
    MulLess(0, W(d, e, x), W(d, e, y));
    MulAtMost(x, x0, e);
    SquareMono(W(d, e, x), W(d, e, x0));
    RisesUpToOptimum(c, d, e, x, y);
    SplitFactor(W(d, e, x) * W(d, e, y), x - y);
  }

  lemma GapBeyond(c: nat, d: nat, e: nat, x: nat, n: nat)
    requires x > 0 && n > 0 && d > 0
    requires Times(c, d) < Times(d + e * (x + 1), d + e * (x + 1))
    ensures (c * (x + n)) * W(d, e, x)
            < (c * x) * W(d, e, x + n) + (W(d, e, x) * W(d, e, x + n)) * (n + 1)
  {
    NextDenominator(d, e, x);
    GainsLessThanOneBeyond(c, d, e, x, n);
  }

  lemma NextDenominator(d: nat, e: nat, x: nat)
    ensures d + e * (x + 1) == W(d, e, x) + e
  {
  }

  lemma SplitFactor(m: nat, k: int)
    ensures m * (-k + 1) == m - m * k
  {
  }

  /** The route B -> A -> B over the integers and the facts its two roundings leave. */
  ghost predicate IsRoute(a1: nat, b1: nat, a2: nat, b2: nat, x: nat, outA: nat, outB: nat)
  {
    x > 0 && outA > 0 && outA == ExactOut(x, b1, a1) && outB == ExactOut(outA, a2, b2)
  }

  /** The same for an input that may return nothing. */
  ghost predicate IsRouteOrNothing(a1: nat, b1: nat, a2: nat, b2: nat, x: nat, outA: nat, outB: nat)
  {
    || IsRoute(a1, b1, a2, b2, x, outA, outB)
    || (x > 0 && outA == 0 == ExactOut(x, b1, a1) && outB == 0)
  }

  lemma RouteDenominator(a1: nat, b1: nat, a2: nat, b2: nat, x: nat)
    ensures (1000 * a2) * (1000 * b1 + 997 * x) + 997 * (997 * (x * a1))
            == W(CoefD(b1, a2), CoefE(a2, a1), x)
    ensures 997 * ((997 * (x * a1)) * b2) == CoefC(a1, b2) * x
  {
  }

  lemma RouteUpper(a1: nat, b1: nat, a2: nat, b2: nat, x: nat, outA: nat, outB: nat)
    requires IsRoute(a1, b1, a2, b2, x, outA, outB) && a2 > 0
    ensures outB * W(CoefD(b1, a2), CoefE(a2, a1), x) <= CoefC(a1, b2) * x
  {
    OutBounds(x, b1, a1, outA);
    OutBounds(outA, a2, b2, outB);
    QuoteUpper(997 * (x * a1), 1000 * b1 + 997 * x, 1000 * a2, b2, outA, outB);
    RouteDenominator(a1, b1, a2, b2, x);
  }

  lemma RouteLower(a1: nat, b1: nat, a2: nat, b2: nat, x: nat, outA: nat, outB: nat)
    requires IsRouteOrNothing(a1, b1, a2, b2, x, outA, outB) && a2 > 0 && b2 > 0
    ensures (CoefC(a1, b2) * x) * (1000 * a2)
            < W(CoefD(b1, a2), CoefE(a2, a1), x) * ((1000 * a2) * (outB + 1) + 997 * b2)
  {
    var k, p, s := 997 * (x * a1), 1000 * b1 + 997 * x, 1000 * a2;
    OutBounds(x, b1, a1, outA);
    if outA > 0 {
      OutBounds(outA, a2, b2, outB);
    }
    QuoteLower(k, p, s, b2, outA, outB);
    RouteDenominator(a1, b1, a2, b2, x);
    ScaleLower(997 * (k * b2), outB + 1, s * p + 997 * k, s, p, b2);
  }

  lemma ScaleLower(cx: nat, t: nat, w: nat, s: nat, p: nat, b2: nat)
    requires cx < t * w + 997 * (b2 * p) && s > 0 && s * p <= w
    ensures cx * s < w * (s * t + 997 * b2)
  {
    MulLess(cx, t * w + 997 * (b2 * p), s);
    MulAtMost(s * p, w, 997 * b2);
    ScaleIdentity(t, w, s, p, b2);
  }

  lemma ScaleIdentity(t: nat, w: nat, s: nat, p: nat, b2: nat)
    ensures (t * w + 997 * (b2 * p)) * s == w * (s * t) + (s * p) * (997 * b2)
    ensures w * (s * t + 997 * b2) == w * (s * t) + w * (997 * b2)
  {
  }

  /** Upper bound for y, lower bound for x and the exact gap between them, divided through. */
  lemma CombineBounds(s: nat, t: nat, wx: nat, wy: nat, cx: nat, cy: nat, qy: nat, gap: int)
    requires s > 0 && wx > 0 && wy > 0
    requires qy * wy <= cy
    requires cx * s < wx * t
    requires cy * wx < cx * wy + (wx * wy) * gap
    ensures s * qy < t + s * gap
  {
    MulAtMost(qy * wy, cy, wx);
    MulLess((qy * wy) * wx, cx * wy + (wx * wy) * gap, s);
    MulLess(cx * s, wx * t, wy);
    CombineIdentity(s, t, wx, wy, cx, qy, gap);
    CancelLess(wx * wy, s * qy, t + s * gap);
  }

  lemma CombineIdentity(s: nat, t: nat, wx: nat, wy: nat, cx: nat, qy: nat, gap: int)
    ensures ((qy * wy) * wx) * s == (s * qy) * (wx * wy)
    ensures (cx * wy + (wx * wy) * gap) * s == (cx * s) * wy + (s * gap) * (wx * wy)
    ensures (wx * t) * wy + (s * gap) * (wx * wy) == (t + s * gap) * (wx * wy)
  {
  }

  /** No more than 2 + 997*b2/(1000*a2) is lost against a competing profit. */
  predicate WithinBound(a2: nat, b2: nat, x: nat, outX: nat, y: nat, outY: nat)
  {
    var profitX, profitY := outX - x, outY - y;
    (1000 * a2) * (profitY - profitX) < 2000 * a2 + 997 * b2
  }

  /** Near-optimality over the integers. */
  lemma NearOptimalRoute(a1: nat, b1: nat, a2: nat, b2: nat, max: nat,
                         x: nat, ax: nat, qx: nat, y: nat, ay: nat, qy: nat)
    requires UnclampedInput(CoefC(a1, b2), CoefD(b1, a2), CoefE(a2, a1)).Some?
    requires x == Min(UnclampedInput(CoefC(a1, b2), CoefD(b1, a2), CoefE(a2, a1)).value, max)
    requires 1 <= y <= max
    requires a2 > 0 && b2 > 0
    requires IsRouteOrNothing(a1, b1, a2, b2, x, ax, qx) && IsRoute(a1, b1, a2, b2, y, ay, qy)
    ensures WithinBound(a2, b2, x, qx, y, qy)
  {
    var c, d, e := CoefC(a1, b2), CoefD(b1, a2), CoefE(a2, a1);
    InputBracketsOptimum(c, d, e);
    ExactProfitGap(c, d, e, max, x, y);
    RouteUpper(a1, b1, a2, b2, y, ay, qy);
    RouteLower(a1, b1, a2, b2, x, ax, qx);
    CombineBounds(1000 * a2, (1000 * a2) * (qx + 1) + 997 * b2, W(d, e, x), W(d, e, y),
                  c * x, c * y, qy, y - x + 1);
    Regroup(1000 * a2, qx, qy, x, y);
  }

  lemma Regroup(s: nat, qx: int, qy: int, x: int, y: int)
    ensures s * ((qy - y) - (qx - x)) == s * qy - s * (qx + 1) - s * (y - x + 1) + 2 * s
  {
  }

  // ---------------------------------------------------------------- the code

  /** A quote whose registers do not wrap is the integer quote. */
  lemma AmountOutExact(x: U256, reserveIn: U256, reserveOut: U256)
    requires x > 0 && reserveIn > 0 && reserveOut > 0
    requires Fits(x, reserveIn, reserveOut)
    ensures AmountOut(x, reserveIn, reserveOut) == Some(ExactOut(x, reserveIn, reserveOut))
  {
  }

  /** Neither leg of the route wraps for the input x. */
  predicate RouteFits(buy: PoolSnapshot, sell: PoolSnapshot, x: nat)
  {
    x > 0 ==>
      && Fits(x, buy.reserveB, buy.reserveA)
      && Fits(ExactOut(x, buy.reserveB, buy.reserveA), sell.reserveA, sell.reserveB)
  }

  lemma QuoteRouteExact(buy: PoolSnapshot, sell: PoolSnapshot, x: U256)
    requires QuoteRoute(buy, sell, x).Some? && RouteFits(buy, sell, x)
    ensures var q := QuoteRoute(buy, sell, x).value;
            && q.amountInB == x
            && sell.reserveA > 0 && sell.reserveB > 0
            && IsRoute(buy.reserveA, buy.reserveB, sell.reserveA, sell.reserveB, x, q.amountOutA, q.amountOutB)
  {
    AmountOutExact(x, buy.reserveB, buy.reserveA);
    AmountOutExact(QuoteRoute(buy, sell, x).value.amountOutA, sell.reserveA, sell.reserveB);
  }

  const SMALL: nat := 0x100_0000_0000_0000_0000_0000_0000_0000

  /** Reserves and inputs below 2^120 never wrap. */
  lemma SmallRoutesFit(buy: PoolSnapshot, sell: PoolSnapshot, x: nat)
    requires buy.reserveA < SMALL && buy.reserveB < SMALL && sell.reserveA < SMALL && sell.reserveB < SMALL
    requires x < SMALL && buy.reserveA > 0 && buy.reserveB > 0
    ensures RouteFits(buy, sell, x)
  {
    if x > 0 {
      SmallFits(x, buy.reserveB, buy.reserveA);
      OutBelowReserve(x, buy.reserveB, buy.reserveA);
      SmallFits(ExactOut(x, buy.reserveB, buy.reserveA), sell.reserveA, sell.reserveB);
    }
  }

  lemma SmallFits(x: nat, reserveIn: nat, reserveOut: nat)
    requires x < SMALL && reserveIn < SMALL && reserveOut < SMALL
    ensures Fits(x, reserveIn, reserveOut)
  {
    WordValue();
    ProductBelow(997 * x, reserveOut, 997 * SMALL, SMALL);
  }

  /** The input chosen by optimal_amount_in_b is near-optimal: no other input up to the limit
      has a quoted profit higher by 2 + 997*b2/(1000*a2) or more. */
  lemma NearOptimal(buy: PoolSnapshot, sell: PoolSnapshot, params: Params,
                    x: U256, qx: RouteQuote, y: U256, qy: RouteQuote)
    requires OptimalAmountInB(buy, sell, params) == Some(x)
    requires 1 <= y <= params.maxAmountInB
    requires RouteFits(buy, sell, x) && RouteFits(buy, sell, y)
    requires QuoteRoute(buy, sell, x) == Some(qx) && QuoteRoute(buy, sell, y) == Some(qy)
    ensures WithinBound(sell.reserveA, sell.reserveB, x, qx.amountOutB, y, qy.amountOutB)
  {
    OptimalAmountExact(buy, sell, params);
    QuoteRouteExact(buy, sell, x);
    QuoteRouteExact(buy, sell, y);
    NearOptimalRoute(buy.reserveA, buy.reserveB, sell.reserveA, sell.reserveB, params.maxAmountInB,
                     x, qx.amountOutA, qx.amountOutB, y, qy.amountOutA, qy.amountOutB);
  }

  // ---------------------------------------------------------------- rejections

  /** root <= d: even the first unit of input loses on the exact curve. */
  lemma NoProfitAtRoot(c: nat, d: nat, e: nat, y: nat)
    requires d > 0 && e > 2 && y > 0
    requires c <= d + 2
    ensures c * y < (y + 1) * W(d, e, y)
  {
    assert (y + 1) * W(d, e, y) == d * y + d + (e * y) * (y + 1);
    MulAtMost(c, d + 2, y);
    MulAtMost(1, y + 1, e * y);
    MulAtMost(3, e, y);
  }

  /** The test root <= d, without the square root. */
  lemma RootTest(c: nat, d: nat)
    requires d > 0
    ensures FloorSqrt(Times(c, d)) <= d <==> c <= d + 2
  {
    var root := FloorSqrt(Times(c, d));
    RootTestIdentity(d);
    if c <= d + 2 {
      MulAtMost(c, d + 2, d);
      SquareOrder(root, d);
    } else {
      MulAtMost(d + 3, c, d);
      SquareOrder(d + 1, root);
    }
  }

  lemma RootTestIdentity(d: nat)
    ensures (d + 1) * (d + 1) == (d + 2) * d + 1
    ensures d > 0 ==> (d + 1) * (d + 1) <= (d + 3) * d
  {
  }

  /** amount == 0 with e <= d: the optimum lies below one unit and the curve stays below 1. */
  lemma NoProfitBelowOne(c: nat, d: nat, e: nat, y: nat)
    requires d > 0 && e <= d && y > 0
    requires c * d < (d + e) * (d + e)
    ensures c * y < (y + 1) * W(d, e, y)
  {
    BelowOneCurve(d, e, y);
    MulLess(c * d, (d + e) * (d + e), y);
    SwapFactors(c, d, y);
    CancelLess(d, c * y, (y + 1) * W(d, e, y));
  }

  lemma SwapFactors(c: nat, d: nat, y: nat)
    ensures (c * d) * y == (c * y) * d
  {
  }

  lemma BelowOneCurve(d: nat, e: nat, y: nat)
    requires e <= d && y > 0
    ensures ((d + e) * (d + e)) * y <= ((y + 1) * W(d, e, y)) * d
  {
    BelowOneIdentity(d, e, y);
    MulAtMost(e, d, e);
    MulAtMost(e, d, d);
    if y > 1 {
      MulAtMost(1, y - 1, (d * e) * y);
      MulAtMost(e * e, d * e, y);
    }
  }

  lemma BelowOneIdentity(d: nat, e: nat, y: nat)
    ensures ((y + 1) * W(d, e, y)) * d - ((d + e) * (d + e)) * y
            == d * d - (e * e) * y + ((d * e) * y) * (y - 1)
  {
  }

  /** The test root <= d of the calculator, on reserves that are all positive. */
  predicate RootRejects(buy: PoolSnapshot, sell: PoolSnapshot)
  {
    && Seeded(buy) && Seeded(sell)
    && FloorSqrt(Times(C(buy, sell), D(buy, sell))) <= D(buy, sell)
  }

  predicate Seeded(pool: PoolSnapshot) { pool.reserveA > 0 && pool.reserveB > 0 }

  lemma CoefficientsPositive(buy: PoolSnapshot, sell: PoolSnapshot)
    requires Seeded(buy) && Seeded(sell)
    ensures C(buy, sell) > 0 && D(buy, sell) > 0 && E(buy, sell) > 2
  {
    ZeroTimes(994009 * buy.reserveA, sell.reserveB);
    ZeroTimes(1000000 * buy.reserveB, sell.reserveA);
  }

  /** A rejection on positive reserves is complete, that is no input of at least one unit has a
      quoted profit of at least one unit, provided the exact route loses at one unit. The test
      root <= d implies that, and so does e <= d (TheUsualRejections). */
  lemma RejectionComplete(buy: PoolSnapshot, sell: PoolSnapshot, params: Params, y: U256, q: RouteQuote)
    requires Seeded(buy) && Seeded(sell)
    requires OptimalAmountInB(buy, sell, params) == None
    requires LosesAt(C(buy, sell), D(buy, sell), E(buy, sell), 1)
    requires y >= 1 && RouteFits(buy, sell, y) && QuoteRoute(buy, sell, y) == Some(q)
    ensures q.amountOutB <= y
  {
    RejectedExactly(buy, sell, params);
    QuoteRouteExact(buy, sell, y);
    RouteUpper(buy.reserveA, buy.reserveB, sell.reserveA, sell.reserveB, y, q.amountOutA, q.amountOutB);
    RejectedQuote(C(buy, sell), D(buy, sell), E(buy, sell), y, q.amountOutB);
  }

  /** A rejection by the registers is one over the integers. */
  lemma RejectedExactly(buy: PoolSnapshot, sell: PoolSnapshot, params: Params)
    requires Seeded(buy) && Seeded(sell) && OptimalAmountInB(buy, sell, params) == None
    ensures C(buy, sell) > 0 && D(buy, sell) > 0 && E(buy, sell) > 2
    ensures UnclampedInput(C(buy, sell), D(buy, sell), E(buy, sell)) == None
  {
    CoefficientsPositive(buy, sell);
    OptimalAmountExact(buy, sell, params);
  }

  lemma RejectedQuote(c: nat, d: nat, e: nat, y: nat, q: nat)
    requires c > 0 && d > 0 && e > 2 && UnclampedInput(c, d, e) == None && LosesAt(c, d, e, 1)
    requires y > 0 && q * W(d, e, y) <= c * y
    ensures q <= y
  {
    OneUnitDecides(c, d, e);
    assert LosesAt(c, d, e, y);
    NoProfit(c, d, e, y, q);
  }

  lemma TheUsualRejections(buy: PoolSnapshot, sell: PoolSnapshot, params: Params)
    requires Seeded(buy) && Seeded(sell) && OptimalAmountInB(buy, sell, params) == None
    requires RootRejects(buy, sell) || E(buy, sell) <= D(buy, sell)
    ensures LosesAt(C(buy, sell), D(buy, sell), E(buy, sell), 1)
  {
    RejectedExactly(buy, sell, params);
    LosesAtOne(C(buy, sell), D(buy, sell), E(buy, sell));
  }

  lemma LosesAtOne(c: nat, d: nat, e: nat)
    requires c > 0 && d > 0 && e > 2 && UnclampedInput(c, d, e) == None
    requires FloorSqrt(Times(c, d)) <= d || e <= d
    ensures LosesAt(c, d, e, 1)
  {
    RejectedCurve(c, d, e, 1);
  }

  /** For a rejected pair one unit decides for all inputs of the unrounded curve: every exact
      profit stays below one unit if and only if the one at one unit does, that is
      c < 2*(d + e). What decides for the rounded quotes is in RejectionBorder. */
  lemma OneUnitDecides(c: nat, d: nat, e: nat)
    requires c > 0 && d > 0 && e > 2 && UnclampedInput(c, d, e) == None
    ensures LosesAt(c, d, e, 1) <==> c < 2 * (d + e)
    ensures LosesAt(c, d, e, 1) <==> forall y: nat :: y > 0 ==> LosesAt(c, d, e, y)
  {
    assert (1) * e == e;
    if LosesAt(c, d, e, 1) {
      forall y: nat | y > 0
        ensures LosesAt(c, d, e, y)
      {
        if FloorSqrt(Times(c, d)) <= d || e <= d {
          RejectedCurve(c, d, e, y);
        } else {
          LosesBeyondOne(c, d, e, y);
        }
      }
    }
  }

  /** With e > d the exact profit falls from the first unit on. */
  lemma LosesBeyondOne(c: nat, d: nat, e: nat, y: nat)
    requires c < 2 * (d + e) && d < e && y > 0
    ensures LosesAt(c, d, e, y)
  {
    LosesIdentity(d, e, y);
    MulAtMost(c, 2 * (d + e) - 1, y);
    if y > 1 {
      MulAtMost(2, y, e * y);
      MulAtMost(d + e, 2 * e, y);
    }
  }

  lemma LosesIdentity(d: nat, e: nat, y: nat)
    ensures (y + 1) * W(d, e, y) == d + d * y + e * y + (e * y) * y
    ensures (2 * (d + e) - 1) * y == 2 * (d * y) + 2 * (e * y) - y
    ensures (d + e) * y == d * y + e * y && (2 * e) * y == 2 * (e * y)
    ensures y * (e * y) == (e * y) * y
  {
  }

  lemma NoProfit(c: nat, d: nat, e: nat, y: nat, q: nat)
    requires q * W(d, e, y) <= c * y < (y + 1) * W(d, e, y)
    ensures q <= y
  {
    CancelLess(W(d, e, y), q, y + 1);
  }

  lemma RejectedCurve(c: nat, d: nat, e: nat, y: nat)
    requires c > 0 && d > 0 && e > 2 && y > 0
    requires UnclampedInput(c, d, e) == None
    requires FloorSqrt(Times(c, d)) <= d || e <= d
    ensures c * y < (y + 1) * W(d, e, y)
  {
    var root := FloorSqrt(Times(c, d));
    RootTest(c, d);
    if root <= d {
      NoProfitAtRoot(c, d, e, y);
    } else {
      assert (1) * e == e;
      SquareMono(root + 1, d + e);
      NoProfitBelowOne(c, d, e, y);
    }
  }

  /** Without e <= d the computed amount of zero hides profitable inputs: with the reserves
      (1000, 1) and (1000, 8) one unit of TokenB returns two. */
  lemma TinyReservesMissed(params: Params)
    ensures
      var pool := Pool(ZERO_ADDRESS, ZERO_ADDRESS, ZERO_ADDRESS);
      var buy, sell := PoolSnapshot(pool, 1000, 1), PoolSnapshot(pool, 1000, 8);
      && OptimalAmountInB(buy, sell, params) == None
      && QuoteRoute(buy, sell, 1) == Some(RouteQuote(1, 499, 2))
  {
    var pool := Pool(ZERO_ADDRESS, ZERO_ADDRESS, ZERO_ADDRESS);
    var buy, sell := PoolSnapshot(pool, 1000, 1), PoolSnapshot(pool, 1000, 8);
    TinyAmount();
    OptimalAmountExact(buy, sell, params);
    TinyQuote();
  }

  lemma TinyAmount()
    ensures UnclampedInput(7952072000, 1000000000, 1991009000) == None
  {
    FloorSqrtUnique(7952072000000000000, 2819941843);
  }

  lemma TinyQuote()
    ensures AmountOut(1, 1, 1000) == Some(499)
    ensures AmountOut(499, 1000, 8) == Some(2)
  {
    QuotientIs(997000, 1997, 499);
    QuotientIs(3980024, 1497503, 2);
  }

  lemma QuotientIs(x: nat, y: nat, q: nat)
    requires y > 0 && q * y <= x < (q + 1) * y
    ensures Quotient(x, y) == q
  {
    QuotientFloors(x, y);
    CancelLess(y, q, Quotient(x, y) + 1);
    CancelLess(y, Quotient(x, y), q + 1);
  }

  /** e <= d is the exact border: below it, and only below it, an optimum under one unit never
      hides an exact profit of one unit or more, whatever the remaining coefficient c is. Here c
      ranges over all integers, not only over the coefficients of reserves. */
  lemma ZeroAmountBorder(d: nat, e: nat)
    requires d > 0 && e > 0
    ensures e <= d <==> forall c: nat, y: nat :: BelowOne(c, d, e) && y > 0 ==> LosesAt(c, d, e, y)
  {
    if e <= d {
      forall c: nat, y: nat | BelowOne(c, d, e) && y > 0
        ensures LosesAt(c, d, e, y)
      {
        NoProfitBelowOne(c, d, e, y);
      }
    } else {
      var c := 2 * (d + e);
      MulLess(2 * d, d + e, d + e);
      assert c * d == (2 * d) * (d + e);
      assert BelowOne(c, d, e) && !LosesAt(c, d, e, 1);
    }
  }

  predicate BelowOne(c: nat, d: nat, e: nat) { c * d < (d + e) * (d + e) }

  predicate LosesAt(c: nat, d: nat, e: nat, y: nat) { c * y < (y + 1) * W(d, e, y) }

  // ---------------------------------------------------------------- direction

  /** The guards and the root test of the calculator. */
  predicate TestRejects(buy: PoolSnapshot, sell: PoolSnapshot)
  {
    || C(buy, sell) == 0 || D(buy, sell) == 0 || E(buy, sell) == 0
    || FloorSqrt(Times(C(buy, sell), D(buy, sell))) <= D(buy, sell)
  }

  lemma TestedIsRejected(buy: PoolSnapshot, sell: PoolSnapshot, params: Params)
    requires TestRejects(buy, sell)
    ensures OptimalAmountInB(buy, sell, params) == None
  {
    OptimalAmountExact(buy, sell, params);
  }

  /** The swap leaves every pool rejected that the untried direction rejected before it. */
  ghost predicate StaysRejected(victim: PoolSnapshot, swap: Swap, after: PoolSnapshot)
  {
    if swap.SwapExactAForB?
    then forall other :: RootRejects(other, victim) ==> TestRejects(other, after)
    else forall other :: RootRejects(victim, other) ==> TestRejects(after, other)
  }

  /** The token that was paid in did not become dearer, or its reserve wrapped to zero. */
  predicate PriceMovedWithSwap(victim: PoolSnapshot, swap: Swap, after: PoolSnapshot)
  {
    if swap.SwapExactAForB?
    then CheaperOrGone(victim.reserveA, victim.reserveB, after.reserveA, after.reserveB)
    else CheaperOrGone(victim.reserveB, victim.reserveA, after.reserveB, after.reserveA)
  }

  predicate CheaperOrGone(rin: nat, rout: nat, rin': nat, rout': nat)
  {
    rin' == 0 || rout' * rin <= rout * rin'
  }

  /** The direction that find_arbitrage does not try: every pool rejected there before the
      victim's swap is still rejected after it if and only if the booked price moved the way of
      the swap. This needs no bound for "if"; for "only if" the witness must be a pool of words. */
  lemma OtherDirectionBorder(victim: PoolSnapshot, swap: Swap, after: PoolSnapshot)
    requires ApplyVictimSwap(victim, swap) == Some(after)
    ensures PriceMovedWithSwap(victim, swap, after) ==> StaysRejected(victim, swap, after)
    ensures 1000000 * victim.reserveA < WORD && 1000000 * victim.reserveB < WORD ==>
              (StaysRejected(victim, swap, after) <==> PriceMovedWithSwap(victim, swap, after))
  {
    match swap
    case SwapExactAForB(_, _) => BorderAForB(victim, after);
    case SwapExactBForA(_, _) => BorderBForA(victim, after);
  }

  lemma BorderAForB(victim: PoolSnapshot, after: PoolSnapshot)
    requires Seeded(victim) && after.reserveB <= victim.reserveB
    ensures CheaperOrGone(victim.reserveA, victim.reserveB, after.reserveA, after.reserveB) ==>
              forall other :: RootRejects(other, victim) ==> TestRejects(other, after)
    ensures 1000000 * victim.reserveA < WORD && 1000000 * victim.reserveB < WORD
            && !CheaperOrGone(victim.reserveA, victim.reserveB, after.reserveA, after.reserveB) ==>
              exists other :: RootRejects(other, victim) && !TestRejects(other, after)
  {
    var a, b, a', b' := victim.reserveA, victim.reserveB, after.reserveA, after.reserveB;
    if CheaperOrGone(a, b, a', b') {
      forall other | RootRejects(other, victim)
        ensures TestRejects(other, after)
      {
        TestsStay(other.reserveA, other.reserveB, a, b, a', b');
      }
    } else if 1000000 * a < WORD && 1000000 * b < WORD {
      var other := PoolSnapshot(victim.pool, 1000000 * a, 994009 * b);
      TestReopens(a, b, a', b');
      assert RootRejects(other, victim) && !TestRejects(other, after);
    }
  }

  lemma BorderBForA(victim: PoolSnapshot, after: PoolSnapshot)
    requires Seeded(victim) && after.reserveA <= victim.reserveA
    ensures CheaperOrGone(victim.reserveB, victim.reserveA, after.reserveB, after.reserveA) ==>
              forall other :: RootRejects(victim, other) ==> TestRejects(after, other)
    ensures 1000000 * victim.reserveA < WORD && 1000000 * victim.reserveB < WORD
            && !CheaperOrGone(victim.reserveB, victim.reserveA, after.reserveB, after.reserveA) ==>
              exists other :: RootRejects(victim, other) && !TestRejects(after, other)
  {
    var a, b, a', b' := victim.reserveA, victim.reserveB, after.reserveA, after.reserveB;
    if CheaperOrGone(b, a, b', a') {
      forall other | RootRejects(victim, other)
        ensures TestRejects(after, other)
      {
        Mirrored(a, b, other.reserveA, other.reserveB);
        Mirrored(a', b', other.reserveA, other.reserveB);
        TestsStay(other.reserveB, other.reserveA, b, a, b', a');
      }
    } else if 1000000 * a < WORD && 1000000 * b < WORD {
      var other := PoolSnapshot(victim.pool, 994009 * a, 1000000 * b);
      Mirrored(a, b, other.reserveA, other.reserveB);
      Mirrored(a', b', other.reserveA, other.reserveB);
      TestReopens(b, a, b', a');
      assert RootRejects(victim, other) && !TestRejects(after, other);
    }
  }

  /** Buying from one pool and selling to the other is the same with the tokens exchanged. */
  lemma Mirrored(a: nat, b: nat, oa: nat, ob: nat)
    ensures CoefC(a, ob) == CoefC(ob, a) && CoefD(b, oa) == CoefD(oa, b)
  {
    TimesRotate(994009, a, ob);
    TimesRotate(1000000, b, oa);
  }

  lemma TimesRotate(k: nat, x: nat, y: nat)
    ensures Times(k * x, y) == Times(k * y, x) == k * (x * y)
  {
  }

  lemma TestsStay(oin: nat, oout: nat, rin: nat, rout: nat, rin': nat, rout': nat)
    requires oin > 0 && oout > 0 && rin > 0 && rout > 0 && rout' <= rout
    requires CheaperOrGone(rin, rout, rin', rout')
    requires FloorSqrt(Times(CoefC(oin, rout), CoefD(oout, rin))) <= CoefD(oout, rin)
    ensures || CoefD(oout, rin') == 0
            || FloorSqrt(Times(CoefC(oin, rout'), CoefD(oout, rin'))) <= CoefD(oout, rin')
  {
    ZeroTimes(1000000 * oout, rin);
    ZeroTimes(1000000 * oout, rin');
    RootTest(CoefC(oin, rout), CoefD(oout, rin));
    if rin' > 0 {
      RootTest(CoefC(oin, rout'), CoefD(oout, rin'));
      DifferencesStay(oin, oout, rin, rout, rin', rout');
    }
  }

  lemma DifferencesStay(oin: nat, oout: nat, rin: nat, rout: nat, rin': nat, rout': nat)
    requires rin > 0 && rout' <= rout && rout' * rin <= rout * rin'
    requires CoefC(oin, rout) <= CoefD(oout, rin) + 2
    ensures CoefC(oin, rout') <= CoefD(oout, rin') + 2
  {
    if rin < rin' {
      TimesMono(994009 * oin, rout', rout);
      TimesMono(1000000 * oout, rin, rin');
    } else {
      CrossC(oin, rin, rout, rin', rout');
      CrossD(oout, rin, rin');
      PriceKeepsTest(CoefC(oin, rout), CoefD(oout, rin), CoefC(oin, rout'), CoefD(oout, rin'), rin, rin');
    }
  }

  lemma TimesMono(k: nat, x: nat, y: nat)
    requires x <= y
    ensures Times(k, x) <= Times(k, y)
  {
    MulAtMost(x, y, k);
  }

  lemma CrossC(oin: nat, rin: nat, rout: nat, rin': nat, rout': nat)
    requires rout' * rin <= rout * rin'
    ensures CoefC(oin, rout') * rin <= CoefC(oin, rout) * rin'
  {
    var k := 994009 * oin;
    MulAtMost(rout' * rin, rout * rin', k);
    Associate(k, rout', rin);
    Associate(k, rout, rin');
  }

  lemma Associate(k: nat, x: nat, y: nat)
    ensures Times(k, x) * y == (x * y) * k
  {
  }

  lemma CrossD(oout: nat, rin: nat, rin': nat)
    ensures CoefD(oout, rin) * rin' == CoefD(oout, rin') * rin
  {
    Associate(1000000 * oout, rin, rin');
    Associate(1000000 * oout, rin', rin);
    assert rin * rin' == rin' * rin;
  }

  lemma PriceKeepsTest(c: nat, d: nat, c': nat, d': nat, x: nat, x': nat)
    requires c <= d + 2 && x' <= x && x > 0
    requires c' * x <= c * x' && d * x' == d' * x
    ensures c' <= d' + 2
  {
    MulAtMost(c, d + 2, x');
    assert (d + 2) * x' == d' * x + 2 * x';
    assert c' * x < (d' + 3) * x;
    CancelLess(x, c', d' + 3);
  }

  /** The pool that both prices tell apart: its test is level before the swap. */
  lemma TestReopens(rin: nat, rout: nat, rin': nat, rout': nat)
    requires rin > 0 && rout > 0 && !CheaperOrGone(rin, rout, rin', rout')
    ensures var c, d := CoefC(1000000 * rin, rout), CoefD(994009 * rout, rin);
            FloorSqrt(Times(c, d)) <= d
    ensures var c, d := CoefC(1000000 * rin, rout'), CoefD(994009 * rout, rin');
            c > 0 && d > 0 && FloorSqrt(Times(c, d)) > d
  {
    LevelPool(rin, rout);
    LevelPool(rin, rout');
    LevelPool(rin', rout);
    ZeroTimes(rin, rout);
    ZeroTimes(rin', rout);
    RootTest(CoefC(1000000 * rin, rout), CoefD(994009 * rout, rin));
    RootTest(CoefC(1000000 * rin, rout'), CoefD(994009 * rout, rin'));
  }

  lemma LevelPool(x: nat, y: nat)
    ensures CoefC(1000000 * x, y) == 994009000000 * Times(x, y) == CoefD(994009 * y, x)
  {
  }

  /** A pool with these reserves is rejected against the victim's. */
  predicate RejectsAt(oin: nat, oout: nat, rin: nat, rout: nat)
  {
    || CoefC(oin, rout) == 0 || CoefD(oout, rin) == 0
    || FloorSqrt(Times(CoefC(oin, rout), CoefD(oout, rin))) <= CoefD(oout, rin)
  }

  /** The border without any bound, when the other pool may hold integers of any size. */
  lemma PriceBorder(rin: nat, rout: nat, rin': nat, rout': nat)
    requires rin > 0 && rout > 0 && rout' <= rout
    ensures CheaperOrGone(rin, rout, rin', rout')
            <==> forall oin: nat, oout: nat ::
                   oin > 0 && oout > 0 && RejectsAt(oin, oout, rin, rout) ==> RejectsAt(oin, oout, rin', rout')
  {
    if CheaperOrGone(rin, rout, rin', rout') {
      forall oin: nat, oout: nat | oin > 0 && oout > 0 && RejectsAt(oin, oout, rin, rout)
        ensures RejectsAt(oin, oout, rin', rout')
      {
        ZeroTimes(994009 * oin, rout);
        ZeroTimes(1000000 * oout, rin);
        TestsStay(oin, oout, rin, rout, rin', rout');
      }
    } else {
      TestReopens(rin, rout, rin', rout');
      assert RejectsAt(1000000 * rin, 994009 * rout, rin, rout);
      assert !RejectsAt(1000000 * rin, 994009 * rout, rin', rout');
    }
  }

  /** So the direction stays rejected whenever the reserve that grows stays a 256-bit word. */
  lemma OtherDirectionStaysRejected(victim: PoolSnapshot, swap: Swap, after: PoolSnapshot,
                                    other: PoolSnapshot, params: Params)
    requires ApplyVictimSwap(victim, swap) == Some(after)
    requires match swap
             case SwapExactAForB(amountIn, _) => victim.reserveA + amountIn < WORD
             case SwapExactBForA(amountIn, _) => victim.reserveB + amountIn < WORD
    ensures swap.SwapExactAForB? && RootRejects(other, victim) ==>
              OptimalAmountInB(other, after, params) == None
    ensures swap.SwapExactBForA? && RootRejects(victim, other) ==>
              OptimalAmountInB(after, other, params) == None
  {
    OtherDirectionBorder(victim, swap, after);
    match swap
    case SwapExactAForB(_, _) =>
      CrossMono(after.reserveB, victim.reserveB, victim.reserveA, after.reserveA);
      if RootRejects(other, victim) {
        TestedIsRejected(other, after, params);
      }
    case SwapExactBForA(_, _) =>
      CrossMono(after.reserveA, victim.reserveA, victim.reserveB, after.reserveB);
      if RootRejects(victim, other) {
        TestedIsRejected(after, other, params);
      }
  }

  lemma CrossMono(x: nat, x': nat, y: nat, y': nat)
    requires x <= x' && y <= y'
    ensures x * y <= x' * y'
  {
    MulAtMost(x, x', y);
    MulAtMost(y, y', x');
  }

  const WRAPPING_RESERVE: U256 :=
    (WordValue(); 0x19ad51e8e40314cc63a07b3fef911341fd6eab024f994ab85c6ff3acce717e14)

  const WRAPPING_INPUT: U256 :=
    (WordValue(); 0xe652ae171bfceb339c5f84c0106eecbe029154fdb066b547a3900c53318e81ed)

  /** The growing reserve must stay a word: this swap wraps it from a huge value down to 1 and
      reopens the direction that was rejected before. */
  lemma WrappingSwapReopens(pool: Pool, victim: PoolSnapshot, other: PoolSnapshot,
                            after: PoolSnapshot, params: Params)
    requires victim == PoolSnapshot(pool, WRAPPING_RESERVE, 1000000000)
    requires other == PoolSnapshot(pool, 1000, 1)
    requires after == PoolSnapshot(pool, 1, 1000000000)
    requires params.maxAmountInB >= 1002
    ensures ApplyVictimSwap(victim, SwapExactAForB(WRAPPING_INPUT, 0)) == Some(after)
    ensures RootRejects(other, victim)
    ensures OptimalAmountInB(other, after, params) == Some(1002)
  {
    WrappedQuote();
    RejectedBefore(other, victim);
    OptimalAmountExact(other, after, params);
    ReopenedAmount();
  }

  lemma WrappedQuote()
    ensures AmountOut(WRAPPING_INPUT, WRAPPING_RESERVE, 1000000000) == Some(0)
    ensures Wrap(WORD, WRAPPING_RESERVE + WRAPPING_INPUT) == 1
  {
    WordValue();
    WrapIs(997 * WRAPPING_INPUT, 897, 1);
    WrapIs(1000 * WRAPPING_RESERVE, 100, WRAPPED_DENOMINATOR - 1);
    WrapIs(WRAPPING_RESERVE + WRAPPING_INPUT, 1, 1);
    QuotientIs(1000000000, WRAPPED_DENOMINATOR, 0);
  }

  const WRAPPED_DENOMINATOR: nat := 0x4d07f5baac093e652ae171bfceb339c5f84c0106eecbe029154fdb066b547e21

  lemma WrapIs(x: nat, q: nat, r: nat)
    requires q > 0 && r < WORD && x == q * WORD + r
    ensures Wrap(WORD, x) == r
  {
    assert q * WORD >= WORD by {
      MulAtMost(1, q, WORD);
    }
    ModUnique(x, WORD, q, r);
  }

  lemma RejectedBefore(other: PoolSnapshot, victim: PoolSnapshot)
    requires other.reserveA == 1000 && other.reserveB == 1
    requires victim.reserveA > 994009000000000000 && victim.reserveB == 1000000000
    ensures RootRejects(other, victim)
  {
    RootTest(C(other, victim), D(other, victim));
  }

  lemma ReopenedAmount()
    ensures UnclampedInput(994009000000000000, 1000000, 995006000) == Some(1002)
  {
    FloorSqrtUnique(994009000000000000000000, 997000000000);
    QuotientIs(996999000000, 995006000, 1002);
  }
}
