/** When a rejection of optimal_amount_in_b is right for the quotes that the code computes, with
    both roundings: the inputs 1 and 2 decide for all. */
module RejectionBorder {
  import opened Common
  import opened Domain
  import opened ConstantProduct
  import opened IntegerSqrt
  import opened Calculator
  import opened Optimality

  /** The rounded route over the integers; nothing when the first leg returns nothing. */
  function RouteOut(a1: nat, b1: nat, a2: nat, b2: nat, y: nat): nat
    requires y > 0
  {
    var outA := ExactOut(y, b1, a1);
    if outA == 0 then 0 else ExactOut(outA, a2, b2)
  }

  // ---------------------------------------------------------------- what a late profit needs

  /** On the exact curve of a rejected pair an input y can only pay if e > (y - 1) * d. */
  lemma ProfitNeedsSlope(c: nat, d: nat, e: nat, y: nat)
    requires y > 0 && c * d < (d + e) * (d + e) && (y + 1) * W(d, e, y) <= c * y
    ensures (y - 1) * d < e
  {
    BelowOneIdentity(d, e, y);
    MulAtMost((y + 1) * W(d, e, y), c * y, d);
    SwapFactors(c, d, y);
    MulLess(c * d, (d + e) * (d + e), y);
    SlopeIdentity(d, e, y);
    CancelLess(e * y, (y - 1) * d, e);
  }

  lemma SlopeIdentity(d: nat, e: nat, y: nat)
    ensures ((d * e) * y) * (y - 1) == ((y - 1) * d) * (e * y)
    ensures (e * e) * y == e * (e * y)
  {
  }

  lemma RejectedBelowOne(c: nat, d: nat, e: nat, y: nat)
    requires c > 0 && d > 0 && e > 2 && y > 0 && UnclampedInput(c, d, e) == None
    requires (y + 1) * W(d, e, y) <= c * y
    ensures c * d < (d + e) * (d + e)
  {
    var root := FloorSqrt(Times(c, d));
    RootTest(c, d);
    if root <= d {
      NoProfitAtRoot(c, d, e, y);
    } else {
      assert (1) * e == e;
      QuotientFloors(root - d, e);
      SquareMono(root + 1, d + e);
    }
  }

  /** The slope in terms of the reserves. */
  predicate Steep(a1: nat, b1: nat, a2: nat, y: nat)
  {
    (y - 1) * CoefD(b1, a2) < CoefE(a2, a1)
  }

  lemma LateProfitIsSteep(a1: nat, b1: nat, a2: nat, b2: nat, y: nat)
    requires a1 > 0 && b1 > 0 && a2 > 0 && b2 > 0 && y > 0 && RouteOut(a1, b1, a2, b2, y) > y
    requires UnclampedInput(CoefC(a1, b2), CoefD(b1, a2), CoefE(a2, a1)) == None
    ensures Steep(a1, b1, a2, y)
  {
    var c, d, e := CoefC(a1, b2), CoefD(b1, a2), CoefE(a2, a1);
    var outA, outB := ExactOut(y, b1, a1), RouteOut(a1, b1, a2, b2, y);
    RouteUpper(a1, b1, a2, b2, y, outA, outB);
    MulAtMost(y + 1, outB, W(d, e, y));
    ZeroTimes(994009 * a1, b2);
    ZeroTimes(1000000 * b1, a2);
    RejectedBelowOne(c, d, e, y);
    ProfitNeedsSlope(c, d, e, y);
  }

  // ---------------------------------------------------------------- profits and remainders

  /** An output above y leaves room above y + 1 in the paying reserve ... */
  lemma ProfitLeavesRoom(x: nat, a2: nat, b2: nat, y: nat)
    requires x > 0 && a2 > 0 && ExactOut(x, a2, b2) > y
    ensures b2 > y + 1 && 1000 * ((y + 1) * a2) <= 997 * (x * (b2 - y - 1))
  {
    var out := ExactOut(x, a2, b2);
    OutBounds(x, a2, b2, out);
    MulAtMost(y + 1, out, 1000 * a2 + 997 * x);
    RoomIdentity(x, a2, b2, y);
    ZeroTimes(y + 1, a2);
    if b2 <= y + 1 {
      MulAtMost(b2, y + 1, x);
    }
  }

  /** ... and enough room makes an output. */
  lemma RoomMakesProfit(x: nat, a2: nat, b2: nat, y: nat)
    requires x > 0 && b2 > y + 1 && 1000 * ((y + 1) * a2) <= 997 * (x * (b2 - y - 1))
    ensures ExactOut(x, a2, b2) > y
  {
    var out := ExactOut(x, a2, b2);
    OutBounds(x, a2, b2, out);
    RoomIdentity(x, a2, b2, y);
    CancelLess(1000 * a2 + 997 * x, y + 1, out + 1);
  }

  lemma RoomIdentity(x: nat, a2: nat, b2: nat, y: nat)
    ensures (y + 1) * (1000 * a2 + 997 * x) == 1000 * ((y + 1) * a2) + 997 * (x * (y + 1))
    ensures x * (b2 - y - 1) == x * b2 - x * (y + 1)
    ensures x * b2 == b2 * x && x * (y + 1) == (y + 1) * x
  {
  }

  // ---------------------------------------------------------------- one unit pays as well

  function FirstLeg(b1: nat, y: nat): nat { 1000 * b1 + 997 * y }

  function Weight(b1: nat, y: nat): int { 1000000 * (b1 * ((y + 1) + (y * (y - 1)) * (y - 1))) + 1994000 * y }

  /** If x1 units from the first leg of one unit are at least k/p of the exact amount, and the
      weights allow it, room for y is room for one unit. */
  lemma RoomCarriesOver(a1: nat, b1: nat, a2: nat, y: nat, x1: nat, xy: nat, s: nat, p: nat, k: nat)
    requires y > 0 && p > 0 && Steep(a1, b1, a2, y)
    requires 1000 * ((y + 1) * a2) <= 997 * (xy * s)
    requires xy * FirstLeg(b1, y) <= 997 * (y * a1)
    requires k * (997 * a1) <= p * (x1 * FirstLeg(b1, 1))
    requires ((p * y) * FirstLeg(b1, 1)) * 2000 <= k * Weight(b1, y)
    ensures 2000 * a2 <= 997 * (x1 * (s + (y - 1)))
  {
    var n1, ny := FirstLeg(b1, 1), FirstLeg(b1, y);
    var h := (p * y) * (x1 * n1);
    var room, slope := (1000 * ((y + 1) * a2)) * ny, (y * (y - 1)) * (994009 * a1);
    ScaleFirst(k, p, y, a1, x1 * n1);
    RoomPart(k, y, a1, a2, xy, ny, s, h);
    SlopePart(k, y, a1, h);
    WeightPart(a1, b1, a2, y);
    MulAtMost(a2 * Weight(b1, y), room + slope, k);
    MulAtMost(((p * y) * n1) * 2000, k * Weight(b1, y), a2);
    FinalIdentity(p, y, n1, x1, s, h, k, a2, Weight(b1, y), room, slope);
    CancelRoom((p * y) * n1, 2000 * a2, 997 * (x1 * (s + (y - 1))));
  }

  lemma CancelRoom(n: nat, x: nat, z: nat)
    requires n > 0 && n * x <= n * z
    ensures x <= z
  {
    CancelLeft(n, x, z);
  }

  lemma ScaleFirst(k: nat, p: nat, y: nat, a1: nat, g: nat)
    requires k * (997 * a1) <= p * g
    ensures k * (997 * (y * a1)) <= (p * y) * g
  {
    MulAtMost(k * (997 * a1), p * g, y);
    assert (k * (997 * a1)) * y == k * (997 * (y * a1));
    assert (p * g) * y == (p * y) * g;
  }

  lemma RoomPart(k: nat, y: nat, a1: nat, a2: nat, xy: nat, ny: nat, s: nat, h: nat)
    requires 1000 * ((y + 1) * a2) <= 997 * (xy * s) && xy * ny <= 997 * (y * a1)
    requires k * (997 * (y * a1)) <= h
    ensures k * ((1000 * ((y + 1) * a2)) * ny) <= h * (997 * s)
  {
    MulAtMost(1000 * ((y + 1) * a2), 997 * (xy * s), ny);
    MulAtMost((1000 * ((y + 1) * a2)) * ny, (997 * (xy * s)) * ny, k);
    MulAtMost(xy * ny, 997 * (y * a1), k);
    MulAtMost(k * (xy * ny), h, 997 * s);
    RoomPartIdentity(k, xy, ny, s);
  }

  lemma RoomPartIdentity(k: nat, xy: nat, ny: nat, s: nat)
    ensures ((997 * (xy * s)) * ny) * k == (k * (xy * ny)) * (997 * s)
  {
  }

  lemma SlopePart(k: nat, y: nat, a1: nat, h: nat)
    requires y > 0 && k * (997 * (y * a1)) <= h
    ensures k * ((y * (y - 1)) * (994009 * a1)) <= h * (997 * (y - 1))
  {
    MulAtMost(k * (997 * (y * a1)), h, 997 * (y - 1));
    assert (k * (997 * (y * a1))) * (997 * (y - 1)) == k * ((y * (y - 1)) * (994009 * a1));
  }

  lemma WeightPart(a1: nat, b1: nat, a2: nat, y: nat)
    requires y > 0 && Steep(a1, b1, a2, y)
    ensures a2 * Weight(b1, y)
            <= (1000 * ((y + 1) * a2)) * FirstLeg(b1, y) + (y * (y - 1)) * (994009 * a1)
  {
    var bound := (y - 1) * (1000000 * (b1 * a2)) - 997000 * a2;
    assert CoefD(b1, a2) == 1000000 * (b1 * a2);
    MulAtMost(bound, 994009 * a1, y * (y - 1));
    WeightIdentity(b1, a2, y, b1 * a2);
  }

  lemma WeightIdentity(b1: nat, a2: nat, y: nat, ba: nat)
    requires ba == b1 * a2
    ensures (1000 * ((y + 1) * a2)) * FirstLeg(b1, y)
            + ((y - 1) * (1000000 * ba) - 997000 * a2) * (y * (y - 1))
            == a2 * Weight(b1, y)
  {
  }

  lemma FinalIdentity(p: nat, y: nat, n1: nat, x1: nat, s: nat, h: nat, k: nat, a2: nat, weight: int,
                      room: int, slope: int)
    requires y > 0 && h == (p * y) * (x1 * n1)
    ensures ((p * y) * n1) * (997 * (x1 * (s + (y - 1)))) == h * (997 * s) + h * (997 * (y - 1))
    ensures ((p * y) * n1) * (2000 * a2) == (((p * y) * n1) * 2000) * a2
    ensures (a2 * weight) * k == (k * weight) * a2
    ensures (room + slope) * k == k * room + k * slope
  {
    assert (p * y) * (x1 * n1) == ((p * y) * n1) * x1;
    FactorOut((p * y) * n1, x1, s, y - 1);
  }

  lemma FactorOut(n: nat, x: nat, s: nat, t: nat)
    ensures n * (997 * (x * (s + t))) == (n * x) * (997 * s) + (n * x) * (997 * t)
  {
  }

  // ---------------------------------------------------------------- the cases

  lemma CubeAtLeast(y: nat)
    requires y > 3
    ensures 9 * y <= (y * (y - 1)) * (y - 1)
  {
    MulAtMost(3, y - 1, y);
    MulAtMost(3, y - 1, y * (y - 1));
  }

  /** From three units on the weights are large enough, but for y = 3 and a reserve of one. */
  lemma WeightsSuffice(b1: nat, y: nat)
    requires b1 > 0 && y >= 3 && (y > 3 || b1 > 1)
    ensures ((2 * y) * FirstLeg(b1, 1)) * 2000 <= Weight(b1, y)
  {
    var t := (y + 1) + (y * (y - 1)) * (y - 1);
    LegProduct(b1, y);
    if y == 3 {
      assert t == 16;
    } else {
      CubeAtLeast(y);
      MulAtMost(10 * y + 1, t, b1);
      TenTimes(b1, y, t);
    }
  }

  lemma LegProduct(b1: nat, y: nat)
    ensures ((2 * y) * FirstLeg(b1, 1)) * 2000 == 4000000 * (b1 * y) + 3988000 * y
  {
  }

  lemma TenTimes(b1: nat, y: nat, t: nat)
    requires b1 > 0 && (10 * y + 1) * b1 <= t * b1
    ensures 10 * (b1 * y) <= b1 * t && y <= b1 * y
  {
    MulAtMost(1, b1, y);
    assert (10 * y + 1) * b1 == 10 * (b1 * y) + b1;
  }

  lemma FirstLegOfOne(b1: nat, a1: nat)
    ensures var x1 := ExactOut(1, b1, a1);
            x1 * FirstLeg(b1, 1) <= 997 * a1 < (x1 + 1) * FirstLeg(b1, 1)
  {
    OutBounds(1, b1, a1, ExactOut(1, b1, a1));
  }

  /** The only pair of pools in which one unit returns nothing and a later input may pay. */
  lemma NothingForOne(a1: nat, b1: nat, a2: nat, y: nat)
    requires a1 > 0 && b1 > 0 && a2 > 0 && y >= 3 && Steep(a1, b1, a2, y)
    requires ExactOut(1, b1, a1) == 0
    ensures a1 == 2 && b1 == 1 && a2 == 1 && y == 3
  {
    FirstLegOfOne(b1, a1);
    MulAtMost(2, y - 1, CoefD(b1, a2));
    assert CoefD(b1, a2) == 1000000 * (b1 * a2);
    MulAtMost(1, a2, b1);
    assert b1 == 1 by {
      if b1 > 1 {
        MulAtMost(2, b1, a2);
      }
    }
    assert CoefD(b1, a2) == 1000000;
  }

  /** Two units pay there when three do. */
  lemma TwoPayForThree(b2: nat)
    requires RouteOut(2, 1, 1, b2, 3) > 3
    ensures RouteOut(2, 1, 1, b2, 2) > 2
  {
    QuotientIs(Times(997 * 3, 2), 1000 + 997 * 3, 1);
    QuotientIs(Times(997 * 2, 2), 1000 + 997 * 2, 1);
    ProfitLeavesRoom(1, 1, b2, 3);
    RoomMakesProfit(1, 1, b2, 2);
  }

  lemma OnePaysForThree(a1: nat, a2: nat, xy: nat, s: nat)
    requires ExactOut(1, 1, a1) == 1 && xy * 3991 <= 2991 * a1
    requires 4000 * a2 <= 997 * (xy * s)
    ensures 2000 * a2 <= 997 * (1 * (s + 2))
  {
    FirstLegOfOne(1, a1);
    MulAtMost(xy, 2, s);
  }

  lemma RoomByHalves(a1: nat, b1: nat, a2: nat, y: nat, x1: nat, xy: nat, s: nat)
    requires b1 > 0 && y >= 3 && (y > 3 || b1 > 1) && Steep(a1, b1, a2, y) && x1 > 0
    requires 997 * a1 < (x1 + 1) * FirstLeg(b1, 1) && xy * FirstLeg(b1, y) <= 997 * (y * a1)
    requires 1000 * ((y + 1) * a2) <= 997 * (xy * s)
    ensures 2000 * a2 <= 997 * (x1 * (s + (y - 1)))
  {
    var n1 := FirstLeg(b1, 1);
    WeightsSuffice(b1, y);
    MulAtMost(x1 + 1, 2 * x1, n1);
    assert (2 * x1) * n1 == 2 * (x1 * n1);
    RoomCarriesOver(a1, b1, a2, y, x1, xy, s, 2, 1);
  }

  lemma RoomByThirds(a1: nat, a2: nat, x1: nat, xy: nat, s: nat)
    requires Steep(a1, 1, a2, 3) && x1 > 1
    requires 997 * a1 < (x1 + 1) * FirstLeg(1, 1) && xy * FirstLeg(1, 3) <= 997 * (3 * a1)
    requires 1000 * (4 * a2) <= 997 * (xy * s)
    ensures 2000 * a2 <= 997 * (x1 * (s + 2))
  {
    assert 2 * (997 * a1) <= 3 * (x1 * FirstLeg(1, 1));
    RoomCarriesOver(a1, 1, a2, 3, x1, xy, s, 3, 2);
  }

  /** Room for one unit, in every case but that pair. */
  lemma RoomForOne(a1: nat, b1: nat, a2: nat, y: nat, x1: nat, xy: nat, s: nat)
    requires b1 > 0 && y >= 3 && Steep(a1, b1, a2, y)
    requires x1 == ExactOut(1, b1, a1) > 0 && xy == ExactOut(y, b1, a1)
    requires 1000 * ((y + 1) * a2) <= 997 * (xy * s)
    ensures 2000 * a2 <= 997 * (x1 * (s + (y - 1)))
  {
    FirstLegOfOne(b1, a1);
    OutBounds(y, b1, a1, xy);
    if y > 3 || b1 > 1 {
      RoomByHalves(a1, b1, a2, y, x1, xy, s);
    } else if x1 > 1 {
      RoomByThirds(a1, a2, x1, xy, s);
    } else {
      OnePaysForThree(a1, a2, xy, s);
    }
  }

  /** A rejected pair that pays for any input pays for one or two units already. */
  lemma EarlyProfit(a1: nat, b1: nat, a2: nat, b2: nat, y: nat)
    requires a1 > 0 && b1 > 0 && a2 > 0 && b2 > 0 && y > 0
    requires UnclampedInput(CoefC(a1, b2), CoefD(b1, a2), CoefE(a2, a1)) == None
    requires RouteOut(a1, b1, a2, b2, y) > y
    ensures RouteOut(a1, b1, a2, b2, 1) > 1 || RouteOut(a1, b1, a2, b2, 2) > 2
  {
    if y >= 3 {
      var x1, xy := ExactOut(1, b1, a1), ExactOut(y, b1, a1);
      LateProfitIsSteep(a1, b1, a2, b2, y);
      if x1 == 0 {
        NothingForOne(a1, b1, a2, y);
        TwoPayForThree(b2);
      } else {
        ProfitLeavesRoom(xy, a2, b2, y);
        RoomForOne(a1, b1, a2, y, x1, xy, b2 - y - 1);
        assert b2 - y - 1 + (y - 1) == b2 - 2;
        RoomMakesProfit(x1, a2, b2, 1);
      }
    }
  }

  // ---------------------------------------------------------------- quotes of the code

  /** The code quotes a profit for this input, without wrapping. */
  predicate Profits(buy: PoolSnapshot, sell: PoolSnapshot, y: nat)
  {
    && 0 < y < WORD && RouteFits(buy, sell, y)
    && var q := QuoteRoute(buy, sell, y); q.Some? && q.value.amountOutB > y
  }

  lemma ProfitIsExact(buy: PoolSnapshot, sell: PoolSnapshot, y: nat)
    requires Seeded(buy) && Seeded(sell) && 0 < y < WORD && RouteFits(buy, sell, y)
    ensures Profits(buy, sell, y)
            <==> RouteOut(buy.reserveA, buy.reserveB, sell.reserveA, sell.reserveB, y) > y
  {
    var outA := ExactOut(y, buy.reserveB, buy.reserveA);
    AmountOutExact(y, buy.reserveB, buy.reserveA);
    if outA > 0 {
      AmountOutExact(outA, sell.reserveA, sell.reserveB);
    }
  }

  /** A smaller input gets no larger output, so if one fits, every smaller one does. */
  lemma OutMono(x: nat, y: nat, rin: nat, rout: nat)
    requires 0 < x <= y
    ensures ExactOut(x, rin, rout) <= ExactOut(y, rin, rout)
  {
    var ox, oy := ExactOut(x, rin, rout), ExactOut(y, rin, rout);
    OutBounds(x, rin, rout, ox);
    OutBounds(y, rin, rout, oy);
    CrossOutputs(x, y, rin, rout, ox, oy);
  }

  lemma CrossOutputs(x: nat, y: nat, rin: nat, rout: nat, ox: nat, oy: nat)
    requires 0 < x <= y
    requires ox * (1000 * rin + 997 * x) <= 997 * (x * rout)
    requires 997 * (y * rout) < (oy + 1) * (1000 * rin + 997 * y)
    ensures ox <= oy
  {
    var nx, ny := 1000 * rin + 997 * x, 1000 * rin + 997 * y;
    MulAtMost(x, y, 1000 * rin);
    CrossDenominators(x, y, rin);
    CrossFloors(x, y, x * rout, y * rout, nx, ny, ox, oy) by {
      assert (x * rout) * y == (y * rout) * x;
    }
  }

  lemma CrossFloors(x: nat, y: nat, xr: nat, yr: nat, nx: nat, ny: nat, ox: nat, oy: nat)
    requires x > 0 && xr * y == yr * x && ny * x <= nx * y
    requires ox * nx <= 997 * xr && 997 * yr < (oy + 1) * ny
    ensures ox <= oy
  {
    MulAtMost(ox * nx, 997 * xr, y);
    MulLess(997 * yr, (oy + 1) * ny, x);
    MulAtMost(ny * x, nx * y, ox);
    CrossFactors(x, y, nx, ny, ox);
    CrossFactors(y, x, ny, nx, oy + 1);
    CancelLess(ny * x, ox, oy + 1);
  }

  lemma CrossDenominators(x: nat, y: nat, rin: nat)
    requires x * (1000 * rin) <= y * (1000 * rin)
    ensures (1000 * rin + 997 * y) * x <= (1000 * rin + 997 * x) * y
  {
  }

  lemma CrossFactors(x: nat, y: nat, nx: nat, ny: nat, ox: nat)
    ensures (ox * nx) * y == (nx * y) * ox && (ox * ny) * x == (ny * x) * ox
  {
  }

  lemma FitsMono(x: nat, y: nat, rin: nat, rout: nat)
    requires x <= y && Fits(y, rin, rout)
    ensures Fits(x, rin, rout)
  {
    MulAtMost(997 * x, 997 * y, rout);
  }

  lemma SmallerFits(buy: PoolSnapshot, sell: PoolSnapshot, x: nat, y: nat)
    requires 0 < x <= y && RouteFits(buy, sell, y)
    ensures RouteFits(buy, sell, x)
  {
    FitsMono(x, y, buy.reserveB, buy.reserveA);
    OutMono(x, y, buy.reserveB, buy.reserveA);
    FitsMono(ExactOut(x, buy.reserveB, buy.reserveA), ExactOut(y, buy.reserveB, buy.reserveA),
             sell.reserveA, sell.reserveB);
  }

  /** After a rejection on positive reserves the code quotes a profit for some input if and only if
      it quotes one for one or for two units. */
  lemma RejectionBorder(buy: PoolSnapshot, sell: PoolSnapshot, params: Params)
    requires Seeded(buy) && Seeded(sell) && OptimalAmountInB(buy, sell, params) == None
    ensures (exists y :: Profits(buy, sell, y)) <==> Profits(buy, sell, 1) || Profits(buy, sell, 2)
  {
    if y :| Profits(buy, sell, y) {
      if y > 2 {
        SmallInputPays(buy, sell, params, y);
      }
    }
  }

  lemma SmallInputPays(buy: PoolSnapshot, sell: PoolSnapshot, params: Params, y: nat)
    requires Seeded(buy) && Seeded(sell) && OptimalAmountInB(buy, sell, params) == None
    requires y > 2 && Profits(buy, sell, y)
    ensures Profits(buy, sell, 1) || Profits(buy, sell, 2)
  {
    RejectedExactly(buy, sell, params);
    ProfitIsExact(buy, sell, y);
    EarlyProfit(buy.reserveA, buy.reserveB, sell.reserveA, sell.reserveB, y);
    SmallerFits(buy, sell, 1, y);
    SmallerFits(buy, sell, 2, y);
    ProfitIsExact(buy, sell, 1);
    ProfitIsExact(buy, sell, 2);
  }

  /** One unit alone does not decide: with reserves (2, 1) and (1, 7) one unit gets no quote, the
      pair is rejected, and two units return three. */
  lemma TwoUnitsMissed(params: Params)
    ensures
      var pool := Pool(ZERO_ADDRESS, ZERO_ADDRESS, ZERO_ADDRESS);
      var buy, sell := PoolSnapshot(pool, 2, 1), PoolSnapshot(pool, 1, 7);
      && OptimalAmountInB(buy, sell, params) == None
      && QuoteRoute(buy, sell, 1) == None && QuoteRoute(buy, sell, 2) == Some(RouteQuote(2, 1, 3))
  {
    var pool := Pool(ZERO_ADDRESS, ZERO_ADDRESS, ZERO_ADDRESS);
    var buy, sell := PoolSnapshot(pool, 2, 1), PoolSnapshot(pool, 1, 7);
    TwoUnitsRejected();
    OptimalAmountExact(buy, sell, params);
    TwoUnitsQuotes();
  }

  lemma TwoUnitsRejected()
    ensures UnclampedInput(13916126, 1000000, 2985018) == None
  {
    FloorSqrtUnique(13916126000000, 3730432);
  }

  lemma TwoUnitsQuotes()
    ensures AmountOut(1, 1, 2) == Some(0) && AmountOut(2, 1, 2) == Some(1) && AmountOut(1, 1, 7) == Some(3)
  {
    QuotientIs(1994, 1997, 0);
    QuotientIs(3988, 2994, 1);
    QuotientIs(6979, 1997, 3);
  }
}
