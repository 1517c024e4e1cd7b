/** How good the whole search is: no other pool and no other input would have earned much more than
    what find_arbitrage returns. */
module SearchBound {
  import opened Common
  import opened Domain
  import opened ConstantProduct
  import opened Calculator
  import opened Optimality
  import opened RejectionBorder
  import opened FindArbitrage

  /** The profit outY - y exceeds `base` by less than 2 + 997*b2/(1000*a2). */
  predicate WithinBase(a2: nat, b2: nat, base: nat, y: nat, outY: nat)
  {
    (1000 * a2) * ((outY - y) - base) < 2000 * a2 + 997 * b2
  }

  /** The two cases that the rejection tests of optimal_amount_in_b get wrong. */
  predicate WronglyRejected(buy: PoolSnapshot, sell: PoolSnapshot, params: Params)
  {
    OptimalAmountInB(buy, sell, params) == None && (Profits(buy, sell, 1) || Profits(buy, sell, 2))
  }

  lemma QuotedIsSeeded(buy: PoolSnapshot, sell: PoolSnapshot, y: U256)
    requires QuoteRoute(buy, sell, y).Some?
    ensures Seeded(buy) && Seeded(sell) && y > 0
  {
  }

  lemma WeakerBound(a2: nat, b2: nat, x: nat, outX: nat, base: nat, y: nat, outY: nat)
    requires WithinBound(a2, b2, x, outX, y, outY) && outX <= x + base
    ensures WithinBase(a2, b2, base, y, outY)
  {
    MulAtMost((outY - y) - base, (outY - y) - (outX - x), 1000 * a2);
  }

  lemma NoProfitBound(a2: nat, b2: nat, base: nat, y: nat, outY: nat)
    requires a2 > 0 && outY <= y
    ensures WithinBase(a2, b2, base, y, outY)
  {
    MulAtMost((outY - y) - base, 0, 1000 * a2);
  }

  /** Whatever the chosen input returns, even nothing, no other input gains much more. */
  lemma ChosenInputBound(buy: PoolSnapshot, sell: PoolSnapshot, params: Params, x: U256, base: nat,
                         y: U256, qy: RouteQuote)
    requires OptimalAmountInB(buy, sell, params) == Some(x) && RouteFits(buy, sell, x)
    requires 1 <= y <= params.maxAmountInB && RouteFits(buy, sell, y) && QuoteRoute(buy, sell, y) == Some(qy)
    requires QuoteRoute(buy, sell, x).Some? ==> QuoteRoute(buy, sell, x).value.amountOutB <= x + base
    ensures WithinBase(sell.reserveA, sell.reserveB, base, y, qy.amountOutB)
  {
    QuotedIsSeeded(buy, sell, y);
    if QuoteRoute(buy, sell, x).Some? {
      NearOptimal(buy, sell, params, x, QuoteRoute(buy, sell, x).value, y, qy);
      WeakerBound(sell.reserveA, sell.reserveB, x, QuoteRoute(buy, sell, x).value.amountOutB, base, y, qy.amountOutB);
    } else {
      NothingBound(buy, sell, params, x, y, qy);
      WeakerBound(sell.reserveA, sell.reserveB, x, 0, base, y, qy.amountOutB);
    }
  }

  lemma NothingBound(buy: PoolSnapshot, sell: PoolSnapshot, params: Params, x: U256, y: U256, qy: RouteQuote)
    requires Seeded(buy) && Seeded(sell)
    requires OptimalAmountInB(buy, sell, params) == Some(x) && RouteFits(buy, sell, x)
    requires 1 <= y <= params.maxAmountInB && RouteFits(buy, sell, y) && QuoteRoute(buy, sell, y) == Some(qy)
    requires QuoteRoute(buy, sell, x) == None
    ensures WithinBound(sell.reserveA, sell.reserveB, x, 0, y, qy.amountOutB)
  {
    OptimalAmountExact(buy, sell, params);
    NothingQuoted(buy, sell, x);
    QuoteRouteExact(buy, sell, y);
    NearOptimalRoute(buy.reserveA, buy.reserveB, sell.reserveA, sell.reserveB, params.maxAmountInB,
                     x, 0, 0, y, qy.amountOutA, qy.amountOutB);
  }

  /** A route between seeded pools is only refused when its first leg returns nothing. */
  lemma NothingQuoted(buy: PoolSnapshot, sell: PoolSnapshot, x: U256)
    requires Seeded(buy) && Seeded(sell) && x > 0 && RouteFits(buy, sell, x) && QuoteRoute(buy, sell, x) == None
    ensures ExactOut(x, buy.reserveB, buy.reserveA) == 0
  {
    AmountOutExact(x, buy.reserveB, buy.reserveA);
    var outA := ExactOut(x, buy.reserveB, buy.reserveA);
    if outA > 0 {
      AmountOutExact(outA, sell.reserveA, sell.reserveB);
    }
  }

  lemma RejectedBound(buy: PoolSnapshot, sell: PoolSnapshot, params: Params, base: nat, y: U256, qy: RouteQuote)
    requires OptimalAmountInB(buy, sell, params) == None && !WronglyRejected(buy, sell, params)
    requires RouteFits(buy, sell, y) && QuoteRoute(buy, sell, y) == Some(qy)
    ensures WithinBase(sell.reserveA, sell.reserveB, base, y, qy.amountOutB)
  {
    QuotedIsSeeded(buy, sell, y);
    RejectionBorder.RejectionBorder(buy, sell, params);
    assert !Profits(buy, sell, y);
    NoProfitBound(sell.reserveA, sell.reserveB, base, y, qy.amountOutB);
  }

  /** What a pair offers is no less than the profit of its chosen input, unless that profit is
      below the minimum. */
  lemma OfferedProfit(buy: PoolSnapshot, sell: PoolSnapshot, params: Params, base: nat)
    requires EvaluatePool(buy, sell, params).Some? ==> EvaluatePool(buy, sell, params).value.expectedProfitB <= base
    requires params.minProfitB <= base && OptimalAmountInB(buy, sell, params).Some?
    ensures var x := OptimalAmountInB(buy, sell, params).value;
            QuoteRoute(buy, sell, x).Some? ==> QuoteRoute(buy, sell, x).value.amountOutB <= x + base
  {
  }

  /** A pair that offers at most `base`, or nothing. */
  lemma PairBound(buy: PoolSnapshot, sell: PoolSnapshot, params: Params, base: nat, y: U256, qy: RouteQuote)
    requires EvaluatePool(buy, sell, params).Some? ==> EvaluatePool(buy, sell, params).value.expectedProfitB <= base
    requires params.minProfitB <= base
    requires ChosenFits(buy, sell, params) && !WronglyRejected(buy, sell, params)
    requires 1 <= y <= params.maxAmountInB && RouteFits(buy, sell, y) && QuoteRoute(buy, sell, y) == Some(qy)
    ensures WithinBase(sell.reserveA, sell.reserveB, base, y, qy.amountOutB)
  {
    var amount := OptimalAmountInB(buy, sell, params);
    if amount.Some? {
      OfferedProfit(buy, sell, params, base);
      ChosenInputBound(buy, sell, params, amount.value, base, y, qy);
    } else {
      RejectedBound(buy, sell, params, base, y, qy);
    }
  }

  /** The quote of the chosen input does not wrap. */
  predicate ChosenFits(buy: PoolSnapshot, sell: PoolSnapshot, params: Params)
  {
    var amount := OptimalAmountInB(buy, sell, params);
    amount.Some? ==> RouteFits(buy, sell, amount.value)
  }

  /** The profit found, or the least that would have been accepted. */
  function Base(best: Option<Opportunity>, params: Params): nat
  {
    if best.Some? then best.value.expectedProfitB else params.minProfitB
  }

  /** The pair that the search evaluates for a pool. */
  function BuySide(swap: Swap, after: PoolSnapshot, other: PoolSnapshot): PoolSnapshot
  {
    if swap.SwapExactAForB? then after else other
  }

  function SellSide(swap: Swap, after: PoolSnapshot, other: PoolSnapshot): PoolSnapshot
  {
    if swap.SwapExactAForB? then other else after
  }

  /** The whole search: for every other pool of the snapshot, in the direction it tries, and every
      input up to the limit, the quoted profit exceeds the profit found, or the minimum profit if
      nothing is found, by less than 2 + 997*b2/(1000*a2), unless the pair is one that the rejection
      tests get wrong. */
  lemma SearchNearOptimal(state: StateSnapshot, candidate: Candidate, swap: Swap, params: Params,
                          best: Option<Opportunity>, other: PoolSnapshot, after: PoolSnapshot,
                          y: U256, qy: RouteQuote)
    requires IsFindArbitrage(state, candidate, swap, params, best)
    requires VictimPoolAfter(state, candidate, swap, params) == Some(after)
    requires other in state.pools && other.pool.address != candidate.pool.address
    requires var buy, sell := BuySide(swap, after, other), SellSide(swap, after, other);
             && ChosenFits(buy, sell, params) && !WronglyRejected(buy, sell, params)
             && 1 <= y <= params.maxAmountInB && RouteFits(buy, sell, y) && QuoteRoute(buy, sell, y) == Some(qy)
    ensures var sell := SellSide(swap, after, other);
            WithinBase(sell.reserveA, sell.reserveB, Base(best, params), y, qy.amountOutB)
  {
    OfferAtMost(state, candidate, swap, params, best, other, after);
    PairBound(BuySide(swap, after, other), SellSide(swap, after, other), params, Base(best, params), y, qy);
  }

  lemma OfferAtMost(state: StateSnapshot, candidate: Candidate, swap: Swap, params: Params,
                    best: Option<Opportunity>, other: PoolSnapshot, after: PoolSnapshot)
    requires IsFindArbitrage(state, candidate, swap, params, best)
    requires VictimPoolAfter(state, candidate, swap, params) == Some(after)
    requires other in state.pools && other.pool.address != candidate.pool.address
    ensures params.minProfitB <= Base(best, params)
    ensures var offer := EvaluatePool(BuySide(swap, after, other), SellSide(swap, after, other), params);
            offer.Some? ==> offer.value.expectedProfitB <= Base(best, params)
  {
    var offers := Offers(state.pools, candidate.pool.address, after, swap, params);
    var k :| 0 <= k < |state.pools| && state.pools[k] == other;
    assert offers[k] == EvaluatePool(BuySide(swap, after, other), SellSide(swap, after, other), params);
    if best.Some? {
      ResultIsSound(state, candidate, swap, params, best.value);
    }
  }
}
