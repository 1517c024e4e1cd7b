/** The search of find_arbitrage over the pools of one snapshot. */
module FindArbitrage {
  import opened Common
  import opened Domain
  import opened Calculator

  function BestRouteQuote(buy: PoolSnapshot, sell: PoolSnapshot, params: Params): Option<RouteQuote>
  {
    var amount :- OptimalAmountInB(buy, sell, params);
    QuoteRoute(buy, sell, amount)
  }

  function EvaluatePool(buy: PoolSnapshot, sell: PoolSnapshot, params: Params): (r: Option<Opportunity>)
  {
    var quote :- BestRouteQuote(buy, sell, params);
    if quote.amountOutB <= quote.amountInB then None
    else
      var profit := quote.amountOutB - quote.amountInB;
      if profit < params.minProfitB then None
      else
        Some(Opportunity(buy.pool, sell.pool, quote.amountInB,
                         ApplyBps(quote.amountOutA, params.minOutputBps),
                         ApplyBps(quote.amountOutB, params.minOutputBps),
                         params.minProfitB,
                         quote.amountOutA, quote.amountOutB, profit))
  }

  /** The first snapshot with the given pool address. */
  function FindPoolSnapshot(pools: seq<PoolSnapshot>, address: Address): (r: Option<PoolSnapshot>)
    ensures r.Some? ==> r.value in pools && r.value.pool.address == address
    ensures r.None? ==> forall p :: p in pools ==> p.pool.address != address
  {
    if pools == [] then None
    else if pools[0].pool.address == address then Some(pools[0])
    else FindPoolSnapshot(pools[1..], address)
  }

  /** The opportunity that pool `other` offers against the pool changed by the victim: an
      A-for-B victim makes TokenA cheap in its own pool, a B-for-A victim makes it dear. The
      victim's own pool offers nothing. */
  function Offer(other: PoolSnapshot, victim: Address, after: PoolSnapshot, swap: Swap, params: Params)
    : Option<Opportunity>
  {
    if other.pool.address == victim then None
    else if swap.SwapExactAForB? then EvaluatePool(after, other, params)
    else EvaluatePool(other, after, params)
  }

  function Offers(pools: seq<PoolSnapshot>, victim: Address, after: PoolSnapshot, swap: Swap, params: Params)
    : (offers: seq<Option<Opportunity>>)
    ensures |offers| == |pools|
    ensures forall i :: 0 <= i < |pools| ==> offers[i] == Offer(pools[i], victim, after, swap, params)
  {
    seq(|pools|, i requires 0 <= i < |pools| => Offer(pools[i], victim, after, swap, params))
  }

  /** `best` is the earliest offer of maximal expected profit, or nothing exactly when there is
      no offer. */
  ghost predicate BestOf(offers: seq<Option<Opportunity>>, best: Option<Opportunity>)
  {
    if best.None? then forall i :: 0 <= i < |offers| ==> offers[i].None?
    else exists k :: 0 <= k < |offers| && offers[k] == best && EarliestMaximum(offers, k)
  }

  ghost predicate EarliestMaximum(offers: seq<Option<Opportunity>>, k: int)
    requires 0 <= k < |offers| && offers[k].Some?
  {
    && (forall i :: 0 <= i < |offers| && offers[i].Some? ==>
          offers[i].value.expectedProfitB <= offers[k].value.expectedProfitB)
    && (forall i :: 0 <= i < k && offers[i].Some? ==>
          offers[i].value.expectedProfitB < offers[k].value.expectedProfitB)
  }

  lemma BestOfNext(offers: seq<Option<Opportunity>>, offer: Option<Opportunity>,
                   before: Option<Opportunity>, best: Option<Opportunity>)
    requires BestOf(offers, before)
    requires best == if offer.Some?
                        && (before.None? || offer.value.expectedProfitB > before.value.expectedProfitB)
                     then offer else before
    ensures BestOf(offers + [offer], best)
  {
    var next := offers + [offer];
    if best.Some? && best == before && !(offer.Some? && best == offer) {
      var k :| 0 <= k < |offers| && offers[k] == before && EarliestMaximum(offers, k);
      assert next[k] == best && EarliestMaximum(next, k);
    } else if best.Some? && before.None? {
      assert next[|offers|] == best && EarliestMaximum(next, |offers|);
    } else if best.Some? {
      var k :| 0 <= k < |offers| && offers[k] == before && EarliestMaximum(offers, k);
      if best == before {
        assert next[k] == best && EarliestMaximum(next, k);
      } else {
        assert next[|offers|] == best && EarliestMaximum(next, |offers|);
      }
    }
  }

  /** The guards of find_arbitrage before its search: the victim's pool after the swap. */
  function VictimPoolAfter(state: StateSnapshot, candidate: Candidate, swap: Swap, params: Params)
    : (r: Option<PoolSnapshot>)
  {
    if params.minOutputBps > BPS_DENOMINATOR || params.maxAmountInB == 0 then None
    else
      var pool :- FindPoolSnapshot(state.pools, candidate.pool.address);
      ApplyVictimSwap(pool, swap)
  }

  /** find_arbitrage: the offer of the earliest pool of maximal expected profit, or nothing
      exactly when a guard fails or no other pool offers anything. */
  method FindArbitrage(state: StateSnapshot, candidate: Candidate, swap: Swap, params: Params)
    returns (best: Option<Opportunity>)
    ensures IsFindArbitrage(state, candidate, swap, params, best)
  {
    if params.minOutputBps > BPS_DENOMINATOR {
      return None;
    }
    if params.maxAmountInB == 0 {
      return None;
    }
    var pool := FindPoolSnapshot(state.pools, candidate.pool.address);
    if pool.None? {
      return None;
    }
    var afterVictim := ApplyVictimSwap(pool.value, swap);
    if afterVictim.None? {
      return None;
    }
    best := BestOffer(Offers(state.pools, candidate.pool.address, afterVictim.value, swap, params));
  }

  /** The loop over the pools' offers: is_better replaces the best one only by a larger profit. */
  method BestOffer(offers: seq<Option<Opportunity>>) returns (best: Option<Opportunity>)
    ensures BestOf(offers, best)
  {
    best := None;
    for i := 0 to |offers|
      invariant BestOf(offers[..i], best)
    {
      var opportunity := offers[i];
      ghost var before := best;
      if opportunity.Some?
         && (best.None? || opportunity.value.expectedProfitB > best.value.expectedProfitB) {
        best := opportunity;
      }
      BestOfNext(offers[..i], opportunity, before, best);
      assert offers[..i + 1] == offers[..i] + [opportunity];
    }
    assert offers[..|offers|] == offers;
  }

  /** The search as a value. */
  function Best(offers: seq<Option<Opportunity>>): (best: Option<Opportunity>)
    ensures BestOf(offers, best)
  {
    if offers == [] then None
    else
      var n := |offers| - 1;
      var before := Best(offers[..n]);
      var best := if offers[n].Some?
                     && (before.None? || offers[n].value.expectedProfitB > before.value.expectedProfitB)
                  then offers[n] else before;
      BestOfNext(offers[..n], offers[n], before, best);
      assert offers == offers[..n] + [offers[n]];
      best
  }

  function Search(state: StateSnapshot, candidate: Candidate, swap: Swap, params: Params): (r: Option<Opportunity>)
    ensures IsFindArbitrage(state, candidate, swap, params, r)
  {
    var after :- VictimPoolAfter(state, candidate, swap, params);
    Best(Offers(state.pools, candidate.pool.address, after, swap, params))
  }

  ghost predicate IsFindArbitrage(state: StateSnapshot, candidate: Candidate, swap: Swap, params: Params,
                                  best: Option<Opportunity>)
  {
    var after := VictimPoolAfter(state, candidate, swap, params);
    if after.None? then best == None
    else BestOf(Offers(state.pools, candidate.pool.address, after.value, swap, params), best)
  }

  /** The contract of find_arbitrage determines its result. */
  lemma FindArbitrageUnique(state: StateSnapshot, candidate: Candidate, swap: Swap, params: Params,
                            x: Option<Opportunity>, y: Option<Opportunity>)
    requires IsFindArbitrage(state, candidate, swap, params, x)
    requires IsFindArbitrage(state, candidate, swap, params, y)
    ensures x == y
  {
    var after := VictimPoolAfter(state, candidate, swap, params);
    if after.Some? {
      BestOfUnique(Offers(state.pools, candidate.pool.address, after.value, swap, params), x, y);
    }
  }

  lemma BestOfUnique(offers: seq<Option<Opportunity>>, x: Option<Opportunity>, y: Option<Opportunity>)
    requires BestOf(offers, x) && BestOf(offers, y)
    ensures x == y
  {
  }

  /** A found opportunity comes from the changed pool and another pool of the snapshot. */
  lemma ResultComesFrom(state: StateSnapshot, candidate: Candidate, swap: Swap, params: Params, o: Opportunity)
    returns (buy: PoolSnapshot, sell: PoolSnapshot)
    requires IsFindArbitrage(state, candidate, swap, params, Some(o))
    ensures var after := VictimPoolAfter(state, candidate, swap, params);
            && after.Some?
            && (if swap.SwapExactAForB? then buy == after.value && sell in state.pools
                else sell == after.value && buy in state.pools)
    ensures (if swap.SwapExactAForB? then sell else buy).pool.address != candidate.pool.address
    ensures EvaluatePool(buy, sell, params) == Some(o)
  {
    var after := VictimPoolAfter(state, candidate, swap, params).value;
    var offers := Offers(state.pools, candidate.pool.address, after, swap, params);
    var k :| 0 <= k < |offers| && offers[k] == Some(o) && EarliestMaximum(offers, k);
    var other := state.pools[k];
    buy, sell := if swap.SwapExactAForB? then after else other, if swap.SwapExactAForB? then other else after;
  }

  lemma VictimPoolKeepsAddress(state: StateSnapshot, candidate: Candidate, swap: Swap, params: Params)
    requires VictimPoolAfter(state, candidate, swap, params).Some?
    ensures VictimPoolAfter(state, candidate, swap, params).value.pool.address == candidate.pool.address
    ensures params.minOutputBps <= BPS_DENOMINATOR
  {
  }

  /** What every result of the search respects: two different pools, the input cap, the minimum
      profit and, even where apply_bps wraps, minimum outputs no greater than the expected ones. */
  lemma ResultIsSound(state: StateSnapshot, candidate: Candidate, swap: Swap, params: Params, o: Opportunity)
    requires IsFindArbitrage(state, candidate, swap, params, Some(o))
    ensures o.buyPool.address != o.sellPool.address
    ensures candidate.pool.address
            == if swap.SwapExactAForB? then o.buyPool.address else o.sellPool.address
    ensures 0 < o.amountInB <= params.maxAmountInB
    ensures o.expectedProfitB == o.expectedAmountOutB - o.amountInB > 0
    ensures o.minProfitB == params.minProfitB <= o.expectedProfitB
    ensures o.minAmountOutA <= o.expectedAmountOutA && o.minAmountOutB <= o.expectedAmountOutB
  {
    var buy, sell := ResultComesFrom(state, candidate, swap, params, o);
    VictimPoolKeepsAddress(state, candidate, swap, params);
    EvaluatePoolIsSound(buy, sell, params, o);
  }

  lemma EvaluatePoolIsSound(buy: PoolSnapshot, sell: PoolSnapshot, params: Params, o: Opportunity)
    requires EvaluatePool(buy, sell, params) == Some(o)
    ensures o.buyPool == buy.pool && o.sellPool == sell.pool
    ensures QuoteRoute(buy, sell, o.amountInB)
            == Some(RouteQuote(o.amountInB, o.expectedAmountOutA, o.expectedAmountOutB))
    ensures 0 < o.amountInB <= params.maxAmountInB
    ensures 0 < o.expectedProfitB == o.expectedAmountOutB - o.amountInB
    ensures o.minProfitB == params.minProfitB <= o.expectedProfitB
    ensures o.minAmountOutA == ApplyBps(o.expectedAmountOutA, params.minOutputBps)
    ensures o.minAmountOutB == ApplyBps(o.expectedAmountOutB, params.minOutputBps)
  {
    OptimalAmountExact(buy, sell, params);
  }
}
