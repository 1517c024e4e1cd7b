/** Quote equals execution: Knight's wrapping calculator and the checked contracts agree. */
module Refinement {
  import opened Common
  import opened Domain
  import opened ConstantProduct
  import opened Calculator
  import opened FindArbitrage
  import opened Ledger
  import opened LedgerInvariant
  import opened Backrun
  import opened Optimality

  /** A pool snapshot that shows the reserves of the chain. */
  ghost predicate Shows(snapshot: PoolSnapshot, w: World)
  {
    && snapshot.pool.address in w.pools
    && w.pools[snapshot.pool.address].reserveA == snapshot.reserveA
    && w.pools[snapshot.pool.address].reserveB == snapshot.reserveB
  }

  /** The victim's transaction on chain. */
  function ExecuteSwap(w: World, sender: Address, pool: Address, swap: Swap): Option<Swapped>
  {
    match swap
    case SwapExactAForB(amountIn, min) => Ledger.SwapExactAForB(w, sender, pool, amountIn, min)
    case SwapExactBForA(amountIn, min) => Ledger.SwapExactBForA(w, sender, pool, amountIn, min)
  }

  /** On an exact quote the calculator books exactly what the contract books. */
  lemma PredictAForB(snapshot: PoolSnapshot, x: U256, min: U256, d': Dex, out: nat)
    requires x > 0 && snapshot.reserveA > 0 && snapshot.reserveB > 0
    requires Fits(x, snapshot.reserveA, snapshot.reserveB)
    requires min <= out == ExactOut(x, snapshot.reserveA, snapshot.reserveB) < snapshot.reserveB
    requires d'.reserveA == snapshot.reserveA + x < WORD && d'.reserveB == snapshot.reserveB - out
    ensures ApplyVictimSwap(snapshot, Swap.SwapExactAForB(x, min))
            == Some(PoolSnapshot(snapshot.pool, d'.reserveA, d'.reserveB))
  {
    AmountOutExact(x, snapshot.reserveA, snapshot.reserveB);
  }

  lemma PredictBForA(snapshot: PoolSnapshot, x: U256, min: U256, d': Dex, out: nat)
    requires x > 0 && snapshot.reserveA > 0 && snapshot.reserveB > 0
    requires Fits(x, snapshot.reserveB, snapshot.reserveA)
    requires min <= out == ExactOut(x, snapshot.reserveB, snapshot.reserveA) < snapshot.reserveA
    requires d'.reserveB == snapshot.reserveB + x < WORD && d'.reserveA == snapshot.reserveA - out
    ensures ApplyVictimSwap(snapshot, Swap.SwapExactBForA(x, min))
            == Some(PoolSnapshot(snapshot.pool, d'.reserveA, d'.reserveB))
  {
    AmountOutExact(x, snapshot.reserveB, snapshot.reserveA);
  }

  lemma SwapKeeps(w: World, sender: Address, pool: Address, swap: Swap, s: Swapped)
    requires WorldOk(w) && sender !in w.pools && sender != ZERO_ADDRESS
    requires ExecuteSwap(w, sender, pool, swap) == Some(s)
    ensures pool in w.pools && OnlyPoolChanges(w, s.world, pool) && WorldOk(s.world)
    ensures s.world.backrun == w.backrun && s.world.operator == w.operator
    ensures s.world.pools[pool].reserveA < WORD && s.world.pools[pool].reserveB < WORD
  {
    match swap {
      case SwapExactAForB(x, min) =>
        SwapAForBEffect(w, sender, pool, x, min, s);
        SwapAForBKeepsWorld(w, sender, pool, x, min, s);
      case SwapExactBForA(x, min) =>
        SwapBForAEffect(w, sender, pool, x, min, s);
        SwapBForAKeepsWorld(w, sender, pool, x, min, s);
    }
    VictimReserveFits(s.world, pool);
  }

  lemma AForBAgrees(w: World, sender: Address, snapshot: PoolSnapshot, x: U256, min: U256, s: Swapped)
    requires WorldOk(w) && sender !in w.pools && sender != ZERO_ADDRESS && Shows(snapshot, w)
    requires Ledger.SwapExactAForB(w, sender, snapshot.pool.address, x, min) == Some(s)
    requires snapshot.pool.address in s.world.pools
    requires s.world.pools[snapshot.pool.address].reserveA < WORD
    ensures ApplyVictimSwap(snapshot, Swap.SwapExactAForB(x, min)).Some?
    ensures Shows(ApplyVictimSwap(snapshot, Swap.SwapExactAForB(x, min)).value, s.world)
  {
    var pool := snapshot.pool.address;
    SwapAForBAccepts(w, sender, pool, x, min);
    SwapAForBEffect(w, sender, pool, x, min, s);
    PredictAForB(snapshot, x, min, s.world.pools[pool], s.amountOut);
  }

  lemma BForAAgrees(w: World, sender: Address, snapshot: PoolSnapshot, x: U256, min: U256, s: Swapped)
    requires WorldOk(w) && sender !in w.pools && sender != ZERO_ADDRESS && Shows(snapshot, w)
    requires Ledger.SwapExactBForA(w, sender, snapshot.pool.address, x, min) == Some(s)
    requires snapshot.pool.address in s.world.pools
    requires s.world.pools[snapshot.pool.address].reserveB < WORD
    ensures ApplyVictimSwap(snapshot, Swap.SwapExactBForA(x, min)).Some?
    ensures Shows(ApplyVictimSwap(snapshot, Swap.SwapExactBForA(x, min)).value, s.world)
  {
    var pool := snapshot.pool.address;
    SwapBForAAccepts(w, sender, pool, x, min);
    SwapBForAEffect(w, sender, pool, x, min, s);
    PredictBForA(snapshot, x, min, s.world.pools[pool], s.amountOut);
  }

  /** A swap that succeeds on chain is one the calculator predicts exactly. */
  lemma VictimSwapAgrees(w: World, sender: Address, snapshot: PoolSnapshot, swap: Swap, s: Swapped)
    requires WorldOk(w) && sender !in w.pools && sender != ZERO_ADDRESS && Shows(snapshot, w)
    requires ExecuteSwap(w, sender, snapshot.pool.address, swap) == Some(s)
    ensures ApplyVictimSwap(snapshot, swap).Some?
    ensures Shows(ApplyVictimSwap(snapshot, swap).value, s.world)
    ensures OnlyPoolChanges(w, s.world, snapshot.pool.address) && WorldOk(s.world)
    ensures s.world.backrun == w.backrun && s.world.operator == w.operator
  {
    SwapKeeps(w, sender, snapshot.pool.address, swap, s);
    match swap {
      case SwapExactAForB(x, min) => AForBAgrees(w, sender, snapshot, x, min, s);
      case SwapExactBForA(x, min) => BForAAgrees(w, sender, snapshot, x, min, s);
    }
  }

  /** On the chain the growing reserve cannot wrap, because it is backed: a swap that succeeds
      leaves every pool rejected that the untried direction rejected before. */
  lemma DirectionStaysRejectedOnChain(w: World, sender: Address, snapshot: PoolSnapshot, swap: Swap, s: Swapped,
                                      other: PoolSnapshot, params: Params)
    requires WorldOk(w) && sender !in w.pools && sender != ZERO_ADDRESS && Shows(snapshot, w)
    requires ExecuteSwap(w, sender, snapshot.pool.address, swap) == Some(s)
    ensures ApplyVictimSwap(snapshot, swap).Some?
    ensures var after := ApplyVictimSwap(snapshot, swap).value;
            && (swap.SwapExactAForB? && RootRejects(other, snapshot) ==>
                  OptimalAmountInB(other, after, params) == None)
            && (swap.SwapExactBForA? && RootRejects(snapshot, other) ==>
                  OptimalAmountInB(after, other, params) == None)
  {
    var pool := snapshot.pool.address;
    VictimSwapAgrees(w, sender, snapshot, swap, s);
    SwapKeeps(w, sender, pool, swap, s);
    match swap {
      case SwapExactAForB(x, min) => SwapAForBEffect(w, sender, pool, x, min, s);
      case SwapExactBForA(x, min) => SwapBForAEffect(w, sender, pool, x, min, s);
    }
    OtherDirectionStaysRejected(snapshot, swap, ApplyVictimSwap(snapshot, swap).value, other, params);
  }

  /** Backed reserves are words. */
  lemma VictimReserveFits(w: World, pool: Address)
    requires WorldOk(w) && pool in w.pools
    ensures w.pools[pool].reserveA < WORD && w.pools[pool].reserveB < WORD
  {
    assert PoolOk(w, pool);
    BalanceFits(w.tokens[w.pools[pool].tokenA], pool);
    BalanceFits(w.tokens[w.pools[pool].tokenB], pool);
  }

  /** The calculator's two quotes stay inside 256 bits. */
  predicate QuotesFit(buy: Dex, sell: Dex, amountInB: nat)
  {
    amountInB > 0 ==>
      && Fits(amountInB, buy.reserveB, buy.reserveA)
      && Fits(ExactOut(amountInB, buy.reserveB, buy.reserveA), sell.reserveA, sell.reserveB)
  }

  lemma RouteQuoteAgrees(buy: PoolSnapshot, sell: PoolSnapshot, d1: Dex, d2: Dex, x: U256, outA: U256, outB: U256)
    requires d1.reserveA == buy.reserveA && d1.reserveB == buy.reserveB
    requires d2.reserveA == sell.reserveA && d2.reserveB == sell.reserveB
    requires QuoteRoute(buy, sell, x) == Some(RouteQuote(x, outA, outB)) && QuotesFit(d1, d2, x)
    ensures x > 0 && outA > 0 && d1.reserveA > 0 && d1.reserveB > 0 && d2.reserveA > 0 && d2.reserveB > 0
    ensures outA == ExactOut(x, d1.reserveB, d1.reserveA)
    ensures outB == ExactOut(outA, d2.reserveA, d2.reserveB)
  {
    AmountOutExact(x, buy.reserveB, buy.reserveA);
    AmountOutExact(outA, sell.reserveA, sell.reserveB);
  }

  /** On the chain's reserves the minimum outputs and profit of an opportunity never stop it. */
  lemma OpportunityAccepted(d1: Dex, d2: Dex, buy: PoolSnapshot, sell: PoolSnapshot, params: Params, o: Opportunity)
    requires d1.reserveA == buy.reserveA && d1.reserveB == buy.reserveB
    requires d2.reserveA == sell.reserveA && d2.reserveB == sell.reserveB
    requires params.minOutputBps <= BPS_DENOMINATOR
    requires EvaluatePool(buy, sell, params) == Some(o)
    ensures && RouteAccepts(d1, d2, o.amountInB, o.minAmountOutA, o.minAmountOutB)
            && RouteOutB(d1, d2, o.amountInB) >= o.amountInB + o.minProfitB
            <==> QuotesFit(d1, d2, o.amountInB)
  {
    EvaluatePoolIsSound(buy, sell, params, o);
    if QuotesFit(d1, d2, o.amountInB) {
      RouteQuoteAgrees(buy, sell, d1, d2, o.amountInB, o.expectedAmountOutA, o.expectedAmountOutB);
    }
  }

  /** An opportunity evaluated on the chain's reserves executes exactly when no quote wraps and
      the executor's guards hold ... */
  lemma OpportunityExecutes(w: World, sender: Address, buy: PoolSnapshot, sell: PoolSnapshot,
                            params: Params, o: Opportunity)
    requires WorldOk(w) && Shows(buy, w) && Shows(sell, w)
    requires params.minOutputBps <= BPS_DENOMINATOR
    requires EvaluatePool(buy, sell, params) == Some(o)
    ensures o.buyPool == buy.pool && o.sellPool == sell.pool
    ensures ExecuteOpportunity(w, sender, o).Some?
            <==> && Guards(w, sender, o.buyPool.address, o.sellPool.address, o.amountInB)
                 && QuotesFit(w.pools[o.buyPool.address], w.pools[o.sellPool.address], o.amountInB)
  {
    EvaluatePoolIsSound(buy, sell, params, o);
    BackrunAccepts(w, sender, o.buyPool.address, o.sellPool.address, o.amountInB,
                   o.minAmountOutA, o.minAmountOutB, o.minProfitB);
    OpportunityAccepted(w.pools[buy.pool.address], w.pools[sell.pool.address], buy, sell, params, o);
  }

  /** ... and then with exactly the expected outputs and profit. */
  lemma OpportunityOutputs(w: World, sender: Address, buy: PoolSnapshot, sell: PoolSnapshot,
                           params: Params, o: Opportunity, e: Executed)
    requires WorldOk(w) && Shows(buy, w) && Shows(sell, w)
    requires params.minOutputBps <= BPS_DENOMINATOR
    requires EvaluatePool(buy, sell, params) == Some(o)
    requires ExecuteOpportunity(w, sender, o) == Some(e)
    ensures AsExpected(w, o, e)
  {
    EvaluatePoolIsSound(buy, sell, params, o);
    OpportunityExecutes(w, sender, buy, sell, params, o);
    RouteQuoteAgrees(buy, sell, w.pools[buy.pool.address], w.pools[sell.pool.address],
                     o.amountInB, o.expectedAmountOutA, o.expectedAmountOutB);
    BackrunEffect(w, sender, o.buyPool.address, o.sellPool.address, o.amountInB,
                  o.minAmountOutA, o.minAmountOutB, o.minProfitB, e);
  }

  function ExecuteOpportunity(w: World, sender: Address, o: Opportunity): Option<Executed>
  {
    ExecuteBackrun(w, sender, o.buyPool.address, o.sellPool.address, o.amountInB,
                   o.minAmountOutA, o.minAmountOutB, o.minProfitB)
  }

  /** Both outputs are the expected ones and the executor gains exactly the expected profit. */
  ghost predicate AsExpected(w: World, o: Opportunity, e: Executed)
  {
    && o.buyPool.address in w.pools
    && var tokenB := w.pools[o.buyPool.address].tokenB;
       && tokenB in w.tokens && tokenB in e.world.tokens
       && e.amountOutA == o.expectedAmountOutA && e.amountOutB == o.expectedAmountOutB
       && e.world.tokens[tokenB].Balance(w.backrun)
          == w.tokens[tokenB].Balance(w.backrun) + o.expectedProfitB
  }

  /** The whole story: the victim's swap succeeds from the reserves of the snapshot, the search
      finds an opportunity; then the backrun on the chain after the victim succeeds exactly when
      its guards hold and no quote wrapped, with exactly the expected outputs and profit. */
  lemma QuoteEqualsExecution(w: World, victim: Address, state: StateSnapshot, candidate: Candidate, swap: Swap,
                             params: Params, s: Swapped, o: Opportunity, sender: Address)
    requires WorldOk(w) && victim !in w.pools && victim != ZERO_ADDRESS
    requires forall p :: p in state.pools ==> Shows(p, w)
    requires ExecuteSwap(w, victim, candidate.pool.address, swap) == Some(s)
    requires IsFindArbitrage(state, candidate, swap, params, Some(o))
    ensures o.buyPool.address in s.world.pools && o.sellPool.address in s.world.pools
    ensures ExecuteOpportunity(s.world, sender, o).Some?
            <==> && Guards(s.world, sender, o.buyPool.address, o.sellPool.address, o.amountInB)
                 && QuotesFit(s.world.pools[o.buyPool.address], s.world.pools[o.sellPool.address], o.amountInB)
    ensures ExecuteOpportunity(s.world, sender, o).Some? ==>
              AsExpected(s.world, o, ExecuteOpportunity(s.world, sender, o).value)
  {
    var buy, sell := ResultComesFrom(state, candidate, swap, params, o);
    VictimPoolKeepsAddress(state, candidate, swap, params);
    var before := FindPoolSnapshot(state.pools, candidate.pool.address).value;
    VictimSwapAgrees(w, victim, before, swap, s);
    EvaluatePoolIsSound(buy, sell, params, o);
    var other := if swap.SwapExactAForB? then sell else buy;
    OtherPoolStillShown(other, w, s.world, candidate.pool.address);
    OpportunityExecutes(s.world, sender, buy, sell, params, o);
    var r := ExecuteOpportunity(s.world, sender, o);
    if r.Some? {
      OpportunityOutputs(s.world, sender, buy, sell, params, o, r.value);
    }
  }

  lemma OtherPoolStillShown(p: PoolSnapshot, w: World, w': World, changed: Address)
    requires Shows(p, w) && p.pool.address != changed && OnlyPoolChanges(w, w', changed)
    ensures Shows(p, w')
  {
  }
}
