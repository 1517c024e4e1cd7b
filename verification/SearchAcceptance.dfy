/** When find_arbitrage accepts what: the registers of a quote for every input, the victim's own
    minimum, and exactly when the search finds something. */
module SearchAcceptance {
  import opened Common
  import opened Domain
  import opened ConstantProduct
  import opened Calculator
  import opened Optimality
  import opened FindArbitrage
  import opened Ledger
  import opened LedgerInvariant
  import opened Refinement

  // ---------------------------------------------------------------- registers

  lemma WrapIsMod(m: nat, x: nat)
    requires m > 0
    ensures exists q: nat :: x == q * m + Wrap(m, x)
  {
    if x < m {
      assert x == 0 * m + Wrap(m, x);
    } else {
      DivMod(x, m);
      assert x == (x / m) * m + Wrap(m, x);
    }
  }

  lemma WrapUnique(m: nat, x: nat, q: nat, r: nat)
    requires m > 0 && r < m && x == q * m + r
    ensures Wrap(m, x) == r
  {
    if x < m {
      assert q == 0 by {
        if q > 0 {
          MulAtMost(1, q, m);
        }
      }
    } else {
      ModUnique(x, m, q, r);
    }
  }

  /** Wrapping early changes nothing: the registers hold the exact values modulo their width. */
  lemma WrapTimes(m: nat, x: nat, y: nat)
    requires m > 0
    ensures Wrap(m, Times(Wrap(m, x), y)) == Wrap(m, Times(x, y))
  {
    WrapIsMod(m, x);
    var q: nat :| x == q * m + Wrap(m, x);
    var p := Times(Wrap(m, x), y);
    WrapIsMod(m, p);
    var k: nat :| p == k * m + Wrap(m, p);
    Distribute(q, m, Wrap(m, x), y);
    Collect(q * y, k, m);
    WrapUnique(m, Times(x, y), q * y + k, Wrap(m, p));
  }

  lemma Distribute(q: nat, m: nat, r: nat, y: nat)
    ensures (q * m + r) * y == (q * y) * m + r * y
  {
  }

  lemma Collect(a: nat, b: nat, m: nat)
    ensures a * m + b * m == (a + b) * m
  {
  }

  lemma WrapPlus(m: nat, x: nat, y: nat)
    requires m > 0
    ensures Wrap(m, Wrap(m, x) + Wrap(m, y)) == Wrap(m, x + y)
  {
    WrapIsMod(m, x);
    WrapIsMod(m, y);
    var q: nat :| x == q * m + Wrap(m, x);
    var p: nat :| y == p * m + Wrap(m, y);
    var s := Wrap(m, x) + Wrap(m, y);
    WrapIsMod(m, s);
    var k: nat :| s == k * m + Wrap(m, s);
    Collect(q, p, m);
    Collect(q + p, k, m);
    WrapUnique(m, x + y, q + p + k, Wrap(m, s));
  }

  /** A quote for every input, wrapping or not: nothing for a zero or for a denominator that is zero
      modulo 2^256, and otherwise the quotient of both exact products modulo 2^256. */
  lemma AmountOutForAll(x: U256, reserveIn: U256, reserveOut: U256)
    ensures var num, den := Wrap(WORD, Times(997 * x, reserveOut)), Wrap(WORD, 1000 * reserveIn + 997 * x);
            AmountOut(x, reserveIn, reserveOut)
            == if x == 0 || reserveIn == 0 || reserveOut == 0 || den == 0 then None else Some(Quotient(num, den))
  {
    WrapTimes(WORD, x * FEE_NUMERATOR, reserveOut);
    WrapPlus(WORD, reserveIn * FEE_DENOMINATOR, x * FEE_NUMERATOR);
    WrapTwice(WORD, x * FEE_NUMERATOR);
  }

  lemma WrapTwice(m: nat, x: nat)
    requires m > 0
    ensures Wrap(m, Wrap(m, x)) == Wrap(m, x)
  {
  }

  /** Basis points round down: the value times bps, modulo 2^256, over 10000. */
  lemma BpsExact(value: U256, bps: nat)
    ensures var product := Wrap(WORD, value * bps);
            BPS_DENOMINATOR * ApplyBps(value, bps) <= product < BPS_DENOMINATOR * (ApplyBps(value, bps) + 1)
  {
    QuotientFloors(Wrap(WORD, value * bps), BPS_DENOMINATOR);
  }

  // ---------------------------------------------------------------- the victim

  function ReserveIn(p: PoolSnapshot, swap: Swap): U256
  {
    if swap.SwapExactAForB? then p.reserveA else p.reserveB
  }

  function ReserveOut(p: PoolSnapshot, swap: Swap): U256
  {
    if swap.SwapExactAForB? then p.reserveB else p.reserveA
  }

  /** The quote of the victim's swap does not wrap. */
  predicate SwapFits(p: PoolSnapshot, swap: Swap)
  {
    Fits(swap.amountIn, ReserveIn(p, swap), ReserveOut(p, swap))
  }

  /** A victim is predicted to succeed exactly when input and reserves are positive and the quote meets
      its own minimum. */
  lemma VictimAccepted(p: PoolSnapshot, swap: Swap)
    requires SwapFits(p, swap)
    ensures ApplyVictimSwap(p, swap).Some?
            <==> && swap.amountIn > 0 && p.reserveA > 0 && p.reserveB > 0
                 && swap.minAmountOut <= ExactOut(swap.amountIn, ReserveIn(p, swap), ReserveOut(p, swap))
  {
    if swap.amountIn > 0 && p.reserveA > 0 && p.reserveB > 0 {
      AmountOutExact(swap.amountIn, ReserveIn(p, swap), ReserveOut(p, swap));
      OutBelowReserve(swap.amountIn, ReserveIn(p, swap), ReserveOut(p, swap));
    }
  }

  /** What is found is found behind a victim whose minimum is met. */
  lemma FoundMeetsMinimum(state: StateSnapshot, candidate: Candidate, swap: Swap, params: Params, o: Opportunity)
    requires IsFindArbitrage(state, candidate, swap, params, Some(o))
    ensures FindPoolSnapshot(state.pools, candidate.pool.address).Some?
    ensures var p := FindPoolSnapshot(state.pools, candidate.pool.address).value;
            SwapFits(p, swap) ==>
              && swap.amountIn > 0 && p.reserveA > 0 && p.reserveB > 0
              && swap.minAmountOut <= ExactOut(swap.amountIn, ReserveIn(p, swap), ReserveOut(p, swap))
  {
    var p := FindPoolSnapshot(state.pools, candidate.pool.address);
    if p.Some? && SwapFits(p.value, swap) {
      VictimAccepted(p.value, swap);
    }
  }

  /** The token that a swap pays in. */
  function TokenIn(d: Dex, swap: Swap): Address
  {
    if swap.SwapExactAForB? then d.tokenA else d.tokenB
  }

  /** The sender holds the input and has granted it to the pool. */
  predicate VictimFunded(w: World, sender: Address, pool: Address, swap: Swap)
  {
    && pool in w.pools && TokenIn(w.pools[pool], swap) in w.tokens
    && w.tokens[TokenIn(w.pools[pool], swap)].Balance(sender) >= swap.amountIn
    && w.tokens[TokenIn(w.pools[pool], swap)].Allowance(sender, pool) >= swap.amountIn
  }

  /** Prediction and chain agree in both directions: from the snapshot's reserves and with a quote that
      does not wrap, the victim succeeds on chain if and only if Knight predicts it, it is funded and
      its output is not zero. */
  lemma VictimPredictedExactly(w: World, sender: Address, p: PoolSnapshot, swap: Swap)
    requires WorldOk(w) && sender !in w.pools && sender != ZERO_ADDRESS && Shows(p, w) && SwapFits(p, swap)
    ensures ExecuteSwap(w, sender, p.pool.address, swap).Some?
            <==> && ApplyVictimSwap(p, swap).Some? && VictimFunded(w, sender, p.pool.address, swap)
                 && swap.amountIn > 0 && ExactOut(swap.amountIn, ReserveIn(p, swap), ReserveOut(p, swap)) > 0
  {
    var pool := p.pool.address;
    VictimAccepted(p, swap);
    assert PoolOk(w, pool);
    match swap
    case SwapExactAForB(x, min) => SwapAForBAccepts(w, sender, pool, x, min);
    case SwapExactBForA(x, min) => SwapBForAAccepts(w, sender, pool, x, min);
  }

  // ---------------------------------------------------------------- the search

  /** The chosen input's quote is a profit of at least the minimum. */
  predicate PairPays(buy: PoolSnapshot, sell: PoolSnapshot, params: Params)
  {
    var amount := OptimalAmountInB(buy, sell, params);
    && amount.Some? && QuoteRoute(buy, sell, amount.value).Some?
    && var out := QuoteRoute(buy, sell, amount.value).value.amountOutB;
       out > amount.value && out - amount.value >= params.minProfitB
  }

  lemma EvaluateAccepts(buy: PoolSnapshot, sell: PoolSnapshot, params: Params)
    ensures EvaluatePool(buy, sell, params).Some? <==> PairPays(buy, sell, params)
  {
  }

  /** The pair of pools that is tried for one other pool. */
  predicate OtherPays(other: PoolSnapshot, after: PoolSnapshot, swap: Swap, params: Params)
  {
    if swap.SwapExactAForB? then PairPays(after, other, params) else PairPays(other, after, params)
  }

  /** The search finds something if and only if the parameters are in range, the candidate's pool is in
      the snapshot, its victim is predicted to succeed and some other pool pays. */
  lemma SearchFinds(state: StateSnapshot, candidate: Candidate, swap: Swap, params: Params, best: Option<Opportunity>)
    requires IsFindArbitrage(state, candidate, swap, params, best)
    ensures best.Some?
            <==> && params.minOutputBps <= BPS_DENOMINATOR && params.maxAmountInB > 0
                 && var p := FindPoolSnapshot(state.pools, candidate.pool.address);
                    && p.Some? && ApplyVictimSwap(p.value, swap).Some?
                    && exists other :: other in state.pools && other.pool.address != candidate.pool.address
                         && OtherPays(other, ApplyVictimSwap(p.value, swap).value, swap, params)
  {
    var after := VictimPoolAfter(state, candidate, swap, params);
    if after.Some? {
      var offers := Offers(state.pools, candidate.pool.address, after.value, swap, params);
      if best.Some? {
        var k :| 0 <= k < |offers| && offers[k] == best && EarliestMaximum(offers, k);
        OfferPays(state.pools[k], candidate.pool.address, after.value, swap, params);
        assert state.pools[k] in state.pools;
      } else {
        forall other | other in state.pools && other.pool.address != candidate.pool.address
          ensures !OtherPays(other, after.value, swap, params)
        {
          var k :| 0 <= k < |state.pools| && state.pools[k] == other;
          OfferPays(state.pools[k], candidate.pool.address, after.value, swap, params);
          assert offers[k].None?;
        }
      }
    }
  }

  lemma OfferPays(other: PoolSnapshot, victim: Address, after: PoolSnapshot, swap: Swap, params: Params)
    ensures Offer(other, victim, after, swap, params).Some?
            <==> other.pool.address != victim && OtherPays(other, after, swap, params)
  {
    EvaluateAccepts(after, other, params);
    EvaluateAccepts(other, after, params);
  }

  /** The first snapshot of the address is the one that counts. */
  lemma {:induction false} FirstSnapshot(pools: seq<PoolSnapshot>, i: nat)
    requires i < |pools| && forall j :: 0 <= j < i ==> pools[j].pool.address != pools[i].pool.address
    ensures FindPoolSnapshot(pools, pools[i].pool.address) == Some(pools[i])
    decreases i
  {
    if i > 0 {
      FirstSnapshot(pools[1..], i - 1);
    }
  }
}
