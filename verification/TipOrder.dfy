/** What the order of an included pair is worth: in an empty pool the tips decide whether the backrun
    runs on the reserves it was priced for or on those of the head. */
module TipOrder {
  import opened Common
  import opened Domain
  import opened Ledger
  import opened LedgerInvariant
  import opened Backrun
  import opened LedgerRuns
  import opened Abi
  import opened Refinement
  import opened TxChain
  import opened Bundles
  import opened TxComposer
  import opened Outcome

  /** What the executor holds of a token. */
  function HoldingOf(w: World, token: Address): nat
  {
    if token in w.tokens then w.tokens[token].Balance(w.backrun) else 0
  }

  /** A swap of somebody else leaves the executor's holdings exactly as they are. */
  lemma SwapLeavesExecutor(w: World, sender: Address, pool: Address, swap: Swap, s: Swapped, token: Address)
    requires WorldOk(w) && CanSign(w, sender) && ExecuteSwap(w, sender, pool, swap) == Some(s)
    ensures HoldingOf(s.world, token) == HoldingOf(w, token) && s.world.backrun == w.backrun
  {
    match swap
    case SwapExactAForB(x, min) =>
      SwapAForBEffect(w, sender, pool, x, min, s);
      TradeLeavesExecutor(w, s.world, pool, sender, w.pools[pool].tokenA, w.pools[pool].tokenB, x, s.amountOut, token);
    case SwapExactBForA(x, min) =>
      SwapBForAEffect(w, sender, pool, x, min, s);
      TradeLeavesExecutor(w, s.world, pool, sender, w.pools[pool].tokenB, w.pools[pool].tokenA, x, s.amountOut, token);
  }

  lemma TradeLeavesExecutor(w: World, w': World, pool: Address, trader: Address, tokenIn: Address, tokenOut: Address,
                            amountIn: nat, amountOut: nat, token: Address)
    requires tokenIn in w.tokens && tokenOut in w.tokens && w.backrun != pool && w.backrun != trader
    requires Traded(w, w', pool, trader, tokenIn, tokenOut, amountIn, amountOut)
    ensures HoldingOf(w', token) == HoldingOf(w, token)
  {
  }

  /** The gain of a backrun is what its route returns on the reserves it meets. */
  lemma BackrunGain(w: World, sender: Address, o: Opportunity, e: Executed)
    requires WorldOk(w) && ExecuteOpportunity(w, sender, o) == Some(e)
    ensures o.buyPool.address in w.pools && o.sellPool.address in w.pools && e.world.backrun == w.backrun
    ensures var buy, sell := w.pools[o.buyPool.address], w.pools[o.sellPool.address];
            HoldingOf(e.world, buy.tokenB) - HoldingOf(w, buy.tokenB) == RouteOutB(buy, sell, o.amountInB) - o.amountInB
  {
    BackrunEffect(w, sender, o.buyPool.address, o.sellPool.address, o.amountInB,
                  o.minAmountOutA, o.minAmountOutB, o.minProfitB, e);
    DoneHolding(w, e.world, o.buyPool.address, o.sellPool.address, o.amountInB, e.amountOutA, e.amountOutB,
                w.pools[o.buyPool.address].tokenB);
  }

  // ---------------------------------------------------------------- the backrun first

  /** A backrun that outbids its victim runs first. */
  lemma OutbidRan(c: Chain, items: seq<Item>, f: Faults, r: BundleResult, v: Transaction, b: Transaction)
    requires ChainOk(c) && c.pool == [] && |items| == 2 && items[0].tx == v && items[1].tx == b
    requires v.tip < b.tip && ExecuteBundle(c, items, f).result == Some(r) && r.included
    ensures PairRuns(c, b, v)
    ensures ExecuteBundle(c, items, f).chain.latest == Built(c, [b, v]).block
  {
    PairResult(c, items, f, r, v, b);
    assert c.pool + [v, b] == [v, b];
    PairOrder(v, b);
    assert [b, v] + [] == [b, v];
    FirstTwoRan(c, b, v, []);
  }

  /** What the executor gains over a block, in the token that the opportunity trades for. */
  function Gain(w: World, w': World, o: Opportunity): int
    requires o.buyPool.address in w.pools
  {
    HoldingOf(w', w.pools[o.buyPool.address].tokenB) - HoldingOf(w, w.pools[o.buyPool.address].tokenB)
  }

  /** What the opportunity's route returns on the reserves of a state, less its input. */
  function RouteGain(w: World, o: Opportunity): int
    requires o.buyPool.address in w.pools && o.sellPool.address in w.pools
  {
    RouteOutB(w.pools[o.buyPool.address], w.pools[o.sellPool.address], o.amountInB) - o.amountInB
  }

  /** The two steps of a block with the backrun first. */
  lemma BackrunThenSwap(w: World, v: Transaction, b: Transaction, candidate: Candidate, swap: Swap, o: Opportunity,
                        config: BackrunConfig, nonce: Option<nat>)
    requires WorldOk(w) && config.contract == w.backrun && candidate.pool.address in w.pools
    requires v == candidate.tx.tx && v.to == Some(candidate.pool.address)
    requires DecodeSwap(candidate.swapKind, v.input) == Some(swap) && ComposeTx(config, nonce, o) == Composed(b)
    requires RunTx(w, b).success && RunTx(RunTx(w, b).world, v).success
    ensures o.buyPool.address in w.pools && o.sellPool.address in w.pools
    ensures Gain(w, RunTx(RunTx(w, b).world, v).world, o) == RouteGain(w, o)
  {
    var e := ComposedSucceeds(w, b, o, config, nonce);
    BackrunKeeps(w, config.bot, o, e);
    BackrunGain(w, config.bot, o, e);
    var s := SwapSucceeds(e.world, v, candidate, swap);
    SwapLeavesExecutor(e.world, v.from, candidate.pool.address, swap, s, w.pools[o.buyPool.address].tokenB);
  }

  lemma BackrunKeeps(w: World, sender: Address, o: Opportunity, e: Executed)
    requires WorldOk(w) && ExecuteOpportunity(w, sender, o) == Some(e)
    ensures WorldOk(e.world) && e.world.pools.Keys == w.pools.Keys
  {
    BackrunEffect(w, sender, o.buyPool.address, o.sellPool.address, o.amountInB,
                  o.minAmountOutA, o.minAmountOutB, o.minProfitB, e);
  }

  lemma SwapSucceeds(w: World, v: Transaction, candidate: Candidate, swap: Swap) returns (s: Swapped)
    requires candidate.pool.address in w.pools && v.to == Some(candidate.pool.address)
    requires DecodeSwap(candidate.swapKind, v.input) == Some(swap) && RunTx(w, v).success
    ensures CanSign(w, v.from) && ExecuteSwap(w, v.from, candidate.pool.address, swap) == Some(s)
    ensures s.world == RunTx(w, v).world
  {
    SignedIfSuccess(w, v);
    VictimRunsSwap(w, v, candidate.pool.address, candidate.swapKind, swap);
    s := ExecuteSwap(w, v.from, candidate.pool.address, swap).value;
  }

  /** A backrun that outbids its victim in an empty pool gains what its route returns on the head's
      reserves, for every included pair. */
  lemma OutbidPairGains(c: Chain, items: seq<Item>, f: Faults, r: BundleResult,
                        state: StateSnapshot, candidate: Candidate, swap: Swap, params: Params, o: Opportunity,
                        config: BackrunConfig, nonce: Option<nat>)
    requires ChainOk(c) && c.pool == [] && config.contract == c.latest.world.backrun
    requires |items| == 2 && items[0].tx == candidate.tx.tx && items[0].tx.tip < items[1].tx.tip
    requires Predicts(state, candidate, swap, params, o, config, nonce, items[1].tx)
    requires forall p :: p in state.pools ==> Shows(p, c.latest.world)
    requires ExecuteBundle(c, items, f).result == Some(r) && r.included
    ensures o.buyPool.address in c.latest.world.pools && o.sellPool.address in c.latest.world.pools
    ensures Gain(c.latest.world, ExecuteBundle(c, items, f).chain.latest.world, o) == RouteGain(c.latest.world, o)
  {
    assert StateOk(BlockAt(c, Head(c)).world);
    VictimPoolKnown(state, candidate, swap, params, o, c.latest.world);
    OutbidRan(c, items, f, r, items[0].tx, items[1].tx);
    BackrunThenSwap(c.latest.world, items[0].tx, items[1].tx, candidate, swap, o, config, nonce);
  }

  // ---------------------------------------------------------------- the victim first

  /** In the order of the bundle it gains the expected profit. */
  lemma OrderedPairGains(c: Chain, items: seq<Item>, f: Faults, r: BundleResult,
                         state: StateSnapshot, candidate: Candidate, swap: Swap, params: Params, o: Opportunity,
                         config: BackrunConfig, nonce: Option<nat>)
    requires ChainOk(c) && c.pool == [] && config.contract == c.latest.world.backrun
    requires |items| == 2 && items[0].tx == candidate.tx.tx && items[1].tx.tip <= items[0].tx.tip
    requires Predicts(state, candidate, swap, params, o, config, nonce, items[1].tx)
    requires forall p :: p in state.pools ==> Shows(p, c.latest.world)
    requires ExecuteBundle(c, items, f).result == Some(r) && r.included
    ensures o.buyPool.address in c.latest.world.pools && o.sellPool.address in c.latest.world.pools
    ensures Gain(c.latest.world, ExecuteBundle(c, items, f).chain.latest.world, o) == o.expectedProfitB
  {
    var w := c.latest.world;
    assert StateOk(BlockAt(c, Head(c)).world);
    var s, e := IncludedBundleEarns(c, items, f, r, state, candidate, swap, params, o, config, nonce);
    EmptyPoolEnds(c, items[0].tx, items[1].tx, e.world, ExecuteBundle(c, items, f).chain.latest);
    SignedVictim(c, items, f, r);
    SwapGrows(w, items[0].tx.from, candidate.pool.address, swap, s);
    SwapKeeps(w, items[0].tx.from, candidate.pool.address, swap, s);
    ExecutedPools(s.world, config.bot, o, e);
    SwapLeavesExecutor(w, items[0].tx.from, candidate.pool.address, swap, s, w.pools[o.buyPool.address].tokenB);
    ExpectedGain(w, s.world, o, e);
  }

  lemma SignedVictim(c: Chain, items: seq<Item>, f: Faults, r: BundleResult)
    requires ChainOk(c) && c.pool == [] && |items| == 2 && items[0].tx != items[1].tx
    requires items[1].tx.tip <= items[0].tx.tip && ExecuteBundle(c, items, f).result == Some(r) && r.included
    ensures CanSign(c.latest.world, items[0].tx.from)
  {
    PairBlock(c, items, f, r);
    SignedIfSuccess(c.latest.world, items[0].tx);
  }

  lemma EmptyPoolEnds(c: Chain, x: Transaction, y: Transaction, w: World, latest: Block)
    requires c.pool == [] && BlockGoesOn(c, x, y, w, latest)
    ensures latest.world == w
  {
  }

  lemma SwapGrows(w: World, sender: Address, pool: Address, swap: Swap, s: Swapped)
    requires WorldOk(w) && CanSign(w, sender) && ExecuteSwap(w, sender, pool, swap) == Some(s)
    ensures AllGrow(w, s.world)
  {
    match swap
    case SwapExactAForB(x, min) => SwapAForBGrows(w, sender, pool, x, min, s);
    case SwapExactBForA(x, min) => SwapBForAGrows(w, sender, pool, x, min, s);
  }

  lemma ExecutedPools(w: World, sender: Address, o: Opportunity, e: Executed)
    requires ExecuteOpportunity(w, sender, o) == Some(e) && WorldOk(w)
    ensures o.buyPool.address in w.pools && o.sellPool.address in w.pools && e.world.backrun == w.backrun
  {
    BackrunEffect(w, sender, o.buyPool.address, o.sellPool.address, o.amountInB,
                  o.minAmountOutA, o.minAmountOutB, o.minProfitB, e);
  }

  /** An expected backrun after a swap that left the executor alone. */
  lemma ExpectedGain(w: World, w1: World, o: Opportunity, e: Executed)
    requires AllGrow(w, w1) && o.buyPool.address in w.pools && o.sellPool.address in w.pools
    requires HoldingOf(w1, w.pools[o.buyPool.address].tokenB) == HoldingOf(w, w.pools[o.buyPool.address].tokenB)
    requires AsExpected(w1, o, e) && e.world.backrun == w1.backrun
    ensures Gain(w, e.world, o) == o.expectedProfitB
  {
    assert Grows(w.pools[o.buyPool.address], w1.pools[o.buyPool.address]);
  }

  /** So an included pair in an empty pool earns the expected profit if and only if the tips are in
      order or the route returns as much on the head's reserves. */
  lemma ExpectedProfitBorder(c: Chain, items: seq<Item>, f: Faults, r: BundleResult,
                             state: StateSnapshot, candidate: Candidate, swap: Swap, params: Params, o: Opportunity,
                             config: BackrunConfig, nonce: Option<nat>)
    requires ChainOk(c) && c.pool == [] && config.contract == c.latest.world.backrun
    requires |items| == 2 && items[0].tx == candidate.tx.tx
    requires Predicts(state, candidate, swap, params, o, config, nonce, items[1].tx)
    requires forall p :: p in state.pools ==> Shows(p, c.latest.world)
    requires ExecuteBundle(c, items, f).result == Some(r) && r.included
    ensures o.buyPool.address in c.latest.world.pools && o.sellPool.address in c.latest.world.pools
    ensures Gain(c.latest.world, ExecuteBundle(c, items, f).chain.latest.world, o) == o.expectedProfitB
            <==> items[1].tx.tip <= items[0].tx.tip || RouteGain(c.latest.world, o) == o.expectedProfitB
  {
    if items[1].tx.tip <= items[0].tx.tip {
      OrderedPairGains(c, items, f, r, state, candidate, swap, params, o, config, nonce);
    } else {
      OutbidPairGains(c, items, f, r, state, candidate, swap, params, o, config, nonce);
    }
  }
}
