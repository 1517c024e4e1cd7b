/** What an included bundle of victim and backrun does on chain: the two parts of Knight's
    prediction, carried out in one block. */
module Outcome {
  import opened Common
  import opened Domain
  import opened Ledger
  import opened LedgerInvariant
  import opened Backrun
  import opened LedgerRuns
  import opened ExecutorFunds
  import opened FindArbitrage
  import opened Abi
  import opened Refinement
  import opened TxChain
  import opened Bundles
  import opened TxComposer

  /** The block under construction on top of a chain after these transactions. */
  function Built(c: Chain, txs: seq<Transaction>): Mining
  {
    IncludeAll(Mining(c.latest, [], c.receipts), txs, Head(c) + 1)
  }

  ghost predicate Succeeded(receipts: map<Transaction, Receipt>, tx: Transaction)
  {
    tx in receipts && receipts[tx].success
  }

  lemma MinedIsBuilt(c: Chain, pool: seq<Transaction>)
    ensures MineBlock(c.(pool := pool)).latest == Built(c, ByTip(pool)).block
    ensures MineBlock(c.(pool := pool)).receipts == Built(c, ByTip(pool)).receipts
  {
  }

  lemma ResultChain(c: Chain, items: seq<Item>, f: Faults, r: BundleResult, pool: seq<Transaction>) returns (c': Chain)
    requires ExecuteBundle(c, items, f).result == Some(r) && pool == c.pool + Txs(items)
    ensures c' == ExecuteBundle(c, items, f).chain == MineBlock(c.(pool := pool))
    ensures r == BundleResult(AllIncluded(r.transactions), Results(c', items, f.missing))
    ensures forall i :: 0 <= i < |items| ==> items[i].tx.nonce >= Nonce(c.latest, items[i].tx.from)
  {
    SentNonces(c, items, f);
    c' := ExecuteBundle(c, items, f).chain;
  }

  /** What a result says about the block: it was mined from the pool with the bundle's
      transactions at its end, and an included transaction, which was not on the chain before,
      has a successful receipt there. */
  lemma ResultShape(c: Chain, items: seq<Item>, f: Faults, r: BundleResult, pool: seq<Transaction>)
    requires ChainOk(c) && ExecuteBundle(c, items, f).result == Some(r) && pool == c.pool + Txs(items)
    ensures |r.transactions| == |items|
    ensures ExecuteBundle(c, items, f).chain.latest == Built(c, ByTip(pool)).block
    ensures forall i :: 0 <= i < |items| && (r.included || r.transactions[i].status.Included?) ==>
              items[i].tx !in c.receipts && Succeeded(Built(c, ByTip(pool)).receipts, items[i].tx)
  {
    var c' := ResultChain(c, items, f, r, pool);
    MinedIsBuilt(c, pool);
    forall i | 0 <= i < |items| && (r.included || r.transactions[i].status.Included?)
      ensures items[i].tx !in c.receipts && Succeeded(c'.receipts, items[i].tx)
    {
      assert r.transactions[i].status.Included?;
      assert r.transactions[i] == ResultOf(c', items[i], i in f.missing);
    }
  }

  // ---------------------------------------------------------------- first in the block

  /** Nobody in the pool tips as much as the second of two transactions, nor it more than the
      first. */
  predicate HeadsBlock(pool: seq<Transaction>, x: Transaction, y: Transaction)
  {
    y.tip <= x.tip && forall i :: 0 <= i < |pool| ==> pool[i].tip < y.tip
  }

  predicate PairRuns(c: Chain, x: Transaction, y: Transaction)
  {
    var rx := RunTx(c.latest.world, x);
    var ry := RunTx(rx.world, y);
    rx.success && ry.success && Built(c, [x, y]).block.world == ry.world
  }

  /** Two such transactions that both succeed run one after the other on the state of the head;
      the pool runs after them. */
  lemma PairRan(c: Chain, x: Transaction, y: Transaction)
    requires x != y && x !in c.receipts && y !in c.receipts && HeadsBlock(c.pool, x, y)
    requires Succeeded(Built(c, ByTip(c.pool + [x, y])).receipts, x)
    requires Succeeded(Built(c, ByTip(c.pool + [x, y])).receipts, y)
    ensures PairRuns(c, x, y)
    ensures Built(c, ByTip(c.pool + [x, y])) == IncludeAll(Built(c, [x, y]), ByTip(c.pool), Head(c) + 1)
  {
    PairHeadsBlock(c.pool, x, y);
    SamePool(c.pool);
    IncludeAllParts(Mining(c.latest, [], c.receipts), [x, y], ByTip(c.pool), Head(c) + 1);
    FirstTwoRan(c, x, y, ByTip(c.pool));
  }

  /** The first two transactions of a block, if both succeed. */
  lemma FirstTwoRan(c: Chain, x: Transaction, y: Transaction, rest: seq<Transaction>)
    requires x != y && x !in c.receipts && y !in c.receipts && x !in rest && y !in rest
    requires Succeeded(Built(c, [x, y] + rest).receipts, x) && Succeeded(Built(c, [x, y] + rest).receipts, y)
    ensures PairRuns(c, x, y)
  {
    var m0, number, txs := Mining(c.latest, [], c.receipts), Head(c) + 1, [x, y] + rest;
    var i := RanAt(m0, txs, number, x);
    var j := RanAt(m0, txs, number, y);
    assert forall k :: 2 <= k < |txs| ==> txs[k] in rest;
    assert i == 0 && j == 1;
    assert txs[..0] == [] && txs[..1] == [x] && txs[..2] == [x, y];
  }

  lemma PairBlock(c: Chain, items: seq<Item>, f: Faults, r: BundleResult)
    requires ChainOk(c) && |items| == 2 && items[0].tx != items[1].tx
    requires HeadsBlock(c.pool, items[0].tx, items[1].tx)
    requires ExecuteBundle(c, items, f).result == Some(r) && r.included
    ensures PairRuns(c, items[0].tx, items[1].tx)
    ensures ExecuteBundle(c, items, f).chain.latest
            == IncludeAll(Built(c, [items[0].tx, items[1].tx]), ByTip(c.pool), Head(c) + 1).block
  {
    var x, y := items[0].tx, items[1].tx;
    PairResult(c, items, f, r, x, y);
    PairRan(c, x, y);
  }

  lemma PairResult(c: Chain, items: seq<Item>, f: Faults, r: BundleResult, x: Transaction, y: Transaction)
    requires ChainOk(c) && |items| == 2 && items[0].tx == x && items[1].tx == y
    requires ExecuteBundle(c, items, f).result == Some(r) && r.included
    ensures x !in c.receipts && y !in c.receipts
    ensures Succeeded(Built(c, ByTip(c.pool + [x, y])).receipts, x)
    ensures Succeeded(Built(c, ByTip(c.pool + [x, y])).receipts, y)
    ensures ExecuteBundle(c, items, f).chain.latest == Built(c, ByTip(c.pool + [x, y])).block
  {
    var pool := c.pool + [x, y];
    assert Txs(items) == [x, y];
    ResultShape(c, items, f, r, pool);
  }

  /** Knight's prediction of a bundle: the victim it decoded and the backrun it composed. */
  ghost predicate Predicts(state: StateSnapshot, candidate: Candidate, swap: Swap, params: Params, o: Opportunity,
                           config: BackrunConfig, nonce: Option<nat>, backrun: Transaction)
  {
    && candidate.tx.tx.to == Some(candidate.pool.address)
    && DecodeSwap(candidate.swapKind, candidate.tx.tx.input) == Some(swap)
    && IsFindArbitrage(state, candidate, swap, params, Some(o))
    && ComposeTx(config, nonce, o) == Composed(backrun)
  }

  lemma VictimPoolKnown(state: StateSnapshot, candidate: Candidate, swap: Swap, params: Params, o: Opportunity,
                        w: World)
    requires IsFindArbitrage(state, candidate, swap, params, Some(o))
    requires forall p :: p in state.pools ==> Shows(p, w)
    ensures candidate.pool.address in w.pools
  {
    var pool := FindPoolSnapshot(state.pools, candidate.pool.address);
    assert pool.Some? && Shows(pool.value, w);
  }

  /** A bundle that is mined as included, on the reserves that priced it and ahead of everything
      in the pool, swaps as decoded and then earns exactly the expected outputs and profit; the
      rest of the block runs on the state it leaves. */
  lemma IncludedBundleEarns(c: Chain, items: seq<Item>, f: Faults, r: BundleResult,
                            state: StateSnapshot, candidate: Candidate, swap: Swap, params: Params, o: Opportunity,
                            config: BackrunConfig, nonce: Option<nat>)
    returns (s: Swapped, e: Executed)
    requires ChainOk(c) && config.contract == c.latest.world.backrun
    requires |items| == 2 && items[0].tx == candidate.tx.tx && HeadsBlock(c.pool, items[0].tx, items[1].tx)
    requires Predicts(state, candidate, swap, params, o, config, nonce, items[1].tx)
    requires forall p :: p in state.pools ==> Shows(p, c.latest.world)
    requires ExecuteBundle(c, items, f).result == Some(r) && r.included
    ensures ExecuteSwap(c.latest.world, candidate.tx.tx.from, candidate.pool.address, swap) == Some(s)
    ensures ExecuteOpportunity(s.world, config.bot, o) == Some(e)
    ensures AsExpected(s.world, o, e)
    ensures BlockGoesOn(c, items[0].tx, items[1].tx, e.world, ExecuteBundle(c, items, f).chain.latest)
  {
    var w, victim, backrun := c.latest.world, items[0].tx, items[1].tx;
    var pool := candidate.pool.address;
    assert StateOk(BlockAt(c, Head(c)).world);
    VictimPoolKnown(state, candidate, swap, params, o, w);
    assert victim.to != backrun.to;
    PairBlock(c, items, f, r);
    SignedIfSuccess(w, victim);
    VictimRunsSwap(w, victim, pool, candidate.swapKind, swap);
    s := ExecuteSwap(w, victim.from, pool, swap).value;
    SwapKeeps(w, victim.from, pool, swap, s);
    SignedIfSuccess(s.world, backrun);
    ComposedRunsOpportunity(s.world, config, nonce, o, backrun);
    e := ExecuteOpportunity(s.world, config.bot, o).value;
    QuoteEqualsExecution(w, victim.from, state, candidate, swap, params, s, o, config.bot);
  }

  /** After the pair has left this state, the block is completed by the pool, if there is any. */
  ghost predicate BlockGoesOn(c: Chain, x: Transaction, y: Transaction, w: World, latest: Block)
  {
    && Built(c, [x, y]).block.world == w
    && latest == IncludeAll(Built(c, [x, y]), ByTip(c.pool), Head(c) + 1).block
  }

  lemma SignedIfSuccess(w: World, tx: Transaction)
    requires RunTx(w, tx).success
    ensures CanSign(w, tx.from)
  {
  }

  // ---------------------------------------------------------------- anywhere in the block

  /** The executor holds at least as much of every token, and more TokenB by the minimum profit. */
  ghost predicate Gains(w: World, w': World, o: Opportunity)
  {
    && o.buyPool.address in w.pools && w'.tokens.Keys == w.tokens.Keys
    && var tokenB := w.pools[o.buyPool.address].tokenB;
       forall a :: a in w.tokens ==>
         w'.tokens[a].Balance(w.backrun)
         >= w.tokens[a].Balance(w.backrun) + if a == tokenB then o.minProfitB else 0
  }

  lemma DoneGains(w: World, w': World, buy: Address, sell: Address, amountInB: nat, outA: nat, outB: nat,
                  o: Opportunity)
    requires buy in w.pools && sell in w.pools && PoolOk(w, buy) && w.backrun !in w.pools && buy == o.buyPool.address
    requires BackrunDone(w, w', buy, sell, amountInB, outA, outB) && outB - amountInB >= o.minProfitB
    ensures Gains(w, w', o)
    ensures forall a :: a in w.tokens && a != w.pools[buy].tokenB ==>
              w'.tokens[a].Balance(w.backrun) == w.tokens[a].Balance(w.backrun)
  {
    forall a | a in w.tokens
      ensures w'.tokens[a].Balance(w.backrun)
              >= w.tokens[a].Balance(w.backrun) + if a == w.pools[buy].tokenB then o.minProfitB else 0
      ensures a != w.pools[buy].tokenB ==>
                w'.tokens[a].Balance(w.backrun) == w.tokens[a].Balance(w.backrun)
    {
      DoneHolding(w, w', buy, sell, amountInB, outA, outB, a);
    }
  }

  lemma DoneHolding(w: World, w': World, buy: Address, sell: Address, amountInB: nat, outA: nat, outB: nat, a: Address)
    requires buy in w.pools && sell in w.pools && w.backrun !in w.pools && a in w.tokens
    requires PoolOk(w, buy) && BackrunDone(w, w', buy, sell, amountInB, outA, outB)
    ensures w'.tokens[a].Balance(w.backrun)
            == w.tokens[a].Balance(w.backrun) + if a == w.pools[buy].tokenB then outB - amountInB else 0
  {
  }

  /** A backrun on its own: TokenA and every other token exactly as before, TokenB higher. */
  lemma BackrunGains(w: World, sender: Address, o: Opportunity, e: Executed)
    requires WorldOk(w) && ExecuteOpportunity(w, sender, o) == Some(e)
    ensures Gains(w, e.world, o) && e.world.backrun == w.backrun
    ensures forall a :: a in w.tokens && a != w.pools[o.buyPool.address].tokenB ==>
              e.world.tokens[a].Balance(w.backrun) == w.tokens[a].Balance(w.backrun)
  {
    BackrunEffect(w, sender, o.buyPool.address, o.sellPool.address, o.amountInB,
                  o.minAmountOutA, o.minAmountOutB, o.minProfitB, e);
    DoneGains(w, e.world, o.buyPool.address, o.sellPool.address, o.amountInB, e.amountOutA, e.amountOutB, o);
  }

  /** The transaction at one place of the block took the state from w to w'. */
  ghost predicate RanAtPlace(c: Chain, txs: seq<Transaction>, i: nat, tx: Transaction, w: World, w': World)
  {
    && i < |txs| && txs[i] == tx
    && Built(c, txs[..i]).block.world == w && Built(c, txs[..i + 1]).block.world == w'
  }

  /** Whatever else is in the block and wherever it stands, a backrun that succeeded ran as the
      opportunity it was composed from, on the state that the block had reached. */
  lemma BackrunRan(c: Chain, txs: seq<Transaction>, tx: Transaction, o: Opportunity,
                   config: BackrunConfig, nonce: Option<nat>)
    returns (i: nat, w: World, e: Executed)
    requires ChainOk(c) && config.contract == c.latest.world.backrun
    requires ComposeTx(config, nonce, o) == Composed(tx)
    requires tx !in c.receipts && Succeeded(Built(c, txs).receipts, tx)
    ensures RanAtPlace(c, txs, i, tx, w, e.world)
    ensures StateOk(w) && AllGrow(c.latest.world, w) && ExecuteOpportunity(w, config.bot, o) == Some(e)
  {
    i := RanAt(Mining(c.latest, [], c.receipts), txs, Head(c) + 1, tx);
    w := Built(c, txs[..i]).block.world;
    StateOnTheWay(c, txs[..i]);
    e := ComposedSucceeds(w, tx, o, config, nonce);
  }

  lemma ComposedSucceeds(w: World, tx: Transaction, o: Opportunity, config: BackrunConfig, nonce: Option<nat>)
    returns (e: Executed)
    requires WorldOk(w) && config.contract == w.backrun
    requires ComposeTx(config, nonce, o) == Composed(tx) && RunTx(w, tx).success
    ensures ExecuteOpportunity(w, config.bot, o) == Some(e) && e.world == RunTx(w, tx).world
  {
    SignedIfSuccess(w, tx);
    ComposedRunsOpportunity(w, config, nonce, o, tx);
    e := ExecuteOpportunity(w, config.bot, o).value;
  }

  lemma StateOnTheWay(c: Chain, txs: seq<Transaction>)
    requires ChainOk(c)
    ensures StateOk(Built(c, txs).block.world) && AllGrow(c.latest.world, Built(c, txs).block.world)
  {
    assert StateOk(BlockAt(c, Head(c)).world);
    SamePoolsGrow(c.latest.world, c.latest.world);
    IncludeAllKeeps(c.latest, c.receipts, Mining(c.latest, [], c.receipts), txs, Head(c) + 1);
  }

  /** Without withdrawals the executor's holdings never shrink, from the head to any place of the
      block and from there to its end. */
  lemma KeptOnTheWay(c: Chain, txs: seq<Transaction>, i: nat)
    requires ChainOk(c) && i <= |txs|
    requires forall k :: 0 <= k < |txs| ==> !AsksWithdrawal(c.latest.world.backrun, txs[k])
    ensures var w := Built(c, txs[..i]).block.world;
            AllKept(c.latest.world, w) && AllKept(w, Built(c, txs).block.world)
  {
    var m0, number := Mining(c.latest, [], c.receipts), Head(c) + 1;
    assert StateOk(BlockAt(c, Head(c)).world);
    IncludeAllKept(m0, txs[..i], number);
    IncludeAllParts(m0, txs[..i], txs[i..], number);
    assert txs[..i] + txs[i..] == txs;
    IncludeAllKept(Built(c, txs[..i]), txs[i..], number);
  }

  lemma GainsBetween(w0: World, w1: World, w2: World, w3: World, o: Opportunity)
    requires AllGrow(w0, w1) && AllKept(w0, w1) && Gains(w1, w2, o) && AllKept(w2, w3) && w2.backrun == w1.backrun
    ensures Gains(w0, w3, o)
  {
  }

  lemma BackrunRanWithGain(c: Chain, txs: seq<Transaction>, tx: Transaction, o: Opportunity,
                           config: BackrunConfig, nonce: Option<nat>)
    returns (i: nat, w: World, e: Executed)
    requires ChainOk(c) && config.contract == c.latest.world.backrun
    requires ComposeTx(config, nonce, o) == Composed(tx)
    requires tx !in c.receipts && Succeeded(Built(c, txs).receipts, tx)
    ensures RanAtPlace(c, txs, i, tx, w, e.world)
    ensures ExecuteOpportunity(w, config.bot, o) == Some(e) && Gains(w, e.world, o)
    ensures (forall k :: 0 <= k < |txs| ==> !AsksWithdrawal(config.contract, txs[k])) ==>
              Gains(c.latest.world, Built(c, txs).block.world, o)
  {
    i, w, e := BackrunRan(c, txs, tx, o, config, nonce);
    BackrunGains(w, config.bot, o, e);
    if forall k :: 0 <= k < |txs| ==> !AsksWithdrawal(config.contract, txs[k]) {
      BackrunGainsInBlock(c, txs, i, tx, w, e.world, o);
    }
  }

  lemma BackrunGainsInBlock(c: Chain, txs: seq<Transaction>, i: nat, tx: Transaction, w: World, w': World,
                            o: Opportunity)
    requires ChainOk(c) && RanAtPlace(c, txs, i, tx, w, w')
    requires AllGrow(c.latest.world, w) && Gains(w, w', o) && w'.backrun == w.backrun
    requires forall k :: 0 <= k < |txs| ==> !AsksWithdrawal(c.latest.world.backrun, txs[k])
    ensures Gains(c.latest.world, Built(c, txs).block.world, o)
  {
    KeptOnTheWay(c, txs, i);
    KeptOnTheWay(c, txs, i + 1);
    GainsBetween(c.latest.world, w, w', Built(c, txs).block.world, o);
  }

  /** An included backrun, with any pool and in any order: it ran as composed, and if the block
      holds no withdrawal, the executor ends the block with more TokenB by at least the minimum
      profit and no less of any other token. */
  lemma IncludedBackrunGains(c: Chain, items: seq<Item>, f: Faults, r: BundleResult, j: nat,
                             o: Opportunity, config: BackrunConfig, nonce: Option<nat>)
    returns (i: nat, w: World, e: Executed)
    requires ChainOk(c) && config.contract == c.latest.world.backrun
    requires j < |items| && ComposeTx(config, nonce, o) == Composed(items[j].tx)
    requires ExecuteBundle(c, items, f).result == Some(r)
    requires |r.transactions| == |items| && r.transactions[j].status.Included?
    ensures RanAtPlace(c, ByTip(c.pool + Txs(items)), i, items[j].tx, w, e.world)
    ensures ExecuteOpportunity(w, config.bot, o) == Some(e) && Gains(w, e.world, o)
    ensures (forall tx :: tx in c.pool + Txs(items) ==> !AsksWithdrawal(config.contract, tx)) ==>
              Gains(c.latest.world, ExecuteBundle(c, items, f).chain.latest.world, o)
  {
    var txs := ByTip(c.pool + Txs(items));
    ResultShape(c, items, f, r, c.pool + Txs(items));
    SamePool(c.pool + Txs(items));
    i, w, e := BackrunRanWithGain(c, txs, items[j].tx, o, config, nonce);
  }
}
