/** Whole runs of transactions on the ledger. */
module LedgerRuns {
  import opened Common
  import opened ConstantProduct
  import opened Ledger
  import opened LedgerInvariant
  import opened Backrun

  function Product(d: Dex): nat { Times(d.reserveA, d.reserveB) }

  predicate Seeded(d: Dex) { d.reserveA > 0 && d.reserveB > 0 }

  /** A pool is untouched or its product grows; once seeded it stays seeded. */
  predicate Grows(d: Dex, d': Dex) {
    && d'.tokenA == d.tokenA && d'.tokenB == d.tokenB
    && Product(d) <= Product(d')
    && (Seeded(d) ==> Seeded(d'))
  }

  ghost predicate AllGrow(w: World, w': World) {
    && w'.pools.Keys == w.pools.Keys && w'.tokens.Keys == w.tokens.Keys
    && w'.backrun == w.backrun && w'.operator == w.operator
    && forall p :: p in w.pools ==> Grows(w.pools[p], w'.pools[p])
  }

  /** Booking an exact quote makes the product strictly larger. */
  lemma BookedQuoteGrows(d: Dex, d': Dex, tokenIn: Address, tokenOut: Address, amountIn: nat, amountOut: nat,
                         reserveIn: nat, reserveOut: nat)
    requires d.tokenA != d.tokenB && Books(d, d', tokenIn, tokenOut, amountIn, amountOut)
    requires if tokenIn == d.tokenA then reserveIn == d.reserveA && reserveOut == d.reserveB
             else reserveIn == d.reserveB && reserveOut == d.reserveA
    requires amountIn > 0 && reserveIn > 0 && reserveOut > 0
    requires amountOut == ExactOut(amountIn, reserveIn, reserveOut)
    ensures Product(d) < Product(d') && Grows(d, d') && Seeded(d')
  {
    QuoteGrows(amountIn, reserveIn, reserveOut, amountOut);
  }

  lemma QuoteGrows(x: nat, reserveIn: nat, reserveOut: nat, out: nat)
    requires x > 0 && reserveIn > 0 && reserveOut > 0
    requires out == ExactOut(x, reserveIn, reserveOut)
    ensures out < reserveOut
    ensures Times(reserveIn, reserveOut) < Times(reserveIn + x, reserveOut - out)
    ensures Times(reserveOut, reserveIn) < Times(reserveOut - out, reserveIn + x)
  {
    ProductGrows(x, reserveIn, reserveOut, out);
  }

  /** Every successful swap strictly increases reserveA * reserveB. */
  lemma SwapAForBGrows(w: World, sender: Address, pool: Address, amountIn: nat, minAmountOut: nat, s: Swapped)
    requires WorldOk(w) && sender !in w.pools && sender != ZERO_ADDRESS
    requires SwapExactAForB(w, sender, pool, amountIn, minAmountOut) == Some(s)
    ensures pool in w.pools && pool in s.world.pools
    ensures Product(w.pools[pool]) < Product(s.world.pools[pool])
    ensures AllGrow(w, s.world) && WorldOk(s.world)
  {
    SwapAForBAccepts(w, sender, pool, amountIn, minAmountOut);
    SwapAForBEffect(w, sender, pool, amountIn, minAmountOut, s);
    SwapAForBKeepsWorld(w, sender, pool, amountIn, minAmountOut, s);
    var d := w.pools[pool];
    BookedQuoteGrows(d, s.world.pools[pool], d.tokenA, d.tokenB, amountIn, s.amountOut, d.reserveA, d.reserveB);
    OnePoolGrows(w, s.world, pool);
  }

  lemma SwapBForAGrows(w: World, sender: Address, pool: Address, amountIn: nat, minAmountOut: nat, s: Swapped)
    requires WorldOk(w) && sender !in w.pools && sender != ZERO_ADDRESS
    requires SwapExactBForA(w, sender, pool, amountIn, minAmountOut) == Some(s)
    ensures pool in w.pools && pool in s.world.pools
    ensures Product(w.pools[pool]) < Product(s.world.pools[pool])
    ensures AllGrow(w, s.world) && WorldOk(s.world)
  {
    SwapBForAAccepts(w, sender, pool, amountIn, minAmountOut);
    SwapBForAEffect(w, sender, pool, amountIn, minAmountOut, s);
    SwapBForAKeepsWorld(w, sender, pool, amountIn, minAmountOut, s);
    var d := w.pools[pool];
    BookedQuoteGrows(d, s.world.pools[pool], d.tokenB, d.tokenA, amountIn, s.amountOut, d.reserveB, d.reserveA);
    OnePoolGrows(w, s.world, pool);
  }

  lemma OnePoolGrows(w: World, w': World, pool: Address)
    requires pool in w.pools && OnlyPoolChanges(w, w', pool) && Grows(w.pools[pool], w'.pools[pool])
    requires w'.tokens.Keys == w.tokens.Keys && w'.backrun == w.backrun && w'.operator == w.operator
    ensures AllGrow(w, w')
  {
  }

  lemma SeedGrows(w: World, sender: Address, pool: Address, amountA: nat, amountB: nat, w': World)
    requires WorldOk(w) && sender !in w.pools
    requires SeedLiquidity(w, sender, pool, amountA, amountB) == Some(w')
    ensures pool in w.pools && pool in w'.pools
    ensures Product(w.pools[pool]) < Product(w'.pools[pool]) && Seeded(w'.pools[pool])
    ensures AllGrow(w, w') && WorldOk(w')
  {
    SeedEffect(w, sender, pool, amountA, amountB, w');
    DepositGrows(w.pools[pool], w'.pools[pool], amountA, amountB);
    OnePoolGrows(w, w', pool);
  }

  lemma DepositGrows(d: Dex, d': Dex, amountA: nat, amountB: nat)
    requires amountA > 0 && amountB > 0 && BooksDeposit(d, d', amountA, amountB)
    ensures Product(d) < Product(d') && Grows(d, d') && Seeded(d')
  {
    SeedProduct(d.reserveA, d.reserveB, amountA, amountB);
  }

  lemma SeedProduct(a: nat, b: nat, x: nat, y: nat)
    requires x > 0 && y > 0
    ensures Times(a + x, b + y) > Times(a, b)
  {
    MulAtMost(a, a + x, b);
    MulLess(b, b + y, a + x);
  }

  lemma BackrunGrows(w: World, sender: Address, buy: Address, sell: Address,
                     amountInB: nat, minA: nat, minB: nat, minProfit: nat, e: Executed)
    requires WorldOk(w)
    requires ExecuteBackrun(w, sender, buy, sell, amountInB, minA, minB, minProfit) == Some(e)
    ensures AllGrow(w, e.world) && WorldOk(e.world)
  {
    BackrunEffect(w, sender, buy, sell, amountInB, minA, minB, minProfit, e);
    BackrunAccepts(w, sender, buy, sell, amountInB, minA, minB, minProfit);
    var d1, d2 := w.pools[buy], w.pools[sell];
    BookedQuoteGrows(d1, e.world.pools[buy], d1.tokenB, d1.tokenA, amountInB, e.amountOutA, d1.reserveB, d1.reserveA);
    BookedQuoteGrows(d2, e.world.pools[sell], d2.tokenA, d2.tokenB, e.amountOutA, e.amountOutB,
                     d2.reserveA, d2.reserveB);
  }

  lemma SamePoolsGrow(w: World, w': World)
    requires w' == w.(tokens := w'.tokens) && w'.tokens.Keys == w.tokens.Keys
    ensures AllGrow(w, w')
  {
  }

  predicate IsTokenCall(call: Call)
  {
    call.CMint? || call.CApprove? || call.CTransfer? || call.CTransferFrom? || call.CWithdraw?
  }

  lemma TokenCallKeepsWorld(w: World, sender: Address, call: Call, w': World)
    requires WorldOk(w) && Exec(w, sender, call) == Some(w') && IsTokenCall(call)
    ensures WorldOk(w') && w'.pools == w.pools
  {
    match call
    case CMint(token, to, amount) => CallMintKeepsWorld(w, token, sender, to, amount);
    case CApprove(token, spender, amount) => CallApproveKeepsWorld(w, token, sender, spender, amount);
    case CTransfer(token, to, amount) => CallTransferKeepsWorld(w, token, sender, to, amount);
    case CTransferFrom(token, from, to, amount) => CallTransferFromKeepsWorld(w, token, sender, from, to, amount);
    case CWithdraw(token, to, amount) => CallTransferKeepsWorld(w, token, w.backrun, to, amount);
  }

  /** Every transaction keeps the invariant and lets no product shrink. */
  lemma ExecKeepsWorld(w: World, sender: Address, call: Call, w': World)
    requires WorldOk(w) && Exec(w, sender, call) == Some(w')
    ensures WorldOk(w') && AllGrow(w, w')
  {
    match call
    case CSeed(pool, amountA, amountB) =>
      SeedGrows(w, sender, pool, amountA, amountB, w');
    case CSwapAForB(pool, amountIn, min) =>
      SwapAForBGrows(w, sender, pool, amountIn, min, SwapExactAForB(w, sender, pool, amountIn, min).value);
    case CSwapBForA(pool, amountIn, min) =>
      SwapBForAGrows(w, sender, pool, amountIn, min, SwapExactBForA(w, sender, pool, amountIn, min).value);
    case CBackrun(buy, sell, amountInB, minA, minB, minProfit) =>
      BackrunGrows(w, sender, buy, sell, amountInB, minA, minB, minProfit,
                   ExecuteBackrun(w, sender, buy, sell, amountInB, minA, minB, minProfit).value);
    case _ =>
      TokenCallKeepsWorld(w, sender, call, w');
      SamePoolsGrow(w, w');
  }

  /** Only a mint by the minter changes a supply, and by exactly the minted amount. */
  lemma SupplyOnlyByMint(w: World, sender: Address, call: Call, w': World, token: Address)
    requires WorldOk(w) && Exec(w, sender, call) == Some(w') && token in w.tokens
    ensures token in w'.tokens
    ensures w'.tokens[token].totalSupply
            == w.tokens[token].totalSupply + (if call.CMint? && call.token == token then call.amount else 0)
    ensures call.CMint? && call.token == token ==> sender == w.tokens[token].minter
  {
    match call
    case CMint(_, _, _) =>
    case CApprove(_, _, _) =>
    case CTransfer(t, to, amount) => MoveEffect(w.tokens[t], sender, to, amount);
    case CTransferFrom(t, from, to, amount) => TransferFromEffect(w.tokens[t], sender, from, to, amount);
    case CWithdraw(t, to, amount) => MoveEffect(w.tokens[t], w.backrun, to, amount);
    case CSeed(pool, a, b) => SeedSupply(w, sender, pool, a, b, w', token);
    case CSwapAForB(pool, x, min) =>
      SwapAForBSupply(w, sender, pool, x, min, SwapExactAForB(w, sender, pool, x, min).value, token);
    case CSwapBForA(pool, x, min) =>
      SwapBForASupply(w, sender, pool, x, min, SwapExactBForA(w, sender, pool, x, min).value, token);
    case CBackrun(buy, sell, x, minA, minB, minProfit) =>
      var e := ExecuteBackrun(w, sender, buy, sell, x, minA, minB, minProfit).value;
      BackrunSupply(w, sender, buy, sell, x, minA, minB, minProfit, e, token);
  }

  lemma SwapAForBSupply(w: World, sender: Address, pool: Address, x: nat, min: nat, s: Swapped, token: Address)
    requires WorldOk(w) && sender !in w.pools && sender != ZERO_ADDRESS && token in w.tokens
    requires SwapExactAForB(w, sender, pool, x, min) == Some(s)
    ensures token in s.world.tokens && s.world.tokens[token].totalSupply == w.tokens[token].totalSupply
  {
    SwapAForBAccepts(w, sender, pool, x, min);
    SwapAForBEffect(w, sender, pool, x, min, s);
  }

  lemma SwapBForASupply(w: World, sender: Address, pool: Address, x: nat, min: nat, s: Swapped, token: Address)
    requires WorldOk(w) && sender !in w.pools && sender != ZERO_ADDRESS && token in w.tokens
    requires SwapExactBForA(w, sender, pool, x, min) == Some(s)
    ensures token in s.world.tokens && s.world.tokens[token].totalSupply == w.tokens[token].totalSupply
  {
    SwapBForAAccepts(w, sender, pool, x, min);
    SwapBForAEffect(w, sender, pool, x, min, s);
  }

  lemma SeedSupply(w: World, sender: Address, pool: Address, a: nat, b: nat, w': World, token: Address)
    requires WorldOk(w) && token in w.tokens && SeedLiquidity(w, sender, pool, a, b) == Some(w')
    ensures token in w'.tokens && w'.tokens[token].totalSupply == w.tokens[token].totalSupply
  {
    var w1, w2 := SeedShape(w, sender, pool, a, b, w');
    assert PoolOk(w, pool);
    TransferFromEffect(w.tokens[w.pools[pool].tokenA], pool, sender, pool, a);
    TransferFromEffect(w1.tokens[w.pools[pool].tokenB], pool, sender, pool, b);
  }

  lemma BackrunSupply(w: World, sender: Address, buy: Address, sell: Address,
                      amountInB: nat, minA: nat, minB: nat, minProfit: nat, e: Executed, token: Address)
    requires WorldOk(w) && token in w.tokens
    requires ExecuteBackrun(w, sender, buy, sell, amountInB, minA, minB, minProfit) == Some(e)
    ensures token in e.world.tokens && e.world.tokens[token].totalSupply == w.tokens[token].totalSupply
  {
    BackrunEffect(w, sender, buy, sell, amountInB, minA, minB, minProfit, e);
  }

  // ---------------------------------------------------------------- runs

  datatype Tx = Tx(sender: Address, call: Call)

  /** A reverted transaction leaves the world as it was. */
  function Apply(w: World, tx: Tx): World {
    match Exec(w, tx.sender, tx.call)
    case None => w
    case Some(w') => w'
  }

  function Run(w: World, txs: seq<Tx>): World
    decreases |txs|
  {
    if txs == [] then w else Run(Apply(w, txs[0]), txs[1..])
  }

  /** In every run: supplies stay the sums of the balances, reserves stay backed, pools grant
      nothing, no product shrinks and a seeded pool stays seeded. */
  lemma {:induction false} RunKeepsWorld(w: World, txs: seq<Tx>)
    requires WorldOk(w)
    ensures WorldOk(Run(w, txs)) && AllGrow(w, Run(w, txs))
    decreases |txs|
  {
    if txs == [] {
    } else {
      var w1 := Apply(w, txs[0]);
      if Exec(w, txs[0].sender, txs[0].call).Some? {
        ExecKeepsWorld(w, txs[0].sender, txs[0].call, w1);
      }
      RunKeepsWorld(w1, txs[1..]);
      AllGrowTrans(w, w1, Run(w, txs));
    }
  }

  lemma AllGrowTrans(w: World, w1: World, w2: World)
    requires AllGrow(w, w1) && AllGrow(w1, w2)
    ensures AllGrow(w, w2)
  {
    forall p | p in w.pools
      ensures Grows(w.pools[p], w2.pools[p])
    {
      assert Grows(w.pools[p], w1.pools[p]) && Grows(w1.pools[p], w2.pools[p]);
    }
  }

  /** Over any run that leaves one reserve of a seeded pool no higher, the other is no lower. */
  lemma NoFreeReserves(w: World, txs: seq<Tx>, pool: Address)
    requires WorldOk(w) && pool in w.pools && Seeded(w.pools[pool])
    ensures pool in Run(w, txs).pools
    ensures var d, d' := w.pools[pool], Run(w, txs).pools[pool];
            && (d'.reserveA <= d.reserveA ==> d'.reserveB >= d.reserveB)
            && (d'.reserveB <= d.reserveB ==> d'.reserveA >= d.reserveA)
  {
    RunKeepsWorld(w, txs);
    var d, d' := w.pools[pool], Run(w, txs).pools[pool];
    assert Grows(d, d');
    OtherFactor(d.reserveA, d.reserveB, d'.reserveA, d'.reserveB);
  }

  lemma OtherFactor(a: nat, b: nat, a': nat, b': nat)
    requires a > 0 && b > 0 && Times(a, b) <= Times(a', b')
    ensures a' <= a ==> b' >= b
    ensures b' <= b ==> a' >= a
  {
    if a' <= a {
      MulAtMost(a', a, b');
      CancelLeft(a, b, b');
    }
    if b' <= b {
      MulAtMost(b', b, a');
      CancelLeft(b, a, a');
    }
  }

  /** A fresh deployment satisfies the invariant. */
  lemma GenesisOk(w: World)
    requires forall a :: a in w.tokens ==>
               w.tokens[a].totalSupply == 0 && w.tokens[a].balances == map[] && w.tokens[a].allowances == map[]
    requires forall p :: p in w.pools ==>
               && p != ZERO_ADDRESS && w.pools[p].tokenA != w.pools[p].tokenB
               && w.pools[p].tokenA in w.tokens && w.pools[p].tokenB in w.tokens
               && w.pools[p].reserveA == 0 && w.pools[p].reserveB == 0
    requires w.backrun !in w.pools && w.backrun != ZERO_ADDRESS
    ensures WorldOk(w)
  {
  }
}
