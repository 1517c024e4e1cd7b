/** SandboxBackrun.executeBackrun: exactly when it succeeds and what a success leaves behind. */
module Backrun {
  import opened Common
  import opened ConstantProduct
  import opened Ledger
  import opened LedgerInvariant
  import Optimality
  import Calculator

  /** The four calls of a successful backrun, in order. */
  ghost predicate Legs(w: World, buy: Address, sell: Address, amountInB: nat, minA: nat, minB: nat,
                       w1: World, bought: Swapped, w3: World, sold: Swapped)
    requires buy in w.pools
  {
    && CallApprove(w, w.pools[buy].tokenB, w.backrun, buy, amountInB) == Some(w1)
    && SwapExactBForA(w1, w.backrun, buy, amountInB, minA) == Some(bought)
    && CallApprove(bought.world, w.pools[buy].tokenA, w.backrun, sell, bought.amountOut) == Some(w3)
    && SwapExactAForB(w3, w.backrun, sell, bought.amountOut, minB) == Some(sold)
  }

  /** What the contract checks before its first call. */
  predicate Guards(w: World, sender: Address, buy: Address, sell: Address, amountInB: nat)
  {
    && sender == w.operator && buy != sell && amountInB > 0
    && buy in w.pools && sell in w.pools
    && w.pools[buy].tokenA == w.pools[sell].tokenA && w.pools[buy].tokenB == w.pools[sell].tokenB
    && w.pools[buy].tokenB in w.tokens
    && w.tokens[w.pools[buy].tokenB].Balance(w.backrun) >= amountInB
  }

  lemma BackrunShape(w: World, sender: Address, buy: Address, sell: Address,
                     amountInB: nat, minA: nat, minB: nat, minProfit: nat, e: Executed)
    returns (w1: World, bought: Swapped, w3: World, sold: Swapped)
    requires ExecuteBackrun(w, sender, buy, sell, amountInB, minA, minB, minProfit) == Some(e)
    ensures Guards(w, sender, buy, sell, amountInB)
    ensures Legs(w, buy, sell, amountInB, minA, minB, w1, bought, w3, sold)
    ensures e == Executed(sold.world, bought.amountOut, sold.amountOut)
    ensures var tokenB := w.pools[buy].tokenB;
            && tokenB in sold.world.tokens
            && sold.world.tokens[tokenB].Balance(w.backrun) >= w.tokens[tokenB].Balance(w.backrun) + minProfit
  {
    var d := w.pools[buy];
    w1 := CallApprove(w, d.tokenB, w.backrun, buy, amountInB).value;
    bought := SwapExactBForA(w1, w.backrun, buy, amountInB, minA).value;
    w3 := CallApprove(bought.world, d.tokenA, w.backrun, sell, bought.amountOut).value;
    sold := SwapExactAForB(w3, w.backrun, sell, bought.amountOut, minB).value;
  }

  lemma BackrunBuild(w: World, sender: Address, buy: Address, sell: Address,
                     amountInB: nat, minA: nat, minB: nat, minProfit: nat,
                     w1: World, bought: Swapped, w3: World, sold: Swapped)
    requires Guards(w, sender, buy, sell, amountInB) && buy != ZERO_ADDRESS && sell != ZERO_ADDRESS
    requires Legs(w, buy, sell, amountInB, minA, minB, w1, bought, w3, sold)
    requires var tokenB := w.pools[buy].tokenB;
             && tokenB in sold.world.tokens
             && sold.world.tokens[tokenB].Balance(w.backrun) >= w.tokens[tokenB].Balance(w.backrun) + minProfit
    ensures ExecuteBackrun(w, sender, buy, sell, amountInB, minA, minB, minProfit)
            == Some(Executed(sold.world, bought.amountOut, sold.amountOut))
  {
  }

  /** An approval changes one allowance and nothing else. */
  lemma ApproveEffect(w: World, token: Address, owner: Address, spender: Address, amount: nat, w1: World)
    requires WorldOk(w) && owner !in w.pools && amount < WORD
    requires CallApprove(w, token, owner, spender, amount) == Some(w1)
    ensures WorldOk(w1) && w1 == w.(tokens := w1.tokens)
    ensures token in w.tokens && w1.tokens.Keys == w.tokens.Keys
    ensures w1.tokens[token] == w.tokens[token].(allowances := w1.tokens[token].allowances)
    ensures w1.tokens[token].Allowance(owner, spender) == amount
    ensures SameAllowancesBut(w.tokens[token], w1.tokens[token], owner, spender)
    ensures forall a :: a in w.tokens && a != token ==> w1.tokens[a] == w.tokens[a]
  {
    CallApproveKeepsWorld(w, token, owner, spender, amount);
  }

  /** The two quotes of the route, on the reserves at the call. */
  predicate RouteAccepts(buy: Dex, sell: Dex, amountInB: nat, minA: nat, minB: nat)
  {
    && amountInB > 0 && buy.reserveA > 0 && buy.reserveB > 0 && sell.reserveA > 0 && sell.reserveB > 0
    && Fits(amountInB, buy.reserveB, buy.reserveA)
    && var outA := ExactOut(amountInB, buy.reserveB, buy.reserveA);
       && outA > 0 && outA >= minA
       && Fits(outA, sell.reserveA, sell.reserveB)
       && var outB := ExactOut(outA, sell.reserveA, sell.reserveB);
          outB > 0 && outB >= minB
  }

  /** After one leg: `paid` went from the executor to the pool, `received` came back, the pool
      booked both and the approval for the leg is used up. */
  ghost predicate LegDone(w: World, w': World, pool: Address, tokenPaid: Address, tokenGot: Address,
                          paid: nat, received: nat)
    requires tokenPaid in w.tokens && tokenGot in w.tokens
  {
    && WorldOk(w') && w'.tokens.Keys == w.tokens.Keys
    && w'.backrun == w.backrun && w'.operator == w.operator
    && pool in w.pools && OnlyPoolChanges(w, w', pool)
    && Moved(w.tokens[tokenPaid], w'.tokens[tokenPaid], w.backrun, pool, paid)
    && Moved(w.tokens[tokenGot], w'.tokens[tokenGot], pool, w.backrun, received)
    && Books(w.pools[pool], w'.pools[pool], tokenPaid, tokenGot, paid, received)
    && w'.tokens[tokenPaid].Allowance(w.backrun, pool) == 0
    && SameAllowancesBut(w.tokens[tokenPaid], w'.tokens[tokenPaid], w.backrun, pool)
    && w'.tokens[tokenGot].allowances == w.tokens[tokenGot].allowances
    && (forall a :: a in w.tokens && a != tokenPaid && a != tokenGot ==> w'.tokens[a] == w.tokens[a])
  }

  lemma SmallerThanMax(x: nat, reserveIn: nat, reserveOut: nat)
    requires Fits(x, reserveIn, reserveOut)
    ensures x < MAX_WORD
  {
  }

  /** The buying leg, from the approval on: it succeeds exactly when its quote does. */
  lemma BuyLeg(w: World, buy: Address, amountInB: nat, minA: nat, w1: World)
    requires WorldOk(w) && buy in w.pools && amountInB > 0
    requires CallApprove(w, w.pools[buy].tokenB, w.backrun, buy, amountInB) == Some(w1)
    requires w.pools[buy].tokenB in w.tokens && w.tokens[w.pools[buy].tokenB].Balance(w.backrun) >= amountInB
    ensures SwapExactBForA(w1, w.backrun, buy, amountInB, minA).Some?
            <==> var d := w.pools[buy];
                 && d.reserveA > 0 && d.reserveB > 0 && Fits(amountInB, d.reserveB, d.reserveA)
                 && ExactOut(amountInB, d.reserveB, d.reserveA) > 0
                 && ExactOut(amountInB, d.reserveB, d.reserveA) >= minA
  {
    var d := w.pools[buy];
    assert PoolOk(w, buy);
    BalanceFits(w.tokens[d.tokenB], w.backrun);
    ApproveEffect(w, d.tokenB, w.backrun, buy, amountInB, w1);
    assert PoolOk(w1, buy);
    SameBalance(w.tokens[d.tokenB], w1.tokens[d.tokenB], w.backrun);
    SwapBForAAccepts(w1, w.backrun, buy, amountInB, minA);
  }

  lemma SameBalance(t: Token, t': Token, a: Address)
    requires t'.balances == t.balances
    ensures t'.Balance(a) == t.Balance(a)
  {
  }

  lemma MovedAfterApproval(t: Token, t1: Token, t2: Token, from: Address, to: Address, amount: nat)
    requires t1.balances == t.balances && t1.minter == t.minter && t1.totalSupply == t.totalSupply
    requires Moved(t1, t2, from, to, amount)
    ensures Moved(t, t2, from, to, amount)
  {
    forall a: Address
      ensures t1.Balance(a) == t.Balance(a)
    {
      SameBalance(t, t1, a);
    }
  }

  lemma LegFromTrade(w: World, w1: World, w2: World, pool: Address, tokenPaid: Address, tokenGot: Address,
                     paid: nat, received: nat)
    requires tokenPaid in w.tokens && tokenGot in w.tokens && tokenPaid != tokenGot
    requires w1 == w.(tokens := w1.tokens) && w1.tokens.Keys == w.tokens.Keys
    requires w1.tokens[tokenPaid] == w.tokens[tokenPaid].(allowances := w1.tokens[tokenPaid].allowances)
    requires w1.tokens[tokenPaid].Allowance(w.backrun, pool) == paid < MAX_WORD
    requires SameAllowancesBut(w.tokens[tokenPaid], w1.tokens[tokenPaid], w.backrun, pool)
    requires forall a :: a in w.tokens && a != tokenPaid ==> w1.tokens[a] == w.tokens[a]
    requires Traded(w1, w2, pool, w.backrun, tokenPaid, tokenGot, paid, received)
    requires WorldOk(w2) && pool in w.pools && OnlyPoolChanges(w, w2, pool)
    requires Books(w.pools[pool], w2.pools[pool], tokenPaid, tokenGot, paid, received)
    ensures LegDone(w, w2, pool, tokenPaid, tokenGot, paid, received)
  {
    MovedAfterApproval(w.tokens[tokenPaid], w1.tokens[tokenPaid], w2.tokens[tokenPaid], w.backrun, pool, paid);
    SameAllowancesTrans(w.tokens[tokenPaid], w1.tokens[tokenPaid], w2.tokens[tokenPaid], w.backrun, pool);
  }

  lemma SameAllowancesTrans(t: Token, t1: Token, t2: Token, owner: Address, spender: Address)
    requires SameAllowancesBut(t, t1, owner, spender) && SameAllowancesBut(t1, t2, owner, spender)
    ensures SameAllowancesBut(t, t2, owner, spender)
  {
  }

  lemma BuyLegEffect(w: World, buy: Address, amountInB: nat, minA: nat, w1: World, bought: Swapped)
    requires WorldOk(w) && buy in w.pools && amountInB > 0
    requires w.pools[buy].tokenB in w.tokens && w.tokens[w.pools[buy].tokenB].Balance(w.backrun) >= amountInB
    requires CallApprove(w, w.pools[buy].tokenB, w.backrun, buy, amountInB) == Some(w1)
    requires SwapExactBForA(w1, w.backrun, buy, amountInB, minA) == Some(bought)
    ensures PoolOk(w, buy)
    ensures var d := w.pools[buy];
            && bought.amountOut == ExactOut(amountInB, d.reserveB, d.reserveA) < d.reserveA
            && LegDone(w, bought.world, buy, d.tokenB, d.tokenA, amountInB, bought.amountOut)
  {
    var d := w.pools[buy];
    assert PoolOk(w, buy);
    BuyLeg(w, buy, amountInB, minA, w1);
    SmallerThanMax(amountInB, d.reserveB, d.reserveA);
    ApproveEffect(w, d.tokenB, w.backrun, buy, amountInB, w1);
    SwapBForAEffect(w1, w.backrun, buy, amountInB, minA, bought);
    SwapBForAKeepsWorld(w1, w.backrun, buy, amountInB, minA, bought);
    LegFromTrade(w, w1, bought.world, buy, d.tokenB, d.tokenA, amountInB, bought.amountOut);
  }

  lemma SellLeg(w: World, sell: Address, amountInA: nat, minB: nat, w1: World)
    requires WorldOk(w) && sell in w.pools && amountInA > 0
    requires CallApprove(w, w.pools[sell].tokenA, w.backrun, sell, amountInA) == Some(w1)
    requires w.pools[sell].tokenA in w.tokens && w.tokens[w.pools[sell].tokenA].Balance(w.backrun) >= amountInA
    ensures SwapExactAForB(w1, w.backrun, sell, amountInA, minB).Some?
            <==> var d := w.pools[sell];
                 && d.reserveA > 0 && d.reserveB > 0 && Fits(amountInA, d.reserveA, d.reserveB)
                 && ExactOut(amountInA, d.reserveA, d.reserveB) > 0
                 && ExactOut(amountInA, d.reserveA, d.reserveB) >= minB
  {
    var d := w.pools[sell];
    assert PoolOk(w, sell);
    BalanceFits(w.tokens[d.tokenA], w.backrun);
    ApproveEffect(w, d.tokenA, w.backrun, sell, amountInA, w1);
    assert PoolOk(w1, sell);
    SameBalance(w.tokens[d.tokenA], w1.tokens[d.tokenA], w.backrun);
    SwapAForBAccepts(w1, w.backrun, sell, amountInA, minB);
  }

  lemma SellLegEffect(w: World, sell: Address, amountInA: nat, minB: nat, w1: World, sold: Swapped)
    requires WorldOk(w) && sell in w.pools && amountInA > 0
    requires w.pools[sell].tokenA in w.tokens && w.tokens[w.pools[sell].tokenA].Balance(w.backrun) >= amountInA
    requires CallApprove(w, w.pools[sell].tokenA, w.backrun, sell, amountInA) == Some(w1)
    requires SwapExactAForB(w1, w.backrun, sell, amountInA, minB) == Some(sold)
    ensures PoolOk(w, sell)
    ensures var d := w.pools[sell];
            && sold.amountOut == ExactOut(amountInA, d.reserveA, d.reserveB) < d.reserveB
            && LegDone(w, sold.world, sell, d.tokenA, d.tokenB, amountInA, sold.amountOut)
  {
    var d := w.pools[sell];
    assert PoolOk(w, sell);
    SellLeg(w, sell, amountInA, minB, w1);
    SmallerThanMax(amountInA, d.reserveA, d.reserveB);
    ApproveEffect(w, d.tokenA, w.backrun, sell, amountInA, w1);
    SwapAForBEffect(w1, w.backrun, sell, amountInA, minB, sold);
    SwapAForBKeepsWorld(w1, w.backrun, sell, amountInA, minB, sold);
    LegFromTrade(w, w1, sold.world, sell, d.tokenA, d.tokenB, amountInA, sold.amountOut);
  }

  lemma BoughtWorld(w: World, buy: Address, sell: Address, amountInB: nat, outA: nat, w2: World)
    requires WorldOk(w) && Guards(w, w.operator, buy, sell, amountInB)
    requires w.pools[buy].tokenA in w.tokens
    requires LegDone(w, w2, buy, w.pools[buy].tokenB, w.pools[buy].tokenA, amountInB, outA)
    ensures sell in w2.pools && w2.pools[sell] == w.pools[sell]
    ensures w2.tokens[w.pools[buy].tokenA].Balance(w.backrun)
            == w.tokens[w.pools[buy].tokenA].Balance(w.backrun) + outA
    ensures w2.tokens[w.pools[buy].tokenB].Balance(w.backrun)
            == w.tokens[w.pools[buy].tokenB].Balance(w.backrun) - amountInB
  {
  }

  /** Both legs together: the quotes they need and the state they leave. */
  lemma LegsEffect(w: World, buy: Address, sell: Address, amountInB: nat, minA: nat, minB: nat,
                   w1: World, bought: Swapped, w3: World, sold: Swapped)
    requires WorldOk(w) && Guards(w, w.operator, buy, sell, amountInB)
    requires Legs(w, buy, sell, amountInB, minA, minB, w1, bought, w3, sold)
    ensures PoolOk(w, buy) && RouteAccepts(w.pools[buy], w.pools[sell], amountInB, minA, minB)
    ensures bought.amountOut == ExactOut(amountInB, w.pools[buy].reserveB, w.pools[buy].reserveA)
    ensures sold.amountOut == ExactOut(bought.amountOut, w.pools[sell].reserveA, w.pools[sell].reserveB)
    ensures LegDone(w, bought.world, buy, w.pools[buy].tokenB, w.pools[buy].tokenA, amountInB, bought.amountOut)
    ensures LegDone(bought.world, sold.world, sell, w.pools[buy].tokenA, w.pools[buy].tokenB,
                    bought.amountOut, sold.amountOut)
  {
    var d := w.pools[buy];
    assert PoolOk(w, buy) && PoolOk(w, sell);
    BuyLeg(w, buy, amountInB, minA, w1);
    BuyLegEffect(w, buy, amountInB, minA, w1, bought);
    BoughtWorld(w, buy, sell, amountInB, bought.amountOut, bought.world);
    SellLeg(bought.world, sell, bought.amountOut, minB, w3);
    SellLegEffect(bought.world, sell, bought.amountOut, minB, w3, sold);
  }

  /** An accepted route can be carried out. */
  lemma LegsExist(w: World, buy: Address, sell: Address, amountInB: nat, minA: nat, minB: nat)
    returns (w1: World, bought: Swapped, w3: World, sold: Swapped)
    requires WorldOk(w) && Guards(w, w.operator, buy, sell, amountInB)
    requires RouteAccepts(w.pools[buy], w.pools[sell], amountInB, minA, minB)
    ensures Legs(w, buy, sell, amountInB, minA, minB, w1, bought, w3, sold)
  {
    var d := w.pools[buy];
    assert PoolOk(w, buy) && PoolOk(w, sell);
    w1 := CallApprove(w, d.tokenB, w.backrun, buy, amountInB).value;
    BuyLeg(w, buy, amountInB, minA, w1);
    bought := SwapExactBForA(w1, w.backrun, buy, amountInB, minA).value;
    BuyLegEffect(w, buy, amountInB, minA, w1, bought);
    BoughtWorld(w, buy, sell, amountInB, bought.amountOut, bought.world);
    w3 := CallApprove(bought.world, d.tokenA, w.backrun, sell, bought.amountOut).value;
    SellLeg(bought.world, sell, bought.amountOut, minB, w3);
    sold := SwapExactAForB(w3, w.backrun, sell, bought.amountOut, minB).value;
  }

  /** What a successful backrun leaves: TokenB moved by the profit, TokenA only between the two
      pools, both approvals spent, and both pools booked. */
  ghost predicate BackrunDone(w: World, w': World, buy: Address, sell: Address,
                              amountInB: nat, outA: nat, outB: nat)
    requires buy in w.pools && sell in w.pools && w.pools[buy].tokenA in w.tokens && w.pools[buy].tokenB in w.tokens
  {
    var tokenA, tokenB := w.pools[buy].tokenA, w.pools[buy].tokenB;
    && WorldOk(w') && w'.tokens.Keys == w.tokens.Keys && w'.pools.Keys == w.pools.Keys
    && Moved(w.tokens[tokenA], w'.tokens[tokenA], buy, sell, outA)
    && RoundTrip(w.tokens[tokenB], w'.tokens[tokenB], w.backrun, buy, sell, amountInB, outB)
    && w'.tokens[tokenB].Allowance(w.backrun, buy) == 0
    && w'.tokens[tokenA].Allowance(w.backrun, sell) == 0
    && SameAllowancesBut(w.tokens[tokenB], w'.tokens[tokenB], w.backrun, buy)
    && SameAllowancesBut(w.tokens[tokenA], w'.tokens[tokenA], w.backrun, sell)
    && Books(w.pools[buy], w'.pools[buy], tokenB, tokenA, amountInB, outA)
    && Books(w.pools[sell], w'.pools[sell], tokenA, tokenB, outA, outB)
    && (forall p :: p in w.pools && p != buy && p != sell ==> w'.pools[p] == w.pools[p])
    && (forall a :: a in w.tokens && a != tokenA && a != tokenB ==> w'.tokens[a] == w.tokens[a])
  }

  /** The executor paid `paid` to one pool and got `received` from another. */
  ghost predicate RoundTrip(t: Token, t': Token, executor: Address, buy: Address, sell: Address,
                            paid: nat, received: nat)
  {
    && t'.totalSupply == t.totalSupply
    && (forall a: Address :: a != executor && a != buy && a != sell ==> t'.Balance(a) == t.Balance(a))
    && t'.Balance(buy) == t.Balance(buy) + paid
    && t'.Balance(sell) == t.Balance(sell) - received
    && t'.Balance(executor) == t.Balance(executor) - paid + received
  }

  lemma MakesRoundTrip(t: Token, t1: Token, t2: Token, executor: Address, buy: Address, sell: Address,
                       paid: nat, received: nat)
    requires Moved(t, t1, executor, buy, paid) && Moved(t1, t2, sell, executor, received)
    requires executor != buy && executor != sell && buy != sell
    ensures RoundTrip(t, t2, executor, buy, sell, paid, received)
  {
  }

  lemma PoolsCompose(w: World, w2: World, w4: World, buy: Address, sell: Address)
    requires buy in w.pools && sell in w.pools && buy != sell
    requires OnlyPoolChanges(w, w2, buy) && OnlyPoolChanges(w2, w4, sell)
    ensures w4.pools.Keys == w.pools.Keys
    ensures w2.pools[sell] == w.pools[sell] && w4.pools[buy] == w2.pools[buy]
    ensures forall p :: p in w.pools && p != buy && p != sell ==> w4.pools[p] == w.pools[p]
  {
  }

  lemma LegsCompose(w: World, w2: World, w4: World, buy: Address, sell: Address,
                    amountInB: nat, outA: nat, outB: nat)
    requires WorldOk(w) && Guards(w, w.operator, buy, sell, amountInB) && PoolOk(w, buy)
    requires LegDone(w, w2, buy, w.pools[buy].tokenB, w.pools[buy].tokenA, amountInB, outA)
    requires LegDone(w2, w4, sell, w.pools[buy].tokenA, w.pools[buy].tokenB, outA, outB)
    ensures BackrunDone(w, w4, buy, sell, amountInB, outA, outB)
  {
    var tokenA, tokenB := w.pools[buy].tokenA, w.pools[buy].tokenB;
    PoolsCompose(w, w2, w4, buy, sell);
    MakesRoundTrip(w.tokens[tokenB], w2.tokens[tokenB], w4.tokens[tokenB], w.backrun, buy, sell, amountInB, outB);
    TwoMoves(w.tokens[tokenA], w2.tokens[tokenA], w4.tokens[tokenA], buy, w.backrun, sell, outA);
    SameAllowance(w2.tokens[tokenB], w4.tokens[tokenB], w.backrun, buy);
    SameMapAllowances(w.tokens[tokenB], w2.tokens[tokenB], w4.tokens[tokenB], w.backrun, buy);
    MapSameAllowances(w.tokens[tokenA], w2.tokens[tokenA], w4.tokens[tokenA], w.backrun, sell);
  }

  lemma SameMapAllowances(t: Token, t1: Token, t2: Token, owner: Address, spender: Address)
    requires SameAllowancesBut(t, t1, owner, spender) && t2.allowances == t1.allowances
    ensures SameAllowancesBut(t, t2, owner, spender)
  {
    forall o: Address, s: Address | o != owner || s != spender
      ensures t2.Allowance(o, s) == t.Allowance(o, s)
    {
      SameAllowance(t1, t2, o, s);
    }
  }

  lemma MapSameAllowances(t: Token, t1: Token, t2: Token, owner: Address, spender: Address)
    requires t1.allowances == t.allowances && SameAllowancesBut(t1, t2, owner, spender)
    ensures SameAllowancesBut(t, t2, owner, spender)
  {
    forall o: Address, s: Address | o != owner || s != spender
      ensures t2.Allowance(o, s) == t.Allowance(o, s)
    {
      SameAllowance(t, t1, o, s);
    }
  }

  lemma SameAllowance(t: Token, t': Token, o: Address, s: Address)
    requires t'.allowances == t.allowances
    ensures t'.Allowance(o, s) == t.Allowance(o, s)
  {
  }

  lemma TwoMoves(t: Token, t1: Token, t2: Token, from: Address, via: Address, to: Address, amount: nat)
    requires Moved(t, t1, from, via, amount) && Moved(t1, t2, via, to, amount)
    requires via != from && via != to
    ensures Moved(t, t2, from, to, amount)
  {
  }

  /** executeBackrun succeeds exactly when its guards hold, both quotes go through without
      overflow, slippage or a zero output, and the output covers input and minimum profit. */
  lemma BackrunAccepts(w: World, sender: Address, buy: Address, sell: Address,
                       amountInB: nat, minA: nat, minB: nat, minProfit: nat)
    requires WorldOk(w)
    ensures ExecuteBackrun(w, sender, buy, sell, amountInB, minA, minB, minProfit).Some?
            <==> && Guards(w, sender, buy, sell, amountInB)
                 && RouteAccepts(w.pools[buy], w.pools[sell], amountInB, minA, minB)
                 && RouteOutB(w.pools[buy], w.pools[sell], amountInB) >= amountInB + minProfit
  {
    var r := ExecuteBackrun(w, sender, buy, sell, amountInB, minA, minB, minProfit);
    if r.Some? {
      var w1, bought, w3, sold := BackrunShape(w, sender, buy, sell, amountInB, minA, minB, minProfit, r.value);
      LegsEffect(w, buy, sell, amountInB, minA, minB, w1, bought, w3, sold);
      LegsCompose(w, bought.world, sold.world, buy, sell, amountInB, bought.amountOut, sold.amountOut);
    }
    if && Guards(w, sender, buy, sell, amountInB)
       && RouteAccepts(w.pools[buy], w.pools[sell], amountInB, minA, minB)
       && RouteOutB(w.pools[buy], w.pools[sell], amountInB) >= amountInB + minProfit
    {
      assert PoolOk(w, buy) && PoolOk(w, sell);
      var w1, bought, w3, sold := LegsExist(w, buy, sell, amountInB, minA, minB);
      LegsEffect(w, buy, sell, amountInB, minA, minB, w1, bought, w3, sold);
      LegsCompose(w, bought.world, sold.world, buy, sell, amountInB, bought.amountOut, sold.amountOut);
      BackrunBuild(w, sender, buy, sell, amountInB, minA, minB, minProfit, w1, bought, w3, sold);
    }
  }

  /** The TokenB that the route returns, or zero when the first leg returns nothing. */
  function RouteOutB(buy: Dex, sell: Dex, amountInB: nat): nat
  {
    if amountInB == 0 then 0
    else
      var outA := ExactOut(amountInB, buy.reserveB, buy.reserveA);
      if outA == 0 then 0 else ExactOut(outA, sell.reserveA, sell.reserveB)
  }

  /** After any successful executeBackrun. */
  lemma BackrunEffect(w: World, sender: Address, buy: Address, sell: Address,
                      amountInB: nat, minA: nat, minB: nat, minProfit: nat, e: Executed)
    requires WorldOk(w)
    requires ExecuteBackrun(w, sender, buy, sell, amountInB, minA, minB, minProfit) == Some(e)
    ensures sender == w.operator && buy in w.pools && sell in w.pools && buy != sell && amountInB > 0
    ensures PoolOk(w, buy) && PoolOk(w, sell)
    ensures e.amountOutA == ExactOut(amountInB, w.pools[buy].reserveB, w.pools[buy].reserveA) > 0
    ensures e.amountOutB == ExactOut(e.amountOutA, w.pools[sell].reserveA, w.pools[sell].reserveB)
    ensures e.amountOutA >= minA && e.amountOutB >= minB && e.amountOutB - amountInB >= minProfit
    ensures BackrunDone(w, e.world, buy, sell, amountInB, e.amountOutA, e.amountOutB)
    ensures e.world.backrun == w.backrun && e.world.operator == w.operator
  {
    var w1, bought, w3, sold := BackrunShape(w, sender, buy, sell, amountInB, minA, minB, minProfit, e);
    assert PoolOk(w, buy) && PoolOk(w, sell);
    LegsEffect(w, buy, sell, amountInB, minA, minB, w1, bought, w3, sold);
    LegsCompose(w, bought.world, sold.world, buy, sell, amountInB, bought.amountOut, sold.amountOut);
  }

  /** A backrun that does not lose needs a price gap larger than both fees, on the reserves at
      the call: 997^2 * buy.reserveA * sell.reserveB > 1000^2 * buy.reserveB * sell.reserveA. */
  lemma BackrunNeedsPriceGap(w: World, sender: Address, buy: Address, sell: Address,
                             amountInB: nat, minA: nat, minB: nat, minProfit: nat)
    requires WorldOk(w)
    requires ExecuteBackrun(w, sender, buy, sell, amountInB, minA, minB, minProfit).Some?
    ensures buy in w.pools && sell in w.pools
    ensures PriceGap(w.pools[buy], w.pools[sell])
  {
    BackrunAccepts(w, sender, buy, sell, amountInB, minA, minB, minProfit);
    var d1, d2 := w.pools[buy], w.pools[sell];
    var outA := ExactOut(amountInB, d1.reserveB, d1.reserveA);
    var outB := ExactOut(outA, d2.reserveA, d2.reserveB);
    Optimality.RouteUpper(d1.reserveA, d1.reserveB, d2.reserveA, d2.reserveB, amountInB, outA, outB);
    GapFrom(d1.reserveA, d1.reserveB, d2.reserveA, d2.reserveB, amountInB, outB);
  }

  predicate PriceGap(buy: Dex, sell: Dex)
  {
    (997 * 997) * (buy.reserveA * sell.reserveB) > (1000 * 1000) * (buy.reserveB * sell.reserveA)
  }

  lemma GapFrom(a1: nat, b1: nat, a2: nat, b2: nat, x: nat, outB: nat)
    requires x > 0 && a2 > 0 && outB >= x
    requires outB * Optimality.W(Calculator.CoefD(b1, a2), Calculator.CoefE(a2, a1), x) <= Calculator.CoefC(a1, b2) * x
    ensures 994009 * (a1 * b2) > 1000000 * (b1 * a2)
  {
    var c, d, e := Calculator.CoefC(a1, b2), Calculator.CoefD(b1, a2), Calculator.CoefE(a2, a1);
    MulAtMost(x, outB, d + e * x);
    CancelAtMost(x, d + e * x, c);
    MulLess(0, x, e);
    GapIdentity(a1, b1, a2, b2);
  }

  lemma CancelAtMost(k: nat, x: nat, y: nat)
    requires k > 0 && k * x <= y * k
    ensures x <= y
  {
    CancelLeft(k, x, y);
  }

  lemma GapIdentity(a1: nat, b1: nat, a2: nat, b2: nat)
    ensures Calculator.CoefC(a1, b2) == 994009 * (a1 * b2)
    ensures Calculator.CoefD(b1, a2) == 1000000 * (b1 * a2)
  {
  }
}
