/** What every transaction keeps: supplies are the sum of the balances, pools never grant
    allowances, and every recorded reserve is backed by the pool's balance. */
module LedgerInvariant {
  import opened Common
  import opened ConstantProduct
  import opened Ledger

  // ---------------------------------------------------------------- sums over balances

  ghost function Sum(m: map<Address, nat>): nat
    decreases |m|
  {
    if m == map[] then 0
    else
      var k :| k in m;
      assert |m - {k}| < |m| by { assert (m - {k}).Keys == m.Keys - {k}; }
      m[k] + Sum(m - {k})
  }

  lemma {:induction false} SumRemove(m: map<Address, nat>, k: Address)
    requires k in m
    ensures Sum(m) == m[k] + Sum(m - {k})
    decreases |m|
  {
    var p :| p in m && Sum(m) == m[p] + Sum(m - {p});
    if p != k {
      assert (m - {p}).Keys == m.Keys - {p} && (m - {k}).Keys == m.Keys - {k};
      SumRemove(m - {p}, k);
      SumRemove(m - {k}, p);
      assert m - {p} - {k} == m - {k} - {p};
    }
  }

  function Get(m: map<Address, nat>, k: Address): nat {
    if k in m then m[k] else 0
  }

  lemma SumUpdate(m: map<Address, nat>, k: Address, v: nat)
    ensures Sum(m[k := v]) == Sum(m) - Get(m, k) + v
  {
    var n := m[k := v];
    SumRemove(n, k);
    if k in m {
      SumRemove(m, k);
      assert n - {k} == m - {k};
    } else {
      assert n - {k} == m;
    }
  }

  lemma SumAtLeast(m: map<Address, nat>, k: Address)
    ensures Get(m, k) <= Sum(m)
  {
    if k in m {
      SumRemove(m, k);
    }
  }

  // ---------------------------------------------------------------- one token

  ghost predicate TokenOk(t: Token) {
    && Sum(t.balances) == t.totalSupply < WORD
    && forall k :: k in t.allowances ==> t.allowances[k] < WORD
  }

  /** The balances after `amount` went from one account to another. */
  ghost predicate Moved(t: Token, t': Token, from: Address, to: Address, amount: nat) {
    && t'.minter == t.minter && t'.totalSupply == t.totalSupply
    && t.Balance(from) >= amount
    && forall a: Address ::
         t'.Balance(a)
         == t.Balance(a) - (if a == from then amount else 0) + (if a == to then amount else 0)
  }

  ghost predicate SameAllowancesBut(t: Token, t': Token, owner: Address, spender: Address) {
    forall o: Address, s: Address :: o != owner || s != spender ==> t'.Allowance(o, s) == t.Allowance(o, s)
  }

  /** A transfer succeeds exactly when the receiver is not zero and the sender can pay: the
      credit never overflows, because balances sum to a supply that fits a word. */
  lemma MoveEffect(t: Token, from: Address, to: Address, amount: nat)
    requires TokenOk(t)
    ensures Move(t, from, to, amount).Some? <==> to != ZERO_ADDRESS && t.Balance(from) >= amount
    ensures Move(t, from, to, amount).Some? ==>
              var t' := Move(t, from, to, amount).value;
              TokenOk(t') && Moved(t, t', from, to, amount) && t'.allowances == t.allowances
  {
    if to != ZERO_ADDRESS && t.Balance(from) >= amount {
      var balances := t.balances[from := t.Balance(from) - amount];
      MoveSum(t.balances, from, to, amount);
    }
  }

  lemma MoveSum(m: map<Address, nat>, from: Address, to: Address, amount: nat)
    requires Get(m, from) >= amount
    ensures var debited := m[from := Get(m, from) - amount];
            && Get(debited, to) + amount <= Sum(m)
            && Sum(debited[to := Get(debited, to) + amount]) == Sum(m)
  {
    var debited := m[from := Get(m, from) - amount];
    SumUpdate(m, from, Get(m, from) - amount);
    SumAtLeast(debited, to);
    SumUpdate(debited, to, Get(debited, to) + amount);
  }

  lemma TransferFromEffect(t: Token, sender: Address, from: Address, to: Address, amount: nat)
    requires TokenOk(t)
    ensures TransferFrom(t, sender, from, to, amount).Some?
            <==> to != ZERO_ADDRESS && t.Balance(from) >= amount && t.Allowance(from, sender) >= amount
    ensures TransferFrom(t, sender, from, to, amount).Some? ==>
              var t' := TransferFrom(t, sender, from, to, amount).value;
              && TokenOk(t') && Moved(t, t', from, to, amount)
              && t'.Allowance(from, sender)
                 == (if t.Allowance(from, sender) == MAX_WORD then MAX_WORD else t.Allowance(from, sender) - amount)
              && SameAllowancesBut(t, t', from, sender)
  {
    var allowed := t.Allowance(from, sender);
    if allowed >= amount {
      var spent := Spent(t, from, sender, amount);
      SpentOk(t, from, sender, amount);
      MoveEffect(spent, from, to, amount);
    }
  }

  function Spent(t: Token, from: Address, sender: Address, amount: nat): Token
    requires t.Allowance(from, sender) >= amount
  {
    var allowed := t.Allowance(from, sender);
    if allowed != MAX_WORD
    then t.(allowances := t.allowances[(from, sender) := allowed - amount])
    else t
  }

  lemma SpentOk(t: Token, from: Address, sender: Address, amount: nat)
    requires TokenOk(t) && t.Allowance(from, sender) >= amount
    ensures var t' := Spent(t, from, sender, amount);
            && TokenOk(t') && t'.balances == t.balances
            && t'.Allowance(from, sender)
               == (if t.Allowance(from, sender) == MAX_WORD then MAX_WORD else t.Allowance(from, sender) - amount)
            && SameAllowancesBut(t, t', from, sender)
  {
  }

  lemma MintEffect(t: Token, sender: Address, to: Address, amount: nat)
    requires TokenOk(t) && Mint(t, sender, to, amount).Some?
    ensures var t' := Mint(t, sender, to, amount).value;
            && TokenOk(t') && t'.allowances == t.allowances
            && t'.totalSupply == t.totalSupply + amount
            && forall a: Address :: t'.Balance(a) == t.Balance(a) + (if a == to then amount else 0)
  {
    SumUpdate(t.balances, to, Get(t.balances, to) + amount);
  }

  // ---------------------------------------------------------------- the world

  ghost predicate PoolOk(w: World, p: Address)
    requires p in w.pools
  {
    var d := w.pools[p];
    && p != ZERO_ADDRESS && d.tokenA != d.tokenB
    && d.tokenA in w.tokens && d.tokenB in w.tokens
    && d.reserveA <= w.tokens[d.tokenA].Balance(p)
    && d.reserveB <= w.tokens[d.tokenB].Balance(p)
  }

  ghost predicate GrantsNothing(t: Token, p: Address) {
    forall s: Address :: t.Allowance(p, s) == 0
  }

  /** Supplies are conserved, reserves are backed and pools never grant an allowance. */
  ghost predicate WorldOk(w: World) {
    match w
    case World(tokens, pools, backrun, _) =>
      && (forall a :: a in tokens ==> TokenOk(tokens[a]))
      && (forall p :: p in pools ==> PoolOk(w, p))
      && (forall a, p :: a in tokens && p in pools ==> GrantsNothing(tokens[a], p))
      && backrun !in pools && backrun != ZERO_ADDRESS
  }

  /** A change of one token that takes nothing from any pool keeps the invariant. */
  lemma TokenChange(w: World, token: Address, t: Token)
    requires WorldOk(w) && token in w.tokens && TokenOk(t)
    requires forall p :: p in w.pools ==> w.tokens[token].Balance(p) <= t.Balance(p) && GrantsNothing(t, p)
    ensures WorldOk(SetToken(w, token, t))
  {
    var w' := SetToken(w, token, t);
    forall p | p in w'.pools
      ensures PoolOk(w', p)
    {
      assert PoolOk(w, p);
    }
  }

  predicate SwapAccepts(w: World, pool: Address, sender: Address, tokenIn: Address,
                        amountIn: nat, minAmountOut: nat, reserveIn: nat, reserveOut: nat)
    requires tokenIn in w.tokens
  {
    && amountIn > 0 && reserveIn > 0 && reserveOut > 0
    && Fits(amountIn, reserveIn, reserveOut)
    && ExactOut(amountIn, reserveIn, reserveOut) > 0
    && ExactOut(amountIn, reserveIn, reserveOut) >= minAmountOut
    && w.tokens[tokenIn].Balance(sender) >= amountIn
    && w.tokens[tokenIn].Allowance(sender, pool) >= amountIn
  }

  lemma GetAmountOutEffect(x: nat, reserveIn: nat, reserveOut: nat)
    ensures GetAmountOut(x, reserveIn, reserveOut)
            == if x > 0 && reserveIn > 0 && reserveOut > 0 && Fits(x, reserveIn, reserveOut)
               then Some(ExactOut(x, reserveIn, reserveOut)) else None
  {
    assert Times(x, 997) == 997 * x && Times(reserveIn, 1000) == 1000 * reserveIn;
    if x > 0 && reserveOut > 0 {
      MulAtMost(1, reserveOut, 997 * x);
    }
  }

  /** The token movements of one swap: the input goes to the pool, the output to the trader. */
  ghost predicate Traded(w: World, w': World, pool: Address, trader: Address, tokenIn: Address, tokenOut: Address,
                         amountIn: nat, amountOut: nat)
    requires tokenIn in w.tokens && tokenOut in w.tokens
  {
    && w'.tokens.Keys == w.tokens.Keys
    && w'.backrun == w.backrun && w'.operator == w.operator
    && (forall a :: a in w.tokens && a != tokenIn && a != tokenOut ==> w'.tokens[a] == w.tokens[a])
    && TokenOk(w'.tokens[tokenIn]) && TokenOk(w'.tokens[tokenOut])
    && Moved(w.tokens[tokenIn], w'.tokens[tokenIn], trader, pool, amountIn)
    && Moved(w.tokens[tokenOut], w'.tokens[tokenOut], pool, trader, amountOut)
    && w'.tokens[tokenOut].allowances == w.tokens[tokenOut].allowances
    && SameAllowancesBut(w.tokens[tokenIn], w'.tokens[tokenIn], trader, pool)
    && var granted := w.tokens[tokenIn].Allowance(trader, pool);
       w'.tokens[tokenIn].Allowance(trader, pool) == if granted == MAX_WORD then MAX_WORD else granted - amountIn
  }

  /** The swap accepts exactly these calls, and then moves the two tokens. */
  lemma SwapExactInShape(w: World, pool: Address, sender: Address, tokenIn: Address, tokenOut: Address,
                         amountIn: nat, minAmountOut: nat, reserveIn: nat, reserveOut: nat)
    requires WorldOk(w) && pool != ZERO_ADDRESS && sender != ZERO_ADDRESS
    requires tokenIn != tokenOut && tokenIn in w.tokens && tokenOut in w.tokens
    requires reserveOut <= w.tokens[tokenOut].Balance(pool)
    ensures SwapExactIn(w, pool, sender, tokenIn, tokenOut, amountIn, minAmountOut, reserveIn, reserveOut).Some?
            <==> SwapAccepts(w, pool, sender, tokenIn, amountIn, minAmountOut, reserveIn, reserveOut)
    ensures SwapAccepts(w, pool, sender, tokenIn, amountIn, minAmountOut, reserveIn, reserveOut) ==>
              var out := ExactOut(amountIn, reserveIn, reserveOut);
              var paid := TransferFrom(w.tokens[tokenIn], pool, sender, pool, amountIn);
              var delivered := Move(w.tokens[tokenOut], pool, sender, out);
              && paid.Some? && delivered.Some?
              && SwapExactIn(w, pool, sender, tokenIn, tokenOut, amountIn, minAmountOut, reserveIn, reserveOut)
                 == Some(Swapped(SetToken(SetToken(w, tokenIn, paid.value), tokenOut, delivered.value), out))
  {
    GetAmountOutEffect(amountIn, reserveIn, reserveOut);
    if GetAmountOut(amountIn, reserveIn, reserveOut).Some? {
      OutBelowReserve(amountIn, reserveIn, reserveOut);
      TransferFromEffect(w.tokens[tokenIn], pool, sender, pool, amountIn);
      MoveEffect(w.tokens[tokenOut], pool, sender, ExactOut(amountIn, reserveIn, reserveOut));
    }
  }

  lemma SwapExactInEffect(w: World, pool: Address, sender: Address, tokenIn: Address, tokenOut: Address,
                          amountIn: nat, minAmountOut: nat, reserveIn: nat, reserveOut: nat)
    requires WorldOk(w) && pool != ZERO_ADDRESS && sender != ZERO_ADDRESS
    requires tokenIn != tokenOut && tokenIn in w.tokens && tokenOut in w.tokens
    requires reserveOut <= w.tokens[tokenOut].Balance(pool)
    requires SwapAccepts(w, pool, sender, tokenIn, amountIn, minAmountOut, reserveIn, reserveOut)
    ensures var s := SwapExactIn(w, pool, sender, tokenIn, tokenOut, amountIn, minAmountOut, reserveIn, reserveOut);
            && s.Some?
            && s.value.amountOut == ExactOut(amountIn, reserveIn, reserveOut) < reserveOut
            && s.value.world.pools == w.pools
            && Traded(w, s.value.world, pool, sender, tokenIn, tokenOut, amountIn, s.value.amountOut)
  {
    SwapExactInShape(w, pool, sender, tokenIn, tokenOut, amountIn, minAmountOut, reserveIn, reserveOut);
    OutBelowReserve(amountIn, reserveIn, reserveOut);
    TransferFromEffect(w.tokens[tokenIn], pool, sender, pool, amountIn);
    MoveEffect(w.tokens[tokenOut], pool, sender, ExactOut(amountIn, reserveIn, reserveOut));
  }

  lemma BalanceFits(t: Token, a: Address)
    requires TokenOk(t)
    ensures t.Balance(a) <= t.totalSupply < WORD
  {
    SumAtLeast(t.balances, a);
  }

  /** A pool that trades stays backed when it books exactly what moved, and so do the others. */
  lemma TradeKeepsPool(w: World, w': World, pool: Address, trader: Address, tokenIn: Address, tokenOut: Address,
                        amountIn: nat, amountOut: nat, p: Address)
    requires WorldOk(w) && pool in w.pools && trader !in w.pools
    requires tokenIn != tokenOut && tokenIn in w.tokens && tokenOut in w.tokens
    requires Traded(w, w', pool, trader, tokenIn, tokenOut, amountIn, amountOut)
    requires OnlyPoolChanges(w, w', pool)
    requires Books(w.pools[pool], w'.pools[pool], tokenIn, tokenOut, amountIn, amountOut)
    requires p in w'.pools
    ensures PoolOk(w', p)
  {
    assert PoolOk(w, pool);
    if p == pool {
      BacksTrade(w.tokens[tokenIn], w'.tokens[tokenIn], trader, pool, amountIn);
    } else {
      assert PoolOk(w, p);
      BystanderPool(w, w', pool, trader, tokenIn, tokenOut, amountIn, amountOut, p);
    }
  }

  /** A trade spends an allowance of the trader and none of a pool. */
  lemma TradeKeepsGrants(w: World, w': World, pool: Address, trader: Address, tokenIn: Address, tokenOut: Address,
                        amountIn: nat, amountOut: nat, a: Address, p: Address)
    requires tokenIn in w.tokens && tokenOut in w.tokens && trader != p
    requires Traded(w, w', pool, trader, tokenIn, tokenOut, amountIn, amountOut)
    requires a in w.tokens && GrantsNothing(w.tokens[a], p)
    ensures GrantsNothing(w'.tokens[a], p)
  {
    if a == tokenIn {
      StillGrantsNothing(w.tokens[a], w'.tokens[a], p, trader, pool);
    } else if a == tokenOut {
      SameMapGrantsNothing(w.tokens[a], w'.tokens[a], p);
    }
  }

  /** A trade against a pool keeps the invariant when the pool books exactly what moved. */
  lemma TradeKeepsWorld(w: World, w': World, pool: Address, trader: Address, tokenIn: Address, tokenOut: Address,
                        amountIn: nat, amountOut: nat)
    requires WorldOk(w) && pool in w.pools && trader !in w.pools
    requires tokenIn != tokenOut && tokenIn in w.tokens && tokenOut in w.tokens
    requires Traded(w, w', pool, trader, tokenIn, tokenOut, amountIn, amountOut)
    requires OnlyPoolChanges(w, w', pool)
    requires Books(w.pools[pool], w'.pools[pool], tokenIn, tokenOut, amountIn, amountOut)
    ensures WorldOk(w')
  {
    forall p | p in w'.pools
      ensures PoolOk(w', p)
    {
      TradeKeepsPool(w, w', pool, trader, tokenIn, tokenOut, amountIn, amountOut, p);
    }
    forall a, p | a in w'.tokens && p in w'.pools
      ensures GrantsNothing(w'.tokens[a], p)
    {
      TradeKeepsGrants(w, w', pool, trader, tokenIn, tokenOut, amountIn, amountOut, a, p);
    }
  }

  lemma SameMapGrantsNothing(t: Token, t': Token, p: Address)
    requires GrantsNothing(t, p) && t'.allowances == t.allowances
    ensures GrantsNothing(t', p)
  {
    forall s: Address
      ensures t'.Allowance(p, s) == 0
    {
      assert t.Allowance(p, s) == 0;
    }
  }

  lemma BacksTrade(t: Token, t': Token, trader: Address, pool: Address, amount: nat)
    requires Moved(t, t', trader, pool, amount) && trader != pool
    ensures t'.Balance(pool) == t.Balance(pool) + amount
  {
  }

  lemma BystanderPool(w: World, w': World, pool: Address, trader: Address, tokenIn: Address, tokenOut: Address,
                      amountIn: nat, amountOut: nat, p: Address)
    requires tokenIn in w.tokens && tokenOut in w.tokens
    requires Traded(w, w', pool, trader, tokenIn, tokenOut, amountIn, amountOut)
    requires p != pool && p != trader
    ensures forall a :: a in w.tokens ==> w'.tokens[a].Balance(p) == w.tokens[a].Balance(p)
  {
  }

  lemma StillGrantsNothing(t: Token, t': Token, p: Address, owner: Address, spender: Address)
    requires GrantsNothing(t, p) && SameAllowancesBut(t, t', owner, spender) && p != owner
    ensures GrantsNothing(t', p)
  {
    forall s: Address
      ensures t'.Allowance(p, s) == 0
    {
      assert t.Allowance(p, s) == 0;
    }
  }

  /** At most this pool has other reserves than before. */
  ghost predicate OnlyPoolChanges(w: World, w': World, pool: Address) {
    pool in w'.pools && w'.pools == w.pools[pool := w'.pools[pool]]
  }

  ghost predicate Books(d: Dex, d': Dex, tokenIn: Address, tokenOut: Address, amountIn: nat, amountOut: nat) {
    && d'.tokenA == d.tokenA && d'.tokenB == d.tokenB
    && (if tokenIn == d.tokenA && tokenOut == d.tokenB then
          d'.reserveA == d.reserveA + amountIn && d'.reserveB == d.reserveB - amountOut
        else
          && tokenIn == d.tokenB && tokenOut == d.tokenA
          && d'.reserveB == d.reserveB + amountIn && d'.reserveA == d.reserveA - amountOut)
  }

  // ---------------------------------------------------------------- swaps

  lemma TradedIgnoresPools(w: World, w1: World, pool: Address, trader: Address, tokenIn: Address, tokenOut: Address,
                           amountIn: nat, amountOut: nat, w2: World)
    requires tokenIn in w.tokens && tokenOut in w.tokens
    requires Traded(w, w1, pool, trader, tokenIn, tokenOut, amountIn, amountOut)
    requires w2 == w1.(pools := w2.pools)
    ensures Traded(w, w2, pool, trader, tokenIn, tokenOut, amountIn, amountOut)
  {
  }

  /** The growing reserve stays a word, because the pool's balance does. */
  lemma ReserveFits(w: World, w1: World, pool: Address, trader: Address, tokenIn: Address, tokenOut: Address,
                    amountIn: nat, amountOut: nat)
    requires tokenIn in w.tokens && tokenOut in w.tokens && trader != pool
    requires Traded(w, w1, pool, trader, tokenIn, tokenOut, amountIn, amountOut)
    ensures w.tokens[tokenIn].Balance(pool) + amountIn < WORD
  {
    BacksTrade(w.tokens[tokenIn], w1.tokens[tokenIn], trader, pool, amountIn);
    BalanceFits(w1.tokens[tokenIn], pool);
  }
  /** What both swap directions share: the accepted swap moves the tokens, and both reserve
      updates that follow it fit. */
  lemma CoreSwap(w: World, pool: Address, sender: Address, tokenIn: Address, tokenOut: Address,
                 amountIn: nat, minAmountOut: nat, reserveIn: nat, reserveOut: nat) returns (s: Swapped)
    requires WorldOk(w) && pool in w.pools && sender !in w.pools && sender != ZERO_ADDRESS
    requires tokenIn != tokenOut && tokenIn in w.tokens && tokenOut in w.tokens
    requires reserveOut <= w.tokens[tokenOut].Balance(pool) && reserveIn <= w.tokens[tokenIn].Balance(pool)
    requires SwapAccepts(w, pool, sender, tokenIn, amountIn, minAmountOut, reserveIn, reserveOut)
    ensures SwapExactIn(w, pool, sender, tokenIn, tokenOut, amountIn, minAmountOut, reserveIn, reserveOut) == Some(s)
    ensures s.amountOut == ExactOut(amountIn, reserveIn, reserveOut) < reserveOut
    ensures CheckedAdd(reserveIn, amountIn) == Some(reserveIn + amountIn)
    ensures CheckedSub(reserveOut, s.amountOut) == Some(reserveOut - s.amountOut)
    ensures s.world.pools == w.pools
    ensures Traded(w, s.world, pool, sender, tokenIn, tokenOut, amountIn, s.amountOut)
  {
    assert PoolOk(w, pool);
    SwapExactInEffect(w, pool, sender, tokenIn, tokenOut, amountIn, minAmountOut, reserveIn, reserveOut);
    s := SwapExactIn(w, pool, sender, tokenIn, tokenOut, amountIn, minAmountOut, reserveIn, reserveOut).value;
    ReserveFits(w, s.world, pool, sender, tokenIn, tokenOut, amountIn, s.amountOut);
  }

  /** Under the invariant a swap never fails for lack of pool balance, reserve underflow or
      reserve overflow: it succeeds exactly when the quote and the trader's funds allow it ... */
  lemma SwapAForBShape(w: World, sender: Address, pool: Address, amountIn: nat, minAmountOut: nat, core: Swapped)
    requires pool in w.pools && core.world.pools == w.pools
    requires var d := w.pools[pool];
             && SwapExactIn(w, pool, sender, d.tokenA, d.tokenB, amountIn, minAmountOut, d.reserveA, d.reserveB)
                == Some(core)
             && CheckedAdd(d.reserveA, amountIn) == Some(d.reserveA + amountIn)
             && core.amountOut <= d.reserveB
    ensures var d := w.pools[pool];
            SwapExactAForB(w, sender, pool, amountIn, minAmountOut)
            == Some(Swapped(SetReserves(core.world, pool, d.reserveA + amountIn, d.reserveB - core.amountOut),
                            core.amountOut))
  {
  }

  lemma SwapAForBAccepts(w: World, sender: Address, pool: Address, amountIn: nat, minAmountOut: nat)
    requires WorldOk(w) && sender !in w.pools && sender != ZERO_ADDRESS
    ensures SwapExactAForB(w, sender, pool, amountIn, minAmountOut).Some?
            <==> pool in w.pools && PoolOk(w, pool)
                 && var d := w.pools[pool];
                    SwapAccepts(w, pool, sender, d.tokenA, amountIn, minAmountOut, d.reserveA, d.reserveB)
  {
    if pool in w.pools {
      var d := w.pools[pool];
      assert PoolOk(w, pool);
      SwapExactInShape(w, pool, sender, d.tokenA, d.tokenB, amountIn, minAmountOut, d.reserveA, d.reserveB);
      if SwapAccepts(w, pool, sender, d.tokenA, amountIn, minAmountOut, d.reserveA, d.reserveB) {
        var core := CoreSwap(w, pool, sender, d.tokenA, d.tokenB, amountIn, minAmountOut, d.reserveA, d.reserveB);
        SwapAForBShape(w, sender, pool, amountIn, minAmountOut, core);
      }
    }
  }

  lemma SwapAForBCore(w: World, sender: Address, pool: Address, amountIn: nat, minAmountOut: nat, s: Swapped)
    returns (core: World)
    requires WorldOk(w) && sender !in w.pools && sender != ZERO_ADDRESS
    requires SwapExactAForB(w, sender, pool, amountIn, minAmountOut) == Some(s)
    ensures pool in w.pools && PoolOk(w, pool) && amountIn > 0 && core.pools == w.pools
    ensures var d := w.pools[pool];
            && s.amountOut == ExactOut(amountIn, d.reserveA, d.reserveB) < d.reserveB
            && s.world == SetReserves(core, pool, d.reserveA + amountIn, d.reserveB - s.amountOut)
            && Traded(w, core, pool, sender, d.tokenA, d.tokenB, amountIn, s.amountOut)
  {
    SwapAForBAccepts(w, sender, pool, amountIn, minAmountOut);
    var d := w.pools[pool];
    var swapped := CoreSwap(w, pool, sender, d.tokenA, d.tokenB, amountIn, minAmountOut, d.reserveA, d.reserveB);
    SwapAForBShape(w, sender, pool, amountIn, minAmountOut, swapped);
    core := swapped.world;
  }

  /** ... and then it books the quote and keeps the invariant. */
  lemma SwapAForBEffect(w: World, sender: Address, pool: Address, amountIn: nat, minAmountOut: nat, s: Swapped)
    requires WorldOk(w) && sender !in w.pools && sender != ZERO_ADDRESS
    requires SwapExactAForB(w, sender, pool, amountIn, minAmountOut) == Some(s)
    ensures pool in w.pools && PoolOk(w, pool) && amountIn > 0
    ensures var d := w.pools[pool];
            && s.amountOut == ExactOut(amountIn, d.reserveA, d.reserveB) < d.reserveB
            && OnlyPoolChanges(w, s.world, pool)
            && Books(d, s.world.pools[pool], d.tokenA, d.tokenB, amountIn, s.amountOut)
            && Traded(w, s.world, pool, sender, d.tokenA, d.tokenB, amountIn, s.amountOut)
  {
    var core := SwapAForBCore(w, sender, pool, amountIn, minAmountOut, s);
    var d := w.pools[pool];
    TradedIgnoresPools(w, core, pool, sender, d.tokenA, d.tokenB, amountIn, s.amountOut, s.world);
  }

  lemma SwapAForBKeepsWorld(w: World, sender: Address, pool: Address, amountIn: nat, minAmountOut: nat, s: Swapped)
    requires WorldOk(w) && sender !in w.pools && sender != ZERO_ADDRESS
    requires SwapExactAForB(w, sender, pool, amountIn, minAmountOut) == Some(s)
    ensures WorldOk(s.world)
  {
    SwapAForBEffect(w, sender, pool, amountIn, minAmountOut, s);
    var d := w.pools[pool];
    TradeKeepsWorld(w, s.world, pool, sender, d.tokenA, d.tokenB, amountIn, s.amountOut);
  }

  lemma SwapBForAShape(w: World, sender: Address, pool: Address, amountIn: nat, minAmountOut: nat, core: Swapped)
    requires pool in w.pools && core.world.pools == w.pools
    requires var d := w.pools[pool];
             && SwapExactIn(w, pool, sender, d.tokenB, d.tokenA, amountIn, minAmountOut, d.reserveB, d.reserveA)
                == Some(core)
             && CheckedAdd(d.reserveB, amountIn) == Some(d.reserveB + amountIn)
             && core.amountOut <= d.reserveA
    ensures var d := w.pools[pool];
            SwapExactBForA(w, sender, pool, amountIn, minAmountOut)
            == Some(Swapped(SetReserves(core.world, pool, d.reserveA - core.amountOut, d.reserveB + amountIn),
                            core.amountOut))
  {
  }

  lemma SwapBForAAccepts(w: World, sender: Address, pool: Address, amountIn: nat, minAmountOut: nat)
    requires WorldOk(w) && sender !in w.pools && sender != ZERO_ADDRESS
    ensures SwapExactBForA(w, sender, pool, amountIn, minAmountOut).Some?
            <==> pool in w.pools && PoolOk(w, pool)
                 && var d := w.pools[pool];
                    SwapAccepts(w, pool, sender, d.tokenB, amountIn, minAmountOut, d.reserveB, d.reserveA)
  {
    if pool in w.pools {
      var d := w.pools[pool];
      assert PoolOk(w, pool);
      SwapExactInShape(w, pool, sender, d.tokenB, d.tokenA, amountIn, minAmountOut, d.reserveB, d.reserveA);
      if SwapAccepts(w, pool, sender, d.tokenB, amountIn, minAmountOut, d.reserveB, d.reserveA) {
        var core := CoreSwap(w, pool, sender, d.tokenB, d.tokenA, amountIn, minAmountOut, d.reserveB, d.reserveA);
        SwapBForAShape(w, sender, pool, amountIn, minAmountOut, core);
      }
    }
  }

  lemma SwapBForACore(w: World, sender: Address, pool: Address, amountIn: nat, minAmountOut: nat, s: Swapped)
    returns (core: World)
    requires WorldOk(w) && sender !in w.pools && sender != ZERO_ADDRESS
    requires SwapExactBForA(w, sender, pool, amountIn, minAmountOut) == Some(s)
    ensures pool in w.pools && PoolOk(w, pool) && amountIn > 0 && core.pools == w.pools
    ensures var d := w.pools[pool];
            && s.amountOut == ExactOut(amountIn, d.reserveB, d.reserveA) < d.reserveA
            && s.world == SetReserves(core, pool, d.reserveA - s.amountOut, d.reserveB + amountIn)
            && Traded(w, core, pool, sender, d.tokenB, d.tokenA, amountIn, s.amountOut)
  {
    SwapBForAAccepts(w, sender, pool, amountIn, minAmountOut);
    var d := w.pools[pool];
    var swapped := CoreSwap(w, pool, sender, d.tokenB, d.tokenA, amountIn, minAmountOut, d.reserveB, d.reserveA);
    SwapBForAShape(w, sender, pool, amountIn, minAmountOut, swapped);
    core := swapped.world;
  }

  lemma SwapBForAEffect(w: World, sender: Address, pool: Address, amountIn: nat, minAmountOut: nat, s: Swapped)
    requires WorldOk(w) && sender !in w.pools && sender != ZERO_ADDRESS
    requires SwapExactBForA(w, sender, pool, amountIn, minAmountOut) == Some(s)
    ensures pool in w.pools && PoolOk(w, pool) && amountIn > 0
    ensures var d := w.pools[pool];
            && s.amountOut == ExactOut(amountIn, d.reserveB, d.reserveA) < d.reserveA
            && OnlyPoolChanges(w, s.world, pool)
            && Books(d, s.world.pools[pool], d.tokenB, d.tokenA, amountIn, s.amountOut)
            && Traded(w, s.world, pool, sender, d.tokenB, d.tokenA, amountIn, s.amountOut)
  {
    var core := SwapBForACore(w, sender, pool, amountIn, minAmountOut, s);
    var d := w.pools[pool];
    TradedIgnoresPools(w, core, pool, sender, d.tokenB, d.tokenA, amountIn, s.amountOut, s.world);
  }

  lemma SwapBForAKeepsWorld(w: World, sender: Address, pool: Address, amountIn: nat, minAmountOut: nat, s: Swapped)
    requires WorldOk(w) && sender !in w.pools && sender != ZERO_ADDRESS
    requires SwapExactBForA(w, sender, pool, amountIn, minAmountOut) == Some(s)
    ensures WorldOk(s.world)
  {
    SwapBForAEffect(w, sender, pool, amountIn, minAmountOut, s);
    var d := w.pools[pool];
    TradeKeepsWorld(w, s.world, pool, sender, d.tokenB, d.tokenA, amountIn, s.amountOut);
  }

  // ---------------------------------------------------------------- the other calls

  lemma CallMintKeepsWorld(w: World, token: Address, sender: Address, to: Address, amount: nat)
    requires WorldOk(w) && CallMint(w, token, sender, to, amount).Some?
    ensures WorldOk(CallMint(w, token, sender, to, amount).value)
  {
    var t := w.tokens[token];
    var t' := Mint(t, sender, to, amount).value;
    MintEffect(t, sender, to, amount);
    forall p | p in w.pools
      ensures GrantsNothing(t', p)
    {
      assert GrantsNothing(t, p);
      SameMapGrantsNothing(t, t', p);
    }
    TokenChange(w, token, t');
  }

  lemma CallApproveKeepsWorld(w: World, token: Address, sender: Address, spender: Address, amount: nat)
    requires WorldOk(w) && sender !in w.pools && amount < WORD
    requires CallApprove(w, token, sender, spender, amount).Some?
    ensures WorldOk(CallApprove(w, token, sender, spender, amount).value)
  {
    var t := w.tokens[token];
    var t' := Approve(t, sender, spender, amount);
    forall p | p in w.pools
      ensures GrantsNothing(t', p)
    {
      assert GrantsNothing(t, p);
      StillGrantsNothing(t, t', p, sender, spender);
    }
    TokenChange(w, token, t');
  }

  lemma CallTransferKeepsWorld(w: World, token: Address, sender: Address, to: Address, amount: nat)
    requires WorldOk(w) && sender !in w.pools
    requires CallTransfer(w, token, sender, to, amount).Some?
    ensures WorldOk(CallTransfer(w, token, sender, to, amount).value)
  {
    var t := w.tokens[token];
    MoveEffect(t, sender, to, amount);
    var t' := Move(t, sender, to, amount).value;
    forall p | p in w.pools
      ensures GrantsNothing(t', p)
    {
      assert GrantsNothing(t, p);
      SameMapGrantsNothing(t, t', p);
    }
    TokenChange(w, token, t');
  }

  /** transferFrom never takes from a pool: a pool has granted nothing. */
  lemma CallTransferFromKeepsWorld(w: World, token: Address, sender: Address, from: Address, to: Address, amount: nat)
    requires WorldOk(w) && CallTransferFrom(w, token, sender, from, to, amount).Some?
    ensures WorldOk(CallTransferFrom(w, token, sender, from, to, amount).value)
  {
    var t := w.tokens[token];
    TransferFromEffect(t, sender, from, to, amount);
    var t' := TransferFrom(t, sender, from, to, amount).value;
    forall p | p in w.pools
      ensures GrantsNothing(t', p) && t.Balance(p) <= t'.Balance(p)
    {
      assert GrantsNothing(t, p);
      if p == from {
        assert t.Allowance(p, sender) == 0;
        forall s: Address
          ensures t'.Allowance(p, s) == 0
        {
          assert t.Allowance(p, s) == 0;
        }
      } else {
        StillGrantsNothing(t, t', p, from, sender);
      }
    }
    TokenChange(w, token, t');
  }

  /** Booking a deposit that the pool has received. */
  lemma DepositKeepsWorld(w: World, pool: Address, w': World)
    requires WorldOk(w) && pool in w.pools && w' == w.(pools := w'.pools) && OnlyPoolChanges(w, w', pool)
    requires PoolOk(w', pool)
    ensures WorldOk(w')
  {
    forall p | p in w'.pools
      ensures PoolOk(w', p)
    {
      if p != pool {
        assert PoolOk(w, p);
      }
    }
  }

  predicate BooksDeposit(d: Dex, d': Dex, amountA: nat, amountB: nat) {
    && d'.tokenA == d.tokenA && d'.tokenB == d.tokenB
    && d'.reserveA == d.reserveA + amountA && d'.reserveB == d.reserveB + amountB
  }

  lemma SeedEffect(w: World, sender: Address, pool: Address, amountA: nat, amountB: nat, w': World)
    requires WorldOk(w) && sender !in w.pools
    requires SeedLiquidity(w, sender, pool, amountA, amountB) == Some(w')
    ensures pool in w.pools && amountA > 0 && amountB > 0
    ensures OnlyPoolChanges(w, w', pool) && BooksDeposit(w.pools[pool], w'.pools[pool], amountA, amountB)
    ensures w' == w.(pools := w'.pools, tokens := w'.tokens) && w'.tokens.Keys == w.tokens.Keys
    ensures WorldOk(w')
  {
    var w1, w2 := SeedShape(w, sender, pool, amountA, amountB, w');
    assert PoolOk(w, pool);
    TwoDeposits(w, pool, sender, amountA, amountB, w1, w2);
    DepositKeepsWorld(w2, pool, w');
  }

  lemma SeedShape(w: World, sender: Address, pool: Address, amountA: nat, amountB: nat, w': World)
    returns (w1: World, w2: World)
    requires SeedLiquidity(w, sender, pool, amountA, amountB) == Some(w')
    ensures pool in w.pools && amountA > 0 && amountB > 0
    ensures CallTransferFrom(w, w.pools[pool].tokenA, pool, sender, pool, amountA) == Some(w1)
    ensures CallTransferFrom(w1, w.pools[pool].tokenB, pool, sender, pool, amountB) == Some(w2)
    ensures w2.pools == w.pools
    ensures w2.tokens.Keys == w.tokens.Keys && w2 == w.(tokens := w2.tokens)
    ensures w' == w2.(pools := w'.pools) && OnlyPoolChanges(w, w', pool)
    ensures BooksDeposit(w.pools[pool], w'.pools[pool], amountA, amountB)
  {
    w1 := CallTransferFrom(w, w.pools[pool].tokenA, pool, sender, pool, amountA).value;
    w2 := CallTransferFrom(w1, w.pools[pool].tokenB, pool, sender, pool, amountB).value;
  }

  lemma TwoDeposits(w: World, pool: Address, sender: Address, amountA: nat, amountB: nat, w1: World, w2: World)
    requires WorldOk(w) && pool in w.pools && pool != sender && PoolOk(w, pool)
    requires CallTransferFrom(w, w.pools[pool].tokenA, pool, sender, pool, amountA) == Some(w1)
    requires CallTransferFrom(w1, w.pools[pool].tokenB, pool, sender, pool, amountB) == Some(w2)
    ensures WorldOk(w2) && w2.pools == w.pools && w2.tokens.Keys == w.tokens.Keys
    ensures var d := w.pools[pool];
            && w2.tokens[d.tokenA].Balance(pool) == w.tokens[d.tokenA].Balance(pool) + amountA
            && w2.tokens[d.tokenB].Balance(pool) == w.tokens[d.tokenB].Balance(pool) + amountB
  {
    var d := w.pools[pool];
    CallTransferFromKeepsWorld(w, d.tokenA, pool, sender, pool, amountA);
    DepositReceived(w, d.tokenA, pool, sender, amountA, w1);
    CallTransferFromKeepsWorld(w1, d.tokenB, pool, sender, pool, amountB);
    DepositReceived(w1, d.tokenB, pool, sender, amountB, w2);
  }

  lemma DepositReceived(w: World, token: Address, pool: Address, from: Address, amount: nat, w': World)
    requires WorldOk(w) && pool != from
    requires CallTransferFrom(w, token, pool, from, pool, amount) == Some(w')
    ensures w'.pools == w.pools && w'.tokens.Keys == w.tokens.Keys && token in w.tokens
    ensures w'.tokens[token].Balance(pool) == w.tokens[token].Balance(pool) + amount
    ensures forall a :: a in w.tokens && a != token ==> w'.tokens[a] == w.tokens[a]
  {
    TransferFromEffect(w.tokens[token], pool, from, pool, amount);
  }
}
