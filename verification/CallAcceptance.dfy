/** When each transaction succeeds and what it then does, from the state before it: on a consistent
    ledger a call reverts only for a reason that its sender could have seen. */
module CallAcceptance {
  import opened Common
  import opened ConstantProduct
  import opened Ledger
  import opened LedgerInvariant
  import opened Backrun

  lemma MintAccepts(t: Token, sender: Address, to: Address, amount: nat)
    requires TokenOk(t)
    ensures Mint(t, sender, to, amount).Some?
            <==> sender == t.minter && to != ZERO_ADDRESS && t.totalSupply + amount < WORD
  {
    SumAtLeast(t.balances, to);
  }

  /** On a consistent ledger a withdrawal succeeds for the operator alone, for every amount that the
      executor holds. */
  lemma WithdrawAccepts(w: World, sender: Address, token: Address, to: Address, amount: nat)
    requires WorldOk(w)
    ensures WithdrawToken(w, sender, token, to, amount).Some?
            <==> && sender == w.operator && token != ZERO_ADDRESS && to != ZERO_ADDRESS
                 && token in w.tokens && w.tokens[token].Balance(w.backrun) >= amount
  {
    if token in w.tokens {
      MoveEffect(w.tokens[token], w.backrun, to, amount);
    }
  }

  /** The sender holds the amount and has granted it to the pool. */
  predicate CanPay(w: World, token: Address, sender: Address, pool: Address, amount: nat)
  {
    token in w.tokens && w.tokens[token].Balance(sender) >= amount && w.tokens[token].Allowance(sender, pool) >= amount
  }

  lemma DepositAccepts(w: World, token: Address, pool: Address, from: Address, amount: nat)
    requires token in w.tokens && TokenOk(w.tokens[token]) && pool != ZERO_ADDRESS
    ensures CallTransferFrom(w, token, pool, from, pool, amount).Some? <==> CanPay(w, token, from, pool, amount)
  {
    TransferFromEffect(w.tokens[token], pool, from, pool, amount);
  }

  /** Seeding succeeds whenever both deposits are positive and paid for, whatever the pool holds. */
  lemma SeedAccepts(w: World, sender: Address, pool: Address, amountA: nat, amountB: nat)
    requires WorldOk(w) && sender !in w.pools
    ensures SeedLiquidity(w, sender, pool, amountA, amountB).Some?
            <==> && pool in w.pools && amountA > 0 && amountB > 0
                 && CanPay(w, w.pools[pool].tokenA, sender, pool, amountA)
                 && CanPay(w, w.pools[pool].tokenB, sender, pool, amountB)
  {
    if pool in w.pools && amountA > 0 && amountB > 0 {
      assert PoolOk(w, pool);
      var d := w.pools[pool];
      DepositAccepts(w, d.tokenA, pool, sender, amountA);
      if CanPay(w, d.tokenA, sender, pool, amountA) {
        var w1 := CallTransferFrom(w, d.tokenA, pool, sender, pool, amountA).value;
        DepositReceived(w, d.tokenA, pool, sender, amountA, w1);
        DepositAccepts(w1, d.tokenB, pool, sender, amountB);
        if CanPay(w, d.tokenB, sender, pool, amountB) {
          DepositsFit(w, pool, sender, amountA, amountB, w1);
        }
      }
    }
  }

  /** Paid deposits never overflow a reserve, because reserves are backed. */
  lemma DepositsFit(w: World, pool: Address, sender: Address, amountA: nat, amountB: nat, w1: World)
    requires WorldOk(w) && sender !in w.pools && pool in w.pools && PoolOk(w, pool)
    requires CallTransferFrom(w, w.pools[pool].tokenA, pool, sender, pool, amountA) == Some(w1)
    requires CallTransferFrom(w1, w.pools[pool].tokenB, pool, sender, pool, amountB).Some?
    ensures w.pools[pool].reserveA + amountA < WORD && w.pools[pool].reserveB + amountB < WORD
  {
    var d := w.pools[pool];
    var w2 := CallTransferFrom(w1, d.tokenB, pool, sender, pool, amountB).value;
    TwoDeposits(w, pool, sender, amountA, amountB, w1, w2);
    BalanceFits(w2.tokens[d.tokenA], pool);
    BalanceFits(w2.tokens[d.tokenB], pool);
  }

  // ---------------------------------------------------------------- every call

  /** What a call needs of the state before it. */
  predicate Accepts(w: World, sender: Address, call: Call)
  {
    match call
    case CMint(token, to, amount) =>
      && token in w.tokens && sender == w.tokens[token].minter && to != ZERO_ADDRESS
      && w.tokens[token].totalSupply + amount < WORD
    case CApprove(token, _, _) => token in w.tokens
    case CTransfer(token, to, amount) =>
      token in w.tokens && to != ZERO_ADDRESS && w.tokens[token].Balance(sender) >= amount
    case CTransferFrom(token, from, to, amount) =>
      && token in w.tokens && to != ZERO_ADDRESS
      && w.tokens[token].Balance(from) >= amount && w.tokens[token].Allowance(from, sender) >= amount
    case CSeed(pool, amountA, amountB) =>
      && pool in w.pools && amountA > 0 && amountB > 0
      && CanPay(w, w.pools[pool].tokenA, sender, pool, amountA)
      && CanPay(w, w.pools[pool].tokenB, sender, pool, amountB)
    case CSwapAForB(pool, amountIn, min) =>
      pool in w.pools && w.pools[pool].tokenA in w.tokens
      && SwapAccepts(w, pool, sender, w.pools[pool].tokenA, amountIn, min,
                     w.pools[pool].reserveA, w.pools[pool].reserveB)
    case CSwapBForA(pool, amountIn, min) =>
      pool in w.pools && w.pools[pool].tokenB in w.tokens
      && SwapAccepts(w, pool, sender, w.pools[pool].tokenB, amountIn, min,
                     w.pools[pool].reserveB, w.pools[pool].reserveA)
    case CBackrun(buy, sell, amountInB, minA, minB, minProfit) =>
      && Guards(w, sender, buy, sell, amountInB)
      && RouteAccepts(w.pools[buy], w.pools[sell], amountInB, minA, minB)
      && RouteOutB(w.pools[buy], w.pools[sell], amountInB) >= amountInB + minProfit
    case CWithdraw(token, to, amount) =>
      && sender == w.operator && token != ZERO_ADDRESS && to != ZERO_ADDRESS
      && token in w.tokens && w.tokens[token].Balance(w.backrun) >= amount
  }

  lemma TokenCallAccepts(w: World, sender: Address, call: Call)
    requires WorldOk(w) && CanSign(w, sender)
    requires call.CMint? || call.CApprove? || call.CTransfer? || call.CTransferFrom? || call.CWithdraw?
    ensures Exec(w, sender, call).Some? <==> Accepts(w, sender, call)
  {
    match call
    case CMint(token, to, amount) => if token in w.tokens { MintAccepts(w.tokens[token], sender, to, amount); }
    case CApprove(_, _, _) =>
    case CTransfer(token, to, amount) => if token in w.tokens { MoveEffect(w.tokens[token], sender, to, amount); }
    case CTransferFrom(token, from, to, amount) =>
      if token in w.tokens { TransferFromEffect(w.tokens[token], sender, from, to, amount); }
    case CWithdraw(token, to, amount) => WithdrawAccepts(w, sender, token, to, amount);
  }

  /** Every kind of transaction, on every consistent ledger: it succeeds if and only if its sender can
      sign and the state before it meets the call's conditions. */
  lemma ExecAccepts(w: World, sender: Address, call: Call)
    requires WorldOk(w)
    ensures Exec(w, sender, call).Some? <==> CanSign(w, sender) && Accepts(w, sender, call)
  {
    if CanSign(w, sender) {
      match call
      case CSeed(pool, amountA, amountB) => SeedAccepts(w, sender, pool, amountA, amountB);
      case CSwapAForB(pool, amountIn, min) =>
        SwapAForBAccepts(w, sender, pool, amountIn, min);
        if pool in w.pools { assert PoolOk(w, pool); }
      case CSwapBForA(pool, amountIn, min) =>
        SwapBForAAccepts(w, sender, pool, amountIn, min);
        if pool in w.pools { assert PoolOk(w, pool); }
      case CBackrun(buy, sell, amountInB, minA, minB, minProfit) =>
        BackrunAccepts(w, sender, buy, sell, amountInB, minA, minB, minProfit);
      case _ => TokenCallAccepts(w, sender, call);
    }
  }

  // ---------------------------------------------------------------- effects

  /** Only this token changes. */
  ghost predicate OnlyToken(w: World, w': World, token: Address)
  {
    token in w.tokens && token in w'.tokens && w' == SetToken(w, token, w'.tokens[token])
  }

  ghost predicate Minted(t: Token, t': Token, to: Address, amount: nat)
  {
    && t'.minter == t.minter && t'.totalSupply == t.totalSupply + amount && t'.allowances == t.allowances
    && forall a: Address :: t'.Balance(a) == t.Balance(a) + (if a == to then amount else 0)
  }

  ghost predicate Granted(t: Token, t': Token, owner: Address, spender: Address, amount: nat)
  {
    && t'.minter == t.minter && t'.totalSupply == t.totalSupply && t'.balances == t.balances
    && t'.Allowance(owner, spender) == amount && SameAllowancesBut(t, t', owner, spender)
  }

  ghost predicate Spent(t: Token, t': Token, owner: Address, spender: Address, amount: nat)
  {
    && SameAllowancesBut(t, t', owner, spender)
    && t'.Allowance(owner, spender)
       == if t.Allowance(owner, spender) == MAX_WORD then MAX_WORD else t.Allowance(owner, spender) - amount
  }

  /** What a successful call leaves. */
  ghost predicate Does(w: World, sender: Address, call: Call, w': World)
  {
    match call
    case CMint(token, to, amount) => OnlyToken(w, w', token) && Minted(w.tokens[token], w'.tokens[token], to, amount)
    case CApprove(token, spender, amount) =>
      OnlyToken(w, w', token) && Granted(w.tokens[token], w'.tokens[token], sender, spender, amount)
    case CTransfer(token, to, amount) =>
      && OnlyToken(w, w', token) && Moved(w.tokens[token], w'.tokens[token], sender, to, amount)
      && w'.tokens[token].allowances == w.tokens[token].allowances
    case CTransferFrom(token, from, to, amount) =>
      && OnlyToken(w, w', token) && Moved(w.tokens[token], w'.tokens[token], from, to, amount)
      && Spent(w.tokens[token], w'.tokens[token], from, sender, amount)
    case CWithdraw(token, to, amount) =>
      && OnlyToken(w, w', token) && Moved(w.tokens[token], w'.tokens[token], w.backrun, to, amount)
      && w'.tokens[token].allowances == w.tokens[token].allowances
    case CSeed(pool, amountA, amountB) =>
      && pool in w.pools && Deposited(w, w', w.pools[pool].tokenA, w.pools[pool].tokenB, sender, pool, amountA, amountB)
      && OnlyPoolChanges(w, w', pool) && BooksDeposit(w.pools[pool], w'.pools[pool], amountA, amountB)
    case CSwapAForB(pool, amountIn, min) =>
      && pool in w.pools && w.pools[pool].tokenA in w.tokens && w.pools[pool].tokenB in w.tokens && amountIn > 0
      && var d, out := w.pools[pool], ExactOut(amountIn, w.pools[pool].reserveA, w.pools[pool].reserveB);
         && OnlyPoolChanges(w, w', pool) && Books(d, w'.pools[pool], d.tokenA, d.tokenB, amountIn, out)
         && Traded(w, w', pool, sender, d.tokenA, d.tokenB, amountIn, out)
    case CSwapBForA(pool, amountIn, min) =>
      && pool in w.pools && w.pools[pool].tokenA in w.tokens && w.pools[pool].tokenB in w.tokens && amountIn > 0
      && var d, out := w.pools[pool], ExactOut(amountIn, w.pools[pool].reserveB, w.pools[pool].reserveA);
         && OnlyPoolChanges(w, w', pool) && Books(d, w'.pools[pool], d.tokenB, d.tokenA, amountIn, out)
         && Traded(w, w', pool, sender, d.tokenB, d.tokenA, amountIn, out)
    case CBackrun(buy, sell, amountInB, minA, minB, minProfit) =>
      && buy in w.pools && sell in w.pools && PoolOk(w, buy) && amountInB > 0
      && var outA := ExactOut(amountInB, w.pools[buy].reserveB, w.pools[buy].reserveA);
         outA > 0
         && BackrunDone(w, w', buy, sell, amountInB, outA,
                        ExactOut(outA, w.pools[sell].reserveA, w.pools[sell].reserveB))
  }

  /** Both deposits moved, each for an allowance, and no other token changed. */
  ghost predicate Deposited(w: World, w': World, tokenA: Address, tokenB: Address, from: Address, pool: Address,
                            amountA: nat, amountB: nat)
  {
    && tokenA in w.tokens && tokenB in w.tokens && w'.tokens.Keys == w.tokens.Keys
    && Moved(w.tokens[tokenA], w'.tokens[tokenA], from, pool, amountA)
    && Moved(w.tokens[tokenB], w'.tokens[tokenB], from, pool, amountB)
    && Spent(w.tokens[tokenA], w'.tokens[tokenA], from, pool, amountA)
    && Spent(w.tokens[tokenB], w'.tokens[tokenB], from, pool, amountB)
    && forall a :: a in w.tokens && a != tokenA && a != tokenB ==> w'.tokens[a] == w.tokens[a]
  }

  lemma DepositMoves(w: World, token: Address, pool: Address, from: Address, amount: nat, w': World)
    requires token in w.tokens && TokenOk(w.tokens[token])
    requires CallTransferFrom(w, token, pool, from, pool, amount) == Some(w')
    ensures OnlyToken(w, w', token) && Moved(w.tokens[token], w'.tokens[token], from, pool, amount)
    ensures Spent(w.tokens[token], w'.tokens[token], from, pool, amount)
  {
    TransferFromEffect(w.tokens[token], pool, from, pool, amount);
  }

  lemma BothDeposited(w: World, w1: World, w2: World, tokenA: Address, tokenB: Address, from: Address, pool: Address,
                      amountA: nat, amountB: nat)
    requires tokenA != tokenB && OnlyToken(w, w1, tokenA) && OnlyToken(w1, w2, tokenB) && tokenB in w.tokens
    requires Moved(w.tokens[tokenA], w1.tokens[tokenA], from, pool, amountA)
    requires Spent(w.tokens[tokenA], w1.tokens[tokenA], from, pool, amountA)
    requires Moved(w1.tokens[tokenB], w2.tokens[tokenB], from, pool, amountB)
    requires Spent(w1.tokens[tokenB], w2.tokens[tokenB], from, pool, amountB)
    ensures Deposited(w, w2, tokenA, tokenB, from, pool, amountA, amountB)
  {
  }

  lemma SeedMoves(w: World, sender: Address, pool: Address, amountA: U256, amountB: U256, w': World)
    requires WorldOk(w) && sender !in w.pools && SeedLiquidity(w, sender, pool, amountA, amountB) == Some(w')
    ensures pool in w.pools
    ensures Deposited(w, w', w.pools[pool].tokenA, w.pools[pool].tokenB, sender, pool, amountA, amountB)
  {
    var w1, w2 := SeedShape(w, sender, pool, amountA, amountB, w');
    assert PoolOk(w, pool);
    DepositMoves(w, w.pools[pool].tokenA, pool, sender, amountA, w1);
    DepositMoves(w1, w.pools[pool].tokenB, pool, sender, amountB, w2);
    BothDeposited(w, w1, w2, w.pools[pool].tokenA, w.pools[pool].tokenB, sender, pool, amountA, amountB);
  }

  lemma TokenCallDoes(w: World, sender: Address, call: Call, w': World)
    requires WorldOk(w) && Exec(w, sender, call) == Some(w')
    requires call.CMint? || call.CApprove? || call.CTransfer? || call.CTransferFrom? || call.CWithdraw?
    ensures Does(w, sender, call, w')
  {
    match call
    case CMint(token, to, amount) => MintEffect(w.tokens[token], sender, to, amount);
    case CApprove(_, _, _) =>
    case CTransfer(token, to, amount) => MoveEffect(w.tokens[token], sender, to, amount);
    case CTransferFrom(token, from, to, amount) => TransferFromEffect(w.tokens[token], sender, from, to, amount);
    case CWithdraw(token, to, amount) => MoveEffect(w.tokens[token], w.backrun, to, amount);
  }

  /** ... and then it does exactly this. */
  lemma ExecDoes(w: World, sender: Address, call: Call, w': World)
    requires WorldOk(w) && Exec(w, sender, call) == Some(w')
    ensures Does(w, sender, call, w')
  {
    match call
    case CSeed(pool, amountA, amountB) =>
      SeedEffect(w, sender, pool, amountA, amountB, w');
      SeedMoves(w, sender, pool, amountA, amountB, w');
    case CSwapAForB(pool, x, min) =>
      SwapAForBEffect(w, sender, pool, x, min, SwapExactAForB(w, sender, pool, x, min).value);
    case CSwapBForA(pool, x, min) =>
      SwapBForAEffect(w, sender, pool, x, min, SwapExactBForA(w, sender, pool, x, min).value);
    case CBackrun(buy, sell, x, minA, minB, minProfit) =>
      BackrunEffect(w, sender, buy, sell, x, minA, minB, minProfit,
                    ExecuteBackrun(w, sender, buy, sell, x, minA, minB, minProfit).value);
    case _ => TokenCallDoes(w, sender, call, w');
  }
}
