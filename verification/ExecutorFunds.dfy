/** The executor's tokens: between transactions nobody may spend them, and only a withdrawal by the
    operator takes any away. */
module ExecutorFunds {
  import opened Common
  import opened Ledger
  import opened LedgerInvariant
  import opened Backrun
  import opened LedgerRuns

  /** No allowance from the executor is left over. */
  ghost predicate ExecutorClosed(w: World)
  {
    forall a :: a in w.tokens ==> GrantsNothing(w.tokens[a], w.backrun)
  }

  /** Nobody may spend what the executor holds, and it holds at least as much as before. */
  ghost predicate Kept(t: Token, t': Token, executor: Address)
  {
    GrantsNothing(t', executor) && t.Balance(executor) <= t'.Balance(executor)
  }

  ghost predicate AllKept(w: World, w': World)
  {
    && w'.backrun == w.backrun && w'.operator == w.operator && w'.tokens.Keys == w.tokens.Keys
    && forall a :: a in w.tokens ==> Kept(w.tokens[a], w'.tokens[a], w.backrun)
  }

  lemma MintKept(t: Token, sender: Address, to: Address, amount: nat, executor: Address)
    requires TokenOk(t) && GrantsNothing(t, executor) && Mint(t, sender, to, amount).Some?
    ensures Kept(t, Mint(t, sender, to, amount).value, executor)
  {
    MintEffect(t, sender, to, amount);
    SameMapGrantsNothing(t, Mint(t, sender, to, amount).value, executor);
  }

  lemma ApproveKept(t: Token, sender: Address, spender: Address, amount: nat, executor: Address)
    requires GrantsNothing(t, executor) && sender != executor
    ensures Kept(t, Approve(t, sender, spender, amount), executor)
  {
    StillGrantsNothing(t, Approve(t, sender, spender, amount), executor, sender, spender);
  }

  lemma MoveKept(t: Token, from: Address, to: Address, amount: nat, executor: Address)
    requires TokenOk(t) && GrantsNothing(t, executor) && from != executor && Move(t, from, to, amount).Some?
    ensures Kept(t, Move(t, from, to, amount).value, executor)
  {
    MoveEffect(t, from, to, amount);
    SameMapGrantsNothing(t, Move(t, from, to, amount).value, executor);
  }

  /** transferFrom takes nothing from an account that has granted nothing. */
  lemma TransferFromKept(t: Token, sender: Address, from: Address, to: Address, amount: nat, executor: Address)
    requires TokenOk(t) && GrantsNothing(t, executor) && TransferFrom(t, sender, from, to, amount).Some?
    ensures Kept(t, TransferFrom(t, sender, from, to, amount).value, executor)
  {
    TransferFromEffect(t, sender, from, to, amount);
    var t' := TransferFrom(t, sender, from, to, amount).value;
    assert t.Allowance(executor, sender) == 0;
    forall s: Address
      ensures t'.Allowance(executor, s) == 0
    {
      assert t.Allowance(executor, s) == 0;
    }
  }

  lemma TokenKept(w: World, token: Address, t: Token)
    requires ExecutorClosed(w) && token in w.tokens && Kept(w.tokens[token], t, w.backrun)
    ensures AllKept(w, SetToken(w, token, t))
  {
  }

  lemma AllKeptTrans(w: World, w1: World, w2: World)
    requires AllKept(w, w1) && AllKept(w1, w2)
    ensures AllKept(w, w2)
  {
  }

  lemma KeptIsClosed(w: World, w': World)
    requires AllKept(w, w')
    ensures ExecutorClosed(w')
  {
  }

  /** A trade between somebody else and a pool. */
  lemma TradeKept(w: World, w': World, pool: Address, trader: Address, tokenIn: Address, tokenOut: Address,
                  amountIn: nat, amountOut: nat)
    requires ExecutorClosed(w) && tokenIn in w.tokens && tokenOut in w.tokens
    requires pool != w.backrun && trader != w.backrun
    requires Traded(w, w', pool, trader, tokenIn, tokenOut, amountIn, amountOut)
    ensures AllKept(w, w')
  {
    forall a | a in w.tokens
      ensures Kept(w.tokens[a], w'.tokens[a], w.backrun)
    {
      assert GrantsNothing(w.tokens[a], w.backrun);
      if a == tokenIn {
        StillGrantsNothing(w.tokens[a], w'.tokens[a], w.backrun, trader, pool);
      } else if a == tokenOut {
        SameMapGrantsNothing(w.tokens[a], w'.tokens[a], w.backrun);
      }
    }
  }

  lemma SwapsKept(w: World, sender: Address, pool: Address, x: nat, min: nat, s: Swapped, aForB: bool)
    requires WorldOk(w) && ExecutorClosed(w) && CanSign(w, sender)
    requires Some(s) == if aForB then SwapExactAForB(w, sender, pool, x, min)
                        else SwapExactBForA(w, sender, pool, x, min)
    ensures AllKept(w, s.world)
  {
    if aForB {
      SwapAForBEffect(w, sender, pool, x, min, s);
      TradeKept(w, s.world, pool, sender, w.pools[pool].tokenA, w.pools[pool].tokenB, x, s.amountOut);
    } else {
      SwapBForAEffect(w, sender, pool, x, min, s);
      TradeKept(w, s.world, pool, sender, w.pools[pool].tokenB, w.pools[pool].tokenA, x, s.amountOut);
    }
  }

  lemma DepositKept(w: World, token: Address, pool: Address, from: Address, amount: nat, w': World)
    requires WorldOk(w) && ExecutorClosed(w) && CallTransferFrom(w, token, pool, from, pool, amount) == Some(w')
    ensures AllKept(w, w')
  {
    TransferFromKept(w.tokens[token], pool, from, pool, amount, w.backrun);
    TokenKept(w, token, w'.tokens[token]);
  }

  lemma SeedKept(w: World, sender: Address, pool: Address, amountA: nat, amountB: nat, w': World)
    requires WorldOk(w) && ExecutorClosed(w) && SeedLiquidity(w, sender, pool, amountA, amountB) == Some(w')
    ensures AllKept(w, w')
  {
    var w1, w2 := SeedShape(w, sender, pool, amountA, amountB, w');
    DepositKept(w, w.pools[pool].tokenA, pool, sender, amountA, w1);
    KeptIsClosed(w, w1);
    CallTransferFromKeepsWorld(w, w.pools[pool].tokenA, pool, sender, pool, amountA);
    DepositKept(w1, w.pools[pool].tokenB, pool, sender, amountB, w2);
    AllKeptTrans(w, w1, w2);
  }

  /** A backrun spends its own two allowances, leaves TokenA alone and brings TokenB back. */
  lemma DoneIsKept(w: World, w': World, buy: Address, sell: Address, amountInB: nat, outA: nat, outB: nat)
    requires ExecutorClosed(w) && buy in w.pools && sell in w.pools && PoolOk(w, buy) && w.backrun !in w.pools
    requires BackrunDone(w, w', buy, sell, amountInB, outA, outB) && outB >= amountInB
    requires w'.backrun == w.backrun && w'.operator == w.operator
    ensures AllKept(w, w')
  {
  }

  lemma BackrunKept(w: World, sender: Address, buy: Address, sell: Address,
                    amountInB: nat, minA: nat, minB: nat, minProfit: nat, e: Executed)
    requires WorldOk(w) && ExecutorClosed(w)
    requires ExecuteBackrun(w, sender, buy, sell, amountInB, minA, minB, minProfit) == Some(e)
    ensures AllKept(w, e.world)
  {
    BackrunEffect(w, sender, buy, sell, amountInB, minA, minB, minProfit, e);
    DoneIsKept(w, e.world, buy, sell, amountInB, e.amountOutA, e.amountOutB);
  }

  lemma TokenCallKept(w: World, sender: Address, call: Call, w': World)
    requires WorldOk(w) && ExecutorClosed(w) && Exec(w, sender, call) == Some(w')
    requires call.CMint? || call.CApprove? || call.CTransfer? || call.CTransferFrom?
    ensures AllKept(w, w')
  {
    match call {
      case CMint(token, to, amount) => MintKept(w.tokens[token], sender, to, amount, w.backrun);
      case CApprove(token, spender, amount) => ApproveKept(w.tokens[token], sender, spender, amount, w.backrun);
      case CTransfer(token, to, amount) => MoveKept(w.tokens[token], sender, to, amount, w.backrun);
      case CTransferFrom(token, from, to, amount) =>
        TransferFromKept(w.tokens[token], sender, from, to, amount, w.backrun);
    }
    TokenKept(w, call.token, w'.tokens[call.token]);
  }

  /** No transaction but a withdrawal takes any token from the executor, whoever sends it. */
  lemma OnlyWithdrawalsSpend(w: World, sender: Address, call: Call, w': World)
    requires WorldOk(w) && ExecutorClosed(w) && Exec(w, sender, call) == Some(w') && !call.CWithdraw?
    ensures AllKept(w, w')
  {
    match call
    case CSeed(pool, amountA, amountB) => SeedKept(w, sender, pool, amountA, amountB, w');
    case CSwapAForB(pool, x, min) =>
      SwapsKept(w, sender, pool, x, min, SwapExactAForB(w, sender, pool, x, min).value, true);
    case CSwapBForA(pool, x, min) =>
      SwapsKept(w, sender, pool, x, min, SwapExactBForA(w, sender, pool, x, min).value, false);
    case CBackrun(buy, sell, x, minA, minB, minProfit) =>
      BackrunKept(w, sender, buy, sell, x, minA, minB, minProfit,
                  ExecuteBackrun(w, sender, buy, sell, x, minA, minB, minProfit).value);
    case _ => TokenCallKept(w, sender, call, w');
  }

  /** A withdrawal needs the operator, moves exactly the amount and grants nothing. */
  lemma WithdrawEffect(w: World, sender: Address, token: Address, to: Address, amount: nat, w': World)
    requires WorldOk(w) && ExecutorClosed(w) && WithdrawToken(w, sender, token, to, amount) == Some(w')
    ensures sender == w.operator && token in w.tokens && ExecutorClosed(w')
    ensures w' == SetToken(w, token, w'.tokens[token])
    ensures Moved(w.tokens[token], w'.tokens[token], w.backrun, to, amount)
  {
    var t, t' := w.tokens[token], w'.tokens[token];
    MoveEffect(t, w.backrun, to, amount);
    assert GrantsNothing(t, w.backrun);
    SameMapGrantsNothing(t, t', w.backrun);
  }

  predicate NoWithdrawals(txs: seq<Tx>)
  {
    forall i :: 0 <= i < |txs| ==> !txs[i].call.CWithdraw?
  }

  lemma AllKeptSelf(w: World)
    requires ExecutorClosed(w)
    ensures AllKept(w, w)
  {
  }

  /** In every run without withdrawals the executor's holdings of every token never shrink. */
  lemma {:induction false} HoldingsNeverShrink(w: World, txs: seq<Tx>)
    requires WorldOk(w) && ExecutorClosed(w) && NoWithdrawals(txs)
    ensures AllKept(w, Run(w, txs))
    decreases |txs|
  {
    AllKeptSelf(w);
    if txs != [] {
      var w1 := Apply(w, txs[0]);
      if Exec(w, txs[0].sender, txs[0].call).Some? {
        OnlyWithdrawalsSpend(w, txs[0].sender, txs[0].call, w1);
        ExecKeepsWorld(w, txs[0].sender, txs[0].call, w1);
      }
      KeptIsClosed(w, w1);
      HoldingsNeverShrink(w1, txs[1..]);
      AllKeptTrans(w, w1, Run(w, txs));
    }
  }

  /** Whatever the transaction, it leaves no allowance of the executor behind. */
  lemma ExecKeepsClosed(w: World, sender: Address, call: Call, w': World)
    requires WorldOk(w) && ExecutorClosed(w) && Exec(w, sender, call) == Some(w')
    ensures ExecutorClosed(w')
  {
    if call.CWithdraw? {
      WithdrawEffect(w, sender, call.token, call.to, call.amount, w');
    } else {
      OnlyWithdrawalsSpend(w, sender, call, w');
      KeptIsClosed(w, w');
    }
  }

  /** And in every run at all nobody ever holds an allowance from the executor. */
  lemma {:induction false} RunKeepsClosed(w: World, txs: seq<Tx>)
    requires WorldOk(w) && ExecutorClosed(w)
    ensures ExecutorClosed(Run(w, txs))
    decreases |txs|
  {
    if txs != [] {
      var call, sender := txs[0].call, txs[0].sender;
      var w1 := Apply(w, txs[0]);
      if Exec(w, sender, call).Some? {
        ExecKeepsWorld(w, sender, call, w1);
        ExecKeepsClosed(w, sender, call, w1);
      }
      RunKeepsClosed(w1, txs[1..]);
    }
  }
}
