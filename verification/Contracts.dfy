/** The contracts as they execute: storage slots written one after the other, a failed check
    stops the transaction, and the journal puts every slot back. Each method is tied to the
    value model of module Ledger. */
module Contracts {
  import opened Common
  import opened Ledger
  import opened LedgerInvariant
  import opened LedgerRuns

  /** The second of two writes to one slot is the one that stays. */
  lemma Overwrite<V>(m: map<Address, V>, k: Address, first: V, second: V)
    ensures m[k := first][k := second] == m[k := second]
  {
  }

  class Chain {
    var tokens: map<Address, Token>
    var pools: map<Address, Dex>
    const backrun: Address
    const operator: Address

    function State(): World
      reads this
    {
      World(tokens, pools, backrun, operator)
    }

    constructor (genesis: World)
      ensures State() == genesis
    {
      tokens, pools, backrun, operator := genesis.tokens, genesis.pools, genesis.backrun, genesis.operator;
    }

    // -------------------------------------------------------------- SandboxERC20

    /** mint; where it fails, slots already written are left to the journal. */
    method MintTo(sender: Address, token: Address, to: Address, amount: nat) returns (ok: bool)
      modifies this`tokens
      ensures ok ==> CallMint(old(State()), token, sender, to, amount) == Some(State())
      ensures !ok ==> CallMint(old(State()), token, sender, to, amount) == None
    {
      if token !in tokens || sender != tokens[token].minter || to == ZERO_ADDRESS {
        return false;
      }
      var supply := tokens[token].totalSupply + amount;
      if supply >= WORD {
        return false;
      }
      tokens := tokens[token := tokens[token].(totalSupply := supply)];
      var balance := tokens[token].Balance(to) + amount;
      if balance >= WORD {
        return false;
      }
      ghost var first := tokens[token];
      tokens := tokens[token := tokens[token].(balances := tokens[token].balances[to := balance])];
      Overwrite(old(tokens), token, first, tokens[token]);
      return true;
    }

    method ApproveFor(sender: Address, token: Address, spender: Address, amount: nat) returns (ok: bool)
      modifies this`tokens
      ensures ok ==> CallApprove(old(State()), token, sender, spender, amount) == Some(State())
      ensures !ok ==> CallApprove(old(State()), token, sender, spender, amount) == None
    {
      if token !in tokens {
        return false;
      }
      tokens := tokens[token := tokens[token].(allowances := tokens[token].allowances[(sender, spender) := amount])];
      return true;
    }

    /** _transfer: the debit is written before the credit is read. */
    method MoveBalance(token: Address, from: Address, to: Address, amount: nat) returns (ok: bool)
      modifies this`tokens
      ensures ok ==> CallTransfer(old(State()), token, from, to, amount) == Some(State())
      ensures !ok ==> CallTransfer(old(State()), token, from, to, amount) == None
    {
      if token !in tokens || to == ZERO_ADDRESS || tokens[token].Balance(from) < amount {
        return false;
      }
      var debited := tokens[token].Balance(from) - amount;
      tokens := tokens[token := tokens[token].(balances := tokens[token].balances[from := debited])];
      var credited := tokens[token].Balance(to) + amount;
      if credited >= WORD {
        return false;
      }
      ghost var first := tokens[token];
      tokens := tokens[token := tokens[token].(balances := tokens[token].balances[to := credited])];
      Overwrite(old(tokens), token, first, tokens[token]);
      return true;
    }

    method MoveAllowed(sender: Address, token: Address, from: Address, to: Address, amount: nat) returns (ok: bool)
      modifies this`tokens
      ensures ok ==> CallTransferFrom(old(State()), token, sender, from, to, amount) == Some(State())
      ensures !ok ==> CallTransferFrom(old(State()), token, sender, from, to, amount) == None
    {
      if token !in tokens {
        return false;
      }
      var allowed := tokens[token].Allowance(from, sender);
      if allowed < amount {
        return false;
      }
      if allowed != MAX_WORD {
        tokens := tokens[token :=
          tokens[token].(allowances := tokens[token].allowances[(from, sender) := allowed - amount])];
      }
      ghost var first := tokens[token];
      ok := MoveBalance(token, from, to, amount);
      if ok {
        Overwrite(old(tokens), token, first, tokens[token]);
      }
    }

    // -------------------------------------------------------------- SandboxDex

    method AddLiquidity(sender: Address, pool: Address, amountA: nat, amountB: nat) returns (ok: bool)
      modifies this
      ensures ok ==> SeedLiquidity(old(State()), sender, pool, amountA, amountB) == Some(State())
      ensures !ok ==> SeedLiquidity(old(State()), sender, pool, amountA, amountB) == None
    {
      if pool !in pools || amountA == 0 || amountB == 0 {
        return false;
      }
      var d := pools[pool];
      ok := MoveAllowed(pool, d.tokenA, sender, pool, amountA);
      if !ok {
        return;
      }
      ok := MoveAllowed(pool, d.tokenB, sender, pool, amountB);
      if !ok || d.reserveA + amountA >= WORD {
        return false;
      }
      pools := pools[pool := d.(reserveA := d.reserveA + amountA)];
      if d.reserveB + amountB >= WORD {
        return false;
      }
      ghost var first := pools[pool];
      pools := pools[pool := pools[pool].(reserveB := d.reserveB + amountB)];
      Overwrite(old(pools), pool, first, pools[pool]);
      return true;
    }

    /** _swapExactIn. */
    method TradeExactIn(sender: Address, pool: Address, tokenIn: Address, tokenOut: Address,
                        amountIn: nat, minAmountOut: nat, reserveIn: nat, reserveOut: nat)
      returns (ok: bool, amountOut: nat)
      modifies this`tokens
      ensures ok ==> SwapExactIn(old(State()), pool, sender, tokenIn, tokenOut, amountIn, minAmountOut,
                                 reserveIn, reserveOut) == Some(Swapped(State(), amountOut))
      ensures !ok ==> SwapExactIn(old(State()), pool, sender, tokenIn, tokenOut, amountIn, minAmountOut,
                                  reserveIn, reserveOut) == None
    {
      ok, amountOut := false, 0;
      var quote := GetAmountOut(amountIn, reserveIn, reserveOut);
      if quote.None? || quote.value == 0 || quote.value < minAmountOut {
        return;
      }
      amountOut := quote.value;
      ok := MoveAllowed(pool, tokenIn, sender, pool, amountIn);
      if ok {
        ok := MoveBalance(tokenOut, pool, sender, amountOut);
      }
    }

    method TradeAForB(sender: Address, pool: Address, amountIn: nat, minAmountOut: nat)
      returns (ok: bool, amountOut: nat)
      modifies this
      ensures ok ==> SwapExactAForB(old(State()), sender, pool, amountIn, minAmountOut)
                     == Some(Swapped(State(), amountOut))
      ensures !ok ==> SwapExactAForB(old(State()), sender, pool, amountIn, minAmountOut) == None
    {
      ok, amountOut := false, 0;
      if pool !in pools {
        return;
      }
      var d := pools[pool];
      ok, amountOut := TradeExactIn(sender, pool, d.tokenA, d.tokenB, amountIn, minAmountOut, d.reserveA, d.reserveB);
      if !ok || d.reserveA + amountIn >= WORD {
        return false, 0;
      }
      pools := pools[pool := d.(reserveA := d.reserveA + amountIn)];
      if d.reserveB < amountOut {
        return false, 0;
      }
      ghost var first := pools[pool];
      pools := pools[pool := pools[pool].(reserveB := d.reserveB - amountOut)];
      Overwrite(old(pools), pool, first, pools[pool]);
    }

    method TradeBForA(sender: Address, pool: Address, amountIn: nat, minAmountOut: nat)
      returns (ok: bool, amountOut: nat)
      modifies this
      ensures ok ==> SwapExactBForA(old(State()), sender, pool, amountIn, minAmountOut)
                     == Some(Swapped(State(), amountOut))
      ensures !ok ==> SwapExactBForA(old(State()), sender, pool, amountIn, minAmountOut) == None
    {
      ok, amountOut := false, 0;
      if pool !in pools {
        return;
      }
      var d := pools[pool];
      ok, amountOut := TradeExactIn(sender, pool, d.tokenB, d.tokenA, amountIn, minAmountOut, d.reserveB, d.reserveA);
      if !ok || d.reserveB + amountIn >= WORD {
        return false, 0;
      }
      pools := pools[pool := d.(reserveB := d.reserveB + amountIn)];
      if d.reserveA < amountOut {
        return false, 0;
      }
      ghost var first := pools[pool];
      pools := pools[pool := pools[pool].(reserveA := d.reserveA - amountOut)];
      Overwrite(old(pools), pool, first, pools[pool]);
    }

    // -------------------------------------------------------------- SandboxBackrun

    method RunBackrun(sender: Address, buyPool: Address, sellPool: Address, amountInB: nat,
                      minAmountOutA: nat, minAmountOutB: nat, minProfitB: nat)
      returns (ok: bool, amountOutA: nat, amountOutB: nat)
      modifies this
      ensures ok ==> ExecuteBackrun(old(State()), sender, buyPool, sellPool, amountInB,
                                    minAmountOutA, minAmountOutB, minProfitB)
                     == Some(Executed(State(), amountOutA, amountOutB))
      ensures !ok ==> ExecuteBackrun(old(State()), sender, buyPool, sellPool, amountInB,
                                     minAmountOutA, minAmountOutB, minProfitB) == None
    {
      ok, amountOutA, amountOutB := false, 0, 0;
      if sender != operator || buyPool == ZERO_ADDRESS || sellPool == ZERO_ADDRESS || buyPool == sellPool {
        return;
      }
      if amountInB == 0 || buyPool !in pools || sellPool !in pools {
        return;
      }
      var tokenA, tokenB := pools[buyPool].tokenA, pools[buyPool].tokenB;
      if tokenA != pools[sellPool].tokenA || tokenB != pools[sellPool].tokenB || tokenB !in tokens {
        return;
      }
      var initialBalanceB := tokens[tokenB].Balance(backrun);
      if initialBalanceB < amountInB {
        return;
      }
      ok := ApproveFor(backrun, tokenB, buyPool, amountInB);
      if !ok {
        return;
      }
      ok, amountOutA := TradeBForA(backrun, buyPool, amountInB, minAmountOutA);
      if !ok {
        return;
      }
      ok := ApproveFor(backrun, tokenA, sellPool, amountOutA);
      if !ok {
        return;
      }
      ok, amountOutB := TradeAForB(backrun, sellPool, amountOutA, minAmountOutB);
      if !ok || tokenB !in tokens || tokens[tokenB].Balance(backrun) < initialBalanceB {
        return false, 0, 0;
      }
      var profitB := tokens[tokenB].Balance(backrun) - initialBalanceB;
      ok := profitB >= minProfitB;
    }

    method Withdraw(sender: Address, token: Address, to: Address, amount: nat) returns (ok: bool)
      modifies this`tokens
      ensures ok ==> WithdrawToken(old(State()), sender, token, to, amount) == Some(State())
      ensures !ok ==> WithdrawToken(old(State()), sender, token, to, amount) == None
    {
      if sender != operator || token == ZERO_ADDRESS || to == ZERO_ADDRESS {
        return false;
      }
      ok := MoveBalance(token, backrun, to, amount);
    }

    // -------------------------------------------------------------- transactions

    method Dispatch(sender: Address, call: Call) returns (ok: bool)
      modifies this
      ensures ok ==> Exec(old(State()), sender, call) == Some(State())
      ensures !ok ==> Exec(old(State()), sender, call) == None
    {
      if !CanSign(State(), sender) {
        return false;
      }
      match call
      case CMint(token, to, amount) => ok := MintTo(sender, token, to, amount);
      case CApprove(token, spender, amount) => ok := ApproveFor(sender, token, spender, amount);
      case CTransfer(token, to, amount) => ok := MoveBalance(token, sender, to, amount);
      case CTransferFrom(token, from, to, amount) => ok := MoveAllowed(sender, token, from, to, amount);
      case CSeed(pool, amountA, amountB) => ok := AddLiquidity(sender, pool, amountA, amountB);
      case CSwapAForB(pool, amountIn, min) =>
        var out;
        ok, out := TradeAForB(sender, pool, amountIn, min);
      case CSwapBForA(pool, amountIn, min) =>
        var out;
        ok, out := TradeBForA(sender, pool, amountIn, min);
      case CBackrun(buy, sell, amountInB, minA, minB, minProfit) =>
        var outA, outB;
        ok, outA, outB := RunBackrun(sender, buy, sell, amountInB, minA, minB, minProfit);
      case CWithdraw(token, to, amount) => ok := Withdraw(sender, token, to, amount);
    }

    /** One transaction with its journal: either every write stays, or none. */
    method Transact(tx: Tx) returns (ok: bool)
      modifies this
      ensures State() == Apply(old(State()), tx)
      ensures ok == Exec(old(State()), tx.sender, tx.call).Some?
    {
      var savedTokens, savedPools := tokens, pools;
      ok := Dispatch(tx.sender, tx.call);
      if !ok {
        tokens, pools := savedTokens, savedPools;
      }
    }

    /** A block of transactions: from a consistent state the chain stays consistent, no product
        shrinks, and the final state is the one of the value model. */
    method TransactAll(txs: seq<Tx>)
      requires WorldOk(State())
      modifies this
      ensures State() == Run(old(State()), txs)
      ensures WorldOk(State()) && AllGrow(old(State()), State())
    {
      ghost var genesis := State();
      for i := 0 to |txs|
        invariant State() == Run(genesis, txs[..i])
      {
        RunAppend(genesis, txs[..i], txs[i]);
        assert txs[..i + 1] == txs[..i] + [txs[i]];
        var ok := Transact(txs[i]);
      }
      assert txs[..|txs|] == txs;
      RunKeepsWorld(genesis, txs);
    }
  }

  lemma {:induction false} RunAppend(w: World, txs: seq<Tx>, tx: Tx)
    ensures Run(w, txs + [tx]) == Apply(Run(w, txs), tx)
    decreases |txs|
  {
    if txs == [] {
      assert Run(Apply(w, tx), []) == Apply(w, tx);
    } else {
      RunAppend(Apply(w, txs[0]), txs[1..], tx);
      assert (txs + [tx])[1..] == txs[1..] + [tx];
    }
  }
}
