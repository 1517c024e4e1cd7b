/** The contracts of blockchain/src as one value: SandboxERC20 ledgers, SandboxDex pools and the
    SandboxBackrun executor. Every operation returns the new state, or None where the
    transaction reverts and leaves no trace. Arithmetic is checked. */
module Ledger {
  import opened Common

  datatype Token = Token(
    minter: Address,
    totalSupply: nat,
    balances: map<Address, nat>,
    allowances: map<(Address, Address), nat>)
  {
    function Balance(a: Address): nat {
      if a in balances then balances[a] else 0
    }

    function Allowance(owner: Address, spender: Address): nat {
      if (owner, spender) in allowances then allowances[(owner, spender)] else 0
    }
  }

  datatype Dex = Dex(tokenA: Address, tokenB: Address, reserveA: nat, reserveB: nat)

  datatype World = World(
    tokens: map<Address, Token>,
    pools: map<Address, Dex>,
    backrun: Address,
    operator: Address)

  const MAX_WORD: nat := WORD - 1

  // ---------------------------------------------------------------- checked arithmetic

  function CheckedAdd(x: nat, y: nat): Option<nat> {
    if x + y < WORD then Some(x + y) else None
  }

  function CheckedSub(x: nat, y: nat): Option<nat> {
    if y <= x then Some(x - y) else None
  }

  function CheckedMul(x: nat, y: nat): Option<nat> {
    if Times(x, y) < WORD then Some(Times(x, y)) else None
  }

  // ---------------------------------------------------------------- SandboxERC20

  function Mint(t: Token, sender: Address, to: Address, amount: nat): Option<Token> {
    if sender != t.minter then None else
    if to == ZERO_ADDRESS then None else
    var supply :- CheckedAdd(t.totalSupply, amount);
    var balance :- CheckedAdd(t.Balance(to), amount);
    Some(t.(totalSupply := supply, balances := t.balances[to := balance]))
  }

  function Approve(t: Token, sender: Address, spender: Address, amount: nat): Token {
    t.(allowances := t.allowances[(sender, spender) := amount])
  }

  /** _transfer: the debit is stored before the credit is read. */
  function Move(t: Token, from: Address, to: Address, amount: nat): Option<Token> {
    if to == ZERO_ADDRESS then None else
    if t.Balance(from) < amount then None else
    var debited := t.(balances := t.balances[from := t.Balance(from) - amount]);
    var balance :- CheckedAdd(debited.Balance(to), amount);
    Some(debited.(balances := debited.balances[to := balance]))
  }

  function TransferFrom(t: Token, sender: Address, from: Address, to: Address, amount: nat): Option<Token> {
    var allowed := t.Allowance(from, sender);
    if allowed < amount then None else
    var spent := if allowed != MAX_WORD
                 then t.(allowances := t.allowances[(from, sender) := allowed - amount])
                 else t;
    Move(spent, from, to, amount)
  }

  // ---------------------------------------------------------------- token calls on the world

  function SetToken(w: World, token: Address, t: Token): World {
    w.(tokens := w.tokens[token := t])
  }

  function CallTransfer(w: World, token: Address, sender: Address, to: Address, amount: nat): Option<World> {
    if token !in w.tokens then None else
    var t :- Move(w.tokens[token], sender, to, amount);
    Some(SetToken(w, token, t))
  }

  function CallTransferFrom(w: World, token: Address, sender: Address, from: Address, to: Address, amount: nat)
    : Option<World>
  {
    if token !in w.tokens then None else
    var t :- TransferFrom(w.tokens[token], sender, from, to, amount);
    Some(SetToken(w, token, t))
  }

  function CallApprove(w: World, token: Address, sender: Address, spender: Address, amount: nat): Option<World> {
    if token !in w.tokens then None else
    Some(SetToken(w, token, Approve(w.tokens[token], sender, spender, amount)))
  }

  function CallMint(w: World, token: Address, sender: Address, to: Address, amount: nat): Option<World> {
    if token !in w.tokens then None else
    var t :- Mint(w.tokens[token], sender, to, amount);
    Some(SetToken(w, token, t))
  }

  // ---------------------------------------------------------------- SandboxDex

  function GetAmountOut(amountIn: nat, reserveIn: nat, reserveOut: nat): Option<nat> {
    if amountIn == 0 then None else
    if reserveIn == 0 then None else
    if reserveOut == 0 then None else
    var amountInWithFee :- CheckedMul(amountIn, 997);
    var numerator :- CheckedMul(amountInWithFee, reserveOut);
    var scaled :- CheckedMul(reserveIn, 1000);
    var denominator :- CheckedAdd(scaled, amountInWithFee);
    if denominator == 0 then None else
    Some(Quotient(numerator, denominator))
  }

  datatype Swapped = Swapped(world: World, amountOut: nat)

  function SwapExactIn(w: World, pool: Address, sender: Address, tokenIn: Address, tokenOut: Address,
                       amountIn: nat, minAmountOut: nat, reserveIn: nat, reserveOut: nat)
    : Option<Swapped>
  {
    var amountOut :- GetAmountOut(amountIn, reserveIn, reserveOut);
    if amountOut == 0 then None else
    if amountOut < minAmountOut then None else
    var paid :- CallTransferFrom(w, tokenIn, pool, sender, pool, amountIn);
    var delivered :- CallTransfer(paid, tokenOut, pool, sender, amountOut);
    Some(Swapped(delivered, amountOut))
  }

  function SetReserves(w: World, pool: Address, reserveA: nat, reserveB: nat): World
    requires pool in w.pools
  {
    w.(pools := w.pools[pool := w.pools[pool].(reserveA := reserveA, reserveB := reserveB)])
  }

  function SwapExactAForB(w: World, sender: Address, pool: Address, amountIn: nat, minAmountOut: nat)
    : Option<Swapped>
  {
    if pool !in w.pools then None else
    var d := w.pools[pool];
    var swap :-
      SwapExactIn(w, pool, sender, d.tokenA, d.tokenB, amountIn, minAmountOut, d.reserveA, d.reserveB);
    var reserveA :- CheckedAdd(d.reserveA, amountIn);
    var reserveB :- CheckedSub(d.reserveB, swap.amountOut);
    Some(Swapped(SetReserves(swap.world, pool, reserveA, reserveB), swap.amountOut))
  }

  function SwapExactBForA(w: World, sender: Address, pool: Address, amountIn: nat, minAmountOut: nat)
    : Option<Swapped>
  {
    if pool !in w.pools then None else
    var d := w.pools[pool];
    var swap :-
      SwapExactIn(w, pool, sender, d.tokenB, d.tokenA, amountIn, minAmountOut, d.reserveB, d.reserveA);
    var reserveB :- CheckedAdd(d.reserveB, amountIn);
    var reserveA :- CheckedSub(d.reserveA, swap.amountOut);
    Some(Swapped(SetReserves(swap.world, pool, reserveA, reserveB), swap.amountOut))
  }

  function SeedLiquidity(w: World, sender: Address, pool: Address, amountA: nat, amountB: nat): Option<World> {
    if pool !in w.pools then None else
    var d := w.pools[pool];
    if amountA == 0 then None else
    if amountB == 0 then None else
    var paidA :- CallTransferFrom(w, d.tokenA, pool, sender, pool, amountA);
    var paidB :- CallTransferFrom(paidA, d.tokenB, pool, sender, pool, amountB);
    var reserveA :- CheckedAdd(d.reserveA, amountA);
    var reserveB :- CheckedAdd(d.reserveB, amountB);
    Some(SetReserves(paidB, pool, reserveA, reserveB))
  }

  // ---------------------------------------------------------------- SandboxBackrun

  datatype Executed = Executed(world: World, amountOutA: nat, amountOutB: nat)

  function ExecuteBackrun(w: World, sender: Address, buyPool: Address, sellPool: Address,
                          amountInB: nat, minAmountOutA: nat, minAmountOutB: nat, minProfitB: nat)
    : Option<Executed>
  {
    if sender != w.operator then None else
    if buyPool == ZERO_ADDRESS then None else
    if sellPool == ZERO_ADDRESS then None else
    if buyPool == sellPool then None else
    if amountInB == 0 then None else
    if buyPool !in w.pools || sellPool !in w.pools then None else
    var tokenA, tokenB := w.pools[buyPool].tokenA, w.pools[buyPool].tokenB;
    if tokenA != w.pools[sellPool].tokenA then None else
    if tokenB != w.pools[sellPool].tokenB then None else
    if tokenB !in w.tokens then None else
    var initial := w.tokens[tokenB].Balance(w.backrun);
    if initial < amountInB then None else
    var approvedB :- CallApprove(w, tokenB, w.backrun, buyPool, amountInB);
    var bought :- SwapExactBForA(approvedB, w.backrun, buyPool, amountInB, minAmountOutA);
    var approvedA :- CallApprove(bought.world, tokenA, w.backrun, sellPool, bought.amountOut);
    var sold :- SwapExactAForB(approvedA, w.backrun, sellPool, bought.amountOut, minAmountOutB);
    if tokenB !in sold.world.tokens then None else
    var profit :- CheckedSub(sold.world.tokens[tokenB].Balance(w.backrun), initial);
    if profit < minProfitB then None else
    Some(Executed(sold.world, bought.amountOut, sold.amountOut))
  }

  function WithdrawToken(w: World, sender: Address, token: Address, to: Address, amount: nat): Option<World> {
    if sender != w.operator then None else
    if token == ZERO_ADDRESS then None else
    if to == ZERO_ADDRESS then None else
    CallTransfer(w, token, w.backrun, to, amount)
  }

  // ---------------------------------------------------------------- transactions

  datatype Call =
    | CMint(token: Address, to: Address, amount: U256)
    | CApprove(token: Address, spender: Address, amount: U256)
    | CTransfer(token: Address, to: Address, amount: U256)
    | CTransferFrom(token: Address, from: Address, to: Address, amount: U256)
    | CSeed(pool: Address, amountA: U256, amountB: U256)
    | CSwapAForB(pool: Address, amountIn: U256, minAmountOut: U256)
    | CSwapBForA(pool: Address, amountIn: U256, minAmountOut: U256)
    | CBackrun(buyPool: Address, sellPool: Address, amountInB: U256,
               minAmountOutA: U256, minAmountOutB: U256, minProfitB: U256)
    | CWithdraw(token: Address, to: Address, amount: U256)

  function WorldOf(s: Option<Swapped>): Option<World> {
    if s.None? then None else Some(s.value.world)
  }

  function ExecutedWorld(e: Option<Executed>): Option<World> {
    if e.None? then None else Some(e.value.world)
  }

  /** Only accounts with a key sign transactions: no contract address and not address zero. */
  predicate CanSign(w: World, sender: Address) {
    sender != ZERO_ADDRESS && sender !in w.pools && sender != w.backrun
  }

  function Exec(w: World, sender: Address, call: Call): Option<World> {
    if !CanSign(w, sender) then None else
    match call
    case CMint(token, to, amount) => CallMint(w, token, sender, to, amount)
    case CApprove(token, spender, amount) => CallApprove(w, token, sender, spender, amount)
    case CTransfer(token, to, amount) => CallTransfer(w, token, sender, to, amount)
    case CTransferFrom(token, from, to, amount) => CallTransferFrom(w, token, sender, from, to, amount)
    case CSeed(pool, amountA, amountB) => SeedLiquidity(w, sender, pool, amountA, amountB)
    case CSwapAForB(pool, amountIn, min) => WorldOf(SwapExactAForB(w, sender, pool, amountIn, min))
    case CSwapBForA(pool, amountIn, min) => WorldOf(SwapExactBForA(w, sender, pool, amountIn, min))
    case CBackrun(buy, sell, amountInB, minA, minB, minProfit) =>
      ExecutedWorld(ExecuteBackrun(w, sender, buy, sell, amountInB, minA, minB, minProfit))
    case CWithdraw(token, to, amount) => WithdrawToken(w, sender, token, to, amount)
  }
}
