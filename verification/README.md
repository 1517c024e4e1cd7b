# Verification of the two-pool arbitrage bot, its contracts and its builder

This project models four connected parts of the repository and proves properties of them with
Dafny 4.11. `dafny verify dfyconfig.toml` checks everything.

1. **Arbitrage arithmetic** (`IntegerSqrt`, `Calculator`, `ConstantProduct`, `Optimality`,
   `RejectionBorder`, `FindArbitrage`, `SearchBound`, `SearchAcceptance`). Knight's calculator with the wrapping
   registers of its source: 256, 1024 and 2048 bits. No register wraps where it must not, the
   bit-by-bit square root is exact, the chosen input and the whole search are within a fixed distance
   of every other input and pool, and a rejection is right for all inputs exactly when it is right for
   one and two units.
2. **On-chain ledger** (`Ledger`, `LedgerInvariant`, `Backrun`, `CallAcceptance`,
   `LedgerRuns`, `ExecutorFunds`, `Contracts`). The token, pool and executor contracts with checked arithmetic and atomic revert, once as values and
   once as a class that writes its storage slot by slot and rolls back. Every run conserves supplies,
   keeps every reserve backed, lets no product shrink, and takes tokens from the executor only by a
   withdrawal of its operator.
3. **Candidate synchronisation** (`CandidateFilter`, `CandidateState`, `Queue`, `Sync`,
   `SyncPartition`, `SyncCoherence`, `SyncOrder`, `SyncArrivals`, `SyncBlocks`, `SyncRuns`). Builder,
   stream, bounded queue, core thread, state and consumer as one interleaved machine. A label picks
   the next step of one of them and a disabled label changes nothing, so "every run" is "every
   sequence of labels". No candidate is lost or doubled, no wakeup is lost, no shutdown is spurious,
   and what the consumer receives is coherent.
4. **Builder and runtime** (`TxChain`, `TxExact`, `BuilderMempool`, `Bundles`, `BuilderAnswers`,
   `Abi`, `AbiCalls`, `TxComposer`, `Outcome`, `TipOrder`, `Pipeline`, `RuntimeDecides`,
   `PipelineSafety`, `Signer`, `NonceLag`, `KnightRuns`, `FirstRun`, `Scenario`, `LagScenario`,
   `BForAScenario`). The numbered mempool, bundles over a deterministic chain whose RPCs may
   fail, the calldata, the nonce and the simulate-then-submit loop with its retries.

Parts 1 and 2 meet in `Refinement.QuoteEqualsExecution`: what the calculator quotes is what the
contracts execute. All four meet over every run of chain, builder and Knight:

* `KnightRuns.ReceiptsArePinned`: whoever mined the block, every new transaction of the bot with a receipt
  was sent by a recorded request of Knight on the head right below that block, whose reserves had
  priced it, provided that nobody else signs for the bot and that the initial nonce is not above the
  chain's. Knight had seen the identical bundle simulated as included on that head exactly if the
  request was a submission; otherwise it was a simulation whose evm_revert failed without effect.
* `PipelineSafety.PinnedExecution`: the same of the bundles that a submission mined, whoever signs.
* `PipelineSafety.MinedBundleEarns`: if it was included, it earned exactly the outputs and the profit
  that the search expected, provided that the configured contract is the executor, the backrun does
  not tip more than its victim, and every other transaction in the pool tips less than the backrun.
* `PipelineSafety.MinedBackrunGains`: without the conditions on tips and pool, an included backrun
  still ran as composed and brought at least its minimum profit in TokenB at no cost in any other
  token; with no withdrawal in the pool the same holds of the whole block. The runtime sets that
  minimum to zero, so what remains is that it never loses.

`Scenario` exhibits the runs that show the hypotheses to meet and to matter, from the first request
on: in `SomebodyEarns` a bundle is received, priced, simulated and mined and earns the expected 10832
TokenB; in `OutbiddingEarnsLess` the backrun outbids its victim and earns 4624, and in
`WaitingSwapEarnsLess` a rival's swap of an equal tip is ahead of it in the pool and it earns 8051.
For an empty pool the border is exact (`TipOrder.ExpectedProfitBorder`).

Every operation is also decided from its inputs, in both directions: each transaction
(`TxExact.RunTxExact`), each request to the builder (`BuilderAnswers.SimulateAnswers`, `MineAnswers`),
each streamed message (`SyncArrivals.TransactionDecides`), each block event
(`SyncBlocks.BlockDecides`), each search (`SearchAcceptance.SearchFinds`) and each iteration of the
runtime (`RuntimeDecides`).

Where the source updates things in place the model is a class whose methods are proved against the
value functions (`Contracts.Chain`, `Abi.Calldata`, `CandidateState.LocalMempool`, `State`,
`CandidateSource`, `Queue.Queue`, `BuilderMempool.Mempool`, `Bundles.BundleBuilder`,
`TxComposer.TxComposer`, `Pipeline.Runtime`); the theorems over runs are about those functions.

Four expectations turned out to be false of the code, each with an input that shows it and its exact
border:

* A computed amount of zero can hide a profitable input (`Optimality.TinyReservesMissed`,
  `RejectionBorder.TwoUnitsMissed`). After a rejection the code quotes a profit, without wrapping,
  for some input if and only if it does for one or for two units (`RejectionBorder.RejectionBorder`);
  the unrounded profit stays below one unit for all inputs if and only if c < 2*(d + e)
  (`Optimality.OneUnitDecides`).
* The direction that the search does not try can be reopened by the victim's swap
  (`Optimality.WrappingSwapReopens`). Every pool that was rejected stays rejected if and only if the
  booked price moved the way of the swap or the growing reserve wrapped to zero
  (`Optimality.OtherDirectionBorder`). On the chain that is always so, because reserves are backed and
  cannot wrap (`Refinement.DirectionStaysRejectedOnChain`).
* A simulation can change the chain (`Bundles.SimulationLeavesBlock`). It does so if and only if its
  first transaction lands and the RPC that reverts fails without effect
  (`Bundles.SimulateChangesNothing`).
* Knight reads its nonce from the chain once, and it can fall behind (three runs in `LagScenario`). In
  every run that starts in step and in which nobody else signs for the bot, it lags if and only if one
  of Knight's own transactions with the nonce it is about to use has a receipt
  (`KnightRuns.LagMeansReceipt`). It begins to lag by exactly three kinds of steps
  (`KnightRuns.LagBorder`): a simulation that mines its block and cannot take it back, a submission
  that mines a block and returns no result, and a block of anybody while Knight's transaction is
  waiting in the pool. From then on no submission of any run returns a result
  (`NonceLag.LagIsForever`).

## Model

| member | source | states |
|---|---|---|
| `IntegerSqrt.IntegerSqrt` | knight/src/utils/utils.h:27-49 | terminates at every even width and returns the exact floor square root, with wrapping operators that never wrap |
| `IntegerSqrt.IntegerSqrtOfLimbs` | knight/src/utils/utils.h:27-49 | the same at the widths intx offers, whole 64-bit limbs |
| `IntegerSqrt.FloorSqrtUnique` | knight/src/utils/utils.h:27-49 | r*r <= v < (r+1)*(r+1) determines the root, so the reference definition is the only one |
| `IntegerSqrt.Round` | knight/src/utils/utils.h:38-43 | one round of the loop keeps the partial root bracketed and none of its additions leaves the register |
| `Calculator.ApplyBps` | knight/src/arbitrage/calculator.cpp:40-43 | at most 10000 basis points never exceed the value, even where the product wraps |
| `SearchAcceptance.BpsExact` | knight/src/arbitrage/calculator.cpp:40-43 | the value times the basis points, modulo 2^256, divided by 10000 and rounded down |
| `Calculator.CoefficientCExact` | knight/src/arbitrage/calculator.cpp:126-127 | c is 997^2 times the two reserves for all 256-bit reserves: 1024 bits never wrap |
| `Calculator.CoefficientDExact` | knight/src/arbitrage/calculator.cpp:128-129 | d is 1000^2 times the two reserves, without wrapping |
| `Calculator.CoefficientEExact` | knight/src/arbitrage/calculator.cpp:130-132 | e is the sum of its two products, without wrapping |
| `Calculator.RadicandFits` | knight/src/arbitrage/calculator.cpp:138 | c*d fits 2048 bits |
| `Calculator.InputBracketsOptimum` | knight/src/arbitrage/calculator.cpp:138-146 | the unclamped input x satisfies (d+e*x)^2 <= c*d < (d+e*(x+1))^2 |
| `Calculator.UnclampedIsWord` | knight/src/arbitrage/calculator.cpp:148-153 | four times the unclamped input is at most the selling pool's TokenB reserve, so narrowing to 256 bits loses nothing |
| `Calculator.OptimalAmountExact` | knight/src/arbitrage/calculator.cpp:115-154 | for all inputs the registers compute the integer closed form, cut at the limit |
| `Calculator.ComputeOptimalAmountInB` | knight/src/arbitrage/calculator.cpp:115-154 | the computation with the square-root loop and the clamped local gives that value |
| `ConstantProduct.OutBelowReserve` | knight/src/arbitrage/calculator.cpp:23-38 | an exact quote never empties the paying reserve |
| `ConstantProduct.ProductGrows` | blockchain/src/dexes/SandboxDex.sol:78-89 | booking a quote strictly increases the product of the reserves |
| `Optimality.AmountOutExact` | knight/src/arbitrage/calculator.cpp:23-38 | a quote whose products fit 256 bits is the integer quote |
| `SearchAcceptance.AmountOutForAll` | knight/src/arbitrage/calculator.cpp:23-38 | a quote for every input: nothing for a zero or a denominator that is zero modulo 2^256, otherwise the quotient of both exact products modulo 2^256 |
| `Optimality.QuoteRouteExact` | knight/src/arbitrage/calculator.cpp:94-113 | an accepted route that does not wrap is two integer quotes in a row |
| `Optimality.SmallRoutesFit` | knight/src/arbitrage/calculator.cpp:94-113 | reserves and inputs below 2^120 never wrap a route |
| `Optimality.RouteUpper` | knight/src/arbitrage/calculator.cpp:124-125 | the doubly floored output is at most c*x/(d+e*x) |
| `Optimality.RouteLower` | knight/src/arbitrage/calculator.cpp:124-125 | the two floors lose less than 1 + 997*b2/(1000*a2) |
| `Optimality.ExactProfitGap` | knight/src/arbitrage/calculator.cpp:115-154 | no admissible input has an exact profit one unit above that of the chosen input |
| `Optimality.NearOptimal` | knight/src/arbitrage/calculator.cpp:94-154 | for the chosen input x and every accepted y up to the limit: 1000*a2*((q(y)-y)-(q(x)-x)) < 2000*a2 + 997*b2 |
| `Optimality.RootTest` | knight/src/arbitrage/calculator.cpp:138-141 | root <= d if and only if c <= d + 2 |
| `Optimality.RejectionComplete` | knight/src/arbitrage/calculator.cpp:134-146 | after a rejection on positive reserves no input has a quoted profit, if the unrounded route loses at one unit |
| `Optimality.TheUsualRejections` | knight/src/arbitrage/calculator.cpp:138-146 | root <= d implies that condition, and so does e <= d |
| `Optimality.OneUnitDecides` | knight/src/arbitrage/calculator.cpp:138-146 | for a rejected pair all unrounded profits stay below one unit if and only if c < 2*(d + e) |
| `Optimality.ZeroAmountBorder` | knight/src/arbitrage/calculator.cpp:143-146 | e <= d is exactly the border below which a zero amount never hides an unrounded profit, for all integers c, not only coefficients of reserves |
| `Optimality.TinyReservesMissed` | knight/src/arbitrage/calculator.cpp:143-146 | with reserves (1000, 1) and (1000, 8) the zero amount hides an input that doubles |
| `RejectionBorder.RejectionBorder` | knight/src/arbitrage/calculator.cpp:94-154 | after a rejection on positive reserves some input has a quoted profit, both roundings included, if and only if one or two units have |
| `RejectionBorder.EarlyProfit` | knight/src/arbitrage/calculator.cpp:134-146 | over the integers: a rejected pair that pays for any input pays for one or two units |
| `RejectionBorder.ProfitNeedsSlope` | knight/src/arbitrage/calculator.cpp:124-146 | a rejected pair can only pay for y if e > (y-1)*d |
| `RejectionBorder.TwoUnitsMissed` | knight/src/arbitrage/calculator.cpp:143-146 | with reserves (2, 1) and (1, 7) the pair is rejected, one unit gets no quote and two units return three |
| `Optimality.OtherDirectionBorder` | knight/src/arbitrage/calculator.cpp:226-236 | for both kinds: guards and root test still reject every pool rejected before the victim's swap if and only if the booked price moved the way of the swap or the growing reserve is zero; "only if" for reserves below 2^256/10^6 |
| `Optimality.PriceBorder` | knight/src/arbitrage/calculator.cpp:138-141 | the same border as an if-and-only-if for all integer reserves of the victim, when the other pool may hold integers of any size |
| `Optimality.OtherDirectionStaysRejected` | knight/src/arbitrage/calculator.cpp:226-236 | so the untried direction stays rejected whenever the growing reserve does not wrap |
| `Optimality.WrappingSwapReopens` | knight/src/arbitrage/calculator.cpp:56-92 | a concrete swap that wraps the reserve reopens the rejected direction |
| `FindArbitrage.FindArbitrage` | knight/src/arbitrage/calculator.cpp:202-244 | returns the earliest pool of maximal expected profit among all other pools, and nothing exactly when none qualifies or a guard fails |
| `FindArbitrage.BestOffer` | knight/src/arbitrage/calculator.cpp:220-243 | the loop keeps the earliest maximum of the offers seen |
| `FindArbitrage.FindPoolSnapshot` | knight/src/arbitrage/calculator.cpp:45-54 | finds a snapshot of that address, or there is none |
| `FindArbitrage.FindArbitrageUnique` | knight/src/arbitrage/calculator.cpp:195-244 | that specification determines the result |
| `FindArbitrage.ResultIsSound` | knight/src/arbitrage/calculator.cpp:168-244 | two different pools, the candidate's among them on the right side, input cap, minimum profit and minimum outputs respected even where basis points wrap |
| `FindArbitrage.EvaluatePoolIsSound` | knight/src/arbitrage/calculator.cpp:156-193 | an opportunity is an accepted route quote with its profit and its scaled minimum outputs |
| `SearchAcceptance.FirstSnapshot` | knight/src/arbitrage/calculator.cpp:45-54 | of several snapshots of one address the first counts |
| `SearchAcceptance.VictimAccepted` | knight/src/arbitrage/calculator.cpp:56-92 | on a quote that does not wrap a victim is accepted if and only if input and reserves are positive and the output meets its own minimum |
| `SearchAcceptance.SearchFinds` | knight/src/arbitrage/calculator.cpp:195-244 | the search finds something if and only if the parameters are in range, the candidate's pool is in the snapshot, its victim is accepted and some other pool's chosen input pays the minimum profit |
| `SearchAcceptance.FoundMeetsMinimum` | knight/src/arbitrage/calculator.cpp:202-218 | whatever is found is found behind a victim whose minimum output is met on the snapshot's reserves |
| `SearchBound.SearchNearOptimal` | knight/src/arbitrage/calculator.cpp:195-244 | for every other pool in the tried direction and every unwrapped input up to the limit the quoted profit is below the profit found (the minimum profit if nothing is found) plus 2 + 997*b2/(1000*a2), unless the pair is rejected although one or two units pay; the chosen input's own quote must not wrap |
| `SearchBound.ChosenInputBound` | knight/src/arbitrage/calculator.cpp:134-166 | the same bound for one pair, also when the chosen input returns nothing at all |
| `LedgerInvariant.MoveEffect` | blockchain/src/tokens/SandboxERC20.sol:63-70 | a transfer succeeds if and only if the receiver is not zero and the sender can pay; it moves exactly the amount and conserves the supply |
| `LedgerInvariant.TransferFromEffect` | blockchain/src/tokens/SandboxERC20.sol:50-61 | the same with the allowance, which is spent unless unlimited, and no other allowance changes |
| `LedgerInvariant.MintEffect` | blockchain/src/tokens/SandboxERC20.sol:31-37 | supply and one balance grow by the amount |
| `LedgerInvariant.GetAmountOutEffect` | blockchain/src/dexes/SandboxDex.sol:78-89 | the checked quote is the integer quote, or reverts exactly when a value is zero or does not fit |
| `LedgerInvariant.SwapAForBAccepts` | blockchain/src/dexes/SandboxDex.sol:50-62 | a swap succeeds if and only if the quote and the trader's funds allow it: never for lack of pool balance, reserve underflow or overflow |
| `LedgerInvariant.SwapBForAAccepts` | blockchain/src/dexes/SandboxDex.sol:64-76 | the same in the other direction |
| `LedgerInvariant.SwapAForBEffect` | blockchain/src/dexes/SandboxDex.sol:50-62 | the two transfers and the booked reserves of a successful swap, and nothing else |
| `LedgerInvariant.SwapBForAEffect` | blockchain/src/dexes/SandboxDex.sol:64-76 | the same in the other direction |
| `LedgerInvariant.SwapExactInShape` | blockchain/src/dexes/SandboxDex.sol:103-127 | the shared swap body is one transferFrom and one transfer of the exact quote |
| `LedgerInvariant.TradeKeepsWorld` | blockchain/src/dexes/SandboxDex.sol:103-127 | a pool that books what moved keeps all pools backed and all pool allowances at zero |
| `LedgerInvariant.CallTransferFromKeepsWorld` | blockchain/src/tokens/SandboxERC20.sol:50-61 | transferFrom never takes from a pool |
| `LedgerInvariant.SeedEffect` | blockchain/src/dexes/SandboxDex.sol:37-48 | seeding books exactly the two deposits and keeps the invariant |
| `Backrun.BackrunAccepts` | blockchain/src/backrun/SandboxBackrun.sol:40-76 | executeBackrun succeeds if and only if its guards hold, both quotes go through and the output covers input and minimum profit |
| `Backrun.BackrunEffect` | blockchain/src/backrun/SandboxBackrun.sol:40-76 | TokenA only moves from buying to selling pool, TokenB grows by exactly the profit, both allowances end at zero, both pools are booked |
| `Backrun.BackrunNeedsPriceGap` | blockchain/src/backrun/SandboxBackrun.sol:40-76 | success implies 997^2*buy.reserveA*sell.reserveB > 1000^2*buy.reserveB*sell.reserveA |
| `CallAcceptance.MintAccepts` | blockchain/src/tokens/SandboxERC20.sol:31-37 | minting succeeds if and only if the minter mints to an address that is not zero and the supply stays a word |
| `CallAcceptance.SeedAccepts` | blockchain/src/dexes/SandboxDex.sol:37-48 | seeding succeeds if and only if both deposits are positive, held and granted to the pool, whatever the pool holds already |
| `CallAcceptance.WithdrawAccepts` | blockchain/src/backrun/SandboxBackrun.sol:78-84 | a withdrawal succeeds if and only if the operator asks, neither address is zero, the token exists and the executor holds the amount |
| `CallAcceptance.ExecAccepts` | blockchain/src/backrun/SandboxBackrun.sol:40-84 | on a consistent ledger a transaction of any of the nine kinds succeeds if and only if its sender can sign and the state before it meets the call's conditions |
| `CallAcceptance.ExecDoes` | blockchain/src/tokens/SandboxERC20.sol:31-70 | what a successful call of each kind moves, grants, books and leaves alone |
| `LedgerRuns.SwapAForBGrows` | blockchain/src/dexes/SandboxDex.sol:50-62 | every successful swap strictly increases reserveA*reserveB |
| `LedgerRuns.SwapBForAGrows` | blockchain/src/dexes/SandboxDex.sol:64-76 | the same in the other direction |
| `LedgerRuns.SeedGrows` | blockchain/src/dexes/SandboxDex.sol:37-48 | seeding strictly increases it |
| `LedgerRuns.ExecKeepsWorld` | blockchain/src/backrun/SandboxBackrun.sol:40-84 | every transaction of every kind keeps the ledger invariant and lets no product shrink |
| `LedgerRuns.SupplyOnlyByMint` | blockchain/src/tokens/SandboxERC20.sol:31-37 | only a mint by the minter changes a supply, by exactly the amount |
| `LedgerRuns.RunKeepsWorld` | blockchain/src/dexes/SandboxDex.sol:37-76 | over every run supplies are the sums of balances, reserves are backed, pools grant nothing, no product shrinks and a seeded pool stays seeded |
| `LedgerRuns.NoFreeReserves` | blockchain/src/dexes/SandboxDex.sol:50-89 | a run that leaves one reserve no higher leaves the other no lower |
| `LedgerRuns.GenesisOk` | blockchain/src/dexes/SandboxDex.sol:28-35 | a fresh deployment satisfies the invariant |
| `ExecutorFunds.OnlyWithdrawalsSpend` | blockchain/src/backrun/SandboxBackrun.sol:40-84 | no transaction but a withdrawal takes any token from the executor, and none leaves an allowance of it behind |
| `ExecutorFunds.WithdrawEffect` | blockchain/src/backrun/SandboxBackrun.sol:78-84 | a withdrawal needs the operator and moves exactly the amount |
| `ExecutorFunds.HoldingsNeverShrink` | blockchain/src/backrun/SandboxBackrun.sol:40-88 | in every run without withdrawals the executor's holdings of every token never shrink |
| `ExecutorFunds.RunKeepsClosed` | blockchain/src/backrun/SandboxBackrun.sol:64-68 | in every run nobody holds an allowance from the executor between transactions |
| `Contracts.Chain.MintTo` | blockchain/src/tokens/SandboxERC20.sol:31-37 | the writes of mint give the state of the value model, and failure is its revert |
| `Contracts.Chain.ApproveFor` | blockchain/src/tokens/SandboxERC20.sol:39-43 | one allowance slot is written |
| `Contracts.Chain.MoveBalance` | blockchain/src/tokens/SandboxERC20.sol:63-70 | debit stored before the credit is read, as in the value model |
| `Contracts.Chain.MoveAllowed` | blockchain/src/tokens/SandboxERC20.sol:50-61 | allowance written, then the transfer |
| `Contracts.Chain.AddLiquidity` | blockchain/src/dexes/SandboxDex.sol:37-48 | two deposits and two reserve writes give the value model's state |
| `Contracts.Chain.TradeExactIn` | blockchain/src/dexes/SandboxDex.sol:103-119 | quote, checks and the two transfers |
| `Contracts.Chain.TradeAForB` | blockchain/src/dexes/SandboxDex.sol:50-62 | swap and two reserve writes |
| `Contracts.Chain.TradeBForA` | blockchain/src/dexes/SandboxDex.sol:64-76 | swap and two reserve writes |
| `Contracts.Chain.RunBackrun` | blockchain/src/backrun/SandboxBackrun.sol:40-76 | the step-by-step backrun gives the value model's state and outputs |
| `Contracts.Chain.Withdraw` | blockchain/src/backrun/SandboxBackrun.sol:78-84 | operator-only transfer out of the executor |
| `Contracts.Chain.Transact` | blockchain/src/backrun/SandboxBackrun.sol:40-84 | every write of a transaction stays or none does |
| `Contracts.Chain.TransactAll` | blockchain/src/dexes/SandboxDex.sol:37-76 | a block of transactions ends in the state of the value model, still consistent, with no product smaller |
| `Refinement.VictimSwapAgrees` | knight/src/arbitrage/calculator.cpp:56-92 | a swap that succeeds on chain from the snapshot's reserves is predicted with exactly the contract's new reserves |
| `SearchAcceptance.VictimPredictedExactly` | blockchain/src/dexes/SandboxDex.sol:50-76 | from the snapshot's reserves and on a quote that does not wrap a victim succeeds on chain if and only if it is accepted by the calculator, funded, and its output is not zero |
| `Refinement.DirectionStaysRejectedOnChain` | blockchain/src/dexes/SandboxDex.sol:50-76 | a swap that succeeds on a consistent chain never wraps the predicted reserve, so the untried direction stays rejected |
| `Refinement.OpportunityExecutes` | blockchain/src/backrun/SandboxBackrun.sol:40-76 | an opportunity evaluated on the chain's reserves executes if and only if the executor's guards hold and no quote wraps |
| `Refinement.OpportunityOutputs` | knight/src/arbitrage/calculator.cpp:168-193 | and then both outputs and the profit are the expected ones |
| `Refinement.QuoteEqualsExecution` | knight/src/arbitrage/calculator.cpp:202-244 | from a succeeding victim swap and a found opportunity to the executed backrun: success if and only if funded, called by the operator and unwrapped, with the three expected fields |
| `Abi.Calldata.AppendUint256Word` | knight/src/encoder/encoder.cpp:12-17 | appends the 32 bytes of the value, most significant first |
| `Abi.Calldata.AppendAddressWord` | knight/src/encoder/encoder.cpp:19-29 | appends twelve zeros and the address, or refuses any other length and changes nothing |
| `Abi.EncodeExecuteBackrun` | knight/src/encoder/encoder.cpp:33-48 | 196 bytes that decode to the call, exactly for 20-byte addresses |
| `Abi.WordRoundTrip` | knight/src/encoder/encoder.cpp:12-17 | decoding an encoded word gives the value back |
| `Abi.BackrunRoundTrip` | knight/src/encoder/encoder.cpp:33-48 | a word-by-word decoder recovers all six fields, whatever follows them |
| `Abi.DecodedIsEncoded` | blockchain/src/backrun/SandboxBackrun.sol:40-47 | whatever the contract accepts is the encoding of what it reads |
| `Abi.EncodingIsInjective` | knight/src/encoder/encoder.cpp:33-48 | different calls have different calldata |
| `Abi.DecodeSwapExact` | knight/src/decoder/decoder.cpp:12-45 | decodes a swap if and only if the input starts with its encoding and the kind matches |
| `Abi.DecodersAgree` | knight/src/decoder/decoder.cpp:12-45 | Knight's decoder accepts exactly the inputs for which the pool runs that kind of swap, with the same amounts |
| `AbiCalls.DispatchExact` | blockchain/src/backrun/SandboxBackrun.sol:40-84 | for every function of tokens, pools and executor: the contract reads a call out of a transaction if and only if it is the right contract and the calldata starts with the encoding of that call |
| `Abi.BackrunReachesExecutor` | knight/src/encoder/encoder.cpp:33-48 | the executor reads the encoded call out of the calldata |
| `CandidateFilter.FindPool` | knight/src/candidate/candidate_filter.cpp:78-85 | a configured pool with that address, or there is none |
| `CandidateFilter.FirstPool` | knight/src/candidate/candidate_filter.cpp:78-85 | of several configured pools of one address the first counts |
| `CandidateFilter.FilterAccepts` | knight/src/candidate/candidate_filter.cpp:38-59 | passes exactly transactions to a configured pool that start with a swap selector, with the right pool and kind |
| `CandidateFilter.FilterSnapshot` | knight/src/candidate/candidate_filter.cpp:61-76 | the loop keeps the two numbers and filters the list |
| `CandidateFilter.FilterAllMembers` | knight/src/candidate/candidate_filter.cpp:61-76 | exactly the accepted transactions pass |
| `CandidateFilter.FilterAllOrder` | knight/src/candidate/candidate_filter.cpp:61-76 | in the order of the snapshot |
| `CandidateState.IndexKeys` | knight/src/candidate/local_mempool.cpp:8-13 | filing candidates one by one gives exactly their numbers as keys |
| `CandidateState.LocalMempool.ApplySnapshot` | knight/src/candidate/local_mempool.cpp:8-26 | replaces candidates and boundary unless the snapshot is older |
| `CandidateState.LocalMempool.ApplyPendingTx` | knight/src/candidate/local_mempool.cpp:28-40 | files a candidate above the boundary |
| `CandidateState.LocalMempool.PopNextCandidate` | knight/src/candidate/local_mempool.cpp:57-67 | removes and returns the smallest number |
| `CandidateState.LocalMempool.Clear` | knight/src/candidate/local_mempool.cpp:48-55 | empty, boundary zero |
| `CandidateState.State.ApplySnapshot` | knight/src/candidate/state.cpp:8-28 | block, pools, validity and mempool change together or not at all |
| `CandidateState.State.ApplyPendingTx` | knight/src/candidate/state.cpp:30-40 | only in a valid state |
| `CandidateState.State.MarkInvalid` | knight/src/candidate/state.cpp:42-57 | clears everything unless the block is older |
| `CandidateState.State.PopNextSnapshot` | knight/src/candidate/state.cpp:59-72 | the earliest candidate with the current pools and block |
| `CandidateState.CandidateSource.MarkStateInvalid` | knight/src/candidate/candidate_source.cpp:336-356 | new state and owed notification of mark_state_invalid |
| `CandidateState.CandidateSource.ApplyStateSnapshot` | knight/src/candidate/candidate_source.cpp:358-381 | new state and owed notification of apply_state_snapshot |
| `CandidateState.CandidateSource.ApplyPendingCandidate` | knight/src/candidate/candidate_source.cpp:383-400 | new state and owed notification of apply_pending_candidate |
| `CandidateState.CandidateSource.CloseStateWaiters` | knight/src/candidate/candidate_source.cpp:138-146 | only the closed flag changes |
| `CandidateState.CandidateSource.WaitPopState` | knight/src/candidate/candidate_source.cpp:69-91 | what a look at the predicate takes and returns |
| `CandidateState.ClosedOnlyIfClosed` | knight/src/candidate/candidate_source.cpp:69-91 | CLOSED is reported if and only if the source was closed: the fallback is unreachable |
| `CandidateState.DeliveryShape` | knight/src/candidate/state.cpp:59-112 | a delivery is the pending empty invalid snapshot, or the current pools and block with the earliest candidate |
| `CandidateState.ApplySnapshotKeepsOk` | knight/src/candidate/candidate_source.cpp:358-381 | keeps: invalid means empty with boundary zero, a pending invalid flag means invalid, candidates filed under their numbers |
| `CandidateState.SnapshotDecides` | knight/src/candidate/candidate_source.cpp:358-381 | a snapshot is applied if and only if the source is open and neither its block nor its number is older; it then decides alone what is held, and a notification is owed exactly if the waiter can proceed |
| `CandidateState.RequestPoolSnapshots` | knight/src/candidate/candidate_source.cpp:290-334 | one snapshot per configured pool in order, or nothing exactly when one reply is missing |
| `Queue.Queue.TryPush` | knight/src/common/queue.h:24-42 | accepted if and only if open and below capacity, appended at the end |
| `Queue.Queue.WaitPop` | knight/src/common/queue.h:44-58 | the first item; empty only when closed and drained |
| `Queue.Queue.Close` | knight/src/common/queue.h:60-68 | only the closed flag changes |
| `Queue.FirstInFirstOut` | knight/src/common/queue.h:24-68 | in every run popped items followed by the contents are the accepted pushes in order, and the size stays within capacity |
| `Sync.NoLostWakeup` | knight/src/common/queue.h:24-68 | in every run no thread sleeps on a true predicate without a notification still owed, for queue and state waiter |
| `Sync.WakeKept` | knight/src/candidate/candidate_source.cpp:336-400 | every step keeps that |
| `Sync.OwedNotificationWakes` | knight/src/candidate/candidate_source.cpp:352-355 | the owed notification is enabled and wakes the sleeper |
| `Sync.ClosedForGood` | knight/src/candidate/candidate_source.cpp:138-146 | after close no step of any thread changes the state or delivers anything |
| `SyncPartition.SnapshotHolds` | knight/src/candidate/candidate_source.cpp:185-213 | a filtered snapshot files exactly the relevant records pending when it was taken |
| `SyncPartition.OnlyOldBlocksAreRefused` | knight/src/candidate/candidate_source.cpp:208-226 | in every reachable state an open source refuses a snapshot if and only if its block is older than the one seen, never for its number |
| `SyncPartition.InvKept` | knight/src/candidate/candidate_source.cpp:148-288 | every step of every thread keeps the accounting |
| `SyncPartition.SnapshotPlusStream` | knight/src/candidate/candidate_source.cpp:169-261 | in every run, whenever the state is valid, closed or not: held, popped since the snapshot, on their way and dropped are together, without overlap, the relevant records pending at the snapshot and all later ones |
| `SyncPartition.NoCandidateLost` | knight/src/candidate/local_mempool.cpp:8-40 | without drops the first three are exactly those records, each in one place |
| `SyncCoherence.DeliveryIsUsable` | knight/src/candidate/candidate_source.cpp:290-334 | a valid delivery lists every configured pool with the reserves of the block it names, its candidate's pool among them, and the candidate is a record of the builder |
| `SyncCoherence.ReadAllShows` | knight/src/candidate/candidate_source.cpp:290-334 | the pools read at a block show that block's reserves, in configured order |
| `SyncArrivals.DeliverDecides` | knight/src/candidate/candidate_source.cpp:276-288 | a streamed message joins the queue as the last item, with a notification owed, if and only if the queue is open and below ten thousand; otherwise it is lost; nothing else changes |
| `SyncArrivals.BlockArrives` | knight/src/candidate/candidate_source.cpp:148-167 | from every state with an empty open queue an announced block reaches the core thread, asleep or not |
| `SyncArrivals.TransactionDecides` | knight/src/candidate/candidate_source.cpp:236-261 | from every such state a streamed transaction is filed in its own words, beside the candidates already held and with a notification, if and only if the state is open and valid, its number is above the snapshot's and it is a swap on a configured pool; only a closed source loses it |
| `SyncArrivals.TransactionArrives` | knight/src/candidate/candidate_source.cpp:69-89 | if nothing else is held, two more steps deliver it to the consumer, asleep or not, with the block and the pools of the state |
| `SyncArrivals.SpuriousIsHarmless` | knight/src/candidate/candidate_source.cpp:69-75 | a spurious wakeup makes a waiter look, and with nothing to take it sleeps again with nothing changed |
| `SyncBlocks.FailureInvalidates` | knight/src/candidate/candidate_source.cpp:336-356 | a failed block that is not older than the one seen leaves an open source with nothing but its number, invalid, with the invalid snapshot pending and a notification owed; any other failure changes nothing |
| `SyncBlocks.FailureIsDelivered` | knight/src/candidate/state.cpp:42-72 | the consumer's next look then returns the empty invalid state of that block |
| `SyncBlocks.NothingOldAfterFailure` | knight/src/candidate/candidate_source.cpp:169-261 | over every continuation: after a failure on block n every valid delivery names block n or a later one and carries a snapshot that was applied after the failure |
| `SyncBlocks.BlockDecides` | knight/src/candidate/candidate_source.cpp:169-226 | a block event that is not older than the one seen becomes the state, with the reserves of every configured pool and exactly the relevant pending records, if both replies arrive and every pool can be read; otherwise it invalidates the state |
| `SyncBlocks.ReadAllExactly` | knight/src/candidate/candidate_source.cpp:290-334 | the pools are read if and only if each configured one exists at that block with reserves that are words |
| `SyncBlocks.ClosingIsSeen` | knight/src/candidate/candidate_source.cpp:138-146 | closing the source reaches the consumer from every state, asleep or not: its next look returns CLOSED and delivers nothing |
| `SyncBlocks.CoreStops` | knight/src/common/queue.h:44-68 | closing an empty queue stops the core thread, asleep or not |
| `SyncOrder.PopsOrder` | knight/src/candidate/local_mempool.cpp:57-67 | popping the smallest number keeps the popped numbers increasing and below all held ones |
| `SyncRuns.GoodKept` | knight/src/candidate/candidate_source.cpp:148-288 | every step keeps accounting, wakeups, coherence and order |
| `SyncRuns.EveryRunIsGood` | knight/src/candidate/candidate_source.cpp:69-400 | in every run: accounting, coherent deliveries with block numbers that never decrease, increasing candidates for an in-order stream, no lost wakeup, CLOSED exactly when closed |
| `TxChain.MineBlockKeeps` | builder/block_builder/anvil.py:17-29 | mining adds one consistent block on the head, keeps all older ones and all receipts, and nonces only grow |
| `TxChain.BlockAccounts` | builder/block_builder/anvil.py:17-29 | a block loses no transaction of the pool and runs none twice: each waits on or has its one receipt |
| `TxChain.RunTxKept` | blockchain/src/backrun/SandboxBackrun.sol:40-84 | a transaction that does not ask for a withdrawal takes nothing from the executor |
| `TxExact.RunTxExact` | blockchain/src/dexes/SandboxDex.sol:37-76 | a transaction succeeds if and only if its calldata asks for a call whose conditions the state meets and its sender can sign; it does what that call does, and nothing otherwise |
| `BuilderMempool.Mempool.AddTransaction` | builder/block_builder/mempool.py:42-55 | appends a pending record with the next number |
| `BuilderMempool.Mempool.GetTransaction` | builder/block_builder/mempool.py:57-59 | the record of that id, or there is none |
| `BuilderMempool.Mempool.MarkMined` | builder/block_builder/mempool.py:61-77 | rewrites status, hash and receipt of one record, or fails and changes nothing |
| `BuilderMempool.Mempool.PendingSnapshot` | builder/block_builder/mempool.py:79-88 | the last number and the pending records |
| `BuilderMempool.SnapshotIsExact` | builder/block_builder/mempool.py:79-88 | exactly the pending records, in increasing order, all at most snapshotSeq |
| `Bundles.BundleBuilder.ParseBundle` | builder/block_builder/bundle.py:45-57 | the first bad item decides the error |
| `BuilderAnswers.AddDecides` | builder/block_builder/mempool.py:42-55 | a transaction under a new id is filed behind the others as pending with the next number, and nothing else changes |
| `BuilderAnswers.SendDecides` | builder/block_builder/anvil.py:17-18 | a transaction that somebody sends waits in the pool if and only if its nonce is not used |
| `BuilderAnswers.ParseDecides` | builder/block_builder/bundle.py:18-57 | from identifiers and statuses: a bundle parses if and only if it has items and each is a transaction or names a pending record; the code is 409 if and only if the first bad item names a settled record, and 400 otherwise |
| `BuilderAnswers.SimulateAnswers` | builder/block_builder/bundle.py:64-92 | every answer of a simulation by its inputs: a result, 409, 501, 400 or 502, each if and only if |
| `BuilderAnswers.MineAnswers` | builder/block_builder/bundle.py:94-117 | the same for a submission |
| `BuilderAnswers.ResultReports` | builder/block_builder/bundle.py:127-164 | each line of a result carries the item's id, its hash and the receipt found; included, reverted or missing exactly by that receipt, and the bundle is included if and only if all are |
| `Bundles.ParsedItemsArePending` | builder/block_builder/bundle.py:18-37 | every accepted reference names a pending record and carries its transaction |
| `Bundles.BundleBuilder.Execute` | builder/block_builder/bundle.py:119-138 | send all, mine, collect receipts, with every RPC fault |
| `Bundles.BundleBuilder.SimulateBundle` | builder/block_builder/bundle.py:64-92 | state and answer of a simulation on every exit |
| `Bundles.BundleBuilder.MineBundle` | builder/block_builder/bundle.py:94-117 | state and answer of a submission on every exit |
| `Bundles.SimulateChangesNothing` | builder/block_builder/bundle.py:64-92 | a simulation changes the builder if and only if it gets to execute, its first transaction has an unused nonce and is not kept out by a failing RPC, and the reverting RPC fails without effect; it never changes the mempool |
| `Bundles.ExecutionLeavesTrace` | builder/block_builder/bundle.py:119-138 | executing a bundle changes the chain if and only if its first transaction lands |
| `Bundles.SimulationLeavesBlock` | builder/block_builder/bundle.py:64-92 | on every builder a simulation of one usable transaction leaves its block on the chain when only evm_revert fails |
| `Bundles.SendAllOk` | builder/block_builder/bundle.py:119-123 | a bundle is sent completely if and only if no nonce in it is used and no send fails |
| `Bundles.MineEffect` | builder/block_builder/bundle.py:94-117 | pinned to the head; exactly the referenced records leave pending; included if and only if every transaction is |
| `Bundles.FailedMineKeepsMempool` | builder/block_builder/bundle.py:94-117 | any other answer leaves all records as they were |
| `Bundles.MineIsLater` | builder/block_builder/bundle.py:18-37 | a record that left pending is never changed again by a bundle |
| `Bundles.ReceiptsAreFresh` | builder/block_builder/bundle.py:127-138 | a reported receipt belongs to the block just mined |
| `Bundles.SimulationForetells` | builder/block_builder/bundle.py:64-117 | on the same state a submission whose RPCs answer returns what was simulated |
| `Bundles.ServeAllKeeps` | builder/block_builder/mempool.py:42-88 | in every run of requests numbers are 1..last in insertion order, blocks are only added, and a settled record never changes |
| `TxComposer.TxComposer.RefreshNonce` | knight/src/backrun/tx_composer.cpp:22-31 | the answered nonce, or an error that changes nothing |
| `TxComposer.TxComposer.Compose` | knight/src/backrun/tx_composer.cpp:33-68 | the transaction with the next nonce, or one of the two errors |
| `TxComposer.TxComposer.MarkNonceUsed` | knight/src/backrun/tx_composer.cpp:70-75 | the nonce grows by one if there is one |
| `TxComposer.ComposedRunsOpportunity` | knight/src/backrun/tx_composer.cpp:33-68 | running the composed transaction is calling the executor with the opportunity, on any state |
| `TxComposer.VictimRunsSwap` | knight/src/decoder/decoder.cpp:12-45 | running the victim is the swap that Knight decoded |
| `Outcome.IncludedBundleEarns` | builder/block_builder/bundle.py:119-138 | an included pair that heads its block, on the reserves that priced it, swaps as decoded and earns exactly the expected outputs and profit; the rest of the block runs on the state it leaves |
| `Outcome.IncludedBackrunGains` | builder/block_builder/bundle.py:119-138 | with any pool and in any order an included backrun ran as composed on some state of the block, with at least its minimum profit in TokenB and no less of any token; without withdrawals in the block the same from head to head |
| `Outcome.BackrunGains` | blockchain/src/backrun/SandboxBackrun.sol:40-76 | a backrun leaves every token of the executor but TokenB exactly as it was |
| `TipOrder.ExpectedProfitBorder` | builder/block_builder/bundle.py:119-138 | an included pair in an empty pool earns the expected profit if and only if the backrun tips no more than its victim or its route returns as much on the head's reserves |
| `TipOrder.OutbidPairGains` | builder/block_builder/bundle.py:119-138 | an included backrun that outbids its victim gains what its route returns on the head's reserves, less its input |
| `Pipeline.Runtime.OnState` | knight/src/runtime/runtime.cpp:111-196 | from a received state to the bundle or back to the wait, through every skip of the loop |
| `RuntimeDecides.PrepareDecides` | knight/src/runtime/runtime.cpp:111-196 | a bundle is prepared if and only if the state is valid, its candidate's calldata is a swap of its kind, the search finds an opportunity for it that can be encoded, and the nonce is known |
| `RuntimeDecides.FoundIsPrepared` | knight/src/runtime/runtime.cpp:176-196 | and then the bundle is the candidate followed by the bot's next transaction carrying that opportunity, pinned to the block of the state |
| `RuntimeDecides.ReceiveDecides` | knight/src/runtime/runtime.cpp:98-122 | a look ends the loop exactly for a closed source and starts a simulation exactly for a delivery that is prepared |
| `RuntimeDecides.StopDecides` | knight/src/runtime/runtime.cpp:80-109 | a stop waits for the iteration at work; between two iterations it ends the loop, and in every continuation Knight prepares, sends and counts nothing more |
| `BForAScenario.MirrorIsPrepared` | knight/src/runtime/runtime.cpp:134-196 | a concrete B-for-A victim behind which a bundle in the opposite direction is prepared |
| `Pipeline.Runtime.OnSimulation` | knight/src/runtime/runtime.cpp:198-234 | retry, skip or submit after an attempt to simulate |
| `RuntimeDecides.SimulationDecides` | knight/src/runtime/runtime.cpp:198-234 | a simulation leads to a submission if and only if its answer is readable and included, and is tried again if and only if attempts are left and it went unanswered or failed with another code than 409 |
| `RuntimeDecides.SubmissionDecides` | knight/src/runtime/runtime.cpp:236-274 | the same retries, and the nonce advances exactly with a readable result |
| `RuntimeDecides.ThreeAttempts` | knight/src/builder/rest_client.cpp:114-157 | over sequences of unanswered attempts a simulation is given up after exactly three |
| `RuntimeDecides.ThreeSubmissions` | knight/src/builder/rest_client.cpp:114-157 | and so is a submission |
| `Pipeline.Runtime.OnSubmission` | knight/src/runtime/runtime.cpp:236-274 | retry or finish after an attempt to submit; the nonce counts as used exactly with a result |
| `PipelineSafety.DoKeeps` | knight/src/runtime/runtime.cpp:96-275 | every step of chain, builder, network and Knight keeps the invariant |
| `PipelineSafety.PinnedExecution` | knight/src/runtime/runtime.cpp:236-275 | in every run every Knight bundle on which a submission mined a block ran on the head whose reserves priced it, after a simulation of the identical bundle, in the same iteration and on the same head, with status included |
| `PipelineSafety.NoncesAreConsecutive` | knight/src/backrun/tx_composer.cpp:22-75 | in every run the nonces of submissions with a result are consecutive from the initial one, and the next one follows them |
| `PipelineSafety.UndisturbedSubmissionIsIncluded` | knight/src/runtime/runtime.cpp:198-251 | if nothing touched the builder since the simulation, the submission is included |
| `PipelineSafety.MinedBundleEarns` | knight/src/runtime/runtime.cpp:96-275 | in every run an included Knight bundle that heads its block (backrun tipping no more than its victim, everybody else in the pool less) earned exactly what the search expected |
| `PipelineSafety.MinedBackrunGains` | knight/src/runtime/runtime.cpp:96-275 | in every run an included Knight backrun, with any pool and order, ran as composed and brought at least its minimum profit; with no withdrawal in the pool so did the whole block |
| `NonceLag.StaleIsRefused` | builder/block_builder/bundle.py:119-123 | a bundle with a used nonce gets no result |
| `NonceLag.MinesBlockExactly` | builder/block_builder/bundle.py:94-138 | a submission mines a block if and only if it parses, is pinned to the head, no nonce in it is used, no send fails and the RPC to mine takes effect |
| `NonceLag.ReportedExactly` | builder/block_builder/bundle.py:94-138 | a mined block is reported if and only if the RPCs to mine and to fetch receipts answer |
| `NonceLag.LostResultLags` | knight/src/runtime/runtime.cpp:236-251 | one step of a submission: without a result it makes a nonce in step lag if and only if it reached the builder and mined a block |
| `NonceLag.SimulationLags` | knight/src/runtime/runtime.cpp:198-211 | one step of a simulation: it makes a nonce in step lag if and only if it reached the builder, executed completely, mined, and the reverting RPC failed without effect |
| `NonceLag.OthersLag` | builder/block_builder/bundle.py:119-125 | one request of somebody else: it makes a nonce in step lag if and only if it leaves a block on the chain and a transaction of the bot with that nonce was waiting in the pool |
| `NonceLag.LagCauses` | knight/src/runtime/runtime.cpp:236-251 | a mined submission makes it lag whenever the answer is lost or garbled, or the RPC to mine or to fetch receipts fails |
| `NonceLag.LagIsForever` | knight/src/backrun/tx_composer.cpp:22-75 | once the nonce lags no submission of any continuation returns a result |
| `KnightRuns.ReceiptsArePinned` | knight/src/runtime/runtime.cpp:96-275 | in every run in which nobody else signs for the bot: each transaction of the bot with a receipt, from the chain's initial nonce on, comes from a prepared job whose block plus one is the receipt's block, sent by a request that had seen it simulated as included exactly if it was a submission |
| `KnightRuns.LagMeansReceipt` | knight/src/backrun/tx_composer.cpp:22-75 | in every run that starts in step: Knight lags if and only if one of its own transactions with the nonce it is about to use has a receipt |
| `KnightRuns.LagBorder` | knight/src/runtime/runtime.cpp:198-251 | in every run that starts in step the nonce is never ahead, and while it is in step an act makes it lag if and only if it is one of the three kinds, on its inputs |
| `KnightRuns.UnminedSubmissionWaits` | builder/block_builder/bundle.py:119-125 | a submission that mines no block leaves the bot's transaction waiting if and only if one waited before or its own send took effect |
| `KnightRuns.DoKeepsRun` | knight/src/runtime/runtime.cpp:96-275 | every step keeps: at most one transaction of the bot ahead of Knight's nonce, every waiting one with an unused nonce sent on the current head, every used nonce with a receipt |
| `Signer.MineBlockKeepsSigner` | knight/src/backrun/tx_composer.cpp:33-75 | a block keeps that and leaves no transaction of the signer with an unused nonce waiting |
| `FirstRun.ReadyToSubmit` | knight/src/runtime/runtime.cpp:96-234 | for every setting in which the search finds something and the builder simulates the bundle as included, eight acts lead from the start to its submission |
| `Scenario.SomebodyEarns` | knight/src/runtime/runtime.cpp:96-275 | a concrete run from the start with one mined bundle that meets the hypotheses of MinedBundleEarns and earns the expected 10832 TokenB |
| `Scenario.OutbiddingEarnsLess` | knight/src/backrun/tx_composer.cpp:33-68 | the same run with a backrun that tips more than its victim: included, but it earns 4624 |
| `Scenario.WaitingSwapEarnsLess` | builder/block_builder/bundle.py:119-138 | a rival's swap with an equal tip waits in the pool: the bundle is included, but the executor earns 8051 |
| `LagScenario.LostAnswerLags` | knight/src/runtime/runtime.cpp:236-251 | the same run with the last answer lost: the bundle is mined and the nonce lags |
| `LagScenario.SimulationStays` | builder/block_builder/bundle.py:64-92 | a run whose only request is a simulation that cannot be taken back: Knight's transaction has a receipt, no submission and no simulation result exist, and the nonce lags |
| `LagScenario.LaterBlockLags` | builder/block_builder/bundle.py:119-138 | a run whose submission is sent but not mined: the nonce is still in step, and the next block of anybody makes it lag |

## Left out

- Sockets, TLS, HTTP and JSON: a request is a step that may not arrive, may fail, or whose answer may be lost or unreadable.
- The websocket source and the pending feed: a channel that may delay, reorder or lose each message once; duplicates are not modelled.
- The polling loop of the block syncer: a block event for any block up to the head may arrive at any time.
- Start-up of CandidateSource (waiting until feed and syncer are ready), logging, configuration, signals and threads as such.
- The inner mutexes of State and LocalMempool: they are only taken under the outer one, which makes each operation one step.
- Gas, base fees, ETH balances and values, event logs and timestamps; of the fees only the tip that orders a block is kept.
- Anvil: blocks are ordered by tip, ties by arrival (TxChain.BlockOrder); a transaction whose nonce is not the next one stays in the pool, and none is lost or run twice (TxChain.BlockAccounts); evm_revert restores the whole chain including the pool.
- Transactions to addresses other than tokens, pools and executor, and calldata that none of the modelled functions accept, count as reverted without effect; so do view functions sent as transactions.
- Contract addresses and address zero never sign transactions.
- The ABI library behind decode_swap is not part of this model; bytes after the last argument are taken to be ignored, as the contracts do.
- Sequence numbers, block numbers and nonces are unbounded instead of 64 bits wide.
- BuilderMempool.Mempool.AddTransaction: takes the fresh identifier as an argument, because the source draws a random one.
- CandidateState.CandidateSource.WaitPopState: models the wait from each evaluation of its predicate on; the blocking itself is in module Sync.
- Queue.Queue.WaitPop: models the wait from each evaluation of its predicate on; the blocking itself is in module Sync.
- Optimality.RejectionComplete: one way only; the exact condition for the rounded quotes is RejectionBorder.RejectionBorder.
- SearchBound.SearchNearOptimal: says nothing about a pair whose chosen input has a quote that wraps, because that quote is unrelated to the route.
- Optimality.OtherDirectionBorder: "only if" needs reserves below 2^256/10^6, because the pool that tells the two prices apart must itself hold words; Optimality.PriceBorder has no bound.
- Bundles.BundleBuilder.Execute: the twenty polls for a receipt are one outcome, found or missing.
