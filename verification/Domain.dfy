/** The records that Knight, the builder and the chain exchange. */
module Domain {
  import opened Common

  datatype Pool = Pool(address: Address, tokenA: Address, tokenB: Address)

  datatype PoolSnapshot = PoolSnapshot(pool: Pool, reserveA: U256, reserveB: U256)

  datatype Swap =
    | SwapExactAForB(amountIn: U256, minAmountOut: U256)
    | SwapExactBForA(amountIn: U256, minAmountOut: U256)

  datatype SwapKind = AForB | BForA

  datatype Transaction = Transaction(from: Address, to: Option<Address>, nonce: nat, tip: nat, input: Bytes)

  datatype PendingTransaction = PendingTransaction(mempoolTxId: string, seqNum: nat, tx: Transaction)

  datatype Candidate = Candidate(tx: PendingTransaction, pool: Pool, swapKind: SwapKind)

  datatype StateSnapshot = StateSnapshot(
    valid: bool,
    blockNumber: Option<nat>,
    pools: seq<PoolSnapshot>,
    candidate: Option<Candidate>)

  datatype Params = Params(maxAmountInB: U256, minProfitB: U256, minOutputBps: nat)

  datatype Opportunity = Opportunity(
    buyPool: Pool,
    sellPool: Pool,
    amountInB: U256,
    minAmountOutA: U256,
    minAmountOutB: U256,
    minProfitB: U256,
    expectedAmountOutA: U256,
    expectedAmountOutB: U256,
    expectedProfitB: U256)
}
