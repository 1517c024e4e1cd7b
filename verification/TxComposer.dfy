/** knight/src/backrun/tx_composer.cpp: the nonce and the transaction that carries a backrun. */
module TxComposer {
  import opened Common
  import opened Domain
  import opened Ledger
  import opened Abi
  import opened TxChain
  import opened Refinement

  datatype BackrunConfig = BackrunConfig(bot: Address, contract: Address, tip: nat)

  datatype Composed = Composed(tx: Transaction) | NotInitialized | CallEncodingFailed

  function CallOf(o: Opportunity): BackrunCall
  {
    BackrunCall(o.buyPool.address, o.sellPool.address, o.amountInB, o.minAmountOutA, o.minAmountOutB, o.minProfitB)
  }

  function ComposeTx(config: BackrunConfig, nonce: Option<nat>, o: Opportunity): Composed
  {
    if nonce.None? then NotInitialized
    else match Encode(CallOf(o))
      case None => CallEncodingFailed
      case Some(calldata) =>
        Composed(Transaction(config.bot, Some(config.contract), nonce.value, config.tip, calldata))
  }

  class TxComposer {
    const config: BackrunConfig
    var nextNonce: Option<nat>

    constructor (c: BackrunConfig)
      ensures config == c && nextNonce == None
    {
      config, nextNonce := c, None;
    }

    /** refresh_nonce; `reply` is what the builder answers, if it answers. */
    method RefreshNonce(reply: Option<nat>) returns (ok: bool)
      modifies this
      ensures ok == reply.Some?
      ensures nextNonce == if ok then reply else old(nextNonce)
    {
      if reply.None? {
        return false;
      }
      nextNonce := reply;
      return true;
    }

    method Compose(o: Opportunity) returns (r: Composed)
      ensures r == ComposeTx(config, nextNonce, o)
    {
      if nextNonce.None? {
        return NotInitialized;
      }
      var calldata := EncodeExecuteBackrun(CallOf(o));
      if calldata.None? {
        return CallEncodingFailed;
      }
      return Composed(Transaction(config.bot, Some(config.contract), nextNonce.value, config.tip, calldata.value));
    }

    method MarkNonceUsed()
      modifies this
      ensures nextNonce == if old(nextNonce).Some? then Some(old(nextNonce).value + 1) else None
    {
      if nextNonce.Some? {
        nextNonce := Some(nextNonce.value + 1);
      }
    }
  }

  /** A decoded transaction runs its call. */
  lemma RunsCall(w: World, tx: Transaction, call: Call)
    requires tx.to.Some? && DecodeCall(w, tx.to.value, tx.input) == Some(call)
    ensures RunTx(w, tx)
            == match Exec(w, tx.from, call)
               case None => Ran(w, false)
               case Some(w') => Ran(w', true)
  {
  }

  function BackrunCallOf(o: Opportunity): Call
  {
    CBackrun(o.buyPool.address, o.sellPool.address, o.amountInB, o.minAmountOutA, o.minAmountOutB, o.minProfitB)
  }

  lemma ExecRunsBackrun(w: World, sender: Address, call: Call)
    requires CanSign(w, sender) && call.CBackrun?
    ensures Exec(w, sender, call)
            == ExecutedWorld(ExecuteBackrun(w, sender, call.buyPool, call.sellPool, call.amountInB,
                                            call.minAmountOutA, call.minAmountOutB, call.minProfitB))
  {
  }

  lemma ComposedShape(config: BackrunConfig, nonce: Option<nat>, o: Opportunity, tx: Transaction)
    requires ComposeTx(config, nonce, o) == Composed(tx)
    ensures Encodable(CallOf(o)) && tx.input == Encoded(CallOf(o))
    ensures tx.from == config.bot && tx.to == Some(config.contract) && nonce == Some(tx.nonce)
  {
  }

  /** Running the composed transaction is calling the executor with the opportunity, whatever the
      state of the chain. */
  lemma ComposedRunsOpportunity(w: World, config: BackrunConfig, nonce: Option<nat>, o: Opportunity, tx: Transaction)
    requires ComposeTx(config, nonce, o) == Composed(tx)
    requires config.contract == w.backrun && w.backrun !in w.pools && CanSign(w, config.bot)
    ensures RunTx(w, tx)
            == match ExecuteOpportunity(w, config.bot, o)
               case None => Ran(w, false)
               case Some(e) => Ran(e.world, true)
  {
    ComposedShape(config, nonce, o, tx);
    BackrunReachesExecutor(w, CallOf(o));
    RunsCall(w, tx, BackrunCallOf(o));
    ExecRunsBackrun(w, config.bot, BackrunCallOf(o));
  }

  /** Running a victim that Knight decoded is the swap Knight decoded. */
  lemma VictimRunsSwap(w: World, tx: Transaction, pool: Address, kind: SwapKind, swap: Swap)
    requires tx.to == Some(pool) && pool in w.pools && CanSign(w, tx.from)
    requires DecodeSwap(kind, tx.input) == Some(swap)
    ensures RunTx(w, tx)
            == match ExecuteSwap(w, tx.from, pool, swap)
               case None => Ran(w, false)
               case Some(s) => Ran(s.world, true)
  {
    DecodersAgree(w, pool, kind, tx.input);
    RunsCall(w, tx, SwapCall(pool, swap));
  }
}
