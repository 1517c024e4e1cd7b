/** A transaction on the chain, from its calldata to its effect: when it succeeds and what it does. */
module TxExact {
  import opened Common
  import opened Domain
  import opened Ledger
  import opened LedgerInvariant
  import opened Abi
  import opened AbiCalls
  import opened CallAcceptance
  import opened TxChain

  /** The transaction is sent to the contract of the call and carries its encoding. */
  predicate Asks(w: World, tx: Transaction, call: Call)
  {
    tx.to.Some? && SentTo(w, call, tx.to.value) && CallEncodable(call) && CallData(call) <= tx.input
  }

  /** It asks for one call at most. */
  lemma AsksOnce(w: World, tx: Transaction, x: Call, y: Call)
    requires w.backrun !in w.pools && Asks(w, tx, x) && Asks(w, tx, y)
    ensures x == y
  {
    DispatchExact(w, tx.to.value, tx.input, x);
    DispatchExact(w, tx.to.value, tx.input, y);
  }

  /** A transaction succeeds if and only if it asks for a call that its sender may make on the state
      it meets; it then does what that call does, and nothing at all otherwise. */
  lemma RunTxExact(w: World, tx: Transaction)
    requires WorldOk(w)
    ensures RunTx(w, tx).success
            <==> CanSign(w, tx.from) && exists call :: Asks(w, tx, call) && Accepts(w, tx.from, call)
    ensures !RunTx(w, tx).success ==> RunTx(w, tx).world == w
    ensures forall call :: RunTx(w, tx).success && Asks(w, tx, call) ==> Does(w, tx.from, call, RunTx(w, tx).world)
  {
    if tx.to.Some? && DecodeCall(w, tx.to.value, tx.input).Some? {
      var call := DecodeCall(w, tx.to.value, tx.input).value;
      DispatchExact(w, tx.to.value, tx.input, call);
      ExecAccepts(w, tx.from, call);
      OnlyCall(w, tx, call);
      if Exec(w, tx.from, call).Some? {
        ExecDoes(w, tx.from, call, RunTx(w, tx).world);
      }
    } else {
      NoCall(w, tx);
    }
  }

  lemma OnlyCall(w: World, tx: Transaction, call: Call)
    requires w.backrun !in w.pools && Asks(w, tx, call)
    ensures forall other :: Asks(w, tx, other) ==> other == call
  {
    forall other | Asks(w, tx, other)
      ensures other == call
    {
      AsksOnce(w, tx, other, call);
    }
  }

  lemma NoCall(w: World, tx: Transaction)
    requires w.backrun !in w.pools && (tx.to.None? || DecodeCall(w, tx.to.value, tx.input).None?)
    ensures forall call :: !Asks(w, tx, call)
  {
    forall call
      ensures !Asks(w, tx, call)
    {
      if tx.to.Some? {
        DispatchExact(w, tx.to.value, tx.input, call);
      }
    }
  }
}
