/** What an announcement comes to when nothing waits before it: a pending transaction reaches the
    state and the consumer, and a block reaches the core thread, whoever sleeps at that moment. */
module SyncArrivals {
  import opened Common
  import opened Domain
  import opened Abi
  import opened CandidateFilter
  import opened CandidateState
  import opened TxChain
  import opened BuilderMempool
  import opened Bundles
  import opened Sync
  import opened SyncPartition
  import Queue

  // ---------------------------------------------------------------- the door of the queue

  /** The queue of events is bounded by ten thousand. */
  predicate Roomy(q: Queue.View<Event>)
  {
    !q.closed && |q.items| < 10000
  }

  /** The pending transaction of record k, in the record's own words. */
  function Announced(m: MempoolState, k: nat): PendingTransaction
    requires 0 < k <= |m.records|
  {
    var r := m.records[k - 1];
    PendingTransaction(r.id, r.seqNum, r.tx)
  }

  /** A streamed message joins the queue at its end, with a notification owed, if and only if the
      queue is open and not full; otherwise it is lost. Nothing else changes. */
  lemma DeliverDecides(s: Sys, k: nat)
    requires 0 < k <= |s.builder.mempool.records| && k !in s.streamed
    ensures var s' := Next(s, Deliver(k));
            && (if Roomy(s.queue)
                then && s'.queue == Queue.View(s.queue.items + [TxEvent(Announced(s.builder.mempool, k))], false)
                     && s'.queueOwed == s.queueOwed + 1 && s'.lost == s.lost
                else s'.queue == s.queue && s'.queueOwed == s.queueOwed && s'.lost == s.lost + {k})
            && s' == s.(streamed := s.streamed + {k}, queue := s'.queue, queueOwed := s'.queueOwed, lost := s'.lost,
                        ordered := s'.ordered)
  {
  }

  /** So does the announcement of a block that is or was the head. */
  lemma NewBlockDecides(s: Sys, n: nat)
    requires n <= Head(s.builder.chain)
    ensures var s' := Next(s, NewBlock(n));
            && (if Roomy(s.queue)
                then s'.queue == Queue.View(s.queue.items + [BlockEvent(n)], false) && s'.queueOwed == s.queueOwed + 1
                else s'.queue == s.queue && s'.queueOwed == s.queueOwed)
            && s' == s.(queue := s'.queue, queueOwed := s'.queueOwed)
  {
  }

  // ---------------------------------------------------------------- from the queue to the core thread

  /** The core thread takes the only event, asleep or not. */
  lemma CoreTakes(s: Sys, e: Event)
    requires s.core.Polling? && s.queue == Queue.View([e], false) && s.queueOwed > 0
    ensures var s' := Next(Next(s, QueueNotify), Poll);
            s' == s.(queue := Queue.View([], false), queueOwed := s.queueOwed - 1,
                     core := if e.TxEvent? then OnTx(e.tx) else OnBlock(e.number))
  {
    assert Next(s, QueueNotify).core.Polling? && !Next(s, QueueNotify).core.phase.Asleep?;
    assert [e][1..] == [];
  }

  /** An announced block reaches the core thread, which then decides it (SyncBlocks.BlockDecides). */
  lemma BlockArrives(s: Sys, n: nat)
    requires s.core.Polling? && s.queue == Queue.View([], false) && n <= Head(s.builder.chain)
    ensures Next(Next(Next(s, NewBlock(n)), QueueNotify), Poll) == s.(core := OnBlock(n))
  {
    NewBlockDecides(s, n);
    CoreTakes(Next(s, NewBlock(n)), BlockEvent(n));
  }

  // ---------------------------------------------------------------- from the core thread to the state

  /** Knight keeps a pending transaction if the state is valid and open, its number is above the
      snapshot's, and it is a swap on a configured pool. */
  predicate Keeps(s: Sys, k: nat)
  {
    !s.source.closed && s.source.state.valid && Boundary(s) < k && Relevant(s.pools, s.builder.mempool, k)
  }

  /** Everything of the state but the candidates. */
  predicate SameButHeld(v: SourceView, v': SourceView)
  {
    && v'.closed == v.closed && v'.invalidPending == v.invalidPending
    && v'.state.valid == v.state.valid && v'.state.blockNumber == v.state.blockNumber
    && v'.state.pools == v.state.pools && v'.state.mempool.snapshotSeq == v.state.mempool.snapshotSeq
  }

  /** Record k is filed, in its own words, for a configured pool that it calls. */
  predicate FiledAs(pools: seq<Pool>, m: MempoolState, k: nat, c: Candidate)
  {
    && 0 < k <= |m.records| && c.tx == Announced(m, k)
    && c.pool in pools && c.tx.tx.to == Some(c.pool.address) && SwapSelector(c.swapKind) <= c.tx.tx.input
  }

  /** The handled transaction is filed under its number, and the consumer notified, if and only if
      Knight keeps it; the other candidates stay, and only a closed source loses it. */
  lemma HandleDecides(s: Sys, k: nat)
    requires 0 < k <= |s.builder.mempool.records| && s.builder.mempool.records[k - 1].seqNum == k
    requires s.core == OnTx(Announced(s.builder.mempool, k))
    ensures var s' := Next(s, HandleTx);
            && s'.consumer == s.consumer && s'.delivered == s.delivered && s'.pools == s.pools
            && s'.lost == (if s.source.closed && Relevant(s.pools, s.builder.mempool, k) then s.lost + {k} else s.lost)
            && (if Keeps(s, k)
                then && k in Held(s') && FiledAs(s.pools, s.builder.mempool, k, Held(s')[k])
                     && Held(s') == Held(s)[k := Held(s')[k]]
                     && SameButHeld(s.source, s'.source) && s'.core == Notifying
                else s'.source == s.source && s'.core == Polling(Outside))
  {
    var tx := Announced(s.builder.mempool, k);
    FilterAccepts(s.pools, tx);
    assert tx == AsPending(s.builder.mempool.records[k - 1]);
  }

  /** The whole way of a streamed transaction, from every state in which nothing waits before it. */
  lemma TransactionDecides(s: Sys, k: nat)
    requires Inv(s) && 0 < k <= |s.builder.mempool.records| && k !in s.streamed
    requires s.core.Polling? && s.queue == Queue.View([], false)
    ensures var s' := Next(Next(Next(Next(s, Deliver(k)), QueueNotify), Poll), HandleTx);
            && s'.queue == s.queue && s'.consumer == s.consumer && s'.delivered == s.delivered
            && s'.lost == (if s.source.closed && Relevant(s.pools, s.builder.mempool, k) then s.lost + {k} else s.lost)
            && (if Keeps(s, k)
                then && k in Held(s') && FiledAs(s.pools, s.builder.mempool, k, Held(s')[k])
                     && Held(s') == Held(s)[k := Held(s')[k]]
                     && SameButHeld(s.source, s'.source) && s'.core == Notifying
                else s'.source == s.source && s'.core == Polling(Outside))
  {
    var s1 := Next(s, Deliver(k));
    DeliverDecides(s, k);
    CoreTakes(s1, TxEvent(Announced(s.builder.mempool, k)));
    HandleDecides(Next(Next(s1, QueueNotify), Poll), k);
  }

  // ---------------------------------------------------------------- from the state to the consumer

  /** The only candidate is what the consumer gets next, asleep or not, with the block and the
      pools of the state. */
  lemma ConsumerTakes(s: Sys, k: nat)
    requires s.core.Notifying? && !s.source.closed && s.source.state.valid && !s.source.invalidPending
    requires k in Held(s) && forall j :: j in Held(s) ==> j == k
    ensures var s' := Next(Next(s, Notify), Look);
            && s'.delivered == s.delivered
                 + [StateSnapshot(true, s.source.state.blockNumber, s.source.state.pools, Some(Held(s)[k]))]
            && Held(s') == map[] && s'.consumer == Outside
  {
    var t := Next(s, Notify);
    assert t.source == s.source && !t.consumer.Asleep?;
  }

  /** From the stream to the consumer in six steps. */
  lemma TransactionArrives(s: Sys, k: nat) returns (c: Candidate)
    requires Inv(s) && 0 < k <= |s.builder.mempool.records| && k !in s.streamed
    requires s.core.Polling? && s.queue == Queue.View([], false)
    requires Keeps(s, k) && Held(s) == map[] && !s.source.invalidPending
    ensures FiledAs(s.pools, s.builder.mempool, k, c)
    ensures var s' := Next(Next(Next(Next(Next(Next(s, Deliver(k)), QueueNotify), Poll), HandleTx), Notify), Look);
            s'.delivered
            == s.delivered + [StateSnapshot(true, s.source.state.blockNumber, s.source.state.pools, Some(c))]
  {
    TransactionDecides(s, k);
    var s4 := Next(Next(Next(Next(s, Deliver(k)), QueueNotify), Poll), HandleTx);
    c := Held(s4)[k];
    ConsumerTakes(s4, k);
  }

  // ---------------------------------------------------------------- spurious wakeups

  /** A spurious wakeup makes a waiter look, and with nothing to take it sleeps again as before. */
  lemma SpuriousIsHarmless(s: Sys)
    ensures s.consumer.Asleep? && !CandidateState.Ready(s.source) ==>
              Next(s, Spurious).consumer.Awake? && Next(Next(s, Spurious), Look) == s
    ensures s.core == Polling(Asleep) && !Queue.Ready(s.queue) ==>
              Next(s, QueueSpurious).core == Polling(Awake) && Next(Next(s, QueueSpurious), Poll) == s
  {
    if s.consumer.Asleep? && !CandidateState.Ready(s.source) {
      assert SourceTake(s.source).received.Waiting?;
    }
  }
}
