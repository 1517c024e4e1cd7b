/** With an in-order stream, the candidates popped between two snapshots come out in increasing
    order. Whether the stream has been in order so far is part of the machine's state. */
module SyncOrder {
  import opened Domain
  import opened CandidateState
  import opened BuilderMempool
  import opened Sync
  import opened SyncPartition

  /** The events of the queue are in order and all after the last one taken. */
  ghost predicate QueueOrdered(items: seq<Event>, after: nat)
  {
    && (forall i :: 0 <= i < |items| && items[i].TxEvent? ==> after < items[i].tx.seqNum)
    && (forall i, j :: 0 <= i < j < |items| && items[i].TxEvent? && items[j].TxEvent? ==>
          items[i].tx.seqNum < items[j].tx.seqNum)
  }

  function LastTaken(core: Core, processed: nat): nat
  {
    if core.OnTx? then core.tx.seqNum else processed
  }

  ghost predicate Prefix(streamed: set<nat>)
  {
    forall j, k :: j in streamed && 0 < k < j ==> k in streamed
  }

  ghost predicate StreamOrdered(streamed: set<nat>, items: seq<Event>, core: Core, processed: nat)
  {
    && Prefix(streamed)
    && QueueOrdered(items, LastTaken(core, processed))
    && (core.OnTx? ==> processed < core.tx.seqNum)
    && (LastTaken(core, processed) > 0 ==> LastTaken(core, processed) in streamed)
  }

  predicate Reached(boundary: nat, processed: nat, k: nat) { k <= boundary || k <= processed }

  /** Popped since the snapshot: strictly increasing, and before everything still held. */
  ghost predicate PoppedOrdered(held: map<nat, Candidate>, popped: seq<nat>, boundary: nat, processed: nat)
  {
    && (forall k :: k in held ==> Reached(boundary, processed, k))
    && (forall i :: 0 <= i < |popped| ==> Reached(boundary, processed, popped[i]))
    && (forall i, j :: 0 <= i < j < |popped| ==> popped[i] < popped[j])
    && (forall i, k :: 0 <= i < |popped| && k in held ==> popped[i] < k)
  }

  ghost predicate OrderOk(s: Sys)
  {
    s.ordered ==>
      && StreamOrdered(s.streamed, s.queue.items, s.core, s.processed)
      && (s.source.state.valid ==> PoppedOrdered(Held(s), s.popped, Boundary(s), s.processed))
  }

  lemma StreamsNext(streamed: set<nat>, items: seq<Event>, core: Core, processed: nat, k: nat)
    requires StreamOrdered(streamed, items, core, processed) && k !in streamed
    requires forall j :: 0 < j < k ==> j in streamed
    ensures StreamOrdered(streamed + {k}, items, core, processed)
    ensures forall j :: j in streamed ==> j < k || k == 0
  {
  }

  lemma QueueNext(s: Sys, k: nat, e: Event)
    requires QueueOrdered(s.queue.items, LastTaken(s.core, s.processed))
    requires StreamOk(s) && e.TxEvent? && e.tx.seqNum == k > LastTaken(s.core, s.processed)
    requires forall j :: j in s.streamed ==> j < k
    ensures QueueOrdered(s.queue.items + [e], LastTaken(s.core, s.processed))
  {
  }

  lemma OrderDeliver(s: Sys, k: nat)
    requires OrderOk(s) && StreamOk(s) && MempoolOk(s.builder.mempool)
    ensures OrderOk(StepDeliver(s, k))
  {
    var s' := StepDeliver(s, k);
    if CanStream(s, k) && s'.ordered {
      StreamsNext(s.streamed, s.queue.items, s.core, s.processed, k);
      QueueNext(s, k, EventOf(s.builder.mempool, k));
    }
  }

  lemma OrderLose(s: Sys, k: nat)
    requires OrderOk(s)
    ensures OrderOk(StepLose(s, k))
  {
  }

  lemma OrderNewBlock(s: Sys, n: nat)
    requires OrderOk(s)
    ensures OrderOk(StepNewBlock(s, n))
  {
  }

  lemma TakesFirst(items: seq<Event>, after: nat)
    requires QueueOrdered(items, after) && items != []
    ensures QueueOrdered(items[1..], after)
    ensures items[0].TxEvent? ==> after < items[0].tx.seqNum && QueueOrdered(items[1..], items[0].tx.seqNum)
  {
  }

  lemma OrderPoll(s: Sys)
    requires OrderOk(s) && StreamOk(s)
    ensures OrderOk(StepPoll(s))
  {
    if s.ordered && s.queue.items != [] {
      TakesFirst(s.queue.items, LastTaken(s.core, s.processed));
      if s.queue.items[0].TxEvent? {
        assert TxOk(s, s.queue.items[0].tx);
      }
    }
  }

  lemma OrderHandleTx(s: Sys)
    requires OrderOk(s) && s.core.OnTx?
    ensures OrderOk(StepHandleTx(s))
  {
    HandleTxFiles(s);
    FiledOrder(s, StepHandleTx(s));
  }

  lemma FiledOrder(s: Sys, s': Sys)
    requires OrderOk(s) && s.core.OnTx? && Filed(s, s') && s'.processed == s.core.tx.seqNum
    ensures OrderOk(s')
  {
  }

  lemma OrderApply(s: Sys)
    requires OrderOk(s) && HandsOk(s) && s.core.HasSnapshot?
    ensures OrderOk(StepApply(s))
  {
    var s' := StepApply(s);
    if SourceApplySnapshot(s.source, s.core.snapshot, s.core.pools).accepted {
      forall k | k in Held(s')
        ensures k <= Boundary(s')
      {
        SnapshotHolds(s.pools, s.core.source, k);
      }
    }
  }

  lemma OrderLook(s: Sys)
    requires OrderOk(s) && SourceOk(s.source)
    ensures OrderOk(StepLook(s))
  {
    if TakesCandidate(s) {
      var k := LookPops(s);
      var s' := StepLook(s);
      if s.ordered {
        PopsOrder(Held(s), s.popped, Boundary(s), s.processed, k);
      }
    } else {
      QuietTake(s);
    }
  }

  /** A look that takes no candidate leaves a valid state as it is. */
  lemma QuietTake(s: Sys)
    requires OrderOk(s) && SourceOk(s.source) && !TakesCandidate(s)
    ensures OrderOk(StepLook(s))
  {
  }

  lemma PopsOrder(held: map<nat, Candidate>, popped: seq<nat>, boundary: nat, processed: nat, k: nat)
    requires PoppedOrdered(held, popped, boundary, processed)
    requires k in held && forall j :: j in held ==> k <= j
    ensures PoppedOrdered(Without(held, k), popped + [k], boundary, processed)
  {
  }

  lemma OrderMarkInvalid(s: Sys)
    requires OrderOk(s) && s.core.Failing?
    ensures OrderOk(StepMarkInvalid(s))
  {
  }

  lemma OrderQuiet(s: Sys, s': Sys)
    requires OrderOk(s)
    requires s'.source.state == s.source.state
    requires s'.popped == s.popped && s'.processed == s.processed && s'.ordered == s.ordered
    requires s'.streamed == s.streamed && s'.queue.items == s.queue.items
    requires s'.core == s.core || (!s.core.OnTx? && !s'.core.OnTx?)
    ensures OrderOk(s')
  {
  }
}
