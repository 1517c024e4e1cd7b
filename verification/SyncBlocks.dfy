/** What a block event comes to: every announced block either becomes the state, with its reserves and
    its pending candidates, or invalidates it, and after a failed block nothing older is delivered. */
module SyncBlocks {
  import opened Common
  import opened Domain
  import opened Ledger
  import opened CandidateFilter
  import opened CandidateState
  import opened TxChain
  import opened BuilderMempool
  import opened Bundles
  import opened Sync
  import opened SyncPartition

  // ---------------------------------------------------------------- a failed block

  /** The state after a block could not be synchronised: nothing is left but its number, and the
      consumer is owed the news. */
  function Invalidated(n: nat): SourceView
  {
    SourceView(StateView(false, Some(n), [], MempoolView(map[], 0)), false, true)
  }

  /** A failure on a block that is not older than the one seen forgets everything and owes a
      notification; any other failure changes nothing. */
  lemma FailureInvalidates(s: Sys, n: nat)
    requires s.core == Failing(n)
    ensures var s' := StepMarkInvalid(s);
            if !s.source.closed && (s.source.state.blockNumber.None? || s.source.state.blockNumber.value <= n)
            then s' == s.(source := Invalidated(n), core := Notifying)
            else s' == s.(core := Polling(Outside))
  {
  }

  /** The consumer is then told so: its next look returns the empty, invalid state of that block. */
  lemma FailureIsDelivered(s: Sys, n: nat)
    requires s.source == Invalidated(n) && !s.consumer.Asleep?
    ensures StepLook(s).delivered == s.delivered + [StateSnapshot(false, Some(n), [], None)]
    ensures !StepLook(s).source.invalidPending && StepLook(s).source.state == s.source.state
  {
  }

  // ---------------------------------------------------------------- nothing older afterwards

  /** The block and the pools were applied after the first `from` snapshots, and for block n or later. */
  predicate AppliedSince(applied: seq<Applied>, from: nat, n: nat, number: Option<nat>, pools: seq<PoolSnapshot>)
  {
    number.Some? && number.value >= n
    && exists i :: from <= i < |applied| && applied[i] == Applied(number.value, pools)
  }

  /** From the failure on: the state names block n or a later one; whatever is valid, in the state or
      delivered since, was applied since. */
  ghost predicate Fresh(s: Sys, from: nat, first: nat, n: nat)
  {
    && s.source.state.blockNumber.Some? && s.source.state.blockNumber.value >= n
    && (s.source.state.valid ==> AppliedSince(s.applied, from, n, s.source.state.blockNumber, s.source.state.pools))
    && from <= |s.applied| && first <= |s.delivered|
    && (forall j :: first <= j < |s.delivered| && s.delivered[j].valid ==>
          AppliedSince(s.applied, from, n, s.delivered[j].blockNumber, s.delivered[j].pools))
  }

  lemma MoreAppliedSince(applied: seq<Applied>, more: seq<Applied>, from: nat, n: nat, number: Option<nat>,
                         pools: seq<PoolSnapshot>)
    requires AppliedSince(applied, from, n, number, pools) && applied <= more
    ensures AppliedSince(more, from, n, number, pools)
  {
    var i :| from <= i < |applied| && applied[i] == Applied(number.value, pools);
    assert more[i] == applied[i];
  }

  /** A step that leaves block, pools and validity of the state and both histories alone. */
  lemma FreshQuiet(s: Sys, s': Sys, from: nat, first: nat, n: nat)
    requires Fresh(s, from, first, n) && s'.applied == s.applied && s'.delivered == s.delivered
    requires var v, v' := s.source.state, s'.source.state;
             v'.valid == v.valid && v'.blockNumber == v.blockNumber && v'.pools == v.pools
    ensures Fresh(s', from, first, n)
  {
  }

  lemma FreshApply(s: Sys, from: nat, first: nat, n: nat)
    requires Fresh(s, from, first, n) && s.core.HasSnapshot? && s.core.snapshot.blockNumber == s.core.number
    ensures Fresh(StepApply(s), from, first, n)
  {
    var s' := StepApply(s);
    if SourceApplySnapshot(s.source, s.core.snapshot, s.core.pools).accepted {
      assert s'.applied[|s.applied|] == Applied(s.core.number, s.core.pools);
      forall j | first <= j < |s'.delivered| && s'.delivered[j].valid
        ensures AppliedSince(s'.applied, from, n, s'.delivered[j].blockNumber, s'.delivered[j].pools)
      {
        MoreAppliedSince(s.applied, s'.applied, from, n, s.delivered[j].blockNumber, s.delivered[j].pools);
      }
    } else {
      FreshQuiet(s, s', from, first, n);
    }
  }

  lemma FreshLook(s: Sys, from: nat, first: nat, n: nat)
    requires Fresh(s, from, first, n) && SourceOk(s.source)
    ensures Fresh(StepLook(s), from, first, n)
  {
    if SourceTake(s.source).received.Delivered? {
      DeliveryShape(s.source);
    }
  }

  lemma FreshMarkInvalid(s: Sys, from: nat, first: nat, n: nat)
    requires Fresh(s, from, first, n) && s.core.Failing?
    ensures Fresh(StepMarkInvalid(s), from, first, n)
  {
  }

  lemma FreshHandleTx(s: Sys, from: nat, first: nat, n: nat)
    requires Fresh(s, from, first, n)
    ensures Fresh(StepHandleTx(s), from, first, n)
  {
    if s.core.OnTx? {
      HandleTxFiles(s);
    }
    FreshQuiet(s, StepHandleTx(s), from, first, n);
  }

  lemma FreshOther(s: Sys, l: Label, from: nat, first: nat, n: nat)
    requires Fresh(s, from, first, n) && !l.Apply? && !l.Look? && !l.MarkInvalid? && !l.HandleTx?
    ensures Fresh(Next(s, l), from, first, n)
  {
    FreshQuiet(s, Next(s, l), from, first, n);
  }

  lemma FreshNext(s: Sys, l: Label, from: nat, first: nat, n: nat)
    requires Fresh(s, from, first, n) && Inv(s)
    ensures Fresh(Next(s, l), from, first, n)
  {
    match l
    case Apply => if s.core.HasSnapshot? { FreshApply(s, from, first, n); }
    case Look => FreshLook(s, from, first, n);
    case MarkInvalid => if s.core.Failing? { FreshMarkInvalid(s, from, first, n); }
    case HandleTx => FreshHandleTx(s, from, first, n);
    case _ => FreshOther(s, l, from, first, n);
  }

  lemma {:induction false} FreshRun(s: Sys, labels: seq<Label>, from: nat, first: nat, n: nat)
    requires Fresh(s, from, first, n) && Inv(s)
    ensures Fresh(Run(s, labels), from, first, n)
    decreases |labels|
  {
    if labels != [] {
      FreshRun(s, labels[..|labels| - 1], from, first, n);
      RunKeepsInv(s, labels[..|labels| - 1]);
      FreshNext(Run(s, labels[..|labels| - 1]), labels[|labels| - 1], from, first, n);
    }
  }

  /** Once an open source has failed on block n, whatever follows: every valid delivery names block n or
      a later one, and its pools and block are those of a snapshot applied after the failure. */
  lemma NothingOldAfterFailure(s: Sys, n: nat, labels: seq<Label>, j: nat)
    requires Inv(s) && s.core == Failing(n) && !s.source.closed
    requires s.source.state.blockNumber.Some? ==> s.source.state.blockNumber.value <= n
    requires var s' := Run(StepMarkInvalid(s), labels);
             |s.delivered| <= j < |s'.delivered| && s'.delivered[j].valid
    ensures var s' := Run(StepMarkInvalid(s), labels);
            AppliedSince(s'.applied, |s.applied|, n, s'.delivered[j].blockNumber, s'.delivered[j].pools)
  {
    var s1 := StepMarkInvalid(s);
    FailureInvalidates(s, n);
    KeptByMarkInvalid(s);
    FreshRun(s1, labels, |s.applied|, |s.delivered|, n);
  }

  // ---------------------------------------------------------------- a block settles

  /** The reserves of a pool can be read. */
  predicate Readable(w: World, pool: Pool)
  {
    pool.address in w.pools && w.pools[pool.address].reserveA < WORD && w.pools[pool.address].reserveB < WORD
  }

  lemma {:induction false} ReadAllExactly(w: World, pools: seq<Pool>)
    ensures ReadAll(w, pools).Some? <==> forall i :: 0 <= i < |pools| ==> Readable(w, pools[i])
    ensures ReadAll(w, pools).Some? ==>
              && |ReadAll(w, pools).value| == |pools|
              && forall i :: 0 <= i < |pools| && pools[i].address in w.pools ==>
                   var d := w.pools[pools[i].address];
                   d.reserveA < WORD && d.reserveB < WORD
                   && ReadAll(w, pools).value[i] == PoolSnapshot(pools[i], d.reserveA, d.reserveB)
    decreases |pools|
  {
    if pools != [] {
      var n := |pools| - 1;
      ReadAllExactly(w, pools[..n]);
      assert forall i :: 0 <= i < n ==> pools[..n][i] == pools[i];
    }
  }

  /** Both replies arrive and every configured pool can be read at the block. */
  predicate Settles(s: Sys, n: nat, pools: bool, mempool: bool)
  {
    && pools && mempool && n <= Head(s.builder.chain)
    && forall i :: 0 <= i < |s.pools| ==> Readable(BlockAt(s.builder.chain, n).world, s.pools[i])
  }

  /** The core thread's work on one block event; a step that is not enabled changes nothing. */
  function HandleBlock(pools: bool, mempool: bool): seq<Label>
  {
    [ReadPools(pools), RequestSnapshot(mempool), Apply, MarkInvalid]
  }

  lemma RunFour(s: Sys, a: Label, b: Label, c: Label, d: Label)
    ensures Run(s, [a, b, c, d]) == Next(Next(Next(Next(s, a), b), c), d)
  {
    var l4 := [a, b, c, d];
    assert l4[..3] == [a, b, c] && [a, b, c][..2] == [a, b] && [a, b][..1] == [a] && [a][..0] == [];
    assert Run(s, []) == s;
    assert Run(s, [a]) == Next(s, a);
    assert Run(s, [a, b]) == Next(Next(s, a), b);
    assert Run(s, [a, b, c]) == Next(Next(Next(s, a), b), c);
  }

  /** What is held after a block has settled: exactly the relevant pending records. */
  ghost predicate HoldsPending(s: Sys, held: map<nat, Candidate>)
  {
    forall k :: k in held <==>
      Relevant(s.pools, s.builder.mempool, k) && s.builder.mempool.records[k - 1].status.Pending?
  }

  ghost predicate Settled(s: Sys, s': Sys, n: nat)
  {
    var v := s'.source.state;
    && !s'.source.closed && !s'.source.invalidPending
    && v.valid && v.blockNumber == Some(n) && n <= Head(s.builder.chain)
    && ReadAll(BlockAt(s.builder.chain, n).world, s.pools) == Some(v.pools)
    && v.mempool.snapshotSeq == LastSeq(s) && HoldsPending(s, v.mempool.candidates)
    && (s'.core == if v.mempool.candidates == map[] then Polling(Outside) else Notifying)
  }

  /** The core thread with the pools read at block n, and with the snapshot taken after them. */
  function WithPools(s: Sys, n: nat, pools: seq<PoolSnapshot>): Sys { s.(core := HasPools(n, pools)) }

  function WithSnapshot(s: Sys, n: nat, pools: seq<PoolSnapshot>): Sys
  {
    var m := s.builder.mempool;
    s.(core := HasSnapshot(n, pools,
                           CandidateSnapshot(n, m.lastSeqNum, FilterAll(s.pools, PendingTxs(m.records))), m))
  }

  lemma BlockIsRead(s: Sys, n: nat) returns (pools: seq<PoolSnapshot>)
    requires s.core == OnBlock(n) && Settles(s, n, true, true)
    ensures ReadAll(BlockAt(s.builder.chain, n).world, s.pools) == Some(pools)
    ensures Next(s, ReadPools(true)) == WithPools(s, n, pools)
  {
    ReadAllExactly(BlockAt(s.builder.chain, n).world, s.pools);
    pools := ReadAll(BlockAt(s.builder.chain, n).world, s.pools).value;
  }

  lemma SnapshotIsTaken(s: Sys, n: nat, pools: seq<PoolSnapshot>)
    ensures Next(WithPools(s, n, pools), RequestSnapshot(true)) == WithSnapshot(s, n, pools)
  {
  }

  lemma HandsKept(s: Sys, n: nat, pools: seq<PoolSnapshot>)
    requires Inv(s) && s.core == OnBlock(n)
    ensures Inv(WithSnapshot(s, n, pools))
  {
    QuietStep(s, WithPools(s, n, pools));
    KeptByRequestSnapshot(WithPools(s, n, pools), true);
    SnapshotIsTaken(s, n, pools);
  }

  lemma GoodSteps(s: Sys, n: nat) returns (pools: seq<PoolSnapshot>)
    requires s.core == OnBlock(n) && Settles(s, n, true, true)
    ensures ReadAll(BlockAt(s.builder.chain, n).world, s.pools) == Some(pools)
    ensures Next(Next(Next(s, ReadPools(true)), RequestSnapshot(true)), Apply) == StepApply(WithSnapshot(s, n, pools))
  {
    pools := BlockIsRead(s, n);
    SnapshotIsTaken(s, n, pools);
  }

  lemma GoodBlock(s: Sys, n: nat, pools: seq<PoolSnapshot>)
    requires Inv(s) && s.core == OnBlock(n) && !s.source.closed && !Stale(s.source.state, n)
    requires n <= Head(s.builder.chain) && ReadAll(BlockAt(s.builder.chain, n).world, s.pools) == Some(pools)
    ensures Settled(s, StepApply(WithSnapshot(s, n, pools)), n)
  {
    HandsKept(s, n, pools);
    SnapshotApplies(s, WithSnapshot(s, n, pools), n);
  }

  lemma SnapshotApplies(s: Sys, s2: Sys, n: nat)
    requires Inv(s) && Inv(s2) && !s.source.closed && !Stale(s.source.state, n)
    requires s2.core.HasSnapshot? && s2.core.number == n && s2 == s.(core := s2.core)
    requires s2.core.source == s.builder.mempool && n <= Head(s.builder.chain)
    requires ReadAll(BlockAt(s.builder.chain, n).world, s.pools) == Some(s2.core.pools)
    ensures Settled(s, StepApply(s2), n)
  {
    OnlyOldBlocksAreRefused(s2);
    var held := StepApply(s2).source.state.mempool.candidates;
    forall k
      ensures k in held
              <==> Relevant(s.pools, s.builder.mempool, k) && s.builder.mempool.records[k - 1].status.Pending?
    {
      SnapshotHolds(s.pools, s.builder.mempool, k);
    }
  }

  lemma BadBlock(s: Sys, n: nat, pools: bool, mempool: bool)
    requires s.core == OnBlock(n) && !Settles(s, n, pools, mempool)
    ensures Next(Next(Next(s, ReadPools(pools)), RequestSnapshot(mempool)), Apply) == s.(core := Failing(n))
  {
    if n <= Head(s.builder.chain) {
      ReadAllExactly(BlockAt(s.builder.chain, n).world, s.pools);
    }
  }

  /** Every block event is decided: a block that is not older than the one seen becomes the state if
      both replies arrive and every configured pool can be read, and otherwise invalidates it. */
  lemma BlockDecides(s: Sys, n: nat, pools: bool, mempool: bool)
    requires Inv(s) && s.core == OnBlock(n) && !s.source.closed && !Stale(s.source.state, n)
    ensures var s' := Run(s, HandleBlock(pools, mempool));
            if Settles(s, n, pools, mempool) then Settled(s, s', n)
            else s' == s.(source := Invalidated(n), core := Notifying)
  {
    RunFour(s, ReadPools(pools), RequestSnapshot(mempool), Apply, MarkInvalid);
    if Settles(s, n, pools, mempool) {
      var read := GoodSteps(s, n);
      GoodBlock(s, n, read);
      AlreadySettled(s, StepApply(WithSnapshot(s, n, read)), n);
    } else {
      BadBlock(s, n, pools, mempool);
      FailureInvalidates(s.(core := Failing(n)), n);
    }
  }

  /** A block that has settled is not marked as failed. */
  lemma AlreadySettled(s: Sys, s': Sys, n: nat)
    requires Settled(s, s', n)
    ensures Next(s', MarkInvalid) == s'
  {
  }

  // ---------------------------------------------------------------- shutdown

  lemma RunThree(s: Sys, a: Label, b: Label, c: Label)
    ensures Run(s, [a, b, c]) == Next(Next(Next(s, a), b), c)
  {
    var l3 := [a, b, c];
    assert l3[..2] == [a, b] && [a, b][..1] == [a] && [a][..0] == [];
    assert Run(s, []) == s;
    assert Run(s, [a]) == Next(s, a);
    assert Run(s, [a, b]) == Next(Next(s, a), b);
  }

  /** Closing the source reaches the consumer from every state, asleep or not: its next look returns
      CLOSED and nothing is delivered any more. */
  lemma ClosingIsSeen(s: Sys)
    ensures var s' := Run(s, [CloseSource, CloseNotify, Look]);
            && s'.source == s.source.(closed := true) && s'.consumer == Outside && s'.delivered == s.delivered
            && SourceTake(s'.source).received.Closed?
  {
    var s1 := s.(source := s.source.(closed := true), closersOwed := s.closersOwed + 1);
    var s2 := s1.(closersOwed := s.closersOwed, consumer := Wake(s.consumer));
    ClosesSource(s);
    NotifiesClosing(s1);
    LookClosed(s2);
    RunThree(s, CloseSource, CloseNotify, Look);
  }

  lemma ClosesSource(s: Sys)
    ensures Next(s, CloseSource) == s.(source := s.source.(closed := true), closersOwed := s.closersOwed + 1)
  {
  }

  lemma NotifiesClosing(s: Sys)
    requires s.closersOwed > 0
    ensures Next(s, CloseNotify) == s.(closersOwed := s.closersOwed - 1, consumer := Wake(s.consumer))
  {
  }

  lemma LookClosed(s: Sys)
    requires s.source.closed && !s.consumer.Asleep?
    ensures Next(s, Look) == s.(consumer := Outside) && SourceTake(s.source).received.Closed?
  {
  }

  /** Closing the queue stops the core thread once nothing is left in it. */
  lemma CoreStops(s: Sys)
    requires s.core.Polling? && s.queue.items == []
    ensures Run(s, [CloseQueue, QueueNotify, Poll]).core == Stopped
  {
    RunThree(s, CloseQueue, QueueNotify, Poll);
  }
}
