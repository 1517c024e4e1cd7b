/** Snapshot plus stream equals the builder: in a valid state every relevant record is in exactly
    one place, and nothing else is anywhere. */
module SyncPartition {
  import opened Common
  import opened Domain
  import opened CandidateFilter
  import opened CandidateState
  import opened BuilderMempool
  import opened Bundles
  import opened Sync
  import Queue

  // ---------------------------------------------------------------- events on their way

  /** This is what the builder says of one of its records. */
  predicate Known(m: MempoolState, tx: PendingTransaction)
  {
    0 < tx.seqNum <= |m.records| && tx == AsPending(m.records[tx.seqNum - 1])
  }

  /** An event is about an existing record that was streamed and not lost. */
  predicate TxOk(s: Sys, tx: PendingTransaction)
  {
    Known(s.builder.mempool, tx) && tx.seqNum in s.streamed && tx.seqNum !in s.lost
  }

  /** Every streamed record is numbered, and the queue holds each of its events once. */
  ghost predicate StreamOk(s: Sys)
  {
    && (forall k :: k in s.streamed ==> 0 < k <= |s.builder.mempool.records|)
    && s.lost <= s.streamed
    && (forall i :: 0 <= i < |s.queue.items| && s.queue.items[i].TxEvent? ==> TxOk(s, s.queue.items[i].tx))
    && (forall i, j :: 0 <= i < j < |s.queue.items| && s.queue.items[i].TxEvent? ==>
          s.queue.items[i] != s.queue.items[j])
    && (s.core.OnTx? ==> TxOk(s, s.core.tx) && TxEvent(s.core.tx) !in s.queue.items)
  }

  /** The event of record k has not been processed yet. */
  predicate InFlight(s: Sys, k: nat)
    requires 0 < k <= |s.builder.mempool.records|
  {
    || k !in s.streamed
    || EventOf(s.builder.mempool, k) in s.queue.items
    || (s.core.OnTx? && s.core.tx.seqNum == k)
  }

  lemma StreamDeliver(s: Sys, k: nat)
    requires StreamOk(s) && MempoolOk(s.builder.mempool)
    ensures StreamOk(StepDeliver(s, k))
  {
  }

  lemma StreamLose(s: Sys, k: nat)
    requires StreamOk(s)
    ensures StreamOk(StepLose(s, k))
  {
  }

  lemma StreamNewBlock(s: Sys, n: nat)
    requires StreamOk(s)
    ensures StreamOk(StepNewBlock(s, n))
  {
  }

  lemma StreamPoll(s: Sys)
    requires StreamOk(s)
    ensures StreamOk(StepPoll(s))
  {
  }

  lemma SameEvents(m: MempoolState, m': MempoolState, k: nat)
    requires Later(m, m') && 0 < k <= |m.records|
    ensures k <= |m'.records| && AsPending(m'.records[k - 1]) == AsPending(m.records[k - 1])
  {
  }

  lemma StreamLater(s: Sys, s': Sys)
    requires StreamOk(s) && s' == s.(builder := s'.builder) && Later(s.builder.mempool, s'.builder.mempool)
    ensures StreamOk(s')
  {
  }

  // ---------------------------------------------------------------- the partition

  /** A record that passes Knight's filter. */
  predicate Relevant(pools: seq<Pool>, m: MempoolState, k: nat)
  {
    0 < k <= |m.records| && Filter(pools, AsPending(m.records[k - 1])).Some?
  }

  function Boundary(s: Sys): nat { s.source.state.mempool.snapshotSeq }

  function Held(s: Sys): map<nat, Candidate> { s.source.state.mempool.candidates }

  /** Pending when the snapshot was taken, or submitted after it. */
  predicate Expected(s: Sys, k: nat)
  {
    k > Boundary(s) || (0 < k <= |s.base.records| && s.base.records[k - 1].status.Pending?)
  }

  function One(b: bool): nat { if b then 1 else 0 }

  /** In how many of the four places record k is: held, popped since the snapshot, on its way,
      or dropped. Events that the snapshot covers do not count. */
  function Places(s: Sys, k: nat): nat
    requires 0 < k <= |s.builder.mempool.records|
  {
    One(k in Held(s)) + One(k in s.popped)
    + One(k > Boundary(s) && InFlight(s, k)) + One(k > Boundary(s) && k in s.lost)
  }

  ghost predicate HeldOk(pools: seq<Pool>, m: MempoolState, held: map<nat, Candidate>)
  {
    forall k :: k in held ==>
      Relevant(pools, m, k) && Some(held[k]) == Filter(pools, AsPending(m.records[k - 1]))
  }

  ghost predicate PoppedOk(pools: seq<Pool>, m: MempoolState, popped: seq<nat>)
  {
    forall i :: 0 <= i < |popped| ==> Relevant(pools, m, popped[i])
  }

  /** The claim: a relevant record is in exactly one place if it is expected and in none if it is
      not, and only relevant records are held or popped. */
  ghost predicate Partition(s: Sys)
  {
    s.source.state.valid ==>
      && Boundary(s) == s.base.lastSeqNum <= LastSeq(s)
      && HeldOk(s.pools, s.builder.mempool, Held(s))
      && PoppedOk(s.pools, s.builder.mempool, s.popped)
      && (forall k :: Relevant(s.pools, s.builder.mempool, k) ==> Places(s, k) == One(Expected(s, k)))
  }

  /** A snapshot in the hands of the core thread is the filtered snapshot of the mempool it was
      taken from, and no event about a later record has been processed. */
  ghost predicate HandsOk(s: Sys)
  {
    s.core.HasSnapshot? ==>
      && MempoolOk(s.core.source) && Later(s.core.source, s.builder.mempool)
      && s.core.snapshot == CandidateSnapshot(s.core.number, s.core.source.lastSeqNum,
                                              FilterAll(s.pools, PendingTxs(s.core.source.records)))
      && (s.source.state.valid ==> Boundary(s) <= s.core.source.lastSeqNum)
      && (forall k :: s.core.source.lastSeqNum < k <= |s.builder.mempool.records| ==> InFlight(s, k) || k in s.lost)
  }

  ghost predicate Inv(s: Sys)
  {
    BuilderOk(s.builder) && SourceOk(s.source) && StreamOk(s) && HandsOk(s) && Partition(s)
  }

  lemma InitOk(pools: seq<Pool>, builder: BuilderState)
    requires BuilderOk(builder)
    ensures Inv(Init(pools, builder)) && WakeOk(Init(pools, builder))
  {
  }

  // ---------------------------------------------------------------- steps of the builder

  /** A step that only changes the builder moves no record that was there before. */
  lemma PlacesLater(s: Sys, s': Sys, k: nat)
    requires s' == s.(builder := s'.builder) && Later(s.builder.mempool, s'.builder.mempool)
    requires 0 < k <= |s.builder.mempool.records|
    ensures k <= |s'.builder.mempool.records| && Places(s', k) == Places(s, k)
    ensures InFlight(s', k) == InFlight(s, k)
    ensures Relevant(s'.pools, s'.builder.mempool, k) == Relevant(s.pools, s.builder.mempool, k)
  {
  }

  /** A new record is expected and on its way. */
  lemma PlacesNew(s: Sys, k: nat)
    requires StreamOk(s)
    requires HeldOk(s.pools, s.builder.mempool, Held(s)) && PoppedOk(s.pools, s.builder.mempool, s.popped)
    requires Boundary(s) <= |s.builder.mempool.records| < k
    ensures k !in Held(s) && k !in s.popped && k !in s.streamed && k !in s.lost
  {
  }

  lemma KeptByRequest(s: Sys, q: Bundles.Request)
    requires Inv(s)
    ensures Inv(s.(builder := Serve(s.builder, q)))
  {
    var s' := s.(builder := Serve(s.builder, q));
    var m, m' := s.builder.mempool, s'.builder.mempool;
    ServeKeeps(s.builder, q);
    StreamLater(s, s');
    RequestHands(s, s');
    if s.source.state.valid {
      RequestPartition(s, s');
    }
  }

  lemma RequestHands(s: Sys, s': Sys)
    requires HandsOk(s) && StreamOk(s) && s' == s.(builder := s'.builder)
    requires MempoolOk(s.builder.mempool) && Later(s.builder.mempool, s'.builder.mempool)
    ensures HandsOk(s')
  {
  }

  lemma RequestPartition(s: Sys, s': Sys)
    requires Partition(s) && StreamOk(s) && s.source.state.valid
    requires s' == s.(builder := s'.builder)
    requires MempoolOk(s.builder.mempool) && Later(s.builder.mempool, s'.builder.mempool)
    ensures Partition(s')
  {
    var n := |s.builder.mempool.records|;
    forall k: nat | Relevant(s'.pools, s'.builder.mempool, k)
      ensures Places(s', k) == One(Expected(s', k))
    {
      if k <= n {
        PlacesLater(s, s', k);
      } else {
        PlacesNew(s, k);
        assert !s.core.OnTx? || s.core.tx.seqNum != k;
      }
    }
    forall k: nat | k in Held(s) || k in s.popped
      ensures Relevant(s'.pools, s'.builder.mempool, k)
      ensures AsPending(s'.builder.mempool.records[k - 1]) == AsPending(s.builder.mempool.records[k - 1])
    {
      PlacesLater(s, s', k);
      SameEvents(s.builder.mempool, s'.builder.mempool, k);
    }
  }

  // ---------------------------------------------------------------- steps of the stream

  /** Each event is as much on its way or dropped as before, and never both. */
  ghost predicate SameFlights(s: Sys, s': Sys)
  {
    && s'.builder == s.builder
    && forall k :: 0 < k <= |s.builder.mempool.records| ==> SameFlight(s, s', k)
  }

  predicate SameFlight(s: Sys, s': Sys, k: nat)
    requires s'.builder == s.builder && 0 < k <= |s.builder.mempool.records|
  {
    && (InFlight(s', k) || k in s'.lost <==> InFlight(s, k) || k in s.lost)
    && !(InFlight(s', k) && k in s'.lost) && !(InFlight(s, k) && k in s.lost)
  }

  /** If no event changes its whereabouts and the state is the same, nothing changes. */
  lemma SamePartition(s: Sys, s': Sys)
    requires Partition(s) && SameFlights(s, s')
    requires s'.pools == s.pools && s'.source.state == s.source.state && s'.base == s.base && s'.popped == s.popped
    ensures Partition(s')
  {
    if s.source.state.valid {
      forall k: nat | Relevant(s'.pools, s'.builder.mempool, k)
        ensures Places(s', k) == One(Expected(s', k))
      {
        assert Relevant(s.pools, s.builder.mempool, k) && Places(s, k) == One(Expected(s, k));
        assert SameFlight(s, s', k);
      }
    }
  }

  lemma SameHands(s: Sys, s': Sys)
    requires HandsOk(s) && SameFlights(s, s') && s'.pools == s.pools
    requires s'.core == s.core || !s'.core.HasSnapshot?
    requires s'.source.state.valid ==> s.source.state.valid && Boundary(s') == Boundary(s)
    ensures HandsOk(s')
  {
    if s'.core.HasSnapshot? {
      forall k | s'.core.source.lastSeqNum < k <= |s'.builder.mempool.records|
        ensures InFlight(s', k) || k in s'.lost
      {
        assert InFlight(s, k) || k in s.lost;
        assert SameFlight(s, s', k);
      }
    }
  }

  lemma KeptByDeliver(s: Sys, k: nat)
    requires Inv(s)
    ensures Inv(StepDeliver(s, k))
  {
    var s' := StepDeliver(s, k);
    StreamDeliver(s, k);
    if CanStream(s, k) {
      forall j | 0 < j <= |s.builder.mempool.records|
        ensures SameFlight(s, s', j)
      {
        DeliverPlaces(s, k, j);
      }
      SamePartition(s, s');
      SameHands(s, s');
    }
  }

  lemma DeliverPlaces(s: Sys, k: nat, j: nat)
    requires StreamOk(s) && CanStream(s, k) && 0 < j <= |s.builder.mempool.records|
    requires MempoolOk(s.builder.mempool)
    ensures SameFlight(s, StepDeliver(s, k), j)
  {
  }

  lemma KeptByLose(s: Sys, k: nat)
    requires Inv(s)
    ensures Inv(StepLose(s, k))
  {
    var s' := StepLose(s, k);
    StreamLose(s, k);
    if CanStream(s, k) {
      forall j | 0 < j <= |s.builder.mempool.records|
        ensures SameFlight(s, s', j)
      {
        NotBoth(s, j);
        assert EventOf(s.builder.mempool, j) in s.queue.items ==> j in s.streamed && j !in s.lost;
      }
      SamePartition(s, s');
      SameHands(s, s');
    }
  }

  lemma NotBoth(s: Sys, k: nat)
    requires StreamOk(s) && 0 < k <= |s.builder.mempool.records| && MempoolOk(s.builder.mempool)
    ensures !(InFlight(s, k) && k in s.lost)
  {
  }

  lemma KeptByNewBlock(s: Sys, n: nat)
    requires Inv(s)
    ensures Inv(StepNewBlock(s, n))
  {
    var s' := StepNewBlock(s, n);
    StreamNewBlock(s, n);
    forall k | 0 < k <= |s.builder.mempool.records|
      ensures SameFlight(s, s', k)
    {
      NotBoth(s, k);
    }
    SamePartition(s, s');
    SameHands(s, s');
  }

  lemma KeptByPoll(s: Sys)
    requires Inv(s)
    ensures Inv(StepPoll(s))
  {
    var s' := StepPoll(s);
    StreamPoll(s);
    forall k | 0 < k <= |s.builder.mempool.records|
      ensures SameFlight(s, s', k)
    {
      NotBoth(s, k);
      PollPlaces(s, k);
    }
    SamePartition(s, s');
    SameHands(s, s');
  }

  lemma PollPlaces(s: Sys, k: nat)
    requires StreamOk(s) && 0 < k <= |s.builder.mempool.records| && MempoolOk(s.builder.mempool)
    ensures InFlight(StepPoll(s), k) == InFlight(s, k)
  {
  }

  // ---------------------------------------------------------------- steps of the core thread

  /** What handling an event does to the state: nothing, or the candidate is filed. */
  ghost predicate Filed(s: Sys, s': Sys)
    requires s.core.OnTx?
  {
    var c := Filter(s.pools, s.core.tx);
    var m, m' := s.source.state.mempool, s'.source.state.mempool;
    && s' == s.(source := s'.source, core := s'.core, processed := s'.processed, lost := s'.lost)
    && s'.lost == (if c.Some? && s.source.closed then s.lost + {s.core.tx.seqNum} else s.lost)
    && (s'.core.Notifying? || s'.core.Polling?)
    && s'.source.closed == s.source.closed && s'.source.state.valid == s.source.state.valid
    && s'.source.state.blockNumber == s.source.state.blockNumber && s'.source.state.pools == s.source.state.pools
    && (if c.Some? && s.source.state.valid && !s.source.closed && s.core.tx.seqNum > m.snapshotSeq
        then m' == MempoolView(m.candidates[s.core.tx.seqNum := c.value], m.snapshotSeq)
        else s'.source == s.source)
  }

  lemma HandleTxFiles(s: Sys)
    requires s.core.OnTx?
    ensures Filed(s, StepHandleTx(s))
  {
  }

  lemma KeptByHandleTx(s: Sys)
    requires Inv(s) && s.core.OnTx?
    ensures Inv(StepHandleTx(s))
  {
    var s' := StepHandleTx(s);
    HandleTxFiles(s);
    if Filter(s.pools, s.core.tx).Some? {
      ApplyPendingKeepsOk(s.source, Filter(s.pools, s.core.tx).value);
    }
    if s.source.state.valid {
      FiledPartition(s, s');
    }
  }

  lemma FiledPartition(s: Sys, s': Sys)
    requires Inv(s) && s.core.OnTx? && Filed(s, s') && s.source.state.valid
    ensures Partition(s')
  {
    forall j: nat | Relevant(s'.pools, s'.builder.mempool, j)
      ensures Places(s', j) == One(Expected(s', j))
    {
      FiledPlaces(s, s', j);
    }
  }

  lemma FiledPlaces(s: Sys, s': Sys, j: nat)
    requires Inv(s) && s.core.OnTx? && Filed(s, s') && s.source.state.valid
    requires Relevant(s.pools, s.builder.mempool, j)
    ensures Places(s', j) == One(Expected(s', j))
  {
  }

  lemma KeptByReadPools(s: Sys, answered: bool)
    requires Inv(s)
    ensures Inv(StepReadPools(s, answered))
  {
    var s' := StepReadPools(s, answered);
    QuietStep(s, s');
  }

  /** A step of the core thread or the consumer between other steps. */
  lemma QuietStep(s: Sys, s': Sys)
    requires Inv(s)
    requires s'.pools == s.pools && s'.builder == s.builder && s'.source == s.source
    requires s'.base == s.base && s'.popped == s.popped && s'.streamed == s.streamed && s'.lost == s.lost
    requires s'.queue.items == s.queue.items
    requires s'.core == s.core || (!s.core.OnTx? && !s'.core.OnTx? && !s'.core.HasSnapshot?)
    ensures Inv(s')
  {
    QuietFlights(s, s');
    SamePartition(s, s');
    SameHands(s, s');
  }

  lemma QuietFlights(s: Sys, s': Sys)
    requires StreamOk(s) && MempoolOk(s.builder.mempool)
    requires s'.builder == s.builder && s'.streamed == s.streamed && s'.lost == s.lost
    requires s'.queue.items == s.queue.items
    requires s'.core == s.core || (!s.core.OnTx? && !s'.core.OnTx?)
    ensures SameFlights(s, s') && StreamOk(s')
  {
  }

  lemma KeptByRequestSnapshot(s: Sys, answered: bool)
    requires Inv(s)
    ensures Inv(StepRequestSnapshot(s, answered))
  {
    var s' := StepRequestSnapshot(s, answered);
    if s.core.HasPools? && answered {
      LaterSelf(s.builder.mempool);
      QuietFlights(s, s');
      SamePartition(s, s');
    } else {
      QuietStep(s, s');
    }
  }

  lemma LaterSelf(m: MempoolState)
    ensures Later(m, m)
  {
  }

  /** A snapshot is never refused for its sequence number: an open source refuses it exactly when
      its block is older than the one already seen. */
  lemma OnlyOldBlocksAreRefused(s: Sys)
    requires Inv(s) && s.core.HasSnapshot?
    ensures SourceApplySnapshot(s.source, s.core.snapshot, s.core.pools).accepted
            <==> !s.source.closed && !Stale(s.source.state, s.core.number)
  {
  }

  /** What a snapshot files: exactly the relevant records that were pending when it was taken. */
  lemma SnapshotHolds(pools: seq<Pool>, m: MempoolState, k: nat)
    requires MempoolOk(m)
    ensures var held := Index(FilterAll(pools, PendingTxs(m.records)));
            && (k in held <==> && 0 < k <= |m.records| && m.records[k - 1].status.Pending?
                               && Filter(pools, AsPending(m.records[k - 1])).Some?)
            && (k in held ==> Some(held[k]) == Filter(pools, AsPending(m.records[k - 1])))
  {
    var cs := FilterAll(pools, PendingTxs(m.records));
    IndexKeys(cs, k);
    SnapshotIsExact(m);
    if k in Index(cs) {
      FilterAllMembers(pools, PendingTxs(m.records), Index(cs)[k]);
    }
    if 0 < k <= |m.records| && m.records[k - 1].status.Pending? {
      var p := AsPending(m.records[k - 1]);
      if Filter(pools, p).Some? {
        var c := Filter(pools, p).value;
        FilterAllMembers(pools, PendingTxs(m.records), c);
        assert c in cs && c.tx.seqNum == k;
      }
    }
  }

  lemma KeptByApply(s: Sys)
    requires Inv(s) && s.core.HasSnapshot?
    ensures Inv(StepApply(s))
  {
    var s' := StepApply(s);
    var r := SourceApplySnapshot(s.source, s.core.snapshot, s.core.pools);
    ApplySnapshotKeepsOk(s.source, s.core.snapshot, s.core.pools);
    if !r.accepted {
      QuietStep(s, s');
    } else {
      forall k
        ensures k in Held(s') ==>
                  && Relevant(s'.pools, s'.builder.mempool, k)
                  && Some(Held(s')[k]) == Filter(s.pools, AsPending(s.builder.mempool.records[k - 1]))
      {
        AppliedHeld(s, k);
      }
      forall k: nat | Relevant(s'.pools, s'.builder.mempool, k)
        ensures Places(s', k) == One(Expected(s', k))
      {
        AppliedHeld(s, k);
        AppliedPlaces(s, k);
      }
    }
  }

  lemma AppliedHeld(s: Sys, k: nat)
    requires Inv(s) && s.core.HasSnapshot?
    requires SourceApplySnapshot(s.source, s.core.snapshot, s.core.pools).accepted
    ensures var s' := StepApply(s);
            && (k in Held(s') <==> && k <= |s'.base.records| && Relevant(s'.pools, s'.builder.mempool, k)
                                   && Expected(s', k) && k <= Boundary(s'))
            && (k in Held(s') ==> Some(Held(s')[k]) == Filter(s.pools, AsPending(s.builder.mempool.records[k - 1])))
  {
    SnapshotHolds(s.pools, s.core.source, k);
    if 0 < k <= |s.core.source.records| {
      SameEvents(s.core.source, s.builder.mempool, k);
    }
  }

  lemma AppliedPlaces(s: Sys, k: nat)
    requires Inv(s) && s.core.HasSnapshot? && Relevant(s.pools, s.builder.mempool, k)
    requires SourceApplySnapshot(s.source, s.core.snapshot, s.core.pools).accepted
    requires var s' := StepApply(s);
             k in Held(s') <==> && k <= |s'.base.records| && Relevant(s'.pools, s'.builder.mempool, k)
                                && Expected(s', k) && k <= Boundary(s')
    ensures var s' := StepApply(s); Places(s', k) == One(Expected(s', k))
  {
  }

  lemma KeptByMarkInvalid(s: Sys)
    requires Inv(s) && s.core.Failing?
    ensures Inv(StepMarkInvalid(s))
  {
  }

  // ---------------------------------------------------------------- steps of the consumer

  /** A delivered candidate moves from the held to the popped. */
  ghost predicate Pops(s: Sys, s': Sys, k: nat)
  {
    && s' == s.(source := s'.source, consumer := s'.consumer, delivered := s'.delivered, popped := s'.popped)
    && s'.source.closed == s.source.closed && s'.source.state.valid
    && Boundary(s') == Boundary(s)
    && k in Held(s) && Held(s') == Without(Held(s), k) && s'.popped == s.popped + [k]
  }

  predicate TakesCandidate(s: Sys)
  {
    !s.consumer.Asleep? && s.source.state.valid && SourceTake(s.source).received.Delivered?
  }

  lemma LookPops(s: Sys) returns (k: nat)
    requires SourceOk(s.source) && TakesCandidate(s)
    ensures Pops(s, StepLook(s), k) && !s.source.closed
    ensures forall j :: j in Held(s) ==> k <= j
  {
    DeliveryShape(s.source);
    k := SourceTake(s.source).received.snapshot.candidate.value.tx.seqNum;
  }

  lemma PopsPlaces(s: Sys, s': Sys, k: nat, j: nat)
    requires Pops(s, s', k) && 0 < j <= |s.builder.mempool.records|
    requires 0 < k <= |s.builder.mempool.records|
    requires Places(s, j) == One(Expected(s, j)) && Places(s, k) <= 1
    ensures Places(s', j) == One(Expected(s', j))
  {
  }

  lemma PopsPartition(s: Sys, s': Sys, k: nat)
    requires Partition(s) && Pops(s, s', k) && s.source.state.valid
    ensures Partition(s')
  {
    assert Relevant(s.pools, s.builder.mempool, k) && Places(s, k) == One(Expected(s, k));
    forall j: nat | Relevant(s'.pools, s'.builder.mempool, j)
      ensures Places(s', j) == One(Expected(s', j))
    {
      assert Relevant(s.pools, s.builder.mempool, j) && Places(s, j) == One(Expected(s, j));
      PopsPlaces(s, s', k, j);
    }
  }

  lemma KeptByLook(s: Sys)
    requires Inv(s)
    ensures Inv(StepLook(s))
  {
    TakeKeepsOk(s.source);
    if TakesCandidate(s) {
      var k := LookPops(s);
      var s' := StepLook(s);
      QuietFlights(s, s');
      PopsPartition(s, s', k);
      SameHands(s, s');
    } else {
      QuietLook(s);
    }
  }

  lemma QuietLook(s: Sys)
    requires Inv(s) && !TakesCandidate(s)
    ensures Inv(StepLook(s))
  {
    var s' := StepLook(s);
    TakeKeepsOk(s.source);
    LooksOnly(s);
    QuietFlights(s, s');
    SameHands(s, s');
    SamePartition(s, s');
  }

  /** A look that takes no candidate leaves the state as it is. */
  lemma LooksOnly(s: Sys)
    requires SourceOk(s.source) && !TakesCandidate(s)
    ensures var s' := StepLook(s);
            && s' == s.(source := s'.source, consumer := s'.consumer, delivered := s'.delivered)
            && s'.source.state == s.source.state
  {
  }

  lemma KeptByCloseSource(s: Sys)
    requires Inv(s)
    ensures Inv(StepCloseSource(s))
  {
  }

  // ---------------------------------------------------------------- every step

  lemma KeptByWrite(s: Sys, l: Label)
    requires Inv(s) && (l.HandleTx? || l.Apply? || l.MarkInvalid?)
    ensures Inv(Next(s, l))
  {
    match l
    case HandleTx => if s.core.OnTx? { KeptByHandleTx(s); }
    case Apply => if s.core.HasSnapshot? { KeptByApply(s); }
    case MarkInvalid => if s.core.Failing? { KeptByMarkInvalid(s); }
  }

  lemma KeptByRead(s: Sys, l: Label)
    requires Inv(s) && (l.ReadPools? || l.RequestSnapshot?)
    ensures Inv(Next(s, l))
  {
    match l
    case ReadPools(answered) => KeptByReadPools(s, answered);
    case RequestSnapshot(answered) => KeptByRequestSnapshot(s, answered);
  }

  lemma KeptByStream(s: Sys, l: Label)
    requires Inv(s) && (l.Request? || l.Deliver? || l.Lose? || l.NewBlock? || l.Poll? || l.Look?)
    ensures Inv(Next(s, l))
  {
    match l
    case Request(q) => KeptByRequest(s, q);
    case Deliver(k) => KeptByDeliver(s, k);
    case Lose(k) => KeptByLose(s, k);
    case NewBlock(n) => KeptByNewBlock(s, n);
    case Poll => KeptByPoll(s);
    case Look => KeptByLook(s);
  }

  lemma InvKept(s: Sys, l: Label)
    requires Inv(s)
    ensures Inv(Next(s, l))
  {
    if l.HandleTx? || l.Apply? || l.MarkInvalid? {
      KeptByWrite(s, l);
    } else if l.ReadPools? || l.RequestSnapshot? {
      KeptByRead(s, l);
    } else if l.Request? || l.Deliver? || l.Lose? || l.NewBlock? || l.Poll? || l.Look? {
      KeptByStream(s, l);
    } else if l.QueueNotify? || l.QueueSpurious? || l.CloseQueue? {
      KeptByQueue(s, l);
    } else if l.CloseSource? {
      KeptByCloseSource(s);
    } else {
      KeptByNotice(s, l);
    }
  }

  /** Closing and notifying move no record. */
  lemma KeptByQueue(s: Sys, l: Label)
    requires Inv(s) && (l.QueueNotify? || l.QueueSpurious? || l.CloseQueue?)
    ensures Inv(Next(s, l))
  {
    QuietStep(s, Next(s, l));
  }

  lemma KeptByNotice(s: Sys, l: Label)
    requires Inv(s) && (l.Notify? || l.CloseNotify? || l.Spurious?)
    ensures Inv(Next(s, l))
  {
    QuietStep(s, Next(s, l));
  }

  lemma {:induction false} RunKeepsInv(s: Sys, labels: seq<Label>)
    requires Inv(s)
    ensures Inv(Run(s, labels))
    decreases |labels|
  {
    if labels != [] {
      RunKeepsInv(s, labels[..|labels| - 1]);
      InvKept(Run(s, labels[..|labels| - 1]), labels[|labels| - 1]);
    }
  }

  /** In every run, whenever Knight's state is valid, the candidates it holds, those it popped
      since the snapshot, the filtered events still on their way and the dropped ones are
      together, and without overlap, the filtered records pending when the snapshot was taken
      and all filtered records after it. */
  lemma SnapshotPlusStream(pools: seq<Pool>, builder: BuilderState, labels: seq<Label>)
    requires BuilderOk(builder)
    ensures Partition(Run(Init(pools, builder), labels))
  {
    InitOk(pools, builder);
    RunKeepsInv(Init(pools, builder), labels);
  }

  /** Without drops: held, popped or on its way, and nothing else, exactly for the records that
      were pending at the snapshot or came after it. */
  lemma NoCandidateLost(s: Sys, k: nat)
    requires Partition(s) && s.lost == {} && s.source.state.valid
    requires Relevant(s.pools, s.builder.mempool, k)
    ensures Expected(s, k) <==> k in Held(s) || k in s.popped || (k > Boundary(s) && InFlight(s, k))
    ensures !(k in Held(s) && k in s.popped)
    ensures k > Boundary(s) && InFlight(s, k) ==> k !in Held(s) && k !in s.popped
  {
  }
}
