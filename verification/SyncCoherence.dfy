/** What the consumer receives: snapshots whose pools and block belong together, in the order of
    the blocks. */
module SyncCoherence {
  import opened Common
  import opened Domain
  import opened Ledger
  import opened CandidateFilter
  import opened CandidateState
  import opened TxChain
  import opened BuilderMempool
  import opened Bundles
  import opened Sync
  import opened SyncPartition
  import opened Refinement

  // ---------------------------------------------------------------- pools and blocks

  /** One snapshot per configured pool, all with the reserves of block n. */
  ghost predicate ShowsBlock(pools: seq<Pool>, snapshots: seq<PoolSnapshot>, c: Chain, n: nat)
  {
    && n <= Head(c) && Covers(pools, snapshots)
    && forall i :: 0 <= i < |snapshots| ==> Shows(snapshots[i], BlockAt(c, n).world)
  }

  lemma {:induction false} ReadAllShows(w: World, pools: seq<Pool>, snapshots: seq<PoolSnapshot>)
    requires ReadAll(w, pools) == Some(snapshots)
    ensures Covers(pools, snapshots) && forall i :: 0 <= i < |snapshots| ==> Shows(snapshots[i], w)
    decreases |pools|
  {
    if pools != [] {
      var n := |pools| - 1;
      ReadAllShows(w, pools[..n], ReadAll(w, pools[..n]).value);
    }
  }

  // ---------------------------------------------------------------- the invariant

  ghost predicate HandsShow(pools: seq<Pool>, core: Core, c: Chain)
  {
    && (core.HasPools? ==> ShowsBlock(pools, core.pools, c, core.number))
    && (core.HasSnapshot? ==>
          ShowsBlock(pools, core.pools, c, core.number) && core.snapshot.blockNumber == core.number)
  }

  ghost predicate AppliedOk(pools: seq<Pool>, applied: seq<Applied>, c: Chain)
  {
    && (forall i :: 0 <= i < |applied| ==> ShowsBlock(pools, applied[i].pools, c, applied[i].blockNumber))
    && (forall i, j :: 0 <= i < j < |applied| ==> applied[i].blockNumber <= applied[j].blockNumber)
  }

  /** The state is that of the last applied snapshot, or invalid since. */
  ghost predicate CurrentOk(valid: bool, number: Option<nat>, snapshots: seq<PoolSnapshot>, applied: seq<Applied>)
  {
    && (applied != [] ==> number.Some? && applied[|applied| - 1].blockNumber <= number.value)
    && (valid ==> applied != [] && applied[|applied| - 1] == Applied(number.value, snapshots))
  }

  /** A valid delivery carries the pools and the block of one applied snapshot and a candidate of
      a configured pool that is a record of the builder; an invalid one carries nothing. */
  ghost predicate DeliveryOk(pools: seq<Pool>, m: MempoolState, applied: seq<Applied>, d: StateSnapshot)
  {
    && d.blockNumber.Some?
    && (if d.valid
        then Applied(d.blockNumber.value, d.pools) in applied
             && d.candidate.Some? && Filter(pools, d.candidate.value.tx) == d.candidate
             && Known(m, d.candidate.value.tx)
        else d.pools == [] && d.candidate.None?)
  }

  predicate NotAfter(x: Option<nat>, y: Option<nat>)
  {
    x.Some? ==> y.Some? && x.value <= y.value
  }

  ghost predicate DeliveriesOk(pools: seq<Pool>, m: MempoolState, applied: seq<Applied>,
                               delivered: seq<StateSnapshot>, number: Option<nat>)
  {
    && (forall i :: 0 <= i < |delivered| ==> DeliveryOk(pools, m, applied, delivered[i]))
    && (forall i, j :: 0 <= i < j < |delivered| ==> NotAfter(delivered[i].blockNumber, delivered[j].blockNumber))
    && (forall i :: 0 <= i < |delivered| ==> NotAfter(delivered[i].blockNumber, number))
  }

  ghost predicate Coherent(s: Sys)
  {
    var v := s.source.state;
    && HandsShow(s.pools, s.core, s.builder.chain)
    && AppliedOk(s.pools, s.applied, s.builder.chain)
    && CurrentOk(v.valid, v.blockNumber, v.pools, s.applied)
    && DeliveriesOk(s.pools, s.builder.mempool, s.applied, s.delivered, v.blockNumber)
  }

  // ---------------------------------------------------------------- steps

  lemma CoherentRequest(s: Sys, q: Bundles.Request)
    requires Coherent(s) && BuilderOk(s.builder)
    ensures Coherent(s.(builder := Serve(s.builder, q)))
  {
    var c, c' := s.builder.chain, Serve(s.builder, q).chain;
    ServeKeeps(s.builder, q);
    HandsShowLater(s.pools, s.core, c, c');
    AppliedLater(s.pools, s.applied, c, c');
    DeliveriesLater(s.pools, s.builder.mempool, Serve(s.builder, q).mempool, s.applied, s.delivered,
                    s.source.state.blockNumber);
  }

  lemma DeliveriesLater(pools: seq<Pool>, m: MempoolState, m': MempoolState, applied: seq<Applied>,
                        delivered: seq<StateSnapshot>, number: Option<nat>)
    requires DeliveriesOk(pools, m, applied, delivered, number) && Later(m, m')
    ensures DeliveriesOk(pools, m', applied, delivered, number)
  {
  }

  lemma HandsShowLater(pools: seq<Pool>, core: Core, c: Chain, c': Chain)
    requires HandsShow(pools, core, c) && Extends(c, c')
    ensures HandsShow(pools, core, c')
  {
  }

  lemma AppliedLater(pools: seq<Pool>, applied: seq<Applied>, c: Chain, c': Chain)
    requires AppliedOk(pools, applied, c) && Extends(c, c')
    ensures AppliedOk(pools, applied, c')
  {
  }

  /** A step that leaves the builder, the histories and all of the state but its mempool alone. */
  lemma CoherentQuiet(s: Sys, s': Sys)
    requires Coherent(s)
    requires s'.pools == s.pools && s'.builder == s.builder
    requires var v, v' := s.source.state, s'.source.state;
             v'.valid == v.valid && v'.blockNumber == v.blockNumber && v'.pools == v.pools
    requires s'.applied == s.applied && s'.delivered == s.delivered
    requires s'.core == s.core || !(s'.core.HasPools? || s'.core.HasSnapshot?)
    ensures Coherent(s')
  {
  }

  lemma CoherentReadPools(s: Sys, answered: bool)
    requires Coherent(s)
    ensures Coherent(StepReadPools(s, answered))
  {
    var s' := StepReadPools(s, answered);
    if s'.core.HasPools? && s.core.OnBlock? {
      ReadAllShows(BlockAt(s.builder.chain, s.core.number).world, s.pools, s'.core.pools);
    }
  }

  lemma CoherentRequestSnapshot(s: Sys, answered: bool)
    requires Coherent(s)
    ensures Coherent(StepRequestSnapshot(s, answered))
  {
  }

  lemma MoreApplied(pools: seq<Pool>, m: MempoolState, applied: seq<Applied>, more: seq<Applied>,
                    delivered: seq<StateSnapshot>, x: Option<nat>, y: Option<nat>)
    requires DeliveriesOk(pools, m, applied, delivered, x) && applied <= more && NotAfter(x, y)
    ensures DeliveriesOk(pools, m, more, delivered, y)
  {
  }

  lemma CoherentApply(s: Sys)
    requires Coherent(s) && s.core.HasSnapshot?
    ensures Coherent(StepApply(s))
  {
    var s' := StepApply(s);
    if SourceApplySnapshot(s.source, s.core.snapshot, s.core.pools).accepted {
      OneMoreApplied(s.pools, s.applied, Applied(s.core.number, s.core.pools), s.builder.chain);
      MoreApplied(s.pools, s.builder.mempool, s.applied, s'.applied, s.delivered,
                  s.source.state.blockNumber, Some(s.core.number));
    } else {
      CoherentQuiet(s, s');
    }
  }

  lemma OneMoreApplied(pools: seq<Pool>, applied: seq<Applied>, a: Applied, c: Chain)
    requires AppliedOk(pools, applied, c) && ShowsBlock(pools, a.pools, c, a.blockNumber)
    requires applied != [] ==> applied[|applied| - 1].blockNumber <= a.blockNumber
    ensures AppliedOk(pools, applied + [a], c)
  {
  }

  lemma CoherentMarkInvalid(s: Sys)
    requires Coherent(s) && s.core.Failing?
    ensures Coherent(StepMarkInvalid(s))
  {
  }

  lemma CoherentHandleTx(s: Sys)
    requires Coherent(s)
    ensures Coherent(StepHandleTx(s))
  {
    if s.core.OnTx? {
      HandleTxFiles(s);
      CoherentFiled(s, StepHandleTx(s));
    }
  }

  lemma CoherentFiled(s: Sys, s': Sys)
    requires Coherent(s) && s.core.OnTx? && Filed(s, s')
    ensures Coherent(s')
  {
  }

  lemma CoherentLook(s: Sys)
    requires Coherent(s) && Inv(s)
    ensures Coherent(StepLook(s))
  {
    var s' := StepLook(s);
    if !s.consumer.Asleep? && SourceTake(s.source).received.Delivered? {
      var d := SourceTake(s.source).received.snapshot;
      DeliveredNow(s, d);
      OneMoreDelivered(s.pools, s.builder.mempool, s.applied, s.delivered, d, s.source.state.blockNumber);
      CoherentQuiet(s, s'.(delivered := s.delivered));
    } else {
      CoherentQuiet(s, s');
    }
  }

  lemma DeliveredNow(s: Sys, d: StateSnapshot)
    requires Coherent(s) && Inv(s) && SourceTake(s.source).received == Delivered(d)
    ensures DeliveryOk(s.pools, s.builder.mempool, s.applied, d) && d.blockNumber == s.source.state.blockNumber
  {
  }

  lemma OneMoreDelivered(pools: seq<Pool>, m: MempoolState, applied: seq<Applied>, delivered: seq<StateSnapshot>,
                         d: StateSnapshot, number: Option<nat>)
    requires DeliveriesOk(pools, m, applied, delivered, number)
    requires DeliveryOk(pools, m, applied, d) && d.blockNumber == number
    ensures DeliveriesOk(pools, m, applied, delivered + [d], number)
  {
  }

  // ---------------------------------------------------------------- consequences

  /** Every valid delivery lists every configured pool, its candidate's pool among them, with the
      reserves of the block it names. */
  lemma DeliveryIsUsable(s: Sys, d: StateSnapshot)
    requires Coherent(s) && d in s.delivered && d.valid
    ensures d.blockNumber.Some? && d.candidate.Some?
    ensures ShowsBlock(s.pools, d.pools, s.builder.chain, d.blockNumber.value)
    ensures exists i :: 0 <= i < |d.pools| && d.pools[i].pool == d.candidate.value.pool
    ensures Known(s.builder.mempool, d.candidate.value.tx) && Filter(s.pools, d.candidate.value.tx) == d.candidate
  {
  }
}
