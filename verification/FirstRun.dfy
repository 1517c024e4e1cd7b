/** The shortest way through the whole system: a victim is submitted, the head is announced and
    synchronised, and Knight receives the state, prepares a bundle, simulates and submits it. */
module FirstRun {
  import opened Common
  import opened Domain
  import opened CandidateFilter
  import opened CandidateState
  import opened TxChain
  import opened BuilderMempool
  import opened Bundles
  import opened TxComposer
  import opened Sync
  import opened Pipeline
  import Queue

  /** What takes part: the chain at its first block, the configured pools with their reserves, the
      victim as the builder and as Knight see it, and the job that Knight makes of it. */
  datatype Setting = Setting(chain: Chain, pools: seq<Pool>, snapshots: seq<PoolSnapshot>, id: string,
                             victim: Candidate, config: BackrunConfig, job: Job)

  ghost predicate SettingOk(x: Setting)
  {
    && Head(x.chain) == 0
    && ReadAll(x.chain.latest.world, x.pools) == Some(x.snapshots)
    && PassesFilter(x)
    && Prepare(Received(x), x.config, Some(0)) == Some(x.job)
  }

  predicate PassesFilter(x: Setting)
  {
    Filter(x.pools, PendingTransaction(x.id, 1, x.victim.tx.tx)) == Some(x.victim)
  }

  function Received(x: Setting): StateSnapshot
  {
    StateSnapshot(true, Some(0), x.snapshots, Some(x.victim))
  }

  function Before(x: Setting): BuilderState { BuilderState(x.chain, EMPTY_MEMPOOL) }

  /** The builder with the victim in its mempool. */
  function Pending(x: Setting): BuilderState
  {
    BuilderState(x.chain, MempoolState([Record(x.id, 1, x.victim.tx.tx, Status.Pending, None, None)], 1))
  }

  function Begin(x: Setting): Pipe
  {
    Start(Init(x.pools, Before(x)), x.config, 0)
  }

  // ---------------------------------------------------------------- synchronisation

  function Announce(x: Setting): seq<Act>
  {
    [Elsewhere(Request(RAdd(x.id, x.victim.tx.tx))), Elsewhere(NewBlock(0)), Elsewhere(Poll)]
  }

  function Synchronise(): seq<Act>
  {
    [Elsewhere(ReadPools(true)), Elsewhere(RequestSnapshot(true)), Elsewhere(Apply)]
  }

  lemma {:induction false} DoParts(p: Pipe, xs: seq<Act>, ys: seq<Act>)
    ensures DoAll(p, xs + ys) == DoAll(DoAll(p, xs), ys)
    decreases |ys|
  {
    if ys == [] {
      assert xs + ys == xs;
    } else {
      var all := xs + ys;
      assert all[..|all| - 1] == xs + ys[..|ys| - 1];
      DoParts(p, xs, ys[..|ys| - 1]);
    }
  }

  lemma DoOne(p: Pipe, a: Act)
    ensures DoAll(p, [a]) == Do(p, a)
  {
    assert [a][..0] == [];
    assert DoAll(p, []) == p;
  }

  lemma DoThree(p: Pipe, a: Act, b: Act, c: Act)
    ensures DoAll(p, [a, b, c]) == Do(Do(Do(p, a), b), c)
  {
    DoParts(p, [a], [b]);
    DoParts(p, [a] + [b], [c]);
    assert [a] + [b] + [c] == [a, b, c];
    DoOne(p, a);
    DoOne(Do(p, a), b);
    DoOne(Do(Do(p, a), b), c);
  }

  function Announced(x: Setting): Pipe
  {
    Begin(x).(sys := Init(x.pools, Pending(x)).(queueOwed := 1, core := OnBlock(0)))
  }

  lemma Adds(x: Setting)
    ensures Next(Init(x.pools, Before(x)), Request(RAdd(x.id, x.victim.tx.tx))) == Init(x.pools, Pending(x))
  {
  }

  function Queued(x: Setting): Sys
  {
    Init(x.pools, Pending(x)).(queue := Queue.View([BlockEvent(0)], false), queueOwed := 1)
  }

  lemma Queues(x: Setting)
    requires Head(x.chain) == 0
    ensures Next(Init(x.pools, Pending(x)), NewBlock(0)) == Queued(x)
  {
  }

  lemma Polls(x: Setting)
    ensures Next(Queued(x), Poll) == Announced(x).sys
  {
  }

  lemma Steps(p: Pipe, l: Label, s: Sys)
    requires !l.Look? && Next(p.sys, l) == s
    ensures Do(p, Elsewhere(l)) == p.(sys := s)
  {
  }

  lemma Announces(x: Setting)
    requires Head(x.chain) == 0
    ensures DoAll(Begin(x), Announce(x)) == Announced(x)
  {
    var p0 := Begin(x);
    var p1, p2 := p0.(sys := Init(x.pools, Pending(x))), p0.(sys := Queued(x));
    Adds(x);
    Queues(x);
    Polls(x);
    Steps(p0, Request(RAdd(x.id, x.victim.tx.tx)), p1.sys);
    Steps(p1, NewBlock(0), p2.sys);
    Steps(p2, Poll, Announced(x).sys);
    DoThree(p0, Elsewhere(Request(RAdd(x.id, x.victim.tx.tx))), Elsewhere(NewBlock(0)), Elsewhere(Poll));
  }

  /** Knight's state once the snapshot of the first block is applied. */
  function Synced(x: Setting): SourceView
  {
    SourceView(StateView(true, Some(0), x.snapshots, MempoolView(map[1 := x.victim], 1)), false, false)
  }

  function Synchronised(x: Setting): Pipe
  {
    Announced(x).(sys := Announced(x).sys.(core := Notifying, source := Synced(x), base := Pending(x).mempool,
                                           applied := [Applied(0, x.snapshots)]))
  }

  lemma OnePending(x: Setting)
    requires PassesFilter(x)
    ensures TakeSnapshot(Pending(x).mempool) == Snapshot(1, [x.victim.tx])
    ensures FilterAll(x.pools, [x.victim.tx]) == [x.victim]
    ensures Index([x.victim]) == map[1 := x.victim]
  {
    var records := Pending(x).mempool.records;
    assert records[..0] == [] && PendingTxs([]) == [] && PendingTxs(records) == [] + [AsPending(records[0])];
    assert x.victim.tx == PendingTransaction(x.id, 1, x.victim.tx.tx);
    assert [x.victim.tx][..0] == [] && FilterAll(x.pools, []) == [];
    assert FilterAll(x.pools, [x.victim.tx]) == [] + [x.victim];
    assert [x.victim][..0] == [] && Index([]) == map[];
  }

  function WithPools(x: Setting): Sys { Announced(x).sys.(core := HasPools(0, x.snapshots)) }

  lemma Reads(x: Setting)
    requires Head(x.chain) == 0 && ReadAll(x.chain.latest.world, x.pools) == Some(x.snapshots)
    ensures Next(Announced(x).sys, ReadPools(true)) == WithPools(x)
  {
  }

  function WithSnapshot(x: Setting): Sys
  {
    Announced(x).sys.(core := HasSnapshot(0, x.snapshots, CandidateSnapshot(0, 1, [x.victim]), Pending(x).mempool))
  }

  lemma Asks(x: Setting)
    requires PassesFilter(x)
    ensures Next(WithPools(x), RequestSnapshot(true)) == WithSnapshot(x)
  {
    OnePending(x);
  }

  lemma Applies(x: Setting)
    requires PassesFilter(x)
    ensures Next(WithSnapshot(x), Apply) == Synchronised(x).sys
  {
    OnePending(x);
    assert 1 in map[1 := x.victim];
  }

  lemma Synchronises(x: Setting)
    requires SettingOk(x)
    ensures DoAll(Announced(x), Synchronise()) == Synchronised(x)
  {
    var p3 := Announced(x);
    var p4, p5 := p3.(sys := WithPools(x)), p3.(sys := WithSnapshot(x));
    Reads(x);
    Asks(x);
    Applies(x);
    Steps(p3, ReadPools(true), p4.sys);
    Steps(p4, RequestSnapshot(true), p5.sys);
    Steps(p5, Apply, Synchronised(x).sys);
    DoThree(p3, Elsewhere(ReadPools(true)), Elsewhere(RequestSnapshot(true)), Elsewhere(Apply));
  }

  // ---------------------------------------------------------------- the bundle

  lemma TakesVictim(x: Setting)
    ensures SourceTake(Synced(x)).received == Delivered(Received(x))
  {
    assert 1 in Synced(x).state.mempool.candidates;
    assert Synced(x).state.mempool.candidates.Keys == {1};
  }

  /** Knight at work on the job, with the builder as the victim left it. */
  ghost predicate WorksOn(p: Pipe, x: Setting, task: Task)
  {
    && p.task == task && p.sys.builder == Pending(x) && p.config == x.config
    && p.nextNonce == Some(0) && p.iteration == 1 && p.mined == [] && p.landed == []
    && (task.Simulating? ==> p.simulations == [])
  }

  lemma Receives(x: Setting)
    requires SettingOk(x)
    ensures WorksOn(DoReceive(Synchronised(x)), x, Simulating(x.job, 1))
  {
    TakesVictim(x);
  }

  lemma Simulates(p: Pipe, x: Setting, r: BundleResult)
    requires WorksOn(p, x, Simulating(x.job, 1))
    requires Simulate(Pending(x), x.job.bundle, CLEAN).response == Ok(r) && r.included
    ensures WorksOn(DoSimulate(p, Answered, CLEAN), x, Submitting(x.job, 1))
  {
    SimulateChangesNothing(Pending(x), x.job.bundle, CLEAN);
  }

  lemma Submits(p: Pipe, x: Setting, link: Link)
    requires WorksOn(p, x, Submitting(x.job, 1)) && !link.NotSent?
    requires MinesBlock(Pending(x), x.job.bundle, CLEAN)
    ensures DoSubmit(p, link, CLEAN).mined == [Mined(1, x.job, Pending(x), CLEAN)]
  {
  }

  function UpToSimulation(x: Setting): seq<Act>
  {
    Announce(x) + Synchronise() + [Receive]
  }

  function UpToSubmission(x: Setting): seq<Act>
  {
    UpToSimulation(x) + [TrySimulate(Answered, CLEAN)]
  }

  /** One more act. */
  lemma DoNext(p: Pipe, acts: seq<Act>, a: Act)
    ensures DoAll(p, acts + [a]) == Do(DoAll(p, acts), a)
  {
    DoParts(p, acts, [a]);
    DoOne(DoAll(p, acts), a);
  }

  /** After seven acts Knight is about to simulate its bundle. */
  lemma ReadyToSimulate(x: Setting)
    requires SettingOk(x)
    ensures WorksOn(DoAll(Begin(x), UpToSimulation(x)), x, Simulating(x.job, 1))
  {
    Announces(x);
    Synchronises(x);
    Receives(x);
    DoParts(Begin(x), Announce(x), Synchronise());
    DoNext(Begin(x), Announce(x) + Synchronise(), Receive);
  }

  /** After eight acts Knight is about to submit it, if the builder simulates it as included. */
  lemma ReadyToSubmit(x: Setting, r: BundleResult)
    requires SettingOk(x)
    requires Simulate(Pending(x), x.job.bundle, CLEAN).response == Ok(r) && r.included
    ensures WorksOn(DoAll(Begin(x), UpToSubmission(x)), x, Submitting(x.job, 1))
  {
    ReadyToSimulate(x);
    DoNext(Begin(x), UpToSimulation(x), TrySimulate(Answered, CLEAN));
    Simulates(DoAll(Begin(x), UpToSimulation(x)), x, r);
  }

  /** The ninth act mines the bundle, whether or not its answer arrives. */
  lemma MinesTheBundle(x: Setting, r: BundleResult, link: Link)
    requires SettingOk(x) && !link.NotSent?
    requires Simulate(Pending(x), x.job.bundle, CLEAN).response == Ok(r) && r.included
    requires MinesBlock(Pending(x), x.job.bundle, CLEAN)
    ensures DoAll(Begin(x), UpToSubmission(x) + [TrySubmit(link, CLEAN)]).mined
            == [Mined(1, x.job, Pending(x), CLEAN)]
  {
    ReadyToSubmit(x, r);
    DoNext(Begin(x), UpToSubmission(x), TrySubmit(link, CLEAN));
    Submits(DoAll(Begin(x), UpToSubmission(x)), x, link);
  }
}
