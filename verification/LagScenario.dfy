/** Three ways in which Knight's nonce falls behind, in the world of module Scenario: the answer to a
    submission is lost, a simulation cannot be taken back, and a bundle that was sent but not mined is
    picked up by the next block. */
module LagScenario {
  import opened Common
  import opened Domain
  import opened TxChain
  import opened Bundles
  import opened TxComposer
  import opened Signer
  import opened Sync
  import opened Pipeline
  import opened PipelineSafety
  import opened NonceLag
  import opened KnightRuns
  import opened Scenario
  import FirstRun

  function X(c: Cast): FirstRun.Setting
    requires Distinct(c)
  {
    TheSetting(c, VICTIM_TIP)
  }

  function BundleOf(c: Cast): RawBundle
    requires Distinct(c)
  {
    TheJob(c, VICTIM_TIP).bundle
  }

  lemma StartIsFree(c: Cast)
    requires Distinct(c)
    ensures BuilderOk(FirstRun.Before(X(c))) && StartsFree(FirstRun.Before(X(c)), c.operator)
    ensures Nonce(Genesis(c).latest, c.operator) == 0
  {
    BuilderIsOk(c, VICTIM_TIP);
  }

  lemma AboutToSimulate(c: Cast) returns (p: Pipe)
    requires Distinct(c)
    ensures p == DoAll(FirstRun.Begin(X(c)), FirstRun.UpToSimulation(X(c)))
    ensures FirstRun.WorksOn(p, X(c), Simulating(TheJob(c, VICTIM_TIP), 1))
    ensures MinesBlock(p.sys.builder, BundleOf(c), CLEAN)
  {
    var r := BuilderIncludes(c, VICTIM_TIP);
    SettingIsOk(c, VICTIM_TIP);
    FirstRun.ReadyToSimulate(X(c));
    p := DoAll(FirstRun.Begin(X(c)), FirstRun.UpToSimulation(X(c)));
  }

  lemma AboutToSubmit(c: Cast) returns (p: Pipe)
    requires Distinct(c)
    ensures p == DoAll(FirstRun.Begin(X(c)), FirstRun.UpToSubmission(X(c)))
    ensures FirstRun.WorksOn(p, X(c), Submitting(TheJob(c, VICTIM_TIP), 1))
    ensures MinesBlock(p.sys.builder, BundleOf(c), CLEAN)
  {
    var r := BuilderIncludes(c, VICTIM_TIP);
    SettingIsOk(c, VICTIM_TIP);
    FirstRun.ReadyToSubmit(X(c), r);
    p := DoAll(FirstRun.Begin(X(c)), FirstRun.UpToSubmission(X(c)));
  }

  // ---------------------------------------------------------------- a lost answer

  /** The answer matters: in the run of SomebodyEarns with the last answer lost, the bundle is mined and
      Knight's nonce lags, which it then does for ever. */
  lemma LostAnswerLags() returns (pools: seq<Pool>, builder: BuilderState, config: BackrunConfig, acts: seq<Act>)
    ensures BuilderOk(builder)
    ensures var p := DoAll(Start(Init(pools, builder), config, 0), acts);
            |p.mined| == 1 && PipeOk(p, 0) && Lags(p)
  {
    var c := SomeCast();
    pools, builder, config, acts := X(c).pools, FirstRun.Before(X(c)), X(c).config, TheActs(c, VICTIM_TIP, AnswerLost);
    BuilderIsOk(c, VICTIM_TIP);
    var r := TheBundleIsMined(c, VICTIM_TIP, AnswerLost);
    RunIsOk(pools, builder, config, 0, acts);
    TheNonceLags(c);
  }

  lemma TheNonceLags(c: Cast)
    requires Distinct(c)
    ensures Lags(TheRun(c, VICTIM_TIP, AnswerLost))
  {
    var p := AboutToSubmit(c);
    FirstRun.DoNext(FirstRun.Begin(X(c)), FirstRun.UpToSubmission(X(c)), TrySubmit(AnswerLost, CLEAN));
    AnswerIsLost(c, p);
  }

  lemma AnswerIsLost(c: Cast, p: Pipe)
    requires Distinct(c) && FirstRun.WorksOn(p, X(c), Submitting(TheJob(c, VICTIM_TIP), 1))
    requires MinesBlock(p.sys.builder, BundleOf(c), CLEAN)
    ensures Lags(DoSubmit(p, AnswerLost, CLEAN))
  {
    LostResultLags(p, AnswerLost, CLEAN);
  }

  // ---------------------------------------------------------------- a simulation that stays

  const NOT_REVERTED: Faults := CLEAN.(revert := true)

  function SimulatingActs(c: Cast): seq<Act>
    requires Distinct(c)
  {
    FirstRun.UpToSimulation(X(c)) + [TrySimulate(Answered, NOT_REVERTED)]
  }

  /** The simulation matters: when taking its block back fails, Knight's own backrun stays on the
      chain without any submission and without any simulation result, and the nonce lags. */
  lemma SimulationStays() returns (pools: seq<Pool>, builder: BuilderState, config: BackrunConfig, acts: seq<Act>)
    ensures BuilderOk(builder) && StartsFree(builder, config.bot) && AllForeign(acts, config.bot)
    ensures Nonce(builder.chain.latest, config.bot) == 0
    ensures var p := DoAll(Start(Init(pools, builder), config, 0), acts);
            && Lags(p) && p.mined == [] && p.simulations == []
            && exists i :: 0 <= i < |p.landed| && HasReceipt(p, p.landed[i])
  {
    var c := SomeCast();
    pools, builder, config, acts := X(c).pools, FirstRun.Before(X(c)), X(c).config, SimulatingActs(c);
    StartIsFree(c);
    SimulatingIsForeign(c);
    SimulationIsNotReverted(c);
    LagMeansReceipt(pools, builder, config, 0, acts);
  }

  lemma SimulatingIsForeign(c: Cast)
    requires Distinct(c)
    ensures AllForeign(SimulatingActs(c), c.operator)
  {
  }

  lemma SimulationIsNotReverted(c: Cast)
    requires Distinct(c)
    ensures var p := DoAll(FirstRun.Begin(X(c)), SimulatingActs(c));
            Lags(p) && p.mined == [] && p.simulations == []
  {
    var p := AboutToSimulate(c);
    FirstRun.DoNext(FirstRun.Begin(X(c)), FirstRun.UpToSimulation(X(c)), TrySimulate(Answered, NOT_REVERTED));
    StaysOnChain(c, p);
  }

  lemma StaysOnChain(c: Cast, p: Pipe)
    requires Distinct(c) && FirstRun.WorksOn(p, X(c), Simulating(TheJob(c, VICTIM_TIP), 1))
    requires MinesBlock(p.sys.builder, BundleOf(c), CLEAN)
    ensures var q := DoSimulate(p, Answered, NOT_REVERTED);
            Lags(q) && q.mined == [] && q.simulations == []
  {
    MinesBlockExactly(p.sys.builder, BundleOf(c), CLEAN);
    SimulationLags(p, Answered, NOT_REVERTED);
    NoResult(p);
  }

  lemma NoResult(p: Pipe)
    requires p.task.Simulating?
    ensures var q := DoSimulate(p, Answered, NOT_REVERTED); q.mined == p.mined && q.simulations == p.simulations
  {
  }

  // ---------------------------------------------------------------- a later block

  const NOT_MINED: Faults := CLEAN.(mine := true)

  function NextBlock(): Act { Elsewhere(Request(RMineBlock)) }

  /** The pool matters: a submission whose evm_mine fails without effect leaves the bundle waiting and
      the nonce in step; the next block, of anybody, makes it lag. */
  lemma LaterBlockLags() returns (pools: seq<Pool>, builder: BuilderState, config: BackrunConfig, acts: seq<Act>)
    ensures BuilderOk(builder)
    ensures var p := DoAll(Start(Init(pools, builder), config, 0), acts);
            !Lags(p) && p.mined == [] && Lags(Do(p, NextBlock())) && Do(p, NextBlock()).mined == []
  {
    var c := SomeCast();
    pools, builder, config := X(c).pools, FirstRun.Before(X(c)), X(c).config;
    acts := WaitingActs(c);
    BuilderIsOk(c, VICTIM_TIP);
    RunWaits(c);
    IsPickedUp(c, DoAll(FirstRun.Begin(X(c)), WaitingActs(c)));
  }

  function WaitingActs(c: Cast): seq<Act>
    requires Distinct(c)
  {
    FirstRun.UpToSubmission(X(c)) + [TrySubmit(Answered, NOT_MINED)]
  }

  lemma RunWaits(c: Cast)
    requires Distinct(c)
    ensures WaitsInPool(c, DoAll(FirstRun.Begin(X(c)), WaitingActs(c)))
  {
    var p := AboutToSubmit(c);
    FirstRun.DoNext(FirstRun.Begin(X(c)), FirstRun.UpToSubmission(X(c)), TrySubmit(Answered, NOT_MINED));
    IsSentButNotMined(c, p);
  }

  /** The bundle waits in the pool and Knight will try again. */
  ghost predicate WaitsInPool(c: Cast, q: Pipe)
    requires Distinct(c)
  {
    && q.task == Submitting(TheJob(c, VICTIM_TIP), 2) && q.nextNonce == Some(ChainNonce(q)) && ChainNonce(q) == 0
    && q.config == X(c).config && q.mined == [] && MempoolFree(q.sys.builder.mempool, c.operator)
    && PoolHolds(q.sys.builder.chain.pool, c.operator, 0)
  }

  /** An attempt that fails without a block is tried again. */
  lemma FailedAttempt(p: Pipe, job: Job, f: Faults)
    requires p.task == Submitting(job, 1)
    requires Mine(p.sys.builder, job.bundle, f).response == Failed(502) && !MinesBlock(p.sys.builder, job.bundle, f)
    ensures var q := DoSubmit(p, Answered, f);
            && q.task == Submitting(job, 2) && q.nextNonce == p.nextNonce && q.config == p.config && q.mined == p.mined
            && q.sys.builder == Mine(p.sys.builder, job.bundle, f).builder
  {
  }

  lemma SentButNotMined(c: Cast, b: BuilderState)
    requires Distinct(c) && b == FirstRun.Pending(X(c)) && MinesBlock(b, BundleOf(c), CLEAN)
    ensures var a := Mine(b, BundleOf(c), NOT_MINED);
            && a.response == Failed(502) && !MinesBlock(b, BundleOf(c), NOT_MINED)
            && a.builder.chain.latest == b.chain.latest && a.builder.mempool == b.mempool
            && PoolHolds(a.builder.chain.pool, c.operator, 0)
  {
    MinesBlockExactly(b, BundleOf(c), CLEAN);
    MinesBlockExactly(b, BundleOf(c), NOT_MINED);
    BuilderParses(c, VICTIM_TIP);
    UnminedBundleWaits(b, TheJob(c, VICTIM_TIP), NOT_MINED, c.operator, 0);
    UnminedKeepsNonces(b, BundleOf(c), NOT_MINED);
    NotMinedFails(b, BundleOf(c));
  }

  lemma NotMinedFails(b: BuilderState, raw: RawBundle)
    requires Parse(b.mempool, raw).Good? && Target(raw, Head(b.chain)) == Head(b.chain)
    ensures Mine(b, raw, NOT_MINED).response == Failed(502) && Mine(b, raw, NOT_MINED).builder.mempool == b.mempool
  {
  }

  lemma IsSentButNotMined(c: Cast, p: Pipe)
    requires Distinct(c) && FirstRun.WorksOn(p, X(c), Submitting(TheJob(c, VICTIM_TIP), 1))
    requires MinesBlock(p.sys.builder, BundleOf(c), CLEAN)
    ensures WaitsInPool(c, DoSubmit(p, Answered, NOT_MINED))
  {
    SentButNotMined(c, p.sys.builder);
    FailedAttempt(p, TheJob(c, VICTIM_TIP), NOT_MINED);
  }

  lemma IsPickedUp(c: Cast, q: Pipe)
    requires Distinct(c) && WaitsInPool(c, q)
    ensures !Lags(q) && Lags(Do(q, NextBlock())) && Do(q, NextBlock()).mined == []
  {
    OthersLag(q, RMineBlock);
  }
}
