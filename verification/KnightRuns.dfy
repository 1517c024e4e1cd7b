/** Every transaction of Knight that has a receipt, over all runs in which nobody else signs for the
    bot: on which head it was sent, by which request, and when the nonce has fallen behind. */
module KnightRuns {
  import opened Common
  import opened Domain
  import opened TxChain
  import opened BuilderMempool
  import opened Bundles
  import opened TxComposer
  import opened Signer
  import opened Sync
  import opened SyncCoherence
  import opened Pipeline
  import opened PipelineSafety
  import opened NonceLag

  // ---------------------------------------------------------------- requests that left a trace

  /** The request was about a prepared job, pinned to the head it found. It had seen the bundle
      simulated as included in this iteration exactly if it was a submission; if it was a
      simulation, taking the chain back failed without effect. */
  ghost predicate LandingOk(prepared: seq<Job>, sims: seq<Simulation>, c: Chain, l: Landing)
  {
    && l.job in prepared
    && l.job.state.blockNumber == l.job.bundle.blockNumber == Some(Head(l.before.chain))
    && Extends(l.before.chain, c)
    && l.seen <= |sims|
    && (l.submitted <==> Simulated(sims[..l.seen], l.iteration, l.job.bundle, l.job.state.blockNumber))
    && (!l.submitted ==> Executes(l.before, l.job.bundle, l.faults) && l.faults.revert && !l.faults.revertLands)
  }

  ghost predicate LandedOk(prepared: seq<Job>, sims: seq<Simulation>, c: Chain, landed: seq<Landing>)
  {
    forall i :: 0 <= i < |landed| ==> LandingOk(prepared, sims, c, landed[i])
  }

  /** While a job is being simulated, no simulation of this iteration has come back as included. */
  ghost predicate NotYetSimulated(sims: seq<Simulation>, iteration: nat, task: Task)
  {
    && (forall i :: 0 <= i < |sims| ==> sims[i].iteration <= iteration)
    && (task.Simulating? ==> forall i :: 0 <= i < |sims| && sims[i].iteration == iteration ==> !sims[i].result.included)
  }

  ghost predicate LandingsOk(p: Pipe)
  {
    && LandedOk(p.prepared, p.simulations, p.sys.builder.chain, p.landed)
    && NotYetSimulated(p.simulations, p.iteration, p.task)
  }

  lemma LandingLater(prepared: seq<Job>, prepared': seq<Job>, sims: seq<Simulation>, sims': seq<Simulation>,
                     c: Chain, c': Chain, l: Landing)
    requires LandingOk(prepared, sims, c, l)
    requires prepared <= prepared' && sims <= sims' && Extends(c, c')
    ensures LandingOk(prepared', sims', c', l)
  {
    ExtendsTrans(l.before.chain, c, c');
    assert sims'[..l.seen] == sims[..l.seen];
  }

  lemma LandedLater(prepared: seq<Job>, prepared': seq<Job>, sims: seq<Simulation>, sims': seq<Simulation>,
                    c: Chain, c': Chain, landed: seq<Landing>)
    requires LandedOk(prepared, sims, c, landed)
    requires prepared <= prepared' && sims <= sims' && Extends(c, c')
    ensures LandedOk(prepared', sims', c', landed)
  {
    forall i | 0 <= i < |landed|
      ensures LandingOk(prepared', sims', c', landed[i])
    {
      LandingLater(prepared, prepared', sims, sims', c, c', landed[i]);
    }
  }

  /** What receiving does to the counts. */
  lemma ReceiveCounts(p: Pipe)
    requires p.task.Idle? && !p.sys.consumer.Asleep?
    ensures var q := DoReceive(p);
            && q.simulations == p.simulations && q.landed == p.landed && q.nextNonce == p.nextNonce
            && q.config == p.config && q.sys.builder == p.sys.builder && p.prepared <= q.prepared
            && p.iteration <= q.iteration && (q.task.Simulating? ==> q.iteration == p.iteration + 1)
  {
    ReceiveShape(p);
    LookDelivers(p.sys);
  }

  lemma ReceiveKeepsLandings(p: Pipe)
    requires LandingsOk(p) && p.task.Idle? && !p.sys.consumer.Asleep?
    ensures LandingsOk(DoReceive(p))
  {
    var c := p.sys.builder.chain;
    ReceiveCounts(p);
    ExtendsSelf(c);
    LandedLater(p.prepared, DoReceive(p).prepared, p.simulations, p.simulations, c, c, p.landed);
  }

  lemma ElsewhereKeepsLandings(p: Pipe, l: Sync.Label)
    requires LandingsOk(p) && BuilderOk(p.sys.builder) && !l.Look?
    ensures LandingsOk(p.(sys := Next(p.sys, l)))
  {
    ElsewhereExtends(p.sys, l);
    LandedLater(p.prepared, p.prepared, p.simulations, p.simulations, p.sys.builder.chain,
                Next(p.sys, l).builder.chain, p.landed);
  }

  /** What a request of Knight leaves in the histories. */
  ghost predicate RequestEffect(p: Pipe, q: Pipe, job: Job, f: Faults, submitted: bool)
  {
    && q.prepared == p.prepared && q.iteration == p.iteration && q.config == p.config
    && p.simulations <= q.simulations
    && (if q.sys.builder.chain == p.sys.builder.chain then q.landed == p.landed
        else q.landed == p.landed + [Landing(p.iteration, job, p.sys.builder, f, submitted, |p.simulations|)])
  }

  lemma SimulateEffect(p: Pipe, link: Link, f: Faults)
    requires p.task.Simulating?
    ensures var q := DoSimulate(p, link, f);
            && RequestEffect(p, q, p.task.job, f, false)
            && NextSimulations(p, q)
            && q.nextNonce == p.nextNonce
            && (link.NotSent? ==> q.sys.builder == p.sys.builder)
            && (!link.NotSent? ==> q.sys.builder == Simulate(p.sys.builder, p.task.job.bundle, f).builder)
  {
  }

  predicate NextSimulations(p: Pipe, q: Pipe)
  {
    || (q.simulations == p.simulations && !q.task.Submitting?)
    || (|q.simulations| == |p.simulations| + 1 && q.simulations[..|p.simulations|] == p.simulations
        && !q.task.Simulating? && q.simulations[|p.simulations|].iteration == p.iteration)
  }

  lemma SubmitEffects(p: Pipe, link: Link, f: Faults)
    requires p.task.Submitting?
    ensures var q := DoSubmit(p, link, f);
            && RequestEffect(p, q, p.task.job, f, true)
            && q.simulations == p.simulations && !q.task.Simulating?
            && q.nextNonce
               == NonceAfter(p.nextNonce, OutcomeOf(link, Mine(p.sys.builder, p.task.job.bundle, f).response))
            && (link.NotSent? ==> q.sys.builder == p.sys.builder)
            && (!link.NotSent? ==> q.sys.builder == Mine(p.sys.builder, p.task.job.bundle, f).builder)
  {
  }

  lemma SimulateKeepsCounts(p: Pipe, q: Pipe)
    requires NotYetSimulated(p.simulations, p.iteration, p.task) && NextSimulations(p, q)
    requires p.task.Simulating? && q.iteration == p.iteration
    ensures NotYetSimulated(q.simulations, q.iteration, q.task)
  {
  }

  /** A request that left a trace was pinned to the head it found. */
  lemma TraceIsPinned(b: BuilderState, bundle: RawBundle, f: Faults)
    ensures Simulate(b, bundle, f).builder.chain != b.chain ==>
              Executes(b, bundle, f) && f.revert && !f.revertLands
    ensures Mine(b, bundle, f).builder.chain != b.chain ==> Target(bundle, Head(b.chain)) == Head(b.chain)
  {
    SimulateChangesNothing(b, bundle, f);
  }

  lemma NewLanding(p: Pipe, q: Pipe, job: Job, f: Faults, submitted: bool)
    requires LandedOk(p.prepared, p.simulations, p.sys.builder.chain, p.landed)
    requires RequestEffect(p, q, job, f, submitted) && Extends(p.sys.builder.chain, q.sys.builder.chain)
    requires job in p.prepared && Pinned(job)
    requires submitted <==> Simulated(p.simulations, p.iteration, job.bundle, job.state.blockNumber)
    requires q.sys.builder.chain != p.sys.builder.chain ==>
               && Target(job.bundle, Head(p.sys.builder.chain)) == Head(p.sys.builder.chain)
               && (!submitted ==> Executes(p.sys.builder, job.bundle, f) && f.revert && !f.revertLands)
    ensures LandedOk(q.prepared, q.simulations, q.sys.builder.chain, q.landed)
  {
    var c, c' := p.sys.builder.chain, q.sys.builder.chain;
    LandedLater(p.prepared, p.prepared, p.simulations, q.simulations, c, c', p.landed);
    if c' != c {
      var l := Landing(p.iteration, job, p.sys.builder, f, submitted, |p.simulations|);
      assert q.simulations[..l.seen] == p.simulations;
      assert LandingOk(q.prepared, q.simulations, c', l);
    }
  }

  lemma SimulateKeepsLandings(p: Pipe, link: Link, f: Faults)
    requires LandingsOk(p) && BuilderOk(p.sys.builder) && p.task.Simulating?
    requires TaskOk(p.prepared, p.task, p.nextNonce, p.iteration, p.simulations)
    ensures LandingsOk(DoSimulate(p, link, f))
  {
    var q, job := DoSimulate(p, link, f), p.task.job;
    SimulateEffect(p, link, f);
    SimulateKeepsCounts(p, q);
    ExtendsSelf(p.sys.builder.chain);
    ServeKeeps(p.sys.builder, RSimulate(job.bundle, f));
    TraceIsPinned(p.sys.builder, job.bundle, f);
    NewLanding(p, q, job, f, false);
  }

  lemma SubmitKeepsLandings(p: Pipe, link: Link, f: Faults)
    requires LandingsOk(p) && BuilderOk(p.sys.builder) && p.task.Submitting?
    requires TaskOk(p.prepared, p.task, p.nextNonce, p.iteration, p.simulations)
    ensures LandingsOk(DoSubmit(p, link, f))
  {
    var q, job := DoSubmit(p, link, f), p.task.job;
    SubmitEffects(p, link, f);
    ExtendsSelf(p.sys.builder.chain);
    ServeKeeps(p.sys.builder, RMine(job.bundle, f));
    TraceIsPinned(p.sys.builder, job.bundle, f);
    NewLanding(p, q, job, f, true);
  }

  lemma DoKeepsLandings(p: Pipe, act: Act, initial: nat)
    requires PipeOk(p, initial) && LandingsOk(p)
    ensures LandingsOk(Do(p, act))
  {
    match act
    case Elsewhere(l) => if !l.Look? { ElsewhereKeepsLandings(p, l); }
    case Receive => if p.task.Idle? && !p.sys.consumer.Asleep? { ReceiveKeepsLandings(p); }
    case TrySimulate(link, f) => if p.task.Simulating? { SimulateKeepsLandings(p, link, f); }
    case TrySubmit(link, f) => if p.task.Submitting? { SubmitKeepsLandings(p, link, f); }
    case Stop =>
  }

  // ---------------------------------------------------------------- the bot on the chain

  function Homes(landed: seq<Landing>): Signer.Homes
  {
    set l | l in landed :: (l.job.tx, Head(l.before.chain))
  }

  /** What holds of the bot's transactions; `base` is its nonce on the chain at the start. */
  ghost predicate BotOk(builder: BuilderState, bot: Address, base: nat, next: Option<nat>, landed: seq<Landing>)
  {
    && next.Some? && SignerOk(builder.chain, bot, base, next.value, Homes(landed))
    && MempoolFree(builder.mempool, bot)
  }

  /** Nobody else signs for the bot: neither a request elsewhere ... */
  predicate Foreign(act: Act, bot: Address)
  {
    act.Elsewhere? && act.step.Request? ==> !SignsRequest(act.step.request, bot)
  }

  predicate AllForeign(acts: seq<Act>, bot: Address)
  {
    forall i :: 0 <= i < |acts| ==> Foreign(acts[i], bot)
  }

  /** ... nor anything in the builder at the start. */
  ghost predicate StartsFree(b: BuilderState, bot: Address)
  {
    MempoolFree(b.mempool, bot) && forall i :: 0 <= i < |b.chain.pool| ==> b.chain.pool[i].from != bot
  }

  lemma OnlyRequestsTouchBuilder(s: Sys, l: Sync.Label)
    requires !l.Request? && !l.Look?
    ensures Next(s, l).builder == s.builder
  {
  }

  lemma ElsewhereKeepsBot(p: Pipe, l: Sync.Label, base: nat)
    requires BotOk(p.sys.builder, p.config.bot, base, p.nextNonce, p.landed) && BuilderOk(p.sys.builder)
    requires !l.Look? && Foreign(Elsewhere(l), p.config.bot)
    ensures BotOk(Next(p.sys, l).builder, p.config.bot, base, p.nextNonce, p.landed)
  {
    if l.Request? {
      ServeKeepsSigner(p.sys.builder, l.request, p.config.bot, base, p.nextNonce.value, Homes(p.landed));
    } else {
      OnlyRequestsTouchBuilder(p.sys, l);
    }
  }

  /** The job at hand carries the bot's next transaction, and its bundle no other one of the bot. */
  lemma TaskCarriesNonce(p: Pipe, initial: nat)
    requires PipeOk(p, initial)
    ensures p.nextNonce.Some? && CarriesNonce(p.config, p.task, p.nextNonce.value)
    ensures p.task.Simulating? || p.task.Submitting? ==> p.task.job.bundle.items[0].Ref?
  {
    if p.task.Simulating? || p.task.Submitting? {
      var job := p.task.job;
      var k :| 0 <= k < |p.prepared| && p.prepared[k] == job;
      assert JobOk(p.sys.delivered, p.config, p.prepared[k]);
      PrepareCarriesNonce(job.state, p.config, Some(job.tx.nonce), job);
      ComposedShape(p.config, Some(job.tx.nonce), job.opportunity, job.tx);
    }
  }

  /** Knight's own bundle may be sent once its landing is on record. */
  lemma OwnBundleKeepsSigner(b: BuilderState, job: Job, f: Faults, bot: Address, base: nat, next: nat,
                             homes: Signer.Homes, more: Signer.Homes)
    requires SignerOk(b.chain, bot, base, next, homes) && MempoolFree(b.mempool, bot)
    requires |job.bundle.items| == 2 && job.bundle.items[0].Ref? && job.bundle.items[1] == Raw(job.tx)
    requires job.tx.nonce == next && more == homes + {(job.tx, Head(b.chain))}
    ensures SignerOk(Simulate(b, job.bundle, f).builder.chain, bot, base, next, more)
    ensures SignerOk(Mine(b, job.bundle, f).builder.chain, bot, base, next, more)
  {
    MoreHomes(b.chain, bot, base, next, homes, more);
    BundleKeepsSigner(b, job.bundle, f, bot, base, next, more);
  }

  lemma NewHome(landed: seq<Landing>, l: Landing)
    ensures Homes(landed + [l]) == Homes(landed) + {(l.job.tx, Head(l.before.chain))}
  {
  }

  lemma RequestKeepsBot(p: Pipe, q: Pipe, f: Faults, submitted: bool, base: nat)
    requires BotOk(p.sys.builder, p.config.bot, base, p.nextNonce, p.landed) && BuilderOk(p.sys.builder)
    requires p.task.Simulating? || p.task.Submitting?
    requires CarriesNonce(p.config, p.task, p.nextNonce.value) && p.task.job.bundle.items[0].Ref?
    requires RequestEffect(p, q, p.task.job, f, submitted)
    requires || q.sys.builder == p.sys.builder
             || q.sys.builder == Serve(p.sys.builder, if submitted then RMine(p.task.job.bundle, f)
                                                      else RSimulate(p.task.job.bundle, f))
    ensures BotOk(q.sys.builder, p.config.bot, base, p.nextNonce, q.landed)
  {
    var b, job, bot, next := p.sys.builder, p.task.job, p.config.bot, p.nextNonce.value;
    if q.sys.builder != b {
      ServeKeepsFree(b, if submitted then RMine(job.bundle, f) else RSimulate(job.bundle, f), bot);
    }
    if q.sys.builder.chain != b.chain {
      NewHome(p.landed, Landing(p.iteration, job, b, f, submitted, |p.simulations|));
      OwnBundleKeepsSigner(b, job, f, bot, base, next, Homes(p.landed), Homes(q.landed));
    }
  }

  lemma SimulateKeepsBot(p: Pipe, link: Link, f: Faults, initial: nat, base: nat)
    requires PipeOk(p, initial) && p.task.Simulating?
    requires BotOk(p.sys.builder, p.config.bot, base, p.nextNonce, p.landed)
    ensures var q := DoSimulate(p, link, f); BotOk(q.sys.builder, q.config.bot, base, q.nextNonce, q.landed)
  {
    TaskCarriesNonce(p, initial);
    SimulateEffect(p, link, f);
    SimulationKeepsBot(p, DoSimulate(p, link, f), f, base);
  }

  lemma SimulationKeepsBot(p: Pipe, q: Pipe, f: Faults, base: nat)
    requires BotOk(p.sys.builder, p.config.bot, base, p.nextNonce, p.landed) && BuilderOk(p.sys.builder)
    requires p.task.Simulating? && CarriesNonce(p.config, p.task, p.nextNonce.value)
    requires p.task.job.bundle.items[0].Ref?
    requires RequestEffect(p, q, p.task.job, f, false) && q.nextNonce == p.nextNonce
    requires || q.sys.builder == p.sys.builder
             || q.sys.builder == Simulate(p.sys.builder, p.task.job.bundle, f).builder
    ensures BotOk(q.sys.builder, q.config.bot, base, q.nextNonce, q.landed)
  {
    RequestKeepsBot(p, q, f, false, base);
  }

  /** A submission with a result has used its nonce. */
  lemma ResultUsesNonce(b: BuilderState, job: Job, f: Faults)
    requires MempoolOk(b.mempool) && BuilderOk(b)
    requires |job.bundle.items| == 2 && job.bundle.items[1] == Raw(job.tx)
    requires job.tx.nonce <= Nonce(b.chain.latest, job.tx.from)
    requires Mine(b, job.bundle, f).response.Ok?
    ensures Nonce(Mine(b, job.bundle, f).builder.chain.latest, job.tx.from) > job.tx.nonce
  {
    ResultMines(b, job.bundle, f);
    if job.tx.nonce == Nonce(b.chain.latest, job.tx.from) {
      MiningUsesNonce(b, job.bundle, f, 1);
    } else {
      ServeGrowsNonces(b, RMine(job.bundle, f));
    }
  }

  lemma ResultMines(b: BuilderState, raw: RawBundle, f: Faults)
    requires Mine(b, raw, f).response.Ok?
    ensures MinesBlock(b, raw, f)
  {
    SendAllPool(b.chain, Parse(b.mempool, raw).value, f);
  }

  lemma SubmitKeepsBot(p: Pipe, link: Link, f: Faults, initial: nat, base: nat)
    requires PipeOk(p, initial) && p.task.Submitting?
    requires BotOk(p.sys.builder, p.config.bot, base, p.nextNonce, p.landed)
    ensures var q := DoSubmit(p, link, f); BotOk(q.sys.builder, q.config.bot, base, q.nextNonce, q.landed)
  {
    var q := DoSubmit(p, link, f);
    TaskCarriesNonce(p, initial);
    SubmitEffects(p, link, f);
    RequestKeepsBot(p, q, f, true, base);
    SubmissionCounts(p, q, link, f, base);
  }

  /** The nonce is only counted when the submission has used it. */
  lemma SubmissionCounts(p: Pipe, q: Pipe, link: Link, f: Faults, base: nat)
    requires BuilderOk(p.sys.builder) && p.task.Submitting?
    requires p.nextNonce.Some? && CarriesNonce(p.config, p.task, p.nextNonce.value)
    requires p.nextNonce.value <= Nonce(p.sys.builder.chain.latest, p.config.bot)
    requires BotOk(q.sys.builder, p.config.bot, base, p.nextNonce, q.landed)
    requires var a := Mine(p.sys.builder, p.task.job.bundle, f);
             && q.nextNonce == NonceAfter(p.nextNonce, OutcomeOf(link, a.response))
             && (OutcomeOf(link, a.response).Result? ==> q.sys.builder == a.builder)
    ensures BotOk(q.sys.builder, p.config.bot, base, q.nextNonce, q.landed)
  {
    if OutcomeOf(link, Mine(p.sys.builder, p.task.job.bundle, f).response).Result? {
      ResultUsesNonce(p.sys.builder, p.task.job, f);
      NextNonce(q.sys.builder.chain, p.config.bot, base, p.nextNonce.value, Homes(q.landed));
    }
  }

  lemma DoKeepsBot(p: Pipe, act: Act, initial: nat, base: nat)
    requires PipeOk(p, initial) && BotOk(p.sys.builder, p.config.bot, base, p.nextNonce, p.landed)
    requires Foreign(act, p.config.bot)
    ensures var q := Do(p, act); BotOk(q.sys.builder, q.config.bot, base, q.nextNonce, q.landed)
  {
    match act
    case Elsewhere(l) => if !l.Look? { ElsewhereKeepsBot(p, l, base); }
    case Receive => if p.task.Idle? && !p.sys.consumer.Asleep? { ReceiveCounts(p); }
    case TrySimulate(link, f) => if p.task.Simulating? { SimulateKeepsBot(p, link, f, initial, base); }
    case TrySubmit(link, f) => if p.task.Submitting? { SubmitKeepsBot(p, link, f, initial, base); }
    case Stop =>
  }

  /** All that is known of a run in which nobody else signs for the bot. */
  ghost predicate RunOk(p: Pipe, initial: nat, base: nat)
  {
    PipeOk(p, initial) && LandingsOk(p) && BotOk(p.sys.builder, p.config.bot, base, p.nextNonce, p.landed)
  }

  lemma DoKeepsRun(p: Pipe, act: Act, initial: nat, base: nat)
    requires RunOk(p, initial, base) && Foreign(act, p.config.bot)
    ensures RunOk(Do(p, act), initial, base)
  {
    DoKeeps(p, act, initial);
    DoKeepsLandings(p, act, initial);
    DoKeepsBot(p, act, initial, base);
  }

  lemma {:induction false} DoAllKeepsRun(p: Pipe, acts: seq<Act>, initial: nat, base: nat)
    requires RunOk(p, initial, base) && AllForeign(acts, p.config.bot)
    ensures RunOk(DoAll(p, acts), initial, base)
    decreases |acts|
  {
    if acts != [] {
      DoAllKeepsRun(p, acts[..|acts| - 1], initial, base);
      ConfigStays(p, acts[..|acts| - 1]);
      DoKeepsRun(DoAll(p, acts[..|acts| - 1]), acts[|acts| - 1], initial, base);
    }
  }

  lemma StartIsRun(pools: seq<Pool>, builder: BuilderState, config: BackrunConfig, nonce: nat)
    requires BuilderOk(builder) && StartsFree(builder, config.bot)
    requires nonce <= Nonce(builder.chain.latest, config.bot)
    ensures RunOk(Start(Init(pools, builder), config, nonce), nonce, Nonce(builder.chain.latest, config.bot))
  {
    StartOk(pools, builder, config, nonce);
  }

  lemma EveryRunIsOk(pools: seq<Pool>, builder: BuilderState, config: BackrunConfig, nonce: nat, acts: seq<Act>)
    requires BuilderOk(builder) && StartsFree(builder, config.bot) && AllForeign(acts, config.bot)
    requires nonce <= Nonce(builder.chain.latest, config.bot)
    ensures RunOk(DoAll(Start(Init(pools, builder), config, nonce), acts), nonce,
                  Nonce(builder.chain.latest, config.bot))
    ensures DoAll(Start(Init(pools, builder), config, nonce), acts).config == config
  {
    StartIsRun(pools, builder, config, nonce);
    DoAllKeepsRun(Start(Init(pools, builder), config, nonce), acts, nonce, Nonce(builder.chain.latest, config.bot));
    ConfigStays(Start(Init(pools, builder), config, nonce), acts);
  }

  // ---------------------------------------------------------------- pinned receipts

  /** The receipt comes from this request: it sent the transaction on the head right below the
      receipt's block, whose reserves had priced it, and had seen it simulated as included exactly
      if it was a submission. */
  ghost predicate ReceiptFrom(p: Pipe, tx: Transaction, l: Landing)
    requires tx in p.sys.builder.chain.receipts
  {
    var c, head := p.sys.builder.chain, Head(l.before.chain);
    && l.job in p.prepared && l.job.tx == tx
    && c.receipts[tx].blockNumber == head + 1
    && l.job.bundle.blockNumber == l.job.state.blockNumber == Some(head)
    && head <= Head(c) && BlockAt(c, head) == l.before.chain.latest
    && ShowsBlock(p.sys.pools, l.job.state.pools, c, head)
    && l.seen <= |p.simulations|
    && (l.submitted <==> Simulated(p.simulations[..l.seen], l.iteration, l.job.bundle, Some(head)))
    && (!l.submitted ==> Executes(l.before, l.job.bundle, l.faults) && l.faults.revert && !l.faults.revertLands)
  }

  /** In every run in which nobody else signs for the bot, whoever mined the block: every
      transaction of the bot with a receipt comes from a request of Knight pinned to the head right
      below its block. */
  lemma ReceiptsArePinned(pools: seq<Pool>, builder: BuilderState, config: BackrunConfig, nonce: nat, acts: seq<Act>,
                          tx: Transaction)
    returns (l: Landing)
    requires BuilderOk(builder) && StartsFree(builder, config.bot) && AllForeign(acts, config.bot)
    requires nonce <= Nonce(builder.chain.latest, config.bot) <= tx.nonce && tx.from == config.bot
    requires tx in DoAll(Start(Init(pools, builder), config, nonce), acts).sys.builder.chain.receipts
    ensures var p := DoAll(Start(Init(pools, builder), config, nonce), acts);
            l in p.landed && ReceiptFrom(p, tx, l)
  {
    EveryRunIsOk(pools, builder, config, nonce, acts);
    l := ReceiptIsPinned(DoAll(Start(Init(pools, builder), config, nonce), acts), nonce,
                         Nonce(builder.chain.latest, config.bot), tx);
  }

  lemma ReceiptIsPinned(p: Pipe, initial: nat, base: nat, tx: Transaction) returns (l: Landing)
    requires RunOk(p, initial, base) && tx.from == p.config.bot && base <= tx.nonce
    requires tx in p.sys.builder.chain.receipts
    ensures l in p.landed && ReceiptFrom(p, tx, l)
  {
    var c := p.sys.builder.chain;
    l := HomeOfReceipt(c, p.config.bot, base, p.nextNonce.value, p.landed, tx);
    var i :| 0 <= i < |p.landed| && p.landed[i] == l;
    assert LandingOk(p.prepared, p.simulations, c, p.landed[i]);
    JobSeesHead(p, initial, l.job);
    assert BlockAt(c, Head(l.before.chain)) == BlockAt(l.before.chain, Head(l.before.chain));
  }

  lemma HomeOfReceipt(c: Chain, bot: Address, base: nat, next: nat, landed: seq<Landing>, tx: Transaction)
    returns (l: Landing)
    requires SignerOk(c, bot, base, next, Homes(landed)) && tx.from == bot && base <= tx.nonce && tx in c.receipts
    ensures l in landed && l.job.tx == tx && c.receipts[tx].blockNumber == Head(l.before.chain) + 1
  {
    var home := (tx, c.receipts[tx].blockNumber - 1);
    assert home in Homes(landed);
    l :| l in landed && home == (l.job.tx, Head(l.before.chain));
  }

  /** A prepared job saw every configured pool with the reserves of its block. */
  lemma JobSeesHead(p: Pipe, initial: nat, job: Job)
    requires PipeOk(p, initial) && job in p.prepared
    ensures job.state.blockNumber.Some?
    ensures ShowsBlock(p.sys.pools, job.state.pools, p.sys.builder.chain, job.state.blockNumber.value)
  {
    var k :| 0 <= k < |p.prepared| && p.prepared[k] == job;
    assert JobOk(p.sys.delivered, p.config, p.prepared[k]);
    PrepareCarriesNonce(job.state, p.config, Some(job.tx.nonce), job);
    DeliveryIsUsable(p.sys, job.state);
  }

  // ---------------------------------------------------------------- when the nonce has fallen behind

  /** In every run that starts in step and in which nobody else signs for the bot: Knight lags if and
      only if a transaction with the nonce it is about to use has a receipt ... */
  lemma LagMeansReceipt(pools: seq<Pool>, builder: BuilderState, config: BackrunConfig, nonce: nat, acts: seq<Act>)
    requires BuilderOk(builder) && StartsFree(builder, config.bot) && AllForeign(acts, config.bot)
    requires nonce == Nonce(builder.chain.latest, config.bot)
    ensures var p := DoAll(Start(Init(pools, builder), config, nonce), acts);
            && p.nextNonce.Some?
            && (Lags(p) <==> exists i :: 0 <= i < |p.landed| && HasReceipt(p, p.landed[i]))
  {
    EveryRunIsOk(pools, builder, config, nonce, acts);
    LagMeansLanding(DoAll(Start(Init(pools, builder), config, nonce), acts), nonce);
  }

  /** ... and that is one of its own. */
  predicate HasReceipt(p: Pipe, l: Landing)
  {
    l.job.tx in p.sys.builder.chain.receipts && Some(l.job.tx.nonce) == p.nextNonce
  }

  lemma LagMeansLanding(p: Pipe, base: nat)
    requires RunOk(p, base, base)
    ensures p.nextNonce.Some?
    ensures Lags(p) <==> exists i :: 0 <= i < |p.landed| && HasReceipt(p, p.landed[i])
  {
    TaskCarriesNonce(p, base);
    if Lags(p) {
      var i := LagHasLanding(p.sys.builder.chain, p.config.bot, base, p.nextNonce.value, p.landed);
      assert HasReceipt(p, p.landed[i]);
    }
    if i :| 0 <= i < |p.landed| && HasReceipt(p, p.landed[i]) {
      LandedByBot(p, base, i);
      ReceiptUsesNonce(p.sys.builder.chain, p.landed[i].job.tx);
    }
  }

  lemma LagHasLanding(c: Chain, bot: Address, base: nat, next: nat, landed: seq<Landing>) returns (i: nat)
    requires SignerOk(c, bot, base, next, Homes(landed)) && base <= next < Nonce(c.latest, bot)
    ensures i < |landed| && landed[i].job.tx in c.receipts && landed[i].job.tx.nonce == next
  {
    assert Used(c.receipts, bot, next);
    var tx :| tx in c.receipts && tx.from == bot && tx.nonce == next;
    var l := HomeOfReceipt(c, bot, base, next, landed, tx);
    i :| 0 <= i < |landed| && landed[i] == l;
  }

  lemma ReceiptUsesNonce(c: Chain, tx: Transaction)
    requires ChainOk(c) && tx in c.receipts
    ensures tx.nonce < Nonce(c.latest, tx.from)
  {
  }

  lemma LandedByBot(p: Pipe, base: nat, i: nat)
    requires RunOk(p, base, base) && i < |p.landed|
    ensures p.landed[i].job.tx.from == p.config.bot && ChainOk(p.sys.builder.chain)
  {
    assert LandingOk(p.prepared, p.simulations, p.sys.builder.chain, p.landed[i]);
    JobIsOfBot(p, base, p.landed[i].job);
  }

  lemma JobIsOfBot(p: Pipe, initial: nat, job: Job)
    requires PipeOk(p, initial) && job in p.prepared
    ensures job.tx.from == p.config.bot
  {
    var k :| 0 <= k < |p.prepared| && p.prepared[k] == job;
    assert JobOk(p.sys.delivered, p.config, p.prepared[k]);
    PrepareCarriesNonce(job.state, p.config, Some(job.tx.nonce), job);
    ComposedShape(p.config, Some(job.tx.nonce), job.opportunity, job.tx);
  }

  // ---------------------------------------------------------------- how it falls behind

  /** What makes Knight lag, on the inputs of one act: its own block that a simulation cannot take
      back, its own block without a result, or a block of somebody else while a transaction of the
      bot with that nonce is waiting. */
  predicate MakesLag(p: Pipe, act: Act, nonce: nat)
  {
    match act
    case TrySimulate(link, f) =>
      p.task.Simulating? && !link.NotSent? && SimulationMines(p.sys.builder, p.task.job.bundle, f)
    case TrySubmit(link, f) =>
      && p.task.Submitting? && !link.NotSent? && MinesBlock(p.sys.builder, p.task.job.bundle, f)
      && (!link.Answered? || f.mine || f.receipts)
    case Elsewhere(Request(q)) =>
      RequestMines(p.sys.builder, q) && PoolHolds(p.sys.builder.chain.pool, p.config.bot, nonce)
    case _ => false
  }

  /** The border: in every reachable state, a nonce that is in step begins to lag by exactly these
      acts. */
  lemma LagBegins(p: Pipe, act: Act, initial: nat, base: nat)
    requires RunOk(p, initial, base) && Foreign(act, p.config.bot) && p.nextNonce == Some(ChainNonce(p))
    ensures Lags(Do(p, act)) <==> MakesLag(p, act, ChainNonce(p))
  {
    TaskCarriesNonce(p, initial);
    match act
    case TrySimulate(link, f) => if p.task.Simulating? { SimulationLags(p, link, f); }
    case TrySubmit(link, f) => if p.task.Submitting? { SubmissionLags(p, link, f, initial, base); }
    case Elsewhere(Request(q)) => OthersLag(p, q);
    case Elsewhere(l) => if !l.Look? { OnlyRequestsTouchBuilder(p.sys, l); }
    case Receive => if p.task.Idle? && !p.sys.consumer.Asleep? { ReceiveCounts(p); }
    case Stop =>
  }

  lemma SubmissionLags(p: Pipe, link: Link, f: Faults, initial: nat, base: nat)
    requires RunOk(p, initial, base) && p.task.Submitting? && p.nextNonce == Some(ChainNonce(p))
    ensures Lags(DoSubmit(p, link, f))
            <==> && !link.NotSent? && MinesBlock(p.sys.builder, p.task.job.bundle, f)
                 && (!link.Answered? || f.mine || f.receipts)
  {
    TaskCarriesNonce(p, initial);
    if OutcomeOf(link, Mine(p.sys.builder, p.task.job.bundle, f).response).Result? {
      ResultKeepsUp(p, link, f, base);
    }
    SubmissionBorder(p, link, f);
  }

  lemma SubmissionBorder(p: Pipe, link: Link, f: Faults)
    requires MempoolOk(p.sys.builder.mempool) && p.task.Submitting? && p.nextNonce == Some(ChainNonce(p))
    requires CarriesNonce(p.config, p.task, ChainNonce(p))
    requires OutcomeOf(link, Mine(p.sys.builder, p.task.job.bundle, f).response).Result? ==>
               !Lags(DoSubmit(p, link, f))
    ensures Lags(DoSubmit(p, link, f))
            <==> && !link.NotSent? && MinesBlock(p.sys.builder, p.task.job.bundle, f)
                 && (!link.Answered? || f.mine || f.receipts)
  {
    ResultExactly(p.sys.builder, p.task.job.bundle, link, f);
    if !OutcomeOf(link, Mine(p.sys.builder, p.task.job.bundle, f).response).Result? {
      LostResultLags(p, link, f);
    }
  }

  lemma ResultExactly(b: BuilderState, bundle: RawBundle, link: Link, f: Faults)
    requires MempoolOk(b.mempool)
    ensures OutcomeOf(link, Mine(b, bundle, f).response).Result?
            <==> link.Answered? && MinesBlock(b, bundle, f) && !f.mine && !f.receipts
  {
    if MinesBlock(b, bundle, f) {
      ReportedExactly(b, bundle, f);
    }
    if Mine(b, bundle, f).response.Ok? {
      ResultMines(b, bundle, f);
    }
  }

  /** With a result the nonce keeps up, because only one transaction was ahead. */
  lemma ResultKeepsUp(p: Pipe, link: Link, f: Faults, base: nat)
    requires BotOk(p.sys.builder, p.config.bot, base, p.nextNonce, p.landed) && BuilderOk(p.sys.builder)
    requires p.task.Submitting? && p.nextNonce == Some(ChainNonce(p))
    requires CarriesNonce(p.config, p.task, p.nextNonce.value) && p.task.job.bundle.items[0].Ref?
    requires OutcomeOf(link, Mine(p.sys.builder, p.task.job.bundle, f).response).Result?
    ensures !Lags(DoSubmit(p, link, f))
  {
    SubmitEffects(p, link, f);
    SubmissionKeepsUp(p, DoSubmit(p, link, f), f, base);
  }

  lemma SubmissionKeepsUp(p: Pipe, q: Pipe, f: Faults, base: nat)
    requires BotOk(p.sys.builder, p.config.bot, base, p.nextNonce, p.landed) && BuilderOk(p.sys.builder)
    requires p.task.Submitting? && p.nextNonce == Some(ChainNonce(p))
    requires CarriesNonce(p.config, p.task, p.nextNonce.value) && p.task.job.bundle.items[0].Ref?
    requires RequestEffect(p, q, p.task.job, f, true) && q.nextNonce == Some(ChainNonce(p) + 1)
    requires || q.sys.builder == p.sys.builder
             || q.sys.builder == Serve(p.sys.builder, RMine(p.task.job.bundle, f))
    ensures !Lags(q)
  {
    RequestKeepsBot(p, q, f, true, base);
  }

  /** Over whole runs that start in step: the nonce is never ahead of the chain, and until Knight lags
      it begins to by exactly these acts. After that it lags for ever (NonceLag.LagIsForever). */
  lemma LagBorder(pools: seq<Pool>, builder: BuilderState, config: BackrunConfig, nonce: nat, acts: seq<Act>, act: Act)
    requires BuilderOk(builder) && StartsFree(builder, config.bot)
    requires AllForeign(acts, config.bot) && Foreign(act, config.bot)
    requires nonce == Nonce(builder.chain.latest, config.bot)
    ensures var p := DoAll(Start(Init(pools, builder), config, nonce), acts);
            && p.nextNonce.Some? && p.nextNonce.value <= ChainNonce(p)
            && (!Lags(p) ==> (Lags(Do(p, act)) <==> MakesLag(p, act, ChainNonce(p))))
  {
    EveryRunIsOk(pools, builder, config, nonce, acts);
    LagBorderIn(DoAll(Start(Init(pools, builder), config, nonce), acts), act, nonce);
  }

  lemma LagBorderIn(p: Pipe, act: Act, base: nat)
    requires RunOk(p, base, base) && Foreign(act, p.config.bot)
    ensures p.nextNonce.Some? && p.nextNonce.value <= ChainNonce(p)
    ensures !Lags(p) ==> (Lags(Do(p, act)) <==> MakesLag(p, act, ChainNonce(p)))
  {
    TaskCarriesNonce(p, base);
    if !Lags(p) {
      LagBegins(p, act, base, base);
    }
  }

  // ---------------------------------------------------------------- what waits in the pool

  /** The second of two sends takes effect. */
  predicate SecondLands(c: Chain, items: seq<Item>, f: Faults)
    requires |items| == 2
  {
    && items[0].tx.nonce >= Nonce(c.latest, items[0].tx.from) && items[1].tx.nonce >= Nonce(c.latest, items[1].tx.from)
    && f.sendAt != Some(0) && !(f.sendAt == Some(1) && !f.sendLands)
  }

  lemma SentSecond(c: Chain, items: seq<Item>, f: Faults, bot: Address, nonce: nat)
    requires |items| == 2 && items[0].tx.from != bot && items[1].tx.from == bot && items[1].tx.nonce == nonce
    ensures PoolHolds(SendAll(c, items, f).chain.pool, bot, nonce)
            <==> PoolHolds(c.pool, bot, nonce) || SecondLands(c, items, f)
  {
    var one := items[..1];
    assert one[..0] == [] && SendAll(c, one[..0], f) == Sent(c, true);
    var s := SendAll(c, one, f);
    assert s == SendOne(c, items[0].tx, f.sendAt == Some(0), f.sendLands);
    OneMoreWaits(c.pool, items[0].tx, bot, nonce);
    if s.ok {
      OneMoreWaits(s.chain.pool, items[1].tx, bot, nonce);
    }
  }

  lemma OneMoreWaits(pool: seq<Transaction>, tx: Transaction, bot: Address, nonce: nat)
    ensures PoolHolds(pool + [tx], bot, nonce) <==> PoolHolds(pool, bot, nonce) || (tx.from == bot && tx.nonce == nonce)
  {
    var more := pool + [tx];
    assert more[|pool|] == tx;
    if PoolHolds(pool, bot, nonce) {
      var i :| 0 <= i < |pool| && pool[i].from == bot && pool[i].nonce == nonce;
      assert more[i] == pool[i];
    }
  }

  /** A submission that mines no block leaves the bot's transaction waiting if and only if one waited
      before or its own send took effect; the next block of anybody then makes the nonce lag. */
  lemma UnminedSubmissionWaits(p: Pipe, f: Faults, initial: nat, base: nat)
    requires RunOk(p, initial, base) && p.task.Submitting? && p.nextNonce == Some(ChainNonce(p))
    requires !MinesBlock(p.sys.builder, p.task.job.bundle, f)
    ensures var b, raw := p.sys.builder, p.task.job.bundle;
            PoolHolds(Mine(b, raw, f).builder.chain.pool, p.config.bot, ChainNonce(p))
            <==> || PoolHolds(b.chain.pool, p.config.bot, ChainNonce(p))
                 || (&& Parse(b.mempool, raw).Good? && !f.head && Target(raw, Head(b.chain)) == Head(b.chain)
                     && |Parse(b.mempool, raw).value| == 2 && SecondLands(b.chain, Parse(b.mempool, raw).value, f))
  {
    TaskCarriesNonce(p, initial);
    UnminedBundleWaits(p.sys.builder, p.task.job, f, p.config.bot, ChainNonce(p));
  }

  lemma UnminedBundleWaits(b: BuilderState, job: Job, f: Faults, bot: Address, nonce: nat)
    requires MempoolFree(b.mempool, bot) && !MinesBlock(b, job.bundle, f)
    requires |job.bundle.items| == 2 && job.bundle.items[0].Ref? && job.bundle.items[1] == Raw(job.tx)
    requires job.tx.from == bot && job.tx.nonce == nonce
    ensures PoolHolds(Mine(b, job.bundle, f).builder.chain.pool, bot, nonce)
            <==> || PoolHolds(b.chain.pool, bot, nonce)
                 || (&& Parse(b.mempool, job.bundle).Good? && !f.head
                     && Target(job.bundle, Head(b.chain)) == Head(b.chain)
                     && |Parse(b.mempool, job.bundle).value| == 2
                     && SecondLands(b.chain, Parse(b.mempool, job.bundle).value, f))
  {
    MinesBlockExactly(b, job.bundle, f);
    if Parse(b.mempool, job.bundle).Good? {
      var items := Parse(b.mempool, job.bundle).value;
      ParsedItemsArePending(b.mempool, job.bundle.items, items);
      ParsedSigner(b.mempool, job.bundle, items, bot);
      SendAllOk(b.chain, items, f);
      SentSecond(b.chain, items, f, bot, nonce);
    }
  }
}
