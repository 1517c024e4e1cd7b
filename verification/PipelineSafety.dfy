/** Pinned execution and nonces over every run of chain, builder and Knight. */
module PipelineSafety {
  import opened Common
  import opened Domain
  import opened Ledger
  import opened LedgerInvariant
  import opened CandidateFilter
  import opened CandidateState
  import opened FindArbitrage
  import opened Abi
  import opened TxChain
  import opened BuilderMempool
  import opened Bundles
  import opened TxComposer
  import opened Refinement
  import opened Sync
  import opened SyncPartition
  import opened SyncCoherence
  import opened SyncRuns
  import opened Outcome
  import opened Pipeline

  // ---------------------------------------------------------------- the invariant

  /** The job was prepared from a delivered state with the nonce the transaction carries. */
  ghost predicate JobOk(delivered: seq<StateSnapshot>, config: BackrunConfig, job: Job)
  {
    job.state in delivered && Prepare(job.state, config, Some(job.tx.nonce)) == Some(job)
  }

  ghost predicate PreparedOk(delivered: seq<StateSnapshot>, config: BackrunConfig, prepared: seq<Job>)
  {
    forall i :: 0 <= i < |prepared| ==> JobOk(delivered, config, prepared[i])
  }

  /** The bundle names the block of the state that priced it. */
  predicate Pinned(job: Job)
  {
    job.state.blockNumber.Some? && job.bundle.blockNumber == job.state.blockNumber
  }

  /** In this iteration, on this head, the identical bundle was simulated as included. */
  ghost predicate Simulated(sims: seq<Simulation>, iteration: nat, bundle: RawBundle, head: Option<nat>)
  {
    exists i :: 0 <= i < |sims| && sims[i].iteration == iteration && sims[i].bundle == bundle
                && head == Some(sims[i].head) && sims[i].result.included
  }

  ghost predicate TaskOk(prepared: seq<Job>, task: Task, nonce: Option<nat>, iteration: nat, sims: seq<Simulation>)
  {
    && (task.Simulating? || task.Submitting? ==>
          && task.job in prepared && Pinned(task.job) && nonce == Some(task.job.tx.nonce)
          && 1 <= task.attempt <= MAX_ATTEMPTS)
    && (task.Submitting? ==> Simulated(sims, iteration, task.job.bundle, task.job.state.blockNumber))
  }

  /** A block was mined for this job: on the head that the job's state names. */
  ghost predicate MinedOk(prepared: seq<Job>, sims: seq<Simulation>, c: Chain, m: Mined)
  {
    && m.job in prepared
    && m.job.state.blockNumber == m.job.bundle.blockNumber == Some(Head(m.before.chain))
    && BuilderOk(m.before) && Extends(m.before.chain, c)
    && MinesBlock(m.before, m.job.bundle, m.faults)
    && m.job.state.candidate.Some? && Known(m.before.mempool, m.job.state.candidate.value.tx)
    && Simulated(sims, m.iteration, m.job.bundle, m.job.state.blockNumber)
  }

  ghost predicate HistoryOk(prepared: seq<Job>, sims: seq<Simulation>, c: Chain, mined: seq<Mined>)
  {
    forall i :: 0 <= i < |mined| ==> MinedOk(prepared, sims, c, mined[i])
  }

  /** The nonces of submissions with a result are initial, initial + 1, and so on. */
  predicate NoncesOk(used: seq<nat>, initial: nat, next: Option<nat>)
  {
    && (forall i :: 0 <= i < |used| ==> used[i] == initial + i)
    && next == Some(initial + |used|)
  }

  /** What the invariant says of the runtime's requests. */
  ghost predicate RequestsOk(p: Pipe, initial: nat)
  {
    && TaskOk(p.prepared, p.task, p.nextNonce, p.iteration, p.simulations)
    && HistoryOk(p.prepared, p.simulations, p.sys.builder.chain, p.mined)
    && NoncesOk(p.used, initial, p.nextNonce)
  }

  ghost predicate PipeOk(p: Pipe, initial: nat)
  {
    SysOk(p.sys) && PreparedOk(p.sys.delivered, p.config, p.prepared) && RequestsOk(p, initial)
  }

  // ---------------------------------------------------------------- longer histories

  lemma SimulatedLater(sims: seq<Simulation>, more: seq<Simulation>, iteration: nat, bundle: RawBundle,
                       head: Option<nat>)
    requires Simulated(sims, iteration, bundle, head) && sims <= more
    ensures Simulated(more, iteration, bundle, head)
  {
    var i :| 0 <= i < |sims| && sims[i].iteration == iteration && sims[i].bundle == bundle
             && head == Some(sims[i].head) && sims[i].result.included;
    assert more[i] == sims[i];
  }

  lemma MinedLater(prepared: seq<Job>, prepared': seq<Job>, sims: seq<Simulation>, sims': seq<Simulation>,
                   c: Chain, c': Chain, m: Mined)
    requires MinedOk(prepared, sims, c, m)
    requires prepared <= prepared' && sims <= sims' && Extends(c, c')
    ensures MinedOk(prepared', sims', c', m)
  {
    SimulatedLater(sims, sims', m.iteration, m.job.bundle, m.job.state.blockNumber);
    ExtendsTrans(m.before.chain, c, c');
  }

  /** Longer histories and a longer chain keep what was said about mined bundles. */
  lemma HistoryLater(prepared: seq<Job>, prepared': seq<Job>, sims: seq<Simulation>, sims': seq<Simulation>,
                     c: Chain, c': Chain, mined: seq<Mined>)
    requires HistoryOk(prepared, sims, c, mined)
    requires prepared <= prepared' && sims <= sims' && Extends(c, c')
    ensures HistoryOk(prepared', sims', c', mined)
  {
    forall i | 0 <= i < |mined|
      ensures MinedOk(prepared', sims', c', mined[i])
    {
      MinedLater(prepared, prepared', sims, sims', c, c', mined[i]);
    }
  }

  lemma ExtendsSelf(c: Chain)
    ensures Extends(c, c)
  {
  }

  // ---------------------------------------------------------------- steps elsewhere

  lemma ElsewhereExtends(s: Sys, l: Sync.Label)
    requires BuilderOk(s.builder) && !l.Look?
    ensures Extends(s.builder.chain, Next(s, l).builder.chain) && Next(s, l).delivered == s.delivered
  {
    ExtendsSelf(s.builder.chain);
    if l.Request? {
      ServeKeeps(s.builder, l.request);
    }
  }

  lemma ElsewhereKeeps(p: Pipe, l: Sync.Label, initial: nat)
    requires PipeOk(p, initial) && !l.Look?
    ensures PipeOk(p.(sys := Next(p.sys, l)), initial)
  {
    GoodKept(p.sys, l);
    ElsewhereExtends(p.sys, l);
    HistoryLater(p.prepared, p.prepared, p.simulations, p.simulations,
                 p.sys.builder.chain, Next(p.sys, l).builder.chain, p.mined);
  }

  // ---------------------------------------------------------------- receiving

  lemma PrepareCarriesNonce(state: StateSnapshot, config: BackrunConfig, nonce: Option<nat>, job: Job)
    requires Prepare(state, config, nonce) == Some(job)
    ensures nonce == Some(job.tx.nonce) && job.state == state && job.bundle.blockNumber == state.blockNumber
    ensures state.valid && state.candidate.Some?
    ensures job.bundle.items == [Ref(state.candidate.value.tx.mempoolTxId), Raw(job.tx)]
    ensures DecodeSwap(state.candidate.value.swapKind, state.candidate.value.tx.tx.input) == Some(job.swap)
    ensures IsFindArbitrage(state, state.candidate.value, job.swap, RUNTIME_PARAMS, Some(job.opportunity))
    ensures ComposeTx(config, nonce, job.opportunity) == Composed(job.tx)
  {
  }

  lemma LookDelivers(s: Sys)
    requires !s.consumer.Asleep?
    ensures StepLook(s).builder == s.builder && s.delivered <= StepLook(s).delivered
    ensures SourceTake(s.source).received.Delivered? ==>
              SourceTake(s.source).received.snapshot in StepLook(s).delivered
  {
    var r := SourceTake(s.source).received;
    if r.Delivered? {
      assert StepLook(s).delivered[|s.delivered|] == r.snapshot;
    }
  }

  /** What receiving changes: nothing more than the look, or a new job besides. */
  lemma ReceiveShape(p: Pipe)
    requires p.task.Idle? && !p.sys.consumer.Asleep?
    ensures var q := DoReceive(p);
            && q.sys == StepLook(p.sys)
            && q == p.(sys := q.sys, task := q.task, iteration := q.iteration, prepared := q.prepared)
            && !q.task.Submitting?
            && (!q.task.Simulating? ==> q.prepared == p.prepared)
            && (q.task.Simulating? ==>
                  && q.prepared == p.prepared + [q.task.job] && q.task.attempt == 1
                  && SourceTake(p.sys.source).received == Delivered(q.task.job.state)
                  && Prepare(q.task.job.state, p.config, p.nextNonce) == Some(q.task.job))
  {
    var r := SourceTake(p.sys.source).received;
    if r.Delivered? && Prepare(r.snapshot, p.config, p.nextNonce).Some? {
      PrepareCarriesNonce(r.snapshot, p.config, p.nextNonce, Prepare(r.snapshot, p.config, p.nextNonce).value);
    }
  }

  lemma PreparedLater(delivered: seq<StateSnapshot>, more: seq<StateSnapshot>, config: BackrunConfig,
                      prepared: seq<Job>)
    requires PreparedOk(delivered, config, prepared) && delivered <= more
    ensures PreparedOk(more, config, prepared)
  {
  }

  lemma OneMorePrepared(delivered: seq<StateSnapshot>, config: BackrunConfig, prepared: seq<Job>, job: Job)
    requires PreparedOk(delivered, config, prepared) && JobOk(delivered, config, job)
    ensures PreparedOk(delivered, config, prepared + [job])
  {
  }

  lemma ReceiveKeepsPrepared(p: Pipe)
    requires PreparedOk(p.sys.delivered, p.config, p.prepared) && p.task.Idle? && !p.sys.consumer.Asleep?
    ensures PreparedOk(DoReceive(p).sys.delivered, p.config, DoReceive(p).prepared)
    ensures DoReceive(p).task.Simulating? ==>
              JobOk(DoReceive(p).sys.delivered, p.config, DoReceive(p).task.job)
              && p.nextNonce == Some(DoReceive(p).task.job.tx.nonce)
  {
    var q := DoReceive(p);
    ReceiveShape(p);
    LookDelivers(p.sys);
    PreparedLater(p.sys.delivered, q.sys.delivered, p.config, p.prepared);
    if q.task.Simulating? {
      PrepareCarriesNonce(q.task.job.state, p.config, p.nextNonce, q.task.job);
      OneMorePrepared(q.sys.delivered, p.config, p.prepared, q.task.job);
    }
  }

  /** A job prepared from a delivered state is pinned to that state's block. */
  lemma JobIsPinned(s: Sys, config: BackrunConfig, job: Job)
    requires Coherent(s) && JobOk(s.delivered, config, job)
    ensures Pinned(job)
  {
    PrepareCarriesNonce(job.state, config, Some(job.tx.nonce), job);
    DeliveryIsUsable(s, job.state);
  }

  lemma ReceiveKeepsRequests(p: Pipe, q: Pipe, initial: nat)
    requires RequestsOk(p, initial) && p.task.Idle?
    requires q == p.(sys := q.sys, task := q.task, iteration := q.iteration, prepared := q.prepared)
    requires q.sys.builder == p.sys.builder && !q.task.Submitting? && p.prepared <= q.prepared
    requires q.task.Simulating? ==>
               q.task.job in q.prepared && Pinned(q.task.job) && q.task.attempt == 1
               && p.nextNonce == Some(q.task.job.tx.nonce)
    ensures RequestsOk(q, initial)
  {
    ExtendsSelf(p.sys.builder.chain);
    HistoryLater(p.prepared, q.prepared, p.simulations, p.simulations,
                 p.sys.builder.chain, p.sys.builder.chain, p.mined);
  }

  lemma ReceiveKeeps(p: Pipe, initial: nat)
    requires PipeOk(p, initial) && p.task.Idle? && !p.sys.consumer.Asleep?
    ensures PipeOk(DoReceive(p), initial)
  {
    var q := DoReceive(p);
    ReceiveShape(p);
    LookKeeps(p.sys);
    LookDelivers(p.sys);
    ReceiveKeepsPrepared(p);
    if q.task.Simulating? {
      JobIsPinned(q.sys, p.config, q.task.job);
    }
    ReceiveKeepsRequests(p, q, initial);
  }

  // ---------------------------------------------------------------- simulating

  /** A request of the runtime is a step of the protocol. */
  lemma RequestKeeps(s: Sys, q: Bundles.Request)
    requires SysOk(s)
    ensures SysOk(s.(builder := Serve(s.builder, q)))
  {
    GoodKept(s, Sync.Request(q));
  }

  /** An answered simulation ran on the head that the bundle names. */
  lemma SimulatedOnHead(b: BuilderState, bundle: RawBundle, f: Faults)
    requires Simulate(b, bundle, f).response.Ok?
    ensures bundle.blockNumber.Some? ==> bundle.blockNumber == Some(Head(b.chain))
  {
  }

  /** What one attempt to simulate changes. */
  lemma SimulateShape(p: Pipe, link: Link, f: Faults)
    requires p.task.Simulating?
    ensures var q, job := DoSimulate(p, link, f), p.task.job;
            && q == p.(sys := q.sys, task := q.task, simulations := q.simulations, landed := q.landed)
            && (q.sys == p.sys || q.sys == p.sys.(builder := Serve(p.sys.builder, RSimulate(job.bundle, f))))
            && p.simulations <= q.simulations
            && (q.task.Simulating? ==> q.task == Simulating(job, p.task.attempt + 1) && p.task.attempt < MAX_ATTEMPTS)
            && (q.task.Submitting? ==>
                  && q.task == Submitting(job, 1) && Simulate(p.sys.builder, job.bundle, f).response.Ok?
                  && |q.simulations| == |p.simulations| + 1
                  && q.simulations[|p.simulations|].iteration == p.iteration
                  && q.simulations[|p.simulations|].bundle == job.bundle
                  && q.simulations[|p.simulations|].head == Head(p.sys.builder.chain)
                  && q.simulations[|p.simulations|].result.included)
  {
  }

  lemma SimulateKeepsRequests(p: Pipe, link: Link, f: Faults, initial: nat)
    requires RequestsOk(p, initial) && BuilderOk(p.sys.builder) && p.task.Simulating?
    ensures RequestsOk(DoSimulate(p, link, f), initial)
  {
    var q := DoSimulate(p, link, f);
    var job := p.task.job;
    SimulateShape(p, link, f);
    ExtendsSelf(p.sys.builder.chain);
    ServeKeeps(p.sys.builder, RSimulate(job.bundle, f));
    HistoryLater(p.prepared, p.prepared, p.simulations, q.simulations,
                 p.sys.builder.chain, q.sys.builder.chain, p.mined);
    if q.task.Submitting? {
      SimulatedOnHead(p.sys.builder, job.bundle, f);
    }
  }

  lemma SimulateKeeps(p: Pipe, link: Link, f: Faults, initial: nat)
    requires PipeOk(p, initial) && p.task.Simulating?
    ensures PipeOk(DoSimulate(p, link, f), initial)
  {
    SimulateShape(p, link, f);
    SimulateKeepsRequests(p, link, f, initial);
    RequestKeeps(p.sys, RSimulate(p.task.job.bundle, f));
  }

  // ---------------------------------------------------------------- submitting

  /** A block is only ever mined for a bundle pinned to the head, or to nothing. */
  lemma MinesOnHead(b: BuilderState, bundle: RawBundle, f: Faults)
    requires MinesBlock(b, bundle, f)
    ensures bundle.blockNumber.Some? ==> bundle.blockNumber == Some(Head(b.chain))
    ensures Parse(b.mempool, bundle).Good?
  {
  }

  /** What one attempt to submit changes. */
  ghost predicate SubmitEffect(p: Pipe, q: Pipe, link: Link, f: Faults)
    requires p.task.Submitting?
  {
    var job := p.task.job;
    && q == p.(sys := q.sys, task := q.task, mined := q.mined, landed := q.landed, used := q.used,
               nextNonce := q.nextNonce)
    && (if link.NotSent? then q.sys == p.sys && q.mined == p.mined
        else && q.sys == p.sys.(builder := Serve(p.sys.builder, RMine(job.bundle, f)))
             && q.mined == p.mined + if MinesBlock(p.sys.builder, job.bundle, f)
                                     then [Mined(p.iteration, job, p.sys.builder, f)] else [])
    && !q.task.Simulating?
    && (if q.used == p.used
        then && q.nextNonce == p.nextNonce
             && (q.task.Submitting? ==>
                   q.task == Submitting(job, p.task.attempt + 1) && p.task.attempt < MAX_ATTEMPTS)
        else && OutcomeOf(link, Mine(p.sys.builder, job.bundle, f).response).Result?
             && q.task.Idle? && q.used == p.used + [job.tx.nonce]
             && q.nextNonce == (if p.nextNonce.Some? then Some(p.nextNonce.value + 1) else None))
  }

  lemma SubmitShape(p: Pipe, link: Link, f: Faults)
    requires p.task.Submitting?
    ensures SubmitEffect(p, DoSubmit(p, link, f), link, f)
  {
    assert [p.task.job.tx.nonce] != [];
  }

  lemma SubmitKeepsHistory(p: Pipe, f: Faults, c': Chain, mined': seq<Mined>)
    requires HistoryOk(p.prepared, p.simulations, p.sys.builder.chain, p.mined)
    requires TaskOk(p.prepared, p.task, p.nextNonce, p.iteration, p.simulations)
    requires BuilderOk(p.sys.builder) && p.task.Submitting?
    requires p.task.job.state.candidate.Some?
    requires Known(p.sys.builder.mempool, p.task.job.state.candidate.value.tx)
    requires c' == Serve(p.sys.builder, RMine(p.task.job.bundle, f)).chain
    requires mined' == p.mined + if MinesBlock(p.sys.builder, p.task.job.bundle, f)
                                 then [Mined(p.iteration, p.task.job, p.sys.builder, f)] else []
    ensures HistoryOk(p.prepared, p.simulations, c', mined')
  {
    var job := p.task.job;
    ServeKeeps(p.sys.builder, RMine(job.bundle, f));
    HistoryLater(p.prepared, p.prepared, p.simulations, p.simulations, p.sys.builder.chain, c', p.mined);
    if MinesBlock(p.sys.builder, job.bundle, f) {
      MinesOnHead(p.sys.builder, job.bundle, f);
      OneMoreMined(p.prepared, p.simulations, c', p.mined, Mined(p.iteration, job, p.sys.builder, f));
    } else {
      assert mined' == p.mined;
    }
  }

  lemma OneMoreMined(prepared: seq<Job>, sims: seq<Simulation>, c: Chain, mined: seq<Mined>, m: Mined)
    requires HistoryOk(prepared, sims, c, mined) && MinedOk(prepared, sims, c, m)
    ensures HistoryOk(prepared, sims, c, mined + [m])
  {
  }

  /** With a result the nonce counts as used; without one the job may only be tried again. */
  lemma SubmitKeepsTask(prepared: seq<Job>, task: Task, next: Option<nat>, iteration: nat, sims: seq<Simulation>,
                        used: seq<nat>, initial: nat, task': Task, next': Option<nat>, used': seq<nat>)
    requires TaskOk(prepared, task, next, iteration, sims) && NoncesOk(used, initial, next)
    requires task.Submitting? && !task'.Simulating?
    requires if used' == used
             then && next' == next
                  && (task'.Submitting? ==>
                        task' == Submitting(task.job, task.attempt + 1) && task.attempt < MAX_ATTEMPTS)
             else task'.Idle? && used' == used + [task.job.tx.nonce] && next' == Some(next.value + 1)
    ensures TaskOk(prepared, task', next', iteration, sims) && NoncesOk(used', initial, next')
  {
  }

  lemma SubmitKeepsRequests(p: Pipe, q: Pipe, link: Link, f: Faults, initial: nat)
    requires RequestsOk(p, initial) && BuilderOk(p.sys.builder) && p.task.Submitting?
    requires p.task.job.state.candidate.Some?
    requires Known(p.sys.builder.mempool, p.task.job.state.candidate.value.tx)
    requires SubmitEffect(p, q, link, f)
    ensures RequestsOk(q, initial)
  {
    SubmitKeepsTask(p.prepared, p.task, p.nextNonce, p.iteration, p.simulations, p.used, initial,
                    q.task, q.nextNonce, q.used);
    if !link.NotSent? {
      SubmitKeepsHistory(p, f, q.sys.builder.chain, q.mined);
    }
  }

  /** The candidate of a prepared job is a record of the builder. */
  lemma JobIsKnown(s: Sys, config: BackrunConfig, prepared: seq<Job>, job: Job)
    requires Coherent(s) && PreparedOk(s.delivered, config, prepared) && job in prepared
    ensures job.state.candidate.Some? && Known(s.builder.mempool, job.state.candidate.value.tx)
  {
    var k :| 0 <= k < |prepared| && prepared[k] == job;
    assert JobOk(s.delivered, config, prepared[k]);
    PrepareCarriesNonce(job.state, config, Some(job.tx.nonce), job);
    DeliveryIsUsable(s, job.state);
  }

  lemma SubmitKeeps(p: Pipe, link: Link, f: Faults, initial: nat)
    requires PipeOk(p, initial) && p.task.Submitting?
    ensures PipeOk(DoSubmit(p, link, f), initial)
  {
    SubmitShape(p, link, f);
    JobIsKnown(p.sys, p.config, p.prepared, p.task.job);
    SubmitKeepsRequests(p, DoSubmit(p, link, f), link, f, initial);
    RequestKeeps(p.sys, RMine(p.task.job.bundle, f));
  }

  // ---------------------------------------------------------------- every step

  lemma DoKeeps(p: Pipe, act: Act, initial: nat)
    requires PipeOk(p, initial)
    ensures PipeOk(Do(p, act), initial)
  {
    match act
    case Elsewhere(l) => if !l.Look? { ElsewhereKeeps(p, l, initial); }
    case Receive => if p.task.Idle? && !p.sys.consumer.Asleep? { ReceiveKeeps(p, initial); }
    case TrySimulate(link, f) => if p.task.Simulating? { SimulateKeeps(p, link, f, initial); }
    case TrySubmit(link, f) => if p.task.Submitting? { SubmitKeeps(p, link, f, initial); }
    case Stop =>
  }

  lemma {:induction false} DoAllKeeps(p: Pipe, acts: seq<Act>, initial: nat)
    requires PipeOk(p, initial)
    ensures PipeOk(DoAll(p, acts), initial)
    decreases |acts|
  {
    if acts != [] {
      DoAllKeeps(p, acts[..|acts| - 1], initial);
      DoKeeps(DoAll(p, acts[..|acts| - 1]), acts[|acts| - 1], initial);
    }
  }

  lemma StartOk(pools: seq<Pool>, builder: BuilderState, config: BackrunConfig, nonce: nat)
    requires BuilderOk(builder)
    ensures PipeOk(Start(Init(pools, builder), config, nonce), nonce)
  {
    InitGood(pools, builder);
  }

  // ---------------------------------------------------------------- main results

  lemma RunIsOk(pools: seq<Pool>, builder: BuilderState, config: BackrunConfig, nonce: nat, acts: seq<Act>)
    requires BuilderOk(builder)
    ensures PipeOk(DoAll(Start(Init(pools, builder), config, nonce), acts), nonce)
  {
    StartOk(pools, builder, config, nonce);
    DoAllKeeps(Start(Init(pools, builder), config, nonce), acts, nonce);
  }

  /** In every run of chain, builder and Knight, whatever fails or is lost: the nonces of the
      submissions that returned a result are consecutive from the initial one. */
  lemma NoncesAreConsecutive(pools: seq<Pool>, builder: BuilderState, config: BackrunConfig, nonce: nat, acts: seq<Act>)
    requires BuilderOk(builder)
    ensures var p := DoAll(Start(Init(pools, builder), config, nonce), acts);
            NoncesOk(p.used, nonce, p.nextNonce)
  {
    RunIsOk(pools, builder, config, nonce, acts);
  }

  /** Every Knight bundle on which a block was mined ran on top of the head block whose reserves
      priced it, with every configured pool in view, and was simulated before, in the same
      iteration and on the same head, as the identical bundle and with status included. */
  lemma PinnedExecution(pools: seq<Pool>, builder: BuilderState, config: BackrunConfig, nonce: nat, acts: seq<Act>,
                        i: nat)
    requires BuilderOk(builder)
    requires i < |DoAll(Start(Init(pools, builder), config, nonce), acts).mined|
    ensures var p := DoAll(Start(Init(pools, builder), config, nonce), acts);
            var m := p.mined[i];
            var head := Head(m.before.chain);
            && m.job.bundle.blockNumber == m.job.state.blockNumber == Some(head)
            && ShowsBlock(p.sys.pools, m.job.state.pools, p.sys.builder.chain, head)
            && head <= Head(p.sys.builder.chain) && BlockAt(p.sys.builder.chain, head) == m.before.chain.latest
            && Simulated(p.simulations, m.iteration, m.job.bundle, Some(head))
  {
    RunIsOk(pools, builder, config, nonce, acts);
    PinnedIn(DoAll(Start(Init(pools, builder), config, nonce), acts), nonce, i);
  }

  lemma PinnedIn(p: Pipe, initial: nat, i: nat)
    requires PipeOk(p, initial) && i < |p.mined|
    ensures var m := p.mined[i];
            var head := Head(m.before.chain);
            && m.job.bundle.blockNumber == m.job.state.blockNumber == Some(head)
            && ShowsBlock(p.sys.pools, m.job.state.pools, p.sys.builder.chain, head)
            && head <= Head(p.sys.builder.chain) && BlockAt(p.sys.builder.chain, head) == m.before.chain.latest
            && Simulated(p.simulations, m.iteration, m.job.bundle, Some(head))
  {
    var m := p.mined[i];
    assert MinedOk(p.prepared, p.simulations, p.sys.builder.chain, m);
    var k :| 0 <= k < |p.prepared| && p.prepared[k] == m.job;
    assert JobOk(p.sys.delivered, p.config, p.prepared[k]);
    PrepareCarriesNonce(m.job.state, p.config, Some(m.job.tx.nonce), m.job);
    DeliveryIsUsable(p.sys, m.job.state);
    assert BlockAt(p.sys.builder.chain, Head(m.before.chain)) == BlockAt(m.before.chain, Head(m.before.chain));
  }

  /** If nothing touched the builder since the simulation and every RPC answers, the submission
      returns what was simulated: the bundle is included. */
  lemma UndisturbedSubmissionIsIncluded(b: BuilderState, bundle: RawBundle, f: Faults, g: Faults, r: BundleResult)
    requires BuilderOk(b) && Simulate(b, bundle, f).response == Ok(r) && r.included
    requires Clean(g) && g.missing == f.missing
    ensures Simulate(b, bundle, f).builder == b
    ensures Mine(b, bundle, g).response == Ok(r)
  {
    SimulationForetells(b, bundle, f, g, r);
  }

  /** The two items of a Knight bundle, as the builder parses them. */
  lemma JobItems(m: MempoolState, job: Job, c: Candidate, items: seq<Item>)
    requires MempoolOk(m) && Known(m, c.tx)
    requires job.bundle.items == [Ref(c.tx.mempoolTxId), Raw(job.tx)]
    requires Parse(m, job.bundle) == Bundles.Good(items)
    ensures |items| == 2 && items[0].tx == c.tx.tx && items[1].tx == job.tx
  {
    ParsedItemsArePending(m, job.bundle.items, items);
    SameVictim(m, items[0], c.tx);
  }

  lemma SameVictim(m: MempoolState, item: Item, tx: PendingTransaction)
    requires MempoolOk(m) && Known(m, tx)
    requires item.id == Some(tx.mempoolTxId) && RefersToPending(m, item)
    ensures item.tx == tx.tx
  {
    var i :| 0 <= i < |m.records| && m.records[i].id == item.id.value
             && m.records[i].status.Pending? && m.records[i].tx == item.tx;
    var k := tx.seqNum - 1;
    assert i < k || k < i || i == k;
  }

  lemma CoveredPoolsShown(pools: seq<Pool>, snapshots: seq<PoolSnapshot>, c: Chain, n: nat, w: World)
    requires ShowsBlock(pools, snapshots, c, n) && BlockAt(c, n).world == w
    ensures forall p :: p in snapshots ==> Shows(p, w)
  {
  }

  lemma {:induction false} ConfigStays(p: Pipe, acts: seq<Act>)
    ensures DoAll(p, acts).config == p.config
    decreases |acts|
  {
    if acts != [] {
      ConfigStays(p, acts[..|acts| - 1]);
    }
  }

  /** What a mined job is known to be. */
  ghost predicate MinedJob(m: Mined, config: BackrunConfig)
  {
    && BuilderOk(m.before) && m.job.state.candidate.Some?
    && Known(m.before.mempool, m.job.state.candidate.value.tx)
    && m.job.bundle.items == [Ref(m.job.state.candidate.value.tx.mempoolTxId), Raw(m.job.tx)]
    && Predicts(m.job.state, m.job.state.candidate.value, m.job.swap, RUNTIME_PARAMS, m.job.opportunity,
                config, Some(m.job.tx.nonce), m.job.tx)
    && forall p :: p in m.job.state.pools ==> Shows(p, m.before.chain.latest.world)
  }

  lemma MinedIsJob(p: Pipe, initial: nat, i: nat)
    requires PipeOk(p, initial) && i < |p.mined|
    ensures MinedJob(p.mined[i], p.config)
  {
    var m := p.mined[i];
    assert MinedOk(p.prepared, p.simulations, p.sys.builder.chain, m);
    PinnedIn(p, initial, i);
    var k :| 0 <= k < |p.prepared| && p.prepared[k] == m.job;
    assert JobOk(p.sys.delivered, p.config, p.prepared[k]);
    JobPredicts(p.sys, p.config, m.job);
    CoveredPoolsShown(p.sys.pools, m.job.state.pools, p.sys.builder.chain, Head(m.before.chain),
                      m.before.chain.latest.world);
  }

  lemma RunMinesJobs(pools: seq<Pool>, builder: BuilderState, config: BackrunConfig, nonce: nat, acts: seq<Act>, i: nat)
    requires BuilderOk(builder)
    requires i < |DoAll(Start(Init(pools, builder), config, nonce), acts).mined|
    ensures MinedJob(DoAll(Start(Init(pools, builder), config, nonce), acts).mined[i], config)
  {
    RunIsOk(pools, builder, config, nonce, acts);
    ConfigStays(Start(Init(pools, builder), config, nonce), acts);
    MinedIsJob(DoAll(Start(Init(pools, builder), config, nonce), acts), nonce, i);
  }

  /** The whole way: in every run, a Knight bundle that was mined as included, ahead of everything
      in the pool and with no higher tip on the backrun, swapped as decoded and then earned exactly
      the outputs and the profit that the search had expected. */
  lemma MinedBundleEarns(pools: seq<Pool>, builder: BuilderState, config: BackrunConfig, nonce: nat, acts: seq<Act>,
                         i: nat, r: BundleResult)
    returns (s: Swapped, e: Executed)
    requires BuilderOk(builder)
    requires i < |DoAll(Start(Init(pools, builder), config, nonce), acts).mined|
    requires var m := DoAll(Start(Init(pools, builder), config, nonce), acts).mined[i];
             && Mine(m.before, m.job.bundle, m.faults).response == Ok(r) && r.included
             && config.contract == m.before.chain.latest.world.backrun
             && m.job.state.candidate.Some?
             && HeadsBlock(m.before.chain.pool, m.job.state.candidate.value.tx.tx, m.job.tx)
    ensures Earned(DoAll(Start(Init(pools, builder), config, nonce), acts).mined[i], config, s, e)
  {
    RunMinesJobs(pools, builder, config, nonce, acts, i);
    s, e := JobEarns(DoAll(Start(Init(pools, builder), config, nonce), acts).mined[i], config, r);
  }

  /** The victim swapped, the backrun brought exactly what the search expected of it, and the rest
      of the block went on from there. */
  ghost predicate Earned(m: Mined, config: BackrunConfig, s: Swapped, e: Executed)
    requires m.job.state.candidate.Some?
  {
    var c := m.job.state.candidate.value;
    && ExecuteSwap(m.before.chain.latest.world, c.tx.tx.from, c.pool.address, m.job.swap) == Some(s)
    && ExecuteOpportunity(s.world, config.bot, m.job.opportunity) == Some(e)
    && AsExpected(s.world, m.job.opportunity, e)
    && BlockGoesOn(m.before.chain, c.tx.tx, m.job.tx, e.world,
                   Mine(m.before, m.job.bundle, m.faults).builder.chain.latest)
  }

  /** With any pool and in any order: in every run, a Knight backrun that was mined as included ran
      as composed and did not fall short of its minimum profit; if nobody in the pool asks for a
      withdrawal, the executor ends the block with that much more TokenB and no less of anything. */
  lemma MinedBackrunGains(pools: seq<Pool>, builder: BuilderState, config: BackrunConfig, nonce: nat, acts: seq<Act>,
                          i: nat, r: BundleResult)
    returns (w: World, e: Executed)
    requires BuilderOk(builder)
    requires i < |DoAll(Start(Init(pools, builder), config, nonce), acts).mined|
    requires var m := DoAll(Start(Init(pools, builder), config, nonce), acts).mined[i];
             && Mine(m.before, m.job.bundle, m.faults).response == Ok(r)
             && |r.transactions| == 2 && r.transactions[1].status.Included?
             && config.contract == m.before.chain.latest.world.backrun
    ensures var m := DoAll(Start(Init(pools, builder), config, nonce), acts).mined[i];
            && ExecuteOpportunity(w, config.bot, m.job.opportunity) == Some(e)
            && Gains(w, e.world, m.job.opportunity)
            && ((forall tx :: tx in m.before.chain.pool ==> !AsksWithdrawal(config.contract, tx)) ==>
                  Gains(m.before.chain.latest.world,
                        Mine(m.before, m.job.bundle, m.faults).builder.chain.latest.world, m.job.opportunity))
  {
    RunMinesJobs(pools, builder, config, nonce, acts, i);
    w, e := JobGains(DoAll(Start(Init(pools, builder), config, nonce), acts).mined[i], config, r);
  }

  lemma JobPredicts(sys: Sys, config: BackrunConfig, job: Job)
    requires Coherent(sys) && JobOk(sys.delivered, config, job)
    ensures job.state.candidate.Some?
    ensures job.bundle.items == [Ref(job.state.candidate.value.tx.mempoolTxId), Raw(job.tx)]
    ensures Predicts(job.state, job.state.candidate.value, job.swap, RUNTIME_PARAMS, job.opportunity,
                     config, Some(job.tx.nonce), job.tx)
  {
    PrepareCarriesNonce(job.state, config, Some(job.tx.nonce), job);
    DeliveryIsUsable(sys, job.state);
    FilterAccepts(sys.pools, job.state.candidate.value.tx);
  }

  lemma JobEarns(m: Mined, config: BackrunConfig, r: BundleResult) returns (s: Swapped, e: Executed)
    requires MinedJob(m, config)
    requires Mine(m.before, m.job.bundle, m.faults).response == Ok(r) && r.included
    requires config.contract == m.before.chain.latest.world.backrun
    requires HeadsBlock(m.before.chain.pool, m.job.state.candidate.value.tx.tx, m.job.tx)
    ensures Earned(m, config, s, e)
  {
    var job, c := m.job, m.job.state.candidate.value;
    var items := MineShape(m.before, job.bundle, m.faults, r);
    JobItems(m.before.mempool, job, c, items);
    s, e := IncludedBundleEarns(m.before.chain, items, m.faults, r, job.state, c, job.swap, RUNTIME_PARAMS,
                                job.opportunity, config, Some(job.tx.nonce));
  }

  lemma JobGains(m: Mined, config: BackrunConfig, r: BundleResult) returns (w: World, e: Executed)
    requires MinedJob(m, config)
    requires Mine(m.before, m.job.bundle, m.faults).response == Ok(r)
    requires |r.transactions| == 2 && r.transactions[1].status.Included?
    requires config.contract == m.before.chain.latest.world.backrun
    ensures ExecuteOpportunity(w, config.bot, m.job.opportunity) == Some(e) && Gains(w, e.world, m.job.opportunity)
    ensures (forall tx :: tx in m.before.chain.pool ==> !AsksWithdrawal(config.contract, tx)) ==>
              Gains(m.before.chain.latest.world,
                    Mine(m.before, m.job.bundle, m.faults).builder.chain.latest.world, m.job.opportunity)
  {
    var job, c := m.job, m.job.state.candidate.value;
    var items := MineShape(m.before, job.bundle, m.faults, r);
    JobItems(m.before.mempool, job, c, items);
    VictimAsksNoWithdrawal(m, config);
    ComposedAsksNoWithdrawal(config, Some(job.tx.nonce), job.opportunity, job.tx);
    PairAsksNoWithdrawal(config.contract, items);
    var i;
    i, w, e := IncludedBackrunGains(m.before.chain, items, m.faults, r, 1, job.opportunity, config,
                                    Some(job.tx.nonce));
  }

  /** The victim calls a pool and the backrun calls executeBackrun. */
  lemma VictimAsksNoWithdrawal(m: Mined, config: BackrunConfig)
    requires MinedJob(m, config) && config.contract == m.before.chain.latest.world.backrun
    ensures m.job.state.candidate.value.tx.tx.to != Some(config.contract)
  {
    var job := m.job;
    assert StateOk(BlockAt(m.before.chain, Head(m.before.chain)).world);
    VictimCallsPool(m.before.chain.latest.world, job.state, job.state.candidate.value, job.swap, RUNTIME_PARAMS,
                    job.opportunity);
  }

  lemma PairAsksNoWithdrawal(executor: Address, items: seq<Item>)
    requires |items| == 2 && items[0].tx.to != Some(executor) && !AsksWithdrawal(executor, items[1].tx)
    ensures forall tx :: tx in Txs(items) ==> !AsksWithdrawal(executor, tx)
  {
  }

  lemma VictimCallsPool(w: World, state: StateSnapshot, c: Candidate, swap: Swap, params: Params, o: Opportunity)
    requires WorldOk(w) && IsFindArbitrage(state, c, swap, params, Some(o))
    requires forall p :: p in state.pools ==> Shows(p, w)
    ensures c.pool.address != w.backrun
  {
    VictimPoolKnown(state, c, swap, params, o, w);
  }

  lemma ComposedAsksNoWithdrawal(config: BackrunConfig, nonce: Option<nat>, o: Opportunity, tx: Transaction)
    requires ComposeTx(config, nonce, o) == Composed(tx)
    ensures !AsksWithdrawal(config.contract, tx)
  {
    ComposedShape(config, nonce, o, tx);
    BackrunAsksNoWithdrawal(config.contract, tx, CallOf(o));
  }

  lemma BackrunAsksNoWithdrawal(executor: Address, tx: Transaction, call: BackrunCall)
    requires Encodable(call) && tx.input == Encoded(call)
    ensures !AsksWithdrawal(executor, tx)
  {
    EncodedArguments(call, []);
    assert Encoded(call) + [] == Encoded(call);
    assert EXECUTE_BACKRUN[0] != WITHDRAW_TOKEN[0];
  }

  /** A successful submission executed the parsed items and left their chain. */
  lemma MineShape(b: BuilderState, bundle: RawBundle, f: Faults, r: BundleResult) returns (items: seq<Item>)
    requires Mine(b, bundle, f).response == Ok(r)
    ensures Parse(b.mempool, bundle) == Bundles.Good(items)
    ensures ExecuteBundle(b.chain, items, f).result == Some(r)
    ensures Mine(b, bundle, f).builder.chain == ExecuteBundle(b.chain, items, f).chain
  {
    items := Parse(b.mempool, bundle).value;
  }
}
