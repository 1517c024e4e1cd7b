/** A limit of the runtime: the nonce is read from the chain only once. When one of Knight's own
    transactions gets into a block and no submission reports it, Knight's nonce falls behind the
    chain, and from then on no submission of any run returns a result. Each step that can do this has
    its exact condition here; module KnightRuns puts them together over whole runs. */
module NonceLag {
  import opened Common
  import opened Domain
  import opened TxChain
  import opened BuilderMempool
  import opened Bundles
  import opened Signer
  import opened TxComposer
  import opened Sync
  import opened Pipeline
  import opened PipelineSafety

  function ChainNonce(p: Pipe): nat
  {
    Nonce(p.sys.builder.chain.latest, p.config.bot)
  }

  /** The job at hand carries the stale nonce, as every later one will. */
  predicate CarriesNonce(config: BackrunConfig, task: Task, nonce: nat)
  {
    task.Simulating? || task.Submitting? ==>
      && task.job.tx.from == config.bot && task.job.tx.nonce == nonce
      && |task.job.bundle.items| == 2 && task.job.bundle.items[1] == Raw(task.job.tx)
  }

  predicate Lags(p: Pipe)
  {
    && p.nextNonce.Some? && p.nextNonce.value < ChainNonce(p)
    && CarriesNonce(p.config, p.task, p.nextNonce.value)
  }

  // ---------------------------------------------------------------- nonces of the chain only grow

  lemma GrowsSelf(b: Block)
    ensures NoncesGrow(b, b)
  {
  }

  lemma ExecuteGrowsNonces(c: Chain, items: seq<Item>, f: Faults)
    requires ChainOk(c)
    ensures NoncesGrow(c.latest, ExecuteBundle(c, items, f).chain.latest)
  {
    GrowsSelf(c.latest);
    SendAllKeeps(c, items, f);
    MineBlockKeeps(SendAll(c, items, f).chain);
  }

  lemma ServeGrowsNonces(b: BuilderState, q: Bundles.Request)
    requires BuilderOk(b)
    ensures NoncesGrow(b.chain.latest, Serve(b, q).chain.latest)
  {
    GrowsSelf(b.chain.latest);
    match q
    case RAdd(_, _) =>
    case RSimulate(raw, f) =>
      if Parse(b.mempool, raw).Good? {
        ExecuteGrowsNonces(b.chain, Parse(b.mempool, raw).value, f);
      }
    case RMine(raw, f) =>
      if Parse(b.mempool, raw).Good? {
        ExecuteGrowsNonces(b.chain, Parse(b.mempool, raw).value, f);
      }
    case RSend(tx) =>
    case RMineBlock => MineBlockKeeps(b.chain);
  }

  // ---------------------------------------------------------------- a stale nonce is refused

  /** A bundle with a used nonce in it gets no result, neither simulated nor mined. */
  lemma StaleIsRefused(b: BuilderState, job: Job, f: Faults)
    requires |job.bundle.items| == 2 && job.bundle.items[1] == Raw(job.tx)
    requires job.tx.nonce < Nonce(b.chain.latest, job.tx.from)
    ensures Simulate(b, job.bundle, f).response.Failed? && Mine(b, job.bundle, f).response.Failed?
  {
    if Parse(b.mempool, job.bundle).Good? {
      var items := Parse(b.mempool, job.bundle).value;
      ParsedItemsArePending(b.mempool, job.bundle.items, items);
      assert items[1].tx == job.tx;
      if SendAll(b.chain, items, f).ok {
        SentNonces(b.chain, items, f);
      }
    }
  }

  // ---------------------------------------------------------------- every step

  /** A step elsewhere moves the chain's nonces only up. */
  lemma ElsewhereLags(p: Pipe, l: Sync.Label)
    requires Lags(p) && BuilderOk(p.sys.builder) && !l.Look?
    ensures Lags(p.(sys := Next(p.sys, l)))
  {
    if l.Request? {
      ServeGrowsNonces(p.sys.builder, l.request);
    }
  }

  lemma ReceiveLags(p: Pipe)
    requires Lags(p) && p.task.Idle? && !p.sys.consumer.Asleep?
    ensures Lags(DoReceive(p)) && DoReceive(p).used == p.used
  {
    var q := DoReceive(p);
    ReceiveShape(p);
    LookDelivers(p.sys);
    if q.task.Simulating? {
      PrepareCarriesNonce(q.task.job.state, p.config, p.nextNonce, q.task.job);
    }
  }

  lemma SimulateLags(p: Pipe, link: Link, f: Faults)
    requires Lags(p) && BuilderOk(p.sys.builder) && p.task.Simulating?
    ensures Lags(DoSimulate(p, link, f)) && DoSimulate(p, link, f).used == p.used
  {
    StaleIsRefused(p.sys.builder, p.task.job, f);
    ServeGrowsNonces(p.sys.builder, RSimulate(p.task.job.bundle, f));
  }

  lemma SubmitLags(p: Pipe, link: Link, f: Faults)
    requires Lags(p) && BuilderOk(p.sys.builder) && p.task.Submitting?
    ensures Lags(DoSubmit(p, link, f)) && DoSubmit(p, link, f).used == p.used
  {
    StaleIsRefused(p.sys.builder, p.task.job, f);
    ServeGrowsNonces(p.sys.builder, RMine(p.task.job.bundle, f));
  }

  lemma DoLags(p: Pipe, act: Act)
    requires Lags(p) && BuilderOk(p.sys.builder)
    ensures Lags(Do(p, act)) && Do(p, act).used == p.used
  {
    match act
    case Elsewhere(l) => if !l.Look? { ElsewhereLags(p, l); }
    case Receive => if p.task.Idle? && !p.sys.consumer.Asleep? { ReceiveLags(p); }
    case TrySimulate(link, f) => if p.task.Simulating? { SimulateLags(p, link, f); }
    case TrySubmit(link, f) => if p.task.Submitting? { SubmitLags(p, link, f); }
    case Stop =>
  }

  lemma BuilderStaysOk(p: Pipe, initial: nat, acts: seq<Act>)
    requires PipeOk(p, initial)
    ensures BuilderOk(DoAll(p, acts).sys.builder)
  {
    DoAllKeeps(p, acts, initial);
  }

  /** Once Knight's nonce lags, no submission of any continuation returns a result. */
  lemma {:induction false} LagIsForever(p: Pipe, initial: nat, acts: seq<Act>)
    requires PipeOk(p, initial) && Lags(p)
    ensures Lags(DoAll(p, acts)) && DoAll(p, acts).used == p.used
    decreases |acts|
  {
    if acts != [] {
      LagIsForever(p, initial, acts[..|acts| - 1]);
      BuilderStaysOk(p, initial, acts[..|acts| - 1]);
      DoLags(DoAll(p, acts[..|acts| - 1]), acts[|acts| - 1]);
    }
  }

  // ---------------------------------------------------------------- how it comes about

  /** A submission mines a block exactly when it is well formed and pinned to the head, every one
      of its transactions is sent, and the RPC to mine takes effect. */
  lemma MinesBlockExactly(b: BuilderState, raw: RawBundle, f: Faults)
    ensures MinesBlock(b, raw, f)
            <==> && Parse(b.mempool, raw).Good? && !f.head && Target(raw, Head(b.chain)) == Head(b.chain)
                 && Sendable(b.chain, Parse(b.mempool, raw).value, f)
                 && (f.mine ==> f.mineLands)
  {
    if Parse(b.mempool, raw).Good? {
      SendAllOk(b.chain, Parse(b.mempool, raw).value, f);
      SendAllPool(b.chain, Parse(b.mempool, raw).value, f);
    }
  }

  predicate Sendable(c: Chain, items: seq<Item>, f: Faults)
  {
    && (forall i :: 0 <= i < |items| ==> items[i].tx.nonce >= Nonce(c.latest, items[i].tx.from))
    && !(f.sendAt.Some? && f.sendAt.value < |items|)
  }

  /** A block that was mined is reported exactly when the RPCs that mine and that fetch the
      receipts answer. */
  lemma ReportedExactly(b: BuilderState, raw: RawBundle, f: Faults)
    requires MempoolOk(b.mempool) && MinesBlock(b, raw, f)
    ensures Mine(b, raw, f).response.Ok? <==> !f.mine && !f.receipts
  {
    MinesBlockExactly(b, raw, f);
    SendAllOk(b.chain, Parse(b.mempool, raw).value, f);
    MarkingSucceeds(b, raw, f);
  }

  /** A submission that mines a block uses the next nonce of every sender whose transaction
      carries it, and one that does not mine leaves all nonces as they are. */
  lemma MiningUsesNonce(b: BuilderState, raw: RawBundle, f: Faults, i: nat)
    requires i < |raw.items| && raw.items[i].Raw?
    requires raw.items[i].tx.nonce == Nonce(b.chain.latest, raw.items[i].tx.from)
    ensures var tx := raw.items[i].tx;
            var nonce := Nonce(Mine(b, raw, f).builder.chain.latest, tx.from);
            if MinesBlock(b, raw, f) then nonce > tx.nonce else nonce == tx.nonce
  {
    MinesBlockExactly(b, raw, f);
    if Parse(b.mempool, raw).Good? {
      var items := Parse(b.mempool, raw).value;
      ParsedItemsArePending(b.mempool, raw.items, items);
      SendAllOk(b.chain, items, f);
      if SendAll(b.chain, items, f).ok {
        SentNonces(b.chain, items, f);
        var c1 := SendAll(b.chain, items, f).chain;
        assert Txs(items)[i] == raw.items[i].tx && raw.items[i].tx in c1.pool;
        MineBlockUses(c1, raw.items[i].tx);
      }
    }
  }

  /** A submission that returns no result to Knight makes a nonce that was in step lag if and only if
      it reached the builder and a block was mined. */
  lemma LostResultLags(p: Pipe, link: Link, f: Faults)
    requires p.task.Submitting? && p.nextNonce == Some(ChainNonce(p))
    requires CarriesNonce(p.config, p.task, ChainNonce(p))
    requires !OutcomeOf(link, Mine(p.sys.builder, p.task.job.bundle, f).response).Result?
    ensures Lags(DoSubmit(p, link, f))
            <==> !link.NotSent? && MinesBlock(p.sys.builder, p.task.job.bundle, f)
  {
    MiningUsesNonce(p.sys.builder, p.task.job.bundle, f, 1);
  }

  /** In terms of what fails: a mined submission makes the nonce lag whenever its answer is lost or
      garbled, the RPC to mine times out after mining, or a receipt cannot be fetched. */
  lemma LagCauses(p: Pipe, link: Link, f: Faults)
    requires p.task.Submitting? && p.nextNonce == Some(ChainNonce(p)) && MempoolOk(p.sys.builder.mempool)
    requires CarriesNonce(p.config, p.task, ChainNonce(p))
    requires !link.NotSent? && MinesBlock(p.sys.builder, p.task.job.bundle, f)
    requires link.AnswerLost? || link.Garbled? || f.mine || f.receipts
    ensures Lags(DoSubmit(p, link, f))
  {
    ReportedExactly(p.sys.builder, p.task.job.bundle, f);
    LostResultLags(p, link, f);
  }

  // ---------------------------------------------------------------- other ways

  /** A simulation that mines its block and cannot take it back. */
  predicate SimulationMines(b: BuilderState, raw: RawBundle, f: Faults)
  {
    && Executes(b, raw, f) && Sendable(b.chain, Parse(b.mempool, raw).value, f)
    && (f.mine ==> f.mineLands) && f.revert && !f.revertLands
  }

  /** Whether a request leaves a block on the chain, on its inputs. */
  predicate RequestMines(b: BuilderState, q: Bundles.Request)
  {
    match q
    case RSimulate(raw, f) => SimulationMines(b, raw, f)
    case RMine(raw, f) => MinesBlock(b, raw, f)
    case RMineBlock => true
    case _ => false
  }

  lemma SimulationMinesExactly(b: BuilderState, raw: RawBundle, f: Faults)
    ensures Head(Simulate(b, raw, f).builder.chain) > Head(b.chain) <==> SimulationMines(b, raw, f)
    ensures !SimulationMines(b, raw, f) ==> Simulate(b, raw, f).builder.chain.latest == b.chain.latest
  {
    if Parse(b.mempool, raw).Good? {
      SendAllOk(b.chain, Parse(b.mempool, raw).value, f);
      SendAllPool(b.chain, Parse(b.mempool, raw).value, f);
    }
  }

  /** A simulation of Knight's bundle makes a nonce that was in step lag if and only if it reached
      the builder and its block stays on the chain. */
  lemma SimulationLags(p: Pipe, link: Link, f: Faults)
    requires p.task.Simulating? && p.nextNonce == Some(ChainNonce(p))
    requires CarriesNonce(p.config, p.task, ChainNonce(p))
    ensures Lags(DoSimulate(p, link, f))
            <==> !link.NotSent? && SimulationMines(p.sys.builder, p.task.job.bundle, f)
  {
    var b, job := p.sys.builder, p.task.job;
    SimulationMinesExactly(b, job.bundle, f);
    if SimulationMines(b, job.bundle, f) {
      ExecutionUsesNonce(b, job.bundle, f, 1);
    }
  }

  /** A complete bundle in a block uses the next nonce of its raw transactions' senders. */
  lemma ExecutionUsesNonce(b: BuilderState, raw: RawBundle, f: Faults, i: nat)
    requires Parse(b.mempool, raw).Good? && Sendable(b.chain, Parse(b.mempool, raw).value, f)
    requires f.mine ==> f.mineLands
    requires i < |raw.items| && raw.items[i].Raw?
    requires raw.items[i].tx.nonce == Nonce(b.chain.latest, raw.items[i].tx.from)
    ensures var tx := raw.items[i].tx;
            Nonce(ExecuteBundle(b.chain, Parse(b.mempool, raw).value, f).chain.latest, tx.from) > tx.nonce
  {
    var items := Parse(b.mempool, raw).value;
    ParsedItemsArePending(b.mempool, raw.items, items);
    SendAllOk(b.chain, items, f);
    SentNonces(b.chain, items, f);
    var c1 := SendAll(b.chain, items, f).chain;
    assert Txs(items)[i] == raw.items[i].tx && raw.items[i].tx in c1.pool;
    MineBlockUses(c1, raw.items[i].tx);
  }

  /** The items of others put nothing of this account into the pool. */
  lemma OthersPool(pool: seq<Transaction>, items: seq<Item>, who: Address, nonce: nat)
    requires forall i :: 0 <= i < |items| ==> items[i].tx.from != who
    ensures PoolHolds(pool + Txs(items), who, nonce) <==> PoolHolds(pool, who, nonce)
  {
    var all := pool + Txs(items);
    if PoolHolds(pool, who, nonce) {
      var i :| 0 <= i < |pool| && pool[i].from == who && pool[i].nonce == nonce;
      assert all[i] == pool[i];
    }
  }

  lemma OthersExecution(c: Chain, items: seq<Item>, f: Faults, who: Address)
    requires items != [] && Sendable(c, items, f) && (f.mine ==> f.mineLands)
    requires forall i :: 0 <= i < |items| ==> items[i].tx.from != who
    ensures Nonce(ExecuteBundle(c, items, f).chain.latest, who) > Nonce(c.latest, who)
            <==> PoolHolds(c.pool, who, Nonce(c.latest, who))
  {
    SendAllOk(c, items, f);
    SentNonces(c, items, f);
    OthersPool(c.pool, items, who, Nonce(c.latest, who));
    MineBlockMovesNonce(SendAll(c, items, f).chain, who);
  }

  lemma OthersBundle(b: BuilderState, raw: RawBundle, f: Faults, who: Address)
    requires MempoolFree(b.mempool, who) && !SignsBundle(raw, who)
    requires Parse(b.mempool, raw).Good? && Sendable(b.chain, Parse(b.mempool, raw).value, f)
    requires f.mine ==> f.mineLands
    ensures Nonce(ExecuteBundle(b.chain, Parse(b.mempool, raw).value, f).chain.latest, who) > Nonce(b.chain.latest, who)
            <==> PoolHolds(b.chain.pool, who, Nonce(b.chain.latest, who))
  {
    var items := Parse(b.mempool, raw).value;
    ParsedSigner(b.mempool, raw, items, who);
    OthersExecution(b.chain, items, f, who);
  }

  /** A request of somebody else moves the nonce exactly when it leaves a block and the next
      transaction of the account was waiting. */
  lemma OthersMoveNonce(b: BuilderState, q: Bundles.Request, who: Address)
    requires MempoolFree(b.mempool, who) && !SignsRequest(q, who)
    ensures Nonce(Serve(b, q).chain.latest, who) > Nonce(b.chain.latest, who)
            <==> RequestMines(b, q) && PoolHolds(b.chain.pool, who, Nonce(b.chain.latest, who))
  {
    match q
    case RAdd(_, _) =>
    case RSend(_) =>
    case RMineBlock => MineBlockMovesNonce(b.chain, who);
    case RSimulate(raw, f) =>
      SimulationMinesExactly(b, raw, f);
      if SimulationMines(b, raw, f) {
        OthersBundle(b, raw, f, who);
      }
    case RMine(raw, f) =>
      MinesBlockExactly(b, raw, f);
      UnminedKeepsNonces(b, raw, f);
      if MinesBlock(b, raw, f) {
        OthersBundle(b, raw, f, who);
      }
  }

  lemma UnminedKeepsNonces(b: BuilderState, raw: RawBundle, f: Faults)
    ensures !MinesBlock(b, raw, f) ==> Mine(b, raw, f).builder.chain.latest == b.chain.latest
  {
    MinesBlockExactly(b, raw, f);
    if Parse(b.mempool, raw).Good? {
      SendAllOk(b.chain, Parse(b.mempool, raw).value, f);
    }
  }

  /** A block that somebody else causes makes a nonce that was in step lag if and only if a
      transaction of the bot with that nonce was waiting in the pool. */
  lemma OthersLag(p: Pipe, q: Bundles.Request)
    requires p.nextNonce == Some(ChainNonce(p)) && CarriesNonce(p.config, p.task, ChainNonce(p))
    requires MempoolFree(p.sys.builder.mempool, p.config.bot) && !SignsRequest(q, p.config.bot)
    ensures Lags(Do(p, Elsewhere(Sync.Request(q))))
            <==> && RequestMines(p.sys.builder, q)
                 && PoolHolds(p.sys.builder.chain.pool, p.config.bot, ChainNonce(p))
  {
    OthersMoveNonce(p.sys.builder, q, p.config.bot);
  }
}
