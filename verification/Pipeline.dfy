/** knight/src/runtime/runtime.cpp on top of the synchronisation protocol and the builder: one
    loop that receives a state, searches, composes, simulates and submits. Every request to the
    builder is tried up to three times, may be answered by an error, and its answer may be lost. */
module Pipeline {
  import opened Common
  import opened Domain
  import opened CandidateState
  import opened FindArbitrage
  import opened Abi
  import opened TxChain
  import opened Bundles
  import opened TxComposer
  import opened Sync

  const MAX_ATTEMPTS: nat := 3

  /** One million tokens of eighteen decimals, no minimum profit, no minimum output. */
  const RUNTIME_PARAMS: Params :=
    (WordValue(); Params(1000000 * 1000000000000000000, 0, 0))

  /** What one iteration works on. */
  datatype Job = Job(state: StateSnapshot, swap: Swap, opportunity: Opportunity, tx: Transaction, bundle: RawBundle)

  datatype Task = Idle | Simulating(job: Job, attempt: nat) | Submitting(job: Job, attempt: nat) | Ended

  /** A simulation result that the runtime received. */
  datatype Simulation = Simulation(iteration: nat, bundle: RawBundle, head: nat, result: BundleResult)

  /** A submission on which the builder mined a block: the builder before it, and its RPC faults. */
  datatype Mined = Mined(iteration: nat, job: Job, before: BuilderState, faults: Faults)

  /** A request of Knight that left a trace on the chain: the builder before it, its RPC faults,
      whether it was a submission, and how many simulation results Knight had seen by then. */
  datatype Landing = Landing(
    iteration: nat, job: Job, before: BuilderState, faults: Faults, submitted: bool, seen: nat)

  datatype Pipe = Pipe(
    sys: Sys,
    config: BackrunConfig,
    task: Task,
    nextNonce: Option<nat>,
    iteration: nat,
    prepared: seq<Job>,
    simulations: seq<Simulation>,
    mined: seq<Mined>,
    landed: seq<Landing>,
    used: seq<nat>)

  /** What happens to one attempt on its way. */
  datatype Link = NotSent | AnswerLost | Garbled | Answered

  datatype Act =
    | Elsewhere(step: Sync.Label)
    | Receive
    | TrySimulate(link: Link, faults: Faults)
    | TrySubmit(link: Link, faults: Faults)
    | Stop

  function Start(sys: Sys, config: BackrunConfig, nonce: nat): Pipe
  {
    Pipe(sys, config, Idle, Some(nonce), 0, [], [], [], [], [])
  }

  /** From a received state to a bundle; None where the loop goes on with the next state. */
  function Prepare(state: StateSnapshot, config: BackrunConfig, nonce: Option<nat>): Option<Job>
  {
    if !state.valid then None else
    var candidate :- state.candidate;
    var swap :- DecodeSwap(candidate.swapKind, candidate.tx.tx.input);
    var opportunity :- Search(state, candidate, swap, RUNTIME_PARAMS);
    match ComposeTx(config, nonce, opportunity)
    case Composed(tx) =>
      Some(Job(state, swap, opportunity, tx,
               RawBundle([Ref(candidate.tx.mempoolTxId), Raw(tx)], state.blockNumber)))
    case _ => None
  }

  function DoReceive(p: Pipe): Pipe
  {
    if !p.task.Idle? || p.sys.consumer.Asleep? then p
    else
      var q := p.(sys := StepLook(p.sys));
      match SourceTake(p.sys.source).received
      case Waiting => q
      case Closed => q.(task := Ended)
      case Delivered(state) =>
        match Prepare(state, p.config, p.nextNonce)
        case None => q.(iteration := p.iteration + 1)
        case Some(job) => q.(iteration := p.iteration + 1, prepared := p.prepared + [job], task := Simulating(job, 1))
  }

  /** What the client makes of one attempt: a result, a reason to give up, or to try again. */
  datatype Attempted = Result(result: BundleResult) | GiveUp | Again

  function OutcomeOf(link: Link, response: Response): Attempted
  {
    if link.NotSent? || link.AnswerLost? then Again
    else match response
      case Ok(result) => if link.Garbled? then GiveUp else Result(result)
      case Failed(code) => if code == 409 then GiveUp else Again
  }

  /** Where the loop goes on after an attempt to simulate. */
  function AfterSimulation(job: Job, attempt: nat, outcome: Attempted): Task
  {
    match outcome
    case Result(result) => if result.included then Submitting(job, 1) else Idle
    case GiveUp => Idle
    case Again => if attempt < MAX_ATTEMPTS then Simulating(job, attempt + 1) else Idle
  }

  /** ... and after an attempt to submit. */
  function AfterSubmission(job: Job, attempt: nat, outcome: Attempted): Task
  {
    if outcome.Again? && attempt < MAX_ATTEMPTS then Submitting(job, attempt + 1) else Idle
  }

  /** A submission that returned a result has used its nonce, whatever the result says. */
  function NonceAfter(nonce: Option<nat>, outcome: Attempted): Option<nat>
  {
    if outcome.Result? && nonce.Some? then Some(nonce.value + 1) else nonce
  }

  /** The record of a request that reached the builder. */
  function LandedAfter(p: Pipe, job: Job, f: Faults, submitted: bool, after: BuilderState): seq<Landing>
  {
    if after.chain == p.sys.builder.chain then p.landed
    else p.landed + [Landing(p.iteration, job, p.sys.builder, f, submitted, |p.simulations|)]
  }

  function DoSimulate(p: Pipe, link: Link, f: Faults): Pipe
  {
    if !p.task.Simulating? then p
    else
      var job := p.task.job;
      var a := Simulate(p.sys.builder, job.bundle, f);
      var outcome := OutcomeOf(link, a.response);
      var q := p.(sys := if link.NotSent? then p.sys else p.sys.(builder := a.builder),
                  landed := if link.NotSent? then p.landed else LandedAfter(p, job, f, false, a.builder),
                  task := AfterSimulation(job, p.task.attempt, outcome));
      if !outcome.Result? then q
      else q.(simulations := p.simulations
                + [Simulation(p.iteration, job.bundle, Head(p.sys.builder.chain), outcome.result)])
  }

  predicate MinesBlock(b: BuilderState, bundle: RawBundle, f: Faults)
  {
    Head(Mine(b, bundle, f).builder.chain) > Head(b.chain)
  }

  function DoSubmit(p: Pipe, link: Link, f: Faults): Pipe
  {
    if !p.task.Submitting? then p
    else
      var job, b := p.task.job, p.sys.builder;
      var a := Mine(b, job.bundle, f);
      var outcome := OutcomeOf(link, a.response);
      var q := p.(task := AfterSubmission(job, p.task.attempt, outcome),
                  nextNonce := NonceAfter(p.nextNonce, outcome),
                  used := if outcome.Result? then p.used + [job.tx.nonce] else p.used);
      if link.NotSent? then q
      else q.(sys := p.sys.(builder := a.builder),
              landed := LandedAfter(p, job, f, true, a.builder),
              mined := if MinesBlock(b, job.bundle, f) then p.mined + [Mined(p.iteration, job, b, f)] else p.mined)
  }

  function Do(p: Pipe, act: Act): Pipe
  {
    match act
    case Elsewhere(l) => if l.Look? then p else p.(sys := Next(p.sys, l))
    case Receive => DoReceive(p)
    case TrySimulate(link, f) => DoSimulate(p, link, f)
    case TrySubmit(link, f) => DoSubmit(p, link, f)
    case Stop => if p.task.Idle? then p.(task := Ended) else p
  }

  function DoAll(p: Pipe, acts: seq<Act>): Pipe
  {
    if acts == [] then p else Do(DoAll(p, acts[..|acts| - 1]), acts[|acts| - 1])
  }

  /** The loop body between its blocking calls, with the composer it updates. */
  class Runtime {
    const composer: TxComposer
    var task: Task

    constructor (c: TxComposer)
      ensures composer == c && task == Idle
    {
      composer, task := c, Idle;
    }

    /** From a received state to the first simulation, or back to the wait. */
    method OnState(state: StateSnapshot)
      modifies this
      ensures task == match Prepare(state, composer.config, composer.nextNonce)
                      case None => Idle
                      case Some(job) => Simulating(job, 1)
    {
      task := Idle;
      if !state.valid || state.candidate.None? {
        return;
      }
      var candidate := state.candidate.value;
      var swap := DecodeSwap(candidate.swapKind, candidate.tx.tx.input);
      if swap.None? {
        return;
      }
      var opportunity := FindArbitrage.FindArbitrage(state, candidate, swap.value, RUNTIME_PARAMS);
      FindArbitrageUnique(state, candidate, swap.value, RUNTIME_PARAMS, opportunity,
                          Search(state, candidate, swap.value, RUNTIME_PARAMS));
      if opportunity.None? {
        return;
      }
      var composed := composer.Compose(opportunity.value);
      if !composed.Composed? {
        return;
      }
      var bundle := RawBundle([Ref(candidate.tx.mempoolTxId), Raw(composed.tx)], state.blockNumber);
      task := Simulating(Job(state, swap.value, opportunity.value, composed.tx, bundle), 1);
    }

    method OnSimulation(link: Link, response: Response)
      requires task.Simulating?
      modifies this
      ensures task == AfterSimulation(old(task).job, old(task).attempt, OutcomeOf(link, response))
    {
      var job := task.job;
      var outcome := OutcomeOf(link, response);
      if outcome.Again? && task.attempt < MAX_ATTEMPTS {
        task := Simulating(job, task.attempt + 1);
      } else if outcome.Result? && outcome.result.included {
        task := Submitting(job, 1);
      } else {
        task := Idle;
      }
    }

    method OnSubmission(link: Link, response: Response)
      requires task.Submitting?
      modifies this, composer
      ensures task == AfterSubmission(old(task).job, old(task).attempt, OutcomeOf(link, response))
      ensures composer.nextNonce == NonceAfter(old(composer.nextNonce), OutcomeOf(link, response))
    {
      var outcome := OutcomeOf(link, response);
      if outcome.Again? && task.attempt < MAX_ATTEMPTS {
        task := Submitting(task.job, task.attempt + 1);
        return;
      }
      task := Idle;
      if outcome.Result? {
        composer.MarkNonceUsed();
      }
    }
  }
}
