/** What one iteration of the runtime does, in terms of its parts: when a job is prepared and what it
    carries, and what every answer of the builder leads to. */
module RuntimeDecides {
  import opened Common
  import opened Domain
  import opened CandidateState
  import opened FindArbitrage
  import opened Abi
  import opened Bundles
  import opened TxComposer
  import opened Pipeline

  // ---------------------------------------------------------------- preparing

  /** The candidate of a valid state, if there is one and its calldata is a swap of its kind. */
  predicate Decodes(state: StateSnapshot, swap: Swap)
  {
    && state.valid && state.candidate.Some?
    && EncodedSwap(swap) <= state.candidate.value.tx.tx.input
    && (state.candidate.value.swapKind == AForB <==> swap.SwapExactAForB?)
  }

  /** The search finds this opportunity for that swap, and it can be encoded. */
  ghost predicate Finds(state: StateSnapshot, swap: Swap, o: Opportunity)
  {
    && Decodes(state, swap) && Encodable(CallOf(o))
    && IsFindArbitrage(state, state.candidate.value, swap, RUNTIME_PARAMS, Some(o))
  }

  /** A job is prepared if and only if the state is valid, has a candidate whose calldata is a swap of
      its kind, the search finds an opportunity for it that can be encoded, and the nonce is known. */
  lemma PrepareDecides(state: StateSnapshot, config: BackrunConfig, nonce: Option<nat>)
    ensures Prepare(state, config, nonce).Some?
            <==> nonce.Some? && exists swap, o :: Finds(state, swap, o)
  {
    var job := Prepare(state, config, nonce);
    if job.Some? {
      DecodeSwapExact(state.candidate.value.swapKind, state.candidate.value.tx.tx.input, job.value.swap);
      assert Finds(state, job.value.swap, job.value.opportunity);
    }
    if nonce.Some? && exists swap, o :: Finds(state, swap, o) {
      var swap, o :| Finds(state, swap, o);
      FoundIsPrepared(state, config, nonce, swap, o);
    }
  }

  /** ... and it carries that opportunity in the bot's next transaction, behind the candidate and pinned
      to the block of the state. */
  lemma FoundIsPrepared(state: StateSnapshot, config: BackrunConfig, nonce: Option<nat>, swap: Swap, o: Opportunity)
    requires nonce.Some? && Finds(state, swap, o)
    ensures var tx := Transaction(config.bot, Some(config.contract), nonce.value, config.tip, Encoded(CallOf(o)));
            Prepare(state, config, nonce)
            == Some(Job(state, swap, o, tx,
                        RawBundle([Ref(state.candidate.value.tx.mempoolTxId), Raw(tx)], state.blockNumber)))
  {
    var c := state.candidate.value;
    DecodeSwapExact(c.swapKind, c.tx.tx.input, swap);
    FindArbitrageUnique(state, c, swap, RUNTIME_PARAMS, Some(o), Search(state, c, swap, RUNTIME_PARAMS));
  }

  /** What a look at the state comes to: the end for a closed source, a simulation for a delivery that
      is prepared, and the next look otherwise. */
  lemma ReceiveDecides(p: Pipe)
    requires p.task.Idle? && !p.sys.consumer.Asleep?
    ensures var q, r := DoReceive(p), SourceTake(p.sys.source).received;
            && (q.task.Ended? <==> r.Closed?)
            && (q.task.Simulating? <==> r.Delivered? && Prepare(r.snapshot, p.config, p.nextNonce).Some?)
            && (q.task.Simulating? ==> q.task == Simulating(Prepare(r.snapshot, p.config, p.nextNonce).value, 1))
            && !q.task.Submitting? && q.iteration == p.iteration + if r.Delivered? then 1 else 0
  {
  }

  // ---------------------------------------------------------------- answers

  /** A simulation leads to a submission if and only if it was answered, readable and included; it ends
      the iteration for a result that is not included, for a conflict, for an unreadable answer and
      after the last attempt, and is tried again otherwise. */
  lemma SimulationDecides(p: Pipe, link: Link, f: Faults)
    requires p.task.Simulating?
    ensures var q, r := DoSimulate(p, link, f), Simulate(p.sys.builder, p.task.job.bundle, f).response;
            var reached := link.Garbled? || link.Answered?;
            && (q.task.Submitting? <==> link.Answered? && r.Ok? && r.result.included)
            && (q.task.Submitting? ==> q.task == Submitting(p.task.job, 1))
            && (q.task.Simulating? <==> p.task.attempt < MAX_ATTEMPTS && (!reached || (r.Failed? && r.code != 409)))
            && (q.task.Simulating? ==> q.task == Simulating(p.task.job, p.task.attempt + 1))
            && !q.task.Ended?
  {
  }

  /** ... and a submission is tried again in the same cases, and counts its nonce exactly with a
      readable result. */
  lemma SubmissionDecides(p: Pipe, link: Link, f: Faults)
    requires p.task.Submitting?
    ensures var q, r := DoSubmit(p, link, f), Mine(p.sys.builder, p.task.job.bundle, f).response;
            var reached := link.Garbled? || link.Answered?;
            && (q.task.Submitting? <==> p.task.attempt < MAX_ATTEMPTS && (!reached || (r.Failed? && r.code != 409)))
            && (q.task.Submitting? ==> q.task == Submitting(p.task.job, p.task.attempt + 1))
            && (!q.task.Submitting? ==> q.task.Idle?)
            && (p.nextNonce.Some? ==>
                  q.nextNonce == Some(p.nextNonce.value + if link.Answered? && r.Ok? then 1 else 0))
  {
  }

  /** Attempts that do not reach the builder, or whose answers are lost. */
  predicate Unanswered(act: Act)
  {
    match act
    case TrySimulate(link, _) => link.NotSent? || link.AnswerLost?
    case TrySubmit(link, _) => link.NotSent? || link.AnswerLost?
    case _ => false
  }

  /** Knight gives a request up after exactly three unanswered attempts. */
  lemma {:induction false} ThreeAttempts(p: Pipe, acts: seq<Act>)
    requires p.task.Simulating? && p.task.attempt == 1 && |acts| <= 3
    requires forall i :: 0 <= i < |acts| ==> acts[i].TrySimulate? && Unanswered(acts[i])
    ensures DoAll(p, acts).task
            == if |acts| == 3 then Idle else Simulating(p.task.job, 1 + |acts|)
    decreases |acts|
  {
    if acts != [] {
      ThreeAttempts(p, acts[..|acts| - 1]);
    }
  }

  lemma {:induction false} ThreeSubmissions(p: Pipe, acts: seq<Act>)
    requires p.task.Submitting? && p.task.attempt == 1 && |acts| <= 3
    requires forall i :: 0 <= i < |acts| ==> acts[i].TrySubmit? && Unanswered(acts[i])
    ensures DoAll(p, acts).task
            == if |acts| == 3 then Idle else Submitting(p.task.job, 1 + |acts|)
    decreases |acts|
  {
    if acts != [] {
      ThreeSubmissions(p, acts[..|acts| - 1]);
    }
  }

  // ---------------------------------------------------------------- stopping

  /** What Knight has done so far. */
  predicate SameRecord(p: Pipe, q: Pipe)
  {
    && q.nextNonce == p.nextNonce && q.iteration == p.iteration && q.used == p.used
    && q.prepared == p.prepared && q.simulations == p.simulations && q.mined == p.mined && q.landed == p.landed
  }

  /** A stop waits for the iteration at work; between two iterations it ends the loop, and whatever
      follows Knight does nothing more. */
  lemma {:induction false} StopDecides(p: Pipe, acts: seq<Act>)
    ensures p.task.Simulating? || p.task.Submitting? ==> Do(p, Stop) == p
    ensures p.task.Idle? ==> DoAll(Do(p, Stop), acts).task.Ended? && SameRecord(p, DoAll(Do(p, Stop), acts))
    decreases |acts|
  {
    if acts != [] && p.task.Idle? {
      StopDecides(p, acts[..|acts| - 1]);
    }
  }
}
