/** The candidate synchronisation protocol as one machine: the builder and its stream, the event
    queue, the core thread of CandidateSource, the state behind its mutex and the consumer that
    waits for it. A label picks the next step of one of them; a label that is not enabled
    changes nothing, so every sequence of labels is a run. */
module Sync {
  import opened Common
  import opened Domain
  import opened Ledger
  import opened CandidateFilter
  import opened CandidateState
  import opened TxChain
  import opened BuilderMempool
  import opened Bundles
  import Queue

  datatype Event = TxEvent(tx: PendingTransaction) | BlockEvent(number: nat)

  /** A thread at a condition variable: outside of the wait, blocked, or woken and about to look
      at the predicate again. */
  datatype Phase = Outside | Asleep | Awake

  /** Where the core thread is. A snapshot in its hands remembers, for the proofs, the mempool
      it was taken from. */
  datatype Core =
    | Polling(phase: Phase)
    | OnTx(tx: PendingTransaction)
    | OnBlock(number: nat)
    | HasPools(number: nat, pools: seq<PoolSnapshot>)
    | HasSnapshot(number: nat, pools: seq<PoolSnapshot>, snapshot: CandidateSnapshot, source: MempoolState)
    | Failing(number: nat)
    | Notifying
    | Stopped

  datatype Applied = Applied(blockNumber: nat, pools: seq<PoolSnapshot>)

  datatype Sys = Sys(
    pools: seq<Pool>,
    builder: BuilderState,
    streamed: set<nat>,
    lost: set<nat>,
    queue: Queue.View<Event>,
    queueOwed: nat,
    core: Core,
    source: SourceView,
    consumer: Phase,
    closersOwed: nat,
    base: MempoolState,
    popped: seq<nat>,
    applied: seq<Applied>,
    delivered: seq<StateSnapshot>,
    processed: nat,
    ordered: bool)

  datatype Label =
    | Request(request: Bundles.Request)
    | Deliver(seqNum: nat)
    | Lose(seqNum: nat)
    | NewBlock(number: nat)
    | QueueNotify
    | QueueSpurious
    | Poll
    | CloseQueue
    | HandleTx
    | ReadPools(answered: bool)
    | RequestSnapshot(answered: bool)
    | Apply
    | MarkInvalid
    | Notify
    | CloseSource
    | CloseNotify
    | Spurious
    | Look

  function Init(pools: seq<Pool>, builder: BuilderState): Sys
  {
    Sys(pools, builder, {}, {}, Queue.View([], false), 0, Polling(Outside), INITIAL, Outside, 0,
        EMPTY_MEMPOOL, [], [], [], 0, true)
  }

  // ---------------------------------------------------------------- the stream and the queue

  function LastSeq(s: Sys): nat { s.builder.mempool.lastSeqNum }

  /** The streamed message about a record; what it says of the record never changes. */
  function EventOf(m: MempoolState, k: nat): Event
    requires 0 < k <= |m.records|
  {
    TxEvent(AsPending(m.records[k - 1]))
  }

  predicate CanStream(s: Sys, k: nat)
  {
    0 < k <= |s.builder.mempool.records| && k !in s.streamed
  }

  /** publish_pending_transaction: a full or closed queue drops the event. A delivery that
      overtakes an earlier one is noted. */
  function StepDeliver(s: Sys, k: nat): Sys
  {
    if !CanStream(s, k) then s
    else
      var accepted := Queue.Accepts(Queue.EVENT_CAPACITY, s.queue);
      s.(streamed := s.streamed + {k},
         lost := if accepted then s.lost else s.lost + {k},
         queue := Queue.Push(Queue.EVENT_CAPACITY, s.queue, EventOf(s.builder.mempool, k)),
         queueOwed := if accepted then s.queueOwed + 1 else s.queueOwed,
         ordered := s.ordered && forall j :: 0 < j < k ==> j in s.streamed)
  }

  /** A message that never arrives. */
  function StepLose(s: Sys, k: nat): Sys
  {
    if !CanStream(s, k) then s
    else s.(streamed := s.streamed + {k}, lost := s.lost + {k},
            ordered := s.ordered && forall j :: 0 < j < k ==> j in s.streamed)
  }

  /** publish_new_block, for a block that is or was the head. */
  function StepNewBlock(s: Sys, n: nat): Sys
  {
    if n > Head(s.builder.chain) then s
    else
      var accepted := Queue.Accepts(Queue.EVENT_CAPACITY, s.queue);
      s.(queue := Queue.Push(Queue.EVENT_CAPACITY, s.queue, BlockEvent(n)),
         queueOwed := if accepted then s.queueOwed + 1 else s.queueOwed)
  }

  function StepCloseQueue(s: Sys): Sys
  {
    s.(queue := s.queue.(closed := true), queueOwed := s.queueOwed + 1)
  }

  function Wake(p: Phase): Phase
  {
    if p.Asleep? then Awake else p
  }

  function WakeCore(s: Sys): Sys
  {
    if s.core == Polling(Asleep) then s.(core := Polling(Awake)) else s
  }

  function StepQueueNotify(s: Sys): Sys
  {
    if s.queueOwed == 0 then s else WakeCore(s).(queueOwed := s.queueOwed - 1)
  }

  /** The core thread looks at the queue's predicate, under its mutex. */
  function StepPoll(s: Sys): Sys
  {
    if !s.core.Polling? || s.core.phase.Asleep? then s
    else
      var t := Queue.Take(s.queue);
      match t.received
      case Waiting => s.(core := Polling(Asleep))
      case Drained => s.(core := Stopped)
      case Item(e) => s.(queue := t.view, core := if e.TxEvent? then OnTx(e.tx) else OnBlock(e.number))
  }

  // ---------------------------------------------------------------- the core thread

  function After(notifies: bool): Core
  {
    if notifies then Notifying else Polling(Outside)
  }

  /** handle_pending_tx_event. A closed source drops the candidate, which is noted. */
  function StepHandleTx(s: Sys): Sys
  {
    if !s.core.OnTx? then s
    else
      var done := s.(processed := s.core.tx.seqNum);
      match Filter(s.pools, s.core.tx)
      case None => done.(core := Polling(Outside))
      case Some(c) =>
        var r := SourceApplyPending(s.source, c);
        done.(source := r.view, core := After(r.notifies),
              lost := if s.source.closed then s.lost + {c.tx.seqNum} else s.lost)
  }

  /** The reserves of one pool at a block. */
  function ReadPool(w: World, pool: Pool): Option<PoolSnapshot>
  {
    if pool.address !in w.pools then None
    else
      var d := w.pools[pool.address];
      if d.reserveA < WORD && d.reserveB < WORD
      then Some(PoolSnapshot(pool, d.reserveA, d.reserveB)) else None
  }

  function ReadAll(w: World, pools: seq<Pool>): Option<seq<PoolSnapshot>>
  {
    if pools == [] then Some([])
    else
      var front :- ReadAll(w, pools[..|pools| - 1]);
      var last :- ReadPool(w, pools[|pools| - 1]);
      Some(front + [last])
  }

  /** request_pool_snapshots: the reserves of every configured pool at the block of the event. */
  function StepReadPools(s: Sys, answered: bool): Sys
  {
    if !s.core.OnBlock? then s
    else if !answered || s.core.number > Head(s.builder.chain) then s.(core := Failing(s.core.number))
    else match ReadAll(BlockAt(s.builder.chain, s.core.number).world, s.pools)
      case None => s.(core := Failing(s.core.number))
      case Some(pools) => s.(core := HasPools(s.core.number, pools))
  }

  /** request_snapshot and filter_snapshot. */
  function StepRequestSnapshot(s: Sys, answered: bool): Sys
  {
    if !s.core.HasPools? then s
    else if !answered then s.(core := Failing(s.core.number))
    else
      var snapshot := TakeSnapshot(s.builder.mempool);
      var filtered := CandidateSnapshot(s.core.number, snapshot.snapshotSeq, FilterAll(s.pools, snapshot.transactions));
      s.(core := HasSnapshot(s.core.number, s.core.pools, filtered, s.builder.mempool))
  }

  /** apply_state_snapshot. */
  function StepApply(s: Sys): Sys
  {
    if !s.core.HasSnapshot? then s
    else
      var r := SourceApplySnapshot(s.source, s.core.snapshot, s.core.pools);
      var next := s.(source := r.view, core := After(r.notifies));
      if !r.accepted then next
      else next.(base := s.core.source, popped := [], applied := s.applied + [Applied(s.core.number, s.core.pools)])
  }

  /** mark_state_invalid. */
  function StepMarkInvalid(s: Sys): Sys
  {
    if !s.core.Failing? then s
    else
      var r := SourceMarkInvalid(s.source, s.core.number);
      s.(source := r.view, core := After(r.notifies))
  }

  // ---------------------------------------------------------------- the waiter of the state

  function StepNotify(s: Sys): Sys
  {
    if !s.core.Notifying? then s else s.(core := Polling(Outside), consumer := Wake(s.consumer))
  }

  function StepCloseSource(s: Sys): Sys
  {
    s.(source := SourceClose(s.source), closersOwed := s.closersOwed + 1)
  }

  function StepCloseNotify(s: Sys): Sys
  {
    if s.closersOwed == 0 then s
    else s.(closersOwed := s.closersOwed - 1, consumer := Wake(s.consumer))
  }

  /** The consumer looks at the state's predicate, under its mutex, and takes what is there. */
  function StepLook(s: Sys): Sys
  {
    if s.consumer.Asleep? then s
    else
      var t := SourceTake(s.source);
      match t.received
      case Waiting => s.(consumer := Asleep)
      case Closed => s.(source := t.view, consumer := Outside)
      case Delivered(d) =>
        s.(source := t.view, consumer := Outside, delivered := s.delivered + [d],
           popped := if d.candidate.Some? then s.popped + [d.candidate.value.tx.seqNum] else s.popped)
  }

  function Next(s: Sys, l: Label): Sys
  {
    match l
    case Request(q) => s.(builder := Serve(s.builder, q))
    case Deliver(k) => StepDeliver(s, k)
    case Lose(k) => StepLose(s, k)
    case NewBlock(n) => StepNewBlock(s, n)
    case QueueNotify => StepQueueNotify(s)
    case QueueSpurious => WakeCore(s)
    case Poll => StepPoll(s)
    case CloseQueue => StepCloseQueue(s)
    case HandleTx => StepHandleTx(s)
    case ReadPools(answered) => StepReadPools(s, answered)
    case RequestSnapshot(answered) => StepRequestSnapshot(s, answered)
    case Apply => StepApply(s)
    case MarkInvalid => StepMarkInvalid(s)
    case Notify => StepNotify(s)
    case CloseSource => StepCloseSource(s)
    case CloseNotify => StepCloseNotify(s)
    case Spurious => s.(consumer := Wake(s.consumer))
    case Look => StepLook(s)
  }

  function Run(s: Sys, labels: seq<Label>): Sys
  {
    if labels == [] then s else Next(Run(s, labels[..|labels| - 1]), labels[|labels| - 1])
  }

  // ---------------------------------------------------------------- no lost wakeup

  /** The core thread does not sleep on a ready queue unless somebody still owes it a
      notification ... */
  predicate QueueWakeOk(core: Core, queue: Queue.View<Event>, owed: nat)
  {
    core == Polling(Asleep) && Queue.Ready(queue) ==> owed > 0
  }

  /** ... and neither does the consumer on a ready state. */
  predicate StateWakeOk(consumer: Phase, source: SourceView, core: Core, closersOwed: nat)
  {
    consumer == Asleep && CandidateState.Ready(source) ==> core.Notifying? || closersOwed > 0
  }

  predicate WakeOk(s: Sys)
  {
    && QueueWakeOk(s.core, s.queue, s.queueOwed)
    && StateWakeOk(s.consumer, s.source, s.core, s.closersOwed)
  }

  lemma StreamWakes(s: Sys, l: Label)
    requires WakeOk(s)
    requires l.Request? || l.Deliver? || l.Lose? || l.NewBlock? || l.QueueNotify? || l.QueueSpurious? || l.CloseQueue?
    ensures WakeOk(Next(s, l))
  {
  }

  lemma CoreWakes(s: Sys, l: Label)
    requires WakeOk(s)
    requires l.Poll? || l.ReadPools? || l.RequestSnapshot? || l.Notify?
    ensures WakeOk(Next(s, l))
  {
  }

  /** Every write to the state that makes its predicate true owes a notification. */
  lemma WriteWakes(s: Sys, l: Label)
    requires WakeOk(s) && (l.HandleTx? || l.Apply? || l.MarkInvalid?)
    ensures WakeOk(Next(s, l))
  {
  }

  lemma ConsumerWakes(s: Sys, l: Label)
    requires WakeOk(s) && (l.CloseSource? || l.CloseNotify? || l.Spurious? || l.Look?)
    ensures WakeOk(Next(s, l))
  {
  }

  lemma WakeKept(s: Sys, l: Label)
    requires WakeOk(s)
    ensures WakeOk(Next(s, l))
  {
    if l.HandleTx? || l.Apply? || l.MarkInvalid? {
      WriteWakes(s, l);
    } else if l.CloseSource? || l.CloseNotify? || l.Spurious? || l.Look? {
      ConsumerWakes(s, l);
    } else if l.Poll? || l.ReadPools? || l.RequestSnapshot? || l.Notify? {
      CoreWakes(s, l);
    } else {
      StreamWakes(s, l);
    }
  }

  lemma {:induction false} NoLostWakeup(s: Sys, labels: seq<Label>)
    requires WakeOk(s)
    ensures WakeOk(Run(s, labels))
    decreases |labels|
  {
    if labels != [] {
      NoLostWakeup(s, labels[..|labels| - 1]);
      WakeKept(Run(s, labels[..|labels| - 1]), labels[|labels| - 1]);
    }
  }

  /** So a waiter that is stuck can be woken: the owed notification is a step that is enabled
      and makes it look again. */
  lemma OwedNotificationWakes(s: Sys)
    requires WakeOk(s)
    ensures s.core == Polling(Asleep) && Queue.Ready(s.queue) ==> Next(s, QueueNotify).core == Polling(Awake)
    ensures s.consumer == Asleep && CandidateState.Ready(s.source) ==>
              Next(s, Notify).consumer == Awake || Next(s, CloseNotify).consumer == Awake
  {
  }

  // ---------------------------------------------------------------- after close

  /** After close no step changes the state behind the mutex, and the consumer is told CLOSED. */
  lemma ClosedForGood(s: Sys, l: Label)
    requires s.source.closed
    ensures Next(s, l).source == s.source && Next(s, l).delivered == s.delivered
  {
  }
}
