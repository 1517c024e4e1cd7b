/** All invariants of the synchronisation protocol together, over every run. */
module SyncRuns {
  import opened Domain
  import opened CandidateState
  import opened Bundles
  import opened Sync
  import opened SyncPartition
  import opened SyncCoherence
  import opened SyncOrder

  ghost predicate SysOk(s: Sys) { Inv(s) && WakeOk(s) && Coherent(s) && OrderOk(s) }

  predicate IsWriteLabel(l: Label)
  {
    l.HandleTx? || l.Apply? || l.MarkInvalid?
  }

  predicate IsReadLabel(l: Label)
  {
    l.ReadPools? || l.RequestSnapshot?
  }

  predicate IsStreamLabel(l: Label)
  {
    l.Request? || l.Deliver? || l.Lose? || l.NewBlock? || l.Poll? || l.Look?
  }

  lemma CoherentWrite(s: Sys, l: Label)
    requires Coherent(s) && IsWriteLabel(l)
    ensures Coherent(Next(s, l))
  {
    match l
    case HandleTx => CoherentHandleTx(s);
    case Apply => if s.core.HasSnapshot? { CoherentApply(s); }
    case MarkInvalid => if s.core.Failing? { CoherentMarkInvalid(s); }
  }

  lemma CoherentRead(s: Sys, l: Label)
    requires Coherent(s) && IsReadLabel(l)
    ensures Coherent(Next(s, l))
  {
    match l
    case ReadPools(answered) => CoherentReadPools(s, answered);
    case RequestSnapshot(answered) => CoherentRequestSnapshot(s, answered);
  }

  lemma OrderWrite(s: Sys, l: Label)
    requires OrderOk(s) && HandsOk(s) && IsWriteLabel(l)
    ensures OrderOk(Next(s, l))
  {
    match l
    case HandleTx => if s.core.OnTx? { OrderHandleTx(s); }
    case Apply => if s.core.HasSnapshot? { OrderApply(s); }
    case MarkInvalid => if s.core.Failing? { OrderMarkInvalid(s); }
  }

  lemma OrderRead(s: Sys, l: Label)
    requires OrderOk(s) && IsReadLabel(l)
    ensures OrderOk(Next(s, l))
  {
    match l
    case ReadPools(answered) => OrderQuiet(s, StepReadPools(s, answered));
    case RequestSnapshot(answered) => OrderQuiet(s, StepRequestSnapshot(s, answered));
  }

  lemma CoherentStream(s: Sys, l: Label)
    requires Coherent(s) && Inv(s) && IsStreamLabel(l)
    ensures Coherent(Next(s, l))
  {
    match l
    case Request(q) => CoherentRequest(s, q);
    case Look => CoherentLook(s);
    case Poll => CoherentPoll(s);
    case _ => CoherentFeed(s, l);
  }

  lemma CoherentPoll(s: Sys)
    requires Coherent(s)
    ensures Coherent(StepPoll(s))
  {
    CoherentQuiet(s, StepPoll(s));
  }

  lemma CoherentFeed(s: Sys, l: Label)
    requires Coherent(s) && (l.Deliver? || l.Lose? || l.NewBlock?)
    ensures Coherent(Next(s, l))
  {
    match l
    case Deliver(k) => CoherentQuiet(s, StepDeliver(s, k));
    case Lose(k) => CoherentQuiet(s, StepLose(s, k));
    case NewBlock(n) => CoherentQuiet(s, StepNewBlock(s, n));
  }

  lemma OrderStream(s: Sys, l: Label)
    requires OrderOk(s) && Inv(s) && IsStreamLabel(l)
    ensures OrderOk(Next(s, l))
  {
    match l
    case Request(q) => OrderQuiet(s, s.(builder := Serve(s.builder, q)));
    case Deliver(k) => OrderDeliver(s, k);
    case Lose(k) => OrderLose(s, k);
    case NewBlock(n) => OrderNewBlock(s, n);
    case Poll => OrderPoll(s);
    case Look => OrderLook(s);
  }

  lemma CoherentQueue(s: Sys, l: Label)
    requires Coherent(s) && (l.QueueNotify? || l.QueueSpurious? || l.CloseQueue?)
    ensures Coherent(Next(s, l))
  {
    CoherentQuiet(s, Next(s, l));
  }

  lemma CoherentOther(s: Sys, l: Label)
    requires Coherent(s) && !IsWriteLabel(l) && !IsReadLabel(l) && !IsStreamLabel(l)
    ensures Coherent(Next(s, l))
  {
    if l.QueueNotify? || l.QueueSpurious? || l.CloseQueue? {
      CoherentQueue(s, l);
    } else {
      CoherentQuiet(s, Next(s, l));
    }
  }

  lemma OrderOther(s: Sys, l: Label)
    requires OrderOk(s) && !IsWriteLabel(l) && !IsReadLabel(l) && !IsStreamLabel(l)
    ensures OrderOk(Next(s, l))
  {
    OrderQuiet(s, Next(s, l));
  }

  lemma GoodKept(s: Sys, l: Label)
    requires SysOk(s)
    ensures SysOk(Next(s, l))
  {
    InvKept(s, l);
    WakeKept(s, l);
    if IsWriteLabel(l) {
      CoherentWrite(s, l);
      OrderWrite(s, l);
    } else if IsReadLabel(l) {
      CoherentRead(s, l);
      OrderRead(s, l);
    } else if IsStreamLabel(l) {
      CoherentStream(s, l);
      OrderStream(s, l);
    } else {
      CoherentOther(s, l);
      OrderOther(s, l);
    }
  }

  lemma WakeLook(s: Sys)
    requires WakeOk(s)
    ensures WakeOk(StepLook(s))
  {
  }

  /** The consumer's step on its own. */
  lemma LookKeeps(s: Sys)
    requires SysOk(s)
    ensures SysOk(StepLook(s))
  {
    KeptByLook(s);
    CoherentLook(s);
    OrderLook(s);
    WakeLook(s);
  }

  lemma InitGood(pools: seq<Pool>, builder: BuilderState)
    requires BuilderOk(builder)
    ensures SysOk(Init(pools, builder))
  {
  }

  lemma {:induction false} RunIsGood(s: Sys, labels: seq<Label>)
    requires SysOk(s)
    ensures SysOk(Run(s, labels))
    decreases |labels|
  {
    if labels != [] {
      RunIsGood(s, labels[..|labels| - 1]);
      GoodKept(Run(s, labels[..|labels| - 1]), labels[|labels| - 1]);
    }
  }

  /** In every run: every relevant record is accounted for, deliveries are coherent and in block
      order, candidates come out in order if the stream is in order, no wakeup is lost, and the
      consumer is told CLOSED exactly when the source is closed. */
  lemma EveryRunIsGood(pools: seq<Pool>, builder: BuilderState, labels: seq<Label>)
    requires BuilderOk(builder)
    ensures var s := Run(Init(pools, builder), labels);
            && Partition(s) && Coherent(s) && OrderOk(s) && WakeOk(s)
            && (SourceTake(s.source).received.Closed? <==> s.source.closed)
  {
    InitGood(pools, builder);
    RunIsGood(Init(pools, builder), labels);
    ClosedOnlyIfClosed(Run(Init(pools, builder), labels).source);
  }
}
