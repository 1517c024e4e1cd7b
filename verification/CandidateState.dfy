/** Knight's view of the chain and the mempool: LocalMempool, State and the part of
    CandidateSource that its mutex guards. First as values with one function per operation,
    then as the classes that update these fields in place. */
module CandidateState {
  import opened Common
  import opened Domain
  import opened CandidateFilter

  // ---------------------------------------------------------------- LocalMempool

  datatype MempoolView = MempoolView(candidates: map<nat, Candidate>, snapshotSeq: nat)

  /** insert_or_assign, one candidate after the other. */
  function Index(cs: seq<Candidate>): map<nat, Candidate>
  {
    if cs == [] then map[]
    else
      var last := cs[|cs| - 1];
      Index(cs[..|cs| - 1])[last.tx.seqNum := last]
  }

  lemma {:induction false} IndexKeys(cs: seq<Candidate>, k: nat)
    ensures k in Index(cs) <==> exists c :: c in cs && c.tx.seqNum == k
    ensures k in Index(cs) ==> Index(cs)[k] in cs && Index(cs)[k].tx.seqNum == k
  {
    if cs != [] {
      var front, last := cs[..|cs| - 1], cs[|cs| - 1];
      assert cs == front + [last];
      IndexKeys(front, k);
    }
  }

  function MempoolApplySnapshot(m: MempoolView, s: CandidateSnapshot): Option<MempoolView>
  {
    if s.snapshotSeq < m.snapshotSeq then None
    else Some(MempoolView(Index(s.candidates), s.snapshotSeq))
  }

  function MempoolApplyPending(m: MempoolView, c: Candidate): Option<MempoolView>
  {
    if c.tx.seqNum <= m.snapshotSeq then None
    else Some(m.(candidates := m.candidates[c.tx.seqNum := c]))
  }

  predicate IsMin(s: set<nat>, k: nat)
  {
    k in s && forall j :: j in s ==> k <= j
  }

  lemma {:induction false} HasMin(s: set<nat>)
    requires s != {}
    ensures exists k :: IsMin(s, k)
  {
    var x :| x in s;
    var rest := s - {x};
    if rest == {} {
      forall j | j in s
        ensures j == x
      {
        assert j != x ==> j in rest;
      }
      assert IsMin(s, x);
    } else {
      HasMin(rest);
      var k :| IsMin(rest, k);
      forall j | j in s
        ensures j == x || k <= j
      {
        assert j != x ==> j in rest;
      }
      assert IsMin(s, if x <= k then x else k);
    }
  }

  /** The key at the front of an ordered map. */
  function MinKey(s: set<nat>): (k: nat)
    requires s != {}
    ensures IsMin(s, k)
  {
    HasMin(s);
    var k :| IsMin(s, k);
    k
  }

  function Without(m: map<nat, Candidate>, k: nat): map<nat, Candidate>
  {
    map j | j in m && j != k :: m[j]
  }

  const EMPTY: MempoolView := MempoolView(map[], 0)

  class LocalMempool {
    var candidates: map<nat, Candidate>
    var snapshotSeq: nat

    function View(): MempoolView
      reads this
    {
      MempoolView(candidates, snapshotSeq)
    }

    constructor ()
      ensures View() == EMPTY
    {
      candidates, snapshotSeq := map[], 0;
    }

    method ApplySnapshot(snapshot: CandidateSnapshot) returns (applied: bool)
      modifies this
      ensures applied == MempoolApplySnapshot(old(View()), snapshot).Some?
      ensures View() == if applied then MempoolApplySnapshot(old(View()), snapshot).value else old(View())
    {
      var next: map<nat, Candidate> := map[];
      var cs := snapshot.candidates;
      for i := 0 to |cs|
        invariant next == Index(cs[..i])
      {
        assert cs[..i + 1][..i] == cs[..i];
        next := next[cs[i].tx.seqNum := cs[i]];
      }
      assert cs[..|cs|] == cs;
      if snapshot.snapshotSeq < snapshotSeq {
        return false;
      }
      candidates := next;
      snapshotSeq := snapshot.snapshotSeq;
      return true;
    }

    method ApplyPendingTx(candidate: Candidate) returns (accepted: bool)
      modifies this
      ensures accepted == MempoolApplyPending(old(View()), candidate).Some?
      ensures View() == if accepted then MempoolApplyPending(old(View()), candidate).value else old(View())
    {
      if candidate.tx.seqNum <= snapshotSeq {
        return false;
      }
      candidates := candidates[candidate.tx.seqNum := candidate];
      return true;
    }

    method PopNextCandidate() returns (candidate: Option<Candidate>)
      modifies this
      ensures candidate.None? <==> old(candidates) == map[]
      ensures candidate.None? ==> View() == old(View())
      ensures candidate.Some? ==>
                var k := MinKey(old(candidates).Keys);
                && candidate.value == old(candidates)[k]
                && View() == old(View()).(candidates := Without(old(candidates), k))
    {
      if candidates == map[] {
        return None;
      }
      var k := MinKey(candidates.Keys);
      candidate := Some(candidates[k]);
      candidates := Without(candidates, k);
    }

    method Clear()
      modifies this
      ensures View() == EMPTY
    {
      candidates := map[];
      snapshotSeq := 0;
    }
  }

  // ---------------------------------------------------------------- State

  datatype StateView = StateView(
    valid: bool, blockNumber: Option<nat>, pools: seq<PoolSnapshot>, mempool: MempoolView)

  predicate Stale(v: StateView, blockNumber: nat)
  {
    v.blockNumber.Some? && blockNumber < v.blockNumber.value
  }

  function StateApplySnapshot(v: StateView, s: CandidateSnapshot, pools: seq<PoolSnapshot>): Option<StateView>
  {
    if Stale(v, s.blockNumber) then None else
    var mempool :- MempoolApplySnapshot(v.mempool, s);
    Some(StateView(true, Some(s.blockNumber), pools, mempool))
  }

  function StateApplyPending(v: StateView, c: Candidate): Option<StateView>
  {
    if !v.valid then None else
    var mempool :- MempoolApplyPending(v.mempool, c);
    Some(v.(mempool := mempool))
  }

  function StateMarkInvalid(v: StateView, blockNumber: nat): Option<StateView>
  {
    if Stale(v, blockNumber) then None
    else Some(StateView(false, Some(blockNumber), [], EMPTY))
  }

  function MakeSnapshot(v: StateView, candidate: Option<Candidate>): StateSnapshot
  {
    StateSnapshot(v.valid, v.blockNumber, v.pools, candidate)
  }

  datatype Popped = Popped(view: StateView, snapshot: StateSnapshot)

  function StatePop(v: StateView): Option<Popped>
  {
    if !v.valid || v.mempool.candidates == map[] then None
    else
      var k := MinKey(v.mempool.candidates.Keys);
      Some(Popped(v.(mempool := v.mempool.(candidates := Without(v.mempool.candidates, k))),
                  MakeSnapshot(v, Some(v.mempool.candidates[k]))))
  }

  class State {
    var valid: bool
    var blockNumber: Option<nat>
    var pools: seq<PoolSnapshot>
    const mempool: LocalMempool

    function View(): StateView
      reads this, mempool
    {
      StateView(valid, blockNumber, pools, mempool.View())
    }

    constructor ()
      ensures View() == StateView(false, None, [], EMPTY) && fresh(mempool)
    {
      valid, blockNumber, pools := false, None, [];
      mempool := new LocalMempool();
    }

    method ApplySnapshot(snapshot: CandidateSnapshot, poolSnapshots: seq<PoolSnapshot>) returns (applied: bool)
      modifies this, mempool
      ensures applied == StateApplySnapshot(old(View()), snapshot, poolSnapshots).Some?
      ensures View() == if applied then StateApplySnapshot(old(View()), snapshot, poolSnapshots).value else old(View())
    {
      if blockNumber.Some? && snapshot.blockNumber < blockNumber.value {
        return false;
      }
      applied := mempool.ApplySnapshot(snapshot);
      if !applied {
        return;
      }
      blockNumber := Some(snapshot.blockNumber);
      pools := poolSnapshots;
      valid := true;
    }

    method ApplyPendingTx(candidate: Candidate) returns (accepted: bool)
      modifies this, mempool
      ensures accepted == StateApplyPending(old(View()), candidate).Some?
      ensures View() == if accepted then StateApplyPending(old(View()), candidate).value else old(View())
    {
      if !valid {
        return false;
      }
      accepted := mempool.ApplyPendingTx(candidate);
    }

    method MarkInvalid(number: nat) returns (marked: bool)
      modifies this, mempool
      ensures marked == StateMarkInvalid(old(View()), number).Some?
      ensures View() == if marked then StateMarkInvalid(old(View()), number).value else old(View())
    {
      if blockNumber.Some? && number < blockNumber.value {
        return false;
      }
      blockNumber := Some(number);
      valid := false;
      pools := [];
      mempool.Clear();
      return true;
    }

    method PopNextSnapshot() returns (snapshot: Option<StateSnapshot>)
      modifies this, mempool
      ensures match StatePop(old(View()))
              case None => snapshot == None && View() == old(View())
              case Some(p) => snapshot == Some(p.snapshot) && View() == p.view
    {
      if !valid {
        return None;
      }
      var candidate := mempool.PopNextCandidate();
      if candidate.None? {
        return None;
      }
      return Some(StateSnapshot(valid, blockNumber, pools, candidate));
    }
  }

  // ---------------------------------------------------------------- CandidateSource

  datatype SourceView = SourceView(state: StateView, closed: bool, invalidPending: bool)

  const INITIAL: SourceView := SourceView(StateView(false, None, [], EMPTY), false, false)

  /** What an operation leaves, and whether its caller then owes the waiter a notification. */
  datatype Step = Step(view: SourceView, accepted: bool, notifies: bool)

  function SourceMarkInvalid(v: SourceView, blockNumber: nat): Step
  {
    if v.closed then Step(v, false, false)
    else match StateMarkInvalid(v.state, blockNumber)
      case None => Step(v, false, false)
      case Some(s) => Step(v.(state := s, invalidPending := true), true, true)
  }

  function SourceApplySnapshot(v: SourceView, s: CandidateSnapshot, pools: seq<PoolSnapshot>): Step
  {
    if v.closed then Step(v, false, false)
    else match StateApplySnapshot(v.state, s, pools)
      case None => Step(v, false, false)
      case Some(st) => Step(v.(state := st, invalidPending := false), true, st.mempool.candidates != map[])
  }

  function SourceApplyPending(v: SourceView, c: Candidate): Step
  {
    if v.closed then Step(v, false, false)
    else match StateApplyPending(v.state, c)
      case None => Step(v, false, false)
      case Some(s) => Step(v.(state := s), true, true)
  }

  function SourceClose(v: SourceView): SourceView
  {
    v.(closed := true)
  }

  /** The predicate of the condition variable. */
  predicate Ready(v: SourceView)
  {
    v.closed || v.invalidPending || v.state.mempool.candidates != map[]
  }

  datatype Received = Waiting | Closed | Delivered(snapshot: StateSnapshot)

  datatype Taken = Taken(view: SourceView, received: Received)

  /** wait_pop_state each time its waiter looks, with the fallback of the source. */
  function SourceTake(v: SourceView): Taken
  {
    if !Ready(v) then Taken(v, Waiting)
    else if v.closed then Taken(v, Closed)
    else if v.invalidPending then Taken(v.(invalidPending := false), Delivered(MakeSnapshot(v.state, None)))
    else match StatePop(v.state)
      case None => Taken(v, Closed)
      case Some(p) => Taken(v.(state := p.view), Delivered(p.snapshot))
  }

  /** Candidates are filed under their sequence numbers, invalid means empty, and a pending
      invalid snapshot means invalid. */
  ghost predicate SourceOk(v: SourceView)
  {
    && (forall k :: k in v.state.mempool.candidates ==> v.state.mempool.candidates[k].tx.seqNum == k)
    && (!v.state.valid ==> v.state.pools == [] && v.state.mempool == EMPTY)
    && (v.invalidPending ==> !v.state.valid)
    && (v.state.valid || v.invalidPending ==> v.state.blockNumber.Some?)
  }

  lemma ApplySnapshotKeepsOk(v: SourceView, s: CandidateSnapshot, pools: seq<PoolSnapshot>)
    requires SourceOk(v)
    ensures SourceOk(SourceApplySnapshot(v, s, pools).view)
  {
    forall k | k in Index(s.candidates)
      ensures Index(s.candidates)[k].tx.seqNum == k
    {
      IndexKeys(s.candidates, k);
    }
  }

  lemma ApplyPendingKeepsOk(v: SourceView, c: Candidate)
    requires SourceOk(v)
    ensures SourceOk(SourceApplyPending(v, c).view)
  {
  }

  lemma TakeKeepsOk(v: SourceView)
    requires SourceOk(v)
    ensures SourceOk(SourceTake(v).view)
  {
  }

  /** wait_pop_state reports CLOSED exactly when the source was closed: the fallback after a
      failed pop is unreachable. */
  lemma ClosedOnlyIfClosed(v: SourceView)
    requires SourceOk(v)
    ensures SourceTake(v).received.Closed? <==> v.closed
    ensures SourceTake(v).received.Waiting? <==> !Ready(v)
  {
  }

  /** A snapshot is applied exactly by an open source that has seen neither a later block nor a later
      sequence number, and then it alone decides what is held. */
  lemma SnapshotDecides(v: SourceView, s: CandidateSnapshot, pools: seq<PoolSnapshot>, k: nat)
    ensures var r := SourceApplySnapshot(v, s, pools);
            && (r.accepted <==> && !v.closed && v.state.mempool.snapshotSeq <= s.snapshotSeq
                                && (v.state.blockNumber.Some? ==> v.state.blockNumber.value <= s.blockNumber))
            && (!r.accepted ==> r.view == v && !r.notifies)
            && (r.accepted ==>
                  var st := r.view.state;
                  && st.valid && st.blockNumber == Some(s.blockNumber) && st.pools == pools
                  && st.mempool.snapshotSeq == s.snapshotSeq && !r.view.invalidPending
                  && (k in st.mempool.candidates <==> exists c :: c in s.candidates && c.tx.seqNum == k)
                  && (r.notifies <==> Ready(r.view)))
  {
    IndexKeys(s.candidates, k);
  }

  /** What a delivery carries: either the one invalid snapshot that was pending, empty, or the
      current pools and block together with the earliest candidate held. */
  lemma DeliveryShape(v: SourceView)
    requires SourceOk(v) && SourceTake(v).received.Delivered?
    ensures var s := SourceTake(v).received.snapshot;
            && s.valid == v.state.valid && s.blockNumber == v.state.blockNumber && s.pools == v.state.pools
            && (s.valid <==> s.candidate.Some?)
            && (!s.valid ==> s.pools == [] && v.invalidPending && !SourceTake(v).view.invalidPending)
            && (s.valid ==>
                  var k := s.candidate.value.tx.seqNum;
                  && k in v.state.mempool.candidates && v.state.mempool.candidates[k] == s.candidate.value
                  && (forall j :: j in v.state.mempool.candidates ==> k <= j)
                  && SourceTake(v).view.state.mempool.candidates == Without(v.state.mempool.candidates, k))
  {
  }

  class CandidateSource {
    const state: State
    var closed: bool
    var invalidPending: bool

    function View(): SourceView
      reads this, state, state.mempool
    {
      SourceView(state.View(), closed, invalidPending)
    }

    constructor ()
      ensures View() == INITIAL && fresh(state) && fresh(state.mempool)
    {
      state := new State();
      closed, invalidPending := false, false;
    }

    method MarkStateInvalid(blockNumber: nat) returns (marked: bool, notify: bool)
      modifies this, state, state.mempool
      ensures Step(View(), marked, notify) == SourceMarkInvalid(old(View()), blockNumber)
    {
      if closed {
        return false, false;
      }
      marked := state.MarkInvalid(blockNumber);
      if marked {
        invalidPending := true;
      }
      notify := marked;
    }

    method ApplyStateSnapshot(snapshot: CandidateSnapshot, pools: seq<PoolSnapshot>)
      returns (applied: bool, notify: bool)
      modifies this, state, state.mempool
      ensures Step(View(), applied, notify) == SourceApplySnapshot(old(View()), snapshot, pools)
    {
      if closed {
        return false, false;
      }
      notify := false;
      applied := state.ApplySnapshot(snapshot, pools);
      if applied {
        invalidPending := false;
        notify := |state.mempool.candidates| > 0;
      }
    }

    method ApplyPendingCandidate(candidate: Candidate) returns (accepted: bool, notify: bool)
      modifies this, state, state.mempool
      ensures Step(View(), accepted, notify) == SourceApplyPending(old(View()), candidate)
    {
      if closed {
        return false, false;
      }
      accepted := state.ApplyPendingTx(candidate);
      notify := accepted;
    }

    method CloseStateWaiters()
      modifies this
      ensures View() == SourceClose(old(View()))
    {
      closed := true;
    }

    /** wait_pop_state from the point where its predicate is evaluated. */
    method WaitPopState() returns (received: Received)
      modifies this, state, state.mempool
      ensures Taken(View(), received) == SourceTake(old(View()))
    {
      if !(closed || invalidPending || |state.mempool.candidates| > 0) {
        return Waiting;
      }
      if closed {
        return Closed;
      }
      if invalidPending {
        invalidPending := false;
        return Delivered(StateSnapshot(state.valid, state.blockNumber, state.pools, None));
      }
      var snapshot := state.PopNextSnapshot();
      if snapshot.None? {
        return Closed;
      }
      return Delivered(snapshot.value);
    }
  }

  // ---------------------------------------------------------------- pool snapshots

  /** request_pool_snapshots: one reply per configured pool, nothing as soon as one is missing. */
  method RequestPoolSnapshots(pools: seq<Pool>, replies: seq<Option<(U256, U256)>>)
    returns (result: Option<seq<PoolSnapshot>>)
    requires |replies| == |pools|
    ensures result.None? <==> exists i :: 0 <= i < |pools| && replies[i].None?
    ensures result.Some? ==> Covers(pools, result.value)
    ensures result.Some? ==> forall i :: 0 <= i < |pools| ==>
                replies[i] == Some((result.value[i].reserveA, result.value[i].reserveB))
  {
    var snapshots: seq<PoolSnapshot> := [];
    for i := 0 to |pools|
      invariant |snapshots| == i
      invariant forall j :: 0 <= j < i ==> snapshots[j].pool == pools[j]
      invariant forall j :: 0 <= j < i ==> replies[j] == Some((snapshots[j].reserveA, snapshots[j].reserveB))
    {
      if replies[i].None? {
        return None;
      }
      snapshots := snapshots + [PoolSnapshot(pools[i], replies[i].value.0, replies[i].value.1)];
    }
    return Some(snapshots);
  }

  /** One snapshot per configured pool, in the configured order. */
  predicate Covers(pools: seq<Pool>, snapshots: seq<PoolSnapshot>)
  {
    |snapshots| == |pools| && forall i :: 0 <= i < |pools| ==> snapshots[i].pool == pools[i]
  }
}
