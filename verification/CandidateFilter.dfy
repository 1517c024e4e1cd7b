/** Which pending transactions Knight looks at: swaps sent to a configured pool. */
module CandidateFilter {
  import opened Common
  import opened Domain
  import opened Abi

  datatype PendingSnapshot = PendingSnapshot(
    blockNumber: nat, snapshotSeq: nat, transactions: seq<PendingTransaction>)

  datatype CandidateSnapshot = CandidateSnapshot(
    blockNumber: nat, snapshotSeq: nat, candidates: seq<Candidate>)

  function SwapKindFromInput(input: Bytes): (r: Option<SwapKind>)
  {
    if SWAP_EXACT_A_FOR_B <= input then Some(AForB)
    else if SWAP_EXACT_B_FOR_A <= input then Some(BForA)
    else None
  }

  /** The first configured pool with this address. */
  function FindPool(pools: seq<Pool>, address: Address): (r: Option<Pool>)
    ensures r.Some? ==> r.value in pools && r.value.address == address
    ensures r.None? ==> forall p :: p in pools ==> p.address != address
  {
    if pools == [] then None
    else if pools[0].address == address then Some(pools[0])
    else FindPool(pools[1..], address)
  }

  lemma {:induction false} FirstPool(pools: seq<Pool>, i: nat)
    requires i < |pools| && forall j :: 0 <= j < i ==> pools[j].address != pools[i].address
    ensures FindPool(pools, pools[i].address) == Some(pools[i])
    decreases i
  {
    if i > 0 {
      FirstPool(pools[1..], i - 1);
    }
  }

  function Filter(pools: seq<Pool>, tx: PendingTransaction): (r: Option<Candidate>)
    ensures r.Some? ==> r.value.tx == tx && r.value.pool in pools
  {
    var to :- tx.tx.to;
    var pool :- FindPool(pools, to);
    var kind :- SwapKindFromInput(tx.tx.input);
    Some(Candidate(tx, pool, kind))
  }

  /** A transaction passes exactly when it goes to a configured pool and starts with one of the
      two swap selectors; a candidate is never of a kind its calldata contradicts. */
  lemma FilterAccepts(pools: seq<Pool>, tx: PendingTransaction)
    ensures Filter(pools, tx).Some?
            <==> && tx.tx.to.Some?
                 && (exists p :: p in pools && p.address == tx.tx.to.value)
                 && (SWAP_EXACT_A_FOR_B <= tx.tx.input || SWAP_EXACT_B_FOR_A <= tx.tx.input)
    ensures Filter(pools, tx).Some? ==>
              var c := Filter(pools, tx).value;
              && tx.tx.to == Some(c.pool.address)
              && SwapSelector(c.swapKind) <= tx.tx.input
              && (|tx.tx.input| >= 68 ==> DecodeSwap(c.swapKind, tx.tx.input).Some?)
  {
  }

  function FilterAll(pools: seq<Pool>, txs: seq<PendingTransaction>): seq<Candidate>
  {
    if txs == [] then []
    else
      var rest := FilterAll(pools, txs[..|txs| - 1]);
      match Filter(pools, txs[|txs| - 1])
      case None => rest
      case Some(c) => rest + [c]
  }

  /** filter_snapshot keeps the two numbers and the accepted transactions, in order. */
  method FilterSnapshot(pools: seq<Pool>, snapshot: PendingSnapshot) returns (filtered: CandidateSnapshot)
    ensures filtered == CandidateSnapshot(snapshot.blockNumber, snapshot.snapshotSeq,
                                          FilterAll(pools, snapshot.transactions))
  {
    var candidates: seq<Candidate> := [];
    var txs := snapshot.transactions;
    for i := 0 to |txs|
      invariant candidates == FilterAll(pools, txs[..i])
    {
      assert txs[..i + 1][..i] == txs[..i];
      var candidate := Filter(pools, txs[i]);
      if candidate.Some? {
        candidates := candidates + [candidate.value];
      }
    }
    assert txs[..|txs|] == txs;
    filtered := CandidateSnapshot(snapshot.blockNumber, snapshot.snapshotSeq, candidates);
  }

  /** Exactly the accepted transactions pass. */
  lemma {:induction false} FilterAllMembers(pools: seq<Pool>, txs: seq<PendingTransaction>, c: Candidate)
    ensures c in FilterAll(pools, txs) <==> c.tx in txs && Filter(pools, c.tx) == Some(c)
    decreases |txs|
  {
    if txs != [] {
      var front, last := txs[..|txs| - 1], txs[|txs| - 1];
      assert txs == front + [last];
      FilterAllMembers(pools, front, c);
    }
  }

  predicate Increasing(txs: seq<PendingTransaction>)
  {
    forall i, j :: 0 <= i < j < |txs| ==> txs[i].seqNum < txs[j].seqNum
  }

  predicate IncreasingCandidates(cs: seq<Candidate>)
  {
    forall i, j :: 0 <= i < j < |cs| ==> cs[i].tx.seqNum < cs[j].tx.seqNum
  }

  /** Filtering keeps the order of the snapshot. */
  lemma {:induction false} FilterAllOrder(pools: seq<Pool>, txs: seq<PendingTransaction>)
    requires Increasing(txs)
    ensures IncreasingCandidates(FilterAll(pools, txs))
    decreases |txs|
  {
    if txs != [] {
      var front, last := txs[..|txs| - 1], txs[|txs| - 1];
      FilterAllOrder(pools, front);
      var cs := FilterAll(pools, front);
      forall i | 0 <= i < |cs|
        ensures cs[i].tx.seqNum < last.seqNum
      {
        FilterAllMembers(pools, front, cs[i]);
      }
    }
  }
}
