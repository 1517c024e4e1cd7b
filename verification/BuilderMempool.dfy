/** builder/block_builder/mempool.py: the numbered records of all submitted transactions. */
module BuilderMempool {
  import opened Common
  import opened Domain
  import opened CandidateFilter
  import opened TxChain

  datatype Status = Pending | Included | Reverted | Missing

  datatype Record = Record(
    id: string, seqNum: nat, tx: Transaction,
    status: Status, chainTxHash: Option<Transaction>, receipt: Option<Receipt>)

  /** The dictionary in insertion order, and the last number given out. */
  datatype MempoolState = MempoolState(records: seq<Record>, lastSeqNum: nat)

  const EMPTY_MEMPOOL: MempoolState := MempoolState([], 0)

  predicate HasId(records: seq<Record>, id: string)
  {
    exists i :: 0 <= i < |records| && records[i].id == id
  }

  /** The position of the record with this id. */
  function Find(records: seq<Record>, id: string): (r: Option<nat>)
    ensures r.Some? ==> r.value < |records| && records[r.value].id == id
    ensures r.None? ==> !HasId(records, id)
  {
    if records == [] then None
    else if records[|records| - 1].id == id then Some(|records| - 1)
    else
      var r := Find(records[..|records| - 1], id);
      assert r.None? ==> forall i :: 0 <= i < |records| - 1 ==> records[..|records| - 1][i] == records[i];
      r
  }

  function NewRecord(m: MempoolState, id: string, tx: Transaction): Record
  {
    Record(id, m.lastSeqNum + 1, tx, Pending, None, None)
  }

  function Add(m: MempoolState, id: string, tx: Transaction): MempoolState
  {
    MempoolState(m.records + [NewRecord(m, id, tx)], m.lastSeqNum + 1)
  }

  function Mark(m: MempoolState, id: string, hash: Transaction, status: Status, receipt: Option<Receipt>)
    : Option<MempoolState>
  {
    var i :- Find(m.records, id);
    Some(m.(records := m.records[i := m.records[i].(status := status, chainTxHash := Some(hash), receipt := receipt)]))
  }

  function AsPending(r: Record): PendingTransaction
  {
    PendingTransaction(r.id, r.seqNum, r.tx)
  }

  /** The pending records, in insertion order. */
  function PendingTxs(records: seq<Record>): seq<PendingTransaction>
  {
    if records == [] then []
    else
      var rest := PendingTxs(records[..|records| - 1]);
      var last := records[|records| - 1];
      if last.status.Pending? then rest + [AsPending(last)] else rest
  }

  datatype Snapshot = Snapshot(snapshotSeq: nat, transactions: seq<PendingTransaction>)

  function TakeSnapshot(m: MempoolState): Snapshot
  {
    Snapshot(m.lastSeqNum, PendingTxs(m.records))
  }

  // ---------------------------------------------------------------- the class

  class Mempool {
    var transactions: seq<Record>
    var lastSeqNum: nat

    function View(): MempoolState
      reads this
    {
      MempoolState(transactions, lastSeqNum)
    }

    constructor ()
      ensures View() == EMPTY_MEMPOOL
    {
      transactions, lastSeqNum := [], 0;
    }

    /** add_transaction; the identifier is fresh. */
    method AddTransaction(transaction: Transaction, freshId: string) returns (record: Record)
      requires MempoolOk(View()) && !HasId(transactions, freshId)
      modifies this
      ensures View() == Add(old(View()), freshId, transaction) && record == NewRecord(old(View()), freshId, transaction)
      ensures MempoolOk(View()) && record.seqNum == |transactions|
    {
      AddKeepsOk(View(), freshId, transaction);
      lastSeqNum := lastSeqNum + 1;
      record := Record(freshId, lastSeqNum, transaction, Pending, None, None);
      transactions := transactions + [record];
    }

    method GetTransaction(id: string) returns (record: Option<Record>)
      ensures record.None? <==> !HasId(transactions, id)
      ensures record.Some? ==> record.value in transactions && record.value.id == id
    {
      var i := Find(transactions, id);
      if i.None? {
        return None;
      }
      return Some(transactions[i.value]);
    }

    /** mark_mined; an unknown identifier is an error and changes nothing. */
    method MarkMined(id: string, hash: Transaction, status: Status, receipt: Option<Receipt>) returns (known: bool)
      modifies this
      ensures match Mark(old(View()), id, hash, status, receipt)
              case None => !known && View() == old(View())
              case Some(m) => known && View() == m
    {
      var i := Find(transactions, id);
      if i.None? {
        return false;
      }
      var record := transactions[i.value];
      transactions := transactions[i.value := Record(record.id, record.seqNum, record.tx, status, Some(hash), receipt)];
      return true;
    }

    method PendingSnapshot() returns (snapshot: Snapshot)
      ensures snapshot == TakeSnapshot(View())
    {
      var pending: seq<PendingTransaction> := [];
      for i := 0 to |transactions|
        invariant pending == PendingTxs(transactions[..i])
      {
        assert transactions[..i + 1][..i] == transactions[..i];
        if transactions[i].status.Pending? {
          pending := pending + [AsPending(transactions[i])];
        }
      }
      assert transactions[..|transactions|] == transactions;
      return Snapshot(lastSeqNum, pending);
    }
  }

  // ---------------------------------------------------------------- invariants

  /** Record i carries the number i + 1, and identifiers are distinct. */
  ghost predicate MempoolOk(m: MempoolState)
  {
    && |m.records| == m.lastSeqNum
    && (forall i :: 0 <= i < |m.records| ==> m.records[i].seqNum == i + 1)
    && (forall i, j :: 0 <= i < j < |m.records| ==> m.records[i].id != m.records[j].id)
  }

  /** What may happen to a record: nothing, or it leaves pending for good. */
  predicate Advances(r: Record, r': Record)
  {
    && r'.id == r.id && r'.seqNum == r.seqNum && r'.tx == r.tx
    && (r' == r || (r.status.Pending? && !r'.status.Pending?))
  }

  /** The records of the first state are, possibly advanced, the first records of the second. */
  ghost predicate Later(m: MempoolState, m': MempoolState)
  {
    && m.lastSeqNum <= m'.lastSeqNum && |m.records| <= |m'.records|
    && forall i :: 0 <= i < |m.records| ==> Advances(m.records[i], m'.records[i])
  }

  lemma LaterTrans(m: MempoolState, m1: MempoolState, m2: MempoolState)
    requires Later(m, m1) && Later(m1, m2)
    ensures Later(m, m2)
  {
  }

  lemma AddKeepsOk(m: MempoolState, id: string, tx: Transaction)
    requires MempoolOk(m) && !HasId(m.records, id)
    ensures MempoolOk(Add(m, id, tx)) && Later(m, Add(m, id, tx))
  {
  }

  lemma {:induction false} PendingMembers(records: seq<Record>, p: PendingTransaction)
    ensures p in PendingTxs(records)
            <==> exists i :: 0 <= i < |records| && records[i].status.Pending? && AsPending(records[i]) == p
  {
    if records != [] {
      var front, last := records[..|records| - 1], records[|records| - 1];
      PendingMembers(front, p);
      assert forall i :: 0 <= i < |front| ==> front[i] == records[i];
      if last.status.Pending? && AsPending(last) == p {
        assert records[|records| - 1] == last;
      }
    }
  }

  /** A snapshot lists exactly the pending records, in increasing order, all numbered at most
      snapshotSeq. */
  lemma SnapshotIsExact(m: MempoolState)
    requires MempoolOk(m)
    ensures TakeSnapshot(m).snapshotSeq == |m.records|
    ensures forall p :: p in TakeSnapshot(m).transactions
                        <==> && 0 < p.seqNum <= |m.records| && m.records[p.seqNum - 1].status.Pending?
                             && AsPending(m.records[p.seqNum - 1]) == p
    ensures Increasing(TakeSnapshot(m).transactions)
  {
    forall p: PendingTransaction
      ensures p in PendingTxs(m.records)
              <==> && 0 < p.seqNum <= |m.records| && m.records[p.seqNum - 1].status.Pending?
                   && AsPending(m.records[p.seqNum - 1]) == p
    {
      PendingMembers(m.records, p);
    }
    PendingOrder(m.records);
  }

  lemma {:induction false} PendingOrder(records: seq<Record>)
    requires forall i :: 0 <= i < |records| ==> records[i].seqNum == i + 1
    ensures Increasing(PendingTxs(records))
    ensures forall p :: p in PendingTxs(records) ==> p.seqNum <= |records|
  {
    if records != [] {
      PendingOrder(records[..|records| - 1]);
    }
  }
}
