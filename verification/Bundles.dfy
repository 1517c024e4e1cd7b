/** builder/block_builder/bundle.py: parsing, simulating and mining bundles. The handlers run
    without interruption, so each request is one step; every RPC to the chain may fail, and a
    failed RPC may have taken effect all the same. */
module Bundles {
  import opened Common
  import opened Domain
  import opened TxChain
  import opened BuilderMempool

  datatype RawItem = Ref(id: string) | Raw(tx: Transaction)

  datatype RawBundle = RawBundle(items: seq<RawItem>, blockNumber: Option<nat>)

  datatype Item = Item(id: Option<string>, tx: Transaction)

  datatype TxResult = TxResult(id: Option<string>, hash: Transaction, status: Status, receipt: Option<Receipt>)

  datatype BundleResult = BundleResult(included: bool, transactions: seq<TxResult>)

  datatype Response = Ok(result: BundleResult) | Failed(code: nat)

  datatype BuilderState = BuilderState(chain: Chain, mempool: MempoolState)

  /** Which RPCs of one request fail, and which of those took effect. */
  datatype Faults = Faults(
    head: bool,
    snapshot: bool,
    sendAt: Option<nat>, sendLands: bool,
    mine: bool, mineLands: bool,
    receipts: bool, missing: set<nat>,
    revert: bool, revertLands: bool)

  // ---------------------------------------------------------------- parsing

  datatype Parsed<T> = Good(value: T) | Bad(code: nat)

  function ParseItem(m: MempoolState, raw: RawItem): Parsed<Item>
  {
    match raw
    case Raw(tx) => Good(Item(None, tx))
    case Ref(id) =>
      if id == "" then Bad(400)
      else match Find(m.records, id)
        case None => Bad(400)
        case Some(i) =>
          if m.records[i].status.Pending? then Good(Item(Some(id), m.records[i].tx)) else Bad(409)
  }

  /** The first bad item decides the error. */
  function ParseItems(m: MempoolState, raws: seq<RawItem>): (r: Parsed<seq<Item>>)
    ensures r.Good? ==> |r.value| == |raws|
  {
    if raws == [] then Good([])
    else match ParseItems(m, raws[..|raws| - 1])
      case Bad(code) => Bad(code)
      case Good(items) =>
        match ParseItem(m, raws[|raws| - 1])
        case Bad(code) => Bad(code)
        case Good(item) => Good(items + [item])
  }

  function Parse(m: MempoolState, raw: RawBundle): (r: Parsed<seq<Item>>)
    ensures r.Good? ==> |r.value| == |raw.items| > 0
  {
    if raw.items == [] then Bad(400) else ParseItems(m, raw.items)
  }

  function Target(raw: RawBundle, head: nat): nat
  {
    if raw.blockNumber.Some? then raw.blockNumber.value else head
  }

  // ---------------------------------------------------------------- execution

  datatype Sent = Sent(chain: Chain, ok: bool)

  function SendOne(c: Chain, tx: Transaction, lost: bool, lands: bool): Sent
  {
    match Send(c, tx)
    case None => Sent(c, false)
    case Some(c') => Sent(if lost && !lands then c else c', !lost)
  }

  function SendAll(c: Chain, items: seq<Item>, f: Faults): Sent
  {
    if items == [] then Sent(c, true)
    else
      var n := |items| - 1;
      var s := SendAll(c, items[..n], f);
      if !s.ok then s else SendOne(s.chain, items[n].tx, f.sendAt == Some(n), f.sendLands)
  }

  function StatusFromReceipt(r: Option<Receipt>): Status
  {
    if r.None? then Missing else if r.value.success then Included else Reverted
  }

  function ResultOf(c: Chain, item: Item, missing: bool): TxResult
  {
    var receipt := if missing || item.tx !in c.receipts then None else Some(c.receipts[item.tx]);
    TxResult(item.id, item.tx, StatusFromReceipt(receipt), receipt)
  }

  function Results(c: Chain, items: seq<Item>, missing: set<nat>): (rs: seq<TxResult>)
    ensures |rs| == |items|
    ensures forall i :: 0 <= i < |items| ==> rs[i] == ResultOf(c, items[i], i in missing)
  {
    seq(|items|, i requires 0 <= i < |items| => ResultOf(c, items[i], i in missing))
  }

  predicate AllIncluded(rs: seq<TxResult>)
  {
    forall i :: 0 <= i < |rs| ==> rs[i].status.Included?
  }

  datatype Execution = Execution(chain: Chain, result: Option<BundleResult>)

  function ExecuteBundle(c: Chain, items: seq<Item>, f: Faults): Execution
  {
    var s := SendAll(c, items, f);
    if !s.ok then Execution(s.chain, None)
    else if f.mine then Execution(if f.mineLands then MineBlock(s.chain) else s.chain, None)
    else
      var c' := MineBlock(s.chain);
      if f.receipts then Execution(c', None)
      else
        var rs := Results(c', items, f.missing);
        Execution(c', Some(BundleResult(AllIncluded(rs), rs)))
  }

  // ---------------------------------------------------------------- the two requests

  datatype Answer = Answer(builder: BuilderState, response: Response)

  function ResponseOf(r: Option<BundleResult>): Response
  {
    if r.None? then Failed(502) else Ok(r.value)
  }

  function Simulate(b: BuilderState, raw: RawBundle, f: Faults): Answer
  {
    match Parse(b.mempool, raw)
    case Bad(code) => Answer(b, Failed(code))
    case Good(items) =>
      var target, head := Target(raw, Head(b.chain)), Head(b.chain);
      if f.head then Answer(b, Failed(502))
      else if target > head then Answer(b, Failed(400))
      else if target < head then Answer(b, Failed(501))
      else if f.snapshot then Answer(b, Failed(502))
      else
        var e := ExecuteBundle(b.chain, items, f);
        if f.revert
        then Answer(if f.revertLands then b else b.(chain := e.chain), Failed(502))
        else Answer(b, ResponseOf(e.result))
  }

  datatype Marking = Marking(mempool: MempoolState, ok: bool)

  function MarkOne(m: MempoolState, r: TxResult): Marking
  {
    if r.id.None? then Marking(m, true)
    else match Mark(m, r.id.value, r.hash, r.status, r.receipt)
      case None => Marking(m, false)
      case Some(m') => Marking(m', true)
  }

  /** The marking loop of mine_bundle; it stops at an unknown identifier. */
  function MarkAll(m: MempoolState, rs: seq<TxResult>): Marking
  {
    if rs == [] then Marking(m, true)
    else
      var k := MarkAll(m, rs[..|rs| - 1]);
      if k.ok then MarkOne(k.mempool, rs[|rs| - 1]) else k
  }

  function Mine(b: BuilderState, raw: RawBundle, f: Faults): Answer
  {
    match Parse(b.mempool, raw)
    case Bad(code) => Answer(b, Failed(code))
    case Good(items) =>
      if f.head then Answer(b, Failed(502))
      else if Target(raw, Head(b.chain)) != Head(b.chain) then Answer(b, Failed(400))
      else
        var e := ExecuteBundle(b.chain, items, f);
        if e.result.None? then Answer(b.(chain := e.chain), Failed(502))
        else
          var k := MarkAll(b.mempool, e.result.value.transactions);
          Answer(BuilderState(e.chain, k.mempool), if k.ok then Ok(e.result.value) else Failed(400))
  }

  // ---------------------------------------------------------------- the class

  class BundleBuilder {
    var chain: Chain
    const mempool: Mempool

    function State(): BuilderState
      reads this, mempool
    {
      BuilderState(chain, mempool.View())
    }

    constructor (c: Chain, m: Mempool)
      ensures mempool == m && chain == c
    {
      chain, mempool := c, m;
    }

    method ParseBundle(raw: RawBundle) returns (parsed: Parsed<seq<Item>>)
      ensures parsed == Parse(mempool.View(), raw)
    {
      if raw.items == [] {
        return Bad(400);
      }
      var items: seq<Item> := [];
      for i := 0 to |raw.items|
        invariant ParseItems(mempool.View(), raw.items[..i]) == Good(items)
      {
        var item := ParseItem(mempool.View(), raw.items[i]);
        assert raw.items[..i + 1][..i] == raw.items[..i];
        if item.Bad? {
          BadStaysBad(mempool.View(), raw.items, i + 1, item.code);
          return Bad(item.code);
        }
        items := items + [item.value];
      }
      assert raw.items[..|raw.items|] == raw.items;
      return Good(items);
    }

    /** _execute_bundle. */
    method Execute(items: seq<Item>, f: Faults) returns (result: Option<BundleResult>)
      modifies this
      ensures Execution(chain, result) == ExecuteBundle(old(chain), items, f)
    {
      for i := 0 to |items|
        invariant SendAll(old(chain), items[..i], f) == Sent(chain, true)
      {
        assert items[..i + 1][..i] == items[..i];
        var s := SendOne(chain, items[i].tx, f.sendAt == Some(i), f.sendLands);
        chain := s.chain;
        if !s.ok {
          SendStaysFailed(old(chain), items, i + 1, f);
          return None;
        }
      }
      assert items[..|items|] == items;
      if f.mine {
        if f.mineLands {
          chain := MineBlock(chain);
        }
        return None;
      }
      chain := MineBlock(chain);
      if f.receipts {
        return None;
      }
      var rs := Results(chain, items, f.missing);
      return Some(BundleResult(AllIncluded(rs), rs));
    }

    method SimulateBundle(raw: RawBundle, f: Faults) returns (response: Response)
      modifies this
      ensures Answer(State(), response) == Simulate(old(State()), raw, f)
    {
      var parsed := ParseBundle(raw);
      if parsed.Bad? {
        return Failed(parsed.code);
      }
      if f.head {
        return Failed(502);
      }
      var head := Head(chain);
      var target := Target(raw, head);
      if target > head {
        return Failed(400);
      }
      if target < head {
        return Failed(501);
      }
      if f.snapshot {
        return Failed(502);
      }
      var snapshot := chain;
      var result := Execute(parsed.value, f);
      if !f.revert || f.revertLands {
        chain := snapshot;
      }
      if f.revert {
        return Failed(502);
      }
      return ResponseOf(result);
    }

    method MarkResults(rs: seq<TxResult>) returns (ok: bool)
      modifies mempool
      ensures Marking(mempool.View(), ok) == MarkAll(old(mempool.View()), rs)
    {
      for i := 0 to |rs|
        invariant MarkAll(old(mempool.View()), rs[..i]) == Marking(mempool.View(), true)
      {
        assert rs[..i + 1][..i] == rs[..i];
        if rs[i].id.Some? {
          var known := mempool.MarkMined(rs[i].id.value, rs[i].hash, rs[i].status, rs[i].receipt);
          if !known {
            MarkStaysFailed(old(mempool.View()), rs, i + 1);
            return false;
          }
        }
      }
      assert rs[..|rs|] == rs;
      return true;
    }

    method MineBundle(raw: RawBundle, f: Faults) returns (response: Response)
      modifies this, mempool
      ensures Answer(State(), response) == Mine(old(State()), raw, f)
    {
      var parsed := ParseBundle(raw);
      if parsed.Bad? {
        return Failed(parsed.code);
      }
      if f.head {
        return Failed(502);
      }
      if Target(raw, Head(chain)) != Head(chain) {
        return Failed(400);
      }
      var result := Execute(parsed.value, f);
      if result.None? {
        return Failed(502);
      }
      var ok := MarkResults(result.value.transactions);
      if !ok {
        return Failed(400);
      }
      return Ok(result.value);
    }
  }

  lemma {:induction false} BadStaysBad(m: MempoolState, raws: seq<RawItem>, n: nat, code: nat)
    requires n <= |raws| && ParseItems(m, raws[..n]) == Bad(code)
    ensures ParseItems(m, raws) == Bad(code)
    decreases |raws| - n
  {
    if n == |raws| {
      assert raws[..n] == raws;
    } else {
      assert raws[..n + 1][..n] == raws[..n];
      BadStaysBad(m, raws, n + 1, code);
    }
  }

  lemma {:induction false} SendStaysFailed(c: Chain, items: seq<Item>, n: nat, f: Faults)
    requires n <= |items| && !SendAll(c, items[..n], f).ok
    ensures SendAll(c, items, f) == SendAll(c, items[..n], f)
    decreases |items| - n
  {
    if n == |items| {
      assert items[..n] == items;
    } else {
      assert items[..n + 1][..n] == items[..n];
      SendStaysFailed(c, items, n + 1, f);
    }
  }

  lemma {:induction false} MarkStaysFailed(m: MempoolState, rs: seq<TxResult>, n: nat)
    requires n <= |rs| && !MarkAll(m, rs[..n]).ok
    ensures MarkAll(m, rs) == MarkAll(m, rs[..n])
    decreases |rs| - n
  {
    if n == |rs| {
      assert rs[..n] == rs;
    } else {
      assert rs[..n + 1][..n] == rs[..n];
      MarkStaysFailed(m, rs, n + 1);
    }
  }

  // ---------------------------------------------------------------- what parsing guarantees

  /** Every parsed item that refers to the mempool names a pending record and carries its
      transaction. */
  ghost predicate RefersToPending(m: MempoolState, item: Item)
  {
    item.id.Some? ==>
      exists i :: 0 <= i < |m.records| && m.records[i].id == item.id.value
                  && m.records[i].status.Pending? && m.records[i].tx == item.tx
  }

  lemma {:induction false} ParsedItemsArePending(m: MempoolState, raws: seq<RawItem>, items: seq<Item>)
    requires ParseItems(m, raws) == Good(items)
    ensures forall i :: 0 <= i < |items| ==> RefersToPending(m, items[i])
    ensures forall i :: 0 <= i < |items| ==>
              items[i].id == (if raws[i].Ref? then Some(raws[i].id) else None)
    ensures forall i :: 0 <= i < |items| && raws[i].Raw? ==> items[i].tx == raws[i].tx
    decreases |raws|
  {
    if raws != [] {
      var n := |raws| - 1;
      ParsedItemsArePending(m, raws[..n], items[..n]);
    }
  }

  lemma ResultIds(c: Chain, items: seq<Item>, missing: set<nat>)
    ensures forall i :: 0 <= i < |items| ==> Results(c, items, missing)[i].id == items[i].id
    ensures forall i :: 0 <= i < |items| ==> !Results(c, items, missing)[i].status.Pending?
  {
  }

  predicate Refers(rs: seq<TxResult>, id: string)
  {
    exists i :: 0 <= i < |rs| && rs[i].id == Some(id)
  }

  /** Marking the results of known records succeeds, moves exactly the referenced records out of
      pending and leaves every other record as it is. */
  ghost predicate MarkedExactly(m: MempoolState, rs: seq<TxResult>, m': MempoolState)
  {
    && m'.lastSeqNum == m.lastSeqNum && |m'.records| == |m.records|
    && forall i :: 0 <= i < |m.records| ==>
         && m'.records[i].id == m.records[i].id && m'.records[i].seqNum == m.records[i].seqNum
         && m'.records[i].tx == m.records[i].tx
         && (Refers(rs, m.records[i].id) ==> !m'.records[i].status.Pending? && ComesFrom(rs, m'.records[i]))
         && (!Refers(rs, m.records[i].id) ==> m'.records[i] == m.records[i])
  }

  predicate ComesFrom(rs: seq<TxResult>, r: Record)
  {
    exists k :: 0 <= k < |rs| && rs[k].id == Some(r.id)
                && r.status == rs[k].status && r.chainTxHash == Some(rs[k].hash) && r.receipt == rs[k].receipt
  }

  lemma {:induction false} MarkAllAdvances(m: MempoolState, rs: seq<TxResult>)
    requires MempoolOk(m)
    requires forall i :: 0 <= i < |rs| ==> !rs[i].status.Pending?
    requires forall i :: 0 <= i < |rs| && rs[i].id.Some? ==> HasId(m.records, rs[i].id.value)
    ensures MarkAll(m, rs).ok && MarkedExactly(m, rs, MarkAll(m, rs).mempool)
    decreases |rs|
  {
    if rs != [] {
      var n := |rs| - 1;
      var front, last := rs[..n], rs[n];
      assert rs == front + [last];
      MarkAllAdvances(m, front);
      var m1 := MarkAll(m, front).mempool;
      if last.id.Some? {
        SameIds(m, m1, last.id.value);
        MarkOneMore(m, m1, front, last);
      } else {
        UnreferencedResult(m, m1, front, last);
      }
    }
  }

  lemma SameIds(m: MempoolState, m1: MempoolState, id: string)
    requires |m1.records| == |m.records| && HasId(m.records, id)
    requires forall i :: 0 <= i < |m.records| ==> m1.records[i].id == m.records[i].id
    ensures HasId(m1.records, id)
  {
  }

  lemma RefersMore(front: seq<TxResult>, last: TxResult, id: string)
    ensures Refers(front + [last], id) <==> Refers(front, id) || last.id == Some(id)
  {
    var rs := front + [last];
    if Refers(front, id) {
      var i :| 0 <= i < |front| && front[i].id == Some(id);
      assert rs[i].id == Some(id);
    }
    assert rs[|front|] == last;
  }

  lemma ComesFromMore(front: seq<TxResult>, last: TxResult, r: Record)
    requires ComesFrom(front, r)
    ensures ComesFrom(front + [last], r)
  {
    var k :| 0 <= k < |front| && front[k].id == Some(r.id)
             && r.status == front[k].status && r.chainTxHash == Some(front[k].hash) && r.receipt == front[k].receipt;
    assert (front + [last])[k] == front[k];
  }

  lemma UnreferencedResult(m: MempoolState, m1: MempoolState, front: seq<TxResult>, last: TxResult)
    requires last.id.None? && MarkedExactly(m, front, m1)
    ensures MarkedExactly(m, front + [last], m1)
  {
    forall i | 0 <= i < |m.records|
      ensures Refers(front + [last], m.records[i].id) <==> Refers(front, m.records[i].id)
      ensures Refers(front, m.records[i].id) ==> ComesFrom(front + [last], m1.records[i])
    {
      RefersMore(front, last, m.records[i].id);
      if Refers(front, m.records[i].id) {
        ComesFromMore(front, last, m1.records[i]);
      }
    }
  }

  lemma MarkOneMore(m: MempoolState, m1: MempoolState, front: seq<TxResult>, last: TxResult)
    requires MempoolOk(m) && MarkedExactly(m, front, m1)
    requires last.id.Some? && !last.status.Pending? && HasId(m1.records, last.id.value)
    ensures var r := Mark(m1, last.id.value, last.hash, last.status, last.receipt);
            r.Some? && MarkedExactly(m, front + [last], r.value)
  {
    var k := Find(m1.records, last.id.value).value;
    var m2 := Mark(m1, last.id.value, last.hash, last.status, last.receipt).value;
    forall i | 0 <= i < |m.records|
      ensures Refers(front + [last], m.records[i].id) ==>
                !m2.records[i].status.Pending? && ComesFrom(front + [last], m2.records[i])
      ensures !Refers(front + [last], m.records[i].id) ==> m2.records[i] == m.records[i]
    {
      RefersMore(front, last, m.records[i].id);
      if i == k {
        assert (front + [last])[|front|] == last;
      } else if Refers(front, m.records[i].id) {
        ComesFromMore(front, last, m1.records[i]);
      }
    }
  }

  // ---------------------------------------------------------------- results

  /** A successful mining request: the bundle was pinned to the head, the block on top of the
      head is the one it reports, exactly the referenced records left pending, and the bundle
      counts as included exactly when every transaction does. */
  lemma MineEffect(b: BuilderState, raw: RawBundle, f: Faults, r: BundleResult)
    requires MempoolOk(b.mempool) && Mine(b, raw, f).response == Ok(r)
    ensures raw.blockNumber.None? || raw.blockNumber == Some(Head(b.chain))
    ensures var b' := Mine(b, raw, f).builder;
            && MarkedExactly(b.mempool, r.transactions, b'.mempool)
            && |r.transactions| == |raw.items|
            && (forall i :: 0 <= i < |raw.items| ==>
                  r.transactions[i].id == if raw.items[i].Ref? then Some(raw.items[i].id) else None)
    ensures r.included <==> forall i :: 0 <= i < |r.transactions| ==> r.transactions[i].status.Included?
  {
    var items := Parse(b.mempool, raw).value;
    ParsedItemsArePending(b.mempool, raw.items, items);
    MarkingSucceeds(b, raw, f);
  }

  /** Any other answer leaves every record as it was. */
  lemma FailedMineKeepsMempool(b: BuilderState, raw: RawBundle, f: Faults)
    requires MempoolOk(b.mempool) && Mine(b, raw, f).response.Failed?
    ensures Mine(b, raw, f).builder.mempool == b.mempool
  {
    var parsed := Parse(b.mempool, raw);
    if parsed.Good? {
      MarkingSucceeds(b, raw, f);
    }
  }

  /** The results of parsed items name known records, so marking them never fails. */
  lemma MarkingSucceeds(b: BuilderState, raw: RawBundle, f: Faults)
    requires MempoolOk(b.mempool) && Parse(b.mempool, raw).Good?
    ensures var e := ExecuteBundle(b.chain, Parse(b.mempool, raw).value, f);
            e.result.Some? ==>
              var k := MarkAll(b.mempool, e.result.value.transactions);
              k.ok && MarkedExactly(b.mempool, e.result.value.transactions, k.mempool)
  {
    var items := Parse(b.mempool, raw).value;
    ParsedItemsArePending(b.mempool, raw.items, items);
    var c' := ExecuteBundle(b.chain, items, f).chain;
    ResultIds(c', items, f.missing);
    var rs := Results(c', items, f.missing);
    forall i | 0 <= i < |rs| && rs[i].id.Some?
      ensures HasId(b.mempool.records, rs[i].id.value)
    {
      assert RefersToPending(b.mempool, items[i]);
    }
    MarkAllAdvances(b.mempool, rs);
  }

  lemma MarkedIsLater(m: MempoolState, rs: seq<TxResult>, m': MempoolState)
    requires MempoolOk(m) && MarkedExactly(m, rs, m')
    requires forall i :: 0 <= i < |m.records| && Refers(rs, m.records[i].id) ==> m.records[i].status.Pending?
    ensures MempoolOk(m') && Later(m, m')
  {
  }

  lemma PendingById(m: MempoolState, item: Item, i: nat)
    requires MempoolOk(m) && RefersToPending(m, item)
    requires i < |m.records| && item.id == Some(m.records[i].id)
    ensures m.records[i].status.Pending?
  {
  }

  lemma OnlyPendingReferenced(m: MempoolState, raw: RawBundle, items: seq<Item>, rs: seq<TxResult>, i: nat)
    requires MempoolOk(m) && Parse(m, raw) == Good(items) && |rs| == |items|
    requires forall k :: 0 <= k < |rs| ==> rs[k].id == items[k].id
    requires i < |m.records| && Refers(rs, m.records[i].id)
    ensures m.records[i].status.Pending?
  {
    ParsedItemsArePending(m, raw.items, items);
    var k :| 0 <= k < |rs| && rs[k].id == Some(m.records[i].id);
    PendingById(m, items[k], i);
  }

  /** Only pending records are ever referenced, so a record that left pending is never changed
      again, by any bundle. */
  lemma MineIsLater(b: BuilderState, raw: RawBundle, f: Faults)
    requires MempoolOk(b.mempool)
    ensures MempoolOk(Mine(b, raw, f).builder.mempool) && Later(b.mempool, Mine(b, raw, f).builder.mempool)
  {
    var a := Mine(b, raw, f);
    if a.response.Failed? {
      FailedMineKeepsMempool(b, raw, f);
    } else {
      var items, rs := Parse(b.mempool, raw).value, a.response.result.transactions;
      MarkingSucceeds(b, raw, f);
      forall i | 0 <= i < |b.mempool.records| && Refers(rs, b.mempool.records[i].id)
        ensures b.mempool.records[i].status.Pending?
      {
        OnlyPendingReferenced(b.mempool, raw, items, rs, i);
      }
      MarkedIsLater(b.mempool, rs, a.builder.mempool);
    }
  }

  /** Whether the execution of a simulation was reached at all. */
  predicate Executes(b: BuilderState, raw: RawBundle, f: Faults)
  {
    && Parse(b.mempool, raw).Good? && !f.head && !f.snapshot && Target(raw, Head(b.chain)) == Head(b.chain)
  }

  /** The first transaction reaches the pool: its nonce is not used, and its RPC does not fail
      without effect. */
  predicate FirstLands(c: Chain, first: Transaction, f: Faults)
  {
    first.nonce >= Nonce(c.latest, first.from) && !(f.sendAt == Some(0) && !f.sendLands)
  }

  /** Sending changes nothing but the pool, which grows unless the first transaction is kept out;
      then nothing is sent at all. */
  lemma {:induction false} SendAllPool(c: Chain, items: seq<Item>, f: Faults)
    requires items != []
    ensures var c' := SendAll(c, items, f).chain;
            && c' == c.(pool := c'.pool)
            && (if FirstLands(c, items[0].tx, f) then |c'.pool| > |c.pool|
                else c' == c && !SendAll(c, items, f).ok)
    decreases |items|
  {
    var n := |items| - 1;
    if n == 0 {
      assert SendAll(c, items[..0], f) == Sent(c, true);
    } else {
      SendAllPool(c, items[..n], f);
    }
  }

  /** A bundle is sent completely exactly when no nonce in it is used and no send fails. */
  lemma {:induction false} SendAllOk(c: Chain, items: seq<Item>, f: Faults)
    ensures SendAll(c, items, f).ok
            <==> && (forall i :: 0 <= i < |items| ==> items[i].tx.nonce >= Nonce(c.latest, items[i].tx.from))
                 && !(f.sendAt.Some? && f.sendAt.value < |items|)
    ensures SendAll(c, items, f).chain.latest == c.latest
    decreases |items|
  {
    if items != [] {
      var n := |items| - 1;
      SendAllOk(c, items[..n], f);
      assert forall i :: 0 <= i < n ==> items[..n][i] == items[i];
    }
  }

  /** Executing a bundle leaves a trace on the chain exactly when its first transaction lands. */
  lemma ExecutionLeavesTrace(c: Chain, items: seq<Item>, f: Faults)
    requires items != []
    ensures ExecuteBundle(c, items, f).chain != c <==> FirstLands(c, items[0].tx, f)
  {
    var c1 := SendAll(c, items, f).chain;
    SendAllPool(c, items, f);
    assert |MineBlock(c1).past| == |c.past| + 1;
  }

  /** A simulation changes nothing on any exit, except exactly when the first transaction lands
      and the RPC that takes the chain back fails without effect. */
  lemma SimulateChangesNothing(b: BuilderState, raw: RawBundle, f: Faults)
    ensures Simulate(b, raw, f).builder != b
            <==> && Executes(b, raw, f) && f.revert && !f.revertLands
                 && FirstLands(b.chain, Parse(b.mempool, raw).value[0].tx, f)
    ensures Simulate(b, raw, f).builder.mempool == b.mempool
    ensures Simulate(b, raw, f).response.Ok? ==> Simulate(b, raw, f).builder == b
  {
    if Parse(b.mempool, raw).Good? {
      ExecutionLeavesTrace(b.chain, Parse(b.mempool, raw).value, f);
    }
  }

  const CLEAN: Faults := Faults(false, false, None, false, false, false, false, {}, false, false)

  /** Such an input: on every builder, simulating one transaction with an unused nonce leaves its
      block on the chain when only evm_revert fails. */
  lemma SimulationLeavesBlock(b: BuilderState, tx: Transaction)
    requires tx.nonce >= Nonce(b.chain.latest, tx.from)
    ensures var a := Simulate(b, RawBundle([Raw(tx)], None), CLEAN.(revert := true));
            a.response == Failed(502) && Head(a.builder.chain) == Head(b.chain) + 1
  {
    var raw, items := RawBundle([Raw(tx)], None), [Item(None, tx)];
    assert raw.items[..0] == [] && ParseItems(b.mempool, []) == Good([]);
    assert ParseItem(b.mempool, raw.items[0]) == Good(items[0]);
    assert ParseItems(b.mempool, raw.items) == Good([] + [items[0]]);
    SendAllOk(b.chain, items, CLEAN.(revert := true));
    SendAllPool(b.chain, items, CLEAN.(revert := true));
  }

  /** A simulation foretells the submission: on the same state, a request whose RPCs all answer
      gets the result that was simulated. */
  lemma SimulationForetells(b: BuilderState, raw: RawBundle, f: Faults, g: Faults, r: BundleResult)
    requires MempoolOk(b.mempool) && Simulate(b, raw, f).response == Ok(r)
    requires Clean(g) && g.missing == f.missing
    ensures Mine(b, raw, g).response == Ok(r)
  {
    SendsAgree(b.chain, Parse(b.mempool, raw).value, f, g);
    MarkingSucceeds(b, raw, g);
  }

  predicate Clean(f: Faults)
  {
    !f.head && !f.snapshot && f.sendAt.None? && !f.mine && !f.receipts && !f.revert
  }

  lemma {:induction false} SendsAgree(c: Chain, items: seq<Item>, f: Faults, g: Faults)
    requires g.sendAt.None? && SendAll(c, items, f).ok
    ensures SendAll(c, items, g) == SendAll(c, items, f)
  {
    if items != [] {
      SendsAgree(c, items[..|items| - 1], f, g);
    }
  }

  // ---------------------------------------------------------------- the chain under a bundle

  lemma {:induction false} SendAllKeeps(c: Chain, items: seq<Item>, f: Faults)
    requires ChainOk(c)
    ensures var c' := SendAll(c, items, f).chain;
            && ChainOk(c') && Extends(c, c') && Head(c') == Head(c)
            && c'.latest == c.latest && c'.receipts == c.receipts
    decreases |items|
  {
    if items != [] {
      var n := |items| - 1;
      SendAllKeeps(c, items[..n], f);
      var s := SendAll(c, items[..n], f);
      if s.ok && Send(s.chain, items[n].tx).Some? {
        SendKeeps(s.chain, items[n].tx);
        ExtendsTrans(c, s.chain, Send(s.chain, items[n].tx).value);
      }
    }
  }

  /** Executing a bundle only ever adds blocks. */
  lemma ExecuteBundleKeeps(c: Chain, items: seq<Item>, f: Faults)
    requires ChainOk(c)
    ensures var e := ExecuteBundle(c, items, f);
            && ChainOk(e.chain) && Extends(c, e.chain)
            && (e.result.Some? ==> Head(e.chain) == Head(c) + 1)
  {
    var c1 := SendAll(c, items, f).chain;
    SendAllKeeps(c, items, f);
    MineBlockKeeps(c1);
    ExtendsTrans(c, c1, MineBlock(c1));
  }

  lemma {:induction false} SentNonces(c: Chain, items: seq<Item>, f: Faults)
    requires SendAll(c, items, f).ok
    ensures forall i :: 0 <= i < |items| ==> items[i].tx.nonce >= Nonce(c.latest, items[i].tx.from)
    ensures SendAll(c, items, f).chain == c.(pool := c.pool + Txs(items))
  {
    if items != [] {
      var n := |items| - 1;
      SentNonces(c, items[..n], f);
      assert Txs(items) == Txs(items[..n]) + [items[n].tx];
      assert c.pool + Txs(items) == c.pool + Txs(items[..n]) + [items[n].tx];
    } else {
      assert c.pool + Txs(items) == c.pool;
    }
  }

  function Txs(items: seq<Item>): (txs: seq<Transaction>)
    ensures |txs| == |items| && forall i :: 0 <= i < |items| ==> txs[i] == items[i].tx
  {
    seq(|items|, i requires 0 <= i < |items| => items[i].tx)
  }

  /** A receipt reported for a bundle belongs to the block just mined, never to an older one. */
  lemma ReceiptsAreFresh(c: Chain, items: seq<Item>, f: Faults)
    requires ChainOk(c) && ExecuteBundle(c, items, f).result.Some?
    ensures var r := ExecuteBundle(c, items, f).result.value;
            forall i :: 0 <= i < |items| && r.transactions[i].receipt.Some? ==>
              r.transactions[i].receipt.value.blockNumber == Head(c) + 1
  {
    var c1 := SendAll(c, items, f).chain;
    SendAllKeeps(c, items, f);
    SentNonces(c, items, f);
    MineBlockKeeps(c1);
    var r := ExecuteBundle(c, items, f).result.value;
    forall i | 0 <= i < |items| && r.transactions[i].receipt.Some?
      ensures r.transactions[i].receipt.value.blockNumber == Head(c) + 1
    {
      assert items[i].tx !in c1.receipts;
    }
  }

  // ---------------------------------------------------------------- runs of the builder

  datatype Request =
    | RAdd(id: string, tx: Transaction)
    | RSimulate(bundle: RawBundle, faults: Faults)
    | RMine(bundle: RawBundle, faults: Faults)
    | RSend(tx: Transaction)
    | RMineBlock

  /** One request to the builder, or a transaction or block of somebody else on the chain. An
      identifier that is not fresh is never given out. */
  function Serve(b: BuilderState, q: Request): BuilderState
  {
    match q
    case RAdd(id, tx) => if HasId(b.mempool.records, id) then b else b.(mempool := Add(b.mempool, id, tx))
    case RSimulate(raw, f) => Simulate(b, raw, f).builder
    case RMine(raw, f) => Mine(b, raw, f).builder
    case RSend(tx) => (match Send(b.chain, tx) case None => b case Some(c) => b.(chain := c))
    case RMineBlock => b.(chain := MineBlock(b.chain))
  }

  ghost predicate BuilderOk(b: BuilderState)
  {
    ChainOk(b.chain) && MempoolOk(b.mempool)
  }

  ghost predicate Progress(b: BuilderState, b': BuilderState)
  {
    Extends(b.chain, b'.chain) && Later(b.mempool, b'.mempool)
  }

  lemma ServeKeeps(b: BuilderState, q: Request)
    requires BuilderOk(b)
    ensures BuilderOk(Serve(b, q)) && Progress(b, Serve(b, q))
  {
    match q
    case RAdd(id, tx) =>
      if !HasId(b.mempool.records, id) {
        AddKeepsOk(b.mempool, id, tx);
      }
    case RSimulate(raw, f) =>
      if Parse(b.mempool, raw).Good? {
        ExecuteBundleKeeps(b.chain, Parse(b.mempool, raw).value, f);
      }
    case RMine(raw, f) =>
      MineIsLater(b, raw, f);
      if Parse(b.mempool, raw).Good? {
        ExecuteBundleKeeps(b.chain, Parse(b.mempool, raw).value, f);
      }
    case RSend(tx) =>
      if Send(b.chain, tx).Some? {
        SendKeeps(b.chain, tx);
      }
    case RMineBlock => MineBlockKeeps(b.chain);
  }

  function ServeAll(b: BuilderState, qs: seq<Request>): BuilderState
  {
    if qs == [] then b else Serve(ServeAll(b, qs[..|qs| - 1]), qs[|qs| - 1])
  }

  /** In every run: numbers are 1..last in insertion order, blocks are only added, and a record
      that has left pending never returns to it and never changes. */
  lemma {:induction false} ServeAllKeeps(b: BuilderState, qs: seq<Request>)
    requires BuilderOk(b)
    ensures BuilderOk(ServeAll(b, qs)) && Progress(b, ServeAll(b, qs))
    decreases |qs|
  {
    if qs != [] {
      var b1 := ServeAll(b, qs[..|qs| - 1]);
      ServeAllKeeps(b, qs[..|qs| - 1]);
      ServeKeeps(b1, qs[|qs| - 1]);
      ExtendsTrans(b.chain, b1.chain, ServeAll(b, qs).chain);
      LaterTrans(b.mempool, b1.mempool, ServeAll(b, qs).mempool);
    }
  }
}
