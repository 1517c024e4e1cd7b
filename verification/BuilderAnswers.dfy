/** What the builder answers, from the identifiers and statuses of its records and the faults of its
    RPCs: which bundles parse, why one is refused, and what a result says of each transaction. */
module BuilderAnswers {
  import opened Common
  import opened Domain
  import opened TxChain
  import opened BuilderMempool
  import opened Bundles
  import opened NonceLag

  // ---------------------------------------------------------------- parsing

  predicate IsPending(m: MempoolState, id: string)
  {
    exists i :: 0 <= i < |m.records| && m.records[i].id == id && m.records[i].status.Pending?
  }

  predicate IsSettled(m: MempoolState, id: string)
  {
    exists i :: 0 <= i < |m.records| && m.records[i].id == id && !m.records[i].status.Pending?
  }

  /** A signed transaction, or the identifier of a pending record. */
  predicate Acceptable(m: MempoolState, raw: RawItem)
  {
    raw.Ref? ==> raw.id != "" && IsPending(m, raw.id)
  }

  function RefusalCode(m: MempoolState, raw: RawItem): nat
  {
    if raw.Ref? && raw.id != "" && IsSettled(m, raw.id) then 409 else 400
  }

  lemma ItemDecides(m: MempoolState, raw: RawItem)
    requires MempoolOk(m)
    ensures ParseItem(m, raw).Good? <==> Acceptable(m, raw)
    ensures !Acceptable(m, raw) ==> ParseItem(m, raw) == Bundles.Bad(RefusalCode(m, raw))
  {
  }

  /** A bundle parses if and only if it has items and each of them is acceptable. */
  lemma {:induction false} ItemsParse(m: MempoolState, raws: seq<RawItem>)
    requires MempoolOk(m)
    ensures ParseItems(m, raws).Good? <==> forall i :: 0 <= i < |raws| ==> Acceptable(m, raws[i])
    decreases |raws|
  {
    if raws != [] {
      var n := |raws| - 1;
      ItemsParse(m, raws[..n]);
      ItemDecides(m, raws[n]);
      assert forall i :: 0 <= i < n ==> raws[..n][i] == raws[i];
    }
  }

  predicate Parses(m: MempoolState, raw: RawBundle)
  {
    raw.items != [] && forall i :: 0 <= i < |raw.items| ==> Acceptable(m, raw.items[i])
  }

  /** The first item that is not acceptable. */
  predicate FirstBad(m: MempoolState, raw: RawBundle, k: nat)
  {
    k < |raw.items| && !Acceptable(m, raw.items[k]) && forall i :: 0 <= i < k ==> Acceptable(m, raw.items[i])
  }

  lemma {:induction false} ItemsRefused(m: MempoolState, raws: seq<RawItem>, k: nat)
    requires MempoolOk(m) && k < |raws| && !Acceptable(m, raws[k])
    requires forall i :: 0 <= i < k ==> Acceptable(m, raws[i])
    ensures ParseItems(m, raws) == Bundles.Bad(RefusalCode(m, raws[k]))
  {
    var upTo := raws[..k + 1];
    assert upTo[..k] == raws[..k];
    ItemsParse(m, raws[..k]);
    ItemDecides(m, raws[k]);
    BadStaysBad(m, raws, k + 1, RefusalCode(m, raws[k]));
  }

  lemma {:induction false} SomeFirstBad(m: MempoolState, raw: RawBundle, n: nat) returns (k: nat)
    requires n <= |raw.items| && forall i :: 0 <= i < n ==> Acceptable(m, raw.items[i])
    requires exists i :: n <= i < |raw.items| && !Acceptable(m, raw.items[i])
    ensures FirstBad(m, raw, k)
    decreases |raw.items| - n
  {
    if !Acceptable(m, raw.items[n]) {
      k := n;
    } else {
      k := SomeFirstBad(m, raw, n + 1);
    }
  }

  /** Which bundles parse, and what an unparsable one is answered: 409 exactly when its first bad item
      names a settled record, 400 otherwise. */
  lemma ParseDecides(m: MempoolState, raw: RawBundle)
    requires MempoolOk(m)
    ensures Parse(m, raw).Good? <==> Parses(m, raw)
    ensures Parse(m, raw).Bad? ==> Parse(m, raw).code == 400 || Parse(m, raw).code == 409
    ensures Parse(m, raw) == Bundles.Bad(409)
            <==> exists k: nat :: FirstBad(m, raw, k) && RefusalCode(m, raw.items[k]) == 409
  {
    if raw.items != [] {
      ItemsParse(m, raw.items);
      if !Parses(m, raw) {
        var k := SomeFirstBad(m, raw, 0);
        ItemsRefused(m, raw.items, k);
        forall j: nat | FirstBad(m, raw, j)
          ensures j == k
        {
          assert j < k || k < j || j == k;
        }
      }
    }
  }

  // ---------------------------------------------------------------- answers

  /** The head is reached and the bundle is pinned to it. */
  predicate AtHead(b: BuilderState, raw: RawBundle, f: Faults)
  {
    Parses(b.mempool, raw) && !f.head && Target(raw, Head(b.chain)) == Head(b.chain)
  }

  /** Every send, the mining and the fetching of receipts answer. */
  predicate Runs(b: BuilderState, raw: RawBundle, f: Faults)
  {
    && Parse(b.mempool, raw).Good? && Sendable(b.chain, Parse(b.mempool, raw).value, f)
    && !f.mine && !f.receipts
  }

  /** Every answer of a simulation, from its inputs. */
  lemma SimulateAnswers(b: BuilderState, raw: RawBundle, f: Faults)
    requires MempoolOk(b.mempool)
    ensures var r, head := Simulate(b, raw, f).response, Head(b.chain);
            && (r.Ok? <==> AtHead(b, raw, f) && !f.snapshot && !f.revert && Runs(b, raw, f))
            && (r == Failed(409) <==> Parse(b.mempool, raw) == Bundles.Bad(409))
            && (r == Failed(501) <==> Parses(b.mempool, raw) && !f.head && Target(raw, head) < head)
            && (r == Failed(400) <==> Parse(b.mempool, raw) == Bundles.Bad(400)
                                      || (Parses(b.mempool, raw) && !f.head && Target(raw, head) > head))
            && (r == Failed(502) <==> Parses(b.mempool, raw)
                                      && (f.head || (Target(raw, head) == head
                                                     && (f.snapshot || f.revert || !Runs(b, raw, f)))))
  {
    ParseDecides(b.mempool, raw);
    if Parse(b.mempool, raw).Good? {
      SendAllOk(b.chain, Parse(b.mempool, raw).value, f);
    }
  }

  /** Every answer of a submission, from its inputs. */
  lemma MineAnswers(b: BuilderState, raw: RawBundle, f: Faults)
    requires MempoolOk(b.mempool)
    ensures var r, head := Mine(b, raw, f).response, Head(b.chain);
            && (r.Ok? <==> AtHead(b, raw, f) && Runs(b, raw, f))
            && (r == Failed(409) <==> Parse(b.mempool, raw) == Bundles.Bad(409))
            && (r == Failed(400) <==> Parse(b.mempool, raw) == Bundles.Bad(400)
                                      || (Parses(b.mempool, raw) && !f.head && Target(raw, head) != head))
            && (r == Failed(502) <==> Parses(b.mempool, raw)
                                      && (f.head || (Target(raw, head) == head && !Runs(b, raw, f))))
  {
    ParseDecides(b.mempool, raw);
    if Parse(b.mempool, raw).Good? {
      SendAllOk(b.chain, Parse(b.mempool, raw).value, f);
      MarkingSucceeds(b, raw, f);
    }
  }

  // ---------------------------------------------------------------- results

  /** One line of a result: the receipt that was found, and included, reverted or missing by it. */
  predicate Reports(r: TxResult, item: Item, receipts: map<Transaction, Receipt>, missing: bool)
  {
    && r.id == item.id && r.hash == item.tx
    && (r.receipt.Some? <==> !missing && item.tx in receipts)
    && (r.receipt.Some? && item.tx in receipts ==> r.receipt.value == receipts[item.tx])
    && (r.status.Included? <==> r.receipt.Some? && r.receipt.value.success)
    && (r.status.Reverted? <==> r.receipt.Some? && !r.receipt.value.success)
    && (r.status.Missing? <==> r.receipt.None?)
  }

  /** A result reports every item in order, and the bundle as included if and only if each has a
      successful receipt in the chain and none was missed. */
  lemma ResultReports(c: Chain, items: seq<Item>, f: Faults, r: BundleResult)
    requires ExecuteBundle(c, items, f).result == Some(r)
    ensures |r.transactions| == |items|
    ensures var receipts := ExecuteBundle(c, items, f).chain.receipts;
            && (forall i :: 0 <= i < |items| ==> Reports(r.transactions[i], items[i], receipts, i in f.missing))
            && (r.included <==> forall i :: 0 <= i < |items| ==>
                  i !in f.missing && items[i].tx in receipts && receipts[items[i].tx].success)
  {
    var receipts := ExecuteBundle(c, items, f).chain.receipts;
    forall i | 0 <= i < |items|
      ensures Reports(r.transactions[i], items[i], receipts, i in f.missing)
    {
      assert r.transactions[i] == ResultOf(ExecuteBundle(c, items, f).chain, items[i], i in f.missing);
    }
  }

  // ---------------------------------------------------------------- requests of others

  /** A transaction under a new id is filed behind the others as pending, with the next number; anything
      else about the builder stays. */
  lemma AddDecides(b: BuilderState, id: string, tx: Transaction)
    requires MempoolOk(b.mempool)
    ensures var b', n := Serve(b, RAdd(id, tx)), |b.mempool.records|;
            && b'.chain == b.chain && MempoolOk(b'.mempool)
            && (if exists r :: r in b.mempool.records && r.id == id then b' == b
                else b'.mempool.records == b.mempool.records + [Record(id, n + 1, tx, Pending, None, None)])
  {
    if exists r :: r in b.mempool.records && r.id == id {
      var r :| r in b.mempool.records && r.id == id;
      var i :| 0 <= i < |b.mempool.records| && b.mempool.records[i] == r;
      assert HasId(b.mempool.records, id);
    }
  }

  /** A transaction that somebody sends to the chain waits there if and only if its nonce is not used. */
  lemma SendDecides(b: BuilderState, tx: Transaction)
    ensures var b' := Serve(b, RSend(tx));
            && b'.mempool == b.mempool
            && (b' == b <==> tx.nonce < Nonce(b.chain.latest, tx.from))
            && (b' != b ==> b'.chain == b.chain.(pool := b.chain.pool + [tx]))
  {
    if tx.nonce >= Nonce(b.chain.latest, tx.from) {
      assert |Serve(b, RSend(tx)).chain.pool| == |b.chain.pool| + 1;
    }
  }
}
