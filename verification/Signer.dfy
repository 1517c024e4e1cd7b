/** One account on the chain whose transactions are only sent by somebody known: which of them wait
    in the pool, which have receipts, and how its nonce moves. A home of a transaction is a head on
    which it was sent. */
module Signer {
  import opened Common
  import opened Domain
  import opened TxChain
  import opened BuilderMempool
  import opened Bundles

  type Homes = set<(Transaction, nat)>

  /** A waiting transaction has no later nonce than the next one to be sent; unless its nonce is
      used up, it was sent on this head. */
  ghost predicate Waits(tx: Transaction, nonce: nat, head: nat, next: nat, homes: Homes)
  {
    tx.nonce <= next && (tx.nonce >= nonce ==> (tx, head) in homes)
  }

  ghost predicate PoolAtHome(pool: seq<Transaction>, who: Address, nonce: nat, head: nat, next: nat, homes: Homes)
  {
    forall i :: 0 <= i < |pool| && pool[i].from == who ==> Waits(pool[i], nonce, head, next, homes)
  }

  /** From the nonce `base` on, every transaction with a receipt ran in the block right above a
      head on which it was sent. */
  ghost predicate ReceiptsAtHome(receipts: map<Transaction, Receipt>, who: Address, base: nat, homes: Homes)
  {
    forall tx :: tx in receipts && tx.from == who && tx.nonce >= base ==>
      receipts[tx].blockNumber > 0 && (tx, receipts[tx].blockNumber - 1) in homes
  }

  /** Some transaction of this nonce has a receipt. */
  ghost predicate Used(receipts: map<Transaction, Receipt>, who: Address, nonce: nat)
  {
    exists tx :: tx in receipts && tx.from == who && tx.nonce == nonce
  }

  ghost predicate AllUsed(receipts: map<Transaction, Receipt>, who: Address, base: nat, nonce: nat)
  {
    forall k: nat :: base <= k < nonce ==> Used(receipts, who, k)
  }

  function Max(x: nat, y: nat): nat { if x < y then y else x }

  /** `next` is the nonce of the next transaction; at most one transaction is ahead of it. */
  ghost predicate SignerOk(c: Chain, who: Address, base: nat, next: nat, homes: Homes)
  {
    var nonce := Nonce(c.latest, who);
    && next <= nonce && base <= nonce <= Max(base, next + 1)
    && PoolAtHome(c.pool, who, nonce, Head(c), next, homes)
    && ReceiptsAtHome(c.receipts, who, base, homes)
    && AllUsed(c.receipts, who, base, nonce)
  }

  lemma MoreHomes(c: Chain, who: Address, base: nat, next: nat, homes: Homes, more: Homes)
    requires SignerOk(c, who, base, next, homes) && homes <= more
    ensures SignerOk(c, who, base, next, more)
  {
  }

  /** A nonce that is used up may be counted. */
  lemma NextNonce(c: Chain, who: Address, base: nat, next: nat, homes: Homes)
    requires SignerOk(c, who, base, next, homes) && next < Nonce(c.latest, who)
    ensures SignerOk(c, who, base, next + 1, homes)
  {
  }

  // ---------------------------------------------------------------- sending

  /** What may be sent: anything of somebody else, or the next transaction on this head. */
  predicate MaySend(c: Chain, tx: Transaction, who: Address, next: nat, homes: Homes)
  {
    tx.from == who ==> tx.nonce == next && (tx, Head(c)) in homes
  }

  lemma SendKeepsSigner(c: Chain, tx: Transaction, who: Address, base: nat, next: nat, homes: Homes)
    requires SignerOk(c, who, base, next, homes) && MaySend(c, tx, who, next, homes) && Send(c, tx).Some?
    ensures SignerOk(Send(c, tx).value, who, base, next, homes)
  {
  }

  lemma {:induction false} SendAllKeepsSigner(c: Chain, items: seq<Item>, f: Faults, who: Address, base: nat, next: nat,
                                              homes: Homes)
    requires SignerOk(c, who, base, next, homes)
    requires forall i :: 0 <= i < |items| ==> MaySend(c, items[i].tx, who, next, homes)
    ensures SignerOk(SendAll(c, items, f).chain, who, base, next, homes)
    ensures Head(SendAll(c, items, f).chain) == Head(c)
    decreases |items|
  {
    if items != [] {
      var n := |items| - 1;
      SendAllKeepsSigner(c, items[..n], f, who, base, next, homes);
      var s := SendAll(c, items[..n], f);
      if s.ok && Send(s.chain, items[n].tx).Some? {
        SendKeepsSigner(s.chain, items[n].tx, who, base, next, homes);
      }
    }
  }

  // ---------------------------------------------------------------- mining

  /** A block under construction on the head `head`. */
  ghost predicate MiningOk(m: Mining, nonce: nat, head: nat, who: Address, base: nat, next: nat, homes: Homes)
  {
    var now := Nonce(m.block, who);
    && next <= nonce <= now <= Max(nonce, next + 1) && base <= nonce
    && (forall i :: 0 <= i < |m.left| && m.left[i].from == who ==> m.left[i].nonce <= next)
    && ReceiptsAtHome(m.receipts, who, base, homes)
    && AllUsed(m.receipts, who, base, now)
  }

  lemma OneMoreUsed(receipts: map<Transaction, Receipt>, who: Address, base: nat, nonce: nat, tx: Transaction,
                    r: Receipt)
    requires AllUsed(receipts, who, base, nonce)
    ensures AllUsed(receipts[tx := r], who, base, nonce)
    ensures tx.from == who && tx.nonce == nonce ==> AllUsed(receipts[tx := r], who, base, nonce + 1)
  {
    var more := receipts[tx := r];
    forall k: nat | base <= k < nonce
      ensures Used(more, who, k)
    {
      assert Used(receipts, who, k);
      var earlier :| earlier in receipts && earlier.from == who && earlier.nonce == k;
      assert earlier in more;
    }
    assert tx in more;
  }

  lemma IncludeKeepsSigner(m: Mining, tx: Transaction, nonce: nat, head: nat, who: Address, base: nat, next: nat,
                           homes: Homes)
    requires MiningOk(m, nonce, head, who, base, next, homes)
    requires tx.from == who ==> Waits(tx, nonce, head, next, homes)
    ensures MiningOk(Include(m, tx, head + 1), nonce, head, who, base, next, homes)
  {
    var m' := Include(m, tx, head + 1);
    if tx.nonce == Nonce(m.block, tx.from) {
      NonceUsed(m.block, m'.block, tx);
      OneMoreUsed(m.receipts, who, base, Nonce(m.block, who), tx, m'.receipts[tx]);
    }
  }

  lemma {:induction false} IncludeAllKeepsSigner(m: Mining, txs: seq<Transaction>, nonce: nat, head: nat, who: Address,
                                                 base: nat, next: nat, homes: Homes)
    requires MiningOk(m, nonce, head, who, base, next, homes)
    requires forall i :: 0 <= i < |txs| && txs[i].from == who ==> Waits(txs[i], nonce, head, next, homes)
    ensures MiningOk(IncludeAll(m, txs, head + 1), nonce, head, who, base, next, homes)
    decreases |txs|
  {
    if txs != [] {
      var n := |txs| - 1;
      IncludeAllKeepsSigner(m, txs[..n], nonce, head, who, base, next, homes);
      IncludeKeepsSigner(IncludeAll(m, txs[..n], head + 1), txs[n], nonce, head, who, base, next, homes);
    }
  }

  /** What stays in the pool was in it. */
  lemma {:induction false} LeftFromBlock(m: Mining, txs: seq<Transaction>, number: nat)
    ensures forall tx :: tx in IncludeAll(m, txs, number).left ==> tx in m.left || tx in txs
    decreases |txs|
  {
    if txs != [] {
      LeftFromBlock(m, txs[..|txs| - 1], number);
    }
  }

  /** After a block nothing that waits has an unused nonce. */
  lemma MineBlockKeepsSigner(c: Chain, who: Address, base: nat, next: nat, homes: Homes)
    requires SignerOk(c, who, base, next, homes)
    ensures SignerOk(MineBlock(c), who, base, next, homes)
  {
    var nonce, txs := Nonce(c.latest, who), ByTip(c.pool);
    var m0 := Mining(c.latest, [], c.receipts);
    SamePool(c.pool);
    forall i | 0 <= i < |txs| && txs[i].from == who
      ensures Waits(txs[i], nonce, Head(c), next, homes)
    {
      WaitsInPool(c.pool, txs[i], who, nonce, Head(c), next, homes);
    }
    IncludeAllKeepsSigner(m0, txs, nonce, Head(c), who, base, next, homes);
    LeftFromBlock(m0, txs, Head(c) + 1);
    forall tx | tx in MineBlock(c).pool && tx.from == who
      ensures tx.nonce <= next && tx.nonce < Nonce(MineBlock(c).latest, who)
    {
      WaitsInPool(c.pool, tx, who, nonce, Head(c), next, homes);
      if tx.nonce == nonce {
        MineBlockUses(c, tx);
      }
    }
  }

  lemma WaitsInPool(pool: seq<Transaction>, tx: Transaction, who: Address, nonce: nat, head: nat, next: nat,
                    homes: Homes)
    requires PoolAtHome(pool, who, nonce, head, next, homes) && tx in pool && tx.from == who
    ensures Waits(tx, nonce, head, next, homes)
  {
  }

  // ---------------------------------------------------------------- requests

  lemma ExecuteKeepsSigner(c: Chain, items: seq<Item>, f: Faults, who: Address, base: nat, next: nat, homes: Homes)
    requires SignerOk(c, who, base, next, homes)
    requires forall i :: 0 <= i < |items| ==> MaySend(c, items[i].tx, who, next, homes)
    ensures SignerOk(ExecuteBundle(c, items, f).chain, who, base, next, homes)
  {
    SendAllKeepsSigner(c, items, f, who, base, next, homes);
    MineBlockKeepsSigner(SendAll(c, items, f).chain, who, base, next, homes);
  }

  /** No record of the mempool is signed by this account. */
  ghost predicate MempoolFree(m: MempoolState, who: Address)
  {
    forall i :: 0 <= i < |m.records| ==> m.records[i].tx.from != who
  }

  predicate SignsItem(raw: RawItem, who: Address)
  {
    raw.Raw? && raw.tx.from == who
  }

  predicate SignsBundle(raw: RawBundle, who: Address)
  {
    exists i :: 0 <= i < |raw.items| && SignsItem(raw.items[i], who)
  }

  /** The request carries a transaction that this account signed. */
  predicate SignsRequest(q: Bundles.Request, who: Address)
  {
    match q
    case RAdd(_, tx) => tx.from == who
    case RSimulate(raw, _) => SignsBundle(raw, who)
    case RMine(raw, _) => SignsBundle(raw, who)
    case RSend(tx) => tx.from == who
    case RMineBlock => false
  }

  lemma ParsedSigner(m: MempoolState, raw: RawBundle, items: seq<Item>, who: Address)
    requires MempoolFree(m, who) && Parse(m, raw) == Bundles.Good(items)
    ensures forall i :: 0 <= i < |items| && items[i].tx.from == who ==>
              SignsItem(raw.items[i], who) && items[i].tx == raw.items[i].tx
  {
    ParsedItemsArePending(m, raw.items, items);
    forall i | 0 <= i < |items| && items[i].tx.from == who
      ensures raw.items[i].Raw?
    {
      assert RefersToPending(m, items[i]);
    }
  }

  /** Parsed items that may be sent when the raw ones may. */
  lemma BundleKeepsSigner(b: BuilderState, raw: RawBundle, f: Faults, who: Address, base: nat, next: nat, homes: Homes)
    requires SignerOk(b.chain, who, base, next, homes) && MempoolFree(b.mempool, who)
    requires forall i :: 0 <= i < |raw.items| && SignsItem(raw.items[i], who) ==>
               MaySend(b.chain, raw.items[i].tx, who, next, homes)
    ensures SignerOk(Simulate(b, raw, f).builder.chain, who, base, next, homes)
    ensures SignerOk(Mine(b, raw, f).builder.chain, who, base, next, homes)
  {
    if Parse(b.mempool, raw).Good? {
      var items := Parse(b.mempool, raw).value;
      ParsedSigner(b.mempool, raw, items, who);
      ExecuteKeepsSigner(b.chain, items, f, who, base, next, homes);
    }
  }

  /** Requests keep the records' transactions, and add none of this account. */
  lemma ServeKeepsFree(b: BuilderState, q: Bundles.Request, who: Address)
    requires MempoolOk(b.mempool) && MempoolFree(b.mempool, who)
    requires q.RAdd? ==> q.tx.from != who
    ensures MempoolFree(Serve(b, q).mempool, who)
  {
    if q.RMine? {
      MineIsLater(b, q.bundle, q.faults);
      MineKeepsCount(b, q.bundle, q.faults);
    }
  }

  lemma MineKeepsCount(b: BuilderState, raw: RawBundle, f: Faults)
    requires MempoolOk(b.mempool)
    ensures |Mine(b, raw, f).builder.mempool.records| == |b.mempool.records|
  {
    if Mine(b, raw, f).response.Failed? {
      FailedMineKeepsMempool(b, raw, f);
    } else {
      MarkingSucceeds(b, raw, f);
    }
  }

  /** A request of somebody else. */
  lemma ServeKeepsSigner(b: BuilderState, q: Bundles.Request, who: Address, base: nat, next: nat, homes: Homes)
    requires BuilderOk(b) && SignerOk(b.chain, who, base, next, homes) && MempoolFree(b.mempool, who)
    requires !SignsRequest(q, who)
    ensures SignerOk(Serve(b, q).chain, who, base, next, homes) && MempoolFree(Serve(b, q).mempool, who)
  {
    ServeKeepsFree(b, q, who);
    match q
    case RAdd(_, _) =>
    case RSimulate(raw, f) => BundleKeepsSigner(b, raw, f, who, base, next, homes);
    case RMine(raw, f) => BundleKeepsSigner(b, raw, f, who, base, next, homes);
    case RSend(tx) =>
      if Send(b.chain, tx).Some? {
        SendKeepsSigner(b.chain, tx, who, base, next, homes);
      }
    case RMineBlock => MineBlockKeepsSigner(b.chain, who, base, next, homes);
  }
}
