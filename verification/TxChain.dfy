/** The chain behind the builder: blocks over the ledger, a pool of sent transactions and a
    mining rule. It is deterministic: equal chains mine equal blocks. */
module TxChain {
  import opened Common
  import opened Domain
  import opened Ledger
  import opened LedgerInvariant
  import opened LedgerRuns
  import opened ExecutorFunds
  import opened Abi

  datatype Receipt = Receipt(success: bool, blockNumber: nat)

  datatype Block = Block(world: World, nonces: map<Address, nat>)

  /** A transaction stands for its own hash: equal hashes mean equal transactions. */
  datatype Chain = Chain(
    past: seq<Block>, latest: Block, pool: seq<Transaction>, receipts: map<Transaction, Receipt>)

  function Head(c: Chain): nat { |c.past| }

  function BlockAt(c: Chain, n: nat): Block
    requires n <= Head(c)
  {
    if n < |c.past| then c.past[n] else c.latest
  }

  function Nonce(b: Block, a: Address): nat
  {
    if a in b.nonces then b.nonces[a] else 0
  }

  // ---------------------------------------------------------------- one transaction

  datatype Ran = Ran(world: World, success: bool)

  function RunTx(w: World, tx: Transaction): Ran
  {
    if tx.to.None? then Ran(w, false)
    else match DecodeCall(w, tx.to.value, tx.input)
      case None => Ran(w, false)
      case Some(call) =>
        match Exec(w, tx.from, call)
        case None => Ran(w, false)
        case Some(w') => Ran(w', true)
  }

  /** A state between transactions: the ledger is consistent and the executor owes nobody an
      allowance. */
  ghost predicate StateOk(w: World) { WorldOk(w) && ExecutorClosed(w) }

  /** A transaction that changes the state ran a call; only then is there anything to show. */
  lemma RanCall(w: World, tx: Transaction) returns (call: Option<Call>)
    ensures call.None? ==> RunTx(w, tx) == Ran(w, false)
    ensures call.Some? ==>
              && tx.to.Some? && DecodeCall(w, tx.to.value, tx.input) == call
              && RunTx(w, tx).success && Exec(w, tx.from, call.value) == Some(RunTx(w, tx).world)
  {
    call := None;
    if tx.to.Some? {
      var decoded := DecodeCall(w, tx.to.value, tx.input);
      if decoded.Some? && Exec(w, tx.from, decoded.value).Some? {
        call := decoded;
      }
    }
  }

  lemma RunTxKeepsWorld(w: World, tx: Transaction)
    requires StateOk(w)
    ensures StateOk(RunTx(w, tx).world) && AllGrow(w, RunTx(w, tx).world)
  {
    var call := RanCall(w, tx);
    if call.None? {
      SamePoolsGrow(w, w);
    } else {
      ExecKeepsWorld(w, tx.from, call.value, RunTx(w, tx).world);
      ExecKeepsClosed(w, tx.from, call.value, RunTx(w, tx).world);
    }
  }

  /** A transaction that does not ask for a withdrawal takes nothing from the executor. */
  lemma RunTxKept(w: World, tx: Transaction)
    requires StateOk(w) && !AsksWithdrawal(w.backrun, tx)
    ensures AllKept(w, RunTx(w, tx).world)
  {
    var call := RanCall(w, tx);
    if call.None? {
      AllKeptSelf(w);
    } else {
      if call.value.CWithdraw? {
        WithdrawalAsked(w, tx, call.value);
      }
      OnlyWithdrawalsSpend(w, tx.from, call.value, RunTx(w, tx).world);
    }
  }

  // ---------------------------------------------------------------- mining

  /** A block under construction: transactions whose nonce is not the sender's next one stay in
      the pool. */
  datatype Mining = Mining(block: Block, left: seq<Transaction>, receipts: map<Transaction, Receipt>)

  function Include(m: Mining, tx: Transaction, number: nat): Mining
  {
    if tx.nonce != Nonce(m.block, tx.from) then m.(left := m.left + [tx])
    else
      var r := RunTx(m.block.world, tx);
      Mining(Block(r.world, m.block.nonces[tx.from := tx.nonce + 1]), m.left,
             m.receipts[tx := Receipt(r.success, number)])
  }

  function IncludeAll(m: Mining, txs: seq<Transaction>, number: nat): Mining
  {
    if txs == [] then m
    else Include(IncludeAll(m, txs[..|txs| - 1], number), txs[|txs| - 1], number)
  }

  /** Higher tips first; equal tips in the order of arrival. */
  function InsertByTip(txs: seq<Transaction>, tx: Transaction): seq<Transaction>
  {
    if txs == [] then [tx]
    else
      var last := txs[|txs| - 1];
      if last.tip < tx.tip then InsertByTip(txs[..|txs| - 1], tx) + [last] else txs + [tx]
  }

  function ByTip(pool: seq<Transaction>): seq<Transaction>
  {
    if pool == [] then [] else InsertByTip(ByTip(pool[..|pool| - 1]), pool[|pool| - 1])
  }

  function MineBlock(c: Chain): Chain
  {
    var m := IncludeAll(Mining(c.latest, [], c.receipts), ByTip(c.pool), Head(c) + 1);
    Chain(c.past + [c.latest], m.block, m.left, m.receipts)
  }

  /** eth_sendTransaction: a nonce that is already used is refused. */
  function Send(c: Chain, tx: Transaction): Option<Chain>
  {
    if tx.nonce < Nonce(c.latest, tx.from) then None
    else Some(c.(pool := c.pool + [tx]))
  }

  /** The order of a block is a permutation of the pool. */
  lemma {:induction false} InsertPermutes(txs: seq<Transaction>, tx: Transaction)
    ensures multiset(InsertByTip(txs, tx)) == multiset(txs) + multiset{tx}
  {
    if txs != [] {
      var front, last := txs[..|txs| - 1], txs[|txs| - 1];
      assert txs == front + [last];
      InsertPermutes(front, tx);
    }
  }

  lemma {:induction false} ByTipPermutes(pool: seq<Transaction>)
    ensures multiset(ByTip(pool)) == multiset(pool)
  {
    if pool != [] {
      var front, last := pool[..|pool| - 1], pool[|pool| - 1];
      assert pool == front + [last];
      ByTipPermutes(front);
      InsertPermutes(ByTip(front), last);
    }
  }

  predicate TipsFall(txs: seq<Transaction>)
  {
    forall i, j :: 0 <= i < j < |txs| ==> txs[j].tip <= txs[i].tip
  }

  lemma {:induction false} InsertKeepsFall(txs: seq<Transaction>, tx: Transaction)
    requires TipsFall(txs)
    ensures TipsFall(InsertByTip(txs, tx))
  {
    if txs != [] && txs[|txs| - 1].tip < tx.tip {
      var front, last := txs[..|txs| - 1], txs[|txs| - 1];
      InsertKeepsFall(front, tx);
      InsertPermutes(front, tx);
      forall t | t in InsertByTip(front, tx)
        ensures last.tip <= t.tip
      {
        assert t in multiset(InsertByTip(front, tx));
        assert t in multiset(front) || t == tx;
      }
    }
  }

  /** The transactions of one tip, in their order. */
  function OfTip(txs: seq<Transaction>, tip: nat): seq<Transaction>
  {
    if txs == [] then []
    else
      var front := OfTip(txs[..|txs| - 1], tip);
      if txs[|txs| - 1].tip == tip then front + [txs[|txs| - 1]] else front
  }

  lemma {:induction false} InsertIsStable(txs: seq<Transaction>, tx: Transaction, tip: nat)
    requires TipsFall(txs)
    ensures OfTip(InsertByTip(txs, tx), tip) == OfTip(txs, tip) + if tx.tip == tip then [tx] else []
  {
    if txs != [] && txs[|txs| - 1].tip < tx.tip {
      var front, last := txs[..|txs| - 1], txs[|txs| - 1];
      var inserted := InsertByTip(front, tx);
      assert (inserted + [last])[..|inserted|] == inserted;
      InsertIsStable(front, tx, tip);
    } else {
      assert (txs + [tx])[..|txs|] == txs;
    }
  }

  /** The order of a block: tips never rise, and transactions of equal tips keep their order. */
  lemma {:induction false} BlockOrder(pool: seq<Transaction>, tip: nat)
    ensures TipsFall(ByTip(pool)) && OfTip(ByTip(pool), tip) == OfTip(pool, tip)
  {
    if pool != [] {
      var front, last := pool[..|pool| - 1], pool[|pool| - 1];
      BlockOrder(front, tip);
      InsertKeepsFall(ByTip(front), last);
      InsertIsStable(ByTip(front), last, tip);
    }
  }

  lemma {:induction false} InsertFirst(txs: seq<Transaction>, tx: Transaction)
    requires forall t :: t in txs ==> t.tip < tx.tip
    ensures InsertByTip(txs, tx) == [tx] + txs
  {
    if txs != [] {
      var front, last := txs[..|txs| - 1], txs[|txs| - 1];
      assert txs == front + [last];
      InsertFirst(front, tx);
    }
  }

  lemma {:induction false} InsertSecond(x: Transaction, txs: seq<Transaction>, y: Transaction)
    requires y.tip <= x.tip && forall t :: t in txs ==> t.tip < y.tip
    ensures InsertByTip([x] + txs, y) == [x, y] + txs
  {
    var all := [x] + txs;
    if txs == [] {
      assert all == [x];
    } else {
      var front, last := txs[..|txs| - 1], txs[|txs| - 1];
      assert all[..|all| - 1] == [x] + front && txs == front + [last];
      InsertSecond(x, front, y);
    }
  }

  /** A pair that everybody in the pool tips less than heads the block, in its order. */
  lemma PairHeadsBlock(pool: seq<Transaction>, x: Transaction, y: Transaction)
    requires y.tip <= x.tip && forall t :: t in pool ==> t.tip < y.tip
    ensures ByTip(pool + [x, y]) == [x, y] + ByTip(pool)
  {
    var one, two := pool + [x], pool + [x, y];
    assert two[..|two| - 1] == one && one[..|one| - 1] == pool;
    SamePool(pool);
    InsertFirst(ByTip(pool), x);
    InsertSecond(x, ByTip(pool), y);
  }

  lemma SamePool(pool: seq<Transaction>)
    ensures forall t :: t in ByTip(pool) <==> t in pool
  {
    ByTipPermutes(pool);
    forall t
      ensures t in ByTip(pool) <==> t in pool
    {
      assert t in multiset(ByTip(pool)) <==> t in multiset(pool);
    }
  }

  /** Two transactions in an empty pool keep their order exactly when the second does not pay
      the higher tip. */
  lemma PairOrder(a: Transaction, b: Transaction)
    ensures ByTip([a, b]) == if a.tip < b.tip then [b, a] else [a, b]
  {
    assert [a, b][..1] == [a] && [a][..0] == [];
    assert ByTip([a]) == InsertByTip(ByTip([]), a) == [a];
    assert InsertByTip([a], b) == if a.tip < b.tip then InsertByTip([], b) + [a] else [a, b];
  }

  // ---------------------------------------------------------------- what mining keeps

  ghost predicate ReceiptsOk(receipts: map<Transaction, Receipt>, b: Block, number: nat)
  {
    forall tx :: tx in receipts ==> tx.nonce < Nonce(b, tx.from) && receipts[tx].blockNumber <= number
  }

  /** Every block is consistent, and a transaction with a receipt has used its nonce. */
  ghost predicate ChainOk(c: Chain)
  {
    && (forall n :: 0 <= n <= Head(c) ==> StateOk(BlockAt(c, n).world))
    && ReceiptsOk(c.receipts, c.latest, Head(c))
  }

  ghost predicate NoncesGrow(b: Block, b': Block)
  {
    forall a: Address :: Nonce(b, a) <= Nonce(b', a)
  }

  /** Old receipts are kept; new ones belong to the new block and to nonces used in it. */
  ghost predicate ReceiptsFrom(b: Block, receipts: map<Transaction, Receipt>,
                               b': Block, receipts': map<Transaction, Receipt>, number: nat)
  {
    && receipts.Keys <= receipts'.Keys
    && (forall tx :: tx in receipts ==> receipts'[tx] == receipts[tx])
    && (forall tx :: tx in receipts' && tx !in receipts ==>
          receipts'[tx].blockNumber == number && Nonce(b, tx.from) <= tx.nonce < Nonce(b', tx.from))
  }

  /** What holds after any part of the block: the state is consistent, nonces have grown, and
      new receipts belong to the new block. */
  ghost predicate MinedFrom(b: Block, receipts: map<Transaction, Receipt>, m: Mining, number: nat)
  {
    && StateOk(m.block.world) && AllGrow(b.world, m.block.world)
    && NoncesGrow(b, m.block)
    && ReceiptsFrom(b, receipts, m.block, m.receipts, number)
  }

  lemma OneMoreReceipt(b: Block, receipts: map<Transaction, Receipt>, b1: Block, receipts1: map<Transaction, Receipt>,
                       tx: Transaction, b2: Block, success: bool, number: nat)
    requires ReceiptsOk(receipts, b, number) && ReceiptsFrom(b, receipts, b1, receipts1, number)
    requires NoncesGrow(b, b1) && tx.nonce == Nonce(b1, tx.from) && b2.nonces == b1.nonces[tx.from := tx.nonce + 1]
    ensures NoncesGrow(b, b2)
    ensures ReceiptsFrom(b, receipts, b2, receipts1[tx := Receipt(success, number)], number)
  {
    NonceUsed(b1, b2, tx);
  }

  lemma IncludeKeeps(b: Block, receipts: map<Transaction, Receipt>, m: Mining, tx: Transaction, number: nat)
    requires ReceiptsOk(receipts, b, number) && MinedFrom(b, receipts, m, number)
    ensures MinedFrom(b, receipts, Include(m, tx, number), number)
  {
    var m' := Include(m, tx, number);
    if tx.nonce == Nonce(m.block, tx.from) {
      RunTxKeepsWorld(m.block.world, tx);
      AllGrowTrans(b.world, m.block.world, m'.block.world);
      OneMoreReceipt(b, receipts, m.block, m.receipts, tx, m'.block, RunTx(m.block.world, tx).success, number);
    }
  }

  lemma NonceUsed(b: Block, b': Block, tx: Transaction)
    requires tx.nonce == Nonce(b, tx.from) && b'.nonces == b.nonces[tx.from := tx.nonce + 1]
    ensures forall a: Address :: Nonce(b', a) == Nonce(b, a) + if a == tx.from then 1 else 0
  {
  }

  lemma {:induction false} IncludeAllKeeps(b: Block, receipts: map<Transaction, Receipt>, m: Mining,
                                           txs: seq<Transaction>, number: nat)
    requires ReceiptsOk(receipts, b, number) && MinedFrom(b, receipts, m, number)
    ensures MinedFrom(b, receipts, IncludeAll(m, txs, number), number)
    decreases |txs|
  {
    if txs != [] {
      IncludeAllKeeps(b, receipts, m, txs[..|txs| - 1], number);
      IncludeKeeps(b, receipts, IncludeAll(m, txs[..|txs| - 1], number), txs[|txs| - 1], number);
    }
  }

  /** A block is built one part after the other. */
  lemma {:induction false} IncludeAllParts(m: Mining, xs: seq<Transaction>, ys: seq<Transaction>, number: nat)
    ensures IncludeAll(m, xs + ys, number) == IncludeAll(IncludeAll(m, xs, number), ys, number)
    decreases |ys|
  {
    if ys == [] {
      assert xs + ys == xs;
    } else {
      var all := xs + ys;
      assert all[..|all| - 1] == xs + ys[..|ys| - 1];
      IncludeAllParts(m, xs, ys[..|ys| - 1], number);
    }
  }

  /** A transaction that got its receipt in this block ran at one place of it. */
  lemma {:induction false} RanAt(m: Mining, txs: seq<Transaction>, number: nat, tx: Transaction) returns (i: nat)
    requires tx !in m.receipts && tx in IncludeAll(m, txs, number).receipts
    ensures i < |txs| && txs[i] == tx
    ensures var before := IncludeAll(m, txs[..i], number).block.world;
            && IncludeAll(m, txs, number).receipts[tx].success == RunTx(before, tx).success
            && IncludeAll(m, txs[..i + 1], number).block.world == RunTx(before, tx).world
    decreases |txs|
  {
    var n := |txs| - 1;
    var m1 := IncludeAll(m, txs[..n], number);
    if txs[n] == tx && tx.nonce == Nonce(m1.block, tx.from) {
      i := n;
      assert txs[..n + 1] == txs;
    } else {
      i := RanAt(m, txs[..n], number, tx);
      assert txs[..n][..i] == txs[..i] && txs[..n][..i + 1] == txs[..i + 1];
    }
  }

  /** Without withdrawals no part of a block takes anything from the executor. */
  lemma {:induction false} IncludeAllKept(m: Mining, txs: seq<Transaction>, number: nat)
    requires StateOk(m.block.world)
    requires forall i :: 0 <= i < |txs| ==> !AsksWithdrawal(m.block.world.backrun, txs[i])
    ensures var m' := IncludeAll(m, txs, number);
            StateOk(m'.block.world) && AllKept(m.block.world, m'.block.world)
    decreases |txs|
  {
    AllKeptSelf(m.block.world);
    if txs != [] {
      var n := |txs| - 1;
      IncludeAllKept(m, txs[..n], number);
      var m1 := IncludeAll(m, txs[..n], number);
      if txs[n].nonce == Nonce(m1.block, txs[n].from) {
        RunTxKept(m1.block.world, txs[n]);
        RunTxKeepsWorld(m1.block.world, txs[n]);
        AllKeptTrans(m.block.world, m1.block.world, RunTx(m1.block.world, txs[n]).world);
      }
    }
  }

  lemma IncludeGrowsNonce(m: Mining, tx: Transaction, number: nat, a: Address)
    ensures Nonce(m.block, a) <= Nonce(Include(m, tx, number).block, a)
  {
  }

  lemma {:induction false} IncludeAllGrowsNonce(m: Mining, txs: seq<Transaction>, number: nat, a: Address)
    ensures Nonce(m.block, a) <= Nonce(IncludeAll(m, txs, number).block, a)
    decreases |txs|
  {
    if txs != [] {
      var n := |txs| - 1;
      IncludeAllGrowsNonce(m, txs[..n], number, a);
      IncludeGrowsNonce(IncludeAll(m, txs[..n], number), txs[n], number, a);
    }
  }

  /** A transaction that carries its sender's next nonce is consumed, or another one of that
      nonce is: the nonce is used up. */
  lemma {:induction false} IncludeAllUses(m: Mining, txs: seq<Transaction>, number: nat, tx: Transaction)
    requires tx in txs && tx.nonce == Nonce(m.block, tx.from)
    ensures Nonce(IncludeAll(m, txs, number).block, tx.from) > tx.nonce
    decreases |txs|
  {
    var n := |txs| - 1;
    var m1 := IncludeAll(m, txs[..n], number);
    if tx in txs[..n] {
      IncludeAllUses(m, txs[..n], number, tx);
      IncludeGrowsNonce(m1, txs[n], number, tx.from);
    } else {
      assert txs[n] == tx;
      IncludeAllGrowsNonce(m, txs[..n], number, tx.from);
    }
  }

  /** Nothing else moves the nonce. */
  lemma {:induction false} IncludeAllUsesOnly(m: Mining, txs: seq<Transaction>, number: nat, a: Address)
    requires forall i :: 0 <= i < |txs| && txs[i].from == a ==> txs[i].nonce != Nonce(m.block, a)
    ensures Nonce(IncludeAll(m, txs, number).block, a) == Nonce(m.block, a)
    decreases |txs|
  {
    if txs != [] {
      IncludeAllUsesOnly(m, txs[..|txs| - 1], number, a);
    }
  }

  /** Transactions that wait and transactions that have run, in one bag. */
  ghost function WaitingOrRun(waiting: seq<Transaction>, run: set<Transaction>): multiset<Transaction>
  {
    multiset(waiting) + multiset(run)
  }

  lemma OneRun(b: Block, receipts: map<Transaction, Receipt>, number: nat, tx: Transaction, b': Block, r: Receipt)
    requires ReceiptsOk(receipts, b, number) && tx.nonce == Nonce(b, tx.from) && r.blockNumber == number
    requires b'.nonces == b.nonces[tx.from := tx.nonce + 1]
    ensures ReceiptsOk(receipts[tx := r], b', number)
    ensures multiset(receipts[tx := r].Keys) == multiset(receipts.Keys) + multiset{tx}
  {
    NonceUsed(b, b', tx);
    assert receipts[tx := r].Keys == receipts.Keys + {tx} && tx !in receipts.Keys;
  }

  lemma IncludeAccounts(m: Mining, tx: Transaction, number: nat)
    requires ReceiptsOk(m.receipts, m.block, number)
    ensures var m' := Include(m, tx, number);
            && ReceiptsOk(m'.receipts, m'.block, number)
            && WaitingOrRun(m'.left, m'.receipts.Keys) == WaitingOrRun(m.left, m.receipts.Keys) + multiset{tx}
  {
    var m' := Include(m, tx, number);
    if tx.nonce == Nonce(m.block, tx.from) {
      var r := Receipt(RunTx(m.block.world, tx).success, number);
      assert m'.receipts == m.receipts[tx := r];
      OneRun(m.block, m.receipts, number, tx, m'.block, r);
    }
  }

  lemma {:induction false} IncludeAllAccounts(m: Mining, txs: seq<Transaction>, number: nat)
    requires ReceiptsOk(m.receipts, m.block, number)
    ensures var m' := IncludeAll(m, txs, number);
            && ReceiptsOk(m'.receipts, m'.block, number)
            && WaitingOrRun(m'.left, m'.receipts.Keys)
               == WaitingOrRun(m.left, m.receipts.Keys) + multiset(txs)
    decreases |txs|
  {
    if txs != [] {
      var front, last := txs[..|txs| - 1], txs[|txs| - 1];
      assert txs == front + [last];
      IncludeAllAccounts(m, front, number);
      IncludeAccounts(IncludeAll(m, front, number), last, number);
    }
  }

  /** A block loses no transaction and runs none twice: each one of the pool waits on or has its
      one receipt. */
  lemma BlockAccounts(c: Chain)
    requires ChainOk(c)
    ensures WaitingOrRun(MineBlock(c).pool, MineBlock(c).receipts.Keys) == WaitingOrRun(c.pool, c.receipts.Keys)
  {
    IncludeAllAccounts(Mining(c.latest, [], c.receipts), ByTip(c.pool), Head(c) + 1);
    ByTipPermutes(c.pool);
  }

  /** A transaction of this account with its next nonce waits in the pool. */
  predicate PoolHolds(pool: seq<Transaction>, a: Address, nonce: nat)
  {
    exists i :: 0 <= i < |pool| && pool[i].from == a && pool[i].nonce == nonce
  }

  /** A block moves the nonce of exactly the accounts whose next transaction waits. */
  lemma MineBlockMovesNonce(c: Chain, a: Address)
    ensures Nonce(MineBlock(c).latest, a) > Nonce(c.latest, a) <==> PoolHolds(c.pool, a, Nonce(c.latest, a))
  {
    var txs := ByTip(c.pool);
    SamePool(c.pool);
    if PoolHolds(c.pool, a, Nonce(c.latest, a)) {
      var i :| 0 <= i < |c.pool| && c.pool[i].from == a && c.pool[i].nonce == Nonce(c.latest, a);
      MineBlockUses(c, c.pool[i]);
    } else {
      forall i | 0 <= i < |txs| && txs[i].from == a
        ensures txs[i].nonce != Nonce(c.latest, a)
      {
        assert txs[i] in c.pool;
      }
      IncludeAllUsesOnly(Mining(c.latest, [], c.receipts), txs, Head(c) + 1, a);
    }
  }

  lemma MineBlockUses(c: Chain, tx: Transaction)
    requires tx in c.pool && tx.nonce == Nonce(c.latest, tx.from)
    ensures Nonce(MineBlock(c).latest, tx.from) > tx.nonce
  {
    SamePool(c.pool);
    IncludeAllUses(Mining(c.latest, [], c.receipts), ByTip(c.pool), Head(c) + 1, tx);
  }

  /** The blocks of the first chain are the first blocks of the second. */
  ghost predicate Extends(c: Chain, c': Chain)
  {
    && Head(c) <= Head(c')
    && forall n :: 0 <= n <= Head(c) ==> BlockAt(c', n) == BlockAt(c, n)
  }

  lemma ExtendsTrans(c: Chain, c1: Chain, c2: Chain)
    requires Extends(c, c1) && Extends(c1, c2)
    ensures Extends(c, c2)
  {
  }

  /** Mining adds one block on top of the head and keeps everything below it. */
  lemma MineBlockKeeps(c: Chain)
    requires ChainOk(c)
    ensures ChainOk(MineBlock(c)) && Extends(c, MineBlock(c)) && Head(MineBlock(c)) == Head(c) + 1
    ensures AllGrow(c.latest.world, MineBlock(c).latest.world) && NoncesGrow(c.latest, MineBlock(c).latest)
    ensures forall tx :: tx in c.receipts ==>
              tx in MineBlock(c).receipts && MineBlock(c).receipts[tx] == c.receipts[tx]
    ensures forall tx :: tx in MineBlock(c).receipts && tx !in c.receipts ==>
              MineBlock(c).receipts[tx].blockNumber == Head(c) + 1
  {
    var m0 := Mining(c.latest, [], c.receipts);
    assert StateOk(BlockAt(c, Head(c)).world);
    SamePoolsGrow(c.latest.world, c.latest.world);
    IncludeAllKeeps(c.latest, c.receipts, m0, ByTip(c.pool), Head(c) + 1);
    var m := IncludeAll(m0, ByTip(c.pool), Head(c) + 1);
    var c' := MineBlock(c);
    MinedReceipts(c.latest, c.receipts, m, Head(c));
    forall n: nat | n <= Head(c')
      ensures StateOk(BlockAt(c', n).world) && (n <= Head(c) ==> BlockAt(c', n) == BlockAt(c, n))
    {
      if n <= Head(c) {
        assert StateOk(BlockAt(c, n).world);
      }
    }
  }

  lemma MinedReceipts(b: Block, receipts: map<Transaction, Receipt>, m: Mining, number: nat)
    requires ReceiptsOk(receipts, b, number) && MinedFrom(b, receipts, m, number + 1)
    ensures ReceiptsOk(m.receipts, m.block, number + 1)
  {
  }

  lemma SendKeeps(c: Chain, tx: Transaction)
    requires ChainOk(c) && Send(c, tx).Some?
    ensures var c' := Send(c, tx).value;
            && ChainOk(c') && Extends(c, c') && Head(c') == Head(c)
            && c'.latest == c.latest && c'.receipts == c.receipts
  {
    var c' := Send(c, tx).value;
    assert forall n :: 0 <= n <= Head(c') ==> BlockAt(c', n) == BlockAt(c, n);
  }
}
