/** One concrete world in which the whole story happens, so that the hypotheses of the theorems are
    known to meet: a trader swaps 50000 TokenA, Knight finds the other pool, and its bundle is
    simulated, submitted and mined. Ordered as a bundle it earns the expected 10832 TokenB; when
    the backrun outbids its victim, it is included as well and earns 4624, and when a rival's swap
    is waiting with an equal tip, it earns 8051. */
module Scenario {
  import opened Common
  import opened Domain
  import opened ConstantProduct
  import opened IntegerSqrt
  import opened Calculator
  import opened Optimality
  import opened FindArbitrage
  import opened Ledger
  import opened LedgerInvariant
  import opened Backrun
  import opened Refinement
  import opened Abi
  import opened TxChain
  import opened BuilderMempool
  import opened Bundles
  import opened TxComposer
  import opened Outcome
  import opened TipOrder
  import opened Sync
  import opened Pipeline
  import opened PipelineSafety
  import opened NonceLag
  import FirstRun

  /** Who takes part. */
  datatype Cast = Cast(pool1: Address, pool2: Address, tokenA: Address, tokenB: Address,
                       trader: Address, rival: Address, executor: Address, operator: Address)

  predicate Distinct(c: Cast)
  {
    && ZERO_ADDRESS !in {c.pool1, c.pool2, c.trader, c.rival, c.executor, c.operator}
    && c.pool1 != c.pool2 && c.tokenA != c.tokenB
    && c.trader !in {c.pool1, c.pool2, c.rival, c.executor, c.operator}
    && c.rival !in {c.pool1, c.pool2, c.executor, c.operator}
    && c.executor !in {c.pool1, c.pool2} && c.operator !in {c.pool1, c.pool2, c.executor}
    && |c.pool1.bytes| == ADDRESS_LENGTH && |c.pool2.bytes| == ADDRESS_LENGTH
  }

  function Account(n: Byte): Address
  {
    Address([0, 0, 0, 0, 0, 0, 0, 0, 0, 0, 0, 0, 0, 0, 0, 0, 0, 0, 0, n])
  }

  lemma AccountsDiffer(m: Byte, n: Byte)
    requires m != n
    ensures Account(m) != Account(n)
  {
    assert Account(m).bytes[19] == m && Account(n).bytes[19] == n;
  }

  /** There are enough addresses for everybody. */
  lemma SomeCast() returns (c: Cast)
    ensures Distinct(c)
  {
    c := Cast(Account(1), Account(2), Account(3), Account(4), Account(5), Account(6), Account(7), Account(8));
    assert Account(0) == ZERO_ADDRESS;
    forall m: Byte, n: Byte | m != n
      ensures Account(m) != Account(n)
    {
      AccountsDiffer(m, n);
    }
  }

  function Balances(x: Address, y: Address, z: Address, a: nat, b: nat, c: nat): map<Address, nat>
  {
    map[][x := a][y := b][z := c]
  }

  lemma SumOfThree(x: Address, y: Address, z: Address, a: nat, b: nat, c: nat)
    requires x != y && x != z && y != z
    ensures Sum(Balances(x, y, z, a, b, c)) == a + b + c
  {
    var m: map<Address, nat> := map[];
    SumUpdate(m, x, a);
    SumUpdate(m[x := a], y, b);
    SumUpdate(m[x := a][y := b], z, c);
  }

  function LedgerA(c: Cast): Token
  {
    Token(c.operator, 2070000, Balances(c.pool1, c.pool2, c.trader, 1000000, 1000000, 50000)[c.rival := 20000],
          map[(c.trader, c.pool1) := 50000][(c.rival, c.pool2) := 20000])
  }

  function LedgerB(c: Cast): Token
  {
    Token(c.operator, 1900000, Balances(c.pool1, c.pool2, c.executor, 800000, 1000000, 100000), map[])
  }

  /** Two pools of different prices, two traders with TokenA and an executor with TokenB. */
  function Before(c: Cast): World
  {
    World(map[c.tokenA := LedgerA(c)][c.tokenB := LedgerB(c)],
          map[c.pool1 := Dex(c.tokenA, c.tokenB, 1000000, 800000)]
             [c.pool2 := Dex(c.tokenA, c.tokenB, 1000000, 1000000)],
          c.executor, c.operator)
  }

  lemma LedgersOk(c: Cast)
    requires Distinct(c)
    ensures TokenOk(LedgerA(c)) && TokenOk(LedgerB(c))
  {
    WordValue();
    SumOfThree(c.pool1, c.pool2, c.trader, 1000000, 1000000, 50000);
    SumUpdate(Balances(c.pool1, c.pool2, c.trader, 1000000, 1000000, 50000), c.rival, 20000);
    SumOfThree(c.pool1, c.pool2, c.executor, 800000, 1000000, 100000);
  }

  lemma GrantNothing(c: Cast, a: Address)
    requires Distinct(c) && a != c.trader && a != c.rival
    ensures GrantsNothing(LedgerA(c), a) && GrantsNothing(LedgerB(c), a)
  {
  }

  lemma PoolsAreBacked(c: Cast, p: Address)
    requires Distinct(c) && (p == c.pool1 || p == c.pool2)
    ensures p in Before(c).pools && PoolOk(Before(c), p)
  {
  }

  /** A world of two ledgers and two pools is consistent when its parts are. */
  lemma TwoByTwo(w: World, a: Address, b: Address, p: Address, q: Address)
    requires w.tokens.Keys == {a, b} && w.pools.Keys == {p, q}
    requires TokenOk(w.tokens[a]) && TokenOk(w.tokens[b]) && PoolOk(w, p) && PoolOk(w, q)
    requires GrantsNothing(w.tokens[a], p) && GrantsNothing(w.tokens[a], q)
    requires GrantsNothing(w.tokens[b], p) && GrantsNothing(w.tokens[b], q)
    requires w.backrun !in w.pools && w.backrun != ZERO_ADDRESS
    ensures WorldOk(w)
  {
  }

  lemma BeforeOk(c: Cast)
    requires Distinct(c)
    ensures StateOk(Before(c))
  {
    LedgersOk(c);
    PoolsAreBacked(c, c.pool1);
    PoolsAreBacked(c, c.pool2);
    GrantNothing(c, c.pool1);
    GrantNothing(c, c.pool2);
    GrantNothing(c, c.executor);
    TwoByTwo(Before(c), c.tokenA, c.tokenB, c.pool1, c.pool2);
  }

  // ---------------------------------------------------------------- what Knight sees

  function Pool1(c: Cast): Pool { Pool(c.pool1, c.tokenA, c.tokenB) }

  function Pool2(c: Cast): Pool { Pool(c.pool2, c.tokenA, c.tokenB) }

  function Seen1(c: Cast): PoolSnapshot { (WordValue(); PoolSnapshot(Pool1(c), 1000000, 800000)) }

  function Seen2(c: Cast): PoolSnapshot { (WordValue(); PoolSnapshot(Pool2(c), 1000000, 1000000)) }

  const VICTIM_TIP: nat := 2

  function VictimSwap(): Swap
  {
    (WordValue(); Swap.SwapExactAForB(50000, 30000))
  }

  function VictimTx(c: Cast): Transaction
  {
    Transaction(c.trader, Some(c.pool1), 0, VICTIM_TIP, EncodedSwap(VictimSwap()))
  }

  function Victim(c: Cast): Candidate
  {
    Candidate(PendingTransaction("mp-1", 1, VictimTx(c)), Pool1(c), AForB)
  }

  function State(c: Cast): StateSnapshot
  {
    StateSnapshot(true, Some(0), [Seen1(c), Seen2(c)], Some(Victim(c)))
  }

  function AfterVictim(c: Cast): PoolSnapshot
  {
    (WordValue(); PoolSnapshot(Pool1(c), 1050000, 762014))
  }

  function Found(c: Cast): Opportunity
  {
    (WordValue(); Opportunity(Pool1(c), Pool2(c), 63602, 0, 0, 0, 80663, 74434, 10832))
  }

  function Config(c: Cast, tip: nat): BackrunConfig { BackrunConfig(c.operator, c.executor, tip) }

  function BackrunTx(c: Cast, tip: nat): Transaction
    requires Distinct(c)
  {
    Transaction(c.operator, Some(c.executor), 0, tip, Encoded(CallOf(Found(c))))
  }

  function TheJob(c: Cast, tip: nat): Job
    requires Distinct(c)
  {
    Job(State(c), VictimSwap(), Found(c), BackrunTx(c, tip),
        RawBundle([Ref("mp-1"), Raw(BackrunTx(c, tip))], Some(0)))
  }

  // ---------------------------------------------------------------- the numbers

  lemma QuoteIs(x: nat, reserveIn: nat, reserveOut: nat, out: nat)
    requires x > 0
    requires out * (1000 * reserveIn + 997 * x) <= Times(997 * x, reserveOut)
    requires Times(997 * x, reserveOut) < (out + 1) * (1000 * reserveIn + 997 * x)
    ensures ExactOut(x, reserveIn, reserveOut) == out
  {
    QuotientIs(Times(997 * x, reserveOut), 1000 * reserveIn + 997 * x, out);
  }

  /** In the order of the bundle ... */
  lemma TheQuotes()
    ensures ExactOut(50000, 1000000, 800000) == 37986
    ensures ExactOut(63602, 762014, 1050000) == 80663
    ensures ExactOut(80663, 1000000, 1000000) == 74434
    ensures Fits(50000, 1000000, 800000) && Fits(63602, 762014, 1050000) && Fits(80663, 1000000, 1000000)
  {
    WordValue();
    QuoteIs(50000, 1000000, 800000, 37986);
    QuoteIs(63602, 762014, 1050000, 80663);
    QuoteIs(80663, 1000000, 1000000, 74434);
  }

  /** ... and with the backrun first. */
  lemma TheOtherQuotes()
    ensures ExactOut(63602, 800000, 1000000) == 73442
    ensures ExactOut(73442, 1000000, 1000000) == 68226
    ensures ExactOut(50000, 926558, 863602) == 44090
    ensures Fits(63602, 800000, 1000000) && Fits(73442, 1000000, 1000000) && Fits(50000, 926558, 863602)
  {
    WordValue();
    QuoteIs(63602, 800000, 1000000, 73442);
    QuoteIs(73442, 1000000, 1000000, 68226);
    QuoteIs(50000, 926558, 863602, 44090);
  }

  lemma TheInput()
    ensures UnclampedInput(1043709450000000000, 762014000000000000, 2040709450000) == Some(63602)
  {
    FloorSqrtUnique(Times(1043709450000000000, 762014000000000000), 891807834027207904);
    QuotientIs(891807834027207904 - 762014000000000000, 2040709450000, 63602);
  }

  lemma ZeroBps(x: U256)
    ensures ApplyBps(x, 0) == 0
  {
    QuotientFloors(0, BPS_DENOMINATOR);
  }

  // ---------------------------------------------------------------- Knight's side

  lemma KnightPredictsVictim(c: Cast)
    requires Distinct(c)
    ensures VictimPoolAfter(State(c), Victim(c), VictimSwap(), RUNTIME_PARAMS) == Some(AfterVictim(c))
  {
    WordValue();
    TheQuotes();
    AmountOutExact(50000, 1000000, 800000);
    assert FindPoolSnapshot(State(c).pools, c.pool1) == Some(Seen1(c));
  }

  lemma KnightEvaluates(c: Cast)
    ensures EvaluatePool(AfterVictim(c), Seen2(c), RUNTIME_PARAMS) == Some(Found(c))
  {
    WordValue();
    TheQuotes();
    TheInput();
    OptimalAmountExact(AfterVictim(c), Seen2(c), RUNTIME_PARAMS);
    AmountOutExact(63602, 762014, 1050000);
    AmountOutExact(80663, 1000000, 1000000);
    ZeroBps(80663);
    ZeroBps(74434);
  }

  /** The search finds the other pool. */
  lemma KnightFinds(c: Cast)
    requires Distinct(c)
    ensures Search(State(c), Victim(c), VictimSwap(), RUNTIME_PARAMS) == Some(Found(c))
  {
    KnightPredictsVictim(c);
    TheOffers(c);
    var offers := Offers(State(c).pools, c.pool1, AfterVictim(c), VictimSwap(), RUNTIME_PARAMS);
    OnlyOffer(offers, Found(c));
  }

  lemma TheOffers(c: Cast)
    requires Distinct(c)
    ensures Offers(State(c).pools, c.pool1, AfterVictim(c), VictimSwap(), RUNTIME_PARAMS) == [None, Some(Found(c))]
  {
    KnightEvaluates(c);
  }

  lemma OnlyOffer(offers: seq<Option<Opportunity>>, o: Opportunity)
    requires offers == [None, Some(o)]
    ensures Best(offers) == Some(o)
  {
    assert EarliestMaximum(offers, 1);
    BestOfUnique(offers, Best(offers), Some(o));
  }

  lemma KnightDecodes(c: Cast)
    ensures DecodeSwap(AForB, VictimTx(c).input) == Some(VictimSwap())
    ensures SWAP_EXACT_A_FOR_B <= VictimTx(c).input
  {
    DecodeSwapExact(AForB, VictimTx(c).input, VictimSwap());
  }

  lemma KnightComposes(c: Cast, tip: nat)
    requires Distinct(c)
    ensures ComposeTx(Config(c, tip), Some(0), Found(c)) == Composed(BackrunTx(c, tip))
  {
  }

  lemma KnightPrepares(c: Cast, tip: nat)
    requires Distinct(c)
    ensures Prepare(State(c), Config(c, tip), Some(0)) == Some(TheJob(c, tip))
  {
    KnightDecodes(c);
    KnightFinds(c);
    KnightComposes(c, tip);
  }

  // ---------------------------------------------------------------- the chain's side

  function Genesis(c: Cast): Chain { Chain([], Block(Before(c), map[]), [], map[]) }

  lemma GenesisIsOk(c: Cast)
    requires Distinct(c)
    ensures ChainOk(Genesis(c))
  {
    BeforeOk(c);
  }

  function PoolOf(c: Cast, reserveA: nat, reserveB: nat): Dex { Dex(c.tokenA, c.tokenB, reserveA, reserveB) }

  predicate ReservesAre(c: Cast, pools: map<Address, Dex>, pool1: Dex, pool2: Dex)
  {
    pools.Keys == {c.pool1, c.pool2} && pools[c.pool1] == pool1 && pools[c.pool2] == pool2
  }

  /** A state with these reserves in which the executor holds this much TokenB. */
  ghost predicate StandsAt(c: Cast, w: World, pool1: Dex, pool2: Dex, held: nat)
  {
    && WorldOk(w) && w.backrun == c.executor && w.operator == c.operator
    && w.tokens.Keys == {c.tokenA, c.tokenB} && w.tokens[c.tokenB].Balance(c.executor) == held
    && ReservesAre(c, w.pools, pool1, pool2)
  }

  /** A trader's TokenA, granted to a pool. */
  predicate Funded(c: Cast, w: World, trader: Address, pool: Address, amount: nat)
  {
    && c.tokenA in w.tokens
    && w.tokens[c.tokenA].Balance(trader) == w.tokens[c.tokenA].Allowance(trader, pool) == amount
  }

  lemma StartsReady(c: Cast)
    requires Distinct(c)
    ensures StandsAt(c, Before(c), PoolOf(c, 1000000, 800000), PoolOf(c, 1000000, 1000000), 100000)
    ensures Funded(c, Before(c), c.trader, c.pool1, 50000) && Funded(c, Before(c), c.rival, c.pool2, 20000)
  {
    BeforeOk(c);
    LedgerFacts(c);
  }

  lemma LedgerFacts(c: Cast)
    requires Distinct(c)
    ensures LedgerA(c).Balance(c.trader) == 50000 && LedgerA(c).Allowance(c.trader, c.pool1) == 50000
    ensures LedgerA(c).Balance(c.rival) == 20000 && LedgerA(c).Allowance(c.rival, c.pool2) == 20000
    ensures LedgerB(c).Balance(c.executor) == 100000
  {
  }

  lemma KnightSeesChain(c: Cast)
    requires Distinct(c)
    ensures forall p :: p in State(c).pools ==> Shows(p, Before(c))
  {
  }

  // ---------------------------------------------------------------- swaps

  /** A trade moves nothing of anybody else. */
  lemma OthersKeep(c: Cast, w: World, w': World, pool: Address, trader: Address, x: nat, out: nat,
                   a: Address, s: Address)
    requires c.tokenA in w.tokens && c.tokenB in w.tokens && a != trader && a != pool
    requires Traded(w, w', pool, trader, c.tokenA, c.tokenB, x, out)
    ensures w'.tokens[c.tokenA].Balance(a) == w.tokens[c.tokenA].Balance(a)
    ensures w'.tokens[c.tokenB].Balance(a) == w.tokens[c.tokenB].Balance(a)
    ensures w'.tokens[c.tokenA].Allowance(a, s) == w.tokens[c.tokenA].Allowance(a, s)
  {
  }

  /** What a swap of x TokenA against these reserves leaves. */
  ghost predicate SwapDone(c: Cast, w: World, w': World, pool: Address, trader: Address,
                           a: nat, b: nat, x: nat, out: nat)
  {
    && out <= b && WorldOk(w') && c.tokenA in w.tokens && c.tokenB in w.tokens
    && Traded(w, w', pool, trader, c.tokenA, c.tokenB, x, out)
    && BooksPool(w.pools, w'.pools, pool, PoolOf(c, a + x, b - out))
  }

  predicate BooksPool(pools: map<Address, Dex>, pools': map<Address, Dex>, pool: Address, d: Dex)
  {
    pools'.Keys == pools.Keys && pool in pools && pools'[pool] == d
    && forall p :: p in pools && p != pool ==> pools'[p] == pools[p]
  }

  /** A trader whose TokenA suffices for a swap of that quote goes through. */
  lemma SwapAccepted(c: Cast, w: World, trader: Address, pool: Address, a: nat, b: nat, x: U256, min: U256, out: nat)
    returns (s: Swapped)
    requires Distinct(c) && WorldOk(w) && trader !in w.pools && trader != ZERO_ADDRESS
    requires pool in w.pools && w.pools[pool] == PoolOf(c, a, b) && Funded(c, w, trader, pool, x)
    requires x > 0 && a > 0 && b > 0 && Fits(x, a, b) && ExactOut(x, a, b) == out > 0 && out >= min
    ensures Ledger.SwapExactAForB(w, trader, pool, x, min) == Some(s)
    ensures SwapDone(c, w, s.world, pool, trader, a, b, x, out)
  {
    assert PoolOk(w, pool);
    SwapAForBAccepts(w, trader, pool, x, min);
    s := Ledger.SwapExactAForB(w, trader, pool, x, min).value;
    SwapAForBEffect(w, trader, pool, x, min, s);
    SwapAForBKeepsWorld(w, trader, pool, x, min, s);
    BooksSwap(c, w, s.world, pool, a, b, x, out);
  }

  lemma BooksSwap(c: Cast, w: World, w': World, pool: Address, a: nat, b: nat, x: nat, out: nat)
    requires c.tokenA != c.tokenB && pool in w.pools && w.pools[pool] == PoolOf(c, a, b) && out < b
    requires OnlyPoolChanges(w, w', pool) && Books(w.pools[pool], w'.pools[pool], c.tokenA, c.tokenB, x, out)
    ensures BooksPool(w.pools, w'.pools, pool, PoolOf(c, a + x, b - out))
  {
  }

  lemma FirstPoolStands(c: Cast, w: World, w': World, trader: Address, a: nat, b: nat, d2: Dex, held: nat,
                        x: nat, out: nat)
    requires Distinct(c) && StandsAt(c, w, PoolOf(c, a, b), d2, held) && trader != c.executor
    requires SwapDone(c, w, w', c.pool1, trader, a, b, x, out)
    ensures StandsAt(c, w', PoolOf(c, a + x, b - out), d2, held)
  {
    OthersKeep(c, w, w', c.pool1, trader, x, out, c.executor, c.pool1);
  }

  lemma SecondPoolStands(c: Cast, w: World, w': World, trader: Address, d1: Dex, a: nat, b: nat, held: nat,
                         x: nat, out: nat)
    requires Distinct(c) && StandsAt(c, w, d1, PoolOf(c, a, b), held) && trader != c.executor
    requires SwapDone(c, w, w', c.pool2, trader, a, b, x, out)
    ensures StandsAt(c, w', d1, PoolOf(c, a + x, b - out), held)
  {
    OthersKeep(c, w, w', c.pool2, trader, x, out, c.executor, c.pool1);
  }

  /** The trader's swap on the first pool, when its reserves give this quote. */
  lemma VictimAccepted(c: Cast, w: World, a: nat, b: nat, d2: Dex, held: nat, out: nat) returns (s: Swapped)
    requires Distinct(c) && StandsAt(c, w, PoolOf(c, a, b), d2, held) && Funded(c, w, c.trader, c.pool1, 50000)
    requires a > 0 && b > 0 && Fits(50000, a, b) && ExactOut(50000, a, b) == out >= 30000
    ensures ExecuteSwap(w, c.trader, c.pool1, VictimSwap()) == Some(s)
    ensures SwapDone(c, w, s.world, c.pool1, c.trader, a, b, 50000, out)
  {
    s := SwapAccepted(c, w, c.trader, c.pool1, a, b, 50000, 30000, out);
  }

  lemma VictimRunsOn(c: Cast, w: World, a: nat, b: nat, d2: Dex, held: nat, out: nat) returns (w': World)
    requires Distinct(c) && StandsAt(c, w, PoolOf(c, a, b), d2, held) && Funded(c, w, c.trader, c.pool1, 50000)
    requires a > 0 && b > 0 && Fits(50000, a, b) && ExactOut(50000, a, b) == out >= 30000
    ensures RunTx(w, VictimTx(c)) == Ran(w', true)
    ensures b >= out && StandsAt(c, w', PoolOf(c, a + 50000, b - out), d2, held)
  {
    var s := VictimAccepted(c, w, a, b, d2, held, out);
    FirstPoolStands(c, w, s.world, c.trader, a, b, d2, held, 50000, out);
    KnightDecodes(c);
    VictimRunsSwap(w, VictimTx(c), c.pool1, AForB, VictimSwap());
    w' := s.world;
  }

  // ---------------------------------------------------------------- the backrun

  lemma RunsOpportunity(c: Cast, tip: nat, w: World, e: Executed)
    requires Distinct(c) && w.backrun == c.executor && w.pools.Keys == {c.pool1, c.pool2}
    requires ExecuteOpportunity(w, c.operator, Found(c)) == Some(e)
    ensures RunTx(w, BackrunTx(c, tip)) == Ran(e.world, true)
  {
    KnightComposes(c, tip);
    ComposedRunsOpportunity(w, Config(c, tip), Some(0), Found(c), BackrunTx(c, tip));
  }

  /** Knight's backrun on any reserves on which its route does not lose. */
  lemma BackrunRunsOn(c: Cast, tip: nat, w: World, d1: Dex, d2: Dex, held: nat) returns (e: Executed)
    requires Distinct(c) && StandsAt(c, w, d1, d2, held) && held >= 63602
    requires d1.tokenA == d2.tokenA && d1.tokenB == d2.tokenB == c.tokenB
    requires RouteAccepts(d1, d2, 63602, 0, 0) && RouteOutB(d1, d2, 63602) >= 63602
    ensures ExecuteOpportunity(w, c.operator, Found(c)) == Some(e)
    ensures RunTx(w, BackrunTx(c, tip)) == Ran(e.world, true)
    ensures HoldingOf(e.world, c.tokenB) == held + RouteOutB(d1, d2, 63602) - 63602
  {
    BackrunAccepts(w, c.operator, c.pool1, c.pool2, 63602, 0, 0, 0);
    e := ExecuteOpportunity(w, c.operator, Found(c)).value;
    RunsOpportunity(c, tip, w, e);
    BackrunGain(w, c.operator, Found(c), e);
  }

  lemma BackrunGoes(c: Cast, tip: nat, w: World, d1: Dex, d2: Dex, held: nat, out: nat) returns (w': World)
    requires Distinct(c) && StandsAt(c, w, d1, d2, held) && held >= 63602
    requires d1.tokenA == d2.tokenA && d1.tokenB == d2.tokenB == c.tokenB
    requires RouteAccepts(d1, d2, 63602, 0, 0) && RouteOutB(d1, d2, 63602) == out >= 63602
    ensures RunTx(w, BackrunTx(c, tip)) == Ran(w', true) && HoldingOf(w', c.tokenB) == held + out - 63602
  {
    var e := BackrunRunsOn(c, tip, w, d1, d2, held);
    w' := e.world;
  }

  // ---------------------------------------------------------------- both orders

  lemma RouteInOrder(c: Cast)
    ensures var d1, d2 := PoolOf(c, 1050000, 762014), PoolOf(c, 1000000, 1000000);
            RouteAccepts(d1, d2, 63602, 0, 0) && RouteOutB(d1, d2, 63602) == 74434
  {
    TheQuotes();
  }

  lemma VictimFirst(c: Cast) returns (w: World)
    requires Distinct(c)
    ensures RunTx(Before(c), VictimTx(c)) == Ran(w, true)
    ensures StandsAt(c, w, PoolOf(c, 1050000, 762014), PoolOf(c, 1000000, 1000000), 100000)
  {
    StartsReady(c);
    TheQuotes();
    w := VictimRunsOn(c, Before(c), 1000000, 800000, PoolOf(c, 1000000, 1000000), 100000, 37986);
  }

  lemma VictimThenBackrun(c: Cast, tip: nat) returns (w1: World, w2: World)
    requires Distinct(c)
    ensures RunTx(Before(c), VictimTx(c)) == Ran(w1, true) && RunTx(w1, BackrunTx(c, tip)) == Ran(w2, true)
  {
    w1 := VictimFirst(c);
    RouteInOrder(c);
    w2 := BackrunGoes(c, tip, w1, PoolOf(c, 1050000, 762014), PoolOf(c, 1000000, 1000000), 100000, 74434);
  }

  /** Before the victim the backrun earns less ... */
  lemma BackrunRunsFirst(c: Cast, tip: nat) returns (e: Executed)
    requires Distinct(c)
    ensures ExecuteOpportunity(Before(c), c.operator, Found(c)) == Some(e)
    ensures RunTx(Before(c), BackrunTx(c, tip)) == Ran(e.world, true)
    ensures StandsAt(c, e.world, PoolOf(c, 926558, 863602), PoolOf(c, 1073442, 931774), 104624)
    ensures Funded(c, e.world, c.trader, c.pool1, 50000)
  {
    var d1, d2 := PoolOf(c, 1000000, 800000), PoolOf(c, 1000000, 1000000);
    StartsReady(c);
    TheOtherQuotes();
    e := BackrunRunsOn(c, tip, Before(c), d1, d2, 100000);
    BackrunEffect(Before(c), c.operator, c.pool1, c.pool2, 63602, 0, 0, 0, e);
    AfterBackrun(c, Before(c), e.world, d1, d2, 100000);
  }

  /** ... and leaves the trader alone. */
  lemma AfterBackrun(c: Cast, w: World, w': World, d1: Dex, d2: Dex, held: nat)
    requires Distinct(c) && StandsAt(c, w, d1, d2, held) && Funded(c, w, c.trader, c.pool1, 50000)
    requires d1 == PoolOf(c, 1000000, 800000) && d2 == PoolOf(c, 1000000, 1000000) && PoolOk(w, c.pool1)
    requires BackrunDone(w, w', c.pool1, c.pool2, 63602, 73442, 68226)
    requires w'.backrun == w.backrun && w'.operator == w.operator
    ensures StandsAt(c, w', PoolOf(c, 926558, 863602), PoolOf(c, 1073442, 931774), held + 4624)
    ensures Funded(c, w', c.trader, c.pool1, 50000)
  {
    DoneHolding(w, w', c.pool1, c.pool2, 63602, 73442, 68226, c.tokenB);
    PoolsAfter(c, w.pools, w'.pools);
  }

  lemma PoolsAfter(c: Cast, pools: map<Address, Dex>, pools': map<Address, Dex>)
    requires c.pool1 != c.pool2 && c.tokenA != c.tokenB && pools'.Keys == pools.Keys
    requires ReservesAre(c, pools, PoolOf(c, 1000000, 800000), PoolOf(c, 1000000, 1000000))
    requires Books(pools[c.pool1], pools'[c.pool1], c.tokenB, c.tokenA, 63602, 73442)
    requires Books(pools[c.pool2], pools'[c.pool2], c.tokenA, c.tokenB, 73442, 68226)
    ensures ReservesAre(c, pools', PoolOf(c, 926558, 863602), PoolOf(c, 1073442, 931774))
  {
  }

  lemma BackrunThenVictim(c: Cast, tip: nat) returns (w1: World, w2: World)
    requires Distinct(c)
    ensures RunTx(Before(c), BackrunTx(c, tip)) == Ran(w1, true) && RunTx(w1, VictimTx(c)) == Ran(w2, true)
    ensures HoldingOf(w2, c.tokenB) == 104624
  {
    var e := BackrunRunsFirst(c, tip);
    TheOtherQuotes();
    w1 := e.world;
    w2 := VictimRunsOn(c, w1, 926558, 863602, PoolOf(c, 1073442, 931774), 104624, 44090);
  }

  // ---------------------------------------------------------------- the block

  /** A transaction that goes through, with its sender's next nonce. */
  function Included(m: Mining, tx: Transaction, w: World, number: nat): Mining
  {
    Mining(Block(w, m.block.nonces[tx.from := tx.nonce + 1]), m.left, m.receipts[tx := Receipt(true, number)])
  }

  lemma Includes(m: Mining, tx: Transaction, w: World, number: nat)
    requires tx.nonce == Nonce(m.block, tx.from) && RunTx(m.block.world, tx) == Ran(w, true)
    ensures Include(m, tx, number) == Included(m, tx, w, number)
  {
  }

  lemma OtherNonces(m: Mining, tx: Transaction, w: World, number: nat, a: Address)
    requires a != tx.from
    ensures Nonce(Included(m, tx, w, number).block, a) == Nonce(m.block, a)
  {
  }

  /** Two of them, of different senders. */
  lemma {:induction false} TwoRan(ch: Chain, x: Transaction, y: Transaction, w1: World, w2: World)
    requires x.from != y.from && x.nonce == Nonce(ch.latest, x.from) && y.nonce == Nonce(ch.latest, y.from)
    requires RunTx(ch.latest.world, x) == Ran(w1, true) && RunTx(w1, y) == Ran(w2, true)
    ensures var m0, number := Mining(ch.latest, [], ch.receipts), Head(ch) + 1;
            Built(ch, [x, y]) == Included(Included(m0, x, w1, number), y, w2, number)
  {
    var m0, number := Mining(ch.latest, [], ch.receipts), Head(ch) + 1;
    var m1 := Included(m0, x, w1, number);
    OtherNonces(m0, x, w1, number, y.from);
    Includes(m0, x, w1, number);
    Includes(m1, y, w2, number);
    IncludeTwo(m0, x, y, number);
  }

  lemma {:induction false} IncludeTwo(m: Mining, x: Transaction, y: Transaction, number: nat)
    ensures IncludeAll(m, [x, y], number) == Include(Include(m, x, number), y, number)
  {
    var one, two := [x], [x, y];
    assert one[..|one| - 1] == [] && two[..|two| - 1] == one;
    assert IncludeAll(m, [], number) == m;
    assert IncludeAll(m, one, number) == Include(m, x, number);
  }

  /** A bundle whose transactions succeed in the block of the pool and them is reported as
      included, when every RPC answers. */
  lemma {:induction false} ReportedIncluded(ch: Chain, items: seq<Item>, x: Transaction, y: Transaction)
    returns (r: BundleResult)
    requires |items| == 2 && items[0].tx == x && items[1].tx == y
    requires x.nonce >= Nonce(ch.latest, x.from) && y.nonce >= Nonce(ch.latest, y.from)
    requires Succeeded(Built(ch, ByTip(ch.pool + [x, y])).receipts, x)
    requires Succeeded(Built(ch, ByTip(ch.pool + [x, y])).receipts, y)
    ensures ExecuteBundle(ch, items, CLEAN).result == Some(r) && r.included
    ensures ExecuteBundle(ch, items, CLEAN).chain.latest == Built(ch, ByTip(ch.pool + [x, y])).block
  {
    var c' := MineBlock(ch.(pool := ch.pool + [x, y]));
    SendsBoth(ch, items, x, y);
    MinedIsBuilt(ch, ch.pool + [x, y]);
    r := BundleResult(true, Results(c', items, {}));
    assert ResultOf(c', items[0], false).status.Included?;
    assert ResultOf(c', items[1], false).status.Included?;
  }

  lemma {:induction false} SendsBoth(ch: Chain, items: seq<Item>, x: Transaction, y: Transaction)
    requires |items| == 2 && items[0].tx == x && items[1].tx == y
    requires x.nonce >= Nonce(ch.latest, x.from) && y.nonce >= Nonce(ch.latest, y.from)
    ensures SendAll(ch, items, CLEAN) == Sent(ch.(pool := ch.pool + [x, y]), true)
  {
    SendAllOk(ch, items, CLEAN);
    SentNonces(ch, items, CLEAN);
    assert Txs(items) == [x, y];
  }

  /** In either order both transactions go through; the executor's TokenB tells the orders apart. */
  lemma BothSucceed(c: Cast, tip: nat)
    requires Distinct(c)
    ensures var m := Built(Genesis(c), ByTip([VictimTx(c), BackrunTx(c, tip)]));
            && Succeeded(m.receipts, VictimTx(c)) && Succeeded(m.receipts, BackrunTx(c, tip))
            && (tip > VICTIM_TIP ==> HoldingOf(m.block.world, c.tokenB) == 104624)
  {
    var v, b := VictimTx(c), BackrunTx(c, tip);
    PairOrder(v, b);
    if tip > VICTIM_TIP {
      var w1, w2 := BackrunThenVictim(c, tip);
      TwoRan(Genesis(c), b, v, w1, w2);
    } else {
      var w1, w2 := VictimThenBackrun(c, tip);
      TwoRan(Genesis(c), v, b, w1, w2);
    }
  }

  // ---------------------------------------------------------------- the whole run

  function TheSetting(c: Cast, tip: nat): FirstRun.Setting
    requires Distinct(c)
  {
    FirstRun.Setting(Genesis(c), [Pool1(c), Pool2(c)], [Seen1(c), Seen2(c)], "mp-1", Victim(c), Config(c, tip),
                     TheJob(c, tip))
  }

  lemma KnightReads(c: Cast)
    requires Distinct(c)
    ensures ReadAll(Before(c), [Pool1(c), Pool2(c)]) == Some([Seen1(c), Seen2(c)])
  {
    WordValue();
    ReadTwo(Before(c), Pool1(c), Pool2(c), Seen1(c), Seen2(c));
  }

  lemma {:induction false} ReadTwo(w: World, p: Pool, q: Pool, x: PoolSnapshot, y: PoolSnapshot)
    requires ReadPool(w, p) == Some(x) && ReadPool(w, q) == Some(y)
    ensures ReadAll(w, [p, q]) == Some([x, y])
  {
    var one, two := [p], [p, q];
    assert one[..|one| - 1] == [] && two[..|two| - 1] == one;
    assert ReadAll(w, []) == Some([]) && [] + [x] == [x] && [x] + [y] == [x, y];
    assert ReadAll(w, one) == Some([] + [x]);
    assert ReadAll(w, two) == Some([x] + [y]);
  }

  lemma SettingIsOk(c: Cast, tip: nat)
    requires Distinct(c)
    ensures FirstRun.SettingOk(TheSetting(c, tip))
  {
    KnightReads(c);
    KnightDecodes(c);
    KnightPrepares(c, tip);
  }

  function TheItems(c: Cast, tip: nat): seq<Item>
    requires Distinct(c)
  {
    [Item(Some("mp-1"), VictimTx(c)), Item(None, BackrunTx(c, tip))]
  }

  lemma BuilderParses(c: Cast, tip: nat)
    requires Distinct(c)
    ensures Parse(FirstRun.Pending(TheSetting(c, tip)).mempool, TheJob(c, tip).bundle) == Bundles.Good(TheItems(c, tip))
  {
    var m := FirstRun.Pending(TheSetting(c, tip)).mempool;
    ParseTwo(m, Ref("mp-1"), Raw(BackrunTx(c, tip)), TheItems(c, tip)[0], TheItems(c, tip)[1]);
  }

  lemma {:induction false} ParseTwo(m: MempoolState, p: RawItem, q: RawItem, x: Item, y: Item)
    requires ParseItem(m, p) == Bundles.Good(x) && ParseItem(m, q) == Bundles.Good(y)
    ensures ParseItems(m, [p, q]) == Bundles.Good([x, y])
  {
    var one, two := [p], [p, q];
    assert one[..|one| - 1] == [] && two[..|two| - 1] == one;
    assert ParseItems(m, []) == Bundles.Good([]) && [] + [x] == [x] && [x] + [y] == [x, y];
    assert ParseItems(m, one) == Bundles.Good([] + [x]);
    assert ParseItems(m, two) == Bundles.Good([x] + [y]);
  }

  /** The builder simulates the bundle as included and mines it, in either order. */
  lemma BuilderIncludes(c: Cast, tip: nat) returns (r: BundleResult)
    requires Distinct(c)
    ensures var b, raw := FirstRun.Pending(TheSetting(c, tip)), TheJob(c, tip).bundle;
            && Simulate(b, raw, CLEAN).response == Ok(r) && r.included
            && Mine(b, raw, CLEAN).response == Ok(r) && MinesBlock(b, raw, CLEAN)
            && Mine(b, raw, CLEAN).builder.chain.latest
               == Built(Genesis(c), ByTip([VictimTx(c), BackrunTx(c, tip)])).block
  {
    var x := TheSetting(c, tip);
    BuilderParses(c, tip);
    BothSucceed(c, tip);
    assert Genesis(c).pool + [VictimTx(c), BackrunTx(c, tip)] == [VictimTx(c), BackrunTx(c, tip)];
    r := ReportedIncluded(Genesis(c), TheItems(c, tip), VictimTx(c), BackrunTx(c, tip));
    BuilderIsOk(c, tip);
    SimulationForetells(FirstRun.Pending(x), TheJob(c, tip).bundle, CLEAN, CLEAN, r);
    MinesBlockExactly(FirstRun.Pending(x), TheJob(c, tip).bundle, CLEAN);
  }

  lemma BuilderIsOk(c: Cast, tip: nat)
    requires Distinct(c)
    ensures BuilderOk(FirstRun.Before(TheSetting(c, tip))) && BuilderOk(FirstRun.Pending(TheSetting(c, tip)))
  {
    GenesisIsOk(c);
  }

  // ---------------------------------------------------------------- what happens

  function TheActs(c: Cast, tip: nat, link: Link): seq<Act>
    requires Distinct(c)
  {
    FirstRun.UpToSubmission(TheSetting(c, tip)) + [TrySubmit(link, CLEAN)]
  }

  function TheRun(c: Cast, tip: nat, link: Link): Pipe
    requires Distinct(c)
  {
    DoAll(FirstRun.Begin(TheSetting(c, tip)), TheActs(c, tip, link))
  }

  lemma TheBundleIsMined(c: Cast, tip: nat, link: Link) returns (r: BundleResult)
    requires Distinct(c) && !link.NotSent?
    ensures var b := FirstRun.Pending(TheSetting(c, tip));
            && TheRun(c, tip, link).mined == [Mined(1, TheJob(c, tip), b, CLEAN)]
            && Mine(b, TheJob(c, tip).bundle, CLEAN).response == Ok(r) && r.included
  {
    SettingIsOk(c, tip);
    r := BuilderIncludes(c, tip);
    FirstRun.MinesTheBundle(TheSetting(c, tip), r, link);
  }

  /** A run that meets every hypothesis of MinedBundleEarns: one bundle is mined, and it earns the
      10832 TokenB that the search expected. */
  lemma SomebodyEarns() returns (pools: seq<Pool>, builder: BuilderState, config: BackrunConfig, acts: seq<Act>,
                                 s: Swapped, e: Executed)
    ensures BuilderOk(builder)
    ensures var p := DoAll(Start(Init(pools, builder), config, 0), acts);
            && |p.mined| == 1 && p.mined[0].job.state.candidate.Some?
            && p.mined[0].job.opportunity.expectedProfitB == 10832
            && Earned(p.mined[0], config, s, e)
  {
    var c := SomeCast();
    var x := TheSetting(c, VICTIM_TIP);
    pools, builder, config, acts := x.pools, FirstRun.Before(x), x.config, TheActs(c, VICTIM_TIP, Answered);
    BuilderIsOk(c, VICTIM_TIP);
    var r := TheBundleIsMined(c, VICTIM_TIP, Answered);
    s, e := MinedBundleEarns(pools, builder, config, 0, acts, 0, r);
  }

  /** The tips matter: in the same run with a backrun that outbids its victim, the bundle is
      included as well, but the backrun runs first and earns 4624. */
  lemma OutbiddingEarnsLess() returns (pools: seq<Pool>, builder: BuilderState, config: BackrunConfig, acts: seq<Act>,
                                       r: BundleResult)
    ensures BuilderOk(builder) && builder.chain.pool == []
    ensures var p := DoAll(Start(Init(pools, builder), config, 0), acts);
            && |p.mined| == 1 && p.mined[0].before.chain == builder.chain
            && Mine(p.mined[0].before, p.mined[0].job.bundle, p.mined[0].faults).response == Ok(r) && r.included
            && p.mined[0].job.opportunity.expectedProfitB == 10832
            && BlockGain(p.mined[0]) == 4624
  {
    var c := SomeCast();
    var tip := VICTIM_TIP + 1;
    var x := TheSetting(c, tip);
    pools, builder, config, acts := x.pools, FirstRun.Before(x), x.config, TheActs(c, tip, Answered);
    BuilderIsOk(c, tip);
    r := TheBundleIsMined(c, tip, Answered);
    OutbidGain(c, tip);
  }

  /** What the executor gained in TokenB over the block of a mined bundle. */
  function BlockGain(m: Mined): int
  {
    HoldingOf(Mine(m.before, m.job.bundle, m.faults).builder.chain.latest.world, m.job.opportunity.buyPool.tokenB)
    - HoldingOf(m.before.chain.latest.world, m.job.opportunity.buyPool.tokenB)
  }

  lemma OutbidGain(c: Cast, tip: nat)
    requires Distinct(c) && tip > VICTIM_TIP
    ensures BlockGain(Mined(1, TheJob(c, tip), FirstRun.Pending(TheSetting(c, tip)), CLEAN)) == 4624
  {
    var r := BuilderIncludes(c, tip);
    BothSucceed(c, tip);
    LedgerFacts(c);
  }

  // ---------------------------------------------------------------- a rival in the pool

  const RIVAL_TIP: nat := VICTIM_TIP

  function RivalSwap(): Swap
  {
    (WordValue(); Swap.SwapExactAForB(20000, 1))
  }

  function RivalTx(c: Cast): Transaction
  {
    Transaction(c.rival, Some(c.pool2), 0, RIVAL_TIP, EncodedSwap(RivalSwap()))
  }

  /** The pool matters: with a rival's swap of an equal tip already waiting, the bundle is included
      as well, but the swap runs first and the executor earns 8051. */
  lemma WaitingSwapEarnsLess() returns (ch: Chain, items: seq<Item>, r: BundleResult, config: BackrunConfig,
                                        state: StateSnapshot, candidate: Candidate, swap: Swap, o: Opportunity)
    ensures ChainOk(ch) && config.contract == ch.latest.world.backrun
    ensures |items| == 2 && items[0].tx == candidate.tx.tx && items[1].tx.tip == items[0].tx.tip
    ensures |ch.pool| == 1 && ch.pool[0].tip == items[1].tx.tip
    ensures ch.pool[0].from != items[0].tx.from && ch.pool[0].from != items[1].tx.from
    ensures Predicts(state, candidate, swap, RUNTIME_PARAMS, o, config, Some(0), items[1].tx)
    ensures forall p :: p in state.pools ==> Shows(p, ch.latest.world)
    ensures ExecuteBundle(ch, items, CLEAN).result == Some(r) && r.included
    ensures o.expectedProfitB == 10832
    ensures HoldingOf(ExecuteBundle(ch, items, CLEAN).chain.latest.world, o.buyPool.tokenB)
            == HoldingOf(ch.latest.world, o.buyPool.tokenB) + 8051
  {
    var c := SomeCast();
    ch, items, config := Waiting(c), TheItems(c, VICTIM_TIP), Config(c, VICTIM_TIP);
    state, candidate, swap, o := State(c), Victim(c), VictimSwap(), Found(c);
    WaitingIsOk(c);
    KnightPredicts(c, VICTIM_TIP);
    KnightSeesChain(c);
    r := WaitingIncluded(c);
  }

  function Waiting(c: Cast): Chain { Genesis(c).(pool := [RivalTx(c)]) }

  lemma WaitingIsOk(c: Cast)
    requires Distinct(c)
    ensures ChainOk(Waiting(c))
  {
    BeforeOk(c);
  }

  lemma KnightPredicts(c: Cast, tip: nat)
    requires Distinct(c)
    ensures Predicts(State(c), Victim(c), VictimSwap(), RUNTIME_PARAMS, Found(c), Config(c, tip), Some(0),
                     BackrunTx(c, tip))
  {
    KnightFinds(c);
    KnightDecodes(c);
    KnightComposes(c, tip);
  }

  lemma WaitingIncluded(c: Cast) returns (r: BundleResult)
    requires Distinct(c)
    ensures ExecuteBundle(Waiting(c), TheItems(c, VICTIM_TIP), CLEAN).result == Some(r) && r.included
    ensures HoldingOf(ExecuteBundle(Waiting(c), TheItems(c, VICTIM_TIP), CLEAN).chain.latest.world, c.tokenB)
            == HoldingOf(Before(c), c.tokenB) + 8051
  {
    var x, v, b := RivalTx(c), VictimTx(c), BackrunTx(c, VICTIM_TIP);
    RivalFirst(c);
    assert Waiting(c).pool + [v, b] == [x, v, b];
    r := ReportedIncluded(Waiting(c), TheItems(c, VICTIM_TIP), v, b);
  }

  /** All three go through, the rival's swap first. */
  lemma RivalFirst(c: Cast)
    requires Distinct(c)
    ensures var v, b := VictimTx(c), BackrunTx(c, VICTIM_TIP);
            var m := Built(Waiting(c), ByTip([RivalTx(c), v, b]));
            && Succeeded(m.receipts, v) && Succeeded(m.receipts, b)
            && HoldingOf(m.block.world, c.tokenB) == HoldingOf(Before(c), c.tokenB) + 8051
  {
    var w1, w2, w3 := RivalThenPair(c);
    EqualTips(RivalTx(c), VictimTx(c), BackrunTx(c, VICTIM_TIP));
    ThreeRan(Waiting(c), RivalTx(c), VictimTx(c), BackrunTx(c, VICTIM_TIP), w1, w2, w3);
    LedgerFacts(c);
  }

  lemma EqualTips(x: Transaction, y: Transaction, z: Transaction)
    requires x.tip == y.tip == z.tip
    ensures ByTip([x, y, z]) == [x, y, z]
  {
    var all := [x, y, z];
    assert all[..|all| - 1] == [x, y];
    PairOrder(x, y);
  }

  lemma {:induction false} ThreeRan(ch: Chain, x: Transaction, y: Transaction, z: Transaction,
                                    w1: World, w2: World, w3: World)
    requires x.from != y.from && x.from != z.from && y.from != z.from
    requires x.nonce == Nonce(ch.latest, x.from) && y.nonce == Nonce(ch.latest, y.from)
    requires z.nonce == Nonce(ch.latest, z.from)
    requires RunTx(ch.latest.world, x) == Ran(w1, true) && RunTx(w1, y) == Ran(w2, true)
    requires RunTx(w2, z) == Ran(w3, true)
    ensures var m0, number := Mining(ch.latest, [], ch.receipts), Head(ch) + 1;
            Built(ch, [x, y, z]) == Included(Included(Included(m0, x, w1, number), y, w2, number), z, w3, number)
  {
    var m0, number := Mining(ch.latest, [], ch.receipts), Head(ch) + 1;
    var m2 := Included(Included(m0, x, w1, number), y, w2, number);
    TwoRan(ch, x, y, w1, w2);
    OtherNonces(m0, x, w1, number, z.from);
    OtherNonces(Included(m0, x, w1, number), y, w2, number, z.from);
    Includes(m2, z, w3, number);
    var all := [x, y, z];
    assert all[..|all| - 1] == [x, y];
  }

  lemma RivalQuotes()
    ensures ExactOut(20000, 1000000, 1000000) == 19550 && Fits(20000, 1000000, 1000000)
    ensures ExactOut(80663, 1020000, 980450) == 71653 && Fits(80663, 1020000, 980450)
  {
    WordValue();
    QuoteIs(20000, 1000000, 1000000, 19550);
    QuoteIs(80663, 1020000, 980450, 71653);
  }

  lemma RivalDecodes(c: Cast)
    ensures DecodeSwap(AForB, RivalTx(c).input) == Some(RivalSwap())
  {
    DecodeSwapExact(AForB, RivalTx(c).input, RivalSwap());
  }

  /** The rival's swap on the second pool. */
  lemma RivalRuns(c: Cast) returns (w: World)
    requires Distinct(c)
    ensures RunTx(Before(c), RivalTx(c)) == Ran(w, true)
    ensures StandsAt(c, w, PoolOf(c, 1000000, 800000), PoolOf(c, 1020000, 980450), 100000)
    ensures Funded(c, w, c.trader, c.pool1, 50000)
  {
    StartsReady(c);
    w := RivalRunsOn(c, Before(c));
  }

  lemma RivalRunsOn(c: Cast, w: World) returns (w': World)
    requires Distinct(c) && StandsAt(c, w, PoolOf(c, 1000000, 800000), PoolOf(c, 1000000, 1000000), 100000)
    requires Funded(c, w, c.rival, c.pool2, 20000) && Funded(c, w, c.trader, c.pool1, 50000)
    ensures RunTx(w, RivalTx(c)) == Ran(w', true)
    ensures StandsAt(c, w', PoolOf(c, 1000000, 800000), PoolOf(c, 1020000, 980450), 100000)
    ensures Funded(c, w', c.trader, c.pool1, 50000)
  {
    var s := RivalAccepted(c, w);
    AfterRival(c, w, s.world);
    RivalDecodes(c);
    VictimRunsSwap(w, RivalTx(c), c.pool2, AForB, RivalSwap());
    w' := s.world;
  }

  lemma AfterRival(c: Cast, w: World, w': World)
    requires Distinct(c) && StandsAt(c, w, PoolOf(c, 1000000, 800000), PoolOf(c, 1000000, 1000000), 100000)
    requires Funded(c, w, c.trader, c.pool1, 50000)
    requires SwapDone(c, w, w', c.pool2, c.rival, 1000000, 1000000, 20000, 19550)
    ensures StandsAt(c, w', PoolOf(c, 1000000, 800000), PoolOf(c, 1020000, 980450), 100000)
    ensures Funded(c, w', c.trader, c.pool1, 50000)
  {
    SecondPoolStands(c, w, w', c.rival, PoolOf(c, 1000000, 800000), 1000000, 1000000, 100000, 20000, 19550);
    OthersKeep(c, w, w', c.pool2, c.rival, 20000, 19550, c.trader, c.pool1);
  }

  lemma RivalAccepted(c: Cast, w: World) returns (s: Swapped)
    requires Distinct(c) && StandsAt(c, w, PoolOf(c, 1000000, 800000), PoolOf(c, 1000000, 1000000), 100000)
    requires Funded(c, w, c.rival, c.pool2, 20000)
    ensures ExecuteSwap(w, c.rival, c.pool2, RivalSwap()) == Some(s)
    ensures SwapDone(c, w, s.world, c.pool2, c.rival, 1000000, 1000000, 20000, 19550)
  {
    RivalQuotes();
    s := SwapAccepted(c, w, c.rival, c.pool2, 1000000, 1000000, 20000, 1, 19550);
  }

  lemma RouteAfterRival(c: Cast)
    ensures var d1, d2 := PoolOf(c, 1050000, 762014), PoolOf(c, 1020000, 980450);
            RouteAccepts(d1, d2, 63602, 0, 0) && RouteOutB(d1, d2, 63602) == 71653
  {
    TheQuotes();
    RivalQuotes();
  }

  lemma VictimAfterRival(c: Cast, w: World) returns (w': World)
    requires Distinct(c) && StandsAt(c, w, PoolOf(c, 1000000, 800000), PoolOf(c, 1020000, 980450), 100000)
    requires Funded(c, w, c.trader, c.pool1, 50000)
    ensures RunTx(w, VictimTx(c)) == Ran(w', true)
    ensures StandsAt(c, w', PoolOf(c, 1050000, 762014), PoolOf(c, 1020000, 980450), 100000)
  {
    TheQuotes();
    w' := VictimRunsOn(c, w, 1000000, 800000, PoolOf(c, 1020000, 980450), 100000, 37986);
  }

  lemma RivalThenPair(c: Cast) returns (w1: World, w2: World, w3: World)
    requires Distinct(c)
    ensures RunTx(Before(c), RivalTx(c)) == Ran(w1, true) && RunTx(w1, VictimTx(c)) == Ran(w2, true)
    ensures RunTx(w2, BackrunTx(c, VICTIM_TIP)) == Ran(w3, true) && HoldingOf(w3, c.tokenB) == 108051
  {
    w1 := RivalRuns(c);
    w2 := VictimAfterRival(c, w1);
    RouteAfterRival(c);
    w3 := BackrunGoes(c, VICTIM_TIP, w2, PoolOf(c, 1050000, 762014), PoolOf(c, 1020000, 980450), 100000, 71653);
  }
}
