/** The mirrored victim: a trader swaps 100000 TokenB into the first of two equal pools, and Knight
    prepares a bundle that buys TokenA from the other pool and sells it to that one. */
module BForAScenario {
  import opened Common
  import opened Domain
  import opened ConstantProduct
  import opened IntegerSqrt
  import opened Calculator
  import opened Optimality
  import opened FindArbitrage
  import opened Abi
  import opened Bundles
  import opened TxComposer
  import opened Pipeline
  import opened Scenario
  import opened RuntimeDecides

  function Level(p: Pool): PoolSnapshot { (WordValue(); PoolSnapshot(p, 1000000, 1000000)) }

  function MirrorSwap(): Swap { (WordValue(); Swap.SwapExactBForA(100000, 90000)) }

  function MirrorVictim(c: Cast): Candidate
  {
    Candidate(PendingTransaction("mp-1", 1, Transaction(c.trader, Some(c.pool1), 0, 2, EncodedSwap(MirrorSwap()))),
              Pool1(c), BForA)
  }

  function MirrorState(c: Cast): StateSnapshot
  {
    StateSnapshot(true, Some(0), [Level(Pool1(c)), Level(Pool2(c))], Some(MirrorVictim(c)))
  }

  function AfterMirror(c: Cast): PoolSnapshot { (WordValue(); PoolSnapshot(Pool1(c), 909339, 1100000)) }

  function MirrorFound(c: Cast): Opportunity
  {
    (WordValue(); Opportunity(Pool2(c), Pool1(c), 46193, 0, 0, 0, 44026, 50652, 4459))
  }

  lemma MirrorQuotes()
    ensures ExactOut(100000, 1000000, 1000000) == 90661 && Fits(100000, 1000000, 1000000)
    ensures ExactOut(46193, 1000000, 1000000) == 44026 && Fits(46193, 1000000, 1000000)
    ensures ExactOut(44026, 909339, 1100000) == 50652 && Fits(44026, 909339, 1100000)
  {
    WordValue();
    QuoteIs(100000, 1000000, 1000000, 90661);
    QuoteIs(46193, 1000000, 1000000, 44026);
    QuoteIs(44026, 909339, 1100000, 50652);
  }

  lemma MirrorInput()
    ensures UnclampedInput(1093409900000000000, 909339000000000000, 1900619983000) == Some(46193)
  {
    FloorSqrtUnique(Times(1093409900000000000, 909339000000000000), 997136031369892881);
    QuotientIs(997136031369892881 - 909339000000000000, 1900619983000, 46193);
  }

  lemma MirrorPredicted(c: Cast)
    requires Distinct(c)
    ensures VictimPoolAfter(MirrorState(c), MirrorVictim(c), MirrorSwap(), RUNTIME_PARAMS) == Some(AfterMirror(c))
  {
    WordValue();
    MirrorQuotes();
    AmountOutExact(100000, 1000000, 1000000);
    assert FindPoolSnapshot(MirrorState(c).pools, c.pool1) == Some(Level(Pool1(c)));
  }

  lemma MirrorEvaluated(c: Cast)
    ensures EvaluatePool(Level(Pool2(c)), AfterMirror(c), RUNTIME_PARAMS) == Some(MirrorFound(c))
  {
    WordValue();
    MirrorQuotes();
    MirrorInput();
    OptimalAmountExact(Level(Pool2(c)), AfterMirror(c), RUNTIME_PARAMS);
    AmountOutExact(46193, 1000000, 1000000);
    AmountOutExact(44026, 909339, 1100000);
    ZeroBps(44026);
    ZeroBps(50652);
  }

  lemma MirrorOffers(c: Cast)
    requires Distinct(c)
    ensures Offers(MirrorState(c).pools, c.pool1, AfterMirror(c), MirrorSwap(), RUNTIME_PARAMS)
            == [None, Some(MirrorFound(c))]
  {
    MirrorEvaluated(c);
  }

  lemma MirrorIsFound(c: Cast)
    requires Distinct(c)
    ensures Finds(MirrorState(c), MirrorSwap(), MirrorFound(c))
  {
    MirrorPredicted(c);
    MirrorOffers(c);
    OnlyOffer(Offers(MirrorState(c).pools, c.pool1, AfterMirror(c), MirrorSwap(), RUNTIME_PARAMS), MirrorFound(c));
  }

  /** Knight prepares a bundle behind a B-for-A victim, in the opposite direction. */
  lemma MirrorIsPrepared() returns (state: StateSnapshot, config: BackrunConfig, job: Job)
    ensures state.candidate.Some? && state.candidate.value.swapKind == BForA
    ensures Prepare(state, config, Some(0)) == Some(job) && job.opportunity.expectedProfitB == 4459
    ensures job.opportunity.sellPool == state.candidate.value.pool != job.opportunity.buyPool
  {
    var c := SomeCast();
    state, config := MirrorState(c), Config(c, 2);
    MirrorIsFound(c);
    FoundIsPrepared(state, config, Some(0), MirrorSwap(), MirrorFound(c));
    job := Prepare(state, config, Some(0)).value;
  }
}
