/**
 The daily pipeline without its I/O: the readings of a run are scored and the
 score, together with the high-impact-event flag, is classified into the final
 bias.
 */
module DailyBias {
  import opened Signals
  import opened Scoring
  import opened Classifier

  /** The final bias of a run. */
  function FinalBias(d: MarketData, highImpact: bool): (b: Bias)
    ensures highImpact <==> b == NeutralEventOverride
    ensures !highImpact ==> InBand(Score(d), b)
    ensures b == StrongBullish ==> Count(Votes(d), 1) >= 4 && Count(Votes(d), -1) <= 1
    ensures b == StrongBearish ==> Count(Votes(d), -1) >= 4 && Count(Votes(d), 1) <= 1
  {
    StrongScoreNeedsConsensus(d);
    Classify(Score(d), highImpact)
  }

  /**
   `d1` is at most as bullish as `d2` on every reading: each reading of `d2`
   has moved, if at all, in the direction its rule treats as bullish.
   */
  predicate LessBullish(d1: MarketData, d2: MarketData) {
    && d1.price <= d2.price
    && d1.sma200 >= d2.sma200
    && d1.weeklyReturn <= d2.weeklyReturn
    && d1.overnightPct <= d2.overnightPct
    && d1.vix >= d2.vix
    && d1.vix9d >= d2.vix9d
    && d1.vix3m <= d2.vix3m
    && d1.dxyChange >= d2.dxyChange
    && d1.tnxChangeBps >= d2.tnxChangeBps
    && d1.breadth50 <= d2.breadth50
  }

  /** Every rule is monotone, hence so is the score. */
  lemma ScoreMonotone(d1: MarketData, d2: MarketData)
    requires LessBullish(d1, d2)
    ensures Score(d1) <= Score(d2)
  {
    ScoreIsSumOfRules(d1);
    ScoreIsSumOfRules(d2);
    TrendMonotone(d1.price, d1.sma200, d2.price, d2.sma200);
    BandMonotone(d1.weeklyReturn, d2.weeklyReturn, MomentumThreshold);
    BandMonotone(d1.overnightPct, d2.overnightPct, OvernightThreshold);
    VixRegimeMonotone(d1.vix, d1.vix9d, d1.vix3m, d2.vix, d2.vix9d, d2.vix3m);
    DollarYieldMonotone(d1.dxyChange, d1.tnxChangeBps, d2.dxyChange, d2.tnxChangeBps);
    BreadthMonotone(d1.breadth50, d2.breadth50);
  }

  /** More bullish readings never yield a more bearish final bias on a day without events. */
  lemma FinalBiasMonotone(d1: MarketData, d2: MarketData)
    requires LessBullish(d1, d2)
    ensures Rank(FinalBias(d1, false)) <= Rank(FinalBias(d2, false))
  {
    ScoreMonotone(d1, d2);
    ClassifyMonotone(Score(d1), Score(d2));
  }

  /** A high-impact event forces the override label whatever the readings. */
  lemma EventDayIsNeutral(d: MarketData)
    ensures FinalBias(d, true) == NeutralEventOverride
  {}

  /**
   A run whose futures scrape, breadth scrape and term-structure lookups all
   fell back to their defaults: at most three rules can vote bullish, so the
   bias is never STRONG BULLISH.
   */
  lemma FallbacksCapTheBias(d: MarketData)
    requires d.overnightPct == OvernightFallback && d.breadth50 == BreadthFallback
    requires d.vix9d == d.vix && d.vix3m == d.vix
    ensures Score(d) <= 3
    ensures FinalBias(d, false) != StrongBullish
  {
    ScoreIsSumOfRules(d);
    OvernightFallbackSilent();
    BreadthFallbackSilent();
    VixWithoutTermStructure(d.vix);
  }

  /** Every reading on its bullish side: the top score and the top label. */
  lemma ScenarioAllBullish()
    ensures Score(MarketData(100.0, 90.0, 3.0, 0.5, 15.0, 12.0, 18.0, -0.1, -2.0, 65.0)) == 6
    ensures FinalBias(MarketData(100.0, 90.0, 3.0, 0.5, 15.0, 12.0, 18.0, -0.1, -2.0, 65.0), false)
         == StrongBullish
  {
    ScoreIsSumOfRules(MarketData(100.0, 90.0, 3.0, 0.5, 15.0, 12.0, 18.0, -0.1, -2.0, 65.0));
  }

  /** Every reading on its bearish side, term structure unavailable: the bottom score. */
  lemma ScenarioAllBearish()
    ensures Score(MarketData(100.0, 110.0, -3.0, -0.5, 30.0, 30.0, 30.0, 0.2, 3.0, 30.0)) == -6
    ensures FinalBias(MarketData(100.0, 110.0, -3.0, -0.5, 30.0, 30.0, 30.0, 0.2, 3.0, 30.0), false)
         == StrongBearish
  {
    ScoreIsSumOfRules(MarketData(100.0, 110.0, -3.0, -0.5, 30.0, 30.0, 30.0, 0.2, 3.0, 30.0));
  }

  /**
   A flat day: price on its average, no moves, middling volatility without
   term structure, breadth at its default. Only the trend rule votes, bearishly.
   */
  lemma ScenarioFlat()
    ensures Score(MarketData(100.0, 100.0, 0.0, 0.0, 22.0, 22.0, 22.0, 0.0, 0.0, 50.0)) == -1
    ensures FinalBias(MarketData(100.0, 100.0, 0.0, 0.0, 22.0, 22.0, 22.0, 0.0, 0.0, 50.0), false)
         == Neutral
  {
    ScoreIsSumOfRules(MarketData(100.0, 100.0, 0.0, 0.0, 22.0, 22.0, 22.0, 0.0, 0.0, 50.0));
  }
}
