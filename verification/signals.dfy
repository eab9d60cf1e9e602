/**
 The six threshold rules of the daily bias scorer. Each rule reads one to three
 market readings and casts a vote of -1 (bearish), 0 (no opinion) or +1
 (bullish). Readings are taken as given reals: how they were fetched and
 derived is not part of this model.
 */
module Signals {

  /** One run's market readings, in the units the scorer compares them in. */
  datatype MarketData = MarketData(
    price: real,         // latest daily close of the index proxy
    sma200: real,        // 200-day simple moving average of the close
    weeklyReturn: real,  // percent change between the last two weekly closes
    overnightPct: real,  // percent gap of the futures quote over the cash close
    vix: real,           // volatility index level
    vix9d: real,         // 9-day volatility index (term structure, short end)
    vix3m: real,         // 3-month volatility index (term structure, long end)
    dxyChange: real,     // day-over-day percent change of the dollar index
    tnxChangeBps: real,  // day-over-day change of the 10-year yield, basis points
    breadth50: real      // percent of index members above their 50-day average
  )

  // Thresholds of the rules, as fixed in the scorer. All are exact doubles
  // except 0.3, whose double value is 5404319552844595 / 2^54, just below 3/10.
  const MomentumThreshold: real := 2.0
  const OvernightThreshold: real := 5404319552844595.0 / 18014398509481984.0
  const VixCalm: real := 20.0
  const VixFear: real := 25.0
  const BreadthStrong: real := 60.0
  const BreadthWeak: real := 40.0

  // Readings the acquisition step returns when a scraped page carries no figure.
  const OvernightFallback: real := 0.0
  const BreadthFallback: real := 50.0

  /** A vote is one of -1, 0, +1. */
  predicate IsVote(v: int) {
    -1 <= v <= 1
  }

  /** Rule 1. The trend vote is always directional: equality counts as bearish. */
  function Trend(price: real, sma200: real): (v: int)
    ensures v != 0 && IsVote(v)
    ensures v == 1 <==> price > sma200
    ensures v == -1 <==> price <= sma200
  {
    if price > sma200 then 1 else -1
  }

  /**
   A symmetric band rule: bullish at or above `threshold`, bearish at or below
   its negation, silent strictly in between. Rules 2 and 3 are instances.
   */
  function Band(x: real, threshold: real): (v: int)
    requires threshold > 0.0
    ensures IsVote(v)
    ensures v == 1 <==> x >= threshold
    ensures v == -1 <==> x <= -threshold
    ensures v == 0 <==> -threshold < x < threshold
  {
    if x >= threshold then 1
    else if x <= -threshold then -1
    else 0
  }

  /** Rule 2: weekly momentum with a two percent band. */
  function Momentum(weeklyReturn: real): (v: int)
    ensures IsVote(v)
    ensures v == 1 <==> weeklyReturn >= 2.0
    ensures v == -1 <==> weeklyReturn <= -2.0
    ensures v == 0 <==> -2.0 < weeklyReturn < 2.0
  {
    Band(weeklyReturn, MomentumThreshold)
  }

  /** Rule 3: overnight futures gap with a band of (the double nearest) 0.3 percent. */
  function Overnight(overnightPct: real): (v: int)
    ensures IsVote(v)
    ensures v == 1 <==> overnightPct >= OvernightThreshold
    ensures v == -1 <==> overnightPct <= -OvernightThreshold
    ensures v == 0 <==> -OvernightThreshold < overnightPct < OvernightThreshold
    ensures overnightPct >= 0.3 ==> v == 1
    ensures overnightPct <= -0.3 ==> v == -1
  {
    Band(overnightPct, OvernightThreshold)
  }

  /** The two conditions of rule 4 as the scorer writes them. */
  predicate VixBullish(vix: real, vix9d: real, vix3m: real) {
    vix < VixCalm && vix9d < vix3m    // low fear and contango
  }

  predicate VixBearish(vix: real, vix9d: real, vix3m: real) {
    vix > VixFear || vix9d > vix3m    // high fear or backwardation
  }

  /** Rule 4: volatility regime, bullish condition tested first. */
  function VixRegime(vix: real, vix9d: real, vix3m: real): (v: int)
    ensures IsVote(v)
    ensures v == 1 <==> vix < 20.0 && vix9d < vix3m
    ensures v == -1 <==> vix > 25.0 || vix9d > vix3m
    ensures v == 0 <==> vix <= 25.0 && vix9d <= vix3m && (vix >= 20.0 || vix9d == vix3m)
  {
    if VixBullish(vix, vix9d, vix3m) then 1
    else if VixBearish(vix, vix9d, vix3m) then -1
    else 0
  }

  /** The two conditions of rule 5: the dollar and the yield move together. */
  predicate MacroBullish(dxyChange: real, tnxChangeBps: real) {
    dxyChange < 0.0 && tnxChangeBps < 0.0
  }

  predicate MacroBearish(dxyChange: real, tnxChangeBps: real) {
    dxyChange > 0.0 && tnxChangeBps > 0.0
  }

  /** Rule 5: dollar and 10-year yield count only when both move the same way. */
  function DollarYield(dxyChange: real, tnxChangeBps: real): (v: int)
    ensures IsVote(v)
    ensures v == 1 <==> dxyChange < 0.0 && tnxChangeBps < 0.0
    ensures v == -1 <==> dxyChange > 0.0 && tnxChangeBps > 0.0
    ensures v == 0 <==> dxyChange * tnxChangeBps <= 0.0
  {
    if MacroBullish(dxyChange, tnxChangeBps) then 1
    else if MacroBearish(dxyChange, tnxChangeBps) then -1
    else 0
  }

  /** Rule 6: breadth, with strict bounds on both sides. */
  function Breadth(breadth50: real): (v: int)
    ensures IsVote(v)
    ensures v == 1 <==> breadth50 > 60.0
    ensures v == -1 <==> breadth50 < 40.0
    ensures v == 0 <==> 40.0 <= breadth50 <= 60.0
  {
    if breadth50 > BreadthStrong then 1
    else if breadth50 < BreadthWeak then -1
    else 0
  }

  /*
   Evaluation order. The scorer tests the bullish condition of each three-way
   rule first. For every rule the two conditions are disjoint, so testing the
   bearish condition first yields the same vote.
   */

  lemma VixConditionsDisjoint(vix: real, vix9d: real, vix3m: real)
    ensures !(VixBullish(vix, vix9d, vix3m) && VixBearish(vix, vix9d, vix3m))
  {}

  lemma VixOrderIrrelevant(vix: real, vix9d: real, vix3m: real)
    ensures VixRegime(vix, vix9d, vix3m)
         == (if VixBearish(vix, vix9d, vix3m) then -1
             else if VixBullish(vix, vix9d, vix3m) then 1
             else 0)
  {
    VixConditionsDisjoint(vix, vix9d, vix3m);
  }

  lemma MacroOrderIrrelevant(dxyChange: real, tnxChangeBps: real)
    ensures DollarYield(dxyChange, tnxChangeBps)
         == (if MacroBearish(dxyChange, tnxChangeBps) then -1
             else if MacroBullish(dxyChange, tnxChangeBps) then 1
             else 0)
  {}

  /**
   The threshold is the double nearest 3/10 (within half a unit in the last
   place, 2^-55), lies below 3/10, and a gap of exactly that double votes bullish.
   */
  lemma OvernightThresholdIsDouble()
    ensures OvernightThreshold * 18014398509481984.0 == 5404319552844595.0
    ensures 0.3 - 1.0 / 36028797018963968.0 < OvernightThreshold < 0.3
    ensures Overnight(OvernightThreshold) == 1 && Overnight(-OvernightThreshold) == -1
  {}

  /**
   An average equal to the price reads as bearish: equality fails the strict
   test. A NaN average from a short history gets the same vote, since every
   comparison with NaN is false.
   */
  lemma TrendFlatIsBearish(price: real)
    ensures Trend(price, price) == -1
  {}

  /*
   Fallback readings: what the acquisition step returns when a page carries no
   figure or a term-structure symbol is not listed, and what each rule then
   makes of it.
   */

  /** A futures page with no quote reports a 0.0 gap, which casts no vote. */
  lemma OvernightFallbackSilent()
    ensures Overnight(OvernightFallback) == 0
  {}

  /** A breadth page with no figure reports 50.0, which casts no vote. */
  lemma BreadthFallbackSilent()
    ensures Breadth(BreadthFallback) == 0
  {}

  /**
   Without term-structure data both secondary volatility readings equal the
   primary one: the rule can then never vote bullish, and votes bearish exactly
   on high fear.
   */
  lemma VixWithoutTermStructure(vix: real)
    ensures VixRegime(vix, vix, vix) != 1
    ensures VixRegime(vix, vix, vix) == -1 <==> vix > 25.0
    ensures VixRegime(vix, vix, vix) == 0 <==> vix <= 25.0
  {}

  /** Mixed signs or a flat reading on either side casts no macro vote. */
  lemma MacroMixedSilent(dxyChange: real, tnxChangeBps: real)
    requires dxyChange == 0.0 || tnxChangeBps == 0.0
          || (dxyChange < 0.0) != (tnxChangeBps < 0.0)
    ensures DollarYield(dxyChange, tnxChangeBps) == 0
  {}

  /*
   Monotonicity. Moving a reading in its bullish direction never lowers the
   vote of the rule that reads it.
   */

  lemma TrendMonotone(p1: real, s1: real, p2: real, s2: real)
    requires p1 <= p2 && s1 >= s2
    ensures Trend(p1, s1) <= Trend(p2, s2)
  {}

  lemma BandMonotone(x1: real, x2: real, threshold: real)
    requires threshold > 0.0 && x1 <= x2
    ensures Band(x1, threshold) <= Band(x2, threshold)
  {}

  lemma VixRegimeMonotone(vix1: real, short1: real, long1: real,
                          vix2: real, short2: real, long2: real)
    requires vix1 >= vix2 && short1 >= short2 && long1 <= long2
    ensures VixRegime(vix1, short1, long1) <= VixRegime(vix2, short2, long2)
  {}

  lemma DollarYieldMonotone(dxy1: real, tnx1: real, dxy2: real, tnx2: real)
    requires dxy1 >= dxy2 && tnx1 >= tnx2
    ensures DollarYield(dxy1, tnx1) <= DollarYield(dxy2, tnx2)
  {}

  lemma BreadthMonotone(b1: real, b2: real)
    requires b1 <= b2
    ensures Breadth(b1) <= Breadth(b2)
  {}
}
