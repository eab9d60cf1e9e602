# Daily bias scorer and classifier

A Dafny model of the decision logic of `daily_bias.py`, a once-a-day script
that rates the S&P 500 session before the open. Six threshold rules each read
one to three market readings and vote -1, 0 or +1; the votes are summed into a
score in [-6, 6]; the score is mapped to one of five ordered labels (STRONG
BULLISH, BULLISH, NEUTRAL, BEARISH, STRONG BEARISH), unless a high-impact
economic event is scheduled for the day, which forces a distinct label
"NEUTRAL (High-impact event today)".

Modules, one per stage of the script:

- `Signals` (`signals.dfy`): the `MarketData` record of one run's readings, the
  six rules (`Trend`, `Momentum`, `Overnight`, `VixRegime`, `DollarYield`,
  `Breadth`), their thresholds and the fallback readings; lemmas on evaluation
  order, fallbacks and monotonicity.
- `Scoring` (`scoring.dfy`): the vote sequence of a run, its running `Total`,
  the `Score`, the script's statement-by-statement accumulation
  (`ScoreStepwise`) and tally lemmas relating the score to how many rules voted
  each way.
- `Classifier` (`classifier.dfy`): the `Bias` labels, `Classify` with the event
  override, a closed-range reference description of the bands (`InBand`), and
  lemmas on totality, monotonicity, symmetry and boundaries.
- `DailyBias` (`daily_bias.dfy`): the composed pipeline `FinalBias`, its
  monotonicity in the readings, the effect of fallback readings and three
  end-to-end scenarios.

Readings are Dafny `real`s. The rules only compare readings with constants or
with each other. Every constant of the script is an exact binary double except
`0.3`, so the overnight threshold is modelled as the double that literal
denotes, 5404319552844595 / 2^54, slightly below 3/10. With that, the real
comparisons take the same branches as the script's double comparisons for every
finite reading.

Notes on the code:

- The bullish and bearish conditions of the volatility rule are disjoint:
  `vix < 20` excludes `vix > 25`, and `vix9d < vix3m` excludes `vix9d > vix3m`.
  So the order in which the script tests them does not matter
  (`Signals.VixConditionsDisjoint`, `Signals.VixOrderIrrelevant`).
- The weekly return and the dollar and yield changes have no fallback: too
  short a weekly series raises an indexing error at `daily_bias.py` lines 30-31,
  and too short a dollar or yield series at lines 58-59. A short daily history
  makes the rolling mean NaN, so `price > sma200` is false and the trend votes
  -1, the same vote as an average equal to the price
  (`Signals.TrendFlatIsBearish`).
- The fallbacks the code provides are a 0.0 overnight gap when the futures page
  carries no quote, a 50.0 breadth when the breadth page carries no figure, and
  `vix9d == vix3m == vix` when the term-structure symbols are not listed. The
  model states what each of them does to its rule. The page fetches themselves
  are not guarded, so a network failure there ends the run.

## Model

| member | source | states |
|---|---|---|
| Signals.Trend | daily_bias.py:93-96 | the trend vote is never 0; it is +1 exactly when the price is strictly above the 200-day average and -1 otherwise, equality included |
| Signals.Band | daily_bias.py:99-108 | a symmetric band rule votes +1 exactly at or above the threshold, -1 exactly at or below its negation, 0 exactly strictly between |
| Signals.Momentum | daily_bias.py:99-102 | weekly momentum votes +1 iff the return is >= 2.0, -1 iff <= -2.0, 0 iff strictly between |
| Signals.Overnight | daily_bias.py:105-108 | the overnight rule votes +1 iff the gap is at or above the double denoted by 0.3, -1 iff at or below its negation, 0 iff strictly between; that double itself votes +1 |
| Signals.OvernightThresholdIsDouble | daily_bias.py:105-108 | the threshold is exactly 5404319552844595 / 2^54, the double nearest 0.3 (within half an ulp), strictly below 3/10, and a gap equal to it (or its negation) votes +1 (or -1) |
| Signals.VixRegime | daily_bias.py:111-114 | the volatility rule votes +1 iff vix < 20 with contango, -1 iff vix > 25 or backwardation, and 0 exactly in the remaining region |
| Signals.DollarYield | daily_bias.py:117-120 | the macro rule votes +1 iff both changes are negative, -1 iff both are positive, 0 iff their product is at most 0 (mixed signs or a flat side) |
| Signals.Breadth | daily_bias.py:123-126 | breadth votes +1 iff above 60, -1 iff below 40, 0 iff within [40, 60] |
| Signals.VixConditionsDisjoint | daily_bias.py:111-114 | the bullish and bearish volatility conditions never hold together |
| Signals.VixOrderIrrelevant | daily_bias.py:111-114 | testing the bearish volatility condition first gives the same vote as the script's bullish-first order |
| Signals.MacroOrderIrrelevant | daily_bias.py:117-120 | testing the bearish macro condition first gives the same vote |
| Signals.OvernightFallbackSilent | daily_bias.py:46 | the 0.0 gap returned when the futures quote is not found casts no overnight vote |
| Signals.BreadthFallbackSilent | daily_bias.py:69 | the 50.0 breadth returned when the scrape finds nothing casts no breadth vote |
| Signals.TrendFlatIsBearish | daily_bias.py:93-96 | a 200-day average equal to the price gives a bearish trend vote |
| Signals.VixWithoutTermStructure | daily_bias.py:52-53 | when the 9-day and 3-month readings fall back to the VIX itself, the rule never votes +1, votes -1 iff vix > 25 and 0 otherwise |
| Signals.MacroMixedSilent | daily_bias.py:117-120 | mixed-sign changes, or a zero change on either side, cast no macro vote |
| Signals.TrendMonotone | daily_bias.py:93-96 | a higher price or a lower average never lowers the trend vote |
| Signals.BandMonotone | daily_bias.py:99-108 | a higher reading never lowers a band rule's vote |
| Signals.VixRegimeMonotone | daily_bias.py:111-114 | lower vix, lower 9-day or higher 3-month volatility never lowers the volatility vote |
| Signals.DollarYieldMonotone | daily_bias.py:117-120 | smaller dollar and yield changes never lower the macro vote |
| Signals.BreadthMonotone | daily_bias.py:123-126 | higher breadth never lowers the breadth vote |
| Scoring.Votes | daily_bias.py:90-126 | a run casts exactly six votes, each in {-1, 0, 1}, the first (trend) never 0 |
| Scoring.Total | daily_bias.py:90-126 | the running total of n votes lies in [-n, n] |
| Scoring.TotalIsTally | daily_bias.py:90-126 | the running total of votes equals the number of +1 votes minus the number of -1 votes |
| Scoring.Score | daily_bias.py:90-126 | the score of every run lies in [-6, 6] |
| Scoring.ScoreIsSumOfRules | daily_bias.py:90-126 | the score is the unweighted sum of the six rule votes |
| Scoring.ScoreStepwise | daily_bias.py:90-126 | the script's in-place accumulation, starting from 0 and adjusting per rule, ends at the summed score, within [-6, 6] |
| Scoring.ScoreIsTally | daily_bias.py:90-126 | the score is bullish rules minus bearish rules, and the bullish, silent and bearish rules number six in all |
| Scoring.ScoreMaxIffAllBullish | daily_bias.py:90-126 | the score is 6 exactly when all six rules vote +1 |
| Scoring.ScoreMinIffAllBearish | daily_bias.py:90-126 | the score is -6 exactly when all six rules vote -1 |
| Scoring.StrongScoreNeedsConsensus | daily_bias.py:90-126 | a score of 4 or more needs at least four bullish rules and at most one bearish rule, and symmetrically for -4 or less |
| Scoring.TrendAlwaysVotes | daily_bias.py:93-96 | at most five of the six rules can be silent, because the trend rule always votes |
| Classifier.Classify | daily_bias.py:131-143 | the override label is returned exactly when the event flag is set; otherwise the label is one whose band contains the score |
| Classifier.BandsDisjoint | daily_bias.py:134-143 | no score lies in two bands |
| Classifier.ClassifyIsBand | daily_bias.py:134-143 | without the override, a score gets a label if and only if the score lies in that label's band, so every integer maps to exactly one of the five labels |
| Classifier.ClassifyMonotone | daily_bias.py:134-143 | a higher score never yields a more bearish label |
| Classifier.ClassifySymmetric | daily_bias.py:134-143 | negating the score gives the mirror-image label |
| Classifier.ClassifyBoundaries | daily_bias.py:134-143 | 6 and 4 give STRONG BULLISH, 3 and 2 BULLISH, 1, 0 and -1 NEUTRAL, -2 and -3 BEARISH, -4 and -6 STRONG BEARISH |
| Classifier.EventOverridesScore | daily_bias.py:131-132 | with the event flag the label is the override label whatever the score; it prints differently from plain NEUTRAL but ranks as neutral |
| Classifier.EveryLabelReachable | daily_bias.py:134-143 | each of the five score labels is produced by some score in [-6, 6] |
| Classifier.Label | daily_bias.py:131-143 | the printed label starts with NEUTRAL exactly for the two neutral-ranked labels, the plain one and the event override |
| Classifier.LabelInjective | daily_bias.py:132-143 | the six labels print as six distinct strings |
| DailyBias.FinalBias | daily_bias.py:90-143 | the final bias is the override exactly on event days; otherwise its band contains the score; STRONG BULLISH implies at least four bullish and at most one bearish rule, and symmetrically for STRONG BEARISH |
| DailyBias.ScoreMonotone | daily_bias.py:90-126 | readings that are each at least as bullish give at least as high a score |
| DailyBias.FinalBiasMonotone | daily_bias.py:90-143 | readings that are each at least as bullish never give a more bearish final label on a day without events |
| DailyBias.EventDayIsNeutral | daily_bias.py:131-132 | on an event day the final bias is the override label whatever the readings |
| DailyBias.FallbacksCapTheBias | daily_bias.py:46-126 | when the futures scrape, breadth scrape and term structure all fall back, the score is at most 3 and the bias is never STRONG BULLISH |
| DailyBias.ScenarioAllBullish | daily_bias.py:90-143 | price 100 over average 90, +3% week, +0.5% gap, VIX 15 in contango, falling dollar and yield, breadth 65: score 6, STRONG BULLISH |
| DailyBias.ScenarioAllBearish | daily_bias.py:90-143 | price 100 under average 110, -3% week, -0.5% gap, VIX 30 without term structure, rising dollar and yield, breadth 30: score -6, STRONG BEARISH |
| DailyBias.ScenarioFlat | daily_bias.py:90-143 | price on its average, no moves, VIX 22 without term structure, breadth 50: only the trend votes, score -1, NEUTRAL |

## Left out

- Data acquisition through the market-data library (daily, weekly, VIX, dollar and yield histories, lines 21-27 and 51-59): foreign library calls and network I/O. Their results are the `MarketData` fields.
- The floating-point arithmetic deriving the weekly return, the percentage and basis-point changes and the overnight gap (lines 30-32, 44, 58-59), and the rolling 200-day mean with its NaN result on short history (line 27): the model takes these readings as given reals. NaN is not modelled. In the script every comparison with NaN is false: a NaN reading silences the momentum, overnight, breadth and macro rules, the trend rule then votes -1, and the volatility rule can still vote -1 through whichever of `vix > 25` and `vix9d > vix3m` does not involve the NaN reading.
- The weekly close selection by date (line 30): it depends on the clock and on the library's index.
- HTML scraping and regular-expression extraction for the futures quote and breadth (lines 35-71): network I/O and third-party page formats. Only the values returned when the page carries no match (0.0 and 50.0) are modelled; a failed fetch is not caught by the script and ends the run.
- The economic-calendar fetch and the timestamp and time-zone date matching (lines 74-85): network I/O and the clock. The result is the `highImpact` flag of `Classifier.Classify`.
- The report text, console printing and writing `latest_bias.txt` (lines 148-182): string formatting of floats and file I/O. Only the label strings are modelled (`Classifier.Label`). The report prints "backwardation" when vix9d equals vix3m, while the volatility rule treats that case as neither contango nor backwardation.
- The module-level clock and time-zone configuration (lines 14-15): they depend on the environment.
