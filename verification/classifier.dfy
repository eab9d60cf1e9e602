/**
 The bias classifier: maps a score to one of five ordered labels, unless a
 high-impact economic event is scheduled for the day, which forces a distinct
 neutral label whatever the score.
 */
module Classifier {

  datatype Bias =
    | StrongBullish
    | Bullish
    | Neutral
    | Bearish
    | StrongBearish
    | NeutralEventOverride   // neutral because of a same-day high-impact event

  /**
   The text the report prints for each label: exactly the two neutral-ranked
   labels start with NEUTRAL.
   */
  function Label(b: Bias): (s: string)
    ensures |s| >= 7
    ensures Rank(b) == 2 ==> s[..7] == "NEUTRAL"
    ensures Rank(b) != 2 ==> s[0] != 'N'
  {
    match b
    case StrongBullish => "STRONG BULLISH"
    case Bullish => "BULLISH"
    case Neutral => "NEUTRAL"
    case Bearish => "BEARISH"
    case StrongBearish => "STRONG BEARISH"
    case NeutralEventOverride => "NEUTRAL (High-impact event today)"
  }

  /** Position of a label on the bearish-to-bullish scale; both neutral labels sit in the middle. */
  function Rank(b: Bias): int {
    match b
    case StrongBearish => 0
    case Bearish => 1
    case Neutral => 2
    case NeutralEventOverride => 2
    case Bullish => 3
    case StrongBullish => 4
  }

  /** The label of the opposite direction. */
  function Mirror(b: Bias): Bias {
    match b
    case StrongBullish => StrongBearish
    case Bullish => Bearish
    case Neutral => Neutral
    case Bearish => Bullish
    case StrongBearish => StrongBullish
    case NeutralEventOverride => NeutralEventOverride
  }

  /**
   Reference description of the score bands, as closed ranges: the override
   label has no band, it is never derived from a score.
   */
  predicate InBand(score: int, b: Bias) {
    match b
    case StrongBullish => 4 <= score
    case Bullish => 2 <= score <= 3
    case Neutral => -1 <= score <= 1
    case Bearish => -3 <= score <= -2
    case StrongBearish => score <= -4
    case NeutralEventOverride => false
  }

  /**
   The classifier as the script writes it: the event flag is tested first, then
   the thresholds from high to low, first match wins.
   */
  function Classify(score: int, highImpact: bool): (b: Bias)
    ensures highImpact <==> b == NeutralEventOverride
    ensures !highImpact ==> InBand(score, b)
  {
    if highImpact then NeutralEventOverride
    else if score >= 4 then StrongBullish
    else if score >= 2 then Bullish
    else if score > -2 then Neutral
    else if score > -4 then Bearish
    else StrongBearish
  }

  /** The bands do not overlap: a score lies in at most one of them. */
  lemma BandsDisjoint(score: int, b1: Bias, b2: Bias)
    requires InBand(score, b1) && InBand(score, b2)
    ensures b1 == b2
  {}

  /**
   Without the override, every integer score gets exactly the label whose band
   contains it: the thresholds are total and non-overlapping.
   */
  lemma ClassifyIsBand(score: int, b: Bias)
    ensures Classify(score, false) == b <==> InBand(score, b)
  {
    if InBand(score, b) {
      BandsDisjoint(score, b, Classify(score, false));
    }
  }

  /** A higher score never yields a more bearish label. */
  lemma ClassifyMonotone(s1: int, s2: int)
    requires s1 <= s2
    ensures Rank(Classify(s1, false)) <= Rank(Classify(s2, false))
  {}

  /** Negating the score mirrors the label: the bands are symmetric about zero. */
  lemma ClassifySymmetric(score: int)
    ensures Classify(-score, false) == Mirror(Classify(score, false))
  {}

  /** The boundary scores of each band. */
  lemma ClassifyBoundaries()
    ensures Classify(6, false) == StrongBullish && Classify(4, false) == StrongBullish
    ensures Classify(3, false) == Bullish && Classify(2, false) == Bullish
    ensures Classify(1, false) == Neutral && Classify(0, false) == Neutral
    ensures Classify(-1, false) == Neutral
    ensures Classify(-2, false) == Bearish && Classify(-3, false) == Bearish
    ensures Classify(-4, false) == StrongBearish && Classify(-6, false) == StrongBearish
  {}

  /** The event flag overrides any score, and its label differs from the plain neutral one. */
  lemma EventOverridesScore(score: int)
    ensures Classify(score, true) == NeutralEventOverride
    ensures Label(Classify(score, true)) != Label(Neutral)
    ensures Rank(Classify(score, true)) == Rank(Neutral)
  {}

  /** Every score-derived label is reached by some score the scorer can produce. */
  lemma EveryLabelReachable(b: Bias)
    requires b != NeutralEventOverride
    ensures exists score :: -6 <= score <= 6 && Classify(score, false) == b
  {
    match b
    case StrongBullish => assert Classify(4, false) == b;
    case Bullish => assert Classify(2, false) == b;
    case Neutral => assert Classify(0, false) == b;
    case Bearish => assert Classify(-2, false) == b;
    case StrongBearish => assert Classify(-4, false) == b;
  }

  /** Distinct labels print as distinct text. */
  lemma LabelInjective(b1: Bias, b2: Bias)
    requires Label(b1) == Label(b2)
    ensures b1 == b2
  {}
}
