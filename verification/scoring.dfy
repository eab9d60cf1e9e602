/**
 The scorer: the six votes of a run, summed without weighting into an integer
 score. The score is the running total the scorer accumulates in rule order;
 the tally lemmas relate it to how many rules voted each way.
 */
module Scoring {
  import opened Signals

  /** Every entry of `votes` is a vote. */
  predicate AllVotes(votes: seq<int>) {
    forall i :: 0 <= i < |votes| ==> IsVote(votes[i])
  }

  /** The six votes of a run, in the order the scorer evaluates the rules. */
  function Votes(d: MarketData): (votes: seq<int>)
    ensures |votes| == 6 && AllVotes(votes)
    ensures votes[0] != 0
  {
    [ Trend(d.price, d.sma200),
      Momentum(d.weeklyReturn),
      Overnight(d.overnightPct),
      VixRegime(d.vix, d.vix9d, d.vix3m),
      DollarYield(d.dxyChange, d.tnxChangeBps),
      Breadth(d.breadth50) ]
  }

  /** Running total of a sequence of votes, accumulated front to back. */
  function Total(votes: seq<int>): (t: int)
    requires AllVotes(votes)
    ensures -|votes| <= t <= |votes|
  {
    if |votes| == 0 then 0
    else Total(votes[..|votes| - 1]) + votes[|votes| - 1]
  }

  /** Number of entries of `votes` equal to `v`. */
  function Count(votes: seq<int>, v: int): (n: nat)
    ensures n <= |votes|
  {
    if |votes| == 0 then 0
    else Count(votes[..|votes| - 1], v) + (if votes[|votes| - 1] == v then 1 else 0)
  }

  /** Every vote is bullish, silent or bearish, so the three counts cover the sequence. */
  lemma {:induction false} CountsPartition(votes: seq<int>)
    requires AllVotes(votes)
    ensures Count(votes, 1) + Count(votes, 0) + Count(votes, -1) == |votes|
  {
    if |votes| > 0 {
      CountsPartition(votes[..|votes| - 1]);
    }
  }

  /** The running total is the number of bullish votes minus the number of bearish ones. */
  lemma {:induction false} TotalIsTally(votes: seq<int>)
    requires AllVotes(votes)
    ensures Total(votes) == Count(votes, 1) - Count(votes, -1)
  {
    if |votes| > 0 {
      TotalIsTally(votes[..|votes| - 1]);
    }
  }

  /** `v` fills the whole sequence exactly when every entry is `v`. */
  lemma {:induction false} CountFull(votes: seq<int>, v: int)
    ensures Count(votes, v) == |votes| <==> forall i :: 0 <= i < |votes| ==> votes[i] == v
  {
    if |votes| > 0 {
      var init := votes[..|votes| - 1];
      CountFull(init, v);
      if Count(votes, v) == |votes| {
        forall i | 0 <= i < |votes|
          ensures votes[i] == v
        {
          if i < |votes| - 1 {
            assert votes[i] == init[i];
          }
        }
      } else {
        if votes[|votes| - 1] == v {
          assert Count(init, v) < |init|;
          var j :| 0 <= j < |init| && init[j] != v;
          assert votes[j] == init[j];
        }
      }
    }
  }

  /** The score of a run: the total of its six votes. */
  function Score(d: MarketData): (s: int)
    ensures -6 <= s <= 6
  {
    Total(Votes(d))
  }

  /** The score is the plain, unweighted sum of the six rule votes. */
  lemma ScoreIsSumOfRules(d: MarketData)
    ensures Score(d) == Trend(d.price, d.sma200) + Momentum(d.weeklyReturn)
                      + Overnight(d.overnightPct) + VixRegime(d.vix, d.vix9d, d.vix3m)
                      + DollarYield(d.dxyChange, d.tnxChangeBps) + Breadth(d.breadth50)
  {
    var vs := Votes(d);
    assert Total(vs) == Total(vs[..5]) + vs[5];
    assert vs[..5][..4] == vs[..4];
    assert Total(vs[..5]) == Total(vs[..4]) + vs[4];
    assert vs[..4][..3] == vs[..3];
    assert Total(vs[..4]) == Total(vs[..3]) + vs[3];
    assert vs[..3][..2] == vs[..2];
    assert Total(vs[..3]) == Total(vs[..2]) + vs[2];
    assert vs[..2][..1] == vs[..1];
    assert Total(vs[..2]) == Total(vs[..1]) + vs[1];
    assert vs[..1][..0] == [];
    assert Total(vs[..1]) == vs[0];
  }

  /**
   The scorer as the script writes it: a score starting at zero, adjusted rule
   by rule, the bullish branch of each rule tested first.
   */
  method ScoreStepwise(d: MarketData) returns (score: int)
    ensures score == Score(d)
    ensures -6 <= score <= 6
  {
    score := 0;
    // 1. trend
    if d.price > d.sma200 {
      score := score + 1;
    } else {
      score := score - 1;
    }
    assert score == Trend(d.price, d.sma200);
    // 2. weekly momentum
    if d.weeklyReturn >= MomentumThreshold {
      score := score + 1;
    } else if d.weeklyReturn <= -MomentumThreshold {
      score := score - 1;
    }
    assert score == Trend(d.price, d.sma200) + Momentum(d.weeklyReturn);
    // 3. overnight futures
    if d.overnightPct >= OvernightThreshold {
      score := score + 1;
    } else if d.overnightPct <= -OvernightThreshold {
      score := score - 1;
    }
    ghost var upToOvernight := score;
    assert score == Trend(d.price, d.sma200) + Momentum(d.weeklyReturn) + Overnight(d.overnightPct);
    // 4. volatility regime
    if d.vix < VixCalm && d.vix9d < d.vix3m {
      score := score + 1;
    } else if d.vix > VixFear || d.vix9d > d.vix3m {
      score := score - 1;
    }
    assert score == upToOvernight + VixRegime(d.vix, d.vix9d, d.vix3m);
    // 5. dollar and yields
    if d.dxyChange < 0.0 && d.tnxChangeBps < 0.0 {
      score := score + 1;
    } else if d.dxyChange > 0.0 && d.tnxChangeBps > 0.0 {
      score := score - 1;
    }
    assert score == upToOvernight + VixRegime(d.vix, d.vix9d, d.vix3m)
                  + DollarYield(d.dxyChange, d.tnxChangeBps);
    // 6. breadth
    if d.breadth50 > BreadthStrong {
      score := score + 1;
    } else if d.breadth50 < BreadthWeak {
      score := score - 1;
    }
    ScoreIsSumOfRules(d);
  }

  /** The score counts bullish rules minus bearish rules; no rule is weighted. */
  lemma ScoreIsTally(d: MarketData)
    ensures Score(d) == Count(Votes(d), 1) - Count(Votes(d), -1)
    ensures Count(Votes(d), 1) + Count(Votes(d), 0) + Count(Votes(d), -1) == 6
  {
    TotalIsTally(Votes(d));
    CountsPartition(Votes(d));
  }

  /** The top score is reached exactly when all six rules vote bullish. */
  lemma ScoreMaxIffAllBullish(d: MarketData)
    ensures Score(d) == 6 <==> forall i :: 0 <= i < 6 ==> Votes(d)[i] == 1
  {
    ScoreIsTally(d);
    CountFull(Votes(d), 1);
  }

  /** The bottom score is reached exactly when all six rules vote bearish. */
  lemma ScoreMinIffAllBearish(d: MarketData)
    ensures Score(d) == -6 <==> forall i :: 0 <= i < 6 ==> Votes(d)[i] == -1
  {
    ScoreIsTally(d);
    CountFull(Votes(d), -1);
  }

  /**
   A score of at least 4 needs at least four bullish rules and tolerates at
   most one bearish one; symmetrically for a score of at most -4.
   */
  lemma StrongScoreNeedsConsensus(d: MarketData)
    ensures Score(d) >= 4 ==> Count(Votes(d), 1) >= 4 && Count(Votes(d), -1) <= 1
    ensures Score(d) <= -4 ==> Count(Votes(d), -1) >= 4 && Count(Votes(d), 1) <= 1
  {
    ScoreIsTally(d);
  }

  /** The trend rule never abstains, so at most five rules can be silent. */
  lemma TrendAlwaysVotes(d: MarketData)
    ensures Count(Votes(d), 0) <= 5
  {
    var vs := Votes(d);
    assert vs[..1][..0] == [];
    assert Count(vs[..1], 0) == 0;
    CountAppendBound(vs, 1, 6);
    assert vs[..6] == vs;
  }

  /** Counting over a longer prefix adds at most the extra length. */
  lemma {:induction false} CountAppendBound(votes: seq<int>, i: nat, j: nat)
    requires i <= j <= |votes|
    ensures Count(votes[..j], 0) <= Count(votes[..i], 0) + (j - i)
    decreases j - i
  {
    if i < j {
      CountAppendBound(votes, i, j - 1);
      assert votes[..j][..j - 1] == votes[..j - 1];
    }
  }
}
