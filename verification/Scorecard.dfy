/**
 The score in full: which readings make an axis present, what each axis reads, how the eight are weighed, and what
 evidence and confidence come to, all in numbers.
 */
module Scorecard {
  import opened Rounding
  import opened Scoring
  import Sums
  import opened WeightedMean
  import opened Wrappers

  // ---------- Means of three and of four ----------

  /** The plain average of the present ones of three, if any is. */
  predicate AverageOf(m: Option<real>, x: Option<real>, y: Option<real>, z: Option<real>) {
    && (m.Some? <==> x.Some? || y.Some? || z.Some?)
    && (m.Some? ==>
          m.value * ((if x.Some? then 1.0 else 0.0) + (if y.Some? then 1.0 else 0.0) + (if z.Some? then 1.0 else 0.0))
          == x.GetOr(0.0) + y.GetOr(0.0) + z.GetOr(0.0))
  }

  lemma ThreeTerms(x: Option<real>, y: Option<real>, z: Option<real>)
    ensures AverageOf(MeanOf([Term(1.0, x), Term(1.0, y), Term(1.0, z)]), x, y, z)
  {
    var terms := [Term(1.0, x), Term(1.0, y), Term(1.0, z)];
    var w := [if x.Some? then 1.0 else 0.0, if y.Some? then 1.0 else 0.0, if z.Some? then 1.0 else 0.0];
    var p := [x.GetOr(0.0), y.GetOr(0.0), z.GetOr(0.0)];
    PullsItself(x);
    PullsItself(y);
    PullsItself(z);
    assert Weights(terms) == w;
    assert Pulls(terms) == p;
    SumOfThree(w[0], w[1], w[2]);
    SumOfThree(p[0], p[1], p[2]);
    if PresentWeight(terms) > 0.0 {
      DivMul(WeightedSum(terms), PresentWeight(terms));
    }
  }

  lemma PullsItself(v: Option<real>)
    ensures PullOf(Term(1.0, v)) == v.GetOr(0.0) && WeightOf(Term(1.0, v)) == if v.Some? then 1.0 else 0.0
  {
  }

  lemma SumOfThree(a: real, b: real, d: real)
    ensures Sums.Sum([a, b, d]) == a + b + d
  {
    assert [d][1..] == [];
    assert Sums.Sum([d]) == d;
    assert [b, d][1..] == [d];
    assert Sums.Sum([b, d]) == b + d;
    assert [a, b, d][1..] == [b, d];
  }

  /** The mean of the present ones of four, the first weighing 40, the next two 25 and the last 10. */
  predicate WeighedOf(m: Option<real>, x: Option<real>, y: Option<real>, z: Option<real>, t: Option<real>) {
    && (m.Some? <==> x.Some? || y.Some? || z.Some? || t.Some?)
    && (m.Some? ==>
          m.value * ((if x.Some? then 0.40 else 0.0) + (if y.Some? then 0.25 else 0.0)
                     + (if z.Some? then 0.25 else 0.0) + (if t.Some? then 0.10 else 0.0))
          == 0.40 * x.GetOr(0.0) + 0.25 * y.GetOr(0.0) + 0.25 * z.GetOr(0.0) + 0.10 * t.GetOr(0.0))
  }

  lemma FourTerms(x: Option<real>, y: Option<real>, z: Option<real>, t: Option<real>)
    ensures WeighedOf(MeanOf([Term(0.40, x), Term(0.25, y), Term(0.25, z), Term(0.10, t)]), x, y, z, t)
  {
    var terms := [Term(0.40, x), Term(0.25, y), Term(0.25, z), Term(0.10, t)];
    FourWeights(x, y, z, t);
    FourPulls(x, y, z, t);
    if PresentWeight(terms) > 0.0 {
      DivMul(WeightedSum(terms), PresentWeight(terms));
      WeighedBy(MeanOf(terms), x, y, z, t, PresentWeight(terms), WeightedSum(terms));
    }
  }

  lemma WeighedBy(m: Option<real>, x: Option<real>, y: Option<real>, z: Option<real>, t: Option<real>, weight: real, sum: real)
    requires weight == (if x.Some? then 0.40 else 0.0) + (if y.Some? then 0.25 else 0.0)
                       + (if z.Some? then 0.25 else 0.0) + (if t.Some? then 0.10 else 0.0)
    requires sum == 0.40 * x.GetOr(0.0) + 0.25 * y.GetOr(0.0) + 0.25 * z.GetOr(0.0) + 0.10 * t.GetOr(0.0)
    requires weight > 0.0 && m.Some? && m.value * weight == sum
    ensures WeighedOf(m, x, y, z, t)
  {
  }

  lemma FourWeights(x: Option<real>, y: Option<real>, z: Option<real>, t: Option<real>)
    ensures PresentWeight([Term(0.40, x), Term(0.25, y), Term(0.25, z), Term(0.10, t)])
         == (if x.Some? then 0.40 else 0.0) + (if y.Some? then 0.25 else 0.0)
            + (if z.Some? then 0.25 else 0.0) + (if t.Some? then 0.10 else 0.0)
  {
    var w := [if x.Some? then 0.40 else 0.0, if y.Some? then 0.25 else 0.0, if z.Some? then 0.25 else 0.0, if t.Some? then 0.10 else 0.0];
    assert Weights([Term(0.40, x), Term(0.25, y), Term(0.25, z), Term(0.10, t)]) == w;
    SumOfFour(w[0], w[1], w[2], w[3]);
  }

  lemma FourPulls(x: Option<real>, y: Option<real>, z: Option<real>, t: Option<real>)
    ensures WeightedSum([Term(0.40, x), Term(0.25, y), Term(0.25, z), Term(0.10, t)])
         == 0.40 * x.GetOr(0.0) + 0.25 * y.GetOr(0.0) + 0.25 * z.GetOr(0.0) + 0.10 * t.GetOr(0.0)
  {
    var p := [0.40 * x.GetOr(0.0), 0.25 * y.GetOr(0.0), 0.25 * z.GetOr(0.0), 0.10 * t.GetOr(0.0)];
    assert Pulls([Term(0.40, x), Term(0.25, y), Term(0.25, z), Term(0.10, t)]) == p;
    SumOfFour(p[0], p[1], p[2], p[3]);
  }

  lemma SumOfFour(a: real, b: real, d: real, e: real)
    ensures Sums.Sum([a, b, d, e]) == a + b + d + e
  {
    SumOfThree(b, d, e);
    assert [a, b, d, e][1..] == [b, d, e];
  }

  // ---------- What each axis reads ----------

  /** The three curved axes, by the reading that puts their curve at z. */
  lemma CurvedAxes(z: real, c: Curves)
    ensures Volume(Some(3.0 + z / 0.7), c) == Some(c.logistic(z))
    ensures Social(Some(z / 1.5), c) == Some(c.logistic(z))
    ensures Trend(Some(z * 15.0), c) == Some(c.logistic(z))
  {
    assert 0.7 * (3.0 + z / 0.7 - 3.0) == z;
    assert 1.5 * (z / 1.5) == z;
    assert z * 15.0 / 15.0 == z;
  }

  /** The symbol's own sentiment, else half the market's, else nothing. */
  function MoodOf(f: Features): real {
    if f.sentiment.Some? then f.sentiment.value
    else if f.marketSentiment.Some? then f.marketSentiment.value / 2.0
    else 0.0
  }

  /** News is half impact and half mood, the mood from -1 and 1 laid on 0 and 1. */
  lemma NewsIsHalfMood(f: Features, c: Curves)
    requires f.newsImpact.Some? || f.sentiment.Some? || f.marketSentiment.Some?
    requires 0.0 <= f.newsImpact.GetOr(0.0) <= 1.0 && -1.0 <= MoodOf(f) <= 1.0
    ensures 4.0 * SubScore(NewsScore, f, c).value == 2.0 * f.newsImpact.GetOr(0.0) + MoodOf(f) + 1.0
  {
  }

  /** Liquidity counts decimal orders of magnitude from a thousand to ten million, and nothing beyond either. */
  lemma LiquidityIsLogarithmic(x: real, c: Curves)
    ensures 1_000.0 <= x <= 10_000_000.0 ==> 4.0 * Liquidity(Some(x), c).value + 3.0 == c.log10(x)
    ensures x <= 1_000.0 ==> Liquidity(Some(x), c) == Some(0.0)
    ensures x >= 10_000_000.0 ==> Liquidity(Some(x), c) == Some(1.0)
  {
    if x > 0.0 {
      assert x <= 1_000.0 ==> c.log10(x) <= c.log10(1_000.0);
      assert 1_000.0 <= x ==> c.log10(1_000.0) <= c.log10(x);
      assert x <= 10_000_000.0 ==> c.log10(x) <= c.log10(10_000_000.0);
      assert 10_000_000.0 <= x ==> c.log10(10_000_000.0) <= c.log10(x);
    }
  }

  /** Positioning is the plain average of what is measured: funding against the crowd, the ratio of longs to shorts against
      the crowd, the change of open interest for it. */
  lemma PositioningIsAverage(f: Features, c: Curves)
    ensures AverageOf(SubScore(Positioning, f, c),
              if f.funding.Some? then Some(c.logistic(-(f.funding.value / 0.0001))) else None,
              if f.longShortRatio.Some? && f.longShortRatio.value > 0.0 then Some(c.logistic(1.5 * -c.ln(f.longShortRatio.value))) else None,
              if f.openInterestChange.Some? then Some(c.logistic(f.openInterestChange.value / 20.0)) else None)
  {
    var p := PositioningTerms(f.funding, f.longShortRatio, f.openInterestChange, c);
    ThreeTerms(p[0].value, p[1].value, p[2].value);
    assert p == [Term(1.0, p[0].value), Term(1.0, p[1].value), Term(1.0, p[2].value)];
  }

  /** An unlock costs its size, five percent being all of it, times its nearness, thirty days being none. */
  lemma UnlockCosts(pct: real, days: real)
    ensures Unlock(true, None, None) == Some(1.0) && Unlock(false, Some(pct), Some(days)) == None
    ensures 0.0 <= pct <= 5.0 && 0.0 <= days <= 30.0 ==> (1.0 - Unlock(true, Some(pct), Some(days)).value) * 150.0 == pct * (30.0 - days)
  {
    if 0.0 <= pct <= 5.0 && 0.0 <= days <= 30.0 {
      ShareOfCost(pct, days, pct / 5.0, days / 30.0, 1.0 - days / 30.0);
    }
  }

  lemma ShareOfCost(pct: real, days: real, severity: real, distance: real, nearness: real)
    requires severity * 5.0 == pct && distance * 30.0 == days && nearness == 1.0 - distance
    ensures severity * nearness * 150.0 == pct * (30.0 - days)
  {
    assert 30.0 - days == 30.0 * nearness;
    assert pct * (30.0 * nearness) == severity * nearness * 150.0;
  }

  /** Fundamentals is the plain average of what is measured of value locked, fees and the unlock. */
  lemma FundamentalsIsAverage(f: Features, c: Curves)
    ensures AverageOf(SubScore(Fundamentals, f, c),
              if f.tvlChange.Some? then Some(c.logistic(f.tvlChange.value / 15.0)) else None,
              if f.feesChange.Some? then Some(c.logistic(f.feesChange.value / 25.0)) else None,
              Unlock(f.hasUnlockSchedule, f.unlockPct, f.unlockDays))
  {
    var u := FundamentalsTerms(f.tvlChange, f.feesChange, Unlock(f.hasUnlockSchedule, f.unlockPct, f.unlockDays), c);
    ThreeTerms(u[0].value, u[1].value, u[2].value);
    assert u == [Term(1.0, u[0].value), Term(1.0, u[1].value), Term(1.0, u[2].value)];
  }

  /** A pace between a third and three times the usual is placed on a logarithmic scale; slower is 0, faster 1. */
  lemma MomentumIsLogarithmic(x: real, c: Curves)
    ensures x > 0.0 && -c.ln(3.0) <= c.ln(x) <= c.ln(3.0) ==> (2.0 * Momentum(Some(x), c).value - 1.0) * c.ln(3.0) == c.ln(x)
    ensures x <= 0.0 ==> Momentum(Some(x), c) == Some(0.0)
  {
    if x > 0.0 && -c.ln(3.0) <= c.ln(x) <= c.ln(3.0) {
      PlacedOnScale(c.ln(x), c.ln(3.0));
    }
  }

  lemma PlacedOnScale(l: real, span: real)
    requires span > 0.0 && -span <= l <= span
    ensures var v := 0.5 + 0.5 * l / span; 0.0 <= v <= 1.0 && (2.0 * v - 1.0) * span == l
  {
    var half := 0.5 * l / span;
    DivMul(0.5 * l, span);
    LessByFactor(-0.5, half, span);
    LessByFactor(half, 0.5, span);
    assert (2.0 * (0.5 + half) - 1.0) * span == 2.0 * (half * span);
  }

  /** Freshness fades evenly from a week to ninety days; two percent more stars is all there is to gain from them. */
  lemma FreshnessAndStars(days: int, growth: real)
    ensures 7 <= days <= 90 ==> (1.0 - Freshness(Some(days)).value) * 83.0 == (days - 7) as real
    ensures 0.0 <= growth <= 0.02 ==> Stars(Some(growth)).value * 0.02 == growth
    ensures growth <= 0.0 ==> Stars(Some(growth)) == Some(0.0)
    ensures growth >= 0.02 ==> Stars(Some(growth)) == Some(1.0)
  {
  }

  /** Developer activity weighs commits 40, pull requests 25, freshness 25 and stars 10, of what is measured; nothing if every
      repository is archived. */
  lemma DeveloperIsWeighed(f: Features, c: Curves)
    ensures f.allArchived ==> SubScore(DeveloperActivity, f, c) == Some(0.0)
    ensures !f.allArchived ==>
              WeighedOf(SubScore(DeveloperActivity, f, c), Momentum(f.commitRatio, c), Momentum(f.prRatio, c),
                        Freshness(f.daysSincePush), Stars(f.starGrowth))
  {
    FourTerms(Momentum(f.commitRatio, c), Momentum(f.prRatio, c), Freshness(f.daysSincePush), Stars(f.starGrowth));
  }

  /** An axis is there exactly when one of its readings is. */
  lemma AxisIsMeasuredIff(f: Features, c: Curves)
    ensures SubScore(VolumeGrowth, f, c).Some? <==> f.volumeSpike.Some?
    ensures SubScore(SocialScore, f, c).Some? <==> f.socialGrowth.Some?
    ensures SubScore(NewsScore, f, c).Some? <==> f.newsImpact.Some? || f.sentiment.Some? || f.marketSentiment.Some?
    ensures SubScore(MarketTrend, f, c).Some? <==> f.priceChange.Some?
    ensures SubScore(LiquidityScore, f, c).Some? <==> f.liquidity.Some?
    ensures SubScore(Positioning, f, c).Some?
      <==> f.funding.Some? || (f.longShortRatio.Some? && f.longShortRatio.value > 0.0) || f.openInterestChange.Some?
    ensures SubScore(Fundamentals, f, c).Some?
      <==> f.tvlChange.Some? || f.feesChange.Some? || (f.hasUnlockSchedule && f.unlockPct.Some? == f.unlockDays.Some?)
    ensures SubScore(DeveloperActivity, f, c).Some?
      <==> f.allArchived || f.commitRatio.Some? || f.prRatio.Some? || f.daysSincePush.Some? || f.starGrowth.Some?
  {
    PositioningIsAverage(f, c);
    FundamentalsIsAverage(f, c);
    DeveloperIsWeighed(f, c);
  }

  // ---------- How the axes are weighed ----------

  /** A weight where there is a reading. */
  function Counted(weight: real, v: Option<real>): real {
    if v.Some? then weight else 0.0
  }

  function Pulled(weight: real, v: Option<real>): real {
    if v.Some? then weight * v.value else 0.0
  }

  lemma TermsInFull(f: Features, c: Curves)
    ensures Terms(f, c) ==
              [Term(0.1725, SubScore(VolumeGrowth, f, c)), Term(0.1380, SubScore(SocialScore, f, c)),
               Term(0.1380, SubScore(NewsScore, f, c)), Term(0.1380, SubScore(MarketTrend, f, c)),
               Term(0.1035, SubScore(LiquidityScore, f, c)), Term(0.1380, SubScore(Positioning, f, c)),
               Term(0.0920, SubScore(Fundamentals, f, c)), Term(0.0800, SubScore(DeveloperActivity, f, c))]
  {
  }

  lemma EightWeights(a: Term, b: Term, d: Term, e: Term, g: Term, h: Term, i: Term, j: Term)
    ensures PresentWeight([a, b, d, e, g, h, i, j])
         == WeightOf(a) + WeightOf(b) + WeightOf(d) + WeightOf(e) + WeightOf(g) + WeightOf(h) + WeightOf(i) + WeightOf(j)
  {
    assert Weights([a, b, d, e, g, h, i, j])
        == [WeightOf(a), WeightOf(b), WeightOf(d), WeightOf(e), WeightOf(g), WeightOf(h), WeightOf(i), WeightOf(j)];
    Sums.SumOfEight(WeightOf(a), WeightOf(b), WeightOf(d), WeightOf(e), WeightOf(g), WeightOf(h), WeightOf(i), WeightOf(j));
  }

  lemma EightPulls(a: Term, b: Term, d: Term, e: Term, g: Term, h: Term, i: Term, j: Term)
    ensures WeightedSum([a, b, d, e, g, h, i, j])
         == PullOf(a) + PullOf(b) + PullOf(d) + PullOf(e) + PullOf(g) + PullOf(h) + PullOf(i) + PullOf(j)
  {
    assert Pulls([a, b, d, e, g, h, i, j])
        == [PullOf(a), PullOf(b), PullOf(d), PullOf(e), PullOf(g), PullOf(h), PullOf(i), PullOf(j)];
    Sums.SumOfEight(PullOf(a), PullOf(b), PullOf(d), PullOf(e), PullOf(g), PullOf(h), PullOf(i), PullOf(j));
  }

  /** The evidence is the weight of the axes that are there. */
  lemma EvidenceInFull(f: Features, c: Curves)
    ensures Evidence(f, c)
         == Counted(0.1725, SubScore(VolumeGrowth, f, c)) + Counted(0.1380, SubScore(SocialScore, f, c))
            + Counted(0.1380, SubScore(NewsScore, f, c)) + Counted(0.1380, SubScore(MarketTrend, f, c))
            + Counted(0.1035, SubScore(LiquidityScore, f, c)) + Counted(0.1380, SubScore(Positioning, f, c))
            + Counted(0.0920, SubScore(Fundamentals, f, c)) + Counted(0.0800, SubScore(DeveloperActivity, f, c))
  {
    TermsInFull(f, c);
    var t := Terms(f, c);
    EightWeights(t[0], t[1], t[2], t[3], t[4], t[5], t[6], t[7]);
  }

  /** The sum behind the mean: weight times reading, over the axes that are there. */
  function PullSum(f: Features, c: Curves): real {
    Pulled(0.1725, SubScore(VolumeGrowth, f, c)) + Pulled(0.1380, SubScore(SocialScore, f, c))
    + Pulled(0.1380, SubScore(NewsScore, f, c)) + Pulled(0.1380, SubScore(MarketTrend, f, c))
    + Pulled(0.1035, SubScore(LiquidityScore, f, c)) + Pulled(0.1380, SubScore(Positioning, f, c))
    + Pulled(0.0920, SubScore(Fundamentals, f, c)) + Pulled(0.0800, SubScore(DeveloperActivity, f, c))
  }

  lemma PullInFull(f: Features, c: Curves)
    ensures WeightedSum(Terms(f, c)) == PullSum(f, c)
  {
    TermsInFull(f, c);
    PullsOf(SubScore(VolumeGrowth, f, c), SubScore(SocialScore, f, c), SubScore(NewsScore, f, c), SubScore(MarketTrend, f, c),
            SubScore(LiquidityScore, f, c), SubScore(Positioning, f, c), SubScore(Fundamentals, f, c),
            SubScore(DeveloperActivity, f, c));
  }

  lemma PullsOf(a: Option<real>, b: Option<real>, d: Option<real>, e: Option<real>, g: Option<real>, h: Option<real>,
                i: Option<real>, j: Option<real>)
    ensures WeightedSum([Term(0.1725, a), Term(0.1380, b), Term(0.1380, d), Term(0.1380, e),
                         Term(0.1035, g), Term(0.1380, h), Term(0.0920, i), Term(0.0800, j)])
         == Pulled(0.1725, a) + Pulled(0.1380, b) + Pulled(0.1380, d) + Pulled(0.1380, e)
            + Pulled(0.1035, g) + Pulled(0.1380, h) + Pulled(0.0920, i) + Pulled(0.0800, j)
  {
    EightPulls(Term(0.1725, a), Term(0.1380, b), Term(0.1380, d), Term(0.1380, e),
               Term(0.1035, g), Term(0.1380, h), Term(0.0920, i), Term(0.0800, j));
    PullOfTerm(0.1725, a);
    PullOfTerm(0.1380, b);
    PullOfTerm(0.1380, d);
    PullOfTerm(0.1380, e);
    PullOfTerm(0.1035, g);
    PullOfTerm(0.1380, h);
    PullOfTerm(0.0920, i);
    PullOfTerm(0.0800, j);
  }

  lemma PullOfTerm(weight: real, v: Option<real>)
    ensures PullOf(Term(weight, v)) == Pulled(weight, v)
  {
  }

  /** Within half a point of a whole, out of 100. */
  predicate ScoreOf(score: int, sum: real, evidence: real) {
    -0.5 * evidence <= score as real * evidence - 100.0 * sum <= 0.5 * evidence
  }

  /** Above the floor of 0.184 the score is a hundred times the weighed mean of the axes that are there, to the nearest
      point, and the breakdown shows exactly these; under it there is no score and nothing to show. */
  lemma ScoreInFull(f: Features, c: Curves, axis: Axis)
    ensures Evidence(f, c) < 0.184 ==> Score(f, c) == ScoreResult(0, 0.0, map[])
    ensures Evidence(f, c) >= 0.184 ==>
      ScoreOf(Score(f, c).score, PullSum(f, c), Evidence(f, c))
    ensures Evidence(f, c) >= 0.184 ==>
      && (axis in Score(f, c).breakdown <==> SubScore(axis, f, c).Some?)
      && (axis in Score(f, c).breakdown ==> SubScore(axis, f, c) == Some(Score(f, c).breakdown[axis]))
  {
    if Evidence(f, c) >= 0.184 {
      PullInFull(f, c);
      RoundedMean(WeightedSum(Terms(f, c)), Evidence(f, c), Score(f, c).score);
    }
  }

  lemma RoundedMean(sum: real, evidence: real, score: int)
    requires evidence > 0.0 && score == Round(Times(sum / evidence, 100))
    ensures ScoreOf(score, sum, evidence)
  {
    var mean := sum / evidence;
    DivMul(sum, evidence);
    assert -0.5 <= score as real - 100.0 * mean <= 0.5;
    MulMonotone(evidence, -0.5, score as real - 100.0 * mean);
    MulMonotone(evidence, score as real - 100.0 * mean, 0.5);
    assert evidence * (score as real - 100.0 * mean) == score as real * evidence - 100.0 * (mean * evidence);
  }

  // ---------- Confidence ----------

  /** The evidence of the symbol's own: all of it, less the news axis when only the market's mood feeds that. */
  function OwnEvidence(f: Features, c: Curves): real {
    Evidence(f, c) - if f.newsImpact.None? && f.sentiment.None? && f.marketSentiment.Some? then 0.1380 else 0.0
  }

  /** Above the floor the confidence is the evidence of the symbol's own, to three decimals. */
  lemma ConfidenceIsOwnEvidence(f: Features, c: Curves)
    ensures Evidence(f, c) >= 0.184 ==> Near(Score(f, c).confidence, OwnEvidence(f, c), 1000)
    ensures Evidence(f, c) >= 0.184 ==> -0.0005 <= Score(f, c).confidence - OwnEvidence(f, c) <= 0.0005
  {
    if Evidence(f, c) >= 0.184 {
      OwnWeight(f, c);
      RoundToNear(OwnEvidence(f, c), 1000);
    }
  }

  /** Everything measured, with news or sentiment of the symbol's own, is full confidence. */
  lemma EverythingIsFullConfidence(f: Features, c: Curves)
    requires forall axis :: SubScore(axis, f, c).Some?
    requires f.newsImpact.Some? || f.sentiment.Some?
    ensures Score(f, c).confidence == 1.0
  {
    OwnWeight(f, c);
    EvidenceIsAShare(f, c);
    RoundOfInteger(1000);
  }

  function WeightInFull(axis: Axis): real {
    match axis
    case VolumeGrowth => 0.1725
    case SocialScore => 0.1380
    case NewsScore => 0.1380
    case MarketTrend => 0.1380
    case LiquidityScore => 0.1035
    case Positioning => 0.1380
    case Fundamentals => 0.0920
    case DeveloperActivity => 0.0800
  }

  /** Measuring one more axis, by a reading of the symbol's own, raises the confidence by that axis's weight, up to the two
      roundings. */
  lemma OneMoreAxisRaisesConfidence(f: Features, g: Features, c: Curves, axis: Axis)
    requires Evidence(f, c) >= 0.184
    requires SubScore(axis, f, c) == None && SubScore(axis, g, c).Some?
    requires forall other :: other != axis ==> SubScore(other, f, c) == SubScore(other, g, c)
    requires if axis == NewsScore then g.newsImpact.Some? || g.sentiment.Some?
             else f.newsImpact == g.newsImpact && f.sentiment == g.sentiment && f.marketSentiment == g.marketSentiment
    ensures -0.001 <= Score(g, c).confidence - Score(f, c).confidence - WeightInFull(axis) <= 0.001
  {
    MeasuringOneMoreAxis(f, g, c, axis);
    ConfidenceIsOwnEvidence(f, c);
    ConfidenceIsOwnEvidence(g, c);
    AxisIsMeasuredIff(f, c);
    assert Weight(axis) == WeightInFull(axis);
  }
}
