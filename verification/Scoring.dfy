/**
 * The deterministic opportunity score: eight axes normalised to [0, 1], averaged over the weight that
 * is really present, with no score at all below an evidence floor.
 */
module Scoring {
  import opened Rounding
  import Sums
  import opened WeightedMean
  import opened Wrappers

  datatype Axis =
    | VolumeGrowth | SocialScore | NewsScore | MarketTrend
    | LiquidityScore | Positioning | Fundamentals | DeveloperActivity

  const AXES: seq<Axis> :=
    [VolumeGrowth, SocialScore, NewsScore, MarketTrend, LiquidityScore, Positioning, Fundamentals, DeveloperActivity]

  function Weight(axis: Axis): (w: real)
    ensures 0.08 <= w <= 0.1725
  {
    match axis
    case VolumeGrowth => 0.1725
    case SocialScore => 0.1380
    case NewsScore => 0.1380
    case MarketTrend => 0.1380
    case LiquidityScore => 0.1035
    case Positioning => 0.1380
    case Fundamentals => 0.0920
    case DeveloperActivity => 0.0800
  }

  const FLOOR: real := 0.184
  const MARKET_DAMPING: real := 0.5
  const FUNDING_SCALE: real := 0.0001
  const UNLOCK_FULL_SEVERITY_PCT: real := 5.0
  const UNLOCK_HORIZON_DAYS: real := 30.0
  const MOMENTUM_SPAN: real := 3.0
  const FRESH_DAYS: int := 7
  const STALE_DAYS: int := 90
  const STAR_GROWTH_FULL: real := 0.02

  /** The transcendental functions the scorer calls: the logistic curve and two logarithms. */
  datatype Functions = Functions(logistic: real -> real, ln: real -> real, log10: real -> real)

  ghost predicate Plausible(c: Functions) {
    && (forall x :: 0.0 <= c.logistic(x) <= 1.0)
    && (forall x, y :: x <= y ==> c.logistic(x) <= c.logistic(y))
    && (forall x :: c.logistic(-x) == 1.0 - c.logistic(x))
    && (forall x, y :: 0.0 < x <= y ==> c.ln(x) <= c.ln(y))
    && (forall x :: 0.0 < x ==> c.ln(1.0 / x) == -c.ln(x))
    && c.ln(MOMENTUM_SPAN) > 0.0
    && (forall x, y :: 0.0 < x <= y ==> c.log10(x) <= c.log10(y))
    && c.log10(1_000.0) == 3.0 && c.log10(10_000_000.0) == 7.0
  }

  type Curves = c: Functions | Plausible(c) witness Stepwise()

  function StepLn(x: real): real {
    if x > 1.0 then 1.0 else if x < 1.0 then -1.0 else 0.0
  }

  function StepLog10(x: real): real {
    if x <= 1_000.0 then 3.0 else 7.0
  }

  /** The simplest functions with these properties. */
  function Stepwise(): (c: Functions)
    ensures Plausible(c)
  {
    assert forall x :: 0.0 < x ==> StepLn(1.0 / x) == -StepLn(x) by {
      forall x | 0.0 < x ensures StepLn(1.0 / x) == -StepLn(x) {
        InverseSide(x);
      }
    }
    Functions((x: real) => 0.5, StepLn, StepLog10)
  }

  lemma InverseSide(x: real)
    requires 0.0 < x
    ensures x > 1.0 ==> 1.0 / x < 1.0
    ensures x < 1.0 ==> 1.0 / x > 1.0
    ensures 0.0 < 1.0 / x
  {
    DivMul(1.0, x);
  }

  datatype Features = Features(
    priceChange: Option<real>,
    volumeSpike: Option<real>,
    liquidity: Option<real>,
    sentiment: Option<real>,
    socialGrowth: Option<real>,
    newsImpact: Option<real>,
    marketSentiment: Option<real>,
    funding: Option<real>,
    longShortRatio: Option<real>,
    openInterestChange: Option<real>,
    tvlChange: Option<real>,
    feesChange: Option<real>,
    unlockPct: Option<real>,
    unlockDays: Option<real>,
    hasUnlockSchedule: bool,
    commitRatio: Option<real>,
    prRatio: Option<real>,
    daysSincePush: Option<int>,
    starGrowth: Option<real>,
    allArchived: bool)

  datatype ScoreResult = ScoreResult(score: int, confidence: real, breakdown: map<Axis, real>)

  predicate Unit(v: Option<real>) {
    v.Some? ==> 0.0 <= v.value <= 1.0
  }

  function Clamp(x: real): (r: real)
    ensures 0.0 <= r <= 1.0
    ensures 0.0 <= x <= 1.0 ==> r == x
  {
    if x < 0.0 then 0.0 else if x > 1.0 then 1.0 else x
  }

  /** The mean over the present terms, absent when none is. */
  function MeanOf(terms: seq<Term>): Option<real> {
    if PresentWeight(terms) > 0.0 then Some(Mean(terms)) else None
  }

  lemma MeanOfIsUnit(terms: seq<Term>)
    requires Positive(terms) && Within(terms, 0.0, 1.0)
    ensures Unit(MeanOf(terms))
    ensures MeanOf(terms).Some? <==> exists i :: 0 <= i < |terms| && terms[i].value.Some?
  {
    PresentWeightPositive(terms);
    if PresentWeight(terms) > 0.0 {
      MeanWithin(terms, 0.0, 1.0);
    }
  }

  function Volume(ratio: Option<real>, c: Curves): Option<real> {
    if ratio.None? then None else Some(Clamp(c.logistic(0.7 * (ratio.value - 3.0))))
  }

  function Social(growth: Option<real>, c: Curves): Option<real> {
    if growth.None? then None else Some(Clamp(c.logistic(1.5 * growth.value)))
  }

  /** The symbol's own sentiment, else the damped market-wide one, else neutral. */
  function Mood(sentiment: Option<real>, market: Option<real>): real {
    if sentiment.Some? then sentiment.value
    else if market.Some? then market.value * MARKET_DAMPING
    else 0.0
  }

  function News(impact: Option<real>, sentiment: Option<real>, market: Option<real>): Option<real> {
    if impact.None? && sentiment.None? && market.None? then None
    else Some(Clamp(0.5 * impact.GetOr(0.0) + 0.5 * ((Mood(sentiment, market) + 1.0) / 2.0)))
  }

  function Trend(change: Option<real>, c: Curves): Option<real> {
    if change.None? then None else Some(Clamp(c.logistic(change.value / 15.0)))
  }

  function Liquidity(liquidity: Option<real>, c: Curves): Option<real> {
    if liquidity.None? then None
    else if liquidity.value <= 0.0 then Some(0.0)
    else Some(Clamp((c.log10(liquidity.value) - 3.0) / 4.0))
  }

  function PositioningTerms(funding: Option<real>, ratio: Option<real>, oiChange: Option<real>, c: Curves): seq<Term> {
    [ Term(1.0, if funding.None? then None else Some(c.logistic(-(funding.value / FUNDING_SCALE)))),
      Term(1.0, if ratio.None? || ratio.value <= 0.0 then None else Some(c.logistic(1.5 * -c.ln(ratio.value)))),
      Term(1.0, if oiChange.None? then None else Some(c.logistic(oiChange.value / 20.0))) ]
  }

  /** A sized and dated unlock costs severity times proximity; half a reading is no reading. */
  function Unlock(hasSchedule: bool, pct: Option<real>, days: Option<real>): Option<real> {
    if !hasSchedule then None
    else if pct.None? && days.None? then Some(1.0)
    else if pct.None? || days.None? then None
    else Some(1.0 - Clamp(pct.value / UNLOCK_FULL_SEVERITY_PCT) * Clamp(1.0 - days.value / UNLOCK_HORIZON_DAYS))
  }

  function FundamentalsTerms(tvl: Option<real>, fees: Option<real>, unlock: Option<real>, c: Curves): seq<Term> {
    [ Term(1.0, if tvl.None? then None else Some(c.logistic(tvl.value / 15.0))),
      Term(1.0, if fees.None? then None else Some(c.logistic(fees.value / 25.0))),
      Term(1.0, unlock) ]
  }

  function Momentum(ratio: Option<real>, c: Curves): Option<real> {
    if ratio.None? then None
    else if ratio.value <= 0.0 then Some(0.0)
    else Some(Clamp(0.5 + 0.5 * c.ln(ratio.value) / c.ln(MOMENTUM_SPAN)))
  }

  function Freshness(days: Option<int>): Option<real> {
    if days.None? then None
    else if days.value <= FRESH_DAYS then Some(1.0)
    else if days.value >= STALE_DAYS then Some(0.0)
    else Some(1.0 - (days.value - FRESH_DAYS) as real / (STALE_DAYS - FRESH_DAYS) as real)
  }

  function Stars(growth: Option<real>): Option<real> {
    if growth.None? then None else Some(Clamp(growth.value / STAR_GROWTH_FULL))
  }

  function DeveloperTerms(commit: Option<real>, pr: Option<real>, days: Option<int>, stars: Option<real>, c: Curves): seq<Term> {
    [ Term(0.40, Momentum(commit, c)),
      Term(0.25, Momentum(pr, c)),
      Term(0.25, Freshness(days)),
      Term(0.10, Stars(stars)) ]
  }

  function PositioningScore(f: Features, c: Curves): Option<real> {
    MeanOf(PositioningTerms(f.funding, f.longShortRatio, f.openInterestChange, c))
  }

  function FundamentalsScore(f: Features, c: Curves): Option<real> {
    MeanOf(FundamentalsTerms(f.tvlChange, f.feesChange, Unlock(f.hasUnlockSchedule, f.unlockPct, f.unlockDays), c))
  }

  function DeveloperScore(f: Features, c: Curves): Option<real> {
    if f.allArchived then Some(0.0)
    else MeanOf(DeveloperTerms(f.commitRatio, f.prRatio, f.daysSincePush, f.starGrowth, c))
  }

  function SubScore(axis: Axis, f: Features, c: Curves): Option<real> {
    match axis
    case VolumeGrowth => Volume(f.volumeSpike, c)
    case SocialScore => Social(f.socialGrowth, c)
    case NewsScore => News(f.newsImpact, f.sentiment, f.marketSentiment)
    case MarketTrend => Trend(f.priceChange, c)
    case LiquidityScore => Liquidity(f.liquidity, c)
    case Positioning => PositioningScore(f, c)
    case Fundamentals => FundamentalsScore(f, c)
    case DeveloperActivity => DeveloperScore(f, c)
  }

  function Terms(f: Features, c: Curves): (r: seq<Term>)
    ensures |r| == |AXES|
  {
    seq(|AXES|, i requires 0 <= i < |AXES| => Term(Weight(AXES[i]), SubScore(AXES[i], f, c)))
  }

  /** The share of model weight some reading backs. */
  function Evidence(f: Features, c: Curves): real {
    PresentWeight(Terms(f, c))
  }

  /** Confidence counts symbol-specific evidence only: a news axis fed by the market alone is left out. */
  function OwnTerms(f: Features, c: Curves): (r: seq<Term>)
    ensures |r| == |AXES|
  {
    if f.newsImpact.None? && f.sentiment.None? then Terms(f, c)[2 := Term(Weight(NewsScore), None)] else Terms(f, c)
  }

  function Score(f: Features, c: Curves): ScoreResult {
    if Evidence(f, c) < FLOOR then ScoreResult(0, 0.0, map[])
    else
      ScoreResult(
        Round(Times(Mean(Terms(f, c)), 100)),
        RoundTo(PresentWeight(OwnTerms(f, c)), 1000),
        map axis: Axis | SubScore(axis, f, c).Some? :: SubScore(axis, f, c).value)
  }

  lemma AxesCover(axis: Axis) returns (i: nat)
    ensures i < |AXES| && AXES[i] == axis
  {
    i := match axis
      case VolumeGrowth => 0
      case SocialScore => 1
      case NewsScore => 2
      case MarketTrend => 3
      case LiquidityScore => 4
      case Positioning => 5
      case Fundamentals => 6
      case DeveloperActivity => 7;
  }

  lemma UnlockIsUnit(hasSchedule: bool, pct: Option<real>, days: Option<real>)
    ensures Unit(Unlock(hasSchedule, pct, days))
  {
    if hasSchedule && pct.Some? && days.Some? {
      ProductIsUnit(Clamp(pct.value / UNLOCK_FULL_SEVERITY_PCT), Clamp(1.0 - days.value / UNLOCK_HORIZON_DAYS));
    }
  }

  lemma PositioningIsUnit(f: Features, c: Curves)
    ensures Unit(PositioningScore(f, c))
  {
    MeanOfIsUnit(PositioningTerms(f.funding, f.longShortRatio, f.openInterestChange, c));
  }

  lemma FundamentalsIsUnit(f: Features, c: Curves)
    ensures Unit(FundamentalsScore(f, c))
  {
    UnlockIsUnit(f.hasUnlockSchedule, f.unlockPct, f.unlockDays);
    MeanOfIsUnit(FundamentalsTerms(f.tvlChange, f.feesChange, Unlock(f.hasUnlockSchedule, f.unlockPct, f.unlockDays), c));
  }

  lemma DeveloperIsUnit(f: Features, c: Curves)
    ensures Unit(DeveloperScore(f, c))
  {
    MeanOfIsUnit(DeveloperTerms(f.commitRatio, f.prRatio, f.daysSincePush, f.starGrowth, c));
  }

  lemma ProductIsUnit(a: real, b: real)
    requires 0.0 <= a <= 1.0 && 0.0 <= b <= 1.0
    ensures 0.0 <= a * b
    ensures a * b <= 1.0
  {
    MulMonotone(a, b, 1.0);
    assert a * b <= a * 1.0;
    assert a * 1.0 == a;
  }

  /** Every sub-score that exists lies in [0, 1], whatever the readings. */
  lemma SubScoresAreUnit(axis: Axis, f: Features, c: Curves)
    ensures Unit(SubScore(axis, f, c))
  {
    match axis
    case Positioning => PositioningIsUnit(f, c);
    case Fundamentals => FundamentalsIsUnit(f, c);
    case DeveloperActivity => DeveloperIsUnit(f, c);
    case _ =>
  }

  lemma TermsArePositive(f: Features, c: Curves)
    ensures Positive(Terms(f, c)) && Within(Terms(f, c), 0.0, 1.0)
  {
    forall axis ensures Unit(SubScore(axis, f, c)) {
      SubScoresAreUnit(axis, f, c);
    }
  }

  /**
   * Above the floor, the score lies between 100 times the least and 100 times the greatest present
   * sub-score, rounded; it is on the 0-100 scale in every case.
   */
  lemma ScoreWithinReadings(f: Features, c: Curves, low: real, high: real)
    requires forall axis :: SubScore(axis, f, c).Some? ==> low <= SubScore(axis, f, c).value <= high
    ensures Evidence(f, c) >= FLOOR ==> Round(Times(low, 100)) <= Score(f, c).score <= Round(Times(high, 100))
    ensures 0 <= Score(f, c).score <= 100
  {
    TermsArePositive(f, c);
    if Evidence(f, c) >= FLOOR {
      MeanWithin(Terms(f, c), low, high);
      MeanWithin(Terms(f, c), 0.0, 1.0);
      RoundTimesMonotone(low, Mean(Terms(f, c)), 100);
      RoundTimesMonotone(Mean(Terms(f, c)), high, 100);
      RoundTimesMonotone(0.0, Mean(Terms(f, c)), 100);
      RoundTimesMonotone(Mean(Terms(f, c)), 1.0, 100);
      RoundOfInteger(0);
      RoundOfInteger(100);
    }
  }

  /** Dropping the market-fed news axis takes off its weight when it was there, and nothing else. */
  lemma OwnWeight(f: Features, c: Curves)
    ensures PresentWeight(OwnTerms(f, c)) == Evidence(f, c)
      - (if f.newsImpact.None? && f.sentiment.None? && f.marketSentiment.Some? then Weight(NewsScore) else 0.0)
  {
    UpdateSums(Terms(f, c), 2, Term(Weight(NewsScore), None));
  }

  /** The model weighs exactly 1: measuring everything is full evidence, and nothing exceeds it. */
  lemma EvidenceIsAShare(f: Features, c: Curves)
    ensures (forall axis :: SubScore(axis, f, c).Some?) ==> Evidence(f, c) == 1.0
    ensures 0.0 <= Evidence(f, c) <= 1.0
  {
    var all := [0.1725, 0.1380, 0.1380, 0.1380, 0.1035, 0.1380, 0.0920, 0.0800];
    Sums.SumOfEight(0.1725, 0.1380, 0.1380, 0.1380, 0.1035, 0.1380, 0.0920, 0.0800);
    TermsArePositive(f, c);
    PresentWeightPositive(Terms(f, c));
    assert forall i :: 0 <= i < |AXES| ==> Weight(AXES[i]) == all[i];
    Sums.SumMonotone(Weights(Terms(f, c)), all);
    if forall axis :: SubScore(axis, f, c).Some? {
      assert Weights(Terms(f, c)) == all;
    }
  }

  /** Confidence is a share too, and never more than the (rounded) evidence. */
  lemma ConfidenceIsAShare(f: Features, c: Curves)
    ensures 0.0 <= Score(f, c).confidence <= 1.0
    ensures Evidence(f, c) >= FLOOR ==> Score(f, c).confidence <= RoundTo(Evidence(f, c), 1000)
    ensures Evidence(f, c) >= FLOOR ==>
              Near(Score(f, c).confidence,
                   Evidence(f, c) - (if f.newsImpact.None? && f.sentiment.None? && f.marketSentiment.Some? then 0.1380 else 0.0), 1000)
  {
    if Evidence(f, c) >= FLOOR {
      var own := PresentWeight(OwnTerms(f, c));
      OwnWeight(f, c);
      EvidenceIsAShare(f, c);
      RoundToMonotone(own, Evidence(f, c), 1000);
      RoundToNear(own, 1000);
      OwnShare(own);
    }
  }

  lemma OwnShare(own: real)
    requires 0.046 <= own <= 1.0
    ensures 0.046 <= RoundTo(own, 1000) <= 1.0
  {
    RoundToMonotone(0.046, own, 1000);
    RoundToMonotone(own, 1.0, 1000);
    assert Times(0.046, 1000) == 46.0 && Times(1.0, 1000) == 1000.0;
    RoundOfInteger(46);
    RoundOfInteger(1000);
  }

  /**
   * The replay's test for "no evidence" is exact: the confidence is 0.0 if and only if the present
   * weight is under the floor, if and only if the breakdown is empty.
   */
  lemma ZeroConfidenceIsNoEvidence(f: Features, c: Curves)
    ensures Score(f, c).confidence == 0.0 <==> Evidence(f, c) < FLOOR
    ensures Score(f, c).breakdown == map[] <==> Evidence(f, c) < FLOOR
  {
    if Evidence(f, c) >= FLOOR {
      OwnWeight(f, c);
      EvidenceIsAShare(f, c);
      OwnShare(PresentWeight(OwnTerms(f, c)));
      SomethingIsPresent(f, c);
    }
  }

  lemma SomethingIsPresent(f: Features, c: Curves)
    requires Evidence(f, c) >= FLOOR
    ensures Score(f, c).breakdown != map[]
  {
    TermsArePositive(f, c);
    PresentWeightPositive(Terms(f, c));
    var i :| 0 <= i < |AXES| && Terms(f, c)[i].value.Some?;
    assert AXES[i] in Score(f, c).breakdown;
  }

  /**
   * The market-wide mood is the same number for every symbol: it may move a score, but two feature
   * vectors that differ in nothing else and are both scored have the same confidence.
   */
  lemma MarketMoodDoesNotMoveConfidence(f: Features, market: Option<real>, c: Curves)
    requires Evidence(f, c) >= FLOOR && Evidence(f.(marketSentiment := market), c) >= FLOOR
    ensures Score(f, c).confidence == Score(f.(marketSentiment := market), c).confidence
  {
    var g := f.(marketSentiment := market);
    forall i | 0 <= i < |AXES|
      ensures WeightOf(OwnTerms(f, c)[i]) == WeightOf(OwnTerms(g, c)[i])
    {
      if AXES[i] != NewsScore {
        assert SubScore(AXES[i], f, c) == SubScore(AXES[i], g, c) by { OnlyNewsReadsTheMarket(AXES[i], f, market, c); }
      }
    }
    assert Weights(OwnTerms(f, c)) == Weights(OwnTerms(g, c));
  }

  lemma OnlyNewsReadsTheMarket(axis: Axis, f: Features, market: Option<real>, c: Curves)
    requires axis != NewsScore
    ensures SubScore(axis, f, c) == SubScore(axis, f.(marketSentiment := market), c)
  {
  }

  /** Only these axes are present. */
  ghost predicate OnlyPresent(axes: set<Axis>, f: Features, c: Curves) {
    forall axis :: SubScore(axis, f, c).Some? <==> axis in axes
  }

  /** The eight terms with nothing measured. */
  function Blank(): (r: seq<Term>)
    ensures |r| == |AXES|
  {
    seq(|AXES|, i requires 0 <= i < |AXES| => Term(Weight(AXES[i]), None))
  }

  lemma BlankWeighsNothing()
    ensures PresentWeight(Blank()) == 0.0
  {
    Sums.SumOfZeros(Weights(Blank()));
  }

  /** The floor sits above the heaviest axis: one axis alone never produces a score. */
  lemma OneAxisIsNotEnough(f: Features, c: Curves, only: Axis)
    ensures OnlyPresent({only}, f, c) ==> Score(f, c) == ScoreResult(0, 0.0, map[])
  {
    if OnlyPresent({only}, f, c) {
      var i := AxesCover(only);
      forall k | 0 <= k < |AXES| ensures Terms(f, c)[k].value.Some? <==> k == i {
        AxesDistinct(k, i);
      }
      SingleWeight(Terms(f, c), i);
    }
  }

  /** Terms carrying the model's weights, of which exactly this one is present. */
  lemma SingleWeight(terms: seq<Term>, i: nat)
    requires |terms| == |AXES| && i < |AXES|
    requires forall k :: 0 <= k < |AXES| ==> terms[k].weight == Weight(AXES[k])
    requires forall k :: 0 <= k < |AXES| ==> (terms[k].value.Some? <==> k == i)
    ensures PresentWeight(terms) == Weight(AXES[i])
  {
    forall k | 0 <= k < |AXES| ensures terms[k] == Blank()[i := terms[i]][k] {
      assert terms[k].value.None? ==> terms[k] == Term(Weight(AXES[k]), None);
    }
    assert terms == Blank()[i := terms[i]];
    UpdateSums(Blank(), i, terms[i]);
    BlankWeighsNothing();
  }

  /** Two axes are enough unless developer activity is paired with fundamentals or with liquidity. */
  lemma ScorablePairs(f: Features, c: Curves, a: Axis, b: Axis)
    requires a != b && OnlyPresent({a, b}, f, c)
    ensures Evidence(f, c) == Weight(a) + Weight(b)
    ensures Score(f, c).breakdown != map[]
      <==> {a, b} != {DeveloperActivity, Fundamentals} && {a, b} != {DeveloperActivity, LiquidityScore}
  {
    PairEvidence(f, c, a, b);
    ZeroConfidenceIsNoEvidence(f, c);
    PairsUnderFloor(a, b);
  }

  lemma PairEvidence(f: Features, c: Curves, a: Axis, b: Axis)
    requires a != b && OnlyPresent({a, b}, f, c)
    ensures Evidence(f, c) == Weight(a) + Weight(b)
  {
    var i := AxesCover(a);
    var j := AxesCover(b);
    forall k | 0 <= k < |AXES| ensures Terms(f, c)[k].value.Some? <==> k == i || k == j {
      AxesDistinct(k, i);
      AxesDistinct(k, j);
    }
    PairWeight(Terms(f, c), i, j);
  }

  lemma AxesDistinct(i: nat, j: nat)
    requires i < |AXES| && j < |AXES|
    ensures AXES[i] == AXES[j] <==> i == j
  {
  }

  /** Terms carrying the model's weights, of which exactly these two are present. */
  lemma PairWeight(terms: seq<Term>, i: nat, j: nat)
    requires |terms| == |AXES| && i < |AXES| && j < |AXES| && i != j
    requires forall k :: 0 <= k < |AXES| ==> terms[k].weight == Weight(AXES[k])
    requires forall k :: 0 <= k < |AXES| ==> (terms[k].value.Some? <==> k == i || k == j)
    ensures PresentWeight(terms) == Weight(AXES[i]) + Weight(AXES[j])
  {
    forall k | 0 <= k < |AXES| ensures terms[k] == Blank()[i := terms[i]][j := terms[j]][k] {
      assert terms[k].value.None? ==> terms[k] == Term(Weight(AXES[k]), None);
    }
    assert terms == Blank()[i := terms[i]][j := terms[j]];
    UpdateSums(Blank(), i, terms[i]);
    UpdateSums(Blank()[i := terms[i]], j, terms[j]);
    BlankWeighsNothing();
  }

  lemma PairsUnderFloor(a: Axis, b: Axis)
    requires a != b
    ensures Weight(a) + Weight(b) < FLOOR
      <==> {a, b} == {DeveloperActivity, Fundamentals} || {a, b} == {DeveloperActivity, LiquidityScore}
  {
    if a == DeveloperActivity {
      assert b in {a, b};
    } else if b == DeveloperActivity {
      assert a in {a, b};
    } else {
      assert DeveloperActivity !in {a, b};
    }
  }

  /**
   * Measuring one more axis, with every other reading unchanged, moves the score toward what that
   * axis reads and never past it.
   */
  lemma MeasuringOneMoreAxis(f: Features, g: Features, c: Curves, axis: Axis)
    requires Evidence(f, c) >= FLOOR
    requires SubScore(axis, f, c) == None && SubScore(axis, g, c).Some?
    requires forall other :: other != axis ==> SubScore(other, f, c) == SubScore(other, g, c)
    ensures Evidence(g, c) == Evidence(f, c) + Weight(axis)
    ensures var reading := Round(Times(SubScore(axis, g, c).value, 100));
            || Score(f, c).score <= Score(g, c).score <= reading
            || reading <= Score(g, c).score <= Score(f, c).score
  {
    var i := AxesCover(axis);
    var v := SubScore(axis, g, c).value;
    var before, after := Terms(f, c), Terms(g, c);
    assert after == before[i := Term(before[i].weight, Some(v))];
    UpdateSums(before, i, after[i]);
    FillingMovesToward(before, i, v);
    if Mean(before) <= v {
      RoundTimesMonotone(Mean(before), Mean(after), 100);
      RoundTimesMonotone(Mean(after), v, 100);
    } else {
      RoundTimesMonotone(Mean(after), Mean(before), 100);
      RoundTimesMonotone(v, Mean(after), 100);
    }
  }

  /** With the same axes present and none reading lower, the score is no lower. */
  lemma HigherReadingsNeverLowerTheScore(f: Features, g: Features, c: Curves)
    requires forall axis ::
      && (SubScore(axis, f, c).Some? <==> SubScore(axis, g, c).Some?)
      && (SubScore(axis, f, c).Some? ==> SubScore(axis, f, c).value <= SubScore(axis, g, c).value)
    ensures Score(f, c).score <= Score(g, c).score
  {
    assert Raised(Terms(f, c), Terms(g, c));
    TermsArePositive(f, c);
    assert Weights(Terms(f, c)) == Weights(Terms(g, c));
    if Evidence(f, c) >= FLOOR {
      RaisingRaisesMean(Terms(f, c), Terms(g, c));
      RoundTimesMonotone(Mean(Terms(f, c)), Mean(Terms(g, c)), 100);
    }
  }

  // ---------- Better raw readings ----------

  /** Both absent, or both present and the second no lower. */
  predicate NoLower(a: Option<real>, b: Option<real>) {
    (a.Some? <==> b.Some?) && (a.Some? ==> a.value <= b.value)
  }

  /** Raising terms of equal weights, present alike, raises their mean if there is one. */
  lemma MeanOfNoLower(low: seq<Term>, high: seq<Term>)
    requires Raised(low, high) && Positive(low)
    ensures NoLower(MeanOf(low), MeanOf(high))
  {
    PresentWeightPositive(low);
    assert Weights(low) == Weights(high);
    if PresentWeight(low) > 0.0 {
      RaisingRaisesMean(low, high);
    }
  }

  /** g's derivatives book is no more crowded with longs and no less engaged than f's, where they are measured. */
  predicate LessCrowded(f: Features, g: Features) {
    && NoLower(g.funding, f.funding)
    && NoLower(g.longShortRatio, f.longShortRatio)
    && (g.longShortRatio.Some? ==> (g.longShortRatio.value <= 0.0 <==> f.longShortRatio.value <= 0.0))
    && NoLower(f.openInterestChange, g.openInterestChange)
  }

  /** Contrarian on crowding, confirmatory on engagement: such a book never reads lower. */
  lemma PositioningIsContrarian(f: Features, g: Features, c: Curves)
    requires LessCrowded(f, g)
    ensures NoLower(SubScore(Positioning, f, c), SubScore(Positioning, g, c))
    ensures f.funding.Some? || f.openInterestChange.Some? ==> SubScore(Positioning, f, c).Some?
  {
    var low := PositioningTerms(f.funding, f.longShortRatio, f.openInterestChange, c);
    var high := PositioningTerms(g.funding, g.longShortRatio, g.openInterestChange, c);
    FundingIsContrarian(f.funding, g.funding, c);
    CrowdIsContrarian(f.longShortRatio, g.longShortRatio, c);
    EngagementConfirms(f.openInterestChange, g.openInterestChange, c);
    PresentWeightPositive(low);
    assert low[0].value.Some? <==> f.funding.Some?;
    assert low[2].value.Some? <==> f.openInterestChange.Some?;
    MeanOfNoLower(low, high);
  }

  lemma FundingIsContrarian(f: Option<real>, g: Option<real>, c: Curves)
    requires NoLower(g, f)
    ensures f.Some? ==> c.logistic(-(f.value / FUNDING_SCALE)) <= c.logistic(-(g.value / FUNDING_SCALE))
  {
    if f.Some? {
      DivMonotone(g.value, f.value, FUNDING_SCALE);
    }
  }

  lemma CrowdIsContrarian(f: Option<real>, g: Option<real>, c: Curves)
    requires NoLower(g, f)
    ensures f.Some? && 0.0 < g.value ==> c.logistic(1.5 * -c.ln(f.value)) <= c.logistic(1.5 * -c.ln(g.value))
  {
    if f.Some? && 0.0 < g.value {
      assert c.ln(g.value) <= c.ln(f.value);
    }
  }

  lemma EngagementConfirms(f: Option<real>, g: Option<real>, c: Curves)
    requires NoLower(f, g)
    ensures f.Some? ==> c.logistic(f.value / 20.0) <= c.logistic(g.value / 20.0)
  {
    if f.Some? {
      DivMonotone(f.value, g.value, 20.0);
    }
  }

  /** The protocol earns no less in g, and no unlock is larger or nearer. */
  predicate SounderEconomics(f: Features, g: Features) {
    && NoLower(f.tvlChange, g.tvlChange) && NoLower(f.feesChange, g.feesChange)
    && f.hasUnlockSchedule == g.hasUnlockSchedule
    && NoLower(g.unlockPct, f.unlockPct) && NoLower(f.unlockDays, g.unlockDays)
  }

  lemma SounderNeverLower(f: Features, g: Features, c: Curves)
    requires SounderEconomics(f, g)
    ensures NoLower(FundamentalsScore(f, c), FundamentalsScore(g, c))
  {
    var unlockF := Unlock(f.hasUnlockSchedule, f.unlockPct, f.unlockDays);
    var unlockG := Unlock(g.hasUnlockSchedule, g.unlockPct, g.unlockDays);
    assert NoLower(unlockF, unlockG) by {
      if f.hasUnlockSchedule && f.unlockPct.Some? && f.unlockDays.Some? {
        UnlocksOnlyCost(g.unlockPct.value, g.unlockDays.value, f.unlockPct.value, f.unlockDays.value);
      }
    }
    ScaledNoLower(f.tvlChange, g.tvlChange, 15.0, c);
    ScaledNoLower(f.feesChange, g.feesChange, 25.0, c);
    MeanOfNoLower(FundamentalsTerms(f.tvlChange, f.feesChange, unlockF, c), FundamentalsTerms(g.tvlChange, g.feesChange, unlockG, c));
  }

  lemma ScaledNoLower(f: Option<real>, g: Option<real>, scale: real, c: Curves)
    requires NoLower(f, g) && scale > 0.0
    ensures f.Some? ==> c.logistic(f.value / scale) <= c.logistic(g.value / scale)
  {
    if f.Some? {
      DivMonotone(f.value, g.value, scale);
    }
  }

  /** Developers are no slower in g, no longer absent, and no less followed. */
  predicate BusierDevelopers(f: Features, g: Features) {
    && f.allArchived == g.allArchived
    && NoLower(f.commitRatio, g.commitRatio) && NoLower(f.prRatio, g.prRatio) && NoLower(f.starGrowth, g.starGrowth)
    && (f.daysSincePush.Some? <==> g.daysSincePush.Some?)
    && (f.daysSincePush.Some? ==> g.daysSincePush.value <= f.daysSincePush.value)
  }

  lemma BusierNeverLower(f: Features, g: Features, c: Curves)
    requires BusierDevelopers(f, g)
    ensures NoLower(DeveloperScore(f, c), DeveloperScore(g, c))
  {
    var low := DeveloperTerms(f.commitRatio, f.prRatio, f.daysSincePush, f.starGrowth, c);
    var high := DeveloperTerms(g.commitRatio, g.prRatio, g.daysSincePush, g.starGrowth, c);
    PaceNoLower(f.commitRatio, g.commitRatio, c);
    PaceNoLower(f.prRatio, g.prRatio, c);
    PaceNoLower(f.starGrowth, g.starGrowth, c);
    FreshnessNoLower(f.daysSincePush, g.daysSincePush);
    RaisedFour(low, high);
    MeanOfNoLower(low, high);
  }

  lemma RaisedFour(low: seq<Term>, high: seq<Term>)
    requires |low| == 4 == |high| && forall i :: 0 <= i < 4 ==> low[i].weight == high[i].weight && low[i].weight > 0.0
    requires NoLower(low[0].value, high[0].value) && NoLower(low[1].value, high[1].value)
    requires NoLower(low[2].value, high[2].value) && NoLower(low[3].value, high[3].value)
    ensures Raised(low, high) && Positive(low)
  {
  }

  lemma FreshnessNoLower(f: Option<int>, g: Option<int>)
    requires (f.Some? <==> g.Some?) && (f.Some? ==> g.value <= f.value)
    ensures NoLower(Freshness(f), Freshness(g))
  {
    if f.Some? {
      FreshnessFades(g.value, f.value);
    }
  }

  lemma PaceNoLower(f: Option<real>, g: Option<real>, c: Curves)
    requires NoLower(f, g)
    ensures NoLower(Momentum(f, c), Momentum(g, c)) && NoLower(Stars(f), Stars(g)) && NoLower(Liquidity(f, c), Liquidity(g, c))
  {
    if f.Some? {
      LogsPointTheRightWay(f.value, g.value, c);
    }
  }

  /** The same readings present in both, and none of them worse in g. */
  predicate NoReadingWorse(f: Features, g: Features) {
    && NoLower(f.volumeSpike, g.volumeSpike) && NoLower(f.socialGrowth, g.socialGrowth)
    && NoLower(f.priceChange, g.priceChange) && NoLower(f.liquidity, g.liquidity)
    && NoLower(f.newsImpact, g.newsImpact) && NoLower(f.sentiment, g.sentiment) && NoLower(f.marketSentiment, g.marketSentiment)
    && LessCrowded(f, g) && SounderEconomics(f, g) && BusierDevelopers(f, g)
  }

  lemma CurveAxesNeverLower(f: Features, g: Features, c: Curves)
    requires NoReadingWorse(f, g)
    ensures NoLower(Volume(f.volumeSpike, c), Volume(g.volumeSpike, c))
    ensures NoLower(Social(f.socialGrowth, c), Social(g.socialGrowth, c))
    ensures NoLower(Trend(f.priceChange, c), Trend(g.priceChange, c))
  {
    if f.volumeSpike.Some? {
      CurvesPointTheRightWay(f.volumeSpike.value, g.volumeSpike.value, c);
    }
    if f.socialGrowth.Some? {
      CurvesPointTheRightWay(f.socialGrowth.value, g.socialGrowth.value, c);
    }
    if f.priceChange.Some? {
      CurvesPointTheRightWay(f.priceChange.value, g.priceChange.value, c);
    }
  }

  /** One reading of the news after the other. */
  lemma NewsNeverLower(f: Features, g: Features)
    requires NoLower(f.newsImpact, g.newsImpact) && NoLower(f.sentiment, g.sentiment) && NoLower(f.marketSentiment, g.marketSentiment)
    ensures NoLower(News(f.newsImpact, f.sentiment, f.marketSentiment), News(g.newsImpact, g.sentiment, g.marketSentiment))
  {
    if f.newsImpact.Some? {
      NewsPointsTheRightWay(f.newsImpact, f.sentiment, f.marketSentiment, f.newsImpact.value, g.newsImpact.value);
    }
    if f.sentiment.Some? {
      NewsPointsTheRightWay(g.newsImpact, f.sentiment, f.marketSentiment, f.sentiment.value, g.sentiment.value);
    }
    if f.marketSentiment.Some? {
      NewsPointsTheRightWay(g.newsImpact, g.sentiment, f.marketSentiment, f.marketSentiment.value, g.marketSentiment.value);
    }
  }

  lemma AxisNeverLower(axis: Axis, f: Features, g: Features, c: Curves)
    requires NoReadingWorse(f, g)
    ensures NoLower(SubScore(axis, f, c), SubScore(axis, g, c))
  {
    match axis
    case Positioning => PositioningIsContrarian(f, g, c);
    case Fundamentals => SounderNeverLower(f, g, c);
    case DeveloperActivity => BusierNeverLower(f, g, c);
    case NewsScore => NewsNeverLower(f, g);
    case LiquidityScore => PaceNoLower(f.liquidity, g.liquidity, c);
    case _ => CurveAxesNeverLower(f, g, c);
  }

  /** With the same readings present and none of them worse, through every curve, mean and weight of the model: the score
      is no lower, and the evidence and the confidence are the same. */
  lemma BetterReadingsNeverLowerTheScore(f: Features, g: Features, c: Curves)
    requires NoReadingWorse(f, g)
    ensures Score(f, c).score <= Score(g, c).score
    ensures Evidence(f, c) == Evidence(g, c) && Score(f, c).confidence == Score(g, c).confidence
  {
    forall axis ensures NoLower(SubScore(axis, f, c), SubScore(axis, g, c)) {
      AxisNeverLower(axis, f, g, c);
    }
    HigherReadingsNeverLowerTheScore(f, g, c);
    SamePresence(f, g, c);
  }

  lemma SamePresence(f: Features, g: Features, c: Curves)
    requires forall axis :: SubScore(axis, f, c).Some? <==> SubScore(axis, g, c).Some?
    requires (f.newsImpact.Some? <==> g.newsImpact.Some?) && (f.sentiment.Some? <==> g.sentiment.Some?)
    ensures Evidence(f, c) == Evidence(g, c) && PresentWeight(OwnTerms(f, c)) == PresentWeight(OwnTerms(g, c))
  {
    assert Weights(Terms(f, c)) == Weights(Terms(g, c));
    assert Weights(OwnTerms(f, c)) == Weights(OwnTerms(g, c));
  }

  /** No news, no move, no crowd: a neutral reading scores exactly one half on the curves centred there. */
  lemma NeutralReadings(f: Features, c: Curves)
    requires f.funding == Some(0.0) && f.longShortRatio == Some(1.0) && f.openInterestChange == Some(0.0)
    ensures Trend(Some(0.0), c) == Some(0.5) && Social(Some(0.0), c) == Some(0.5) && Volume(Some(3.0), c) == Some(0.5)
    ensures Momentum(Some(1.0), c) == Some(0.5)
    ensures News(None, None, Some(0.0)) == Some(0.25) == News(None, Some(0.0), None)
    ensures PositioningScore(f, c) == Some(0.5)
  {
    assert c.logistic(-0.0) == 1.0 - c.logistic(0.0);
    assert c.ln(1.0 / 1.0) == -c.ln(1.0);
    var terms := PositioningTerms(f.funding, f.longShortRatio, f.openInterestChange, c);
    assert terms[0].value == Some(0.5) && terms[1].value == Some(0.5) && terms[2].value == Some(0.5);
    PresentWeightPositive(terms);
    MeanWithin(terms, 0.5, 0.5);
  }

  /** Pace is judged symmetrically: speeding up by a factor gains what slowing down by it loses, and three times saturates. */
  lemma MomentumIsSymmetric(ratio: real, c: Curves)
    requires ratio > 0.0
    ensures Momentum(Some(ratio), c).value + Momentum(Some(1.0 / ratio), c).value == 1.0
    ensures ratio >= MOMENTUM_SPAN ==> Momentum(Some(ratio), c) == Some(1.0) && Momentum(Some(1.0 / ratio), c) == Some(0.0)
  {
    InverseSide(ratio);
    assert c.ln(1.0 / ratio) == -c.ln(ratio);
    OppositeShares(0.5 * c.ln(ratio), 0.5 * c.ln(1.0 / ratio), c.ln(MOMENTUM_SPAN));
    if ratio >= MOMENTUM_SPAN {
      assert c.ln(MOMENTUM_SPAN) <= c.ln(ratio);
      AtLeastHalf(0.5 * c.ln(ratio), c.ln(MOMENTUM_SPAN));
    }
  }

  lemma OppositeShares(a: real, b: real, span: real)
    requires span > 0.0 && b == -a
    ensures b / span == -(a / span)
  {
  }

  lemma AtLeastHalf(a: real, span: real)
    requires span > 0.0 && a >= 0.5 * span
    ensures a / span >= 0.5
  {
    DivMonotone(0.5 * span, a, span);
  }

  /** A larger or a nearer unlock never scores better; the largest due today scores zero and a distant one costs nothing. */
  lemma UnlocksOnlyCost(pct: real, days: real, pct': real, days': real)
    requires pct <= pct' && days' <= days
    ensures Unlock(true, Some(pct'), Some(days')).value <= Unlock(true, Some(pct), Some(days)).value
    ensures pct >= UNLOCK_FULL_SEVERITY_PCT && days <= 0.0 ==> Unlock(true, Some(pct), Some(days)) == Some(0.0)
    ensures pct <= 0.0 || days >= UNLOCK_HORIZON_DAYS ==> Unlock(true, Some(pct), Some(days)) == Some(1.0)
  {
    var severity, proximity := Clamp(pct / UNLOCK_FULL_SEVERITY_PCT), Clamp(1.0 - days / UNLOCK_HORIZON_DAYS);
    var severity', proximity' := Clamp(pct' / UNLOCK_FULL_SEVERITY_PCT), Clamp(1.0 - days' / UNLOCK_HORIZON_DAYS);
    BothGrow(severity, proximity, severity', proximity');
  }

  lemma BothGrow(a: real, b: real, a': real, b': real)
    requires 0.0 <= a <= a' && 0.0 <= b <= b'
    ensures a * b <= a' * b'
  {
    MulMonotone(a, b, b');
    MulMonotone(b', a, a');
  }

  /** More volume, buzz or momentum never scores lower. */
  lemma CurvesPointTheRightWay(x: real, y: real, c: Curves)
    requires x <= y
    ensures Volume(Some(x), c).value <= Volume(Some(y), c).value
    ensures Social(Some(x), c).value <= Social(Some(y), c).value
    ensures Trend(Some(x), c).value <= Trend(Some(y), c).value
  {
    LogisticGrows(0.7 * (x - 3.0), 0.7 * (y - 3.0), c);
    LogisticGrows(1.5 * x, 1.5 * y, c);
    LogisticGrows(x / 15.0, y / 15.0, c);
  }

  lemma LogisticGrows(x: real, y: real, c: Curves)
    requires x <= y
    ensures c.logistic(x) <= c.logistic(y)
  {
  }

  /** Nor does a deeper market, a faster pace or a growing following. */
  lemma LogsPointTheRightWay(x: real, y: real, c: Curves)
    requires x <= y
    ensures Liquidity(Some(x), c).value <= Liquidity(Some(y), c).value
    ensures Momentum(Some(x), c).value <= Momentum(Some(y), c).value
    ensures Stars(Some(x)).value <= Stars(Some(y)).value
  {
    if x > 0.0 {
      assert c.log10(x) <= c.log10(y);
      assert c.ln(x) <= c.ln(y);
      DivMonotone(0.5 * c.ln(x), 0.5 * c.ln(y), c.ln(MOMENTUM_SPAN));
    }
  }

  /** Better news never scores lower, and a symbol's own sentiment shuts the market's out. */
  lemma NewsPointsTheRightWay(impact: Option<real>, sentiment: Option<real>, market: Option<real>, x: real, y: real)
    requires x <= y
    ensures News(Some(x), sentiment, market).value <= News(Some(y), sentiment, market).value
    ensures News(impact, Some(x), market).value <= News(impact, Some(y), market).value
    ensures News(impact, sentiment, Some(x)).value <= News(impact, sentiment, Some(y)).value
    ensures sentiment.Some? ==> News(impact, sentiment, market) == News(impact, sentiment, None)
  {
  }

  /** A staler repository never scores higher; a week is still fresh and three months is not. */
  lemma FreshnessFades(days: int, later: int)
    requires days <= later
    ensures 0.0 <= Freshness(Some(later)).value <= Freshness(Some(days)).value <= 1.0
    ensures Freshness(Some(days)).value == 1.0 <==> days <= FRESH_DAYS
    ensures Freshness(Some(days)).value == 0.0 <==> days >= STALE_DAYS
  {
  }
}
