/** The decision engine's live gate: score an analysis, publish a decision or an audited rejection. */
module DecisionGate {
  import opened FeatureMap
  import opened RiskRules
  import opened Scoring

  datatype Message =
    | Decision(symbol: string, direction: Direction, score: int, confidence: real, breakdown: map<Axis, real>)
    | Rejection(symbol: string, score: int, threshold: int)

  function Judge(symbol: string, result: ScoreResult, threshold: int): Message {
    if result.score < threshold then Rejection(symbol, result.score, threshold)
    else Decision(symbol, Long, result.score, result.confidence, result.breakdown)
  }

  class DecisionEngine {
    const threshold: int
    const curves: Curves
    var published: seq<Message>

    constructor (threshold: int, curves: Curves)
      ensures this.threshold == threshold && this.curves == curves && published == []
    {
      this.threshold := threshold;
      this.curves := curves;
      published := [];
    }

    /** Exactly one message per analysis: a decision that cleared the threshold, else a rejection. */
    method OnAnalysis(symbol: string, raw: Raw, now: int)
      modifies this
      ensures |published| == |old(published)| + 1 && old(published) <= published
      ensures published == old(published) + [Judge(symbol, Score(FeaturesFrom(raw, now), curves), threshold)]
      ensures published[|published| - 1].Decision? <==> Score(FeaturesFrom(raw, now), curves).score >= threshold
      ensures var result := Score(FeaturesFrom(raw, now), curves);
              published[|published| - 1] ==
                if result.score >= threshold then Decision(symbol, Long, result.score, result.confidence, result.breakdown)
                else Rejection(symbol, result.score, threshold)
    {
      var features := FeaturesFrom(raw, now);
      var result := Score(features, curves);
      if result.score < threshold {
        published := published + [Rejection(symbol, result.score, threshold)];
        return;
      }
      published := published + [Decision(symbol, Long, result.score, result.confidence, result.breakdown)];
    }
  }

  /** The question the risk engine is asked about a published decision. */
  function Ask(decision: Message, entry: real, blacklisted: bool, exposure: int): Query
    requires decision.Decision?
  {
    Query(entry, decision.direction, decision.confidence, decision.score, blacklisted, exposure)
  }

  /** A published decision has evidence behind it, as long as the threshold is positive. */
  lemma PositiveThresholdDemandsEvidence(symbol: string, f: Features, threshold: int, c: Curves)
    requires threshold > 0 && Judge(symbol, Score(f, c), threshold).Decision?
    ensures Evidence(f, c) >= FLOOR
    ensures Judge(symbol, Score(f, c), threshold).confidence > 0.0
    ensures Judge(symbol, Score(f, c), threshold).breakdown != map[]
  {
    ZeroConfidenceIsNoEvidence(f, c);
    ConfidenceIsAShare(f, c);
  }

  /** Scoring a stored dictionary at a reference instant. */
  type Scorer = (Raw, int) -> ScoreResult

  /** What the replay relies on: scores are on the 0-100 scale, and no evidence means no score. */
  ghost predicate Sane(scorer: Scorer) {
    forall raw, now ::
      && 0 <= scorer(raw, now).score <= 100
      && (scorer(raw, now).confidence == 0.0 ==> scorer(raw, now).score == 0)
  }

  /** The mapping and the eight axes, as the live engine applies them. */
  function ModelScorer(c: Curves): Scorer {
    (raw, now) => Score(FeaturesFrom(raw, now), c)
  }

  /** The model scorer is sane, whatever the shape of the curves it uses. */
  lemma ModelScorerIsSane(c: Curves)
    ensures Sane(ModelScorer(c))
  {
    forall raw, now
      ensures 0 <= ModelScorer(c)(raw, now).score <= 100
      ensures ModelScorer(c)(raw, now).confidence == 0.0 ==> ModelScorer(c)(raw, now).score == 0
    {
      ScoreIsSane(FeaturesFrom(raw, now), c);
    }
  }

  lemma ScoreIsSane(f: Features, c: Curves)
    ensures 0 <= Score(f, c).score <= 100
    ensures Score(f, c).confidence == 0.0 ==> Score(f, c).score == 0
  {
    forall axis ensures Unit(SubScore(axis, f, c)) {
      SubScoresAreUnit(axis, f, c);
    }
    ScoreWithinReadings(f, c, 0.0, 1.0);
    ZeroConfidenceIsNoEvidence(f, c);
  }
}
