/** The calibration proposal: a threshold for a target rate, and what the risk floors would leave of it. */
module Proposal {
  import opened DecisionGate
  import opened Histogram
  import opened Replay
  import opened ReplayAgreement
  import opened RiskRules
  import opened Rounding

  const DEFAULT_RISK_MIN_SCORE: int := 70

  datatype Effect = Effect(value: int, lines: nat, pct: real, confidencePassing: nat, isDefault: bool)

  datatype Report = Report(
    threshold: int,
    targetPerDay: int,
    actualPerDay: real,
    distinctPerDay: real,
    passingPct: real,
    confidencePassingPerDay: real,
    effects: seq<Effect>)

  /** A share in percent; of nothing, zero. */
  function Percent(part: nat, whole: nat): real {
    if whole == 0 then 0.0 else 100.0 * part as real / whole as real
  }

  /** This many percent of the whole are the part; of nothing, zero. */
  predicate PercentOf(pct: real, part: nat, whole: nat) {
    if whole == 0 then pct == 0.0 else pct * whole as real == 100.0 * part as real
  }

  lemma PercentOfWhole(part: nat, whole: nat)
    ensures PercentOf(Percent(part, whole), part, whole)
  {
    if whole > 0 {
      DivMul(100.0 * part as real, whole as real);
    }
  }

  lemma PercentIsShare(part: nat, whole: nat)
    requires part <= whole
    ensures 0.0 <= Percent(part, whole) <= 100.0
    ensures PercentOf(Percent(part, whole), part, whole)
  {
    PercentOfWhole(part, whole);
    if whole > 0 {
      DivMonotone(0.0, 100.0 * part as real, whole as real);
      DivMonotone(100.0 * part as real, 100.0 * whole as real, whole as real);
      DivCancel(whole as real, 100.0, 1.0);
    }
  }

  /** The score floors reported on: a few steps around the threshold, and the deployed default. */
  function Around(threshold: int): set<int> {
    { if threshold >= 10 then threshold - 10 else 0,
      if threshold >= 5 then threshold - 5 else 0,
      threshold,
      if threshold <= TOP - 5 then threshold + 5 else TOP,
      if threshold <= TOP - 10 then threshold + 10 else TOP,
      DEFAULT_RISK_MIN_SCORE }
  }

  function EffectOf(scan: Scan, threshold: int, v: int): Effect {
    var passing := BoundedPassing(scan.scoreCounts, v, threshold);
    Effect(v, passing, Percent(passing, |scan.scoreCounts|), BoundedPassing(scan.confidencePass, v, threshold),
           v == DEFAULT_RISK_MIN_SCORE)
  }

  ghost predicate Ascending(values: seq<int>) {
    forall i, j :: 0 <= i < j < |values| ==> values[i] < values[j]
  }

  /** The members of the set in ascending order. */
  method Sorted(s: set<int>) returns (values: seq<int>)
    requires forall v :: v in s ==> 0 <= v <= TOP
    ensures Ascending(values) && forall v :: v in values <==> v in s
  {
    values := [];
    var v := 0;
    while v <= TOP
      invariant 0 <= v <= TOP + 1
      invariant Ascending(values) && forall k :: 0 <= k < |values| ==> values[k] < v
      invariant forall x :: x in values <==> x in s && x < v
    {
      if v in s {
        values := values + [v];
      }
      v := v + 1;
    }
  }

  method Effects(scan: Scan, threshold: int) returns (effects: seq<Effect>)
    requires 0 <= threshold <= TOP
    ensures forall i :: 0 <= i < |effects| ==> effects[i] == EffectOf(scan, threshold, effects[i].value)
    ensures forall i, j :: 0 <= i < j < |effects| ==> effects[i].value < effects[j].value
    ensures forall v :: v in Around(threshold) <==> exists i :: 0 <= i < |effects| && effects[i].value == v
  {
    var values := Sorted(Around(threshold));
    effects := [];
    var i := 0;
    while i < |values|
      invariant 0 <= i <= |values| && |effects| == i
      invariant forall k :: 0 <= k < i ==> effects[k].value == values[k] && effects[k] == EffectOf(scan, threshold, values[k])
    {
      effects := effects + [EffectOf(scan, threshold, values[i])];
      i := i + 1;
    }
    forall v | v in Around(threshold) ensures exists i :: 0 <= i < |effects| && effects[i].value == v {
      var k :| 0 <= k < |values| && values[k] == v;
      assert effects[k].value == v;
    }
    forall i | 0 <= i < |effects| ensures effects[i].value in Around(threshold) {
      assert values[i] in values;
    }
  }

  predicate IsRate(rate: real, count: nat, days: int) {
    rate * days as real == count as real
  }

  /** The decisions at a threshold, per day, and how many of them clear the confidence floor. */
  ghost predicate Reported(scan: Scan, days: int, report: Report)
    requires days > 0
  {
    var decisions, passing := CountsGe(scan.scoreCounts, report.threshold), CountsGe(scan.confidencePass, report.threshold);
    && IsRate(report.actualPerDay, decisions, days)
    && IsRate(report.confidencePassingPerDay, passing, days)
    && IsRate(report.distinctPerDay, |PairsHeld(scan.best, report.threshold)|, days)
    && PercentOf(report.passingPct, passing, decisions)
  }

  lemma PerDay(count: nat, days: int)
    requires days > 0
    ensures IsRate(count as real / days as real, count, days)
  {
    DivMul(count as real, days as real);
  }

  lemma RatesAreReported(scan: Scan, days: int, report: Report)
    requires days > 0
    requires report.actualPerDay == CountsGe(scan.scoreCounts, report.threshold) as real / days as real
    requires report.confidencePassingPerDay == CountsGe(scan.confidencePass, report.threshold) as real / days as real
    requires report.distinctPerDay == |PairsHeld(scan.best, report.threshold)| as real / days as real
    requires report.passingPct == Percent(CountsGe(scan.confidencePass, report.threshold), CountsGe(scan.scoreCounts, report.threshold))
    ensures Reported(scan, days, report)
  {
    PercentOfWhole(CountsGe(scan.confidencePass, report.threshold), CountsGe(scan.scoreCounts, report.threshold));
    PerDay(CountsGe(scan.scoreCounts, report.threshold), days);
    PerDay(CountsGe(scan.confidencePass, report.threshold), days);
    PerDay(|PairsHeld(scan.best, report.threshold)|, days);
  }

  method Propose(scan: Scan, targetPerDay: int, days: int) returns (report: Report)
    requires days > 0
    ensures Calibrated(scan.scoreCounts, targetPerDay * days, report.threshold) && report.targetPerDay == targetPerDay
    ensures Reported(scan, days, report)
    ensures forall i :: 0 <= i < |report.effects| ==>
      report.effects[i] == EffectOf(scan, report.threshold, report.effects[i].value)
    ensures forall i, j :: 0 <= i < j < |report.effects| ==> report.effects[i].value < report.effects[j].value
    ensures forall v :: v in Around(report.threshold) <==> exists i :: 0 <= i < |report.effects| && report.effects[i].value == v
  {
    var threshold := ThresholdFor(scan.scoreCounts, targetPerDay, days);
    var decisions := CountsGe(scan.scoreCounts, threshold);
    var passing := CountsGe(scan.confidencePass, threshold);
    var distinct := |PairsHeld(scan.best, threshold)|;
    var effects := Effects(scan, threshold);
    report := Report(threshold, targetPerDay, decisions as real / days as real, distinct as real / days as real,
                     Percent(passing, decisions), passing as real / days as real, effects);
    RatesAreReported(scan, days, report);
  }

  /** Every percentage of a report on replayed rows is one: the confident rows are among the decisions, and these among
      the scored ones. */
  lemma PercentagesAreShares(rows: seq<Row>, t: int, v: int, minConfidence: real, scorer: Scorer)
    requires Sane(scorer)
    ensures var scan := Summarise(rows, minConfidence, scorer);
      && 0.0 <= Percent(CountsGe(scan.confidencePass, t), CountsGe(scan.scoreCounts, t)) <= 100.0
      && 0.0 <= EffectOf(scan, t, v).pct <= 100.0
  {
    var scan := Summarise(rows, minConfidence, scorer);
    EveryRowIsAccountedFor(rows, minConfidence, scorer);
    ScoresWithin(rows, minConfidence, scorer);
    ConfidentShare(scan.confidencePass, scan.scoreCounts, t);
    ScoredShare(scan.scoreCounts, t, v);
  }

  lemma ConfidentShare(passing: multiset<int>, decisions: multiset<int>, t: int)
    requires passing <= decisions
    ensures 0.0 <= Percent(CountsGe(passing, t), CountsGe(decisions, t)) <= 100.0
  {
    BetweenOfPart(passing, decisions, Clamped(t), TOP);
    PercentIsShare(CountsGe(passing, t), CountsGe(decisions, t));
  }

  lemma ScoredShare(scores: multiset<int>, t: int, v: int)
    requires forall x :: x in scores ==> 0 <= x <= TOP
    ensures 0.0 <= Percent(BoundedPassing(scores, v, t), |scores|) <= 100.0
  {
    AllOnScale(scores, TOP);
    BetweenSplits(scores, 0, Clamped(Larger(v, t)), TOP);
    PercentIsShare(BoundedPassing(scores, v, t), |scores|);
  }

  lemma {:induction false} ScoresWithin(rows: seq<Row>, minConfidence: real, scorer: Scorer)
    requires Sane(scorer)
    ensures forall x :: x in Summarise(rows, minConfidence, scorer).scoreCounts ==> 0 <= x <= TOP
    decreases |rows|
  {
    if rows != [] {
      SaneRow(rows[|rows| - 1], scorer);
      ScoresWithin(rows[..|rows| - 1], minConfidence, scorer);
    }
  }

  /**
   * What the proposed threshold means live: it is the least positive one whose emissions stay within the
   * target, whenever the strictest threshold does. Proposing 0 is only right if no row lacked evidence.
   */
  lemma ProposedRateIsLive(rows: seq<Row>, budget: int, t: int, minConfidence: real, scorer: Scorer)
    requires Sane(scorer)
    requires Calibrated(Summarise(rows, minConfidence, scorer).scoreCounts, budget, t)
    ensures t >= 1 && CountRows(rows, Emitted(TOP), scorer) <= budget ==> CountRows(rows, Emitted(t), scorer) <= budget
    ensures forall v :: 1 <= v < t ==> CountRows(rows, Emitted(v), scorer) > budget
    ensures var scan := Summarise(rows, minConfidence, scorer);
      t == 0 ==> (CountRows(rows, Emitted(t), scorer) <= budget <==> CountsGe(scan.scoreCounts, 0) + scan.noEvidence <= budget)
  {
    ReplayAgreesIff(rows, TOP, minConfidence, scorer);
    ReplayAgreesIff(rows, t, minConfidence, scorer);
    forall v | 1 <= v < t ensures CountRows(rows, Emitted(v), scorer) > budget {
      ReplayAgreesIff(rows, v, minConfidence, scorer);
    }
    if t == 0 {
      EmittedAtZero(rows, minConfidence, scorer);
    }
  }

  lemma EmittedAtZero(rows: seq<Row>, minConfidence: real, scorer: Scorer)
    requires Sane(scorer)
    ensures CountRows(rows, Emitted(0), scorer)
         == CountsGe(Summarise(rows, minConfidence, scorer).scoreCounts, 0) + Summarise(rows, minConfidence, scorer).noEvidence
  {
    TalliesAreHistograms(rows, minConfidence, scorer);
    EveryRowIsAccountedFor(rows, minConfidence, scorer);
    EmittedRows(rows, 0, scorer);
    ScoresOnScale(rows, 0, scorer);
    HistogramCountsEntries(Scores(rows, scorer), 0, TOP);
  }

  /** Every reported effect is the live count of rows that clear that floor, then that clear both floors. */
  lemma EffectsAreLive(rows: seq<Row>, t: int, cfg: RiskConfig, entry: real, exposure: int, scorer: Scorer)
    requires Sane(scorer) && 1 <= t <= TOP && cfg.minScore <= TOP && entry > 0.0
    ensures var effect := EffectOf(Summarise(rows, cfg.minConfidence, scorer), t, cfg.minScore);
      && effect.lines == CountRows(rows, ClearsScore(t, cfg), scorer)
      && effect.confidencePassing == CountRows(rows, ClearsBoth(t, cfg, entry, exposure), scorer)
      && effect.confidencePassing <= effect.lines <= CountRows(rows, Emitted(t), scorer)
      && effect.value == cfg.minScore && (effect.isDefault <==> effect.value == 70)
    ensures PercentOf(EffectOf(Summarise(rows, cfg.minConfidence, scorer), t, cfg.minScore).pct,
                      CountRows(rows, ClearsScore(t, cfg), scorer), |Scores(rows, scorer)|)
  {
    TalliesAreHistograms(rows, cfg.minConfidence, scorer);
    PercentOfWhole(CountRows(rows, ClearsScore(t, cfg), scorer), |Scores(rows, scorer)|);
    ReplayAnswersForTheGates(rows, t, cfg, entry, exposure, scorer);
    EachGateOnlyRemoves(rows, t, cfg, entry, exposure, scorer);
  }

  lemma {:induction false} EachGateOnlyRemoves(rows: seq<Row>, t: int, cfg: RiskConfig, entry: real, exposure: int, scorer: Scorer)
    requires entry > 0.0
    ensures CountRows(rows, ClearsBoth(t, cfg, entry, exposure), scorer)
         <= CountRows(rows, ClearsScore(t, cfg), scorer)
         <= CountRows(rows, Emitted(t), scorer)
    decreases |rows|
  {
    if rows != [] {
      var last := rows[|rows| - 1];
      EachGateOnlyRemoves(rows[..|rows| - 1], t, cfg, entry, exposure, scorer);
      if Judge(last.symbol, Outcome(last, scorer), t).Decision? {
        RiskFloors(last.symbol, Outcome(last, scorer), t, cfg, entry, exposure);
      }
    }
  }

  /** The floors reported on: the threshold, five and ten points to either side of it kept on the scale, and the default. */
  lemma FloorsReported(t: int, v: int)
    requires 0 <= t <= 100
    ensures v in Around(t)
      <==> v == 70 || v == Clamped(t - 10) || v == Clamped(t - 5) || v == t || v == Clamped(t + 5) || v == Clamped(t + 10)
  {
  }
}
