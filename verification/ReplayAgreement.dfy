/**
 * The compressed scan against the live gates: the decision engine's threshold, then the risk engine's
 * confidence and score floors, run on every row.
 */
module ReplayAgreement {
  import opened DecisionGate
  import opened FeatureMap
  import opened Histogram
  import opened Replay
  import opened RiskRules
  import opened Scoring

  /** What one may ask of a row, answered by the live code. The risk engine knows a price for the symbol. */
  datatype Question =
    | Emitted(threshold: int)
    | ClearsScore(threshold: int, cfg: RiskConfig)
    | ClearsBoth(threshold: int, cfg: RiskConfig, entry: real, exposure: int)

  predicate Holds(q: Question, row: Row, scorer: Scorer) {
    match q
    case Emitted(t) => Judge(row.symbol, Outcome(row, scorer), t).Decision?
    case ClearsScore(t, cfg) =>
      var m := Judge(row.symbol, Outcome(row, scorer), t);
      m.Decision? && Passes(LowScore, Ask(m, 1.0, false, 0), cfg)
    case ClearsBoth(t, cfg, entry, exposure) =>
      var m := Judge(row.symbol, Outcome(row, scorer), t);
      m.Decision? && Evaluate(Ask(m, entry, false, exposure), cfg) !in {Rejected(LowConfidence), Rejected(LowScore)}
  }

  /** Re-running the question on every row. */
  function CountRows(rows: seq<Row>, q: Question, scorer: Scorer): nat {
    if rows == [] then 0
    else CountRows(rows[..|rows| - 1], q, scorer) + if Holds(q, rows[|rows| - 1], scorer) then 1 else 0
  }

  lemma RiskFloors(symbol: string, result: ScoreResult, t: int, cfg: RiskConfig, entry: real, exposure: int)
    requires entry > 0.0 && Judge(symbol, result, t).Decision?
    ensures var v := Evaluate(Ask(Judge(symbol, result, t), entry, false, exposure), cfg);
      v !in {Rejected(LowConfidence), Rejected(LowScore)} <==> result.confidence >= cfg.minConfidence && result.score >= cfg.minScore
  {
    var query := Ask(Judge(symbol, result, t), entry, false, exposure);
    FirstFailingGateDecides(query, cfg);
  }

  lemma EntriesOneMore(values: seq<int>, x: int, lo: int, hi: int)
    ensures Entries(values + [x], lo, hi) == Entries(values, lo, hi) + if lo <= x <= hi then 1 else 0
  {
    assert (values + [x])[..|values|] == values;
  }

  lemma SaneRow(row: Row, scorer: Scorer)
    requires Sane(scorer)
    ensures 0 <= Outcome(row, scorer).score <= TOP
    ensures !Scored(row, scorer) ==> Outcome(row, scorer).score == 0
  {
    assert scorer(row.raw, row.time) == Outcome(row, scorer);
  }

  /** Live emissions at any threshold: the scored rows that reach it, and every unscored row when it is not positive. */
  lemma {:induction false} EmittedRows(rows: seq<Row>, t: int, scorer: Scorer)
    requires Sane(scorer)
    ensures CountRows(rows, Emitted(t), scorer)
         == Entries(Scores(rows, scorer), t, TOP) + if t <= 0 then |rows| - |Scores(rows, scorer)| else 0
    decreases |rows|
  {
    if rows != [] {
      var last := rows[|rows| - 1];
      SaneRow(last, scorer);
      EmittedRows(rows[..|rows| - 1], t, scorer);
      EntriesOneMore(Scores(rows[..|rows| - 1], scorer), Outcome(last, scorer).score, t, TOP);
    }
  }

  /** Live emissions that also pass the score floor, for a positive threshold. */
  lemma {:induction false} ClearingRows(rows: seq<Row>, t: int, cfg: RiskConfig, scorer: Scorer)
    requires Sane(scorer) && 1 <= t
    ensures CountRows(rows, ClearsScore(t, cfg), scorer) == Entries(Scores(rows, scorer), Larger(cfg.minScore, t), TOP)
    decreases |rows|
  {
    if rows != [] {
      var last := rows[|rows| - 1];
      SaneRow(last, scorer);
      ClearingRows(rows[..|rows| - 1], t, cfg, scorer);
      EntriesOneMore(Scores(rows[..|rows| - 1], scorer), Outcome(last, scorer).score, Larger(cfg.minScore, t), TOP);
    }
  }

  /** Live emissions that the risk engine lets past both floors, for a positive threshold. */
  lemma {:induction false} PassingRows(rows: seq<Row>, t: int, cfg: RiskConfig, entry: real, exposure: int, scorer: Scorer)
    requires Sane(scorer) && 1 <= t && entry > 0.0
    ensures CountRows(rows, ClearsBoth(t, cfg, entry, exposure), scorer)
         == Entries(ConfidentScores(rows, cfg.minConfidence, scorer), Larger(cfg.minScore, t), TOP)
    decreases |rows|
  {
    if rows != [] {
      var last := rows[|rows| - 1];
      SaneRow(last, scorer);
      var seen := rows[..|rows| - 1];
      PassingRows(seen, t, cfg, entry, exposure, scorer);
      EntriesOneMore(ConfidentScores(seen, cfg.minConfidence, scorer), Outcome(last, scorer).score, Larger(cfg.minScore, t), TOP);
      if Outcome(last, scorer).score >= t {
        RiskFloors(last.symbol, Outcome(last, scorer), t, cfg, entry, exposure);
      }
    }
  }

  /**
   * The replay summary refines the live gates: for every threshold in 1..100 and every score floor up to
   * 100, the histograms give the number of rows the decision engine would emit, then of those the score
   * floor would keep, then of those the risk engine would let past both of its floors.
   */
  lemma ReplayAnswersForTheGates(rows: seq<Row>, t: int, cfg: RiskConfig, entry: real, exposure: int, scorer: Scorer)
    requires Sane(scorer) && 1 <= t <= TOP && cfg.minScore <= TOP && entry > 0.0
    ensures var scan := Summarise(rows, cfg.minConfidence, scorer);
      && CountsGe(scan.scoreCounts, t) == CountRows(rows, Emitted(t), scorer)
      && BoundedPassing(scan.scoreCounts, cfg.minScore, t) == CountRows(rows, ClearsScore(t, cfg), scorer)
      && BoundedPassing(scan.confidencePass, cfg.minScore, t)
         == CountRows(rows, ClearsBoth(t, cfg, entry, exposure), scorer)
  {
    TalliesAreHistograms(rows, cfg.minConfidence, scorer);
    EmittedRows(rows, t, scorer);
    ClearingRows(rows, t, cfg, scorer);
    PassingRows(rows, t, cfg, entry, exposure, scorer);
    var lo := Larger(cfg.minScore, t);
    HistogramCountsEntries(Scores(rows, scorer), t, TOP);
    HistogramCountsEntries(Scores(rows, scorer), lo, TOP);
    HistogramCountsEntries(ConfidentScores(rows, cfg.minConfidence, scorer), lo, TOP);
  }

  /** The same for the model's own scorer, whatever the shape of its curves. */
  lemma ReplayAnswersForTheModel(rows: seq<Row>, t: int, cfg: RiskConfig, entry: real, exposure: int, c: Curves)
    requires 1 <= t <= TOP && cfg.minScore <= TOP && entry > 0.0
    ensures var scan := Summarise(rows, cfg.minConfidence, ModelScorer(c));
      && CountsGe(scan.scoreCounts, t) == CountRows(rows, Emitted(t), ModelScorer(c))
      && BoundedPassing(scan.scoreCounts, cfg.minScore, t) == CountRows(rows, ClearsScore(t, cfg), ModelScorer(c))
      && BoundedPassing(scan.confidencePass, cfg.minScore, t)
         == CountRows(rows, ClearsBoth(t, cfg, entry, exposure), ModelScorer(c))
  {
    ModelScorerIsSane(c);
    ReplayAnswersForTheGates(rows, t, cfg, entry, exposure, ModelScorer(c));
  }

  // ---------- Read live, at another instant ----------

  /** The rows as the live engine met them: each read at its own instant. */
  function At(rows: seq<Row>, instants: seq<int>): seq<Row>
    requires |instants| == |rows|
  {
    if rows == [] then []
    else
      var n := |rows| - 1;
      At(rows[..n], instants[..n]) + [rows[n].(time := instants[n])]
  }

  /** Reading a dictionary at either instant gives the same features. */
  predicate SameAt(raw: Raw, time: int, instant: int) {
    UnlockAt(raw).None? || time == instant || (UnlockAt(raw).value < time && UnlockAt(raw).value < instant)
  }

  /** If no row's unlock date falls between its own time and the instant it was read live, every count is the same. */
  lemma {:induction false} LiveInstantsCountAlike(rows: seq<Row>, instants: seq<int>, q: Question, c: Curves)
    requires |instants| == |rows| && forall i :: 0 <= i < |rows| ==> SameAt(rows[i].raw, rows[i].time, instants[i])
    ensures CountRows(At(rows, instants), q, ModelScorer(c)) == CountRows(rows, q, ModelScorer(c))
    decreases |rows|
  {
    if rows != [] {
      var n := |rows| - 1;
      var last := rows[n];
      LiveInstantsCountAlike(rows[..n], instants[..n], q, c);
      HoldsAlike(last, instants[n], q, c);
      CountOneMore(At(rows[..n], instants[..n]), last.(time := instants[n]), q, ModelScorer(c));
    }
  }

  lemma SameOutcome(row: Row, instant: int, c: Curves)
    requires SameAt(row.raw, row.time, instant)
    ensures Outcome(row.(time := instant), ModelScorer(c)) == Outcome(row, ModelScorer(c))
  {
    SameFeaturesIff(row.raw, row.time, instant);
  }

  lemma HoldsAlike(row: Row, instant: int, q: Question, c: Curves)
    requires SameAt(row.raw, row.time, instant)
    ensures Holds(q, row.(time := instant), ModelScorer(c)) == Holds(q, row, ModelScorer(c))
  {
    SameOutcome(row, instant, c);
    SameOutcomeHolds(row, row.(time := instant), q, ModelScorer(c));
  }

  lemma SameOutcomeHolds(row: Row, other: Row, q: Question, scorer: Scorer)
    requires Outcome(row, scorer) == Outcome(other, scorer) && row.symbol == other.symbol
    ensures Holds(q, row, scorer) == Holds(q, other, scorer)
  {
  }

  lemma CountOneMore(rows: seq<Row>, row: Row, q: Question, scorer: Scorer)
    ensures CountRows(rows + [row], q, scorer) == CountRows(rows, q, scorer) + if Holds(q, row, scorer) then 1 else 0
  {
    assert (rows + [row])[..|rows|] == rows;
  }

  /** So the replay answers for the live run itself, whenever each row was read when its unlock date stood alike. */
  lemma ReplayAnswersForTheLiveRun(rows: seq<Row>, instants: seq<int>, t: int, cfg: RiskConfig, entry: real, exposure: int, c: Curves)
    requires 1 <= t <= TOP && cfg.minScore <= TOP && entry > 0.0
    requires |instants| == |rows| && forall i :: 0 <= i < |rows| ==> SameAt(rows[i].raw, rows[i].time, instants[i])
    ensures var scan, live := Summarise(rows, cfg.minConfidence, ModelScorer(c)), At(rows, instants);
      && CountsGe(scan.scoreCounts, t) == CountRows(live, Emitted(t), ModelScorer(c))
      && BoundedPassing(scan.scoreCounts, cfg.minScore, t) == CountRows(live, ClearsScore(t, cfg), ModelScorer(c))
      && BoundedPassing(scan.confidencePass, cfg.minScore, t)
         == CountRows(live, ClearsBoth(t, cfg, entry, exposure), ModelScorer(c))
  {
    ReplayAnswersForTheModel(rows, t, cfg, entry, exposure, c);
    LiveInstantsCountAlike(rows, instants, Emitted(t), c);
    LiveInstantsCountAlike(rows, instants, ClearsScore(t, cfg), c);
    LiveInstantsCountAlike(rows, instants, ClearsBoth(t, cfg, entry, exposure), c);
  }

  lemma {:induction false} ScoresOnScale(rows: seq<Row>, t: int, scorer: Scorer)
    requires Sane(scorer) && t <= 0
    ensures Entries(Scores(rows, scorer), t, TOP) == |Scores(rows, scorer)|
    decreases |rows|
  {
    if rows != [] {
      var last := rows[|rows| - 1];
      SaneRow(last, scorer);
      ScoresOnScale(rows[..|rows| - 1], t, scorer);
      EntriesOneMore(Scores(rows[..|rows| - 1], scorer), Outcome(last, scorer).score, t, TOP);
    }
  }

  /**
   * Over all integer thresholds, the histogram and the live engine agree exactly here. At 0 and below the
   * engine also emits the rows the replay sets aside, so they agree only when there is none; above 100 the
   * clamp still counts perfect scores, so they agree only when there is none of those.
   */
  lemma ReplayAgreesIff(rows: seq<Row>, t: int, minConfidence: real, scorer: Scorer)
    requires Sane(scorer)
    ensures var scan := Summarise(rows, minConfidence, scorer);
      CountsGe(scan.scoreCounts, t) == CountRows(rows, Emitted(t), scorer)
      <==> (1 <= t <= TOP || (t <= 0 && scan.noEvidence == 0) || (t > TOP && scan.scoreCounts[TOP] == 0))
  {
    var scores := Scores(rows, scorer);
    TalliesAreHistograms(rows, minConfidence, scorer);
    EveryRowIsAccountedFor(rows, minConfidence, scorer);
    EmittedRows(rows, t, scorer);
    HistogramCountsEntries(scores, Clamped(t), TOP);
    if t <= 0 {
      ScoresOnScale(rows, t, scorer);
      ScoresOnScale(rows, 0, scorer);
    } else if t > TOP {
      HistogramCountsEntries(scores, t, TOP);
      assert Between(multiset(scores), TOP, TOP) == multiset(scores)[TOP] + Between(multiset(scores), TOP + 1, TOP);
    }
  }

  /** At threshold 0 a single row without evidence already tells them apart. */
  lemma ThresholdZeroOvercounts(row: Row, minConfidence: real, scorer: Scorer)
    requires Sane(scorer) && !Scored(row, scorer)
    ensures CountsGe(Summarise([row], minConfidence, scorer).scoreCounts, 0) == 0
    ensures CountRows([row], Emitted(0), scorer) == 1
  {
    EmittedRows([row], 0, scorer);
    ScoresOnScale([row], 0, scorer);
    TalliesAreHistograms([row], minConfidence, scorer);
    HistogramCountsEntries(Scores([row], scorer), 0, TOP);
    assert Scores([row], scorer) == [] by { assert [row][..0] == []; }
  }

  /** The pairs whose best score reaches the threshold. */
  function PairsHeld(best: map<SymbolDay, int>, t: int): set<SymbolDay> {
    set k | k in best && best[k] >= t
  }

  /** The pairs with some scored row reaching it, row by row. */
  function PairsSeen(rows: seq<Row>, t: int, scorer: Scorer): set<SymbolDay> {
    set i | 0 <= i < |rows| && Scored(rows[i], scorer) && Outcome(rows[i], scorer).score >= t :: KeyOf(rows[i])
  }

  /** One best score per (symbol, day) counts distinct pairs as a set per threshold would, for any row order. */
  lemma {:induction false} BestAnswersEveryThreshold(rows: seq<Row>, t: int, minConfidence: real, scorer: Scorer)
    requires Sane(scorer)
    ensures PairsHeld(Summarise(rows, minConfidence, scorer).best, t) == PairsSeen(rows, t, scorer)
    decreases |rows|
  {
    if rows != [] {
      var seen, last := rows[..|rows| - 1], rows[|rows| - 1];
      BestAnswersEveryThreshold(seen, t, minConfidence, scorer);
      assert rows == seen + [last];
      BestOneMore(rows, minConfidence, scorer);
      OneRowKeepsPairs(Summarise(seen, minConfidence, scorer).best, Summarise(rows, minConfidence, scorer).best,
                       seen, last, t, scorer);
    }
  }

  lemma OneRowKeepsPairs(before: map<SymbolDay, int>, after: map<SymbolDay, int>, seen: seq<Row>, last: Row, t: int, scorer: Scorer)
    requires Sane(scorer) && PairsHeld(before, t) == PairsSeen(seen, t, scorer)
    requires after == if Scored(last, scorer) then Improve(before, KeyOf(last), Outcome(last, scorer).score) else before
    ensures PairsHeld(after, t) == PairsSeen(seen + [last], t, scorer)
  {
    SaneRow(last, scorer);
    PairsOneMore(seen, last, t, scorer);
    StepKeepsPairs(before, after, PairsSeen(seen, t, scorer), PairsSeen(seen + [last], t, scorer),
                   KeyOf(last), Outcome(last, scorer).score, Scored(last, scorer), t);
  }

  lemma BestOneMore(rows: seq<Row>, minConfidence: real, scorer: Scorer)
    requires rows != []
    ensures var last := rows[|rows| - 1];
      var before := Summarise(rows[..|rows| - 1], minConfidence, scorer).best;
      Summarise(rows, minConfidence, scorer).best
      == if Scored(last, scorer) then Improve(before, KeyOf(last), Outcome(last, scorer).score) else before
  {
  }

  lemma PairsOneMore(seen: seq<Row>, last: Row, t: int, scorer: Scorer)
    ensures PairsSeen(seen + [last], t, scorer)
         == PairsSeen(seen, t, scorer)
            + if Scored(last, scorer) && Outcome(last, scorer).score >= t then {KeyOf(last)} else {}
  {
    var rows := seen + [last];
    assert rows[|seen|] == last;
    assert forall i :: 0 <= i < |seen| ==> rows[i] == seen[i];
  }

  lemma StepKeepsPairs(before: map<SymbolDay, int>, after: map<SymbolDay, int>, seen: set<SymbolDay>, all: set<SymbolDay>,
                       key: SymbolDay, value: int, scored: bool, t: int)
    requires value >= 0 && PairsHeld(before, t) == seen
    requires after == if scored then Improve(before, key, value) else before
    requires all == seen + if scored && value >= t then {key} else {}
    ensures PairsHeld(after, t) == all
  {
  }

  /** In plain terms: a symbol on a day reaches a threshold exactly when some row of that symbol on that day does. */
  lemma BestIsPerSymbolAndDay(rows: seq<Row>, t: int, minConfidence: real, scorer: Scorer, symbol: string, day: string)
    requires Sane(scorer)
    ensures var best := Summarise(rows, minConfidence, scorer).best;
      ((symbol, day) in best && best[(symbol, day)] >= t)
      <==> exists i :: 0 <= i < |rows| && rows[i].symbol == symbol && rows[i].day == day
                       && scorer(rows[i].raw, rows[i].time).confidence != 0.0 && scorer(rows[i].raw, rows[i].time).score >= t
  {
    BestAnswersEveryThreshold(rows, t, minConfidence, scorer);
    assert (symbol, day) in PairsHeld(Summarise(rows, minConfidence, scorer).best, t) <==> (symbol, day) in PairsSeen(rows, t, scorer);
    if i :| 0 <= i < |rows| && rows[i].symbol == symbol && rows[i].day == day
            && scorer(rows[i].raw, rows[i].time).confidence != 0.0 && scorer(rows[i].raw, rows[i].time).score >= t {
      assert KeyOf(rows[i]) == (symbol, day) && Scored(rows[i], scorer) && Outcome(rows[i], scorer).score >= t;
    }
  }
}
