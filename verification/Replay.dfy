/**
 * Calibration by replay: one pass over the decision journal is compressed into histograms, and the
 * histograms answer the questions that running the live gates on every row would answer.
 */
module Replay {
  import opened DecisionGate
  import opened FeatureMap
  import opened Scoring
  import opened Wrappers

  /** One journal row: when, on which day, for which symbol, and the feature dictionary stored with it. */
  datatype Row = Row(time: int, day: string, symbol: string, raw: Raw, sonnet: Option<int>)

  /** The key that attests an axis was read for a row. */
  function ProbeKey(axis: Axis): FeatureKey {
    match axis
    case VolumeGrowth => VolumeSpikeRatio
    case SocialScore => SocialGrowthKey
    case NewsScore => SentimentKey
    case MarketTrend => PriceChangePct24h
    case LiquidityScore => Volume24hUsd
    case Positioning => FundingRate8h
    case Fundamentals => TvlChangePct7d
    case DeveloperActivity => CommitRatio4w
  }

  function Outcome(row: Row, scorer: Scorer): ScoreResult {
    scorer(row.raw, row.time)
  }

  predicate Scored(row: Row, scorer: Scorer) {
    Outcome(row, scorer).confidence != 0.0
  }

  function WithKey(rows: seq<Row>, key: FeatureKey): nat {
    if rows == [] then 0
    else WithKey(rows[..|rows| - 1], key) + if key in rows[|rows| - 1].raw then 1 else 0
  }

  function Scores(rows: seq<Row>, scorer: Scorer): seq<int> {
    if rows == [] then []
    else
      var last := rows[|rows| - 1];
      var before := Scores(rows[..|rows| - 1], scorer);
      if Scored(last, scorer) then before + [Outcome(last, scorer).score] else before
  }

  function ConfidentScores(rows: seq<Row>, minConfidence: real, scorer: Scorer): seq<int> {
    if rows == [] then []
    else
      var last := rows[|rows| - 1];
      var before := ConfidentScores(rows[..|rows| - 1], minConfidence, scorer);
      if Scored(last, scorer) && Outcome(last, scorer).confidence >= minConfidence
      then before + [Outcome(last, scorer).score]
      else before
  }

  type SymbolDay = (string, string)

  function KeyOf(row: Row): SymbolDay {
    (row.symbol, row.day)
  }

  /** The best score of each (symbol, day), replaced when strictly beaten. */
  function Improve(best: map<SymbolDay, int>, key: SymbolDay, value: int): map<SymbolDay, int> {
    if value > (if key in best then best[key] else -1) then best[key := value] else best
  }

  predicate Relevant(row: Row, regimeOnly: bool) {
    regimeOnly ==> MarketSentimentKey in row.raw
  }

  /** The least time among the rows (or among those carrying a regime reading), absent when there is none. */
  ghost predicate IsEarliest(m: Option<int>, rows: seq<Row>, regimeOnly: bool) {
    && (m.None? <==> forall i :: 0 <= i < |rows| ==> !Relevant(rows[i], regimeOnly))
    && (m.Some? ==>
          && (exists i :: 0 <= i < |rows| && Relevant(rows[i], regimeOnly) && rows[i].time == m.value)
          && (forall i :: 0 <= i < |rows| && Relevant(rows[i], regimeOnly) ==> m.value <= rows[i].time))
  }

  /** The earlier of the time held and the row's, counting the row only when it is relevant. */
  function Earlier(held: Option<int>, time: int, relevant: bool): Option<int> {
    if relevant && (held.None? || time < held.value) then Some(time) else held
  }

  /** The axes among the first n whose key is there. */
  function AxesSeen(raw: Raw, n: nat): multiset<Axis>
    requires n <= |AXES|
  {
    if n == 0 then multiset{}
    else AxesSeen(raw, n - 1) + if ProbeKey(AXES[n - 1]) in raw then multiset{AXES[n - 1]} else multiset{}
  }

  lemma {:induction false} EachAxisSeenOnce(raw: Raw, n: nat, i: nat)
    requires n <= |AXES| && i < |AXES|
    ensures AxesSeen(raw, n)[AXES[i]] == if i < n && ProbeKey(AXES[i]) in raw then 1 else 0
    decreases n
  {
    if n > 0 {
      EachAxisSeenOnce(raw, n - 1, i);
      AxesDistinct(n - 1, i);
    }
  }

  /** Everything a scan retains. */
  datatype Scan = Scan(
    total: nat,
    noEvidence: nat,
    regimeSeen: nat,
    presence: multiset<Axis>,
    scoreCounts: multiset<int>,
    confidencePass: multiset<int>,
    best: map<SymbolDay, int>,
    sonnetScores: seq<int>,
    minTime: Option<int>,
    minTimeWithRegime: Option<int>,
    byDay: multiset<string>)

  const EMPTY := Scan(0, 0, 0, multiset{}, multiset{}, multiset{}, map[], [], None, None, multiset{})

  function Observe(s: Scan, row: Row): Scan {
    s.(total := s.total + 1,
       regimeSeen := s.regimeSeen + (if MarketSentimentKey in row.raw then 1 else 0),
       presence := s.presence + AxesSeen(row.raw, |AXES|),
       sonnetScores := s.sonnetScores + (if row.sonnet.Some? then [row.sonnet.value] else []),
       minTime := Earlier(s.minTime, row.time, true),
       minTimeWithRegime := Earlier(s.minTimeWithRegime, row.time, MarketSentimentKey in row.raw),
       byDay := s.byDay + multiset{row.day})
  }

  function Tally(s: Scan, key: SymbolDay, outcome: ScoreResult, minConfidence: real): Scan {
    if outcome.confidence == 0.0 then s.(noEvidence := s.noEvidence + 1)
    else
      s.(scoreCounts := s.scoreCounts + multiset{outcome.score},
         confidencePass := s.confidencePass
           + (if outcome.confidence >= minConfidence then multiset{outcome.score} else multiset{}),
         best := Improve(s.best, key, outcome.score))
  }

  /** The one-pass stream, row by row. */
  function Summarise(rows: seq<Row>, minConfidence: real, scorer: Scorer): Scan {
    if rows == [] then EMPTY
    else
      var last := rows[|rows| - 1];
      Tally(Observe(Summarise(rows[..|rows| - 1], minConfidence, scorer), last),
            KeyOf(last), Outcome(last, scorer), minConfidence)
  }

  method Probe(presence: multiset<Axis>, raw: Raw) returns (r: multiset<Axis>)
    ensures r == presence + AxesSeen(raw, |AXES|)
  {
    r := presence;
    var i := 0;
    while i < |AXES|
      invariant 0 <= i <= |AXES|
      invariant r == presence + AxesSeen(raw, i)
    {
      if ProbeKey(AXES[i]) in raw {
        r := r + multiset{AXES[i]};
      }
      i := i + 1;
    }
  }

  /** What a row shows before it is scored. */
  method Note(scan: Scan, row: Row) returns (r: Scan)
    ensures r == Observe(scan, row)
  {
    r := scan.(total := scan.total + 1);
    if r.minTime.None? || row.time < r.minTime.value {
      r := r.(minTime := Some(row.time));
    }
    r := r.(byDay := r.byDay + multiset{row.day});
    var presence := Probe(r.presence, row.raw);
    r := r.(presence := presence);
    if MarketSentimentKey in row.raw {
      r := r.(regimeSeen := r.regimeSeen + 1);
      if r.minTimeWithRegime.None? || row.time < r.minTimeWithRegime.value {
        r := r.(minTimeWithRegime := Some(row.time));
      }
    }
    if row.sonnet.Some? {
      r := r.(sonnetScores := r.sonnetScores + [row.sonnet.value]);
    }
  }

  /** What its score adds. */
  method Count(scan: Scan, key: SymbolDay, outcome: ScoreResult, minConfidence: real) returns (r: Scan)
    ensures r == Tally(scan, key, outcome, minConfidence)
  {
    r := scan;
    if outcome.confidence == 0.0 {
      r := r.(noEvidence := r.noEvidence + 1);
      return;
    }
    var value := outcome.score;
    r := r.(scoreCounts := r.scoreCounts + multiset{value});
    if outcome.confidence >= minConfidence {
      r := r.(confidencePass := r.confidencePass + multiset{value});
    }
    if value > (if key in r.best then r.best[key] else -1) {
      r := r.(best := r.best[key := value]);
    }
  }

  method ScanWindow(rows: seq<Row>, minConfidence: real, scorer: Scorer) returns (scan: Scan)
    ensures scan == Summarise(rows, minConfidence, scorer)
  {
    scan := EMPTY;
    var i := 0;
    while i < |rows|
      invariant 0 <= i <= |rows|
      invariant scan == Summarise(rows[..i], minConfidence, scorer)
    {
      assert rows[..i + 1][..i] == rows[..i];
      scan := Note(scan, rows[i]);
      scan := Count(scan, (rows[i].symbol, rows[i].day), scorer(rows[i].raw, rows[i].time), minConfidence);
      i := i + 1;
    }
    assert rows[..i] == rows;
  }

  /** The tallies are the histograms of the rescored rows. */
  lemma {:induction false} TalliesAreHistograms(rows: seq<Row>, minConfidence: real, scorer: Scorer)
    ensures var s := Summarise(rows, minConfidence, scorer);
      && s.scoreCounts == multiset(Scores(rows, scorer))
      && s.confidencePass == multiset(ConfidentScores(rows, minConfidence, scorer))
    decreases |rows|
  {
    if rows != [] {
      TalliesAreHistograms(rows[..|rows| - 1], minConfidence, scorer);
    }
  }

  /** Every row is on exactly one day and is either scored or set aside for lack of evidence. */
  lemma {:induction false} EveryRowIsAccountedFor(rows: seq<Row>, minConfidence: real, scorer: Scorer)
    ensures var s := Summarise(rows, minConfidence, scorer);
      && s.total == |rows|
      && s.total == s.noEvidence + |s.scoreCounts|
      && s.total == |s.byDay|
      && s.confidencePass <= s.scoreCounts
      && s.regimeSeen <= s.total
    decreases |rows|
  {
    if rows != [] {
      EveryRowIsAccountedFor(rows[..|rows| - 1], minConfidence, scorer);
    }
  }

  /** Each axis is counted as present on exactly the rows carrying its key. */
  lemma {:induction false} PresenceCountsKeys(rows: seq<Row>, axis: Axis, minConfidence: real, scorer: Scorer)
    ensures Summarise(rows, minConfidence, scorer).presence[axis] == WithKey(rows, ProbeKey(axis))
    ensures Summarise(rows, minConfidence, scorer).regimeSeen == WithKey(rows, MarketSentimentKey)
    decreases |rows|
  {
    if rows != [] {
      PresenceCountsKeys(rows[..|rows| - 1], axis, minConfidence, scorer);
      var i := AxesCover(axis);
      EachAxisSeenOnce(rows[|rows| - 1].raw, |AXES|, i);
    }
  }

  /** The window's bounds are the earliest row and the earliest row carrying a regime reading. */
  lemma {:induction false} BoundsAreEarliest(rows: seq<Row>, minConfidence: real, scorer: Scorer)
    ensures IsEarliest(Summarise(rows, minConfidence, scorer).minTime, rows, false)
    ensures IsEarliest(Summarise(rows, minConfidence, scorer).minTimeWithRegime, rows, true)
    decreases |rows|
  {
    if rows != [] {
      BoundsAreEarliest(rows[..|rows| - 1], minConfidence, scorer);
      MinTimeOneMore(rows, minConfidence, scorer);
      RegimeTimeOneMore(rows, minConfidence, scorer);
    }
  }

  lemma MinTimeOneMore(rows: seq<Row>, minConfidence: real, scorer: Scorer)
    requires rows != []
    requires IsEarliest(Summarise(rows[..|rows| - 1], minConfidence, scorer).minTime, rows[..|rows| - 1], false)
    ensures IsEarliest(Summarise(rows, minConfidence, scorer).minTime, rows, false)
  {
    BoundsOneMore(rows, minConfidence, scorer);
    EarliestOneMore(Summarise(rows[..|rows| - 1], minConfidence, scorer).minTime,
                    Summarise(rows, minConfidence, scorer).minTime, rows, false);
  }

  lemma RegimeTimeOneMore(rows: seq<Row>, minConfidence: real, scorer: Scorer)
    requires rows != []
    requires IsEarliest(Summarise(rows[..|rows| - 1], minConfidence, scorer).minTimeWithRegime, rows[..|rows| - 1], true)
    ensures IsEarliest(Summarise(rows, minConfidence, scorer).minTimeWithRegime, rows, true)
  {
    BoundsOneMore(rows, minConfidence, scorer);
    EarliestOneMore(Summarise(rows[..|rows| - 1], minConfidence, scorer).minTimeWithRegime,
                    Summarise(rows, minConfidence, scorer).minTimeWithRegime, rows, true);
  }

  lemma EarliestOneMore(before: Option<int>, after: Option<int>, rows: seq<Row>, regimeOnly: bool)
    requires rows != [] && IsEarliest(before, rows[..|rows| - 1], regimeOnly)
    requires var last := rows[|rows| - 1]; after == Earlier(before, last.time, Relevant(last, regimeOnly))
    ensures IsEarliest(after, rows, regimeOnly)
  {
    EarliestStep(before, rows[..|rows| - 1], rows[|rows| - 1], regimeOnly);
    assert rows == rows[..|rows| - 1] + [rows[|rows| - 1]];
  }

  lemma BoundsOneMore(rows: seq<Row>, minConfidence: real, scorer: Scorer)
    requires rows != []
    ensures var last := rows[|rows| - 1];
      var before, after := Summarise(rows[..|rows| - 1], minConfidence, scorer), Summarise(rows, minConfidence, scorer);
      && after.minTime == Earlier(before.minTime, last.time, Relevant(last, false))
      && after.minTimeWithRegime == Earlier(before.minTimeWithRegime, last.time, Relevant(last, true))
  {
  }

  lemma EarliestStep(held: Option<int>, seen: seq<Row>, row: Row, regimeOnly: bool)
    requires IsEarliest(held, seen, regimeOnly)
    ensures IsEarliest(Earlier(held, row.time, Relevant(row, regimeOnly)), seen + [row], regimeOnly)
  {
    var rows := seen + [row];
    var after := Earlier(held, row.time, Relevant(row, regimeOnly));
    assert rows[|seen|] == row;
    if after.Some? && after == held {
      var i :| 0 <= i < |seen| && Relevant(seen[i], regimeOnly) && seen[i].time == held.value;
      assert rows[i] == seen[i];
    }
    assert forall i :: 0 <= i < |seen| ==> rows[i] == seen[i];
  }

  /** The key that attests each axis. */
  lemma ProbesInFull()
    ensures ProbeKey(VolumeGrowth) == VolumeSpikeRatio && ProbeKey(SocialScore) == SocialGrowthKey
    ensures ProbeKey(NewsScore) == SentimentKey && ProbeKey(MarketTrend) == PriceChangePct24h
    ensures ProbeKey(LiquidityScore) == Volume24hUsd && ProbeKey(Positioning) == FundingRate8h
    ensures ProbeKey(Fundamentals) == TvlChangePct7d && ProbeKey(DeveloperActivity) == CommitRatio4w
  {
  }

  function RowsOn(rows: seq<Row>, day: string): nat {
    if rows == [] then 0 else (if rows[0].day == day then 1 else 0) + RowsOn(rows[1..], day)
  }

  /** The analyst's scores of the rows that have one, in order. */
  function AnalystScores(rows: seq<Row>): seq<int> {
    if rows == [] then []
    else (if rows[0].sonnet.Some? then [rows[0].sonnet.value] else []) + AnalystScores(rows[1..])
  }

  lemma {:induction false} RowsOnAppend(rows: seq<Row>, row: Row, day: string)
    ensures RowsOn(rows + [row], day) == RowsOn(rows, day) + if row.day == day then 1 else 0
    ensures AnalystScores(rows + [row]) == AnalystScores(rows) + if row.sonnet.Some? then [row.sonnet.value] else []
    decreases |rows|
  {
    if rows == [] {
      assert [row][1..] == [];
      assert rows + [row] == [row];
      assert AnalystScores([row]) == if row.sonnet.Some? then [row.sonnet.value] else [];
    } else {
      assert (rows + [row])[1..] == rows[1..] + [row];
      RowsOnAppend(rows[1..], row, day);
    }
  }

  lemma OneMoreRow(rows: seq<Row>, minConfidence: real, scorer: Scorer)
    requires rows != []
    ensures var last := rows[|rows| - 1];
      var before, after := Summarise(rows[..|rows| - 1], minConfidence, scorer), Summarise(rows, minConfidence, scorer);
      && after.byDay == before.byDay + multiset{last.day}
      && after.sonnetScores == before.sonnetScores + if last.sonnet.Some? then [last.sonnet.value] else []
  {
  }

  /** Each day has as many rows as the window has of it, and the analyst's scores are kept as they come. */
  lemma {:induction false} DaysAndAnalystsInFull(rows: seq<Row>, day: string, minConfidence: real, scorer: Scorer)
    ensures Summarise(rows, minConfidence, scorer).byDay[day] == RowsOn(rows, day)
    ensures Summarise(rows, minConfidence, scorer).sonnetScores == AnalystScores(rows)
    decreases |rows|
  {
    if rows != [] {
      var n := |rows| - 1;
      var before, after := Summarise(rows[..n], minConfidence, scorer), Summarise(rows, minConfidence, scorer);
      DaysAndAnalystsInFull(rows[..n], day, minConfidence, scorer);
      OneMoreRow(rows, minConfidence, scorer);
      RowsOnAppend(rows[..n], rows[n], day);
      assert rows == rows[..n] + [rows[n]];
      CountedOn(rows[..n], rows[n], day, before.byDay, after.byDay);
    }
  }

  lemma CountedOn(seen: seq<Row>, last: Row, day: string, days: multiset<string>, days': multiset<string>)
    requires days[day] == RowsOn(seen, day) && days' == days + multiset{last.day}
    ensures days'[day] == RowsOn(seen, day) + if last.day == day then 1 else 0
  {
  }
}
