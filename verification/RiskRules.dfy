/** The risk engine's pure rules: ordered gates, protective levels and the position fraction. */
module RiskRules {
  import opened Rounding

  datatype Direction = Long | Short | Watch

  /** A portfolio fraction in units of 1e-4, the grid every stored fraction is rounded to. */
  type Fraction = n: nat | n <= FULL

  const FULL: nat := 10_000

  datatype RiskConfig = RiskConfig(
    stopLossPct: real,
    takeProfitPct: real,
    maxPositionPct: real,
    minConfidence: real,
    minScore: int,
    minRiskReward: real)

  datatype Levels = Levels(entry: real, stop: real, target: real, size: int, riskReward: real)

  datatype Refusal = Blacklisted | NoEntryPrice | NotActionable | LowConfidence | LowScore | LowRiskReward | MaxExposure

  datatype Verdict = Approved(levels: Levels) | Rejected(reason: Refusal)

  /** What `evaluate` is asked: one decision, the blacklist flag and the exposure just read. */
  datatype Query = Query(
    entry: real,
    direction: Direction,
    confidence: real,
    score: int,
    blacklisted: bool,
    exposure: int)

  function Capped(confidence: real): real {
    if confidence < 1.0 then confidence else 1.0
  }

  function Share(confidence: real, maxPct: real): real {
    maxPct * Capped(confidence)
  }

  /** Confidence-scaled fraction, in grid units. */
  function PositionSize(confidence: real, maxPct: real): int {
    Round(Times(Share(confidence, maxPct), FULL))
  }

  function RiskReward(reward: real, risk: real): real {
    if risk > 0.0 then RoundTo(reward / risk, 1000) else 0.0
  }

  function Stop(entry: real, direction: Direction, cfg: RiskConfig): real {
    entry * (if direction == Short then 1.0 + cfg.stopLossPct else 1.0 - cfg.stopLossPct)
  }

  function Target(entry: real, direction: Direction, cfg: RiskConfig): real {
    entry * (if direction == Short then 1.0 - cfg.takeProfitPct else 1.0 + cfg.takeProfitPct)
  }

  function LevelsRatio(entry: real, direction: Direction, cfg: RiskConfig): real {
    var stop, target := Stop(entry, direction, cfg), Target(entry, direction, cfg);
    if direction == Short then RiskReward(entry - target, stop - entry)
    else RiskReward(target - entry, entry - stop)
  }

  function ComputeLevels(entry: real, direction: Direction, confidence: real, cfg: RiskConfig): Levels {
    Levels(
      RoundTo(entry, 100_000_000),
      RoundTo(Stop(entry, direction, cfg), 100_000_000),
      RoundTo(Target(entry, direction, cfg), 100_000_000),
      PositionSize(confidence, cfg.maxPositionPct),
      LevelsRatio(entry, direction, cfg))
  }

  function Evaluate(q: Query, cfg: RiskConfig): Verdict {
    if q.blacklisted then Rejected(Blacklisted)
    else if q.entry <= 0.0 then Rejected(NoEntryPrice)
    else if q.direction == Watch then Rejected(NotActionable)
    else if q.confidence < cfg.minConfidence then Rejected(LowConfidence)
    else if q.score < cfg.minScore then Rejected(LowScore)
    else
      var levels := ComputeLevels(q.entry, q.direction, q.confidence, cfg);
      if levels.riskReward < cfg.minRiskReward then Rejected(LowRiskReward)
      else if q.exposure + levels.size > FULL then Rejected(MaxExposure)
      else Approved(levels)
  }

  /** Whether one gate, taken on its own, lets the query through. */
  predicate Passes(gate: Refusal, q: Query, cfg: RiskConfig) {
    match gate
    case Blacklisted => !q.blacklisted
    case NoEntryPrice => q.entry > 0.0
    case NotActionable => q.direction != Watch
    case LowConfidence => q.confidence >= cfg.minConfidence
    case LowScore => q.score >= cfg.minScore
    case LowRiskReward => ComputeLevels(q.entry, q.direction, q.confidence, cfg).riskReward >= cfg.minRiskReward
    case MaxExposure => q.exposure + ComputeLevels(q.entry, q.direction, q.confidence, cfg).size <= FULL
  }

  const GATES: seq<Refusal> :=
    [Blacklisted, NoEntryPrice, NotActionable, LowConfidence, LowScore, LowRiskReward, MaxExposure]

  /** The verdict is an approval exactly when every gate passes; a rejection names the first that does not. */
  lemma FirstFailingGateDecides(q: Query, cfg: RiskConfig)
    ensures Evaluate(q, cfg).Approved? <==> forall i :: 0 <= i < |GATES| ==> Passes(GATES[i], q, cfg)
    ensures forall i :: 0 <= i < |GATES| && !Passes(GATES[i], q, cfg) && (forall j :: 0 <= j < i ==> Passes(GATES[j], q, cfg))
              ==> Evaluate(q, cfg) == Rejected(GATES[i])
  {
    var v := Evaluate(q, cfg);
    if v.Approved? {
      forall i | 0 <= i < |GATES| ensures Passes(GATES[i], q, cfg) {
        assert GATES[i] == Blacklisted || GATES[i] == NoEntryPrice || GATES[i] == NotActionable || GATES[i] == LowConfidence
            || GATES[i] == LowScore || GATES[i] == LowRiskReward || GATES[i] == MaxExposure;
      }
    }
    assert Passes(GATES[0], q, cfg) == !q.blacklisted;
    assert Passes(GATES[1], q, cfg) == (q.entry > 0.0);
    assert Passes(GATES[2], q, cfg) == (q.direction != Watch);
    assert Passes(GATES[3], q, cfg) == (q.confidence >= cfg.minConfidence);
    assert Passes(GATES[4], q, cfg) == (q.score >= cfg.minScore);
    assert Passes(GATES[5], q, cfg) == Passes(LowRiskReward, q, cfg);
    assert Passes(GATES[6], q, cfg) == Passes(MaxExposure, q, cfg);
  }

  /** The reward-to-risk gate is a statement about the configuration only: no price or direction can change it. */
  lemma RiskRewardIgnoresPrice(entry: real, direction: Direction, cfg: RiskConfig)
    requires entry > 0.0 && cfg.stopLossPct > 0.0
    ensures LevelsRatio(entry, direction, cfg) == RoundTo(cfg.takeProfitPct / cfg.stopLossPct, 1000)
  {
    MovesFromEntry(entry, direction, cfg);
    var stop, target := Stop(entry, direction, cfg), Target(entry, direction, cfg);
    if direction == Short {
      RatioIgnoresPrice(entry, entry - target, stop - entry, cfg.takeProfitPct, cfg.stopLossPct);
    } else {
      RatioIgnoresPrice(entry, target - entry, entry - stop, cfg.takeProfitPct, cfg.stopLossPct);
    }
  }

  lemma RatioIgnoresPrice(entry: real, reward: real, risk: real, rewardPct: real, riskPct: real)
    requires entry > 0.0 && riskPct > 0.0
    requires reward == entry * rewardPct && risk == entry * riskPct
    ensures RiskReward(reward, risk) == RoundTo(rewardPct / riskPct, 1000)
  {
    MulStrict(entry, 0.0, riskPct);
    DivCancel(entry, rewardPct, riskPct);
  }

  lemma MovesFromEntry(entry: real, direction: Direction, cfg: RiskConfig)
    ensures direction == Short ==> Stop(entry, direction, cfg) - entry == entry * cfg.stopLossPct
    ensures direction == Short ==> entry - Target(entry, direction, cfg) == entry * cfg.takeProfitPct
    ensures direction != Short ==> entry - Stop(entry, direction, cfg) == entry * cfg.stopLossPct
    ensures direction != Short ==> Target(entry, direction, cfg) - entry == entry * cfg.takeProfitPct
  {
  }

  /** The position fraction grows with confidence and never exceeds the configured maximum. */
  lemma PositionSizeBounds(low: real, high: real, maxPct: real)
    requires 0.0 <= low <= high && 0.0 <= maxPct
    ensures 0 <= PositionSize(low, maxPct) <= PositionSize(high, maxPct) <= Round(Times(maxPct, FULL))
    ensures low <= 1.0 ==> Scaled(PositionSize(low, maxPct), maxPct, low)
    ensures 1.0 <= high ==> PositionSize(high, maxPct) == PositionSize(1.0, maxPct)
  {
    ShareIsScaled(low, maxPct);
    ShareIsScaled(high, maxPct);
    ShareBounds(low, high, maxPct);
    RoundChain(Share(low, maxPct), Share(high, maxPct), maxPct);
  }

  lemma RoundChain(low: real, high: real, top: real)
    requires 0.0 <= low <= high <= top
    ensures 0 <= Round(Times(low, FULL)) <= Round(Times(high, FULL)) <= Round(Times(top, FULL))
  {
    RoundOfInteger(0);
    RoundTimesMonotone(0.0, low, FULL);
    RoundTimesMonotone(low, high, FULL);
    RoundTimesMonotone(high, top, FULL);
  }

  lemma ShareBounds(low: real, high: real, maxPct: real)
    requires 0.0 <= low <= high && 0.0 <= maxPct
    ensures 0.0 <= Share(low, maxPct) <= Share(high, maxPct) <= maxPct
  {
    MulMonotone(maxPct, 0.0, Capped(low));
    MulMonotone(maxPct, Capped(low), Capped(high));
    MulMonotone(maxPct, Capped(high), 1.0);
  }

  // ---------- What is approved, in numbers ----------

  /** Everything an approval requires, from the inputs alone; and the reason given otherwise, the first that applies. */
  lemma VerdictInFull(q: Query, cfg: RiskConfig)
    ensures var size := PositionSize(q.confidence, cfg.maxPositionPct);
            Evaluate(q, cfg).Approved? <==>
              && !q.blacklisted && 0.0 < q.entry && q.direction in {Long, Short}
              && cfg.minConfidence <= q.confidence && cfg.minScore <= q.score
              && cfg.minRiskReward <= (if cfg.stopLossPct > 0.0 then RoundTo(cfg.takeProfitPct / cfg.stopLossPct, 1000) else 0.0)
              && q.exposure + size <= 10_000
    ensures Evaluate(q, cfg) == Rejected(Blacklisted) <==> q.blacklisted
    ensures Evaluate(q, cfg) == Rejected(NoEntryPrice) <==> !q.blacklisted && q.entry <= 0.0
    ensures Evaluate(q, cfg) == Rejected(NotActionable) <==> !q.blacklisted && 0.0 < q.entry && q.direction == Watch
    ensures Evaluate(q, cfg) == Rejected(LowConfidence)
      <==> !q.blacklisted && 0.0 < q.entry && q.direction != Watch && q.confidence < cfg.minConfidence
    ensures Evaluate(q, cfg) == Rejected(LowScore)
      <==> !q.blacklisted && 0.0 < q.entry && q.direction != Watch && cfg.minConfidence <= q.confidence && q.score < cfg.minScore
  {
    if q.entry > 0.0 {
      if cfg.stopLossPct > 0.0 {
        RiskRewardIgnoresPrice(q.entry, q.direction, cfg);
      } else {
        NoRiskNoRatio(q.entry, q.direction, cfg);
      }
    }
  }

  lemma NoRiskNoRatio(entry: real, direction: Direction, cfg: RiskConfig)
    requires entry > 0.0 && cfg.stopLossPct <= 0.0
    ensures LevelsRatio(entry, direction, cfg) == 0.0
  {
    MovesFromEntry(entry, direction, cfg);
    MulMonotone(entry, cfg.stopLossPct, 0.0);
  }

  /** This share is the maximum scaled by this confidence, to the nearest grid point. */
  predicate Scaled(share: int, maxPct: real, confidence: real) {
    -0.5 <= share as real - maxPct * confidence * 10_000.0 <= 0.5
  }

  /** The approved share is the configured maximum scaled by the confidence, to the nearest grid point; full confidence
      and anything above it get the maximum. */
  lemma ShareIsScaled(confidence: real, maxPct: real)
    ensures confidence <= 1.0 ==> Scaled(PositionSize(confidence, maxPct), maxPct, confidence)
    ensures 1.0 <= confidence ==> PositionSize(confidence, maxPct) == PositionSize(1.0, maxPct)
  {
    ShareRounds(Share(confidence, maxPct));
  }

  lemma ShareRounds(share: real)
    ensures -0.5 <= Round(Times(share, FULL)) as real - share * 10_000.0 <= 0.5
  {
  }

  /** Three prices, each to the nearest of eight decimals. */
  ghost predicate Priced(levels: (real, real, real), entry: real, stop: real, target: real) {
    Near(levels.0, entry, 100_000_000) && Near(levels.1, stop, 100_000_000) && Near(levels.2, target, 100_000_000)
  }

  /** The approved prices are the entry and the entry moved by the configured percentages, the stop against the direction
      and the target with it, each to the nearest of eight decimals. */
  lemma ApprovedPrices(q: Query, entry: real, cfg: RiskConfig)
    requires q.entry == entry
    ensures Evaluate(q, cfg).Approved? ==>
              var levels := Evaluate(q, cfg).levels;
              var prices := (levels.entry, levels.stop, levels.target);
              && levels.size == PositionSize(q.confidence, cfg.maxPositionPct)
              && (q.direction == Long ==>
                    Priced(prices, entry, entry * (1.0 - cfg.stopLossPct), entry * (1.0 + cfg.takeProfitPct)))
              && (q.direction == Short ==>
                    Priced(prices, entry, entry * (1.0 + cfg.stopLossPct), entry * (1.0 - cfg.takeProfitPct)))
  {
    PricesMove(entry, cfg);
    if Evaluate(q, cfg).Approved? {
      if q.direction == Long {
        LevelsAreNear(q, entry, cfg, entry * (1.0 - cfg.stopLossPct), entry * (1.0 + cfg.takeProfitPct));
      } else {
        LevelsAreNear(q, entry, cfg, entry * (1.0 + cfg.stopLossPct), entry * (1.0 - cfg.takeProfitPct));
      }
    }
  }

  lemma LevelsAreNear(q: Query, entry: real, cfg: RiskConfig, stop: real, target: real)
    requires Evaluate(q, cfg).Approved? && q.entry == entry
    requires stop == Stop(entry, q.direction, cfg) && target == Target(entry, q.direction, cfg)
    ensures var levels := Evaluate(q, cfg).levels;
            && levels.size == PositionSize(q.confidence, cfg.maxPositionPct)
            && Priced((levels.entry, levels.stop, levels.target), entry, stop, target)
  {
    RoundToNear(entry, 100_000_000);
    RoundToNear(stop, 100_000_000);
    RoundToNear(target, 100_000_000);
  }

  lemma PricesMove(entry: real, cfg: RiskConfig)
    ensures Stop(entry, Long, cfg) == entry * (1.0 - cfg.stopLossPct) && Target(entry, Long, cfg) == entry * (1.0 + cfg.takeProfitPct)
    ensures Stop(entry, Short, cfg) == entry * (1.0 + cfg.stopLossPct) && Target(entry, Short, cfg) == entry * (1.0 - cfg.takeProfitPct)
  {
  }
}
