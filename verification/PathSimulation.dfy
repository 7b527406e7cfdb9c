/** Walking a price path: which of the two bounds a position would have met first, and what it made. */
module PathSimulation {
  import opened RiskRules
  import opened Rounding

  datatype Sample = Sample(seconds: int, price: real)

  datatype Ending = StopLoss | TakeProfit | Horizon

  datatype TradeOutcome =
    | NoData
    | Settled(ending: Ending, exitPrice: real, seconds: int, grossPct: real, netPct: real)

  datatype Position = Position(entry: real, direction: Direction, stop: real, target: real)

  const GRID: int := 1_000_000

  function Settle(ending: Ending, p: Position, at: Sample, fee: real): (o: TradeOutcome)
    requires p.entry > 0.0
    ensures o.Settled? && o.ending == ending
  {
    var move := (at.price - p.entry) / p.entry;
    var gross := (if p.direction != Short then move else -move) * 100.0;
    Settled(ending, at.price, at.seconds, RoundTo(gross, GRID), RoundTo(gross - fee * 200.0, GRID))
  }

  predicate HitStop(p: Position, price: real) {
    if p.direction != Short then price <= p.stop else price >= p.stop
  }

  predicate HitTarget(p: Position, price: real) {
    if p.direction != Short then price >= p.target else price <= p.target
  }

  /** The first touched sample settles the position; failing that, the last sample does. */
  function Walk(p: Position, path: seq<Sample>, fee: real): (o: TradeOutcome)
    requires p.entry > 0.0 && path != []
    ensures o.Settled?
  {
    if HitStop(p, path[0].price) then Settle(StopLoss, p, path[0], fee)
    else if HitTarget(p, path[0].price) then Settle(TakeProfit, p, path[0], fee)
    else if |path| == 1 then Settle(Horizon, p, path[0], fee)
    else Walk(p, path[1..], fee)
  }

  function SimulatePath(p: Position, path: seq<Sample>, fee: real): TradeOutcome {
    if p.entry <= 0.0 || path == [] then NoData else Walk(p, path, fee)
  }

  predicate Touched(p: Position, s: Sample) {
    HitStop(p, s.price) || HitTarget(p, s.price)
  }

  ghost predicate FirstTouch(p: Position, path: seq<Sample>, k: nat) {
    k < |path| && Touched(p, path[k]) && forall i :: 0 <= i < k ==> !Touched(p, path[i])
  }

  lemma {:induction false} WalkToTouch(p: Position, path: seq<Sample>, fee: real, k: nat)
    requires p.entry > 0.0 && FirstTouch(p, path, k)
    ensures Walk(p, path, fee)
         == Settle(if HitStop(p, path[k].price) then StopLoss else TakeProfit, p, path[k], fee)
    decreases k
  {
    if k > 0 {
      assert !Touched(p, path[0]);
      WalkToTouch(p, path[1..], fee, k - 1);
    }
  }

  lemma {:induction false} WalkToHorizon(p: Position, path: seq<Sample>, fee: real)
    requires p.entry > 0.0 && path != [] && forall i :: 0 <= i < |path| ==> !Touched(p, path[i])
    ensures Walk(p, path, fee) == Settle(Horizon, p, path[|path| - 1], fee)
    decreases |path|
  {
    assert !Touched(p, path[0]);
    if |path| > 1 {
      WalkToHorizon(p, path[1..], fee);
    }
  }

  /**
   * The position settles at its earliest touched sample, at that sample's price, and the stop wins when
   * that sample touches both bounds; an untouched path runs to its last sample.
   */
  lemma EarliestTouchSettles(p: Position, path: seq<Sample>, fee: real)
    ensures SimulatePath(p, path, fee).NoData? <==> p.entry <= 0.0 || path == []
    ensures p.entry > 0.0 ==> forall k: nat :: FirstTouch(p, path, k) ==>
      SimulatePath(p, path, fee) == Settle(if HitStop(p, path[k].price) then StopLoss else TakeProfit, p, path[k], fee)
    ensures p.entry > 0.0 && path != [] && (forall i :: 0 <= i < |path| ==> !Touched(p, path[i])) ==>
      SimulatePath(p, path, fee) == Settle(Horizon, p, path[|path| - 1], fee)
  {
    if p.entry > 0.0 && path != [] {
      forall k: nat | FirstTouch(p, path, k)
        ensures Walk(p, path, fee) == Settle(if HitStop(p, path[k].price) then StopLoss else TakeProfit, p, path[k], fee)
      {
        WalkToTouch(p, path, fee, k);
      }
      if forall i :: 0 <= i < |path| ==> !Touched(p, path[i]) {
        WalkToHorizon(p, path, fee);
      }
    }
  }

  /** What a settled position made, in percent to six decimals: the move from the entry, for a short the move the other way,
      and twice the fee less. */
  ghost predicate Made(o: TradeOutcome, p: Position, fee: real)
    requires o.Settled? && p.entry > 0.0
  {
    var move := (o.exitPrice - p.entry) / p.entry * 100.0;
    && Near(o.grossPct, if p.direction == Short then -move else move, 1_000_000)
    && Near(o.netPct, (if p.direction == Short then -move else move) - 2.0 * fee * 100.0, 1_000_000)
  }

  lemma SettleMakes(ending: Ending, p: Position, at: Sample, fee: real)
    requires p.entry > 0.0
    ensures var o := Settle(ending, p, at, fee);
            o.ending == ending && o.exitPrice == at.price && o.seconds == at.seconds && Made(o, p, fee)
  {
    var move := (at.price - p.entry) / p.entry;
    var gross := (if p.direction != Short then move else -move) * 100.0;
    RoundToNear(gross, GRID);
    RoundToNear(gross - fee * 200.0, GRID);
  }

  /** Neither bound is reached before sample k. */
  predicate Between(p: Position, path: seq<Sample>, k: nat)
    requires k <= |path|
  {
    forall i :: 0 <= i < k ==>
      if p.direction == Short then p.target < path[i].price < p.stop else p.stop < path[i].price < p.target
  }

  /** In prices: the first sample at or beyond the stop settles at that sample's price and time, if none before it reached
      either bound; a target does if that sample is not at the stop; and a path between the bounds runs to its end. */
  lemma SettlesWhereItTouches(p: Position, path: seq<Sample>, fee: real, k: nat)
    requires p.entry > 0.0 && k < |path| && Between(p, path, k)
    ensures var o := SimulatePath(p, path, fee);
            var price := path[k].price;
            var stopped := if p.direction == Short then p.stop <= price else price <= p.stop;
            var reached := if p.direction == Short then price <= p.target else p.target <= price;
            && o.Settled? && Made(o, p, fee)
            && (stopped || reached ==> o.exitPrice == price && o.seconds == path[k].seconds
                                       && o.ending == if stopped then StopLoss else TakeProfit)
            && (!stopped && !reached && k == |path| - 1 ==>
                  o.exitPrice == price && o.seconds == path[k].seconds && o.ending == Horizon)
  {
    EarliestTouchSettles(p, path, fee);
    assert forall i :: 0 <= i < k ==> !Touched(p, path[i]);
    if Touched(p, path[k]) {
      assert FirstTouch(p, path, k);
      SettleMakes(if HitStop(p, path[k].price) then StopLoss else TakeProfit, p, path[k], fee);
    } else if k == |path| - 1 {
      SettleMakes(Horizon, p, path[k], fee);
    }
    WalkMakes(p, path, fee);
  }

  lemma {:induction false} WalkMakes(p: Position, path: seq<Sample>, fee: real)
    requires p.entry > 0.0 && path != []
    ensures Made(Walk(p, path, fee), p, fee)
    decreases |path|
  {
    SettleMakes(StopLoss, p, path[0], fee);
    SettleMakes(TakeProfit, p, path[0], fee);
    SettleMakes(Horizon, p, path[0], fee);
    if |path| > 1 {
      WalkMakes(p, path[1..], fee);
    }
  }

  /** Later prices never change a stop or a target: only a position still open can end differently. */
  lemma {:induction false} ExtendingKeepsSettlement(p: Position, path: seq<Sample>, more: seq<Sample>, fee: real)
    requires var o := SimulatePath(p, path, fee); o.Settled? && o.ending != Horizon
    ensures SimulatePath(p, path + more, fee) == SimulatePath(p, path, fee)
    decreases |path|
  {
    assert (path + more)[0] == path[0];
    if !Touched(p, path[0]) {
      assert (path + more)[1..] == path[1..] + more;
      ExtendingKeepsSettlement(p, path[1..], more, fee);
    }
  }

  function Reflect(price: real, entry: real): real {
    2.0 * entry - price
  }

  /** The short whose stop and target are the long's, reflected about the entry. */
  function Mirror(p: Position): Position {
    Position(p.entry, Short, Reflect(p.stop, p.entry), Reflect(p.target, p.entry))
  }

  function MirrorPath(path: seq<Sample>, entry: real): (r: seq<Sample>)
    ensures |r| == |path|
  {
    if path == [] then []
    else [Sample(path[0].seconds, Reflect(path[0].price, entry))] + MirrorPath(path[1..], entry)
  }

  lemma MirrorSettles(ending: Ending, p: Position, at: Sample, fee: real)
    requires p.entry > 0.0 && p.direction != Short
    ensures var o := Settle(ending, p, at, fee);
      && o.Settled?
      && Settle(ending, Mirror(p), Sample(at.seconds, Reflect(at.price, p.entry)), fee)
         == o.(exitPrice := Reflect(at.price, p.entry))
  {
    OppositeMove(at.price - p.entry, Reflect(at.price, p.entry) - p.entry, p.entry);
  }

  lemma OppositeMove(a: real, b: real, entry: real)
    requires entry > 0.0 && b == -a
    ensures b / entry == -(a / entry)
  {
  }

  /** A short on the mirrored market ends as the long does: same ending, same time, same profit to the last digit. */
  lemma {:induction false} ShortMirrorsLong(p: Position, path: seq<Sample>, fee: real)
    requires p.direction != Short
    ensures var long, short := SimulatePath(p, path, fee), SimulatePath(Mirror(p), MirrorPath(path, p.entry), fee);
      if long.NoData? then short.NoData? else short == long.(exitPrice := Reflect(long.exitPrice, p.entry))
    decreases |path|
  {
    if p.entry > 0.0 && path != [] {
      var mirrored := MirrorPath(path, p.entry);
      assert mirrored[1..] == MirrorPath(path[1..], p.entry);
      MirrorSettles(StopLoss, p, path[0], fee);
      MirrorSettles(TakeProfit, p, path[0], fee);
      MirrorSettles(Horizon, p, path[0], fee);
      if |path| > 1 {
        ShortMirrorsLong(p, path[1..], fee);
      }
    }
  }
}
