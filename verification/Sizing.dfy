/** Turns a portfolio fraction into a contract quantity. */
module Sizing {
  import opened Rounding
  import opened RiskRules

  /** Contract granularity: one step is 1e-4 contracts, as is the smallest order. */
  const STEPS_PER_CONTRACT := 10_000

  datatype Caps = Caps(maxOrderUsd: real, maxLeverage: real)

  function Min(a: real, b: real): real {
    if a <= b then a else b
  }

  /** The notional a position of this fraction may have. */
  function Notional(equity: real, fraction: Fraction, caps: Caps): real {
    Min(Min(equity * Per(fraction, FULL), caps.maxOrderUsd), equity * caps.maxLeverage)
  }

  /** Contracts to order, or zero when nothing can be ordered. `steps` counts granules per contract. */
  function ComputeSize(equity: real, fraction: Fraction, price: real, caps: Caps, steps: int, minContracts: real): real
    requires steps > 0
  {
    if price <= 0.0 || equity <= 0.0 || fraction == 0 then 0.0
    else
      var raw := Notional(equity, fraction, caps) / price;
      var whole := Times(raw, steps).Floor;
      var size := RoundTo(Per(whole, steps), 100_000_000);
      if size < minContracts then 0.0 else size
  }

  /** Every cap holds of the notional: the order limit, the leverage, and the largest fraction ever approved. */
  lemma NotionalUnderEveryCap(equity: real, fraction: Fraction, caps: Caps, maxFraction: nat)
    requires 0.0 <= equity && fraction <= maxFraction
    ensures Notional(equity, fraction, caps) <= caps.maxOrderUsd
    ensures Notional(equity, fraction, caps) <= equity * caps.maxLeverage
    ensures Notional(equity, fraction, caps) <= equity * Per(maxFraction, FULL)
  {
    DivMonotone(fraction as real, maxFraction as real, FULL as real);
    MulMonotone(equity, Per(fraction, FULL), Per(maxFraction, FULL));
  }

  lemma PositiveSize(equity: real, fraction: Fraction, price: real, caps: Caps, steps: int, minContracts: real)
    requires steps > 0
    ensures ComputeSize(equity, fraction, price, caps, steps, minContracts) > 0.0 ==> 0.0 < equity && 0.0 < price && 0 < fraction
  {
  }

  /** The size is this many steps, worth no more than the notional; one step more would be. */
  predicate Largest(size: real, count: int, notional: real, price: real, steps: int)
    requires steps > 0
  {
    size == Per(count, steps) && size * price <= notional < Per(count + 1, steps) * price
  }

  /** On a grid no finer than 1e-8 the ordered size is exact: it stays under the cap, and one granule more would not. */
  lemma SizeIsLargestUnderCap(equity: real, fraction: Fraction, price: real, caps: Caps, steps: int, minContracts: real)
    returns (count: int)
    requires steps > 0 && 100_000_000 % steps == 0 && 0.0 < minContracts
    ensures var size := ComputeSize(equity, fraction, price, caps, steps, minContracts);
            size > 0.0 ==>
              minContracts <= size && Largest(size, count, Notional(equity, fraction, caps), price, steps)
  {
    if price <= 0.0 || equity <= 0.0 || fraction == 0 {
      return 0;
    }
    var cap := Notional(equity, fraction, caps);
    count := Times(cap / price, steps).Floor;
    WholeGranulesExact(count, steps);
    UnderCap(cap, price, count, steps);
  }

  lemma WholeGranulesExact(count: int, steps: int)
    requires steps > 0 && 100_000_000 % steps == 0
    ensures RoundTo(Per(count, steps), 100_000_000) == Per(count, steps)
  {
    var fine := 100_000_000 / steps;
    assert steps * fine == 100_000_000 && fine > 0;
    RoundOnFinerGrid(count, steps, fine, 100_000_000);
  }

  lemma RoundOnFinerGrid(count: int, steps: int, fine: int, scale: int)
    requires steps > 0 && fine > 0 && steps * fine == scale
    ensures RoundTo(Per(count, steps), scale) == Per(count, steps)
  {
    RefineGrid(count, steps, fine);
    RoundToOfGridPoint(count * fine, scale);
  }

  /** A coarse grid point is also a point of the grid `fine` times as dense. */
  lemma RefineGrid(count: int, steps: int, fine: int)
    requires steps > 0 && fine > 0
    ensures Per(count, steps) == Per(count * fine, steps * fine)
  {
    DivCancel(fine as real, count as real, steps as real);
    assert (count * fine) as real == fine as real * count as real;
    assert (steps * fine) as real == fine as real * steps as real;
  }

  lemma UnderCap(cap: real, price: real, count: int, steps: int)
    requires 0.0 < price && steps > 0
    requires count == Times(cap / price, steps).Floor
    ensures Per(count, steps) * price <= cap < Per(count + 1, steps) * price
  {
    var raw, s := cap / price, steps as real;
    assert count as real <= raw * s < (count + 1) as real;
    DivMul(cap, price);
    DivMul(count as real, s);
    DivMul((count + 1) as real, s);
    LessByFactor(Per(count, steps), raw, s);
    LessByFactor(raw, Per(count + 1, steps), s);
    MulMonotone(price, Per(count, steps), raw);
    MulStrict(price, raw, Per(count + 1, steps));
  }

  /** The value of an order respects the order limit, the leverage and the largest fraction ever approved. */
  predicate UnderCaps(size: real, price: real, equity: real, caps: Caps, maxFraction: nat) {
    && size * price <= caps.maxOrderUsd
    && size * price <= equity * caps.maxLeverage
    && size * price <= equity * Per(maxFraction, FULL)
  }

  lemma SizeRespectsCaps(equity: real, fraction: Fraction, price: real, caps: Caps, steps: int, minContracts: real, maxFraction: nat)
    requires steps > 0 && 100_000_000 % steps == 0 && 0.0 < minContracts && fraction <= maxFraction
    ensures var size := ComputeSize(equity, fraction, price, caps, steps, minContracts);
            size > 0.0 ==> UnderCaps(size, price, equity, caps, maxFraction)
  {
    if ComputeSize(equity, fraction, price, caps, steps, minContracts) > 0.0 {
      var count := SizeIsLargestUnderCap(equity, fraction, price, caps, steps, minContracts);
      PositiveSize(equity, fraction, price, caps, steps, minContracts);
      NotionalUnderEveryCap(equity, fraction, caps, maxFraction);
    }
  }

  /** The notional is one of the three caps, so the least of them. */
  lemma NotionalIsTheLeastCap(equity: real, fraction: Fraction, caps: Caps)
    ensures var n := Notional(equity, fraction, caps);
            && n <= equity * Per(fraction, FULL) && n <= caps.maxOrderUsd && n <= equity * caps.maxLeverage
            && (n == equity * Per(fraction, FULL) || n == caps.maxOrderUsd || n == equity * caps.maxLeverage)
  {
  }

  /** Something is ordered exactly when there is equity, a price and a share, and the capped notional pays for the
      smallest order. */
  lemma SizedIff(equity: real, fraction: Fraction, price: real, caps: Caps)
    ensures ComputeSize(equity, fraction, price, caps, STEPS_PER_CONTRACT, 0.0001) > 0.0
      <==> 0.0 < equity && 0.0 < price && 0 < fraction && price * 0.0001 <= Notional(equity, fraction, caps)
  {
    if 0.0 < equity && 0.0 < price && 0 < fraction {
      var cap := Notional(equity, fraction, caps);
      var count := Times(cap / price, STEPS_PER_CONTRACT).Floor;
      WholeGranulesExact(count, STEPS_PER_CONTRACT);
      UnderCap(cap, price, count, STEPS_PER_CONTRACT);
      OneStepPays(cap, price, count);
    }
  }

  lemma OneStepPays(cap: real, price: real, count: int)
    requires 0.0 < price && Per(count, STEPS_PER_CONTRACT) * price <= cap < Per(count + 1, STEPS_PER_CONTRACT) * price
    ensures Per(count, STEPS_PER_CONTRACT) >= 0.0001 <==> price * 0.0001 <= cap
  {
    if count >= 1 {
      DivMonotone(1.0, count as real, 10_000.0);
      MulMonotone(price, 0.0001, Per(count, STEPS_PER_CONTRACT));
    } else {
      DivMonotone((count + 1) as real, 1.0, 10_000.0);
      MulMonotone(price, Per(count + 1, STEPS_PER_CONTRACT), 0.0001);
    }
  }
}
