/** Weighted means over the terms that are present: the denominator is the weight actually there. */
module WeightedMean {
  import opened Rounding
  import Sums
  import opened Wrappers

  datatype Term = Term(weight: real, value: Option<real>)

  function WeightOf(t: Term): real {
    if t.value.Some? then t.weight else 0.0
  }

  function PullOf(t: Term): real {
    if t.value.Some? then t.weight * t.value.value else 0.0
  }

  function Weights(terms: seq<Term>): (r: seq<real>)
    ensures |r| == |terms|
  {
    seq(|terms|, i requires 0 <= i < |terms| => WeightOf(terms[i]))
  }

  function Pulls(terms: seq<Term>): (r: seq<real>)
    ensures |r| == |terms|
  {
    seq(|terms|, i requires 0 <= i < |terms| => PullOf(terms[i]))
  }

  function PresentWeight(terms: seq<Term>): real {
    Sums.Sum(Weights(terms))
  }

  function WeightedSum(terms: seq<Term>): real {
    Sums.Sum(Pulls(terms))
  }

  function Mean(terms: seq<Term>): real
    requires PresentWeight(terms) != 0.0
  {
    WeightedSum(terms) / PresentWeight(terms)
  }

  predicate Positive(terms: seq<Term>) {
    forall i :: 0 <= i < |terms| ==> terms[i].weight > 0.0
  }

  predicate Within(terms: seq<Term>, low: real, high: real) {
    forall i :: 0 <= i < |terms| && terms[i].value.Some? ==> low <= terms[i].value.value <= high
  }

  /** There is weight present exactly when some term is. */
  lemma PresentWeightPositive(terms: seq<Term>)
    requires Positive(terms)
    ensures 0.0 <= PresentWeight(terms)
    ensures 0.0 < PresentWeight(terms) <==> exists i :: 0 <= i < |terms| && terms[i].value.Some?
  {
    var ws := Weights(terms);
    Sums.SumNonNegative(ws);
    if i :| 0 <= i < |terms| && terms[i].value.Some? {
      assert 0.0 < ws[i] <= Sums.Sum(ws);
    } else {
      Sums.SumOfZeros(ws);
    }
  }

  lemma PullWithin(t: Term, low: real, high: real)
    requires t.weight > 0.0 && (t.value.Some? ==> low <= t.value.value <= high)
    ensures Sums.Between(WeightOf(t), low, PullOf(t), high)
  {
    if t.value.Some? {
      MulMonotone(t.weight, low, t.value.value);
      MulMonotone(t.weight, t.value.value, high);
    }
  }

  lemma SumWithin(terms: seq<Term>, low: real, high: real)
    requires Positive(terms) && Within(terms, low, high)
    ensures Sums.Between(PresentWeight(terms), low, WeightedSum(terms), high)
  {
    forall i | 0 <= i < |terms| ensures Sums.Between(Weights(terms)[i], low, Pulls(terms)[i], high) {
      PullWithin(terms[i], low, high);
    }
    Sums.SumBetween(Weights(terms), Pulls(terms), low, high);
  }

  lemma DivideBounds(sum: real, weight: real, low: real, high: real)
    requires 0.0 < weight && Sums.Between(weight, low, sum, high)
    ensures low <= sum / weight <= high
  {
    var mean := sum / weight;
    DivMul(sum, weight);
    LessByFactor(low, mean, weight);
    LessByFactor(mean, high, weight);
  }

  /** A mean over present terms stays between the least and the greatest of them: absent ones do not pull it down. */
  lemma MeanWithin(terms: seq<Term>, low: real, high: real)
    requires Positive(terms) && Within(terms, low, high) && 0.0 < PresentWeight(terms)
    ensures low <= Mean(terms) <= high
  {
    SumWithin(terms, low, high);
    DivideBounds(WeightedSum(terms), PresentWeight(terms), low, high);
  }

  /** Replacing one term changes both sums by that term only. */
  lemma UpdateSums(terms: seq<Term>, i: nat, t: Term)
    requires i < |terms|
    ensures PresentWeight(terms[i := t]) == PresentWeight(terms) - WeightOf(terms[i]) + WeightOf(t)
    ensures WeightedSum(terms[i := t]) == WeightedSum(terms) - PullOf(terms[i]) + PullOf(t)
  {
    assert Weights(terms[i := t]) == Weights(terms)[i := WeightOf(t)];
    assert Pulls(terms[i := t]) == Pulls(terms)[i := PullOf(t)];
    Sums.SumUpdate(Weights(terms), i, WeightOf(t));
    Sums.SumUpdate(Pulls(terms), i, PullOf(t));
  }

  /** One more present term moves the mean toward its value and never past it. */
  lemma FillingMovesToward(terms: seq<Term>, i: nat, v: real)
    requires i < |terms| && 0.0 < PresentWeight(terms)
    requires 0.0 < terms[i].weight && terms[i].value == None
    ensures 0.0 < PresentWeight(terms[i := Term(terms[i].weight, Some(v))])
    ensures Mean(terms) <= v ==> Mean(terms) <= Mean(terms[i := Term(terms[i].weight, Some(v))]) <= v
    ensures v <= Mean(terms) ==> v <= Mean(terms[i := Term(terms[i].weight, Some(v))]) <= Mean(terms)
  {
    var t := Term(terms[i].weight, Some(v));
    UpdateSums(terms, i, t);
    DivMul(WeightedSum(terms), PresentWeight(terms));
    OneMoreBetween(PresentWeight(terms), WeightedSum(terms), t.weight, v, Mean(terms),
                   PresentWeight(terms[i := t]), WeightedSum(terms[i := t]));
  }

  lemma OneMoreBetween(weight: real, sum: real, w: real, v: real, m: real, weight': real, sum': real)
    requires 0.0 < weight && 0.0 < w && m * weight == sum
    requires weight' == weight + w && sum' == sum + w * v
    ensures m <= v ==> m <= sum' / weight' <= v
    ensures v <= m ==> v <= sum' / weight' <= m
  {
    var low, high := if m <= v then m else v, if m <= v then v else m;
    MulMonotone(weight, low, m);
    MulMonotone(weight, m, high);
    MulMonotone(w, low, v);
    MulMonotone(w, v, high);
    Sums.Distribute(weight, w, low);
    Sums.Distribute(weight, w, high);
    DivideBounds(sum', weight', low, high);
  }

  /** The same terms are present on both sides, and none of them is lower on the second. */
  predicate Raised(low: seq<Term>, high: seq<Term>) {
    && |low| == |high|
    && forall i :: 0 <= i < |low| ==>
         && low[i].weight == high[i].weight
         && low[i].value.Some? == high[i].value.Some?
         && (low[i].value.Some? ==> low[i].value.value <= high[i].value.value)
  }

  lemma RaisingRaisesMean(low: seq<Term>, high: seq<Term>)
    requires Positive(low) && Raised(low, high) && 0.0 < PresentWeight(low)
    ensures PresentWeight(high) == PresentWeight(low)
    ensures Mean(low) <= Mean(high)
  {
    assert Weights(low) == Weights(high);
    forall i | 0 <= i < |low| ensures Pulls(low)[i] <= Pulls(high)[i] {
      if low[i].value.Some? {
        MulMonotone(low[i].weight, low[i].value.value, high[i].value.value);
      }
    }
    Sums.SumMonotone(Pulls(low), Pulls(high));
    DivMonotone(WeightedSum(low), WeightedSum(high), PresentWeight(low));
  }

  function Scaled(terms: seq<Term>, factor: real): (r: seq<Term>)
    ensures |r| == |terms|
  {
    seq(|terms|, i requires 0 <= i < |terms| => Term(terms[i].weight * factor, terms[i].value))
  }

  lemma ScaleOne(t: Term, factor: real)
    ensures Sums.Times(WeightOf(t), factor, WeightOf(Term(t.weight * factor, t.value)))
    ensures Sums.Times(PullOf(t), factor, PullOf(Term(t.weight * factor, t.value)))
  {
    if t.value.Some? {
      assert (t.weight * factor) * t.value.value == (t.weight * t.value.value) * factor;
    }
  }

  lemma ScaledSums(terms: seq<Term>, factor: real)
    ensures Sums.Times(PresentWeight(terms), factor, PresentWeight(Scaled(terms, factor)))
    ensures Sums.Times(WeightedSum(terms), factor, WeightedSum(Scaled(terms, factor)))
  {
    var scaled := Scaled(terms, factor);
    forall i | 0 <= i < |terms|
      ensures Sums.Times(Weights(terms)[i], factor, Weights(scaled)[i])
      ensures Sums.Times(Pulls(terms)[i], factor, Pulls(scaled)[i])
    {
      ScaleOne(terms[i], factor);
    }
    Sums.SumTimes(Weights(terms), Weights(scaled), factor);
    Sums.SumTimes(Pulls(terms), Pulls(scaled), factor);
  }

  /** Rescaling every weight and the floor together changes neither the gate nor the mean. */
  lemma RescalingChangesNothing(terms: seq<Term>, factor: real, floor: real)
    requires 0.0 < factor && 0.0 < PresentWeight(terms)
    ensures (PresentWeight(Scaled(terms, factor)) < floor * factor) <==> (PresentWeight(terms) < floor)
    ensures PresentWeight(Scaled(terms, factor)) != 0.0 && Mean(Scaled(terms, factor)) == Mean(terms)
  {
    ScaledSums(terms, factor);
    RescaleGate(WeightedSum(terms), PresentWeight(terms),
                WeightedSum(Scaled(terms, factor)), PresentWeight(Scaled(terms, factor)), factor, floor);
  }

  lemma RescaleGate(sum: real, weight: real, sum': real, weight': real, factor: real, floor: real)
    requires 0.0 < factor && 0.0 < weight
    requires Sums.Times(weight, factor, weight') && Sums.Times(sum, factor, sum')
    ensures (weight' < floor * factor) <==> (weight < floor)
    ensures weight' > 0.0 && sum' / weight' == sum / weight
  {
    LessByFactor(weight, floor, factor);
    LessByFactor(floor, weight, factor);
    if weight < floor {
      MulStrict(factor, weight, floor);
    }
    MulStrict(factor, 0.0, weight);
    DivCancel(factor, sum, weight);
  }
}
