/** Finite sums of reals: linear, monotone, and changed by one entry at a time. */
module Sums {

  function Sum(xs: seq<real>): real {
    if xs == [] then 0.0 else xs[0] + Sum(xs[1..])
  }

  predicate Times(x: real, factor: real, y: real) {
    y == x * factor
  }

  predicate Between(w: real, low: real, y: real, high: real) {
    w * low <= y <= w * high
  }

  lemma {:induction false} SumUpdate(xs: seq<real>, i: nat, x: real)
    requires i < |xs|
    ensures Sum(xs[i := x]) == Sum(xs) - xs[i] + x
    decreases i
  {
    if i == 0 {
      assert xs[0 := x][1..] == xs[1..];
    } else {
      assert xs[i := x][1..] == xs[1..][i - 1 := x];
      SumUpdate(xs[1..], i - 1, x);
    }
  }

  lemma {:induction false} SumMonotone(xs: seq<real>, ys: seq<real>)
    requires |xs| == |ys| && forall i :: 0 <= i < |xs| ==> xs[i] <= ys[i]
    ensures Sum(xs) <= Sum(ys)
    decreases |xs|
  {
    if xs != [] {
      SumMonotone(xs[1..], ys[1..]);
    }
  }

  lemma {:induction false} SumNonNegative(xs: seq<real>)
    requires forall i :: 0 <= i < |xs| ==> 0.0 <= xs[i]
    ensures 0.0 <= Sum(xs)
    ensures forall i :: 0 <= i < |xs| ==> xs[i] <= Sum(xs)
    decreases |xs|
  {
    if xs != [] {
      SumNonNegative(xs[1..]);
      forall i | 0 < i < |xs| ensures xs[i] <= Sum(xs) {
        assert xs[i] == xs[1..][i - 1];
      }
    }
  }

  lemma {:induction false} SumOfZeros(xs: seq<real>)
    requires forall i :: 0 <= i < |xs| ==> xs[i] == 0.0
    ensures Sum(xs) == 0.0
    decreases |xs|
  {
    if xs != [] {
      SumOfZeros(xs[1..]);
    }
  }

  lemma Distribute(a: real, b: real, factor: real)
    ensures a * factor + b * factor == (a + b) * factor
  {
  }

  lemma AddTimes(x: real, y: real, xs: real, ys: real, factor: real)
    requires Times(x, factor, y) && Times(xs, factor, ys)
    ensures Times(x + xs, factor, y + ys)
  {
    Distribute(x, xs, factor);
  }

  lemma AddBetween(w: real, y: real, ws: real, ys: real, low: real, high: real)
    requires Between(w, low, y, high) && Between(ws, low, ys, high)
    ensures Between(w + ws, low, y + ys, high)
  {
    Distribute(w, ws, low);
    Distribute(w, ws, high);
  }

  lemma {:induction false} SumTimes(xs: seq<real>, ys: seq<real>, factor: real)
    requires |xs| == |ys| && forall i :: 0 <= i < |xs| ==> Times(xs[i], factor, ys[i])
    ensures Times(Sum(xs), factor, Sum(ys))
    decreases |xs|
  {
    if xs != [] {
      SumTimes(xs[1..], ys[1..], factor);
      AddTimes(xs[0], ys[0], Sum(xs[1..]), Sum(ys[1..]), factor);
    }
  }

  lemma {:induction false} SumBetween(ws: seq<real>, ys: seq<real>, low: real, high: real)
    requires |ws| == |ys| && forall i :: 0 <= i < |ws| ==> Between(ws[i], low, ys[i], high)
    ensures Between(Sum(ws), low, Sum(ys), high)
    decreases |ws|
  {
    if ws != [] {
      SumBetween(ws[1..], ys[1..], low, high);
      AddBetween(ws[0], ys[0], Sum(ws[1..]), Sum(ys[1..]), low, high);
    }
  }

  lemma SumOfEight(a: real, b: real, c: real, d: real, e: real, f: real, g: real, h: real)
    ensures Sum([a, b, c, d, e, f, g, h]) == a + b + c + d + e + f + g + h
  {
    assert [h][1..] == [];
    assert Sum([h]) == h;
    assert [g, h][1..] == [h];
    assert Sum([g, h]) == g + h;
    assert [f, g, h][1..] == [g, h];
    assert Sum([f, g, h]) == f + g + h;
    assert [e, f, g, h][1..] == [f, g, h];
    assert Sum([e, f, g, h]) == e + f + g + h;
    assert [d, e, f, g, h][1..] == [e, f, g, h];
    assert Sum([d, e, f, g, h]) == d + e + f + g + h;
    assert [c, d, e, f, g, h][1..] == [d, e, f, g, h];
    assert Sum([c, d, e, f, g, h]) == c + d + e + f + g + h;
    assert [b, c, d, e, f, g, h][1..] == [c, d, e, f, g, h];
    assert Sum([b, c, d, e, f, g, h]) == b + c + d + e + f + g + h;
    assert [a, b, c, d, e, f, g, h][1..] == [b, c, d, e, f, g, h];
  }
}
