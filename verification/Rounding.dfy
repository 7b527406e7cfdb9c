/** Decimal rounding as the services use it: to the nearest grid point, ties to the even one. */
module Rounding {

  /** The nearest integer, with ties going to the even neighbour. */
  function Round(x: real): (r: int)
    ensures x - 0.5 <= r as real <= x + 0.5
    ensures r as real == x + 0.5 || r as real == x - 0.5 ==> r % 2 == 0
  {
    var below := x.Floor;
    var rest := x - below as real;
    if rest < 0.5 then below
    else if rest > 0.5 then below + 1
    else if below % 2 == 0 then below
    else below + 1
  }

  /** Rounds onto the grid of multiples of 1/scale. */
  function RoundTo(x: real, scale: int): real
    requires scale > 0
  {
    Per(Round(Times(x, scale)), scale)
  }

  function Times(x: real, scale: int): real {
    x * scale as real
  }

  /** The grid point numbered n. */
  function Per(n: int, scale: int): real
    requires scale > 0
  {
    n as real / scale as real
  }

  lemma RoundOfInteger(n: int)
    ensures Round(n as real) == n
  {
  }

  lemma RoundMonotone(x: real, y: real)
    requires x <= y
    ensures Round(x) <= Round(y)
  {
  }

  lemma MulMonotone(a: real, x: real, y: real)
    requires 0.0 <= a && x <= y
    ensures a * x <= a * y
  {
  }

  lemma MulStrict(a: real, x: real, y: real)
    requires 0.0 < a && x < y
    ensures a * x < a * y
  {
  }

  lemma LessByFactor(x: real, y: real, s: real)
    requires 0.0 < s
    ensures x * s <= y * s ==> x <= y
    ensures x * s < y * s ==> x < y
  {
  }

  lemma DivMonotone(x: real, y: real, a: real)
    requires 0.0 < a && x <= y
    ensures x / a <= y / a
  {
  }

  lemma DivCancel(e: real, a: real, b: real)
    requires e != 0.0 && b != 0.0
    ensures e * b != 0.0 && (e * a) / (e * b) == a / b
  {
    var q := a / b;
    assert q * b == a;
    assert q * (e * b) == e * (q * b);
  }

  lemma DivMul(a: real, b: real)
    requires b != 0.0
    ensures a / b * b == a
  {
  }

  lemma TimesPer(n: int, scale: int)
    requires scale > 0
    ensures Times(Per(n, scale), scale) == n as real
  {
    DivMul(n as real, scale as real);
  }

  /** A value already on the grid is not moved. */
  lemma RoundToOfGridPoint(n: int, scale: int)
    requires scale > 0
    ensures RoundTo(Per(n, scale), scale) == Per(n, scale)
  {
    TimesPer(n, scale);
    RoundOfInteger(n);
  }

  lemma RoundTimesMonotone(x: real, y: real, scale: int)
    requires x <= y && scale > 0
    ensures Round(Times(x, scale)) <= Round(Times(y, scale))
  {
    MulMonotone(scale as real, x, y);
    RoundMonotone(Times(x, scale), Times(y, scale));
  }

  lemma RoundToMonotone(x: real, y: real, scale: int)
    requires x <= y && scale > 0
    ensures RoundTo(x, scale) <= RoundTo(y, scale)
  {
    RoundTimesMonotone(x, y, scale);
    DivMonotone(Round(Times(x, scale)) as real, Round(Times(y, scale)) as real, scale as real);
  }

  /** v is a grid point at most half a step from x. */
  ghost predicate Near(v: real, x: real, scale: int)
    requires scale > 0
  {
    (exists n: int :: v == Per(n, scale)) && -0.5 <= (v - x) * scale as real <= 0.5
  }

  lemma RoundToNear(x: real, scale: int)
    requires scale > 0
    ensures Near(RoundTo(x, scale), x, scale)
  {
    var n := Round(Times(x, scale));
    DivMul(n as real, scale as real);
    LessDistributes(Per(n, scale), x, scale as real);
  }

  lemma LessDistributes(a: real, b: real, s: real)
    ensures (a - b) * s == a * s - b * s
  {
  }
}
