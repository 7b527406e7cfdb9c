/** Pearson's correlation over lists of any length; the square root is a parameter. */
module Correlation {
  import opened Rounding
  import opened Wrappers
  import Sums

  type Root = real -> real

  ghost predicate IsRoot(root: Root) {
    forall v: real :: v > 0.0 ==> Squares(root(v), v)
  }

  ghost predicate Squares(r: real, v: real) {
    r > 0.0 && r * r == v
  }

  function Average(xs: seq<real>): real
    requires xs != []
  {
    Sums.Sum(xs) / |xs| as real
  }

  /** Each entry less the centre. */
  function Less(xs: seq<real>, centre: real): (r: seq<real>)
    ensures |r| == |xs|
  {
    seq(|xs|, i requires 0 <= i < |xs| => xs[i] - centre)
  }

  function Deviations(xs: seq<real>): (r: seq<real>)
    requires xs != []
    ensures |r| == |xs|
  {
    Less(xs, Average(xs))
  }

  function Dot(xs: seq<real>, ys: seq<real>): real
    requires |xs| == |ys|
  {
    if xs == [] then 0.0 else xs[0] * ys[0] + Dot(xs[1..], ys[1..])
  }

  /** Sum of squared deviations. */
  function Spread(xs: seq<real>): real
    requires xs != []
  {
    Dot(Deviations(xs), Deviations(xs))
  }

  function Shared(xs: seq<real>, ys: seq<real>): real
    requires xs != [] && |xs| == |ys|
  {
    Dot(Deviations(xs), Deviations(ys))
  }

  function Pearson(xs: seq<real>, ys: seq<real>, root: Root): Option<real>
    requires IsRoot(root)
  {
    if |xs| < 2 || |xs| != |ys| then None
    else if Spread(xs) == 0.0 || Spread(ys) == 0.0 then None
    else
      RootIsPositive(xs, ys, root);
      Some(Shared(xs, ys) / root(Spread(xs) * Spread(ys)))
  }

  lemma SameSigns(a: real, b: real, s: real)
    requires (a > 0.0 && b > 0.0) || (a < 0.0 && b < 0.0)
    requires s == a * b
    ensures s > 0.0
  {
  }

  lemma SquareNonNegative(x: real)
    ensures x * x >= 0.0
  {
  }

  ghost predicate AllZero(xs: seq<real>) {
    forall i :: 0 <= i < |xs| ==> xs[i] == 0.0
  }

  lemma {:induction false} DotOfItself(xs: seq<real>)
    ensures Dot(xs, xs) >= 0.0
    ensures Dot(xs, xs) == 0.0 <==> AllZero(xs)
    decreases |xs|
  {
    if xs != [] {
      DotOfItself(xs[1..]);
      AllZeroStep(xs);
      ZeroSum(xs[0], xs[0] * xs[0], Dot(xs[1..], xs[1..]));
    }
  }

  lemma ZeroSum(x: real, square: real, rest: real)
    requires rest >= 0.0 && square == x * x
    ensures square >= 0.0
    ensures square + rest == 0.0 <==> x == 0.0 && rest == 0.0
  {
    if x != 0.0 {
      SameSigns(x, x, square);
    }
  }

  lemma AllZeroStep(xs: seq<real>)
    requires xs != []
    ensures AllZero(xs) <==> xs[0] == 0.0 && AllZero(xs[1..])
  {
    if xs[0] == 0.0 && AllZero(xs[1..]) {
      forall i | 0 < i < |xs| ensures xs[i] == 0.0 {
        assert xs[i] == xs[1..][i - 1];
      }
    }
  }

  lemma {:induction false} DotWithZero(xs: seq<real>, ys: seq<real>)
    requires |xs| == |ys| && AllZero(xs)
    ensures Dot(xs, ys) == 0.0
    decreases |xs|
  {
    if xs != [] {
      DotWithZero(xs[1..], ys[1..]);
    }
  }

  lemma RootIsPositive(xs: seq<real>, ys: seq<real>, root: Root)
    requires IsRoot(root) && xs != [] && ys != [] && Spread(xs) != 0.0 && Spread(ys) != 0.0
    ensures Spread(xs) > 0.0 && Spread(ys) > 0.0
    ensures Squares(root(Spread(xs) * Spread(ys)), Spread(xs) * Spread(ys))
  {
    DotOfItself(Deviations(xs));
    DotOfItself(Deviations(ys));
    MulStrict(Spread(xs), 0.0, Spread(ys));
  }

  /** yy - 2 t xy + t t xx, the sum of the squares of ys - t xs. */
  ghost predicate Quadratic(t: real, xx: real, xy: real, yy: real, q: real) {
    q == yy - 2.0 * (t * xy) + t * (t * xx)
  }

  lemma OneSquare(t: real, x: real, y: real)
    ensures Quadratic(t, x * x, x * y, y * y, (y - t * x) * (y - t * x))
  {
    assert (t * x) * (t * x) == t * (t * (x * x));
    assert (t * x) * y == t * (x * y);
  }

  lemma AddQuadratics(t: real, xx: real, xy: real, yy: real, q: real, xx': real, xy': real, yy': real, q': real)
    requires Quadratic(t, xx, xy, yy, q) && Quadratic(t, xx', xy', yy', q')
    ensures Quadratic(t, xx + xx', xy + xy', yy + yy', q + q')
  {
    assert t * (xy + xy') == t * xy + t * xy';
    assert t * (xx + xx') == t * xx + t * xx';
    assert t * (t * xx + t * xx') == t * (t * xx) + t * (t * xx');
  }

  lemma MoreSquares(t: real, x: real, y: real, xx: real, xy: real, yy: real, q: real) returns (q': real)
    requires q >= 0.0 && Quadratic(t, xx, xy, yy, q)
    ensures q' >= 0.0 && Quadratic(t, x * x + xx, x * y + xy, y * y + yy, q')
  {
    OneSquare(t, x, y);
    SquareNonNegative(y - t * x);
    q' := (y - t * x) * (y - t * x) + q;
    AddQuadratics(t, x * x, x * y, y * y, (y - t * x) * (y - t * x), xx, xy, yy, q);
  }

  lemma SameQuadratic(t: real, xx: real, xy: real, yy: real, q: real, xx': real, xy': real, yy': real)
    requires Quadratic(t, xx, xy, yy, q) && xx' == xx && xy' == xy && yy' == yy
    ensures Quadratic(t, xx', xy', yy', q)
  {
  }

  lemma MoreSquaresAs(t: real, x: real, y: real, xx: real, xy: real, yy: real, q: real, xx': real, xy': real, yy': real)
    returns (q': real)
    requires q >= 0.0 && Quadratic(t, xx, xy, yy, q)
    requires xx' == x * x + xx && xy' == x * y + xy && yy' == y * y + yy
    ensures q' >= 0.0 && Quadratic(t, xx', xy', yy', q')
  {
    q' := MoreSquares(t, x, y, xx, xy, yy, q);
    SameQuadratic(t, x * x + xx, x * y + xy, y * y + yy, q', xx', xy', yy');
  }

  /** Some nonnegative number is the quadratic's value: the sum of squares itself. */
  lemma {:induction false} SumOfSquares(t: real, xs: seq<real>, ys: seq<real>) returns (q: real)
    requires |xs| == |ys|
    ensures q >= 0.0 && Quadratic(t, Dot(xs, xs), Dot(xs, ys), Dot(ys, ys), q)
    decreases |xs|
  {
    q := 0.0;
    if xs != [] {
      q := SumOfSquares(t, xs[1..], ys[1..]);
      var x, y, xx, xy, yy := xs[0], ys[0], Dot(xs[1..], xs[1..]), Dot(xs[1..], ys[1..]), Dot(ys[1..], ys[1..]);
      q := MoreSquaresAs(t, x, y, xx, xy, yy, q, Dot(xs, xs), Dot(xs, ys), Dot(ys, ys));
    }
  }

  lemma Discriminant(t: real, xx: real, xy: real, yy: real, q: real)
    requires xx > 0.0 && t * xx == xy && q >= 0.0 && Quadratic(t, xx, xy, yy, q)
    ensures xy * xy <= xx * yy
  {
    assert t * (t * xx) == t * xy;
    assert t * xy <= yy;
    MulMonotone(xx, t * xy, yy);
    assert xx * (t * xy) == (t * xx) * xy;
  }

  /** Cauchy-Schwarz for lists of any length. */
  lemma CauchySchwarz(xs: seq<real>, ys: seq<real>)
    requires |xs| == |ys|
    ensures Dot(xs, ys) * Dot(xs, ys) <= Dot(xs, xs) * Dot(ys, ys)
  {
    DotOfItself(xs);
    if Dot(xs, xs) == 0.0 {
      DotWithZero(xs, ys);
    } else {
      var t := Dot(xs, ys) / Dot(xs, xs);
      DivMul(Dot(xs, ys), Dot(xs, xs));
      var q := SumOfSquares(t, xs, ys);
      Discriminant(t, Dot(xs, xs), Dot(xs, ys), Dot(ys, ys), q);
    }
  }

  lemma RootBounds(r: real, v: real, s: real)
    requires Squares(r, v) && s * s <= v
    ensures -1.0 <= s / r <= 1.0
  {
    NotBeyond(r, s, v);
    NotBeyond(r, -s, v);
    DivMonotone(s, r, r);
    DivMonotone(-r, s, r);
    DivMul(r, r);
  }

  lemma NotBeyond(r: real, s: real, v: real)
    requires Squares(r, v) && s * s <= v
    ensures s <= r
  {
    if s > r {
      MulStrict(s, r, s);
      MulMonotone(r, r, s);
    }
  }

  /** A correlation lies in [-1, 1]. */
  lemma PearsonInRange(xs: seq<real>, ys: seq<real>, root: Root)
    requires IsRoot(root)
    ensures Pearson(xs, ys, root).Some? ==> -1.0 <= Pearson(xs, ys, root).value <= 1.0
  {
    if Pearson(xs, ys, root).Some? {
      RootIsPositive(xs, ys, root);
      CauchySchwarz(Deviations(xs), Deviations(ys));
      RootBounds(root(Spread(xs) * Spread(ys)), Spread(xs) * Spread(ys), Shared(xs, ys));
    }
  }

  ghost predicate Constant(xs: seq<real>) {
    forall i, j :: 0 <= i < |xs| && 0 <= j < |xs| ==> xs[i] == xs[j]
  }

  lemma {:induction false} SumOfConstant(xs: seq<real>, c: real)
    requires forall i :: 0 <= i < |xs| ==> xs[i] == c
    ensures Sums.Sum(xs) == |xs| as real * c
    decreases |xs|
  {
    if xs != [] {
      SumOfConstant(xs[1..], c);
      Sums.Distribute(1.0, |xs[1..]| as real, c);
    }
  }

  lemma AverageOfConstant(xs: seq<real>)
    requires xs != [] && Constant(xs)
    ensures Average(xs) == xs[0]
  {
    SumOfConstant(xs, xs[0]);
    DivCancel(|xs| as real, xs[0], 1.0);
  }

  lemma NoSpreadIsConstant(xs: seq<real>)
    requires xs != []
    ensures Spread(xs) == 0.0 <==> Constant(xs)
  {
    var dx := Deviations(xs);
    DotOfItself(dx);
    if Constant(xs) {
      AverageOfConstant(xs);
      assert AllZero(dx);
    }
    if AllZero(dx) {
      forall i | 0 <= i < |xs| ensures xs[i] == Average(xs) {
        assert dx[i] == 0.0;
      }
    }
  }

  /** There is no correlation exactly for fewer than two points, unequal lengths or a constant list. */
  lemma PearsonNoneIff(xs: seq<real>, ys: seq<real>, root: Root)
    requires IsRoot(root)
    ensures Pearson(xs, ys, root).None? <==> |xs| < 2 || |xs| != |ys| || Constant(xs) || Constant(ys)
  {
    if |xs| >= 2 && |xs| == |ys| {
      NoSpreadIsConstant(xs);
      NoSpreadIsConstant(ys);
    }
  }

  lemma {:induction false} DotCommutes(xs: seq<real>, ys: seq<real>)
    requires |xs| == |ys|
    ensures Dot(xs, ys) == Dot(ys, xs)
    decreases |xs|
  {
    if xs != [] {
      DotCommutes(xs[1..], ys[1..]);
    }
  }

  /** Which list comes first does not matter. */
  lemma PearsonSymmetric(xs: seq<real>, ys: seq<real>, root: Root)
    requires IsRoot(root)
    ensures Pearson(xs, ys, root) == Pearson(ys, xs, root)
  {
    if |xs| >= 2 && |xs| == |ys| {
      DotCommutes(Deviations(xs), Deviations(ys));
      assert Spread(xs) * Spread(ys) == Spread(ys) * Spread(xs);
    }
  }

  /** ys is xs stretched by the factor and then shifted. */
  ghost predicate Affine(xs: seq<real>, factor: real, shift: real, ys: seq<real>) {
    |ys| == |xs| && forall i :: 0 <= i < |xs| ==> Moved(xs[i], factor, shift, ys[i])
  }

  ghost predicate Moved(x: real, factor: real, shift: real, y: real) {
    y == factor * x + shift
  }

  lemma AddMoved(x: real, y: real, sum: real, sum': real, n: real, factor: real, shift: real)
    requires Moved(x, factor, shift, y) && sum' == factor * sum + n * shift
    ensures y + sum' == factor * (x + sum) + (1.0 + n) * shift
  {
  }

  lemma {:induction false} SumOfAffine(xs: seq<real>, factor: real, shift: real, ys: seq<real>)
    requires Affine(xs, factor, shift, ys)
    ensures Sums.Sum(ys) == factor * Sums.Sum(xs) + |xs| as real * shift
    decreases |xs|
  {
    if xs != [] {
      SumOfAffine(xs[1..], factor, shift, ys[1..]);
      AddMoved(xs[0], ys[0], Sums.Sum(xs[1..]), Sums.Sum(ys[1..]), |xs[1..]| as real, factor, shift);
    }
  }

  lemma AffineRatio(sum: real, n: real, factor: real, shift: real, sum': real)
    requires n > 0.0 && sum' == factor * sum + n * shift
    ensures sum' / n == factor * (sum / n) + shift
  {
    DivMul(sum, n);
    var m := factor * (sum / n) + shift;
    assert factor * (sum / n) * n == factor * (sum / n * n);
    assert m * n == sum';
  }

  lemma DeviationMoved(x: real, mean: real, factor: real, shift: real, y: real, mean': real)
    requires Moved(x, factor, shift, y) && mean' == factor * mean + shift
    ensures Sums.Times(x - mean, factor, y - mean')
  {
  }

  /** Entry by entry, ys is xs times the factor. */
  ghost predicate Stretched(xs: seq<real>, factor: real, ys: seq<real>) {
    |ys| == |xs| && forall i :: 0 <= i < |xs| ==> Sums.Times(xs[i], factor, ys[i])
  }

  lemma DeviationsStretch(xs: seq<real>, factor: real, shift: real, ys: seq<real>)
    requires xs != [] && Affine(xs, factor, shift, ys)
    ensures Stretched(Deviations(xs), factor, Deviations(ys))
  {
    SumOfAffine(xs, factor, shift, ys);
    AffineRatio(Sums.Sum(xs), |xs| as real, factor, shift, Sums.Sum(ys));
    forall i | 0 <= i < |xs| ensures Sums.Times(Deviations(xs)[i], factor, Deviations(ys)[i]) {
      DeviationMoved(xs[i], Average(xs), factor, shift, ys[i], Average(ys));
    }
  }

  lemma ProductStretches(x: real, factor: real, y: real, z: real)
    requires Sums.Times(x, factor, y)
    ensures Sums.Times(x * z, factor, y * z)
  {
    assert (x * factor) * z == (x * z) * factor;
  }

  lemma {:induction false} DotStretches(xs: seq<real>, factor: real, ys: seq<real>, zs: seq<real>)
    requires |zs| == |xs| && Stretched(xs, factor, ys)
    ensures Sums.Times(Dot(xs, zs), factor, Dot(ys, zs))
    decreases |xs|
  {
    if xs != [] {
      DotStretches(xs[1..], factor, ys[1..], zs[1..]);
      ProductStretches(xs[0], factor, ys[0], zs[0]);
      Sums.AddTimes(xs[0] * zs[0], ys[0] * zs[0], Dot(xs[1..], zs[1..]), Dot(ys[1..], zs[1..]), factor);
    }
  }

  lemma SpreadStretches(xs: seq<real>, factor: real, ys: seq<real>)
    requires Stretched(xs, factor, ys)
    ensures Sums.Times(Dot(xs, xs), factor * factor, Dot(ys, ys))
  {
    DotStretches(xs, factor, ys, ys);
    DotStretches(xs, factor, ys, xs);
    DotCommutes(xs, ys);
    Twice(Dot(xs, xs), factor, Dot(ys, xs), Dot(ys, ys));
  }

  lemma Twice(a: real, factor: real, b: real, c: real)
    requires Sums.Times(a, factor, b) && Sums.Times(b, factor, c)
    ensures Sums.Times(a, factor * factor, c)
  {
    assert (a * factor) * factor == a * (factor * factor);
  }

  lemma RootUnique(a: real, b: real, v: real)
    requires Squares(a, v) && Squares(b, v)
    ensures a == b
  {
    NotBeyond(a, b, v);
    NotBeyond(b, a, v);
  }

  lemma RootStretches(r: real, v: real, factor: real, v': real)
    requires Squares(r, v) && factor > 0.0 && v' == v * (factor * factor)
    ensures Squares(factor * r, v')
  {
    SameSigns(factor, r, factor * r);
    assert (factor * r) * (factor * r) == (factor * factor) * (r * r);
  }

  lemma ProductWith(a: real, k: real, b: real, c: real)
    requires Sums.Times(a, k, b)
    ensures b * c == a * c * k
  {
  }

  /** Stretching by a positive factor and shifting one of the lists changes nothing. */
  lemma PearsonIgnoresUnits(xs: seq<real>, factor: real, shift: real, ys: seq<real>, zs: seq<real>, root: Root)
    requires IsRoot(root) && factor > 0.0 && Affine(xs, factor, shift, ys)
    ensures Pearson(ys, zs, root) == Pearson(xs, zs, root)
    ensures Pearson(zs, ys, root) == Pearson(zs, xs, root)
  {
    PearsonSymmetric(ys, zs, root);
    PearsonSymmetric(xs, zs, root);
    if |xs| >= 2 && |xs| == |zs| {
      DeviationsStretch(xs, factor, shift, ys);
      SpreadStretches(Deviations(xs), factor, Deviations(ys));
      DotStretches(Deviations(xs), factor, Deviations(ys), Deviations(zs));
      SameSigns(factor, factor, factor * factor);
      ZeroStretches(Spread(xs), factor * factor, Spread(ys));
      if Spread(xs) != 0.0 && Spread(zs) != 0.0 {
        RootIsPositive(xs, zs, root);
        RootIsPositive(ys, zs, root);
        QuotientStretches(Shared(xs, zs), Spread(xs), factor, Shared(ys, zs), Spread(ys), Spread(zs),
                          root(Spread(xs) * Spread(zs)), root(Spread(ys) * Spread(zs)));
      }
    }
  }

  lemma ZeroStretches(a: real, k: real, b: real)
    requires k > 0.0 && Sums.Times(a, k, b)
    ensures a == 0.0 <==> b == 0.0
  {
    if a > 0.0 {
      SameSigns(a, k, b);
    } else if a < 0.0 {
      SameSigns(-a, k, -b);
    }
  }

  lemma QuotientStretches(s: real, v: real, factor: real, s': real, v': real, w: real, r: real, r': real)
    requires factor > 0.0 && Sums.Times(s, factor, s') && Sums.Times(v, factor * factor, v')
    requires Squares(r, v * w) && Squares(r', v' * w)
    ensures s' / r' == s / r
  {
    ProductWith(v, factor * factor, v', w);
    RootStretches(r, v * w, factor, v' * w);
    RootUnique(factor * r, r', v' * w);
    DivCancel(factor, s, r);
  }

  /** A list correlates perfectly with itself in any other unit. */
  lemma PerfectCorrelation(xs: seq<real>, factor: real, shift: real, ys: seq<real>, root: Root)
    requires IsRoot(root) && factor > 0.0 && Affine(xs, factor, shift, ys)
    requires |xs| >= 2 && !Constant(xs)
    ensures Pearson(xs, ys, root) == Some(1.0)
  {
    PearsonIgnoresUnits(xs, factor, shift, ys, xs, root);
    NoSpreadIsConstant(xs);
    RootIsPositive(xs, xs, root);
    RootUnique(Spread(xs), root(Spread(xs) * Spread(xs)), Spread(xs) * Spread(xs));
    DivCancel(Spread(xs), 1.0, 1.0);
  }

  // ---------- The coefficient in full ----------

  ghost predicate Expanded(dot: real, xy: real, c: real, d: real, sx: real, sy: real, n: real) {
    dot == xy - d * sx - c * sy + n * (c * d)
  }

  lemma ExpandOne(x: real, y: real, c: real, d: real, dot: real, xy: real, sx: real, sy: real, n: real,
                  dot': real, xy': real, sx': real, sy': real, n': real)
    requires Expanded(dot, xy, c, d, sx, sy, n)
    requires dot' == (x - c) * (y - d) + dot && xy' == x * y + xy && sx' == x + sx && sy' == y + sy && n' == 1.0 + n
    ensures Expanded(dot', xy', c, d, sx', sy', n')
  {
    assert (x - c) * (y - d) == x * y - d * x - c * y + c * d;
    assert d * sx' == d * x + d * sx;
    assert c * sy' == c * y + c * sy;
    assert n' * (c * d) == c * d + n * (c * d);
  }

  lemma DotCons(xs: seq<real>, ys: seq<real>)
    requires |xs| == |ys| && xs != []
    ensures Dot(xs, ys) == xs[0] * ys[0] + Dot(xs[1..], ys[1..])
  {
  }

  lemma LessCons(xs: seq<real>, c: real)
    requires xs != []
    ensures Less(xs, c)[0] == xs[0] - c && Less(xs, c)[1..] == Less(xs[1..], c)
  {
  }

  lemma DotOfLess(xs: seq<real>, ys: seq<real>, c: real, d: real)
    requires |xs| == |ys| && xs != []
    ensures Dot(Less(xs, c), Less(ys, d)) == (xs[0] - c) * (ys[0] - d) + Dot(Less(xs[1..], c), Less(ys[1..], d))
  {
    LessCons(xs, c);
    LessCons(ys, d);
    DotCons(Less(xs, c), Less(ys, d));
  }

  lemma {:induction false} DotOfDeviations(xs: seq<real>, ys: seq<real>, c: real, d: real)
    requires |xs| == |ys|
    ensures Expanded(Dot(Less(xs, c), Less(ys, d)), Dot(xs, ys), c, d, Sums.Sum(xs), Sums.Sum(ys), |xs| as real)
    decreases |xs|
  {
    if xs == [] {
      NothingExpanded(c, d);
    } else {
      var rx, ry := xs[1..], ys[1..];
      DotOfDeviations(rx, ry, c, d);
      DotOfLess(xs, ys, c, d);
      DotCons(xs, ys);
      ExpandOne(xs[0], ys[0], c, d, Dot(Less(rx, c), Less(ry, d)), Dot(rx, ry), Sums.Sum(rx), Sums.Sum(ry), |rx| as real,
                Dot(Less(xs, c), Less(ys, d)), Dot(xs, ys), Sums.Sum(xs), Sums.Sum(ys), |xs| as real);
    }
  }

  lemma NothingExpanded(c: real, d: real)
    ensures Expanded(0.0, 0.0, c, d, 0.0, 0.0, 0.0)
  {
  }

  lemma AverageTimes(xs: seq<real>, n: real)
    requires xs != [] && n == |xs| as real
    ensures Sums.Times(Average(xs), n, Sums.Sum(xs))
  {
    DivMul(Sums.Sum(xs), n);
  }

  /** n times the centred sum is n times the raw one, less the product of the two sums. */
  ghost predicate Centred(n: real, shared: real, xy: real, sx: real, sy: real) {
    n * shared == n * xy - sx * sy
  }

  lemma CentredProducts(n: real, c: real, d: real, sx: real, sy: real, xy: real, shared: real)
    requires n > 0.0 && Sums.Times(c, n, sx) && Sums.Times(d, n, sy) && Expanded(shared, xy, c, d, sx, sy, n)
    ensures Centred(n, shared, xy, sx, sy)
  {
    assert n * (d * sx) == sy * sx;
    assert n * (c * sy) == sx * sy;
    assert n * (n * (c * d)) == sx * sy;
  }

  /** The sum of the products of deviations is that of the products, less the product of the sums over the count. */
  lemma SharedInFull(xs: seq<real>, ys: seq<real>)
    requires xs != [] && |xs| == |ys|
    ensures Centred(|xs| as real, Shared(xs, ys), Dot(xs, ys), Sums.Sum(xs), Sums.Sum(ys))
  {
    var n, c, d := |xs| as real, Average(xs), Average(ys);
    AverageTimes(xs, n);
    AverageTimes(ys, n);
    DotOfDeviations(xs, ys, c, d);
    CentredProducts(n, c, d, Sums.Sum(xs), Sums.Sum(ys), Dot(xs, ys), Shared(xs, ys));
  }

  /** The coefficient times the root of the product of the two spreads is the shared sum, so it has its sign. */
  lemma PearsonInFull(xs: seq<real>, ys: seq<real>, root: Root)
    requires IsRoot(root)
    ensures Pearson(xs, ys, root).Some? ==>
              && |xs| == |ys| >= 2
              && Pearson(xs, ys, root).value * root(Shared(xs, xs) * Shared(ys, ys)) == Shared(xs, ys)
  {
    if Pearson(xs, ys, root).Some? {
      RootIsPositive(xs, ys, root);
      DivMul(Shared(xs, ys), root(Spread(xs) * Spread(ys)));
    }
  }

  const MIN_N: int := 20

  /** A journal row: the triage factors that are numbers, and the outcome if it is one. */
  datatype Row = Row(factors: map<string, real>, outcome: Option<real>)

  datatype Attribution = Attribution(key: string, n: nat, correlation: Option<real>)

  predicate Usable(row: Row, key: string) {
    key in row.factors && row.outcome.Some?
  }

  function FactorsOf(rows: seq<Row>, key: string): seq<real> {
    if rows == [] then []
    else if Usable(rows[0], key) then [rows[0].factors[key]] + FactorsOf(rows[1..], key)
    else FactorsOf(rows[1..], key)
  }

  function OutcomesOf(rows: seq<Row>, key: string): (r: seq<real>)
    ensures |r| == |FactorsOf(rows, key)|
  {
    if rows == [] then []
    else if Usable(rows[0], key) then [rows[0].outcome.value] + OutcomesOf(rows[1..], key)
    else OutcomesOf(rows[1..], key)
  }

  /** A further row adds its factor and its outcome when it has both, and nothing otherwise. */
  lemma {:induction false} UsableRowsPair(rows: seq<Row>, row: Row, key: string)
    ensures var usable := key in row.factors && row.outcome.Some?;
            && FactorsOf(rows + [row], key) == FactorsOf(rows, key) + (if usable then [row.factors[key]] else [])
            && OutcomesOf(rows + [row], key) == OutcomesOf(rows, key) + (if usable then [row.outcome.value] else [])
    decreases |rows|
  {
    if rows == [] {
      assert [row][1..] == [] && rows + [row] == [row];
    } else {
      assert (rows + [row])[1..] == rows[1..] + [row];
      UsableRowsPair(rows[1..], row, key);
    }
  }

  /** Below the minimum sample there is no number, and above it only what the correlation allows. */
  ghost predicate Attributed(rows: seq<Row>, key: string, root: Root, a: Attribution)
    requires IsRoot(root)
  {
    var xs, ys := FactorsOf(rows, key), OutcomesOf(rows, key);
    var r := Pearson(xs, ys, root);
    && a.key == key && a.n == |xs|
    && (a.correlation.None? <==> a.n < MIN_N || Constant(xs) || Constant(ys))
    && (a.correlation.Some? ==>
          r.Some? && a.correlation.value == RoundTo(r.value, 10_000) && -1.0 <= a.correlation.value <= 1.0)
  }

  method Attribute(rows: seq<Row>, keys: seq<string>, root: Root) returns (out: seq<Attribution>)
    requires IsRoot(root)
    ensures |out| == |keys|
    ensures forall i :: 0 <= i < |keys| ==> Attributed(rows, keys[i], root, out[i])
  {
    out := [];
    for i := 0 to |keys|
      invariant |out| == i
      invariant forall k :: 0 <= k < i ==> Attributed(rows, keys[k], root, out[k])
    {
      var xs, ys := FactorsOf(rows, keys[i]), OutcomesOf(rows, keys[i]);
      var r := if |xs| >= MIN_N then Pearson(xs, ys, root) else None;
      PearsonNoneIff(xs, ys, root);
      RoundedInRange(xs, ys, root);
      out := out + [Attribution(keys[i], |xs|, if r.None? then None else Some(RoundTo(r.value, 10_000)))];
    }
  }

  lemma RoundedInRange(xs: seq<real>, ys: seq<real>, root: Root)
    requires IsRoot(root)
    ensures var r := Pearson(xs, ys, root);
      r.Some? ==> -1.0 <= RoundTo(r.value, 10_000) <= 1.0
  {
    PearsonInRange(xs, ys, root);
    if Pearson(xs, ys, root).Some? {
      RoundToMonotone(-1.0, Pearson(xs, ys, root).value, 10_000);
      RoundToMonotone(Pearson(xs, ys, root).value, 1.0, 10_000);
      RoundOfInteger(-10_000);
      RoundOfInteger(10_000);
    }
  }
}
