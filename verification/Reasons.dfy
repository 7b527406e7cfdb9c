/** Rejection reasons are free text; those that differ only in the numbers written into them are one reason. */
module Reasons {

  predicate IsDigit(ch: char) {
    '0' <= ch <= '9'
  }

  /** How long a run of digits s starts with. */
  function Digits(s: string): (n: nat)
    ensures n <= |s|
    ensures n > 0 <==> s != [] && IsDigit(s[0])
    ensures forall i :: 0 <= i < n ==> IsDigit(s[i])
    ensures n < |s| ==> !IsDigit(s[n])
  {
    if s == [] || !IsDigit(s[0]) then 0 else 1 + Digits(s[1..])
  }

  /** The length of the integer or decimal s starts with; a point counts only with a digit after it. */
  function NumberLength(s: string): (n: nat)
    ensures n <= |s|
    ensures n > 0 <==> s != [] && IsDigit(s[0])
  {
    var d := Digits(s);
    if d > 0 && d < |s| && s[d] == '.' && Digits(s[d + 1..]) > 0 then d + 1 + Digits(s[d + 1..]) else d
  }

  /** How much of a nonempty text one step of the substitution consumes, and what it writes for it. */
  function Step(s: string): (n: nat)
    requires s != []
    ensures 1 <= n <= |s|
  {
    if NumberLength(s) > 0 then NumberLength(s) else 1
  }

  function Written(s: string): (r: string)
    requires s != []
    ensures |r| == 1 && !IsDigit(r[0])
  {
    if IsDigit(s[0]) then "N" else [s[0]]
  }

  function CollapseReason(s: string): string
    decreases |s|
  {
    if s == [] then [] else Written(s) + CollapseReason(s[Step(s)..])
  }

  predicate NoDigits(s: string) {
    forall i :: 0 <= i < |s| ==> !IsDigit(s[i])
  }

  lemma {:induction false} CollapseLeavesNoDigits(s: string)
    ensures NoDigits(CollapseReason(s))
    decreases |s|
  {
    if s != [] {
      CollapseLeavesNoDigits(s[Step(s)..]);
    }
  }

  lemma {:induction false} CollapseKeepsText(s: string)
    requires NoDigits(s)
    ensures CollapseReason(s) == s
    decreases |s|
  {
    if s != [] {
      CollapseKeepsText(s[1..]);
      assert s == [s[0]] + s[1..];
    }
  }

  lemma {:induction false} CollapseIsIdempotent(s: string)
    ensures CollapseReason(CollapseReason(s)) == CollapseReason(s)
  {
    CollapseLeavesNoDigits(s);
    CollapseKeepsText(CollapseReason(s));
  }

  predicate IsNumber(s: string) {
    s != [] && NumberLength(s) == |s|
  }

  /** Neither end of this text can run into a number beside it. */
  predicate Separate(ch: char) {
    !IsDigit(ch) && ch != '.'
  }

  lemma {:induction false} DigitsStop(s: string, rest: string)
    requires Digits(s) < |s| || rest == [] || !IsDigit(rest[0])
    ensures Digits(s + rest) == Digits(s)
    decreases |s|
  {
    if s == [] {
      assert s + rest == rest;
    } else {
      assert (s + rest)[1..] == s[1..] + rest;
      if IsDigit(s[0]) {
        DigitsStop(s[1..], rest);
      }
    }
  }

  lemma NumberStops(s: string, rest: string)
    requires s != []
    requires rest == [] || Separate(rest[0])
    ensures NumberLength(s + rest) == NumberLength(s)
  {
    DigitsStop(s, rest);
    var d := Digits(s);
    if d < |s| {
      assert (s + rest)[d + 1..] == s[d + 1..] + rest;
      DigitsStop(s[d + 1..], rest);
    }
  }

  lemma Associate(a: string, b: string, c: string)
    ensures a + (b + c) == a + b + c
  {
  }

  /** Text that does not end inside a number collapses on its own, whatever follows. */
  lemma {:induction false} TextSplits(s: string, rest: string)
    requires s == [] || Separate(s[|s| - 1])
    ensures CollapseReason(s + rest) == CollapseReason(s) + CollapseReason(rest)
    decreases |s|
  {
    if s == [] {
      assert s + rest == rest;
    } else {
      NumberInside(s, rest);
      var n := Step(s);
      assert (s + rest)[n..] == s[n..] + rest;
      TextSplits(s[n..], rest);
      Associate(Written(s), CollapseReason(s[n..]), CollapseReason(rest));
    }
  }

  lemma DigitsLeave(s: string)
    requires s != [] && !IsDigit(s[|s| - 1])
    ensures Digits(s) < |s|
  {
    assert Digits(s) > 0 ==> IsDigit(s[Digits(s) - 1]);
  }

  lemma NumberInside(s: string, rest: string)
    requires s != [] && Separate(s[|s| - 1])
    ensures NumberLength(s + rest) == NumberLength(s)
  {
    var d := Digits(s);
    DigitsLeave(s);
    DigitsStop(s, rest);
    if d + 1 < |s| {
      assert (s + rest)[d + 1..] == s[d + 1..] + rest;
      DigitsLeave(s[d + 1..]);
      DigitsStop(s[d + 1..], rest);
    }
  }

  /** Two reasons that differ only in one number, set apart from its surroundings, are the same reason. */
  lemma NumbersDoNotMatter(before: string, n: string, m: string, after: string)
    requires IsNumber(n) && IsNumber(m)
    requires before == [] || Separate(before[|before| - 1])
    requires after == [] || Separate(after[0])
    ensures CollapseReason(before + n + after) == CollapseReason(before + m + after)
         == CollapseReason(before) + "N" + CollapseReason(after)
  {
    OneNumber(before, n, after);
    OneNumber(before, m, after);
  }

  lemma OneNumber(before: string, n: string, after: string)
    requires IsNumber(n)
    requires before == [] || Separate(before[|before| - 1])
    requires after == [] || Separate(after[0])
    ensures CollapseReason(before + n + after) == CollapseReason(before) + "N" + CollapseReason(after)
  {
    assert before + n + after == before + (n + after);
    TextSplits(before, n + after);
    NumberThen(n, after);
    Associate(CollapseReason(before), "N", CollapseReason(after));
  }

  lemma NumberThen(n: string, after: string)
    requires IsNumber(n) && (after == [] || Separate(after[0]))
    ensures CollapseReason(n + after) == "N" + CollapseReason(after)
  {
    NumberStops(n, after);
    assert (n + after)[|n|..] == after;
  }

  predicate AllDigits(s: string) {
    s != [] && forall i :: 0 <= i < |s| ==> IsDigit(s[i])
  }

  lemma {:induction false} DigitsOfAll(s: string)
    requires forall i :: 0 <= i < |s| ==> IsDigit(s[i])
    ensures Digits(s) == |s|
    decreases |s|
  {
    if s != [] {
      DigitsOfAll(s[1..]);
    }
  }

  /** Digits, a point here, and digits. */
  predicate PointAt(s: string, d: int) {
    0 < d < |s| - 1 && AllDigits(s[..d]) && s[d] == '.' && AllDigits(s[d + 1..])
  }

  /** The numbers are digits, and digits with a point and more digits after it; nothing else is one. */
  lemma NumbersAreDecimals(s: string)
    ensures IsNumber(s) <==> (AllDigits(s) || exists d :: PointAt(s, d))
  {
    if AllDigits(s) {
      DigitsOfAll(s);
    }
    if d :| PointAt(s, d) {
      DigitsOfAll(s[..d]);
      assert s == s[..d] + s[d..];
      DigitsStop(s[..d], s[d..]);
      DigitsOfAll(s[d + 1..]);
    }
    if IsNumber(s) {
      var d := Digits(s);
      if d == |s| {
        assert AllDigits(s);
      } else {
        assert s[d] == '.' && Digits(s[d + 1..]) == |s[d + 1..]|;
        assert PointAt(s, d);
      }
    }
  }

  /** Text without digits is left as it is. */
  lemma PlainTextStays(s: string)
    requires NoDigits(s)
    ensures CollapseReason(s) == s
  {
    CollapseKeepsText(s);
  }
}
