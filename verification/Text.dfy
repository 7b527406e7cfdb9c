/** Letters in upper case, as far as they are ASCII. */
module Text {

  function UpperChar(c: char): char {
    if 'a' <= c <= 'z' then c - 'a' + 'A' else c
  }

  function Upper(s: string): string {
    if s == [] then [] else [UpperChar(s[0])] + Upper(s[1..])
  }

  /** Character by character. */
  lemma {:induction false} UpperEach(s: string)
    ensures |Upper(s)| == |s| && forall i :: 0 <= i < |s| ==> Upper(s)[i] == UpperChar(s[i])
    decreases |s|
  {
    if s != [] {
      UpperEach(s[1..]);
    }
  }

  lemma UpperAppend(s: string, t: string)
    ensures Upper(s + t) == Upper(s) + Upper(t)
  {
    UpperEach(s);
    UpperEach(t);
    UpperEach(s + t);
  }
}
