/** The query parameters as they arrive: a symbol in any case, event types as one comma-separated string. */
module QueryParams {

  predicate IsSpace(c: char) {
    c == ' ' || 9 <= c as int <= 13 || 28 <= c as int <= 31
  }

  /** Blank are the space, the tab and the line controls after it, and the four separators before the space. */
  lemma BlankCharacters(c: char)
    ensures IsSpace(c) <==> c as int in {9, 10, 11, 12, 13, 28, 29, 30, 31, 32}
  {
  }

  function StripLeft(s: string): string {
    if s != [] && IsSpace(s[0]) then StripLeft(s[1..]) else s
  }

  function StripRight(s: string): string {
    if s != [] && IsSpace(s[|s| - 1]) then StripRight(s[..|s| - 1]) else s
  }

  function Strip(s: string): string {
    StripRight(StripLeft(s))
  }

  /** How much of s comes before its first comma. */
  function FieldLength(s: string): (n: nat)
    ensures n <= |s| && ',' !in s[..n] && (n < |s| ==> s[n] == ',')
  {
    if s == [] || s[0] == ',' then 0
    else
      var n := FieldLength(s[1..]);
      assert s[..n + 1] == [s[0]] + s[1..][..n];
      n + 1
  }

  function Split(s: string): seq<string>
    decreases |s|
  {
    var n := FieldLength(s);
    if n == |s| then [s] else [s[..n]] + Split(s[n + 1..])
  }

  function Trimmed(pieces: seq<string>): seq<string> {
    if pieces == [] then []
    else if Strip(pieces[0]) == [] then Trimmed(pieces[1..])
    else [Strip(pieces[0])] + Trimmed(pieces[1..])
  }

  /** The nonempty trimmed pieces between the commas. */
  function WantedTypes(types: string): seq<string> {
    Trimmed(Split(types))
  }

  /** A type name as a client would list it: no comma in it and no space around it. */
  predicate IsName(s: string) {
    s != [] && ',' !in s && !IsSpace(s[0]) && !IsSpace(s[|s| - 1])
  }

  /** Each name after a space, with commas between. */
  function Listed(names: seq<string>): string
    requires names != []
  {
    if |names| == 1 then " " + names[0] else " " + names[0] + "," + Listed(names[1..])
  }

  lemma {:induction false} FieldIsPiece(piece: string, rest: string)
    requires ',' !in piece && (rest == [] || rest[0] == ',')
    ensures FieldLength(piece + rest) == |piece|
    decreases |piece|
  {
    if piece == [] {
      assert piece + rest == rest;
    } else {
      assert (piece + rest)[1..] == piece[1..] + rest;
      FieldIsPiece(piece[1..], rest);
    }
  }

  lemma StripName(name: string)
    requires IsName(name)
    ensures Strip(" " + name) == name
  {
    assert (" " + name)[1..] == name;
    assert StripLeft(" " + name) == StripLeft(name) == name;
  }

  /** What a client lists is what is asked for: the names, in order, spaces or not. */
  lemma {:induction false} ListedNamesAreWanted(names: seq<string>)
    requires names != [] && forall i :: 0 <= i < |names| ==> IsName(names[i])
    ensures WantedTypes(Listed(names)) == names
    decreases |names|
  {
    StripName(names[0]);
    if |names| == 1 {
      LastPiece(names[0]);
      assert names == [names[0]];
    } else {
      FirstPiece(names[0], Listed(names[1..]));
      ListedNamesAreWanted(names[1..]);
      assert names == [names[0]] + names[1..];
    }
  }

  lemma LastPiece(name: string)
    requires IsName(name)
    ensures WantedTypes(" " + name) == [name]
  {
    var piece := " " + name;
    FieldIsPiece(piece, []);
    assert piece + [] == piece;
    StripName(name);
    assert Trimmed([piece]) == [name];
  }

  lemma FirstPiece(name: string, rest: string)
    requires IsName(name)
    ensures WantedTypes(" " + name + "," + rest) == [name] + WantedTypes(rest)
  {
    var piece := " " + name;
    var all := piece + ("," + rest);
    FieldIsPiece(piece, "," + rest);
    assert " " + name + "," + rest == all;
    assert all[|piece| + 1..] == rest && all[..|piece|] == piece;
    assert Split(all) == [piece] + Split(rest);
    StripName(name);
  }

  /** No piece asked for is empty or carries a comma or a space around it, whatever the parameter. */
  lemma {:induction false} WantedAreNames(pieces: seq<string>)
    requires forall i :: 0 <= i < |pieces| ==> ',' !in pieces[i]
    ensures forall i :: 0 <= i < |Trimmed(pieces)| ==> IsName(Trimmed(pieces)[i])
    decreases |pieces|
  {
    if pieces != [] {
      WantedAreNames(pieces[1..]);
      StripIsTrim(pieces[0]);
    }
  }

  lemma {:induction false} StripLeftTrims(s: string)
    ensures StripLeft(s) == [] || !IsSpace(StripLeft(s)[0])
    ensures ',' !in s ==> ',' !in StripLeft(s)
    decreases |s|
  {
    if s != [] && IsSpace(s[0]) {
      StripLeftTrims(s[1..]);
    }
  }

  lemma {:induction false} StripRightTrims(s: string)
    ensures var r := StripRight(s); r <= s && (r == [] || !IsSpace(r[|r| - 1]))
    decreases |s|
  {
    if s != [] && IsSpace(s[|s| - 1]) {
      StripRightTrims(s[..|s| - 1]);
    }
  }

  lemma StripIsTrim(s: string)
    requires ',' !in s
    ensures Strip(s) == [] || IsName(Strip(s))
  {
    StripLeftTrims(s);
    StripRightTrims(StripLeft(s));
  }

  lemma {:induction false} SplitHasNoCommas(s: string)
    ensures forall i :: 0 <= i < |Split(s)| ==> ',' !in Split(s)[i]
    decreases |s|
  {
    var n := FieldLength(s);
    if n < |s| {
      SplitHasNoCommas(s[n + 1..]);
    } else {
      assert s[..n] == s;
    }
  }

  /** So the endpoint only ever compares event types with proper names. */
  lemma OnlyNamesAreWanted(types: string)
    ensures forall i :: 0 <= i < |WantedTypes(types)| ==> IsName(WantedTypes(types)[i])
  {
    SplitHasNoCommas(types);
    WantedAreNames(Split(types));
  }

  lemma NothingWantedOfNothing()
    ensures WantedTypes("") == []
  {
    assert Split("") == [""] && Strip("") == [];
    assert Trimmed([""]) == [];
  }

  /** Blanks and commas name nothing. */
  lemma BlanksNameNothing(types: string)
    requires forall i :: 0 <= i < |types| ==> IsSpace(types[i]) || types[i] == ','
    ensures WantedTypes(types) == []
  {
    SplitBlank(types);
    NoneTrimmed(Split(types));
  }

  predicate AllBlank(s: string) {
    forall i :: 0 <= i < |s| ==> IsSpace(s[i])
  }

  lemma {:induction false} SplitBlank(types: string)
    requires forall i :: 0 <= i < |types| ==> IsSpace(types[i]) || types[i] == ','
    ensures forall i :: 0 <= i < |Split(types)| ==> AllBlank(Split(types)[i])
    decreases |types|
  {
    var n := FieldLength(types);
    assert AllBlank(types[..n]) by {
      forall i | 0 <= i < n ensures IsSpace(types[..n][i]) {
        assert types[..n][i] in types[..n];
      }
    }
    if n < |types| {
      SplitBlank(types[n + 1..]);
    } else {
      assert types[..n] == types;
    }
  }

  lemma {:induction false} StripLeftBlank(s: string)
    requires AllBlank(s)
    ensures StripLeft(s) == []
    decreases |s|
  {
    if s != [] {
      StripLeftBlank(s[1..]);
    }
  }

  lemma {:induction false} NoneTrimmed(pieces: seq<string>)
    requires forall i :: 0 <= i < |pieces| ==> AllBlank(pieces[i])
    ensures Trimmed(pieces) == []
    decreases |pieces|
  {
    if pieces != [] {
      StripLeftBlank(pieces[0]);
      NoneTrimmed(pieces[1..]);
    }
  }
}
