/** The composite pagination cursor: a timestamp and an event id around a separator. */
module Cursor {
  import opened Wrappers

  /** A datetime: without a zone only its wall-clock reading is known. */
  datatype Stamp = Naive(local: int) | Aware(instant: int, offset: int)

  /** Attaches UTC to a naive timestamp. */
  function AssumeUtc(t: Stamp): Stamp {
    if t.Naive? then Aware(t.local, 0) else t
  }

  function InstantOf(t: Stamp): int {
    AssumeUtc(t).instant
  }

  /** A time without a zone is read as UTC; one with a zone is the instant it names. */
  lemma NaiveMeansUtc(n: int, offset: int)
    ensures InstantOf(Naive(n)) == n && InstantOf(Aware(n, offset)) == n && AssumeUtc(Aware(n, offset)) == Aware(n, offset)
    ensures AssumeUtc(Naive(n)) == Aware(n, 0)
  {
  }

  /** `isoformat` and `fromisoformat`. */
  datatype Clock = Clock(show: Stamp -> string, parse: string -> Option<Stamp>)

  const SEP := '|'

  /** Showing can be undone and never produces the separator. */
  ghost predicate Faithful(clock: Clock) {
    forall t :: clock.parse(clock.show(t)) == Some(t) && SEP !in clock.show(t)
  }

  datatype CursorError = Malformed | BadTime | NaiveTime

  function Encode(clock: Clock, t: Stamp, id: string): string {
    clock.show(t) + [SEP] + id
  }

  /** Where the first separator is, or the length. */
  function Find(s: string): (i: nat)
    ensures i <= |s| && SEP !in s[..i] && (i < |s| ==> s[i] == SEP)
  {
    if s == [] || s[0] == SEP then 0
    else
      var i := 1 + Find(s[1..]);
      assert s[..i] == [s[0]] + s[1..][..i - 1];
      i
  }

  function Decode(clock: Clock, cursor: string): Result<(Stamp, string), CursorError> {
    var i := Find(cursor);
    if i == |cursor| || i + 1 == |cursor| then Err(Malformed)
    else
      match clock.parse(cursor[..i])
      case None => Err(BadTime)
      case Some(t) => if t.Naive? then Err(NaiveTime) else Ok((t, cursor[i + 1..]))
  }

  /** What is encoded is decoded again exactly when the time carries a zone and the id is not empty; the id may
      contain the separator. */
  lemma RoundTripIff(clock: Clock, t: Stamp, id: string)
    requires Faithful(clock)
    ensures Decode(clock, Encode(clock, t, id)) == Ok((t, id)) <==> t.Aware? && id != ""
  {
    var shown := clock.show(t);
    var cursor := Encode(clock, t, id);
    var i := Find(cursor);
    assert cursor[|shown|] == SEP && cursor[..|shown|] == shown;
    assert i == |shown|;
    assert cursor[..i] == shown && cursor[i + 1..] == id;
  }

  /** Cursors the service hands out are always accepted back, whatever the row's time looked like. */
  lemma OwnCursorsAreAccepted(clock: Clock, t: Stamp, id: string)
    requires Faithful(clock) && id != ""
    ensures Decode(clock, Encode(clock, AssumeUtc(t), id)) == Ok((AssumeUtc(t), id))
  {
    RoundTripIff(clock, AssumeUtc(t), id);
  }

  /** Accepted is exactly what shows an aware time, a separator and a nonempty id; a missing separator or id is malformed,
      and only then is the time looked at. */
  lemma AcceptedIff(clock: Clock, cursor: string)
    ensures Decode(clock, cursor).Ok? <==> exists i :: SplitAt(cursor, i) && clock.parse(cursor[..i]).Some? && clock.parse(cursor[..i]).value.Aware?
    ensures Decode(clock, cursor) == Err(Malformed) <==> !exists i :: SplitAt(cursor, i)
    ensures Decode(clock, cursor) == Err(BadTime) <==> exists i :: SplitAt(cursor, i) && clock.parse(cursor[..i]).None?
  {
    var i := Find(cursor);
    if j :| SplitAt(cursor, j) {
      SplitIsFirst(cursor, i, j);
    }
    if i + 1 < |cursor| {
      assert SplitAt(cursor, i);
    }
  }

  /** The first separator is here, with something after it. */
  predicate SplitAt(cursor: string, i: int) {
    0 <= i < |cursor| - 1 && cursor[i] == '|' && '|' !in cursor[..i]
  }

  lemma SplitIsFirst(cursor: string, i: nat, j: int)
    requires i == Find(cursor) && SplitAt(cursor, j)
    ensures i == j
  {
    forall k | 0 <= k < j ensures cursor[k] != '|' {
      assert cursor[k] == cursor[..j][k];
    }
    forall k | 0 <= k < i ensures cursor[k] != '|' {
      assert cursor[k] == cursor[..i][k];
    }
  }

  // ---------- Such a clock exists ----------

  function Tally(c: char, n: nat): string {
    seq(n, _ => c)
  }

  /** An integer as a natural number, one to one. */
  function Zigzag(n: int): nat {
    if n >= 0 then 2 * n else -2 * n - 1
  }

  function Unary(t: Stamp): string {
    match t
    case Naive(local) => Tally('n', Zigzag(local) + 1)
    case Aware(instant, offset) => Tally('a', Zigzag(instant)) + Tally('z', Zigzag(offset) + 1)
  }

  lemma UnaryInjective(s: Stamp, t: Stamp)
    requires Unary(s) == Unary(t)
    ensures s == t
  {
    var a, b := Unary(s), Unary(t);
    assert a[|a| - 1] == b[|b| - 1];
    if s.Aware? && t.Aware? {
      var m, n := Zigzag(s.instant), Zigzag(t.instant);
      assert a[m] == 'z' && b[n] == 'z' && b[m] == 'z' && a[n] == 'z';
      assert m == n;
    }
  }

  lemma FaithfulClockExists()
    ensures exists clock :: Faithful(clock)
  {
    var parse := (s: string) => if exists t :: Unary(t) == s then var t :| Unary(t) == s; Some(t) else None;
    var clock := Clock(Unary, parse);
    forall t ensures clock.parse(clock.show(t)) == Some(t) && SEP !in clock.show(t) {
      var u :| Unary(u) == Unary(t) && clock.parse(clock.show(t)) == Some(u);
      UnaryInjective(u, t);
    }
    assert Faithful(clock);
  }
}
