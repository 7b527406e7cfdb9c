/** Rows in the archive's order: newest first, by (time, event id). */
module Sorting {
  import opened Cursor
  import opened Wrappers

  datatype Row = Row(
    time: Stamp,
    id: string,
    eventType: string,
    topic: string,
    symbol: Option<string>,
    correlation: string,
    payload: string)

  datatype Key = Key(instant: int, id: string)

  function KeyOf(r: Row): Key {
    Key(InstantOf(r.time), r.id)
  }

  predicate TextLess(a: string, b: string) {
    b != [] && (a == [] || a[0] < b[0] || (a[0] == b[0] && TextLess(a[1..], b[1..])))
  }

  predicate Less(a: Key, b: Key) {
    a.instant < b.instant || (a.instant == b.instant && TextLess(a.id, b.id))
  }

  lemma {:induction false} TextTotal(a: string, b: string)
    ensures !TextLess(a, a)
    ensures TextLess(a, b) || TextLess(b, a) || a == b
    ensures !(TextLess(a, b) && TextLess(b, a))
    decreases |a|
  {
    if a != [] {
      TextTotal(a[1..], if b == [] then [] else b[1..]);
      if b != [] {
        assert a == [a[0]] + a[1..] && b == [b[0]] + b[1..];
      }
    }
  }

  lemma {:induction false} TextTransitive(a: string, b: string, c: string)
    requires TextLess(a, b) && TextLess(b, c)
    ensures TextLess(a, c)
    decreases |b|
  {
    if a != [] && a[0] == b[0] == c[0] {
      TextTransitive(a[1..], b[1..], c[1..]);
    }
  }

  /** Text order: a common beginning, after which the first ends or has the smaller character. */
  predicate Precedes(a: string, b: string, k: nat) {
    && k <= |a| && k < |b| && a[..k] == b[..k] && (k == |a| || a[k] < b[k])
  }

  lemma {:induction false} TextLessIff(a: string, b: string)
    ensures TextLess(a, b) <==> exists k: nat :: Precedes(a, b, k)
    decreases |a|
  {
    if TextLess(a, b) {
      if a == [] || a[0] < b[0] {
        assert Precedes(a, b, 0);
      } else {
        TextLessIff(a[1..], b[1..]);
        var k: nat :| Precedes(a[1..], b[1..], k);
        assert a[..k + 1] == [a[0]] + a[1..][..k] && b[..k + 1] == [b[0]] + b[1..][..k];
        assert Precedes(a, b, k + 1);
      }
    }
    if k: nat :| Precedes(a, b, k) {
      PrecedesIsLess(a, b, k);
    }
  }

  lemma {:induction false} PrecedesIsLess(a: string, b: string, k: nat)
    requires Precedes(a, b, k)
    ensures TextLess(a, b)
    decreases k
  {
    if k > 0 {
      assert a[0] == a[..k][0] == b[..k][0] == b[0];
      assert a[1..][..k - 1] == a[..k][1..] && b[1..][..k - 1] == b[..k][1..];
      PrecedesIsLess(a[1..], b[1..], k - 1);
    }
  }

  /** Newest first: of two rows the later listed is older, or as old with the id that comes first as text. */
  lemma DescendingIsNewestFirst(rows: seq<Row>, i: nat, j: nat)
    requires Descending(rows) && i < j < |rows|
    ensures InstantOf(rows[j].time) <= InstantOf(rows[i].time)
    ensures InstantOf(rows[j].time) == InstantOf(rows[i].time) ==> exists k: nat :: Precedes(rows[j].id, rows[i].id, k)
  {
    assert Less(KeyOf(rows[j]), KeyOf(rows[i]));
    TextLessIff(rows[j].id, rows[i].id);
  }

  /** The composite key is a strict total order. */
  lemma KeyTotal(a: Key, b: Key)
    ensures !Less(a, a)
    ensures Less(a, b) || Less(b, a) || a == b
    ensures !(Less(a, b) && Less(b, a))
  {
    TextTotal(a.id, b.id);
  }

  lemma KeyTransitive(a: Key, b: Key, c: Key)
    requires Less(a, b) && Less(b, c)
    ensures Less(a, c)
  {
    if a.instant == c.instant {
      TextTransitive(a.id, b.id, c.id);
    }
  }

  // ---------- Sorted lists ----------

  predicate Descending(rows: seq<Row>) {
    forall i, j :: 0 <= i < j < |rows| ==> Less(KeyOf(rows[j]), KeyOf(rows[i]))
  }

  predicate DistinctKeys(rows: seq<Row>) {
    forall i, j :: 0 <= i < j < |rows| ==> KeyOf(rows[i]) != KeyOf(rows[j])
  }

  function Insert(r: Row, rows: seq<Row>): seq<Row> {
    if rows == [] || Less(KeyOf(rows[0]), KeyOf(r)) then [r] + rows
    else [rows[0]] + Insert(r, rows[1..])
  }

  /** ORDER BY time DESC, event_id DESC. */
  function Sort(rows: seq<Row>): seq<Row> {
    if rows == [] then [] else Insert(rows[0], Sort(rows[1..]))
  }

  /** LIMIT n. */
  function Take(rows: seq<Row>, n: nat): seq<Row> {
    if n <= |rows| then rows[..n] else rows
  }

  lemma {:induction false} InsertMembers(r: Row, rows: seq<Row>)
    ensures multiset(Insert(r, rows)) == multiset([r] + rows)
    decreases |rows|
  {
    if rows != [] && !Less(KeyOf(rows[0]), KeyOf(r)) {
      InsertMembers(r, rows[1..]);
      assert rows == [rows[0]] + rows[1..];
    }
  }

  lemma {:induction false} SortMembers(rows: seq<Row>)
    ensures multiset(Sort(rows)) == multiset(rows)
    decreases |rows|
  {
    if rows != [] {
      SortMembers(rows[1..]);
      InsertMembers(rows[0], Sort(rows[1..]));
      assert rows == [rows[0]] + rows[1..];
    }
  }

  lemma InMultiset(rows: seq<Row>, r: Row)
    ensures r in rows <==> r in multiset(rows)
  {
  }

  lemma SortHas(rows: seq<Row>, r: Row)
    ensures r in Sort(rows) <==> r in rows
  {
    SortMembers(rows);
    InMultiset(Sort(rows), r);
    InMultiset(rows, r);
  }

  lemma {:induction false} InsertDescending(r: Row, rows: seq<Row>)
    requires Descending(rows) && forall x :: x in rows ==> KeyOf(x) != KeyOf(r)
    ensures Descending(Insert(r, rows))
    decreases |rows|
  {
    if rows != [] {
      KeyTotal(KeyOf(rows[0]), KeyOf(r));
      if Less(KeyOf(rows[0]), KeyOf(r)) {
        forall i | 1 <= i < |rows| ensures Less(KeyOf(rows[i]), KeyOf(r)) {
          KeyTransitive(KeyOf(rows[i]), KeyOf(rows[0]), KeyOf(r));
        }
      } else {
        InsertDescending(r, rows[1..]);
        var rest := Insert(r, rows[1..]);
        forall i | 0 <= i < |rest| ensures Less(KeyOf(rest[i]), KeyOf(rows[0])) {
          InsertMembers(r, rows[1..]);
          InMultiset(rest, rest[i]);
          InMultiset([r] + rows[1..], rest[i]);
        }
      }
    }
  }

  lemma {:induction false} SortDescending(rows: seq<Row>)
    requires DistinctKeys(rows)
    ensures Descending(Sort(rows))
    decreases |rows|
  {
    if rows != [] {
      SortDescending(rows[1..]);
      forall x | x in Sort(rows[1..]) ensures KeyOf(x) != KeyOf(rows[0]) {
        SortHas(rows[1..], x);
      }
      InsertDescending(rows[0], Sort(rows[1..]));
    }
  }

  lemma NonemptyHas(rows: seq<Row>)
    ensures rows != [] ==> exists r :: r in rows
  {
    if rows != [] {
      assert rows[0] in rows;
    }
  }

  /** There is only one descending list with given members. */
  lemma {:induction false} DescendingUnique(a: seq<Row>, b: seq<Row>)
    requires Descending(a) && Descending(b) && forall r :: r in a <==> r in b
    ensures a == b
    decreases |a|
  {
    if a == [] {
      NonemptyHas(b);
    } else {
      assert a[0] in a;
      var i :| 0 <= i < |b| && b[i] == a[0];
      assert b[0] in b;
      var j :| 0 <= j < |a| && a[j] == b[0];
      KeyTotal(KeyOf(a[0]), KeyOf(b[0]));
      assert i == 0;
      forall r ensures r in a[1..] <==> r in b[1..] {
        KeyTotal(KeyOf(a[0]), KeyOf(r));
        assert a == [a[0]] + a[1..] && b == [b[0]] + b[1..];
        assert r in a[1..] ==> r in a;
        assert r in b[1..] ==> r in b;
      }
      DescendingUnique(a[1..], b[1..]);
    }
  }
}
