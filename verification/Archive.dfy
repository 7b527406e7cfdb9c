/** The archived event stream: routing into two tables, and the cursor walk over their bounded union. */
module Archive {
  import opened Cursor
  import opened Sorting
  import opened Wrappers

  // ---------- Tables ----------

  /** The two retention tiers; rows in the order they were inserted. */
  datatype Tables = Tables(market: seq<Row>, signal: seq<Row>)

  datatype Tier = Market | Signal

  /** Which table an event type goes to, if any: three have their own, three are high-volume, the rest is kept. */
  function TableFor(eventType: string): Option<Tier> {
    if eventType in {"JournalEntryEvent", "AnalysisEvent", "RiskRejectedEvent"} then None
    else if eventType in {"PriceEvent", "VolumeEvent", "DexEvent"} then Some(Market)
    else Some(Signal)
  }

  predicate HasKey(rows: seq<Row>, k: Key) {
    exists i :: 0 <= i < |rows| && KeyOf(rows[i]) == k
  }

  /** INSERT ... ON CONFLICT DO NOTHING. */
  function InsertIfAbsent(rows: seq<Row>, r: Row): seq<Row> {
    if HasKey(rows, KeyOf(r)) then rows else rows + [r]
  }

  function Archived(t: Tables, r: Row): Tables {
    match TableFor(r.eventType)
    case None => t
    case Some(Market) => t.(market := InsertIfAbsent(t.market, r))
    case Some(Signal) => t.(signal := InsertIfAbsent(t.signal, r))
  }

  function ArchivedAll(t: Tables, events: seq<Row>): Tables
    decreases |events|
  {
    if events == [] then t else ArchivedAll(Archived(t, events[0]), events[1..])
  }

  /** Some row has this one's instant and id. */
  predicate Known(rows: seq<Row>, r: Row) {
    exists i :: 0 <= i < |rows| && InstantOf(rows[i].time) == InstantOf(r.time) && rows[i].id == r.id
  }

  lemma KnownIsKeyed(rows: seq<Row>, r: Row)
    ensures Known(rows, r) <==> HasKey(rows, KeyOf(r))
  {
    if Known(rows, r) {
      var i :| 0 <= i < |rows| && InstantOf(rows[i].time) == InstantOf(r.time) && rows[i].id == r.id;
      assert KeyOf(rows[i]) == KeyOf(r);
    }
  }

  class EventArchiver {
    var market: seq<Row>
    var signal: seq<Row>

    constructor ()
      ensures market == [] && signal == []
    {
      market, signal := [], [];
    }

    /** `r` is the event as a row; `written` is false when the database refuses the write. */
    method Handle(r: Row, written: bool)
      modifies this
      ensures Tables(market, signal) == if written then Archived(Tables(old(market), old(signal)), r) else Tables(old(market), old(signal))
      ensures !written || r.eventType in {"JournalEntryEvent", "AnalysisEvent", "RiskRejectedEvent"} ==>
                market == old(market) && signal == old(signal)
      ensures written && r.eventType in {"PriceEvent", "VolumeEvent", "DexEvent"} ==>
                signal == old(signal) && market == if Known(old(market), r) then old(market) else old(market) + [r]
      ensures written && r.eventType !in {"JournalEntryEvent", "AnalysisEvent", "RiskRejectedEvent", "PriceEvent", "VolumeEvent", "DexEvent"} ==>
                market == old(market) && signal == if Known(old(signal), r) then old(signal) else old(signal) + [r]
    {
      KnownIsKeyed(market, r);
      KnownIsKeyed(signal, r);
      var table := TableFor(r.eventType);
      if table.None? || !written {
        return;
      }
      if table.value == Market {
        market := InsertIfAbsent(market, r);
      } else {
        signal := InsertIfAbsent(signal, r);
      }
    }
  }

  function Everything(t: Tables): seq<Row> {
    t.market + t.signal
  }

  /** An event id and time determine the event's type. */
  predicate Identified(events: seq<Row>) {
    forall i, j :: 0 <= i < |events| && 0 <= j < |events| && KeyOf(events[i]) == KeyOf(events[j]) ==>
      events[i].eventType == events[j].eventType
  }

  predicate Routed(t: Tables) {
    && (forall r :: r in t.market ==> TableFor(r.eventType) == Some(Market))
    && (forall r :: r in t.signal ==> TableFor(r.eventType) == Some(Signal))
  }

  lemma {:induction false} ArchivingAll(t: Tables, events: seq<Row>)
    requires Routed(t) && DistinctKeys(t.market) && DistinctKeys(t.signal)
    ensures var u := ArchivedAll(t, events);
            && Routed(u) && DistinctKeys(u.market) && DistinctKeys(u.signal)
            && (forall r :: r in Everything(u) ==> r in Everything(t) || r in events)
            && t.market <= u.market && t.signal <= u.signal
    decreases |events|
  {
    if events != [] {
      ArchivingAll(Archived(t, events[0]), events[1..]);
    }
  }

  lemma {:induction false} ArchivedAllAppend(t: Tables, first: seq<Row>, second: seq<Row>)
    ensures ArchivedAll(t, first + second) == ArchivedAll(ArchivedAll(t, first), second)
    decreases |first|
  {
    if first == [] {
      assert first + second == second;
    } else {
      assert (first + second)[1..] == first[1..] + second;
      ArchivedAllAppend(Archived(t, first[0]), first[1..], second);
    }
  }

  /** Whether the table of the event's type holds its key. */
  predicate Held(t: Tables, r: Row) {
    match TableFor(r.eventType)
    case None => true
    case Some(Market) => HasKey(t.market, KeyOf(r))
    case Some(Signal) => HasKey(t.signal, KeyOf(r))
  }

  lemma HeldStays(t: Tables, u: Tables, r: Row)
    requires Held(t, r) && t.market <= u.market && t.signal <= u.signal
    ensures Held(u, r)
  {
    if TableFor(r.eventType) == Some(Market) {
      var i :| 0 <= i < |t.market| && KeyOf(t.market[i]) == KeyOf(r);
      assert u.market[i] == t.market[i];
    } else if TableFor(r.eventType) == Some(Signal) {
      var i :| 0 <= i < |t.signal| && KeyOf(t.signal[i]) == KeyOf(r);
      assert u.signal[i] == t.signal[i];
    }
  }

  lemma ArchivedIsHeld(t: Tables, r: Row)
    ensures Held(Archived(t, r), r)
  {
    var u := Archived(t, r);
    if TableFor(r.eventType) == Some(Market) && !HasKey(t.market, KeyOf(r)) {
      assert u.market[|t.market|] == r;
    } else if TableFor(r.eventType) == Some(Signal) && !HasKey(t.signal, KeyOf(r)) {
      assert u.signal[|t.signal|] == r;
    }
  }

  lemma {:induction false} AllAreHeld(t: Tables, events: seq<Row>, i: nat)
    requires i < |events| && Routed(t) && DistinctKeys(t.market) && DistinctKeys(t.signal)
    ensures Held(ArchivedAll(t, events), events[i])
    decreases |events|
  {
    var next := Archived(t, events[0]);
    ArchivedIsHeld(t, events[0]);
    ArchivingAll(t, [events[0]]);
    assert ArchivedAll(next, [][..]) == next;
    if i == 0 {
      ArchivingAll(next, events[1..]);
      HeldStays(next, ArchivedAll(next, events[1..]), events[0]);
    } else {
      AllAreHeld(next, events[1..], i - 1);
    }
  }

  /** However often events are delivered, an archive fed from nothing holds each key once across both tables, as long
      as a key never stands for events of two different types; each row is an event that was delivered, in the table
      of its type, and every delivered event that is archived at all has its key there. */
  lemma ArchiveHoldsEachKeyOnce(events: seq<Row>)
    requires Identified(events)
    ensures var u := ArchivedAll(Tables([], []), events);
            && DistinctKeys(Everything(u)) && Routed(u)
            && (forall r :: r in Everything(u) ==> r in events)
            && (forall i :: 0 <= i < |events| ==> Held(u, events[i]))
  {
    var u := ArchivedAll(Tables([], []), events);
    ArchivingAll(Tables([], []), events);
    forall i | 0 <= i < |events| ensures Held(u, events[i]) {
      AllAreHeld(Tables([], []), events, i);
    }
    TablesApart(u, events);
  }

  lemma TablesApart(u: Tables, events: seq<Row>)
    requires Identified(events) && Routed(u) && DistinctKeys(u.market) && DistinctKeys(u.signal)
    requires forall r :: r in Everything(u) ==> r in events
    ensures DistinctKeys(Everything(u))
  {
    forall i, j | 0 <= i < |u.market| && 0 <= j < |u.signal| ensures KeyOf(u.market[i]) != KeyOf(u.signal[j]) {
      assert u.market[i] in Everything(u) && u.signal[j] in Everything(u);
      assert u.market[i] in u.market && u.signal[j] in u.signal;
    }
  }

  // ---------- The query ----------

  datatype Condition = Older(than: Key) | SymbolIs(symbol: string) | TypeIn(types: seq<string>)

  predicate Holds(c: Condition, r: Row) {
    match c
    case Older(k) => Less(KeyOf(r), k)
    case SymbolIs(s) => r.symbol == Some(s)
    case TypeIn(types) => r.eventType in types
  }

  /** All conditions of a WHERE clause. */
  predicate Matches(clause: seq<Condition>, r: Row) {
    forall c :: c in clause ==> Holds(c, r)
  }

  function Where(rows: seq<Row>, clause: seq<Condition>): seq<Row> {
    if rows == [] then []
    else (if Matches(clause, rows[0]) then [rows[0]] else []) + Where(rows[1..], clause)
  }

  /** SELECT ... WHERE ... ORDER BY ... LIMIT, over one table. */
  function Branch(rows: seq<Row>, clause: seq<Condition>, limit: nat): seq<Row> {
    Take(Sort(Where(rows, clause)), limit)
  }

  /** Both branches, each bounded on its own, then sorted and bounded together. */
  function BoundedUnion(t: Tables, clause: seq<Condition>, limit: nat): seq<Row> {
    Take(Sort(Branch(t.market, clause, limit) + Branch(t.signal, clause, limit)), limit)
  }

  /** The plain answer: filter, sort, list everything. */
  function Listing(t: Tables, clause: seq<Condition>): seq<Row> {
    Sort(Where(Everything(t), clause))
  }

  function Merge(a: seq<Row>, b: seq<Row>): seq<Row>
    decreases |a| + |b|
  {
    if a == [] then b
    else if b == [] then a
    else if Less(KeyOf(b[0]), KeyOf(a[0])) then [a[0]] + Merge(a[1..], b)
    else [b[0]] + Merge(a, b[1..])
  }

  lemma {:induction false} MergeHas(a: seq<Row>, b: seq<Row>, r: Row)
    ensures r in Merge(a, b) <==> r in a || r in b
    decreases |a| + |b|
  {
    if a != [] && b != [] {
      assert a == [a[0]] + a[1..] && b == [b[0]] + b[1..];
      MergeHas(a[1..], b, r);
      MergeHas(a, b[1..], r);
    }
  }

  lemma {:induction false} MergeDescending(a: seq<Row>, b: seq<Row>)
    requires Descending(a) && Descending(b) && DistinctKeys(a + b)
    ensures Descending(Merge(a, b))
    decreases |a| + |b|
  {
    if a != [] && b != [] {
      KeyTotal(KeyOf(a[0]), KeyOf(b[0]));
      assert KeyOf((a + b)[0]) != KeyOf((a + b)[|a|]);
      if Less(KeyOf(b[0]), KeyOf(a[0])) {
        assert a[1..] + b == (a + b)[1..];
        MergeDescending(a[1..], b);
        HeadFirst(a[0], a[1..], b);
      } else {
        DropMiddle(a, b);
        MergeDescending(a, b[1..]);
        HeadFirst(b[0], a, b[1..]);
      }
    }
  }

  lemma DropMiddle(a: seq<Row>, b: seq<Row>)
    requires b != [] && DistinctKeys(a + b)
    ensures DistinctKeys(a + b[1..])
  {
    var c, d := a + b[1..], a + b;
    forall i, j | 0 <= i < j < |c| ensures KeyOf(c[i]) != KeyOf(c[j]) {
      assert c[i] == d[if i < |a| then i else i + 1];
      assert c[j] == d[if j < |a| then j else j + 1];
    }
  }

  lemma HeadFirst(head: Row, a: seq<Row>, b: seq<Row>)
    requires Descending(Merge(a, b))
    requires a == [] || Less(KeyOf(a[0]), KeyOf(head))
    requires b == [] || Less(KeyOf(b[0]), KeyOf(head))
    ensures Descending([head] + Merge(a, b))
  {
    var m := Merge(a, b);
    if m != [] {
      assert m[0] == (if a == [] then b[0] else if b == [] || m[0] == a[0] then a[0] else b[0]);
      forall i | 0 <= i < |m| ensures Less(KeyOf(m[i]), KeyOf(head)) {
        if i > 0 {
          KeyTransitive(KeyOf(m[i]), KeyOf(m[0]), KeyOf(head));
        }
      }
    }
  }

  /** The first n of a merge only depend on the first n of each side. */
  lemma {:induction false} TakeOfMerge(a: seq<Row>, b: seq<Row>, p: nat, q: nat, n: nat)
    requires n <= p && n <= q
    ensures Take(Merge(a, b), n) == Take(Merge(Take(a, p), Take(b, q)), n)
    decreases |a| + |b|
  {
    if n > 0 && a != [] && b != [] {
      if Less(KeyOf(b[0]), KeyOf(a[0])) {
        TakeOfMerge(a[1..], b, p - 1, q, n - 1);
        MergeLeft(a, b, n);
        TakeTail(a, p);
        TakeTail(b, q);
        MergeLeft(Take(a, p), Take(b, q), n);
      } else {
        TakeOfMerge(a, b[1..], p, q - 1, n - 1);
        MergeRight(a, b, n);
        TakeTail(a, p);
        TakeTail(b, q);
        MergeRight(Take(a, p), Take(b, q), n);
      }
    }
  }

  lemma TakeTail(rows: seq<Row>, n: nat)
    requires rows != [] && n > 0
    ensures Take(rows, n) != [] && Take(rows, n)[0] == rows[0] && Take(rows, n)[1..] == Take(rows[1..], n - 1)
  {
  }

  lemma MergeLeft(a: seq<Row>, b: seq<Row>, n: nat)
    requires n > 0 && a != [] && b != [] && Less(KeyOf(b[0]), KeyOf(a[0]))
    ensures Take(Merge(a, b), n) == [a[0]] + Take(Merge(a[1..], b), n - 1)
  {
    TakeCons(a[0], Merge(a[1..], b), n);
  }

  lemma MergeRight(a: seq<Row>, b: seq<Row>, n: nat)
    requires n > 0 && a != [] && b != [] && !Less(KeyOf(b[0]), KeyOf(a[0]))
    ensures Take(Merge(a, b), n) == [b[0]] + Take(Merge(a, b[1..]), n - 1)
  {
    TakeCons(b[0], Merge(a, b[1..]), n);
  }

  lemma TakeCons(head: Row, rows: seq<Row>, n: nat)
    requires n > 0
    ensures Take([head] + rows, n) == [head] + Take(rows, n - 1)
  {
  }

  lemma {:induction false} WhereHas(rows: seq<Row>, clause: seq<Condition>, r: Row)
    ensures r in Where(rows, clause) <==> r in rows && Matches(clause, r)
    decreases |rows|
  {
    if rows != [] {
      WhereHas(rows[1..], clause, r);
      assert rows == [rows[0]] + rows[1..];
    }
  }

  lemma {:induction false} WhereDistinct(rows: seq<Row>, clause: seq<Condition>)
    requires DistinctKeys(rows)
    ensures DistinctKeys(Where(rows, clause))
    decreases |rows|
  {
    if rows != [] {
      var rest := Where(rows[1..], clause);
      WhereDistinct(rows[1..], clause);
      forall i | 0 <= i < |rest| ensures KeyOf(rest[i]) != KeyOf(rows[0]) {
        WhereHas(rows[1..], clause, rest[i]);
        assert rest[i] in rest;
        var j :| 0 <= j < |rows[1..]| && rows[1..][j] == rest[i];
        assert rows[j + 1] == rest[i];
      }
    }
  }

  lemma {:induction false} WhereAppend(a: seq<Row>, b: seq<Row>, clause: seq<Condition>)
    ensures Where(a + b, clause) == Where(a, clause) + Where(b, clause)
    decreases |a|
  {
    if a == [] {
      assert a + b == b;
    } else {
      assert (a + b)[1..] == a[1..] + b;
      WhereAppend(a[1..], b, clause);
    }
  }

  /** Sorting a union is merging the sorted parts. */
  lemma SortOfUnion(a: seq<Row>, b: seq<Row>)
    requires DistinctKeys(a + b)
    ensures Sort(a + b) == Merge(Sort(a), Sort(b))
  {
    SplitDistinct(a, b);
    SortDescending(a + b);
    SortDescending(a);
    SortDescending(b);
    SortedStayDistinct(a, b);
    MergeDescending(Sort(a), Sort(b));
    forall r ensures r in Sort(a + b) <==> r in Merge(Sort(a), Sort(b)) {
      SortHas(a + b, r);
      SortHas(a, r);
      SortHas(b, r);
      MergeHas(Sort(a), Sort(b), r);
    }
    DescendingUnique(Sort(a + b), Merge(Sort(a), Sort(b)));
  }

  lemma SplitDistinct(a: seq<Row>, b: seq<Row>)
    requires DistinctKeys(a + b)
    ensures DistinctKeys(a) && DistinctKeys(b)
    ensures forall x, y :: x in a && y in b ==> KeyOf(x) != KeyOf(y)
  {
    forall i, j | 0 <= i < j < |a| ensures KeyOf(a[i]) != KeyOf(a[j]) {
      assert (a + b)[i] == a[i] && (a + b)[j] == a[j];
    }
    forall i, j | 0 <= i < j < |b| ensures KeyOf(b[i]) != KeyOf(b[j]) {
      assert (a + b)[|a| + i] == b[i] && (a + b)[|a| + j] == b[j];
    }
    forall x, y | x in a && y in b ensures KeyOf(x) != KeyOf(y) {
      var i :| 0 <= i < |a| && a[i] == x;
      var j :| 0 <= j < |b| && b[j] == y;
      assert (a + b)[i] == x && (a + b)[|a| + j] == y;
    }
  }

  lemma JoinDistinct(a: seq<Row>, b: seq<Row>)
    requires DistinctKeys(a) && DistinctKeys(b) && forall x, y :: x in a && y in b ==> KeyOf(x) != KeyOf(y)
    ensures DistinctKeys(a + b)
  {
  }

  lemma DescendingDistinct(a: seq<Row>)
    requires Descending(a)
    ensures DistinctKeys(a)
  {
    forall i, j | 0 <= i < j < |a| ensures KeyOf(a[i]) != KeyOf(a[j]) {
      KeyTotal(KeyOf(a[i]), KeyOf(a[j]));
    }
  }

  lemma SortedStayDistinct(a: seq<Row>, b: seq<Row>)
    requires DistinctKeys(a + b)
    ensures DistinctKeys(Sort(a) + Sort(b))
  {
    SplitDistinct(a, b);
    SortDescending(a);
    SortDescending(b);
    DescendingDistinct(Sort(a));
    DescendingDistinct(Sort(b));
    forall x, y | x in Sort(a) && y in Sort(b) ensures KeyOf(x) != KeyOf(y) {
      SortHas(a, x);
      SortHas(b, y);
    }
    JoinDistinct(Sort(a), Sort(b));
  }

  lemma TakeDescending(rows: seq<Row>, n: nat)
    requires Descending(rows)
    ensures Descending(Take(rows, n)) && forall r :: r in Take(rows, n) ==> r in rows
  {
  }

  /** Sorting what is already sorted changes nothing. */
  lemma SortSorted(rows: seq<Row>)
    requires Descending(rows)
    ensures Sort(rows) == rows
  {
    DescendingDistinct(rows);
    SortDescending(rows);
    forall r ensures r in Sort(rows) <==> r in rows {
      SortHas(rows, r);
    }
    DescendingUnique(Sort(rows), rows);
  }

  /** Bounding each branch loses nothing: the union of the branches starts exactly like the whole listing. */
  lemma BoundedUnionIsExact(t: Tables, clause: seq<Condition>, limit: nat)
    requires DistinctKeys(Everything(t))
    ensures BoundedUnion(t, clause, limit) == Take(Listing(t, clause), limit)
  {
    var a, b := Where(t.market, clause), Where(t.signal, clause);
    WhereAppend(t.market, t.signal, clause);
    WhereDistinct(Everything(t), clause);
    SortOfUnion(a, b);
    SortedStayDistinct(a, b);
    SplitDistinct(a, b);
    SortDescending(a);
    SortDescending(b);
    var x, y := Take(Sort(a), limit), Take(Sort(b), limit);
    TakeDescending(Sort(a), limit);
    TakeDescending(Sort(b), limit);
    SplitDistinct(Sort(a), Sort(b));
    DescendingDistinct(x);
    DescendingDistinct(y);
    JoinDistinct(x, y);
    SortOfUnion(x, y);
    SortSorted(x);
    SortSorted(y);
    TakeOfMerge(Sort(a), Sort(b), limit, limit, limit);
  }
}
