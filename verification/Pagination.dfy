/** The paginated read: one page per request, and the client's walk from the newest row to the end. */
module Pagination {
  import opened Archive
  import opened Cursor
  import opened QueryParams
  import opened Sorting
  import opened Text
  import opened Wrappers

  /** What the client asks for besides the cursor. */
  datatype Filter = Filter(symbol: Option<string>, types: seq<string>)

  /** The parameters as they arrive, made into a filter. */
  function FilterOf(symbol: Option<string>, types: Option<string>): Filter {
    Filter(if symbol.Some? then Some(Upper(symbol.value)) else None,
           if types.Some? && types.value != "" then WantedTypes(types.value) else [])
  }

  datatype Page = Page(items: seq<Row>, nextCursor: Option<string>)

  /** Rows a filter selects, regardless of any cursor. */
  predicate Selects(f: Filter, r: Row) {
    && (f.symbol.Some? && f.symbol.value != "" ==> r.symbol == f.symbol)
    && (f.types != [] ==> r.eventType in f.types)
  }

  /** Rows strictly older than a cursor; all rows when there is none. */
  predicate Past(before: Option<Key>, r: Row) {
    before.Some? ==> Less(KeyOf(r), before.value)
  }

  function CursorConditions(before: Option<Key>): seq<Condition> {
    if before.Some? then [Older(before.value)] else []
  }

  function FilterConditions(f: Filter): seq<Condition> {
    (if f.symbol.Some? && f.symbol.value != "" then [SymbolIs(f.symbol.value)] else [])
    + (if f.types != [] then [TypeIn(f.types)] else [])
  }

  function Clause(f: Filter, before: Option<Key>): seq<Condition> {
    CursorConditions(before) + FilterConditions(f)
  }

  lemma ClauseMeaning(f: Filter, before: Option<Key>, r: Row)
    ensures Matches(Clause(f, before), r) <==> Selects(f, r) && Past(before, r)
  {
    var clause := Clause(f, before);
    if before.Some? {
      assert Older(before.value) in clause;
    }
    if f.symbol.Some? && f.symbol.value != "" {
      assert SymbolIs(f.symbol.value) in clause;
    }
    if f.types != [] {
      assert TypeIn(f.types) in clause;
    }
  }

  /** The position a request starts from; an empty cursor is no cursor. */
  function Position(clock: Clock, before: Option<string>): Result<Option<Key>, CursorError> {
    if before.None? || before.value == "" then Ok(None)
    else
      match Decode(clock, before.value)
      case Err(e) => Err(e)
      case Ok((t, id)) => Ok(Some(Key(InstantOf(t), id)))
  }

  function NextCursor(clock: Clock, items: seq<Row>, more: bool): Option<string> {
    if more && items != [] then Some(Encode(clock, AssumeUtc(items[|items| - 1].time), items[|items| - 1].id)) else None
  }

  /** The page from a given position: `limit` rows, and a cursor when one row more exists. */
  function PageFrom(clock: Clock, t: Tables, f: Filter, limit: nat, before: Option<Key>): Page {
    var rows := BoundedUnion(t, Clause(f, before), limit + 1);
    var items := Take(rows, limit);
    Page(items, NextCursor(clock, items, |rows| > limit))
  }

  function PageAt(clock: Clock, t: Tables, f: Filter, limit: nat, before: Option<string>): Result<Page, CursorError> {
    match Position(clock, before)
    case Err(e) => Err(e)
    case Ok(k) => Ok(PageFrom(clock, t, f, limit, k))
  }

  /** The endpoint: the WHERE clause grows condition by condition; a malformed cursor is refused. */
  method ListEvents(clock: Clock, t: Tables, symbol: Option<string>, types: Option<string>, limit: nat, before: Option<string>)
    returns (r: Result<Page, CursorError>)
    ensures r == PageAt(clock, t, FilterOf(symbol, types), limit, before)
    ensures r.Err? <==> before.Some? && before.value != "" && Decode(clock, before.value).Err?
    ensures r.Ok? ==> |r.value.items| <= limit
    ensures r.Ok? ==> forall row :: row in r.value.items ==> row in Everything(t) && SymbolAsked(symbol, row) && TypeAsked(types, row)
  {
    PageIsAsked(clock, t, symbol, types, limit, before);
    var clause: seq<Condition> := [];
    ghost var position: Option<Key> := None;
    if before.Some? && before.value != "" {
      var decoded := Decode(clock, before.value);
      if decoded.Err? {
        return Err(decoded.error);
      }
      var older := Key(InstantOf(decoded.value.0), decoded.value.1);
      position := Some(older);
      clause := clause + [Older(older)];
    }
    assert Position(clock, before) == Ok(position) && clause == CursorConditions(position);
    clause := AddFilters(clause, symbol, types);
    var page := Fetch(clock, t, clause, limit);
    r := Ok(page);
    assert page == PageFrom(clock, t, FilterOf(symbol, types), limit, position);
  }

  method AddFilters(clause: seq<Condition>, symbol: Option<string>, types: Option<string>) returns (r: seq<Condition>)
    ensures r == clause + FilterConditions(FilterOf(symbol, types))
  {
    r := clause;
    if symbol.Some? && symbol.value != "" {
      r := r + [SymbolIs(Upper(symbol.value))];
    }
    if types.Some? && types.value != "" {
      var wanted := WantedTypes(types.value);
      if wanted != [] {
        r := r + [TypeIn(wanted)];
      }
    }
  }

  /** Runs the query and cuts the extra row off, which only says whether another page exists. */
  method Fetch(clock: Clock, t: Tables, clause: seq<Condition>, limit: nat) returns (page: Page)
    ensures var rows := BoundedUnion(t, clause, limit + 1);
            page == Page(Take(rows, limit), NextCursor(clock, Take(rows, limit), |rows| > limit))
  {
    var rows := BoundedUnion(t, clause, limit + 1);
    var items := if limit <= |rows| then rows[..limit] else rows;
    var hasMore := |rows| > limit;
    var nextCursor := None;
    if hasMore && items != [] {
      var last := items[|items| - 1];
      nextCursor := Some(Encode(clock, AssumeUtc(last.time), last.id));
    }
    page := Page(items, nextCursor);
  }

  // ---------- What the raw parameters ask for ----------

  /** u is s with its letters in upper case. */
  predicate Capitals(u: string, s: string) {
    |u| == |s| && forall i :: 0 <= i < |s| ==>
      if 'a' <= s[i] <= 'z' then 'A' <= u[i] <= 'Z' && u[i] as int - 'A' as int == s[i] as int - 'a' as int else u[i] == s[i]
  }

  lemma UpperIsCapitals(s: string, u: string)
    ensures u == Upper(s) <==> Capitals(u, s)
  {
    UpperEach(s);
    if Capitals(u, s) {
      assert forall i :: 0 <= i < |s| ==> u[i] == UpperChar(s[i]);
    }
  }

  /** A nonempty symbol asks for the rows of that symbol in capitals; an empty or absent one for all. */
  predicate SymbolAsked(symbol: Option<string>, r: Row) {
    symbol.Some? && symbol.value != "" ==> r.symbol.Some? && Capitals(r.symbol.value, symbol.value)
  }

  /** A parameter that names any type asks for the rows of the types it names; one that names none for all. */
  predicate TypeAsked(types: Option<string>, r: Row) {
    types.Some? && WantedTypes(types.value) != [] ==> r.eventType in WantedTypes(types.value)
  }

  /** The filter made of the parameters selects what they ask for. */
  lemma FilterMeaning(symbol: Option<string>, types: Option<string>, r: Row)
    ensures Selects(FilterOf(symbol, types), r) <==> SymbolAsked(symbol, r) && TypeAsked(types, r)
  {
    if symbol.Some? {
      UpperEach(symbol.value);
      if r.symbol.Some? {
        UpperIsCapitals(symbol.value, r.symbol.value);
      }
    }
    NothingWantedOfNothing();
  }

  lemma PageIsAsked(clock: Clock, t: Tables, symbol: Option<string>, types: Option<string>, limit: nat, before: Option<string>)
    ensures var r := PageAt(clock, t, FilterOf(symbol, types), limit, before);
            r.Ok? ==> |r.value.items| <= limit
                      && forall row :: row in r.value.items ==> row in Everything(t) && SymbolAsked(symbol, row) && TypeAsked(types, row)
  {
    var f := FilterOf(symbol, types);
    if Position(clock, before).Ok? {
      var k := Position(clock, before).value;
      var page := PageFrom(clock, t, f, limit, k);
      forall row | row in page.items ensures row in Everything(t) && SymbolAsked(symbol, row) && TypeAsked(types, row) {
        assert row in BoundedUnion(t, Clause(f, k), limit + 1);
        UnionHas(t, Clause(f, k), limit + 1, row);
        ClauseMeaning(f, k, row);
        FilterMeaning(symbol, types, row);
      }
    }
  }

  /** Every row of a bounded union is a row of the tables that matches. */
  lemma UnionHas(t: Tables, clause: seq<Condition>, limit: nat, row: Row)
    requires row in BoundedUnion(t, clause, limit)
    ensures row in Everything(t) && Matches(clause, row)
  {
    var both := Branch(t.market, clause, limit) + Branch(t.signal, clause, limit);
    assert row in Sort(both);
    SortHas(both, row);
    SortHas(Where(t.market, clause), row);
    SortHas(Where(t.signal, clause), row);
    WhereHas(t.market, clause, row);
    WhereHas(t.signal, clause, row);
  }

  /** The letters of a symbol may come in any case: the page is the same. */
  lemma CaseDoesNotMatter(clock: Clock, t: Tables, s: string, other: string, u: string, types: Option<string>, limit: nat,
                          before: Option<string>)
    requires Capitals(u, s) && Capitals(u, other)
    ensures PageAt(clock, t, FilterOf(Some(s), types), limit, before) == PageAt(clock, t, FilterOf(Some(other), types), limit, before)
  {
    UpperIsCapitals(s, u);
    UpperIsCapitals(other, u);
  }

  /** What a client asks for in so many words: rows of this symbol, in capitals, and of one of these types. */
  predicate AskedFor(symbol: string, names: seq<string>, r: Row) {
    && (symbol != "" ==> r.symbol.Some? && Capitals(r.symbol.value, symbol))
    && (names != [] ==> r.eventType in names)
  }

  /** The client's list of names as a parameter; no names, no parameter. */
  function TypesParameter(names: seq<string>): Option<string> {
    if names == [] then None else Some(Listed(names))
  }

  lemma ParametersMean(symbol: string, names: seq<string>, r: Row)
    requires forall i :: 0 <= i < |names| ==> IsName(names[i])
    ensures Selects(FilterOf(Some(symbol), TypesParameter(names)), r) <==> AskedFor(symbol, names, r)
  {
    FilterMeaning(Some(symbol), TypesParameter(names), r);
    if names != [] {
      ListedNamesAreWanted(names);
    }
  }

  // ---------- One page ----------

  /** Each key once across both tables, and no empty ids. */
  predicate WellKept(t: Tables) {
    DistinctKeys(Everything(t)) && forall r :: r in Everything(t) ==> r.id != ""
  }

  /** `r` is asked for, from this position, in these tables. */
  predicate Wanted(t: Tables, f: Filter, before: Option<Key>, r: Row) {
    r in Everything(t) && Selects(f, r) && Past(before, r)
  }

  lemma ListingIsWanted(t: Tables, f: Filter, before: Option<Key>, r: Row)
    ensures r in Listing(t, Clause(f, before)) <==> Wanted(t, f, before, r)
  {
    SortHas(Where(Everything(t), Clause(f, before)), r);
    WhereHas(Everything(t), Clause(f, before), r);
    ClauseMeaning(f, before, r);
  }

  lemma ListingDescends(t: Tables, f: Filter, before: Option<Key>)
    requires DistinctKeys(Everything(t))
    ensures Descending(Listing(t, Clause(f, before)))
  {
    WhereDistinct(Everything(t), Clause(f, before));
    SortDescending(Where(Everything(t), Clause(f, before)));
  }

  /** A page is the head of the listing; a cursor comes with it exactly when something is left, and then it is
      accepted back and points at the page's last row. */
  lemma PageIsHead(clock: Clock, t: Tables, f: Filter, limit: nat, before: Option<Key>)
    requires Faithful(clock) && WellKept(t) && limit > 0
    ensures var page := PageFrom(clock, t, f, limit, before);
            var all := Listing(t, Clause(f, before));
            && page.items == Take(all, limit)
            && (page.nextCursor.Some? <==> |all| > limit)
            && (page.nextCursor.Some? ==> Position(clock, page.nextCursor) == Ok(Some(KeyOf(page.items[limit - 1]))))
  {
    var all := Listing(t, Clause(f, before));
    var page := PageFrom(clock, t, f, limit, before);
    BoundedUnionIsExact(t, Clause(f, before), limit + 1);
    assert Take(Take(all, limit + 1), limit) == Take(all, limit);
    if |all| > limit {
      var last := all[limit - 1];
      assert last in all;
      ListingIsWanted(t, f, before, last);
      CursorPointsAtLast(clock, page.items);
    }
  }

  /** The cursor cut from a page is accepted back and means its last row. */
  lemma CursorPointsAtLast(clock: Clock, items: seq<Row>)
    requires Faithful(clock) && items != [] && items[|items| - 1].id != ""
    ensures Position(clock, NextCursor(clock, items, true)) == Ok(Some(KeyOf(items[|items| - 1])))
  {
    var last := items[|items| - 1];
    OwnCursorsAreAccepted(clock, last.time, last.id);
    assert Encode(clock, AssumeUtc(last.time), last.id) != "";
  }

  // ---------- The walk ----------

  /** Later states of the archive hold every row of earlier ones. */
  predicate Grows(archives: seq<Tables>) {
    forall i, r :: 0 <= i < |archives| - 1 && r in Everything(archives[i]) ==> r in Everything(archives[i + 1])
  }

  datatype Walk = Walk(items: seq<Row>, ended: bool, refused: bool)

  /** Following `next_cursor`, one page per archive state, until it is null or the states run out. */
  function Follow(clock: Clock, archives: seq<Tables>, f: Filter, limit: nat, before: Option<string>): Walk
    decreases |archives|
  {
    if archives == [] then Walk([], false, false)
    else
      match PageAt(clock, archives[0], f, limit, before)
      case Err(_) => Walk([], false, true)
      case Ok(page) =>
        if page.nextCursor.None? then Walk(page.items, true, false)
        else
          var rest := Follow(clock, archives[1..], f, limit, page.nextCursor);
          Walk(page.items + rest.items, rest.ended, rest.refused)
  }

  /** Every item of the walk is asked for by the last archive state, and lies past the starting position. */
  predicate OnlyWanted(items: seq<Row>, archives: seq<Tables>, f: Filter, before: Option<Key>)
    requires archives != []
  {
    forall r :: r in items ==> Wanted(archives[|archives| - 1], f, before, r)
  }

  lemma {:induction false} GrowsToLast(archives: seq<Tables>, r: Row)
    requires archives != [] && Grows(archives) && r in Everything(archives[0])
    ensures r in Everything(archives[|archives| - 1])
    decreases |archives|
  {
    if |archives| > 1 {
      GrowsTail(archives);
      GrowsToLast(archives[1..], r);
    }
  }

  lemma GrowsTail(archives: seq<Tables>)
    requires |archives| > 1 && Grows(archives)
    ensures Grows(archives[1..])
    ensures forall r :: r in Everything(archives[0]) ==> r in Everything(archives[1])
  {
    var tail := archives[1..];
    forall i, r | 0 <= i < |tail| - 1 && r in Everything(tail[i]) ensures r in Everything(tail[i + 1]) {
      assert tail[i] == archives[i + 1] && tail[i + 1] == archives[i + 2];
    }
  }

  /** A page followed by rows strictly older than its last one is still strictly descending. */
  lemma DescendingJoin(head: seq<Row>, tail: seq<Row>)
    requires head != [] && Descending(head) && Descending(tail)
    requires forall r :: r in tail ==> Less(KeyOf(r), KeyOf(head[|head| - 1]))
    ensures Descending(head + tail)
  {
    var all, last := head + tail, head[|head| - 1];
    forall i, j | 0 <= i < j < |all| ensures Less(KeyOf(all[j]), KeyOf(all[i])) {
      if i < |head| <= j {
        assert all[j] in tail;
        if i < |head| - 1 {
          KeyTransitive(KeyOf(all[j]), KeyOf(last), KeyOf(all[i]));
        }
      }
    }
  }

  /** What a page does not show of the listing lies past its last row. */
  lemma RestIsPast(all: seq<Row>, limit: nat, r: Row)
    requires Descending(all) && 0 < limit < |all| && r in all
    ensures r in Take(all, limit) || Less(KeyOf(r), KeyOf(all[limit - 1]))
  {
    var i :| 0 <= i < |all| && all[i] == r;
    if i < limit {
      assert Take(all, limit)[i] == r;
    }
  }

  lemma {:induction false} FollowIsComplete(clock: Clock, archives: seq<Tables>, f: Filter, limit: nat, before: Option<string>, k: Option<Key>)
    requires Faithful(clock) && limit > 0 && archives != [] && Grows(archives)
    requires forall t :: t in archives ==> WellKept(t)
    requires Position(clock, before) == Ok(k)
    ensures var walk := Follow(clock, archives, f, limit, before);
            && !walk.refused
            && Descending(walk.items)
            && OnlyWanted(walk.items, archives, f, k)
            && (walk.ended ==> forall r :: Wanted(archives[0], f, k, r) ==> r in walk.items)
    decreases |archives|
  {
    var t := archives[0];
    assert t in archives;
    var page := PageFrom(clock, t, f, limit, k);
    var all := Listing(t, Clause(f, k));
    PageIsHead(clock, t, f, limit, k);
    ListingDescends(t, f, k);
    TakeDescending(all, limit);
    forall r | r in all ensures Wanted(archives[|archives| - 1], f, k, r) {
      ListingIsWanted(t, f, k, r);
      GrowsToLast(archives, r);
    }
    if page.nextCursor.None? {
      forall r | Wanted(t, f, k, r) ensures r in page.items {
        ListingIsWanted(t, f, k, r);
      }
    } else if |archives| > 1 {
      FollowRest(clock, archives, f, limit, k);
    }
  }

  lemma FollowRest(clock: Clock, archives: seq<Tables>, f: Filter, limit: nat, k: Option<Key>)
    requires Faithful(clock) && limit > 0 && |archives| > 1 && Grows(archives)
    requires forall t :: t in archives ==> WellKept(t)
    requires |Listing(archives[0], Clause(f, k))| > limit
    ensures var page := PageFrom(clock, archives[0], f, limit, k);
            var rest := Follow(clock, archives[1..], f, limit, page.nextCursor);
            && !rest.refused
            && Descending(page.items + rest.items)
            && OnlyWanted(rest.items, archives, f, k)
            && (rest.ended ==> forall r :: Wanted(archives[0], f, k, r) ==> r in page.items || r in rest.items)
    decreases |archives|, 0
  {
    var t := archives[0];
    assert t in archives;
    var page := PageFrom(clock, t, f, limit, k);
    var all := Listing(t, Clause(f, k));
    PageIsHead(clock, t, f, limit, k);
    ListingDescends(t, f, k);
    TakeDescending(all, limit);
    var last := page.items[limit - 1];
    var k' := Some(KeyOf(last));
    GrowsTail(archives);
    FollowIsComplete(clock, archives[1..], f, limit, page.nextCursor, k');
    var rest := Follow(clock, archives[1..], f, limit, page.nextCursor);
    DescendingJoin(page.items, rest.items);
    assert last in all;
    ListingIsWanted(t, f, k, last);
    forall r | r in rest.items ensures Wanted(archives[|archives| - 1], f, k, r) {
      if k.Some? {
        KeyTransitive(KeyOf(r), KeyOf(last), k.value);
      }
    }
    if rest.ended {
      forall r | Wanted(t, f, k, r) ensures r in page.items || r in rest.items {
        ListingIsWanted(t, f, k, r);
        RestIsPast(all, limit, r);
      }
    }
  }

  /** From the first page until the cursor is null, while rows keep being inserted: no page is refused, items come
      strictly newest first, so none twice; each is a row the filter selects; and every selected row that was there
      at the start is among them. */
  lemma WalkListsEverything(clock: Clock, archives: seq<Tables>, f: Filter, limit: nat)
    requires Faithful(clock) && limit > 0 && archives != [] && Grows(archives)
    requires forall t :: t in archives ==> WellKept(t)
    ensures var walk := Follow(clock, archives, f, limit, None);
            && !walk.refused
            && Descending(walk.items)
            && (forall r :: r in walk.items ==> r in Everything(archives[|archives| - 1]) && Selects(f, r))
            && (walk.ended ==> forall r :: r in Everything(archives[0]) && Selects(f, r) ==> r in walk.items)
  {
    FollowIsComplete(clock, archives, f, limit, None, None);
  }

  /** The walk of a client that asks for a symbol, in any case, and lists types by name, either of which may be left out:
      exactly the rows asked for, each once and newest first, while rows keep being inserted. */
  lemma WalkListsWhatIsAsked(clock: Clock, archives: seq<Tables>, symbol: string, names: seq<string>, limit: nat)
    requires Faithful(clock) && limit > 0 && archives != [] && Grows(archives)
    requires forall t :: t in archives ==> WellKept(t)
    requires forall i :: 0 <= i < |names| ==> IsName(names[i])
    ensures var walk := Follow(clock, archives, FilterOf(Some(symbol), TypesParameter(names)), limit, None);
            && !walk.refused && Descending(walk.items)
            && (forall r :: r in walk.items ==> r in Everything(archives[|archives| - 1]) && AskedFor(symbol, names, r))
            && (walk.ended ==> forall r :: r in Everything(archives[0]) && AskedFor(symbol, names, r) ==> r in walk.items)
  {
    var f := FilterOf(Some(symbol), TypesParameter(names));
    WalkListsEverything(clock, archives, f, limit);
    forall r ensures Selects(f, r) <==> AskedFor(symbol, names, r) {
      ParametersMean(symbol, names, r);
    }
  }

  /** A parameter of blanks and commas names no type and filters nothing. */
  lemma BlanksFilterNothing(symbol: string, types: string, r: Row)
    requires forall i :: 0 <= i < |types| ==> IsSpace(types[i]) || types[i] == ','
    ensures Selects(FilterOf(Some(symbol), Some(types)), r) <==> AskedFor(symbol, [], r)
  {
    BlanksNameNothing(types);
    FilterMeaning(Some(symbol), Some(types), r);
  }

  // ---------- While the archiver is at work ----------

  /** The archive after each of these many deliveries. */
  function Snapshots(events: seq<Row>, cuts: seq<nat>): (archives: seq<Tables>)
    requires forall i :: 0 <= i < |cuts| ==> cuts[i] <= |events|
    ensures |archives| == |cuts|
  {
    seq(|cuts|, i requires 0 <= i < |cuts| => ArchivedAll(Tables([], []), events[..cuts[i]]))
  }

  lemma SnapshotWellKept(events: seq<Row>, cut: nat)
    requires Identified(events) && cut <= |events| && forall r :: r in events ==> r.id != ""
    ensures WellKept(ArchivedAll(Tables([], []), events[..cut]))
  {
    ArchiveHoldsEachKeyOnce(events[..cut]);
  }

  lemma SnapshotGrows(events: seq<Row>, low: nat, high: nat, r: Row)
    requires Identified(events) && low <= high <= |events|
    requires r in Everything(ArchivedAll(Tables([], []), events[..low]))
    ensures r in Everything(ArchivedAll(Tables([], []), events[..high]))
  {
    var empty := Tables([], []);
    assert events[..high] == events[..low] + events[low..high];
    ArchivedAllAppend(empty, events[..low], events[low..high]);
    ArchivingAll(empty, events[..low]);
    ArchivingAll(ArchivedAll(empty, events[..low]), events[low..high]);
  }

  /** The walk against the archiver itself: one page after each of any growing numbers of deliveries, duplicates
      included. Every selected event archived before the first page is listed, strictly newest first and none twice. */
  lemma WalkOverDeliveries(clock: Clock, events: seq<Row>, cuts: seq<nat>, f: Filter, limit: nat)
    requires Faithful(clock) && limit > 0 && cuts != []
    requires Identified(events) && forall r :: r in events ==> r.id != ""
    requires forall i :: 0 <= i < |cuts| ==> cuts[i] <= |events|
    requires forall i, j :: 0 <= i < j < |cuts| ==> cuts[i] <= cuts[j]
    ensures var archives := Snapshots(events, cuts);
            var walk := Follow(clock, archives, f, limit, None);
            && !walk.refused
            && Descending(walk.items)
            && (forall r :: r in walk.items ==> r in events && Selects(f, r))
            && (walk.ended ==> forall r :: r in Everything(archives[0]) && Selects(f, r) ==> r in walk.items)
  {
    var archives := Snapshots(events, cuts);
    SnapshotsKeptAndGrow(events, cuts);
    WalkListsEverything(clock, archives, f, limit);
    forall r | r in Everything(archives[|archives| - 1]) ensures r in events {
      SnapshotDelivered(events, cuts[|cuts| - 1], r);
    }
  }

  lemma SnapshotsKeptAndGrow(events: seq<Row>, cuts: seq<nat>)
    requires Identified(events) && forall r :: r in events ==> r.id != ""
    requires forall i :: 0 <= i < |cuts| ==> cuts[i] <= |events|
    requires forall i, j :: 0 <= i < j < |cuts| ==> cuts[i] <= cuts[j]
    ensures Grows(Snapshots(events, cuts)) && forall t :: t in Snapshots(events, cuts) ==> WellKept(t)
  {
    var archives := Snapshots(events, cuts);
    forall t | t in archives ensures WellKept(t) {
      var i :| 0 <= i < |archives| && archives[i] == t;
      SnapshotWellKept(events, cuts[i]);
    }
    forall i, r | 0 <= i < |archives| - 1 && r in Everything(archives[i]) ensures r in Everything(archives[i + 1]) {
      SnapshotGrows(events, cuts[i], cuts[i + 1], r);
    }
  }

  lemma SnapshotDelivered(events: seq<Row>, cut: nat, r: Row)
    requires cut <= |events| && r in Everything(ArchivedAll(Tables([], []), events[..cut]))
    ensures r in events
  {
    ArchivingAll(Tables([], []), events[..cut]);
    assert r in events[..cut];
  }

  // ---------- On a fixed archive ----------

  function Copies(t: Tables, n: nat): seq<Tables> {
    if n == 0 then [] else [t] + Copies(t, n - 1)
  }

  lemma {:induction false} CopiesAreCopies(t: Tables, n: nat)
    ensures |Copies(t, n)| == n && forall i :: 0 <= i < n ==> Copies(t, n)[i] == t
    decreases n
  {
    if n > 0 {
      CopiesAreCopies(t, n - 1);
    }
  }

  /** Rows that fit on `n` pages. */
  function Capacity(n: nat, limit: nat): nat {
    if n == 0 then 0 else limit + Capacity(n - 1, limit)
  }

  /** The listing past a page's last row is the rest of the listing. */
  lemma RestOfListing(t: Tables, f: Filter, k: Option<Key>, limit: nat)
    requires DistinctKeys(Everything(t)) && 0 < limit < |Listing(t, Clause(f, k))|
    ensures var all := Listing(t, Clause(f, k));
            Listing(t, Clause(f, Some(KeyOf(all[limit - 1])))) == all[limit..]
  {
    var all := Listing(t, Clause(f, k));
    var last := all[limit - 1];
    var k' := Some(KeyOf(last));
    var rest := Listing(t, Clause(f, k'));
    ListingDescends(t, f, k);
    ListingDescends(t, f, k');
    assert last in all;
    ListingIsWanted(t, f, k, last);
    forall r ensures r in rest <==> r in all[limit..] {
      ListingIsWanted(t, f, k, r);
      ListingIsWanted(t, f, k', r);
      if r in rest {
        if k.Some? {
          KeyTransitive(KeyOf(r), KeyOf(last), k.value);
        }
        var i :| 0 <= i < |all| && all[i] == r;
        KeyTotal(KeyOf(r), KeyOf(last));
        assert i >= limit;
        assert all[limit..][i - limit] == r;
      }
      if r in all[limit..] {
        var i :| 0 <= i < |all| - limit && all[limit..][i] == r;
        assert all[limit + i] == r && r in all;
      }
    }
    DescendingUnique(rest, all[limit..]);
  }

  lemma {:induction false} FixedWalk(clock: Clock, t: Tables, f: Filter, limit: nat, n: nat, before: Option<string>, k: Option<Key>)
    requires Faithful(clock) && WellKept(t) && 0 < limit && 0 < n
    requires Position(clock, before) == Ok(k) && |Listing(t, Clause(f, k))| <= Capacity(n, limit)
    ensures Follow(clock, Copies(t, n), f, limit, before) == Walk(Listing(t, Clause(f, k)), true, false)
    decreases n, 1
  {
    var all := Listing(t, Clause(f, k));
    var page := PageFrom(clock, t, f, limit, k);
    PageIsHead(clock, t, f, limit, k);
    FollowOne(clock, t, f, limit, n, before);
    if page.nextCursor.Some? {
      FixedRest(clock, t, f, limit, n, page.nextCursor, k);
      assert all == Take(all, limit) + all[limit..];
    }
  }

  lemma FixedRest(clock: Clock, t: Tables, f: Filter, limit: nat, n: nat, before: Option<string>, k: Option<Key>)
    requires Faithful(clock) && WellKept(t) && 0 < limit && 0 < n
    requires var all := Listing(t, Clause(f, k));
             limit < |all| <= Capacity(n, limit) && Position(clock, before) == Ok(Some(KeyOf(all[limit - 1])))
    ensures Follow(clock, Copies(t, n - 1), f, limit, before) == Walk(Listing(t, Clause(f, k))[limit..], true, false)
    decreases n, 0
  {
    assert n > 1;
    RestOfListing(t, f, k, limit);
    FixedWalk(clock, t, f, limit, n - 1, before, Some(KeyOf(Listing(t, Clause(f, k))[limit - 1])));
  }

  lemma FollowOne(clock: Clock, t: Tables, f: Filter, limit: nat, n: nat, before: Option<string>)
    requires 0 < n && Position(clock, before).Ok?
    ensures var page := PageFrom(clock, t, f, limit, Position(clock, before).value);
            Follow(clock, Copies(t, n), f, limit, before)
            == if page.nextCursor.None? then Walk(page.items, true, false)
               else var rest := Follow(clock, Copies(t, n - 1), f, limit, page.nextCursor);
                    Walk(page.items + rest.items, rest.ended, rest.refused)
  {
    assert Copies(t, n)[0] == t && Copies(t, n)[1..] == Copies(t, n - 1);
  }

  /** On an archive that does not change the pages put together are the plain listing, and the walk ends by itself. */
  lemma FixedWalkIsListing(clock: Clock, t: Tables, f: Filter, limit: nat, pages: nat)
    requires Faithful(clock) && WellKept(t) && 0 < limit && 0 < pages
    requires |Listing(t, Clause(f, None))| <= Capacity(pages, limit)
    ensures Follow(clock, Copies(t, pages), f, limit, None) == Walk(Listing(t, Clause(f, None)), true, false)
  {
    FixedWalk(clock, t, f, limit, pages, None, None);
  }

  /** The walk relies on one table per key: of two rows that share a key across the tables, the second falls in the
      gap between two pages and is never listed. */
  lemma SharedKeyFallsBetweenPages(clock: Clock, a: Row, b: Row)
    requires Faithful(clock) && KeyOf(a) == KeyOf(b) && a != b && a.id != ""
    ensures var t := Tables([a], [b]);
            var walk := Follow(clock, [t, t], Filter(None, []), 1, None);
            walk.ended && |walk.items| == 1 && walk.items[0] in [a, b]
  {
    var t, f := Tables([a], [b]), Filter(None, []);
    var page := PageFrom(clock, t, f, 1, None);
    SharedFirstPage(clock, a, b);
    SharedSecondPage(clock, a, b, Some(KeyOf(a)));
    assert [t, t][1..] == [t] && [t][1..] == [];
    assert Follow(clock, [t], f, 1, page.nextCursor) == Walk([], true, false);
  }

  lemma SharedFirstPage(clock: Clock, a: Row, b: Row)
    requires Faithful(clock) && KeyOf(a) == KeyOf(b) && a != b && a.id != ""
    ensures var page := PageFrom(clock, Tables([a], [b]), Filter(None, []), 1, None);
            && |page.items| == 1 && page.items[0] in [a, b] && page.nextCursor.Some?
            && Position(clock, page.nextCursor) == Ok(Some(KeyOf(a)))
  {
    var t, f := Tables([a], [b]), Filter(None, []);
    var page := PageFrom(clock, t, f, 1, None);
    SharedUnion(a, b);
    assert |page.items| == 1;
    var last := page.items[0];
    OwnCursorsAreAccepted(clock, last.time, last.id);
    assert Encode(clock, AssumeUtc(last.time), last.id) != "";
  }

  lemma SharedUnion(a: Row, b: Row)
    requires KeyOf(a) == KeyOf(b)
    ensures Clause(Filter(None, []), None) == []
    ensures var u := BoundedUnion(Tables([a], [b]), [], 2); |u| == 2 && u[0] in [a, b]
  {
    KeyTotal(KeyOf(a), KeyOf(b));
    SingleBranch(a, [], 2);
    SingleBranch(b, [], 2);
    var both := [a] + [b];
    assert both[1..] == [b] && [b][1..] == [];
    assert Sort([b]) == [b];
    assert |Sort(both)| == 2 && Sort(both)[0] in [a, b];
  }

  lemma SharedSecondPage(clock: Clock, a: Row, b: Row, k: Option<Key>)
    requires KeyOf(a) == KeyOf(b) && k == Some(KeyOf(a))
    ensures PageFrom(clock, Tables([a], [b]), Filter(None, []), 1, k) == Page([], None)
  {
    var f := Filter(None, []);
    KeyTotal(KeyOf(a), KeyOf(b));
    ClauseMeaning(f, k, a);
    ClauseMeaning(f, k, b);
    assert [a][1..] == [];
    assert Where([a], Clause(f, k)) == [] && Where([b], Clause(f, k)) == [];
  }

  lemma SingleBranch(r: Row, clause: seq<Condition>, limit: nat)
    requires Matches(clause, r) && limit > 0
    ensures Branch([r], clause, limit) == [r]
  {
    assert [r][1..] == [];
    assert Where([r], clause) == [r];
    assert Sort([r]) == Insert(r, Sort([]));
  }
}
