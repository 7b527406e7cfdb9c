/**
 * Rejection reasons, grouped twice: by (stage, reason) for the funnel and by reason for one stage's
 * drawer, biggest first.
 */
module Funnel {
  import opened Reasons

  /** A dictionary in insertion order: each key once, with its running count. */
  datatype Entry<K> = Entry(key: K, count: int)

  /** Adds to the key's count in place, or appends the key. */
  function Add<K(==)>(table: seq<Entry<K>>, key: K, count: int): seq<Entry<K>> {
    if table == [] then [Entry(key, count)]
    else if table[0].key == key then [Entry(key, table[0].count + count)] + table[1..]
    else [table[0]] + Add(table[1..], key, count)
  }

  /** Puts an entry before the first one that does not count more. */
  function Insert<K>(e: Entry<K>, table: seq<Entry<K>>): seq<Entry<K>> {
    if table == [] || table[0].count <= e.count then [e] + table
    else [table[0]] + Insert(e, table[1..])
  }

  /** Biggest first; entries that count the same keep their order. */
  function BiggestFirst<K>(table: seq<Entry<K>>): seq<Entry<K>> {
    if table == [] then [] else Insert(table[0], BiggestFirst(table[1..]))
  }

  predicate Descending<K>(table: seq<Entry<K>>) {
    forall i, j :: 0 <= i < j < |table| ==> table[i].count >= table[j].count
  }

  /** The entries with exactly this count, in order. */
  function Ties<K>(table: seq<Entry<K>>, count: int): seq<Entry<K>> {
    if table == [] then []
    else if table[0].count == count then [table[0]] + Ties(table[1..], count)
    else Ties(table[1..], count)
  }

  lemma {:induction false} InsertKeepsOrder<K>(e: Entry<K>, table: seq<Entry<K>>, count: int)
    requires Descending(table)
    ensures Descending(Insert(e, table))
    ensures Insert(e, table) != [] && Insert(e, table)[0].count == if table == [] || table[0].count <= e.count then e.count else table[0].count
    ensures Ties(Insert(e, table), count) == if e.count == count then [e] + Ties(table, count) else Ties(table, count)
    decreases |table|
  {
    if table != [] && table[0].count > e.count {
      InsertKeepsOrder(e, table[1..], count);
      var rest := Insert(e, table[1..]);
      assert Insert(e, table)[1..] == rest;
      assert forall i :: 0 <= i < |rest| ==> rest[0].count >= rest[i].count;
    } else {
      assert ([e] + table)[1..] == table;
    }
  }

  /** The sort is descending and stable: within each count, the same entries in the same order. */
  lemma {:induction false} BiggestFirstIsStable<K>(table: seq<Entry<K>>, count: int)
    ensures Descending(BiggestFirst(table))
    ensures Ties(BiggestFirst(table), count) == Ties(table, count)
    decreases |table|
  {
    if table != [] {
      BiggestFirstIsStable(table[1..], count);
      InsertKeepsOrder(table[0], BiggestFirst(table[1..]), count);
    }
  }

  datatype Block = Block(stage: string, reason: string, count: int)

  type StageReason = (string, string)

  /** The funnel's grouping: the stage stays part of the identity. */
  function Grouped(rows: seq<Block>): seq<Entry<StageReason>> {
    if rows == [] then []
    else
      var last := rows[|rows| - 1];
      Add(Grouped(rows[..|rows| - 1]), (last.stage, CollapseReason(last.reason)), last.count)
  }

  function GroupedByReason(rows: seq<Block>): seq<Entry<string>> {
    if rows == [] then []
    else
      var last := rows[|rows| - 1];
      Add(GroupedByReason(rows[..|rows| - 1]), CollapseReason(last.reason), last.count)
  }

  /** The totals are a dictionary: a key already there is increased where it stands. */
  method Increase<K(==)>(table: seq<Entry<K>>, key: K, count: int) returns (r: seq<Entry<K>>)
    ensures r == Add(table, key, count)
  {
    var i := 0;
    while i < |table| && table[i].key != key
      invariant 0 <= i <= |table|
      invariant Add(table, key, count) == table[..i] + Add(table[i..], key, count)
    {
      i := i + 1;
    }
    if i < |table| {
      r := table[i := Entry(key, table[i].count + count)];
    } else {
      r := table + [Entry(key, count)];
    }
  }

  method MergeBlockReasons(rows: seq<Block>) returns (merged: seq<Entry<StageReason>>)
    ensures merged == BiggestFirst(Grouped(rows))
  {
    var totals: seq<Entry<StageReason>> := [];
    var i := 0;
    while i < |rows|
      invariant 0 <= i <= |rows| && totals == Grouped(rows[..i])
    {
      totals := Increase(totals, (rows[i].stage, CollapseReason(rows[i].reason)), rows[i].count);
      assert rows[..i + 1][..i] == rows[..i];
      i := i + 1;
    }
    assert rows[..i] == rows;
    merged := BiggestFirst(totals);
  }

  /** One stage's drawer. */
  method ReasonBreakdown(rows: seq<Block>) returns (breakdown: seq<Entry<string>>)
    ensures breakdown == BiggestFirst(GroupedByReason(rows))
  {
    var totals: seq<Entry<string>> := [];
    var i := 0;
    while i < |rows|
      invariant 0 <= i <= |rows| && totals == GroupedByReason(rows[..i])
    {
      totals := Increase(totals, CollapseReason(rows[i].reason), rows[i].count);
      assert rows[..i + 1][..i] == rows[..i];
      i := i + 1;
    }
    assert rows[..i] == rows;
    breakdown := BiggestFirst(totals);
  }

  /** The rows of one stage, in order. */
  function RowsOf(rows: seq<Block>, stage: string): seq<Block> {
    if rows == [] then []
    else
      var before, last := RowsOf(rows[..|rows| - 1], stage), rows[|rows| - 1];
      if last.stage == stage then before + [last] else before
  }

  /** The entries of one stage, in order, named by their reason alone. */
  function Drawer(table: seq<Entry<StageReason>>, stage: string): seq<Entry<string>> {
    if table == [] then []
    else if table[0].key.0 == stage then [Entry(table[0].key.1, table[0].count)] + Drawer(table[1..], stage)
    else Drawer(table[1..], stage)
  }

  lemma {:induction false} AddWithinStage(table: seq<Entry<StageReason>>, key: StageReason, count: int, stage: string)
    ensures Drawer(Add(table, key, count), stage)
         == if key.0 == stage then Add(Drawer(table, stage), key.1, count) else Drawer(table, stage)
    decreases |table|
  {
    if table == [] {
    } else if table[0].key == key {
      assert Add(table, key, count)[1..] == table[1..];
      if key.0 == stage {
        assert Drawer(table, stage)[1..] == Drawer(table[1..], stage);
      }
    } else {
      AddWithinStage(table[1..], key, count, stage);
      assert Add(table, key, count)[1..] == Add(table[1..], key, count);
      if table[0].key.0 == stage {
        assert Drawer(table, stage)[1..] == Drawer(table[1..], stage);
      }
    }
  }

  lemma {:induction false} GroupingWithinStage(rows: seq<Block>, stage: string)
    ensures Drawer(Grouped(rows), stage) == GroupedByReason(RowsOf(rows, stage))
    decreases |rows|
  {
    if rows != [] {
      var before, last := rows[..|rows| - 1], rows[|rows| - 1];
      GroupingWithinStage(before, stage);
      AddWithinStage(Grouped(before), (last.stage, CollapseReason(last.reason)), last.count, stage);
      if last.stage == stage {
        assert RowsOf(rows, stage)[..|RowsOf(before, stage)|] == RowsOf(before, stage);
      }
    }
  }

  lemma {:induction false} DrawerHead(table: seq<Entry<StageReason>>, stage: string, bound: int)
    requires forall i :: 0 <= i < |table| ==> table[i].count <= bound
    ensures forall i :: 0 <= i < |Drawer(table, stage)| ==> Drawer(table, stage)[i].count <= bound
    decreases |table|
  {
    if table != [] {
      DrawerHead(table[1..], stage, bound);
    }
  }

  lemma {:induction false} InsertWithinStage(e: Entry<StageReason>, table: seq<Entry<StageReason>>, stage: string)
    requires Descending(table)
    ensures Drawer(Insert(e, table), stage)
         == if e.key.0 == stage then Insert(Entry(e.key.1, e.count), Drawer(table, stage)) else Drawer(table, stage)
    decreases |table|
  {
    if table == [] || table[0].count <= e.count {
      assert Insert(e, table)[1..] == table;
      DrawerHead(table, stage, e.count);
    } else {
      InsertWithinStage(e, table[1..], stage);
      assert Insert(e, table)[1..] == Insert(e, table[1..]);
      if table[0].key.0 == stage {
        assert Drawer(table, stage)[1..] == Drawer(table[1..], stage);
      }
    }
  }

  lemma {:induction false} SortingWithinStage(table: seq<Entry<StageReason>>, stage: string)
    ensures Drawer(BiggestFirst(table), stage) == BiggestFirst(Drawer(table, stage))
    decreases |table|
  {
    if table != [] {
      SortingWithinStage(table[1..], stage);
      BiggestFirstIsStable(table[1..], 0);
      InsertWithinStage(table[0], BiggestFirst(table[1..]), stage);
      if table[0].key.0 == stage {
        assert Drawer(table, stage)[1..] == Drawer(table[1..], stage);
      }
    }
  }

  /** The two panels agree: one stage of the merged funnel list is that stage's own breakdown, order included. */
  lemma DrawerAgreesWithFunnel(rows: seq<Block>, stage: string)
    ensures Drawer(BiggestFirst(Grouped(rows)), stage) == BiggestFirst(GroupedByReason(RowsOf(rows, stage)))
  {
    SortingWithinStage(Grouped(rows), stage);
    GroupingWithinStage(rows, stage);
  }

  /** What one key holds in a table. */
  function CountFor<K(==)>(table: seq<Entry<K>>, key: K): int {
    if table == [] then 0 else (if table[0].key == key then table[0].count else 0) + CountFor(table[1..], key)
  }

  function Total<K>(table: seq<Entry<K>>): int {
    if table == [] then 0 else table[0].count + Total(table[1..])
  }

  function TotalOf(rows: seq<Block>): int {
    if rows == [] then 0 else TotalOf(rows[..|rows| - 1]) + rows[|rows| - 1].count
  }

  function Keys<K(==)>(table: seq<Entry<K>>): set<K> {
    if table == [] then {} else {table[0].key} + Keys(table[1..])
  }

  predicate KeysDistinct<K(==)>(table: seq<Entry<K>>) {
    table == [] || (table[0].key !in Keys(table[1..]) && KeysDistinct(table[1..]))
  }

  lemma {:induction false} AddCounts<K>(table: seq<Entry<K>>, key: K, count: int, probe: K)
    requires KeysDistinct(table)
    ensures KeysDistinct(Add(table, key, count))
    ensures Keys(Add(table, key, count)) == Keys(table) + {key}
    ensures CountFor(Add(table, key, count), probe) == CountFor(table, probe) + if probe == key then count else 0
    ensures Total(Add(table, key, count)) == Total(table) + count
    decreases |table|
  {
    var after := Add(table, key, count);
    if table != [] && table[0].key != key {
      AddCounts(table[1..], key, count, probe);
      assert after[1..] == Add(table[1..], key, count);
    } else if table != [] {
      assert after[1..] == table[1..];
    }
  }

  lemma {:induction false} InsertCounts<K>(e: Entry<K>, table: seq<Entry<K>>, probe: K)
    ensures CountFor(Insert(e, table), probe) == CountFor([e], probe) + CountFor(table, probe)
    ensures Total(Insert(e, table)) == e.count + Total(table)
    decreases |table|
  {
    assert CountFor([e], probe) == if e.key == probe then e.count else 0;
    if table == [] || table[0].count <= e.count {
      assert ([e] + table)[1..] == table;
    } else {
      InsertCounts(e, table[1..], probe);
      assert Insert(e, table)[1..] == Insert(e, table[1..]);
    }
  }

  lemma {:induction false} SortingCounts<K>(table: seq<Entry<K>>, probe: K)
    ensures CountFor(BiggestFirst(table), probe) == CountFor(table, probe)
    ensures Total(BiggestFirst(table)) == Total(table)
    decreases |table|
  {
    if table != [] {
      SortingCounts(table[1..], probe);
      InsertCounts(table[0], BiggestFirst(table[1..]), probe);
    }
  }

  /** The rejections of one stage whose reason collapses to this one. */
  function RejectionsFor(rows: seq<Block>, key: StageReason): int {
    if rows == [] then 0
    else
      var last := rows[|rows| - 1];
      RejectionsFor(rows[..|rows| - 1], key)
      + if last.stage == key.0 && CollapseReason(last.reason) == key.1 then last.count else 0
  }

  lemma {:induction false} GroupingCounts(rows: seq<Block>, key: StageReason)
    ensures KeysDistinct(Grouped(rows))
    ensures CountFor(Grouped(rows), key) == RejectionsFor(rows, key)
    ensures Total(Grouped(rows)) == TotalOf(rows)
    decreases |rows|
  {
    if rows != [] {
      var before, last := rows[..|rows| - 1], rows[|rows| - 1];
      GroupingCounts(before, key);
      AddCounts(Grouped(before), (last.stage, CollapseReason(last.reason)), last.count, key);
    }
  }

  /** The merged list loses and double-counts nothing: per stage and reason, and in total. */
  lemma FunnelConservesRejections(rows: seq<Block>, key: StageReason)
    ensures CountFor(BiggestFirst(Grouped(rows)), key) == RejectionsFor(rows, key)
    ensures Total(BiggestFirst(Grouped(rows))) == TotalOf(rows)
  {
    GroupingCounts(rows, key);
    SortingCounts(Grouped(rows), key);
  }

  const WIDTH: int := 10
  const BUCKETS: int := 10

  /** The bar a raw score bucket is counted in: a perfect score is folded into the top bar. */
  function BarOf(raw: int): int {
    if raw / WIDTH < BUCKETS - 1 then raw / WIDTH else BUCKETS - 1
  }

  function CountInBar(buckets: seq<(int, int)>, bar: int): int {
    if buckets == [] then 0
    else
      var last := buckets[|buckets| - 1];
      CountInBar(buckets[..|buckets| - 1], bar) + if BarOf(last.0) == bar then last.1 else 0
  }

  /** The dense histogram: every bar there, zero where nothing scored; negative buckets are dropped. */
  method Histogram(buckets: seq<(int, int)>) returns (bars: seq<(int, int)>)
    ensures |bars| == BUCKETS
    ensures forall b :: 0 <= b < BUCKETS ==> bars[b] == (b * WIDTH, CountInBar(buckets, b))
  {
    var counts := new int[BUCKETS](_ => 0);
    var i := 0;
    while i < |buckets|
      invariant 0 <= i <= |buckets|
      invariant forall b :: 0 <= b < BUCKETS ==> counts[b] == CountInBar(buckets[..i], b)
    {
      assert buckets[..i + 1][..i] == buckets[..i];
      var index := if buckets[i].0 / WIDTH < BUCKETS - 1 then buckets[i].0 / WIDTH else BUCKETS - 1;
      if index >= 0 {
        counts[index] := counts[index] + buckets[i].1;
      }
      i := i + 1;
    }
    assert buckets[..i] == buckets;
    bars := seq(BUCKETS, b requires 0 <= b < BUCKETS reads counts => (b * WIDTH, counts[b]));
  }

  function AllBars(buckets: seq<(int, int)>, n: nat): int {
    if n == 0 then 0 else AllBars(buckets, n - 1) + CountInBar(buckets, n - 1)
  }

  function NonNegative(buckets: seq<(int, int)>): int {
    if buckets == [] then 0
    else NonNegative(buckets[..|buckets| - 1]) + if buckets[|buckets| - 1].0 >= 0 then buckets[|buckets| - 1].1 else 0
  }

  lemma {:induction false} BarsOneMore(buckets: seq<(int, int)>, n: nat)
    requires buckets != [] && n <= BUCKETS
    ensures var last := buckets[|buckets| - 1];
      AllBars(buckets, n) == AllBars(buckets[..|buckets| - 1], n) + if 0 <= BarOf(last.0) < n then last.1 else 0
    decreases n
  {
    if n > 0 {
      BarsOneMore(buckets, n - 1);
    }
  }

  /** No signal vanishes from the chart, the perfect scores included. */
  lemma {:induction false} HistogramConservesSignals(buckets: seq<(int, int)>)
    ensures AllBars(buckets, BUCKETS) == NonNegative(buckets)
    decreases |buckets|
  {
    if buckets == [] {
      NoBars(BUCKETS);
    } else {
      HistogramConservesSignals(buckets[..|buckets| - 1]);
      BarsOneMore(buckets, BUCKETS);
    }
  }

  lemma {:induction false} NoBars(n: nat)
    ensures AllBars([], n) == 0
    decreases n
  {
    if n > 0 {
      NoBars(n - 1);
    }
  }

  /** Ten points to a bar: a bucket counts in the bar whose ten points it is among, and in the top one from ninety on. */
  lemma BarsOfTen(raw: int, bar: int)
    requires 0 <= bar < 10
    ensures BarOf(raw) == bar <==> 10 * bar <= raw && (raw < 10 * bar + 10 || bar == 9)
  {
  }

  // ---------- The order of the groups ----------

  /** The keys of a table, in order. */
  function KeyList<K>(table: seq<Entry<K>>): seq<K> {
    if table == [] then [] else [table[0].key] + KeyList(table[1..])
  }

  /** The stage and collapsed reason of each row when it is the first of its kind, in order. */
  function FirstSeen(rows: seq<Block>): seq<StageReason> {
    if rows == [] then []
    else
      var before, last := FirstSeen(rows[..|rows| - 1]), rows[|rows| - 1];
      var key := (last.stage, CollapseReason(last.reason));
      if key in before then before else before + [key]
  }

  lemma {:induction false} AddKeepsKeys<K>(table: seq<Entry<K>>, key: K, count: int)
    ensures KeyList(Add(table, key, count)) == if key in KeyList(table) then KeyList(table) else KeyList(table) + [key]
    decreases |table|
  {
    if table == [] {
      assert KeyList([Entry(key, count)]) == [key];
    } else {
      var after := Add(table, key, count);
      if table[0].key != key {
        AddKeepsKeys(table[1..], key, count);
        assert after[1..] == Add(table[1..], key, count);
      } else {
        assert after[1..] == table[1..];
      }
      assert KeyList(table) == [table[0].key] + KeyList(table[1..]);
    }
  }

  /** Before the sort the groups stand in the order their first rows came in. */
  lemma {:induction false} GroupsInFirstSeenOrder(rows: seq<Block>)
    ensures KeyList(Grouped(rows)) == FirstSeen(rows)
    decreases |rows|
  {
    if rows != [] {
      var before, last := rows[..|rows| - 1], rows[|rows| - 1];
      GroupsInFirstSeenOrder(before);
      AddKeepsKeys(Grouped(before), (last.stage, CollapseReason(last.reason)), last.count);
    }
  }
}
