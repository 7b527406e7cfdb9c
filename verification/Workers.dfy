/** Any number of triage workers on one feature store: each reads a symbol's features in one await and writes them back,
    with its event folded in, in another. */
module Workers {
  import opened Triage
  import opened Wrappers

  datatype Folder = Idle | Writing(event: Event, read: Features)

  /** `log` is history: the events in the order they were written. */
  datatype Shared = Shared(store: map<Symbol, Features>, folders: seq<Folder>, log: seq<Event>)

  datatype Move = Reads(event: Event) | Writes(folder: nat) | Fails(folder: nat)

  function Written(s: Shared, i: nat): Shared
    requires i < |s.folders| && s.folders[i].Writing?
  {
    var e := s.folders[i].event;
    Shared(s.store[e.symbol := Merge(s.folders[i].read, e.fields)], s.folders[i := Idle], s.log + [e])
  }

  function MoveOn(s: Shared, m: Move): Shared {
    match m
    case Reads(e) => s.(folders := s.folders + [Writing(e, Stored(s.store, e.symbol))])
    case Writes(i) => if i < |s.folders| && s.folders[i].Writing? then Written(s, i) else s
    case Fails(i) => if i < |s.folders| then s.(folders := s.folders[i := Idle]) else s
  }

  /** The store holds, of every symbol, what its events folded one after the other give: no event has been erased. */
  ghost predicate NothingErased(s: Shared) {
    forall x :: Stored(s.store, x) == Fold(s.log, x)
  }

  /** Apart from the fields this event carries, what the worker read is what is stored now. */
  predicate Agrees(stored: Features, read: Features, fields: map<Key, Option<Value>>) {
    && (forall k :: k in stored && k !in Present(fields) ==> k in read && read[k] == stored[k])
    && (forall k :: k in read && k !in Present(fields) ==> k in stored)
  }

  lemma MergesAlikeIff(stored: Features, read: Features, fields: map<Key, Option<Value>>)
    ensures Merge(read, fields) == Merge(stored, fields) <==> Agrees(stored, read, fields)
  {
    var kept, lost := Merge(stored, fields), Merge(read, fields);
    if kept == lost {
      forall k | k in stored && k !in Present(fields) ensures k in read && read[k] == stored[k] {
        assert kept[k] == lost[k] && k in lost;
      }
      forall k | k in read && k !in Present(fields) ensures k in stored {
        assert k in lost && k in kept;
      }
    }
  }

  /** A write erases nothing exactly when, but for the fields it carries, nothing was written to its symbol since it read. */
  lemma WriteErasesNothingIff(s: Shared, i: nat)
    requires NothingErased(s) && i < |s.folders| && s.folders[i].Writing?
    ensures var e := s.folders[i].event;
            NothingErased(Written(s, i)) <==> Agrees(Stored(s.store, e.symbol), s.folders[i].read, e.fields)
  {
    var e, t := s.folders[i].event, Written(s, i);
    MergesAlikeIff(Stored(s.store, e.symbol), s.folders[i].read, e.fields);
    assert Stored(t.store, e.symbol) == Merge(s.folders[i].read, e.fields);
    FoldAppend(s.log, e, e.symbol);
    forall x | x != e.symbol ensures Stored(t.store, x) == Fold(t.log, x) {
      FoldAppend(s.log, e, x);
    }
  }

  /** No write of the run meets a store that differs, outside the fields it carries, from what it read. */
  predicate WritesAgree(s: Shared, moves: seq<Move>)
    decreases |moves|
  {
    moves == [] || (WriteAgrees(s, moves[0]) && WritesAgree(MoveOn(s, moves[0]), moves[1..]))
  }

  predicate WriteAgrees(s: Shared, m: Move) {
    m.Writes? && m.folder < |s.folders| && s.folders[m.folder].Writing? ==>
      var f := s.folders[m.folder];
      Agrees(Stored(s.store, f.event.symbol), f.read, f.event.fields)
  }

  /** At no point of the run has an event been erased. */
  ghost predicate NeverErased(s: Shared, moves: seq<Move>)
    decreases |moves|
  {
    NothingErased(s) && (moves != [] ==> NeverErased(MoveOn(s, moves[0]), moves[1..]))
  }

  lemma MoveErasesNothingIff(s: Shared, m: Move)
    requires NothingErased(s)
    ensures NothingErased(MoveOn(s, m)) <==> WriteAgrees(s, m)
  {
    if m.Writes? && m.folder < |s.folders| && s.folders[m.folder].Writing? {
      WriteErasesNothingIff(s, m.folder);
    }
  }

  /** In every run of any number of workers, failures included: no event is ever erased if and only if every write meets
      the store it read, but for the fields it carries. */
  lemma {:induction false} NeverErasedIff(s: Shared, moves: seq<Move>)
    requires NothingErased(s)
    ensures NeverErased(s, moves) <==> WritesAgree(s, moves)
    decreases |moves|
  {
    if moves != [] {
      MoveErasesNothingIff(s, moves[0]);
      if NothingErased(MoveOn(s, moves[0])) {
        NeverErasedIff(MoveOn(s, moves[0]), moves[1..]);
      }
    }
  }

  /** Two workers that both read before either writes, on a field only the first one's event carries: it is erased. */
  lemma ErasureReached(x: Symbol, k: Key, v: Value) returns (moves: seq<Move>)
    ensures !NeverErased(Shared(map[], [], []), moves)
  {
    var first, second := Event(x, map[k := Some(v)], ""), Event(x, map[], "");
    var s := Shared(map[], [], []);
    var s1 := MoveOn(s, Reads(first));
    var s2 := MoveOn(s1, Reads(second));
    var s3 := MoveOn(s2, Writes(0));
    moves := [Reads(first), Reads(second), Writes(0), Writes(1)];
    assert Present(first.fields) == map[k := v];
    assert s3.folders == [Idle, Writing(second, map[])] && k in Stored(s3.store, x);
    assert !WriteAgrees(s3, Writes(1));
    assert moves[1..] == [Reads(second), Writes(0), Writes(1)] && moves[1..][1..] == [Writes(0), Writes(1)];
    assert [Writes(0), Writes(1)][1..] == [Writes(1)];
    assert !WritesAgree(s3, [Writes(1)]);
    assert !WritesAgree(s2, [Writes(0), Writes(1)]);
    assert !WritesAgree(s1, moves[1..]);
    NeverErasedIff(s, moves);
  }
}
