/** A reconciler sweep left alone: what it does to the world, whatever order the tracked set iterates in. */
module Reconciling {
  import opened MapSum
  import opened Protocol
  import opened RiskRules
  import opened Symbols

  type Records = map<EventId, Position>

  /** `_on_closed`. */
  function CloseEffect(w: World, id: EventId, pos: Position): World {
    w.(exposure := Max(0, w.exposure - pos.fraction), tracked := w.tracked - {id}).Emit(ClosedEvent(id, pos))
  }

  predicate StillOpen(records: Records, id: EventId, open: set<Pair>) {
    id in records && records[id].pair in open
  }

  predicate HasClosed(records: Records, id: EventId, open: set<Pair>) {
    id in records && records[id].pair !in open
  }

  /** What the sweep does about one tracked id. */
  function Visit(w: World, open: set<Pair>, id: EventId): World {
    if id !in w.positions then w.(tracked := w.tracked - {id})
    else if StillOpen(w.positions, id, open) then w
    else CloseEffect(w, id, w.positions[id])
  }

  function SweepEffect(w: World, open: set<Pair>, todo: seq<EventId>): World
    decreases |todo|
  {
    if todo == [] then w else SweepEffect(Visit(w, open, todo[0]), open, todo[1..])
  }

  /** Fractions of the positions in `members` whose pair the exchange no longer reports. */
  function Freed(records: Records, open: set<Pair>, members: set<EventId>): map<EventId, Fraction> {
    map id | id in members && HasClosed(records, id, open) :: records[id].fraction
  }

  /** The CLOSED events, in the order the ids were visited. */
  function ClosedEvents(records: Records, open: set<Pair>, todo: seq<EventId>): seq<Execution> {
    if todo == [] then []
    else
      (if HasClosed(records, todo[0], open) then [ClosedEvent(todo[0], records[todo[0]])] else [])
      + ClosedEvents(records, open, todo[1..])
  }

  function Members(todo: seq<EventId>): set<EventId> {
    set id | id in todo
  }

  // A sweep in one piece, one part of the world at a time.

  lemma {:induction false} SweepTouchesOnly(w: World, open: set<Pair>, todo: seq<EventId>)
    ensures var t := SweepEffect(w, open, todo);
            t == w.(exposure := t.exposure, tracked := t.tracked, executions := t.executions)
    decreases |todo|
  {
    if todo != [] {
      SweepTouchesOnly(Visit(w, open, todo[0]), open, todo[1..]);
    }
  }

  /** From w to t the exposure drops by what the closed among `todo` held, not below 0. */
  ghost predicate Releases(w: World, t: World, open: set<Pair>, todo: seq<EventId>) {
    t.exposure == Max(0, w.exposure - Sum(Freed(w.positions, open, Members(todo))))
  }

  lemma {:induction false} SweepReleases(w: World, open: set<Pair>, todo: seq<EventId>)
    requires Distinct(todo) && 0 <= w.exposure
    ensures Releases(w, SweepEffect(w, open, todo), open, todo)
    decreases |todo|
  {
    if todo == [] {
      assert Freed(w.positions, open, Members(todo)) == map[];
    } else {
      VisitGives(w, open, todo[0]);
      SweepReleases(Visit(w, open, todo[0]), open, todo[1..]);
      VisitThenRest(w, SweepEffect(w, open, todo), open, todo);
    }
  }

  /** What the first visit gives and what the rest gives, clamped one after the other, is what they give together. */
  lemma VisitThenRest(w: World, t: World, open: set<Pair>, todo: seq<EventId>)
    requires todo != [] && Distinct(todo) && 0 <= w.exposure
    requires Releases(Visit(w, open, todo[0]), t, open, todo[1..])
    ensures Releases(w, t, open, todo)
  {
    VisitGives(w, open, todo[0]);
    FreedByVisit(w.positions, open, todo);
    ClampTwice(w.exposure, Given(w.positions, todo[0], open), Sum(Freed(w.positions, open, Members(todo[1..]))));
  }

  function Given(records: Records, id: EventId, open: set<Pair>): nat {
    if HasClosed(records, id, open) then records[id].fraction else 0
  }

  lemma VisitGives(w: World, open: set<Pair>, id: EventId)
    requires 0 <= w.exposure
    ensures Visit(w, open, id).exposure == Max(0, w.exposure - Given(w.positions, id, open))
    ensures Visit(w, open, id).positions == w.positions
  {
  }

  lemma ClampTwice(e: int, a: nat, b: nat)
    ensures Max(0, Max(0, e - a) - b) == Max(0, e - (a + b))
  {
  }

  lemma {:induction false} SweepUntracks(w: World, open: set<Pair>, todo: seq<EventId>)
    ensures SweepEffect(w, open, todo).tracked == set id | id in w.tracked && (id in todo ==> StillOpen(w.positions, id, open))
    decreases |todo|
  {
    if todo != [] {
      SweepUntracks(Visit(w, open, todo[0]), open, todo[1..]);
      assert todo == [todo[0]] + todo[1..];
    }
  }

  lemma {:induction false} SweepAnnounces(w: World, open: set<Pair>, todo: seq<EventId>)
    ensures SweepEffect(w, open, todo).executions == w.executions + ClosedEvents(w.positions, open, todo)
    decreases |todo|
  {
    if todo != [] {
      SweepAnnounces(Visit(w, open, todo[0]), open, todo[1..]);
    }
  }

  lemma FreedByVisit(records: Records, open: set<Pair>, todo: seq<EventId>)
    requires todo != [] && Distinct(todo)
    ensures Sum(Freed(records, open, Members(todo)))
         == Sum(Freed(records, open, Members(todo[1..]))) + Given(records, todo[0], open)
  {
    var id, rest := todo[0], todo[1..];
    assert todo == [id] + rest && id !in rest;
    var freed := Freed(records, open, Members(rest));
    if HasClosed(records, id, open) {
      assert Freed(records, open, Members(todo)) == freed[id := records[id].fraction];
      SumWith(freed, id, records[id].fraction);
    } else {
      assert Freed(records, open, Members(todo)) == freed;
    }
  }

  /** Every closed id is announced exactly once, and nothing else is. */
  lemma {:induction false} ClosedOnce(records: Records, open: set<Pair>, todo: seq<EventId>, e: Execution)
    requires Distinct(todo)
    ensures multiset(ClosedEvents(records, open, todo))[e]
         == if e.Closed? && e.id in todo && HasClosed(records, e.id, open) && e == ClosedEvent(e.id, records[e.id]) then 1 else 0
    decreases |todo|
  {
    if todo != [] {
      ClosedOnce(records, open, todo[1..], e);
      assert todo == [todo[0]] + todo[1..];
      var first := if HasClosed(records, todo[0], open) then [ClosedEvent(todo[0], records[todo[0]])] else [];
      assert multiset(ClosedEvents(records, open, todo)) == multiset(first) + multiset(ClosedEvents(records, open, todo[1..]));
    }
  }

  lemma SameClosings(records: Records, open: set<Pair>, order: seq<EventId>, other: seq<EventId>)
    requires Distinct(order) && Distinct(other) && Members(order) == Members(other)
    ensures multiset(ClosedEvents(records, open, order)) == multiset(ClosedEvents(records, open, other))
  {
    var x, y := ClosedEvents(records, open, order), ClosedEvents(records, open, other);
    forall e: Execution ensures multiset(x)[e] == multiset(y)[e] {
      ClosedOnce(records, open, order, e);
      ClosedOnce(records, open, other, e);
      if e.Closed? {
        assert e.id in order <==> e.id in Members(order);
      }
    }
  }

  /** A whole sweep keeps exactly the tracked ids still open and gives back exactly what the closed ones held. */
  lemma SweepOutcome(w: World, open: set<Pair>, order: seq<EventId>)
    requires Enumerates(order, w.tracked) && 0 <= w.exposure
    ensures SweepEffect(w, open, order) == w.(
              tracked := (set id | id in w.tracked && StillOpen(w.positions, id, open)),
              exposure := Max(0, w.exposure - Sum(Freed(w.positions, open, w.tracked))),
              executions := w.executions + ClosedEvents(w.positions, open, order))
  {
    SweepTouchesOnly(w, open, order);
    SweepGivesBack(w, open, order);
    SweepKeepsOpen(w, open, order);
    SweepAnnounces(w, open, order);
  }

  lemma SweepGivesBack(w: World, open: set<Pair>, order: seq<EventId>)
    requires Enumerates(order, w.tracked) && 0 <= w.exposure
    ensures SweepEffect(w, open, order).exposure == Max(0, w.exposure - Sum(Freed(w.positions, open, w.tracked)))
  {
    SweepReleases(w, open, order);
    assert Members(order) == w.tracked;
  }

  /** The same in plain terms: tracked stays what has a record on a pair the exchange reports open; the exposure falls by
      the shares of what has a record on a pair it does not, and not below 0; beyond that and the announcements nothing
      changes. */
  lemma SweepInFull(w: World, open: set<Pair>, order: seq<EventId>)
    requires Enumerates(order, w.tracked) && 0 <= w.exposure
    ensures var t := SweepEffect(w, open, order);
            && t == w.(exposure := t.exposure, tracked := t.tracked, executions := t.executions)
            && t.tracked == (set id | id in w.tracked && id in w.positions && w.positions[id].pair in open)
            && t.exposure == Max(0, w.exposure - Sum(Freed(w.positions, open, w.tracked)))
    ensures forall id :: id in Freed(w.positions, open, w.tracked)
              <==> id in w.tracked && id in w.positions && w.positions[id].pair !in open
    ensures forall id :: id in Freed(w.positions, open, w.tracked) ==> Freed(w.positions, open, w.tracked)[id] == w.positions[id].fraction
  {
    SweepTouchesOnly(w, open, order);
    SweepKeepsOpen(w, open, order);
    SweepGivesBack(w, open, order);
  }

  /** And each position so closed is announced once, on the side and with the symbol and size of its record; no other. */
  lemma ClosesAnnounced(w: World, open: set<Pair>, order: seq<EventId>, id: EventId, symbol: Symbol, direction: Direction, size: real)
    requires Enumerates(order, w.tracked)
    ensures multiset(SweepEffect(w, open, order).executions)[Closed(id, symbol, direction, size)]
         == multiset(w.executions)[Closed(id, symbol, direction, size)]
            + if id in w.tracked && id in w.positions && w.positions[id].pair !in open
                 && symbol == w.positions[id].symbol && size == w.positions[id].size
                 && direction == (if w.positions[id].side == Sell then Short else Long) then 1 else 0
  {
    SweepAnnounces(w, open, order);
    ClosedOnce(w.positions, open, order, Closed(id, symbol, direction, size));
  }

  lemma SweepKeepsOpen(w: World, open: set<Pair>, order: seq<EventId>)
    requires Enumerates(order, w.tracked)
    ensures SweepEffect(w, open, order).tracked == set id | id in w.tracked && StillOpen(w.positions, id, open)
  {
    SweepUntracks(w, open, order);
  }

  /** Iteration order only permutes the CLOSED events. */
  lemma SweepIgnoresOrder(w: World, open: set<Pair>, order: seq<EventId>, other: seq<EventId>)
    requires Enumerates(order, w.tracked) && Enumerates(other, w.tracked) && 0 <= w.exposure
    ensures var a, b := SweepEffect(w, open, order), SweepEffect(w, open, other);
            a.(executions := []) == b.(executions := []) && multiset(a.executions) == multiset(b.executions)
  {
    SweepOutcome(w, open, order);
    SweepOutcome(w, open, other);
    assert Members(order) == Members(other);
    SameClosings(w.positions, open, order, other);
  }

  /** A second sweep over the same exchange snapshot finds nothing to do. */
  lemma SecondSweepChangesNothing(w: World, open: set<Pair>, order: seq<EventId>, again: seq<EventId>)
    requires Enumerates(order, w.tracked) && 0 <= w.exposure
    requires Enumerates(again, SweepEffect(w, open, order).tracked)
    ensures SweepEffect(SweepEffect(w, open, order), open, again) == SweepEffect(w, open, order)
  {
    SweepOutcome(w, open, order);
    var w' := SweepEffect(w, open, order);
    forall id | id in again ensures StillOpen(w'.positions, id, open) {
    }
    NothingToClose(w', open, again);
  }

  lemma {:induction false} NothingToClose(w: World, open: set<Pair>, todo: seq<EventId>)
    requires forall id :: id in todo ==> StillOpen(w.positions, id, open)
    ensures SweepEffect(w, open, todo) == w
    decreases |todo|
  {
    if todo != [] {
      assert todo[0] in todo;
      NothingToClose(w, open, todo[1..]);
    }
  }
}
