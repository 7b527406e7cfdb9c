/** What triage can still lose: a handler failing half-way, a sweep failing half-way, a worker restarted. */
module TriageFailures {
  import opened Triage
  import opened Wrappers

  /** Some event of the symbol was folded at or after this point. */
  predicate FoldedSince(s: State, x: Symbol, at: nat) {
    exists i :: at <= i < |s.log| && s.log[i].symbol == x
  }

  /** The handler failing between its store write and its registration strands events of the symbol exactly when some
      are undecided and the symbol is neither pending nor in the sweeper's hand with nothing folded since its read. */
  lemma HandlerFailureStrands(s: State, timing: Timing)
    requires Sound(s) && s.handler.Registering?
    ensures var x := s.handler.event.symbol;
            NothingLost(Next(s, HandlerFails, timing)) <==>
            x in s.pending || (s.sweeper.ReadingFeatures? && s.sweeper.head.symbol == x) || !Undecided(s, x)
            || (s.sweeper.Publishing? && s.sweeper.analysis.symbol == x && !FoldedSince(s, x, s.sweeper.analysis.at))
  {
    var x := s.handler.event.symbol;
    var t := Next(s, HandlerFails, timing);
    forall i | 0 <= i < |t.log| && t.log[i].symbol != x ensures Accounted(t, i) {
      assert Accounted(s, i);
    }
    if s.sweeper.Publishing? && s.sweeper.analysis.symbol == x {
      if FoldedSince(s, x, s.sweeper.analysis.at) {
        var i :| s.sweeper.analysis.at <= i < |s.log| && s.log[i].symbol == x;
        assert Accounted(t, i) <==> x in s.pending || i < Settled(s, x);
      }
    } else if Undecided(s, x) {
      var i :| Settled(s, x) <= i < |s.log| && s.log[i].symbol == x;
      assert Accounted(t, i) <==> x in s.pending || (s.sweeper.ReadingFeatures? && s.sweeper.head.symbol == x);
    }
  }

  // ---------- A restart ----------

  /** A worker started again: the windows and both tasks were in memory, the features and the regime were not. */
  function Restarted(s: State): State {
    s.(pending := map[], handler := Waiting, sweeper := Asleep)
  }

  /** A restart keeps every folded event in the store, and strands those of exactly the symbols with undecided ones. */
  lemma RestartStrandsIff(s: State)
    requires Sound(s)
    ensures StoreIsFold(Restarted(s))
    ensures forall i :: 0 <= i < |s.log| ==> (Accounted(Restarted(s), i) <==> i < Settled(s, s.log[i].symbol))
    ensures NothingLost(Restarted(s)) <==> forall i :: 0 <= i < |s.log| ==> !Undecided(s, s.log[i].symbol)
  {
    var t := Restarted(s);
    if NothingLost(t) {
      forall i, k | 0 <= i < |s.log| && 0 <= k < |s.log| && s.log[k].symbol == s.log[i].symbol
        ensures k < Settled(s, s.log[i].symbol)
      {
        assert Accounted(t, k);
      }
    }
  }

  // ---------- A run that strands an event ----------

  /** The event folded and registered by a handler left alone. */
  function Registered(s: State, e: Event): State {
    s.(store := map[e.symbol := Merge(map[], e.fields)], log := [e],
       pending := map[e.symbol := Window(s.now, s.now, e.correlation)], openings := multiset{e.symbol})
  }

  lemma ReachRegistered(s: State, e: Event, timing: Timing) returns (moves: seq<Action>)
    requires Initial(s) && e.symbol != MARKET
    ensures Run(s, moves, timing) == Registered(s, e)
  {
    RunTwo(s, Receive(e), Handle, timing);
    RunTwo(s.(handler := WritingStore(e, map[])), Handle, Handle, timing);
    RunAppend(s, [Receive(e), Handle], [Handle, Handle], timing);
    moves := [Receive(e), Handle] + [Handle, Handle];
  }

  /** Its window settled and taken, with its features about to be read. */
  function Taken(s: State, e: Event, timing: Timing): State {
    var r := Registered(s, e);
    var now := s.now + if timing.settle >= 0 then timing.settle else 0;
    var due := DueSymbol(e.symbol, r.pending[e.symbol]);
    r.(now := now, pending := map[], closings := multiset{e.symbol}, flush := Flush(now, 1, {e.symbol}),
       sweeper := ReadingFeatures(due, [], s.regime))
  }

  /** Its window settled, and the flush that found it due begun. */
  function Started(s: State, e: Event, timing: Timing): State {
    var r := Registered(s, e);
    var now := s.now + if timing.settle >= 0 then timing.settle else 0;
    r.(now := now, flush := Flush(now, 1, {e.symbol}), sweeper := ReadingRegime([DueSymbol(e.symbol, r.pending[e.symbol])]))
  }

  lemma ReachStarted(s: State, e: Event, timing: Timing)
    requires Initial(s) && 0 <= timing.settle
    ensures Run(Registered(s, e), [Tick(timing.settle), StartFlush([e.symbol])], timing) == Started(s, e, timing)
  {
    var r := Registered(s, e);
    var late := r.(now := s.now + timing.settle);
    assert DueSymbols(late.pending, late.now, timing) == {e.symbol};
    assert DueList([e.symbol], late.pending) == [DueSymbol(e.symbol, r.pending[e.symbol])];
    RunTwo(r, Tick(timing.settle), StartFlush([e.symbol]), timing);
  }

  lemma TakeHead(s: State, e: Event, timing: Timing)
    requires Initial(s)
    ensures Run(Started(s, e, timing), [Sweep, Sweep], timing) == Taken(s, e, timing)
  {
    var due := DueSymbol(e.symbol, Registered(s, e).pending[e.symbol]);
    RunTwo(Started(s, e, timing), Sweep, Sweep, timing);
    assert Registered(s, e).pending - {e.symbol} == map[] && [due][1..] == [];
    assert multiset{} + multiset{e.symbol} == multiset{e.symbol};
  }

  lemma ReachTaken(s: State, e: Event, timing: Timing) returns (moves: seq<Action>)
    requires Initial(s) && e.symbol != MARKET && 0 <= timing.settle
    ensures Run(s, moves, timing) == Taken(s, e, timing)
  {
    var reach := ReachRegistered(s, e, timing);
    var start := [Tick(timing.settle), StartFlush([e.symbol])];
    ReachStarted(s, e, timing);
    TakeHead(s, e, timing);
    RunAppend(s, reach, start, timing);
    RunAppend(s, reach + start, [Sweep, Sweep], timing);
    moves := reach + start + [Sweep, Sweep];
  }

  /** From nothing: one event of any symbol, its window settled and taken, and the store read that raises. The event is
      folded, and no window, no read and no decision will ever show it unless its symbol sends another. */
  lemma StrandedEventReached(start: State, e: Event, timing: Timing) returns (moves: seq<Action>)
    requires Initial(start) && e.symbol != MARKET && 0 <= timing.settle
    ensures var s := Run(start, moves, timing); s.log == [e] && !NothingLost(s)
  {
    var reach := ReachTaken(start, e, timing);
    var s := Taken(start, e, timing);
    var t := Next(s, SweeperFails, timing);
    assert Run(s, [SweeperFails], timing) == t by { assert [SweeperFails][1..] == []; }
    RunAppend(start, reach, [SweeperFails], timing);
    moves := reach + [SweeperFails];
    assert !Accounted(t, 0);
  }
}
