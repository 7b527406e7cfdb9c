/**
 The triage worker's settle window: one event handler and one sweeper share the pending windows and the feature
 store, and may be interleaved at every await.
 */
module Triage {
  import opened Wrappers

  type Symbol = string
  type Key = string

  datatype Value = Number(n: real) | Flag(b: bool) | Text(s: string)

  type Features = map<Key, Value>

  const MARKET: Symbol := "MARKET"

  /** An event reduced to what `_extract` takes from it; a field may be present without a value. */
  datatype Event = Event(symbol: Symbol, fields: map<Key, Option<Value>>, correlation: string)

  /** The fields that carry a value. */
  function Present(fields: map<Key, Option<Value>>): Features {
    map k | k in fields && fields[k].Some? :: fields[k].value
  }

  function Merge(current: Features, fields: map<Key, Option<Value>>): Features {
    current + Present(fields)
  }

  function Stored(store: map<Symbol, Features>, symbol: Symbol): Features {
    if symbol in store then store[symbol] else map[]
  }

  /** At least a market anchor and one signal. */
  predicate Ready(f: Features) {
    && ("price_change_pct_24h" in f || "liquidity_usd" in f)
    && ("sentiment_score" in f || "has_social" in f || "volume_spike_ratio" in f)
  }

  function WithRegime(f: Features, regime: Option<Value>): Features {
    if regime.Some? then f["market_sentiment" := regime.value] else f
  }

  datatype Timing = Timing(settle: int, maxDelay: int)

  datatype Window = Window(last: int, first: int, correlation: string)

  /** A window has gone quiet, or has been open for too long. */
  predicate Due(w: Window, now: int, timing: Timing) {
    now - w.last >= timing.settle || now - w.first >= timing.maxDelay
  }

  function DueSymbols(pending: map<Symbol, Window>, now: int, timing: Timing): set<Symbol> {
    set x | x in pending && Due(pending[x], now, timing)
  }

  /** A published analysis, with the history behind it: the regime it was given, how many events had been folded
      when its features were read, when its sweep started, and the window as it stood then. */
  datatype Analysis = Analysis(
    symbol: Symbol,
    correlation: string,
    features: Features,
    regime: Option<Value>,
    at: nat,
    started: int,
    window: Window)

  // ---------- The two tasks ----------

  datatype Handler =
    | Waiting
    | SettingRegime(value: Value)
    | ReadingStore(event: Event)
    | WritingStore(event: Event, current: Features)
    | Registering(event: Event)

  datatype DueSymbol = DueSymbol(symbol: Symbol, window: Window)

  datatype Sweeper =
    | Asleep
    | ReadingRegime(due: seq<DueSymbol>)
    | NextDue(due: seq<DueSymbol>, regime: Option<Value>)
    | ReadingFeatures(head: DueSymbol, due: seq<DueSymbol>, regime: Option<Value>)
    | Publishing(analysis: Analysis, due: seq<DueSymbol>, regime: Option<Value>)

  /** `log`, `settled`, `openings`, `closings` and `flush` are history: events in the order they were folded, how far
      each symbol's events have been decided on, windows opened and closed, and the latest flush. */
  datatype State = State(
    now: int,
    store: map<Symbol, Features>,
    regime: Option<Value>,
    pending: map<Symbol, Window>,
    handler: Handler,
    sweeper: Sweeper,
    published: seq<Analysis>,
    log: seq<Event>,
    settled: map<Symbol, nat>,
    openings: multiset<Symbol>,
    closings: multiset<Symbol>,
    flush: Flush)

  datatype Flush = Flush(started: int, mark: nat, due: set<Symbol>)

  datatype Action =
    | Tick(delay: nat)
    | Receive(event: Event)
    | Handle
    | StartFlush(order: seq<Symbol>)
    | Sweep
    | HandlerFails
    | SweeperFails

  function Settled(s: State, x: Symbol): nat {
    if x in s.settled then s.settled[x] else 0
  }

  function Receipt(e: Event): Handler {
    if e.symbol != MARKET then ReadingStore(e)
    else if "sentiment_score" in e.fields && e.fields["sentiment_score"].Some? then SettingRegime(e.fields["sentiment_score"].value)
    else Waiting
  }

  function HandlerStep(s: State): State {
    match s.handler
    case Waiting => s
    case SettingRegime(v) => s.(regime := Some(v), handler := Waiting)
    case ReadingStore(e) => s.(handler := WritingStore(e, Stored(s.store, e.symbol)))
    case WritingStore(e, current) =>
      s.(store := s.store[e.symbol := Merge(current, e.fields)], log := s.log + [e], handler := Registering(e))
    case Registering(e) =>
      var first := if e.symbol in s.pending then s.pending[e.symbol].first else s.now;
      s.(pending := s.pending[e.symbol := Window(s.now, first, e.correlation)],
         openings := if e.symbol in s.pending then s.openings else s.openings + multiset{e.symbol},
         handler := Waiting)
  }

  function DueList(order: seq<Symbol>, pending: map<Symbol, Window>): (due: seq<DueSymbol>)
    requires forall x :: x in order ==> x in pending
    ensures |due| == |order| && forall i :: 0 <= i < |due| ==> due[i] == DueSymbol(order[i], pending[order[i]])
  {
    seq(|order|, i requires 0 <= i < |order| => DueSymbol(order[i], pending[order[i]]))
  }

  predicate Lists(order: seq<Symbol>, members: set<Symbol>) {
    && (forall i, j :: 0 <= i < j < |order| ==> order[i] != order[j])
    && (forall x :: x in order ==> x in members)
    && (forall x :: x in members ==> x in order)
  }

  function SweeperStep(s: State): State {
    match s.sweeper
    case Asleep => s
    case ReadingRegime(due) => s.(sweeper := NextDue(due, s.regime))
    case NextDue(due, regime) =>
      if due == [] then s.(sweeper := Asleep)
      else
        s.(pending := s.pending - {due[0].symbol},
           closings := s.closings + multiset{due[0].symbol},
           sweeper := ReadingFeatures(due[0], due[1..], regime))
    case ReadingFeatures(head, due, regime) =>
      var f := Stored(s.store, head.symbol);
      if Ready(f) then
        s.(sweeper := Publishing(Analysis(head.symbol, head.window.correlation, WithRegime(f, regime), regime, |s.log|,
                                          s.flush.started, head.window), due, regime))
      else s.(settled := s.settled[head.symbol := |s.log|], sweeper := NextDue(due, regime))
    case Publishing(a, due, regime) =>
      s.(published := s.published + [a], settled := s.settled[a.symbol := a.at], sweeper := NextDue(due, regime))
  }

  function Next(s: State, a: Action, timing: Timing): State {
    match a
    case Tick(d) => s.(now := s.now + d)
    case Receive(e) => if s.handler.Waiting? then s.(handler := Receipt(e)) else s
    case Handle => HandlerStep(s)
    case StartFlush(order) =>
      var due := DueSymbols(s.pending, s.now, timing);
      if s.sweeper.Asleep? && Lists(order, due)
      then s.(sweeper := ReadingRegime(DueList(order, s.pending)), flush := Flush(s.now, |s.log|, due))
      else s
    case Sweep => SweeperStep(s)
    case HandlerFails => s.(handler := Waiting)
    case SweeperFails => s.(sweeper := Asleep)
  }

  function Run(s: State, actions: seq<Action>, timing: Timing): State
    decreases |actions|
  {
    if actions == [] then s else Run(Next(s, actions[0], timing), actions[1..], timing)
  }

  lemma RunTwo(s: State, a: Action, b: Action, timing: Timing)
    ensures Run(s, [a, b], timing) == Next(Next(s, a, timing), b, timing)
  {
    assert [a, b][1..] == [b] && [b][1..] == [];
    assert Run(Next(s, a, timing), [b], timing) == Run(Next(Next(s, a, timing), b, timing), [], timing);
  }

  lemma {:induction false} RunAppend(s: State, first: seq<Action>, second: seq<Action>, timing: Timing)
    ensures Run(s, first + second, timing) == Run(Run(s, first, timing), second, timing)
    decreases |first|
  {
    if first == [] {
      assert first + second == second;
    } else {
      assert (first + second)[1..] == first[1..] + second;
      RunAppend(Next(s, first[0], timing), first[1..], second, timing);
    }
  }

  predicate Initial(s: State) {
    && s.store == map[] && s.pending == map[] && s.handler.Waiting? && s.sweeper.Asleep? && s.published == []
    && s.log == [] && s.settled == map[] && s.openings == multiset{} == s.closings && s.flush == Flush(0, 0, {})
  }

  // ---------- What the store holds ----------

  /** All folds of one symbol's events, in order. */
  function Fold(log: seq<Event>, x: Symbol): Features {
    if log == [] then map[]
    else
      var e := log[|log| - 1];
      var before := Fold(log[..|log| - 1], x);
      if e.symbol == x then Merge(before, e.fields) else before
  }

  /** The last value any event of the symbol carried for the key. */
  function LastValue(log: seq<Event>, x: Symbol, k: Key): Option<Value> {
    if log == [] then None
    else
      var e := log[|log| - 1];
      if e.symbol == x && k in e.fields && e.fields[k].Some? then e.fields[k]
      else LastValue(log[..|log| - 1], x, k)
  }

  /** Key by key a fold holds the last value carried; a field without a value never hides an earlier one. */
  lemma {:induction false} FoldHoldsLastValues(log: seq<Event>, x: Symbol, k: Key)
    ensures (if k in Fold(log, x) then Some(Fold(log, x)[k]) else None) == LastValue(log, x, k)
    decreases |log|
  {
    if log != [] {
      FoldHoldsLastValues(log[..|log| - 1], x, k);
    }
  }

  // ---------- No event is lost ----------

  /** The i-th folded event still counts: its symbol is about to be registered, or pending, or about to be read, or
      its features are on their way out, or a decision that saw it has been taken. */
  predicate Accounted(s: State, i: nat)
    requires i < |s.log|
  {
    var x := s.log[i].symbol;
    || x in s.pending
    || (s.handler.Registering? && s.handler.event.symbol == x)
    || (s.sweeper.ReadingFeatures? && s.sweeper.head.symbol == x)
    || (s.sweeper.Publishing? && s.sweeper.analysis.symbol == x && i < s.sweeper.analysis.at)
    || i < Settled(s, x)
  }

  predicate NothingLost(s: State) {
    forall i :: 0 <= i < |s.log| ==> Accounted(s, i)
  }

  function Ahead(w: Sweeper): seq<DueSymbol> {
    if w.Asleep? then [] else w.due
  }

  /** Everything the sweeper is still going to delete is there to delete. */
  predicate Deletable(s: State) {
    AllPending(Ahead(s.sweeper), s.pending.Keys) && DistinctSymbols(Ahead(s.sweeper))
  }

  predicate AllPending(due: seq<DueSymbol>, pending: set<Symbol>) {
    forall i :: 0 <= i < |due| ==> due[i].symbol in pending
  }

  predicate DistinctSymbols(due: seq<DueSymbol>) {
    forall i, j :: 0 <= i < j < |due| ==> due[i].symbol != due[j].symbol
  }

  predicate Progress(s: State) {
    && (forall x :: x in s.settled ==> s.settled[x] <= |s.log|)
    && (s.sweeper.Publishing? ==> Settled(s, s.sweeper.analysis.symbol) <= s.sweeper.analysis.at <= |s.log|)
  }

  ghost predicate StoreIsFold(s: State) {
    && (forall x :: Stored(s.store, x) == Fold(s.log, x))
    && (s.handler.WritingStore? ==> s.handler.current == Stored(s.store, s.handler.event.symbol))
  }

  /** A failure that strands nothing: the handler has not yet folded its event, the sweeper has nothing in hand. */
  predicate SafeFailure(s: State, a: Action) {
    && (a.HandlerFails? ==> !s.handler.Registering?)
    && (a.SweeperFails? ==> !s.sweeper.ReadingFeatures? && !s.sweeper.Publishing?)
  }

  ghost predicate Sound(s: State) {
    Deletable(s) && Progress(s) && StoreIsFold(s) && NothingLost(s)
  }

  lemma FoldAppend(log: seq<Event>, e: Event, x: Symbol)
    ensures Fold(log + [e], x) == if e.symbol == x then Merge(Fold(log, x), e.fields) else Fold(log, x)
  {
    assert (log + [e])[..|log|] == log;
  }

  lemma HandlerKeepsStore(s: State)
    requires StoreIsFold(s)
    ensures StoreIsFold(HandlerStep(s))
  {
    var t := HandlerStep(s);
    if s.handler.WritingStore? {
      forall x ensures Stored(t.store, x) == Fold(t.log, x) {
        FoldAppend(s.log, s.handler.event, x);
      }
    }
  }

  /** Folding, the new event is about to be registered; the others stand where they stood. */
  lemma FoldKeepsAccounted(s: State, i: nat)
    requires s.handler.WritingStore? && i <= |s.log| && (i < |s.log| ==> Accounted(s, i))
    ensures Accounted(HandlerStep(s), i)
  {
  }

  lemma OtherStepKeepsAccounted(s: State, i: nat)
    requires !s.handler.WritingStore? && i < |s.log| && Accounted(s, i)
    ensures HandlerStep(s).log == s.log && Accounted(HandlerStep(s), i)
  {
  }

  lemma HandlerKeepsAccounted(s: State, i: nat)
    requires i < |HandlerStep(s).log| && (i < |s.log| ==> Accounted(s, i))
    ensures Accounted(HandlerStep(s), i)
  {
    if s.handler.WritingStore? {
      FoldKeepsAccounted(s, i);
    } else {
      OtherStepKeepsAccounted(s, i);
    }
  }

  lemma HandlerKeepsProgress(s: State)
    requires Deletable(s) && Progress(s)
    ensures Deletable(HandlerStep(s)) && Progress(HandlerStep(s))
  {
  }

  lemma HandlerKeepsSound(s: State)
    requires Sound(s)
    ensures Sound(HandlerStep(s))
  {
    HandlerKeepsStore(s);
    HandlerKeepsProgress(s);
    forall i | 0 <= i < |HandlerStep(s).log| ensures Accounted(HandlerStep(s), i) {
      HandlerKeepsAccounted(s, i);
    }
  }

  /** The head can be deleted, and deleting it leaves the rest deletable. */
  lemma DeleteHead(due: seq<DueSymbol>, pending: set<Symbol>)
    requires due != [] && AllPending(due, pending) && DistinctSymbols(due)
    ensures due[0].symbol in pending
    ensures AllPending(due[1..], pending - {due[0].symbol}) && DistinctSymbols(due[1..])
  {
  }

  lemma SweeperKeepsAccounted(s: State, i: nat)
    requires i < |s.log| && Accounted(s, i) && Progress(s)
    ensures Accounted(SweeperStep(s), i)
  {
    if s.sweeper.ReadingFeatures? {
      ReadingKeepsAccounted(s, i);
    }
  }

  lemma ReadingKeepsAccounted(s: State, i: nat)
    requires i < |s.log| && Accounted(s, i) && Progress(s) && s.sweeper.ReadingFeatures?
    ensures Accounted(SweeperStep(s), i)
  {
  }

  lemma SweeperKeepsDeletable(s: State)
    requires Deletable(s)
    ensures Deletable(SweeperStep(s))
  {
    if s.sweeper.NextDue? && s.sweeper.due != [] {
      DeleteHead(s.sweeper.due, s.pending.Keys);
      assert SweeperStep(s).pending.Keys == s.pending.Keys - {s.sweeper.due[0].symbol};
    }
  }

  lemma SweeperKeepsProgress(s: State)
    requires Progress(s)
    ensures Progress(SweeperStep(s))
  {
  }

  lemma SweeperKeepsSound(s: State)
    requires Sound(s)
    ensures Sound(SweeperStep(s))
  {
    SweeperKeepsDeletable(s);
    SweeperKeepsProgress(s);
    SweeperKeepsStore(s);
    SweeperLosesNothing(s);
  }

  lemma SweeperKeepsStore(s: State)
    requires StoreIsFold(s)
    ensures StoreIsFold(SweeperStep(s))
  {
    SweeperReadsStore(s, SweeperStep(s));
    SameStoreIsFold(s, SweeperStep(s));
  }

  lemma SweeperReadsStore(s: State, t: State)
    requires t == SweeperStep(s)
    ensures t.store == s.store && t.log == s.log && t.handler == s.handler
  {
  }

  lemma SameStoreIsFold(s: State, t: State)
    requires StoreIsFold(s) && t.store == s.store && t.log == s.log && t.handler == s.handler
    ensures StoreIsFold(t)
  {
  }

  lemma SweeperLosesNothing(s: State)
    requires NothingLost(s) && Progress(s)
    ensures NothingLost(SweeperStep(s))
  {
    forall i | 0 <= i < |s.log| ensures Accounted(SweeperStep(s), i) {
      assert Accounted(s, i);
      SweeperKeepsAccounted(s, i);
    }
  }

  lemma StartKeepsDeletable(s: State, order: seq<Symbol>, timing: Timing)
    requires Deletable(s)
    ensures Deletable(Next(s, StartFlush(order), timing))
  {
    var t := Next(s, StartFlush(order), timing);
    if t != s {
      var due := Ahead(t.sweeper);
      assert DistinctSymbols(due);
      forall i | 0 <= i < |due| ensures due[i].symbol in t.pending {
        assert order[i] in order;
      }
    }
  }

  lemma StartKeepsSound(s: State, order: seq<Symbol>, timing: Timing)
    requires Sound(s)
    ensures Sound(Next(s, StartFlush(order), timing))
  {
    var t := Next(s, StartFlush(order), timing);
    forall i | 0 <= i < |t.log| ensures Accounted(t, i) {
      assert Accounted(s, i);
    }
    StartKeepsDeletable(s, order, timing);
  }

  lemma OtherMoveKeepsSound(s: State, a: Action, timing: Timing)
    requires Sound(s) && SafeFailure(s, a) && !a.Handle? && !a.Sweep? && !a.StartFlush?
    ensures Sound(Next(s, a, timing))
  {
    var t := Next(s, a, timing);
    forall i | 0 <= i < |t.log| ensures Accounted(t, i) {
      assert Accounted(s, i);
    }
  }

  lemma MoveKeepsSound(s: State, a: Action, timing: Timing)
    requires Sound(s) && SafeFailure(s, a)
    ensures Sound(Next(s, a, timing))
  {
    match a
    case Handle => HandlerKeepsSound(s);
    case Sweep => SweeperKeepsSound(s);
    case StartFlush(order) => StartKeepsSound(s, order, timing);
    case _ => OtherMoveKeepsSound(s, a, timing);
  }

  predicate SafeRun(s: State, actions: seq<Action>, timing: Timing)
    decreases |actions|
  {
    actions == [] || (SafeFailure(s, actions[0]) && SafeRun(Next(s, actions[0], timing), actions[1..], timing))
  }

  lemma {:induction false} RunKeepsSound(s: State, actions: seq<Action>, timing: Timing)
    requires Sound(s) && SafeRun(s, actions, timing)
    ensures Sound(Run(s, actions, timing))
    decreases |actions|
  {
    if actions != [] {
      MoveKeepsSound(s, actions[0], timing);
      RunKeepsSound(Next(s, actions[0], timing), actions[1..], timing);
    }
  }

  /** Under every interleaving of the two tasks, failures at safe points included: no folded event is lost, the `del`
      never misses its key, and the store holds every event's values. */
  lemma NoEventIsLost(start: State, actions: seq<Action>, timing: Timing)
    requires Initial(start) && SafeRun(start, actions, timing)
    ensures var s := Run(start, actions, timing);
            && (forall i :: 0 <= i < |s.log| ==> Accounted(s, i))
            && (s.sweeper.NextDue? && s.sweeper.due != [] ==> s.sweeper.due[0].symbol in s.pending)
            && (forall x :: Stored(s.store, x) == Fold(s.log, x))
  {
    RunKeepsSound(start, actions, timing);
  }

  /** Some folded event of the symbol has not been decided on. */
  predicate Undecided(s: State, x: Symbol) {
    exists i :: Settled(s, x) <= i < |s.log| && s.log[i].symbol == x
  }

  /** The sweeper failing with a symbol in hand strands its events exactly when there are undecided ones and the
      symbol is neither pending again nor about to be. */
  lemma SweeperFailureStrands(s: State, timing: Timing)
    requires Sound(s) && (s.sweeper.ReadingFeatures? || s.sweeper.Publishing?)
    ensures var x := if s.sweeper.ReadingFeatures? then s.sweeper.head.symbol else s.sweeper.analysis.symbol;
            NothingLost(Next(s, SweeperFails, timing)) <==>
            x in s.pending || (s.handler.Registering? && s.handler.event.symbol == x) || !Undecided(s, x)
  {
    var x := if s.sweeper.ReadingFeatures? then s.sweeper.head.symbol else s.sweeper.analysis.symbol;
    var t := Next(s, SweeperFails, timing);
    forall i | 0 <= i < |t.log| && t.log[i].symbol != x ensures Accounted(t, i) {
      assert Accounted(s, i);
    }
    if Undecided(s, x) {
      var i :| Settled(s, x) <= i < |s.log| && s.log[i].symbol == x;
      assert Accounted(t, i) <==> x in s.pending || (s.handler.Registering? && s.handler.event.symbol == x);
    }
  }
}
