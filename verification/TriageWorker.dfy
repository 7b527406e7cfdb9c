/** The feature store and the worker as objects, each handler left alone; tied to the two-task model move by move. */
module TriageWorker {
  import opened Triage
  import opened Wrappers

  class FeatureStore {
    var stored: map<Symbol, Features>

    constructor ()
      ensures stored == map[]
    {
      stored := map[];
    }

    /** Folds the fields that carry a value into what is stored for the symbol. */
    method Update(symbol: Symbol, fields: map<Key, Option<Value>>) returns (current: Features)
      modifies this
      ensures stored == old(stored)[symbol := current]
      ensures forall k :: k in current <==> k in Stored(old(stored), symbol) || (k in fields && fields[k].Some?)
      ensures forall k :: k in fields && fields[k].Some? ==> current[k] == fields[k].value
      ensures forall k :: k in Stored(old(stored), symbol) && !(k in fields && fields[k].Some?) ==>
                current[k] == Stored(old(stored), symbol)[k]
    {
      current := Stored(stored, symbol);
      current := current + Present(fields);
      stored := stored[symbol := current];
    }

    method Get(symbol: Symbol) returns (f: Features)
      ensures f == Stored(stored, symbol)
    {
      f := if symbol in stored then stored[symbol] else map[];
    }
  }

  datatype Publication = Publication(symbol: Symbol, correlation: string, features: Features)

  /** What closing one window publishes. */
  function Analysed(x: Symbol, w: Window, store: map<Symbol, Features>, regime: Option<Value>): seq<Publication> {
    if Ready(Stored(store, x)) then [Publication(x, w.correlation, WithRegime(Stored(store, x), regime))] else []
  }

  /** What a flush publishes, symbol by symbol in the order it takes them. */
  function Emitted(order: seq<Symbol>, pending: map<Symbol, Window>, store: map<Symbol, Features>, regime: Option<Value>): seq<Publication>
    requires forall x :: x in order ==> x in pending
  {
    if order == [] then []
    else
      var last := order[|order| - 1];
      assert last in order;
      Emitted(order[..|order| - 1], pending, store, regime) + Analysed(last, pending[last], store, regime)
  }

  lemma EmittedLast(order: seq<Symbol>, x: Symbol, pending: map<Symbol, Window>, store: map<Symbol, Features>, regime: Option<Value>)
    requires x in pending && forall y :: y in order ==> y in pending
    ensures Emitted(order + [x], pending, store, regime)
         == Emitted(order, pending, store, regime) + Analysed(x, pending[x], store, regime)
  {
    assert (order + [x])[..|order|] == order;
  }

  /** After a flush: a window is still open exactly when it has been quiet for less than the settle time and open for
      less than the maximum delay. */
  predicate OnlySettledClosed(before: map<Symbol, Window>, after: map<Symbol, Window>, now: int, timing: Timing) {
    && (forall x :: x in after ==> x in before && after[x] == before[x])
    && (forall x :: x in before ==>
          (x in after <==> now - before[x].last < timing.settle && now - before[x].first < timing.maxDelay))
  }

  /** What can be analysed: a price or a liquidity, and a sentiment, a social presence or a volume. */
  predicate Anchored(f: Features) {
    && ("price_change_pct_24h" in f || "liquidity_usd" in f)
    && ("sentiment_score" in f || "has_social" in f || "volume_spike_ratio" in f)
  }

  /** The publication shows the window's correlation and what is stored, with the market's mood if one is known. */
  predicate Shows(p: Publication, w: Window, stored: Features, regime: Option<Value>) {
    && p.correlation == w.correlation
    && (forall k :: k in p.features && k != "market_sentiment" ==> k in stored)
    && (forall k :: k in stored && k != "market_sentiment" ==> k in p.features && p.features[k] == stored[k])
    && (regime.Some? ==> "market_sentiment" in p.features && p.features["market_sentiment"] == regime.value)
    && (regime.None? ==> p.features == stored)
  }

  /** A closed window is published exactly when there is enough to analyse, and as it stands. */
  ghost predicate ClosedArePublished(before: map<Symbol, Window>, after: map<Symbol, Window>, store: map<Symbol, Features>,
                                     regime: Option<Value>, news: seq<Publication>) {
    && (forall x :: x in before && x !in after ==> (Anchored(Stored(store, x)) <==> exists p :: p in news && p.symbol == x))
    && (forall p :: p in news ==> p.symbol in before && p.symbol !in after && Shows(p, before[p.symbol], Stored(store, p.symbol), regime))
  }

  lemma {:induction false} EmittedShows(order: seq<Symbol>, pending: map<Symbol, Window>, store: map<Symbol, Features>,
                                        regime: Option<Value>)
    requires forall x :: x in order ==> x in pending
    ensures forall p :: p in Emitted(order, pending, store, regime) ==>
              p.symbol in order && Shows(p, pending[p.symbol], Stored(store, p.symbol), regime)
    decreases |order|
  {
    if order != [] {
      var n := |order| - 1;
      assert order[n] in order;
      EmittedShows(order[..n], pending, store, regime);
      AnalysedShows(order[n], pending[order[n]], store, regime);
    }
  }

  lemma AnalysedShows(x: Symbol, w: Window, store: map<Symbol, Features>, regime: Option<Value>)
    ensures forall p :: p in Analysed(x, w, store, regime) ==> p.symbol == x && Shows(p, w, Stored(store, x), regime)
    ensures Analysed(x, w, store, regime) != [] <==> Anchored(Stored(store, x))
  {
  }

  lemma {:induction false} EmittedHas(order: seq<Symbol>, pending: map<Symbol, Window>, store: map<Symbol, Features>,
                                      regime: Option<Value>, x: Symbol)
    requires (forall y :: y in order ==> y in pending) && x in order
    ensures Anchored(Stored(store, x)) <==> exists p :: p in Emitted(order, pending, store, regime) && p.symbol == x
    decreases |order|
  {
    var n := |order| - 1;
    var last := order[n];
    assert last in order;
    AnalysedShows(last, pending[last], store, regime);
    if x == last {
      if Anchored(Stored(store, x)) {
        assert Analysed(x, pending[x], store, regime)[0] in Emitted(order, pending, store, regime);
      } else {
        EmittedShows(order, pending, store, regime);
        EmittedNothing(order, pending, store, regime, x);
      }
    } else {
      EmittedHas(order[..n], pending, store, regime, x);
    }
  }

  lemma {:induction false} EmittedNothing(order: seq<Symbol>, pending: map<Symbol, Window>, store: map<Symbol, Features>,
                                          regime: Option<Value>, x: Symbol)
    requires (forall y :: y in order ==> y in pending) && !Anchored(Stored(store, x))
    ensures forall p :: p in Emitted(order, pending, store, regime) ==> p.symbol != x
    decreases |order|
  {
    if order != [] {
      var n := |order| - 1;
      assert order[n] in order;
      EmittedNothing(order[..n], pending, store, regime, x);
      AnalysedShows(order[n], pending[order[n]], store, regime);
    }
  }

  lemma FlushInFull(order: seq<Symbol>, before: map<Symbol, Window>, store: map<Symbol, Features>, regime: Option<Value>,
                    now: int, timing: Timing)
    requires Lists(order, DueSymbols(before, now, timing))
    ensures var after := before - DueSymbols(before, now, timing);
            OnlySettledClosed(before, after, now, timing)
            && ClosedArePublished(before, after, store, regime, Emitted(order, before, store, regime))
  {
    EmittedShows(order, before, store, regime);
    forall x | x in before && x in order
      ensures Anchored(Stored(store, x)) <==> exists p :: p in Emitted(order, before, store, regime) && p.symbol == x
    {
      EmittedHas(order, before, store, regime, x);
    }
  }

  class HaikuWorker {
    const store: FeatureStore
    const timing: Timing
    var regime: Option<Value>
    var pending: map<Symbol, Window>
    var published: seq<Publication>

    constructor (store: FeatureStore, timing: Timing)
      ensures this.store == store && this.timing == timing
      ensures pending == map[] && published == [] && regime == None
    {
      this.store := store;
      this.timing := timing;
      regime, pending, published := None, map[], [];
    }

    /** Every event is folded, then its symbol's window is refreshed; the market's own reading only sets the regime. */
    method Handle(e: Event, now: int)
      modifies this, store
      ensures published == old(published)
      ensures e.symbol == MARKET ==> pending == old(pending) && store.stored == old(store.stored)
      ensures e.symbol != MARKET ==>
                && store.stored == old(store.stored)[e.symbol := Merge(Stored(old(store.stored), e.symbol), e.fields)]
                && pending == old(pending)[e.symbol :=
                     Window(now, if e.symbol in old(pending) then old(pending)[e.symbol].first else now, e.correlation)]
      ensures regime == if e.symbol == MARKET && "sentiment_score" in e.fields && e.fields["sentiment_score"].Some?
                        then e.fields["sentiment_score"] else old(regime)
    {
      if e.symbol == MARKET {
        var value := if "sentiment_score" in e.fields then e.fields["sentiment_score"] else None;
        if value.Some? {
          regime := value;
        }
        return;
      }
      var current := store.Update(e.symbol, e.fields);
      assert current == Merge(Stored(old(store.stored), e.symbol), e.fields);
      var first := if e.symbol in pending then pending[e.symbol].first else now;
      pending := pending[e.symbol := Window(now, first, e.correlation)];
    }

    /** Closes one window, then reads the store and publishes if it is ready. */
    method Take(x: Symbol)
      requires x in pending
      modifies this
      ensures pending == old(pending) - {x} && regime == old(regime)
      ensures published == old(published) + Analysed(x, old(pending)[x], store.stored, regime)
    {
      var correlation := pending[x].correlation;
      pending := pending - {x};
      var f := store.Get(x);
      if Ready(f) {
        published := published + [Publication(x, correlation, WithRegime(f, regime))];
      }
    }

    /** `order` records how the due symbols were taken. */
    method FlushSettled(now: int) returns (ghost order: seq<Symbol>)
      modifies this
      ensures Lists(order, DueSymbols(old(pending), now, timing))
      ensures pending == old(pending) - DueSymbols(old(pending), now, timing)
      ensures published == old(published) + Emitted(order, old(pending), store.stored, regime)
      ensures OnlySettledClosed(old(pending), pending, now, timing)
      ensures ClosedArePublished(old(pending), pending, store.stored, regime, published[|old(published)|..])
      ensures regime == old(regime)
    {
      order := [];
      ghost var windows := pending;
      ghost var before := published;
      var due := DueSymbols(pending, now, timing);
      var rest := due;
      while rest != {}
        invariant rest <= due
        invariant Lists(order, due - rest)
        invariant pending == windows - (due - rest)
        invariant forall x :: x in order ==> x in windows
        invariant published == before + Emitted(order, windows, store.stored, regime)
        invariant regime == old(regime) && store.stored == old(store.stored)
        decreases rest
      {
        var x :| x in rest;
        EmittedLast(order, x, windows, store.stored, regime);
        OneLess(order, x, due, rest, windows);
        Take(x);
        order := order + [x];
        rest := rest - {x};
      }
      FlushInFull(order, windows, store.stored, regime, now, timing);
      assert published[|before|..] == Emitted(order, windows, store.stored, regime);
    }
  }

  lemma OneLess(order: seq<Symbol>, x: Symbol, due: set<Symbol>, rest: set<Symbol>, windows: map<Symbol, Window>)
    requires x in rest && rest <= due && Lists(order, due - rest)
    ensures Lists(order + [x], due - (rest - {x}))
    ensures windows - (due - rest) - {x} == windows - (due - (rest - {x}))
  {
    assert due - (rest - {x}) == due - rest + {x};
  }

  // ---------- The same, as moves of the two-task model ----------

  lemma FoldingAlone(s: State, e: Event, timing: Timing)
    requires s.handler.Waiting? && e.symbol != MARKET
    ensures Run(s, [Receive(e), Handle], timing)
         == s.(handler := WritingStore(e, Stored(s.store, e.symbol)))
  {
    RunTwo(s, Receive(e), Handle, timing);
  }

  lemma RegisteringAlone(s: State, e: Event, timing: Timing)
    requires s.handler == WritingStore(e, Stored(s.store, e.symbol))
    ensures var t := Run(s, [Handle, Handle], timing);
            && t.handler.Waiting? && t.published == s.published && t.regime == s.regime
            && t.store == s.store[e.symbol := Merge(Stored(s.store, e.symbol), e.fields)]
            && t.pending == s.pending[e.symbol :=
                 Window(s.now, if e.symbol in s.pending then s.pending[e.symbol].first else s.now, e.correlation)]
  {
    RunTwo(s, Handle, Handle, timing);
  }

  lemma MarketAlone(s: State, e: Event, timing: Timing)
    requires s.handler.Waiting? && e.symbol == MARKET
    ensures Run(s, [Receive(e), Handle] + [Handle, Handle], timing)
         == s.(regime := if "sentiment_score" in e.fields && e.fields["sentiment_score"].Some?
                         then e.fields["sentiment_score"] else s.regime)
  {
    var t := Next(Next(s, Receive(e), timing), Handle, timing);
    RunTwo(s, Receive(e), Handle, timing);
    RunTwo(t, Handle, Handle, timing);
    RunAppend(s, [Receive(e), Handle], [Handle, Handle], timing);
  }

  /** A handler left alone does to any event, market-wide ones included, exactly what `HaikuWorker.Handle` does. */
  lemma HandlingAlone(s: State, e: Event, timing: Timing)
    requires s.handler.Waiting?
    ensures var t := Run(s, [Receive(e), Handle] + [Handle, Handle], timing);
            && t.handler.Waiting? && t.published == s.published
            && (e.symbol == MARKET ==> t.pending == s.pending && t.store == s.store)
            && (e.symbol != MARKET ==>
                  && t.store == s.store[e.symbol := Merge(Stored(s.store, e.symbol), e.fields)]
                  && t.pending == s.pending[e.symbol :=
                       Window(s.now, if e.symbol in s.pending then s.pending[e.symbol].first else s.now, e.correlation)])
            && t.regime == if e.symbol == MARKET && "sentiment_score" in e.fields && e.fields["sentiment_score"].Some?
                           then e.fields["sentiment_score"] else s.regime
  {
    if e.symbol == MARKET {
      MarketAlone(s, e, timing);
    } else {
      FoldingAlone(s, e, timing);
      RegisteringAlone(s.(handler := WritingStore(e, Stored(s.store, e.symbol))), e, timing);
      RunAppend(s, [Receive(e), Handle], [Handle, Handle], timing);
    }
  }

  function Sweeps(n: nat): seq<Action> {
    if n == 0 then [] else [Sweep] + Sweeps(n - 1)
  }

  function Plain(analyses: seq<Analysis>): seq<Publication> {
    seq(|analyses|, i requires 0 <= i < |analyses| => Publication(analyses[i].symbol, analyses[i].correlation, analyses[i].features))
  }

  lemma {:induction false} EmittedCons(x: Symbol, rest: seq<Symbol>, windows: map<Symbol, Window>, store: map<Symbol, Features>, regime: Option<Value>)
    requires forall y :: y in [x] + rest ==> y in windows
    requires forall y :: y in rest ==> y in windows
    ensures Emitted([x] + rest, windows, store, regime)
         == Emitted([x], windows, store, regime) + Emitted(rest, windows, store, regime)
    decreases |rest|
  {
    if rest == [] {
      assert [x] + rest == [x];
    } else {
      var n := |rest| - 1;
      var init, last := rest[..n], rest[n];
      assert rest == init + [last] && [x] + rest == [x] + init + [last];
      assert last in rest;
      EmittedCons(x, init, windows, store, regime);
      EmittedLast([x] + init, last, windows, store, regime);
      EmittedLast(init, last, windows, store, regime);
      Regroup(Emitted([x], windows, store, regime), Emitted(init, windows, store, regime), Analysed(last, windows[last], store, regime));
    }
  }

  lemma SweepsStep(s: State, n: nat, timing: Timing)
    requires n > 0
    ensures Run(s, Sweeps(n), timing) == Run(SweeperStep(s), Sweeps(n - 1), timing)
  {
    assert Sweeps(n)[0] == Sweep && Sweeps(n)[1..] == Sweeps(n - 1);
  }

  lemma {:induction false} AsleepSweeps(s: State, n: nat, timing: Timing)
    requires s.sweeper.Asleep?
    ensures Run(s, Sweeps(n), timing) == s
  {
    if n > 0 {
      SweepsStep(s, n, timing);
      AsleepSweeps(s, n - 1, timing);
    }
  }

  /** One due symbol taken: its window deleted, its analysis, if any, published. */
  lemma TakeOne(s: State, head: DueSymbol, due: seq<DueSymbol>, regime: Option<Value>, n: nat, timing: Timing)
    returns (next: State, rest: nat)
    requires s.sweeper == NextDue([head] + due, regime) && n >= 3
    ensures rest >= n - 3 && Run(s, Sweeps(n), timing) == Run(next, Sweeps(rest), timing)
    ensures next.sweeper == NextDue(due, regime) && next.store == s.store && next.pending == s.pending - {head.symbol}
    ensures Plain(next.published) == Plain(s.published)
              + Emitted([head.symbol], map[head.symbol := head.window], s.store, regime)
  {
    var s1 := DeletedOne(s, head, due, regime);
    SweepsStep(s, n, timing);
    next, rest := ReadOne(s1, head, due, regime, n - 1, timing);
  }

  lemma DeletedOne(s: State, head: DueSymbol, due: seq<DueSymbol>, regime: Option<Value>) returns (next: State)
    requires s.sweeper == NextDue([head] + due, regime)
    ensures next == SweeperStep(s) && next.sweeper == ReadingFeatures(head, due, regime)
    ensures next.store == s.store && next.pending == s.pending - {head.symbol} && next.published == s.published
  {
    assert ([head] + due)[1..] == due;
    next := SweeperStep(s);
  }

  /** The features read, and the analysis, if any, published. */
  lemma ReadOne(s: State, head: DueSymbol, due: seq<DueSymbol>, regime: Option<Value>, n: nat, timing: Timing)
    returns (next: State, rest: nat)
    requires s.sweeper == ReadingFeatures(head, due, regime) && n >= 2
    ensures rest >= n - 2 && Run(s, Sweeps(n), timing) == Run(next, Sweeps(rest), timing)
    ensures next.sweeper == NextDue(due, regime) && next.store == s.store && next.pending == s.pending
    ensures Plain(next.published) == Plain(s.published)
              + Emitted([head.symbol], map[head.symbol := head.window], s.store, regime)
  {
    EmittedOne(head.symbol, head.window, s.store, regime);
    SweepsStep(s, n, timing);
    next := SweeperStep(s);
    rest := n - 1;
    if Ready(Stored(s.store, head.symbol)) {
      SweepsStep(next, n - 1, timing);
      PublishedOne(s, head, due, regime);
      next := SweeperStep(next);
      rest := n - 2;
    }
  }

  lemma PublishedOne(s: State, head: DueSymbol, due: seq<DueSymbol>, regime: Option<Value>)
    requires s.sweeper == ReadingFeatures(head, due, regime) && Ready(Stored(s.store, head.symbol))
    ensures var next := SweeperStep(SweeperStep(s));
            && next.sweeper == NextDue(due, regime) && next.store == s.store && next.pending == s.pending
            && Plain(next.published) == Plain(s.published) + Analysed(head.symbol, head.window, s.store, regime)
  {
    PlainAppend(s.published, SweeperStep(s).sweeper.analysis);
  }

  lemma EmittedOne(x: Symbol, w: Window, store: map<Symbol, Features>, regime: Option<Value>)
    ensures Emitted([x], map[x := w], store, regime) == Analysed(x, w, store, regime)
  {
    assert [x][..0] == [];
  }

  lemma PlainAppend(analyses: seq<Analysis>, a: Analysis)
    ensures Plain(analyses + [a]) == Plain(analyses) + [Publication(a.symbol, a.correlation, a.features)]
  {
  }

  /** From its list on, a flush left alone deletes the windows listed and publishes. */
  lemma {:induction false} ListFlushed(s: State, order: seq<Symbol>, windows: map<Symbol, Window>, regime: Option<Value>, n: nat, timing: Timing)
    requires forall x :: x in order ==> x in windows
    requires s.sweeper == NextDue(DueList(order, windows), regime) && n >= 3 * |order| + 1
    ensures var t := Run(s, Sweeps(n), timing);
            && t.sweeper.Asleep?
            && t.pending == s.pending - (set x | x in order)
            && Plain(t.published) == Plain(s.published) + Emitted(order, windows, s.store, regime)
    decreases |order|
  {
    if order == [] {
      FlushDone(s, regime, n, timing);
    } else {
      var x, others := order[0], order[1..];
      EmittedHead(order, windows, s.store, regime);
      var next, rest := TakeOne(s, DueSymbol(x, windows[x]), DueList(others, windows), regime, n, timing);
      ListFlushed(next, others, windows, regime, rest, timing);
      RemoveHead(s.pending, order);
      Regroup(Plain(s.published), Emitted([x], map[x := windows[x]], s.store, regime), Emitted(others, windows, s.store, regime));
    }
  }

  lemma Regroup(a: seq<Publication>, b: seq<Publication>, c: seq<Publication>)
    ensures a + b + c == a + (b + c)
  {
  }

  /** The due windows of `s` are closed and, in this order, the ready ones published on what `s` holds. */
  predicate Flushed(s: State, t: State, order: seq<Symbol>, due: set<Symbol>)
    requires forall x :: x in order ==> x in s.pending
  {
    && t.sweeper.Asleep? && t.pending == s.pending - due
    && Plain(t.published) == Plain(s.published) + Emitted(order, s.pending, s.store, s.regime)
  }

  /** A flush left alone, from the moment it lists what is due and reads the regime, does exactly what
      `HaikuWorker.FlushSettled` does. */
  lemma FlushingAlone(s: State, order: seq<Symbol>, due: set<Symbol>, n: nat, timing: Timing)
    requires s.sweeper.Asleep? && due == DueSymbols(s.pending, s.now, timing) && Lists(order, due) && n >= 3 * |order| + 2
    ensures Flushed(s, Run(Next(s, StartFlush(order), timing), Sweeps(n), timing), order, due)
  {
    var listed := FlushListed(s, order, n, timing);
    DueArePending(s.pending, s.now, timing);
    DueFlushed(s, listed, order, n - 1, due, timing);
  }

  lemma DueArePending(pending: map<Symbol, Window>, now: int, timing: Timing)
    ensures DueSymbols(pending, now, timing) <= pending.Keys
  {
  }

  lemma DueFlushed(s: State, listed: State, order: seq<Symbol>, n: nat, due: set<Symbol>, timing: Timing)
    requires Lists(order, due) && due <= s.pending.Keys
    requires listed.sweeper == NextDue(DueList(order, s.pending), s.regime) && n >= 3 * |order| + 1
    requires listed.store == s.store && listed.pending == s.pending && listed.published == s.published
    ensures Flushed(s, Run(listed, Sweeps(n), timing), order, due)
  {
    ListFlushed(listed, order, s.pending, s.regime, n, timing);
    assert (set x | x in order) == due;
  }

  /** The due symbols are listed and the regime read, before anything is deleted. */
  lemma FlushListed(s: State, order: seq<Symbol>, n: nat, timing: Timing) returns (listed: State)
    requires s.sweeper.Asleep? && Lists(order, DueSymbols(s.pending, s.now, timing)) && n >= 1
    ensures Run(Next(s, StartFlush(order), timing), Sweeps(n), timing) == Run(listed, Sweeps(n - 1), timing)
    ensures listed.sweeper == NextDue(DueList(order, s.pending), s.regime)
    ensures listed.store == s.store && listed.pending == s.pending && listed.published == s.published
  {
    var started := Next(s, StartFlush(order), timing);
    listed := SweeperStep(started);
    SweepsStep(started, n, timing);
  }

  lemma FlushDone(s: State, regime: Option<Value>, n: nat, timing: Timing)
    requires s.sweeper == NextDue([], regime) && n >= 1
    ensures Run(s, Sweeps(n), timing) == s.(sweeper := Asleep)
  {
    SweepsStep(s, n, timing);
    AsleepSweeps(SweeperStep(s), n - 1, timing);
  }

  lemma RemoveHead(pending: map<Symbol, Window>, order: seq<Symbol>)
    requires order != []
    ensures pending - {order[0]} - (set x | x in order[1..]) == pending - (set x | x in order)
  {
    assert order == [order[0]] + order[1..];
  }

  /** The head of the list is taken and emitted first. */
  lemma EmittedHead(order: seq<Symbol>, windows: map<Symbol, Window>, store: map<Symbol, Features>, regime: Option<Value>)
    requires order != [] && forall x :: x in order ==> x in windows
    ensures order[0] in windows && forall x :: x in order[1..] ==> x in windows
    ensures DueList(order, windows) == [DueSymbol(order[0], windows[order[0]])] + DueList(order[1..], windows)
    ensures Emitted(order, windows, store, regime)
         == Emitted([order[0]], map[order[0] := windows[order[0]]], store, regime) + Emitted(order[1..], windows, store, regime)
  {
    var x := order[0];
    HeadListed(order, windows);
    EmittedCons(x, order[1..], windows, store, regime);
    EmittedOne(x, windows[x], store, regime);
    EmittedLast([], x, windows, store, regime);
    assert [] + [x] == [x];
  }

  lemma HeadListed(order: seq<Symbol>, windows: map<Symbol, Window>)
    requires order != [] && forall x :: x in order ==> x in windows
    ensures order == [order[0]] + order[1..]
    ensures order[0] in windows && forall x :: x in order[1..] ==> x in windows
    ensures DueList(order, windows) == [DueSymbol(order[0], windows[order[0]])] + DueList(order[1..], windows)
  {
    assert order[0] in order;
  }
}
