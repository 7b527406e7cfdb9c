/** What the triage worker publishes, how often, and by when. */
module TriageOutcomes {
  import opened Triage
  import opened Wrappers

  // ---------- What an analysis says ----------

  /** Computed on everything folded for the symbol by the time its store was read, for a window that was due. */
  predicate Faithful(a: Analysis, log: seq<Event>, timing: Timing) {
    && a.at <= |log|
    && Ready(Fold(log[..a.at], a.symbol))
    && a.features == WithRegime(Fold(log[..a.at], a.symbol), a.regime)
    && a.correlation == a.window.correlation
    && Due(a.window, a.started, timing)
  }

  predicate DueWhenListed(s: State, timing: Timing) {
    && (forall d :: d in Ahead(s.sweeper) ==> Due(d.window, s.flush.started, timing))
    && (s.sweeper.ReadingFeatures? ==> Due(s.sweeper.head.window, s.flush.started, timing))
  }

  predicate AllFaithful(s: State, timing: Timing) {
    && (forall a :: a in s.published ==> Faithful(a, s.log, timing))
    && (s.sweeper.Publishing? ==> Faithful(s.sweeper.analysis, s.log, timing))
  }

  lemma FaithfulAfterFold(a: Analysis, log: seq<Event>, e: Event, timing: Timing)
    requires Faithful(a, log, timing)
    ensures Faithful(a, log + [e], timing)
  {
    assert (log + [e])[..a.at] == log[..a.at];
  }

  lemma HandlerKeepsFaithful(s: State, timing: Timing)
    requires AllFaithful(s, timing)
    ensures AllFaithful(HandlerStep(s), timing)
  {
    if s.handler.WritingStore? {
      var e := s.handler.event;
      forall a | a in s.published ensures Faithful(a, s.log + [e], timing) {
        FaithfulAfterFold(a, s.log, e, timing);
      }
      if s.sweeper.Publishing? {
        FaithfulAfterFold(s.sweeper.analysis, s.log, e, timing);
      }
    }
  }

  lemma SweeperKeepsFaithful(s: State, timing: Timing)
    requires AllFaithful(s, timing) && DueWhenListed(s, timing) && StoreIsFold(s)
    ensures AllFaithful(SweeperStep(s), timing) && DueWhenListed(SweeperStep(s), timing)
  {
    assert s.log[..|s.log|] == s.log;
    if s.sweeper.NextDue? && s.sweeper.due != [] {
      assert s.sweeper.due[0] in s.sweeper.due;
    }
  }

  lemma StartListsDue(s: State, order: seq<Symbol>, timing: Timing)
    requires DueWhenListed(s, timing)
    ensures DueWhenListed(Next(s, StartFlush(order), timing), timing)
  {
    var t := Next(s, StartFlush(order), timing);
    if t != s {
      forall d | d in Ahead(t.sweeper) ensures Due(d.window, t.flush.started, timing) {
        var i :| 0 <= i < |Ahead(t.sweeper)| && Ahead(t.sweeper)[i] == d;
        assert order[i] in order;
        assert order[i] in DueSymbols(s.pending, s.now, timing);
      }
    }
  }

  lemma MoveKeepsFaithful(s: State, a: Action, timing: Timing)
    requires AllFaithful(s, timing) && DueWhenListed(s, timing) && StoreIsFold(s)
    ensures AllFaithful(Next(s, a, timing), timing) && DueWhenListed(Next(s, a, timing), timing)
  {
    match a
    case Handle => HandlerKeepsFaithful(s, timing);
    case Sweep => SweeperKeepsFaithful(s, timing);
    case StartFlush(order) => StartListsDue(s, order, timing);
    case _ =>
  }

  lemma StoreStaysFold(s: State, a: Action, timing: Timing)
    requires StoreIsFold(s)
    ensures StoreIsFold(Next(s, a, timing))
  {
    if a.Handle? {
      HandlerKeepsStore(s);
    } else {
      SameStoreStaysFold(s, Next(s, a, timing));
    }
  }

  lemma SameStoreStaysFold(s: State, t: State)
    requires StoreIsFold(s) && t.store == s.store && t.log == s.log && (t.handler == s.handler || !t.handler.WritingStore?)
    ensures StoreIsFold(t)
  {
  }

  lemma {:induction false} RunKeepsFaithful(s: State, actions: seq<Action>, timing: Timing)
    requires AllFaithful(s, timing) && DueWhenListed(s, timing) && StoreIsFold(s)
    ensures AllFaithful(Run(s, actions, timing), timing)
    decreases |actions|
  {
    if actions != [] {
      MoveKeepsFaithful(s, actions[0], timing);
      StoreStaysFold(s, actions[0], timing);
      RunKeepsFaithful(Next(s, actions[0], timing), actions[1..], timing);
    }
  }

  /** In every run, failures anywhere included, a published analysis holds, key by key, the last value its symbol's
      events carried up to the moment its features were read, was ready, and its window had been quiet for the settle
      time or open for the maximum delay when its sweep began. */
  lemma AnalysesAreFaithful(start: State, actions: seq<Action>, timing: Timing, a: Analysis, k: Key)
    requires Initial(start) && a in Run(start, actions, timing).published
    ensures var s := Run(start, actions, timing);
            && Faithful(a, s.log, timing)
            && (a.started - a.window.last >= timing.settle || a.started - a.window.first >= timing.maxDelay)
            && ("price_change_pct_24h" in a.features || "liquidity_usd" in a.features)
            && ("sentiment_score" in a.features || "has_social" in a.features || "volume_spike_ratio" in a.features)
            && (a.regime.Some? ==> "market_sentiment" in a.features && a.features["market_sentiment"] == a.regime.value)
            && (k != "market_sentiment" || a.regime.None? ==>
                  (if k in a.features then Some(a.features[k]) else None) == LastValue(s.log[..a.at], a.symbol, k))
  {
    RunKeepsFaithful(start, actions, timing);
    var s := Run(start, actions, timing);
    FoldHoldsLastValues(s.log[..a.at], a.symbol, k);
  }

  // ---------- Which window it closes ----------

  /** The handler is about to register an event of this symbol, so that this move dates its window. */
  predicate Registers(s: State, a: Action, x: Symbol) {
    a.Handle? && s.handler.Registering? && s.handler.event.symbol == x
  }

  /** When the last event of the symbol was registered in the run, if any was. */
  function LastHeard(s: State, actions: seq<Action>, timing: Timing, x: Symbol, heard: Option<int>): Option<int>
    decreases |actions|
  {
    if actions == [] then heard
    else LastHeard(Next(s, actions[0], timing), actions[1..], timing, x, if Registers(s, actions[0], x) then Some(s.now) else heard)
  }

  /** When the first event was registered that found no window of the symbol open, the last time one did. */
  function LastOpened(s: State, actions: seq<Action>, timing: Timing, x: Symbol, began: Option<int>): Option<int>
    decreases |actions|
  {
    if actions == [] then began
    else
      LastOpened(Next(s, actions[0], timing), actions[1..], timing, x,
                 if Registers(s, actions[0], x) && x !in s.pending then Some(s.now) else began)
  }

  predicate Dated(s: State, x: Symbol, heard: Option<int>, began: Option<int>) {
    x in s.pending ==> heard == Some(s.pending[x].last) && began == Some(s.pending[x].first)
  }

  lemma MoveKeepsDated(s: State, a: Action, timing: Timing, x: Symbol, heard: Option<int>, began: Option<int>)
    requires Dated(s, x, heard, began)
    ensures Dated(Next(s, a, timing), x, if Registers(s, a, x) then Some(s.now) else heard,
                  if Registers(s, a, x) && x !in s.pending then Some(s.now) else began)
  {
  }

  /** In every run an open window was last refreshed when the last event of its symbol was registered, and began when one
      was registered that found none open. */
  lemma {:induction false} WindowsAreDated(s: State, actions: seq<Action>, timing: Timing, x: Symbol, heard: Option<int>, began: Option<int>)
    requires Dated(s, x, heard, began)
    ensures Dated(Run(s, actions, timing), x, LastHeard(s, actions, timing, x, heard), LastOpened(s, actions, timing, x, began))
    decreases |actions|
  {
    if actions != [] {
      MoveKeepsDated(s, actions[0], timing, x, heard, began);
      WindowsAreDated(Next(s, actions[0], timing), actions[1..], timing, x,
                      if Registers(s, actions[0], x) then Some(s.now) else heard,
                      if Registers(s, actions[0], x) && x !in s.pending then Some(s.now) else began);
    }
  }

  /** What a flush that begins with this move will take, as its analyses will show it. */
  predicate Begun(s: State, a: Action, x: Symbol, w: Window, started: int) {
    a.StartFlush? && x in s.pending && w == s.pending[x] && started == s.now
  }

  /** Some move of the run begins a flush with this window of this symbol pending at this time. */
  predicate BegunOnTheWay(s: State, actions: seq<Action>, timing: Timing, x: Symbol, w: Window, started: int)
    decreases |actions|
  {
    actions != [] && (Begun(s, actions[0], x, w, started) || BegunOnTheWay(Next(s, actions[0], timing), actions[1..], timing, x, w, started))
  }

  /** The window was listed already when the run began. */
  predicate InHandAlready(s: State, x: Symbol, w: Window, started: int) {
    || (started == s.flush.started && ListedAhead(s.sweeper, x, w))
    || (started == s.flush.started && s.sweeper.ReadingFeatures? && s.sweeper.head == DueSymbol(x, w))
    || (s.sweeper.Publishing? && s.sweeper.analysis.symbol == x && s.sweeper.analysis.window == w && s.sweeper.analysis.started == started)
    || exists a :: a in s.published && a.symbol == x && a.window == w && a.started == started
  }

  lemma MoveListsOnlyPending(s: State, a: Action, timing: Timing, x: Symbol, w: Window, started: int)
    requires InHandAlready(Next(s, a, timing), x, w, started)
    ensures InHandAlready(s, x, w, started) || Begun(s, a, x, w, started)
  {
    match a
    case StartFlush(order) => StartListsOnlyPending(s, order, timing, x, w, started);
    case Sweep => SweepTakesOnlyListed(s, x, w, started);
    case _ =>
  }

  lemma StartListsOnlyPending(s: State, order: seq<Symbol>, timing: Timing, x: Symbol, w: Window, started: int)
    requires InHandAlready(Next(s, StartFlush(order), timing), x, w, started)
    ensures InHandAlready(s, x, w, started) || Begun(s, StartFlush(order), x, w, started)
  {
    var t := Next(s, StartFlush(order), timing);
    if t != s && started == t.flush.started && ListedAhead(t.sweeper, x, w) {
      var d :| d in Ahead(t.sweeper) && d.symbol == x && d.window == w;
      var i :| 0 <= i < |Ahead(t.sweeper)| && Ahead(t.sweeper)[i] == d;
      assert order[i] == x && order[i] in order;
    }
  }

  /** A window ahead in a list of this flush. */
  predicate ListedAhead(w: Sweeper, x: Symbol, window: Window) {
    exists d :: d in Ahead(w) && d.symbol == x && d.window == window
  }

  lemma SweepTakesOnlyListed(s: State, x: Symbol, w: Window, started: int)
    requires InHandAlready(SweeperStep(s), x, w, started)
    ensures InHandAlready(s, x, w, started)
  {
    if ListedAhead(SweeperStep(s).sweeper, x, w) && started == s.flush.started {
      StillListed(s, x, w);
    } else if s.sweeper.NextDue? {
      TakenWasListed(s, x, w, started);
    } else if s.sweeper.Publishing? {
      PublishedWasInHand(s, x, w, started);
    } else {
      ReadWasInHand(s, x, w, started);
    }
  }

  lemma ReadWasInHand(s: State, x: Symbol, w: Window, started: int)
    requires !s.sweeper.NextDue? && !s.sweeper.Publishing? && InHandAlready(SweeperStep(s), x, w, started)
    requires !(ListedAhead(SweeperStep(s).sweeper, x, w) && started == s.flush.started)
    ensures InHandAlready(s, x, w, started)
  {
  }

  lemma StillListed(s: State, x: Symbol, w: Window)
    requires ListedAhead(SweeperStep(s).sweeper, x, w)
    ensures ListedAhead(s.sweeper, x, w)
  {
    var d :| d in Ahead(SweeperStep(s).sweeper) && d.symbol == x && d.window == w;
    assert d in Ahead(s.sweeper);
  }

  lemma TakenWasListed(s: State, x: Symbol, w: Window, started: int)
    requires s.sweeper.NextDue? && InHandAlready(SweeperStep(s), x, w, started)
    requires !(ListedAhead(SweeperStep(s).sweeper, x, w) && started == s.flush.started)
    ensures InHandAlready(s, x, w, started)
  {
    if s.sweeper.due != [] {
      assert s.sweeper.due[0] in Ahead(s.sweeper);
    }
  }

  lemma PublishedWasInHand(s: State, x: Symbol, w: Window, started: int)
    requires s.sweeper.Publishing? && InHandAlready(SweeperStep(s), x, w, started)
    requires !(ListedAhead(SweeperStep(s).sweeper, x, w) && started == s.flush.started)
    ensures InHandAlready(s, x, w, started)
  {
    var t := SweeperStep(s);
    var a :| a in t.published && a.symbol == x && a.window == w && a.started == started;
    assert a in s.published || a == s.sweeper.analysis;
  }

  lemma {:induction false} RunListsOnlyPending(s: State, actions: seq<Action>, timing: Timing, x: Symbol, w: Window, started: int)
    requires InHandAlready(Run(s, actions, timing), x, w, started)
    ensures InHandAlready(s, x, w, started) || BegunOnTheWay(s, actions, timing, x, w, started)
    decreases |actions|
  {
    if actions != [] {
      RunListsOnlyPending(Next(s, actions[0], timing), actions[1..], timing, x, w, started);
      if InHandAlready(Next(s, actions[0], timing), x, w, started) {
        MoveListsOnlyPending(s, actions[0], timing, x, w, started);
      }
    }
  }

  /** In every run the window an analysis closes was pending for its symbol when the flush it names began. */
  lemma AnalysesCloseListedWindows(start: State, actions: seq<Action>, timing: Timing, a: Analysis)
    requires Initial(start) && a in Run(start, actions, timing).published
    ensures BegunOnTheWay(start, actions, timing, a.symbol, a.window, a.started)
  {
    RunListsOnlyPending(start, actions, timing, a.symbol, a.window, a.started);
  }

  // ---------- How often ----------

  function Published(analyses: seq<Analysis>, x: Symbol): nat {
    if analyses == [] then 0
    else Published(analyses[..|analyses| - 1], x) + if analyses[|analyses| - 1].symbol == x then 1 else 0
  }

  function InHand(w: Sweeper, x: Symbol): nat {
    if (w.ReadingFeatures? && w.head.symbol == x) || (w.Publishing? && w.analysis.symbol == x) then 1 else 0
  }

  /** Windows opened, closed and still open balance; each closed window publishes at most once. */
  predicate Tallied(s: State, x: Symbol) {
    && s.openings[x] == s.closings[x] + (if x in s.pending then 1 else 0)
    && Published(s.published, x) + InHand(s.sweeper, x) <= s.closings[x]
  }

  lemma PublishedAppend(analyses: seq<Analysis>, a: Analysis, x: Symbol)
    ensures Published(analyses + [a], x) == Published(analyses, x) + if a.symbol == x then 1 else 0
  {
    assert (analyses + [a])[..|analyses|] == analyses;
  }

  lemma PublishingKeepsTally(s: State, x: Symbol)
    requires Tallied(s, x) && s.sweeper.Publishing?
    ensures Tallied(SweeperStep(s), x)
  {
    PublishedAppend(s.published, s.sweeper.analysis, x);
  }

  lemma TakingKeepsTally(s: State, x: Symbol)
    requires Tallied(s, x) && Deletable(s) && s.sweeper.NextDue?
    ensures Tallied(SweeperStep(s), x)
  {
    if s.sweeper.due != [] {
      DeleteHead(s.sweeper.due, s.pending.Keys);
    }
  }

  lemma SweeperKeepsTally(s: State, x: Symbol)
    requires Tallied(s, x) && Deletable(s)
    ensures Tallied(SweeperStep(s), x)
  {
    if s.sweeper.Publishing? {
      PublishingKeepsTally(s, x);
    } else if s.sweeper.NextDue? {
      TakingKeepsTally(s, x);
    } else {
      ReadingKeepsTally(s, x);
    }
  }

  lemma ReadingKeepsTally(s: State, x: Symbol)
    requires Tallied(s, x) && !s.sweeper.Publishing? && !s.sweeper.NextDue?
    ensures Tallied(SweeperStep(s), x)
  {
  }

  lemma HandlerKeepsTally(s: State, x: Symbol)
    requires Tallied(s, x)
    ensures Tallied(HandlerStep(s), x)
  {
  }

  lemma MoveKeepsTally(s: State, a: Action, timing: Timing, x: Symbol)
    requires Tallied(s, x) && Deletable(s)
    ensures Tallied(Next(s, a, timing), x)
  {
    match a
    case Sweep => SweeperKeepsTally(s, x);
    case Handle => HandlerKeepsTally(s, x);
    case _ =>
  }

  lemma DeletableStays(s: State, a: Action, timing: Timing)
    requires Deletable(s)
    ensures Deletable(Next(s, a, timing))
  {
    match a
    case Sweep => SweeperKeepsDeletable(s);
    case StartFlush(order) => StartKeepsDeletable(s, order, timing);
    case _ =>
  }

  lemma {:induction false} RunKeepsTally(s: State, actions: seq<Action>, timing: Timing, x: Symbol)
    requires Tallied(s, x) && Deletable(s)
    ensures Tallied(Run(s, actions, timing), x)
    decreases |actions|
  {
    if actions != [] {
      MoveKeepsTally(s, actions[0], timing, x);
      DeletableStays(s, actions[0], timing);
      RunKeepsTally(Next(s, actions[0], timing), actions[1..], timing, x);
    }
  }

  /** In every run, a symbol's analyses never outnumber its closed windows, and at most one window is open. */
  lemma AtMostOneAnalysisPerWindow(start: State, actions: seq<Action>, timing: Timing, x: Symbol)
    requires Initial(start)
    ensures var s := Run(start, actions, timing);
            Published(s.published, x) <= s.closings[x] <= s.openings[x] <= s.closings[x] + 1
  {
    RunKeepsTally(start, actions, timing, x);
  }

  // ---------- By when ----------

  predicate Listed(due: seq<DueSymbol>, x: Symbol) {
    exists i :: 0 <= i < |due| && due[i].symbol == x
  }

  /** Each symbol the running flush found due is still ahead, in hand, or decided as of the start of the flush. */
  predicate Served(s: State, x: Symbol) {
    || Listed(Ahead(s.sweeper), x)
    || (s.sweeper.ReadingFeatures? && s.sweeper.head.symbol == x)
    || (s.sweeper.Publishing? && s.sweeper.analysis.symbol == x && s.flush.mark <= s.sweeper.analysis.at)
    || s.flush.mark <= Settled(s, x)
  }

  predicate Serving(s: State) {
    s.flush.mark <= |s.log| && (!s.sweeper.Asleep? ==> forall x :: x in s.flush.due ==> Served(s, x))
  }

  lemma SweeperKeepsServed(s: State, x: Symbol)
    requires Served(s, x) && Progress(s) && s.flush.mark <= |s.log| && !s.sweeper.Asleep?
    requires !SweeperStep(s).sweeper.Asleep?
    ensures Served(SweeperStep(s), x)
  {
    if Listed(Ahead(s.sweeper), x) {
      ListedStaysServed(s, x);
    } else {
      InHandStaysServed(s, x);
    }
  }

  lemma ListedStaysServed(s: State, x: Symbol)
    requires Listed(Ahead(s.sweeper), x) && !SweeperStep(s).sweeper.Asleep?
    ensures Served(SweeperStep(s), x)
  {
    var t := SweeperStep(s);
    var i :| 0 <= i < |Ahead(s.sweeper)| && Ahead(s.sweeper)[i].symbol == x;
    if s.sweeper.NextDue? && i > 0 {
      assert Ahead(t.sweeper)[i - 1].symbol == x;
    } else if !s.sweeper.NextDue? {
      assert Ahead(t.sweeper)[i].symbol == x;
    }
  }

  lemma InHandStaysServed(s: State, x: Symbol)
    requires Served(s, x) && !Listed(Ahead(s.sweeper), x) && Progress(s) && s.flush.mark <= |s.log|
    ensures Served(SweeperStep(s), x)
  {
  }

  lemma StartServes(s: State, order: seq<Symbol>, timing: Timing)
    requires Serving(s)
    ensures Serving(Next(s, StartFlush(order), timing))
  {
    var t := Next(s, StartFlush(order), timing);
    if t != s {
      forall x | x in t.flush.due ensures Served(t, x) {
        var i :| 0 <= i < |order| && order[i] == x;
        assert Ahead(t.sweeper)[i].symbol == x;
      }
    }
  }

  lemma SweeperServes(s: State)
    requires Serving(s) && Progress(s)
    ensures Serving(SweeperStep(s))
  {
    if !SweeperStep(s).sweeper.Asleep? {
      forall x | x in s.flush.due ensures Served(SweeperStep(s), x) {
        SweeperKeepsServed(s, x);
      }
    }
  }

  lemma HandlerServes(s: State)
    requires Serving(s)
    ensures Serving(HandlerStep(s))
  {
    if !s.sweeper.Asleep? {
      forall x | x in s.flush.due ensures Served(HandlerStep(s), x) {
        HandlerKeepsServed(s, x);
      }
    }
  }

  lemma MoveKeepsServing(s: State, a: Action, timing: Timing)
    requires Serving(s) && Progress(s)
    ensures Serving(Next(s, a, timing))
  {
    match a
    case StartFlush(order) => StartServes(s, order, timing);
    case Sweep => SweeperServes(s);
    case Handle => HandlerServes(s);
    case _ =>
      var t := Next(s, a, timing);
      assert t.flush == s.flush && t.log == s.log && (t.sweeper == s.sweeper || t.sweeper.Asleep?);
  }

  lemma HandlerKeepsServed(s: State, x: Symbol)
    requires Served(s, x)
    ensures Served(HandlerStep(s), x)
  {
  }

  lemma ProgressStays(s: State, a: Action, timing: Timing)
    requires Progress(s)
    ensures Progress(Next(s, a, timing))
  {
    if a.Sweep? {
      SweeperKeepsProgress(s);
    }
  }

  lemma {:induction false} RunKeepsServing(s: State, actions: seq<Action>, timing: Timing)
    requires Serving(s) && Progress(s)
    ensures Serving(Run(s, actions, timing))
    decreases |actions|
  {
    if actions != [] {
      MoveKeepsServing(s, actions[0], timing);
      ProgressStays(s, actions[0], timing);
      RunKeepsServing(Next(s, actions[0], timing), actions[1..], timing);
    }
  }

  /** When a flush has worked through its list, every event folded before it began, of every symbol it found due,
      has been decided on; and it found due every window as old as the maximum delay. */
  lemma FlushMeetsDeadline(start: State, before: seq<Action>, order: seq<Symbol>, after: seq<Action>, timing: Timing, x: Symbol)
    requires Initial(start)
    requires var s := Run(start, before, timing);
             s.sweeper.Asleep? && Lists(order, DueSymbols(s.pending, s.now, timing))
             && x in s.pending && s.now - s.pending[x].first >= timing.maxDelay
    requires var s := Run(start, before, timing);
             var t := Run(Next(s, StartFlush(order), timing), after, timing);
             t.sweeper.NextDue? && t.sweeper.due == [] && t.flush == Next(s, StartFlush(order), timing).flush
    ensures var s := Run(start, before, timing);
            var t := Run(Next(s, StartFlush(order), timing), after, timing);
            |s.log| <= Settled(t, x)
  {
    var s := Run(start, before, timing);
    RunKeepsServing(start, before, timing);
    RunKeepsProgress(start, before, timing);
    var f := Next(s, StartFlush(order), timing);
    MoveKeepsServing(s, StartFlush(order), timing);
    RunKeepsServing(f, after, timing);
    assert Served(Run(f, after, timing), x);
  }

  lemma {:induction false} RunKeepsProgress(s: State, actions: seq<Action>, timing: Timing)
    requires Progress(s)
    ensures Progress(Run(s, actions, timing))
    decreases |actions|
  {
    if actions != [] {
      ProgressStays(s, actions[0], timing);
      RunKeepsProgress(Next(s, actions[0], timing), actions[1..], timing);
    }
  }
}
