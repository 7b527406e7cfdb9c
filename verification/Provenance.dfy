/**
 Where the numbers behind an order come from: the approval on record, the configuration in force when it was loaded,
 the equity the exchange answered with.
 */
module Provenance {
  import opened Ledger
  import opened Limits
  import opened Protocol
  import opened RiskRules
  import opened Sizing
  import opened Symbols
  import opened WholeHandlers
  import opened Wrappers

  // ---------- In every run ----------

  /** What an approval was granted under: the configuration a handler of it loaded. */
  type Loaded = (Approval, TradingConfig)

  /** The loads of a run: at each, the configuration in force just then, for the approval the handler is about. */
  function Loads(s: System, actions: seq<Action>, setup: Setup): set<Loaded>
    decreases |actions|
  {
    if actions == [] then {}
    else LoadedBy(s, actions[0], setup) + Loads(Next(s, actions[0], setup), actions[1..], setup)
  }

  function LoadedBy(s: System, a: Action, setup: Setup): set<Loaded> {
    if a.Step? && TaskIn(s, a.slot).LoadConfig? then {(TaskIn(s, a.slot).ev, Load(s.world.runtime, setup.defaults))} else {}
  }

  /** The grants of a run: at each, a handler has its approval and its configuration in hand and is answered the equity. */
  function Answers(s: System, actions: seq<Action>, setup: Setup): set<Grant>
    decreases |actions|
  {
    if actions == [] then {} else AnsweredBy(s, actions[0]) + Answers(Next(s, actions[0], setup), actions[1..], setup)
  }

  function AnsweredBy(s: System, a: Action): set<Grant> {
    if a.Step? && TaskIn(s, a.slot).ReadEquity? then {Grant(TaskIn(s, a.slot).ev, TaskIn(s, a.slot).config, a.equity)} else {}
  }

  /** Approvals are published once, under the serial number of the handler that raised them. */
  predicate Filed(s: System) {
    && (forall k :: k in s.world.approvals ==> k < |s.risk| && s.risk[k].Done? && s.world.approvals[k].id == k)
    && (forall i :: 0 <= i < |s.risk| && s.risk[i].Charging? ==> s.risk[i].approval.id == i)
    && (forall i :: 0 <= i < |s.risk| && s.risk[i].Publishing? ==> s.risk[i].approval.id == i)
    && (forall k :: k in s.world.pending ==> Genuine(s.world, s.world.pending[k]))
  }

  predicate Sourced(g: Grant, w: World, loads: set<Loaded>, grants: set<Grant>) {
    Genuine(w, g.ev) && (g.ev, g.config) in loads && g in grants
  }

  predicate SourcedTask(t: Task, w: World, loads: set<Loaded>, grants: set<Grant>) {
    match t
    case Idle => true
    case LoadPending(_, _) => true
    case Guard(ev, config, _) => Genuine(w, ev) && (ev, config) in loads
    case ReadEquity(ev, config, _) => Genuine(w, ev) && (ev, config) in loads
    case Executing(g, _) => Sourced(g, w, loads, grants)
    case _ => Genuine(w, t.ev)
  }

  predicate SourcedOrders(w: World, loads: set<Loaded>, grants: set<Grant>) {
    forall o :: o in w.orders && o.sender.ByExecution? ==> Sourced(o.sender.grant, w, loads, grants)
  }

  predicate AllSourced(s: System, loads: set<Loaded>, grants: set<Grant>) {
    && Filed(s)
    && SourcedTask(s.signal, s.world, loads, grants) && SourcedTask(s.command, s.world, loads, grants)
    && SourcedOrders(s.world, loads, grants)
  }

  lemma ExecutionKeepsSourced(w: World, g: Grant, done: nat, loads: set<Loaded>, grants: set<Grant>)
    requires SourcedOrders(w, loads, grants) && Sourced(g, w, loads, grants)
    ensures var w' := ExecuteAwait(w, g, done);
            w'.approvals == w.approvals && w'.pending == w.pending && SourcedOrders(w', loads, grants)
  {
  }

  lemma StepKeepsSourced(w: World, t: Task, setup: Setup, equity: real, loads: set<Loaded>, grants: set<Grant>)
    requires SourcedOrders(w, loads, grants) && SourcedTask(t, w, loads, grants)
    requires forall k :: k in w.pending ==> Genuine(w, w.pending[k])
    requires t.LoadConfig? ==> (t.ev, Load(w.runtime, setup.defaults)) in loads
    requires t.ReadEquity? ==> Grant(t.ev, t.config, equity) in grants
    ensures var (w', t') := TaskStep(w, t, setup.defaults, equity);
            && w'.approvals == w.approvals
            && SourcedOrders(w', loads, grants) && SourcedTask(t', w, loads, grants)
            && (forall k :: k in w'.pending ==> Genuine(w, w'.pending[k]))
  {
    if t.Executing? {
      ExecutionKeepsSourced(w, t.grant, t.done, loads, grants);
    } else {
      OtherStepKeepsSourced(w, t, setup, equity, loads, grants);
    }
  }

  lemma OtherStepKeepsSourced(w: World, t: Task, setup: Setup, equity: real, loads: set<Loaded>, grants: set<Grant>)
    requires SourcedTask(t, w, loads, grants) && !t.Executing?
    requires forall k :: k in w.pending ==> Genuine(w, w.pending[k])
    requires t.LoadConfig? ==> (t.ev, Load(w.runtime, setup.defaults)) in loads
    requires t.ReadEquity? ==> Grant(t.ev, t.config, equity) in grants
    ensures var (w', t') := TaskStep(w, t, setup.defaults, equity);
            && w'.approvals == w.approvals && w'.orders == w.orders
            && SourcedTask(t', w, loads, grants)
            && (forall k :: k in w'.pending ==> Genuine(w, w'.pending[k]))
  {
  }

  lemma TaskKeepsSourced(s: System, slot: Slot, equity: real, setup: Setup, loads: set<Loaded>, grants: set<Grant>)
    requires AllSourced(s, loads, grants)
    requires LoadedBy(s, Step(slot, equity), setup) <= loads && AnsweredBy(s, Step(slot, equity)) <= grants
    ensures AllSourced(Next(s, Step(slot, equity), setup), loads, grants)
  {
    StepKeepsSourced(s.world, TaskIn(s, slot), setup, equity, loads, grants);
    OtherTaskSourced(if slot == Signal then s.command else s.signal, s.world,
                     TaskStep(s.world, TaskIn(s, slot), setup.defaults, equity).0, loads, grants);
  }

  lemma OtherTaskSourced(t: Task, w: World, w': World, loads: set<Loaded>, grants: set<Grant>)
    requires SourcedTask(t, w, loads, grants) && w'.approvals == w.approvals
    ensures SourcedTask(t, w', loads, grants)
  {
  }

  /** Approvals are only added, and neither the orders nor the queue change. */
  predicate SameSources(w: World, w': World) {
    && (forall k :: k in w.approvals ==> k in w'.approvals && w'.approvals[k] == w.approvals[k])
    && w'.pending == w.pending && w'.orders == w.orders
  }

  lemma SourcesKeep(s: System, t: System, loads: set<Loaded>, grants: set<Grant>)
    requires AllSourced(s, loads, grants) && SameSources(s.world, t.world) && Filed(t)
    requires SourcedTask(t.signal, s.world, loads, grants) && SourcedTask(t.command, s.world, loads, grants)
    ensures AllSourced(t, loads, grants)
  {
    TaskStaysSourced(t.signal, s.world, t.world, loads, grants);
    TaskStaysSourced(t.command, s.world, t.world, loads, grants);
  }

  lemma TaskStaysSourced(t: Task, w: World, w': World, loads: set<Loaded>, grants: set<Grant>)
    requires SourcedTask(t, w, loads, grants) && SameSources(w, w')
    ensures SourcedTask(t, w', loads, grants)
  {
  }

  lemma ReadingKeepsFiled(s: System, i: nat, cfg: RiskConfig)
    requires Filed(s) && i < |s.risk| && s.risk[i].Reading?
    ensures Filed(RiskStep(s, i, cfg)) && RiskStep(s, i, cfg).world == s.world
  {
    DecidedFits(i, s.risk[i].decision, s.world.exposure, cfg);
  }

  lemma ChargingKeepsFiled(s: System, i: nat, cfg: RiskConfig)
    requires Filed(s) && i < |s.risk| && !s.risk[i].Reading?
    ensures Filed(RiskStep(s, i, cfg)) && SameSources(s.world, RiskStep(s, i, cfg).world)
  {
  }

  lemma RiskKeepsFiled(s: System, a: Action, setup: Setup)
    requires Filed(s) && (a.StartRisk? || a.StepRisk? || a.DropRisk?)
    ensures var t := Next(s, a, setup);
            Filed(t) && SameSources(s.world, t.world) && t.signal == s.signal && t.command == s.command
  {
    if a.StepRisk? && a.handler < |s.risk| {
      RiskStepKeepsFiled(s, a.handler, setup.risk);
    } else {
      StartOrDropKeepsFiled(s, a, setup);
    }
  }

  lemma StartOrDropKeepsFiled(s: System, a: Action, setup: Setup)
    requires Filed(s) && (a.StartRisk? || a.DropRisk? || (a.StepRisk? && a.handler >= |s.risk|))
    ensures var t := Next(s, a, setup);
            Filed(t) && t.world == s.world && t.signal == s.signal && t.command == s.command
  {
  }

  lemma RiskStepKeepsFiled(s: System, i: nat, cfg: RiskConfig)
    requires Filed(s) && i < |s.risk|
    ensures var t := RiskStep(s, i, cfg);
            Filed(t) && SameSources(s.world, t.world) && t.signal == s.signal && t.command == s.command
  {
    if s.risk[i].Reading? {
      ReadingKeepsFiled(s, i, cfg);
    } else {
      ChargingKeepsFiled(s, i, cfg);
    }
  }

  lemma RiskKeepsSourced(s: System, a: Action, setup: Setup, loads: set<Loaded>, grants: set<Grant>)
    requires AllSourced(s, loads, grants) && (a.StartRisk? || a.StepRisk? || a.DropRisk?)
    ensures AllSourced(Next(s, a, setup), loads, grants)
  {
    RiskKeepsFiled(s, a, setup);
    SourcesKeep(s, Next(s, a, setup), loads, grants);
  }

  lemma SettingKeepsSourced(s: System, a: Action, setup: Setup, loads: set<Loaded>, grants: set<Grant>)
    requires AllSourced(s, loads, grants) && IsSetting(a)
    ensures AllSourced(Next(s, a, setup), loads, grants)
  {
    OperatorKeepsBook(s.world, a, setup);
    OperatorSendsNoExecution(s.world, a, setup, loads, grants);
  }

  lemma OperatorSendsNoExecution(w: World, a: Action, setup: Setup, loads: set<Loaded>, grants: set<Grant>)
    requires SourcedOrders(w, loads, grants) && IsSetting(a)
    ensures forall s: System :: s.world == w ==> SourcedOrders(Next(s, a, setup).world, loads, grants)
  {
  }

  lemma StartsKeepSourced(s: System, t: System, loads: set<Loaded>, grants: set<Grant>)
    requires AllSourced(s, loads, grants) && OnlyStarts(s, t)
    ensures AllSourced(t, loads, grants)
  {
    SourcesKeep(s, t, loads, grants);
  }

  lemma {:induction false} RunKeepsSourced(s: System, actions: seq<Action>, setup: Setup, loads: set<Loaded>, grants: set<Grant>)
    requires AllSourced(s, loads, grants)
    requires Loads(s, actions, setup) <= loads && Answers(s, actions, setup) <= grants
    ensures AllSourced(Run(s, actions, setup), loads, grants)
    decreases |actions|
  {
    if actions != [] {
      var a := actions[0];
      if a.Step? {
        TaskKeepsSourced(s, a.slot, a.equity, setup, loads, grants);
      } else if a.StartRisk? || a.StepRisk? || a.DropRisk? {
        RiskKeepsSourced(s, a, setup, loads, grants);
      } else if IsSetting(a) {
        SettingKeepsSourced(s, a, setup, loads, grants);
      } else {
        OtherMovesOnlyStart(s, a, setup);
        StartsKeepSourced(s, Next(s, a, setup), loads, grants);
      }
      RunKeepsSourced(Next(s, a, setup), actions[1..], setup, loads, grants);
    }
  }

  /** In every run, crashes, approvals and interleavings included, each order `_execute` sends is sized from the approval
      published under its id, the configuration in force when a handler of that approval loaded it, and the equity the
      exchange answered that handler; it was granted with trading enabled, is worth no more than each cap of that configuration allows at that
      equity, while one contract step more would exceed them; and it buys exactly for LONG and sells exactly for SHORT. */
  lemma ExecutedOrdersRespectCaps(start: System, actions: seq<Action>, setup: Setup, o: Sent, maxFraction: nat)
    returns (count: int)
    requires Initial(start) && Maximum(setup.risk, maxFraction)
    requires o in Run(start, actions, setup).world.orders && o.sender.ByExecution?
    ensures var g, w := o.sender.grant, Run(start, actions, setup).world;
            && g.ev.id in w.approvals && w.approvals[g.ev.id] == g.ev
            && (g.ev, g.config) in Loads(start, actions, setup) && g in Answers(start, actions, setup)
            && WithinLicence(o, g, maxFraction, count)
  {
    RunKeepsSourced(start, actions, setup, Loads(start, actions, setup), Answers(start, actions, setup));
    count := LicensedOrdersRespectCaps(start, actions, setup, o, maxFraction);
  }

  // ---------- A whole handler ----------

  /** From the configuration on, a handler left alone sends nothing or the bracket of what it loaded and was answered. */
  lemma FinishFromConfig(w: World, ev: Approval, operator: bool, defaults: TradingConfig, equity: real)
    ensures var g := Grant(ev, Load(w.runtime, defaults), equity);
            var w' := Finish(w, LoadConfig(ev, operator), defaults, equity);
            || w'.orders == w.orders
            || (w'.orders == w.orders + BracketOf(g) && g.config.tradingEnabled && g.Size() > 0.0 && Tradable(ev.symbol))
  {
    var config := Load(w.runtime, defaults);
    var (w1, reason) := CheckGuards(w, config);
    FinishStep(w, LoadConfig(ev, operator), defaults, equity);
    FinishStep(w, Guard(ev, config, operator), defaults, equity);
    if reason.Some? {
      FinishRefusal(w1, ev, reason.value, defaults, equity);
    } else if !operator && !Tradable(ev.symbol) {
      FinishRefusal(w1, ev, UnknownSymbol, defaults, equity);
    } else {
      FinishStep(w1, ReadEquity(ev, config, operator), defaults, equity);
      FinishFromEquity(w1, Grant(ev, config, equity), operator, defaults, equity);
    }
  }

  lemma FinishRefusal(w: World, ev: Approval, reason: Reason, defaults: TradingConfig, equity: real)
    ensures Finish(w, Refuse(ev, reason), defaults, equity).orders == w.orders
  {
    FinishStep(w, Refuse(ev, reason), defaults, equity);
  }

  lemma FinishFromEquity(w: World, g: Grant, operator: bool, defaults: TradingConfig, equity: real)
    ensures var w' := Finish(w, AfterSizing(g, operator), defaults, equity);
            || w'.orders == w.orders
            || (w'.orders == w.orders + BracketOf(g) && g.Size() > 0.0 && Tradable(g.ev.symbol))
  {
    if g.Size() <= 0.0 {
      FinishRefusal(w, g.ev, BelowMinSize, defaults, equity);
    } else if !operator && !g.config.autoTrading {
      var w1 := w.(pending := w.pending[g.ev.id := g.ev]);
      var w2 := w1.(pendingSet := w1.pendingSet + {g.ev.id});
      FinishStep(w, StorePending(g.ev), defaults, equity);
      FinishStep(w1, ListPending(g.ev), defaults, equity);
      FinishStep(w2, AnnouncePending(g.ev), defaults, equity);
    } else if Tradable(g.ev.symbol) {
      FinishExecuting(w, g, defaults, equity);
    }
  }

  /** Entry, stop and target for this approval, on its side and the other, all of one size: the largest the caps of
      this configuration allow at this equity. */
  predicate Placed(sent: seq<Sent>, ev: Approval, config: TradingConfig, equity: real, maxFraction: nat, count: int) {
    && |sent| == 3 && Tradable(ev.symbol) && ev.direction != Watch && config.tradingEnabled
    && var pair, size := PairOf(ev.symbol), sent[0].order.size;
    && var side, exit := if ev.direction == Long then Buy else Sell, if ev.direction == Long then Sell else Buy;
    && sent[0].order == Order(pair, side, Limit, size, Some(ev.entry), false, Bracket(ev.id, EntryLeg))
    && sent[1].order == Order(pair, exit, StopLoss, size, Some(ev.stop), true, Bracket(ev.id, StopLeg))
    && sent[2].order == Order(pair, exit, TakeProfit, size, Some(ev.target), true, Bracket(ev.id, TargetLeg))
    && 0.0 < size && UnderCaps(size, ev.entry, equity, config.caps, maxFraction)
    && Largest(size, count, Notional(equity, ev.fraction, config.caps), ev.entry, STEPS_PER_CONTRACT)
  }

  lemma BracketIsPlaced(g: Grant, cfg: RiskConfig, maxFraction: nat) returns (count: int)
    requires Licensed(g, cfg) && Maximum(cfg, maxFraction)
    ensures Placed(BracketOf(g), g.ev, g.config, g.equity, maxFraction, count)
  {
    count := GrantRespectsCaps(g, cfg, maxFraction);
  }

  /** The event a delivery or an operator's approval is about: the one published, or the one waiting. */
  function Subject(w: World, id: EventId, operator: bool): Option<Approval> {
    if operator then (if id in w.pending then Some(w.pending[id]) else None)
    else (if id in w.approvals then Some(w.approvals[id]) else None)
  }

  function Opening(ev: Approval, id: EventId, operator: bool): Task {
    if operator then LoadPending(id, None) else CheckSubmitted(ev)
  }

  /** After any run, a whole delivery or approval sends nothing, or the bracket that the configuration then in force
      and the equity it is answered allow for the approval on record. */
  lemma WholeHandlersRespectCaps(start: System, actions: seq<Action>, setup: Setup, id: EventId, operator: bool, equity: real,
                                 maxFraction: nat)
    returns (count: int)
    requires Initial(start) && Maximum(setup.risk, maxFraction)
    requires Subject(Run(start, actions, setup).world, id, operator).Some?
    ensures var w := Run(start, actions, setup).world;
            var ev := Subject(w, id, operator).value;
            var w' := Finish(w, Opening(ev, id, operator), setup.defaults, equity);
            && Genuine(w, ev) && w.orders <= w'.orders
            && (w'.orders == w.orders
                || Placed(w'.orders[|w.orders|..], ev, Load(w.runtime, setup.defaults), equity, maxFraction, count))
  {
    var s := Run(start, actions, setup);
    var w := s.world;
    var ev := Subject(w, id, operator).value;
    RunKeepsLicences(start, actions, setup);
    RunKeepsSourced(start, actions, setup, Loads(start, actions, setup), Answers(start, actions, setup));
    count := OpeningRespectsCaps(w, ev, id, operator, equity, setup, maxFraction);
  }

  lemma OpeningRespectsCaps(w: World, ev: Approval, id: EventId, operator: bool, equity: real, setup: Setup, maxFraction: nat)
    returns (count: int)
    requires Subject(w, id, operator) == Some(ev) && Vetted(ev, setup.risk)
    requires Maximum(setup.risk, maxFraction)
    ensures var w' := Finish(w, Opening(ev, id, operator), setup.defaults, equity);
            && w.orders <= w'.orders
            && (w'.orders == w.orders
                || Placed(w'.orders[|w.orders|..], ev, Load(w.runtime, setup.defaults), equity, maxFraction, count))
  {
    var g := Grant(ev, Load(w.runtime, setup.defaults), equity);
    OpeningLoads(w, ev, id, operator, setup.defaults, equity);
    if Licensed(g, setup.risk) {
      count := BracketIsPlaced(g, setup.risk, maxFraction);
      assert (w.orders + BracketOf(g))[|w.orders|..] == BracketOf(g);
    } else {
      count := 0;
    }
  }

  lemma OpeningLoads(w: World, ev: Approval, id: EventId, operator: bool, defaults: TradingConfig, equity: real)
    requires Subject(w, id, operator) == Some(ev)
    ensures var g := Grant(ev, Load(w.runtime, defaults), equity);
            var w' := Finish(w, Opening(ev, id, operator), defaults, equity);
            || w'.orders == w.orders
            || (w'.orders == w.orders + BracketOf(g) && g.config.tradingEnabled && g.Size() > 0.0 && Tradable(ev.symbol))
  {
    FinishStep(w, Opening(ev, id, operator), defaults, equity);
    if operator {
      FinishStep(w, Unlist(ev, None), defaults, equity);
      FinishFromConfig(w.(pendingSet := w.pendingSet - {ev.id}), ev, true, defaults, equity);
    } else {
      FinishFromConfig(w, ev, false, defaults, equity);
    }
  }
}
