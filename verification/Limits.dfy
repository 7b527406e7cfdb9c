/** What every executed order is limited by, in every run: approvals, caps, the kill switch. */
module Limits {
  import opened Protocol
  import opened RiskRules
  import opened Rounding
  import opened Sizing
  import opened Symbols
  import opened WholeHandlers
  import opened Wrappers

  // ---------- Every executed order is licensed ----------

  /** What the risk engine guarantees of an approval. */
  predicate Vetted(a: Approval, cfg: RiskConfig) {
    && a.direction != Watch
    && a.fraction <= Round(Times(cfg.maxPositionPct, FULL))
    && (a.direction == Long ==> 0.0 < a.stop < a.entry < a.target)
    && (a.direction == Short ==> 0.0 < a.target < a.entry < a.stop)
  }

  /** What the trading engine guarantees of a grant it executes. */
  predicate Licensed(g: Grant, cfg: RiskConfig) {
    Vetted(g.ev, cfg) && g.config.tradingEnabled && g.Size() > 0.0 && Tradable(g.ev.symbol)
  }

  predicate LicensedOrder(o: Sent, cfg: RiskConfig) {
    o.sender.ByExecution? ==>
      var g := o.sender.grant;
      Licensed(g, cfg) && (o.order == EntryOrder(g) || o.order == StopOrder(g) || o.order == TargetOrder(g))
  }

  predicate LicensedTask(t: Task, cfg: RiskConfig) {
    match t
    case Idle => true
    case LoadPending(_, _) => true
    case ReadEquity(ev, config, _) => Vetted(ev, cfg) && config.tradingEnabled
    case Executing(g, _) => Licensed(g, cfg)
    case _ => Vetted(t.ev, cfg)
  }

  predicate LicensedRisk(t: RiskTask, cfg: RiskConfig) {
    match t
    case Reading(d) => d.WellFormed()
    case Charging(_, a) => Vetted(a, cfg)
    case Publishing(a) => Vetted(a, cfg)
    case Done => true
  }

  predicate LicensedWorld(w: World, cfg: RiskConfig) {
    && (forall id :: id in w.approvals ==> Vetted(w.approvals[id], cfg))
    && (forall id :: id in w.pending ==> Vetted(w.pending[id], cfg))
    && (forall o :: o in w.orders ==> LicensedOrder(o, cfg))
  }

  predicate AllLicensed(s: System, cfg: RiskConfig) {
    && LicensedWorld(s.world, cfg)
    && LicensedTask(s.signal, cfg) && LicensedTask(s.command, cfg)
    && (forall i :: 0 <= i < |s.risk| ==> LicensedRisk(s.risk[i], cfg))
  }

  lemma DecidedIsVetted(id: EventId, d: Decision, exposure: int, cfg: RiskConfig)
    requires d.WellFormed() && 0.0 <= cfg.maxPositionPct
    ensures Decide(id, d, exposure, cfg).Some? ==> Vetted(Decide(id, d, exposure, cfg).value, cfg)
  {
    PositionSizeBounds(d.confidence, d.confidence, cfg.maxPositionPct);
  }

  lemma StepKeepsLicences(w: World, t: Task, setup: Setup, equity: real)
    requires LicensedWorld(w, setup.risk) && LicensedTask(t, setup.risk)
    ensures var (w', t') := TaskStep(w, t, setup.defaults, equity);
            LicensedWorld(w', setup.risk) && LicensedTask(t', setup.risk)
  {
    if t.Executing? {
      ExecutionKeepsLicences(w, t.grant, t.done, setup.risk);
    }
  }

  lemma ExecutionKeepsLicences(w: World, g: Grant, done: nat, cfg: RiskConfig)
    requires LicensedWorld(w, cfg) && Licensed(g, cfg)
    ensures LicensedWorld(ExecuteAwait(w, g, done), cfg)
  {
  }

  lemma RiskStepKeepsLicences(s: System, i: nat, setup: Setup)
    requires AllLicensed(s, setup.risk) && 0.0 <= setup.risk.maxPositionPct && i < |s.risk|
    ensures AllLicensed(RiskStep(s, i, setup.risk), setup.risk)
  {
    if s.risk[i].Reading? {
      DecidedIsVetted(i, s.risk[i].decision, s.world.exposure, setup.risk);
    }
  }

  lemma RiskKeepsLicences(s: System, a: Action, setup: Setup)
    requires AllLicensed(s, setup.risk) && 0.0 <= setup.risk.maxPositionPct
    requires a.StartRisk? || a.StepRisk? || a.DropRisk?
    ensures AllLicensed(Next(s, a, setup), setup.risk)
  {
    if a.StepRisk? && a.handler < |s.risk| {
      RiskStepKeepsLicences(s, a.handler, setup);
    }
  }

  lemma OperatorKeepsLicences(s: System, a: Action, setup: Setup)
    requires LicensedWorld(s.world, setup.risk) && IsSetting(a)
    ensures LicensedWorld(Next(s, a, setup).world, setup.risk)
  {
    match a
    case OperatorClose(id) => CloseKeepsLicences(s.world, id, setup.risk);
    case OperatorAdjust(id, stop, target) =>
      if id in s.world.positions {
        LegKeepsLicences(s.world, id, StopLeg, StopLoss, stop, setup.risk);
        LegKeepsLicences(AdjustLeg(s.world, id, StopLeg, StopLoss, stop), id, TargetLeg, TakeProfit, target, setup.risk);
      }
    case OperatorOrder(r, lastPrice) => ManualKeepsLicences(s.world, r, lastPrice, setup);
    case _ =>
  }

  lemma CloseKeepsLicences(w: World, id: EventId, cfg: RiskConfig)
    requires LicensedWorld(w, cfg)
    ensures LicensedWorld(ClosePosition(w, id), cfg)
  {
  }

  lemma LegKeepsLicences(w: World, id: EventId, leg: Leg, kind: OrderKind, price: Option<real>, cfg: RiskConfig)
    requires LicensedWorld(w, cfg) && id in w.positions
    ensures LicensedWorld(AdjustLeg(w, id, leg, kind, price), cfg)
  {
  }

  lemma ManualKeepsLicences(w: World, r: ManualRequest, lastPrice: Option<real>, setup: Setup)
    requires LicensedWorld(w, setup.risk)
    ensures LicensedWorld(ManualOrder(w, r, lastPrice, setup.defaults), setup.risk)
  {
  }

  lemma StartsKeepLicences(s: System, t: System, cfg: RiskConfig)
    requires AllLicensed(s, cfg) && OnlyStarts(s, t)
    ensures AllLicensed(t, cfg)
  {
  }

  lemma MoveKeepsLicences(s: System, a: Action, setup: Setup)
    requires AllLicensed(s, setup.risk) && 0.0 <= setup.risk.maxPositionPct
    ensures AllLicensed(Next(s, a, setup), setup.risk)
  {
    if a.Step? {
      StepKeepsLicences(s.world, TaskIn(s, a.slot), setup, a.equity);
    } else if a.StartRisk? || a.StepRisk? || a.DropRisk? {
      RiskKeepsLicences(s, a, setup);
    } else if IsSetting(a) {
      OperatorKeepsLicences(s, a, setup);
    } else {
      OtherMovesOnlyStart(s, a, setup);
      StartsKeepLicences(s, Next(s, a, setup), setup.risk);
    }
  }

  lemma {:induction false} RunKeepsLicences(s: System, actions: seq<Action>, setup: Setup)
    requires AllLicensed(s, setup.risk) && 0.0 <= setup.risk.maxPositionPct
    ensures AllLicensed(Run(s, actions, setup), setup.risk)
    decreases |actions|
  {
    if actions != [] {
      MoveKeepsLicences(s, actions[0], setup);
      RunKeepsLicences(Next(s, actions[0], setup), actions[1..], setup);
    }
  }

  /** The configured share of the portfolio, to the four places a fraction is kept to. */
  predicate Maximum(cfg: RiskConfig, maxFraction: nat) {
    0.0 <= cfg.maxPositionPct && Round(Times(cfg.maxPositionPct, FULL)) == maxFraction
  }

  /** The order is the grant's own: on the side its direction says, worth no more than any cap, and as large as the
      contract step allows under them. */
  predicate WithinLicence(o: Sent, g: Grant, maxFraction: nat, count: int) {
    && g.config.tradingEnabled && Tradable(g.ev.symbol)
    && (o.order == EntryOrder(g) || o.order == StopOrder(g) || o.order == TargetOrder(g))
    && (EntryOrder(g).side == Buy <==> g.ev.direction == Long)
    && (EntryOrder(g).side == Sell <==> g.ev.direction == Short)
    && 0.0 < o.order.size
    && UnderCaps(o.order.size, g.ev.entry, g.equity, g.config.caps, maxFraction)
    && Largest(o.order.size, count, Notional(g.equity, g.ev.fraction, g.config.caps), g.ev.entry, STEPS_PER_CONTRACT)
  }

  lemma LicensedOrdersRespectCaps(start: System, actions: seq<Action>, setup: Setup, o: Sent, maxFraction: nat)
    returns (count: int)
    requires Initial(start) && Maximum(setup.risk, maxFraction)
    requires o in Run(start, actions, setup).world.orders && o.sender.ByExecution?
    ensures WithinLicence(o, o.sender.grant, maxFraction, count)
  {
    RunKeepsLicences(start, actions, setup);
    assert LicensedOrder(o, setup.risk);
    count := GrantRespectsCaps(o.sender.grant, setup.risk, maxFraction);
  }

  lemma GrantRespectsCaps(g: Grant, cfg: RiskConfig, maxFraction: nat) returns (count: int)
    requires Licensed(g, cfg) && Maximum(cfg, maxFraction)
    ensures UnderCaps(g.Size(), g.ev.entry, g.equity, g.config.caps, maxFraction)
    ensures Largest(g.Size(), count, Notional(g.equity, g.ev.fraction, g.config.caps), g.ev.entry, STEPS_PER_CONTRACT)
  {
    count := SizeIsLargestUnderCap(g.equity, g.ev.fraction, g.ev.entry, g.config.caps, STEPS_PER_CONTRACT, MIN_CONTRACTS);
    SizeRespectsCaps(g.equity, g.ev.fraction, g.ev.entry, g.config.caps, STEPS_PER_CONTRACT, MIN_CONTRACTS, maxFraction);
  }

  // ---------- The kill switch ----------

  /** Whether a handler that starts now would trade. */
  predicate Trading(w: World, setup: Setup) {
    Load(w.runtime, setup.defaults).tradingEnabled
  }

  /** What the last kill-switch command of a run said, or else what held before it. */
  function LastSwitch(actions: seq<Action>, before: bool): bool
    decreases |actions|
  {
    if actions == [] then before
    else
      var a := actions[0];
      LastSwitch(actions[1..], if a.Configure? && a.fields.tradingEnabled.Some? then a.fields.tradingEnabled.value else before)
  }

  lemma SwitchStep(s: System, a: Action, setup: Setup)
    ensures Trading(Next(s, a, setup).world, setup) == LastSwitch([a], Trading(s.world, setup))
  {
    if a.Step? {
      StepKeepsRuntime(s.world, TaskIn(s, a.slot), setup, a.equity);
    }
  }

  lemma StepKeepsRuntime(w: World, t: Task, setup: Setup, equity: real)
    ensures TaskStep(w, t, setup.defaults, equity).0.runtime == w.runtime
  {
  }

  /** Cap, mode and auto-trading commands, and everything else that happens, leave the kill switch where it was. */
  lemma {:induction false} KillSwitchIsTheLastCommand(s: System, actions: seq<Action>, setup: Setup)
    ensures Trading(Run(s, actions, setup).world, setup) == LastSwitch(actions, Trading(s.world, setup))
    decreases |actions|
  {
    if actions != [] {
      SwitchStep(s, actions[0], setup);
      KillSwitchIsTheLastCommand(Next(s, actions[0], setup), actions[1..], setup);
    }
  }

  /** A handler that has not passed the guards yet. */
  predicate BeforeGuards(t: Task) {
    match t
    case Executing(_, _) => false
    case ReadEquity(_, _, _) => false
    case Guard(_, config, _) => !config.tradingEnabled
    case _ => true
  }

  lemma {:induction false} StoppedAtGuards(w: World, t: Task, setup: Setup, equity: real)
    requires BeforeGuards(t) && !Trading(w, setup)
    ensures Finish(w, t, setup.defaults, equity).orders == w.orders
    decreases Remaining(t)
  {
    if !t.Idle? {
      var (w', t') := TaskStep(w, t, setup.defaults, equity);
      StoppedAtGuards(w', t', setup, equity);
    }
  }

  /** After any run whose last kill-switch command disabled trading, no delivery, approval or manual order sends
      anything to the exchange. */
  lemma KilledMeansNoOrders(start: System, actions: seq<Action>, setup: Setup, ev: Approval, id: EventId, equity: real,
                            r: ManualRequest, lastPrice: Option<real>)
    requires !LastSwitch(actions, Trading(start.world, setup))
    ensures var w := Run(start, actions, setup).world;
            && Finish(w, CheckSubmitted(ev), setup.defaults, equity).orders == w.orders
            && Finish(w, LoadPending(id, None), setup.defaults, equity).orders == w.orders
            && ManualOrder(w, r, lastPrice, setup.defaults).orders == w.orders
  {
    KillSwitchIsTheLastCommand(start, actions, setup);
    var w := Run(start, actions, setup).world;
    StoppedAtGuards(w, CheckSubmitted(ev), setup, equity);
    StoppedAtGuards(w, LoadPending(id, None), setup, equity);
  }
}
