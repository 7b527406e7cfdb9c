/**
 The execution protocol of the risk engine and the trading engine, one await at a time.

 `World` is what the services share: Redis keys, the exchange's order log and the published events. A task is
 a handler suspended at an await; `TaskStep` is what happens from one await to the next. `System` puts one signal
 handler, one command handler, the reconciler and any number of risk handlers beside each other, and `Next` lets
 any of them move, be cut short by a crash, or be started by a delivery.
 */
module Protocol {
  import opened RiskRules
  import opened Sizing
  import opened Symbols
  import opened Wrappers

  /** Event ids are uuids, never reused: here, the serial number of the risk handler that raises the approval. */
  type EventId = nat
  type Symbol = string

  // ---------- Events, orders, records ----------

  datatype Side = Buy | Sell {
    function Opposite(): Side {
      if Buy? then Sell else Buy
    }
  }

  datatype OrderKind = Limit | StopLoss | TakeProfit | Market

  datatype Leg = EntryLeg | StopLeg | TargetLeg | CloseLeg

  /** The client order id: the event id with the suffix of its leg, or that of an operator's manual order. */
  datatype ClientId = Bracket(event: EventId, leg: Leg) | Manual(symbol: Symbol, side: Side)

  datatype Order = Order(
    pair: Pair,
    side: Side,
    kind: OrderKind,
    size: real,
    price: Option<real>,
    reduceOnly: bool,
    client: ClientId)

  /** A RiskApprovedEvent, reduced to what execution reads. */
  datatype Approval = Approval(
    id: EventId,
    symbol: Symbol,
    direction: Direction,
    entry: real,
    stop: real,
    target: real,
    confidence: real,
    fraction: Fraction)

  /** The record kept under trading:position:{id}. */
  datatype Position = Position(symbol: Symbol, pair: Pair, side: Side, size: real, entry: real, fraction: Fraction)

  datatype Reason = KillSwitch | RateLimit | UnknownSymbol | BelowMinSize | OperatorReject(text: string)

  datatype Execution =
    | Pending(id: EventId, symbol: Symbol)
    | Submitted(id: EventId, symbol: Symbol, size: real)
    | Filled(id: EventId, symbol: Symbol, size: real, price: real)
    | Refused(id: EventId, symbol: Symbol, reason: Reason)
    | Closed(id: EventId, symbol: Symbol, direction: Direction, size: real)

  // ---------- Configuration ----------

  datatype Mode = DryRun | Demo | Live

  datatype TradingConfig = TradingConfig(
    mode: Mode,
    tradingEnabled: bool,
    autoTrading: bool,
    caps: Caps,
    maxOrdersPerHour: int,
    entryTimeout: int,
    reconcileInterval: int)

  /** The record under trading:runtime: any subset of the fields. */
  datatype Overlay = Overlay(
    mode: Option<Mode>,
    tradingEnabled: Option<bool>,
    autoTrading: Option<bool>,
    maxOrderUsd: Option<real>,
    maxLeverage: Option<real>,
    maxOrdersPerHour: Option<int>,
    entryTimeout: Option<int>,
    reconcileInterval: Option<int>)

  const NOTHING := Overlay(None, None, None, None, None, None, None, None)

  function Over<T>(newer: Option<T>, older: Option<T>): Option<T> {
    if newer.Some? then newer else older
  }

  /** `current.update(fields)`. */
  function Update(current: Overlay, fields: Overlay): Overlay {
    Overlay(
      Over(fields.mode, current.mode),
      Over(fields.tradingEnabled, current.tradingEnabled),
      Over(fields.autoTrading, current.autoTrading),
      Over(fields.maxOrderUsd, current.maxOrderUsd),
      Over(fields.maxLeverage, current.maxLeverage),
      Over(fields.maxOrdersPerHour, current.maxOrdersPerHour),
      Over(fields.entryTimeout, current.entryTimeout),
      Over(fields.reconcileInterval, current.reconcileInterval))
  }

  /** The effective configuration: defaults overlaid with the stored record. */
  function Load(runtime: Option<Overlay>, defaults: TradingConfig): TradingConfig {
    if runtime.None? then defaults
    else
      var raw := runtime.value;
      TradingConfig(
        raw.mode.GetOr(defaults.mode),
        raw.tradingEnabled.GetOr(defaults.tradingEnabled),
        raw.autoTrading.GetOr(defaults.autoTrading),
        Caps(raw.maxOrderUsd.GetOr(defaults.caps.maxOrderUsd), raw.maxLeverage.GetOr(defaults.caps.maxLeverage)),
        raw.maxOrdersPerHour.GetOr(defaults.maxOrdersPerHour),
        raw.entryTimeout.GetOr(defaults.entryTimeout),
        raw.reconcileInterval.GetOr(defaults.reconcileInterval))
  }

  function DefaultsRecord(d: TradingConfig): Overlay {
    Overlay(Some(d.mode), Some(d.tradingEnabled), Some(d.autoTrading), Some(d.caps.maxOrderUsd),
            Some(d.caps.maxLeverage), Some(d.maxOrdersPerHour), Some(d.entryTimeout), Some(d.reconcileInterval))
  }

  datatype Setup = Setup(defaults: TradingConfig, risk: RiskConfig)

  const MIN_CONTRACTS: real := 0.0001

  // ---------- Shared state ----------

  /** Why an order was sent: by `_execute` under a grant, or by an operator command. */
  datatype Sender = ByExecution(grant: Grant) | ByOperator

  datatype Sent = Sent(order: Order, sender: Sender)

  /** What `_execute` runs with: the approval, the configuration loaded for it and the equity read. */
  datatype Grant = Grant(ev: Approval, config: TradingConfig, equity: real) {
    function Size(): real {
      ComputeSize(equity, ev.fraction, ev.entry, config.caps, STEPS_PER_CONTRACT, MIN_CONTRACTS)
    }

    function Side(): Side {
      if ev.direction == Long then Buy else Sell
    }

    function Pair(): Pair {
      if Tradable(ev.symbol) then PairOf(ev.symbol) else ""
    }

    function Record(): Position {
      Position(ev.symbol, Pair(), Side(), Size(), ev.entry, ev.fraction)
    }
  }

  datatype World = World(
    exposure: int,
    submitted: set<EventId>,
    pending: map<EventId, Approval>,
    pendingSet: set<EventId>,
    tracked: set<EventId>,
    positions: map<EventId, Position>,
    runtime: Option<Overlay>,
    rate: int,
    orders: seq<Sent>,
    executions: seq<Execution>,
    approvals: map<EventId, Approval>)
  {
    function Emit(e: Execution): World {
      this.(executions := executions + [e])
    }

    function Send(o: Order, sender: Sender): World {
      this.(orders := orders + [Sent(o, sender)])
    }
  }

  function EntryOrder(g: Grant): Order {
    Order(g.Pair(), g.Side(), Limit, g.Size(), Some(g.ev.entry), false, Bracket(g.ev.id, EntryLeg))
  }

  function StopOrder(g: Grant): Order {
    Order(g.Pair(), g.Side().Opposite(), StopLoss, g.Size(), Some(g.ev.stop), true, Bracket(g.ev.id, StopLeg))
  }

  function TargetOrder(g: Grant): Order {
    Order(g.Pair(), g.Side().Opposite(), TakeProfit, g.Size(), Some(g.ev.target), true, Bracket(g.ev.id, TargetLeg))
  }

  // ---------- Trading handlers, await by await ----------

  datatype Task =
    | Idle
    | CheckSubmitted(ev: Approval)
    | LoadPending(id: EventId, refusal: Option<Reason>)
    | Unlist(ev: Approval, refusal: Option<Reason>)
    | LoadConfig(ev: Approval, operator: bool)
    | Guard(ev: Approval, config: TradingConfig, operator: bool)
    | ReadEquity(ev: Approval, config: TradingConfig, operator: bool)
    | Refuse(ev: Approval, reason: Reason)
    | StorePending(ev: Approval)
    | ListPending(ev: Approval)
    | AnnouncePending(ev: Approval)
    | Executing(grant: Grant, done: nat)

  /** Awaits in `_execute`: mark, entry, announce, stop, target, track, record, announce. */
  const EXECUTE_AWAITS: nat := 8

  /** The effect of the await of `_execute` that follows `done` completed ones. */
  function ExecuteAwait(w: World, g: Grant, done: nat): World {
    match done
    case 0 => w.(submitted := w.submitted + {g.ev.id})
    case 1 => w.Send(EntryOrder(g), ByExecution(g))
    case 2 => w.Emit(Submitted(g.ev.id, g.ev.symbol, g.Size()))
    case 3 => w.Send(StopOrder(g), ByExecution(g))
    case 4 => w.Send(TargetOrder(g), ByExecution(g))
    case 5 => w.(tracked := w.tracked + {g.ev.id})
    case 6 => w.(positions := w.positions[g.ev.id := g.Record()])
    case 7 => w.Emit(Filled(g.ev.id, g.ev.symbol, g.Size(), g.ev.entry))
    case _ => w
  }

  /** The kill switch, then one rate token. */
  function CheckGuards(w: World, config: TradingConfig): (World, Option<Reason>) {
    if !config.tradingEnabled then (w, Some(KillSwitch))
    else (w.(rate := w.rate + 1), if w.rate + 1 <= config.maxOrdersPerHour then None else Some(RateLimit))
  }

  /** Where a handler goes once it knows the equity. An unlisted pair raises, which ends the handler. */
  function AfterSizing(g: Grant, operator: bool): Task {
    if g.Size() <= 0.0 then Refuse(g.ev, BelowMinSize)
    else if !operator && !g.config.autoTrading then StorePending(g.ev)
    else if !Tradable(g.ev.symbol) then Idle
    else Executing(g, 0)
  }

  /** One await of a handler. `equity` is what the exchange answers, should it be asked. */
  function TaskStep(w: World, t: Task, defaults: TradingConfig, equity: real): (World, Task) {
    match t
    case Idle => (w, Idle)
    case CheckSubmitted(ev) => (w, if ev.id in w.submitted then Idle else LoadConfig(ev, false))
    case LoadPending(id, refusal) => (w, if id in w.pending then Unlist(w.pending[id], refusal) else Idle)
    case Unlist(ev, refusal) =>
      (w.(pendingSet := w.pendingSet - {ev.id}),
       if refusal.Some? then Refuse(ev, refusal.value) else LoadConfig(ev, true))
    case LoadConfig(ev, operator) => (w, Guard(ev, Load(w.runtime, defaults), operator))
    case Guard(ev, config, operator) =>
      var (w', reason) := CheckGuards(w, config);
      (w', if reason.Some? then Refuse(ev, reason.value)
           else if !operator && !Tradable(ev.symbol) then Refuse(ev, UnknownSymbol)
           else ReadEquity(ev, config, operator))
    case ReadEquity(ev, config, operator) => (w, AfterSizing(Grant(ev, config, equity), operator))
    case Refuse(ev, reason) => (w.Emit(Refused(ev.id, ev.symbol, reason)), Idle)
    case StorePending(ev) => (w.(pending := w.pending[ev.id := ev]), ListPending(ev))
    case ListPending(ev) => (w.(pendingSet := w.pendingSet + {ev.id}), AnnouncePending(ev))
    case AnnouncePending(ev) => (w.Emit(Pending(ev.id, ev.symbol)), Idle)
    case Executing(g, done) =>
      (ExecuteAwait(w, g, done), if done + 1 < EXECUTE_AWAITS then Executing(g, done + 1) else Idle)
  }

  /** How many awaits are left at most. */
  function Remaining(t: Task): nat {
    match t
    case Idle => 0
    case CheckSubmitted(_) => 13
    case LoadPending(_, _) => 14
    case Unlist(_, _) => 13
    case LoadConfig(_, _) => 12
    case Guard(_, _, _) => 11
    case ReadEquity(_, _, _) => 10
    case Refuse(_, _) => 1
    case StorePending(_) => 3
    case ListPending(_) => 2
    case AnnouncePending(_) => 1
    case Executing(_, done) => if done < EXECUTE_AWAITS then 1 + EXECUTE_AWAITS - done else 1
  }

  /** A handler left alone until it returns. */
  function Finish(w: World, t: Task, defaults: TradingConfig, equity: real): World
    decreases Remaining(t)
  {
    if t.Idle? then w
    else
      var (w', t') := TaskStep(w, t, defaults, equity);
      Finish(w', t', defaults, equity)
  }

  // ---------- Handlers left alone ----------

  /** A whole bracket: entry, then a reduce-only stop and target of the same size on the other side. */
  function BracketOf(g: Grant): seq<Sent> {
    [Sent(EntryOrder(g), ByExecution(g)), Sent(StopOrder(g), ByExecution(g)), Sent(TargetOrder(g), ByExecution(g))]
  }

  /** `_execute` left alone. */
  function ExecuteEffect(w: World, g: Grant): World {
    w.(submitted := w.submitted + {g.ev.id},
       orders := w.orders + BracketOf(g),
       tracked := w.tracked + {g.ev.id},
       positions := w.positions[g.ev.id := g.Record()],
       executions := w.executions + [Submitted(g.ev.id, g.ev.symbol, g.Size()), Filled(g.ev.id, g.ev.symbol, g.Size(), g.ev.entry)])
  }

  lemma FinishStep(w: World, t: Task, defaults: TradingConfig, equity: real)
    requires !t.Idle?
    ensures var (w', t') := TaskStep(w, t, defaults, equity);
            Finish(w, t, defaults, equity) == Finish(w', t', defaults, equity)
  {
  }

  lemma FinishExecuting(w: World, g: Grant, defaults: TradingConfig, equity: real)
    ensures Finish(w, Executing(g, 0), defaults, equity) == ExecuteEffect(w, g)
  {
    FinishOrdering(w, g, defaults, equity);
    var w4 := w.(submitted := w.submitted + {g.ev.id},
                 orders := w.orders + BracketOf(g)[..2],
                 executions := w.executions + [Submitted(g.ev.id, g.ev.symbol, g.Size())]);
    FinishRecording(w4, g, defaults, equity);
  }

  /** The mark, the entry, its announcement and the stop. */
  lemma FinishOrdering(w: World, g: Grant, defaults: TradingConfig, equity: real)
    ensures Finish(w, Executing(g, 0), defaults, equity)
         == Finish(w.(submitted := w.submitted + {g.ev.id},
                      orders := w.orders + BracketOf(g)[..2],
                      executions := w.executions + [Submitted(g.ev.id, g.ev.symbol, g.Size())]),
                   Executing(g, 4), defaults, equity)
  {
    var w1 := ExecuteAwait(w, g, 0);
    var w2 := ExecuteAwait(w1, g, 1);
    var w3 := ExecuteAwait(w2, g, 2);
    FinishStep(w, Executing(g, 0), defaults, equity);
    FinishStep(w1, Executing(g, 1), defaults, equity);
    FinishStep(w2, Executing(g, 2), defaults, equity);
    FinishStep(w3, Executing(g, 3), defaults, equity);
    assert w.orders + BracketOf(g)[..2] == w.orders + [BracketOf(g)[0]] + [BracketOf(g)[1]];
  }

  /** The target, the tracking, the record and the fill. */
  lemma FinishRecording(w: World, g: Grant, defaults: TradingConfig, equity: real)
    ensures Finish(w, Executing(g, 4), defaults, equity)
         == w.(orders := w.orders + [BracketOf(g)[2]],
               tracked := w.tracked + {g.ev.id},
               positions := w.positions[g.ev.id := g.Record()],
               executions := w.executions + [Filled(g.ev.id, g.ev.symbol, g.Size(), g.ev.entry)])
  {
    var w5 := ExecuteAwait(w, g, 4);
    var w6 := ExecuteAwait(w5, g, 5);
    var w7 := ExecuteAwait(w6, g, 6);
    FinishStep(w, Executing(g, 4), defaults, equity);
    FinishStep(w5, Executing(g, 5), defaults, equity);
    FinishStep(w6, Executing(g, 6), defaults, equity);
    FinishStep(w7, Executing(g, 7), defaults, equity);
  }
  // ---------- Operator commands on positions ----------

  function ClosePosition(w: World, id: EventId): World {
    if id !in w.positions then w
    else
      var pos := w.positions[id];
      w.Send(Order(pos.pair, pos.side.Opposite(), Market, pos.size, None, true, Bracket(id, CloseLeg)), ByOperator)
  }

  function AdjustLeg(w: World, id: EventId, leg: Leg, kind: OrderKind, price: Option<real>): World
    requires id in w.positions
  {
    if price.None? then w
    else
      var pos := w.positions[id];
      w.Send(Order(pos.pair, pos.side.Opposite(), kind, pos.size, price, true, Bracket(id, leg)), ByOperator)
  }

  function AdjustSltp(w: World, id: EventId, stop: Option<real>, target: Option<real>): World {
    if id !in w.positions then w
    else AdjustLeg(AdjustLeg(w, id, StopLeg, StopLoss, stop), id, TargetLeg, TakeProfit, target)
  }

  datatype ManualRequest = ManualRequest(symbol: Symbol, side: Side, market: bool, quantity: real, price: Option<real>)

  /** The price a manual order is capped at: its own, or the last one the pipeline stored. */
  function ReferencePrice(r: ManualRequest, lastPrice: Option<real>): real {
    if r.price.GetOr(0.0) > 0.0 then r.price.value else lastPrice.GetOr(0.0)
  }

  function ManualOrder(w: World, r: ManualRequest, lastPrice: Option<real>, defaults: TradingConfig): World {
    var config := Load(w.runtime, defaults);
    var (w', reason) := CheckGuards(w, config);
    var ref := ReferencePrice(r, lastPrice);
    if reason.Some? || !Tradable(r.symbol) then w'
    else if ref > 0.0 && r.quantity * ref > config.caps.maxOrderUsd then w'
    else
      w'.Send(Order(PairOf(r.symbol), r.side, if r.market then Market else Limit, r.quantity, r.price, false,
                    Manual(Normalize(r.symbol), r.side)), ByOperator)
  }

  function SetFields(w: World, fields: Overlay): World {
    w.(runtime := Some(Update(w.runtime.GetOr(NOTHING), fields)))
  }

  // ---------- Risk handlers ----------

  /** A DecisionEvent with the price and blacklist flag already looked up. */
  datatype Decision = Decision(
    symbol: Symbol,
    direction: Direction,
    confidence: real,
    score: int,
    entry: real,
    blacklisted: bool)
  {
    /** The ranges the event schema enforces. */
    predicate WellFormed() {
      0.0 <= confidence <= 1.0 && 0 <= score <= 100
    }
  }

  datatype RiskTask =
    | Reading(decision: Decision)
    | Charging(seen: int, approval: Approval)
    | Publishing(approval: Approval)
    | Done

  /** The checks a RiskApprovedEvent makes on itself; a failed one raises before anything is written. */
  predicate Constructible(levels: Levels, direction: Direction) {
    && 0 <= levels.size <= FULL
    && 0.0 < levels.entry && 0.0 < levels.stop && 0.0 < levels.target
    && (direction == Long ==> levels.stop < levels.entry < levels.target)
    && (direction == Short ==> levels.target < levels.entry < levels.stop)
  }

  function Decide(id: EventId, d: Decision, exposure: int, cfg: RiskConfig): Option<Approval> {
    match Evaluate(Query(d.entry, d.direction, d.confidence, d.score, d.blacklisted, exposure), cfg)
    case Rejected(_) => None
    case Approved(levels) =>
      if Constructible(levels, d.direction)
      then Some(Approval(id, d.symbol, d.direction, levels.entry, levels.stop, levels.target, d.confidence, levels.size))
      else None
  }

  /** A risk handler left alone until it returns. */
  function RiskEffect(w: World, id: EventId, d: Decision, cfg: RiskConfig): World {
    match Decide(id, d, w.exposure, cfg)
    case None => w
    case Some(a) => w.(exposure := w.exposure + a.fraction, approvals := w.approvals[id := a])
  }

  // ---------- The reconciler ----------

  datatype Sweep =
    | Resting
    | Listing(open: set<Pair>)
    | Examining(open: set<Pair>, todo: seq<EventId>)
    | Forgetting(open: set<Pair>, todo: seq<EventId>)
    | ReadingExposure(open: set<Pair>, todo: seq<EventId>, pos: Position)
    | Releasing(open: set<Pair>, todo: seq<EventId>, pos: Position, seen: int)
    | Untracking(open: set<Pair>, todo: seq<EventId>, pos: Position)
    | AnnouncingClosed(open: set<Pair>, todo: seq<EventId>, pos: Position)

  function Max(a: int, b: int): int {
    if a >= b then a else b
  }

  function ClosedEvent(id: EventId, pos: Position): Execution {
    Closed(id, pos.symbol, if pos.side == Sell then Short else Long, pos.size)
  }

  function SweepStep(w: World, s: Sweep): (World, Sweep) {
    match s
    case Resting => (w, Resting)
    case Listing(_) => (w, s)
    case Examining(open, todo) =>
      if todo == [] then (w, Resting)
      else if todo[0] !in w.positions then (w, Forgetting(open, todo))
      else if w.positions[todo[0]].pair in open then (w, Examining(open, todo[1..]))
      else (w, ReadingExposure(open, todo, w.positions[todo[0]]))
    case Forgetting(open, todo) =>
      if todo == [] then (w, Resting) else (w.(tracked := w.tracked - {todo[0]}), Examining(open, todo[1..]))
    case ReadingExposure(open, todo, pos) => (w, Releasing(open, todo, pos, w.exposure))
    case Releasing(open, todo, pos, seen) =>
      (w.(exposure := Max(0, seen - pos.fraction)), Untracking(open, todo, pos))
    case Untracking(open, todo, pos) =>
      if todo == [] then (w, Resting) else (w.(tracked := w.tracked - {todo[0]}), AnnouncingClosed(open, todo, pos))
    case AnnouncingClosed(open, todo, pos) =>
      if todo == [] then (w, Resting) else (w.Emit(ClosedEvent(todo[0], pos)), Examining(open, todo[1..]))
  }

  predicate Distinct<T(==)>(s: seq<T>) {
    forall i, j :: 0 <= i < j < |s| ==> s[i] != s[j]
  }

  /** `order` lists the set, each member once, in whatever order the set iterates. */
  predicate Enumerates<T(==)>(order: seq<T>, members: set<T>) {
    Distinct(order) && (forall x :: x in order ==> x in members) && (forall x :: x in members ==> x in order)
  }

  // ---------- Everything side by side ----------

  /** `outstanding` is history: what each approval charged and no close has released yet. */
  datatype System = System(
    world: World,
    signal: Task,
    command: Task,
    sweep: Sweep,
    risk: seq<RiskTask>,
    outstanding: map<EventId, Fraction>)

  datatype Slot = Signal | Command

  datatype Action =
    | StartRisk(decision: Decision)
    | StepRisk(handler: nat)
    | DropRisk(handler: nat)
    | Deliver(event: EventId)
    | Approve(event: EventId)
    | Reject(event: EventId, text: string)
    | Step(slot: Slot, equity: real)
    | Crash(slot: Slot)
    | StartSweep(open: set<Pair>)
    | ListTracked(order: seq<EventId>)
    | StepSweep
    | AbortSweep
    | Configure(fields: Overlay)
    | OperatorClose(event: EventId)
    | OperatorAdjust(event: EventId, stop: Option<real>, target: Option<real>)
    | OperatorOrder(request: ManualRequest, lastPrice: Option<real>)
    | RateWindowEnds

  function TaskIn(s: System, slot: Slot): Task {
    if slot == Signal then s.signal else s.command
  }

  function WithTask(s: System, slot: Slot, w: World, t: Task): System {
    if slot == Signal then s.(world := w, signal := t) else s.(world := w, command := t)
  }

  /** One await of risk handler i, whose approval carries the id i. */
  function RiskStep(s: System, i: nat, cfg: RiskConfig): System
    requires i < |s.risk|
  {
    match s.risk[i]
    case Reading(d) =>
      (match Decide(i, d, s.world.exposure, cfg)
       case None => s.(risk := s.risk[i := Done])
       case Some(a) => s.(risk := s.risk[i := Charging(s.world.exposure, a)]))
    case Charging(seen, a) =>
      s.(world := s.world.(exposure := seen + a.fraction),
         outstanding := s.outstanding[i := a.fraction],
         risk := s.risk[i := Publishing(a)])
    case Publishing(a) => s.(world := s.world.(approvals := s.world.approvals[i := a]), risk := s.risk[i := Done])
    case Done => s
  }

  function ReconcilerStep(s: System): System {
    var (w, next) := SweepStep(s.world, s.sweep);
    s.(world := w, sweep := next,
       outstanding := if s.sweep.Releasing? && s.sweep.todo != [] then s.outstanding - {s.sweep.todo[0]} else s.outstanding)
  }

  /** One move of the whole system; a move that is not enabled changes nothing. */
  function Next(s: System, a: Action, setup: Setup): System {
    match a
    case StartRisk(d) => if d.WellFormed() then s.(risk := s.risk + [Reading(d)]) else s
    case StepRisk(i) => if i < |s.risk| then RiskStep(s, i, setup.risk) else s
    case DropRisk(i) => if i < |s.risk| then s.(risk := s.risk[i := Done]) else s
    case Deliver(id) =>
      if s.signal.Idle? && id in s.world.approvals then s.(signal := CheckSubmitted(s.world.approvals[id])) else s
    case Approve(id) => if s.command.Idle? then s.(command := LoadPending(id, None)) else s
    case Reject(id, text) => if s.command.Idle? then s.(command := LoadPending(id, Some(OperatorReject(text)))) else s
    case Step(slot, equity) =>
      var (w, t) := TaskStep(s.world, TaskIn(s, slot), setup.defaults, equity);
      WithTask(s, slot, w, t)
    case Crash(slot) => WithTask(s, slot, s.world, Idle)
    case StartSweep(open) => if s.sweep.Resting? then s.(sweep := Listing(open)) else s
    case ListTracked(order) =>
      if s.sweep.Listing? && Enumerates(order, s.world.tracked) then s.(sweep := Examining(s.sweep.open, order)) else s
    case StepSweep => ReconcilerStep(s)
    case AbortSweep => s.(sweep := Resting)
    case Configure(fields) => s.(world := SetFields(s.world, fields))
    case OperatorClose(id) => s.(world := ClosePosition(s.world, id))
    case OperatorAdjust(id, stop, target) => s.(world := AdjustSltp(s.world, id, stop, target))
    case OperatorOrder(r, lastPrice) => s.(world := ManualOrder(s.world, r, lastPrice, setup.defaults))
    case RateWindowEnds => s.(world := s.world.(rate := 0))
  }

  /** The system after the await of `_execute` that the handler in `slot` is suspended at. */
  function Executed(s: System, slot: Slot): System
    requires TaskIn(s, slot).Executing?
  {
    var g, done := TaskIn(s, slot).grant, TaskIn(s, slot).done;
    WithTask(s, slot, ExecuteAwait(s.world, g, done), if done + 1 < EXECUTE_AWAITS then Executing(g, done + 1) else Idle)
  }

  lemma StepExecutes(s: System, slot: Slot, equity: real, setup: Setup)
    requires TaskIn(s, slot).Executing?
    ensures Next(s, Step(slot, equity), setup) == Executed(s, slot)
  {
  }

  function Run(s: System, actions: seq<Action>, setup: Setup): System
    decreases |actions|
  {
    if actions == [] then s else Run(Next(s, actions[0], setup), actions[1..], setup)
  }

  const EMPTY_WORLD := World(0, {}, map[], {}, {}, map[], None, 0, [], [], map[])

  /** Everything at rest and nothing done yet, with whatever runtime record and rate count. */
  predicate Initial(s: System) {
    && s.world == EMPTY_WORLD.(runtime := s.world.runtime, rate := s.world.rate)
    && s.signal.Idle? && s.command.Idle? && s.sweep.Resting? && s.risk == [] && s.outstanding == map[]
  }

  lemma RunAppend(s: System, first: seq<Action>, second: seq<Action>, setup: Setup)
    ensures Run(s, first + second, setup) == Run(Run(s, first, setup), second, setup)
    decreases |first|
  {
    if first == [] {
      assert first + second == second;
    } else {
      assert (first + second)[1..] == first[1..] + second;
      RunAppend(Next(s, first[0], setup), first[1..], second, setup);
    }
  }
}
