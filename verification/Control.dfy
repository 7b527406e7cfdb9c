/** The runtime record and the operator commands that change it or drive the engine. */
module Control {
  import opened Engines
  import opened Protocol
  import opened Sizing
  import opened Wrappers

  /** A configuration with the given fields replaced. */
  function Applied(fields: Overlay, config: TradingConfig): TradingConfig {
    TradingConfig(
      fields.mode.GetOr(config.mode),
      fields.tradingEnabled.GetOr(config.tradingEnabled),
      fields.autoTrading.GetOr(config.autoTrading),
      Caps(fields.maxOrderUsd.GetOr(config.caps.maxOrderUsd), fields.maxLeverage.GetOr(config.caps.maxLeverage)),
      fields.maxOrdersPerHour.GetOr(config.maxOrdersPerHour),
      fields.entryTimeout.GetOr(config.entryTimeout),
      fields.reconcileInterval.GetOr(config.reconcileInterval))
  }

  /** Setting fields overrides exactly those in the effective configuration, whatever record was there, even none. */
  lemma SettingFieldsOverridesThem(w: World, fields: Overlay, defaults: TradingConfig)
    ensures Load(SetFields(w, fields).runtime, defaults) == Applied(fields, Load(w.runtime, defaults))
  {
  }

  /** Each field set shows up as that field of the effective configuration and no other; with no record the defaults do. */
  lemma EachFieldIsItsOwn(w: World, defaults: TradingConfig, m: Mode, b: bool, x: real, n: int)
    ensures var config := Load(w.runtime, defaults);
            && Load(SetFields(w, NOTHING.(mode := Some(m))).runtime, defaults) == config.(mode := m)
            && Load(SetFields(w, NOTHING.(tradingEnabled := Some(b))).runtime, defaults) == config.(tradingEnabled := b)
            && Load(SetFields(w, NOTHING.(autoTrading := Some(b))).runtime, defaults) == config.(autoTrading := b)
            && Load(SetFields(w, NOTHING.(maxOrderUsd := Some(x))).runtime, defaults) == config.(caps := config.caps.(maxOrderUsd := x))
            && Load(SetFields(w, NOTHING.(maxLeverage := Some(x))).runtime, defaults) == config.(caps := config.caps.(maxLeverage := x))
            && Load(SetFields(w, NOTHING.(maxOrdersPerHour := Some(n))).runtime, defaults) == config.(maxOrdersPerHour := n)
            && Load(SetFields(w, NOTHING.(entryTimeout := Some(n))).runtime, defaults) == config.(entryTimeout := n)
            && Load(SetFields(w, NOTHING.(reconcileInterval := Some(n))).runtime, defaults) == config.(reconcileInterval := n)
            && Load(None, defaults) == defaults
  {
  }

  /** Once the defaults have been written, later defaults no longer matter. */
  lemma WrittenDefaultsPinTheConfig(written: TradingConfig, later: TradingConfig)
    ensures Load(Some(DefaultsRecord(written)), later) == written
  {
  }

  datatype CapFields = CapFields(
    maxOrderUsd: Option<real>,
    maxLeverage: Option<real>,
    maxOrdersPerHour: Option<int>,
    entryTimeout: Option<int>,
    reconcileInterval: Option<int>)

  datatype Command =
    | SetMode(mode: Mode)
    | SetKillSwitch(enabled: bool)
    | SetAutoTrading(enabled: bool)
    | SetCaps(caps: CapFields)
    | CloseCommand(event: EventId)
    | AdjustCommand(event: EventId, stop: Option<real>, target: Option<real>)
    | ManualCommand(request: ManualRequest, lastPrice: Option<real>)
    | ApproveCommand(event: EventId, equity: real)
    | RejectCommand(event: EventId, text: string)
    | UnknownCommand

  /** The fields a settings command sets. */
  function FieldsOf(c: Command): Overlay {
    match c
    case SetMode(m) => NOTHING.(mode := Some(m))
    case SetKillSwitch(b) => NOTHING.(tradingEnabled := Some(b))
    case SetAutoTrading(b) => NOTHING.(autoTrading := Some(b))
    case SetCaps(f) =>
      NOTHING.(maxOrderUsd := f.maxOrderUsd, maxLeverage := f.maxLeverage, maxOrdersPerHour := f.maxOrdersPerHour,
               entryTimeout := f.entryTimeout, reconcileInterval := f.reconcileInterval)
    case _ => NOTHING
  }

  /** What a command makes of the effective configuration: the mode, the switches or the limits it names. */
  predicate Commanded(c: Command, before: TradingConfig, after: TradingConfig) {
    match c
    case SetMode(m) => after == before.(mode := m)
    case SetKillSwitch(b) => after == before.(tradingEnabled := b)
    case SetAutoTrading(b) => after == before.(autoTrading := b)
    case SetCaps(f) =>
      after == before.(caps := Caps(f.maxOrderUsd.GetOr(before.caps.maxOrderUsd), f.maxLeverage.GetOr(before.caps.maxLeverage)),
                       maxOrdersPerHour := f.maxOrdersPerHour.GetOr(before.maxOrdersPerHour),
                       entryTimeout := f.entryTimeout.GetOr(before.entryTimeout),
                       reconcileInterval := f.reconcileInterval.GetOr(before.reconcileInterval))
    case _ => after == before
  }

  lemma FieldsCommand(c: Command, config: TradingConfig)
    ensures Commanded(c, config, Applied(FieldsOf(c), config))
    ensures Applied(NOTHING, config) == config
  {
  }

  class ControlHandler {
    const platform: Platform
    const engine: TradingEngine

    constructor (platform: Platform, engine: TradingEngine)
      requires engine.platform == platform
      ensures this.platform == platform && this.engine == engine
    {
      this.platform := platform;
      this.engine := engine;
    }

    method WriteDefaultsIfAbsent()
      modifies platform
      ensures Load(platform.runtime, engine.defaults) == Load(old(platform.runtime), engine.defaults)
      ensures platform.runtime == Some(old(platform.runtime).GetOr(DefaultsRecord(engine.defaults)))
      ensures platform.Snapshot() == old(platform.Snapshot()).(runtime := platform.runtime)
    {
      if platform.runtime.None? {
        platform.runtime := Some(DefaultsRecord(engine.defaults));
      }
    }

    method SetFields(fields: Overlay)
      modifies platform
      ensures platform.Snapshot() == Protocol.SetFields(old(platform.Snapshot()), fields)
    {
      var current := platform.runtime.GetOr(NOTHING);
      platform.runtime := Some(Update(current, fields));
    }

    /** A setting: its fields, if it names any. */
    method Set(c: Command)
      requires c.SetMode? || c.SetKillSwitch? || c.SetAutoTrading? || c.SetCaps?
      modifies platform
      ensures platform.Snapshot() == old(platform.Snapshot()).(runtime := platform.runtime)
      ensures FieldsOf(c) == NOTHING ==> platform.runtime == old(platform.runtime)
      ensures Load(platform.runtime, engine.defaults) == Applied(FieldsOf(c), Load(old(platform.runtime), engine.defaults))
    {
      ghost var before := platform.Snapshot();
      SettingFieldsOverridesThem(before, FieldsOf(c), engine.defaults);
      FieldsCommand(c, Load(platform.runtime, engine.defaults));
      match c
      case SetMode(m) => SetFields(NOTHING.(mode := Some(m)));
      case SetKillSwitch(b) => SetFields(NOTHING.(tradingEnabled := Some(b)));
      case SetAutoTrading(b) => SetFields(NOTHING.(autoTrading := Some(b)));
      case SetCaps(_) =>
        var fields := FieldsOf(c);
        if fields != NOTHING {
          SetFields(fields);
        }
    }

    /** Settings override exactly their fields and nothing else happens; other commands do what the engine does. */
    method Handle(c: Command)
      requires engine.platform == platform
      modifies platform
      ensures FieldsOf(c) != NOTHING ==>
                && Load(platform.runtime, engine.defaults) == Applied(FieldsOf(c), Load(old(platform.runtime), engine.defaults))
                && platform.Snapshot() == old(platform.Snapshot()).(runtime := platform.runtime)
      ensures Commanded(c, Load(old(platform.runtime), engine.defaults), Load(platform.runtime, engine.defaults))
      ensures FieldsOf(c) == NOTHING ==> platform.runtime == old(platform.runtime)
      ensures c.UnknownCommand? || (c.SetCaps? && FieldsOf(c) == NOTHING) ==> platform.Snapshot() == old(platform.Snapshot())
      ensures c.ApproveCommand? ==> platform.Snapshot() == Finish(old(platform.Snapshot()), LoadPending(c.event, None), engine.defaults, c.equity)
      ensures c.RejectCommand? ==>
                platform.Snapshot() == Finish(old(platform.Snapshot()), LoadPending(c.event, Some(OperatorReject(c.text))), engine.defaults, 0.0)
      ensures c.CloseCommand? ==> platform.Snapshot() == Protocol.ClosePosition(old(platform.Snapshot()), c.event)
      ensures c.AdjustCommand? ==> platform.Snapshot() == Protocol.AdjustSltp(old(platform.Snapshot()), c.event, c.stop, c.target)
      ensures c.ManualCommand? ==> platform.Snapshot() == Protocol.ManualOrder(old(platform.Snapshot()), c.request, c.lastPrice, engine.defaults)
    {
      ghost var before := platform.Snapshot();
      FieldsCommand(c, Load(platform.runtime, engine.defaults));
      match c
      case SetMode(_) => Set(c);
      case SetKillSwitch(_) => Set(c);
      case SetAutoTrading(_) => Set(c);
      case SetCaps(_) => Set(c);
      case CloseCommand(id) => engine.ClosePosition(id);
      case AdjustCommand(id, stop, target) => engine.AdjustSltp(id, stop, target);
      case ManualCommand(r, lastPrice) => engine.ManualOrder(r, lastPrice);
      case ApproveCommand(id, equity) =>
        FinishKeepsRuntime(before, LoadPending(id, None), engine.defaults, equity);
        engine.ApproveOpportunity(id, equity);
      case RejectCommand(id, text) =>
        FinishKeepsRuntime(before, LoadPending(id, Some(OperatorReject(text))), engine.defaults, 0.0);
        engine.RejectOpportunity(id, text);
      case UnknownCommand =>
    }
  }

  lemma {:induction false} FinishKeepsRuntime(w: World, t: Task, defaults: TradingConfig, equity: real)
    ensures Finish(w, t, defaults, equity).runtime == w.runtime
    decreases Remaining(t)
  {
    if !t.Idle? {
      var (w', t') := TaskStep(w, t, defaults, equity);
      FinishKeepsRuntime(w', t', defaults, equity);
    }
  }
}
