/**
 What each handler leaves behind, case by case and in full: from the shared state, the configuration in force and the
 answers from outside to every key, order and event that changes.
 */
module Outcomes {
  import opened Protocol
  import opened RiskRules
  import opened Rounding
  import opened Sizing
  import opened Symbols
  import opened Wrappers

  // ---------- A decision at the risk engine ----------

  /** Confidence counts up to full confidence. */
  function Counted(confidence: real): real {
    if confidence <= 1.0 then confidence else 1.0
  }

  /** The approval carries the decision's own data, its confidence's share of the configured maximum, and the entry with
      a stop and a target the configured percentages away on either side of it. */
  ghost predicate Vouched(a: Approval, id: EventId, d: Decision, cfg: RiskConfig) {
    && a.id == id && a.symbol == d.symbol && a.direction == d.direction && a.confidence == d.confidence
    && Scaled(a.fraction, cfg.maxPositionPct, Counted(d.confidence))
    && (a.direction == Long ==>
          Priced((a.entry, a.stop, a.target), d.entry, d.entry * (1.0 - cfg.stopLossPct), d.entry * (1.0 + cfg.takeProfitPct)))
    && (a.direction == Short ==>
          Priced((a.entry, a.stop, a.target), d.entry, d.entry * (1.0 + cfg.stopLossPct), d.entry * (1.0 - cfg.takeProfitPct)))
  }

  /** The decision clears every gate, this share fitting beside the exposure read. */
  predicate Clears(d: Decision, exposure: int, share: int, cfg: RiskConfig)
  {
    && !d.blacklisted && 0.0 < d.entry && (d.direction == Long || d.direction == Short)
    && cfg.minConfidence <= d.confidence && cfg.minScore <= d.score
    && cfg.minRiskReward <= (if cfg.stopLossPct > 0.0 then RoundTo(cfg.takeProfitPct / cfg.stopLossPct, 1000) else 0.0)
    && exposure + share <= 10_000
  }

  /** An approval's own checks, on levels the gates let through. */
  predicate Ordered(levels: Levels, direction: Direction) {
    && 0 <= levels.size <= 10_000 && 0.0 < levels.entry && 0.0 < levels.stop && 0.0 < levels.target
    && (direction == Long ==> levels.stop < levels.entry < levels.target)
    && (direction == Short ==> levels.target < levels.entry < levels.stop)
  }

  lemma DecisionVouched(id: EventId, d: Decision, exposure: int, cfg: RiskConfig)
    requires Decide(id, d, exposure, cfg).Some?
    ensures Vouched(Decide(id, d, exposure, cfg).value, id, d, cfg)
  {
    var q := Query(d.entry, d.direction, d.confidence, d.score, d.blacklisted, exposure);
    VouchedByVerdict(Decide(id, d, exposure, cfg).value, q, Evaluate(q, cfg).levels, id, d, cfg);
  }

  lemma VouchedByVerdict(a: Approval, q: Query, levels: Levels, id: EventId, d: Decision, cfg: RiskConfig)
    requires q.confidence == d.confidence && q.entry == d.entry && q.direction == d.direction
    requires Evaluate(q, cfg) == Approved(levels) && 0 <= levels.size <= FULL
    requires a == Approval(id, d.symbol, d.direction, levels.entry, levels.stop, levels.target, d.confidence, levels.size)
    ensures Vouched(a, id, d, cfg)
  {
    ShareIsScaled(d.confidence, cfg.maxPositionPct);
    ShareIsScaled(1.0, cfg.maxPositionPct);
    ApprovedPrices(q, d.entry, cfg);
    VouchedByLevels(a, levels, id, d, cfg,
                    d.entry * (1.0 - cfg.stopLossPct), d.entry * (1.0 + cfg.takeProfitPct),
                    d.entry * (1.0 + cfg.stopLossPct), d.entry * (1.0 - cfg.takeProfitPct));
  }

  lemma VouchedByLevels(a: Approval, levels: Levels, id: EventId, d: Decision, cfg: RiskConfig,
                        longStop: real, longTarget: real, shortStop: real, shortTarget: real)
    requires 0 <= levels.size <= FULL
    requires a == Approval(id, d.symbol, d.direction, levels.entry, levels.stop, levels.target, d.confidence, levels.size)
    requires Scaled(levels.size, cfg.maxPositionPct, Counted(d.confidence))
    requires d.direction == Long ==> Priced((levels.entry, levels.stop, levels.target), d.entry, longStop, longTarget)
    requires d.direction == Short ==> Priced((levels.entry, levels.stop, levels.target), d.entry, shortStop, shortTarget)
    requires longStop == d.entry * (1.0 - cfg.stopLossPct) && longTarget == d.entry * (1.0 + cfg.takeProfitPct)
    requires shortStop == d.entry * (1.0 + cfg.stopLossPct) && shortTarget == d.entry * (1.0 - cfg.takeProfitPct)
    ensures Vouched(a, id, d, cfg)
  {
  }

  /** A decision is approved exactly when it clears the gates with levels an approval accepts; then its share is charged
      and the approval published, and nothing else changes; otherwise nothing does. */
  lemma DecisionOutcome(w: World, id: EventId, d: Decision, cfg: RiskConfig)
    ensures var w' := RiskEffect(w, id, d, cfg);
            var levels := ComputeLevels(d.entry, d.direction, d.confidence, cfg);
            if Clears(d, w.exposure, levels.size, cfg) && Ordered(levels, d.direction)
            then && id in w'.approvals && Vouched(w'.approvals[id], id, d, cfg)
                 && w' == w.(exposure := w.exposure + w'.approvals[id].fraction, approvals := w.approvals[id := w'.approvals[id]])
            else w' == w
  {
    VerdictInFull(Query(d.entry, d.direction, d.confidence, d.score, d.blacklisted, w.exposure), cfg);
    if Decide(id, d, w.exposure, cfg).Some? {
      DecisionVouched(id, d, w.exposure, cfg);
    }
  }

  // ---------- A delivery ----------

  /** Entry, stop and target of one event, of one size: the entry on the side of the direction, the others reduce-only on
      the opposite one. */
  function Bracketed(ev: Approval, pair: Pair, size: real): seq<Order> {
    var side, exit := if ev.direction == Long then Buy else Sell, if ev.direction == Long then Sell else Buy;
    [Order(pair, side, Limit, size, Some(ev.entry), false, Bracket(ev.id, EntryLeg)),
     Order(pair, exit, StopLoss, size, Some(ev.stop), true, Bracket(ev.id, StopLeg)),
     Order(pair, exit, TakeProfit, size, Some(ev.target), true, Bracket(ev.id, TargetLeg))]
  }

  /** From w to w' the event was executed under this grant: marked, three orders, tracked, recorded, announced twice. */
  predicate Executes(w: World, w': World, g: Grant, pair: Pair) {
    var ev, size := g.ev, g.Size();
    var side := if ev.direction == Long then Buy else Sell;
    w' == w.(
      submitted := w.submitted + {ev.id},
      orders := w.orders + [Sent(Bracketed(ev, pair, size)[0], ByExecution(g)), Sent(Bracketed(ev, pair, size)[1], ByExecution(g)),
                            Sent(Bracketed(ev, pair, size)[2], ByExecution(g))],
      tracked := w.tracked + {ev.id},
      positions := w.positions[ev.id := Position(ev.symbol, pair, side, size, ev.entry, ev.fraction)],
      executions := w.executions + [Submitted(ev.id, ev.symbol, size), Filled(ev.id, ev.symbol, size, ev.entry)])
  }

  /** A grant's size in numbers: nothing unless there is equity, a price and a share and one ten-thousandth of a contract is
      paid for by the least of the three caps; else the most ten-thousandths it pays for. */
  lemma SizeInFull(g: Grant) returns (count: int)
    ensures var cap := Notional(g.equity, g.ev.fraction, g.config.caps);
            && (g.Size() > 0.0 <==> 0.0 < g.equity && 0.0 < g.ev.entry && 0 < g.ev.fraction && g.ev.entry * 0.0001 <= cap)
            && (g.Size() > 0.0 ==> g.Size() == Per(count, 10_000) && g.Size() * g.ev.entry <= cap < Per(count + 1, 10_000) * g.ev.entry)
            && g.Size() >= 0.0
  {
    SizedIff(g.equity, g.ev.fraction, g.ev.entry, g.config.caps);
    count := SizeIsLargestUnderCap(g.equity, g.ev.fraction, g.ev.entry, g.config.caps, STEPS_PER_CONTRACT, MIN_CONTRACTS);
  }

  lemma ExecutionOutcome(w: World, g: Grant, defaults: TradingConfig, equity: real)
    requires Tradable(g.ev.symbol)
    ensures Executes(w, Finish(w, Executing(g, 0), defaults, equity), g, PairOf(g.ev.symbol))
  {
    FinishExecuting(w, g, defaults, equity);
  }

  lemma RefusalOutcome(w: World, ev: Approval, reason: Reason, defaults: TradingConfig, equity: real)
    ensures Finish(w, Refuse(ev, reason), defaults, equity)
         == w.(executions := w.executions + [Refused(ev.id, ev.symbol, reason)])
  {
    FinishStep(w, Refuse(ev, reason), defaults, equity);
  }

  lemma QueueOutcome(w: World, ev: Approval, defaults: TradingConfig, equity: real)
    ensures Finish(w, StorePending(ev), defaults, equity)
         == w.(pending := w.pending[ev.id := ev], pendingSet := w.pendingSet + {ev.id},
               executions := w.executions + [Pending(ev.id, ev.symbol)])
  {
    var w1 := w.(pending := w.pending[ev.id := ev]);
    var w2 := w1.(pendingSet := w1.pendingSet + {ev.id});
    FinishStep(w, StorePending(ev), defaults, equity);
    FinishStep(w1, ListPending(ev), defaults, equity);
    FinishStep(w2, AnnouncePending(ev), defaults, equity);
  }

  /** Decided on, with this configuration and equity: what follows the guards' leave. */
  predicate SizedOutcome(w: World, w': World, g: Grant, operator: bool) {
    if g.Size() <= 0.0 then w' == w.(executions := w.executions + [Refused(g.ev.id, g.ev.symbol, BelowMinSize)])
    else if !operator && !g.config.autoTrading then
      w' == w.(pending := w.pending[g.ev.id := g.ev], pendingSet := w.pendingSet + {g.ev.id},
               executions := w.executions + [Pending(g.ev.id, g.ev.symbol)])
    else if !Tradable(g.ev.symbol) then w' == w
    else Executes(w, w', g, PairOf(g.ev.symbol))
  }

  lemma AfterSizingOutcome(w: World, g: Grant, operator: bool, defaults: TradingConfig, equity: real)
    ensures SizedOutcome(w, Finish(w, AfterSizing(g, operator), defaults, equity), g, operator)
  {
    if g.Size() <= 0.0 {
      RefusalOutcome(w, g.ev, BelowMinSize, defaults, equity);
    } else if !operator && !g.config.autoTrading {
      QueueOutcome(w, g.ev, defaults, equity);
    } else if Tradable(g.ev.symbol) {
      ExecutionOutcome(w, g, defaults, equity);
    }
  }

  /** From the configuration in force on, for an event not yet decided: the switch, the rate, the whitelist, the size and
      the auto-trading gate, in this order. A token is taken by everything the switch lets through. */
  predicate DecidedOutcome(w: World, w': World, ev: Approval, config: TradingConfig, equity: real, operator: bool) {
    if !config.tradingEnabled then w' == w.(executions := w.executions + [Refused(ev.id, ev.symbol, KillSwitch)])
    else if config.maxOrdersPerHour <= w.rate then
      w' == w.(rate := w.rate + 1, executions := w.executions + [Refused(ev.id, ev.symbol, RateLimit)])
    else if !operator && !Tradable(ev.symbol) then
      w' == w.(rate := w.rate + 1, executions := w.executions + [Refused(ev.id, ev.symbol, UnknownSymbol)])
    else SizedOutcome(w.(rate := w.rate + 1), w', Grant(ev, config, equity), operator)
  }

  lemma FromConfigOutcome(w: World, ev: Approval, operator: bool, defaults: TradingConfig, equity: real)
    ensures DecidedOutcome(w, Finish(w, LoadConfig(ev, operator), defaults, equity), ev, Load(w.runtime, defaults), equity, operator)
  {
    var config, w1 := Load(w.runtime, defaults), w.(rate := w.rate + 1);
    FinishStep(w, LoadConfig(ev, operator), defaults, equity);
    FinishStep(w, Guard(ev, config, operator), defaults, equity);
    if !config.tradingEnabled {
      RefusalOutcome(w, ev, KillSwitch, defaults, equity);
    } else if config.maxOrdersPerHour <= w.rate {
      RefusalOutcome(w1, ev, RateLimit, defaults, equity);
    } else if !operator && !Tradable(ev.symbol) {
      RefusalOutcome(w1, ev, UnknownSymbol, defaults, equity);
    } else {
      FinishStep(w1, ReadEquity(ev, config, operator), defaults, equity);
      AfterSizingOutcome(w1, Grant(ev, config, equity), operator, defaults, equity);
    }
  }

  /** A whole delivery: nothing for an event already submitted, else as decided without an operator. */
  lemma DeliveryOutcome(w: World, ev: Approval, defaults: TradingConfig, equity: real)
    ensures var w' := Finish(w, CheckSubmitted(ev), defaults, equity);
            if ev.id in w.submitted then w' == w
            else DecidedOutcome(w, w', ev, Load(w.runtime, defaults), equity, false)
  {
    FinishStep(w, CheckSubmitted(ev), defaults, equity);
    if ev.id !in w.submitted {
      FromConfigOutcome(w, ev, false, defaults, equity);
    }
  }

  /** A whole approval: nothing for an unknown id, else it is unlisted and decided with the operator's word. */
  lemma ApprovalOutcome(w: World, id: EventId, defaults: TradingConfig, equity: real)
    ensures var w' := Finish(w, LoadPending(id, None), defaults, equity);
            if id !in w.pending then w' == w
            else DecidedOutcome(w.(pendingSet := w.pendingSet - {w.pending[id].id}), w', w.pending[id],
                                Load(w.runtime, defaults), equity, true)
  {
    FinishStep(w, LoadPending(id, None), defaults, equity);
    if id in w.pending {
      FinishStep(w, Unlist(w.pending[id], None), defaults, equity);
      FromConfigOutcome(w.(pendingSet := w.pendingSet - {w.pending[id].id}), w.pending[id], true, defaults, equity);
    }
  }

  /** A whole rejection: nothing for an unknown id, else it is unlisted and announced with the operator's text. */
  lemma RejectionOutcome(w: World, id: EventId, text: string, defaults: TradingConfig, equity: real)
    ensures var w' := Finish(w, LoadPending(id, Some(OperatorReject(text))), defaults, equity);
            if id !in w.pending then w' == w
            else var ev := w.pending[id];
                 w' == w.(pendingSet := w.pendingSet - {ev.id},
                          executions := w.executions + [Refused(ev.id, ev.symbol, OperatorReject(text))])
  {
    var reason := OperatorReject(text);
    FinishStep(w, LoadPending(id, Some(reason)), defaults, equity);
    if id in w.pending {
      var ev := w.pending[id];
      FinishStep(w, Unlist(ev, Some(reason)), defaults, equity);
      RefusalOutcome(w.(pendingSet := w.pendingSet - {ev.id}), ev, reason, defaults, equity);
    }
  }

  /** With auto-trading off a delivery sends, marks, tracks and records nothing; and an event that is new, let through by
      the guards, listed and sized waits for the operator, with its announcement the one new event. */
  lemma WithoutAutoTradingDeliveriesWait(w: World, ev: Approval, defaults: TradingConfig, equity: real)
    ensures var w' := Finish(w, CheckSubmitted(ev), defaults, equity);
            var config := Load(w.runtime, defaults);
            !config.autoTrading ==>
              && w'.orders == w.orders && w'.submitted == w.submitted && w'.tracked == w.tracked && w'.positions == w.positions
              && (ev.id !in w.submitted && config.tradingEnabled && w.rate < config.maxOrdersPerHour && Tradable(ev.symbol)
                  && Grant(ev, config, equity).Size() > 0.0 ==>
                    && ev.id in w'.pending && w'.pending[ev.id] == ev && ev.id in w'.pendingSet
                    && w'.executions == w.executions + [Pending(ev.id, ev.symbol)])
  {
    DeliveryOutcome(w, ev, defaults, equity);
  }

  // ---------- A close ----------

  /** A position closes under the name, on the side and with the size it was executed with. */
  lemma ClosesAsExecuted(g: Grant)
    requires g.ev.direction != Watch
    ensures ClosedEvent(g.ev.id, g.Record()) == Closed(g.ev.id, g.ev.symbol, g.ev.direction, g.Size())
    ensures g.Record().fraction == g.ev.fraction
  {
  }

  /** Closing sends one reduce-only market order of the position's size on the other side, for a known position. */
  lemma CloseOutcome(w: World, id: EventId)
    ensures ClosePosition(w, id) ==
            if id !in w.positions then w
            else var pos := w.positions[id];
                 w.(orders := w.orders + [Sent(Order(pos.pair, if pos.side == Buy then Sell else Buy, Market, pos.size, None, true,
                                                     Bracket(id, CloseLeg)), ByOperator)])
  {
  }

  /** One reduce-only leg of a known position, if a price is given. */
  function LegOf(id: EventId, pos: Position, kind: OrderKind, leg: Leg, price: Option<real>): seq<Sent> {
    if price.None? then []
    else [Sent(Order(pos.pair, if pos.side == Buy then Sell else Buy, kind, pos.size, price, true, Bracket(id, leg)), ByOperator)]
  }

  /** Adjusting sends a new stop and a new target, each only if given, for a known position. */
  lemma AdjustOutcome(w: World, id: EventId, stop: Option<real>, target: Option<real>)
    ensures AdjustSltp(w, id, stop, target) ==
            if id !in w.positions then w
            else w.(orders := w.orders + LegOf(id, w.positions[id], StopLoss, StopLeg, stop)
                                       + LegOf(id, w.positions[id], TakeProfit, TargetLeg, target))
  {
  }

  // ---------- Orders by hand ----------

  /** A manual order goes out exactly when trading is enabled, a token is left, the symbol is listed and its value, at its
      own positive price or else at a positive last price, is within the cap; with neither price nothing caps it. */
  lemma ManualOutcome(w: World, r: ManualRequest, lastPrice: Option<real>, defaults: TradingConfig)
    ensures var w', config := ManualOrder(w, r, lastPrice, defaults), Load(w.runtime, defaults);
            var own, last := r.price.Some? && r.price.value > 0.0, lastPrice.Some? && lastPrice.value > 0.0;
            && w' == w.(orders := w'.orders, rate := if config.tradingEnabled then w.rate + 1 else w.rate)
            && if config.tradingEnabled && w.rate < config.maxOrdersPerHour && Tradable(r.symbol)
                  && (own ==> r.quantity * r.price.value <= config.caps.maxOrderUsd)
                  && (!own && last ==> r.quantity * lastPrice.value <= config.caps.maxOrderUsd)
               then w'.orders == w.orders + [Sent(Order(PairOf(r.symbol), r.side, if r.market then Market else Limit, r.quantity,
                                                        r.price, false, Manual(Normalize(r.symbol), r.side)), ByOperator)]
               else w'.orders == w.orders
  {
  }
}
