/**
 The services as objects: handlers that read and write the shared keys one after the other. Each is tied to the
 protocol: left alone, it leaves the world its awaits leave.
 */
module Engines {
  import opened MapSum
  import opened Outcomes
  import opened Protocol
  import opened Reconciling
  import opened RiskRules
  import opened Sizing
  import opened Symbols
  import opened Wrappers

  /** Redis, the exchange's order log and the event bus. */
  class Platform {
    var exposure: int
    var submitted: set<EventId>
    var pending: map<EventId, Approval>
    var pendingSet: set<EventId>
    var tracked: set<EventId>
    var positions: map<EventId, Position>
    var runtime: Option<Overlay>
    var rate: int
    var orders: seq<Sent>
    var executions: seq<Execution>
    var approvals: map<EventId, Approval>

    constructor ()
      ensures Snapshot() == EMPTY_WORLD
    {
      exposure, submitted, pending, pendingSet, tracked, positions := 0, {}, map[], {}, {}, map[];
      runtime, rate, orders, executions, approvals := None, 0, [], [], map[];
    }

    function Snapshot(): World
      reads this
    {
      World(exposure, submitted, pending, pendingSet, tracked, positions, runtime, rate, orders, executions, approvals)
    }

    /** The fixed-window counter: one more use of the key, allowed while within the limit. */
    method Allow(limit: int) returns (allowed: bool)
      modifies this`rate
      ensures rate == old(rate) + 1 && allowed == (rate <= limit)
    {
      rate := rate + 1;
      allowed := rate <= limit;
    }

    method SendOrder(order: Order, sender: Sender)
      modifies this`orders
      ensures orders == old(orders) + [Sent(order, sender)]
    {
      orders := orders + [Sent(order, sender)];
    }

    method Publish(e: Execution)
      modifies this`executions
      ensures executions == old(executions) + [e]
    {
      executions := executions + [e];
    }
  }

  /** An operator's order that can only shrink this position: reduce-only, its size, on the other side. */
  predicate Exits(sent: Sent, pos: Position) {
    && sent.sender.ByOperator? && sent.order.reduceOnly
    && sent.order.pair == pos.pair && sent.order.size == pos.size && sent.order.side != pos.side
  }

  class RiskEngine {
    const platform: Platform
    const config: RiskConfig

    constructor (platform: Platform, config: RiskConfig)
      ensures this.platform == platform && this.config == config
    {
      this.platform := platform;
      this.config := config;
    }

    /** Handles a decision; should it be approved, the approval carries the fresh id. */
    method Handle(d: Decision, id: EventId)
      requires id !in platform.approvals
      modifies platform
      ensures platform.Snapshot() == RiskEffect(old(platform.Snapshot()), id, d, config)
      ensures id in platform.approvals ==>
                && Vouched(platform.approvals[id], id, d, config)
                && platform.approvals == old(platform.approvals)[id := platform.approvals[id]]
                && platform.exposure == old(platform.exposure) + platform.approvals[id].fraction
      ensures id in platform.approvals <==>
                var levels := ComputeLevels(d.entry, d.direction, d.confidence, config);
                Clears(d, old(platform.exposure), levels.size, config) && Ordered(levels, d.direction)
      ensures id !in platform.approvals ==> platform.Snapshot() == old(platform.Snapshot())
    {
      DecisionOutcome(platform.Snapshot(), id, d, config);
      var exposure := platform.exposure;
      var verdict := Evaluate(Query(d.entry, d.direction, d.confidence, d.score, d.blacklisted, exposure), config);
      if verdict.Rejected? {
        return;
      }
      var levels := verdict.levels;
      if !Constructible(levels, d.direction) {
        return;
      }
      var approved := Approval(id, d.symbol, d.direction, levels.entry, levels.stop, levels.target, d.confidence, levels.size);
      platform.exposure := exposure + levels.size;
      platform.approvals := platform.approvals[id := approved];
    }
  }

  /** The value of a manual order at its own positive price, or else at a positive last price, is within the cap. */
  predicate WithinCap(r: ManualRequest, lastPrice: Option<real>, caps: Caps) {
    if r.price.Some? && r.price.value > 0.0 then r.quantity * r.price.value <= caps.maxOrderUsd
    else lastPrice.Some? && lastPrice.value > 0.0 ==> r.quantity * lastPrice.value <= caps.maxOrderUsd
  }

  /** The order is the request, on the listed pair and not tied to any event. */
  predicate Requested(sent: Sent, r: ManualRequest) {
    && sent.sender.ByOperator? && sent.order.client == Manual(Normalize(r.symbol), r.side) && !sent.order.reduceOnly
    && Tradable(r.symbol) && sent.order.pair == PairOf(r.symbol)
    && sent.order.side == r.side && sent.order.size == r.quantity && sent.order.price == r.price
    && (sent.order.kind == Market <==> r.market)
  }

  class TradingEngine {
    const platform: Platform
    const defaults: TradingConfig

    constructor (platform: Platform, defaults: TradingConfig)
      ensures this.platform == platform && this.defaults == defaults
    {
      this.platform := platform;
      this.defaults := defaults;
    }

    /** The kill switch first, so that a disabled engine consumes no rate token. */
    method CheckGuards(config: TradingConfig) returns (reason: Option<Reason>)
      modifies platform
      ensures (platform.Snapshot(), reason) == Protocol.CheckGuards(old(platform.Snapshot()), config)
    {
      if !config.tradingEnabled {
        return Some(KillSwitch);
      }
      var allowed := platform.Allow(config.maxOrdersPerHour);
      reason := if allowed then None else Some(RateLimit);
    }

    method Refuse(ev: Approval, reason: Reason)
      modifies platform
      ensures platform.Snapshot() == old(platform.Snapshot()).Emit(Refused(ev.id, ev.symbol, reason))
    {
      platform.Publish(Refused(ev.id, ev.symbol, reason));
    }

    method QueuePending(ev: Approval)
      modifies platform
      ensures platform.Snapshot() == Finish(old(platform.Snapshot()), StorePending(ev), defaults, 0.0)
    {
      ghost var w := platform.Snapshot();
      platform.pending := platform.pending[ev.id := ev];
      FinishStep(w, StorePending(ev), defaults, 0.0);
      ghost var w1 := platform.Snapshot();
      platform.pendingSet := platform.pendingSet + {ev.id};
      FinishStep(w1, ListPending(ev), defaults, 0.0);
      platform.Publish(Pending(ev.id, ev.symbol));
    }

    /** Entry, stop and target; then tracking. The mark is set before anything reaches the exchange. */
    method Execute(g: Grant)
      modifies platform
      ensures platform.Snapshot() == ExecuteEffect(old(platform.Snapshot()), g)
    {
      var ev, pair, size := g.ev, g.Pair(), g.Size();
      platform.submitted := platform.submitted + {ev.id};
      var side := if ev.direction == Long then Buy else Sell;
      platform.SendOrder(Order(pair, side, Limit, size, Some(ev.entry), false, Bracket(ev.id, EntryLeg)), ByExecution(g));
      platform.Publish(Submitted(ev.id, ev.symbol, size));
      var exitSide := side.Opposite();
      platform.SendOrder(Order(pair, exitSide, StopLoss, size, Some(ev.stop), true, Bracket(ev.id, StopLeg)), ByExecution(g));
      platform.SendOrder(Order(pair, exitSide, TakeProfit, size, Some(ev.target), true, Bracket(ev.id, TargetLeg)), ByExecution(g));
      Track(ev, Position(ev.symbol, pair, side, size, ev.entry, ev.fraction));
    }

    /** The set first, then the record, then the fill. */
    method Track(ev: Approval, pos: Position)
      modifies platform
      ensures platform.Snapshot()
           == old(platform.Snapshot()).(tracked := old(platform.tracked) + {ev.id},
                                        positions := old(platform.positions)[ev.id := pos],
                                        executions := old(platform.executions) + [Filled(ev.id, ev.symbol, pos.size, ev.entry)])
    {
      platform.tracked := platform.tracked + {ev.id};
      platform.positions := platform.positions[ev.id := pos];
      platform.Publish(Filled(ev.id, ev.symbol, pos.size, ev.entry));
    }

    /** From the loaded configuration on: guards, whitelist, sizing, then queue or execute. */
    method Decide(ev: Approval, operator: bool, equity: real)
      modifies platform
      ensures platform.Snapshot() == Finish(old(platform.Snapshot()), LoadConfig(ev, operator), defaults, equity)
      ensures DecidedOutcome(old(platform.Snapshot()), platform.Snapshot(), ev, Load(old(platform.runtime), defaults), equity, operator)
    {
      ghost var w := platform.Snapshot();
      FromConfigOutcome(w, ev, operator, defaults, equity);
      var config := Load(platform.runtime, defaults);
      FinishStep(w, LoadConfig(ev, operator), defaults, equity);
      var reason := CheckGuards(config);
      FinishStep(w, Guard(ev, config, operator), defaults, equity);
      ghost var guarded := platform.Snapshot();
      if reason.Some? {
        Refuse(ev, reason.value);
        return;
      }
      if !operator && !Tradable(ev.symbol) {
        Refuse(ev, UnknownSymbol);
        return;
      }
      FinishStep(guarded, ReadEquity(ev, config, operator), defaults, equity);
      var g := Grant(ev, config, equity);
      if g.Size() <= 0.0 {
        Refuse(ev, BelowMinSize);
      } else if !operator && !config.autoTrading {
        QueuePending(ev);
        QueueIgnoresEquity(guarded, ev, defaults, equity);
      } else if Tradable(ev.symbol) {
        Execute(g);
        FinishExecuting(guarded, g, defaults, equity);
      }
    }

    method Handle(ev: Approval, equity: real)
      modifies platform
      ensures platform.Snapshot() == Finish(old(platform.Snapshot()), CheckSubmitted(ev), defaults, equity)
      ensures if ev.id in old(platform.submitted) then platform.Snapshot() == old(platform.Snapshot())
              else DecidedOutcome(old(platform.Snapshot()), platform.Snapshot(), ev, Load(old(platform.runtime), defaults), equity, false)
    {
      FinishStep(platform.Snapshot(), CheckSubmitted(ev), defaults, equity);
      if ev.id in platform.submitted {
        return;
      }
      Decide(ev, false, equity);
    }

    method ApproveOpportunity(id: EventId, equity: real)
      modifies platform
      ensures platform.Snapshot() == Finish(old(platform.Snapshot()), LoadPending(id, None), defaults, equity)
      ensures if id !in old(platform.pending) then platform.Snapshot() == old(platform.Snapshot())
              else var ev := old(platform.pending)[id];
                   DecidedOutcome(old(platform.Snapshot()).(pendingSet := old(platform.pendingSet) - {ev.id}), platform.Snapshot(), ev,
                                  Load(old(platform.runtime), defaults), equity, true)
    {
      FinishStep(platform.Snapshot(), LoadPending(id, None), defaults, equity);
      if id !in platform.pending {
        return;
      }
      var ev := platform.pending[id];
      FinishStep(platform.Snapshot(), Unlist(ev, None), defaults, equity);
      platform.pendingSet := platform.pendingSet - {ev.id};
      Decide(ev, true, equity);
    }

    method RejectOpportunity(id: EventId, text: string)
      modifies platform
      ensures platform.Snapshot() == Finish(old(platform.Snapshot()), LoadPending(id, Some(OperatorReject(text))), defaults, 0.0)
      ensures if id !in old(platform.pending) then platform.Snapshot() == old(platform.Snapshot())
              else var ev := old(platform.pending)[id];
                   platform.Snapshot() == old(platform.Snapshot()).(
                     pendingSet := old(platform.pendingSet) - {ev.id},
                     executions := old(platform.executions) + [Refused(ev.id, ev.symbol, OperatorReject(text))])
    {
      ghost var refusal := Some(OperatorReject(text));
      FinishStep(platform.Snapshot(), LoadPending(id, refusal), defaults, 0.0);
      if id !in platform.pending {
        return;
      }
      var ev := platform.pending[id];
      FinishStep(platform.Snapshot(), Unlist(ev, refusal), defaults, 0.0);
      platform.pendingSet := platform.pendingSet - {ev.id};
      FinishStep(platform.Snapshot(), Protocol.Refuse(ev, refusal.value), defaults, 0.0);
      Refuse(ev, OperatorReject(text));
    }

    /** One reduce-only market order for a position on record, and nothing else. */
    method ClosePosition(id: EventId)
      modifies platform
      ensures platform.Snapshot() == old(platform.Snapshot()).(orders := platform.orders)
      ensures id !in platform.positions ==> platform.orders == old(platform.orders)
      ensures id in platform.positions ==>
                && |platform.orders| == |old(platform.orders)| + 1 && old(platform.orders) <= platform.orders
                && Exits(platform.orders[|old(platform.orders)|], platform.positions[id])
                && platform.orders[|old(platform.orders)|].order.kind == Market
      ensures platform.Snapshot() == Protocol.ClosePosition(old(platform.Snapshot()), id)
    {
      if id !in platform.positions {
        return;
      }
      var pos := platform.positions[id];
      platform.SendOrder(Order(pos.pair, pos.side.Opposite(), Market, pos.size, None, true, Bracket(id, CloseLeg)), ByOperator);
    }

    /** A stop and a target at the prices given, each only if given, for a position on record, and nothing else. */
    method AdjustSltp(id: EventId, stop: Option<real>, target: Option<real>)
      modifies platform
      ensures platform.Snapshot() == old(platform.Snapshot()).(orders := platform.orders)
      ensures id !in platform.positions ==> platform.orders == old(platform.orders)
      ensures id in platform.positions ==>
                && |platform.orders| == |old(platform.orders)| + (if stop.Some? then 1 else 0) + (if target.Some? then 1 else 0)
                && old(platform.orders) <= platform.orders
      ensures forall i :: |old(platform.orders)| <= i < |platform.orders| ==>
                id in platform.positions && Exits(platform.orders[i], platform.positions[id])
      ensures id in platform.positions && stop.Some? ==>
                var o := platform.orders[|old(platform.orders)|].order; o.kind == StopLoss && o.price == stop
      ensures id in platform.positions && target.Some? ==>
                var o := platform.orders[|platform.orders| - 1].order; o.kind == TakeProfit && o.price == target
      ensures platform.Snapshot() == Protocol.AdjustSltp(old(platform.Snapshot()), id, stop, target)
    {
      if id !in platform.positions {
        return;
      }
      var pos := platform.positions[id];
      var exitSide := pos.side.Opposite();
      if stop.Some? {
        platform.SendOrder(Order(pos.pair, exitSide, StopLoss, pos.size, stop, true, Bracket(id, StopLeg)), ByOperator);
      }
      if target.Some? {
        platform.SendOrder(Order(pos.pair, exitSide, TakeProfit, pos.size, target, true, Bracket(id, TargetLeg)), ByOperator);
      }
    }

    /** Exactly when trading is enabled, a token is left, the symbol is listed and, should any price be known, the value is
        within the cap, the order asked for goes out; nothing but it and the token changes. */
    method ManualOrder(r: ManualRequest, lastPrice: Option<real>)
      modifies platform
      ensures platform.Snapshot() == old(platform.Snapshot()).(orders := platform.orders, rate := platform.rate)
      ensures platform.rate == if Load(platform.runtime, defaults).tradingEnabled then old(platform.rate) + 1 else old(platform.rate)
      ensures var config := Load(platform.runtime, defaults);
              if config.tradingEnabled && old(platform.rate) < config.maxOrdersPerHour && Tradable(r.symbol)
                 && WithinCap(r, lastPrice, config.caps)
              then && |platform.orders| == |old(platform.orders)| + 1 && old(platform.orders) <= platform.orders
                   && Requested(platform.orders[|old(platform.orders)|], r)
              else platform.orders == old(platform.orders)
      ensures platform.Snapshot() == Protocol.ManualOrder(old(platform.Snapshot()), r, lastPrice, defaults)
    {
      var config := Load(platform.runtime, defaults);
      var reason := CheckGuards(config);
      if reason.Some? || !Tradable(r.symbol) {
        return;
      }
      var ref := r.price.GetOr(0.0);
      if ref <= 0.0 {
        ref := lastPrice.GetOr(0.0);
      }
      if ref > 0.0 && r.quantity * ref > config.caps.maxOrderUsd {
        return;
      }
      platform.SendOrder(Order(PairOf(r.symbol), r.side, if r.market then Market else Limit, r.quantity, r.price, false,
                               Manual(Normalize(r.symbol), r.side)), ByOperator);
    }
  }

  lemma QueueIgnoresEquity(w: World, ev: Approval, defaults: TradingConfig, equity: real)
    ensures Finish(w, StorePending(ev), defaults, equity) == Finish(w, StorePending(ev), defaults, 0.0)
  {
    var w1 := TaskStep(w, StorePending(ev), defaults, equity).0;
    var w2 := TaskStep(w1, ListPending(ev), defaults, equity).0;
    FinishStep(w, StorePending(ev), defaults, equity);
    FinishStep(w, StorePending(ev), defaults, 0.0);
    FinishStep(w1, ListPending(ev), defaults, equity);
    FinishStep(w1, ListPending(ev), defaults, 0.0);
  }

  class Reconciler {
    const platform: Platform

    constructor (platform: Platform)
      ensures this.platform == platform
    {
      this.platform := platform;
    }

    method OnClosed(id: EventId, pos: Position)
      modifies platform
      ensures platform.Snapshot() == CloseEffect(old(platform.Snapshot()), id, pos)
    {
      var exposure := platform.exposure;
      var freed := Max(0, exposure - pos.fraction);
      platform.exposure := freed;
      platform.tracked := platform.tracked - {id};
      platform.Publish(Closed(id, pos.symbol, if pos.side == Sell then Short else Long, pos.size));
    }

    /** `open` is the exchange's snapshot of open pairs; `order` records how the tracked set happened to iterate. */
    method Sweep(open: set<Pair>) returns (ghost order: seq<EventId>)
      modifies platform
      ensures Enumerates(order, old(platform.tracked))
      ensures platform.Snapshot() == SweepEffect(old(platform.Snapshot()), open, order)
      ensures platform.tracked == set id | id in old(platform.tracked) && StillOpen(platform.positions, id, open)
      ensures 0 <= old(platform.exposure) ==>
                platform.exposure == Max(0, old(platform.exposure) - Sum(Freed(platform.positions, open, old(platform.tracked))))
      ensures platform.orders == old(platform.orders)
    {
      ghost var start := platform.Snapshot();
      order := [];
      var rest := platform.tracked;
      while rest != {}
        invariant Distinct(order)
        invariant forall id :: id in start.tracked <==> id in order || id in rest
        invariant forall id :: id in order ==> id !in rest
        invariant platform.Snapshot() == SweepEffect(start, open, order)
        decreases rest
      {
        var id :| id in rest;
        SweepTouchesOnly(start, open, order);
        SweepAppend(start, open, order, id);
        if id !in platform.positions {
          platform.tracked := platform.tracked - {id};
        } else if platform.positions[id].pair !in open {
          OnClosed(id, platform.positions[id]);
        }
        order := order + [id];
        rest := rest - {id};
      }
      SweepTouchesOnly(start, open, order);
      SweepUntracks(start, open, order);
      if 0 <= start.exposure {
        SweepOutcome(start, open, order);
      }
    }
  }

  lemma {:induction false} SweepAppend(w: World, open: set<Pair>, order: seq<EventId>, id: EventId)
    ensures SweepEffect(w, open, order + [id]) == Visit(SweepEffect(w, open, order), open, id)
    decreases |order|
  {
    if order == [] {
      assert SweepEffect(Visit(w, open, id), open, []) == Visit(w, open, id);
      assert [id][1..] == [];
      assert order + [id] == [id];
    } else {
      assert (order + [id])[1..] == order[1..] + [id];
      SweepAppend(Visit(w, open, order[0]), open, order[1..], id);
    }
  }
}
