/** What every run keeps about the orders sent to the exchange. */
module Orders {
  import opened Protocol
  import opened WholeHandlers
  import opened Wrappers

  // ---------- At most once ----------

  /** The orders `_execute` sent for one event, in order. */
  function SentFor(orders: seq<Sent>, id: EventId): seq<Sent> {
    if orders == [] then []
    else
      var last := orders[|orders| - 1];
      SentFor(orders[..|orders| - 1], id)
      + if last.sender.ByExecution? && last.sender.grant.ev.id == id then [last] else []
  }

  /** Nothing, or the first orders of one bracket. */
  predicate PartOfOneBracket(sent: seq<Sent>) {
    sent == [] || (sent[0].sender.ByExecution? && sent <= BracketOf(sent[0].sender.grant))
  }

  /** Orders out once `done` awaits of `_execute` are over. */
  function LegsAfter(done: nat): nat {
    if done <= 1 then 0 else if done <= 3 then 1 else if done == 4 then 2 else 3
  }

  predicate InProgress(t: Task) {
    t.Executing? && 1 <= t.done
  }

  predicate Upholds(w: World, t: Task) {
    InProgress(t) ==>
      t.grant.ev.id in w.submitted && SentFor(w.orders, t.grant.ev.id) == BracketOf(t.grant)[..LegsAfter(t.done)]
  }

  ghost predicate OncePerEvent(w: World) {
    && (forall id :: id !in w.submitted ==> SentFor(w.orders, id) == [])
    && (forall id :: PartOfOneBracket(SentFor(w.orders, id)))
    && (forall id, symbol, size, price :: Filled(id, symbol, size, price) in w.executions ==> |SentFor(w.orders, id)| == 3)
  }

  ghost predicate AtMostOnce(s: System) {
    && OncePerEvent(s.world)
    && Upholds(s.world, s.signal) && Upholds(s.world, s.command)
    && (InProgress(s.signal) && InProgress(s.command) ==> s.signal.grant.ev.id != s.command.grant.ev.id)
  }

  /** No handler is about to mark an event that is marked already. */
  predicate FirstMark(s: System, a: Action) {
    a.Step? && TaskIn(s, a.slot).Executing? && TaskIn(s, a.slot).done == 0 ==> TaskIn(s, a.slot).grant.ev.id !in s.world.submitted
  }

  lemma SentForAppend(orders: seq<Sent>, o: Sent, id: EventId)
    ensures SentFor(orders + [o], id)
         == SentFor(orders, id) + if o.sender.ByExecution? && o.sender.grant.ev.id == id then [o] else []
  {
    assert (orders + [o])[..|orders|] == orders;
  }

  lemma SentForBracket(orders: seq<Sent>, g: Grant)
    ensures SentFor(orders + BracketOf(g), g.ev.id) == SentFor(orders, g.ev.id) + BracketOf(g)
  {
    var b, id := BracketOf(g), g.ev.id;
    SentForAppend(orders, b[0], id);
    SentForAppend(orders + [b[0]], b[1], id);
    SentForAppend(orders + [b[0]] + [b[1]], b[2], id);
    assert orders + [b[0]] + [b[1]] + [b[2]] == orders + b;
  }

  /** The same executions have happened: other orders and events may have been added. */
  ghost predicate SameExecutions(w: World, w': World) {
    && w'.submitted == w.submitted
    && (forall id :: SentFor(w'.orders, id) == SentFor(w.orders, id))
    && (forall e: Execution :: e.Filled? && e in w'.executions ==> e in w.executions)
  }

  lemma OperatorOrdersDoNotCount(w: World, o: Order)
    ensures SameExecutions(w, w.Send(o, ByOperator))
  {
    forall id ensures SentFor(w.Send(o, ByOperator).orders, id) == SentFor(w.orders, id) {
      SentForAppend(w.orders, Sent(o, ByOperator), id);
    }
  }

  /** The order the next await of `_execute` sends, if it sends one. */
  function NextOrder(g: Grant, done: nat): Option<Sent> {
    match done
    case 1 => Some(BracketOf(g)[0])
    case 3 => Some(BracketOf(g)[1])
    case 4 => Some(BracketOf(g)[2])
    case _ => None
  }

  lemma AwaitExtendsBracket(w: World, g: Grant, done: nat, id: EventId)
    ensures SentFor(ExecuteAwait(w, g, done).orders, id)
         == SentFor(w.orders, id) + if id == g.ev.id && NextOrder(g, done).Some? then [NextOrder(g, done).value] else []
  {
    AwaitOrders(w, g, done);
    if NextOrder(g, done).Some? {
      SentForAppend(w.orders, NextOrder(g, done).value, id);
    }
  }

  lemma AwaitOrders(w: World, g: Grant, done: nat)
    ensures NextOrder(g, done).None? ==> ExecuteAwait(w, g, done).orders == w.orders
    ensures NextOrder(g, done).Some? ==>
              && NextOrder(g, done).value.sender == ByExecution(g)
              && ExecuteAwait(w, g, done).orders == w.orders + [NextOrder(g, done).value]
  {
  }

  /** Await by await the bracket grows by the order just sent. */
  lemma BracketGrows(g: Grant, done: nat)
    requires 1 <= done < EXECUTE_AWAITS
    ensures BracketOf(g)[..LegsAfter(done)] + (if NextOrder(g, done).Some? then [NextOrder(g, done).value] else [])
         == BracketOf(g)[..LegsAfter(done + 1)]
    ensures PartOfOneBracket(BracketOf(g)[..LegsAfter(done + 1)])
  {
  }

  lemma OtherIdsUntouched(w: World, g: Grant, done: nat)
    ensures forall id :: id != g.ev.id ==> SentFor(ExecuteAwait(w, g, done).orders, id) == SentFor(w.orders, id)
  {
    forall id ensures id != g.ev.id ==> SentFor(ExecuteAwait(w, g, done).orders, id) == SentFor(w.orders, id) {
      AwaitExtendsBracket(w, g, done, id);
    }
  }

  /** The own id after an await: the orders out are those the bracket has by then. */
  lemma OwnBracket(w: World, g: Grant, done: nat)
    requires done < EXECUTE_AWAITS
    requires if done == 0 then SentFor(w.orders, g.ev.id) == [] else SentFor(w.orders, g.ev.id) == BracketOf(g)[..LegsAfter(done)]
    ensures SentFor(ExecuteAwait(w, g, done).orders, g.ev.id) == BracketOf(g)[..LegsAfter(done + 1)]
    ensures PartOfOneBracket(BracketOf(g)[..LegsAfter(done + 1)])
  {
    AwaitExtendsBracket(w, g, done, g.ev.id);
    if done > 0 {
      BracketGrows(g, done);
    }
  }

  lemma AwaitKeepsOnce(w: World, g: Grant, done: nat)
    requires OncePerEvent(w) && Upholds(w, Executing(g, done)) && (done == 0 ==> g.ev.id !in w.submitted)
    ensures OncePerEvent(ExecuteAwait(w, g, done))
    ensures done + 1 < EXECUTE_AWAITS ==> Upholds(ExecuteAwait(w, g, done), Executing(g, done + 1))
  {
    if done < EXECUTE_AWAITS {
      OtherIdsUntouched(w, g, done);
      OwnBracket(w, g, done);
      AwaitKeepsFills(w, g, done);
    }
  }

  lemma AwaitKeepsFills(w: World, g: Grant, done: nat)
    requires OncePerEvent(w) && Upholds(w, Executing(g, done)) && (done == 0 ==> g.ev.id !in w.submitted)
    requires forall id :: id != g.ev.id ==> SentFor(ExecuteAwait(w, g, done).orders, id) == SentFor(w.orders, id)
    requires SentFor(ExecuteAwait(w, g, done).orders, g.ev.id) == BracketOf(g)[..LegsAfter(done + 1)]
    ensures forall id, symbol, size, price :: Filled(id, symbol, size, price) in ExecuteAwait(w, g, done).executions
              ==> |SentFor(ExecuteAwait(w, g, done).orders, id)| == 3
  {
  }

  /** Moves that neither send for an execution nor announce a fill. */
  lemma OtherTaskSteps(w: World, t: Task, setup: Setup, equity: real)
    requires !t.Executing?
    ensures SameExecutions(w, TaskStep(w, t, setup.defaults, equity).0)
    ensures !InProgress(TaskStep(w, t, setup.defaults, equity).1)
  {
  }

  lemma AdjustSends(w: World, id: EventId, stop: Option<real>, target: Option<real>)
    ensures SameExecutions(w, AdjustSltp(w, id, stop, target))
  {
    if id in w.positions {
      var w1 := AdjustLeg(w, id, StopLeg, StopLoss, stop);
      var w2 := AdjustLeg(w1, id, TargetLeg, TakeProfit, target);
      if stop.Some? {
        OperatorOrdersDoNotCount(w, w1.orders[|w.orders|].order);
      }
      if target.Some? {
        OperatorOrdersDoNotCount(w1, w2.orders[|w1.orders|].order);
      }
    }
  }

  lemma CloseSends(w: World, id: EventId)
    ensures SameExecutions(w, ClosePosition(w, id))
  {
    if id in w.positions {
      OperatorOrdersDoNotCount(w, ClosePosition(w, id).orders[|w.orders|].order);
    }
  }

  lemma ManualSends(w: World, r: ManualRequest, lastPrice: Option<real>, setup: Setup)
    ensures SameExecutions(w, ManualOrder(w, r, lastPrice, setup.defaults))
  {
    var (w', reason) := CheckGuards(w, Load(w.runtime, setup.defaults));
    var after := ManualOrder(w, r, lastPrice, setup.defaults);
    if after != w' {
      OperatorOrdersDoNotCount(w', after.orders[|w'.orders|].order);
    }
  }

  lemma OtherMoves(s: System, a: Action, setup: Setup)
    requires !a.Step?
    ensures SameExecutions(s.world, Next(s, a, setup).world)
  {
    match a
    case OperatorClose(id) => CloseSends(s.world, id);
    case OperatorAdjust(id, stop, target) => AdjustSends(s.world, id, stop, target);
    case OperatorOrder(r, lastPrice) => ManualSends(s.world, r, lastPrice, setup);
    case _ => SameLogs(s, a, setup);
  }

  lemma SameLogs(s: System, a: Action, setup: Setup)
    requires !a.Step? && !a.OperatorClose? && !a.OperatorAdjust? && !a.OperatorOrder?
    ensures var w' := Next(s, a, setup).world;
            w'.submitted == s.world.submitted && w'.orders == s.world.orders
            && (forall e: Execution :: e.Filled? && e in w'.executions ==> e in s.world.executions)
  {
  }

  lemma OtherMovesStartNothing(s: System, a: Action, setup: Setup)
    requires !a.Step?
    ensures InProgress(Next(s, a, setup).signal) ==> Next(s, a, setup).signal == s.signal
    ensures InProgress(Next(s, a, setup).command) ==> Next(s, a, setup).command == s.command
  {
  }

  /** AtMostOnce carries over to a world with the same executions and handlers no further along. */
  lemma SameExecutionsKeep(s: System, s': System)
    requires AtMostOnce(s) && SameExecutions(s.world, s'.world)
    requires InProgress(s'.signal) ==> s'.signal == s.signal
    requires InProgress(s'.command) ==> s'.command == s.command
    ensures AtMostOnce(s')
  {
  }

  lemma ExecutionKeepsAtMostOnce(s: System, slot: Slot)
    requires AtMostOnce(s) && TaskIn(s, slot).Executing?
    requires TaskIn(s, slot).done == 0 ==> TaskIn(s, slot).grant.ev.id !in s.world.submitted
    ensures AtMostOnce(Executed(s, slot))
  {
    var g, done := TaskIn(s, slot).grant, TaskIn(s, slot).done;
    AwaitKeepsOnce(s.world, g, done);
    OtherIdsUntouched(s.world, g, done);
  }

  lemma MoveKeepsAtMostOnce(s: System, a: Action, setup: Setup)
    requires AtMostOnce(s) && FirstMark(s, a)
    ensures AtMostOnce(Next(s, a, setup))
  {
    if a.Step? && TaskIn(s, a.slot).Executing? {
      StepExecutes(s, a.slot, a.equity, setup);
      ExecutionKeepsAtMostOnce(s, a.slot);
    } else if a.Step? {
      OtherTaskSteps(s.world, TaskIn(s, a.slot), setup, a.equity);
      SameExecutionsKeep(s, Next(s, a, setup));
    } else {
      OtherMoves(s, a, setup);
      OtherMovesStartNothing(s, a, setup);
      SameExecutionsKeep(s, Next(s, a, setup));
    }
  }

  predicate FirstMarks(s: System, actions: seq<Action>, setup: Setup)
    decreases |actions|
  {
    actions == [] || (FirstMark(s, actions[0]) && FirstMarks(Next(s, actions[0], setup), actions[1..], setup))
  }

  lemma {:induction false} RunKeepsAtMostOnce(s: System, actions: seq<Action>, setup: Setup)
    requires AtMostOnce(s) && FirstMarks(s, actions, setup)
    ensures AtMostOnce(Run(s, actions, setup))
    decreases |actions|
  {
    if actions != [] {
      MoveKeepsAtMostOnce(s, actions[0], setup);
      RunKeepsAtMostOnce(Next(s, actions[0], setup), actions[1..], setup);
    }
  }

  /** With no operator approvals the command slot only ever refuses. */
  predicate OnlyRefuses(t: Task) {
    t.Idle? || t.Refuse? || (t.LoadPending? && t.refusal.Some?) || (t.Unlist? && t.refusal.Some?)
  }

  predicate NoApprovals(actions: seq<Action>) {
    forall a :: a in actions ==> !a.Approve?
  }

  lemma MoveKeepsUnmarked(s: System, a: Action, setup: Setup)
    requires Unmarked(s.world, s.signal) && OnlyRefuses(s.command) && !a.Approve?
    ensures var s' := Next(s, a, setup); Unmarked(s'.world, s'.signal) && OnlyRefuses(s'.command)
    ensures FirstMark(s, a)
  {
    match a
    case Step(slot, equity) =>
      StepKeepsUnmarked(s.world, s.signal, setup, equity);
      RefusalMarksNothing(s.world, s.command, setup, equity);
    case _ => OtherMovesMarkNothing(s, a, setup);
  }

  lemma OtherMovesMarkNothing(s: System, a: Action, setup: Setup)
    requires Unmarked(s.world, s.signal) && OnlyRefuses(s.command) && !a.Step? && !a.Approve?
    ensures var s' := Next(s, a, setup); Unmarked(s'.world, s'.signal) && OnlyRefuses(s'.command)
  {
    OtherMoves(s, a, setup);
  }

  lemma RefusalMarksNothing(w: World, t: Task, setup: Setup, equity: real)
    requires OnlyRefuses(t)
    ensures var (w', t') := TaskStep(w, t, setup.defaults, equity);
            OnlyRefuses(t') && w'.submitted == w.submitted && w'.pending == w.pending
  {
  }

  lemma {:induction false} WithoutApprovalsMarksAreFirst(s: System, actions: seq<Action>, setup: Setup)
    requires Unmarked(s.world, s.signal) && OnlyRefuses(s.command) && NoApprovals(actions)
    ensures FirstMarks(s, actions, setup)
    decreases |actions|
  {
    if actions != [] {
      MoveKeepsUnmarked(s, actions[0], setup);
      assert actions == [actions[0]] + actions[1..];
      WithoutApprovalsMarksAreFirst(Next(s, actions[0], setup), actions[1..], setup);
    }
  }

  /** Whatever is delivered, however often, with whatever crashes and interleaving: without operator approvals the
      orders executed for one event are the first few of one bracket, and a fill is only announced once all three
      are out. */
  lemma ExecutedAtMostOnce(start: System, actions: seq<Action>, setup: Setup, id: EventId)
    requires Initial(start) && NoApprovals(actions)
    ensures var w := Run(start, actions, setup).world;
            && PartOfOneBracket(SentFor(w.orders, id))
            && (forall symbol, size, price :: Filled(id, symbol, size, price) in w.executions ==> |SentFor(w.orders, id)| == 3)
  {
    WithoutApprovalsMarksAreFirst(start, actions, setup);
    RunKeepsAtMostOnce(start, actions, setup);
  }

  /** With operator approvals the same holds of every run that never marks an event twice. */
  lemma ExecutedAtMostOnceIfMarkedOnce(start: System, actions: seq<Action>, setup: Setup, id: EventId)
    requires Initial(start) && FirstMarks(start, actions, setup)
    ensures PartOfOneBracket(SentFor(Run(start, actions, setup).world.orders, id))
  {
    RunKeepsAtMostOnce(start, actions, setup);
  }
}
