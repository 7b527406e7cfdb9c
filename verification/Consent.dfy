/** Nothing is executed without leave: auto-trading was on in the configuration it was granted under, or an operator
    approved that very event. */
module Consent {
  import opened Ledger
  import opened Protocol
  import opened WholeHandlers

  /** The events operators approved in the course of a run. */
  function ApprovedBy(actions: seq<Action>): set<EventId> {
    if actions == [] then {} else (if actions[0].Approve? then {actions[0].event} else {}) + ApprovedBy(actions[1..])
  }

  predicate Consented(g: Grant, approved: set<EventId>) {
    g.config.autoTrading || g.ev.id in approved
  }

  /** The handler acts on an operator's word only for what operators approved. */
  predicate ConsentedTask(t: Task, approved: set<EventId>) {
    match t
    case LoadPending(id, refusal) => refusal.None? ==> id in approved
    case Unlist(ev, refusal) => refusal.None? ==> ev.id in approved
    case LoadConfig(ev, operator) => operator ==> ev.id in approved
    case Guard(ev, _, operator) => operator ==> ev.id in approved
    case ReadEquity(ev, _, operator) => operator ==> ev.id in approved
    case Executing(g, _) => Consented(g, approved)
    case _ => true
  }

  predicate ConsentedOrders(orders: seq<Sent>, approved: set<EventId>) {
    forall o :: o in orders && o.sender.ByExecution? ==> Consented(o.sender.grant, approved)
  }

  predicate Keyed(pending: map<EventId, Approval>) {
    forall k :: k in pending ==> pending[k].id == k
  }

  predicate AllConsented(s: System, approved: set<EventId>) {
    && ConsentedTask(s.signal, approved) && ConsentedTask(s.command, approved)
    && ConsentedOrders(s.world.orders, approved) && Keyed(s.world.pending)
  }

  lemma AwaitKeepsConsent(w: World, g: Grant, done: nat, approved: set<EventId>)
    requires ConsentedOrders(w.orders, approved) && Consented(g, approved)
    ensures var w' := ExecuteAwait(w, g, done); ConsentedOrders(w'.orders, approved) && w'.pending == w.pending
  {
  }

  lemma OtherAwaitKeepsConsent(w: World, t: Task, setup: Setup, equity: real, approved: set<EventId>)
    requires ConsentedTask(t, approved) && Keyed(w.pending) && !t.Executing?
    ensures var (w', t') := TaskStep(w, t, setup.defaults, equity);
            ConsentedTask(t', approved) && w'.orders == w.orders && Keyed(w'.pending)
  {
  }

  lemma StepKeepsConsent(s: System, slot: Slot, equity: real, setup: Setup, approved: set<EventId>)
    requires AllConsented(s, approved)
    ensures AllConsented(Next(s, Step(slot, equity), setup), approved)
  {
    if TaskIn(s, slot).Executing? {
      AwaitKeepsConsent(s.world, TaskIn(s, slot).grant, TaskIn(s, slot).done, approved);
      StepExecutes(s, slot, equity, setup);
    } else {
      OtherAwaitKeepsConsent(s.world, TaskIn(s, slot), setup, equity, approved);
    }
  }

  lemma SettingKeepsConsent(s: System, a: Action, setup: Setup, approved: set<EventId>)
    requires AllConsented(s, approved) && IsSetting(a)
    ensures AllConsented(Next(s, a, setup), approved)
  {
    OperatorKeepsBook(s.world, a, setup);
    SettingSendsNoExecution(s.world, a, setup, approved);
  }

  lemma SettingSendsNoExecution(w: World, a: Action, setup: Setup, approved: set<EventId>)
    requires ConsentedOrders(w.orders, approved) && IsSetting(a)
    ensures forall s: System :: s.world == w ==> ConsentedOrders(Next(s, a, setup).world.orders, approved)
  {
  }

  lemma OtherMovesKeepConsent(s: System, a: Action, setup: Setup, approved: set<EventId>)
    requires AllConsented(s, approved) && !a.Step? && !IsSetting(a) && (a.Approve? ==> a.event in approved)
    ensures AllConsented(Next(s, a, setup), approved)
  {
  }

  lemma {:induction false} RunKeepsConsent(s: System, actions: seq<Action>, setup: Setup, approved: set<EventId>)
    requires AllConsented(s, approved) && ApprovedBy(actions) <= approved
    ensures AllConsented(Run(s, actions, setup), approved)
    decreases |actions|
  {
    if actions != [] {
      var a := actions[0];
      if a.Step? {
        StepKeepsConsent(s, a.slot, a.equity, setup, approved);
      } else if IsSetting(a) {
        SettingKeepsConsent(s, a, setup, approved);
      } else {
        OtherMovesKeepConsent(s, a, setup, approved);
      }
      RunKeepsConsent(Next(s, a, setup), actions[1..], setup, approved);
    }
  }

  /** In every run, crashes and interleavings included, each executed order was granted with auto-trading on, or an
      operator approved its event during the run. */
  lemma NothingExecutedWithoutLeave(start: System, actions: seq<Action>, setup: Setup, o: Sent)
    requires Initial(start) && o in Run(start, actions, setup).world.orders && o.sender.ByExecution?
    ensures o.sender.grant.config.autoTrading || exists a :: a in actions && a == Approve(o.sender.grant.ev.id)
  {
    RunKeepsConsent(start, actions, setup, ApprovedBy(actions));
    if o.sender.grant.ev.id in ApprovedBy(actions) {
      ApprovedInRun(actions, o.sender.grant.ev.id);
    }
  }

  lemma {:induction false} ApprovedInRun(actions: seq<Action>, id: EventId)
    ensures id in ApprovedBy(actions) <==> Approve(id) in actions
    decreases |actions|
  {
    if actions != [] {
      ApprovedInRun(actions[1..], id);
      assert actions == [actions[0]] + actions[1..];
    }
  }
}
