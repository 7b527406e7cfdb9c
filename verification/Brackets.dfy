/** Exactly when an event's orders stay one bracket, approvals and repeated marks included. */
module Brackets {
  import opened Orders
  import opened Protocol

  /** No entry order is about to be sent for this event while orders for it are out. */
  predicate FreshEntry(s: System, a: Action, id: EventId) {
    a.Step? && TaskIn(s, a.slot).Executing? && TaskIn(s, a.slot).done == 1 && TaskIn(s, a.slot).grant.ev.id == id
    ==> SentFor(s.world.orders, id) == []
  }

  predicate FreshEntries(s: System, actions: seq<Action>, id: EventId, setup: Setup)
    decreases |actions|
  {
    actions == [] || (FreshEntry(s, actions[0], id) && FreshEntries(Next(s, actions[0], setup), actions[1..], id, setup))
  }

  predicate PastEntry(t: Task, id: EventId) {
    t.Executing? && t.grant.ev.id == id && 2 <= t.done
  }

  /** Past its entry an execution has sent exactly the legs it has come to, and no other execution is past its own. */
  predicate InStep(s: System, id: EventId) {
    && PartOfOneBracket(SentFor(s.world.orders, id))
    && (PastEntry(s.signal, id) ==> SentFor(s.world.orders, id) == BracketOf(s.signal.grant)[..LegsAfter(s.signal.done)])
    && (PastEntry(s.command, id) ==> SentFor(s.world.orders, id) == BracketOf(s.command.grant)[..LegsAfter(s.command.done)])
    && !(PastEntry(s.signal, id) && PastEntry(s.command, id))
  }

  lemma OwnSent(w: World, g: Grant, done: nat)
    requires PartOfOneBracket(SentFor(w.orders, g.ev.id))
    requires done == 1 ==> SentFor(w.orders, g.ev.id) == []
    requires 2 <= done ==> SentFor(w.orders, g.ev.id) == BracketOf(g)[..LegsAfter(done)]
    ensures PartOfOneBracket(SentFor(ExecuteAwait(w, g, done).orders, g.ev.id))
    ensures 1 <= done < EXECUTE_AWAITS ==>
              SentFor(ExecuteAwait(w, g, done).orders, g.ev.id) == BracketOf(g)[..LegsAfter(done + 1)]
  {
    AwaitExtendsBracket(w, g, done, g.ev.id);
    if 1 <= done < EXECUTE_AWAITS {
      BracketGrows(g, done);
    }
  }

  lemma OwnAwaitKeepsInStep(s: System, slot: Slot, id: EventId)
    requires InStep(s, id) && TaskIn(s, slot).Executing? && TaskIn(s, slot).grant.ev.id == id
    requires TaskIn(s, slot).done == 1 ==> SentFor(s.world.orders, id) == []
    ensures InStep(Executed(s, slot), id)
  {
    var g, done := TaskIn(s, slot).grant, TaskIn(s, slot).done;
    OwnSent(s.world, g, done);
    if done == 0 {
      AwaitExtendsBracket(s.world, g, done, id);
    }
    OwnTaskKeepsInStep(s, slot, id, ExecuteAwait(s.world, g, done));
  }

  lemma OwnTaskKeepsInStep(s: System, slot: Slot, id: EventId, w: World)
    requires InStep(s, id) && TaskIn(s, slot).Executing? && TaskIn(s, slot).grant.ev.id == id
    requires TaskIn(s, slot).done == 1 ==> SentFor(s.world.orders, id) == []
    requires PartOfOneBracket(SentFor(w.orders, id))
    requires TaskIn(s, slot).done == 0 ==> SentFor(w.orders, id) == SentFor(s.world.orders, id)
    requires 1 <= TaskIn(s, slot).done < EXECUTE_AWAITS ==>
               SentFor(w.orders, id) == BracketOf(TaskIn(s, slot).grant)[..LegsAfter(TaskIn(s, slot).done + 1)]
    requires w == ExecuteAwait(s.world, TaskIn(s, slot).grant, TaskIn(s, slot).done)
    ensures InStep(Executed(s, slot), id)
  {
  }

  lemma OtherAwaitKeepsInStep(s: System, slot: Slot, id: EventId)
    requires InStep(s, id) && TaskIn(s, slot).Executing? && TaskIn(s, slot).grant.ev.id != id
    ensures InStep(Executed(s, slot), id)
  {
    AwaitExtendsBracket(s.world, TaskIn(s, slot).grant, TaskIn(s, slot).done, id);
  }

  lemma MoveKeepsInStep(s: System, a: Action, id: EventId, setup: Setup)
    requires InStep(s, id) && FreshEntry(s, a, id)
    ensures InStep(Next(s, a, setup), id)
  {
    if a.Step? && TaskIn(s, a.slot).Executing? {
      StepExecutes(s, a.slot, a.equity, setup);
      if TaskIn(s, a.slot).grant.ev.id == id {
        OwnAwaitKeepsInStep(s, a.slot, id);
      } else {
        OtherAwaitKeepsInStep(s, a.slot, id);
      }
    } else if a.Step? {
      OtherTaskSteps(s.world, TaskIn(s, a.slot), setup, a.equity);
    } else {
      OtherMoves(s, a, setup);
      OtherMovesStartNothing(s, a, setup);
    }
  }

  lemma {:induction false} RunKeepsInStep(s: System, actions: seq<Action>, id: EventId, setup: Setup)
    requires InStep(s, id) && FreshEntries(s, actions, id, setup)
    ensures InStep(Run(s, actions, setup), id)
    decreases |actions|
  {
    if actions != [] {
      MoveKeepsInStep(s, actions[0], id, setup);
      RunKeepsInStep(Next(s, actions[0], setup), actions[1..], id, setup);
    }
  }

  // ---------- A stale entry is never undone ----------

  lemma MoveOnlySends(s: System, a: Action, id: EventId, setup: Setup)
    ensures SentFor(s.world.orders, id) <= SentFor(Next(s, a, setup).world.orders, id)
  {
    if a.Step? && TaskIn(s, a.slot).Executing? {
      StepExecutes(s, a.slot, a.equity, setup);
      AwaitExtendsBracket(s.world, TaskIn(s, a.slot).grant, TaskIn(s, a.slot).done, id);
    } else if a.Step? {
      OtherTaskSteps(s.world, TaskIn(s, a.slot), setup, a.equity);
    } else {
      OtherMoves(s, a, setup);
    }
  }

  lemma {:induction false} RunOnlySends(s: System, actions: seq<Action>, id: EventId, setup: Setup)
    ensures SentFor(s.world.orders, id) <= SentFor(Run(s, actions, setup).world.orders, id)
    decreases |actions|
  {
    if actions != [] {
      MoveOnlySends(s, actions[0], id, setup);
      RunOnlySends(Next(s, actions[0], setup), actions[1..], id, setup);
    }
  }

  lemma EntryOnlyComesFirst(sent: seq<Sent>, g: Grant, all: seq<Sent>)
    requires sent != [] && sent + [BracketOf(g)[0]] <= all
    ensures !PartOfOneBracket(all)
  {
    var n := |sent|;
    assert all[n] == BracketOf(g)[0];
    if PartOfOneBracket(all) {
      LaterLegsExit(all, n);
    }
  }

  lemma LaterLegsExit(all: seq<Sent>, n: nat)
    requires PartOfOneBracket(all) && 1 <= n < |all|
    ensures all[n].order.reduceOnly
  {
    assert all[n] == BracketOf(all[0].sender.grant)[n];
  }

  lemma StaleEntryBreaks(s: System, a: Action, rest: seq<Action>, id: EventId, setup: Setup)
    requires !FreshEntry(s, a, id)
    ensures !PartOfOneBracket(SentFor(Run(Next(s, a, setup), rest, setup).world.orders, id))
  {
    var g := TaskIn(s, a.slot).grant;
    StepExecutes(s, a.slot, a.equity, setup);
    AwaitExtendsBracket(s.world, g, 1, id);
    RunOnlySends(Next(s, a, setup), rest, id, setup);
    EntryOnlyComesFirst(SentFor(s.world.orders, id), g, SentFor(Run(Next(s, a, setup), rest, setup).world.orders, id));
  }

  lemma {:induction false} StaleEntriesBreak(s: System, actions: seq<Action>, id: EventId, setup: Setup)
    requires !FreshEntries(s, actions, id, setup)
    ensures !PartOfOneBracket(SentFor(Run(s, actions, setup).world.orders, id))
    decreases |actions|
  {
    if FreshEntry(s, actions[0], id) {
      StaleEntriesBreak(Next(s, actions[0], setup), actions[1..], id, setup);
    } else {
      StaleEntryBreaks(s, actions[0], actions[1..], id, setup);
    }
  }

  /** In every run, whatever is delivered, approved, crashed or interleaved: an event's orders are the first few of one
      bracket if and only if its entry was never sent while orders for it were out. */
  lemma OneBracketIff(start: System, actions: seq<Action>, id: EventId, setup: Setup)
    requires Initial(start)
    ensures PartOfOneBracket(SentFor(Run(start, actions, setup).world.orders, id)) <==> FreshEntries(start, actions, id, setup)
  {
    if FreshEntries(start, actions, id, setup) {
      RunKeepsInStep(start, actions, id, setup);
    } else {
      StaleEntriesBreak(start, actions, id, setup);
    }
  }
}
