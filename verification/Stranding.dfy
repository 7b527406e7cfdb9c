/**
 When a charged share can still be given back. Only a sweep over a tracked position with a record ever releases, so a
 share is stranded when its approval cannot come to be executed, or its execution is cut in half before the record.
 */
module Stranding {
  import opened Ledger
  import opened MapSum
  import opened Orders
  import opened Protocol
  import opened Reconciling
  import opened Sizing
  import opened Symbols
  import opened WholeHandlers
  import opened Wrappers

  // ---------- Submitted events ----------

  /** The handler is executing this event and has yet to write its record, with the event in the tracked set by then. */
  predicate WillRecord(t: Task, id: EventId, tracked: bool) {
    InProgress(t) && t.grant.ev.id == id && (t.done <= 5 || (t.done == 6 && tracked))
  }

  /** Tracked with a record, or on the way there. */
  predicate Releasable(s: System, id: EventId) {
    || (id in s.world.tracked && id in s.world.positions)
    || WillRecord(s.signal, id, id in s.world.tracked)
    || WillRecord(s.command, id, id in s.world.tracked)
  }

  // ---------- Events not submitted ----------

  /** Some account and configuration let it be executed: a symbol on the whitelist, a price and a share. */
  predicate Executable(a: Approval) {
    Tradable(a.symbol) && 0 < a.fraction && 0.0 < a.entry
  }

  /** The approval raised under this id, published or about to be. */
  function ApprovalOf(s: System, id: EventId): Option<Approval> {
    if id in s.world.approvals then Some(s.world.approvals[id])
    else if id < |s.risk| && s.risk[id].Publishing? then Some(s.risk[id].approval)
    else None
  }

  predicate Awaited(s: System, id: EventId) {
    ApprovalOf(s, id).Some? && Executable(ApprovalOf(s, id).value)
  }

  // ---------- Any charged share ----------

  /** Charged, and neither going to be recorded as a position nor waiting to be executed. */
  predicate Stranded(s: System, id: EventId) {
    id in s.outstanding && if id in s.world.submitted then !Releasable(s, id) else !Awaited(s, id)
  }

  /** The four kinds of move that strand a share: the charge itself, of an approval that cannot be executed; the loss of
      its publication; a crash that cuts the execution off before its record is written; and a sweep dropping the id from
      the tracked set because it found no record. */
  predicate Strands(s: System, a: Action, id: EventId) {
    match a
    case StepRisk(i) => i == id && i < |s.risk| && s.risk[i].Charging? && !Executable(s.risk[i].approval)
    case DropRisk(i) => i == id && i < |s.risk| && s.risk[i].Publishing?
    case Crash(slot) => InProgress(TaskIn(s, slot)) && TaskIn(s, slot).grant.ev.id == id && TaskIn(s, slot).done <= 6
    case StepSweep => s.sweep.Forgetting? && s.sweep.todo != [] && s.sweep.todo[0] == id && id in s.outstanding
    case _ => false
  }

  /** Every execution under way has passed the whitelist and the sizing. */
  predicate Checked(s: System) {
    && (s.signal.Executing? ==> Executable(s.signal.grant.ev))
    && (s.command.Executing? ==> Executable(s.command.grant.ev))
  }

  lemma SizeIsExecutable(g: Grant)
    ensures g.Size() > 0.0 && Tradable(g.ev.symbol) ==> Executable(g.ev)
  {
    PositiveSize(g.equity, g.ev.fraction, g.ev.entry, g.config.caps, STEPS_PER_CONTRACT, MIN_CONTRACTS);
  }

  lemma StepKeepsChecked(w: World, t: Task, setup: Setup, equity: real)
    requires t.Executing? ==> Executable(t.grant.ev)
    ensures var t' := TaskStep(w, t, setup.defaults, equity).1; t'.Executing? ==> Executable(t'.grant.ev)
  {
    if t.ReadEquity? {
      SizeIsExecutable(Grant(t.ev, t.config, equity));
    }
  }

  lemma MoveKeepsChecked(s: System, a: Action, setup: Setup)
    requires Checked(s)
    ensures Checked(Next(s, a, setup))
  {
    if a.Step? {
      StepKeepsChecked(s.world, TaskIn(s, a.slot), setup, a.equity);
    } else {
      StartsAreNoExecution(s, a, setup);
    }
  }

  lemma StartsAreNoExecution(s: System, a: Action, setup: Setup)
    requires !a.Step?
    ensures var t := Next(s, a, setup);
            && (t.signal == s.signal || !t.signal.Executing?) && (t.command == s.command || !t.command.Executing?)
  {
  }

  lemma {:induction false} RunKeepsChecked(s: System, actions: seq<Action>, setup: Setup)
    requires Checked(s)
    ensures Checked(Run(s, actions, setup))
    decreases |actions|
  {
    if actions != [] {
      MoveKeepsChecked(s, actions[0], setup);
      RunKeepsChecked(Next(s, actions[0], setup), actions[1..], setup);
    }
  }

  // ---------- Move by move ----------

  /** Nothing that decides whether this share is stranded differs. */
  predicate SameStanding(s: System, t: System, id: EventId) {
    && (id in t.world.submitted <==> id in s.world.submitted)
    && ApprovalOf(t, id) == ApprovalOf(s, id)
    && SameCharge(s, t, id)
    && (Releasable(t, id) <==> Releasable(s, id))
  }

  predicate SameCharge(s: System, t: System, id: EventId) {
    (id in t.outstanding <==> id in s.outstanding) && (id in s.outstanding ==> t.outstanding[id] == s.outstanding[id])
  }

  lemma ExecutionKeepsStanding(s: System, slot: Slot, id: EventId)
    requires Tracked(s) && Owners(s) && TaskIn(s, slot).Executing?
    requires TaskIn(s, slot).done == 0 ==> TaskIn(s, slot).grant.ev.id != id
    ensures SameStanding(s, Executed(s, slot), id)
  {
    ExecutionRaisesNothing(s, slot, id);
    ExecutionKeepsReleasable(s, slot, id);
  }

  lemma ExecutionRaisesNothing(s: System, slot: Slot, id: EventId)
    requires TaskIn(s, slot).Executing? && (TaskIn(s, slot).done == 0 ==> TaskIn(s, slot).grant.ev.id != id)
    ensures var t := Executed(s, slot);
            && (id in t.world.submitted <==> id in s.world.submitted)
            && ApprovalOf(t, id) == ApprovalOf(s, id) && SameCharge(s, t, id)
  {
  }

  lemma ExecutionKeepsReleasable(s: System, slot: Slot, id: EventId)
    requires Owners(s) && TaskIn(s, slot).Executing?
    requires TaskIn(s, slot).done == 0 ==> TaskIn(s, slot).grant.ev.id != id
    ensures Releasable(Executed(s, slot), id) <==> Releasable(s, id)
  {
  }

  /** The mark makes its own event a submitted one, on its way to a record. */
  lemma MarkKeepsStanding(s: System, slot: Slot)
    requires Authentic(s) && Checked(s) && TaskIn(s, slot).Executing? && TaskIn(s, slot).done == 0
    requires TaskIn(s, slot).grant.ev.id !in s.world.submitted
    ensures var id, t := TaskIn(s, slot).grant.ev.id, Executed(s, slot);
            !Stranded(s, id) && !Stranded(t, id) && SameCharge(s, t, id)
  {
  }

  /** A handler not executing touches neither the tracked set nor the records, and starts no execution past its mark. */
  lemma OtherStepKeepsStanding(s: System, slot: Slot, equity: real, id: EventId, setup: Setup)
    requires !TaskIn(s, slot).Executing?
    ensures SameStanding(s, Next(s, Step(slot, equity), setup), id)
  {
    OtherTaskSteps(s.world, TaskIn(s, slot), setup, equity);
    OtherStepFrame(s.world, TaskIn(s, slot), setup, equity);
  }

  lemma OtherStepFrame(w: World, t: Task, setup: Setup, equity: real)
    requires !t.Executing?
    ensures var w' := TaskStep(w, t, setup.defaults, equity).0;
            w'.tracked == w.tracked && w'.positions == w.positions && w'.submitted == w.submitted && w'.approvals == w.approvals
  {
  }

  lemma TaskStrandsNothing(s: System, slot: Slot, equity: real, id: EventId, setup: Setup)
    requires Balanced(s) && Checked(s) && Clean(s, Step(slot, equity))
    ensures var t := Next(s, Step(slot, equity), setup); SameCharge(s, t, id) && (Stranded(t, id) <==> Stranded(s, id))
  {
    if TaskIn(s, slot).Executing? {
      StepExecutes(s, slot, equity, setup);
      if TaskIn(s, slot).done == 0 && TaskIn(s, slot).grant.ev.id == id {
        MarkKeepsStanding(s, slot);
      } else {
        ExecutionKeepsStanding(s, slot, id);
      }
    } else {
      OtherStepKeepsStanding(s, slot, equity, id, setup);
    }
  }

  lemma CrashStrandsIff(s: System, slot: Slot, id: EventId)
    requires Owners(s)
    ensures var t := WithTask(s, slot, s.world, Idle);
            SameCharge(s, t, id) && (Stranded(t, id) <==> Stranded(s, id) || Strands(s, Crash(slot), id))
  {
  }

  /** A sweep never releases a stranded share, and strands one only when it forgets it. */
  lemma SweepStrandsIff(s: System, id: EventId)
    requires Tracked(s) && Owners(s) && Sweeping(s)
    ensures var t := ReconcilerStep(s);
            && (Stranded(s, id) ==> SameCharge(s, t, id))
            && (Stranded(t, id) <==> Stranded(s, id) || Strands(s, StepSweep, id))
  {
    if s.sweep.Forgetting? || s.sweep.Releasing? || s.sweep.Untracking? {
      WriteStrandsIff(s, id);
    } else {
      LookKeepsStanding(s, id);
    }
  }

  lemma WriteStrandsIff(s: System, id: EventId)
    requires Tracked(s) && Owners(s) && Sweeping(s) && (s.sweep.Forgetting? || s.sweep.Releasing? || s.sweep.Untracking?)
    ensures var t := ReconcilerStep(s);
            && (Stranded(s, id) ==> SameCharge(s, t, id))
            && (Stranded(t, id) <==> Stranded(s, id) || Strands(s, StepSweep, id))
  {
  }

  lemma LookKeepsStanding(s: System, id: EventId)
    requires !s.sweep.Forgetting? && !s.sweep.Releasing? && !s.sweep.Untracking?
    ensures SameStanding(s, ReconcilerStep(s), id)
  {
  }

  /** A charge strands its share at once exactly when the approval cannot be executed; publishing it changes nothing. */
  lemma RiskStrandsIff(s: System, i: nat, id: EventId, setup: Setup)
    requires Authentic(s) && Charged(s) && Tracked(s) && i < |s.risk|
    ensures var t := RiskStep(s, i, setup.risk);
            && (Stranded(s, id) ==> SameCharge(s, t, id))
            && (Stranded(t, id) <==> Stranded(s, id) || Strands(s, StepRisk(i), id))
  {
    if s.risk[i].Charging? && i == id {
      assert id !in s.outstanding;
      assert id !in s.world.approvals;
    } else {
      RiskKeepsStanding(s, i, id, setup);
    }
  }

  lemma RiskKeepsStanding(s: System, i: nat, id: EventId, setup: Setup)
    requires Authentic(s) && i < |s.risk| && !(s.risk[i].Charging? && i == id)
    ensures SameStanding(s, RiskStep(s, i, setup.risk), id)
  {
  }

  lemma DropStrandsIff(s: System, i: nat, id: EventId, setup: Setup)
    requires Authentic(s) && Charged(s) && Tracked(s)
    ensures var t := Next(s, DropRisk(i), setup);
            SameCharge(s, t, id) && (Stranded(t, id) <==> Stranded(s, id) || Strands(s, DropRisk(i), id))
  {
  }

  /** Starting anything, the operator's settings, and an aborted sweep strand nothing. */
  lemma OtherMovesKeepStanding(s: System, a: Action, id: EventId, setup: Setup)
    requires !a.Step? && !a.StepRisk? && !a.DropRisk? && !a.StepSweep? && !a.Crash?
    ensures SameStanding(s, Next(s, a, setup), id)
  {
    if IsSetting(a) {
      SettingKeepsStanding(s, a, id, setup);
    } else {
      StartKeepsStanding(s, a, id, setup);
    }
  }

  lemma SettingKeepsStanding(s: System, a: Action, id: EventId, setup: Setup)
    requires IsSetting(a)
    ensures SameStanding(s, Next(s, a, setup), id)
  {
    OperatorKeepsBook(s.world, a, setup);
  }

  lemma StartKeepsStanding(s: System, a: Action, id: EventId, setup: Setup)
    requires !a.Step? && !a.StepRisk? && !a.DropRisk? && !a.StepSweep? && !a.Crash? && !IsSetting(a)
    ensures SameStanding(s, Next(s, a, setup), id)
  {
  }

  /** From any balanced state, after a clean move a share is stranded exactly when it was before or the move is one of
      the four kinds; and a stranded share stays charged as it was. */
  lemma MoveStrandsIff(s: System, a: Action, id: EventId, setup: Setup)
    requires Balanced(s) && Checked(s) && Clean(s, a)
    ensures var t := Next(s, a, setup);
            && (Stranded(t, id) <==> Stranded(s, id) || Strands(s, a, id))
            && (Stranded(s, id) ==> t.outstanding[id] == s.outstanding[id])
  {
    match a
    case Step(slot, equity) => TaskStrandsNothing(s, slot, equity, id, setup);
    case StepRisk(i) => if i < |s.risk| { RiskStrandsIff(s, i, id, setup); }
    case DropRisk(i) => DropStrandsIff(s, i, id, setup);
    case StepSweep => SweepStrandsIff(s, id);
    case Crash(slot) => CrashStrandsIff(s, slot, id);
    case _ => OtherMovesKeepStanding(s, a, id, setup);
  }

  // ---------- Over runs ----------

  /** Some move of the run strands this share. */
  predicate StrandedOnTheWay(s: System, actions: seq<Action>, id: EventId, setup: Setup)
    decreases |actions|
  {
    actions != [] && (Strands(s, actions[0], id) || StrandedOnTheWay(Next(s, actions[0], setup), actions[1..], id, setup))
  }

  /** A share is stranded after a clean run exactly when it was before or some move of the run strands it: for good. */
  lemma {:induction false} RunStrandsIff(s: System, actions: seq<Action>, id: EventId, setup: Setup)
    requires Balanced(s) && Checked(s) && CleanRun(s, actions, setup)
    ensures Stranded(Run(s, actions, setup), id) <==> Stranded(s, id) || StrandedOnTheWay(s, actions, id, setup)
    decreases |actions|
  {
    if actions != [] {
      MoveKeepsBalanced(s, actions[0], setup);
      MoveKeepsChecked(s, actions[0], setup);
      MoveStrandsIff(s, actions[0], id, setup);
      RunStrandsIff(Next(s, actions[0], setup), actions[1..], id, setup);
    }
  }

  /** Once stranded, in every clean run, the share stays charged in full and the exposure never drops below it. */
  lemma {:induction false} StrandedStaysCharged(s: System, actions: seq<Action>, id: EventId, setup: Setup)
    requires Balanced(s) && Checked(s) && CleanRun(s, actions, setup) && Stranded(s, id)
    ensures var t := Run(s, actions, setup);
            Stranded(t, id) && t.outstanding[id] == s.outstanding[id] <= t.world.exposure
    decreases |actions|
  {
    if actions == [] {
      SumWithout(s.outstanding, id);
    } else {
      MoveKeepsBalanced(s, actions[0], setup);
      MoveKeepsChecked(s, actions[0], setup);
      MoveStrandsIff(s, actions[0], id, setup);
      StrandedStaysCharged(Next(s, actions[0], setup), actions[1..], id, setup);
    }
  }

  // ---------- A sweep between tracking and recording ----------

  /** A sweep that passes while a handler, of either kind, is between the two writes strands its event. */
  lemma SweepBetweenStrands(s: System, slot: Slot, open: set<Pair>, order: seq<EventId>, setup: Setup)
    requires Balanced(s) && s.sweep.Resting? && TaskIn(s, slot).Executing? && TaskIn(s, slot).done == 6
    requires Enumerates(order, s.world.tracked)
    ensures var moves := [StartSweep(open), ListTracked(order)] + Sweeps(AWAITS_PER_ID * |order| + 1);
            var t := Run(s, moves, setup);
            && CleanRun(s, moves, setup) && Balanced(t) && t.signal == s.signal && t.command == s.command
            && Stranded(t, TaskIn(s, slot).grant.ev.id)
  {
    var start := [StartSweep(open), ListTracked(order)];
    var n := AWAITS_PER_ID * |order| + 1;
    var s2 := s.(sweep := Examining(open, order));
    SnapshotTaken(s, open, order, setup);
    SweepRuns(s2, n, setup);
    SweepUntracks(s.world, open, order);
    SweepTouchesOnly(s.world, open, order);
    CleanAppend(s, start, Sweeps(n), setup);
    RunAppend(s, start, Sweeps(n), setup);
    CleanRunsStayBalanced(s, start + Sweeps(n), setup);
  }

  lemma SnapshotTaken(s: System, open: set<Pair>, order: seq<EventId>, setup: Setup)
    requires s.sweep.Resting? && Enumerates(order, s.world.tracked)
    ensures Run(s, [StartSweep(open), ListTracked(order)], setup) == s.(sweep := Examining(open, order))
    ensures CleanRun(s, [StartSweep(open), ListTracked(order)], setup)
  {
    RunTwo(s, StartSweep(open), ListTracked(order), setup);
  }
}
