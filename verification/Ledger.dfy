/** What every run keeps about the exposure ledger. */
module Ledger {
  import opened MapSum
  import opened Protocol
  import opened RiskRules

  // ---------- The ledger stays a fraction, whatever interleaves ----------

  /** Exposure, and every value of it that some handler is about to write, is a fraction. */
  predicate Bounded(s: System) {
    && 0 <= s.world.exposure <= FULL
    && (forall i :: 0 <= i < |s.risk| && s.risk[i].Charging? ==> 0 <= s.risk[i].seen && s.risk[i].seen + s.risk[i].approval.fraction <= FULL)
    && (s.sweep.Releasing? ==> s.sweep.seen <= FULL)
  }

  lemma DecidedFits(id: EventId, d: Decision, exposure: int, cfg: RiskConfig)
    ensures var a := Decide(id, d, exposure, cfg);
            a.Some? ==> a.value.id == id && exposure + a.value.fraction <= FULL
  {
  }

  lemma TaskKeepsExposure(w: World, t: Task, setup: Setup, equity: real)
    ensures TaskStep(w, t, setup.defaults, equity).0.exposure == w.exposure
    ensures TaskStep(w, t, setup.defaults, equity).0.approvals == w.approvals
  {
  }

  lemma RiskKeepsBounded(s: System, i: nat, cfg: RiskConfig)
    requires Bounded(s) && i < |s.risk|
    ensures Bounded(RiskStep(s, i, cfg))
  {
    if s.risk[i].Reading? {
      DecidedFits(i, s.risk[i].decision, s.world.exposure, cfg);
    }
  }

  lemma SweepKeepsBounded(s: System)
    requires Bounded(s)
    ensures Bounded(ReconcilerStep(s))
  {
  }

  /** Everything else leaves the exposure and the values about to be written to it alone. */
  lemma OtherMovesKeepBounded(s: System, a: Action, setup: Setup)
    requires Bounded(s) && !a.StepRisk? && !a.StepSweep?
    ensures Bounded(Next(s, a, setup))
  {
    if a.Step? {
      TaskKeepsExposure(s.world, TaskIn(s, a.slot), setup, a.equity);
    }
  }

  lemma StepKeepsBounded(s: System, a: Action, setup: Setup)
    requires Bounded(s)
    ensures Bounded(Next(s, a, setup))
  {
    match a
    case StepRisk(i) => if i < |s.risk| { RiskKeepsBounded(s, i, setup.risk); }
    case StepSweep => SweepKeepsBounded(s);
    case _ => OtherMovesKeepBounded(s, a, setup);
  }

  lemma {:induction false} RunKeepsBounded(s: System, actions: seq<Action>, setup: Setup)
    requires Bounded(s)
    ensures Bounded(Run(s, actions, setup))
    decreases |actions|
  {
    if actions != [] {
      StepKeepsBounded(s, actions[0], setup);
      RunKeepsBounded(Next(s, actions[0], setup), actions[1..], setup);
    }
  }

  // ---------- The ledger covers the book ----------

  /** A move that loses no exposure update, submits nothing twice and does not cut `_on_closed` in half. */
  predicate Clean(s: System, a: Action) {
    match a
    case StepRisk(i) => i < |s.risk| && s.risk[i].Charging? ==> s.risk[i].seen == s.world.exposure
    case StepSweep => s.sweep.Releasing? ==> s.sweep.seen == s.world.exposure
    case AbortSweep => !s.sweep.Untracking?
    case Step(slot, _) => var t := TaskIn(s, slot); t.Executing? && t.done == 0 ==> t.grant.ev.id !in s.world.submitted
    case _ => true
  }

  predicate CleanRun(s: System, actions: seq<Action>, setup: Setup)
    decreases |actions|
  {
    actions == [] || (Clean(s, actions[0]) && CleanRun(Next(s, actions[0], setup), actions[1..], setup))
  }

  /** One move, then the rest. */
  lemma RunCons(s: System, a: Action, rest: seq<Action>, setup: Setup)
    ensures Run(s, [a] + rest, setup) == Run(Next(s, a, setup), rest, setup)
    ensures CleanRun(s, [a] + rest, setup) == (Clean(s, a) && CleanRun(Next(s, a, setup), rest, setup))
  {
    assert ([a] + rest)[1..] == rest;
  }

  lemma RunTwo(s: System, a: Action, b: Action, setup: Setup)
    ensures Run(s, [a, b], setup) == Next(Next(s, a, setup), b, setup)
    ensures CleanRun(s, [a, b], setup) == (Clean(s, a) && Clean(Next(s, a, setup), b))
  {
    assert [a, b] == [a] + [b];
    RunCons(s, a, [b], setup);
    RunOne(Next(s, a, setup), b, setup);
  }

  lemma RunOne(s: System, a: Action, setup: Setup)
    ensures Run(s, [a], setup) == Next(s, a, setup)
    ensures CleanRun(s, [a], setup) == Clean(s, a)
  {
    assert [a][1..] == [];
  }

  /** The tracked position being untracked right now: its exposure is already given back. */
  function Leaving(s: System): set<EventId> {
    if s.sweep.Untracking? && s.sweep.todo != [] then {s.sweep.todo[0]} else {}
  }

  /** Tracked positions with a record, and the fraction each holds. */
  function Book(s: System): map<EventId, Fraction> {
    map id | id in s.world.tracked && id in s.world.positions && id !in Leaving(s) :: s.world.positions[id].fraction
  }

  predicate Genuine(w: World, ev: Approval) {
    ev.id in w.approvals && w.approvals[ev.id] == ev
  }

  predicate Holds(t: Task, w: World) {
    t.Idle? || t.LoadPending? || (if t.Executing? then Genuine(w, t.grant.ev) else Genuine(w, t.ev))
  }

  predicate Authentic(s: System) {
    && (forall k :: k in s.world.approvals ==> k < |s.risk| && s.risk[k].Done? && s.world.approvals[k].id == k)
    && (forall k :: k in s.world.pending ==> s.world.pending[k].id == k && Genuine(s.world, s.world.pending[k]))
    && (forall i :: 0 <= i < |s.risk| && s.risk[i].Charging? ==> s.risk[i].approval.id == i)
    && (forall i :: 0 <= i < |s.risk| && s.risk[i].Publishing? ==> s.risk[i].approval.id == i)
    && Holds(s.signal, s.world)
    && Holds(s.command, s.world)
  }

  /** Whether the ledger still holds this fraction for this id. */
  predicate Owes(s: System, id: EventId, fraction: Fraction) {
    id in s.outstanding && s.outstanding[id] == fraction
  }

  ghost predicate Charged(s: System) {
    && s.world.exposure == Sum(s.outstanding)
    && (forall k :: k in s.outstanding ==> k < |s.risk| && !s.risk[k].Reading? && !s.risk[k].Charging?)
    && (forall i :: 0 <= i < |s.risk| && s.risk[i].Publishing? ==> Owes(s, i, s.risk[i].approval.fraction))
    && (forall k :: k in s.world.approvals && k !in s.world.submitted ==> Owes(s, k, s.world.approvals[k].fraction))
  }

  predicate Tracked(s: System) {
    && s.world.submitted <= s.world.approvals.Keys
    && s.world.tracked <= s.world.submitted
    && s.world.positions.Keys <= s.world.submitted
    && (forall k :: k in s.world.tracked && k in s.world.positions && k !in Leaving(s)
          ==> Owes(s, k, s.world.positions[k].fraction))
  }

  /** Past the mark an execution owns its id: nothing tracks it or knows it as a position yet. */
  predicate Owns(s: System, t: Task) {
    t.Executing? && 1 <= t.done ==>
      var id := t.grant.ev.id;
      && id in s.world.submitted
      && (t.done <= 5 ==> id !in s.world.tracked)
      && (t.done <= 6 ==> id !in s.world.positions && Owes(s, id, t.grant.ev.fraction))
  }

  predicate Apart(a: Task, b: Task) {
    a.Executing? && 1 <= a.done && b.Executing? && 1 <= b.done ==> a.grant.ev.id != b.grant.ev.id
  }

  /** Ids of the snapshot the sweep has yet to untrack or pass over. */
  function Ahead(sweep: Sweep): seq<EventId>
    requires !sweep.Resting? && !sweep.Listing?
  {
    if sweep.AnnouncingClosed? && sweep.todo != [] then sweep.todo[1..] else sweep.todo
  }

  predicate Closing(sweep: Sweep) {
    sweep.ReadingExposure? || sweep.Releasing? || sweep.Untracking?
  }

  predicate Sweeping(s: System) {
    !s.sweep.Resting? && !s.sweep.Listing? ==>
      && Distinct(s.sweep.todo)
      && (forall id :: id in Ahead(s.sweep) ==> id in s.world.tracked)
      && (!s.sweep.Examining? ==> s.sweep.todo != [])
      && (s.sweep.Untracking? ==> s.sweep.todo[0] !in s.outstanding)
      && (Closing(s.sweep) ==> s.sweep.todo[0] in s.world.positions && s.world.positions[s.sweep.todo[0]] == s.sweep.pos)
  }

  ghost predicate Balanced(s: System) {
    && Authentic(s) && Charged(s) && Tracked(s)
    && Owners(s)
    && Sweeping(s)
  }

  predicate Owners(s: System) {
    Owns(s, s.signal) && Owns(s, s.command) && Apart(s.signal, s.command)
  }

  lemma ChargeKeepsCharged(s: System, i: nat, setup: Setup)
    requires Balanced(s) && i < |s.risk| && s.risk[i].Charging? && s.risk[i].seen == s.world.exposure
    ensures Charged(RiskStep(s, i, setup.risk))
  {
    assert i !in s.outstanding;
    SumWith(s.outstanding, i, s.risk[i].approval.fraction);
  }

  lemma ChargeKeepsAuthentic(s: System, i: nat, setup: Setup)
    requires Authentic(s) && i < |s.risk| && s.risk[i].Charging?
    ensures Authentic(RiskStep(s, i, setup.risk))
  {
  }

  lemma ChargeKeepsBook(s: System, i: nat, setup: Setup)
    requires Tracked(s) && Owners(s) && Sweeping(s) && i < |s.risk| && s.risk[i].Charging? && i !in s.outstanding
    requires forall k :: k in s.world.approvals ==> k != i
    ensures var t := RiskStep(s, i, setup.risk); Tracked(t) && Owners(t) && Sweeping(t)
  {
  }

  lemma ChargeKeepsBalanced(s: System, i: nat, setup: Setup)
    requires Balanced(s) && i < |s.risk| && s.risk[i].Charging? && s.risk[i].seen == s.world.exposure
    ensures Balanced(RiskStep(s, i, setup.risk))
  {
    ChargeKeepsAuthentic(s, i, setup);
    ChargeKeepsCharged(s, i, setup);
    ChargeKeepsBook(s, i, setup);
  }

  lemma PublishKeepsAuthentic(s: System, i: nat, setup: Setup)
    requires Authentic(s) && i < |s.risk| && s.risk[i].Publishing?
    ensures Authentic(RiskStep(s, i, setup.risk))
  {
  }

  lemma PublishKeepsCharged(s: System, i: nat, setup: Setup)
    requires Charged(s) && i < |s.risk| && s.risk[i].Publishing?
    ensures Charged(RiskStep(s, i, setup.risk))
  {
  }

  lemma PublishKeepsBalanced(s: System, i: nat, setup: Setup)
    requires Balanced(s) && i < |s.risk| && s.risk[i].Publishing?
    ensures Balanced(RiskStep(s, i, setup.risk))
  {
    PublishKeepsAuthentic(s, i, setup);
    PublishKeepsCharged(s, i, setup);
    var t := RiskStep(s, i, setup.risk);
    assert t.outstanding == s.outstanding && t.world == s.world.(approvals := t.world.approvals);
  }

  lemma DecideKeepsBalanced(s: System, i: nat, setup: Setup)
    requires Balanced(s) && i < |s.risk| && s.risk[i].Reading?
    ensures Balanced(RiskStep(s, i, setup.risk))
  {
    DecidedFits(i, s.risk[i].decision, s.world.exposure, setup.risk);
  }

  lemma ReleaseKeepsBalanced(s: System)
    requires Balanced(s) && s.sweep.Releasing? && s.sweep.seen == s.world.exposure
    ensures Balanced(ReconcilerStep(s))
    ensures s.sweep.pos.fraction <= s.sweep.seen
  {
    assert Owes(s, s.sweep.todo[0], s.sweep.pos.fraction);
    ReleaseKeepsCharged(s);
    ReleaseKeepsTracked(s);
  }

  lemma ReleaseKeepsCharged(s: System)
    requires Charged(s) && Tracked(s) && s.sweep.Releasing? && s.sweep.seen == s.world.exposure && s.sweep.todo != []
    requires Owes(s, s.sweep.todo[0], s.sweep.pos.fraction) && s.sweep.todo[0] in s.world.submitted
    requires forall i :: 0 <= i < |s.risk| && s.risk[i].Publishing? ==> i !in s.world.approvals
    ensures Charged(ReconcilerStep(s)) && s.sweep.pos.fraction <= s.sweep.seen
  {
    SumWithout(s.outstanding, s.sweep.todo[0]);
  }

  lemma ReleaseKeepsTracked(s: System)
    requires Tracked(s) && s.sweep.Releasing? && s.sweep.todo != []
    ensures Tracked(ReconcilerStep(s))
  {
  }

  lemma UntrackKeepsBook(s: System)
    requires Tracked(s) && Owners(s) && Sweeping(s) && (s.sweep.Untracking? || s.sweep.Forgetting?)
    ensures var t := ReconcilerStep(s); Tracked(t) && Owners(t) && Sweeping(t)
  {
  }

  lemma UntrackKeepsBalanced(s: System)
    requires Balanced(s) && (s.sweep.Untracking? || s.sweep.Forgetting?)
    ensures Balanced(ReconcilerStep(s))
  {
    UntrackKeepsBook(s);
    var t := ReconcilerStep(s);
    assert t.outstanding == s.outstanding && t.risk == s.risk && t.world == s.world.(tracked := t.world.tracked);
  }

  /** Only the sweep itself moves, and not to or from the moment after a release. */
  lemma ScanKeepsBalanced(s: System, next: Sweep)
    requires Balanced(s) && !next.Untracking? && (s.sweep.Untracking? ==> s.sweep.todo == [])
    requires Sweeping(s.(sweep := next))
    ensures Balanced(s.(sweep := next))
  {
  }

  lemma ScanKeepsSweeping(s: System)
    requires Sweeping(s) && (s.sweep.Examining? || s.sweep.ReadingExposure?)
    ensures Sweeping(ReconcilerStep(s))
  {
  }

  lemma AnnounceKeepsBalanced(s: System)
    requires Balanced(s) && s.sweep.AnnouncingClosed?
    ensures Balanced(ReconcilerStep(s))
  {
    var next := Examining(s.sweep.open, s.sweep.todo[1..]);
    ScanKeepsBalanced(s, next);
    WorldKeepsBalanced(s.(sweep := next), ReconcilerStep(s).world);
  }

  lemma SweepKeepsBalanced(s: System)
    requires Balanced(s) && Clean(s, StepSweep)
    ensures Balanced(ReconcilerStep(s))
  {
    match s.sweep
    case Releasing(_, _, _, _) => ReleaseKeepsBalanced(s);
    case Untracking(_, _, _) => UntrackKeepsBalanced(s);
    case Forgetting(_, _) => UntrackKeepsBalanced(s);
    case AnnouncingClosed(_, _, _) => AnnounceKeepsBalanced(s);
    case Resting => assert ReconcilerStep(s) == s;
    case Listing(_) => assert ReconcilerStep(s) == s;
    case _ => LookKeepsBalanced(s);
  }

  lemma LookKeepsBalanced(s: System)
    requires Balanced(s) && (s.sweep.Examining? || s.sweep.ReadingExposure?)
    ensures Balanced(ReconcilerStep(s))
  {
    ScanKeepsSweeping(s);
    ScanKeepsBalanced(s, ReconcilerStep(s).sweep);
  }

  /** An await of an execution leaves the approvals, the charges and who may raise them alone. */
  lemma AwaitKeepsCharges(s: System, slot: Slot)
    requires Authentic(s) && Charged(s) && TaskIn(s, slot).Executing?
    ensures Authentic(Executed(s, slot)) && Charged(Executed(s, slot))
  {
    var t := Executed(s, slot);
    AwaitTouches(s.world, TaskIn(s, slot).grant, TaskIn(s, slot).done);
    SameCharges(s, t);
  }

  lemma AwaitTouches(w: World, g: Grant, done: nat)
    ensures var w' := ExecuteAwait(w, g, done);
            && w'.exposure == w.exposure && w'.approvals == w.approvals && w'.pending == w.pending
            && w.submitted <= w'.submitted
  {
  }

  lemma SameCharges(s: System, t: System)
    requires Authentic(s) && Charged(s)
    requires t.outstanding == s.outstanding && t.risk == s.risk && t.world.exposure == s.world.exposure
    requires t.world.approvals == s.world.approvals && t.world.pending == s.world.pending
    requires s.world.submitted <= t.world.submitted && Holds(t.signal, s.world) && Holds(t.command, s.world)
    ensures Authentic(t) && Charged(t)
  {
  }

  lemma MarkKeepsOwners(s: System, slot: Slot)
    requires Authentic(s) && Charged(s) && Tracked(s) && Owners(s)
    requires TaskIn(s, slot).Executing? && TaskIn(s, slot).done == 0 && TaskIn(s, slot).grant.ev.id !in s.world.submitted
    ensures Owners(Executed(s, slot))
  {
  }

  lemma MarkKeepsBook(s: System, slot: Slot)
    requires Authentic(s) && Tracked(s) && Sweeping(s)
    requires TaskIn(s, slot).Executing? && TaskIn(s, slot).done == 0
    ensures Tracked(Executed(s, slot)) && Sweeping(Executed(s, slot))
  {
  }

  lemma MarkKeepsBalanced(s: System, slot: Slot)
    requires Balanced(s) && TaskIn(s, slot).Executing? && TaskIn(s, slot).done == 0
    requires TaskIn(s, slot).grant.ev.id !in s.world.submitted
    ensures Balanced(Executed(s, slot))
  {
    AwaitKeepsCharges(s, slot);
    MarkKeepsOwners(s, slot);
    MarkKeepsBook(s, slot);
  }

  lemma TrackKeepsBalanced(s: System, slot: Slot)
    requires Balanced(s) && TaskIn(s, slot).Executing? && TaskIn(s, slot).done in {5, 6}
    ensures Balanced(Executed(s, slot))
  {
    AwaitKeepsCharges(s, slot);
    TrackKeepsTracked(s, slot);
    TrackKeepsOwners(s, slot);
  }

  lemma TrackKeepsTracked(s: System, slot: Slot)
    requires Tracked(s) && TaskIn(s, slot).Executing? && TaskIn(s, slot).done in {5, 6} && Owns(s, TaskIn(s, slot))
    ensures Tracked(Executed(s, slot))
  {
  }

  lemma TrackKeepsOwners(s: System, slot: Slot)
    requires Owners(s) && Sweeping(s)
    requires TaskIn(s, slot).Executing? && TaskIn(s, slot).done in {5, 6}
    ensures Owners(Executed(s, slot)) && Sweeping(Executed(s, slot))
  {
  }

  /** The parts of the shared state the ledger depends on. */
  predicate SameBook(w: World, w': World) {
    && w'.exposure == w.exposure && w'.submitted == w.submitted && w'.tracked == w.tracked
    && w'.positions == w.positions && w'.approvals == w.approvals
  }

  predicate GenuinePending(w: World) {
    forall k :: k in w.pending ==> w.pending[k].id == k && Genuine(w, w.pending[k])
  }

  lemma WorldKeepsBalanced(s: System, w: World)
    requires Balanced(s) && SameBook(s.world, w) && GenuinePending(w)
    ensures Balanced(s.(world := w))
  {
  }

  lemma HandlerKeepsBalanced(s: System, slot: Slot, t: Task)
    requires Balanced(s) && Holds(t, s.world)
    requires t.Executing? && 1 <= t.done ==>
               TaskIn(s, slot).Executing? && 1 <= TaskIn(s, slot).done <= t.done && TaskIn(s, slot).grant == t.grant
    ensures Balanced(WithTask(s, slot, s.world, t))
  {
    HandlerKeepsAuthentic(s, slot, t);
    HandlerKeepsOwners(s, slot, t);
    HandlerKeepsCharges(s, slot, t);
  }

  lemma HandlerKeepsAuthentic(s: System, slot: Slot, t: Task)
    requires Authentic(s) && Holds(t, s.world)
    ensures Authentic(WithTask(s, slot, s.world, t))
  {
  }

  lemma HandlerKeepsOwners(s: System, slot: Slot, t: Task)
    requires Owners(s)
    requires t.Executing? && 1 <= t.done ==>
               TaskIn(s, slot).Executing? && 1 <= TaskIn(s, slot).done <= t.done && TaskIn(s, slot).grant == t.grant
    ensures Owners(WithTask(s, slot, s.world, t))
  {
  }

  lemma HandlerKeepsCharges(s: System, slot: Slot, t: Task)
    requires Charged(s) && Tracked(s) && Sweeping(s)
    ensures var s' := WithTask(s, slot, s.world, t); Charged(s') && Tracked(s') && Sweeping(s')
  {
  }

  /** Awaits other than the mark, the tracking and the record leave the ledger's part of the world alone. */
  lemma OtherAwaits(s: System, slot: Slot, equity: real, setup: Setup)
    requires Holds(TaskIn(s, slot), s.world) && GenuinePending(s.world)
    requires TaskIn(s, slot).Executing? ==> TaskIn(s, slot).done !in {0, 5, 6}
    ensures var t := TaskIn(s, slot);
            var (w', t') := TaskStep(s.world, t, setup.defaults, equity);
            && SameBook(s.world, w') && GenuinePending(w') && Holds(t', s.world)
            && (t'.Executing? && 1 <= t'.done ==> t.Executing? && 1 <= t.done <= t'.done && t.grant == t'.grant)
  {
  }

  lemma TaskKeepsBalanced(s: System, slot: Slot, equity: real, setup: Setup)
    requires Balanced(s) && Clean(s, Step(slot, equity))
    ensures Balanced(Next(s, Step(slot, equity), setup))
  {
    var t := TaskIn(s, slot);
    if t.Executing? && t.done in {0, 5, 6} {
      StepExecutes(s, slot, equity, setup);
      if t.done == 0 {
        MarkKeepsBalanced(s, slot);
      } else {
        TrackKeepsBalanced(s, slot);
      }
    } else {
      var (w', t') := TaskStep(s.world, t, setup.defaults, equity);
      OtherAwaits(s, slot, equity, setup);
      HandlerKeepsBalanced(s, slot, t');
      WorldKeepsBalanced(WithTask(s, slot, s.world, t'), w');
    }
  }

  lemma OperatorKeepsBook(w: World, a: Action, setup: Setup)
    requires a.Configure? || a.OperatorClose? || a.OperatorAdjust? || a.OperatorOrder? || a.RateWindowEnds?
    ensures forall s: System :: s.world == w ==>
              var w' := Next(s, a, setup).world;
              SameBook(w, w') && w'.pending == w.pending && Next(s, a, setup) == s.(world := w')
  {
  }

  lemma RiskStepKeepsBalanced(s: System, i: nat, setup: Setup)
    requires Balanced(s) && Clean(s, StepRisk(i)) && i < |s.risk|
    ensures Balanced(RiskStep(s, i, setup.risk))
  {
    match s.risk[i]
    case Reading(_) => DecideKeepsBalanced(s, i, setup);
    case Charging(_, _) => ChargeKeepsBalanced(s, i, setup);
    case Publishing(_) => PublishKeepsBalanced(s, i, setup);
    case Done => assert RiskStep(s, i, setup.risk) == s;
  }

  lemma StartRiskKeepsBalanced(s: System, d: Decision)
    requires Balanced(s)
    ensures Balanced(s.(risk := s.risk + [Reading(d)]))
  {
  }

  lemma DropRiskKeepsBalanced(s: System, i: nat)
    requires Balanced(s) && i < |s.risk|
    ensures Balanced(s.(risk := s.risk[i := Done]))
  {
  }

  lemma SweepMoveKeepsBalanced(s: System, a: Action, setup: Setup)
    requires Balanced(s) && Clean(s, a) && (a.StartSweep? || a.ListTracked? || a.AbortSweep?)
    ensures Balanced(Next(s, a, setup))
  {
    if Next(s, a, setup) != s {
      ScanKeepsBalanced(s, Next(s, a, setup).sweep);
    }
  }

  lemma MoveKeepsBalanced(s: System, a: Action, setup: Setup)
    requires Balanced(s) && Clean(s, a)
    ensures Balanced(Next(s, a, setup))
  {
    match a
    case StartRisk(_) => RiskMoveKeepsBalanced(s, a, setup);
    case StepRisk(_) => RiskMoveKeepsBalanced(s, a, setup);
    case DropRisk(_) => RiskMoveKeepsBalanced(s, a, setup);
    case Deliver(_) => StartedHandlerKeepsBalanced(s, a, setup);
    case Approve(_) => StartedHandlerKeepsBalanced(s, a, setup);
    case Reject(_, _) => StartedHandlerKeepsBalanced(s, a, setup);
    case Crash(slot) => HandlerKeepsBalanced(s, slot, Idle);
    case Step(slot, equity) => TaskKeepsBalanced(s, slot, equity, setup);
    case StepSweep => SweepKeepsBalanced(s);
    case StartSweep(_) => SweepMoveKeepsBalanced(s, a, setup);
    case ListTracked(_) => SweepMoveKeepsBalanced(s, a, setup);
    case AbortSweep => SweepMoveKeepsBalanced(s, a, setup);
    case _ => SettingKeepsBalanced(s, a, setup);
  }

  lemma RiskMoveKeepsBalanced(s: System, a: Action, setup: Setup)
    requires Balanced(s) && Clean(s, a) && (a.StartRisk? || a.StepRisk? || a.DropRisk?)
    ensures Balanced(Next(s, a, setup))
  {
    match a
    case StartRisk(d) => StartRiskKeepsBalanced(s, d);
    case StepRisk(i) => if i < |s.risk| { RiskStepKeepsBalanced(s, i, setup); }
    case DropRisk(i) => if i < |s.risk| { DropRiskKeepsBalanced(s, i); }
  }

  lemma StartedHandlerKeepsBalanced(s: System, a: Action, setup: Setup)
    requires Balanced(s) && (a.Deliver? || a.Approve? || a.Reject?)
    ensures Balanced(Next(s, a, setup))
  {
    if a.Deliver? {
      HandlerKeepsBalanced(s, Signal, Next(s, a, setup).signal);
    } else {
      HandlerKeepsBalanced(s, Command, Next(s, a, setup).command);
    }
  }

  lemma SettingKeepsBalanced(s: System, a: Action, setup: Setup)
    requires Balanced(s)
    requires a.Configure? || a.OperatorClose? || a.OperatorAdjust? || a.OperatorOrder? || a.RateWindowEnds?
    ensures Balanced(Next(s, a, setup))
  {
    OperatorKeepsBook(s.world, a, setup);
    WorldKeepsBalanced(s, Next(s, a, setup).world);
  }

  lemma InitiallyBalanced(s: System)
    requires Initial(s)
    ensures Balanced(s) && Bounded(s)
  {
  }

  lemma {:induction false} CleanRunsStayBalanced(s: System, actions: seq<Action>, setup: Setup)
    requires Balanced(s) && CleanRun(s, actions, setup)
    ensures Balanced(Run(s, actions, setup))
    decreases |actions|
  {
    if actions != [] {
      MoveKeepsBalanced(s, actions[0], setup);
      CleanRunsStayBalanced(Next(s, actions[0], setup), actions[1..], setup);
    }
  }

  lemma BookIsCovered(s: System)
    requires Balanced(s)
    ensures Sum(Book(s)) <= s.world.exposure
  {
    forall k | k in Book(s) ensures Owes(s, k, Book(s)[k]) {
    }
    SumOfPart(Book(s), s.outstanding);
  }

  /** After any clean run the open book is covered: exposure is exactly what has been charged and not released,
      it is at least the total of the tracked positions, at most the whole portfolio, and the `max(0, ...)` of a
      release about to happen gives back the full fraction. */
  lemma LedgerCoversBook(start: System, actions: seq<Action>, setup: Setup)
    requires Initial(start) && CleanRun(start, actions, setup)
    ensures var s := Run(start, actions, setup);
            && s.world.exposure == Sum(s.outstanding)
            && Sum(Book(s)) <= s.world.exposure <= FULL
            && (s.sweep.Releasing? && Clean(s, StepSweep) ==> s.sweep.pos.fraction <= s.sweep.seen)
  {
    InitiallyBalanced(start);
    CleanRunsStayBalanced(start, actions, setup);
    RunKeepsBounded(start, actions, setup);
    var s := Run(start, actions, setup);
    BookIsCovered(s);
    ReleaseGivesBackAll(s);
  }

  lemma ReleaseGivesBackAll(s: System)
    requires Balanced(s)
    ensures s.sweep.Releasing? && Clean(s, StepSweep) ==> s.sweep.pos.fraction <= s.sweep.seen
  {
    if s.sweep.Releasing? && Clean(s, StepSweep) {
      ReleaseKeepsBalanced(s);
    }
  }
}
