/**
 Handlers that run without interleaving, as sequences of the protocol's moves: what they amount to, and that runs
 made of them are clean, so that the ledger covers the book after any of them.
 */
module WholeHandlers {
  import opened Ledger
  import opened MapSum
  import opened Protocol
  import opened Reconciling
  import opened RiskRules
  import opened Symbols

  // ---------- A sweep ----------

  /** `n` moves of the reconciler. */
  function Sweeps(n: nat): seq<Action> {
    if n == 0 then [] else [StepSweep] + Sweeps(n - 1)
  }

  /** Awaits of the sweep of one id: the record, then for a closed position the exposure twice, the set, the event. */
  const AWAITS_PER_ID: nat := 5

  /** Any number of extra moves of a resting reconciler changes nothing. */
  lemma {:induction false} RestingSweeps(s: System, n: nat, setup: Setup)
    requires s.sweep.Resting?
    ensures Run(s, Sweeps(n), setup) == s && CleanRun(s, Sweeps(n), setup)
  {
    if n > 0 {
      assert Next(s, StepSweep, setup) == s;
      RestingSweeps(s, n - 1, setup);
    }
  }

  lemma SweepsStep(s: System, n: nat, setup: Setup)
    requires n > 0
    ensures Run(s, Sweeps(n), setup) == Run(ReconcilerStep(s), Sweeps(n - 1), setup)
    ensures CleanRun(s, Sweeps(n), setup) == (Clean(s, StepSweep) && CleanRun(ReconcilerStep(s), Sweeps(n - 1), setup))
  {
    assert Sweeps(n)[0] == StepSweep && Sweeps(n)[1..] == Sweeps(n - 1);
  }

  /** The system once the reconciler has dealt with the id at the head of its list. */
  function Visited(s: System): System
    requires s.sweep.Examining? && s.sweep.todo != []
  {
    var id := s.sweep.todo[0];
    s.(world := Visit(s.world, s.sweep.open, id),
       sweep := Examining(s.sweep.open, s.sweep.todo[1..]),
       outstanding := if HasClosed(s.world.positions, id, s.sweep.open) then s.outstanding - {id} else s.outstanding)
  }

  lemma CloseSteps(s: System, n: nat, setup: Setup)
    requires s.sweep.Examining? && s.sweep.todo != [] && n >= 5
    requires HasClosed(s.world.positions, s.sweep.todo[0], s.sweep.open)
    ensures Run(s, Sweeps(n), setup) == Run(Visited(s), Sweeps(n - 5), setup)
    ensures CleanRun(s, Sweeps(n), setup) == CleanRun(Visited(s), Sweeps(n - 5), setup)
  {
    var s3 := CloseReleases(s, n, setup);
    CloseFinishes(s, s3, n - 3, setup);
  }

  /** The record, then the exposure read and written. */
  lemma CloseReleases(s: System, n: nat, setup: Setup) returns (t: System)
    requires s.sweep.Examining? && s.sweep.todo != [] && n >= 3
    requires HasClosed(s.world.positions, s.sweep.todo[0], s.sweep.open)
    ensures Run(s, Sweeps(n), setup) == Run(t, Sweeps(n - 3), setup)
    ensures CleanRun(s, Sweeps(n), setup) == CleanRun(t, Sweeps(n - 3), setup)
    ensures var id := s.sweep.todo[0];
            var pos := s.world.positions[id];
            t == s.(world := s.world.(exposure := Max(0, s.world.exposure - pos.fraction)),
                    sweep := Untracking(s.sweep.open, s.sweep.todo, pos),
                    outstanding := s.outstanding - {id})
  {
    var s1 := ReconcilerStep(s);
    var s2 := ReconcilerStep(s1);
    SweepsStep(s, n, setup);
    SweepsStep(s1, n - 1, setup);
    SweepsStep(s2, n - 2, setup);
    t := ReconcilerStep(s2);
  }

  /** The set, then the event. */
  lemma CloseFinishes(s: System, t: System, n: nat, setup: Setup)
    requires s.sweep.Examining? && s.sweep.todo != [] && n >= 2
    requires HasClosed(s.world.positions, s.sweep.todo[0], s.sweep.open)
    requires var id := s.sweep.todo[0];
             var pos := s.world.positions[id];
             t == s.(world := s.world.(exposure := Max(0, s.world.exposure - pos.fraction)),
                     sweep := Untracking(s.sweep.open, s.sweep.todo, pos),
                     outstanding := s.outstanding - {id})
    ensures Run(t, Sweeps(n), setup) == Run(Visited(s), Sweeps(n - 2), setup)
    ensures CleanRun(t, Sweeps(n), setup) == CleanRun(Visited(s), Sweeps(n - 2), setup)
  {
    var t1 := ReconcilerStep(t);
    SweepsStep(t, n, setup);
    SweepsStep(t1, n - 1, setup);
    assert ReconcilerStep(t1) == Visited(s);
  }

  /** One id takes the reconciler from looking at it to looking at the next, with the effect of `Visit`. */
  lemma VisitSteps(s: System, n: nat, setup: Setup) returns (rest: nat)
    requires s.sweep.Examining? && s.sweep.todo != [] && n >= AWAITS_PER_ID
    ensures rest >= n - AWAITS_PER_ID
    ensures Run(s, Sweeps(n), setup) == Run(Visited(s), Sweeps(rest), setup)
    ensures CleanRun(s, Sweeps(n), setup) == CleanRun(Visited(s), Sweeps(rest), setup)
  {
    var id := s.sweep.todo[0];
    if HasClosed(s.world.positions, id, s.sweep.open) {
      CloseSteps(s, n, setup);
      rest := n - 5;
    } else {
      SweepsStep(s, n, setup);
      rest := n - 1;
      if id !in s.world.positions {
        SweepsStep(ReconcilerStep(s), n - 1, setup);
        rest := n - 2;
      }
    }
  }

  lemma {:induction false} SweepRuns(s: System, n: nat, setup: Setup)
    requires s.sweep.Examining? && n >= AWAITS_PER_ID * |s.sweep.todo| + 1
    ensures var t := Run(s, Sweeps(n), setup);
            && t == s.(world := SweepEffect(s.world, s.sweep.open, s.sweep.todo), sweep := Resting, outstanding := t.outstanding)
            && CleanRun(s, Sweeps(n), setup)
    decreases |s.sweep.todo|
  {
    if s.sweep.todo == [] {
      SweepsStep(s, n, setup);
      RestingSweeps(ReconcilerStep(s), n - 1, setup);
    } else {
      var rest := VisitSteps(s, n, setup);
      SweepRuns(Visited(s), rest, setup);
    }
  }

  // ---------- A handler of the trading engine ----------

  /** `n` awaits of the handler in `slot`. */
  function Awaits(slot: Slot, equity: real, n: nat): seq<Action> {
    if n == 0 then [] else [Step(slot, equity)] + Awaits(slot, equity, n - 1)
  }

  /** Given enough awaits a handler returns, with the effect of `Finish`. */
  lemma {:induction false} HandlerRuns(s: System, slot: Slot, equity: real, n: nat, setup: Setup)
    requires n >= Remaining(TaskIn(s, slot))
    ensures Run(s, Awaits(slot, equity, n), setup)
         == WithTask(s, slot, Finish(s.world, TaskIn(s, slot), setup.defaults, equity), Idle)
    decreases n
  {
    if n > 0 {
      AwaitsCons(s, slot, equity, n, setup);
      StepTowardsFinish(s, slot, equity, setup);
      HandlerRuns(Next(s, Step(slot, equity), setup), slot, equity, n - 1, setup);
    }
  }

  lemma AwaitsCons(s: System, slot: Slot, equity: real, n: nat, setup: Setup)
    requires n > 0
    ensures Run(s, Awaits(slot, equity, n), setup) == Run(Next(s, Step(slot, equity), setup), Awaits(slot, equity, n - 1), setup)
  {
    assert Awaits(slot, equity, n)[1..] == Awaits(slot, equity, n - 1);
  }

  /** One await brings the handler closer to its end without changing where it ends. */
  lemma StepTowardsFinish(s: System, slot: Slot, equity: real, setup: Setup)
    ensures var t := Next(s, Step(slot, equity), setup);
            && (TaskIn(s, slot).Idle? ==> t == s)
            && (!TaskIn(s, slot).Idle? ==> Remaining(TaskIn(t, slot)) < Remaining(TaskIn(s, slot)))
            && WithTask(t, slot, Finish(t.world, TaskIn(t, slot), setup.defaults, equity), Idle)
               == WithTask(s, slot, Finish(s.world, TaskIn(s, slot), setup.defaults, equity), Idle)
  {
    StepShortens(s.world, TaskIn(s, slot), setup.defaults, equity);
    if !TaskIn(s, slot).Idle? {
      FinishStep(s.world, TaskIn(s, slot), setup.defaults, equity);
    }
  }

  lemma StepShortens(w: World, t: Task, defaults: TradingConfig, equity: real)
    ensures t.Idle? ==> TaskStep(w, t, defaults, equity) == (w, t)
    ensures !t.Idle? ==> Remaining(TaskStep(w, t, defaults, equity).1) < Remaining(t)
  {
  }

  /** What a delivery left alone does with an event that is new, listed, sized and let through: it executes it. */
  lemma DeliveryFinishes(w: World, ev: Approval, defaults: TradingConfig, equity: real)
    requires ev.id !in w.submitted && Tradable(ev.symbol)
    requires var config := Load(w.runtime, defaults);
             && config.tradingEnabled && config.autoTrading && w.rate + 1 <= config.maxOrdersPerHour
             && Grant(ev, config, equity).Size() > 0.0
    ensures Finish(w, CheckSubmitted(ev), defaults, equity)
         == ExecuteEffect(w.(rate := w.rate + 1), Grant(ev, Load(w.runtime, defaults), equity))
  {
    var config, w1 := Load(w.runtime, defaults), w.(rate := w.rate + 1);
    FinishStep(w, CheckSubmitted(ev), defaults, equity);
    FinishStep(w, LoadConfig(ev, false), defaults, equity);
    FinishStep(w, Guard(ev, config, false), defaults, equity);
    FinishStep(w1, ReadEquity(ev, config, false), defaults, equity);
    FinishExecuting(w1, Grant(ev, config, equity), defaults, equity);
  }

  /** Whether the handler, should it still mark its event, would be the first to. */
  predicate Unmarked(w: World, t: Task) {
    match t
    case Idle => true
    case CheckSubmitted(_) => true
    case LoadConfig(ev, _) => ev.id !in w.submitted
    case Guard(ev, _, _) => ev.id !in w.submitted
    case ReadEquity(ev, _, _) => ev.id !in w.submitted
    case Executing(g, done) => done == 0 ==> g.ev.id !in w.submitted
    case LoadPending(id, refusal) => refusal.None? && id in w.pending ==> w.pending[id].id !in w.submitted
    case Unlist(ev, refusal) => refusal.None? ==> ev.id !in w.submitted
    case _ => true
  }

  /** A handler that would be the first to mark its event, cut short anywhere, never marks one twice. */
  lemma {:induction false} HandlerIsClean(s: System, slot: Slot, equity: real, n: nat, setup: Setup)
    requires Unmarked(s.world, TaskIn(s, slot))
    ensures CleanRun(s, Awaits(slot, equity, n), setup)
    ensures var t := Run(s, Awaits(slot, equity, n), setup);
            t == WithTask(s, slot, t.world, TaskIn(t, slot))
    decreases n
  {
    if n > 0 {
      var moves := Awaits(slot, equity, n);
      assert moves[0] == Step(slot, equity) && moves[1..] == Awaits(slot, equity, n - 1);
      StepKeepsUnmarked(s.world, TaskIn(s, slot), setup, equity);
      HandlerIsClean(Next(s, moves[0], setup), slot, equity, n - 1, setup);
    }
  }

  lemma StepKeepsUnmarked(w: World, t: Task, setup: Setup, equity: real)
    requires Unmarked(w, t)
    ensures var (w', t') := TaskStep(w, t, setup.defaults, equity); Unmarked(w', t')
  {
  }

  // ---------- Runs of whole handlers ----------

  /** Risk approvals and sweeps that are not interrupted, deliveries and operator approvals cut short after any await,
      operator settings. */
  datatype Episode =
    | RiskEpisode(decision: Decision)
    | Delivery(event: EventId, equity: real, awaits: nat)
    | ApprovalEpisode(event: EventId, equity: real, awaits: nat)
    | SweepEpisode(open: set<Pair>, order: seq<EventId>)
    | Setting(action: Action)

  predicate IsSetting(a: Action) {
    a.Configure? || a.OperatorClose? || a.OperatorAdjust? || a.OperatorOrder? || a.RateWindowEnds?
  }

  /** Moves that start, crash or sweep: they order nothing, record nothing, and a handler they start has an approval
      on record or has yet to read one. */
  predicate OnlyStarts(s: System, t: System) {
    && t.risk == s.risk
    && t.world == s.world.(exposure := t.world.exposure, tracked := t.world.tracked, executions := t.world.executions)
    && (t.signal == s.signal || t.signal.Idle?
        || (t.signal.CheckSubmitted? && exists k :: k in s.world.approvals && s.world.approvals[k] == t.signal.ev))
    && (t.command == s.command || t.command.Idle? || t.command.LoadPending?)
  }

  lemma OtherMovesOnlyStart(s: System, a: Action, setup: Setup)
    requires !a.Step? && !a.StartRisk? && !a.StepRisk? && !a.DropRisk? && !IsSetting(a)
    ensures OnlyStarts(s, Next(s, a, setup))
  {
  }

  /** The moves an episode consists of, started in `s`. */
  function Moves(s: System, e: Episode): seq<Action> {
    match e
    case RiskEpisode(d) =>
      if d.WellFormed() then [StartRisk(d), StepRisk(|s.risk|), StepRisk(|s.risk|), StepRisk(|s.risk|)] else []
    case Delivery(id, equity, n) => [Deliver(id)] + Awaits(Signal, equity, n) + [Crash(Signal)]
    case ApprovalEpisode(id, equity, n) =>
      if id !in s.world.submitted then [Approve(id)] + Awaits(Command, equity, n) + [Crash(Command)] else []
    case SweepEpisode(open, order) =>
      if Enumerates(order, s.world.tracked)
      then [StartSweep(open), ListTracked(order)] + Sweeps(AWAITS_PER_ID * |order| + 1)
      else []
    case Setting(a) => if IsSetting(a) then [a] else []
  }

  function Play(s: System, episodes: seq<Episode>, setup: Setup): System
    decreases |episodes|
  {
    if episodes == [] then s else Play(Run(s, Moves(s, episodes[0]), setup), episodes[1..], setup)
  }

  /** Nothing is suspended. */
  predicate Quiet(s: System) {
    s.signal.Idle? && s.command.Idle? && s.sweep.Resting? && forall i :: 0 <= i < |s.risk| ==> s.risk[i].Done?
  }

  lemma {:induction false} CleanAppend(s: System, first: seq<Action>, second: seq<Action>, setup: Setup)
    requires CleanRun(s, first, setup) && CleanRun(Run(s, first, setup), second, setup)
    ensures CleanRun(s, first + second, setup)
    decreases |first|
  {
    if first == [] {
      assert first + second == second;
    } else {
      assert (first + second)[1..] == first[1..] + second;
      CleanAppend(Next(s, first[0], setup), first[1..], second, setup);
    }
  }

  /** An uninterrupted risk handler is clean and has the effect `RiskEffect`. */
  lemma RiskEpisodeRuns(s: System, d: Decision, setup: Setup)
    requires Quiet(s) && d.WellFormed()
    ensures var t := Run(s, Moves(s, RiskEpisode(d)), setup);
            CleanRun(s, Moves(s, RiskEpisode(d)), setup) && Quiet(t) && t.world == RiskEffect(s.world, |s.risk|, d, setup.risk)
  {
    var i := |s.risk|;
    var s1 := Next(s, StartRisk(d), setup);
    var s2 := Next(s1, StepRisk(i), setup);
    var s3 := Next(s2, StepRisk(i), setup);
    RiskEpisodeMoves(s, d, setup);
    RiskEpisodeCharges(s, d, setup, s1, s2, s3);
    RunCons(s, StartRisk(d), [StepRisk(i), StepRisk(i), StepRisk(i)], setup);
    RunCons(s1, StepRisk(i), [StepRisk(i), StepRisk(i)], setup);
    RunTwo(s2, StepRisk(i), StepRisk(i), setup);
  }

  lemma RiskEpisodeCharges(s: System, d: Decision, setup: Setup, s1: System, s2: System, s3: System)
    requires Quiet(s) && d.WellFormed() && s1 == Next(s, StartRisk(d), setup)
    requires s2 == Next(s1, StepRisk(|s.risk|), setup) && s3 == Next(s2, StepRisk(|s.risk|), setup)
    ensures Clean(s1, StepRisk(|s.risk|)) && Clean(s2, StepRisk(|s.risk|)) && Clean(s3, StepRisk(|s.risk|))
    ensures var t := Next(s3, StepRisk(|s.risk|), setup); Quiet(t) && t.world == RiskEffect(s.world, |s.risk|, d, setup.risk)
  {
  }

  lemma RiskEpisodeMoves(s: System, d: Decision, setup: Setup)
    requires d.WellFormed()
    ensures var i := |s.risk|;
            && Moves(s, RiskEpisode(d)) == [StartRisk(d)] + [StepRisk(i), StepRisk(i), StepRisk(i)]
            && [StepRisk(i), StepRisk(i), StepRisk(i)] == [StepRisk(i)] + [StepRisk(i), StepRisk(i)]
  {
  }

  /** A handler started, given some awaits and cut short is clean, and leaves everything at rest. */
  lemma CutShortRuns(s: System, start: Action, slot: Slot, equity: real, n: nat, setup: Setup)
    requires Quiet(s) && Clean(s, start)
    requires var t := Next(s, start, setup); t == WithTask(s, slot, s.world, TaskIn(t, slot)) && Unmarked(t.world, TaskIn(t, slot))
    ensures var moves := [start] + Awaits(slot, equity, n) + [Crash(slot)];
            CleanRun(s, moves, setup) && Quiet(Run(s, moves, setup))
  {
    var s1, steps, stop := Next(s, start, setup), Awaits(slot, equity, n), [Crash(slot)];
    HandlerIsClean(s1, slot, equity, n, setup);
    RunOne(Run(s1, steps, setup), Crash(slot), setup);
    CleanAppend(s1, steps, stop, setup);
    RunAppend(s1, steps, stop, setup);
    RunCons(s, start, steps + stop, setup);
    assert [start] + steps + stop == [start] + (steps + stop);
  }

  lemma DeliveryRuns(s: System, id: EventId, equity: real, n: nat, setup: Setup)
    requires Quiet(s)
    ensures CleanRun(s, Moves(s, Delivery(id, equity, n)), setup) && Quiet(Run(s, Moves(s, Delivery(id, equity, n)), setup))
  {
    CutShortRuns(s, Deliver(id), Signal, equity, n, setup);
  }

  /** An operator's approval of an event not yet submitted. */
  lemma ApprovalRuns(s: System, id: EventId, equity: real, n: nat, setup: Setup)
    requires Quiet(s) && Authentic(s)
    ensures var e := ApprovalEpisode(id, equity, n); CleanRun(s, Moves(s, e), setup) && Quiet(Run(s, Moves(s, e), setup))
  {
    if id !in s.world.submitted {
      CutShortRuns(s, Approve(id), Command, equity, n, setup);
    }
  }

  /** An uninterrupted sweep is clean and has the effect `SweepEffect`. */
  lemma SweepEpisodeRuns(s: System, open: set<Pair>, order: seq<EventId>, setup: Setup)
    requires Quiet(s) && Enumerates(order, s.world.tracked)
    ensures var e := SweepEpisode(open, order);
            var t := Run(s, Moves(s, e), setup);
            CleanRun(s, Moves(s, e), setup) && Quiet(t) && t.world == SweepEffect(s.world, open, order)
  {
    var s1 := Next(s, StartSweep(open), setup);
    var s2 := Next(s1, ListTracked(order), setup);
    var n := AWAITS_PER_ID * |order| + 1;
    SweepRuns(s2, n, setup);
    var moves := Moves(s, SweepEpisode(open, order));
    assert moves[0] == StartSweep(open) && moves[1..] == [ListTracked(order)] + Sweeps(n);
    assert moves[1..][1..] == Sweeps(n);
  }

  lemma EpisodeIsClean(s: System, e: Episode, setup: Setup)
    requires Quiet(s) && Authentic(s)
    ensures CleanRun(s, Moves(s, e), setup) && Quiet(Run(s, Moves(s, e), setup))
  {
    match e
    case RiskEpisode(d) => if d.WellFormed() { RiskEpisodeRuns(s, d, setup); }
    case Delivery(id, equity, n) => DeliveryRuns(s, id, equity, n, setup);
    case ApprovalEpisode(id, equity, n) => ApprovalRuns(s, id, equity, n, setup);
    case SweepEpisode(open, order) => if Enumerates(order, s.world.tracked) { SweepEpisodeRuns(s, open, order, setup); }
    case Setting(a) =>
      if IsSetting(a) {
        assert Run(s, [a], setup) == Next(s, a, setup);
      }
  }

  lemma {:induction false} EpisodesStayBalanced(s: System, episodes: seq<Episode>, setup: Setup)
    requires Quiet(s) && Balanced(s) && Bounded(s)
    ensures var t := Play(s, episodes, setup); Quiet(t) && Balanced(t) && Bounded(t)
    decreases |episodes|
  {
    if episodes != [] {
      var moves := Moves(s, episodes[0]);
      EpisodeIsClean(s, episodes[0], setup);
      CleanRunsStayBalanced(s, moves, setup);
      RunKeepsBounded(s, moves, setup);
      EpisodesStayBalanced(Run(s, moves, setup), episodes[1..], setup);
    }
  }

  /** Every tracked position with a record, and its fraction. */
  function Held(w: World): map<EventId, Fraction> {
    map id | id in w.tracked && id in w.positions :: w.positions[id].fraction
  }

  /** Risk approvals, deliveries, repeated or cut short after any await, operator approvals of what is not submitted, cut
      short likewise, and whole sweeps, in any order and number: the fractions of all tracked positions together never
      exceed the ledger, nor the ledger the portfolio, and no sweep ever has more to give back than the ledger holds. */
  lemma WholeHandlersCoverBook(start: System, episodes: seq<Episode>, setup: Setup, open: set<Pair>, order: seq<EventId>)
    requires Initial(start)
    ensures var w := Play(start, episodes, setup).world;
            && Sum(Held(w)) <= w.exposure <= FULL
            && (Enumerates(order, w.tracked) ==>
                  SweepEffect(w, open, order).exposure == w.exposure - Sum(Freed(w.positions, open, w.tracked)))
  {
    InitiallyBalanced(start);
    EpisodesStayBalanced(start, episodes, setup);
    var s := Play(start, episodes, setup);
    BookIsCovered(s);
    QuietBook(s);
    if Enumerates(order, s.world.tracked) {
      SweepOutcome(s.world, open, order);
      SumOfPart(Freed(s.world.positions, open, s.world.tracked), Held(s.world));
    }
  }

  lemma QuietBook(s: System)
    requires Quiet(s)
    ensures Held(s.world) == Book(s)
  {
  }
}
