/**
 Every service replicated: any number of trading handlers, reconcilers and risk handlers on the one shared state,
 each suspended at an await of its own.
 */
module Replicas {
  import opened Ledger
  import opened MapSum
  import opened Protocol
  import opened RiskRules
  import opened Symbols
  import opened WholeHandlers
  import opened Wrappers

  datatype Fleet = Fleet(world: World, handlers: seq<Task>, sweeps: seq<Sweep>, risk: seq<RiskTask>)

  datatype Move =
    | RiskStarts(decision: Decision)
    | RiskSteps(i: nat)
    | RiskDrops(i: nat)
    | DeliveryStarts(event: EventId)
    | ApprovalStarts(event: EventId)
    | RejectionStarts(event: EventId, text: string)
    | HandlerSteps(i: nat, equity: real)
    | HandlerCrashes(i: nat)
    | SweepStarts(open: set<Pair>)
    | SweepLists(i: nat, order: seq<EventId>)
    | SweepSteps(i: nat)
    | SweepAborts(i: nat)
    | OperatorActs(setting: Action)

  /** The shared state and the risk handlers, with nothing else running. */
  function Core(f: Fleet): System {
    System(f.world, Idle, Idle, Resting, f.risk, map[])
  }

  function RiskMoves(f: Fleet, i: nat, cfg: RiskConfig): Fleet
    requires i < |f.risk|
  {
    var t := RiskStep(Core(f), i, cfg);
    f.(world := t.world, risk := t.risk)
  }

  /** What an operator's setting does to the shared state. */
  function Acted(f: Fleet, a: Action, setup: Setup): World {
    if IsSetting(a) then Next(Core(f), a, setup).world else f.world
  }

  function FleetNext(f: Fleet, m: Move, setup: Setup): Fleet {
    match m
    case RiskStarts(d) => if d.WellFormed() then f.(risk := f.risk + [Reading(d)]) else f
    case RiskSteps(i) => if i < |f.risk| then RiskMoves(f, i, setup.risk) else f
    case RiskDrops(i) => if i < |f.risk| then f.(risk := f.risk[i := Done]) else f
    case DeliveryStarts(id) =>
      if id in f.world.approvals then f.(handlers := f.handlers + [CheckSubmitted(f.world.approvals[id])]) else f
    case ApprovalStarts(id) => f.(handlers := f.handlers + [LoadPending(id, None)])
    case RejectionStarts(id, text) => f.(handlers := f.handlers + [LoadPending(id, Some(OperatorReject(text)))])
    case HandlerSteps(i, equity) =>
      if i < |f.handlers| then
        var (w, t) := TaskStep(f.world, f.handlers[i], setup.defaults, equity);
        f.(world := w, handlers := f.handlers[i := t])
      else f
    case HandlerCrashes(i) => if i < |f.handlers| then f.(handlers := f.handlers[i := Idle]) else f
    case SweepStarts(open) => f.(sweeps := f.sweeps + [Listing(open)])
    case SweepLists(i, order) =>
      if i < |f.sweeps| && f.sweeps[i].Listing? && Enumerates(order, f.world.tracked)
      then f.(sweeps := f.sweeps[i := Examining(f.sweeps[i].open, order)])
      else f
    case SweepSteps(i) =>
      if i < |f.sweeps| then
        var (w, next) := SweepStep(f.world, f.sweeps[i]);
        f.(world := w, sweeps := f.sweeps[i := next])
      else f
    case SweepAborts(i) => if i < |f.sweeps| then f.(sweeps := f.sweeps[i := Resting]) else f
    case OperatorActs(a) => f.(world := Acted(f, a, setup))
  }

  function FleetRun(f: Fleet, moves: seq<Move>, setup: Setup): Fleet
    decreases |moves|
  {
    if moves == [] then f else FleetRun(FleetNext(f, moves[0], setup), moves[1..], setup)
  }

  /** Exposure, and every value of it that some handler or reconciler is about to write, is a fraction. */
  predicate InRange(f: Fleet) {
    && 0 <= f.world.exposure <= FULL
    && (forall i :: 0 <= i < |f.risk| && f.risk[i].Charging? ==>
          0 <= f.risk[i].seen && f.risk[i].seen + f.risk[i].approval.fraction <= FULL)
    && (forall i :: 0 <= i < |f.sweeps| && f.sweeps[i].Releasing? ==> f.sweeps[i].seen <= FULL)
  }

  lemma RiskKeepsRange(f: Fleet, i: nat, cfg: RiskConfig)
    requires InRange(f) && i < |f.risk|
    ensures InRange(RiskMoves(f, i, cfg))
  {
    if f.risk[i].Reading? {
      DecidedFits(i, f.risk[i].decision, f.world.exposure, cfg);
    }
  }

  lemma SweepKeepsRange(f: Fleet, i: nat, setup: Setup)
    requires InRange(f)
    ensures InRange(FleetNext(f, SweepSteps(i), setup))
  {
  }

  lemma ActionKeepsExposure(f: Fleet, a: Action, setup: Setup)
    ensures Acted(f, a, setup).exposure == f.world.exposure
  {
    if IsSetting(a) {
      OperatorKeepsBook(f.world, a, setup);
    }
  }

  lemma OtherMovesKeepRange(f: Fleet, m: Move, setup: Setup)
    requires InRange(f) && !m.RiskSteps? && !m.SweepSteps?
    ensures InRange(FleetNext(f, m, setup))
  {
    match m
    case HandlerSteps(i, equity) => if i < |f.handlers| { TaskKeepsExposure(f.world, f.handlers[i], setup, equity); }
    case OperatorActs(a) => ActionKeepsExposure(f, a, setup);
    case _ =>
  }

  /** In every run of any number of risk handlers, reconcilers and trading handlers, interleaved at every await and cut
      short anywhere, exposure stays in [0, 1], although concurrent updates may overwrite each other. */
  lemma {:induction false} ExposureStaysAFraction(f: Fleet, moves: seq<Move>, setup: Setup)
    requires InRange(f)
    ensures InRange(FleetRun(f, moves, setup))
    decreases |moves|
  {
    if moves != [] {
      match moves[0] {
        case RiskSteps(i) => if i < |f.risk| { RiskKeepsRange(f, i, setup.risk); }
        case SweepSteps(i) => SweepKeepsRange(f, i, setup);
        case _ => OtherMovesKeepRange(f, moves[0], setup);
      }
      ExposureStaysAFraction(FleetNext(f, moves[0], setup), moves[1..], setup);
    }
  }

  // ---------- Two reconcilers on one closed position ----------

  /** Two reconcilers that found the same position closed, each about to read the exposure. */
  predicate BothClosing(f: Fleet, i: nat, j: nat, id: EventId, pos: Position) {
    && i < |f.sweeps| && j < |f.sweeps| && i != j
    && f.sweeps[i].ReadingExposure? && f.sweeps[i].todo != [] && f.sweeps[i].todo[0] == id && f.sweeps[i].pos == pos
    && f.sweeps[j].ReadingExposure? && f.sweeps[j].todo != [] && f.sweeps[j].todo[0] == id && f.sweeps[j].pos == pos
  }

  /** One reconciler's read and write of the exposure, uninterrupted. */
  lemma ReleaseInOne(f: Fleet, i: nat, setup: Setup)
    requires i < |f.sweeps| && f.sweeps[i].ReadingExposure?
    ensures var s, t := f.sweeps[i], FleetRun(f, [SweepSteps(i), SweepSteps(i)], setup);
            t == f.(world := f.world.(exposure := Max(0, f.world.exposure - s.pos.fraction)),
                    sweeps := f.sweeps[i := Untracking(s.open, s.todo, s.pos)])
  {
    assert [SweepSteps(i), SweepSteps(i)][1..] == [SweepSteps(i)] && [SweepSteps(i)][1..] == [];
    var f1 := FleetNext(f, SweepSteps(i), setup);
    assert FleetRun(f1, [SweepSteps(i)], setup) == FleetNext(f1, SweepSteps(i), setup);
  }

  lemma {:induction false} FleetRunAppend(f: Fleet, first: seq<Move>, second: seq<Move>, setup: Setup)
    ensures FleetRun(f, first + second, setup) == FleetRun(FleetRun(f, first, setup), second, setup)
    decreases |first|
  {
    if first == [] {
      assert first + second == second;
    } else {
      assert (first + second)[1..] == first[1..] + second;
      FleetRunAppend(FleetNext(f, first[0], setup), first[1..], second, setup);
    }
  }

  /** One after the other, each gives the same share back: the rest of a covered book stays covered exactly when what
      the ledger holds besides the book is at least that share, or there is no rest. */
  lemma SecondReleaseCoversIff(f: Fleet, i: nat, j: nat, id: EventId, setup: Setup)
    requires id in Held(f.world) && BothClosing(f, i, j, id, f.world.positions[id])
    requires Sum(Held(f.world)) <= f.world.exposure
    ensures var share := f.world.positions[id].fraction;
            var w := FleetRun(f, [SweepSteps(i), SweepSteps(i)] + [SweepSteps(j), SweepSteps(j)], setup).world;
            && w == f.world.(exposure := Max(0, f.world.exposure - 2 * share))
            && (Sum(Held(w) - {id}) <= w.exposure
                <==> share <= f.world.exposure - Sum(Held(f.world)) || Sum(Held(f.world)) == share)
  {
    ReleaseInOne(f, i, setup);
    ReleaseInOne(FleetRun(f, [SweepSteps(i), SweepSteps(i)], setup), j, setup);
    FleetRunAppend(f, [SweepSteps(i), SweepSteps(i)], [SweepSteps(j), SweepSteps(j)], setup);
    SumWithout(Held(f.world), id);
    assert Held(f.world)[id] == f.world.positions[id].fraction;
  }

  /** Had both read before either wrote, the share would have been given back once. */
  lemma TogetherReleaseOnce(f: Fleet, i: nat, j: nat, id: EventId, pos: Position, setup: Setup)
    requires BothClosing(f, i, j, id, pos)
    ensures FleetRun(f, [SweepSteps(i), SweepSteps(j)] + [SweepSteps(i), SweepSteps(j)], setup).world
         == f.world.(exposure := Max(0, f.world.exposure - pos.fraction))
  {
    var read := FleetRun(f, [SweepSteps(i), SweepSteps(j)], setup);
    StepBoth(f, i, j, setup);
    StepBoth(read, i, j, setup);
    FleetRunAppend(f, [SweepSteps(i), SweepSteps(j)], [SweepSteps(i), SweepSteps(j)], setup);
  }

  lemma StepBoth(f: Fleet, i: nat, j: nat, setup: Setup)
    ensures FleetRun(f, [SweepSteps(i), SweepSteps(j)], setup)
         == FleetNext(FleetNext(f, SweepSteps(i), setup), SweepSteps(j), setup)
  {
    assert [SweepSteps(i), SweepSteps(j)][1..] == [SweepSteps(j)] && [SweepSteps(j)][1..] == [];
    var f1 := FleetNext(f, SweepSteps(i), setup);
    assert FleetRun(f1, [SweepSteps(j)], setup) == FleetNext(f1, SweepSteps(j), setup);
  }
}
