/**
 Runs that end where the guarantees do: each starts with nothing done and reaches a state in which a promise is
 broken, at one decision, one configuration and one account.
 */
module Witnesses {
  import opened Ledger
  import opened LedgerGaps
  import opened MapSum
  import opened Orders
  import opened Protocol
  import opened RiskRules
  import opened Rounding
  import opened Sizing
  import opened Stranding
  import opened Symbols
  import opened WholeHandlers
  import opened Wrappers

  const RISK := RiskConfig(0.05, 0.1, 0.1, 0.5, 70, 1.5)

  const EQUITY: real := 1000.0

  function Trader(auto: bool): TradingConfig {
    TradingConfig(Demo, true, auto, Caps(500.0, 3.0), 10, 60, 30)
  }

  function With(auto: bool): Setup {
    Setup(Trader(auto), RISK)
  }

  const BUY := Decision("BTC", Long, 1.0, 80, 100.0, false)

  const START := System(EMPTY_WORLD, Idle, Idle, Resting, [], map[])

  /** The approval the decision leads to: a tenth of the portfolio. */
  function Raised(id: EventId): Approval {
    Approval(id, "BTC", Long, 100.0, 95.0, 110.0, 1.0, 1_000)
  }

  function GrantFor(id: EventId, auto: bool): Grant {
    Grant(Raised(id), Trader(auto), EQUITY)
  }

  lemma Approves(id: EventId, exposure: int)
    requires 0 <= exposure <= 9_000
    ensures Decide(id, BUY, exposure, RISK) == Some(Raised(id))
  {
    RoundOfInteger(10_000_000_000);
    RoundOfInteger(9_500_000_000);
    RoundOfInteger(11_000_000_000);
    RoundOfInteger(1_000);
    RoundOfInteger(2_000);
  }

  lemma Sizes(id: EventId, auto: bool)
    ensures GrantFor(id, auto).Size() == 1.0 && Tradable(Raised(id).symbol)
  {
    TickersAreNormal("BTC");
    RoundOfInteger(100_000_000);
  }

  /** One approval raised and charged. */
  function One(): System {
    System(EMPTY_WORLD.(exposure := 1_000, approvals := map[0 := Raised(0)]), Idle, Idle, Resting, [Done], map[0 := 1_000])
  }

  lemma RaiseOne(setup: Setup) returns (moves: seq<Action>)
    requires setup.risk == RISK
    ensures Run(START, moves, setup) == One() && NoApprovals(moves)
  {
    Approves(0, 0);
    var first, second := [StartRisk(BUY), StepRisk(0)], [StepRisk(0), StepRisk(0)];
    RunTwo(START, StartRisk(BUY), StepRisk(0), setup);
    RunTwo(START.(risk := [Charging(0, Raised(0))]), StepRisk(0), StepRisk(0), setup);
    RunAppend(START, first, second, setup);
    moves := first + second;
  }

  /** Two approvals raised by handlers that both read before either wrote. */
  function Two(): System {
    System(EMPTY_WORLD.(exposure := 1_000, approvals := map[0 := Raised(0), 1 := Raised(1)]),
           Idle, Idle, Resting, [Done, Done], map[0 := 1_000, 1 := 1_000])
  }

  lemma BothRead(setup: Setup)
    requires setup.risk == RISK
    ensures Run(START.(risk := [Reading(BUY), Reading(BUY)]), [StepRisk(0), StepRisk(1)], setup)
         == START.(risk := [Charging(0, Raised(0)), Charging(0, Raised(1))])
  {
    Approves(0, 0);
    Approves(1, 0);
    RunTwo(START.(risk := [Reading(BUY), Reading(BUY)]), StepRisk(0), StepRisk(1), setup);
  }

  lemma BothWrite(setup: Setup)
    ensures Run(START.(risk := [Charging(0, Raised(0)), Charging(0, Raised(1))]), [StepRisk(0), StepRisk(1)], setup)
         == START.(world := EMPTY_WORLD.(exposure := 1_000), risk := [Publishing(Raised(0)), Publishing(Raised(1))],
                   outstanding := map[0 := 1_000, 1 := 1_000])
  {
    RunTwo(START.(risk := [Charging(0, Raised(0)), Charging(0, Raised(1))]), StepRisk(0), StepRisk(1), setup);
  }

  lemma BothPublish(setup: Setup)
    ensures Run(START.(world := EMPTY_WORLD.(exposure := 1_000), risk := [Publishing(Raised(0)), Publishing(Raised(1))],
                       outstanding := map[0 := 1_000, 1 := 1_000]), [StepRisk(0), StepRisk(1)], setup) == Two()
  {
    var written := START.(world := EMPTY_WORLD.(exposure := 1_000), risk := [Publishing(Raised(0)), Publishing(Raised(1))],
                          outstanding := map[0 := 1_000, 1 := 1_000]);
    RunTwo(written, StepRisk(0), StepRisk(1), setup);
  }

  lemma RaiseTwo(setup: Setup) returns (moves: seq<Action>)
    requires setup.risk == RISK
    ensures Run(START, moves, setup) == Two()
  {
    var started, both := [StartRisk(BUY), StartRisk(BUY)], [StepRisk(0), StepRisk(1)];
    RunTwo(START, StartRisk(BUY), StartRisk(BUY), setup);
    BothRead(setup);
    BothWrite(setup);
    BothPublish(setup);
    RunAppend(START, started, both, setup);
    RunAppend(START, started + both, both, setup);
    RunAppend(START, started + both + both, both, setup);
    moves := started + both + both + both;
  }

  /** A delivery left alone executes the approval. */
  lemma DeliveryExecutes(s: System, id: EventId)
    requires s.signal.Idle? && id in s.world.approvals && s.world.approvals[id] == Raised(id)
    requires id !in s.world.submitted && s.world.runtime == None && s.world.rate < 10
    ensures Run(s, [Deliver(id)] + Awaits(Signal, EQUITY, 13), With(true))
         == s.(world := ExecuteEffect(s.world.(rate := s.world.rate + 1), GrantFor(id, true)))
  {
    var setup := With(true);
    var s1 := s.(signal := CheckSubmitted(Raised(id)));
    RunCons(s, Deliver(id), Awaits(Signal, EQUITY, 13), setup);
    HandlerRuns(s1, Signal, EQUITY, 13, setup);
    Sizes(id, true);
    DeliveryFinishes(s.world, Raised(id), setup.defaults, EQUITY);
  }

  /** The first approval executed, and the second. */
  function FirstOpen(): System {
    Two().(world := ExecuteEffect(Two().world.(rate := 1), GrantFor(0, true)))
  }

  function BothOpen(): System {
    FirstOpen().(world := ExecuteEffect(FirstOpen().world.(rate := 2), GrantFor(1, true)))
  }

  lemma DeliverBoth() returns (moves: seq<Action>)
    ensures Run(Two(), moves, With(true)) == BothOpen()
  {
    var first, second := [Deliver(0)] + Awaits(Signal, EQUITY, 13), [Deliver(1)] + Awaits(Signal, EQUITY, 13);
    DeliveryExecutes(Two(), 0);
    DeliveryExecutes(FirstOpen(), 1);
    RunAppend(Two(), first, second, With(true));
    moves := first + second;
  }

  /** Two handlers that both read before either writes, then both approvals executed: the book holds twice the ledger. */
  lemma LostUpdateUncovers() returns (moves: seq<Action>)
    ensures var t := Run(START, moves, With(true));
            Initial(START) && Sum(Book(t)) == 2_000 && t.world.exposure == 1_000
  {
    var raise := RaiseTwo(With(true));
    var deliver := DeliverBoth();
    RunAppend(START, raise, deliver, With(true));
    moves := raise + deliver;
    TwoInTheBook(BothOpen());
  }

  lemma TwoInTheBook(s: System)
    requires s.world.tracked == {0, 1} && s.world.positions.Keys == {0, 1} && s.sweep.Resting?
    requires s.world.positions[0].fraction == 1_000 && s.world.positions[1].fraction == 1_000
    ensures Sum(Book(s)) == 2_000
  {
    var empty: map<EventId, Fraction> := map[];
    var one := empty[0 := 1_000];
    assert Book(s) == one[1 := 1_000];
    SumWith(empty, 0, 1_000);
    SumWith(one, 1, 1_000);
  }

  // ---------- A close cut in half ----------

  /** One position open, executed and recorded. */
  function Open(): System {
    One().(world := ExecuteEffect(One().world.(rate := 1), GrantFor(0, true)))
  }

  lemma ReachOpen() returns (moves: seq<Action>)
    ensures Run(START, moves, With(true)) == Open()
  {
    var raise := RaiseOne(With(true));
    DeliveryExecutes(One(), 0);
    RunAppend(START, raise, [Deliver(0)] + Awaits(Signal, EQUITY, 13), With(true));
    moves := raise + ([Deliver(0)] + Awaits(Signal, EQUITY, 13));
  }

  /** What is left of it: tracked and recorded, with nothing charged. */
  function Aborted(): System {
    Open().(world := Open().world.(exposure := 0), outstanding := map[])
  }

  /** Given back, not yet untracked. */
  function Closing(): System {
    Aborted().(sweep := Untracking({}, [0], Open().world.positions[0]))
  }

  lemma CloseStarts() returns (moves: seq<Action>)
    ensures Run(Open(), moves, With(true)) == Closing()
  {
    var snapshot := [StartSweep({}), ListTracked([0])];
    SnapshotTaken(Open(), {}, [0], With(true));
    CloseGoesOn(Open().(sweep := Examining({}, [0])));
    RunAppend(Open(), snapshot, Sweeps(3), With(true));
    moves := snapshot + Sweeps(3);
  }

  lemma CloseGoesOn(s: System)
    requires s == Open().(sweep := Examining({}, [0]))
    ensures Run(s, Sweeps(3), With(true)) == Closing()
  {
    var t := CloseReleases(s, 3, With(true));
    assert Sweeps(0) == [];
  }

  lemma CloseAborted() returns (moves: seq<Action>)
    ensures Run(Open(), moves, With(true)) == Aborted()
  {
    var start := CloseStarts();
    RunOne(Closing(), AbortSweep, With(true));
    RunAppend(Open(), start, [AbortSweep], With(true));
    moves := start + [AbortSweep];
  }

  /** The pair is no longer open, the sweep gives the share back and dies: the position is in the book, the ledger empty. */
  lemma AbortedCloseUncoversTheBook() returns (moves: seq<Action>)
    ensures var t := Run(START, moves, With(true));
            Initial(START) && Sum(Book(t)) == 1_000 && t.world.exposure == 0
  {
    var reach := ReachOpen();
    var close := CloseAborted();
    RunAppend(START, reach, close, With(true));
    moves := reach + close;
    OneInTheBook(Aborted());
  }

  lemma OneInTheBook(s: System)
    requires s.world.tracked == {0} && 0 in s.world.positions && s.world.positions[0].fraction == 1_000 && s.sweep.Resting?
    ensures Sum(Book(s)) == 1_000
  {
    var empty: map<EventId, Fraction> := map[];
    assert Book(s) == empty[0 := 1_000];
    SumWith(empty, 0, 1_000);
  }

  // ---------- A stale release ----------

  /** The first position found closed, its exposure read and not yet given back. */
  function AboutToRelease(): System {
    Open().(sweep := Releasing({}, [0], Open().world.positions[0], 1_000))
  }

  lemma SweepReads() returns (moves: seq<Action>)
    ensures Run(Open(), moves, With(true)) == AboutToRelease()
  {
    var snapshot := [StartSweep({}), ListTracked([0])];
    SnapshotTaken(Open(), {}, [0], With(true));
    SweepReadsOn(Open().(sweep := Examining({}, [0])));
    RunAppend(Open(), snapshot, [StepSweep, StepSweep], With(true));
    moves := snapshot + [StepSweep, StepSweep];
  }

  lemma SweepReadsOn(s: System)
    requires s == Open().(sweep := Examining({}, [0]))
    ensures Run(s, [StepSweep, StepSweep], With(true)) == AboutToRelease()
  {
    RunTwo(s, StepSweep, StepSweep, With(true));
  }

  /** Meanwhile a second approval is charged. */
  function SecondCharged(): System {
    var s := AboutToRelease();
    s.(world := s.world.(exposure := 2_000, approvals := map[0 := Raised(0), 1 := Raised(1)]),
       risk := [Done, Done], outstanding := map[0 := 1_000, 1 := 1_000])
  }

  lemma ChargeSecond() returns (moves: seq<Action>)
    ensures Run(AboutToRelease(), moves, With(true)) == SecondCharged()
  {
    var s := AboutToRelease();
    var read := s.(risk := [Done, Charging(1_000, Raised(1))]);
    var first, second := [StartRisk(BUY), StepRisk(1)], [StepRisk(1), StepRisk(1)];
    SecondReads(s, read);
    SecondWrites(read);
    RunAppend(s, first, second, With(true));
    moves := first + second;
  }

  lemma SecondReads(s: System, t: System)
    requires s.risk == [Done] && s.world.exposure == 1_000 && t == s.(risk := [Done, Charging(1_000, Raised(1))])
    ensures Run(s, [StartRisk(BUY), StepRisk(1)], With(true)) == t
  {
    Approves(1, 1_000);
    RunTwo(s, StartRisk(BUY), StepRisk(1), With(true));
  }

  lemma SecondWrites(s: System)
    requires s.risk == [Done, Charging(1_000, Raised(1))]
    ensures Run(s, [StepRisk(1), StepRisk(1)], With(true))
         == s.(world := s.world.(exposure := 2_000, approvals := s.world.approvals[1 := Raised(1)]),
               risk := [Done, Done], outstanding := s.outstanding[1 := 1_000])
  {
    RunTwo(s, StepRisk(1), StepRisk(1), With(true));
  }

  /** And executed, before the release is written. */
  function SecondOpen(): System {
    var s := SecondCharged();
    s.(world := ExecuteEffect(s.world.(rate := 2), GrantFor(1, true)))
  }

  lemma ExecuteSecond()
    ensures Run(SecondCharged(), [Deliver(1)] + Awaits(Signal, EQUITY, 13), With(true)) == SecondOpen()
  {
    DeliveryExecutes(SecondCharged(), 1);
  }

  /** A sweep reads the exposure, a second position is charged and opened, and the sweep writes what it read less its
      own position's share: the second position stands in the book over an empty ledger. */
  lemma StaleReleaseUncovers() returns (moves: seq<Action>)
    ensures var t := Run(START, moves, With(true));
            Initial(START) && Sum(Book(t)) == 1_000 && t.world.exposure == 0
  {
    var reach := ReachSecondOpen();
    StaleRelease(SecondOpen());
    RunAppend(START, reach, [StepSweep], With(true));
    moves := reach + [StepSweep];
  }

  lemma StaleRelease(s: System)
    requires s == SecondOpen()
    ensures var t := Run(s, [StepSweep], With(true)); Sum(Book(t)) == 1_000 && t.world.exposure == 0
  {
    RunOne(s, StepSweep, With(true));
    OnlySecondIsLeft(s);
    SecondInTheBook(ReconcilerStep(s));
  }

  lemma OnlySecondIsLeft(s: System)
    requires s == SecondOpen()
    ensures s.sweep == Releasing({}, [0], Open().world.positions[0], 1_000)
    ensures s.world.tracked == {0, 1} && s.world.positions.Keys == {0, 1} && s.world.positions[1].fraction == 1_000
    ensures Open().world.positions[0].fraction == 1_000
  {
  }

  lemma ReachSecondOpen() returns (moves: seq<Action>)
    ensures Run(START, moves, With(true)) == SecondOpen()
  {
    var open := ReachOpen();
    var read := SweepReads();
    var charge := ChargeSecond();
    var deliver := [Deliver(1)] + Awaits(Signal, EQUITY, 13);
    ExecuteSecond();
    RunAppend(START, open, read, With(true));
    RunAppend(START, open + read, charge, With(true));
    RunAppend(START, open + read + charge, deliver, With(true));
    moves := open + read + charge + deliver;
  }

  lemma SecondInTheBook(s: System)
    requires s.sweep.Untracking? && s.sweep.todo == [0]
    requires s.world.tracked == {0, 1} && s.world.positions.Keys == {0, 1} && s.world.positions[1].fraction == 1_000
    ensures Sum(Book(s)) == 1_000
  {
    var empty: map<EventId, Fraction> := map[];
    assert Book(s) == empty[1 := 1_000];
    SumWith(empty, 1, 1_000);
  }

  // ---------- An execution cut short ----------

  lemma {:induction false} AwaitsSnoc(slot: Slot, equity: real, n: nat)
    ensures Awaits(slot, equity, n + 1) == Awaits(slot, equity, n) + [Step(slot, equity)]
  {
    if n > 0 {
      AwaitsSnoc(slot, equity, n - 1);
    }
  }

  lemma OneMoreAwait(s: System, before: seq<Action>, t: System, slot: Slot, n: nat, setup: Setup)
    requires Run(s, before + Awaits(slot, EQUITY, n), setup) == t
    ensures Run(s, before + Awaits(slot, EQUITY, n + 1), setup) == Next(t, Step(slot, EQUITY), setup)
  {
    AwaitsSnoc(slot, EQUITY, n);
    assert before + Awaits(slot, EQUITY, n + 1) == before + Awaits(slot, EQUITY, n) + [Step(slot, EQUITY)];
    RunAppend(s, before + Awaits(slot, EQUITY, n), [Step(slot, EQUITY)], setup);
    RunOne(t, Step(slot, EQUITY), setup);
  }

  /** The world after the first k awaits of the execution. */
  function Partly(k: nat): World {
    if k == 0 then One().world.(rate := 1) else ExecuteAwait(Partly(k - 1), GrantFor(0, true), k - 1)
  }

  lemma ReachGuard()
    ensures Run(One(), [Deliver(0)] + Awaits(Signal, EQUITY, 2), With(true))
         == One().(signal := Guard(Raised(0), Trader(true), false))
  {
    var s := One();
    RunOne(s, Deliver(0), With(true));
    assert [Deliver(0)] + Awaits(Signal, EQUITY, 0) == [Deliver(0)];
    OneMoreAwait(s, [Deliver(0)], s.(signal := CheckSubmitted(Raised(0))), Signal, 0, With(true));
    OneMoreAwait(s, [Deliver(0)], s.(signal := LoadConfig(Raised(0), false)), Signal, 1, With(true));
  }

  lemma ReachExecution()
    ensures Run(One(), [Deliver(0)] + Awaits(Signal, EQUITY, 4), With(true))
         == One().(world := Partly(0), signal := Executing(GrantFor(0, true), 0))
  {
    var s, ev, config := One(), Raised(0), Trader(true);
    ReachGuard();
    Sizes(0, true);
    OneMoreAwait(s, [Deliver(0)], s.(signal := Guard(ev, config, false)), Signal, 2, With(true));
    OneMoreAwait(s, [Deliver(0)], s.(world := Partly(0), signal := ReadEquity(ev, config, false)), Signal, 3, With(true));
  }

  lemma {:induction false} ReachAwait(k: nat)
    requires k <= 7
    ensures Run(One(), [Deliver(0)] + Awaits(Signal, EQUITY, 4 + k), With(true))
         == One().(world := Partly(k), signal := Executing(GrantFor(0, true), k))
    decreases k
  {
    if k == 0 {
      ReachExecution();
    } else {
      ReachAwait(k - 1);
      var s := One().(world := Partly(k - 1), signal := Executing(GrantFor(0, true), k - 1));
      OneMoreAwait(One(), [Deliver(0)], s, Signal, 3 + k, With(true));
      StepExecutes(s, Signal, EQUITY, With(true));
    }
  }

  lemma PartlyDone(k: nat)
    requires 1 <= k <= 6
    ensures Partly(k).submitted == {0} && Partly(k).approvals == map[0 := Raised(0)] && Partly(k).positions == map[]
    decreases k
  {
    if k > 1 {
      PartlyDone(k - 1);
    }
  }

  /** Suspended after the first k awaits of the execution. */
  function Suspended(k: nat): System {
    One().(world := Partly(k), signal := Executing(GrantFor(0, true), k))
  }

  lemma ReachSuspended(k: nat) returns (moves: seq<Action>)
    requires k <= 7
    ensures Run(START, moves, With(true)) == Suspended(k)
  {
    var raise := RaiseOne(With(true));
    var partly := [Deliver(0)] + Awaits(Signal, EQUITY, 4 + k);
    ReachAwait(k);
    RunAppend(START, raise, partly, With(true));
    moves := raise + partly;
  }

  /** A crash after any of the first six awaits of an execution leaves its share charged with nothing to release it. */
  lemma CrashStrandsShare(k: nat) returns (moves: seq<Action>)
    requires 1 <= k <= 6
    ensures var t := Run(START, moves, With(true)); Initial(START) && Stranded(t, 0)
  {
    var reach := ReachSuspended(k);
    CrashedIsStranded(k);
    RunOne(Suspended(k), Crash(Signal), With(true));
    RunAppend(START, reach, [Crash(Signal)], With(true));
    moves := reach + [Crash(Signal)];
  }

  lemma CrashedIsStranded(k: nat)
    requires 1 <= k <= 6
    ensures var t := Next(Suspended(k), Crash(Signal), With(true)); Stranded(t, 0)
  {
    PartlyDone(k);
  }

  /** So does a whole sweep between the tracked set and the record, although the record is then written. */
  lemma SweepStrandsShare() returns (moves: seq<Action>)
    ensures var t := Run(START, moves, With(true));
            Initial(START) && Stranded(t, 0) && 0 in t.world.positions
  {
    var reach := ReachSuspended(6);
    var sweep := SweepPasses();
    var swept := Suspended(6).(world := Partly(6).(tracked := {}));
    RunOne(swept, Step(Signal, EQUITY), With(true));
    StepExecutes(swept, Signal, EQUITY, With(true));
    RunAppend(START, reach, sweep, With(true));
    RunAppend(START, reach + sweep, [Step(Signal, EQUITY)], With(true));
    PartlyDone(6);
    moves := reach + sweep + [Step(Signal, EQUITY)];
  }

  lemma SweepPasses() returns (moves: seq<Action>)
    ensures Run(Suspended(6), moves, With(true)) == Suspended(6).(world := Partly(6).(tracked := {}))
  {
    var snapshot := [StartSweep({}), ListTracked([0])];
    PartlyTracked();
    SnapshotTaken(Suspended(6), {}, [0], With(true));
    SweepForgets();
    RunAppend(Suspended(6), snapshot, Sweeps(3), With(true));
    moves := snapshot + Sweeps(3);
  }

  lemma SweepForgets()
    ensures Run(Suspended(6).(sweep := Examining({}, [0])), Sweeps(3), With(true))
         == Suspended(6).(world := Partly(6).(tracked := {}))
  {
    var s := Suspended(6).(sweep := Examining({}, [0]));
    PartlyTracked();
    PartlyDone(6);
    SweepsStep(s, 3, With(true));
    SweepsStep(s.(sweep := Forgetting({}, [0])), 2, With(true));
    SweepsStep(s.(world := Partly(6).(tracked := {}), sweep := Examining({}, [])), 1, With(true));
    assert Sweeps(0) == [];
  }

  lemma PartlyTracked()
    ensures Partly(6).tracked == {0}
  {
    assert Partly(5).tracked == {} by {
      assert Partly(1).tracked == {};
      assert Partly(2).tracked == {};
      assert Partly(3).tracked == {};
      assert Partly(4).tracked == {};
    }
  }

  // ---------- A charge that nothing will use ----------

  /** A risk handler charges its share and dies before it publishes the approval: nothing will ever give the share back. */
  lemma DroppedPublicationStrands() returns (moves: seq<Action>)
    ensures var t := Run(START, moves, With(true));
            Initial(START) && Stranded(t, 0) && t.world.exposure == 1_000 && t.world.approvals == map[]
  {
    var first, second := [StartRisk(BUY), StepRisk(0)], [StepRisk(0), DropRisk(0)];
    Approves(0, 0);
    RunTwo(START, StartRisk(BUY), StepRisk(0), With(true));
    RunTwo(START.(risk := [Charging(0, Raised(0))]), StepRisk(0), DropRisk(0), With(true));
    RunAppend(START, first, second, With(true));
    moves := first + second;
  }

  const UNLISTED := "PEPE"

  lemma UnlistedIsNotTradable()
    ensures !Tradable(UNLISTED)
  {
    LettersAreUpper(UNLISTED);
    BareIsWhole(UNLISTED);
  }

  lemma ApprovesUnlisted()
    ensures Decide(0, BUY.(symbol := UNLISTED), 0, RISK) == Some(Raised(0).(symbol := UNLISTED))
  {
    Approves(0, 0);
  }

  /** So does a whole risk handler on a symbol the trading engine does not list: it is approved, charged and published. */
  lemma UnlistedStrands() returns (moves: seq<Action>)
    ensures var t := Run(START, moves, With(true));
            Initial(START) && Stranded(t, 0) && t.world.exposure == 1_000 && 0 in t.world.approvals
  {
    var d, ev := BUY.(symbol := UNLISTED), Raised(0).(symbol := UNLISTED);
    var first, second := [StartRisk(d), StepRisk(0)], [StepRisk(0), StepRisk(0)];
    ApprovesUnlisted();
    RunTwo(START, StartRisk(d), StepRisk(0), With(true));
    UnlistedPublished(START.(risk := [Charging(0, ev)]), ev);
    RunAppend(START, first, second, With(true));
    moves := first + second;
  }

  lemma UnlistedPublished(s: System, ev: Approval)
    requires ev == Raised(0).(symbol := UNLISTED) && s == START.(risk := [Charging(0, ev)])
    ensures var t := Run(s, [StepRisk(0), StepRisk(0)], With(true));
            Stranded(t, 0) && t.world.exposure == 1_000 && 0 in t.world.approvals
  {
    UnlistedIsNotTradable();
    RunTwo(s, StepRisk(0), StepRisk(0), With(true));
  }

  // ---------- Approving twice ----------

  /** Queued for the operator, auto-trading being off. */
  function Queued(): System {
    One().(world := One().world.(rate := 1, pending := map[0 := Raised(0)], pendingSet := {0}, executions := [Pending(0, "BTC")]))
  }

  lemma QueueFinishes()
    ensures Finish(One().world, CheckSubmitted(Raised(0)), Trader(false), EQUITY) == Queued().world
  {
    var ev, config := Raised(0), Trader(false);
    var w := One().world;
    var w1 := w.(rate := 1);
    var w2 := w1.(pending := map[0 := ev]);
    var w3 := w2.(pendingSet := {0});
    Sizes(0, false);
    FinishStep(w, CheckSubmitted(ev), config, EQUITY);
    FinishStep(w, LoadConfig(ev, false), config, EQUITY);
    FinishStep(w, Guard(ev, config, false), config, EQUITY);
    FinishStep(w1, ReadEquity(ev, config, false), config, EQUITY);
    FinishStep(w1, StorePending(ev), config, EQUITY);
    FinishStep(w2, ListPending(ev), config, EQUITY);
    FinishStep(w3, AnnouncePending(ev), config, EQUITY);
  }

  lemma ReachQueued() returns (moves: seq<Action>)
    ensures Run(START, moves, With(false)) == Queued()
  {
    var raise := RaiseOne(With(false));
    var deliver := [Deliver(0)] + Awaits(Signal, EQUITY, 13);
    QueueFinishes();
    RunCons(One(), Deliver(0), Awaits(Signal, EQUITY, 13), With(false));
    HandlerRuns(One().(signal := CheckSubmitted(Raised(0))), Signal, EQUITY, 13, With(false));
    RunAppend(START, raise, deliver, With(false));
    moves := raise + deliver;
  }

  lemma ApprovalExecuted(s: System)
    requires s.command.Idle? && 0 in s.world.pending && s.world.pending[0] == Raised(0)
    requires s.world.runtime == None && s.world.rate < 10
    ensures Run(s, [Approve(0)] + Awaits(Command, EQUITY, 14), With(false))
         == s.(world := ExecuteEffect(s.world.(pendingSet := s.world.pendingSet - {0}, rate := s.world.rate + 1), GrantFor(0, false)))
  {
    ApprovalFinishes(s.world);
    ApprovalRunsThrough(s, Finish(s.world, LoadPending(0, None), Trader(false), EQUITY));
  }

  lemma ApprovalRunsThrough(s: System, w: World)
    requires s.command.Idle? && w == Finish(s.world, LoadPending(0, None), Trader(false), EQUITY)
    ensures Run(s, [Approve(0)] + Awaits(Command, EQUITY, 14), With(false)) == s.(world := w)
  {
    RunCons(s, Approve(0), Awaits(Command, EQUITY, 14), With(false));
    HandlerRuns(s.(command := LoadPending(0, None)), Command, EQUITY, 14, With(false));
    CommandReturns(s, LoadPending(0, None), w);
  }

  lemma CommandReturns(s: System, t: Task, w: World)
    requires s.command.Idle?
    ensures WithTask(s.(command := t), Command, w, Idle) == s.(world := w)
  {
  }

  lemma ApprovalFinishes(w: World)
    requires 0 in w.pending && w.pending[0] == Raised(0) && w.runtime == None && w.rate < 10
    ensures Finish(w, LoadPending(0, None), Trader(false), EQUITY)
         == ExecuteEffect(w.(pendingSet := w.pendingSet - {0}, rate := w.rate + 1), GrantFor(0, false))
  {
    Sizes(0, false);
    ApprovalExecutes(w, 0, Trader(false), EQUITY);
  }

  /** After n approvals of it. */
  function ApprovedTimes(n: nat): System
    ensures 0 in ApprovedTimes(n).world.pending && ApprovedTimes(n).world.pending[0] == Raised(0)
    ensures ApprovedTimes(n).world.rate == n + 1 && ApprovedTimes(n).world.runtime == None && ApprovedTimes(n).command.Idle?
  {
    if n == 0 then Queued()
    else
      var s := ApprovedTimes(n - 1);
      s.(world := ExecuteEffect(s.world.(pendingSet := s.world.pendingSet - {0}, rate := s.world.rate + 1), GrantFor(0, false)))
  }

  lemma {:induction false} ReachApproved(n: nat) returns (moves: seq<Action>)
    requires n <= 9
    ensures Run(START, moves, With(false)) == ApprovedTimes(n)
    decreases n
  {
    if n == 0 {
      moves := ReachQueued();
    } else {
      var before := ReachApproved(n - 1);
      var approve := [Approve(0)] + Awaits(Command, EQUITY, 14);
      ApprovalExecuted(ApprovedTimes(n - 1));
      RunAppend(START, before, approve, With(false));
      moves := before + approve;
    }
  }

  /** The operator approves the same opportunity twice: two whole brackets are sent for it. */
  lemma SecondApprovalReached() returns (moves: seq<Action>)
    ensures var t := Run(START, moves, With(false));
            && Initial(START) && |SentFor(t.world.orders, 0)| == 6 && !PartOfOneBracket(SentFor(t.world.orders, 0))
  {
    moves := ReachApproved(2);
    TwiceApproved();
    TwoBrackets(GrantFor(0, false));
  }

  lemma TwiceApproved()
    ensures ApprovedTimes(2).world.orders == BracketOf(GrantFor(0, false)) + BracketOf(GrantFor(0, false))
  {
    assert ApprovedTimes(0).world.orders == [];
    assert ApprovedTimes(1).world.orders == [] + BracketOf(GrantFor(0, false));
  }

  lemma TwoBrackets(g: Grant)
    ensures SentFor(BracketOf(g) + BracketOf(g), g.ev.id) == BracketOf(g) + BracketOf(g)
    ensures !PartOfOneBracket(BracketOf(g) + BracketOf(g))
  {
    SentForBracket([], g);
    SentForBracket(BracketOf(g), g);
    assert [] + BracketOf(g) == BracketOf(g);
  }
}
