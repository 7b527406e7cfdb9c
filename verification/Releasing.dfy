/** Runs that give a charged share back: one exists exactly when the share is not stranded. */
module Releasing {
  import opened Ledger
  import opened Protocol
  import opened Rounding
  import opened RiskRules
  import opened Sizing
  import opened Stranding
  import opened Symbols
  import opened WholeHandlers

  // ---------- A submitted event ----------

  /** Every finite set can be listed from any of its members on. */
  lemma {:induction false} ListFrom(members: set<EventId>, first: EventId) returns (order: seq<EventId>)
    requires first in members
    ensures Enumerates(order, members) && order[0] == first
    decreases |members|
  {
    var others := members - {first};
    if others == {} {
      order := [first];
      assert members == {first};
    } else {
      var next :| next in others;
      var rest := ListFrom(others, next);
      order := [first] + rest;
      assert members == others + {first};
    }
  }

  /** From a resting reconciler: snapshot with no open pair, this id first, and three awaits later it is released. */
  lemma RestingSweepReleases(s: System, id: EventId, setup: Setup) returns (moves: seq<Action>)
    requires Balanced(s) && s.sweep.Resting? && id in s.world.tracked && id in s.world.positions
    ensures CleanRun(s, moves, setup) && id !in Run(s, moves, setup).outstanding
  {
    var order := ListFrom(s.world.tracked, id);
    var start := [StartSweep({}), ListTracked(order)];
    SnapshotTaken(s, {}, order, setup);
    ThreeSweepsRelease(s.(sweep := Examining({}, order)), id, setup);
    moves := start + Sweeps(3);
    CleanAppend(s, start, Sweeps(3), setup);
    RunAppend(s, start, Sweeps(3), setup);
  }

  lemma ThreeSweepsRelease(s: System, id: EventId, setup: Setup)
    requires s.sweep.Examining? && s.sweep.todo != [] && s.sweep.todo[0] == id && s.sweep.open == {} && id in s.world.positions
    ensures CleanRun(s, Sweeps(3), setup) && id !in Run(s, Sweeps(3), setup).outstanding
  {
    var t := CloseReleases(s, 3, setup);
    assert Sweeps(0) == [];
  }

  /** At rest, and nothing about this id has changed. */
  predicate Rested(s: System, t: System, id: EventId) {
    && t.sweep.Resting? && t.world.positions == s.world.positions && t.outstanding == s.outstanding
    && (id in t.world.tracked <==> id in s.world.tracked)
  }

  lemma UntrackThenAbort(s: System, id: EventId, setup: Setup)
    requires s.sweep.Untracking? && s.sweep.todo != [] && s.sweep.todo[0] != id
    ensures CleanRun(s, [StepSweep, AbortSweep], setup) && Rested(s, Run(s, [StepSweep, AbortSweep], setup), id)
  {
    RunTwo(s, StepSweep, AbortSweep, setup);
  }

  lemma AbortAtOnce(s: System, id: EventId, setup: Setup)
    requires !s.sweep.Untracking?
    ensures CleanRun(s, [AbortSweep], setup) && Rested(s, Run(s, [AbortSweep], setup), id)
  {
    RunOne(s, AbortSweep, setup);
  }

  /** Brings the reconciler to rest without touching this id: an abort, after the pending untracking of another. */
  lemma BringToRest(s: System, id: EventId, setup: Setup) returns (moves: seq<Action>)
    requires Balanced(s) && id in s.outstanding
    ensures CleanRun(s, moves, setup) && Rested(s, Run(s, moves, setup), id) && Balanced(Run(s, moves, setup))
  {
    if s.sweep.Untracking? {
      moves := [StepSweep, AbortSweep];
      UntrackThenAbort(s, id, setup);
    } else {
      moves := [AbortSweep];
      AbortAtOnce(s, id, setup);
    }
    CleanRunsStayBalanced(s, moves, setup);
  }

  lemma RecordedIsReleased(s: System, id: EventId, setup: Setup) returns (moves: seq<Action>)
    requires Balanced(s) && id in s.outstanding && id in s.world.tracked && id in s.world.positions
    ensures CleanRun(s, moves, setup) && id !in Run(s, moves, setup).outstanding
  {
    var first := BringToRest(s, id, setup);
    var second := RestingSweepReleases(Run(s, first, setup), id, setup);
    moves := first + second;
    CleanAppend(s, first, second, setup);
    RunAppend(s, first, second, setup);
  }

  /** An execution that may still write its record does so, left alone, with the event tracked by then. */
  lemma {:induction false} ExecutionRecords(s: System, slot: Slot, id: EventId, setup: Setup) returns (moves: seq<Action>)
    requires Balanced(s) && id in s.outstanding && WillRecord(TaskIn(s, slot), id, id in s.world.tracked)
    ensures CleanRun(s, moves, setup)
    ensures var t := Run(s, moves, setup);
            Balanced(t) && id in t.outstanding && id in t.world.tracked && id in t.world.positions
    decreases 7 - TaskIn(s, slot).done
  {
    var a := Step(slot, 0.0);
    var t := Executed(s, slot);
    StepExecutes(s, slot, 0.0, setup);
    RecordingStep(s, slot, id, setup);
    if TaskIn(s, slot).done == 6 {
      moves := [a];
      RunOne(s, a, setup);
    } else {
      var rest := ExecutionRecords(t, slot, id, setup);
      moves := [a] + rest;
      RunCons(s, a, rest, setup);
    }
  }

  lemma RecordingStep(s: System, slot: Slot, id: EventId, setup: Setup)
    requires Balanced(s) && id in s.outstanding && WillRecord(TaskIn(s, slot), id, id in s.world.tracked)
    ensures var t := Executed(s, slot);
            && Balanced(t) && id in t.outstanding
            && (if TaskIn(s, slot).done == 6 then id in t.world.tracked && id in t.world.positions
                else WillRecord(TaskIn(t, slot), id, id in t.world.tracked) && TaskIn(t, slot).done == TaskIn(s, slot).done + 1)
  {
    TaskKeepsBalanced(s, slot, 0.0, setup);
    StepExecutes(s, slot, 0.0, setup);
    RecordingProgress(s, slot, id);
  }

  lemma RecordingProgress(s: System, slot: Slot, id: EventId)
    requires WillRecord(TaskIn(s, slot), id, id in s.world.tracked)
    ensures var t := Executed(s, slot);
            && t.outstanding == s.outstanding
            && (if TaskIn(s, slot).done == 6 then id in t.world.tracked && id in t.world.positions
                else WillRecord(TaskIn(t, slot), id, id in t.world.tracked) && TaskIn(t, slot).done == TaskIn(s, slot).done + 1)
  {
  }

  lemma ReleasableIsReleased(s: System, id: EventId, setup: Setup) returns (moves: seq<Action>)
    requires Balanced(s) && id in s.outstanding && Releasable(s, id)
    ensures CleanRun(s, moves, setup) && id !in Run(s, moves, setup).outstanding
  {
    if id in s.world.tracked && id in s.world.positions {
      moves := RecordedIsReleased(s, id, setup);
    } else {
      var slot := if WillRecord(s.signal, id, id in s.world.tracked) then Signal else Command;
      var first := ExecutionRecords(s, slot, id, setup);
      var second := RecordedIsReleased(Run(s, first, setup), id, setup);
      moves := first + second;
      CleanAppend(s, first, second, setup);
      RunAppend(s, first, second, setup);
    }
  }

  // ---------- An event not submitted ----------

  /** A configuration and an account under which an executable approval buys exactly one contract. */
  function Willing(ev: Approval): TradingConfig {
    TradingConfig(Demo, true, true, Caps(ev.entry, 1.0), 1, 60, 30)
  }

  function Account(ev: Approval): real {
    Times(ev.entry, FULL)
  }

  lemma BuysOne(ev: Approval)
    requires 0 < ev.fraction && 0.0 < ev.entry
    ensures Grant(ev, Willing(ev), Account(ev)).Size() == 1.0
  {
    ShareBuysOne(ev.entry, ev.fraction);
    DivSelf(ev.entry);
    RoundOfInteger(100_000_000);
  }

  lemma ShareBuysOne(entry: real, fraction: Fraction)
    requires 0 < fraction && 0.0 < entry
    ensures Notional(Times(entry, FULL), fraction, Caps(entry, 1.0)) == entry
  {
    DivMul(fraction as real, FULL as real);
    ShareOfAccount(entry, fraction as real, Per(fraction, FULL), FULL as real);
  }

  lemma ShareOfAccount(entry: real, fraction: real, share: real, full: real)
    requires 0.0 < entry && 1.0 <= fraction && share * full == fraction && 1.0 <= full
    ensures entry <= (entry * full) * share && entry <= (entry * full) * 1.0
  {
    assert (entry * full) * share == entry * (share * full);
    MulMonotone(entry, 1.0, fraction);
    MulMonotone(entry, 1.0, full);
  }

  lemma DivSelf(x: real)
    requires x > 0.0
    ensures x / x == 1.0
  {
  }

  /** Executable says what it means: some configuration and account size the approval, on a listed symbol. */
  lemma ExecutableIff(ev: Approval)
    ensures Executable(ev) <==> Tradable(ev.symbol) && exists config, equity :: Grant(ev, config, equity).Size() > 0.0
  {
    if Tradable(ev.symbol) {
      forall config, equity | Grant(ev, config, equity).Size() > 0.0 ensures Executable(ev) {
        SizeIsExecutable(Grant(ev, config, equity));
      }
      if Executable(ev) {
        BuysOne(ev);
      }
    }
  }

  /** The operator's settings that let it through, with the signal handler free. */
  lemma MakeWilling(s: System, ev: Approval, setup: Setup) returns (moves: seq<Action>)
    ensures CleanRun(s, moves, setup)
    ensures var t := Run(s, moves, setup);
            && t == s.(signal := Idle, world := s.world.(runtime := t.world.runtime, rate := 0))
            && Load(t.world.runtime, setup.defaults) == Willing(ev)
  {
    moves := [Crash(Signal), Configure(DefaultsRecord(Willing(ev)))] + [RateWindowEnds];
    var t := Run(s, [Crash(Signal), Configure(DefaultsRecord(Willing(ev)))], setup);
    RunTwo(s, Crash(Signal), Configure(DefaultsRecord(Willing(ev))), setup);
    RunOne(t, RateWindowEnds, setup);
    RunAppend(s, [Crash(Signal), Configure(DefaultsRecord(Willing(ev)))], [RateWindowEnds], setup);
    CleanAppend(s, [Crash(Signal), Configure(DefaultsRecord(Willing(ev)))], [RateWindowEnds], setup);
  }

  lemma DeliveryRecords(s: System, id: EventId, setup: Setup)
    requires s.signal.Idle? && id in s.world.approvals && s.world.approvals[id].id == id && id !in s.world.submitted
    requires var ev := s.world.approvals[id];
             Executable(ev) && Load(s.world.runtime, setup.defaults) == Willing(ev) && s.world.rate == 0
    ensures var moves := [Deliver(id)] + Awaits(Signal, Account(s.world.approvals[id]), 13);
            var t := Run(s, moves, setup);
            && CleanRun(s, moves, setup)
            && t.outstanding == s.outstanding && id in t.world.tracked && id in t.world.positions
  {
    var ev := s.world.approvals[id];
    var s1, n := s.(signal := CheckSubmitted(ev)), Awaits(Signal, Account(ev), 13);
    BuysOne(ev);
    RunCons(s, Deliver(id), n, setup);
    HandlerRuns(s1, Signal, Account(ev), 13, setup);
    HandlerIsClean(s1, Signal, Account(ev), 13, setup);
    DeliveryFinishes(s.world, ev, setup.defaults, Account(ev));
  }

  lemma PublishedIsReleased(s: System, id: EventId, setup: Setup) returns (moves: seq<Action>)
    requires Balanced(s) && id in s.world.approvals && id !in s.world.submitted && Executable(s.world.approvals[id])
    ensures CleanRun(s, moves, setup) && id !in Run(s, moves, setup).outstanding
  {
    var ev := s.world.approvals[id];
    var first := MakeWilling(s, ev, setup);
    var s1 := Run(s, first, setup);
    var second := [Deliver(id)] + Awaits(Signal, Account(ev), 13);
    DeliveryRecords(s1, id, setup);
    RunAppend(s, first, second, setup);
    CleanAppend(s, first, second, setup);
    CleanRunsStayBalanced(s, first + second, setup);
    var third := RecordedIsReleased(Run(s, first + second, setup), id, setup);
    moves := first + second + third;
    RunAppend(s, first + second, third, setup);
    CleanAppend(s, first + second, third, setup);
  }

  lemma AwaitedIsReleased(s: System, id: EventId, setup: Setup) returns (moves: seq<Action>)
    requires Balanced(s) && id !in s.world.submitted && Awaited(s, id)
    ensures CleanRun(s, moves, setup) && id !in Run(s, moves, setup).outstanding
  {
    if id in s.world.approvals {
      moves := PublishedIsReleased(s, id, setup);
    } else {
      RunOne(s, StepRisk(id), setup);
      CleanRunsStayBalanced(s, [StepRisk(id)], setup);
      var rest := PublishedIsReleased(Next(s, StepRisk(id), setup), id, setup);
      moves := [StepRisk(id)] + rest;
      RunCons(s, StepRisk(id), rest, setup);
    }
  }

  // ---------- Any charged share ----------

  /** Exactly: some clean run gives a charged share back if and only if it is not stranded. */
  lemma ReleasedIff(s: System, id: EventId, setup: Setup)
    requires Balanced(s) && Checked(s) && id in s.outstanding
    ensures (exists moves :: CleanRun(s, moves, setup) && id !in Run(s, moves, setup).outstanding) <==> !Stranded(s, id)
  {
    if Stranded(s, id) {
      forall moves | CleanRun(s, moves, setup) ensures id in Run(s, moves, setup).outstanding {
        StrandedStaysCharged(s, moves, id, setup);
      }
    } else if id in s.world.submitted {
      var moves := ReleasableIsReleased(s, id, setup);
    } else {
      var moves := AwaitedIsReleased(s, id, setup);
    }
  }

  /** After any clean run from the start: a share is charged for good, whatever clean run follows, if and only if one of
      the four stranding moves was made for it. */
  lemma LostForGoodIff(start: System, actions: seq<Action>, id: EventId, setup: Setup)
    requires Initial(start) && CleanRun(start, actions, setup)
    ensures var t := Run(start, actions, setup);
            (id in t.outstanding && forall moves :: CleanRun(t, moves, setup) ==> id in Run(t, moves, setup).outstanding)
            <==> StrandedOnTheWay(start, actions, id, setup)
  {
    InitiallyBalanced(start);
    CleanRunsStayBalanced(start, actions, setup);
    RunKeepsChecked(start, actions, setup);
    RunStrandsIff(start, actions, id, setup);
    if id in Run(start, actions, setup).outstanding {
      ReleasedIff(Run(start, actions, setup), id, setup);
    }
  }
}
