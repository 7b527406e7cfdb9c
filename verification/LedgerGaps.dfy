/**
 Where the protocol's guarantees stop. Each condition of a clean run is needed: what happens at the very move that
 breaks it, and two things no condition on single moves prevents.
 */
module LedgerGaps {
  import opened Ledger
  import opened MapSum
  import opened Orders
  import opened Protocol
  import opened RiskRules
  import opened Symbols
  import opened Wrappers

  /** A charge keeps the ledger equal to what is outstanding exactly when the exposure it read is still current. */
  lemma ChargeIsExactIffCurrent(s: System, i: nat, cfg: RiskConfig)
    requires Balanced(s) && i < |s.risk| && s.risk[i].Charging?
    ensures var t := RiskStep(s, i, cfg);
            t.world.exposure == Sum(t.outstanding) <==> s.risk[i].seen == s.world.exposure
  {
    assert i !in s.outstanding;
    SumWith(s.outstanding, i, s.risk[i].approval.fraction);
  }

  /** So does a release, but for the case where both values are clamped to nothing. */
  lemma ReleaseIsExactIffCurrent(s: System)
    requires Balanced(s) && s.sweep.Releasing?
    ensures var t := ReconcilerStep(s);
            (t.world.exposure == Sum(t.outstanding)) <==>
            (s.sweep.seen == s.world.exposure || (s.sweep.seen <= s.sweep.pos.fraction == s.world.exposure))
  {
    var id := s.sweep.todo[0];
    assert Owes(s, id, s.sweep.pos.fraction);
    SumWithout(s.outstanding, id);
  }

  /** What the ledger holds besides the book: charges of events that are not tracked with a record. */
  function Spare(s: System): map<EventId, Fraction> {
    map id | id in s.outstanding && id !in Book(s) :: s.outstanding[id]
  }

  lemma BookAndSpare(s: System)
    requires Balanced(s)
    ensures s.world.exposure == Sum(Book(s)) + Sum(Spare(s))
  {
    forall k | k in Book(s) ensures Owes(s, k, Book(s)[k]) {
    }
    SumOfRest(Book(s), s.outstanding);
    assert s.outstanding - Book(s).Keys == Spare(s);
  }

  /** A charge keeps the ledger above what is outstanding exactly when the exposure it read has not grown since; and
      above the book exactly when what it overwrites is no more than what is charged besides the book. */
  lemma ChargeCoversIff(s: System, i: nat, cfg: RiskConfig)
    requires Balanced(s) && i < |s.risk| && s.risk[i].Charging?
    ensures var t := RiskStep(s, i, cfg);
            && (Sum(t.outstanding) <= t.world.exposure <==> s.world.exposure <= s.risk[i].seen)
            && (Sum(Book(t)) <= t.world.exposure
                <==> s.world.exposure - s.risk[i].seen <= Sum(Spare(s)) + s.risk[i].approval.fraction)
  {
    assert i !in s.outstanding;
    SumWith(s.outstanding, i, s.risk[i].approval.fraction);
    BookAndSpare(s);
    ChargeKeepsBookEntries(s, i, cfg);
  }

  lemma ChargeKeepsBookEntries(s: System, i: nat, cfg: RiskConfig)
    requires i < |s.risk| && s.risk[i].Charging?
    ensures Book(RiskStep(s, i, cfg)) == Book(s)
  {
  }

  /** So does a release, unless nothing else is outstanding; and the book stays covered exactly when what it overwrites
      is no more than what is charged besides the book, or when the book is that one position. */
  lemma ReleaseCoversIff(s: System)
    requires Balanced(s) && s.sweep.Releasing?
    ensures var t := ReconcilerStep(s);
            && (Sum(t.outstanding) <= t.world.exposure
                <==> s.world.exposure <= s.sweep.seen || s.world.exposure == s.sweep.pos.fraction)
            && (Sum(Book(t)) <= t.world.exposure
                <==> s.world.exposure - s.sweep.seen <= Sum(Spare(s)) || Sum(Book(s)) == s.sweep.pos.fraction)
  {
    var id := s.sweep.todo[0];
    ReleaseTakesCharge(s);
    ReleaseTakesEntry(s);
    SumWithout(Book(s), id);
    BookAndSpare(s);
  }

  lemma ReleaseTakesCharge(s: System)
    requires Balanced(s) && s.sweep.Releasing?
    ensures var t := ReconcilerStep(s);
            && Sum(t.outstanding) == s.world.exposure - s.sweep.pos.fraction
            && t.world.exposure == Max(0, s.sweep.seen - s.sweep.pos.fraction)
  {
    var id := s.sweep.todo[0];
    assert Owes(s, id, s.sweep.pos.fraction);
    SumWithout(s.outstanding, id);
  }

  lemma ReleaseTakesEntry(s: System)
    requires Sweeping(s) && s.sweep.Releasing?
    ensures var id := s.sweep.todo[0];
            id in Book(s) && Book(s)[id] == s.sweep.pos.fraction && Book(ReconcilerStep(s)) == Book(s) - {id}
  {
  }

  /** A sweep that dies after giving the exposure back and before untracking: the position is in the book again, and
      the book is still covered exactly when other events that are not in it are charged at least as much. */
  lemma AbortedCloseUncovers(s: System, setup: Setup)
    requires Balanced(s) && s.sweep.Untracking?
    ensures var t := Next(s, AbortSweep, setup);
            && s.sweep.todo[0] in Book(t) && s.sweep.todo[0] !in t.outstanding
            && (Sum(Book(t)) <= t.world.exposure <==> s.sweep.pos.fraction <= Sum(Spare(s)))
  {
    var id := s.sweep.todo[0];
    var t := Next(s, AbortSweep, setup);
    AbortRestoresEntry(s, setup);
    SumWith(Book(s), id, s.sweep.pos.fraction);
    BookAndSpare(s);
  }

  lemma AbortRestoresEntry(s: System, setup: Setup)
    requires Sweeping(s) && s.sweep.Untracking?
    ensures s.sweep.todo[0] !in Book(s)
    ensures Book(Next(s, AbortSweep, setup)) == Book(s)[s.sweep.todo[0] := s.sweep.pos.fraction]
  {
  }

  // ---------- Approving twice ----------

  /** The approval passes the guards and the sizing. */
  predicate LetThrough(w: World, id: EventId, defaults: TradingConfig, equity: real)
    requires id in w.pending
  {
    var config := Load(w.runtime, defaults);
    config.tradingEnabled && w.rate + 1 <= config.maxOrdersPerHour && Grant(w.pending[id], config, equity).Size() > 0.0
  }

  /** What an approval that passes the guards and sizes to something does, whether or not the event was executed before. */
  lemma ApprovalExecutes(w: World, id: EventId, defaults: TradingConfig, equity: real)
    requires id in w.pending && Tradable(w.pending[id].symbol)
    ensures LetThrough(w, id, defaults, equity) ==>
              Finish(w, LoadPending(id, None), defaults, equity)
              == ExecuteEffect(w.(pendingSet := w.pendingSet - {w.pending[id].id}, rate := w.rate + 1),
                               Grant(w.pending[id], Load(w.runtime, defaults), equity))
  {
    if !LetThrough(w, id, defaults, equity) {
      return;
    }
    var ev, config := w.pending[id], Load(w.runtime, defaults);
    var w1 := w.(pendingSet := w.pendingSet - {ev.id});
    var w2 := w1.(rate := w.rate + 1);
    FinishStep(w, LoadPending(id, None), defaults, equity);
    FinishStep(w, Unlist(ev, None), defaults, equity);
    FinishStep(w1, LoadConfig(ev, true), defaults, equity);
    FinishStep(w1, Guard(ev, config, true), defaults, equity);
    FinishStep(w2, ReadEquity(ev, config, true), defaults, equity);
    FinishExecuting(w2, Grant(ev, config, equity), defaults, equity);
  }

  /** Approving an event keeps its orders one bracket exactly when none had been sent for it before: neither the
      pending record nor the submitted mark stops a second execution. */
  lemma SecondApprovalOrdersAgain(w: World, id: EventId, defaults: TradingConfig, equity: real)
    requires id in w.pending && w.pending[id].id == id && Tradable(w.pending[id].symbol)
    ensures var w' := Finish(w, LoadPending(id, None), defaults, equity);
            LetThrough(w, id, defaults, equity) ==>
              && id in w'.pending
              && |SentFor(w'.orders, id)| == |SentFor(w.orders, id)| + 3
              && (PartOfOneBracket(SentFor(w'.orders, id)) <==> SentFor(w.orders, id) == [])
  {
    if !LetThrough(w, id, defaults, equity) {
      return;
    }
    ApprovalExecutes(w, id, defaults, equity);
    var b := BracketOf(Grant(w.pending[id], Load(w.runtime, defaults), equity));
    SentForBracket(w.orders, Grant(w.pending[id], Load(w.runtime, defaults), equity));
    var w' := Finish(w, LoadPending(id, None), defaults, equity);
    assert SentFor(w'.orders, id) == SentFor(w.orders, id) + b;
  }
}
