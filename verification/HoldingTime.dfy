/**
 Bounded holding time. The engine's bar counter is the number of cycles of the position's own symbol
 since it was opened, even though the exit loop may run twice in a cycle and fills happen inside it;
 so no position outlives max_bars_in_trade such cycles.
 */
module HoldingTime {
  import opened Wrappers
  import opened StateStore
  import opened Pricing
  import opened Engine
  import opened Runtime
  import opened LedgerLaws
  import opened CycleLaws

  /** From `a` to `b` exactly the surviving positions in `ids` count one bar more; new ones start at 0. */
  ghost predicate Advances(a: EngineState, b: EngineState, ids: set<Id>) {
    && a.nextId <= b.nextId
    && forall id | id in b.positionBars ::
         if id < a.nextId
         then id in a.positionBars && b.positionBars[id] == a.positionBars[id] + (if id in ids then 1 else 0)
         else b.positionBars[id] == 0
  }

  lemma {:induction false} PendingAdvances(cfg: Config, e: EngineState, ps: seq<PendingEntry>, tick: Tick)
    requires forall id | id in e.positionBars :: id < e.nextId
    ensures
      var r := PendingSweep(cfg, Idle(e), ps, tick).0.engine;
      Advances(e, r, {}) && e.positionBars.Keys <= r.positionBars.Keys
      && forall id | id in r.positionBars :: id < r.nextId
  {
    if ps != [] {
      PendingAdvances(cfg, e, ps[..|ps| - 1], tick);
    }
  }

  lemma {:induction false} SweepAdvances(
    cfg: Config, b: Batch, ps: seq<Position>, tick: Tick, approvedSide: Option<OrderSide>, incrementBars: bool)
    requires Distinct(ps) && Ids(ps) <= b.engine.positionBars.Keys
    ensures
      var r := ExitSweep(cfg, b, ps, tick, approvedSide, incrementBars).engine;
      && r.nextId == b.engine.nextId
      && (b.engine.positionBars.Keys - Ids(ps) <= r.positionBars.Keys <= b.engine.positionBars.Keys)
      && forall id | id in r.positionBars ::
           r.positionBars[id] ==
           b.engine.positionBars[id] + (if incrementBars && id in IdsIn(ps, tick.symbol) then 1 else 0)
  {
    if ps != [] {
      var n := |ps| - 1;
      LastIsOther(ps);
      SweepAdvances(cfg, b, ps[..n], tick, approvedSide, incrementBars);
      IdsInSnoc(ps, tick.symbol);
      IdsInAreIds(ps, tick.symbol);
    }
  }

  lemma EvaluationAdvances(
    cfg: Config, start: Store, l: Ledger, tick: Tick, approvedSide: Option<OrderSide>, incrementBars: bool)
    requires Inv(cfg, start, l)
    ensures Advances(l.engine, BarEvaluation(cfg, l.engine, l.store, tick, approvedSide, incrementBars).engine,
                     if incrementBars then IdsIn(Open(l), tick.symbol) else {})
  {
    var filled := if incrementBars then PendingFills(cfg, Idle(l.engine), tick) else Idle(l.engine);
    PendingAdvances(cfg, l.engine, l.engine.pending, tick);
    SweepAdvances(cfg, filled, Open(l), tick, approvedSide, incrementBars);
    forall id | id in IdsIn(Open(l), tick.symbol) ensures id < l.engine.nextId {
      assert id in Ids(Open(l));
    }
  }

  lemma AdvancesThen(a: EngineState, b: EngineState, c: EngineState, ids: set<Id>)
    requires Advances(a, b, ids) && Advances(b, c, {})
    ensures Advances(a, c, ids)
  {
  }

  lemma ExecutionAdvances(cfg: Config, e: EngineState, decision: Decision, s: Store, tick: Tick)
    requires forall id | id in e.positionBars :: id < e.nextId
    ensures Advances(e, Execution(cfg, e, decision, s, tick).engine, {})
  {
  }

  lemma DecisionAdvances(cfg: Config, start: Store, l: Ledger, input: CycleInput, after: Ledger)
    requires Inv(cfg, start, l)
    requires after == CountSignal(AtDecision(cfg, l, input.tick), input.decision)
    ensures Inv(cfg, start, after)
    ensures Advances(l.engine, after.engine, IdsIn(Open(l), input.tick.symbol))
  {
    var tick := input.tick;
    var l1 := PreDecision(cfg, l, tick);
    EvaluationAdvances(cfg, start, l, tick, None, true);
    PreDecisionKeeps(cfg, start, l, tick, l1);
    var l2 := DailyReset(l1, tick.time);
    DailyResetKeeps(cfg, start, l1, tick.time, l2);
    var l3 := Mark(l2, tick);
    MarkKeeps(cfg, start, l2, tick, l3);
    CountSignalKeeps(cfg, start, l3, input.decision, after);
    assert l3.engine == l2.engine == l1.engine;
  }

  lemma CycleAdvances(cfg: Config, start: Store, l: Ledger, input: CycleInput, after: Ledger)
    requires Inv(cfg, start, l) && after == Cycle(cfg, l, input)
    ensures Advances(l.engine, after.engine, IdsIn(Open(l), input.tick.symbol))
  {
    var tick, decision := input.tick, input.decision;
    var ids := IdsIn(Open(l), tick.symbol);
    var l1 := CountSignal(AtDecision(cfg, l, tick), decision);
    DecisionAdvances(cfg, start, l, input, l1);
    var l2 := SignalExits(cfg, l1, tick, decision);
    SignalExitsAdvance(cfg, start, l1, tick, decision, l2);
    var l3 := Act(cfg, l2, tick, decision);
    ActAdvances(cfg, start, l2, tick, decision, l3);
    AdvancesThen(l.engine, l1.engine, l2.engine, ids);
    AdvancesThen(l.engine, l2.engine, l3.engine, ids);
    assert after.engine == l3.engine;
  }

  lemma SignalExitsAdvance(cfg: Config, start: Store, l: Ledger, tick: Tick, decision: Decision, after: Ledger)
    requires Inv(cfg, start, l) && after == SignalExits(cfg, l, tick, decision)
    ensures Inv(cfg, start, after) && Advances(l.engine, after.engine, {})
  {
    SignalExitsKeep(cfg, start, l, tick, decision, after);
    if decision.finalSignal.Some? {
      EvaluationAdvances(cfg, start, l, tick, Some(decision.finalSignal.value.side), false);
    }
  }

  lemma ActAdvances(cfg: Config, start: Store, l: Ledger, tick: Tick, decision: Decision, after: Ledger)
    requires Inv(cfg, start, l) && after == Act(cfg, l, tick, decision)
    ensures Advances(l.engine, after.engine, {})
  {
    ExecutionAdvances(cfg, l.engine, decision, l.store, tick);
  }

  function CyclesOn(symbol: string, inputs: seq<CycleInput>): nat {
    if inputs == [] then 0
    else CyclesOn(symbol, inputs[..|inputs| - 1]) + if inputs[|inputs| - 1].tick.symbol == symbol then 1 else 0
  }

  /** One cycle, for a position that survives it. */
  lemma SurvivorCounts(cfg: Config, start: Store, l: Ledger, input: CycleInput, after: Ledger, q: Position)
    requires Inv(cfg, start, l) && after == Cycle(cfg, l, input)
    requires q in Open(after) && q.id < l.engine.nextId
    ensures Inv(cfg, start, after) && l.engine.nextId <= after.engine.nextId && WasOpen(l, q)
    ensures BarsHeld(after.engine, q.id) ==
            BarsHeld(l.engine, q.id) + if q.symbol == input.tick.symbol then 1 else 0
  {
    CycleKeeps(cfg, start, l, input, after);
    CycleAdvances(cfg, start, l, input, after);
    assert q.id in Ids(Open(after));
    var p :| p in Open(l) && p.id == q.id && p.symbol == q.symbol;
    OneSymbolPerId(Open(l), p, input.tick.symbol);
  }

  lemma {:induction false} SuffixKeeps(cfg: Config, start: Store, l: Ledger, inputs: seq<CycleInput>, after: Ledger)
    requires Inv(cfg, start, l) && after == Cycles(cfg, l, inputs)
    ensures Inv(cfg, start, after) && l.engine.nextId <= after.engine.nextId
  {
    if inputs != [] {
      var n := |inputs| - 1;
      var before := Cycles(cfg, l, inputs[..n]);
      SuffixKeeps(cfg, start, l, inputs[..n], before);
      CycleKeeps(cfg, start, before, inputs[n], after);
    }
  }

  /** A position open before and after a stretch of cycles counts the cycles of its own symbol. */
  lemma {:induction false} CounterIsElapsed(
    cfg: Config, start: Store, l: Ledger, inputs: seq<CycleInput>, after: Ledger, q: Position)
    requires Inv(cfg, start, l) && after == Cycles(cfg, l, inputs)
    requires q in Open(after) && q.id < l.engine.nextId
    ensures WasOpen(l, q)
    ensures BarsHeld(after.engine, q.id) == BarsHeld(l.engine, q.id) + CyclesOn(q.symbol, inputs)
  {
    if inputs == [] {
      assert WasOpen(l, q);
    } else {
      var n := |inputs| - 1;
      var before := Cycles(cfg, l, inputs[..n]);
      SuffixKeeps(cfg, start, l, inputs[..n], before);
      SurvivorCounts(cfg, start, before, inputs[n], after, q);
      var p :| p in Open(before) && p.id == q.id && p.symbol == q.symbol;
      CounterIsElapsed(cfg, start, l, inputs[..n], before, p);
      assert WasOpen(l, q) by {
        var o :| o in Open(l) && o.id == p.id && o.symbol == p.symbol;
      }
    }
  }

  /**
   A position opened by one cycle and still open after any number of later cycles, over any symbols,
   has been through exactly as many cycles of its own symbol as the engine's counter says, and if
   max_bars_in_trade is positive that is fewer.
   */
  lemma {:induction false} HoldingTimeIsBounded(
    cfg: Config, cash: real, limits: RiskLimits, past: seq<CycleInput>, opening: CycleInput,
    later: seq<CycleInput>, before: Ledger, mid: Ledger, after: Ledger, q: Position)
    requires before == Cycles(cfg, EmptyLedger(cash, limits), past)
    requires mid == Cycle(cfg, before, opening) && after == Cycles(cfg, mid, later)
    requires before.engine.nextId <= q.id < mid.engine.nextId && q in Open(after)
    ensures BarsHeld(after.engine, q.id) == CyclesOn(q.symbol, later)
    ensures cfg.maxBarsInTrade >= 1 ==> CyclesOn(q.symbol, later) < cfg.maxBarsInTrade
  {
    RunKeeps(cfg, cash, limits, past);
    CountedSinceOpening(cfg, InitialStore(cash, limits), before, opening, later, mid, after, q);
  }

  lemma {:induction false} CountedSinceOpening(
    cfg: Config, start: Store, before: Ledger, opening: CycleInput, later: seq<CycleInput>,
    mid: Ledger, after: Ledger, q: Position)
    requires Inv(cfg, start, before) && mid == Cycle(cfg, before, opening) && after == Cycles(cfg, mid, later)
    requires before.engine.nextId <= q.id < mid.engine.nextId && q in Open(after)
    ensures BarsHeld(after.engine, q.id) == CyclesOn(q.symbol, later)
    ensures cfg.maxBarsInTrade >= 1 ==> CyclesOn(q.symbol, later) < cfg.maxBarsInTrade
  {
    CycleKeeps(cfg, start, before, opening, mid);
    CycleAdvances(cfg, start, before, opening, mid);
    SuffixKeeps(cfg, start, mid, later, after);
    CounterIsElapsed(cfg, start, mid, later, after, q);
    FreshCountsZero(before, mid, q, opening.tick.symbol);
    CountIsBrief(cfg, after, q);
  }

  lemma FreshCountsZero(before: Ledger, mid: Ledger, q: Position, symbol: string)
    requires TablesAgree(mid) && WasOpen(mid, q) && before.engine.nextId <= q.id
    requires Advances(before.engine, mid.engine, IdsIn(Open(before), symbol))
    ensures BarsHeld(mid.engine, q.id) == 0
  {
    assert q.id in Ids(Open(mid));
  }

  lemma CountIsBrief(cfg: Config, l: Ledger, q: Position)
    requires TablesAgree(l) && HeldBriefly(cfg, l) && q in Open(l)
    ensures cfg.maxBarsInTrade >= 1 ==> BarsHeld(l.engine, q.id) < cfg.maxBarsInTrade
  {
    assert q.id in Ids(Open(l));
  }
}
