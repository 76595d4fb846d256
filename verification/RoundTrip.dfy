/**
 A whole run that shows two things the books do not say: a position bought on one day, marked once, and
 closed at its target on the first bar of the next leaves a flat account whose equity is not its cash,
 and a day on which profit was made but none recorded.
 */
module RoundTrip {
  import opened Wrappers
  import opened Arithmetic
  import opened Sums
  import opened StateStore
  import opened Pricing
  import opened Engine
  import opened Runtime
  import opened LedgerLaws
  import opened CycleLaws
  import opened DailyRecord
  import opened Overdraft

  const FREE := SpendAll(0.0, 0.0)

  const START := EmptyLedger(1000.0, ALL_IN)

  const RISE := CycleInput(Tick("A", Bar(100.0, 110.0, 100.0, 110.0), 0), Decision(false, None))

  const TARGET := CycleInput(Tick("A", Bar(110.0, 120.0, 110.0, 120.0), SECONDS_PER_DAY), Decision(false, None))

  /** Buys at 100, rises to 110, and reaches the target of 120 on the next day's first bar. */
  function ToTarget(): seq<CycleInput> { [AllInOne(), RISE, TARGET] }

  function Held(unrealized: real): Position {
    Position(1, "A", Long, 10.0, 100.0, Some(90.0), Some(120.0), unrealized)
  }

  /** The whole account is in one position, nothing is closed yet, and the day is the first. */
  ghost predicate Holding(l: Ledger, unrealized: real, equity: real, bars: nat) {
    && Open(l) == [Held(unrealized)]
    && Cash(l.store) == 0.0 && l.store.portfolio.equity == equity
    && l.store.risk.dailyPnl == 0.0 && l.store.risk.openExposurePct == 100.0 && l.signalsDay == Some(0)
    && l.engine.pending == [] && l.engine.positionBars == map[1 := bars]
  }

  /** What an opening leaves, in terms of the position opened. */
  lemma Opened(cfg: Config, l: Ledger, order: PendingEntry, tick: Tick, p: Position, after: Ledger)
    requires p == NewPosition(cfg, l.engine, order, tick, false) && after == OpenStep(cfg, l, order, tick, false)
    ensures Open(after) == Open(l) + [p] && after.engine.pending == l.engine.pending
    ensures after.engine.positionBars == l.engine.positionBars[p.id := 0]
    ensures Cash(after.store) == Cash(l.store) - (Notional(p) + OpeningFee(cfg, p))
    ensures after.store.portfolio.equity == l.store.portfolio.equity
    ensures after.store.risk.dailyPnl == l.store.risk.dailyPnl && after.signalsDay == l.signalsDay
    ensures after.store.risk.openExposurePct
            == l.store.risk.openExposurePct + ExposurePct(Notional(p), l.store.portfolio.equity)
  {
  }

  /** What AllInOne buys under any slippage and fee. */
  function Bought(cfg: Config): Position {
    Position(1, "A", Long, 10.0, 100.0 * (1.0 + Slippage(cfg)), Some(90.0), Some(120.0), 0.0)
  }

  lemma BuysAll(cfg: Config, l: Ledger)
    requires cfg == SpendAll(cfg.slippageBps, cfg.feeBps) && l == Cycle(cfg, START, AllInOne())
    ensures Open(l) == [Bought(cfg)] && l.engine.pending == [] && l.engine.positionBars == map[1 := 0]
    ensures Cash(l.store) == 1000.0 - (Notional(Bought(cfg)) + OpeningFee(cfg, Bought(cfg)))
    ensures l.store.portfolio.equity == 1000.0 && l.store.risk.dailyPnl == 0.0 && l.signalsDay == Some(0)
    ensures l.store.risk.openExposurePct == ExposurePct(Notional(Bought(cfg)), 1000.0)
  {
    var input := AllInOne();
    var mid := BeforeAct(cfg, START, input);
    FirstBar(cfg, START, mid);
    TenIsAll(cfg, mid.store);
    var b := Execution(cfg, mid.engine, input.decision, mid.store, input.tick);
    var order := OrderFor(mid.engine.nextId, 10.0, input.decision.finalSignal.value, "A");
    var acted := Act(cfg, mid, input.tick, input.decision);
    OpeningCommits(cfg, mid, order, input.tick, b, acted);
    Opened(cfg, Drawn(mid), order, input.tick, Bought(cfg), acted);
  }

  lemma Buys(l: Ledger)
    requires l == Cycle(FREE, START, AllInOne())
    ensures Holding(l, 0.0, 1000.0, 0)
  {
    BuysAll(FREE, l);
    HoldsBought(l);
  }

  lemma HoldsBought(l: Ledger)
    requires Open(l) == [Bought(FREE)] && l.engine.pending == [] && l.engine.positionBars == map[1 := 0]
    requires Cash(l.store) == 1000.0 - (Notional(Bought(FREE)) + OpeningFee(FREE, Bought(FREE)))
    requires l.store.portfolio.equity == 1000.0 && l.store.risk.dailyPnl == 0.0 && l.signalsDay == Some(0)
    requires l.store.risk.openExposurePct == ExposurePct(Notional(Bought(FREE)), 1000.0)
    ensures Holding(l, 0.0, 1000.0, 0)
  {
    BuysAtCost();
  }

  lemma BuysAtCost()
    ensures Bought(FREE) == Held(0.0) && Notional(Bought(FREE)) + OpeningFee(FREE, Bought(FREE)) == 1000.0
    ensures ExposurePct(Notional(Bought(FREE)), 1000.0) == 100.0
  {
    assert Slippage(FREE) == 0.0 && Notional(Held(0.0)) == 1000.0;
  }

  lemma EvaluatesOne(e: EngineState, p: Position, s: Store, tick: Tick, b: Batch)
    requires e.pending == [] && s.portfolio.openPositions == [p]
    requires b == BarEvaluation(FREE, e, s, tick, None, true)
    ensures b == ExitStep(FREE, Idle(e), p, tick, None, true)
  {
    assert PendingFills(FREE, Idle(e), tick) == Idle(e);
    assert s.portfolio.openPositions[..0] == [];
    assert ExitSweep(FREE, Idle(e), [], tick, None, true) == Idle(e);
  }

  lemma MarksOne(p: Position, price: real)
    requires p.symbol == "A"
    ensures RevalueAll([p], map["A" := price]) == [p.(unrealizedPnl := PnlAt(p, price))]
    ensures Sum([p], BookValue) == BookValue(p)
  {
    assert [p][..0] == [];
  }

  lemma Rises(l: Ledger, after: Ledger)
    requires Holding(l, 0.0, 1000.0, 0) && after == Cycle(FREE, l, RISE)
    ensures Holding(after, 100.0, 1100.0, 1)
  {
    EvaluatesOne(l.engine, Held(0.0), l.store, RISE.tick, BarEvaluation(FREE, l.engine, l.store, RISE.tick, None, true));
    var l1 := PreDecision(FREE, l, RISE.tick);
    assert l1.store == l.store;
    MarksOne(Held(0.0), 110.0);
    MarksOne(Held(100.0), 110.0);
  }

  lemma Exits(l: Ledger, early: Ledger)
    requires Holding(l, 100.0, 1100.0, 1) && early == PreDecision(FREE, l, TARGET.tick)
    ensures Open(early) == [] && early.store.portfolio.cash == 1200.0 && early.store.portfolio.equity == 1300.0
    ensures early.store.risk.dailyPnl == 200.0 && early.signalsDay == Some(0)
    ensures early.store.risk.openExposurePct == 100.0 / 11.0
  {
    var b := BarEvaluation(FREE, l.engine, l.store, TARGET.tick, None, true);
    EvaluatesOne(l.engine, Held(100.0), l.store, TARGET.tick, b);
    assert b.transitions == [] + [PositionClosed(1, 200.0)];
    ApplyAllSnoc(l.store, [], PositionClosed(1, 200.0));
    ClosesHeld(l.store, early.store);
  }

  lemma ClosesHeld(s: Store, after: Store)
    requires s.portfolio.openPositions == [Held(100.0)] && after == Apply(s, PositionClosed(1, 200.0))
    ensures after.portfolio.openPositions == []
    ensures after.portfolio.cash == s.portfolio.cash + 1200.0
    ensures after.portfolio.equity == s.portfolio.equity + 200.0
    ensures after.risk.dailyPnl == s.risk.dailyPnl + 200.0
    ensures after.risk.openExposurePct == Max0(s.risk.openExposurePct - ExposurePct(1000.0, s.portfolio.equity))
  {
    assert Without([Held(100.0)], 1) == [] by { assert [Held(100.0)][..0] == []; }
  }

  lemma Erases(l: Ledger, early: Ledger, after: Ledger)
    requires Holding(l, 100.0, 1100.0, 1)
    requires early == PreDecision(FREE, l, TARGET.tick) && after == Cycle(FREE, l, TARGET)
    ensures Open(after) == [] && after.store.portfolio.cash == 1200.0 && after.store.portfolio.equity == 1300.0
    ensures after.store.risk.dailyPnl == 0.0 && ProfitBetween(l, early) == 200.0
    ensures after.store.risk.openExposurePct == 100.0 / 11.0
  {
    Exits(l, early);
    EarlyTrades(FREE, l, TARGET.tick, early);
  }

  lemma ThreeCycles(cfg: Config, l: Ledger, inputs: seq<CycleInput>)
    requires |inputs| == 3
    ensures Cycles(cfg, l, inputs[..2]) == Cycle(cfg, Cycle(cfg, l, inputs[0]), inputs[1])
    ensures Cycles(cfg, l, inputs) == Cycle(cfg, Cycles(cfg, l, inputs[..2]), inputs[2])
  {
    assert inputs[..2][..1] == inputs[..1] && inputs[..1][..0] == [];
    assert Cycles(cfg, l, inputs[..1]) == Cycle(cfg, l, inputs[0]);
  }

  lemma Arrives(before: Ledger, after: Ledger)
    requires before == Cycles(FREE, START, ToTarget()[..2]) && after == Cycles(FREE, START, ToTarget())
    ensures Holding(before, 100.0, 1100.0, 1) && after == Cycle(FREE, before, TARGET)
  {
    ThreeCycles(FREE, START, ToTarget());
    var bought := Cycle(FREE, START, AllInOne());
    Buys(bought);
    Rises(bought, before);
  }

  /**
   Flat, and yet the stored equity is 100 above the cash: the close added the whole profit to an equity
   that already held the marked part of it, and marking is skipped while flat.
   */
  lemma FlatEquityNeedNotBeCash()
    ensures
      var after := Cycles(FREE, START, ToTarget()).store.portfolio;
      after.openPositions == [] && after.cash == 1200.0 && after.equity == 1300.0
  {
    var before, after := Cycles(FREE, START, ToTarget()[..2]), Cycles(FREE, START, ToTarget());
    Arrives(before, after);
    Erases(before, PreDecision(FREE, before, TARGET.tick), after);
  }

  /**
   And still exposed, it says: the opening took 1000 of an equity of 1000, the close gave back 1000 of an
   equity of 1100, and the difference stays on the record.
   */
  lemma FlatExposureNeedNotBeZero(l: Ledger)
    requires l == Cycles(FREE, START, ToTarget())
    ensures Open(l) == [] && l.store.risk.openExposurePct == 100.0 / 11.0
  {
    var before := Cycles(FREE, START, ToTarget()[..2]);
    Arrives(before, l);
    Erases(before, PreDecision(FREE, before, TARGET.tick), l);
  }

  /**
   When a flat account's equity is its cash, in every state a run reaches: when the entry fees and the
   stored running profits of what was closed since the last mark cancel.
   */
  lemma FlatEquityIsCashIff(cfg: Config, cash: real, limits: RiskLimits, inputs: seq<CycleInput>, l: Ledger)
    requires l == Cycles(cfg, EmptyLedger(cash, limits), inputs) && Open(l) == []
    ensures l.store.portfolio.equity == l.store.portfolio.cash
            <==> FeesSinceMark(l.trail) + ClosedUnrealizedSinceMark(InitialStore(cash, limits), l.trail) == 0.0
  {
    RunBalances(cfg, cash, limits, inputs);
  }

  /** What was closed on a day whose only cycle so far is the last: what is recorded, and what was erased. */
  lemma FirstOfDay(
    cfg: Config, cash: real, limits: RiskLimits, inputs: seq<CycleInput>, before: Ledger, l: Ledger, day: int)
    requires inputs != [] && InOrder(inputs) && day == Day(inputs[|inputs| - 1].tick.time)
    requires !Seen(inputs[..|inputs| - 1], day)
    requires before == Cycles(cfg, EmptyLedger(cash, limits), inputs[..|inputs| - 1])
    requires l == Cycles(cfg, EmptyLedger(cash, limits), inputs)
    ensures ProfitOn(cfg, EmptyLedger(cash, limits), inputs, day)
            == l.store.risk.dailyPnl + ProfitBetween(before, PreDecision(cfg, before, inputs[|inputs| - 1].tick))
  {
    DailyFigures(cfg, cash, limits, inputs, EmptyLedger(cash, limits), l, day);
    NotSeen(cfg, EmptyLedger(cash, limits), inputs[..|inputs| - 1], day);
  }

  lemma OnlyTheLast(inputs: seq<CycleInput>)
    requires inputs == ToTarget()
    ensures InOrder(inputs) && !Seen(inputs[..2], 1) && Day(inputs[2].tick.time) == 1
  {
    assert inputs[..2] == [AllInOne(), RISE];
  }

  /** The next day's record says nothing was earned on a day that closed 200 in profit. */
  lemma FirstExitIsErased(inputs: seq<CycleInput>, l: Ledger)
    requires inputs == ToTarget() && l == Cycles(FREE, START, inputs)
    ensures ProfitOn(FREE, START, inputs, 1) == 200.0 && l.store.risk.dailyPnl == 0.0
  {
    var before := Cycles(FREE, START, inputs[..2]);
    Arrives(before, l);
    Erases(before, PreDecision(FREE, before, TARGET.tick), l);
    OnlyTheLast(inputs);
    FirstOfDay(FREE, 1000.0, ALL_IN, inputs, before, l, 1);
  }
}
