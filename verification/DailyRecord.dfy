/**
 The daily figures of the risk record against the calendar (backend/src/runtime/platform_runtime.py).
 A cycle evaluates fills and exits before it resets the day, so what closes in that phase of a day's
 first cycle is booked to the old day and then erased.
 */
module DailyRecord {
  import opened Wrappers
  import opened StateStore
  import opened Pricing
  import opened Engine
  import opened Runtime
  import opened LedgerLaws
  import opened RiskRecord

  // ---------------------------------------------------------------- trading leaves the day alone

  /** Openings and closes only. */
  ghost predicate Trades(ts: seq<Transition>) { forall t | t in ts :: t.PositionOpened? || t.PositionClosed? }

  lemma {:induction false} SweepTrades(
    cfg: Config, b: Batch, ps: seq<Position>, tick: Tick, approvedSide: Option<OrderSide>, incrementBars: bool)
    requires Trades(b.transitions)
    ensures Trades(ExitSweep(cfg, b, ps, tick, approvedSide, incrementBars).transitions)
  {
    if ps != [] {
      SweepTrades(cfg, b, ps[..|ps| - 1], tick, approvedSide, incrementBars);
    }
  }

  lemma {:induction false} FillsTrade(cfg: Config, b: Batch, ps: seq<PendingEntry>, tick: Tick)
    requires Trades(b.transitions)
    ensures Trades(PendingSweep(cfg, b, ps, tick).0.transitions)
  {
    if ps != [] {
      FillsTrade(cfg, b, ps[..|ps| - 1], tick);
    }
  }

  lemma EvaluationTrades(
    cfg: Config, e: EngineState, s: Store, tick: Tick, approvedSide: Option<OrderSide>, incrementBars: bool)
    ensures Trades(BarEvaluation(cfg, e, s, tick, approvedSide, incrementBars).transitions)
  {
    FillsTrade(cfg, Idle(e), e.pending, tick);
    SweepTrades(cfg, if incrementBars then PendingFills(cfg, Idle(e), tick) else Idle(e), s.portfolio.openPositions,
                tick, approvedSide, incrementBars);
  }

  lemma {:induction false} ClosesConcat(a: seq<Transition>, b: seq<Transition>)
    ensures Closes(a + b) == Closes(a) + Closes(b)
  {
    if b == [] {
      assert a + b == a;
    } else {
      var n := |b| - 1;
      assert (a + b)[..|a| + n] == a + b[..n];
      ClosesConcat(a, b[..n]);
    }
  }

  lemma {:induction false} TotalConcat(a: seq<real>, b: seq<real>)
    ensures Total(a + b) == Total(a) + Total(b)
  {
    if b == [] {
      assert a + b == a;
    } else {
      var n := |b| - 1;
      assert a + b == (a + b[..n]) + [b[n]] && b == b[..n] + [b[n]];
      TotalConcat(a, b[..n]);
      TotalSnoc(a + b[..n], b[n]);
      TotalSnoc(b[..n], b[n]);
    }
  }

  // ---------------------------------------------------------------- one cycle

  /** The daily figures of a risk record. */
  datatype Daily = Daily(pnl: real, signals: int, startEquity: real)

  function DailyOf(s: Store): Daily { Daily(s.risk.dailyPnl, s.risk.signalsToday, s.risk.dailyStartEquity) }

  /** What was closed between two ledgers of one run. */
  function ClosedBetween(before: Ledger, after: Ledger): seq<real> {
    if |before.trail| <= |after.trail| then Closes(after.trail[|before.trail|..]) else []
  }

  function ProfitBetween(before: Ledger, after: Ledger): real { Total(ClosedBetween(before, after)) }

  lemma {:induction false} TradesMoveProfit(s: Store, ts: seq<Transition>)
    requires Trades(ts)
    ensures var d := DailyOf(s); DailyOf(ApplyAll(s, ts)) == d.(pnl := d.pnl + Total(Closes(ts)))
  {
    if ts != [] {
      var n := |ts| - 1;
      TradesMoveProfit(s, ts[..n]);
      if ts[n].PositionClosed? {
        TotalSnoc(Closes(ts[..n]), ts[n].pnl);
      } else {
        assert Closes(ts[..n]) + [] == Closes(ts[..n]);
      }
    }
  }

  lemma CommitTrades(l: Ledger, b: Batch, after: Ledger)
    requires after == Commit(l, b) && Trades(b.transitions)
    ensures l.trail <= after.trail
    ensures DailyOf(after.store) == DailyOf(l.store).(pnl := l.store.risk.dailyPnl + ProfitBetween(l, after))
  {
    assert after.trail[|l.trail|..] == b.transitions;
    TradesMoveProfit(l.store, b.transitions);
  }

  lemma ProfitAdds(a: Ledger, b: Ledger, c: Ledger)
    requires a.trail <= b.trail <= c.trail
    ensures a.trail <= c.trail && ProfitBetween(a, c) == ProfitBetween(a, b) + ProfitBetween(b, c)
  {
    var x, y := b.trail[|a.trail|..], c.trail[|b.trail|..];
    assert c.trail[|a.trail|..] == x + y;
    ClosesConcat(x, y);
    TotalConcat(Closes(x), Closes(y));
  }

  /** Issuing anything but a close. */
  lemma IssueCloseless(l: Ledger, t: Transition)
    requires !t.PositionClosed?
    ensures l.trail <= Issue(l, t).trail && ProfitBetween(l, Issue(l, t)) == 0.0
  {
    assert Issue(l, t).trail[|l.trail|..] == [t];
    assert [t][..0] == [];
    assert Closes([t]) == [];
  }

  lemma NothingBetween(l: Ledger, after: Ledger)
    requires after.trail == l.trail
    ensures ProfitBetween(l, after) == 0.0
  {
  }

  lemma ResetMovesDaily(l: Ledger, time: int, after: Ledger)
    requires after == DailyReset(l, time)
    ensures l.trail <= after.trail && ProfitBetween(l, after) == 0.0 && after.signalsDay == Some(Day(time))
    ensures DailyOf(after.store)
            == if l.signalsDay.None? || l.signalsDay == Some(Day(time)) then DailyOf(l.store)
               else Daily(0.0, 0, l.store.portfolio.equity)
  {
    if after.trail == l.trail {
      NothingBetween(l, after);
    } else {
      IssueCloseless(l, RiskUpdated(DayStart(l.store)));
    }
  }

  lemma MarkKeepsDaily(l: Ledger, tick: Tick, after: Ledger)
    requires after == Mark(l, tick)
    ensures l.trail <= after.trail && ProfitBetween(l, after) == 0.0 && after.signalsDay == l.signalsDay
    ensures DailyOf(after.store) == DailyOf(l.store)
  {
    if after == l {
      NothingBetween(l, after);
    } else {
      IssueCloseless(l, MarkToMarket(map[tick.symbol := tick.bar.close]));
    }
  }

  /** The signals a decision counts. */
  function Approved(decision: Decision): int { if decision.approved then 1 else 0 }

  lemma SignalMovesDaily(l: Ledger, decision: Decision, after: Ledger)
    requires after == CountSignal(l, decision)
    ensures l.trail <= after.trail && ProfitBetween(l, after) == 0.0 && after.signalsDay == l.signalsDay
    ensures DailyOf(after.store) == DailyOf(l.store).(signals := l.store.risk.signalsToday + Approved(decision))
  {
    if after == l {
      NothingBetween(l, after);
    } else {
      IssueCloseless(l, RiskUpdated(SignalCount(l.store)));
    }
  }

  lemma NothingAdds(a: Ledger, b: Ledger, c: Ledger)
    requires a.trail <= b.trail <= c.trail && ProfitBetween(a, b) == 0.0 && ProfitBetween(b, c) == 0.0
    ensures a.trail <= c.trail && ProfitBetween(a, c) == 0.0
  {
    ProfitAdds(a, b, c);
  }

  /** From the end of the first phase to the decision: the reset, the mark, and the signal counted. */
  lemma MiddleOfCycle(l: Ledger, tick: Tick, decision: Decision, after: Ledger)
    requires after == CountSignal(Mark(DailyReset(l, tick.time), tick), decision)
    ensures l.trail <= after.trail && ProfitBetween(l, after) == 0.0
    ensures after.signalsDay == Some(Day(tick.time))
    ensures DailyOf(after.store)
            == if l.signalsDay.None? || l.signalsDay == Some(Day(tick.time))
               then DailyOf(l.store).(signals := l.store.risk.signalsToday + Approved(decision))
               else Daily(0.0, Approved(decision), l.store.portfolio.equity)
  {
    var l1 := DailyReset(l, tick.time);
    var l2 := Mark(l1, tick);
    ResetMovesDaily(l, tick.time, l1);
    MarkKeepsDaily(l1, tick, l2);
    SignalMovesDaily(l2, decision, after);
    NothingAdds(l, l1, l2);
    NothingAdds(l, l2, after);
  }

  lemma ExecutionTrades(cfg: Config, e: EngineState, decision: Decision, s: Store, tick: Tick)
    ensures Trades(Execution(cfg, e, decision, s, tick).transitions)
  {
  }

  lemma EndOfCycle(cfg: Config, l: Ledger, tick: Tick, decision: Decision, after: Ledger)
    requires after == Act(cfg, SignalExits(cfg, l, tick, decision), tick, decision)
    ensures l.trail <= after.trail && after.signalsDay == l.signalsDay
    ensures DailyOf(after.store) == DailyOf(l.store).(pnl := l.store.risk.dailyPnl + ProfitBetween(l, after))
  {
    var l1 := SignalExits(cfg, l, tick, decision);
    if !decision.approved || Open(l) == [] || decision.finalSignal.None? {
      NothingBetween(l, l1);
    } else {
      EvaluationTrades(cfg, l.engine, l.store, tick, Some(decision.finalSignal.value.side), false);
      CommitTrades(l, BarEvaluation(cfg, l.engine, l.store, tick, Some(decision.finalSignal.value.side), false), l1);
    }
    if !decision.approved {
      NothingBetween(l1, after);
    } else {
      ExecutionTrades(cfg, l1.engine, decision, l1.store, tick);
      CommitTrades(l1, Execution(cfg, l1.engine, decision, l1.store, tick), after);
    }
    ProfitAdds(l, l1, after);
  }

  /** The daily figures after a cycle, from those before it and what the cycle closed in all and early. */
  function NextDaily(d: Daily, sameDay: bool, closed: real, early: real, counted: int, equity: real): Daily {
    if sameDay then Daily(d.pnl + closed, d.signals + counted, d.startEquity)
    else Daily(closed - early, counted, equity)
  }

  lemma PhasesAdd(l: Ledger, early: Ledger, decided: Ledger, acted: Ledger, sameDay: bool, counted: int)
    requires l.trail <= early.trail <= decided.trail <= acted.trail && ProfitBetween(early, decided) == 0.0
    requires DailyOf(early.store) == DailyOf(l.store).(pnl := l.store.risk.dailyPnl + ProfitBetween(l, early))
    requires DailyOf(decided.store)
             == if sameDay then DailyOf(early.store).(signals := early.store.risk.signalsToday + counted)
                else Daily(0.0, counted, early.store.portfolio.equity)
    requires DailyOf(acted.store)
             == DailyOf(decided.store).(pnl := decided.store.risk.dailyPnl + ProfitBetween(decided, acted))
    ensures l.trail <= acted.trail
    ensures DailyOf(acted.store)
            == NextDaily(DailyOf(l.store), sameDay, ProfitBetween(l, acted), ProfitBetween(l, early), counted,
                         early.store.portfolio.equity)
  {
    ProfitAdds(l, early, decided);
    ProfitAdds(l, decided, acted);
  }

  lemma EarlyTrades(cfg: Config, l: Ledger, tick: Tick, early: Ledger)
    requires early == PreDecision(cfg, l, tick)
    ensures l.trail <= early.trail && early.signalsDay == l.signalsDay
    ensures DailyOf(early.store) == DailyOf(l.store).(pnl := l.store.risk.dailyPnl + ProfitBetween(l, early))
  {
    EvaluationTrades(cfg, l.engine, l.store, tick, None, true);
    CommitTrades(l, BarEvaluation(cfg, l.engine, l.store, tick, None, true), early);
  }

  predicate SameDay(l: Ledger, input: CycleInput) {
    l.signalsDay.None? || l.signalsDay == Some(Day(input.tick.time))
  }

  /** What a cycle makes of the daily figures; `early` is the ledger after its first phase. */
  lemma CycleMovesDaily(cfg: Config, l: Ledger, input: CycleInput, early: Ledger, after: Ledger)
    requires early == PreDecision(cfg, l, input.tick) && after == Cycle(cfg, l, input)
    ensures after.signalsDay == Some(Day(input.tick.time))
    ensures DailyOf(after.store)
            == NextDaily(DailyOf(l.store), SameDay(l, input), ProfitBetween(l, after), ProfitBetween(l, early),
                         Approved(input.decision), early.store.portfolio.equity)
  {
    var tick, decision := input.tick, input.decision;
    var decided := CountSignal(Mark(DailyReset(early, tick.time), tick), decision);
    var acted := Act(cfg, SignalExits(cfg, decided, tick, decision), tick, decision);
    EarlyTrades(cfg, l, tick, early);
    MiddleOfCycle(early, tick, decision, decided);
    EndOfCycle(cfg, decided, tick, decision, acted);
    PhasesAdd(l, early, decided, acted, SameDay(l, input), Approved(decision));
    CyclePublishesActed(cfg, l, input, early, decided, acted, after);
  }

  lemma CyclePublishesActed(
    cfg: Config, l: Ledger, input: CycleInput, early: Ledger, decided: Ledger, acted: Ledger, after: Ledger)
    requires early == PreDecision(cfg, l, input.tick) && after == Cycle(cfg, l, input)
    requires decided == CountSignal(Mark(DailyReset(early, input.tick.time), input.tick), input.decision)
    requires acted == Act(cfg, SignalExits(cfg, decided, input.tick, input.decision), input.tick, input.decision)
    ensures after.store == acted.store && after.trail == acted.trail && after.signalsDay == acted.signalsDay
    ensures ProfitBetween(l, after) == ProfitBetween(l, acted)
  {
  }

  // ---------------------------------------------------------------- the calendar day

  /** Days are the stretches of 24 hours from midnight, before the epoch too. */
  lemma DayIsCalendar(time: int, day: int)
    ensures Day(time) == day <==> 24 * 60 * 60 * day <= time < 24 * 60 * 60 * (day + 1)
  {
  }

  /** Some cycle of the run was on that day. */
  predicate Seen(inputs: seq<CycleInput>, day: int) { exists i | i in inputs :: Day(i.tick.time) == day }

  /** The profit of everything closed in the cycles of a day. */
  function ProfitOn(cfg: Config, l: Ledger, inputs: seq<CycleInput>, day: int): real {
    if inputs == [] then 0.0
    else
      var n := |inputs| - 1;
      var before := Cycles(cfg, l, inputs[..n]);
      ProfitOn(cfg, l, inputs[..n], day)
      + if Day(inputs[n].tick.time) == day then ProfitBetween(before, Cycle(cfg, before, inputs[n])) else 0.0
  }

  /** The part of it that was closed before the decision in the day's first cycle. */
  function ErasedOn(cfg: Config, l: Ledger, inputs: seq<CycleInput>, day: int): real {
    if inputs == [] then 0.0
    else
      var n := |inputs| - 1;
      var before := Cycles(cfg, l, inputs[..n]);
      ErasedOn(cfg, l, inputs[..n], day)
      + if Day(inputs[n].tick.time) == day && !Seen(inputs[..n], day)
        then ProfitBetween(before, PreDecision(cfg, before, inputs[n].tick)) else 0.0
  }

  function ApprovedOn(inputs: seq<CycleInput>, day: int): nat {
    if inputs == [] then 0
    else
      var n := |inputs| - 1;
      ApprovedOn(inputs[..n], day) + if Day(inputs[n].tick.time) == day && inputs[n].decision.approved then 1 else 0
  }

  /** The stored equity in the day's first cycle, once its fills and exits are applied. */
  function EquityStarting(cfg: Config, l: Ledger, inputs: seq<CycleInput>, day: int): real {
    if inputs == [] then 0.0
    else
      var n := |inputs| - 1;
      if Day(inputs[n].tick.time) == day && !Seen(inputs[..n], day)
      then PreDecision(cfg, Cycles(cfg, l, inputs[..n]), inputs[n].tick).store.portfolio.equity
      else EquityStarting(cfg, l, inputs[..n], day)
  }

  lemma {:induction false} NotSeen(cfg: Config, l: Ledger, inputs: seq<CycleInput>, day: int)
    requires !Seen(inputs, day)
    ensures ProfitOn(cfg, l, inputs, day) == 0.0 && ErasedOn(cfg, l, inputs, day) == 0.0
    ensures ApprovedOn(inputs, day) == 0
  {
    if inputs != [] {
      var n := |inputs| - 1;
      assert inputs[n] in inputs;
      assert forall i | i in inputs[..n] :: i in inputs;
      NotSeen(cfg, l, inputs[..n], day);
    }
  }

  /** In order, a day seen before the last cycle, and that cycle's day, is the day of the one before it. */
  lemma SeenIsLast(inputs: seq<CycleInput>)
    requires |inputs| >= 2 && InOrder(inputs)
    ensures var n := |inputs| - 1;
            Seen(inputs[..n], Day(inputs[n].tick.time))
            <==> Day(inputs[n - 1].tick.time) == Day(inputs[n].tick.time)
  {
    var n := |inputs| - 1;
    var day := Day(inputs[n].tick.time);
    if Seen(inputs[..n], day) {
      var i :| i in inputs[..n] && Day(i.tick.time) == day;
      var k :| 0 <= k < n && inputs[..n][k] == i;
      DayIsMonotone(inputs[k].tick.time, inputs[n - 1].tick.time);
      DayIsMonotone(inputs[n - 1].tick.time, inputs[n].tick.time);
    }
    assert inputs[n - 1] == inputs[..n][n - 1];
    assert inputs[n - 1] in inputs[..n];
  }

  lemma FirstPhaseIsEmpty(cfg: Config, cash: real, limits: RiskLimits, tick: Tick)
    ensures PreDecision(cfg, EmptyLedger(cash, limits), tick) == EmptyLedger(cash, limits)
  {
    var l := EmptyLedger(cash, limits);
    assert PendingFills(cfg, Idle(l.engine), tick) == Idle(l.engine);
    CommitIdle(l);
  }

  ghost predicate FiguresHold(cfg: Config, l0: Ledger, inputs: seq<CycleInput>, l: Ledger, day: int) {
    && l.signalsDay == Some(day)
    && l.store.risk.dailyPnl == ProfitOn(cfg, l0, inputs, day) - ErasedOn(cfg, l0, inputs, day)
    && l.store.risk.signalsToday == ApprovedOn(inputs, day)
    && l.store.risk.dailyStartEquity == EquityStarting(cfg, l0, inputs, day)
  }

  /** What another cycle of a day already begun adds to the sums over the run. */
  lemma SumsGoOn(cfg: Config, l0: Ledger, inputs: seq<CycleInput>, before: Ledger, l: Ledger, day: int)
    requires inputs != [] && day == Day(inputs[|inputs| - 1].tick.time) && Seen(inputs[..|inputs| - 1], day)
    requires before == Cycles(cfg, l0, inputs[..|inputs| - 1]) && l == Cycle(cfg, before, inputs[|inputs| - 1])
    ensures var init := inputs[..|inputs| - 1];
            && ProfitOn(cfg, l0, inputs, day) == ProfitOn(cfg, l0, init, day) + ProfitBetween(before, l)
            && ErasedOn(cfg, l0, inputs, day) == ErasedOn(cfg, l0, init, day)
            && ApprovedOn(inputs, day) == ApprovedOn(init, day) + Approved(inputs[|inputs| - 1].decision)
            && EquityStarting(cfg, l0, inputs, day) == EquityStarting(cfg, l0, init, day)
  {
  }

  /** Another cycle of a day already begun. */
  lemma DayGoesOn(cfg: Config, l0: Ledger, inputs: seq<CycleInput>, before: Ledger, l: Ledger, day: int)
    requires inputs != [] && day == Day(inputs[|inputs| - 1].tick.time) && Seen(inputs[..|inputs| - 1], day)
    requires before == Cycles(cfg, l0, inputs[..|inputs| - 1]) && l == Cycle(cfg, before, inputs[|inputs| - 1])
    requires FiguresHold(cfg, l0, inputs[..|inputs| - 1], before, day)
    ensures FiguresHold(cfg, l0, inputs, l, day)
  {
    var n := |inputs| - 1;
    SumsGoOn(cfg, l0, inputs, before, l, day);
    CycleMovesDaily(cfg, before, inputs[n], PreDecision(cfg, before, inputs[n].tick), l);
  }

  /** The first cycle of a day. */
  lemma DayBegins(cfg: Config, l0: Ledger, inputs: seq<CycleInput>, before: Ledger, l: Ledger, day: int)
    requires inputs != [] && day == Day(inputs[|inputs| - 1].tick.time) && !Seen(inputs[..|inputs| - 1], day)
    requires before == Cycles(cfg, l0, inputs[..|inputs| - 1]) && l == Cycle(cfg, before, inputs[|inputs| - 1])
    requires var early := PreDecision(cfg, before, inputs[|inputs| - 1].tick);
             || (before.signalsDay.Some? && before.signalsDay != Some(day))
             || (before.signalsDay.None? && early == before
                 && DailyOf(before.store) == Daily(0.0, 0, before.store.portfolio.equity))
    ensures FiguresHold(cfg, l0, inputs, l, day)
  {
    var n := |inputs| - 1;
    var early := PreDecision(cfg, before, inputs[n].tick);
    CycleMovesDaily(cfg, before, inputs[n], early, l);
    NotSeen(cfg, l0, inputs[..n], day);
    if early == before {
      NothingBetween(before, early);
    }
  }

  /**
   The daily figures at the end of any cycle of a run in time order. Daily profit is what was closed in
   the cycles of that calendar day, less what was closed before the decision in the first of them;
   signals are the decisions approved that day; and the start equity is the stored equity of that
   first cycle after its fills and exits.
   */
  lemma {:induction false} DailyFigures(
    cfg: Config, cash: real, limits: RiskLimits, inputs: seq<CycleInput>, l0: Ledger, l: Ledger, day: int)
    requires inputs != [] && InOrder(inputs) && day == Day(inputs[|inputs| - 1].tick.time)
    requires l0 == EmptyLedger(cash, limits) && l == Cycles(cfg, l0, inputs)
    ensures FiguresHold(cfg, l0, inputs, l, day)
  {
    var n := |inputs| - 1;
    var before := Cycles(cfg, l0, inputs[..n]);
    if n == 0 {
      FirstPhaseIsEmpty(cfg, cash, limits, inputs[n].tick);
      DayBegins(cfg, l0, inputs, before, l, day);
    } else {
      var earlier := Day(inputs[n - 1].tick.time);
      SeenIsLast(inputs);
      DailyFigures(cfg, cash, limits, inputs[..n], l0, before, earlier);
      if earlier == day {
        DayGoesOn(cfg, l0, inputs, before, l, day);
      } else {
        DayBegins(cfg, l0, inputs, before, l, day);
      }
    }
  }

  /** So daily profit is the calendar day's profit exactly when those first exits come to nothing. */
  lemma DailyProfitIsDaysIff(
    cfg: Config, cash: real, limits: RiskLimits, inputs: seq<CycleInput>, l0: Ledger, l: Ledger, day: int)
    requires inputs != [] && InOrder(inputs) && day == Day(inputs[|inputs| - 1].tick.time)
    requires l0 == EmptyLedger(cash, limits) && l == Cycles(cfg, l0, inputs)
    ensures l.store.risk.dailyPnl == ProfitOn(cfg, l0, inputs, day) <==> ErasedOn(cfg, l0, inputs, day) == 0.0
  {
    DailyFigures(cfg, cash, limits, inputs, l0, l, day);
  }

  /** So the recorded drawdown is the fall of the stored equity since that first cycle's fills and exits. */
  lemma DrawdownSinceDayStart(
    cfg: Config, cash: real, limits: RiskLimits, inputs: seq<CycleInput>, l0: Ledger, l: Ledger, day: int)
    requires inputs != [] && InOrder(inputs) && day == Day(inputs[|inputs| - 1].tick.time)
    requires l0 == EmptyLedger(cash, limits) && l == Cycles(cfg, l0, inputs)
    ensures l.store.risk.dailyDrawdownPct
            == DrawdownPct(EquityStarting(cfg, l0, inputs, day), l.store.portfolio.equity)
  {
    DailyFigures(cfg, cash, limits, inputs, l0, l, day);
    RunKeepsRecord(cfg, cash, limits, inputs, l, InitialStore(cash, limits));
  }
}
