/**
 How far cash can go below zero. The gate prices an order at the raw close, the fill then pays slippage
 and fee on top, so an order that passes the cash check can still overdraw the account. In a long-only
 run filled at the close the overdraft is bounded by that mark-up on the most cash ever held.
 */
module Overdraft {
  import opened Wrappers
  import opened StateStore
  import opened Pricing
  import opened Engine
  import opened Runtime
  import opened LedgerLaws
  import opened CycleLaws

  /** What slippage and fee add to the price of a purchase, as a fraction. */
  function MarkUp(cfg: Config): real { (1.0 + Slippage(cfg)) * (1.0 + FeeRate(cfg)) - 1.0 }

  function Cash(s: Store): real { s.portfolio.cash }

  /** The most cash held at any point of a run of transitions. */
  function PeakCash(s: Store, ts: seq<Transition>): real {
    if ts == [] then Cash(s)
    else
      var before := PeakCash(s, ts[..|ts| - 1]);
      if Cash(ApplyAll(s, ts)) > before then Cash(ApplyAll(s, ts)) else before
  }

  /** The lowest cash allowed once `peak` has been held. */
  function Floor(markUp: real, peak: real): real { -(markUp * peak) }

  /** At every point of the run, cash is above the overdraft bound for the peak so far. */
  ghost predicate NeverBelow(markUp: real, s: Store, ts: seq<Transition>) {
    && Cash(ApplyAll(s, ts)) >= Floor(markUp, PeakCash(s, ts))
    && (ts != [] ==> NeverBelow(markUp, s, ts[..|ts| - 1]))
  }

  ghost predicate LongAtClose(cfg: Config) {
    cfg.longOnly && cfg.fillAt == AtClose && cfg.slippageBps >= 0.0 && 0.0 <= cfg.feeBps <= 10000.0
  }

  predicate SoundBar(bar: Bar) { bar.low >= 0.0 && bar.close >= 0.0 }

  /** Prices are not negative, and a signal to buy quotes the bar's close and a target that is not. */
  ghost predicate Quoted(input: CycleInput) {
    && SoundBar(input.tick.bar)
    && (input.decision.finalSignal.Some? && input.decision.finalSignal.value.side == Buy ==>
          var signal := input.decision.finalSignal.value;
          signal.entryPrice == input.tick.bar.close && signal.takeProfit >= 0.0)
  }

  ghost predicate SoundLong(p: Position) {
    p.side == Long && p.quantity >= 0.0 && (p.takeProfit.Some? ==> p.takeProfit.value >= 0.0)
  }

  ghost predicate Solvent(cfg: Config, start: Store, l: Ledger) {
    && NeverBelow(MarkUp(cfg), start, l.trail)
    && l.engine.pending == []
    && forall p | p in Open(l) :: SoundLong(p)
  }

  // ---------------------------------------------------------------- transitions

  lemma PeakIsPeak(s: Store, ts: seq<Transition>, t: Transition)
    ensures PeakCash(s, ts + [t]) >= PeakCash(s, ts) >= Cash(ApplyAll(s, ts))
    ensures PeakCash(s, ts + [t]) >= Cash(ApplyAll(s, ts + [t]))
  {
    assert (ts + [t])[..|ts|] == ts;
  }

  lemma MarkUpIsPositive(cfg: Config)
    requires LongAtClose(cfg)
    ensures MarkUp(cfg) >= 0.0
  {
    ProductGrows(Slippage(cfg), FeeRate(cfg));
  }

  lemma ProductGrows(x: real, y: real)
    requires x >= 0.0 && y >= 0.0
    ensures (1.0 + x) * (1.0 + y) >= 1.0
  {
    assert (1.0 + x) * (1.0 + y) == 1.0 + x + y + x * y;
    assert x * y >= 0.0;
  }

  lemma FloorFalls(k: real, x: real, y: real)
    requires k >= 0.0 && x <= y
    ensures Floor(k, y) <= Floor(k, x)
  {
    assert k * (y - x) >= 0.0;
    assert k * y == k * x + k * (y - x);
  }

  lemma BoundMoves(k: real, cash: real, peak: real, newCash: real, newPeak: real)
    requires k >= 0.0 && cash >= Floor(k, peak) && newPeak >= peak >= cash
    requires newCash >= cash || newCash >= Floor(k, cash)
    ensures newCash >= Floor(k, newPeak)
  {
    FloorFalls(k, peak, newPeak);
    FloorFalls(k, cash, peak);
  }

  /** A transition that does not lower cash, or lowers it by no more than the mark-up allows. */
  lemma BoundExtends(k: real, start: Store, ts: seq<Transition>, t: Transition, cash: real, newCash: real)
    requires k >= 0.0 && NeverBelow(k, start, ts)
    requires cash == Cash(ApplyAll(start, ts)) && newCash == Cash(ApplyAll(start, ts + [t]))
    requires newCash >= cash || newCash >= Floor(k, cash)
    ensures NeverBelow(k, start, ts + [t])
  {
    PeakIsPeak(start, ts, t);
    assert (ts + [t])[..|ts|] == ts;
    BoundMoves(k, cash, PeakCash(start, ts), newCash, PeakCash(start, ts + [t]));
  }

  lemma RevaluedAreSound(ps: seq<Position>, prices: map<string, real>)
    requires forall p | p in ps :: SoundLong(p)
    ensures forall p | p in RevalueAll(ps, prices) :: SoundLong(p)
  {
    RevalueAllAt(ps, prices);
    var qs := RevalueAll(ps, prices);
    forall q | q in qs ensures SoundLong(q) {
      var i :| 0 <= i < |qs| && qs[i] == q;
      assert SoundLong(ps[i]);
    }
  }

  lemma StillBounded(k: real, start: Store, l: Ledger, t: Transition)
    requires k >= 0.0 && HistoryHolds(start, l) && NeverBelow(k, start, l.trail)
    requires Cash(Apply(l.store, t)) >= Cash(l.store)
    ensures NeverBelow(k, start, l.trail + [t])
  {
    ApplyAllSnoc(start, l.trail, t);
    BoundExtends(k, start, l.trail, t, Cash(l.store), Cash(Apply(l.store, t)));
  }

  lemma QuietIsSolvent(cfg: Config, start: Store, l: Ledger, t: Transition, after: Ledger)
    requires LongAtClose(cfg) && HistoryHolds(start, l) && Solvent(cfg, start, l)
    requires (t.MarkToMarket? || t.RiskUpdated?) && after == Issue(l, t)
    ensures Solvent(cfg, start, after)
  {
    MarkUpIsPositive(cfg);
    StillBounded(MarkUp(cfg), start, l, t);
    if t.MarkToMarket? {
      RevaluedAreSound(Open(l), t.prices);
    }
  }

  // ---------------------------------------------------------------- exits

  /** What a long position pays out on top of nothing: its exit value less the exit fee. */
  lemma {:induction false} ClosingPays(cfg: Config, p: Position, price: real)
    requires LongAtClose(cfg) && SoundLong(p) && price >= 0.0
    ensures ClosingPnl(cfg, p, price) + Notional(p) >= 0.0
  {
    var value := price * p.quantity;
    assert value >= 0.0;
    assert PnlAt(p, price) + Notional(p) == value by {
      assert (price - p.entryPrice) * p.quantity == price * p.quantity - p.entryPrice * p.quantity;
    }
    FeeIsPart(value, cfg.feeBps);
  }

  lemma FeeIsPart(value: real, feeBps: real)
    requires value >= 0.0 && 0.0 <= feeBps <= 10000.0
    ensures value * feeBps / 10000.0 <= value
  {
    assert value * feeBps <= value * 10000.0;
  }

  lemma FindOnly(ps: seq<Position>, p: Position)
    requires Distinct(ps) && p in ps
    ensures Find(ps, p.id) == Some(p)
  {
    FindProperties(ps, p.id);
    assert p.id in Ids(ps);
  }

  lemma ClosingIsSolvent(
    cfg: Config, start: Store, l: Ledger, p: Position, price: real, reason: ExitReason, time: int, after: Ledger)
    requires LongAtClose(cfg) && Core(start, l) && Solvent(cfg, start, l)
    requires p in Open(l) && price >= 0.0 && after == CloseStep(cfg, l, p, price, reason, time)
    ensures Solvent(cfg, start, after)
  {
    FindOnly(Open(l), p);
    ClosingPays(cfg, p, price);
    MarkUpIsPositive(cfg);
    CloseKeepsTables(cfg, start, l, p, price, reason, time);
    BoundExtends(MarkUp(cfg), start, l.trail, PositionClosed(p.id, ClosingPnl(cfg, p, price)),
                 Cash(l.store), Cash(after.store));
    WithoutProperties(Open(l), p.id);
  }

  lemma ExitPriceIsSound(
    cfg: Config, p: Position, bar: Bar, held: int, approvedSide: Option<OrderSide>, checkTimeout: bool)
    requires SoundLong(p) && SoundBar(bar)
    ensures var exit := CheckExit(cfg, p, bar, held, approvedSide, checkTimeout);
            exit.Leave? ==> exit.price >= 0.0
  {
  }

  lemma CountingIsSolvent(cfg: Config, start: Store, l: Ledger, id: Id, held: nat)
    requires Inv(cfg, start, l) && Solvent(cfg, start, l) && id in Ids(Open(l))
    ensures Core(start, Counted(l, id, held)) && Solvent(cfg, start, Counted(l, id, held))
  {
    CountStepKeeps(cfg, start, l, id, held);
  }

  lemma StepExitIsSolvent(
    cfg: Config, start: Store, l: Ledger, p: Position, tick: Tick,
    approvedSide: Option<OrderSide>, incrementBars: bool, after: Ledger)
    requires LongAtClose(cfg) && Inv(cfg, start, l) && Solvent(cfg, start, l) && SoundBar(tick.bar)
    requires p in Open(l) && after == StepExit(cfg, l, p, tick, approvedSide, incrementBars)
    ensures Solvent(cfg, start, after)
  {
    if p.symbol != tick.symbol {
      assert after == l;
    } else {
      var held := BarsHeld(l.engine, p.id) + if incrementBars then 1 else 0;
      var counted := if incrementBars then Counted(l, p.id, held) else l;
      assert p.id in Ids(Open(l));
      CountingIsSolvent(cfg, start, l, p.id, held);
      assert Core(start, counted) && Solvent(cfg, start, counted) && p in Open(counted);
      var exit := CheckExit(cfg, p, tick.bar, held, approvedSide, incrementBars);
      if exit.Leave? {
        ExitPriceIsSound(cfg, p, tick.bar, held, approvedSide, incrementBars);
        ClosingIsSolvent(cfg, start, counted, p, exit.price, exit.reason, tick.time, after);
      } else {
        assert after == counted;
      }
    }
  }

  lemma {:induction false} SweepIsSolvent(
    cfg: Config, start: Store, l: Ledger, ps: seq<Position>, tick: Tick,
    approvedSide: Option<OrderSide>, incrementBars: bool, after: Ledger)
    requires LongAtClose(cfg) && Inv(cfg, start, l) && Solvent(cfg, start, l) && SoundBar(tick.bar)
    requires Distinct(ps) && forall p | p in ps :: p in Open(l)
    requires after == Commit(l, ExitSweep(cfg, Idle(l.engine), ps, tick, approvedSide, incrementBars))
    ensures Solvent(cfg, start, after)
  {
    CommitIdle(l);
    if ps != [] {
      var n := |ps| - 1;
      var swept := ExitSweep(cfg, Idle(l.engine), ps[..n], tick, approvedSide, incrementBars);
      var mid := Commit(l, swept);
      LastIsOther(ps);
      SubsetIds(ps[..n], Open(l));
      ExitSweepKeeps(cfg, start, l, Idle(l.engine), ps[..n], tick, approvedSide, incrementBars, mid);
      SweepIsSolvent(cfg, start, l, ps[..n], tick, approvedSide, incrementBars, mid);
      StillThere(l, mid, ps[n], Ids(ps[..n]));
      CommitExit(cfg, l, swept, ps[n], tick, approvedSide, incrementBars);
      StepExitIsSolvent(cfg, start, mid, ps[n], tick, approvedSide, incrementBars, after);
    }
  }

  lemma SubsetIds(ps: seq<Position>, qs: seq<Position>)
    requires forall p | p in ps :: p in qs
    ensures Ids(ps) <= Ids(qs)
  {
  }

  // ---------------------------------------------------------------- purchases

  lemma Overpay(cash: real, notional: real, markUp: real)
    requires markUp >= 0.0 && notional <= cash
    ensures cash - notional * (1.0 + markUp) >= Floor(markUp, cash)
  {
    assert notional * (1.0 + markUp) <= cash * (1.0 + markUp);
  }

  lemma PurchaseCost(cfg: Config, close: real, quantity: real, p: Position)
    requires p.quantity == quantity && p.entryPrice == close * (1.0 + Slippage(cfg))
    ensures Notional(p) + OpeningFee(cfg, p) == quantity * close * (1.0 + MarkUp(cfg))
  {
    var n := close * (1.0 + Slippage(cfg)) * quantity;
    assert Notional(p) == n && OpeningFee(cfg, p) == n * FeeRate(cfg);
    assert n + n * FeeRate(cfg) == n * (1.0 + FeeRate(cfg));
    Reassociate(close, 1.0 + Slippage(cfg), quantity, 1.0 + FeeRate(cfg));
  }

  lemma Reassociate(a: real, b: real, c: real, d: real)
    ensures a * b * c * d == c * a * (b * d)
  {
  }

  lemma GateChecksCash(s: Store, quantity: real, price: real)
    requires s.portfolio.equity != 0.0 && CheckGate(s, quantity, Some(price)) == Passed
    ensures quantity * price <= Cash(s)
  {
  }

  ghost predicate GatedBuy(l: Ledger, tick: Tick, order: PendingEntry) {
    && order.side == Buy && order.positionSide == Long && order.quantity >= 0.0
    && order.takeProfit >= 0.0
    && order.quantity * tick.bar.close <= Cash(l.store)
  }

  /** The order a long-only engine fills at the close was within the cash at the raw close. */
  lemma BuyIsGated(cfg: Config, l: Ledger, input: CycleInput, quantity: real, order: PendingEntry)
    requires LongAtClose(cfg) && Quoted(input) && input.decision.finalSignal.Some?
    requires input.decision.finalSignal.value.side == Buy && quantity > 0.0
    requires order == OrderFor(l.engine.nextId, quantity, input.decision.finalSignal.value, input.tick.symbol)
    requires l.store.portfolio.equity != 0.0
    requires CheckGate(l.store, quantity, Some(input.decision.finalSignal.value.entryPrice)) == Passed
    ensures GatedBuy(l, input.tick, order)
  {
    GateChecksCash(l.store, quantity, input.tick.bar.close);
  }

  lemma ActIsSolvent(cfg: Config, start: Store, l: Ledger, input: CycleInput, after: Ledger)
    requires LongAtClose(cfg) && Inv(cfg, start, l) && Solvent(cfg, start, l) && Quoted(input)
    requires after == Act(cfg, l, input.tick, input.decision)
    ensures Solvent(cfg, start, after)
  {
    if input.decision.approved {
      var b := Execution(cfg, l.engine, input.decision, l.store, input.tick);
      assert after == Commit(l, b);
      if b.transitions == [] {
        NoPurchaseIsSolvent(cfg, start, l, b, after);
      } else {
        var quantity, order := OpeningCase(cfg, l.engine, input.decision, l.store, input.tick, b);
        BuyIsGated(cfg, l, input, quantity, order);
        OpeningCommits(cfg, l, order, input.tick, b, after);
        PurchaseIsSolvent(cfg, start, l, order, input.tick, after);
      }
    }
  }

  lemma NoPurchaseIsSolvent(cfg: Config, start: Store, l: Ledger, b: Batch, after: Ledger)
    requires Solvent(cfg, start, l) && after == Commit(l, b)
    requires b.transitions == [] && b.engine.pending == l.engine.pending
    ensures Solvent(cfg, start, after)
  {
    assert l.trail + [] == l.trail;
  }

  /** What a gated purchase leaves of the cash. */
  lemma PurchaseFits(cfg: Config, cash: real, close: real, p: Position)
    requires LongAtClose(cfg) && p.entryPrice == close * (1.0 + Slippage(cfg)) && p.quantity * close <= cash
    ensures cash - (Notional(p) + OpeningFee(cfg, p)) >= Floor(MarkUp(cfg), cash)
  {
    PurchaseCost(cfg, close, p.quantity, p);
    MarkUpIsPositive(cfg);
    Overpay(cash, p.quantity * close, MarkUp(cfg));
  }

  lemma {:induction false} SpendingIsBounded(k: real, start: Store, l: Ledger, p: Position, cost: real)
    requires k >= 0.0 && HistoryHolds(start, l) && NeverBelow(k, start, l.trail)
    requires Cash(l.store) - cost >= Floor(k, Cash(l.store))
    ensures NeverBelow(k, start, l.trail + [PositionOpened(p, cost)])
  {
    ApplyAllSnoc(start, l.trail, PositionOpened(p, cost));
    BoundExtends(k, start, l.trail, PositionOpened(p, cost), Cash(l.store), Cash(l.store) - cost);
  }

  lemma GatedPosition(cfg: Config, l: Ledger, e: EngineState, order: PendingEntry, tick: Tick, p: Position)
    requires LongAtClose(cfg) && GatedBuy(l, tick, order)
    requires p == NewPosition(cfg, e, order, tick, false)
    ensures SoundLong(p)
    ensures Cash(l.store) - (Notional(p) + OpeningFee(cfg, p)) >= Floor(MarkUp(cfg), Cash(l.store))
  {
    PurchaseFits(cfg, Cash(l.store), tick.bar.close, p);
  }

  lemma PurchaseIsSolvent(cfg: Config, start: Store, l: Ledger, order: PendingEntry, tick: Tick, after: Ledger)
    requires LongAtClose(cfg) && HistoryHolds(start, l) && Solvent(cfg, start, l)
    requires GatedBuy(l, tick, order)
    requires after == OpenStep(cfg, Drawn(l), order, tick, false)
    ensures Solvent(cfg, start, after)
  {
    var p := NewPosition(cfg, Drawn(l).engine, order, tick, false);
    GatedPosition(cfg, l, Drawn(l).engine, order, tick, p);
    MarkUpIsPositive(cfg);
    SpendingIsBounded(MarkUp(cfg), start, l, p, Notional(p) + OpeningFee(cfg, p));
  }

  // ---------------------------------------------------------------- cycles and runs

  lemma PreDecisionIsSolvent(cfg: Config, start: Store, l: Ledger, tick: Tick, after: Ledger)
    requires LongAtClose(cfg) && Inv(cfg, start, l) && Solvent(cfg, start, l) && SoundBar(tick.bar)
    requires after == PreDecision(cfg, l, tick)
    ensures Solvent(cfg, start, after)
  {
    assert PendingFills(cfg, Idle(l.engine), tick) == Idle(l.engine);
    SweepIsSolvent(cfg, start, l, Open(l), tick, None, true, after);
  }

  lemma DecisionIsSolvent(cfg: Config, start: Store, l: Ledger, input: CycleInput, after: Ledger)
    requires LongAtClose(cfg) && Inv(cfg, start, l) && Solvent(cfg, start, l)
    requires after == CountSignal(Mark(DailyReset(l, input.tick.time), input.tick), input.decision)
    ensures Solvent(cfg, start, after) && Inv(cfg, start, after)
  {
    var tick := input.tick;
    var l1 := DailyReset(l, tick.time);
    DailyResetKeeps(cfg, start, l, tick.time, l1);
    if l1.trail != l.trail {
      var dated := l.(signalsDay := l1.signalsDay);
      QuietIsSolvent(cfg, start, dated, l1.trail[|l.trail|], l1);
    }
    var l2 := Mark(l1, tick);
    MarkKeeps(cfg, start, l1, tick, l2);
    if l2 != l1 {
      QuietIsSolvent(cfg, start, l1, MarkToMarket(map[tick.symbol := tick.bar.close]), l2);
    }
    CountSignalKeeps(cfg, start, l2, input.decision, after);
    if after != l2 {
      QuietIsSolvent(cfg, start, l2, after.trail[|l2.trail|], after);
    }
  }

  lemma SignalIsSolvent(cfg: Config, start: Store, l: Ledger, tick: Tick, decision: Decision, after: Ledger)
    requires LongAtClose(cfg) && Inv(cfg, start, l) && Solvent(cfg, start, l) && SoundBar(tick.bar)
    requires after == SignalExits(cfg, l, tick, decision)
    ensures Solvent(cfg, start, after) && Inv(cfg, start, after)
  {
    SignalExitsKeep(cfg, start, l, tick, decision, after);
    if after != l {
      SweepIsSolvent(cfg, start, l, Open(l), tick, Some(decision.finalSignal.value.side), false, after);
    }
  }

  lemma CycleIsSolvent(cfg: Config, start: Store, l: Ledger, input: CycleInput, after: Ledger)
    requires LongAtClose(cfg)
    requires Inv(cfg, start, l) && Solvent(cfg, start, l) && Quoted(input)
    requires after == Cycle(cfg, l, input)
    ensures Solvent(cfg, start, after)
  {
    var tick, decision := input.tick, input.decision;
    var l1 := PreDecision(cfg, l, tick);
    PreDecisionKeeps(cfg, start, l, tick, l1);
    PreDecisionIsSolvent(cfg, start, l, tick, l1);
    var l2 := CountSignal(Mark(DailyReset(l1, tick.time), tick), decision);
    DecisionIsSolvent(cfg, start, l1, input, l2);
    var l3 := SignalExits(cfg, l2, tick, decision);
    SignalIsSolvent(cfg, start, l2, tick, decision, l3);
    var l4 := Act(cfg, l3, tick, decision);
    ActIsSolvent(cfg, start, l3, input, l4);
    assert after == Publish(l4, tick);
  }

  lemma NothingSpent(k: real, s: Store)
    requires k >= 0.0 && Cash(s) >= 0.0
    ensures NeverBelow(k, s, [])
  {
    assert k * Cash(s) >= 0.0;
  }

  /**
   The overdraft bound, at every transition of every long-only run filled at the close: cash never
   falls below minus the purchase mark-up times the most cash held so far.
   */
  lemma {:induction false} OverdraftIsBounded(
    cfg: Config, cash: real, limits: RiskLimits, inputs: seq<CycleInput>, l: Ledger)
    requires LongAtClose(cfg) && cash >= 0.0
    requires forall i | i in inputs :: Quoted(i)
    requires l == Cycles(cfg, EmptyLedger(cash, limits), inputs)
    ensures Solvent(cfg, InitialStore(cash, limits), l)
    ensures l.store.portfolio.cash >= Floor(MarkUp(cfg), PeakCash(InitialStore(cash, limits), l.trail))
  {
    var start := InitialStore(cash, limits);
    RunKeeps(cfg, cash, limits, inputs);
    if inputs == [] {
      MarkUpIsPositive(cfg);
      NothingSpent(MarkUp(cfg), start);
    } else {
      var n := |inputs| - 1;
      var before := Cycles(cfg, EmptyLedger(cash, limits), inputs[..n]);
      assert inputs[n] in inputs;
      OverdraftIsBounded(cfg, cash, limits, inputs[..n], before);
      RunKeeps(cfg, cash, limits, inputs[..n]);
      CycleIsSolvent(cfg, start, before, inputs[n], l);
    }
  }

  // ---------------------------------------------------------------- the bound is reached

  const ALL_IN := RiskLimits(5.0, 1, 100.0)

  /** The whole account in one trade. */
  function SpendAll(slippageBps: real, feeBps: real): Config {
    Config(AtClose, slippageBps, feeBps, 48, 1.0, true, 100.0)
  }

  function AllInOne(): CycleInput {
    CycleInput(Tick("A", Bar(100.0, 100.0, 100.0, 100.0), 0),
               Decision(true, Some(Signal(Buy, 100.0, 90.0, 120.0, 1.0))))
  }

  lemma FirstBar(cfg: Config, l: Ledger, mid: Ledger)
    requires l == EmptyLedger(1000.0, ALL_IN) && mid == BeforeAct(cfg, l, AllInOne())
    ensures mid == Issue(l.(signalsDay := Some(0)), RiskUpdated(SignalCount(l.store)))
  {
    assert PendingFills(cfg, Idle(l.engine), AllInOne().tick) == Idle(l.engine);
    CommitIdle(l);
    assert PreDecision(cfg, l, AllInOne().tick) == l;
  }

  lemma TenIsAll(cfg: Config, s: Store)
    requires cfg == SpendAll(cfg.slippageBps, cfg.feeBps)
    requires s.portfolio.cash == 1000.0 && s.portfolio.equity == 1000.0 && s.portfolio.openPositions == []
    requires s.risk.openExposurePct == 0.0 && s.risk.limits == ALL_IN
    ensures PositionSize(cfg, s, 100.0, 90.0, 1.0) == 10.0
    ensures CheckGate(s, 10.0, Some(100.0)) == Passed
  {
    assert TargetQty(cfg, s, 100.0, 90.0, 1.0) == 10.0;
    assert (10.0 * UNITS_PER_LOT).Floor == 1000000000;
    assert Round8(10.0) == 10.0;
  }

  lemma PeakOfTwo(s: Store, t0: Transition, t1: Transition)
    requires Cash(Apply(s, t0)) == Cash(s) && Cash(Apply(Apply(s, t0), t1)) <= Cash(s)
    ensures PeakCash(s, [t0, t1]) == Cash(s) && ApplyAll(s, [t0, t1]) == Apply(Apply(s, t0), t1)
  {
    assert [t0, t1][..1] == [t0] && [t0][..0] == [];
    assert ApplyAll(s, [t0]) == Apply(s, t0);
    assert PeakCash(s, [t0]) == Cash(s);
  }

  lemma Scales(k: real)
    ensures 1000.0 - 10.0 * 100.0 * (1.0 + k) == Floor(k, 1000.0)
  {
  }

  lemma PurchaseSpends(cfg: Config, mid: Ledger, order: PendingEntry, after: Ledger)
    requires LongAtClose(cfg) && Cash(mid.store) == 1000.0
    requires order.quantity == 10.0 && order.side == Buy
    requires after == OpenStep(cfg, Drawn(mid), order, AllInOne().tick, false)
    ensures Cash(after.store) == Floor(MarkUp(cfg), 1000.0)
  {
    var p := NewPosition(cfg, Drawn(mid).engine, order, AllInOne().tick, false);
    PurchaseCost(cfg, 100.0, 10.0, p);
    Scales(MarkUp(cfg));
  }

  /** The bound cannot be improved: whatever the slippage and fee, one purchase of the whole account reaches it. */
  lemma OverdraftIsReached(cfg: Config, l: Ledger)
    requires LongAtClose(cfg) && cfg == SpendAll(cfg.slippageBps, cfg.feeBps)
    requires l == Cycle(cfg, EmptyLedger(1000.0, ALL_IN), AllInOne())
    ensures PeakCash(InitialStore(1000.0, ALL_IN), l.trail) == 1000.0
    ensures l.store.portfolio.cash == Floor(MarkUp(cfg), 1000.0)
  {
    var start, input := InitialStore(1000.0, ALL_IN), AllInOne();
    var mid := BeforeAct(cfg, EmptyLedger(1000.0, ALL_IN), input);
    FirstBar(cfg, EmptyLedger(1000.0, ALL_IN), mid);
    TenIsAll(cfg, mid.store);
    var b := Execution(cfg, mid.engine, input.decision, mid.store, input.tick);
    var order := OrderFor(mid.engine.nextId, 10.0, input.decision.finalSignal.value, "A");
    var acted := Act(cfg, mid, input.tick, input.decision);
    OpeningCommits(cfg, mid, order, input.tick, b, acted);
    PurchaseSpends(cfg, mid, order, acted);
    MarkUpIsPositive(cfg);
    assert l.trail == [mid.trail[0], acted.trail[1]];
    PeakOfTwo(start, mid.trail[0], acted.trail[1]);
  }

  // ---------------------------------------------------------------- when cash cannot go below zero

  /** What the bound is about: a long-only run filled at the close, on quoted prices, from an account not in debt. */
  ghost predicate SoundRun(cfg: Config, cash: real, inputs: seq<CycleInput>) {
    LongAtClose(cfg) && cash >= 0.0 && forall i | i in inputs :: Quoted(i)
  }

  function CashAfter(cfg: Config, cash: real, limits: RiskLimits, inputs: seq<CycleInput>): real {
    Cash(Cycles(cfg, EmptyLedger(cash, limits), inputs).store)
  }

  /** No account that trades at this slippage and fee ends a run in debt. */
  ghost predicate NeverInDebt(slippageBps: real, feeBps: real) {
    forall cfg, cash, limits, inputs
      | SoundRun(cfg, cash, inputs) && cfg.slippageBps == slippageBps && cfg.feeBps == feeBps ::
      CashAfter(cfg, cash, limits, inputs) >= 0.0
  }

  lemma MarkUpVanishesIff(cfg: Config)
    requires LongAtClose(cfg)
    ensures MarkUp(cfg) == 0.0 <==> cfg.slippageBps == 0.0 && cfg.feeBps == 0.0
  {
    ProductExceeds(Slippage(cfg), FeeRate(cfg));
  }

  lemma ProductExceeds(x: real, y: real)
    requires x >= 0.0 && y >= 0.0
    ensures (1.0 + x) * (1.0 + y) - 1.0 == 0.0 <==> x == 0.0 && y == 0.0
  {
    assert (1.0 + x) * (1.0 + y) - 1.0 == x + y + x * y;
    assert x * y >= 0.0;
  }

  lemma FreeTradesStayAbove(cfg: Config, cash: real, limits: RiskLimits, inputs: seq<CycleInput>)
    requires SoundRun(cfg, cash, inputs) && MarkUp(cfg) == 0.0
    ensures CashAfter(cfg, cash, limits, inputs) >= 0.0
  {
    OverdraftIsBounded(cfg, cash, limits, inputs, Cycles(cfg, EmptyLedger(cash, limits), inputs));
  }

  lemma OneCycle(cfg: Config, l: Ledger, input: CycleInput)
    ensures Cycles(cfg, l, [input]) == Cycle(cfg, l, input)
  {
    assert [input][..0] == [];
    assert Cycles(cfg, l, []) == l;
  }

  lemma AllInOneIsSound(cfg: Config)
    requires LongAtClose(cfg)
    ensures SoundRun(cfg, 1000.0, [AllInOne()])
  {
  }

  lemma NegativeFloor(k: real)
    requires k > 0.0
    ensures Floor(k, 1000.0) < 0.0
  {
  }

  lemma Overdraws(cfg: Config, l: Ledger)
    requires LongAtClose(cfg) && cfg == SpendAll(cfg.slippageBps, cfg.feeBps) && MarkUp(cfg) != 0.0
    requires l == Cycle(cfg, EmptyLedger(1000.0, ALL_IN), AllInOne())
    ensures Cash(l.store) < 0.0
  {
    OverdraftIsReached(cfg, l);
    MarkUpIsPositive(cfg);
    NegativeFloor(MarkUp(cfg));
  }

  lemma AllInOneOverdraws(cfg: Config)
    requires LongAtClose(cfg) && cfg == SpendAll(cfg.slippageBps, cfg.feeBps) && MarkUp(cfg) != 0.0
    ensures SoundRun(cfg, 1000.0, [AllInOne()]) && CashAfter(cfg, 1000.0, ALL_IN, [AllInOne()]) < 0.0
  {
    AllInOneIsSound(cfg);
    OneCycle(cfg, EmptyLedger(1000.0, ALL_IN), AllInOne());
    Overdraws(cfg, Cycle(cfg, EmptyLedger(1000.0, ALL_IN), AllInOne()));
  }

  lemma FreeIsSafe(slippageBps: real, feeBps: real)
    requires slippageBps == 0.0 && feeBps == 0.0
    ensures NeverInDebt(slippageBps, feeBps)
  {
    forall cfg, cash, limits, inputs
      | SoundRun(cfg, cash, inputs) && cfg.slippageBps == slippageBps && cfg.feeBps == feeBps
      ensures CashAfter(cfg, cash, limits, inputs) >= 0.0
    {
      MarkUpVanishesIff(cfg);
      FreeTradesStayAbove(cfg, cash, limits, inputs);
    }
  }

  lemma CostlyIsNot(slippageBps: real, feeBps: real)
    requires slippageBps >= 0.0 && 0.0 <= feeBps <= 10000.0 && (slippageBps != 0.0 || feeBps != 0.0)
    ensures !NeverInDebt(slippageBps, feeBps)
  {
    var spend := SpendAll(slippageBps, feeBps);
    MarkUpVanishesIff(spend);
    AllInOneOverdraws(spend);
  }

  /**
   The gate keeps a long-only account filled at the close out of debt, on every run, exactly when trading
   costs nothing: any slippage or fee at all is enough for a purchase that passes it to overdraw.
   */
  lemma NeverInDebtIff(slippageBps: real, feeBps: real)
    requires slippageBps >= 0.0 && 0.0 <= feeBps <= 10000.0
    ensures NeverInDebt(slippageBps, feeBps) <==> slippageBps == 0.0 && feeBps == 0.0
  {
    if slippageBps == 0.0 && feeBps == 0.0 {
      FreeIsSafe(slippageBps, feeBps);
    } else {
      CostlyIsNot(slippageBps, feeBps);
    }
  }
}
