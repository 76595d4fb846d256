/**
 The position cap is exact: with deferred fills, on any symbols and under any positive limit, some run
 ends with every position open that the cap of RunLaws allows. The run: an account of n units of 100
 buys one unit at a time in a market that stands still.
 */
module CapReached {
  import opened Wrappers
  import opened Sums
  import opened StateStore
  import opened Pricing
  import opened Engine
  import opened Runtime
  import opened LedgerLaws
  import opened CycleLaws
  import opened RunLaws

  // ---------------------------------------------------------------- the account and its market

  /** One unit of n, in per cent. */
  function Share(n: nat): real
    requires n >= 1
  {
    100.0 / n as real
  }

  function Capital(n: nat): real { 100.0 * n as real }

  /** Trades one unit of n, at no cost, with entries deferred to the next open. */
  function Deferring(n: nat, maxBars: nat): Config
    requires n >= 1
  {
    Config(AtNextOpen, 0.0, 0.0, maxBars, 1.0, false, Share(n))
  }

  function Limits(limit: int): RiskLimits { RiskLimits(5.0, limit, 100.0) }

  function FlatTick(symbol: string): Tick { Tick(symbol, Bar(100.0, 100.0, 100.0, 100.0), 0) }

  function UnitBuy(): Decision { Decision(true, Some(Signal(Buy, 100.0, 90.0, 120.0, 1.0))) }

  function BuyIn(symbol: string): CycleInput { CycleInput(FlatTick(symbol), UnitBuy()) }

  function HoldIn(symbol: string): CycleInput { CycleInput(FlatTick(symbol), Decision(false, None)) }

  predicate Unit(p: Position) {
    && p.side == Long && p.quantity == 1.0 && p.entryPrice == 100.0 && p.unrealizedPnl == 0.0
    && p.stopLoss == Some(90.0) && p.takeProfit == Some(120.0)
  }

  predicate UnitOrder(q: PendingEntry) {
    q.side == Buy && q.positionSide == Long && q.quantity == 1.0 && q.stopLoss == 90.0 && q.takeProfit == 120.0
  }

  /** Every position is one unit, and the books agree with that. */
  ghost predicate Balanced(n: nat, limit: int, s: Store)
    requires n >= 1
  {
    var held := |s.portfolio.openPositions|;
    && (forall p | p in s.portfolio.openPositions :: Unit(p))
    && s.portfolio.equity == Capital(n) && s.portfolio.cash == Capital(n) - 100.0 * held as real
    && s.risk.openExposurePct == Share(n) * held as real && s.risk.limits == Limits(limit)
  }

  ghost predicate BarsUpTo(e: EngineState, k: nat) { forall id | id in e.positionBars :: e.positionBars[id] <= k }

  /** After at most k cycles of the run. */
  ghost predicate Steady(n: nat, limit: int, l: Ledger, k: nat)
    requires n >= 1
  {
    && Balanced(n, limit, l.store) && BarsUpTo(l.engine, k)
    && (forall q | q in l.engine.pending :: UnitOrder(q))
    && (l.signalsDay == None || l.signalsDay == Some(0))
  }

  // ---------------------------------------------------------------- the arithmetic of a unit

  lemma ShareOfCapital(n: nat, held: nat)
    requires n >= 1
    ensures Share(n) * held as real * Capital(n) / 100.0 == 100.0 * held as real
    ensures Capital(n) * Share(n) == 10000.0
  {
    var whole := Capital(n) * Share(n);
    assert whole == 10000.0 by {
      assert Share(n) * n as real == 100.0;
      assert whole == 100.0 * (Share(n) * n as real);
    }
    Swap(Share(n), held as real, Capital(n));
  }

  lemma Swap(x: real, y: real, z: real)
    ensures x * y * z == z * x * y
  {
  }

  lemma ExposureOfUnit(n: nat)
    requires n >= 1
    ensures ExposurePct(100.0, Capital(n)) == Share(n)
  {
    var x := n as real;
    assert 100.0 / (100.0 * x) == 1.0 / x;
    assert 1.0 / x * 100.0 == 100.0 / x;
  }

  /** With a unit to spare, the size of an order is one unit. */
  lemma SizeIsUnit(n: nat, limit: int, maxBars: nat, s: Store)
    requires n >= 1 && Balanced(n, limit, s) && |s.portfolio.openPositions| < n
    ensures PositionSize(Deferring(n, maxBars), s, 100.0, 90.0, 1.0) == 1.0
  {
    var cfg, held := Deferring(n, maxBars), |s.portfolio.openPositions|;
    ShareOfCapital(n, held);
    assert TargetQty(cfg, s, 100.0, 90.0, 1.0) == 1.0;
    RoomForUnit(n, held, s);
    assert (1.0 * UNITS_PER_LOT).Floor == 100000000;
    assert Round8(1.0) == 1.0;
  }

  lemma RoomForUnit(n: nat, held: nat, s: Store)
    requires n >= 1 && held < n && s.portfolio.equity == Capital(n)
    requires s.portfolio.cash == Capital(n) - 100.0 * held as real
    requires s.risk.openExposurePct == Share(n) * held as real && s.risk.limits.maxExposurePct == 100.0
    ensures CashQty(s, 100.0) >= 1.0 && ExposureQty(s, 100.0) >= 1.0
  {
    ShareOfCapital(n, held);
    var room := 100.0 - Share(n) * held as real;
    assert room * Capital(n) == 100.0 * (Capital(n) - 100.0 * held as real);
    assert room > 0.0;
  }

  lemma GatePasses(n: nat, limit: int, s: Store)
    requires n >= 1 && Balanced(n, limit, s) && |s.portfolio.openPositions| < n && |s.portfolio.openPositions| < limit
    ensures s.portfolio.equity != 0.0 && CheckGate(s, 1.0, Some(100.0)) == Passed
  {
    var held := |s.portfolio.openPositions|;
    ShareOfCapital(n, held);
    assert (100.0 * held as real + 100.0) / Capital(n) * 100.0 <= 100.0;
  }

  // ---------------------------------------------------------------- fills

  /** A fill turns a unit order into a unit position. */
  lemma FillIsUnit(n: nat, limit: int, l: Ledger, k: nat, maxBars: nat, q: PendingEntry, symbol: string, after: Ledger)
    requires n >= 1 && Steady(n, limit, l, k) && UnitOrder(q)
    requires after == OpenStep(Deferring(n, maxBars), l, q, FlatTick(symbol), true)
    ensures Steady(n, limit, after, k)
    ensures |Open(after)| == |Open(l)| + 1 && after.engine.pending == l.engine.pending
  {
    var cfg := Deferring(n, maxBars);
    var p := NewPosition(cfg, l.engine, q, FlatTick(symbol), true);
    assert Slippage(cfg) == 0.0;
    assert Unit(p) && Notional(p) == 100.0 && OpeningFee(cfg, p) == 0.0;
    ExposureOfUnit(n);
    OneMore(n, |Open(l)|);
  }

  lemma OneMore(n: nat, held: nat)
    requires n >= 1
    ensures Share(n) * (held + 1) as real == Share(n) * held as real + Share(n)
  {
  }

  lemma {:induction false} SweepFills(
    n: nat, limit: int, l: Ledger, k: nat, maxBars: nat, ps: seq<PendingEntry>, symbol: string, after: Ledger)
    requires n >= 1 && Steady(n, limit, l, k) && forall q | q in ps :: UnitOrder(q)
    requires after == Commit(l, PendingSweep(Deferring(n, maxBars), Idle(l.engine), ps, FlatTick(symbol)).0)
    ensures Steady(n, limit, after, k)
    ensures PendingSweep(Deferring(n, maxBars), Idle(l.engine), ps, FlatTick(symbol)).1 == Others(ps, symbol)
    ensures |Open(after)| + |Others(ps, symbol)| == |Open(l)| + |ps| && after.engine.pending == l.engine.pending
  {
    var cfg := Deferring(n, maxBars);
    if ps == [] {
      CommitIdle(l);
    } else {
      var m := |ps| - 1;
      var swept := PendingSweep(cfg, Idle(l.engine), ps[..m], FlatTick(symbol));
      var mid := Commit(l, swept.0);
      SweepFills(n, limit, l, k, maxBars, ps[..m], symbol, mid);
      if ps[m].symbol == symbol {
        CommitOpening(cfg, l, swept.0, ps[m], FlatTick(symbol), true);
        FillIsUnit(n, limit, mid, k, maxBars, ps[m], symbol, after);
      }
    }
  }

  /** Every deferred entry of the symbol becomes a position. */
  lemma FillsSteady(n: nat, limit: int, l: Ledger, k: nat, maxBars: nat, symbol: string, after: Ledger)
    requires n >= 1 && Steady(n, limit, l, k)
    requires after == Commit(l, PendingFills(Deferring(n, maxBars), Idle(l.engine), FlatTick(symbol)))
    ensures Steady(n, limit, after, k) && after.engine.pending == Others(l.engine.pending, symbol)
    ensures |Open(after)| + |after.engine.pending| == |Open(l)| + |l.engine.pending|
  {
    var swept := PendingSweep(Deferring(n, maxBars), Idle(l.engine), l.engine.pending, FlatTick(symbol));
    SweepFills(n, limit, l, k, maxBars, l.engine.pending, symbol, Commit(l, swept.0));
    assert after == Requeued(Commit(l, swept.0), swept.1);
    OthersProperties(l.engine.pending, symbol);
  }

  // ---------------------------------------------------------------- no exits

  /** The engine after a sweep that closed nothing: the counters alone have moved. */
  ghost predicate OnlyCounted(b: Batch, after: Batch) {
    after == b.(engine := b.engine.(positionBars := after.engine.positionBars))
  }

  /** In the standing market no unit is stopped, reaches its target, or runs out of time. */
  lemma {:induction false} SweepStays(n: nat, maxBars: nat, b: Batch, ps: seq<Position>, symbol: string, k: nat)
    requires n >= 1 && k + 1 < maxBars && BarsUpTo(b.engine, k)
    requires Distinct(ps) && forall p | p in ps :: Unit(p)
    ensures
      var after := ExitSweep(Deferring(n, maxBars), b, ps, FlatTick(symbol), None, true);
      && OnlyCounted(b, after)
      && forall id | id in after.engine.positionBars ::
           after.engine.positionBars[id] <= if id in Ids(ps) then k + 1 else k
  {
    if ps != [] {
      var m := |ps| - 1;
      LastIsOther(ps);
      SweepStays(n, maxBars, b, ps[..m], symbol, k);
      assert Unit(ps[m]);
    }
  }

  /** The second look of a cycle, for a signal of the same side, changes nothing. */
  lemma {:induction false} SecondSweepStays(n: nat, maxBars: nat, b: Batch, ps: seq<Position>, symbol: string)
    requires n >= 1 && forall p | p in ps :: Unit(p)
    ensures ExitSweep(Deferring(n, maxBars), b, ps, FlatTick(symbol), Some(Buy), false) == b
  {
    if ps != [] {
      SecondSweepStays(n, maxBars, b, ps[..|ps| - 1], symbol);
      assert Unit(ps[|ps| - 1]);
    }
  }

  /** The first phase: fills, and one bar more on the counters. */
  lemma EarlySteady(n: nat, limit: int, l: Ledger, k: nat, maxBars: nat, symbol: string, after: Ledger)
    requires n >= 1 && Steady(n, limit, l, k) && Distinct(Open(l)) && k + 1 < maxBars
    requires after == PreDecision(Deferring(n, maxBars), l, FlatTick(symbol))
    ensures Steady(n, limit, after, k + 1) && after.engine.pending == Others(l.engine.pending, symbol)
    ensures |Open(after)| + |after.engine.pending| == |Open(l)| + |l.engine.pending|
  {
    var filled := PendingFills(Deferring(n, maxBars), Idle(l.engine), FlatTick(symbol));
    var mid := Commit(l, filled);
    FillsSteady(n, limit, l, k, maxBars, symbol, mid);
    SweepStays(n, maxBars, filled, Open(l), symbol, k);
    assert after == mid.(engine := after.engine);
  }

  // ---------------------------------------------------------------- the rest of the cycle

  lemma MarkLeavesUnit(p: Position, symbol: string)
    requires Unit(p)
    ensures Revalued(p, map[symbol := 100.0]) == p && BookValue(p) == 100.0
  {
    assert PnlAt(p, 100.0) == 0.0;
  }

  lemma {:induction false} MarkLeavesUnits(ps: seq<Position>, symbol: string)
    requires forall p | p in ps :: Unit(p)
    ensures RevalueAll(ps, map[symbol := 100.0]) == ps
  {
    if ps != [] {
      var m := |ps| - 1;
      MarkLeavesUnits(ps[..m], symbol);
      MarkLeavesUnit(ps[m], symbol);
      assert RevalueAll(ps, map[symbol := 100.0]) == ps[..m] + [ps[m]];
    }
  }

  lemma {:induction false} UnitsAreWorth(ps: seq<Position>)
    requires forall p | p in ps :: Unit(p)
    ensures Sum(ps, BookValue) == 100.0 * |ps| as real
  {
    if ps != [] {
      var m := |ps| - 1;
      UnitsAreWorth(ps[..m]);
      MarkLeavesUnit(ps[m], "");
    }
  }

  lemma MarkIsBalanced(n: nat, limit: int, s: Store, symbol: string, after: Store)
    requires n >= 1 && Balanced(n, limit, s) && after == ApplyMark(s, map[symbol := 100.0])
    ensures Balanced(n, limit, after) && after.portfolio.openPositions == s.portfolio.openPositions
  {
    var ps := s.portfolio.openPositions;
    MarkLeavesUnits(ps, symbol);
    UnitsAreWorth(ps);
    assert after.portfolio.equity == s.portfolio.cash + 100.0 * |ps| as real;
    assert after.portfolio == s.portfolio.(equity := Capital(n), version := after.portfolio.version);
    assert after.risk.openExposurePct == s.risk.openExposurePct && after.risk.limits == s.risk.limits;
  }

  /** The reset, which the run never needs, and the mark, which finds nothing moved. */
  lemma MarkSteady(n: nat, limit: int, l: Ledger, k: nat, symbol: string, after: Ledger)
    requires n >= 1 && Steady(n, limit, l, k)
    requires after == Mark(DailyReset(l, 0), FlatTick(symbol))
    ensures Steady(n, limit, after, k) && after.engine == l.engine && Open(after) == Open(l)
  {
    assert DailyReset(l, 0) == l.(signalsDay := Some(0));
    if Open(l) != [] {
      MarkIsBalanced(n, limit, l.store, symbol, after.store);
    }
  }

  lemma CountSteady(n: nat, limit: int, l: Ledger, k: nat, decision: Decision, after: Ledger)
    requires n >= 1 && Steady(n, limit, l, k) && after == CountSignal(l, decision)
    ensures Steady(n, limit, after, k) && after.engine == l.engine && Open(after) == Open(l)
  {
  }

  lemma SignalSteady(n: nat, limit: int, l: Ledger, k: nat, maxBars: nat, symbol: string, after: Ledger)
    requires n >= 1 && Steady(n, limit, l, k)
    requires after == SignalExits(Deferring(n, maxBars), l, FlatTick(symbol), UnitBuy())
    ensures after == l
  {
    SecondSweepStays(n, maxBars, Idle(l.engine), Open(l), symbol);
    CommitIdle(l);
  }

  /** Below the limit the order passes the gate and joins the queue. */
  lemma ActQueues(n: nat, limit: int, l: Ledger, k: nat, maxBars: nat, symbol: string, after: Ledger)
    returns (order: PendingEntry)
    requires n >= 1 && Steady(n, limit, l, k) && |Open(l)| < n && |Open(l)| < limit
    requires after == Act(Deferring(n, maxBars), l, FlatTick(symbol), UnitBuy())
    ensures Steady(n, limit, after, k) && Open(after) == Open(l)
    ensures UnitOrder(order) && order.symbol == symbol && after.engine.pending == l.engine.pending + [order]
  {
    SizeIsUnit(n, limit, maxBars, l.store);
    GatePasses(n, limit, l.store);
    order := OrderFor(l.engine.nextId, 1.0, UnitBuy().finalSignal.value, symbol);
    var b := Execution(Deferring(n, maxBars), l.engine, UnitBuy(), l.store, FlatTick(symbol));
    assert b == Idle(l.engine.(nextId := l.engine.nextId + 1, pending := l.engine.pending + [order]));
    assert after == Commit(l, b) && l.trail + [] == l.trail;
  }

  // ---------------------------------------------------------------- cycles

  lemma HoldSteady(n: nat, limit: int, l: Ledger, k: nat, maxBars: nat, symbol: string, after: Ledger)
    requires n >= 1 && Steady(n, limit, l, k) && Distinct(Open(l)) && k + 1 < maxBars
    requires after == Cycle(Deferring(n, maxBars), l, HoldIn(symbol))
    ensures Steady(n, limit, after, k + 1) && after.engine.pending == Others(l.engine.pending, symbol)
    ensures |Open(after)| + |after.engine.pending| == |Open(l)| + |l.engine.pending|
  {
    var early := PreDecision(Deferring(n, maxBars), l, FlatTick(symbol));
    EarlySteady(n, limit, l, k, maxBars, symbol, early);
    MarkSteady(n, limit, early, k + 1, symbol, Mark(DailyReset(early, 0), FlatTick(symbol)));
  }

  lemma BuySteady(n: nat, limit: int, l: Ledger, k: nat, maxBars: nat, symbol: string, after: Ledger)
    returns (order: PendingEntry)
    requires n >= 1 && Steady(n, limit, l, k) && Distinct(Open(l)) && k + 1 < maxBars
    requires var left := |Open(l)| + |l.engine.pending| - |Others(l.engine.pending, symbol)|;
             left < n && left < limit
    requires after == Cycle(Deferring(n, maxBars), l, BuyIn(symbol))
    ensures Steady(n, limit, after, k + 1) && UnitOrder(order) && order.symbol == symbol
    ensures after.engine.pending == Others(l.engine.pending, symbol) + [order]
    ensures |Open(after)| + |after.engine.pending| == |Open(l)| + |l.engine.pending| + 1
  {
    var cfg, tick := Deferring(n, maxBars), FlatTick(symbol);
    var early := PreDecision(cfg, l, tick);
    EarlySteady(n, limit, l, k, maxBars, symbol, early);
    var marked := Mark(DailyReset(early, 0), tick);
    MarkSteady(n, limit, early, k + 1, symbol, marked);
    var counted := CountSignal(marked, UnitBuy());
    CountSteady(n, limit, marked, k + 1, UnitBuy(), counted);
    SignalSteady(n, limit, counted, k + 1, maxBars, symbol, SignalExits(cfg, counted, tick, UnitBuy()));
    var acted := Act(cfg, counted, tick, UnitBuy());
    order := ActQueues(n, limit, counted, k + 1, maxBars, symbol, acted);
    assert after == Publish(acted, tick);
  }

  // ---------------------------------------------------------------- the run

  /** Reached by cycles of the run: the platform invariant, and the account of units. */
  ghost predicate Reached(n: nat, limit: int, maxBars: nat, l: Ledger, k: nat)
    requires n >= 1
  {
    Inv(Deferring(n, maxBars), InitialStore(Capital(n), Limits(limit)), l) && Steady(n, limit, l, k)
  }

  function Total(l: Ledger): nat { |Open(l)| + |l.engine.pending| }

  ghost predicate WaitIn(l: Ledger, symbols: set<string>) { forall q | q in l.engine.pending :: q.symbol in symbols }

  function BuysIn(ss: seq<string>): seq<CycleInput> { seq(|ss|, i requires 0 <= i < |ss| => BuyIn(ss[i])) }

  function HoldsIn(ss: seq<string>): seq<CycleInput> { seq(|ss|, i requires 0 <= i < |ss| => HoldIn(ss[i])) }

  lemma ReachedStep(n: nat, limit: int, maxBars: nat, l: Ledger, k: nat, input: CycleInput, after: Ledger)
    requires n >= 1 && Reached(n, limit, maxBars, l, k) && after == Cycle(Deferring(n, maxBars), l, input)
    requires Steady(n, limit, after, k + 1)
    ensures Reached(n, limit, maxBars, after, k + 1)
  {
    CycleKeeps(Deferring(n, maxBars), InitialStore(Capital(n), Limits(limit)), l, input, after);
  }

  lemma {:induction false} OthersOfOne(ps: seq<PendingEntry>, symbol: string)
    requires forall q | q in ps :: q.symbol == symbol
    ensures Others(ps, symbol) == []
  {
    if ps != [] {
      OthersOfOne(ps[..|ps| - 1], symbol);
    }
  }

  lemma OthersSnoc(ps: seq<PendingEntry>, q: PendingEntry, symbol: string)
    requires q.symbol != symbol
    ensures Others(ps + [q], symbol) == Others(ps, symbol) + [q]
  {
    assert (ps + [q])[..|ps|] == ps;
  }

  lemma {:induction false} OthersOfNone(ps: seq<PendingEntry>, symbol: string)
    requires forall q | q in ps :: q.symbol != symbol
    ensures Others(ps, symbol) == ps
  {
    if ps != [] {
      var init, last := ps[..|ps| - 1], ps[|ps| - 1];
      assert ps == init + [last];
      OthersOfNone(init, symbol);
      OthersSnoc(init, last, symbol);
    }
  }

  /** One more order in the only symbol: the one before it is filled. */
  lemma BuyAgain(n: nat, limit: int, maxBars: nat, l: Ledger, k: nat, symbol: string, after: Ledger)
    requires n >= 1 && Reached(n, limit, maxBars, l, k) && k + 1 < maxBars
    requires WaitIn(l, {symbol}) && Total(l) < limit && Total(l) < n
    requires after == Cycle(Deferring(n, maxBars), l, BuyIn(symbol))
    ensures Reached(n, limit, maxBars, after, k + 1) && WaitIn(after, {symbol})
    ensures Total(after) == Total(l) + 1 && |after.engine.pending| == 1
  {
    OthersOfOne(l.engine.pending, symbol);
    var order := BuySteady(n, limit, l, k, maxBars, symbol, after);
    ReachedStep(n, limit, maxBars, l, k, BuyIn(symbol), after);
  }

  /** An order in another symbol: nothing is filled. */
  lemma BuyOther(
    n: nat, limit: int, maxBars: nat, l: Ledger, k: nat, symbol: string, waiting: set<string>, after: Ledger)
    requires n >= 1 && Reached(n, limit, maxBars, l, k) && k + 1 < maxBars
    requires WaitIn(l, waiting) && symbol !in waiting && |Open(l)| == limit - 1 < n
    requires after == Cycle(Deferring(n, maxBars), l, BuyIn(symbol))
    ensures Reached(n, limit, maxBars, after, k + 1) && WaitIn(after, waiting + {symbol})
    ensures Total(after) == Total(l) + 1 && |Open(after)| == limit - 1
  {
    OthersOfNone(l.engine.pending, symbol);
    var order := BuySteady(n, limit, l, k, maxBars, symbol, after);
    ReachedStep(n, limit, maxBars, l, k, BuyIn(symbol), after);
  }

  lemma ReachedAtStart(n: nat, limit: int, maxBars: nat, l: Ledger)
    requires n >= 1 && l == EmptyLedger(Capital(n), Limits(limit))
    ensures Reached(n, limit, maxBars, l, 0) && Total(l) == 0 && WaitIn(l, {})
  {
    RunKeeps(Deferring(n, maxBars), Capital(n), Limits(limit), []);
  }

  lemma BuysInSnoc(cfg: Config, l: Ledger, ss: seq<string>)
    requires ss != []
    ensures var m := |ss| - 1;
            Cycles(cfg, l, BuysIn(ss)) == Cycle(cfg, Cycles(cfg, l, BuysIn(ss[..m])), BuyIn(ss[m]))
  {
    assert BuysIn(ss)[..|ss| - 1] == BuysIn(ss[..|ss| - 1]);
  }

  /** One symbol bought over and over: all but the last order are filled. */
  lemma {:induction false} BuysOne(
    n: nat, limit: int, maxBars: nat, symbol: string, ss: seq<string>, l0: Ledger, l: Ledger)
    requires n >= 1 && |ss| <= limit && |ss| <= n && |ss| < maxBars && forall i | 0 <= i < |ss| :: ss[i] == symbol
    requires Reached(n, limit, maxBars, l0, 0) && Total(l0) == 0 && WaitIn(l0, {})
    requires l == Cycles(Deferring(n, maxBars), l0, BuysIn(ss))
    ensures Reached(n, limit, maxBars, l, |ss|) && WaitIn(l, {symbol}) && Total(l) == |ss|
    ensures ss != [] ==> |l.engine.pending| == 1
  {
    if ss != [] {
      var m := |ss| - 1;
      BuysInSnoc(Deferring(n, maxBars), l0, ss);
      var before := Cycles(Deferring(n, maxBars), l0, BuysIn(ss[..m]));
      BuysOne(n, limit, maxBars, symbol, ss[..m], l0, before);
      BuyAgain(n, limit, maxBars, before, m, symbol, l);
    }
  }

  ghost predicate NoRepeats(ss: seq<string>) { forall i, j :: 0 <= i < j < |ss| ==> ss[i] != ss[j] }

  function Members(ss: seq<string>): set<string> { set s | s in ss }

  lemma LastMember(ss: seq<string>)
    requires NoRepeats(ss) && ss != []
    ensures var m := |ss| - 1;
            NoRepeats(ss[..m]) && ss[m] !in Members(ss[..m]) && Members(ss) == Members(ss[..m]) + {ss[m]}
  {
    var m := |ss| - 1;
    assert ss == ss[..m] + [ss[m]];
  }

  /** Other symbols bought once each while one place is left: every order is deferred, none is filled. */
  lemma {:induction false} BuysOthers(
    n: nat, limit: int, maxBars: nat, l: Ledger, k: nat, waiting: set<string>, ss: seq<string>, after: Ledger)
    requires n >= 1 && Reached(n, limit, maxBars, l, k) && k + |ss| < maxBars
    requires |Open(l)| == limit - 1 < n && WaitIn(l, waiting)
    requires NoRepeats(ss) && Members(ss) !! waiting
    requires after == Cycles(Deferring(n, maxBars), l, BuysIn(ss))
    ensures Reached(n, limit, maxBars, after, k + |ss|)
    ensures |Open(after)| == limit - 1 && Total(after) == Total(l) + |ss|
    ensures WaitIn(after, waiting + Members(ss))
  {
    if ss != [] {
      var m := |ss| - 1;
      LastMember(ss);
      BuysInSnoc(Deferring(n, maxBars), l, ss);
      var before := Cycles(Deferring(n, maxBars), l, BuysIn(ss[..m]));
      BuysOthers(n, limit, maxBars, l, k, waiting, ss[..m], before);
      BuyOther(n, limit, maxBars, before, k + m, ss[m], waiting + Members(ss[..m]), after);
    }
  }

  /** A bar in each symbol fills whatever was deferred in it. */
  lemma {:induction false} HoldsFill(
    n: nat, limit: int, maxBars: nat, l: Ledger, k: nat, waiting: set<string>, ss: seq<string>, after: Ledger)
    requires n >= 1 && Reached(n, limit, maxBars, l, k) && k + |ss| < maxBars && WaitIn(l, waiting)
    requires after == Cycles(Deferring(n, maxBars), l, HoldsIn(ss))
    ensures Reached(n, limit, maxBars, after, k + |ss|)
    ensures Total(after) == Total(l) && WaitIn(after, waiting - Members(ss))
  {
    if ss != [] {
      var m := |ss| - 1;
      assert ss == ss[..m] + [ss[m]];
      assert HoldsIn(ss)[..m] == HoldsIn(ss[..m]);
      var before := Cycles(Deferring(n, maxBars), l, HoldsIn(ss[..m]));
      HoldsFill(n, limit, maxBars, l, k, waiting, ss[..m], before);
      HoldSteady(n, limit, before, k + m, maxBars, ss[m], after);
      ReachedStep(n, limit, maxBars, before, k + m, HoldIn(ss[m]), after);
      OthersProperties(before.engine.pending, ss[m]);
    }
  }

  lemma CyclesSnoc(cfg: Config, l: Ledger, inputs: seq<CycleInput>, input: CycleInput)
    ensures Cycles(cfg, l, inputs + [input]) == Cycle(cfg, Cycles(cfg, l, inputs), input)
  {
    assert (inputs + [input])[..|inputs|] == inputs;
  }

  lemma {:induction false} CyclesConcat(cfg: Config, l: Ledger, a: seq<CycleInput>, b: seq<CycleInput>)
    ensures Cycles(cfg, l, a + b) == Cycles(cfg, Cycles(cfg, l, a), b)
  {
    if b == [] {
      assert a + b == a;
    } else {
      var m := |b| - 1;
      assert b == b[..m] + [b[m]] && a + b == (a + b[..m]) + [b[m]];
      CyclesConcat(cfg, l, a, b[..m]);
      CyclesSnoc(cfg, l, a + b[..m], b[m]);
      CyclesSnoc(cfg, Cycles(cfg, l, a), b[..m], b[m]);
    }
  }

  lemma OneMoreMember(ss: seq<string>, s: string)
    requires NoRepeats(ss) && s !in Members(ss)
    ensures NoRepeats(ss + [s]) && Members(ss + [s]) == Members(ss) + {s}
  {
    forall i | 0 <= i < |ss| ensures ss[i] != s {
      assert ss[i] in Members(ss);
    }
    assert (ss + [s])[|ss|] == s;
  }

  lemma {:induction false} ListOf(symbols: set<string>) returns (ss: seq<string>)
    ensures NoRepeats(ss) && Members(ss) == symbols && |ss| == |symbols|
  {
    if symbols == {} {
      ss := [];
    } else {
      var s :| s in symbols;
      var rest := ListOf(symbols - {s});
      ss := rest + [s];
      OneMoreMember(rest, s);
    }
  }

  function Copies(symbol: string, count: nat): seq<string> { seq(count, _ => symbol) }

  function FullRun(limit: nat, first: string, rest: seq<string>): seq<CycleInput> {
    BuysIn(Copies(first, limit)) + BuysIn(rest) + HoldsIn([first] + rest)
  }

  lemma FullRunIs(cfg: Config, limit: nat, first: string, rest: seq<string>, l0: Ledger, l1: Ledger, l2: Ledger)
    requires l1 == Cycles(cfg, l0, BuysIn(Copies(first, limit))) && l2 == Cycles(cfg, l1, BuysIn(rest))
    ensures Cycles(cfg, l0, FullRun(limit, first, rest)) == Cycles(cfg, l2, HoldsIn([first] + rest))
  {
    CyclesConcat(cfg, l0, BuysIn(Copies(first, limit)), BuysIn(rest));
    CyclesConcat(cfg, l0, BuysIn(Copies(first, limit)) + BuysIn(rest), HoldsIn([first] + rest));
  }

  lemma FirstAndRest(first: string, rest: seq<string>)
    ensures Members([first] + rest) == {first} + Members(rest)
  {
    assert ([first] + rest)[0] == first && ([first] + rest)[1..] == rest;
  }

  lemma OrdersAll(
    limit: nat, first: string, rest: seq<string>, n: nat, maxBars: nat, l0: Ledger, l1: Ledger, l2: Ledger)
    requires limit >= 1 && NoRepeats(rest) && first !in rest
    requires n == limit + |rest| && maxBars == n + |rest| + 2
    requires l0 == EmptyLedger(Capital(n), Limits(limit))
    requires l1 == Cycles(Deferring(n, maxBars), l0, BuysIn(Copies(first, limit)))
    requires l2 == Cycles(Deferring(n, maxBars), l1, BuysIn(rest))
    ensures Reached(n, limit, maxBars, l2, limit + |rest|)
    ensures Total(l2) == limit + |rest| && WaitIn(l2, {first} + Members(rest))
  {
    ReachedAtStart(n, limit, maxBars, l0);
    BuysOne(n, limit, maxBars, first, Copies(first, limit), l0, l1);
    BuysOthers(n, limit, maxBars, l1, limit, {first}, rest, l2);
  }

  /** The run opens a position for every place and one more for every further symbol. */
  lemma FullRunFills(limit: nat, first: string, rest: seq<string>, n: nat, maxBars: nat, l0: Ledger, l: Ledger)
    requires limit >= 1 && NoRepeats(rest) && first !in rest
    requires n == limit + |rest| && maxBars == n + |rest| + 2
    requires l0 == EmptyLedger(Capital(n), Limits(limit))
    requires l == Cycles(Deferring(n, maxBars), l0, FullRun(limit, first, rest))
    ensures |Open(l)| == limit + |rest|
  {
    var l1 := Cycles(Deferring(n, maxBars), l0, BuysIn(Copies(first, limit)));
    var l2 := Cycles(Deferring(n, maxBars), l1, BuysIn(rest));
    OrdersAll(limit, first, rest, n, maxBars, l0, l1, l2);
    FullRunIs(Deferring(n, maxBars), limit, first, rest, l0, l1, l2);
    FirstAndRest(first, rest);
    HoldsFill(n, limit, maxBars, l2, limit + |rest|, {first} + Members(rest), [first] + rest, l);
    NoneWait(l, {first} + Members(rest) - Members([first] + rest));
  }

  lemma NoneWait(l: Ledger, symbols: set<string>)
    requires symbols == {} && WaitIn(l, symbols)
    ensures l.engine.pending == []
  {
    forall q ensures multiset(l.engine.pending)[q] == 0 {
      assert q in multiset(l.engine.pending) <==> q in l.engine.pending;
    }
    assert |multiset(l.engine.pending)| == |l.engine.pending|;
  }

  // ---------------------------------------------------------------- the cap is exact

  /** A run of an engine that fills this way, under this limit, on these symbols. */
  ghost predicate RunOn(
    fillAt: FillAt, limit: int, symbols: set<string>, cfg: Config, limits: RiskLimits, inputs: seq<CycleInput>)
  {
    cfg.fillAt == fillAt && limits.maxOpenPositions == limit && forall i | i in inputs :: i.tick.symbol in symbols
  }

  function OpenAfter(cfg: Config, cash: real, limits: RiskLimits, inputs: seq<CycleInput>): nat {
    |Open(Cycles(cfg, EmptyLedger(cash, limits), inputs))|
  }

  lemma NotListed(s: string, ss: seq<string>)
    requires s !in Members(ss)
    ensures s !in ss
  {
  }

  /**
   The cap cannot be improved: for every positive limit and any L symbols some run with deferred fills
   ends with max_open_positions - 1 + L positions open.
   */
  lemma CapIsReached(limit: int, symbols: set<string>)
    returns (cfg: Config, cash: real, limits: RiskLimits, inputs: seq<CycleInput>)
    requires limit >= 1 && symbols != {}
    ensures RunOn(AtNextOpen, limit, symbols, cfg, limits, inputs)
    ensures OpenAfter(cfg, cash, limits, inputs) == limit - 1 + |symbols| == Cap(cfg, limit, |symbols|)
  {
    var first :| first in symbols;
    var rest := ListOf(symbols - {first});
    NotListed(first, rest);
    var n := limit + |rest|;
    cfg, cash, limits := Deferring(n, n + |rest| + 2), Capital(n), Limits(limit);
    inputs := FullRun(limit, first, rest);
    FullRunFills(limit, first, rest, n, n + |rest| + 2, EmptyLedger(cash, limits),
                 Cycles(cfg, EmptyLedger(cash, limits), inputs));
    RunStaysIn(limit, first, rest, symbols);
  }

  lemma RunStaysIn(limit: nat, first: string, rest: seq<string>, symbols: set<string>)
    requires first in symbols && Members(rest) <= symbols
    ensures forall i | i in FullRun(limit, first, rest) :: i.tick.symbol in symbols
  {
    forall s | s in rest ensures s in symbols {
      assert s in Members(rest);
    }
  }

  /** No run ends with more open positions than the limit, or than none. */
  ghost predicate LimitIsRespected(fillAt: FillAt, limit: int, symbols: set<string>) {
    forall cfg, cash, limits, inputs | RunOn(fillAt, limit, symbols, cfg, limits, inputs) ::
      OpenAfter(cfg, cash, limits, inputs) <= if limit > 0 then limit else 0
  }

  /** max_open_positions limits open positions unless fills are deferred and two symbols are traded. */
  lemma LimitIsRespectedIff(fillAt: FillAt, limit: int, symbols: set<string>)
    ensures LimitIsRespected(fillAt, limit, symbols) <==> limit <= 0 || fillAt != AtNextOpen || |symbols| <= 1
  {
    if limit <= 0 || fillAt != AtNextOpen || |symbols| <= 1 {
      forall cfg, cash, limits, inputs | RunOn(fillAt, limit, symbols, cfg, limits, inputs)
        ensures OpenAfter(cfg, cash, limits, inputs) <= if limit > 0 then limit else 0
      {
        PositionCap(cfg, cash, limits, symbols, inputs);
      }
    } else {
      var cfg, cash, limits, inputs := CapIsReached(limit, symbols);
      assert OpenAfter(cfg, cash, limits, inputs) > limit;
    }
  }
}
