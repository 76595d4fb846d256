/**
 The platform invariant over sweeps, phases, cycles and whole runs, and the two balances it carries to
 every state a run reaches.
 */
module CycleLaws {
  import opened Wrappers
  import opened StateStore
  import opened Pricing
  import opened Engine
  import opened Runtime
  import opened Metrics
  import opened LedgerLaws

  // ---------------------------------------------------------------- sweeps

  lemma {:induction false} ExitSweepKeeps(
    cfg: Config, start: Store, l: Ledger, b: Batch, ps: seq<Position>, tick: Tick,
    approvedSide: Option<OrderSide>, incrementBars: bool, after: Ledger)
    requires Inv(cfg, start, Commit(l, b)) && Distinct(ps) && Ids(ps) <= Ids(Open(Commit(l, b)))
    requires after == Commit(l, ExitSweep(cfg, b, ps, tick, approvedSide, incrementBars))
    ensures Inv(cfg, start, after) && Shrunk(Commit(l, b), after, Ids(ps))
  {
    if ps == [] {
      assert after == Commit(l, b);
    } else {
      var n := |ps| - 1;
      var swept := ExitSweep(cfg, b, ps[..n], tick, approvedSide, incrementBars);
      var mid := Commit(l, swept);
      LastIsOther(ps);
      ExitSweepKeeps(cfg, start, l, b, ps[..n], tick, approvedSide, incrementBars, mid);
      CommitExit(cfg, l, swept, ps[n], tick, approvedSide, incrementBars);
      StepExitKeeps(cfg, start, mid, ps[n], tick, approvedSide, incrementBars, after);
      ShrunkThen(Commit(l, b), mid, after, Ids(ps[..n]), {ps[n].id});
    }
  }

  lemma LastIsOther(ps: seq<Position>)
    requires Distinct(ps) && ps != []
    ensures Distinct(ps[..|ps| - 1]) && ps[|ps| - 1].id !in Ids(ps[..|ps| - 1])
    ensures Ids(ps) == Ids(ps[..|ps| - 1]) + {ps[|ps| - 1].id}
  {
    var n := |ps| - 1;
    assert ps == ps[..n] + [ps[n]];
    IdsSnoc(ps[..n], ps[n]);
  }

  /** Ids of the positions of `ps` in one symbol. */
  function IdsIn(ps: seq<Position>, symbol: string): set<Id> {
    set p | p in ps && p.symbol == symbol :: p.id
  }

  lemma IdsInSnoc(ps: seq<Position>, symbol: string)
    requires ps != []
    ensures var n := |ps| - 1;
            IdsIn(ps, symbol) == IdsIn(ps[..n], symbol) + OwnId(ps[n], symbol)
  {
    var n := |ps| - 1;
    assert ps == ps[..n] + [ps[n]];
    forall id | id in IdsIn(ps[..n], symbol) ensures id in IdsIn(ps, symbol) {
      var p :| p in ps[..n] && p.symbol == symbol && p.id == id;
      assert p in ps;
    }
  }

  lemma IdsInAreIds(ps: seq<Position>, symbol: string)
    ensures IdsIn(ps, symbol) <= Ids(ps)
  {
  }

  lemma OneSymbolPerId(ps: seq<Position>, p: Position, symbol: string)
    requires Distinct(ps) && p in ps
    ensures p.id in IdsIn(ps, symbol) <==> p.symbol == symbol
  {
  }

  lemma ShrunkIds(before: Ledger, after: Ledger, ids: set<Id>)
    requires Shrunk(before, after, ids)
    ensures Ids(Open(after)) <= Ids(Open(before))
  {
  }

  lemma StillThere(l: Ledger, mid: Ledger, p: Position, ids: set<Id>)
    requires Distinct(Open(l)) && Shrunk(l, mid, ids) && p in Open(l) && p.id !in ids
    ensures p in Open(mid)
  {
    assert p.id in Ids(Open(l));
    assert p.id in Ids(Open(mid));
    var q :| q in Open(mid) && q.id == p.id;
    assert q in Open(l);
  }

  function OwnId(p: Position, symbol: string): set<Id> { if p.symbol == symbol then {p.id} else {} }

  /** One position of the liquidation loop: closed at the bar's close if it is in the bar's symbol. */
  lemma LiquidateOneKeeps(cfg: Config, start: Store, l: Ledger, p: Position, tick: Tick, after: Ledger)
    requires Inv(cfg, start, l) && p.id in Ids(Open(l))
    requires after == if p.symbol == tick.symbol then CloseStep(cfg, l, p, tick.bar.close, EndOfRun, tick.time) else l
    ensures Inv(cfg, start, after) && Shrunk(l, after, OwnId(p, tick.symbol))
    ensures p.symbol == tick.symbol ==> p.id !in Ids(Open(after))
  {
    if p.symbol == tick.symbol {
      CloseStepKeeps(cfg, start, l, p, tick.bar.close, EndOfRun, tick.time);
    }
  }

  /** The liquidation loop removes the positions of its symbol and no other. */
  lemma {:induction false} LiquidationSweepKeeps(
    cfg: Config, start: Store, l: Ledger, ps: seq<Position>, tick: Tick, after: Ledger)
    requires Inv(cfg, start, l) && Distinct(ps) && Ids(ps) <= Ids(Open(l))
    requires after == Commit(l, LiquidationSweep(cfg, Idle(l.engine), ps, tick))
    ensures Inv(cfg, start, after) && Shrunk(l, after, IdsIn(ps, tick.symbol))
    ensures Ids(Open(after)) !! IdsIn(ps, tick.symbol)
  {
    if ps == [] {
      CommitIdle(l);
    } else {
      var n := |ps| - 1;
      var swept := LiquidationSweep(cfg, Idle(l.engine), ps[..n], tick);
      var mid := Commit(l, swept);
      LastIsOther(ps);
      IdsInSnoc(ps, tick.symbol);
      IdsInAreIds(ps[..n], tick.symbol);
      LiquidationSweepKeeps(cfg, start, l, ps[..n], tick, mid);
      CommitClosing(cfg, l, swept, ps[n], tick.bar.close, EndOfRun, tick.time);
      LiquidateOneKeeps(cfg, start, mid, ps[n], tick, after);
      ShrunkThen(l, mid, after, IdsIn(ps[..n], tick.symbol), OwnId(ps[n], tick.symbol));
      ShrunkIds(mid, after, OwnId(ps[n], tick.symbol));
    }
  }

  function Symbols(ps: seq<Position>): set<string> { set p | p in ps :: p.symbol }

  /** Deferred entries of the other symbols, in their order. */
  function Others(ps: seq<PendingEntry>, symbol: string): seq<PendingEntry> {
    if ps == [] then []
    else Others(ps[..|ps| - 1], symbol) + if ps[|ps| - 1].symbol != symbol then [ps[|ps| - 1]] else []
  }

  /** Every open position was open before, in the same symbol, or carries an id drawn since. */
  ghost predicate Descends(before: Ledger, after: Ledger) {
    && before.engine.nextId <= after.engine.nextId
    && forall q | q in Open(after) :: q.id >= before.engine.nextId || WasOpen(before, q)
  }

  ghost predicate WasOpen(before: Ledger, q: Position) {
    exists p :: p in Open(before) && p.id == q.id && p.symbol == q.symbol
  }

  lemma DescendsThen(a: Ledger, b: Ledger, c: Ledger)
    requires Descends(a, b) && Descends(b, c)
    ensures Descends(a, c)
  {
    forall q | q in Open(c) && q.id < a.engine.nextId ensures WasOpen(a, q) {
      var p :| p in Open(b) && p.id == q.id && p.symbol == q.symbol;
      assert WasOpen(a, p);
    }
  }

  lemma ShrunkDescends(before: Ledger, after: Ledger, ids: set<Id>)
    requires Shrunk(before, after, ids)
    ensures Descends(before, after)
  {
  }

  /** `after` follows `before` by opening `count` positions in one symbol. */
  ghost predicate Grown(before: Ledger, after: Ledger, count: int, symbol: string) {
    && Descends(before, after)
    && Ids(Open(before)) <= Ids(Open(after))
    && Symbols(Open(after)) <= Symbols(Open(before)) + {symbol}
    && |Open(after)| == |Open(before)| + count
    && after.engine.pending == before.engine.pending
    && after.log == before.log && after.signalsDay == before.signalsDay
  }

  lemma OpenStepGrows(
    cfg: Config, l: Ledger, order: PendingEntry, tick: Tick, useNextOpen: bool, after: Ledger)
    requires after == OpenStep(cfg, l, order, tick, useNextOpen)
    ensures Grown(l, after, 1, order.symbol)
  {
    forall q | q in Open(l) ensures WasOpen(l, q) {
    }
    var p := NewPosition(cfg, l.engine, order, tick, useNextOpen);
    assert Open(after) == Open(l) + [p];
    IdsSnoc(Open(l), p);
  }

  lemma OpenStepKeeps(
    cfg: Config, start: Store, l: Ledger, order: PendingEntry, tick: Tick, useNextOpen: bool, after: Ledger)
    requires Inv(cfg, start, l)
    requires after == OpenStep(cfg, l, order, tick, useNextOpen)
    ensures Inv(cfg, start, after) && Grown(l, after, 1, order.symbol)
  {
    OpenKeepsTables(cfg, start, l, order, tick, useNextOpen);
    OpenKeepsEvents(cfg, l, order, tick, useNextOpen);
    OpenStepGrows(cfg, l, order, tick, useNextOpen, after);
  }

  lemma {:induction false} PendingSweepKeeps(
    cfg: Config, start: Store, l: Ledger, ps: seq<PendingEntry>, tick: Tick, after: Ledger)
    requires Inv(cfg, start, l)
    requires after == Commit(l, PendingSweep(cfg, Idle(l.engine), ps, tick).0)
    ensures PendingSweep(cfg, Idle(l.engine), ps, tick).1 == Others(ps, tick.symbol)
    ensures Inv(cfg, start, after) && Grown(l, after, |ps| - |Others(ps, tick.symbol)|, tick.symbol)
  {
    if ps == [] {
      CommitIdle(l);
    } else {
      var n := |ps| - 1;
      var swept := PendingSweep(cfg, Idle(l.engine), ps[..n], tick);
      var mid := Commit(l, swept.0);
      PendingSweepKeeps(cfg, start, l, ps[..n], tick, mid);
      if ps[n].symbol == tick.symbol {
        CommitOpening(cfg, l, swept.0, ps[n], tick, true);
        OpenStepKeeps(cfg, start, mid, ps[n], tick, true, after);
        DescendsThen(l, mid, after);
      } else {
        assert after == mid;
      }
    }
  }

  // ---------------------------------------------------------------- phases

  /** Nothing is opened or queued between the two ledgers. */
  ghost predicate Calm(before: Ledger, after: Ledger) {
    && Descends(before, after)
    && |Open(after)| <= |Open(before)|
    && Symbols(Open(after)) <= Symbols(Open(before))
    && after.engine.pending == before.engine.pending
    && after.log == before.log
  }

  lemma ShrunkIsCalm(before: Ledger, after: Ledger, ids: set<Id>)
    requires Shrunk(before, after, ids)
    ensures Calm(before, after)
  {
    ShrunkDescends(before, after, ids);
  }

  lemma PendingFillsKeep(cfg: Config, start: Store, l: Ledger, tick: Tick, after: Ledger)
    requires Inv(cfg, start, l)
    requires after == Commit(l, PendingFills(cfg, Idle(l.engine), tick))
    ensures Inv(cfg, start, after) && after.engine.pending == Others(l.engine.pending, tick.symbol)
    ensures Ids(Open(l)) <= Ids(Open(after)) && Symbols(Open(after)) <= Symbols(Open(l)) + {tick.symbol}
    ensures Descends(l, after)
    ensures |Open(after)| + |after.engine.pending| == |Open(l)| + |l.engine.pending|
    ensures after.log == l.log && after.signalsDay == l.signalsDay
  {
    var swept := PendingSweep(cfg, Idle(l.engine), l.engine.pending, tick);
    PendingSweepKeeps(cfg, start, l, l.engine.pending, tick, Commit(l, swept.0));
    assert after == Requeued(Commit(l, swept.0), swept.1);
    RequeueKeeps(cfg, start, Commit(l, swept.0), swept.1);
  }

  function Requeued(l: Ledger, pending: seq<PendingEntry>): Ledger {
    l.(engine := l.engine.(pending := pending))
  }

  lemma RequeueKeeps(cfg: Config, start: Store, l: Ledger, pending: seq<PendingEntry>)
    requires Inv(cfg, start, l)
    ensures Inv(cfg, start, Requeued(l, pending))
  {
  }

  lemma PreDecisionKeeps(cfg: Config, start: Store, l: Ledger, tick: Tick, after: Ledger)
    requires Inv(cfg, start, l)
    requires after == PreDecision(cfg, l, tick)
    ensures Inv(cfg, start, after) && after.engine.pending == Others(l.engine.pending, tick.symbol)
    ensures Descends(l, after)
    ensures Symbols(Open(after)) <= Symbols(Open(l)) + {tick.symbol}
    ensures |Open(after)| + |after.engine.pending| <= |Open(l)| + |l.engine.pending|
    ensures after.log == l.log
  {
    var filled := PendingFills(cfg, Idle(l.engine), tick);
    var mid := Commit(l, filled);
    PendingFillsKeep(cfg, start, l, tick, mid);
    ExitSweepKeeps(cfg, start, l, filled, Open(l), tick, None, true, after);
    ShrunkIsCalm(mid, after, Ids(Open(l)));
    DescendsThen(l, mid, after);
  }

  lemma SignalExitsKeep(cfg: Config, start: Store, l: Ledger, tick: Tick, decision: Decision, after: Ledger)
    requires Inv(cfg, start, l)
    requires after == SignalExits(cfg, l, tick, decision)
    ensures Inv(cfg, start, after) && Calm(l, after)
  {
    CalmSelf(l);
    if after != l {
      CommitIdle(l);
      ExitSweepKeeps(cfg, start, l, Idle(l.engine), Open(l), tick, Some(decision.finalSignal.value.side), false, after);
      ShrunkIsCalm(l, after, Ids(Open(l)));
    }
  }

  lemma {:induction false} LotsOfRevalued(ps: seq<Position>, prices: map<string, real>)
    ensures LotsOf(RevalueAll(ps, prices)) == LotsOf(ps)
  {
    if ps != [] {
      var n := |ps| - 1;
      LotsOfRevalued(ps[..n], prices);
      var r := RevalueAll(ps[..n], prices);
      assert (r + [Revalued(ps[n], prices)])[..|r|] == r;
    }
  }

  lemma SymbolsOfRevalued(ps: seq<Position>, prices: map<string, real>)
    ensures Symbols(RevalueAll(ps, prices)) <= Symbols(ps)
  {
    RevalueAllAt(ps, prices);
    var r := RevalueAll(ps, prices);
    forall s | s in Symbols(r) ensures s in Symbols(ps) {
      var i :| 0 <= i < |r| && r[i].symbol == s;
      assert ps[i].symbol == s;
    }
  }

  lemma RevaluedWereOpen(before: Ledger, after: Ledger, prices: map<string, real>)
    requires Open(after) == RevalueAll(Open(before), prices)
    ensures forall q | q in Open(after) :: WasOpen(before, q)
  {
    RevalueAllAt(Open(before), prices);
    forall q | q in Open(after) ensures WasOpen(before, q) {
      var i :| 0 <= i < |Open(after)| && Open(after)[i] == q;
      assert Open(before)[i] in Open(before);
    }
  }

  lemma MarkIssueKeeps(cfg: Config, start: Store, l: Ledger, t: Transition, after: Ledger)
    requires Inv(cfg, start, l) && t.MarkToMarket? && after == Issue(l, t)
    ensures Inv(cfg, start, after) && Calm(l, after)
  {
    IssueKeepsHistory(start, l, t);
    StepKeepsDistinct(l.store, t);
    RevalueKeepsIds(Open(l), t.prices);
    RevalueAllAt(Open(l), t.prices);
    LotsOfRevalued(Open(l), t.prices);
    SymbolsOfRevalued(Open(l), t.prices);
    RevaluedWereOpen(l, after, t.prices);
  }

  /** Marks and risk records move no position. */
  lemma QuietIssueKeeps(cfg: Config, start: Store, l: Ledger, t: Transition, after: Ledger)
    requires Inv(cfg, start, l) && (t.MarkToMarket? || t.RiskUpdated?) && Issuable(l.store, t)
    requires after == Issue(l, t)
    ensures Inv(cfg, start, after) && Calm(l, after)
  {
    if t.MarkToMarket? {
      MarkIssueKeeps(cfg, start, l, t, after);
    } else {
      IssueKeepsHistory(start, l, t);
      CalmSelf(l);
    }
  }

  lemma DatedKeeps(cfg: Config, start: Store, l: Ledger, day: Option<int>)
    requires Inv(cfg, start, l)
    ensures Inv(cfg, start, l.(signalsDay := day)) && Calm(l, l.(signalsDay := day))
  {
    forall q | q in Open(l) ensures WasOpen(l, q) {
    }
  }

  lemma CalmThen(a: Ledger, b: Ledger, c: Ledger)
    requires Calm(a, b) && Calm(b, c)
    ensures Calm(a, c)
  {
    DescendsThen(a, b, c);
  }

  lemma CalmSelf(l: Ledger)
    ensures Calm(l, l)
  {
    forall q | q in Open(l) ensures WasOpen(l, q) {
    }
  }

  lemma DailyResetKeeps(cfg: Config, start: Store, l: Ledger, time: int, after: Ledger)
    requires Inv(cfg, start, l) && after == DailyReset(l, time)
    ensures Inv(cfg, start, after) && Calm(l, after)
  {
    CalmSelf(l);
    if after != l {
      var dated := l.(signalsDay := Some(Day(time)));
      DatedKeeps(cfg, start, l, Some(Day(time)));
      if after != dated {
        QuietIssueKeeps(cfg, start, dated, after.trail[|dated.trail|], after);
        CalmThen(l, dated, after);
      }
    }
  }

  lemma MarkKeeps(cfg: Config, start: Store, l: Ledger, tick: Tick, after: Ledger)
    requires Inv(cfg, start, l) && after == Mark(l, tick)
    ensures Inv(cfg, start, after) && Calm(l, after)
  {
    CalmSelf(l);
    if after != l {
      QuietIssueKeeps(cfg, start, l, MarkToMarket(map[tick.symbol := tick.bar.close]), after);
    }
  }

  lemma CountSignalKeeps(cfg: Config, start: Store, l: Ledger, decision: Decision, after: Ledger)
    requires Inv(cfg, start, l) && after == CountSignal(l, decision)
    ensures Inv(cfg, start, after) && Calm(l, after)
  {
    CalmSelf(l);
    if after != l {
      QuietIssueKeeps(cfg, start, l, after.trail[|l.trail|], after);
    }
  }

  /** Drawing an id for an order changes nothing else. */
  function Drawn(l: Ledger): Ledger { l.(engine := l.engine.(nextId := l.engine.nextId + 1)) }

  lemma ActOpens(cfg: Config, start: Store, l: Ledger, order: PendingEntry, tick: Tick, after: Ledger)
    requires Inv(cfg, start, l)
    requires after == OpenStep(cfg, Drawn(l), order, tick, false)
    ensures Inv(cfg, start, after) && Grown(l, after, 1, order.symbol)
  {
    DrawKeeps(cfg, start, l);
    OpenStepKeeps(cfg, start, Drawn(l), order, tick, false, after);
    assert Descends(l, Drawn(l)) by { CalmSelf(l); }
    DescendsThen(l, Drawn(l), after);
  }

  lemma OrderingOpens(cfg: Config, e: EngineState, signal: Signal, quantity: real, gate: GateResult, tick: Tick)
    requires Ordering(cfg, e, signal, quantity, gate, tick).transitions != []
    ensures gate == Passed && cfg.fillAt != AtNextOpen
    ensures Ordering(cfg, e, signal, quantity, gate, tick)
            == Opening(cfg, Idle(e.(nextId := e.nextId + 1)), OrderFor(e.nextId, quantity, signal, tick.symbol), tick, false)
  {
  }

  /** When a decision opens a position: what was decided, and that the gate passed the order. */
  lemma OpeningCase(cfg: Config, e: EngineState, decision: Decision, s: Store, tick: Tick, b: Batch)
    returns (quantity: real, order: PendingEntry)
    requires b == Execution(cfg, e, decision, s, tick) && b.transitions != []
    ensures decision.approved && decision.finalSignal.Some?
    ensures !(cfg.longOnly && decision.finalSignal.value.side == Sell) && cfg.fillAt != AtNextOpen
    ensures quantity > 0.0 && order == OrderFor(e.nextId, quantity, decision.finalSignal.value, tick.symbol)
    ensures s.portfolio.equity != 0.0
    ensures CheckGate(s, quantity, Some(decision.finalSignal.value.entryPrice)) == Passed
    ensures b == Opening(cfg, Idle(e.(nextId := e.nextId + 1)), order, tick, false)
  {
    var signal := decision.finalSignal.value;
    quantity := PositionSize(cfg, s, signal.entryPrice, signal.stopLoss, signal.sizeMultiplier);
    order := OrderFor(e.nextId, quantity, signal, tick.symbol);
    SizeIsCapped(cfg, s, signal.entryPrice, signal.stopLoss, signal.sizeMultiplier);
    OrderingOpens(cfg, e, signal, quantity, CheckGate(s, quantity, Some(signal.entryPrice)), tick);
  }

  lemma GateChecksCount(s: Store, quantity: real, price: real)
    requires s.portfolio.equity != 0.0 && CheckGate(s, quantity, Some(price)) == Passed
    ensures |s.portfolio.openPositions| < s.risk.limits.maxOpenPositions
  {
  }

  lemma ExecutionOpens(cfg: Config, l: Ledger, tick: Tick, decision: Decision, after: Ledger)
    requires decision.approved && after == Act(cfg, l, tick, decision)
    requires Execution(cfg, l.engine, decision, l.store, tick).transitions != []
    ensures |Open(l)| < l.store.risk.limits.maxOpenPositions && cfg.fillAt != AtNextOpen
    ensures exists order: PendingEntry :: order.symbol == tick.symbol && after == OpenStep(cfg, Drawn(l), order, tick, false)
  {
    var b := Execution(cfg, l.engine, decision, l.store, tick);
    var quantity, order := OpeningCase(cfg, l.engine, decision, l.store, tick, b);
    GateChecksCount(l.store, quantity, decision.finalSignal.value.entryPrice);
    OpeningCommits(cfg, l, order, tick, b, after);
  }

  lemma OpeningCommits(cfg: Config, l: Ledger, order: PendingEntry, tick: Tick, b: Batch, after: Ledger)
    requires b == Opening(cfg, Idle(Drawn(l).engine), order, tick, false) && after == Commit(l, b)
    ensures after == OpenStep(cfg, Drawn(l), order, tick, false)
  {
    CommitIdle(Drawn(l));
    assert after == Commit(Drawn(l), b);
    CommitOpening(cfg, Drawn(l), Idle(Drawn(l).engine), order, tick, false);
  }

  /** A deferred order changes the engine alone, and only where the gate passed it. */
  ghost predicate Deferred(cfg: Config, e: EngineState, s: Store, tick: Tick, b: Batch) {
    && cfg.fillAt == AtNextOpen && |s.portfolio.openPositions| < s.risk.limits.maxOpenPositions
    && exists order: PendingEntry ::
         order.symbol == tick.symbol && b.engine == e.(nextId := e.nextId + 1, pending := e.pending + [order])
  }

  /** When a decision opens nothing: at most a refusal is published, or the order is deferred. */
  lemma NoOpeningCase(cfg: Config, e: EngineState, decision: Decision, s: Store, tick: Tick, b: Batch)
    requires b == Execution(cfg, e, decision, s, tick) && b.transitions == []
    ensures |b.events| <= 1 && forall event | event in b.events :: !Relevant(event)
    ensures b.engine == e || Deferred(cfg, e, s, tick, b)
  {
    if b.engine != e {
      var signal := decision.finalSignal.value;
      var quantity := PositionSize(cfg, s, signal.entryPrice, signal.stopLoss, signal.sizeMultiplier);
      SizeIsCapped(cfg, s, signal.entryPrice, signal.stopLoss, signal.sizeMultiplier);
      OrderingDefers(cfg, e, s, signal, quantity, CheckGate(s, quantity, Some(signal.entryPrice)), tick, b);
    }
  }

  lemma OrderingDefers(
    cfg: Config, e: EngineState, s: Store, signal: Signal, quantity: real, gate: GateResult, tick: Tick, b: Batch)
    requires b == Ordering(cfg, e, signal, quantity, gate, tick) && b.transitions == [] && b.engine != e
    requires s.portfolio.equity != 0.0 && gate == CheckGate(s, quantity, Some(signal.entryPrice))
    ensures Deferred(cfg, e, s, tick, b)
  {
    GateChecksCount(s, quantity, signal.entryPrice);
    var order := OrderFor(e.nextId, quantity, signal, tick.symbol);
    assert order.symbol == tick.symbol && b.engine == e.(nextId := e.nextId + 1, pending := e.pending + [order]);
  }

  lemma DeferringQueues(cfg: Config, l: Ledger, tick: Tick, b: Batch, after: Ledger)
    requires after == Commit(l, b) && b.transitions == [] && Deferred(cfg, l.engine, l.store, tick, b)
    ensures Queues(cfg, l, tick, after)
  {
    var order: PendingEntry :|
      order.symbol == tick.symbol
      && b.engine == l.engine.(nextId := l.engine.nextId + 1, pending := l.engine.pending + [order]);
    assert (l.engine.pending + [order])[..|l.engine.pending|] == l.engine.pending;
  }

  lemma ActKeeps(cfg: Config, start: Store, l: Ledger, tick: Tick, decision: Decision, after: Ledger)
    requires Inv(cfg, start, l)
    requires after == Act(cfg, l, tick, decision)
    ensures Inv(cfg, start, after) && after.log == l.log && Descends(l, after)
    ensures Symbols(Open(after)) <= Symbols(Open(l)) + {tick.symbol}
    ensures
      || (Open(after) == Open(l) && after.engine.pending == l.engine.pending)
      || (|Open(l)| < l.store.risk.limits.maxOpenPositions && Queues(cfg, l, tick, after))
      || (|Open(l)| < l.store.risk.limits.maxOpenPositions && cfg.fillAt != AtNextOpen
          && |Open(after)| == |Open(l)| + 1 && after.engine.pending == l.engine.pending)
  {
    CalmSelf(l);
    if decision.approved {
      var b := Execution(cfg, l.engine, decision, l.store, tick);
      if b.transitions == [] {
        NoOpeningCase(cfg, l.engine, decision, l.store, tick, b);
        ActWithoutOpening(cfg, start, l, b, after);
        if b.engine != l.engine {
          DeferringQueues(cfg, l, tick, b, after);
        }
      } else {
        ExecutionOpens(cfg, l, tick, decision, after);
        var order: PendingEntry :| order.symbol == tick.symbol && after == OpenStep(cfg, Drawn(l), order, tick, false);
        ActOpens(cfg, start, l, order, tick, after);
      }
    }
  }

  /** A deferred order joins the queue under the tick's symbol. */
  ghost predicate Queues(cfg: Config, l: Ledger, tick: Tick, after: Ledger) {
    && cfg.fillAt == AtNextOpen && Open(after) == Open(l)
    && |after.engine.pending| == |l.engine.pending| + 1
    && after.engine.pending[..|l.engine.pending|] == l.engine.pending
    && after.engine.pending[|l.engine.pending|].symbol == tick.symbol
  }

  lemma DrawKeeps(cfg: Config, start: Store, l: Ledger)
    requires Inv(cfg, start, l)
    ensures Inv(cfg, start, Drawn(l))
  {
    var after := Drawn(l);
    forall id: Id
      ensures Openings(Emitted(after), id) <= (if id < after.engine.nextId then 1 else 0)
    {
      assert Openings(Emitted(l), id) <= (if id < l.engine.nextId then 1 else 0);
    }
  }

  lemma RefusalIsNeutral(events: seq<Event>, openIds: set<Id>, nextId: Id, e: Event)
    requires OnceEach(events, openIds, nextId) && !Relevant(e)
    ensures OnceEach(events + [e], openIds, nextId) && Absorbed(events + [e]) == Absorbed(events)
  {
    assert (events + [e])[..|events|] == events;
  }

  lemma RefusalKeeps(cfg: Config, start: Store, l: Ledger, e: Event)
    requires Inv(cfg, start, l) && !Relevant(e)
    ensures Inv(cfg, start, l.(collected := l.collected + [e]))
  {
    EmittedSnoc(l, e);
    RefusalIsNeutral(Emitted(l), Ids(Open(l)), l.engine.nextId, e);
  }

  /** A decision that opens nothing: ignored, unsizable, refused by the gate, or queued. */
  lemma ActWithoutOpening(cfg: Config, start: Store, l: Ledger, b: Batch, after: Ledger)
    requires Inv(cfg, start, l) && after == Commit(l, b) && b.transitions == []
    requires |b.events| <= 1 && forall e | e in b.events :: !Relevant(e)
    requires b.engine == l.engine || b.engine == l.engine.(nextId := l.engine.nextId + 1, pending := b.engine.pending)
    ensures Inv(cfg, start, after)
  {
    assert l.trail + [] == l.trail;
    var l1 := l.(collected := l.collected + b.events);
    if b.events == [] {
      assert l1 == l;
    } else {
      assert b.events == [b.events[0]];
      RefusalKeeps(cfg, start, l, b.events[0]);
    }
    if b.engine == l.engine {
      assert after == l1;
    } else {
      DrawKeeps(cfg, start, l1);
      var l2 := Drawn(l1);
      RequeueKeeps(cfg, start, l2, b.engine.pending);
      assert after == Requeued(l2, b.engine.pending);
    }
  }

  // ---------------------------------------------------------------- publishing

  ghost predicate NoCandle(events: seq<Event>) { forall e | e in events :: !e.kind.CandleReceived? }

  /** A candle slipped in before the last events changes neither positions nor realised profit. */
  lemma {:induction false} CandleIsNeutral(a: seq<Event>, candle: Event, b: seq<Event>)
    requires candle.kind.CandleReceived?
    ensures Absorbed(a + [candle] + b).lots == Absorbed(a + b).lots
    ensures Absorbed(a + [candle] + b).realised == Absorbed(a + b).realised
    ensures NoCandle(b) ==> Absorbed(a + [candle] + b).lastClose == candle.kind.close
    ensures forall id :: Openings(a + [candle] + b, id) == Openings(a + b, id)
    ensures forall id :: Closings(a + [candle] + b, id) == Closings(a + b, id)
  {
    if b == [] {
      assert a + [candle] + b == a + [candle] && (a + [candle])[..|a|] == a && a + b == a;
    } else {
      var n := |b| - 1;
      CandleIsNeutral(a, candle, b[..n]);
      assert (a + [candle] + b)[..|a| + 1 + n] == a + [candle] + b[..n];
      assert (a + b)[..|a| + n] == a + b[..n];
    }
  }

  lemma PublishKeeps(cfg: Config, start: Store, l: Ledger, tick: Tick, after: Ledger)
    requires Inv(cfg, start, l) && after == Publish(l, tick)
    ensures Inv(cfg, start, after)
  {
    var candle := Event(tick.time, CandleReceived(tick.bar.close));
    CandleIsNeutral(l.log, candle, l.collected);
    assert Emitted(after) == l.log + [candle] + l.collected;
    forall id: Id
      ensures Openings(Emitted(after), id) == Openings(Emitted(l), id)
      ensures Closings(Emitted(after), id) == Closings(Emitted(l), id)
    {
    }
  }

  // ---------------------------------------------------------------- cycles

  /** What a cycle reaches before it acts on the decision. */
  function BeforeAct(cfg: Config, l: Ledger, input: CycleInput): Ledger {
    SignalExits(cfg, CountSignal(AtDecision(cfg, l, input.tick), input.decision), input.tick, input.decision)
  }

  lemma BeforeActKeeps(cfg: Config, start: Store, l: Ledger, input: CycleInput, after: Ledger)
    requires Inv(cfg, start, l) && after == BeforeAct(cfg, l, input)
    ensures Inv(cfg, start, after) && after.engine.pending == Others(l.engine.pending, input.tick.symbol)
    ensures Descends(l, after)
    ensures Symbols(Open(after)) <= Symbols(Open(l)) + {input.tick.symbol}
    ensures |Open(after)| + |after.engine.pending| <= |Open(l)| + |l.engine.pending|
    ensures after.log == l.log
  {
    var tick, decision := input.tick, input.decision;
    var l1 := PreDecision(cfg, l, tick);
    PreDecisionKeeps(cfg, start, l, tick, l1);
    var l2 := DailyReset(l1, tick.time);
    DailyResetKeeps(cfg, start, l1, tick.time, l2);
    var l3 := Mark(l2, tick);
    MarkKeeps(cfg, start, l2, tick, l3);
    var l4 := CountSignal(l3, decision);
    CountSignalKeeps(cfg, start, l3, decision, l4);
    SignalExitsKeep(cfg, start, l4, tick, decision, after);
    CalmThen(l1, l2, l3);
    CalmThen(l1, l3, l4);
    CalmThen(l1, l4, after);
    DescendsThen(l, l1, after);
  }

  lemma CycleKeeps(cfg: Config, start: Store, l: Ledger, input: CycleInput, after: Ledger)
    requires Inv(cfg, start, l) && after == Cycle(cfg, l, input)
    ensures Inv(cfg, start, after) && after.collected == [] && Descends(l, after)
  {
    var l1 := BeforeAct(cfg, l, input);
    BeforeActKeeps(cfg, start, l, input, l1);
    var l2 := Act(cfg, l1, input.tick, input.decision);
    ActKeeps(cfg, start, l1, input.tick, input.decision, l2);
    PublishKeeps(cfg, start, l2, input.tick, after);
    DescendsThen(l, l1, l2);
  }

  /**
   The platform invariant, at every cycle boundary of every interleaving of cycles: the store is the
   trail replayed; the engine's tables and the store name the same positions; every opening has at
   most one close; no position has been held max_bars_in_trade bars.
   */
  lemma {:induction false} RunKeeps(cfg: Config, cash: real, limits: RiskLimits, inputs: seq<CycleInput>)
    ensures Inv(cfg, InitialStore(cash, limits), Cycles(cfg, EmptyLedger(cash, limits), inputs))
    ensures Cycles(cfg, EmptyLedger(cash, limits), inputs).collected == []
  {
    var start := InitialStore(cash, limits);
    if inputs == [] {
      assert Ids(Open(EmptyLedger(cash, limits))) == {};
    } else {
      var n := |inputs| - 1;
      RunKeeps(cfg, cash, limits, inputs[..n]);
      CycleKeeps(cfg, start, Cycles(cfg, EmptyLedger(cash, limits), inputs[..n]), inputs[n],
                 Cycles(cfg, EmptyLedger(cash, limits), inputs));
    }
  }

  /** Cash conservation and exact equity drift, in every state a run of the platform reaches. */
  lemma RunBalances(cfg: Config, cash: real, limits: RiskLimits, inputs: seq<CycleInput>)
    ensures
      var start := InitialStore(cash, limits);
      var l := Cycles(cfg, EmptyLedger(cash, limits), inputs);
      && Endowment(l.store) == cash - EntryFees(l.trail)
      && Drift(l.store) == FeesSinceMark(l.trail) + ClosedUnrealizedSinceMark(start, l.trail)
  {
    RunKeeps(cfg, cash, limits, inputs);
    var l := Cycles(cfg, EmptyLedger(cash, limits), inputs);
    CashConservation(InitialStore(cash, limits), l.trail);
    EquityDrift(InitialStore(cash, limits), l.trail);
  }
}
