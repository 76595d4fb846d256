/**
 What an opening is: which orders a bar fills, at what price and on what terms, when a decision opens or
 defers a position, and that the fees of a run are the fee rate on the openings in its log.
 */
module FillLaws {
  import opened Wrappers
  import opened Sums
  import opened StateStore
  import opened Pricing
  import opened Engine
  import opened Runtime
  import opened LedgerLaws
  import opened CycleLaws
  import opened ExitLaws

  // ---------------------------------------------------------------- the price of a fill

  /** The trader always pays for slippage: a buyer above the base price, a seller below it. */
  function Slipped(cfg: Config, base: real, side: OrderSide): real {
    if side == Buy then base + base * cfg.slippageBps / 10000.0 else base - base * cfg.slippageBps / 10000.0
  }

  /** A position that fills an order from a base price. */
  predicate Fills(cfg: Config, q: PendingEntry, base: real, p: Position) {
    && p.symbol == q.symbol && p.side == q.positionSide && p.quantity == q.quantity && p.unrealizedPnl == 0.0
    && p.entryPrice == Slipped(cfg, base, q.side)
    && p.stopLoss == Some(q.stopLoss) && p.takeProfit == Some(q.takeProfit)
  }

  /** Where an order that is filled at once is filled from. */
  function BasePrice(cfg: Config, bar: Bar): real {
    match cfg.fillAt
    case AtClose => bar.close
    case AtNextOpen => bar.open
    case AtMid => (bar.high + bar.low) / 2.0
  }

  lemma FillsFrom(cfg: Config, e: EngineState, q: PendingEntry, tick: Tick, useNextOpen: bool)
    ensures Fills(cfg, q, if useNextOpen then tick.bar.open else BasePrice(cfg, tick.bar),
                  NewPosition(cfg, e, q, tick, useNextOpen))
  {
    var base := if useNextOpen then tick.bar.open else BasePrice(cfg, tick.bar);
    Spread(base, cfg.slippageBps);
  }

  lemma Spread(base: real, bps: real)
    ensures base * (1.0 + bps / 10000.0) == base + base * bps / 10000.0
    ensures base * (1.0 - bps / 10000.0) == base - base * bps / 10000.0
  {
  }

  // ---------------------------------------------------------------- deferred entries

  /** Deferred entries of one symbol, in their order. */
  function Mine(ps: seq<PendingEntry>, symbol: string): seq<PendingEntry> {
    if ps == [] then []
    else Mine(ps[..|ps| - 1], symbol) + if ps[|ps| - 1].symbol == symbol then [ps[|ps| - 1]] else []
  }

  /** Positions that fill orders, one each and in the same order, and the events that say so. */
  ghost predicate FillEach(
    cfg: Config, orders: seq<PendingEntry>, tick: Tick, filled: seq<Position>, events: seq<Event>)
  {
    && |filled| == |orders| == |events|
    && forall i | 0 <= i < |orders| ::
         Fills(cfg, orders[i], tick.bar.open, filled[i]) && events[i] == Event(tick.time, OpenedEvent(filled[i]))
  }

  lemma FillEachSnoc(
    cfg: Config, orders: seq<PendingEntry>, q: PendingEntry, tick: Tick, filled: seq<Position>, events: seq<Event>,
    p: Position)
    requires FillEach(cfg, orders, tick, filled, events) && Fills(cfg, q, tick.bar.open, p)
    ensures FillEach(cfg, orders + [q], tick, filled + [p], events + [Event(tick.time, OpenedEvent(p))])
  {
  }

  lemma OneFill(cfg: Config, l: Ledger, b: Batch, q: PendingEntry, tick: Tick, mid: Ledger, after: Ledger)
    returns (p: Position)
    requires mid == Commit(l, b) && after == Commit(l, Opening(cfg, b, q, tick, true))
    ensures Open(after) == Open(mid) + [p] && after.collected == mid.collected + [Event(tick.time, OpenedEvent(p))]
    ensures Fills(cfg, q, tick.bar.open, p)
  {
    p := NewPosition(cfg, mid.engine, q, tick, true);
    CommitOpening(cfg, l, b, q, tick, true);
    FillsFrom(cfg, mid.engine, q, tick, true);
  }

  lemma Behind<T>(a: seq<T>, b: seq<T>, x: T)
    ensures (a + b) + [x] == a + (b + [x])
  {
  }

  lemma MineSnoc(ps: seq<PendingEntry>, symbol: string)
    requires ps != []
    ensures var n := |ps| - 1;
            Mine(ps, symbol) == if ps[n].symbol == symbol then Mine(ps[..n], symbol) + [ps[n]] else Mine(ps[..n], symbol)
  {
  }

  lemma {:induction false} SweepFillsEach(
    cfg: Config, l: Ledger, ps: seq<PendingEntry>, tick: Tick, after: Ledger)
    returns (filled: seq<Position>, events: seq<Event>)
    requires after == Commit(l, PendingSweep(cfg, Idle(l.engine), ps, tick).0)
    ensures Open(after) == Open(l) + filled && after.collected == l.collected + events
    ensures FillEach(cfg, Mine(ps, tick.symbol), tick, filled, events)
  {
    if ps == [] {
      CommitIdle(l);
      filled, events := [], [];
    } else {
      var n := |ps| - 1;
      var swept := PendingSweep(cfg, Idle(l.engine), ps[..n], tick);
      var mid := Commit(l, swept.0);
      filled, events := SweepFillsEach(cfg, l, ps[..n], tick, mid);
      MineSnoc(ps, tick.symbol);
      if ps[n].symbol == tick.symbol {
        var p := OneFill(cfg, l, swept.0, ps[n], tick, mid, after);
        FillEachSnoc(cfg, Mine(ps[..n], tick.symbol), ps[n], tick, filled, events, p);
        Behind(Open(l), filled, p);
        Behind(l.collected, events, Event(tick.time, OpenedEvent(p)));
        filled, events := filled + [p], events + [Event(tick.time, OpenedEvent(p))];
      }
    }
  }

  /** A bar fills every deferred entry of its symbol at the open, in the order they were queued, and keeps the rest. */
  lemma BarFillsQueue(cfg: Config, start: Store, l: Ledger, tick: Tick, after: Ledger)
    returns (filled: seq<Position>, events: seq<Event>)
    requires Inv(cfg, start, l) && after == Commit(l, PendingFills(cfg, Idle(l.engine), tick))
    ensures Open(after) == Open(l) + filled && after.collected == l.collected + events
    ensures FillEach(cfg, Mine(l.engine.pending, tick.symbol), tick, filled, events)
    ensures after.engine.pending == Others(l.engine.pending, tick.symbol)
  {
    PendingFillsKeep(cfg, start, l, tick, after);
    var mid := Commit(l, PendingSweep(cfg, Idle(l.engine), l.engine.pending, tick).0);
    filled, events := SweepFillsEach(cfg, l, l.engine.pending, tick, mid);
  }

  // ---------------------------------------------------------------- decisions

  /** An order on the terms of a signal. */
  predicate OrderOn(signal: Signal, symbol: string, quantity: real, q: PendingEntry) {
    && q.side == signal.side && (q.positionSide == Long <==> signal.side == Buy) && q.symbol == symbol
    && q.quantity == quantity && q.stopLoss == signal.stopLoss && q.takeProfit == signal.takeProfit
  }

  /** A decision that is approved, has a signal this engine may take, a size, and passes the gate. */
  predicate Takes(cfg: Config, s: Store, decision: Decision) {
    && decision.approved && decision.finalSignal.Some?
    && !(cfg.longOnly && decision.finalSignal.value.side == Sell)
    && var signal := decision.finalSignal.value;
       var quantity := PositionSize(cfg, s, signal.entryPrice, signal.stopLoss, signal.sizeMultiplier);
       quantity > 0.0 && s.portfolio.equity != 0.0 && CheckGate(s, quantity, Some(signal.entryPrice)) == Passed
  }

  /** What acting on a decision changes: nothing, one more deferred entry, or one more position. */
  lemma DecisionActs(cfg: Config, l: Ledger, tick: Tick, decision: Decision, after: Ledger)
    returns (order: PendingEntry, p: Position)
    requires after == Act(cfg, l, tick, decision)
    ensures !Takes(cfg, l.store, decision) ==> Open(after) == Open(l) && after.engine == l.engine
    ensures Takes(cfg, l.store, decision) ==>
              var signal := decision.finalSignal.value;
              OrderOn(signal, tick.symbol,
                      PositionSize(cfg, l.store, signal.entryPrice, signal.stopLoss, signal.sizeMultiplier), order)
    ensures Takes(cfg, l.store, decision) && cfg.fillAt == AtNextOpen ==>
              Open(after) == Open(l) && after.engine.pending == l.engine.pending + [order]
    ensures Takes(cfg, l.store, decision) && cfg.fillAt != AtNextOpen ==>
              && Open(after) == Open(l) + [p] && after.engine.pending == l.engine.pending
              && Fills(cfg, order, BasePrice(cfg, tick.bar), p)
  {
    order := PendingEntry(0, 0.0, Buy, Long, "", 0.0, 0.0);
    p := Position(0, "", Long, 0.0, 0.0, None, None, 0.0);
    if decision.approved && decision.finalSignal.Some? {
      var signal := decision.finalSignal.value;
      var quantity := PositionSize(cfg, l.store, signal.entryPrice, signal.stopLoss, signal.sizeMultiplier);
      var b := Execution(cfg, l.engine, decision, l.store, tick);
      if quantity > 0.0 {
        SizeIsCapped(cfg, l.store, signal.entryPrice, signal.stopLoss, signal.sizeMultiplier);
      }
      if Takes(cfg, l.store, decision) {
        order := OrderFor(l.engine.nextId, quantity, signal, tick.symbol);
        if cfg.fillAt != AtNextOpen {
          p := NewPosition(cfg, Drawn(l).engine, order, tick, false);
          FillsFrom(cfg, Drawn(l).engine, order, tick, false);
          OpeningCommits(cfg, l, order, tick, b, after);
        }
      }
    }
  }

  /** What acting on a decision publishes when nothing comes of it: the reason, if it got as far as having one. */
  lemma RefusalTells(cfg: Config, l: Ledger, tick: Tick, decision: Decision, after: Ledger)
    requires after == Act(cfg, l, tick, decision) && !Takes(cfg, l.store, decision)
    ensures
      var more := after.collected[|l.collected|..];
      if !decision.approved || decision.finalSignal.None? || (cfg.longOnly && decision.finalSignal.value.side == Sell)
      then more == []
      else
        var signal := decision.finalSignal.value;
        var quantity := PositionSize(cfg, l.store, signal.entryPrice, signal.stopLoss, signal.sizeMultiplier);
        if quantity <= 0.0 then more == [Event(tick.time, InvalidPositionSize)]
        else
          && l.store.portfolio.equity != 0.0
          && var gate := CheckGate(l.store, quantity, Some(signal.entryPrice));
             gate.Refused? && more == [Event(tick.time, OrderRejected(gate.reason))]
  {
    if decision.approved && decision.finalSignal.Some? {
      var signal := decision.finalSignal.value;
      if PositionSize(cfg, l.store, signal.entryPrice, signal.stopLoss, signal.sizeMultiplier) > 0.0 {
        SizeIsCapped(cfg, l.store, signal.entryPrice, signal.stopLoss, signal.sizeMultiplier);
      }
    }
  }

  // ---------------------------------------------------------------- a whole cycle

  /** An opening event of a position that fills the order from the base price. */
  predicate Announces(cfg: Config, q: PendingEntry, base: real, time: int, e: Event) {
    e.time == time && e.kind.OpenedEvent? && Fills(cfg, q, base, e.kind.position)
  }

  ghost predicate Announced(cfg: Config, q: PendingEntry, base: real, time: int, events: seq<Event>) {
    exists e :: e in events && Announces(cfg, q, base, time, e)
  }

  ghost predicate FromQueue(cfg: Config, l: Ledger, tick: Tick, e: Event) {
    exists q :: q in l.engine.pending && q.symbol == tick.symbol && Announces(cfg, q, tick.bar.open, tick.time, e)
  }

  lemma {:induction false} MineMembers(ps: seq<PendingEntry>, symbol: string)
    ensures forall q :: q in Mine(ps, symbol) <==> q in ps && q.symbol == symbol
  {
    if ps != [] {
      var n := |ps| - 1;
      MineMembers(ps[..n], symbol);
      assert ps == ps[..n] + [ps[n]];
    }
  }

  lemma EachAnnounced(
    cfg: Config, orders: seq<PendingEntry>, tick: Tick, filled: seq<Position>, events: seq<Event>, q: PendingEntry)
    requires FillEach(cfg, orders, tick, filled, events) && q in orders
    ensures Announced(cfg, q, tick.bar.open, tick.time, events)
  {
    var i :| 0 <= i < |orders| && orders[i] == q;
    assert Announces(cfg, q, tick.bar.open, tick.time, events[i]) && events[i] in events;
  }

  lemma EachFromQueue(
    cfg: Config, orders: seq<PendingEntry>, tick: Tick, filled: seq<Position>, events: seq<Event>, e: Event)
    returns (q: PendingEntry)
    requires FillEach(cfg, orders, tick, filled, events) && e in events
    ensures q in orders && Announces(cfg, q, tick.bar.open, tick.time, e)
  {
    var i :| 0 <= i < |events| && events[i] == e;
    q := orders[i];
  }

  lemma FirstLookFills(cfg: Config, start: Store, l: Ledger, tick: Tick, after: Ledger)
    returns (positions: seq<Position>, events: seq<Event>)
    requires Inv(cfg, start, l) && l.collected == [] && after == PreDecision(cfg, l, tick)
    ensures FillEach(cfg, Mine(l.engine.pending, tick.symbol), tick, positions, events)
    ensures events <= after.collected && forall e | e in after.collected && e.kind.OpenedEvent? :: e in events
  {
    var filled := PendingFills(cfg, Idle(l.engine), tick);
    var mid := Commit(l, filled);
    positions, events := BarFillsQueue(cfg, start, l, tick, mid);
    assert mid.collected == events;
    FillsKeepOpen(cfg, start, l, tick, mid);
    SweepGrows(cfg, filled, Open(l), tick, None, true);
    forall e | e in after.collected && e.kind.OpenedEvent? ensures e in events {
      SweepClosesOnly(cfg, l, filled, Open(l), Open(l), tick, None, mid, after, e);
    }
  }

  /** The queue at the start of a cycle and the openings of its first look are the same thing. */
  lemma FirstLookOpens(cfg: Config, start: Store, l: Ledger, tick: Tick, after: Ledger)
    requires Inv(cfg, start, l) && l.collected == [] && after == PreDecision(cfg, l, tick)
    ensures forall q | q in l.engine.pending && q.symbol == tick.symbol ::
              Announced(cfg, q, tick.bar.open, tick.time, after.collected)
    ensures forall e | e in after.collected && e.kind.OpenedEvent? :: FromQueue(cfg, l, tick, e)
  {
    var positions, events := FirstLookFills(cfg, start, l, tick, after);
    QueueOpens(cfg, l, tick, positions, events, after.collected);
  }

  lemma QueueOpens(
    cfg: Config, l: Ledger, tick: Tick, positions: seq<Position>, events: seq<Event>, collected: seq<Event>)
    requires FillEach(cfg, Mine(l.engine.pending, tick.symbol), tick, positions, events)
    requires events <= collected && forall e | e in collected && e.kind.OpenedEvent? :: e in events
    ensures forall q | q in l.engine.pending && q.symbol == tick.symbol ::
              Announced(cfg, q, tick.bar.open, tick.time, collected)
    ensures forall e | e in collected && e.kind.OpenedEvent? :: FromQueue(cfg, l, tick, e)
  {
    var mine := Mine(l.engine.pending, tick.symbol);
    MineMembers(l.engine.pending, tick.symbol);
    forall q | q in l.engine.pending && q.symbol == tick.symbol
      ensures Announced(cfg, q, tick.bar.open, tick.time, collected)
    {
      EachAnnounced(cfg, mine, tick, positions, events, q);
      var e :| e in events && Announces(cfg, q, tick.bar.open, tick.time, e);
      assert e in collected;
    }
    forall e | e in collected && e.kind.OpenedEvent? ensures FromQueue(cfg, l, tick, e) {
      var q := EachFromQueue(cfg, mine, tick, positions, events, e);
    }
  }

  lemma {:induction false} SweepGrows(
    cfg: Config, b: Batch, ps: seq<Position>, tick: Tick, side: Option<OrderSide>, incrementBars: bool)
    ensures b.events <= ExitSweep(cfg, b, ps, tick, side, incrementBars).events
  {
    if ps != [] {
      SweepGrows(cfg, b, ps[..|ps| - 1], tick, side, incrementBars);
    }
  }

  /** An opening by decision: one taken, filled at once, on the signal's terms. */
  ghost predicate ByDecision(cfg: Config, s: Store, tick: Tick, decision: Decision, e: Event) {
    && Takes(cfg, s, decision) && cfg.fillAt != AtNextOpen
    && var signal := decision.finalSignal.value;
       var quantity := PositionSize(cfg, s, signal.entryPrice, signal.stopLoss, signal.sizeMultiplier);
       exists q :: OrderOn(signal, tick.symbol, quantity, q) && Announces(cfg, q, BasePrice(cfg, tick.bar), tick.time, e)
  }

  lemma ActAnnounces(cfg: Config, l: Ledger, tick: Tick, decision: Decision, after: Ledger, e: Event)
    requires after == Act(cfg, l, tick, decision) && e in after.collected && e.kind.OpenedEvent?
    ensures e in l.collected || ByDecision(cfg, l.store, tick, decision, e)
  {
    if decision.approved {
      var b := Execution(cfg, l.engine, decision, l.store, tick);
      if b.transitions == [] {
        NoOpeningCase(cfg, l.engine, decision, l.store, tick, b);
      } else {
        var quantity, order := OpeningCase(cfg, l.engine, decision, l.store, tick, b);
        OpeningCommits(cfg, l, order, tick, b, after);
        FillsFrom(cfg, Drawn(l).engine, order, tick, false);
        TakenIs(cfg, l.engine, decision, l.store, tick, b);
        if e !in l.collected {
          assert OrderOn(decision.finalSignal.value, tick.symbol, quantity, order);
          assert Announces(cfg, order, BasePrice(cfg, tick.bar), tick.time, e);
        }
      }
    }
  }

  lemma TakenIs(cfg: Config, e: EngineState, decision: Decision, s: Store, tick: Tick, b: Batch)
    requires b == Execution(cfg, e, decision, s, tick) && b.transitions != []
    ensures Takes(cfg, s, decision) && cfg.fillAt != AtNextOpen
    ensures b.events == [Event(tick.time, OpenedEvent(b.transitions[0].position))]
    ensures var signal := decision.finalSignal.value;
            b.transitions[0].position.quantity
            == PositionSize(cfg, s, signal.entryPrice, signal.stopLoss, signal.sizeMultiplier)
  {
    var q, o := OpeningCase(cfg, e, decision, s, tick, b);
  }

  lemma SignalOpensNone(cfg: Config, start: Store, l: Ledger, tick: Tick, decision: Decision, after: Ledger, e: Event)
    requires Inv(cfg, start, l) && after == SignalExits(cfg, l, tick, decision)
    requires e in after.collected && e.kind.OpenedEvent?
    ensures e in l.collected
  {
    SecondLookCloses(cfg, start, l, tick, decision, after, e);
  }

  lemma OpeningsOfCycle(
    cfg: Config, start: Store, l: Ledger, input: CycleInput, early: Ledger, decided: Ledger, signalled: Ledger,
    acted: Ledger)
    requires Inv(cfg, start, l) && l.collected == [] && early == PreDecision(cfg, l, input.tick)
    requires decided == Decided(early, input) && signalled == SignalExits(cfg, decided, input.tick, input.decision)
    requires acted == Act(cfg, signalled, input.tick, input.decision)
    ensures forall q | q in l.engine.pending && q.symbol == input.tick.symbol ::
              Announced(cfg, q, input.tick.bar.open, input.tick.time, acted.collected)
    ensures forall e | e in acted.collected && e.kind.OpenedEvent? ::
              FromQueue(cfg, l, input.tick, e) || ByDecision(cfg, signalled.store, input.tick, input.decision, e)
  {
    FirstLookOpens(cfg, start, l, input.tick, early);
    PreDecisionKeeps(cfg, start, l, input.tick, early);
    DecidedKeeps(cfg, start, early, input, decided);
    DecidedFrame(early, input, decided);
    CollectedGrows(cfg, start, early, input, acted);
    forall q | q in l.engine.pending && q.symbol == input.tick.symbol
      ensures Announced(cfg, q, input.tick.bar.open, input.tick.time, acted.collected)
    {
      var e :| e in early.collected && Announces(cfg, q, input.tick.bar.open, input.tick.time, e);
      assert e in acted.collected;
    }
    forall e | e in acted.collected && e.kind.OpenedEvent?
      ensures FromQueue(cfg, l, input.tick, e) || ByDecision(cfg, signalled.store, input.tick, input.decision, e)
    {
      ActAnnounces(cfg, signalled, input.tick, input.decision, acted, e);
      if e in signalled.collected {
        SignalOpensNone(cfg, start, decided, input.tick, input.decision, signalled, e);
      }
    }
  }

  /**
   In every cycle of every run, each deferred entry of the symbol is filled at the bar's open, and whatever
   else is opened was decided in that cycle, passed the gate, and is filled from the close or the middle.
   */
  lemma {:induction false} EveryOpening(
    cfg: Config, cash: real, limits: RiskLimits, past: seq<CycleInput>, input: CycleInput,
    l: Ledger, after: Ledger, signalled: Ledger)
    requires l == Cycles(cfg, EmptyLedger(cash, limits), past) && after == Cycle(cfg, l, input)
    requires signalled
             == SignalExits(cfg, Decided(PreDecision(cfg, l, input.tick), input), input.tick, input.decision)
    ensures forall q | q in l.engine.pending && q.symbol == input.tick.symbol ::
              Announced(cfg, q, input.tick.bar.open, input.tick.time, NewEvents(l, after))
    ensures forall e | e in NewEvents(l, after) && e.kind.OpenedEvent? ::
              FromQueue(cfg, l, input.tick, e) || ByDecision(cfg, signalled.store, input.tick, input.decision, e)
  {
    var start := InitialStore(cash, limits);
    RunKeeps(cfg, cash, limits, past);
    var early := PreDecision(cfg, l, input.tick);
    var acted := Act(cfg, signalled, input.tick, input.decision);
    CycleIs(cfg, l, input, early, acted);
    ActedLog(cfg, start, l, input, early, acted);
    OpeningsOfCycle(cfg, start, l, input, early, Decided(early, input), signalled, acted);
    var news := NewEvents(l, after);
    assert news == [Event(input.tick.time, CandleReceived(input.tick.bar.close))] + acted.collected;
    forall q | q in l.engine.pending && q.symbol == input.tick.symbol
      ensures Announced(cfg, q, input.tick.bar.open, input.tick.time, news)
    {
      var e :| e in acted.collected && Announces(cfg, q, input.tick.bar.open, input.tick.time, e);
      assert e in news;
    }
  }

  // ---------------------------------------------------------------- fees

  function FeeOf(cfg: Config): Event -> real {
    (e: Event) =>
      if e.kind.OpenedEvent? then e.kind.position.entryPrice * e.kind.position.quantity * FeeRate(cfg) else 0.0
  }

  /** The fee rate on the price and quantity of every opening in a log. */
  function OpeningFees(cfg: Config, events: seq<Event>): real { Sum(events, FeeOf(cfg)) }

  lemma {:induction false} SumConcat<T>(a: seq<T>, b: seq<T>, f: T -> real)
    ensures Sum(a + b, f) == Sum(a, f) + Sum(b, f)
  {
    if b == [] {
      assert a + b == a;
    } else {
      var n := |b| - 1;
      assert (a + b)[..|a| + n] == a + b[..n];
      SumConcat(a, b[..n], f);
    }
  }

  ghost predicate FeesTie(cfg: Config, ts: seq<Transition>, events: seq<Event>) {
    EntryFees(ts) == OpeningFees(cfg, events)
  }

  lemma OpeningTies(cfg: Config, b: Batch, q: PendingEntry, tick: Tick, useNextOpen: bool)
    requires FeesTie(cfg, b.transitions, b.events)
    ensures var after := Opening(cfg, b, q, tick, useNextOpen); FeesTie(cfg, after.transitions, after.events)
  {
    var after := Opening(cfg, b, q, tick, useNextOpen);
    var p := NewPosition(cfg, b.engine, q, tick, useNextOpen);
    SumSnoc(b.transitions, PositionOpened(p, Notional(p) + OpeningFee(cfg, p)), EntryFee);
    SumSnoc(b.events, Event(tick.time, OpenedEvent(p)), FeeOf(cfg));
  }

  lemma ClosingTies(cfg: Config, b: Batch, p: Position, price: real, reason: ExitReason, time: int)
    requires FeesTie(cfg, b.transitions, b.events)
    ensures var after := Closing(cfg, b, p, price, reason, time); FeesTie(cfg, after.transitions, after.events)
  {
    var pnl := ClosingPnl(cfg, p, price);
    SumSnoc(b.transitions, PositionClosed(p.id, pnl), EntryFee);
    SumSnoc(b.events, Event(time, ClosedEvent(p.id, pnl, reason, price, BarsHeld(b.engine, p.id))), FeeOf(cfg));
  }

  lemma ExitTies(
    cfg: Config, b: Batch, p: Position, tick: Tick, side: Option<OrderSide>, incrementBars: bool, after: Batch)
    requires FeesTie(cfg, b.transitions, b.events) && after == ExitStep(cfg, b, p, tick, side, incrementBars)
    ensures FeesTie(cfg, after.transitions, after.events)
  {
    if p.symbol == tick.symbol {
      var held := BarsHeld(b.engine, p.id) + if incrementBars then 1 else 0;
      var counted :=
        if incrementBars then b.(engine := b.engine.(positionBars := b.engine.positionBars[p.id := held])) else b;
      var exit := CheckExit(cfg, p, tick.bar, held, side, incrementBars);
      if exit.Leave? {
        ClosingTies(cfg, counted, p, exit.price, exit.reason, tick.time);
      }
    }
  }

  lemma {:induction false} ExitsTie(
    cfg: Config, b: Batch, ps: seq<Position>, tick: Tick, side: Option<OrderSide>, incrementBars: bool, after: Batch)
    requires FeesTie(cfg, b.transitions, b.events) && after == ExitSweep(cfg, b, ps, tick, side, incrementBars)
    ensures FeesTie(cfg, after.transitions, after.events)
  {
    if ps != [] {
      var n := |ps| - 1;
      var before := ExitSweep(cfg, b, ps[..n], tick, side, incrementBars);
      ExitsTie(cfg, b, ps[..n], tick, side, incrementBars, before);
      ExitTies(cfg, before, ps[n], tick, side, incrementBars, after);
    }
  }

  lemma {:induction false} FillsTie(cfg: Config, b: Batch, ps: seq<PendingEntry>, tick: Tick)
    requires FeesTie(cfg, b.transitions, b.events)
    ensures var after := PendingSweep(cfg, b, ps, tick).0; FeesTie(cfg, after.transitions, after.events)
  {
    if ps != [] {
      var n := |ps| - 1;
      FillsTie(cfg, b, ps[..n], tick);
      if ps[n].symbol == tick.symbol {
        OpeningTies(cfg, PendingSweep(cfg, b, ps[..n], tick).0, ps[n], tick, true);
      }
    }
  }

  lemma {:induction false} LiquidationTies(cfg: Config, b: Batch, ps: seq<Position>, tick: Tick)
    requires FeesTie(cfg, b.transitions, b.events)
    ensures var after := LiquidationSweep(cfg, b, ps, tick); FeesTie(cfg, after.transitions, after.events)
  {
    if ps != [] {
      var n := |ps| - 1;
      LiquidationTies(cfg, b, ps[..n], tick);
      if ps[n].symbol == tick.symbol {
        ClosingTies(cfg, LiquidationSweep(cfg, b, ps[..n], tick), ps[n], tick.bar.close, EndOfRun, tick.time);
      }
    }
  }

  lemma NoFee(cfg: Config, events: seq<Event>)
    requires |events| <= 1 && forall e | e in events :: !e.kind.OpenedEvent?
    ensures FeesTie(cfg, [], events)
  {
    assert Sum<Transition>([], EntryFee) == 0.0 && Sum<Event>([], FeeOf(cfg)) == 0.0;
    if events != [] {
      assert events[..0] == [] && events[0] in events;
    }
  }

  lemma ExecutionTies(cfg: Config, e: EngineState, decision: Decision, s: Store, tick: Tick, b: Batch)
    requires b == Execution(cfg, e, decision, s, tick)
    ensures FeesTie(cfg, b.transitions, b.events)
  {
    if b.transitions == [] {
      NoOpeningCase(cfg, e, decision, s, tick, b);
      NoFee(cfg, b.events);
    } else {
      var quantity, order := OpeningCase(cfg, e, decision, s, tick, b);
      var ready := Idle(e.(nextId := e.nextId + 1));
      NoFee(cfg, ready.events);
      OpeningTies(cfg, ready, order, tick, false);
    }
  }

  ghost predicate LedgerTies(cfg: Config, l: Ledger) { FeesTie(cfg, l.trail, Emitted(l)) }

  lemma CommitTies(cfg: Config, l: Ledger, b: Batch, after: Ledger)
    requires LedgerTies(cfg, l) && FeesTie(cfg, b.transitions, b.events) && after == Commit(l, b)
    ensures LedgerTies(cfg, after)
  {
    SumConcat(l.trail, b.transitions, EntryFee);
    SumConcat(Emitted(l), b.events, FeeOf(cfg));
    assert Emitted(after) == Emitted(l) + b.events;
  }

  lemma EvaluationTies(cfg: Config, l: Ledger, tick: Tick, side: Option<OrderSide>, incrementBars: bool, after: Ledger)
    requires LedgerTies(cfg, l) && after == Commit(l, BarEvaluation(cfg, l.engine, l.store, tick, side, incrementBars))
    ensures LedgerTies(cfg, after)
  {
    FillsTie(cfg, Idle(l.engine), l.engine.pending, tick);
    var afterFills := if incrementBars then PendingFills(cfg, Idle(l.engine), tick) else Idle(l.engine);
    var b := BarEvaluation(cfg, l.engine, l.store, tick, side, incrementBars);
    ExitsTie(cfg, afterFills, Open(l), tick, side, incrementBars, b);
    CommitTies(cfg, l, b, after);
  }

  /** Issuing anything but an opening. */
  lemma IssueTies(cfg: Config, l: Ledger, t: Transition, after: Ledger)
    requires LedgerTies(cfg, l) && !t.PositionOpened? && after == Issue(l, t)
    ensures LedgerTies(cfg, after)
  {
    SumSnoc(l.trail, t, EntryFee);
  }

  lemma DecidedTies(cfg: Config, l: Ledger, input: CycleInput, after: Ledger)
    requires LedgerTies(cfg, l) && after == CountSignal(Mark(DailyReset(l, input.tick.time), input.tick), input.decision)
    ensures LedgerTies(cfg, after)
  {
    var l1 := DailyReset(l, input.tick.time);
    if l1.trail != l.trail {
      IssueTies(cfg, l.(signalsDay := l1.signalsDay), RiskUpdated(DayStart(l.store)), l1);
    }
    var l2 := Mark(l1, input.tick);
    if l2 != l1 {
      IssueTies(cfg, l1, MarkToMarket(map[input.tick.symbol := input.tick.bar.close]), l2);
    }
    if after != l2 {
      IssueTies(cfg, l2, RiskUpdated(SignalCount(l2.store)), after);
    }
  }

  lemma SignalTies(cfg: Config, l: Ledger, tick: Tick, decision: Decision, after: Ledger)
    requires LedgerTies(cfg, l) && after == SignalExits(cfg, l, tick, decision)
    ensures LedgerTies(cfg, after)
  {
    if after != l {
      EvaluationTies(cfg, l, tick, Some(decision.finalSignal.value.side), false, after);
    }
  }

  lemma ActTies(cfg: Config, l: Ledger, tick: Tick, decision: Decision, after: Ledger)
    requires LedgerTies(cfg, l) && after == Act(cfg, l, tick, decision)
    ensures LedgerTies(cfg, after)
  {
    if decision.approved {
      ExecutionTies(cfg, l.engine, decision, l.store, tick, Execution(cfg, l.engine, decision, l.store, tick));
      CommitTies(cfg, l, Execution(cfg, l.engine, decision, l.store, tick), after);
    }
  }

  lemma SumAround<T>(a: seq<T>, x: T, b: seq<T>, f: T -> real)
    ensures Sum(a + ([x] + b), f) == Sum(a + b, f) + f(x)
  {
    SumConcat(a, b, f);
    SumConcat(a, [x] + b, f);
    SumConcat([x], b, f);
    SumSnoc([], x, f);
    assert [] + [x] == [x];
  }

  lemma PublishTies(cfg: Config, l: Ledger, tick: Tick, after: Ledger)
    requires LedgerTies(cfg, l) && after == Publish(l, tick)
    ensures LedgerTies(cfg, after)
  {
    var candle := Event(tick.time, CandleReceived(tick.bar.close));
    SumAround(l.log, candle, l.collected, FeeOf(cfg));
    assert FeeOf(cfg)(candle) == 0.0;
    assert Emitted(after) == l.log + ([candle] + l.collected);
  }

  lemma CycleTies(cfg: Config, l: Ledger, input: CycleInput, after: Ledger)
    requires LedgerTies(cfg, l) && after == Cycle(cfg, l, input)
    ensures LedgerTies(cfg, after)
  {
    var tick, decision := input.tick, input.decision;
    var l1 := PreDecision(cfg, l, tick);
    EvaluationTies(cfg, l, tick, None, true, l1);
    var l2 := CountSignal(Mark(DailyReset(l1, tick.time), tick), decision);
    DecidedTies(cfg, l1, input, l2);
    var l3 := SignalExits(cfg, l2, tick, decision);
    SignalTies(cfg, l2, tick, decision, l3);
    var l4 := Act(cfg, l3, tick, decision);
    ActTies(cfg, l3, tick, decision, l4);
    PublishTies(cfg, l4, tick, after);
  }

  /** The entry fees of a run, liquidated or not, are the fee rate on every opening in its log. */
  lemma {:induction false} EntryFeesAreCharged(cfg: Config, cash: real, limits: RiskLimits, inputs: seq<CycleInput>, l: Ledger)
    requires l == Cycles(cfg, EmptyLedger(cash, limits), inputs)
    ensures LedgerTies(cfg, l)
  {
    if inputs == [] {
      NoFee(cfg, Emitted(l));
    } else {
      var n := |inputs| - 1;
      var before := Cycles(cfg, EmptyLedger(cash, limits), inputs[..n]);
      EntryFeesAreCharged(cfg, cash, limits, inputs[..n], before);
      CycleTies(cfg, before, inputs[n], l);
    }
  }

  lemma LiquidationKeepsFees(cfg: Config, l: Ledger, tick: Tick, after: Ledger)
    requires LedgerTies(cfg, l) && after == Liquidation(cfg, l, tick)
    ensures LedgerTies(cfg, after)
  {
    if after != l {
      var b := LiquidationSweep(cfg, Idle(l.engine), Open(l), tick);
      NoFee(cfg, Idle(l.engine).events);
      LiquidationTies(cfg, Idle(l.engine), Open(l), tick);
      CommitTies(cfg, l, b, Commit(l, b));
      assert Emitted(after) == Emitted(Commit(l, b));
    }
  }
}
