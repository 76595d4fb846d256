/**
 The simulated execution engine (backend/src/execution/simulated.py, simulated_pending.py,
 simulated_positions.py): its two tables of open positions, its queue of deferred entries, and the
 batches of events and store transitions it returns. A fresh id stands for each uuid the source draws.
 */
module Engine {
  import opened Wrappers
  import opened StateStore
  import opened Pricing

  datatype Signal = Signal(side: OrderSide, entryPrice: real, stopLoss: real, takeProfit: real, sizeMultiplier: real)

  datatype Decision = Decision(approved: bool, finalSignal: Option<Signal>)

  datatype PendingEntry = PendingEntry(
    orderId: Id, quantity: real, side: OrderSide, positionSide: PositionSide, symbol: string,
    stopLoss: real, takeProfit: real)

  /** The bar being processed: which symbol, its prices, and the event time its events carry. */
  datatype Tick = Tick(symbol: string, bar: Bar, time: int)

  datatype EventKind =
    | CandleReceived(close: real)
    | OpenedEvent(position: Position)
    | ClosedEvent(positionId: Id, pnl: real, reason: ExitReason, exitPrice: real, barsHeld: nat)
    | OrderRejected(gateReason: GateReason)
    | InvalidPositionSize

  datatype Event = Event(time: int, kind: EventKind)

  datatype EngineState = EngineState(
    positionBars: map<Id, nat>, positionOrders: map<Id, Id>, pending: seq<PendingEntry>, nextId: Id)

  /** The engine after some work, with the events and transitions that work produced. */
  datatype Batch = Batch(engine: EngineState, events: seq<Event>, transitions: seq<Transition>)

  function PositionSideOf(side: OrderSide): PositionSide { if side == Buy then Long else Short }

  function BarsHeld(e: EngineState, id: Id): nat {
    if id in e.positionBars then e.positionBars[id] else 0
  }

  // ---------------------------------------------------------------- opening and closing

  function NewPosition(cfg: Config, e: EngineState, order: PendingEntry, tick: Tick, useNextOpen: bool): Position {
    Position(e.nextId, order.symbol, order.positionSide, order.quantity,
             FillPrice(cfg, tick.bar, order.side, useNextOpen), Some(order.stopLoss), Some(order.takeProfit), 0.0)
  }

  function OpeningFee(cfg: Config, p: Position): real { Notional(p) * cfg.feeBps / 10000.0 }

  function Opening(cfg: Config, b: Batch, order: PendingEntry, tick: Tick, useNextOpen: bool): Batch {
    var e := b.engine;
    var p := NewPosition(cfg, e, order, tick, useNextOpen);
    Batch(
      e.(positionBars := e.positionBars[p.id := 0],
         positionOrders := e.positionOrders[p.id := order.orderId],
         nextId := e.nextId + 1),
      b.events + [Event(tick.time, OpenedEvent(p))],
      b.transitions + [PositionOpened(p, Notional(p) + OpeningFee(cfg, p))])
  }

  function ClosingPnl(cfg: Config, p: Position, exitPrice: real): real {
    PnlAt(p, exitPrice) - exitPrice * p.quantity * cfg.feeBps / 10000.0
  }

  function Closing(cfg: Config, b: Batch, p: Position, exitPrice: real, reason: ExitReason, time: int): Batch {
    var e := b.engine;
    var pnl := ClosingPnl(cfg, p, exitPrice);
    Batch(
      e.(positionBars := e.positionBars - {p.id}, positionOrders := e.positionOrders - {p.id}),
      b.events + [Event(time, ClosedEvent(p.id, pnl, reason, exitPrice, BarsHeld(e, p.id)))],
      b.transitions + [PositionClosed(p.id, pnl)])
  }

  // ---------------------------------------------------------------- the loops

  /** Fills the deferred entries `ps` of the tick's symbol; the others are returned as remaining. */
  function PendingSweep(cfg: Config, b: Batch, ps: seq<PendingEntry>, tick: Tick): (Batch, seq<PendingEntry>) {
    if ps == [] then (b, [])
    else
      var before := PendingSweep(cfg, b, ps[..|ps| - 1], tick);
      var last := ps[|ps| - 1];
      if last.symbol != tick.symbol then (before.0, before.1 + [last])
      else (Opening(cfg, before.0, last, tick, true), before.1)
  }

  function PendingFills(cfg: Config, b: Batch, tick: Tick): Batch {
    var swept := PendingSweep(cfg, b, b.engine.pending, tick);
    swept.0.(engine := swept.0.engine.(pending := swept.1))
  }

  /** One position in the exit loop of evaluate_bar. */
  function ExitStep(
    cfg: Config, b: Batch, p: Position, tick: Tick, approvedSide: Option<OrderSide>, incrementBars: bool
  ): Batch
  {
    if p.symbol != tick.symbol then b
    else
      var held := BarsHeld(b.engine, p.id) + if incrementBars then 1 else 0;
      var counted :=
        if incrementBars then b.(engine := b.engine.(positionBars := b.engine.positionBars[p.id := held])) else b;
      match CheckExit(cfg, p, tick.bar, held, approvedSide, incrementBars)
      case Stay => counted
      case Leave(reason, price) => Closing(cfg, counted, p, price, reason, tick.time)
  }

  function ExitSweep(
    cfg: Config, b: Batch, ps: seq<Position>, tick: Tick, approvedSide: Option<OrderSide>, incrementBars: bool
  ): Batch
  {
    if ps == [] then b
    else ExitStep(cfg, ExitSweep(cfg, b, ps[..|ps| - 1], tick, approvedSide, incrementBars),
                  ps[|ps| - 1], tick, approvedSide, incrementBars)
  }

  function Idle(e: EngineState): Batch { Batch(e, [], []) }

  function BarEvaluation(
    cfg: Config, e: EngineState, s: Store, tick: Tick, approvedSide: Option<OrderSide>, incrementBars: bool
  ): Batch
  {
    var filled := if incrementBars then PendingFills(cfg, Idle(e), tick) else Idle(e);
    ExitSweep(cfg, filled, s.portfolio.openPositions, tick, approvedSide, incrementBars)
  }

  function LiquidationSweep(cfg: Config, b: Batch, ps: seq<Position>, tick: Tick): Batch {
    if ps == [] then b
    else
      var before := LiquidationSweep(cfg, b, ps[..|ps| - 1], tick);
      var last := ps[|ps| - 1];
      if last.symbol != tick.symbol then before
      else Closing(cfg, before, last, tick.bar.close, EndOfRun, tick.time)
  }

  // ---------------------------------------------------------------- a decision

  function OrderFor(orderId: Id, quantity: real, signal: Signal, symbol: string): PendingEntry {
    PendingEntry(orderId, quantity, signal.side, PositionSideOf(signal.side), symbol, signal.stopLoss, signal.takeProfit)
  }

  /** An order that has a size: refused by the gate, deferred to the next open, or filled at once. */
  function Ordering(cfg: Config, e: EngineState, signal: Signal, quantity: real, gate: GateResult, tick: Tick): Batch {
    if gate.Refused? then Batch(e, [Event(tick.time, OrderRejected(gate.reason))], [])
    else
      var order := OrderFor(e.nextId, quantity, signal, tick.symbol);
      var ordered := e.(nextId := e.nextId + 1);
      if cfg.fillAt == AtNextOpen then Idle(ordered.(pending := ordered.pending + [order]))
      else Opening(cfg, Idle(ordered), order, tick, false)
  }

  function Execution(cfg: Config, e: EngineState, decision: Decision, s: Store, tick: Tick): Batch {
    if !decision.approved || decision.finalSignal.None? then Idle(e)
    else
      var signal := decision.finalSignal.value;
      if cfg.longOnly && signal.side == Sell then Idle(e)
      else
        var quantity := PositionSize(cfg, s, signal.entryPrice, signal.stopLoss, signal.sizeMultiplier);
        if quantity <= 0.0 then Batch(e, [Event(tick.time, InvalidPositionSize)], [])
        else
          SizeIsCapped(cfg, s, signal.entryPrice, signal.stopLoss, signal.sizeMultiplier);
          Ordering(cfg, e, signal, quantity, CheckGate(s, quantity, Some(signal.entryPrice)), tick)
  }

  // ---------------------------------------------------------------- the object

  class SimulatedExecutionEngine {
    const config: Config
    var positionBars: map<Id, nat>
    var positionOrders: map<Id, Id>
    var pendingEntries: seq<PendingEntry>
    var nextId: Id

    ghost function State(): EngineState
      reads this
    {
      EngineState(positionBars, positionOrders, pendingEntries, nextId)
    }

    constructor (config: Config)
      ensures this.config == config
      ensures State() == EngineState(map[], map[], [], 0)
    {
      this.config := config;
      positionBars, positionOrders, pendingEntries, nextId := map[], map[], [], 0;
    }

    method OpenPosition(order: PendingEntry, tick: Tick, useNextOpen: bool, ghost b: Batch)
      returns (event: Event, transition: Transition)
      requires b.engine == State()
      modifies this
      ensures Batch(State(), b.events + [event], b.transitions + [transition])
              == Opening(config, b, order, tick, useNextOpen)
    {
      var position := Position(
        nextId, order.symbol, order.positionSide, order.quantity,
        FillPrice(config, tick.bar, order.side, useNextOpen),
        Some(order.stopLoss), Some(order.takeProfit), 0.0);
      var fee := OpeningFee(config, position);
      nextId := nextId + 1;
      positionBars := positionBars[position.id := 0];
      positionOrders := positionOrders[position.id := order.orderId];
      event := Event(tick.time, OpenedEvent(position));
      transition := PositionOpened(position, Notional(position) + fee);
    }

    method ClosePosition(position: Position, exitPrice: real, reason: ExitReason, time: int, ghost b: Batch)
      returns (event: Event, transition: Transition)
      requires b.engine == State()
      modifies this
      ensures Batch(State(), b.events + [event], b.transitions + [transition])
              == Closing(config, b, position, exitPrice, reason, time)
    {
      var pnl := ClosingPnl(config, position, exitPrice);
      var barsHeld := if position.id in positionBars then positionBars[position.id] else 0;
      event := Event(time, ClosedEvent(position.id, pnl, reason, exitPrice, barsHeld));
      transition := PositionClosed(position.id, pnl);
      positionBars := positionBars - {position.id};
      positionOrders := positionOrders - {position.id};
    }

    method ProcessPendingEntries(tick: Tick) returns (events: seq<Event>, transitions: seq<Transition>)
      modifies this
      ensures Batch(State(), events, transitions) == PendingFills(config, Idle(old(State())), tick)
    {
      ghost var start := Idle(State());
      var remaining: seq<PendingEntry> := [];
      events, transitions := [], [];
      for i := 0 to |pendingEntries|
        invariant pendingEntries == old(pendingEntries)
        invariant PendingSweep(config, start, pendingEntries[..i], tick)
                  == (Batch(State(), events, transitions), remaining)
      {
        var pending := pendingEntries[i];
        assert pendingEntries[..i + 1][..i] == pendingEntries[..i];
        if pending.symbol != tick.symbol {
          remaining := remaining + [pending];
        } else {
          var event, transition := OpenPosition(pending, tick, true, Batch(State(), events, transitions));
          events, transitions := events + [event], transitions + [transition];
        }
      }
      assert pendingEntries[..|pendingEntries|] == pendingEntries;
      pendingEntries := remaining;
    }

    /** The body of evaluate_bar's loop: count the bar, and close the position if it must exit. */
    method EvaluatePosition(
      position: Position, tick: Tick, approvedSide: Option<OrderSide>, incrementBars: bool, ghost b: Batch
    ) returns (events: seq<Event>, transitions: seq<Transition>)
      requires b.engine == State()
      modifies this
      ensures Batch(State(), b.events + events, b.transitions + transitions)
              == ExitStep(config, b, position, tick, approvedSide, incrementBars)
    {
      events, transitions := [], [];
      assert b.events + [] == b.events && b.transitions + [] == b.transitions;
      if position.symbol != tick.symbol {
        return;
      }
      var barsHeld := if position.id in positionBars then positionBars[position.id] else 0;
      if incrementBars {
        barsHeld := barsHeld + 1;
        positionBars := positionBars[position.id := barsHeld];
      }
      var exit := CheckExit(config, position, tick.bar, barsHeld, approvedSide, incrementBars);
      if exit.Leave? {
        var event, transition :=
          ClosePosition(position, exit.price, exit.reason, tick.time, b.(engine := State()));
        events, transitions := [event], [transition];
      }
    }

    method EvaluateBar(snapshot: Store, tick: Tick, approvedSide: Option<OrderSide>, incrementBars: bool)
      returns (events: seq<Event>, transitions: seq<Transition>)
      modifies this
      ensures Batch(State(), events, transitions)
              == BarEvaluation(config, old(State()), snapshot, tick, approvedSide, incrementBars)
    {
      events, transitions := [], [];
      if incrementBars {
        events, transitions := ProcessPendingEntries(tick);
      }
      ghost var filled := Batch(State(), events, transitions);
      var positions := snapshot.portfolio.openPositions;
      for i := 0 to |positions|
        invariant Batch(State(), events, transitions)
                  == ExitSweep(config, filled, positions[..i], tick, approvedSide, incrementBars)
      {
        assert positions[..i + 1][..i] == positions[..i];
        var newEvents, newTransitions := EvaluatePosition(
          positions[i], tick, approvedSide, incrementBars, Batch(State(), events, transitions));
        events, transitions := events + newEvents, transitions + newTransitions;
      }
      assert positions[..|positions|] == positions;
    }

    method LiquidateOpenPositions(snapshot: Store, tick: Tick)
      returns (events: seq<Event>, transitions: seq<Transition>)
      modifies this
      ensures Batch(State(), events, transitions)
              == LiquidationSweep(config, Idle(old(State())), snapshot.portfolio.openPositions, tick)
    {
      ghost var start := Idle(State());
      events, transitions := [], [];
      var positions := snapshot.portfolio.openPositions;
      for i := 0 to |positions|
        invariant Batch(State(), events, transitions) == LiquidationSweep(config, start, positions[..i], tick)
      {
        var position := positions[i];
        assert positions[..i + 1][..i] == positions[..i];
        if position.symbol == tick.symbol {
          var event, transition :=
            ClosePosition(position, tick.bar.close, EndOfRun, tick.time, Batch(State(), events, transitions));
          events, transitions := events + [event], transitions + [transition];
        }
      }
      assert positions[..|positions|] == positions;
    }

    method Execute(decision: Decision, snapshot: Store, tick: Tick)
      returns (events: seq<Event>, transitions: seq<Transition>)
      modifies this
      ensures Batch(State(), events, transitions) == Execution(config, old(State()), decision, snapshot, tick)
    {
      events, transitions := [], [];
      if !decision.approved || decision.finalSignal.None? {
        return;
      }
      var signal := decision.finalSignal.value;
      if config.longOnly && signal.side == Sell {
        return;
      }
      var quantity := PositionSize(config, snapshot, signal.entryPrice, signal.stopLoss, signal.sizeMultiplier);
      if quantity <= 0.0 {
        events := [Event(tick.time, InvalidPositionSize)];
        return;
      }
      SizeIsCapped(config, snapshot, signal.entryPrice, signal.stopLoss, signal.sizeMultiplier);
      var gate := CheckGate(snapshot, quantity, Some(signal.entryPrice));
      if gate.Refused? {
        events := [Event(tick.time, OrderRejected(gate.reason))];
        return;
      }
      var order := OrderFor(nextId, quantity, signal, tick.symbol);
      nextId := nextId + 1;
      if config.fillAt == AtNextOpen {
        pendingEntries := pendingEntries + [order];
        return;
      }
      var event, transition := OpenPosition(order, tick, false, Idle(State()));
      events, transitions := [event], [transition];
      assert [] + events == events && [] + transitions == transitions;
    }
  }
}
