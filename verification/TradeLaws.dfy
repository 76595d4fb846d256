/**
 What a trade earns: from the price it was opened at and the price it was closed at, with both fees. Over
 a run, realised profit is that sum over the closes in the event log, each paired with its own opening.
 */
module TradeLaws {
  import opened Wrappers
  import opened StateStore
  import opened Pricing
  import opened Engine
  import opened Runtime
  import opened Metrics
  import opened LedgerLaws
  import opened CycleLaws
  import opened ExitLaws
  import opened RunLaws
  import opened FillLaws

  // ---------------------------------------------------------------- one trade

  function CashOf(l: Ledger): real { l.store.portfolio.cash }

  lemma OpeningPays(cfg: Config, l: Ledger, order: PendingEntry, tick: Tick, useNextOpen: bool, after: Ledger, p: Position)
    requires after == OpenStep(cfg, l, order, tick, useNextOpen)
    requires p == NewPosition(cfg, l.engine, order, tick, useNextOpen)
    ensures CashOf(after) - CashOf(l) == -(p.entryPrice * p.quantity) - p.entryPrice * p.quantity * FeeRate(cfg)
  {
  }

  lemma ClosingReturns(
    cfg: Config, l: Ledger, p: Position, price: real, reason: ExitReason, time: int, after: Ledger)
    requires Distinct(Open(l)) && p in Open(l) && after == CloseStep(cfg, l, p, price, reason, time)
    ensures CashOf(after) - CashOf(l) == p.entryPrice * p.quantity + Earned(cfg, p, price)
  {
    CloseEarns(cfg, p, price);
    FindProperties(Open(l), p.id);
    assert p.id in Ids(Open(l));
  }

  /**
   A round trip, whatever happens in between: opening a position and closing it later moves cash by the
   move in its direction, less the fee rate on both what was paid and what was received.
   */
  lemma RoundTripPays(
    cfg: Config, l: Ledger, order: PendingEntry, tick: Tick, useNextOpen: bool, p: Position,
    later: Ledger, q: Position, price: real, reason: ExitReason, time: int)
    requires p == NewPosition(cfg, l.engine, order, tick, useNextOpen) && SamePosition(p, q)
    requires Distinct(Open(later)) && q in Open(later)
    ensures
      var opening := CashOf(OpenStep(cfg, l, order, tick, useNextOpen)) - CashOf(l);
      var closing := CashOf(CloseStep(cfg, later, q, price, reason, time)) - CashOf(later);
      opening + closing
      == Direction(p.side) * p.quantity * (price - p.entryPrice) - (p.entryPrice + price) * p.quantity * FeeRate(cfg)
  {
    OpeningPays(cfg, l, order, tick, useNextOpen, OpenStep(cfg, l, order, tick, useNextOpen), p);
    ClosingReturns(cfg, later, q, price, reason, time, CloseStep(cfg, later, q, price, reason, time));
    BothFees(p.entryPrice, price, p.quantity, FeeRate(cfg));
  }

  lemma BothFees(a: real, b: real, q: real, f: real)
    ensures (a + b) * q * f == a * q * f + b * q * f
  {
  }

  /** A position with its profit at a price of its symbol stored; of another symbol, as it was. */
  function MarkedUp(p: Position, symbol: string, price: real): Position {
    if p.symbol != symbol then p
    else p.(unrealizedPnl := Direction(p.side) * p.quantity * (price - p.entryPrice))
  }

  lemma RevaluedIs(p: Position, symbol: string, price: real)
    ensures Revalued(p, map[symbol := price]) == MarkedUp(p, symbol, price)
  {
    GainIs(p, price);
  }

  /** A mark stores each position's profit at the close of its symbol's bar, and leaves the others. */
  lemma MarkStoresGain(l: Ledger, tick: Tick, after: Ledger, i: nat)
    requires after == Mark(l, tick) && i < |Open(l)|
    ensures |Open(after)| == |Open(l)| && Open(after)[i] == MarkedUp(Open(l)[i], tick.symbol, tick.bar.close)
  {
    RevalueAllAt(Open(l), map[tick.symbol := tick.bar.close]);
    RevaluedIs(Open(l)[i], tick.symbol, tick.bar.close);
  }

  lemma GainIs(p: Position, price: real)
    ensures PnlAt(p, price) == Direction(p.side) * p.quantity * (price - p.entryPrice)
  {
    if p.side == Short {
      assert (p.entryPrice - price) * p.quantity == Direction(p.side) * p.quantity * (price - p.entryPrice);
    }
  }

  // ---------------------------------------------------------------- closes and their openings

  predicate OpensFor(cfg: Config, opening: Event, e: Event) {
    opening.kind.OpenedEvent? && CloseOf(cfg, opening.kind.position, e)
  }

  /** Every close in the log earned what its own, earlier opening says. */
  ghost predicate Accounted(cfg: Config, events: seq<Event>) {
    forall i | 0 <= i < |events| && events[i].kind.ClosedEvent? ::
      exists j :: 0 <= j < i && OpensFor(cfg, events[j], events[i])
  }

  ghost predicate OpenedAmong(cfg: Config, events: seq<Event>, e: Event) {
    exists o :: o in events && OpensFor(cfg, o, e)
  }

  lemma AccountedHas(cfg: Config, events: seq<Event>, e: Event)
    requires Accounted(cfg, events) && e in events && e.kind.ClosedEvent?
    ensures OpenedAmong(cfg, events, e)
  {
    var i :| 0 <= i < |events| && events[i] == e;
    var j :| 0 <= j < i && OpensFor(cfg, events[j], events[i]);
    assert events[j] in events;
  }

  /** More events, whose closes are of positions opened before them. */
  lemma AccountedMore(cfg: Config, events: seq<Event>, more: seq<Event>)
    requires Accounted(cfg, events)
    requires forall e | e in more && e.kind.ClosedEvent? :: OpenedAmong(cfg, events, e)
    ensures Accounted(cfg, events + more)
  {
    var all := events + more;
    forall i | 0 <= i < |all| && all[i].kind.ClosedEvent?
      ensures exists j :: 0 <= j < i && OpensFor(cfg, all[j], all[i])
    {
      if i < |events| {
        var j :| 0 <= j < i && OpensFor(cfg, events[j], events[i]);
        assert OpensFor(cfg, all[j], all[i]);
      } else {
        assert all[i] in more;
        var o :| o in events && OpensFor(cfg, o, all[i]);
        var j :| 0 <= j < |events| && events[j] == o;
        assert OpensFor(cfg, all[j], all[i]);
      }
    }
  }

  /** Where an event of `a + b` is found once a candle has been put in between. */
  function Moved(a: seq<Event>, i: nat): nat { if i < |a| then i else i + 1 }

  lemma MovedIs(a: seq<Event>, candle: Event, b: seq<Event>, i: nat)
    requires i < |a + b|
    ensures Moved(a, i) < |a + ([candle] + b)| && (a + ([candle] + b))[Moved(a, i)] == (a + b)[i]
  {
  }

  lemma AccountedAround(cfg: Config, a: seq<Event>, candle: Event, b: seq<Event>)
    requires Accounted(cfg, a + b) && candle.kind.CandleReceived?
    ensures Accounted(cfg, a + ([candle] + b))
  {
    var short, all := a + b, a + ([candle] + b);
    forall i | 0 <= i < |all| && all[i].kind.ClosedEvent?
      ensures exists j :: 0 <= j < i && OpensFor(cfg, all[j], all[i])
    {
      assert i != |a|;
      var k := if i < |a| then i else i - 1;
      MovedIs(a, candle, b, k);
      var j :| 0 <= j < k && OpensFor(cfg, short[j], short[k]);
      MovedIs(a, candle, b, j);
      assert OpensFor(cfg, all[Moved(a, j)], all[i]);
    }
  }

  // ---------------------------------------------------------------- the open positions were opened in the log

  lemma {:induction false} SetLotMembers(lots: seq<Lot>, lot: Lot)
    ensures forall x | x in SetLot(lots, lot) :: x in lots || x == lot
  {
    if lots != [] {
      SetLotMembers(lots[1..], lot);
    }
  }

  lemma {:induction false} PopLotMembers(lots: seq<Lot>, id: Id)
    ensures forall x | x in PopLot(lots, id) :: x in lots
  {
    if lots != [] {
      PopLotMembers(lots[..|lots| - 1], id);
    }
  }

  ghost predicate LotOpened(events: seq<Event>, lot: Lot) {
    exists o :: o in events && o.kind.OpenedEvent? && LotOf(o.kind.position) == lot
  }

  lemma {:induction false} LotsWereOpened(events: seq<Event>)
    ensures forall lot | lot in Absorbed(events).lots :: LotOpened(events, lot)
  {
    if events != [] {
      var n := |events| - 1;
      LotsWereOpened(events[..n]);
      var lots, e := Absorbed(events[..n]).lots, events[n];
      if e.kind.OpenedEvent? {
        SetLotMembers(lots, LotOf(e.kind.position));
      } else if e.kind.ClosedEvent? {
        PopLotMembers(lots, e.kind.positionId);
      }
      forall lot | lot in Absorbed(events).lots ensures LotOpened(events, lot) {
        if lot in lots {
          var o :| o in events[..n] && o.kind.OpenedEvent? && LotOf(o.kind.position) == lot;
          assert o in events;
        } else {
          assert e in events;
        }
      }
    }
  }

  lemma OpenWasOpened(cfg: Config, l: Ledger, p: Position, e: Event)
    requires EventsReplay(l) && p in Open(l) && CloseOf(cfg, p, e)
    ensures OpenedAmong(cfg, Emitted(l), e)
  {
    LotsFollow(Open(l));
    var i :| 0 <= i < |Open(l)| && Open(l)[i] == p;
    assert LotsOf(Open(l))[i] == LotOf(p);
    LotsWereOpened(Emitted(l));
    assert LotOpened(Emitted(l), LotOf(p));
    var o :| o in Emitted(l) && o.kind.OpenedEvent? && LotOf(o.kind.position) == LotOf(p);
    assert OpensFor(cfg, o, e);
  }

  // ---------------------------------------------------------------- cycles

  ghost predicate ClosesOpen(cfg: Config, l: Ledger, e: Event) { exists p :: p in Open(l) && CloseOf(cfg, p, e) }

  /** From one ledger of a cycle to a later one, when what is closed in between was open at its start. */
  lemma Continues(cfg: Config, l: Ledger, after: Ledger)
    requires Accounted(cfg, Emitted(l)) && EventsReplay(l)
    requires after.log == l.log && l.collected <= after.collected
    requires forall e | e in after.collected && e.kind.ClosedEvent? :: e in l.collected || ClosesOpen(cfg, l, e)
    ensures Accounted(cfg, Emitted(after))
  {
    var more := after.collected[|l.collected|..];
    assert Emitted(after) == Emitted(l) + more;
    forall e | e in more && e.kind.ClosedEvent? ensures OpenedAmong(cfg, Emitted(l), e) {
      assert e in after.collected;
      if e in l.collected {
        AccountedHas(cfg, Emitted(l), e);
      } else {
        var p :| p in Open(l) && CloseOf(cfg, p, e);
        OpenWasOpened(cfg, l, p, e);
      }
    }
    AccountedMore(cfg, Emitted(l), more);
  }

  lemma OfSomeIsOpen(cfg: Config, l: Ledger, tick: Tick, side: Option<OrderSide>, e: Event)
    requires OfSome(cfg, l, Open(l), tick, side, e)
    ensures ClosesOpen(cfg, l, e)
  {
  }

  lemma FirstLookAccounts(cfg: Config, start: Store, l: Ledger, tick: Tick, after: Ledger)
    requires Inv(cfg, start, l) && after == PreDecision(cfg, l, tick) && Accounted(cfg, Emitted(l))
    ensures Accounted(cfg, Emitted(after))
  {
    PreDecisionKeeps(cfg, start, l, tick, after);
    forall e | e in after.collected && e.kind.ClosedEvent? ensures e in l.collected || ClosesOpen(cfg, l, e) {
      FirstLookCloses(cfg, start, l, tick, after, e);
      if e !in l.collected {
        OfSomeIsOpen(cfg, l, tick, None, e);
      }
    }
    Continues(cfg, l, after);
  }

  lemma SecondLookAccounts(cfg: Config, start: Store, l: Ledger, tick: Tick, decision: Decision, after: Ledger)
    requires Inv(cfg, start, l) && after == SignalExits(cfg, l, tick, decision) && Accounted(cfg, Emitted(l))
    ensures Accounted(cfg, Emitted(after))
  {
    SignalExitsKeep(cfg, start, l, tick, decision, after);
    forall e | e in after.collected && e.kind.ClosedEvent? ensures e in l.collected || ClosesOpen(cfg, l, e) {
      SecondLookCloses(cfg, start, l, tick, decision, after, e);
      if e !in l.collected {
        OfSomeIsOpen(cfg, l, tick, Some(decision.finalSignal.value.side), e);
      }
    }
    Continues(cfg, l, after);
  }

  lemma ActAccounts(cfg: Config, start: Store, l: Ledger, tick: Tick, decision: Decision, after: Ledger)
    requires Inv(cfg, start, l) && after == Act(cfg, l, tick, decision) && Accounted(cfg, Emitted(l))
    ensures Accounted(cfg, Emitted(after))
  {
    ActKeeps(cfg, start, l, tick, decision, after);
    ActAppends(cfg, l, tick, decision, after);
    Continues(cfg, l, after);
  }

  lemma PublishAccounts(cfg: Config, l: Ledger, tick: Tick, after: Ledger)
    requires after == Publish(l, tick) && Accounted(cfg, Emitted(l))
    ensures Accounted(cfg, after.log)
  {
    AccountedAround(cfg, l.log, Event(tick.time, CandleReceived(tick.bar.close)), l.collected);
  }

  lemma CycleAccounts(cfg: Config, start: Store, l: Ledger, input: CycleInput, after: Ledger)
    requires Inv(cfg, start, l) && l.collected == [] && after == Cycle(cfg, l, input) && Accounted(cfg, l.log)
    ensures Accounted(cfg, after.log)
  {
    var tick, decision := input.tick, input.decision;
    assert Emitted(l) == l.log;
    var early := PreDecision(cfg, l, tick);
    PreDecisionKeeps(cfg, start, l, tick, early);
    FirstLookAccounts(cfg, start, l, tick, early);
    var decided := Decided(early, input);
    DecidedKeeps(cfg, start, early, input, decided);
    DecidedFrame(early, input, decided);
    assert Emitted(decided) == Emitted(early);
    var signalled := SignalExits(cfg, decided, tick, decision);
    SignalExitsKeep(cfg, start, decided, tick, decision, signalled);
    SecondLookAccounts(cfg, start, decided, tick, decision, signalled);
    var acted := Act(cfg, signalled, tick, decision);
    ActAccounts(cfg, start, signalled, tick, decision, acted);
    CycleIs(cfg, l, input, early, acted);
    PublishAccounts(cfg, acted, tick, after);
  }

  /** Over every run, each close earned what its own opening and its exit price say. */
  lemma {:induction false} EveryCloseEarns(cfg: Config, cash: real, limits: RiskLimits, inputs: seq<CycleInput>, l: Ledger)
    requires l == Cycles(cfg, EmptyLedger(cash, limits), inputs)
    ensures Accounted(cfg, l.log)
  {
    if inputs != [] {
      var n := |inputs| - 1;
      var before := Cycles(cfg, EmptyLedger(cash, limits), inputs[..n]);
      EveryCloseEarns(cfg, cash, limits, inputs[..n], before);
      RunKeeps(cfg, cash, limits, inputs[..n]);
      CycleAccounts(cfg, InitialStore(cash, limits), before, inputs[n], l);
    }
  }

  // ---------------------------------------------------------------- the sum

  /** The position an event log opened under an id. */
  function OpenedAs(events: seq<Event>, id: Id): Option<Position> {
    if events == [] then None
    else
      var k := events[|events| - 1].kind;
      if k.OpenedEvent? && k.position.id == id then Some(k.position) else OpenedAs(events[..|events| - 1], id)
  }

  /** Side times quantity times price move, less the exit fee, for every close and the opening before it. */
  function TradeProfits(cfg: Config, events: seq<Event>): real {
    if events == [] then 0.0
    else
      var n := |events| - 1;
      var k := events[n].kind;
      TradeProfits(cfg, events[..n])
      + if k.ClosedEvent? then
          var origin := OpenedAs(events[..n], k.positionId);
          if origin.Some? then Earned(cfg, origin.value, k.exitPrice) else 0.0
        else 0.0
  }

  lemma {:induction false} OpenedIsCounted(events: seq<Event>, j: nat, id: Id)
    requires j < |events| && events[j].kind.OpenedEvent? && events[j].kind.position.id == id
    ensures Openings(events, id) >= 1
    ensures Openings(events, id) == 1 ==> OpenedAs(events, id) == Some(events[j].kind.position)
  {
    var n := |events| - 1;
    if j < n {
      OpenedIsCounted(events[..n], j, id);
    }
  }

  ghost predicate OpenedOnce(events: seq<Event>) { forall id: Id :: Openings(events, id) <= 1 }

  lemma OnceInit(events: seq<Event>)
    requires events != [] && OpenedOnce(events)
    ensures OpenedOnce(events[..|events| - 1])
  {
    var init := events[..|events| - 1];
    forall id: Id ensures Openings(init, id) <= 1 {
      assert Openings(events, id) <= 1;
    }
  }

  lemma {:induction false} ProfitsAdd(cfg: Config, events: seq<Event>)
    requires Accounted(cfg, events) && OpenedOnce(events)
    ensures Absorbed(events).realised == TradeProfits(cfg, events)
  {
    if events != [] {
      var n := |events| - 1;
      var init, e := events[..n], events[n];
      OnceInit(events);
      AccountedInit(cfg, events);
      ProfitsAdd(cfg, init);
      if e.kind.ClosedEvent? {
        var j :| 0 <= j < n && OpensFor(cfg, events[j], events[n]);
        assert init[j] == events[j];
        OpenedIsCounted(init, j, e.kind.positionId);
      }
    }
  }

  lemma AccountedInit(cfg: Config, events: seq<Event>)
    requires events != [] && Accounted(cfg, events)
    ensures Accounted(cfg, events[..|events| - 1])
  {
    var init := events[..|events| - 1];
    forall i | 0 <= i < |init| && init[i].kind.ClosedEvent?
      ensures exists j :: 0 <= j < i && OpensFor(cfg, init[j], init[i])
    {
      var j :| 0 <= j < i && OpensFor(cfg, events[j], events[i]);
      assert OpensFor(cfg, init[j], init[i]);
    }
  }

  /** Realised profit, in every state a run reaches, is what the closed trades in its log earned. */
  lemma RealisedIsTrades(cfg: Config, cash: real, limits: RiskLimits, inputs: seq<CycleInput>, l: Ledger)
    requires l == Cycles(cfg, EmptyLedger(cash, limits), inputs)
    ensures l.store.portfolio.realizedPnl == TradeProfits(cfg, l.log)
  {
    RunKeeps(cfg, cash, limits, inputs);
    EveryCloseEarns(cfg, cash, limits, inputs, l);
    assert Emitted(l) == l.log;
    InvOpensOnce(cfg, InitialStore(cash, limits), l);
    ProfitsAdd(cfg, l.log);
  }

  lemma InvOpensOnce(cfg: Config, start: Store, l: Ledger)
    requires Inv(cfg, start, l)
    ensures OpenedOnce(Emitted(l))
  {
    forall id: Id ensures Openings(Emitted(l), id) <= 1 {
      assert Openings(Emitted(l), id) <= if id < l.engine.nextId then 1 else 0;
    }
  }

  // ---------------------------------------------------------------- the end of a run

  lemma LiquidationAccounts(cfg: Config, start: Store, l: Ledger, tick: Tick, after: Ledger)
    requires Inv(cfg, start, l) && l.collected == [] && after == Liquidation(cfg, l, tick) && Accounted(cfg, l.log)
    ensures Accounted(cfg, after.log)
  {
    if after != l {
      var closed := Commit(l, LiquidationSweep(cfg, Idle(l.engine), Open(l), tick));
      forall e | e in closed.collected && e.kind.ClosedEvent? ensures ClosesOpen(cfg, l, e) {
        LiquidationClosesOnly(cfg, l, Open(l), Open(l), tick, closed, e);
      }
      assert Emitted(l) == l.log;
      LiquidationFrame(cfg, Idle(l.engine), Open(l), tick);
      Continues(cfg, l, closed);
    }
  }

  lemma {:induction false} LiquidationFrame(cfg: Config, b: Batch, ps: seq<Position>, tick: Tick)
    ensures b.events <= LiquidationSweep(cfg, b, ps, tick).events
  {
    if ps != [] {
      LiquidationFrame(cfg, b, ps[..|ps| - 1], tick);
    }
  }

  /**
   What a whole validation run leaves: cash is the opening capital plus what every trade in the log
   earned, less the fee rate on every opening.
   */
  lemma FinalCashIsTrades(cfg: Config, cash: real, limits: RiskLimits, symbol: string, feeds: seq<Feed>, l: Ledger)
    requires feeds != [] && l == HarnessRun(cfg, EmptyLedger(cash, limits), symbol, feeds)
    ensures l.store.portfolio.realizedPnl == TradeProfits(cfg, l.log)
    ensures CashOf(l) == cash + TradeProfits(cfg, l.log) - OpeningFees(cfg, l.log)
  {
    var start, inputs := InitialStore(cash, limits), CyclesOf(symbol, feeds);
    assert EmptyLedger(cash, limits).(log := []) == EmptyLedger(cash, limits);
    var last := Cycles(cfg, EmptyLedger(cash, limits), inputs);
    RunKeeps(cfg, cash, limits, inputs);
    EveryCloseEarns(cfg, cash, limits, inputs, last);
    LiquidationAccounts(cfg, start, last, CycleOf(symbol, feeds[|feeds| - 1]).tick, l);
    EveryPositionClosedOnce(cfg, cash, limits, symbol, feeds);
    assert Emitted(l) == l.log;
    InvOpensOnce(cfg, start, l);
    ProfitsAdd(cfg, l.log);
    CashConservation(start, l.trail);
    EntryFeesAreCharged(cfg, cash, limits, inputs, last);
    LiquidationKeepsFees(cfg, last, CycleOf(symbol, feeds[|feeds| - 1]).tick, l);
  }
}
