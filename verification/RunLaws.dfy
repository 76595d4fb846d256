/**
 What the invariant means for a run: every opened position is closed exactly once by the time the
 harness has liquidated, and how many positions can be open.
 */
module RunLaws {
  import opened StateStore
  import opened Pricing
  import opened Engine
  import opened Runtime
  import opened LedgerLaws
  import opened CycleLaws

  // ---------------------------------------------------------------- limits never move

  lemma {:induction false} LimitsAreFixed(s: Store, ts: seq<Transition>)
    ensures ApplyAll(s, ts).risk.limits == s.risk.limits
  {
    if ts != [] {
      LimitsAreFixed(s, ts[..|ts| - 1]);
    }
  }

  // ---------------------------------------------------------------- the queue of deferred entries

  lemma {:induction false} OthersProperties(ps: seq<PendingEntry>, symbol: string)
    ensures forall q | q in Others(ps, symbol) :: q in ps && q.symbol != symbol
    ensures OnePerSymbol(ps) ==> OnePerSymbol(Others(ps, symbol))
  {
    if ps != [] {
      var n := |ps| - 1;
      OthersProperties(ps[..n], symbol);
      assert ps == ps[..n] + [ps[n]];
    }
  }

  ghost predicate OnePerSymbol(ps: seq<PendingEntry>) {
    forall i, j :: 0 <= i < j < |ps| ==> ps[i].symbol != ps[j].symbol
  }

  /** A queue with one entry per symbol is no longer than the list of symbols. */
  lemma {:induction false} QueueFits(ps: seq<PendingEntry>, symbols: set<string>)
    requires OnePerSymbol(ps) && forall q | q in ps :: q.symbol in symbols
    ensures |ps| <= |symbols|
  {
    if ps != [] {
      var n := |ps| - 1;
      forall q | q in ps[..n] ensures q.symbol in symbols - {ps[n].symbol} {
        assert q in ps;
      }
      QueueFits(ps[..n], symbols - {ps[n].symbol});
    }
  }

  /** At a cycle boundary: at most one deferred entry per symbol, and only symbols being traded. */
  ghost predicate QueueHolds(symbols: set<string>, l: Ledger) {
    && OnePerSymbol(l.engine.pending)
    && (forall q | q in l.engine.pending :: q.symbol in symbols)
    && Symbols(Open(l)) <= symbols
  }

  /** The bound that really holds on open plus deferred positions when `symbols` are interleaved. */
  function Cap(cfg: Config, maxOpen: int, symbols: nat): int {
    if maxOpen <= 0 then 0 else if cfg.fillAt == AtNextOpen then maxOpen - 1 + symbols else maxOpen
  }

  ghost predicate CapHolds(cfg: Config, symbols: set<string>, l: Ledger) {
    && |Open(l)| + |l.engine.pending| <= Cap(cfg, l.store.risk.limits.maxOpenPositions, |symbols|)
    && (cfg.fillAt != AtNextOpen ==> l.engine.pending == [])
  }

  /** The gate has seen fewer than `maxOpen` positions, and the queue holds no entry of this symbol. */
  lemma ActKeepsCap(
    cfg: Config, symbols: set<string>, maxOpen: int, mid: Ledger, tick: Tick, acted: Ledger)
    requires OnePerSymbol(mid.engine.pending) && tick.symbol in symbols
    requires forall q | q in mid.engine.pending :: q.symbol in symbols - {tick.symbol}
    requires |Open(mid)| + |mid.engine.pending| <= Cap(cfg, maxOpen, |symbols|)
    requires cfg.fillAt != AtNextOpen ==> mid.engine.pending == []
    requires
      || (Open(acted) == Open(mid) && acted.engine.pending == mid.engine.pending)
      || (|Open(mid)| < maxOpen && Queues(cfg, mid, tick, acted))
      || (|Open(mid)| < maxOpen && cfg.fillAt != AtNextOpen
          && |Open(acted)| == |Open(mid)| + 1 && acted.engine.pending == mid.engine.pending)
    ensures OnePerSymbol(acted.engine.pending) && forall q | q in acted.engine.pending :: q.symbol in symbols
    ensures |Open(acted)| + |acted.engine.pending| <= Cap(cfg, maxOpen, |symbols|)
    ensures cfg.fillAt != AtNextOpen ==> acted.engine.pending == []
  {
    QueueFits(mid.engine.pending, symbols - {tick.symbol});
    if acted.engine.pending != mid.engine.pending {
      var n := |mid.engine.pending|;
      var queue := acted.engine.pending;
      assert queue == queue[..n] + [queue[n]];
    }
  }

  lemma CycleEnds(cfg: Config, l: Ledger, input: CycleInput, mid: Ledger, acted: Ledger, after: Ledger)
    requires mid == BeforeAct(cfg, l, input) && acted == Act(cfg, mid, input.tick, input.decision)
    requires after == Cycle(cfg, l, input)
    ensures after.store == acted.store && after.engine == acted.engine
  {
  }

  /** Before the decision is acted on, the symbol's own queue is empty and the bound still holds. */
  ghost predicate ReadyToAct(cfg: Config, symbols: set<string>, maxOpen: int, mid: Ledger, symbol: string) {
    && OnePerSymbol(mid.engine.pending)
    && (forall q | q in mid.engine.pending :: q.symbol in symbols - {symbol})
    && |Open(mid)| + |mid.engine.pending| <= Cap(cfg, maxOpen, |symbols|)
    && (cfg.fillAt != AtNextOpen ==> mid.engine.pending == [])
    && Symbols(Open(mid)) <= symbols
  }

  /** What the phases before the decision leave of the queue and the positions is enough. */
  lemma QueueIsReady(cfg: Config, symbols: set<string>, l: Ledger, symbol: string, mid: Ledger)
    requires symbol in symbols && QueueHolds(symbols, l) && CapHolds(cfg, symbols, l)
    requires mid.engine.pending == Others(l.engine.pending, symbol)
    requires Symbols(Open(mid)) <= Symbols(Open(l)) + {symbol}
    requires |Open(mid)| + |mid.engine.pending| <= |Open(l)| + |l.engine.pending|
    ensures ReadyToAct(cfg, symbols, l.store.risk.limits.maxOpenPositions, mid, symbol)
  {
    OthersProperties(l.engine.pending, symbol);
  }

  lemma BecomesReady(
    cfg: Config, start: Store, symbols: set<string>, l: Ledger, input: CycleInput, mid: Ledger)
    requires Inv(cfg, start, l) && input.tick.symbol in symbols
    requires QueueHolds(symbols, l) && CapHolds(cfg, symbols, l) && mid == BeforeAct(cfg, l, input)
    ensures Inv(cfg, start, mid)
    ensures ReadyToAct(cfg, symbols, l.store.risk.limits.maxOpenPositions, mid, input.tick.symbol)
  {
    BeforeActKeeps(cfg, start, l, input, mid);
    QueueIsReady(cfg, symbols, l, input.tick.symbol, mid);
  }

  lemma ActedKeepsCap(
    cfg: Config, start: Store, symbols: set<string>, mid: Ledger, tick: Tick, decision: Decision, acted: Ledger)
    requires Inv(cfg, start, mid) && tick.symbol in symbols
    requires ReadyToAct(cfg, symbols, mid.store.risk.limits.maxOpenPositions, mid, tick.symbol)
    requires acted == Act(cfg, mid, tick, decision)
    ensures OnePerSymbol(acted.engine.pending) && forall q | q in acted.engine.pending :: q.symbol in symbols
    ensures |Open(acted)| + |acted.engine.pending| <= Cap(cfg, mid.store.risk.limits.maxOpenPositions, |symbols|)
    ensures cfg.fillAt != AtNextOpen ==> acted.engine.pending == []
    ensures Symbols(Open(acted)) <= symbols
  {
    ActKeeps(cfg, start, mid, tick, decision, acted);
    ActKeepsCap(cfg, symbols, mid.store.risk.limits.maxOpenPositions, mid, tick, acted);
  }

  lemma CycleKeepsCap(
    cfg: Config, start: Store, symbols: set<string>, l: Ledger, input: CycleInput, after: Ledger)
    requires Inv(cfg, start, l) && input.tick.symbol in symbols
    requires QueueHolds(symbols, l) && CapHolds(cfg, symbols, l)
    requires after == Cycle(cfg, l, input)
    ensures QueueHolds(symbols, after) && CapHolds(cfg, symbols, after)
  {
    var mid := BeforeAct(cfg, l, input);
    var acted := Act(cfg, mid, input.tick, input.decision);
    CycleEnds(cfg, l, input, mid, acted, after);
    CycleLimits(cfg, start, l, input);
    BecomesReady(cfg, start, symbols, l, input, mid);
    ActedKeepsCap(cfg, start, symbols, mid, input.tick, input.decision, acted);
  }

  lemma CycleLimits(cfg: Config, start: Store, l: Ledger, input: CycleInput)
    requires Inv(cfg, start, l)
    ensures BeforeAct(cfg, l, input).store.risk.limits == l.store.risk.limits
    ensures Cycle(cfg, l, input).store.risk.limits == l.store.risk.limits
  {
    var mid, after := BeforeAct(cfg, l, input), Cycle(cfg, l, input);
    BeforeActKeeps(cfg, start, l, input, mid);
    CycleKeeps(cfg, start, l, input, after);
    LimitsAreFixed(start, l.trail);
    LimitsAreFixed(start, mid.trail);
    LimitsAreFixed(start, after.trail);
  }

  /**
   The position cap, over any interleaving of cycles on L symbols: with immediate fills at most
   max_open_positions are ever open; with next_open fills the gate does not see the queue, and open
   plus deferred positions are at most max_open_positions - 1 + L. CapReached shows that this is reached.
   */
  lemma {:induction false} PositionCap(
    cfg: Config, cash: real, limits: RiskLimits, symbols: set<string>, inputs: seq<CycleInput>)
    requires forall i | i in inputs :: i.tick.symbol in symbols
    ensures
      var l := Cycles(cfg, EmptyLedger(cash, limits), inputs);
      && QueueHolds(symbols, l) && CapHolds(cfg, symbols, l)
      && |Open(l)| + |l.engine.pending| <= Cap(cfg, limits.maxOpenPositions, |symbols|)
  {
    var start, l0 := InitialStore(cash, limits), EmptyLedger(cash, limits);
    var l := Cycles(cfg, l0, inputs);
    RunKeeps(cfg, cash, limits, inputs);
    LimitsAreFixed(start, l.trail);
    if inputs != [] {
      var n := |inputs| - 1;
      assert inputs[n] in inputs;
      PositionCap(cfg, cash, limits, symbols, inputs[..n]);
      RunKeeps(cfg, cash, limits, inputs[..n]);
      CycleKeepsCap(cfg, start, symbols, Cycles(cfg, l0, inputs[..n]), inputs[n], l);
    }
  }

  // ---------------------------------------------------------------- liquidation

  /** What is left is exactly what was open in other symbols. */
  lemma OnlyOthersLeft(l: Ledger, closed: Ledger, symbol: string)
    requires Distinct(Open(l)) && Shrunk(l, closed, IdsIn(Open(l), symbol))
    requires Ids(Open(closed)) !! IdsIn(Open(l), symbol)
    ensures forall p :: p in Open(closed) <==> p in Open(l) && p.symbol != symbol
  {
    forall p | p in Open(closed) ensures p.symbol != symbol {
      assert p.id in Ids(Open(closed));
      assert p.symbol == symbol ==> p.id in IdsIn(Open(l), symbol);
    }
    forall p | p in Open(l) && p.symbol != symbol ensures p in Open(closed) {
      if p.id in IdsIn(Open(l), symbol) {
        OneSymbolPerId(Open(l), p, symbol);
      }
      StillThere(l, closed, p, IdsIn(Open(l), symbol));
    }
  }

  /** Liquidation keeps the invariant, closes every position of the symbol, and leaves the others as they are. */
  lemma LiquidationKeeps(cfg: Config, start: Store, l: Ledger, tick: Tick, after: Ledger)
    requires Inv(cfg, start, l) && l.collected == [] && after == Liquidation(cfg, l, tick)
    ensures Inv(cfg, start, after) && after.collected == []
    ensures forall p :: p in Open(after) <==> p in Open(l) && p.symbol != tick.symbol
  {
    if exists p :: p in Open(l) && p.symbol == tick.symbol {
      var closed := Commit(l, LiquidationSweep(cfg, Idle(l.engine), Open(l), tick));
      LiquidationSweepKeeps(cfg, start, l, Open(l), tick, closed);
      assert Emitted(after) == Emitted(closed);
      OnlyOthersLeft(l, closed, tick.symbol);
    }
  }

  lemma NoneLeft(ps: seq<Position>, qs: seq<Position>, symbol: string)
    requires forall p | p in ps :: p in qs && p.symbol != symbol
    requires forall q | q in qs :: q.symbol == symbol
    ensures ps == []
  {
    forall p ensures multiset(ps)[p] == 0 {
      assert p in multiset(ps) <==> p in ps;
    }
    assert multiset(ps) == multiset{};
    assert |multiset(ps)| == |ps|;
  }

  lemma InputsOfOneSymbol(symbol: string, feeds: seq<Feed>)
    ensures forall i | i in CyclesOf(symbol, feeds) :: i.tick.symbol == symbol
  {
  }

  lemma EmptyMap<T>(m: map<Id, T>)
    requires m.Keys == {}
    ensures m == map[]
  {
    assert forall id :: id in m ==> id in m.Keys;
  }

  lemma LiquidationFlattens(cfg: Config, start: Store, l: Ledger, tick: Tick, after: Ledger)
    requires Inv(cfg, start, l) && l.collected == [] && after == Liquidation(cfg, l, tick)
    requires Symbols(Open(l)) <= {tick.symbol}
    ensures Inv(cfg, start, after) && after.collected == [] && Open(after) == []
  {
    LiquidationKeeps(cfg, start, l, tick, after);
    forall p | p in Open(l) ensures p.symbol == tick.symbol {
      assert p.symbol in Symbols(Open(l));
    }
    NoneLeft(Open(after), Open(l), tick.symbol);
  }

  /** With nothing open the tables are empty, and everything opened has been closed. */
  lemma FlatIsClean(cfg: Config, start: Store, l: Ledger)
    requires Inv(cfg, start, l) && l.collected == [] && Open(l) == []
    ensures l.engine.positionBars == map[] && l.engine.positionOrders == map[]
    ensures forall id: Id :: Closings(l.log, id) == Openings(l.log, id) <= 1
  {
    assert Ids(Open(l)) == {};
    assert Emitted(l) == l.log;
    EmptyMap(l.engine.positionBars);
    EmptyMap(l.engine.positionOrders);
  }

  /**
   After a whole single-symbol validation run nothing is left open, both engine tables are empty, and
   every position ever opened has exactly one close in the event log.
   */
  lemma EveryPositionClosedOnce(cfg: Config, cash: real, limits: RiskLimits, symbol: string, feeds: seq<Feed>)
    requires feeds != []
    ensures
      var l := HarnessRun(cfg, EmptyLedger(cash, limits), symbol, feeds);
      && Inv(cfg, InitialStore(cash, limits), l) && l.collected == []
      && Open(l) == [] && l.engine.positionBars == map[] && l.engine.positionOrders == map[]
      && forall id: Id :: Closings(l.log, id) == Openings(l.log, id) <= 1
  {
    var start, inputs := InitialStore(cash, limits), CyclesOf(symbol, feeds);
    assert EmptyLedger(cash, limits).(log := []) == EmptyLedger(cash, limits);
    var last := Cycles(cfg, EmptyLedger(cash, limits), inputs);
    var l := HarnessRun(cfg, EmptyLedger(cash, limits), symbol, feeds);
    InputsOfOneSymbol(symbol, feeds);
    RunKeeps(cfg, cash, limits, inputs);
    PositionCap(cfg, cash, limits, {symbol}, inputs);
    LiquidationFlattens(cfg, start, last, CycleOf(symbol, feeds[|feeds| - 1]).tick, l);
    FlatIsClean(cfg, start, l);
  }
}
