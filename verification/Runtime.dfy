/**
 The bar lifecycle (backend/src/runtime/platform_runtime.py) and the validation harness that drives
 it (backend/src/validation/harness.py).

 A Ledger is everything a cycle may change: the engine, the store, the execution events collected in
 the current cycle, the published event log, and the day of the last risk reset. Its `trail` is a
 history variable: every transition applied so far.
 */
module Runtime {
  import opened Wrappers
  import opened StateStore
  import opened Pricing
  import opened Engine

  datatype Ledger = Ledger(
    engine: EngineState, store: Store, collected: seq<Event>, log: seq<Event>,
    trail: seq<Transition>, signalsDay: Option<int>)

  datatype CycleInput = CycleInput(tick: Tick, decision: Decision)

  const SECONDS_PER_DAY := 86400

  /** `event_time.date()`. */
  function Day(time: int): int { time / SECONDS_PER_DAY }

  function EmptyLedger(cash: real, limits: RiskLimits): Ledger {
    Ledger(EngineState(map[], map[], [], 0), InitialStore(cash, limits), [], [], [], None)
  }

  function Commit(l: Ledger, b: Batch): Ledger {
    l.(engine := b.engine, store := ApplyAll(l.store, b.transitions),
       collected := l.collected + b.events, trail := l.trail + b.transitions)
  }

  function Issue(l: Ledger, t: Transition): Ledger {
    l.(store := Apply(l.store, t), trail := l.trail + [t])
  }

  // ---------------------------------------------------------------- the phases of a cycle

  function PreDecision(cfg: Config, l: Ledger, tick: Tick): Ledger {
    Commit(l, BarEvaluation(cfg, l.engine, l.store, tick, None, true))
  }

  predicate RiskAlreadyReset(s: Store) {
    s.risk.signalsToday == 0 && s.risk.dailyPnl == 0.0 && s.risk.dailyDrawdownPct == 0.0
    && s.risk.dailyStartEquity == s.portfolio.equity
  }

  function DailyReset(l: Ledger, time: int): Ledger {
    var today := Day(time);
    if l.signalsDay == Some(today) then l
    else
      var dated := l.(signalsDay := Some(today));
      if l.signalsDay.None? || RiskAlreadyReset(l.store) then dated
      else Issue(dated, RiskUpdated(DayStart(l.store)))
  }

  function Mark(l: Ledger, tick: Tick): Ledger {
    if l.store.portfolio.openPositions == [] then l
    else Issue(l, MarkToMarket(map[tick.symbol := tick.bar.close]))
  }

  function CountSignal(l: Ledger, decision: Decision): Ledger {
    if !decision.approved then l
    else Issue(l, RiskUpdated(SignalCount(l.store)))
  }

  function SignalExits(cfg: Config, l: Ledger, tick: Tick, decision: Decision): Ledger {
    if !decision.approved || l.store.portfolio.openPositions == [] || decision.finalSignal.None? then l
    else Commit(l, BarEvaluation(cfg, l.engine, l.store, tick, Some(decision.finalSignal.value.side), false))
  }

  function Act(cfg: Config, l: Ledger, tick: Tick, decision: Decision): Ledger {
    if !decision.approved then l else Commit(l, Execution(cfg, l.engine, decision, l.store, tick))
  }

  /** What the decision engine sees: the store after fills, exits, the daily reset and the mark. */
  function AtDecision(cfg: Config, l: Ledger, tick: Tick): Ledger {
    Mark(DailyReset(PreDecision(cfg, l, tick), tick.time), tick)
  }

  /** The events of a cycle go out together, the candle before everything the engine did on it. */
  function Publish(l: Ledger, tick: Tick): Ledger {
    l.(log := l.log + ([Event(tick.time, CandleReceived(tick.bar.close))] + l.collected), collected := [])
  }

  function Cycle(cfg: Config, l: Ledger, input: CycleInput): Ledger {
    var tick, decision := input.tick, input.decision;
    var decided := CountSignal(AtDecision(cfg, l, tick), decision);
    Publish(Act(cfg, SignalExits(cfg, decided, tick, decision), tick, decision), tick)
  }

  /** Any interleaving of cycles over any symbols. */
  function Cycles(cfg: Config, l: Ledger, inputs: seq<CycleInput>): Ledger {
    if inputs == [] then l else Cycle(cfg, Cycles(cfg, l, inputs[..|inputs| - 1]), inputs[|inputs| - 1])
  }

  /** Bars arrive in time order. */
  ghost predicate InOrder(inputs: seq<CycleInput>) {
    forall i, j :: 0 <= i <= j < |inputs| ==> inputs[i].tick.time <= inputs[j].tick.time
  }

  lemma DayIsMonotone(a: int, b: int)
    requires a <= b
    ensures Day(a) <= Day(b)
  {
  }

  function Liquidation(cfg: Config, l: Ledger, tick: Tick): Ledger {
    if forall p | p in l.store.portfolio.openPositions :: p.symbol != tick.symbol then l
    else
      var closed := Commit(l, LiquidationSweep(cfg, Idle(l.engine), l.store.portfolio.openPositions, tick));
      closed.(log := closed.log + closed.collected, collected := [])
  }

  // ---------------------------------------------------------------- the objects

  class PlatformRuntime {
    const portfolioId: string
    const store: InMemoryStateStore
    const engine: SimulatedExecutionEngine
    var signalsDay: Option<int>
    var executionEvents: seq<Event>
    var published: seq<Event>
    ghost var trail: seq<Transition>

    ghost function State(): Ledger
      reads this, store, engine
    {
      Ledger(engine.State(), store.State(), executionEvents, published, trail, signalsDay)
    }

    ghost predicate Valid() { portfolioId == store.portfolioId }

    constructor (portfolioId: string, store: InMemoryStateStore, engine: SimulatedExecutionEngine)
      requires portfolioId == store.portfolioId
      ensures Valid() && this.store == store && this.engine == engine
      ensures State() == Ledger(engine.State(), store.State(), [], [], [], None)
    {
      this.portfolioId, this.store, this.engine := portfolioId, store, engine;
      signalsDay, executionEvents, published, trail := None, [], [], [];
    }

    method ApplyEach(transitions: seq<Transition>)
      requires Valid()
      modifies this`trail, store
      ensures store.State() == ApplyAll(old(store.State()), transitions)
      ensures trail == old(trail) + transitions
    {
      for i := 0 to |transitions|
        invariant store.State() == ApplyAll(old(store.State()), transitions[..i])
        invariant trail == old(trail) + transitions[..i]
      {
        assert transitions[..i + 1][..i] == transitions[..i];
        assert transitions[..i + 1] == transitions[..i] + [transitions[i]];
        var _ := store.ApplyTransition(portfolioId, transitions[i]);
        trail := trail + [transitions[i]];
      }
      assert transitions[..|transitions|] == transitions;
    }

    method ApplyOne(t: Transition)
      requires Valid()
      modifies this`trail, store
      ensures store.State() == Apply(old(store.State()), t)
      ensures trail == old(trail) + [t]
    {
      var _ := store.ApplyTransition(portfolioId, t);
      trail := trail + [t];
    }

    /** Applies a batch's transitions and collects its events. */
    method Take(events: seq<Event>, transitions: seq<Transition>)
      requires Valid()
      modifies this`trail, this`executionEvents, store
      ensures State() == Commit(old(State()), Batch(engine.State(), events, transitions))
    {
      ApplyEach(transitions);
      executionEvents := executionEvents + events;
    }

    method PreDecisionEvaluate(tick: Tick)
      requires Valid()
      modifies this`trail, this`executionEvents, store, engine
      ensures State() == PreDecision(engine.config, old(State()), tick)
    {
      var events, transitions := engine.EvaluateBar(Store(store.portfolio, store.risk), tick, None, true);
      Take(events, transitions);
    }

    method MaybeResetDailyRisk(time: int)
      requires Valid()
      modifies this`trail, this`signalsDay, store
      ensures State() == DailyReset(old(State()), time)
    {
      var currentDay := Day(time);
      if signalsDay.None? {
        signalsDay := Some(currentDay);
        return;
      }
      if signalsDay == Some(currentDay) {
        return;
      }
      signalsDay := Some(currentDay);
      if RiskAlreadyReset(Store(store.portfolio, store.risk)) {
        return;
      }
      ApplyOne(RiskUpdated(RiskUpdate(Some(0), Some(0.0), Some(0.0), Some(store.portfolio.equity))));
    }

    method MarkPositions(tick: Tick)
      requires Valid()
      modifies this`trail, store
      ensures State() == Mark(old(State()), tick)
    {
      if store.portfolio.openPositions != [] {
        ApplyOne(MarkToMarket(map[tick.symbol := tick.bar.close]));
      }
    }

    method RecordDecision(decision: Decision)
      requires Valid()
      modifies this`trail, store
      ensures State() == CountSignal(old(State()), decision)
    {
      if decision.approved {
        ApplyOne(RiskUpdated(RiskUpdate(Some(store.risk.signalsToday + 1), None, None, None)));
      }
    }

    method SignalExit(tick: Tick, decision: Decision)
      requires Valid()
      modifies this`trail, this`executionEvents, store, engine
      ensures State() == SignalExits(engine.config, old(State()), tick, decision)
    {
      if decision.approved && store.portfolio.openPositions != [] && decision.finalSignal.Some? {
        var events, transitions := engine.EvaluateBar(
          Store(store.portfolio, store.risk), tick, Some(decision.finalSignal.value.side), false);
        Take(events, transitions);
      }
    }

    method SameBarExitAndExecute(tick: Tick, decision: Decision)
      requires Valid()
      modifies this`trail, this`executionEvents, store, engine
      ensures State() == Act(engine.config, SignalExits(engine.config, old(State()), tick, decision), tick, decision)
    {
      if !decision.approved {
        return;
      }
      SignalExit(tick, decision);
      var events, transitions := engine.Execute(decision, Store(store.portfolio, store.risk), tick);
      Take(events, transitions);
    }

    /** One bar. The execution events are collected during the cycle and published after the candle. */
    method RunCycle(input: CycleInput)
      requires Valid()
      modifies this, store, engine
      ensures State() == Cycle(engine.config, old(State()), input)
    {
      var tick, decision := input.tick, input.decision;
      PreDecisionEvaluate(tick);
      var events := [Event(tick.time, CandleReceived(tick.bar.close))];
      MaybeResetDailyRisk(tick.time);
      MarkPositions(tick);
      RecordDecision(decision);
      SameBarExitAndExecute(tick, decision);
      events := events + executionEvents;
      executionEvents := [];
      published := published + events;
    }
  }

  datatype HarnessError = NotEnoughBars

  /** A bar of the run, with the decision the decision engine will take on it. */
  datatype Feed = Feed(bar: Bar, time: int, decision: Decision)

  function CycleOf(symbol: string, feed: Feed): CycleInput {
    CycleInput(Tick(symbol, feed.bar, feed.time), feed.decision)
  }

  function CyclesOf(symbol: string, feeds: seq<Feed>): seq<CycleInput> {
    seq(|feeds|, i requires 0 <= i < |feeds| => CycleOf(symbol, feeds[i]))
  }

  /** A whole validation run: every bar past the indicator lookback, then liquidation on the last. */
  function HarnessRun(cfg: Config, l: Ledger, symbol: string, feeds: seq<Feed>): Ledger
    requires feeds != []
  {
    Liquidation(cfg, Cycles(cfg, l.(log := []), CyclesOf(symbol, feeds)), CycleOf(symbol, feeds[|feeds| - 1]).tick)
  }

  class ValidationHarness {
    const runtime: PlatformRuntime
    const symbol: string

    constructor (runtime: PlatformRuntime, symbol: string)
      ensures this.runtime == runtime && this.symbol == symbol
    {
      this.runtime, this.symbol := runtime, symbol;
    }

    method Run(feeds: seq<Feed>, skip: nat) returns (r: Result<Store, HarnessError>)
      requires runtime.Valid()
      modifies runtime, runtime.store, runtime.engine
      ensures |feeds| <= skip ==> r == Err(NotEnoughBars) && runtime.State() == old(runtime.State()).(log := [])
      ensures |feeds| > skip ==>
                runtime.State() == HarnessRun(runtime.engine.config, old(runtime.State()), symbol, feeds[skip..])
                && r == Ok(runtime.State().store)
    {
      runtime.published := [];
      if |feeds| <= skip {
        return Err(NotEnoughBars);
      }
      var bars := feeds[skip..];
      RunBars(bars);
      LiquidateOpenPositions(CycleOf(symbol, bars[|bars| - 1]).tick);
      r := Ok(Store(runtime.store.portfolio, runtime.store.risk));
    }

    /** The bar loop. */
    method RunBars(bars: seq<Feed>)
      requires runtime.Valid()
      modifies runtime, runtime.store, runtime.engine
      ensures runtime.State() == Cycles(runtime.engine.config, old(runtime.State()), CyclesOf(symbol, bars))
    {
      ghost var start := runtime.State();
      ghost var inputs := CyclesOf(symbol, bars);
      for i := 0 to |bars|
        invariant runtime.State() == Cycles(runtime.engine.config, start, inputs[..i])
      {
        assert inputs[..i + 1][..i] == inputs[..i];
        runtime.RunCycle(CycleOf(symbol, bars[i]));
      }
      assert inputs[..|bars|] == inputs;
    }

    method LiquidateOpenPositions(tick: Tick)
      requires runtime.Valid()
      modifies runtime, runtime.store, runtime.engine
      ensures runtime.State() == Liquidation(runtime.engine.config, old(runtime.State()), tick)
    {
      if forall p | p in runtime.store.portfolio.openPositions :: p.symbol != tick.symbol {
        return;
      }
      var events, transitions := runtime.engine.LiquidateOpenPositions(
        Store(runtime.store.portfolio, runtime.store.risk), tick);
      runtime.Take(events, transitions);
      runtime.published := runtime.published + runtime.executionEvents;
      runtime.executionEvents := [];
    }
  }
}
