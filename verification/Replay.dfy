/**
 The two ledgers agree. The curve rebuilt from the published events records, for each day, what the
 store was worth at the end of that day's last cycle, plus every entry fee charged so far: a position's
 entry fee leaves the store's cash but is in none of the events the walk reads.
 */
module Replay {
  import opened Wrappers
  import opened Arithmetic
  import opened Sums
  import opened StableSort
  import opened StateStore
  import opened Pricing
  import opened Engine
  import opened Runtime
  import opened Metrics
  import opened LedgerLaws
  import opened CycleLaws
  import opened RunLaws

  // ---------------------------------------------------------------- what a cycle publishes

  ghost predicate Stamped(events: seq<Event>, time: int) {
    forall e | e in events :: e.time == time && !e.kind.CandleReceived?
  }

  lemma {:induction false} SweepsAreStamped(
    cfg: Config, b: Batch, ps: seq<Position>, tick: Tick, approvedSide: Option<OrderSide>, incrementBars: bool)
    requires Stamped(b.events, tick.time)
    ensures Stamped(ExitSweep(cfg, b, ps, tick, approvedSide, incrementBars).events, tick.time)
    ensures Stamped(LiquidationSweep(cfg, b, ps, tick).events, tick.time)
  {
    if ps != [] {
      SweepsAreStamped(cfg, b, ps[..|ps| - 1], tick, approvedSide, incrementBars);
    }
  }

  lemma {:induction false} FillsAreStamped(cfg: Config, b: Batch, ps: seq<PendingEntry>, tick: Tick)
    requires Stamped(b.events, tick.time)
    ensures Stamped(PendingSweep(cfg, b, ps, tick).0.events, tick.time)
  {
    if ps != [] {
      FillsAreStamped(cfg, b, ps[..|ps| - 1], tick);
    }
  }

  lemma EvaluationIsStamped(
    cfg: Config, e: EngineState, s: Store, tick: Tick, approvedSide: Option<OrderSide>, incrementBars: bool)
    ensures Stamped(BarEvaluation(cfg, e, s, tick, approvedSide, incrementBars).events, tick.time)
  {
    FillsAreStamped(cfg, Idle(e), e.pending, tick);
    var filled := if incrementBars then PendingFills(cfg, Idle(e), tick) else Idle(e);
    SweepsAreStamped(cfg, filled, s.portfolio.openPositions, tick, approvedSide, incrementBars);
  }

  lemma PhasesCollectStamped(cfg: Config, l: Ledger, input: CycleInput, acted: Ledger)
    requires l.collected == []
    requires acted == Act(cfg, BeforeAct(cfg, l, input), input.tick, input.decision)
    ensures Stamped(acted.collected, input.tick.time) && acted.log == l.log
  {
    var tick, decision := input.tick, input.decision;
    EvaluationIsStamped(cfg, l.engine, l.store, tick, None, true);
    var l1 := PreDecision(cfg, l, tick);
    assert Stamped(l1.collected, tick.time) && l1.log == l.log;
    var l2 := CountSignal(Mark(DailyReset(l1, tick.time), tick), decision);
    assert l2.collected == l1.collected && l2.log == l1.log;
    SignalCollectsStamped(cfg, l2, tick, decision, BeforeAct(cfg, l, input));
    ActCollectsStamped(cfg, BeforeAct(cfg, l, input), tick, decision, acted);
  }

  lemma SignalCollectsStamped(cfg: Config, l: Ledger, tick: Tick, decision: Decision, after: Ledger)
    requires Stamped(l.collected, tick.time) && after == SignalExits(cfg, l, tick, decision)
    ensures Stamped(after.collected, tick.time) && after.log == l.log
  {
    if decision.finalSignal.Some? {
      EvaluationIsStamped(cfg, l.engine, l.store, tick, Some(decision.finalSignal.value.side), false);
    }
  }

  lemma ActCollectsStamped(cfg: Config, l: Ledger, tick: Tick, decision: Decision, after: Ledger)
    requires Stamped(l.collected, tick.time) && after == Act(cfg, l, tick, decision)
    ensures Stamped(after.collected, tick.time) && after.log == l.log
  {
    assert Stamped(Execution(cfg, l.engine, decision, l.store, tick).events, tick.time);
  }

  /** The log ends with a candle at `time` closing at `close`, followed only by that bar's own events. */
  ghost predicate EndsAt(log: seq<Event>, time: int, close: real) {
    exists a, evs :: log == a + [Event(time, CandleReceived(close))] + evs && Stamped(evs, time)
  }

  lemma CyclePublishes(cfg: Config, l: Ledger, input: CycleInput, after: Ledger) returns (evs: seq<Event>)
    requires l.collected == [] && after == Cycle(cfg, l, input)
    ensures Stamped(evs, input.tick.time)
    ensures after.log == l.log + [Event(input.tick.time, CandleReceived(input.tick.bar.close))] + evs
    ensures after.collected == [] && EndsAt(after.log, input.tick.time, input.tick.bar.close)
  {
    var acted := Act(cfg, BeforeAct(cfg, l, input), input.tick, input.decision);
    PhasesCollectStamped(cfg, l, input, acted);
    evs := acted.collected;
    assert after == Publish(acted, input.tick);
  }

  // ---------------------------------------------------------------- time order

  ghost predicate AllUpTo(log: seq<Event>, time: int) { forall e | e in log :: e.time <= time }

  lemma OrderedAppend(log: seq<Event>, more: seq<Event>, time: int)
    requires OrderedBy(log, EventTime) && AllUpTo(log, time)
    requires forall e | e in more :: e.time == time
    ensures OrderedBy(log + more, EventTime) && AllUpTo(log + more, time)
  {
    var both := log + more;
    forall i, j | 0 <= i <= j < |both| ensures EventTime(both[i]) <= EventTime(both[j]) {
      if i < |log| <= j {
        assert both[i] in log && both[j] in more;
      }
    }
  }

  function Times(inputs: seq<CycleInput>): set<int> { set i | i in inputs :: i.tick.time }

  /** A stretch of cycles appends events in time order, each stamped with the time of one of its bars. */
  lemma {:induction false} CyclesPublish(cfg: Config, l: Ledger, inputs: seq<CycleInput>, after: Ledger)
    returns (more: seq<Event>)
    requires l.collected == [] && InOrder(inputs) && after == Cycles(cfg, l, inputs)
    ensures after.collected == [] && after.log == l.log + more
    ensures OrderedBy(more, EventTime) && forall e | e in more :: e.time in Times(inputs)
    ensures inputs != [] ==>
              EndsAt(after.log, inputs[|inputs| - 1].tick.time, inputs[|inputs| - 1].tick.bar.close)
  {
    if inputs == [] {
      more := [];
      assert after.log == l.log + [];
    } else {
      var n := |inputs| - 1;
      var before := Cycles(cfg, l, inputs[..n]);
      var earlier := CyclesPublish(cfg, l, inputs[..n], before);
      var evs := CyclePublishes(cfg, before, inputs[n], after);
      var tick := inputs[n].tick;
      var last := [Event(tick.time, CandleReceived(tick.bar.close))] + evs;
      more := earlier + last;
      Regroup(l.log, earlier, [Event(tick.time, CandleReceived(tick.bar.close))], evs);
      TimesUpTo(inputs);
      OrderedAppend(earlier, last, tick.time);
    }
  }

  lemma Regroup(a: seq<Event>, b: seq<Event>, c: seq<Event>, d: seq<Event>)
    ensures (a + b) + c + d == a + (b + (c + d))
  {
  }

  lemma TimesUpTo(inputs: seq<CycleInput>)
    requires inputs != [] && InOrder(inputs)
    ensures Times(inputs) == Times(inputs[..|inputs| - 1]) + {inputs[|inputs| - 1].tick.time}
    ensures forall t | t in Times(inputs) :: t <= inputs[|inputs| - 1].tick.time
  {
    var n := |inputs| - 1;
    assert inputs == inputs[..n] + [inputs[n]];
    forall t | t in Times(inputs) ensures t <= inputs[n].tick.time {
      var k :| 0 <= k < |inputs| && inputs[k].tick.time == t;
    }
  }

  lemma {:induction false} RelevantKeepsOrder(events: seq<Event>)
    requires OrderedBy(events, EventTime)
    ensures OrderedBy(RelevantOnly(events), EventTime)
  {
    if events != [] {
      var n := |events| - 1;
      RelevantKeepsOrder(events[..n]);
      RelevantOnlyKeeps(events[..n]);
      forall e | e in RelevantOnly(events[..n]) ensures e.time <= events[n].time {
        var i :| 0 <= i < n && events[i] == e;
        assert EventTime(events[i]) <= EventTime(events[n]);
      }
    }
  }

  // ---------------------------------------------------------------- the walk

  lemma {:induction false} WalkAbsorbs(cash: real, events: seq<Event>)
    ensures
      var w, a := Walk(cash, events), Absorbed(events);
      w.realised == a.realised && w.lots == a.lots && w.lastClose == a.lastClose
  {
    if events != [] {
      WalkAbsorbs(cash, events[..|events| - 1]);
    }
  }

  lemma {:induction false} AbsorbsRelevant(events: seq<Event>)
    ensures Absorbed(RelevantOnly(events)) == Absorbed(events)
  {
    if events != [] {
      var n := |events| - 1;
      AbsorbsRelevant(events[..n]);
      AbsorbedSnoc(RelevantOnly(events[..n]), events[n]);
      assert RelevantOnly(events[..n]) + [] == RelevantOnly(events[..n]);
    }
  }

  lemma {:induction false} RelevantConcat(a: seq<Event>, b: seq<Event>)
    ensures RelevantOnly(a + b) == RelevantOnly(a) + RelevantOnly(b)
  {
    if b == [] {
      assert a + b == a;
    } else {
      var n := |b| - 1;
      assert (a + b)[..|a| + n] == a + b[..n];
      RelevantConcat(a, b[..n]);
    }
  }

  /** The last event the walk reads is one of the last bar's. */
  lemma LastRelevant(log: seq<Event>, time: int, close: real)
    requires EndsAt(log, time, close)
    ensures RelevantOnly(log) != [] && RelevantOnly(log)[|RelevantOnly(log)| - 1].time == time
    ensures Absorbed(log).lastClose == close
  {
    var a, evs :| log == a + [Event(time, CandleReceived(close))] + evs && Stamped(evs, time);
    var candle := Event(time, CandleReceived(close));
    RelevantConcat(a + [candle], evs);
    RelevantConcat(a, [candle]);
    assert RelevantOnly([candle]) == [candle] by { assert [candle][..0] == []; }
    RelevantOnlyKeeps(evs);
    CandleIsNeutral(a, candle, evs);
    var r := RelevantOnly(log);
    if RelevantOnly(evs) != [] {
      assert r[|r| - 1] == RelevantOnly(evs)[|RelevantOnly(evs)| - 1];
      assert r[|r| - 1] in RelevantOnly(evs);
    }
  }

  function Marked(close: real): Position -> real { (p: Position) => Notional(p) + PnlAt(p, close) }

  function PnlOf(close: real): Position -> real { (p: Position) => PnlAt(p, close) }

  /** What the store is worth with every open position marked at `close`. */
  function StoreValue(s: Store, close: real): real {
    s.portfolio.cash + Sum(s.portfolio.openPositions, Marked(close))
  }

  lemma {:induction false} LotsAreWorth(ps: seq<Position>, close: real)
    ensures Sum(LotsOf(ps), LotPnlAt(close)) == Sum(ps, PnlOf(close))
  {
    if ps != [] {
      var n := |ps| - 1;
      LotsAreWorth(ps[..n], close);
      SumSnoc(LotsOf(ps[..n]), LotOf(ps[n]), LotPnlAt(close));
      assert LotPnlAt(close)(LotOf(ps[n])) == PnlOf(close)(ps[n]);
    }
  }

  lemma WalkValue(cfg: Config, cash: real, limits: RiskLimits, l: Ledger, time: int, close: real)
    requires Inv(cfg, InitialStore(cash, limits), l) && l.collected == []
    requires OrderedBy(l.log, EventTime) && EndsAt(l.log, time, close)
    ensures
      var w := Walk(cash, Chronological(l.log));
      && Value(cash, w) == StoreValue(l.store, close) + EntryFees(l.trail)
      && Day(time) in w.byDay && w.byDay[Day(time)] == Value(cash, w)
  {
    var relevant := RelevantOnly(l.log);
    RelevantKeepsOrder(l.log);
    SortOfOrdered(relevant, EventTime);
    LastRelevant(l.log, time, close);
    WalkAbsorbs(cash, relevant);
    AbsorbsRelevant(l.log);
    assert Emitted(l) == l.log;
    LotsAreWorth(Open(l), close);
    SumSplits(Open(l), Marked(close), Notional, PnlOf(close));
    CashConservation(InitialStore(cash, limits), l.trail);
  }

  /**
   Replay refines the store. At the end of every cycle of every run, the value the event walk records
   for the day is the store's cash plus its open positions marked at the bar's close, plus all entry
   fees charged so far. It marks every position at that one close, whatever its symbol.
   */
  lemma {:induction false} ReplayMatchesStore(cfg: Config, cash: real, limits: RiskLimits, inputs: seq<CycleInput>, l: Ledger)
    requires inputs != [] && InOrder(inputs)
    requires l == Cycles(cfg, EmptyLedger(cash, limits), inputs)
    ensures
      var tick := inputs[|inputs| - 1].tick;
      var w := Walk(cash, Chronological(l.log));
      && Day(tick.time) in w.byDay
      && w.byDay[Day(tick.time)] == StoreValue(l.store, tick.bar.close) + EntryFees(l.trail)
  {
    var tick := inputs[|inputs| - 1].tick;
    RunKeeps(cfg, cash, limits, inputs);
    var log := CyclesPublish(cfg, EmptyLedger(cash, limits), inputs, l);
    assert l.log == log;
    WalkValue(cfg, cash, limits, l, tick.time, tick.bar.close);
  }

  // ---------------------------------------------------------------- earlier days stay

  lemma {:induction false} DaysStay(cash: real, a: seq<Event>, b: seq<Event>, day: int)
    requires forall e | e in b :: Day(e.time) != day
    requires day in Walk(cash, a).byDay
    ensures day in Walk(cash, a + b).byDay && Walk(cash, a + b).byDay[day] == Walk(cash, a).byDay[day]
  {
    if b == [] {
      assert a + b == a;
    } else {
      var n := |b| - 1;
      assert (a + b)[..|a| + n] == a + b[..n];
      DaysStay(cash, a, b[..n], day);
    }
  }

  // ---------------------------------------------------------------- the days in order

  function DaysOf(events: seq<Event>): seq<int> {
    if events == [] then []
    else
      var before := DaysOf(events[..|events| - 1]);
      var day := Day(events[|events| - 1].time);
      if day in before then before else before + [day]
  }

  lemma {:induction false} WalkDays(cash: real, events: seq<Event>)
    ensures Walk(cash, events).days == DaysOf(events)
  {
    if events != [] {
      WalkDays(cash, events[..|events| - 1]);
      DaysAreKeys(cash, events[..|events| - 1]);
    }
  }

  lemma {:induction false} DaysInOrder(events: seq<Event>)
    requires OrderedBy(events, EventTime) && events != []
    ensures DaysOf(events) != [] && DaysOf(events)[|DaysOf(events)| - 1] == Day(events[|events| - 1].time)
    ensures OrderedBy(DaysOf(events), Same)
  {
    var n := |events| - 1;
    if n == 0 {
      assert events[..n] == [];
    } else {
      DaysInOrder(events[..n]);
      assert EventTime(events[n - 1]) <= EventTime(events[n]);
      DayIsMonotone(events[n - 1].time, events[n].time);
      NextDay(DaysOf(events[..n]), Day(events[n].time));
    }
  }

  lemma NextDay(days: seq<int>, day: int)
    requires OrderedBy(days, Same) && days != [] && days[|days| - 1] <= day
    ensures day in days ==> days[|days| - 1] == day
    ensures OrderedBy(days + [day], Same)
  {
    forall i | 0 <= i < |days| ensures days[i] <= days[|days| - 1] {
      assert Same(days[i]) <= Same(days[|days| - 1]);
    }
  }

  // ---------------------------------------------------------------- the whole curve

  function PointAt(w: WalkState, day: int): real { if day in w.byDay then w.byDay[day] else 0.0 }

  /** What the walk recorded for some days. */
  function PointsOf(w: WalkState, days: seq<int>): seq<real> {
    seq(|days|, i requires 0 <= i < |days| => PointAt(w, days[i]))
  }

  /** And for each of its own, in the order they were first seen. */
  function Points(w: WalkState): seq<real> { PointsOf(w, w.days) }

  function ButLast<T>(s: seq<T>): seq<T> { if s == [] then [] else s[..|s| - 1] }

  /** The store's cash, its open positions marked at `close`, and all entry fees charged so far. */
  function EndValue(l: Ledger, close: real): real { StoreValue(l.store, close) + EntryFees(l.trail) }

  /** One value for each day of the run: the last cycle's, at its bar's close. */
  function DayValues(cfg: Config, l0: Ledger, inputs: seq<CycleInput>): seq<real> {
    if inputs == [] then []
    else
      var n := |inputs| - 1;
      var value := EndValue(Cycles(cfg, l0, inputs), inputs[n].tick.bar.close);
      var earlier := DayValues(cfg, l0, inputs[..n]);
      var sameDay := n > 0 && Day(inputs[n - 1].tick.time) == Day(inputs[n].tick.time);
      (if sameDay then ButLast(earlier) else earlier) + [value]
  }

  lemma DaysSnoc(events: seq<Event>, e: Event)
    ensures var days := DaysOf(events);
            DaysOf(events + [e]) == if Day(e.time) in days then days else days + [Day(e.time)]
  {
    assert (events + [e])[..|events|] == events;
  }

  /** A stretch of events of one day adds at most that day. */
  lemma {:induction false} DaysGrow(a: seq<Event>, b: seq<Event>, day: int)
    requires b != [] && forall i | 0 <= i < |b| :: Day(b[i].time) == day
    ensures DaysOf(a + b) == if day in DaysOf(a) then DaysOf(a) else DaysOf(a) + [day]
  {
    var init, last := b[..|b| - 1], b[|b| - 1];
    assert a + b == (a + init) + [last];
    DaysSnoc(a + init, last);
    if init == [] {
      assert a + init == a;
    } else {
      DaysGrow(a, init, day);
    }
  }

  predicate EndsOn(events: seq<Event>, day: int) { events != [] && Day(events[|events| - 1].time) == day }

  ghost predicate Differ(days: seq<int>) { forall i, j :: 0 <= i < j < |days| ==> days[i] != days[j] }

  lemma OnlyLast(days: seq<int>, day: int)
    requires OrderedBy(days, Same) && Differ(days) && days != [] && days[|days| - 1] <= day
    ensures day in days <==> days[|days| - 1] == day
    ensures days == ButLast(days) + [days[|days| - 1]] && day !in ButLast(days)
  {
    NextDay(days, day);
    assert forall i | 0 <= i < |days| - 1 :: days[i] < days[|days| - 1] by {
      forall i | 0 <= i < |days| - 1 ensures days[i] < days[|days| - 1] {
        assert Same(days[i]) <= Same(days[|days| - 1]);
      }
    }
  }

  /** In order, a day is already listed exactly when it is the day of the last event. */
  lemma ListedIsLast(a: seq<Event>, day: int)
    requires OrderedBy(a, EventTime) && a != [] && Day(a[|a| - 1].time) <= day
    ensures day in DaysOf(a) <==> EndsOn(a, day)
    ensures DaysOf(a) == ButLast(DaysOf(a)) + [Day(a[|a| - 1].time)]
    ensures day !in ButLast(DaysOf(a))
  {
    DaysInOrder(a);
    DaysDiffer(a);
    OnlyLast(DaysOf(a), day);
  }

  lemma {:induction false} DaysDiffer(events: seq<Event>)
    ensures Differ(DaysOf(events))
  {
    if events != [] {
      DaysDiffer(events[..|events| - 1]);
    }
  }

  lemma DaysAfterBar(a: seq<Event>, b: seq<Event>, day: int, kept: seq<int>)
    requires OrderedBy(a, EventTime) && (a != [] ==> Day(a[|a| - 1].time) <= day)
    requires b != [] && forall i | 0 <= i < |b| :: Day(b[i].time) == day
    requires kept == if EndsOn(a, day) then ButLast(DaysOf(a)) else DaysOf(a)
    ensures DaysOf(a + b) == kept + [day] && day !in kept
  {
    DaysGrow(a, b, day);
    if a != [] {
      ListedIsLast(a, day);
    }
  }

  lemma EarlierPointsStay(cash: real, a: seq<Event>, b: seq<Event>, day: int, kept: seq<int>)
    requires forall i | 0 <= i < |b| :: Day(b[i].time) == day
    requires day !in kept && forall i | 0 <= i < |kept| :: kept[i] in DaysOf(a)
    ensures PointsOf(Walk(cash, a + b), kept) == PointsOf(Walk(cash, a), kept)
  {
    WalkDays(cash, a);
    DaysAreKeys(cash, a);
    forall i | 0 <= i < |kept| ensures PointAt(Walk(cash, a + b), kept[i]) == PointAt(Walk(cash, a), kept[i]) {
      assert kept[i] in kept;
      DaysStay(cash, a, b, kept[i]);
    }
  }

  lemma PointsSnoc(w: WalkState, days: seq<int>, day: int)
    ensures PointsOf(w, days + [day]) == PointsOf(w, days) + [PointAt(w, day)]
  {
  }

  lemma PointsButLast(w: WalkState, days: seq<int>)
    ensures PointsOf(w, ButLast(days)) == ButLast(PointsOf(w, days))
  {
  }

  /** Events of one more bar replace the last point if it is of the same day, and add one otherwise. */
  lemma PointsGrow(cash: real, a: seq<Event>, b: seq<Event>, day: int, before: WalkState, after: WalkState)
    requires before == Walk(cash, a) && after == Walk(cash, a + b)
    requires OrderedBy(a, EventTime) && (a != [] ==> Day(a[|a| - 1].time) <= day)
    requires b != [] && forall i | 0 <= i < |b| :: Day(b[i].time) == day
    ensures Points(after)
            == (if EndsOn(a, day) then ButLast(Points(before)) else Points(before)) + [PointAt(after, day)]
  {
    var kept := if EndsOn(a, day) then ButLast(DaysOf(a)) else DaysOf(a);
    DaysAfterBar(a, b, day, kept);
    EarlierPointsStay(cash, a, b, day, kept);
    WalkDays(cash, a);
    WalkDays(cash, a + b);
    PointsSnoc(after, kept, day);
    PointsButLast(before, before.days);
  }

  lemma CurveOfDays(cash: real, w: WalkState)
    requires OrderedBy(w.days, Same) && forall d | d in w.days :: d in w.byDay
    ensures CurveOf(cash, w) == [cash] + Points(w)
  {
    SortOfOrdered(w.days, Same);
    var shown := CurveOf(cash, w)[1..];
    assert shown == Points(w);
    assert CurveOf(cash, w) == [cash] + shown;
  }

  lemma CurveIsPoints(cash: real, log: seq<Event>, w: WalkState)
    requires OrderedBy(log, EventTime) && w == Walk(cash, RelevantOnly(log))
    ensures Curve(cash, log) == [cash] + Points(w)
  {
    var relevant := RelevantOnly(log);
    RelevantKeepsOrder(log);
    SortOfOrdered(relevant, EventTime);
    DaysAreKeys(cash, relevant);
    WalkDays(cash, relevant);
    if relevant != [] {
      DaysInOrder(relevant);
    }
    CurveOfDays(cash, w);
  }

  lemma Cancel(x: real, a: seq<real>, b: seq<real>)
    requires [x] + a == [x] + b
    ensures a == b
  {
    assert a == ([x] + a)[1..] && b == ([x] + b)[1..];
  }

  lemma BarIsRelevant(log: seq<Event>, candle: Event, evs: seq<Event>, b: seq<Event>)
    requires candle.kind.CandleReceived? && Stamped(evs, candle.time) && b == RelevantOnly([candle] + evs)
    ensures RelevantOnly(log + [candle] + evs) == RelevantOnly(log) + b
    ensures b != [] && forall i | 0 <= i < |b| :: b[i].time == candle.time
  {
    assert log + [candle] + evs == log + ([candle] + evs);
    RelevantConcat(log, [candle] + evs);
    RelevantOnlyKeeps([candle] + evs);
    assert ([candle] + evs)[0] == candle;
    assert candle in RelevantOnly([candle] + evs);
    forall i | 0 <= i < |b| ensures b[i].time == candle.time {
      assert b[i] in RelevantOnly([candle] + evs);
      assert b[i] in [candle] + evs;
      assert b[i] == candle || b[i] in evs;
    }
  }

  /** What one more cycle adds to the events the walk reads. */
  lemma CycleAddsRelevant(cfg: Config, l: Ledger, input: CycleInput, after: Ledger) returns (b: seq<Event>)
    requires l.collected == [] && after == Cycle(cfg, l, input)
    ensures RelevantOnly(after.log) == RelevantOnly(l.log) + b
    ensures b != [] && forall i | 0 <= i < |b| :: b[i].time == input.tick.time
  {
    var candle := Event(input.tick.time, CandleReceived(input.tick.bar.close));
    var evs := CyclePublishes(cfg, l, input, after);
    b := RelevantOnly([candle] + evs);
    BarIsRelevant(l.log, candle, evs, b);
  }

  predicate EndsAtTime(events: seq<Event>, time: int) { events != [] && events[|events| - 1].time == time }

  /** The events the walk reads end, if at all, at the time of the last cycle. */
  predicate EndsWith(events: seq<Event>, inputs: seq<CycleInput>) {
    if inputs == [] then events == [] else EndsAtTime(events, inputs[|inputs| - 1].tick.time)
  }

  lemma LogEndsWith(log: seq<Event>, inputs: seq<CycleInput>)
    requires inputs == [] ==> log == []
    requires inputs != [] ==>
               EndsAt(log, inputs[|inputs| - 1].tick.time, inputs[|inputs| - 1].tick.bar.close)
    ensures EndsWith(RelevantOnly(log), inputs)
  {
    if inputs != [] {
      LastRelevant(log, inputs[|inputs| - 1].tick.time, inputs[|inputs| - 1].tick.bar.close);
    }
  }

  lemma LogInOrder(cfg: Config, cash: real, limits: RiskLimits, inputs: seq<CycleInput>, l0: Ledger, l: Ledger)
    requires InOrder(inputs) && l0 == EmptyLedger(cash, limits) && l == Cycles(cfg, l0, inputs)
    ensures OrderedBy(l.log, EventTime) && l.collected == [] && EndsWith(RelevantOnly(l.log), inputs)
  {
    var log := CyclesPublish(cfg, l0, inputs, l);
    assert l.log == log;
    LogEndsWith(l.log, inputs);
  }

  /** The value recorded for the day of the last cycle. */
  lemma LastPoint(cfg: Config, cash: real, limits: RiskLimits, inputs: seq<CycleInput>, l: Ledger)
    requires inputs != [] && InOrder(inputs) && l == Cycles(cfg, EmptyLedger(cash, limits), inputs)
    ensures var tick := inputs[|inputs| - 1].tick;
            PointAt(Walk(cash, RelevantOnly(l.log)), Day(tick.time))
            == EndValue(l, tick.bar.close)
  {
    LogInOrder(cfg, cash, limits, inputs, EmptyLedger(cash, limits), l);
    RelevantKeepsOrder(l.log);
    SortOfOrdered(RelevantOnly(l.log), EventTime);
    ReplayMatchesStore(cfg, cash, limits, inputs, l);
  }

  /** One more bar, in terms of the logs alone. */
  lemma CurveGrows(
    cash: real, log: seq<Event>, longer: seq<Event>, b: seq<Event>, day: int, values: seq<real>, value: real)
    requires OrderedBy(log, EventTime) && OrderedBy(longer, EventTime)
    requires RelevantOnly(longer) == RelevantOnly(log) + b
    requires b != [] && forall i | 0 <= i < |b| :: Day(b[i].time) == day
    requires var a := RelevantOnly(log); a != [] ==> Day(a[|a| - 1].time) <= day
    requires PointAt(Walk(cash, RelevantOnly(longer)), day) == value && Curve(cash, log) == [cash] + values
    ensures Curve(cash, longer)
            == [cash] + ((if EndsOn(RelevantOnly(log), day) then ButLast(values) else values) + [value])
  {
    var a := RelevantOnly(log);
    RelevantKeepsOrder(log);
    PointsGrow(cash, a, b, day, Walk(cash, a), Walk(cash, a + b));
    CurveIsPoints(cash, log, Walk(cash, a));
    CurveIsPoints(cash, longer, Walk(cash, a + b));
    Cancel(cash, Points(Walk(cash, a)), values);
  }

  lemma DayValuesStep(cfg: Config, l0: Ledger, inputs: seq<CycleInput>, events: seq<Event>, l: Ledger)
    requires inputs != [] && l == Cycles(cfg, l0, inputs) && EndsWith(events, inputs[..|inputs| - 1])
    ensures
      var n := |inputs| - 1;
      var earlier := DayValues(cfg, l0, inputs[..n]);
      DayValues(cfg, l0, inputs)
      == (if EndsOn(events, Day(inputs[n].tick.time)) then ButLast(earlier) else earlier)
         + [EndValue(l, inputs[n].tick.bar.close)]
  {
    var n := |inputs| - 1;
    assert n > 0 ==> inputs[..n][n - 1] == inputs[n - 1];
  }

  lemma CurveStep(
    cfg: Config, cash: real, limits: RiskLimits, inputs: seq<CycleInput>, l0: Ledger, before: Ledger, l: Ledger)
    requires inputs != [] && InOrder(inputs) && l0 == EmptyLedger(cash, limits)
    requires before == Cycles(cfg, l0, inputs[..|inputs| - 1]) && l == Cycles(cfg, l0, inputs)
    requires Curve(cash, before.log) == [cash] + DayValues(cfg, l0, inputs[..|inputs| - 1])
    ensures Curve(cash, l.log) == [cash] + DayValues(cfg, l0, inputs)
  {
    var n := |inputs| - 1;
    var tick := inputs[n].tick;
    LogInOrder(cfg, cash, limits, inputs[..n], l0, before);
    LogInOrder(cfg, cash, limits, inputs, l0, l);
    var b := CycleAddsRelevant(cfg, before, inputs[n], l);
    if n > 0 {
      DayIsMonotone(inputs[n - 1].tick.time, tick.time);
    }
    LastPoint(cfg, cash, limits, inputs, l);
    CurveGrows(cash, before.log, l.log, b, Day(tick.time), DayValues(cfg, l0, inputs[..n]),
               EndValue(l, tick.bar.close));
    DayValuesStep(cfg, l0, inputs, RelevantOnly(before.log), l);
  }

  /**
   The whole curve of a run in time order: the opening capital, and then exactly the store's value, entry
   fees added back, at the end of each day's last cycle.
   */
  lemma {:induction false} CurveIsDayValues(
    cfg: Config, cash: real, limits: RiskLimits, inputs: seq<CycleInput>, l0: Ledger, l: Ledger)
    requires InOrder(inputs) && l0 == EmptyLedger(cash, limits) && l == Cycles(cfg, l0, inputs)
    ensures Curve(cash, l.log) == [cash] + DayValues(cfg, l0, inputs)
  {
    if inputs == [] {
      LogInOrder(cfg, cash, limits, inputs, l0, l);
      CurveIsPoints(cash, l.log, Walk(cash, []));
    } else {
      var n := |inputs| - 1;
      var before := Cycles(cfg, l0, inputs[..n]);
      CurveIsDayValues(cfg, cash, limits, inputs[..n], l0, before);
      CurveStep(cfg, cash, limits, inputs, l0, before, l);
    }
  }

  // ---------------------------------------------------------------- the end of a validation run

  /**
   At the end of a single-symbol validation run, after liquidation, the reported curve ends at the
   opening capital plus realised profit, which exceeds the cash really held by all the entry fees.
   */
  lemma FinalCurveOverstatesCash(cfg: Config, cash: real, limits: RiskLimits, symbol: string, feeds: seq<Feed>)
    requires feeds != [] && InOrder(CyclesOf(symbol, feeds))
    ensures
      var l := HarnessRun(cfg, EmptyLedger(cash, limits), symbol, feeds);
      var curve := Curve(cash, l.log);
      && curve[|curve| - 1] == cash + l.store.portfolio.realizedPnl
      && curve[|curve| - 1] == l.store.portfolio.cash + EntryFees(l.trail)
  {
    var start, inputs := InitialStore(cash, limits), CyclesOf(symbol, feeds);
    var tick := CycleOf(symbol, feeds[|feeds| - 1]).tick;
    assert EmptyLedger(cash, limits).(log := []) == EmptyLedger(cash, limits);
    var last := Cycles(cfg, EmptyLedger(cash, limits), inputs);
    var l := HarnessRun(cfg, EmptyLedger(cash, limits), symbol, feeds);
    EveryPositionClosedOnce(cfg, cash, limits, symbol, feeds);
    var log := CyclesPublish(cfg, EmptyLedger(cash, limits), inputs, last);
    assert last.log == log;
    forall e | e in log ensures e.time <= tick.time {
      TimesUpTo(inputs);
      assert e.time in Times(inputs);
    }
    LiquidationPublishes(cfg, last, tick, l);
    WalkValue(cfg, cash, limits, l, tick.time, tick.bar.close);
    FlatIsCash(l, tick.bar.close);
    CashConservation(start, l.trail);
    ChronologicalEnds(l.log, tick.time, tick.bar.close);
    CurveOfWalk(cash, Chronological(l.log), Walk(cash, Chronological(l.log)));
  }

  lemma FlatIsCash(l: Ledger, close: real)
    requires Open(l) == []
    ensures StoreValue(l.store, close) == l.store.portfolio.cash
    ensures Endowment(l.store) == l.store.portfolio.cash - l.store.portfolio.realizedPnl
  {
  }

  lemma EndsAtLonger(log: seq<Event>, more: seq<Event>, time: int, close: real)
    requires EndsAt(log, time, close) && Stamped(more, time)
    ensures EndsAt(log + more, time, close)
  {
    var candle := Event(time, CandleReceived(close));
    var a, evs :| log == a + [candle] + evs && Stamped(evs, time);
    assert log + more == a + [candle] + (evs + more);
    assert Stamped(evs + more, time);
  }

  lemma LiquidationPublishes(cfg: Config, l: Ledger, tick: Tick, after: Ledger)
    requires l.collected == [] && OrderedBy(l.log, EventTime) && AllUpTo(l.log, tick.time)
    requires EndsAt(l.log, tick.time, tick.bar.close) && after == Liquidation(cfg, l, tick)
    ensures OrderedBy(after.log, EventTime) && EndsAt(after.log, tick.time, tick.bar.close)
  {
    if after != l {
      SweepsAreStamped(cfg, Idle(l.engine), Open(l), tick, None, true);
      var more := LiquidationSweep(cfg, Idle(l.engine), Open(l), tick).events;
      assert after.log == l.log + more;
      OrderedAppend(l.log, more, tick.time);
      EndsAtLonger(l.log, more, tick.time, tick.bar.close);
    }
  }

  lemma ChronologicalEnds(log: seq<Event>, time: int, close: real)
    requires OrderedBy(log, EventTime) && EndsAt(log, time, close)
    ensures Chronological(log) != [] && Chronological(log)[|Chronological(log)| - 1].time == time
    ensures OrderedBy(Chronological(log), EventTime)
  {
    RelevantKeepsOrder(log);
    SortOfOrdered(RelevantOnly(log), EventTime);
    LastRelevant(log, time, close);
  }

  lemma CurveOfWalk(cash: real, events: seq<Event>, w: WalkState)
    requires OrderedBy(events, EventTime) && events != [] && w == Walk(cash, events)
    ensures forall d | d in w.days :: d in w.byDay
    ensures Day(events[|events| - 1].time) in w.byDay
    ensures CurveOf(cash, w)[|CurveOf(cash, w)| - 1] == w.byDay[Day(events[|events| - 1].time)]
  {
    DaysInOrder(events);
    WalkDays(cash, events);
    DaysAreKeys(cash, events);
    CurveOfOrdered(cash, w);
  }

  lemma CurveOfOrdered(cash: real, w: WalkState)
    requires OrderedBy(w.days, Same) && w.days != [] && forall d | d in w.days :: d in w.byDay
    ensures w.days[|w.days| - 1] in w.byDay
    ensures CurveOf(cash, w)[|CurveOf(cash, w)| - 1] == w.byDay[w.days[|w.days| - 1]]
  {
    CurveOfDays(cash, w);
  }
}
