/**
 The risk record over whole runs of transitions (backend/src/state/store.py): realised profit and loss
 streak from all closes, the daily figures from what came after the last reset. What a reset has to do
 with the calendar day is the subject of DailyRecord.
 */
module RiskRecord {
  import opened Arithmetic
  import opened Sums
  import opened StateStore
  import opened Pricing
  import opened Runtime
  import opened CycleLaws

  /** Profits of the closes, in order. */
  function Closes(ts: seq<Transition>): seq<real> {
    if ts == [] then []
    else
      var t := ts[|ts| - 1];
      Closes(ts[..|ts| - 1]) + if t.PositionClosed? then [t.pnl] else []
  }

  predicate Resets(t: Transition) { t.RiskUpdated? && t.riskUpdate.dailyPnl.Some? }

  /** How many signals were counted. */
  function Signals(ts: seq<Transition>): nat {
    if ts == [] then 0 else Signals(ts[..|ts| - 1]) + if ts[|ts| - 1].RiskUpdated? then 1 else 0
  }

  /** The transitions since the daily figures were last reset. */
  function SinceReset(ts: seq<Transition>): seq<Transition> {
    if ts == [] || Resets(ts[|ts| - 1]) then [] else SinceReset(ts[..|ts| - 1]) + [ts[|ts| - 1]]
  }

  /** The stored equity at the last reset, or as the run began. */
  function EquityAtReset(s: Store, ts: seq<Transition>): real {
    if ts == [] then s.risk.dailyStartEquity
    else
      var n := |ts| - 1;
      if Resets(ts[n]) then ApplyAll(s, ts[..n]).portfolio.equity else EquityAtReset(s, ts[..n])
  }

  function Total(xs: seq<real>): real { Sum(xs, Same) }

  /** The streak is the longest run of losing closes at the end. */
  ghost predicate Trailing(closes: seq<real>, streak: nat) {
    && streak <= |closes|
    && (forall i | |closes| - streak <= i < |closes| :: closes[i] < 0.0)
    && (streak < |closes| ==> closes[|closes| - streak - 1] >= 0.0)
  }

  /** The recorded drawdown is the fall of the stored equity from the recorded start, never below zero. */
  ghost predicate DrawdownIsCurrent(s: Store) {
    s.risk.dailyDrawdownPct == DrawdownPct(s.risk.dailyStartEquity, s.portfolio.equity)
  }

  /** A positive start less the recorded share of it is the equity, and nothing is recorded while equity is not below it. */
  lemma DrawdownMeans(start: real, equity: real)
    requires start > 0.0
    ensures var drawdown := DrawdownPct(start, equity);
            if equity < start then start - start * drawdown / 100.0 == equity else drawdown == 0.0
  {
    var fall := (start - equity) / start;
    assert fall * start == start - equity;
    if equity < start {
      PositiveQuotient(start - equity, start);
      assert start * (fall * 100.0) / 100.0 == fall * start;
    } else {
      PositiveQuotient(equity - start, start);
      assert (equity - start) / start >= 0.0 && fall == -((equity - start) / start);
    }
  }

  /** A day that began at no equity records no drawdown. */
  lemma NoDrawdownFromNothing(equity: real)
    ensures DrawdownPct(0.0, equity) == 0.0
  {
  }

  lemma TrailingSnoc(closes: seq<real>, streak: nat, pnl: real)
    requires Trailing(closes, streak)
    ensures Trailing(closes + [pnl], if pnl >= 0.0 then 0 else streak + 1)
  {
  }

  lemma TotalSnoc(xs: seq<real>, x: real)
    ensures Total(xs + [x]) == Total(xs) + x
  {
    SumSnoc(xs, x, Same);
  }

  lemma StepKeepsDrawdown(s: Store, t: Transition)
    requires DrawdownIsCurrent(s) && Issuable(s, t)
    ensures DrawdownIsCurrent(Apply(s, t))
  {
  }

  lemma SinceResetSnoc(ts: seq<Transition>, t: Transition)
    requires !Resets(t)
    ensures Closes(SinceReset(ts) + [t]) == Closes(SinceReset(ts)) + if t.PositionClosed? then [t.pnl] else []
    ensures Signals(SinceReset(ts) + [t]) == Signals(SinceReset(ts)) + if t.RiskUpdated? then 1 else 0
  {
    assert (SinceReset(ts) + [t])[..|SinceReset(ts)|] == SinceReset(ts);
  }

  /** The record after any run of issuable transitions from an account that has not traded. */
  ghost predicate RecordHolds(s: Store, ts: seq<Transition>) {
    var after := ApplyAll(s, ts);
    && after.portfolio.realizedPnl == Total(Closes(ts))
    && after.risk.dailyPnl == Total(Closes(SinceReset(ts)))
    && after.risk.signalsToday == Signals(SinceReset(ts))
    && after.risk.dailyStartEquity == EquityAtReset(s, ts)
    && Trailing(Closes(ts), after.risk.consecutiveLosses)
    && DrawdownIsCurrent(after)
  }

  lemma {:induction false} RecordFollowsCloses(s: Store, ts: seq<Transition>)
    requires IssuableRun(s, ts) && DrawdownIsCurrent(s)
    requires s.portfolio.realizedPnl == 0.0 && s.risk.dailyPnl == 0.0
    requires s.risk.consecutiveLosses == 0 && s.risk.signalsToday == 0
    ensures RecordHolds(s, ts)
  {
    if ts != [] {
      var n := |ts| - 1;
      RecordFollowsCloses(s, ts[..n]);
      RecordStep(s, ts);
    }
  }

  lemma RecordStep(s: Store, ts: seq<Transition>)
    requires ts != [] && RecordHolds(s, ts[..|ts| - 1]) && Issuable(ApplyAll(s, ts[..|ts| - 1]), ts[|ts| - 1])
    ensures RecordHolds(s, ts)
  {
    StepKeepsDrawdown(ApplyAll(s, ts[..|ts| - 1]), ts[|ts| - 1]);
    if ts[|ts| - 1].PositionClosed? {
      RecordAfterClose(s, ts);
    } else {
      RecordAfterOther(s, ts);
    }
  }

  lemma RecordAfterClose(s: Store, ts: seq<Transition>)
    requires ts != [] && RecordHolds(s, ts[..|ts| - 1]) && ts[|ts| - 1].PositionClosed?
    requires DrawdownIsCurrent(ApplyAll(s, ts))
    ensures RecordHolds(s, ts)
  {
    var n := |ts| - 1;
    var pnl := ts[n].pnl;
    SinceResetSnoc(ts[..n], ts[n]);
    CloseCounts(ApplyAll(s, ts[..n]), ts[n], Closes(ts[..n]), Closes(SinceReset(ts[..n])));
    assert ApplyAll(s, ts) == Apply(ApplyAll(s, ts[..n]), ts[n]);
    assert Closes(ts) == Closes(ts[..n]) + [pnl];
    assert SinceReset(ts) == SinceReset(ts[..n]) + [ts[n]];
    assert EquityAtReset(s, ts) == EquityAtReset(s, ts[..n]);
  }

  lemma RecordAfterOther(s: Store, ts: seq<Transition>)
    requires ts != [] && RecordHolds(s, ts[..|ts| - 1]) && !ts[|ts| - 1].PositionClosed?
    requires Issuable(ApplyAll(s, ts[..|ts| - 1]), ts[|ts| - 1]) && DrawdownIsCurrent(ApplyAll(s, ts))
    ensures RecordHolds(s, ts)
  {
    var n := |ts| - 1;
    OthersCount(ApplyAll(s, ts[..n]), ts[n]);
    assert Closes(ts) == Closes(ts[..n]);
    if Resets(ts[n]) {
      assert SinceReset(ts) == [];
    } else {
      SinceResetSnoc(ts[..n], ts[n]);
      assert Closes(SinceReset(ts)) == Closes(SinceReset(ts[..n]));
    }
  }

  lemma CloseCounts(s: Store, t: Transition, closes: seq<real>, today: seq<real>)
    requires t.PositionClosed? && Trailing(closes, s.risk.consecutiveLosses)
    ensures var after := Apply(s, t);
            && after.portfolio.realizedPnl - s.portfolio.realizedPnl == Total(closes + [t.pnl]) - Total(closes)
            && after.risk.dailyPnl - s.risk.dailyPnl == Total(today + [t.pnl]) - Total(today)
            && after.risk.signalsToday == s.risk.signalsToday
            && after.risk.dailyStartEquity == s.risk.dailyStartEquity
            && Trailing(closes + [t.pnl], after.risk.consecutiveLosses)
  {
    TotalSnoc(closes, t.pnl);
    TotalSnoc(today, t.pnl);
    TrailingSnoc(closes, s.risk.consecutiveLosses, t.pnl);
  }

  lemma OthersCount(s: Store, t: Transition)
    requires !t.PositionClosed? && Issuable(s, t)
    ensures var after := Apply(s, t);
            && after.portfolio.realizedPnl == s.portfolio.realizedPnl
            && after.risk.consecutiveLosses == s.risk.consecutiveLosses
            && after.risk.dailyPnl == (if Resets(t) then 0.0 else s.risk.dailyPnl)
            && after.risk.signalsToday
               == (if Resets(t) then 0 else s.risk.signalsToday + if t.RiskUpdated? then 1 else 0)
            && after.risk.dailyStartEquity == if Resets(t) then s.portfolio.equity else s.risk.dailyStartEquity
  {
  }

  /**
   Over every run of the platform, on any symbols: realised profit is the sum of all closes, daily profit
   and signal count those since the last reset, the loss streak the number of losing closes at the end,
   and the recorded drawdown the fall of the stored equity since that reset, open positions included.
   */
  lemma RunKeepsRecord(cfg: Config, cash: real, limits: RiskLimits, inputs: seq<CycleInput>, l: Ledger, start: Store)
    requires start == InitialStore(cash, limits)
    requires l == Cycles(cfg, EmptyLedger(cash, limits), inputs)
    ensures l.store == ApplyAll(start, l.trail) && RecordHolds(start, l.trail)
  {
    RunKeeps(cfg, cash, limits, inputs);
    FreshRecord(cash, limits);
    RecordFollowsCloses(start, l.trail);
  }

  lemma FreshRecord(cash: real, limits: RiskLimits)
    ensures DrawdownIsCurrent(InitialStore(cash, limits))
  {
  }
}
