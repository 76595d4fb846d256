/**
 The recorded open exposure (backend/src/state/store.py), which sizing and the gate read. An opening adds
 its share of the equity of that moment, a close takes off its share of a later one, so a round trip gives
 back what it took only when the two equities agree.
 */
module ExposureLaws {
  import opened Wrappers
  import opened Arithmetic
  import opened StateStore
  import opened Pricing
  import opened Runtime
  import opened CycleLaws
  import opened ExitLaws

  function PerCent(x: real, equity: real): real { if equity == 0.0 then 0.0 else x / equity * 100.0 }

  function Worth(p: Position): real { p.entryPrice * p.quantity }

  // ---------------------------------------------------------------- what is open, from the transitions alone

  /** The position last opened under an id and not closed since. */
  function LastOpened(ts: seq<Transition>, id: Id): Option<Position> {
    if ts == [] then None
    else
      var t := ts[|ts| - 1];
      if t.PositionOpened? && t.position.id == id then Some(t.position)
      else if t.PositionClosed? && t.positionId == id then None
      else LastOpened(ts[..|ts| - 1], id)
  }

  ghost predicate SameOrNone(a: Option<Position>, b: Option<Position>) {
    (a.None? <==> b.None?) && (a.Some? && b.Some? ==> SamePosition(a.value, b.value))
  }

  lemma {:induction false} FindWithout(ps: seq<Position>, gone: Id, id: Id)
    requires Distinct(ps)
    ensures Find(Without(ps, gone), id) == if id == gone then None else Find(ps, id)
  {
    if ps != [] {
      var n := |ps| - 1;
      assert ps == ps[..n] + [ps[n]];
      FindWithout(ps[..n], gone, id);
      FindSnoc(ps[..n], ps[n], id);
      if ps[n].id == gone {
        assert Without(ps, gone) == Without(ps[..n], gone);
      } else {
        FindSnoc(Without(ps[..n], gone), ps[n], id);
      }
    }
  }

  lemma {:induction false} FindRevalued(ps: seq<Position>, prices: map<string, real>, id: Id)
    ensures SameOrNone(Find(ps, id), Find(RevalueAll(ps, prices), id))
  {
    if ps != [] {
      var n := |ps| - 1;
      FindRevalued(ps[..n], prices, id);
      assert ps == ps[..n] + [ps[n]];
      FindSnoc(ps[..n], ps[n], id);
      FindSnoc(RevalueAll(ps[..n], prices), Revalued(ps[n], prices), id);
    }
  }

  lemma FindAfter(s: Store, t: Transition, id: Id)
    requires Distinct(s.portfolio.openPositions) && Issuable(s, t)
    ensures
      var before, after := Find(s.portfolio.openPositions, id), Find(Apply(s, t).portfolio.openPositions, id);
      if t.PositionOpened? && t.position.id == id then after == Some(t.position)
      else if t.PositionClosed? && t.positionId == id then after == None
      else SameOrNone(before, after)
  {
    match t {
      case PositionOpened(p, _) =>
        FindSnoc(s.portfolio.openPositions, p, id);
        FindProperties(s.portfolio.openPositions, id);
      case PositionClosed(gone, _) => FindWithout(s.portfolio.openPositions, gone, id);
      case MarkToMarket(prices) => FindRevalued(s.portfolio.openPositions, prices, id);
      case RiskUpdated(_) =>
    }
  }

  lemma {:induction false} FindIsLastOpened(s: Store, ts: seq<Transition>, id: Id)
    requires s.portfolio.openPositions == [] && IssuableRun(s, ts)
    ensures SameOrNone(LastOpened(ts, id), Find(ApplyAll(s, ts).portfolio.openPositions, id))
  {
    if ts != [] {
      var n := |ts| - 1;
      FindIsLastOpened(s, ts[..n], id);
      CashConservation(s, ts[..n]);
      FindAfter(ApplyAll(s, ts[..n]), ts[n], id);
    }
  }

  // ---------------------------------------------------------------- the fold

  function Released(ts: seq<Transition>, id: Id): real {
    if LastOpened(ts, id).Some? then Worth(LastOpened(ts, id).value) else 0.0
  }

  /** Openings added and closes taken off in turn, each over the equity before it, never below zero after a close. */
  function Exposure(ts: seq<Transition>, equities: seq<real>): real
    requires |equities| >= |ts|
  {
    if ts == [] then 0.0
    else
      var n := |ts| - 1;
      var before := Exposure(ts[..n], equities);
      var t := ts[n];
      if t.PositionOpened? then before + PerCent(Worth(t.position), equities[n])
      else if t.PositionClosed? then Max0(before - PerCent(Released(ts[..n], t.positionId), equities[n]))
      else before
  }

  /** The stored equity before each transition of a run. */
  ghost predicate EquitiesOf(s: Store, ts: seq<Transition>, equities: seq<real>) {
    |equities| == |ts| && forall i | 0 <= i < |ts| :: equities[i] == ApplyAll(s, ts[..i]).portfolio.equity
  }

  lemma ExposureAfter(s: Store, t: Transition, found: Option<Position>)
    requires Issuable(s, t)
    requires t.PositionClosed? ==> SameOrNone(found, Find(s.portfolio.openPositions, t.positionId))
    ensures
      var before, equity := s.risk.openExposurePct, s.portfolio.equity;
      Apply(s, t).risk.openExposurePct
      == if t.PositionOpened? then before + PerCent(Worth(t.position), equity)
         else if t.PositionClosed? then
           Max0(before - PerCent(if found.Some? then Worth(found.value) else 0.0, equity))
         else before
  {
  }

  lemma {:induction false} ExposureFolds(s: Store, ts: seq<Transition>, equities: seq<real>)
    requires s.portfolio.openPositions == [] && s.risk.openExposurePct == 0.0
    requires IssuableRun(s, ts) && |equities| >= |ts|
    requires forall i | 0 <= i < |ts| :: equities[i] == ApplyAll(s, ts[..i]).portfolio.equity
    ensures ApplyAll(s, ts).risk.openExposurePct == Exposure(ts, equities)
  {
    if ts != [] {
      var n := |ts| - 1;
      forall i | 0 <= i < n ensures equities[i] == ApplyAll(s, ts[..n][..i]).portfolio.equity {
        assert ts[..n][..i] == ts[..i];
      }
      ExposureFolds(s, ts[..n], equities);
      var found := if ts[n].PositionClosed? then LastOpened(ts[..n], ts[n].positionId) else None;
      if ts[n].PositionClosed? {
        FindIsLastOpened(s, ts[..n], ts[n].positionId);
      }
      ExposureAfter(ApplyAll(s, ts[..n]), ts[n], found);
    }
  }

  /** In every state a run reaches, the recorded exposure is that fold over its transitions. */
  lemma RunExposure(
    cfg: Config, cash: real, limits: RiskLimits, inputs: seq<CycleInput>, l: Ledger, equities: seq<real>)
    requires l == Cycles(cfg, EmptyLedger(cash, limits), inputs)
    requires EquitiesOf(InitialStore(cash, limits), l.trail, equities)
    ensures l.store.risk.openExposurePct == Exposure(l.trail, equities)
  {
    RunKeeps(cfg, cash, limits, inputs);
    ExposureFolds(InitialStore(cash, limits), l.trail, equities);
  }

  // ---------------------------------------------------------------- one round trip

  /** With equity positive and nothing owed on the position, a close never raises the exposure. */
  lemma CloseNeverRaises(s: Store, id: Id, pnl: real)
    requires s.portfolio.equity > 0.0 && s.risk.openExposurePct >= 0.0
    requires var p := Find(s.portfolio.openPositions, id); p.Some? ==> Worth(p.value) >= 0.0
    ensures 0.0 <= Apply(s, PositionClosed(id, pnl)).risk.openExposurePct <= s.risk.openExposurePct
  {
    var p := Find(s.portfolio.openPositions, id);
    if p.Some? {
      ShareIsPositive(Worth(p.value), s.portfolio.equity);
    }
  }

  lemma ShareIsPositive(x: real, equity: real)
    requires x >= 0.0 && equity > 0.0
    ensures x / equity * 100.0 >= 0.0
  {
  }

  /** A trip: `p` is opened in `s` and closed in `later`, where the exposure is still what the opening made it. */
  ghost predicate Trip(s: Store, p: Position, cost: real, later: Store) {
    && later.risk.openExposurePct == Apply(s, PositionOpened(p, cost)).risk.openExposurePct
    && Find(later.portfolio.openPositions, p.id).Some?
    && SamePosition(p, Find(later.portfolio.openPositions, p.id).value)
  }

  /** Closed at the equity it was opened at, a position gives back the exposure it took. */
  lemma TripReturns(s: Store, p: Position, cost: real, later: Store, pnl: real)
    requires Trip(s, p, cost, later) && later.portfolio.equity == s.portfolio.equity && s.risk.openExposurePct >= 0.0
    ensures Apply(later, PositionClosed(p.id, pnl)).risk.openExposurePct == s.risk.openExposurePct
  {
  }

  /**
   And otherwise not: from a positive equity to a positive equity the exposure is back where it was only if
   they are equal, or there was none before and the equity has fallen. A gain leaves some behind.
   */
  lemma TripReturnsIff(s: Store, p: Position, cost: real, later: Store, pnl: real)
    requires Trip(s, p, cost, later) && s.portfolio.equity > 0.0 && later.portfolio.equity > 0.0
    requires Worth(p) > 0.0 && s.risk.openExposurePct >= 0.0
    ensures Apply(later, PositionClosed(p.id, pnl)).risk.openExposurePct == s.risk.openExposurePct
            <==> later.portfolio.equity == s.portfolio.equity
                 || (later.portfolio.equity < s.portfolio.equity && s.risk.openExposurePct == 0.0)
  {
    ShareFalls(Worth(p), s.portfolio.equity, later.portfolio.equity);
    ShareFalls(Worth(p), later.portfolio.equity, s.portfolio.equity);
  }

  lemma ShareFalls(x: real, a: real, b: real)
    requires x > 0.0 && 0.0 < a && 0.0 < b
    ensures a < b ==> x / a * 100.0 > x / b * 100.0
  {
    if a < b {
      assert x / a * a == x && x / b * b == x;
      assert x / b * (b - a) > 0.0;
      assert x / b * a < x / a * a;
    }
  }
}
