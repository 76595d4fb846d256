/**
 The portfolio and risk record of backend/src/state/store.py.

 Apply is the value form of one state transition; the class InMemoryStateStore changes its two
 fields in place and is proved to follow it. The lemmas at the end are about every finite run of
 transitions: where the cash went, and how far the stored equity is from the books.
 */
module StateStore {
  import opened Wrappers
  import opened Arithmetic
  import opened Sums

  type Id = nat

  datatype PositionSide = Long | Short

  datatype Position = Position(
    id: Id, symbol: string, side: PositionSide, quantity: real, entryPrice: real,
    stopLoss: Option<real>, takeProfit: Option<real>, unrealizedPnl: real)

  datatype RiskLimits = RiskLimits(maxDailyDrawdownPct: real, maxOpenPositions: int, maxExposurePct: real)

  datatype Portfolio = Portfolio(
    cash: real, equity: real, openPositions: seq<Position>, realizedPnl: real, version: nat)

  datatype Risk = Risk(
    dailyPnl: real, dailyDrawdownPct: real, dailyStartEquity: real, openExposurePct: real,
    consecutiveLosses: nat, signalsToday: int, limits: RiskLimits, version: nat)

  datatype Store = Store(portfolio: Portfolio, risk: Risk)

  /** The fields a `risk_updated` payload may name; None where the payload leaves the field alone. */
  datatype RiskUpdate = RiskUpdate(
    signalsToday: Option<int>, dailyPnl: Option<real>,
    dailyDrawdownPct: Option<real>, dailyStartEquity: Option<real>)

  /** The fields a `portfolio_updated` payload may name. */
  datatype PortfolioUpdate = PortfolioUpdate(
    cash: Option<real>, equity: Option<real>, openPositions: Option<seq<Position>>, realizedPnl: Option<real>)

  datatype Transition =
    | PositionOpened(position: Position, cost: real)
    | PositionClosed(positionId: Id, pnl: real)
    | MarkToMarket(prices: map<string, real>)
    | PortfolioUpdated(portfolioUpdate: PortfolioUpdate)
    | RiskUpdated(riskUpdate: RiskUpdate)

  datatype StoreError = UnknownPortfolio

  // ---------------------------------------------------------------- positions

  function Notional(p: Position): real { p.entryPrice * p.quantity }

  /** What a position is worth in the books: the capital locked in it and its stored running profit. */
  function BookValue(p: Position): real { Notional(p) + p.unrealizedPnl }

  /** Profit of a position against a price, before any fee. */
  function PnlAt(p: Position, price: real): real {
    if p.side == Long then (price - p.entryPrice) * p.quantity else (p.entryPrice - price) * p.quantity
  }

  ghost predicate Distinct(ps: seq<Position>) {
    forall i, j :: 0 <= i < j < |ps| ==> ps[i].id != ps[j].id
  }

  function Ids(ps: seq<Position>): set<Id> {
    set p | p in ps :: p.id
  }

  function Without(ps: seq<Position>, id: Id): seq<Position> {
    if ps == [] then []
    else
      var last := ps[|ps| - 1];
      Without(ps[..|ps| - 1], id) + if last.id != id then [last] else []
  }

  function Find(ps: seq<Position>, id: Id): Option<Position> {
    if ps == [] then None else if ps[0].id == id then Some(ps[0]) else Find(ps[1..], id)
  }

  function Revalued(p: Position, prices: map<string, real>): Position {
    if p.symbol in prices then p.(unrealizedPnl := PnlAt(p, prices[p.symbol])) else p
  }

  function RevalueAll(ps: seq<Position>, prices: map<string, real>): seq<Position>
  {
    if ps == [] then [] else RevalueAll(ps[..|ps| - 1], prices) + [Revalued(ps[|ps| - 1], prices)]
  }

  // ---------------------------------------------------------------- one transition

  function DrawdownPct(dailyStartEquity: real, equity: real): real {
    var start := OrElse(dailyStartEquity, equity);
    if start != 0.0 then Max0((start - equity) / start * 100.0) else 0.0
  }

  function ExposurePct(notional: real, equity: real): real {
    if equity != 0.0 then notional / equity * 100.0 else 0.0
  }

  function ApplyOpened(s: Store, position: Position, cost: real): Store {
    var p := s.portfolio;
    Store(
      p.(cash := p.cash - cost, openPositions := p.openPositions + [position], version := p.version + 1),
      s.risk.(openExposurePct := s.risk.openExposurePct + ExposurePct(Notional(position), p.equity),
              version := s.risk.version + 1))
  }

  function ApplyClosed(s: Store, positionId: Id, pnl: real): Store {
    var p := s.portfolio;
    var closed := Find(p.openPositions, positionId);
    var notional := if closed.Some? then Notional(closed.value) else 0.0;
    var equity := p.equity + pnl;
    Store(
      p.(cash := p.cash + pnl + notional, equity := equity, realizedPnl := p.realizedPnl + pnl,
         openPositions := Without(p.openPositions, positionId), version := p.version + 1),
      s.risk.(dailyPnl := s.risk.dailyPnl + pnl,
              dailyDrawdownPct := DrawdownPct(s.risk.dailyStartEquity, equity),
              openExposurePct := Max0(s.risk.openExposurePct - ExposurePct(notional, p.equity)),
              consecutiveLosses := if pnl >= 0.0 then 0 else s.risk.consecutiveLosses + 1,
              version := s.risk.version + 1))
  }

  function ApplyMark(s: Store, prices: map<string, real>): Store {
    var positions := RevalueAll(s.portfolio.openPositions, prices);
    var equity := s.portfolio.cash + Sum(positions, BookValue);
    Store(
      s.portfolio.(equity := equity, openPositions := positions, version := s.portfolio.version + 1),
      s.risk.(dailyDrawdownPct := DrawdownPct(s.risk.dailyStartEquity, equity), version := s.risk.version + 1))
  }

  function Patched<T>(update: Option<T>, current: T): T {
    if update.Some? then update.value else current
  }

  function ApplyPortfolioUpdate(s: Store, u: PortfolioUpdate): Store {
    var p := s.portfolio;
    s.(portfolio := Portfolio(
      Patched(u.cash, p.cash), Patched(u.equity, p.equity), Patched(u.openPositions, p.openPositions),
      Patched(u.realizedPnl, p.realizedPnl), p.version + 1))
  }

  function ApplyRiskUpdate(s: Store, u: RiskUpdate): Store {
    var r := s.risk;
    s.(risk := r.(
      signalsToday := Patched(u.signalsToday, r.signalsToday),
      dailyPnl := Patched(u.dailyPnl, r.dailyPnl),
      dailyDrawdownPct := Patched(u.dailyDrawdownPct, r.dailyDrawdownPct),
      dailyStartEquity := Patched(u.dailyStartEquity, r.dailyStartEquity),
      version := r.version + 1))
  }

  function Apply(s: Store, t: Transition): Store {
    match t
    case PositionOpened(position, cost) => ApplyOpened(s, position, cost)
    case PositionClosed(positionId, pnl) => ApplyClosed(s, positionId, pnl)
    case MarkToMarket(prices) => ApplyMark(s, prices)
    case PortfolioUpdated(u) => ApplyPortfolioUpdate(s, u)
    case RiskUpdated(u) => ApplyRiskUpdate(s, u)
  }

  function ApplyAll(s: Store, ts: seq<Transition>): Store {
    if ts == [] then s else Apply(ApplyAll(s, ts[..|ts| - 1]), ts[|ts| - 1])
  }

  function InitialStore(cash: real, limits: RiskLimits): Store {
    Store(Portfolio(cash, cash, [], 0.0, 1), Risk(0.0, 0.0, cash, 0.0, 0, 0, limits, 1))
  }

  // ---------------------------------------------------------------- the object

  class InMemoryStateStore {
    const portfolioId: string
    var portfolio: Portfolio
    var risk: Risk

    ghost function State(): Store
      reads this
    {
      Store(portfolio, risk)
    }

    constructor (portfolioId: string, initialCash: real, limits: RiskLimits)
      ensures State() == InitialStore(initialCash, limits)
      ensures this.portfolioId == portfolioId
    {
      this.portfolioId := portfolioId;
      portfolio := Portfolio(initialCash, initialCash, [], 0.0, 1);
      risk := Risk(0.0, 0.0, initialCash, 0.0, 0, 0, limits, 1);
    }

    /** A transition for another portfolio is refused and changes nothing. */
    method ApplyTransition(target: string, t: Transition) returns (r: Result<Store, StoreError>)
      modifies this
      ensures target != portfolioId ==> r == Err(UnknownPortfolio) && State() == old(State())
      ensures target == portfolioId ==> State() == Apply(old(State()), t) && r == Ok(State())
    {
      if target != portfolioId {
        return Err(UnknownPortfolio);
      }
      match t {
        case PositionOpened(position, cost) => ApplyPositionOpened(position, cost);
        case PositionClosed(positionId, pnl) => ApplyPositionClosed(positionId, pnl);
        case MarkToMarket(prices) => ApplyMarkToMarket(prices);
        case PortfolioUpdated(u) =>
          portfolio := Portfolio(
            Patched(u.cash, portfolio.cash), Patched(u.equity, portfolio.equity),
            Patched(u.openPositions, portfolio.openPositions),
            Patched(u.realizedPnl, portfolio.realizedPnl), portfolio.version + 1);
        case RiskUpdated(u) =>
          risk := risk.(
            signalsToday := Patched(u.signalsToday, risk.signalsToday),
            dailyPnl := Patched(u.dailyPnl, risk.dailyPnl),
            dailyDrawdownPct := Patched(u.dailyDrawdownPct, risk.dailyDrawdownPct),
            dailyStartEquity := Patched(u.dailyStartEquity, risk.dailyStartEquity),
            version := risk.version + 1);
      }
      r := Ok(Store(portfolio, risk));
    }

    method ApplyPositionOpened(position: Position, cost: real)
      modifies this
      ensures State() == ApplyOpened(old(State()), position, cost)
    {
      var exposureAdd := ExposurePct(position.entryPrice * position.quantity, portfolio.equity);
      portfolio := portfolio.(
        cash := portfolio.cash - cost,
        openPositions := portfolio.openPositions + [position],
        version := portfolio.version + 1);
      risk := risk.(openExposurePct := risk.openExposurePct + exposureAdd, version := risk.version + 1);
    }

    method ApplyPositionClosed(positionId: Id, pnl: real)
      modifies this
      ensures State() == ApplyClosed(old(State()), positionId, pnl)
    {
      var closed := Find(portfolio.openPositions, positionId);
      var exposureDrop := 0.0;
      var newCash := portfolio.cash + pnl;
      if closed.Some? {
        exposureDrop := ExposurePct(Notional(closed.value), portfolio.equity);
        newCash := newCash + Notional(closed.value);
      }
      var newEquity := portfolio.equity + pnl;
      var consecutive := if pnl >= 0.0 then 0 else risk.consecutiveLosses + 1;
      var drawdownPct := DrawdownPct(risk.dailyStartEquity, newEquity);
      portfolio := portfolio.(
        cash := newCash, equity := newEquity, realizedPnl := portfolio.realizedPnl + pnl,
        openPositions := Without(portfolio.openPositions, positionId), version := portfolio.version + 1);
      risk := risk.(
        dailyPnl := risk.dailyPnl + pnl, dailyDrawdownPct := drawdownPct,
        openExposurePct := Max0(risk.openExposurePct - exposureDrop),
        consecutiveLosses := consecutive, version := risk.version + 1);
    }

    /** The revaluing loop: the marked positions and their total market value. */
    static method RevaluePositions(positions: seq<Position>, prices: map<string, real>)
      returns (revalued: seq<Position>, marketValueTotal: real)
      ensures revalued == RevalueAll(positions, prices)
      ensures marketValueTotal == Sum(revalued, BookValue)
    {
      revalued, marketValueTotal := [], 0.0;
      for i := 0 to |positions|
        invariant revalued == RevalueAll(positions[..i], prices)
        invariant marketValueTotal == Sum(revalued, BookValue)
      {
        var marked := Revalued(positions[i], prices);
        assert positions[..i + 1][..i] == positions[..i];
        SumSnoc(revalued, marked, BookValue);
        revalued := revalued + [marked];
        marketValueTotal := marketValueTotal + BookValue(marked);
      }
      assert positions[..|positions|] == positions;
    }

    method ApplyMarkToMarket(prices: map<string, real>)
      modifies this
      ensures State() == ApplyMark(old(State()), prices)
    {
      var positions := portfolio.openPositions;
      assert Sum([], BookValue) == 0.0;
      var newEquity := portfolio.cash;
      if positions != [] {
        var marketValueTotal;
        positions, marketValueTotal := RevaluePositions(positions, prices);
        newEquity := portfolio.cash + marketValueTotal;
      }
      var drawdownPct := DrawdownPct(risk.dailyStartEquity, newEquity);
      portfolio := portfolio.(equity := newEquity, openPositions := positions, version := portfolio.version + 1);
      risk := risk.(dailyDrawdownPct := drawdownPct, version := risk.version + 1);
    }
  }

  // ---------------------------------------------------------------- facts about position lists

  lemma {:induction false} WithoutProperties(ps: seq<Position>, id: Id)
    ensures forall p :: p in Without(ps, id) <==> p in ps && p.id != id
    ensures Distinct(ps) ==> Distinct(Without(ps, id))
  {
    if ps != [] {
      var n := |ps| - 1;
      WithoutProperties(ps[..n], id);
      assert ps == ps[..n] + [ps[n]];
    }
  }

  lemma {:induction false} WithoutAbsent(ps: seq<Position>, id: Id)
    requires id !in Ids(ps)
    ensures Without(ps, id) == ps
  {
    if ps != [] {
      var n := |ps| - 1;
      assert ps == ps[..n] + [ps[n]];
      WithoutAbsent(ps[..n], id);
    }
  }

  lemma {:induction false} FindProperties(ps: seq<Position>, id: Id)
    ensures Find(ps, id).Some? <==> id in Ids(ps)
    ensures Find(ps, id).Some? ==> Find(ps, id).value in ps && Find(ps, id).value.id == id
  {
    if ps != [] {
      assert ps == [ps[0]] + ps[1..];
      FindProperties(ps[1..], id);
    }
  }

  /** In a list without repeated ids, taking one position out lowers any sum by that position's share. */
  lemma {:induction false} SumWithout(ps: seq<Position>, id: Id, f: Position -> real)
    requires Distinct(ps)
    ensures Sum(Without(ps, id), f) ==
            Sum(ps, f) - (if Find(ps, id).Some? then f(Find(ps, id).value) else 0.0)
  {
    FindProperties(ps, id);
    if ps != [] {
      var n := |ps| - 1;
      var init, last := ps[..n], ps[n];
      assert ps == init + [last];
      FindProperties(init, id);
      FindSnoc(init, last, id);
      if last.id == id {
        assert id !in Ids(init);
        WithoutAbsent(init, id);
        assert Without(ps, id) == init;
      } else {
        SumWithout(init, id, f);
        SumSnoc(Without(init, id), last, f);
      }
    }
  }

  lemma {:induction false} FindSnoc(ps: seq<Position>, last: Position, id: Id)
    ensures Find(ps + [last], id) ==
            if Find(ps, id).Some? then Find(ps, id) else if last.id == id then Some(last) else None
  {
    if ps != [] {
      assert (ps + [last])[1..] == ps[1..] + [last];
      FindSnoc(ps[1..], last, id);
    }
  }

  lemma {:induction false} RevalueAllAt(ps: seq<Position>, prices: map<string, real>)
    ensures |RevalueAll(ps, prices)| == |ps|
    ensures forall i | 0 <= i < |ps| :: RevalueAll(ps, prices)[i] == Revalued(ps[i], prices)
  {
    if ps != [] {
      RevalueAllAt(ps[..|ps| - 1], prices);
    }
  }

  lemma RevalueKeepsIds(ps: seq<Position>, prices: map<string, real>)
    ensures Ids(RevalueAll(ps, prices)) == Ids(ps)
    ensures Distinct(ps) ==> Distinct(RevalueAll(ps, prices))
  {
    RevalueAllAt(ps, prices);
    var r := RevalueAll(ps, prices);
    forall id | id in Ids(ps) ensures id in Ids(r) {
      var i :| 0 <= i < |ps| && ps[i].id == id;
      assert r[i].id == id;
    }
    forall id | id in Ids(r) ensures id in Ids(ps) {
      var i :| 0 <= i < |r| && r[i].id == id;
      assert ps[i].id == id;
    }
  }

  lemma {:induction false} RevalueKeepsSum(ps: seq<Position>, prices: map<string, real>, f: Position -> real)
    requires forall p: Position, u: real :: f(p.(unrealizedPnl := u)) == f(p)
    ensures Sum(RevalueAll(ps, prices), f) == Sum(ps, f)
  {
    if ps != [] {
      var n := |ps| - 1;
      RevalueKeepsSum(ps[..n], prices, f);
      SumSnoc(RevalueAll(ps[..n], prices), Revalued(ps[n], prices), f);
    }
  }

  lemma ApplyAllSnoc(s: Store, ts: seq<Transition>, t: Transition)
    ensures ApplyAll(s, ts + [t]) == Apply(ApplyAll(s, ts), t)
  {
    assert (ts + [t])[..|ts|] == ts;
  }

  // ---------------------------------------------------------------- runs of transitions

  /** The start of a day: counters back to zero, and the day measured from the equity as it stands. */
  function DayStart(s: Store): RiskUpdate {
    RiskUpdate(Some(0), Some(0.0), Some(0.0), Some(s.portfolio.equity))
  }

  /** One more signal today. */
  function SignalCount(s: Store): RiskUpdate { RiskUpdate(Some(s.risk.signalsToday + 1), None, None, None) }

  /**
   The transitions the platform issues: a new id for each opening, no wholesale overwrite, and the risk
   record touched only to start a day or count a signal.
   */
  ghost predicate Issuable(s: Store, t: Transition) {
    match t
    case PositionOpened(position, _) =>
      position.id !in Ids(s.portfolio.openPositions) && position.unrealizedPnl == 0.0
    case PortfolioUpdated(_) => false
    case RiskUpdated(u) => u == SignalCount(s) || u == DayStart(s)
    case _ => true
  }

  ghost predicate IssuableRun(s: Store, ts: seq<Transition>) {
    ts == [] ||
    (IssuableRun(s, ts[..|ts| - 1]) && Issuable(ApplyAll(s, ts[..|ts| - 1]), ts[|ts| - 1]))
  }

  /** Entry fee of an opening: what was paid beyond the notional. */
  function EntryFee(t: Transition): real {
    if t.PositionOpened? then t.cost - Notional(t.position) else 0.0
  }

  function EntryFees(ts: seq<Transition>): real { Sum(ts, EntryFee) }

  /** Entry fees charged since the last mark. */
  function FeesSinceMark(ts: seq<Transition>): real {
    if ts == [] || ts[|ts| - 1].MarkToMarket? then 0.0
    else FeesSinceMark(ts[..|ts| - 1]) + EntryFee(ts[|ts| - 1])
  }

  /** Stored running profit of the positions closed since the last mark, as it stood when they closed. */
  function ClosedUnrealizedSinceMark(s: Store, ts: seq<Transition>): real {
    if ts == [] || ts[|ts| - 1].MarkToMarket? then 0.0
    else
      var before := ts[..|ts| - 1];
      var t := ts[|ts| - 1];
      ClosedUnrealizedSinceMark(s, before) +
      if t.PositionClosed? then
        var hit := Find(ApplyAll(s, before).portfolio.openPositions, t.positionId);
        if hit.Some? then hit.value.unrealizedPnl else 0.0
      else 0.0
  }

  /** Cash plus the capital locked in open positions, less what trading has realised. */
  function Endowment(s: Store): real {
    s.portfolio.cash + Sum(s.portfolio.openPositions, Notional) - s.portfolio.realizedPnl
  }

  /** How far the stored equity is from cash plus the book value of the open positions. */
  function Drift(s: Store): real {
    s.portfolio.equity - (s.portfolio.cash + Sum(s.portfolio.openPositions, BookValue))
  }

  lemma StepKeepsDistinct(s: Store, t: Transition)
    requires Distinct(s.portfolio.openPositions) && Issuable(s, t)
    ensures Distinct(Apply(s, t).portfolio.openPositions)
  {
    match t {
      case PositionOpened(position, _) =>
        var ps := s.portfolio.openPositions;
        forall i | 0 <= i < |ps| ensures ps[i].id != position.id {
          assert ps[i].id in Ids(ps);
        }
      case PositionClosed(id, _) => WithoutProperties(s.portfolio.openPositions, id);
      case MarkToMarket(prices) => RevalueKeepsIds(s.portfolio.openPositions, prices);
      case RiskUpdated(_) =>
    }
  }

  lemma StepEndowment(s: Store, t: Transition)
    requires Distinct(s.portfolio.openPositions) && Issuable(s, t)
    ensures Endowment(Apply(s, t)) == Endowment(s) - EntryFee(t)
  {
    match t {
      case PositionOpened(position, _) => SumSnoc(s.portfolio.openPositions, position, Notional);
      case PositionClosed(id, _) => SumWithout(s.portfolio.openPositions, id, Notional);
      case MarkToMarket(prices) => RevalueKeepsSum(s.portfolio.openPositions, prices, Notional);
      case RiskUpdated(_) =>
    }
  }

  /**
   Cash conservation. After any run of issuable transitions, cash plus locked capital is the opening
   endowment plus realised profit less every entry fee: nothing else ever moves money.
   */
  lemma {:induction false} CashConservation(s: Store, ts: seq<Transition>)
    requires Distinct(s.portfolio.openPositions) && IssuableRun(s, ts)
    ensures Distinct(ApplyAll(s, ts).portfolio.openPositions)
    ensures Endowment(ApplyAll(s, ts)) == Endowment(s) - EntryFees(ts)
  {
    if ts != [] {
      var n := |ts| - 1;
      CashConservation(s, ts[..n]);
      StepKeepsDistinct(ApplyAll(s, ts[..n]), ts[n]);
      StepEndowment(ApplyAll(s, ts[..n]), ts[n]);
    }
  }

  lemma StepDrift(s: Store, t: Transition)
    requires Distinct(s.portfolio.openPositions) && Issuable(s, t)
    ensures Drift(Apply(s, t)) ==
            if t.MarkToMarket? then 0.0
            else if t.PositionClosed? && Find(s.portfolio.openPositions, t.positionId).Some? then
              Drift(s) + Find(s.portfolio.openPositions, t.positionId).value.unrealizedPnl
            else Drift(s) + EntryFee(t)
  {
    match t {
      case PositionOpened(position, _) => SumSnoc(s.portfolio.openPositions, position, BookValue);
      case PositionClosed(id, _) => SumWithout(s.portfolio.openPositions, id, BookValue);
      case MarkToMarket(_) =>
      case RiskUpdated(_) =>
    }
  }

  /**
   Exact equity drift. From a store whose equity agrees with its books, the stored equity of any
   later state is off by exactly the entry fees charged since the last mark plus the stored running
   profit of the positions closed since then; a mark brings the difference back to nothing.
   */
  lemma {:induction false} EquityDrift(s: Store, ts: seq<Transition>)
    requires Distinct(s.portfolio.openPositions) && IssuableRun(s, ts) && Drift(s) == 0.0
    ensures Drift(ApplyAll(s, ts)) == FeesSinceMark(ts) + ClosedUnrealizedSinceMark(s, ts)
  {
    if ts != [] {
      var n := |ts| - 1;
      EquityDrift(s, ts[..n]);
      CashConservation(s, ts[..n]);
      StepDrift(ApplyAll(s, ts[..n]), ts[n]);
    }
  }
}
