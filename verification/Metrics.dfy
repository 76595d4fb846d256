/**
 The event-sourced ledger (backend/src/validation/metrics.py, compute_mark_to_market_series): the
 mark-to-market curve rebuilt from the published events alone. Python dictionaries keep insertion
 order, so the table of open lots is a sequence keyed by id.
 */
module Metrics {
  import opened Arithmetic
  import opened Sums
  import opened StableSort
  import opened StateStore
  import opened Engine
  import opened Runtime

  datatype Lot = Lot(id: Id, quantity: real, sign: real, entry: real)

  datatype WalkState = WalkState(
    realised: real, lots: seq<Lot>, lastClose: real, days: seq<int>, byDay: map<int, real>)

  const START := WalkState(0.0, [], 0.0, [], map[])

  function LotOf(p: Position): Lot {
    Lot(p.id, p.quantity, if p.side == Long then 1.0 else -1.0, p.entryPrice)
  }

  function SetLot(lots: seq<Lot>, lot: Lot): seq<Lot> {
    if lots == [] then [lot]
    else if lots[0].id == lot.id then [lot] + lots[1..]
    else [lots[0]] + SetLot(lots[1..], lot)
  }

  function PopLot(lots: seq<Lot>, id: Id): seq<Lot> {
    if lots == [] then []
    else PopLot(lots[..|lots| - 1], id) + if lots[|lots| - 1].id != id then [lots[|lots| - 1]] else []
  }

  function LotPnlAt(close: real): Lot -> real {
    (lot: Lot) => lot.sign * lot.quantity * (close - lot.entry)
  }

  function Value(initialCapital: real, w: WalkState): real {
    initialCapital + w.realised + Sum(w.lots, LotPnlAt(w.lastClose))
  }

  predicate Relevant(e: Event) {
    e.kind.CandleReceived? || e.kind.OpenedEvent? || e.kind.ClosedEvent?
  }

  function RelevantOnly(events: seq<Event>): seq<Event> {
    if events == [] then []
    else RelevantOnly(events[..|events| - 1]) +
         if Relevant(events[|events| - 1]) then [events[|events| - 1]] else []
  }

  function Absorb(w: WalkState, e: Event): WalkState {
    match e.kind
    case CandleReceived(close) => w.(lastClose := close)
    case OpenedEvent(position) => w.(lots := SetLot(w.lots, LotOf(position)))
    case ClosedEvent(positionId, pnl, _, _, _) =>
      w.(realised := w.realised + pnl, lots := PopLot(w.lots, positionId))
    case _ => w
  }

  function Record(initialCapital: real, w: WalkState, day: int): WalkState {
    w.(days := if day in w.byDay then w.days else w.days + [day],
       byDay := w.byDay[day := Value(initialCapital, w)])
  }

  function Walk(initialCapital: real, events: seq<Event>): WalkState {
    if events == [] then START
    else
      var e := events[|events| - 1];
      Record(initialCapital, Absorb(Walk(initialCapital, events[..|events| - 1]), e), Day(e.time))
  }

  function EventTime(e: Event): int { e.time }

  function Chronological(events: seq<Event>): seq<Event> { SortBy(RelevantOnly(events), EventTime) }

  /** The curve of a walk: the opening capital, then each day's last recorded value in day order. */
  function CurveOf(initialCapital: real, w: WalkState): seq<real>
    requires forall d | d in w.days :: d in w.byDay
  {
    SortIsOrdered(w.days, Same);
    var days := SortBy(w.days, Same);
    assert forall d | d in days :: d in multiset(days) && d in multiset(w.days) && d in w.days;
    [initialCapital] + seq(|days|, i requires 0 <= i < |days| => w.byDay[days[i]])
  }

  lemma {:induction false} DaysAreKeys(initialCapital: real, events: seq<Event>)
    ensures forall d :: d in Walk(initialCapital, events).days <==> d in Walk(initialCapital, events).byDay
  {
    if events != [] {
      DaysAreKeys(initialCapital, events[..|events| - 1]);
    }
  }

  /** The curve the events of a run produce. */
  function Curve(initialCapital: real, events: seq<Event>): seq<real> {
    DaysAreKeys(initialCapital, Chronological(events));
    CurveOf(initialCapital, Walk(initialCapital, Chronological(events)))
  }

  /** The ledger walk of compute_mark_to_market_series. */
  method WalkEvents(relevant: seq<Event>, initialCapital: real) returns (w: WalkState)
    ensures w == Walk(initialCapital, relevant)
  {
    var realised, lots, lastClose := 0.0, [], 0.0;
    var days: seq<int>, byDay: map<int, real> := [], map[];
    for i := 0 to |relevant|
      invariant WalkState(realised, lots, lastClose, days, byDay) == Walk(initialCapital, relevant[..i])
    {
      var event := relevant[i];
      assert relevant[..i + 1][..i] == relevant[..i];
      match event.kind {
        case CandleReceived(close) => lastClose := close;
        case OpenedEvent(position) => lots := SetLot(lots, LotOf(position));
        case ClosedEvent(positionId, pnl, _, _, _) =>
          realised := realised + pnl;
          lots := PopLot(lots, positionId);
        case _ =>
      }
      var day := Day(event.time);
      if day !in byDay {
        days := days + [day];
      }
      byDay := byDay[day := initialCapital + realised + Sum(lots, LotPnlAt(lastClose))];
    }
    assert relevant[..|relevant|] == relevant;
    w := WalkState(realised, lots, lastClose, days, byDay);
  }

  method ComputeMarkToMarketSeries(events: seq<Event>, initialCapital: real) returns (curve: seq<real>)
    ensures (forall e | e in events :: !e.kind.CandleReceived?) ==> curve == []
    ensures (exists e | e in events :: e.kind.CandleReceived?) ==> curve == Curve(initialCapital, events)
  {
    var relevant := SortBy(RelevantOnly(events), EventTime);
    CandlesSurvive(events);
    if forall e | e in relevant :: !e.kind.CandleReceived? {
      return [];
    }
    var w := WalkEvents(relevant, initialCapital);
    DaysAreKeys(initialCapital, relevant);
    curve := CurveOf(initialCapital, w);
  }

  lemma CandlesSurvive(events: seq<Event>)
    ensures forall e :: e in Chronological(events) <==> e in events && Relevant(e)
  {
    RelevantOnlyKeeps(events);
    SortIsOrdered(RelevantOnly(events), EventTime);
    assert forall e :: e in Chronological(events) <==> e in multiset(Chronological(events));
    assert forall e :: e in RelevantOnly(events) <==> e in multiset(RelevantOnly(events));
  }

  lemma {:induction false} RelevantOnlyKeeps(events: seq<Event>)
    ensures forall e :: e in RelevantOnly(events) <==> e in events && Relevant(e)
  {
    if events != [] {
      var n := |events| - 1;
      RelevantOnlyKeeps(events[..n]);
      assert events == events[..n] + [events[n]];
    }
  }
}
