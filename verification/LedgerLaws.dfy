/**
 The platform invariant and its single steps: an opening, a close, one turn of the exit loop. The
 engine's tables agree with the store, each position is opened once and closed at most once, the bar
 counters stay below the limit, and the events replay to the store's positions and realised profit.

 The engine emits a whole batch before the store sees any of it. The proofs look at the ledger in
 between: committing a prefix of a batch is the same as stepping engine, store and log together.
 */
module LedgerLaws {
  import opened Wrappers
  import opened StateStore
  import opened Pricing
  import opened Engine
  import opened Runtime
  import opened Metrics

  // ---------------------------------------------------------------- what the events say

  function Absorbed(events: seq<Event>): WalkState {
    if events == [] then START else Absorb(Absorbed(events[..|events| - 1]), events[|events| - 1])
  }

  function Openings(events: seq<Event>, id: Id): nat {
    if events == [] then 0
    else
      var k := events[|events| - 1].kind;
      Openings(events[..|events| - 1], id) + if k.OpenedEvent? && k.position.id == id then 1 else 0
  }

  function Closings(events: seq<Event>, id: Id): nat {
    if events == [] then 0
    else
      var k := events[|events| - 1].kind;
      Closings(events[..|events| - 1], id) + if k.ClosedEvent? && k.positionId == id then 1 else 0
  }

  function LotsOf(ps: seq<Position>): seq<Lot> {
    if ps == [] then [] else LotsOf(ps[..|ps| - 1]) + [LotOf(ps[|ps| - 1])]
  }

  // ---------------------------------------------------------------- the invariant

  function Open(l: Ledger): seq<Position> { l.store.portfolio.openPositions }

  function Emitted(l: Ledger): seq<Event> { l.log + l.collected }

  /** The store is its transitions replayed, and each was one the platform may issue. */
  ghost predicate HistoryHolds(start: Store, l: Ledger) {
    Distinct(start.portfolio.openPositions) && l.store == ApplyAll(start, l.trail) && IssuableRun(start, l.trail)
  }

  ghost predicate TablesAgree(l: Ledger) {
    && Distinct(Open(l))
    && Ids(Open(l)) == l.engine.positionBars.Keys == l.engine.positionOrders.Keys
    && forall id | id in l.engine.positionBars :: id < l.engine.nextId
  }

  /** Every id drawn was opened at most once, and closed exactly when it is no longer open. */
  ghost predicate OnceEach(events: seq<Event>, openIds: set<Id>, nextId: Id) {
    forall id: Id ::
      && Openings(events, id) == Closings(events, id) + (if id in openIds then 1 else 0)
      && Openings(events, id) <= (if id < nextId then 1 else 0)
  }

  ghost predicate EachClosedOnce(l: Ledger) {
    OnceEach(Emitted(l), Ids(Open(l)), l.engine.nextId)
  }

  ghost predicate EventsReplay(l: Ledger) {
    && Absorbed(Emitted(l)).lots == LotsOf(Open(l))
    && Absorbed(Emitted(l)).realised == l.store.portfolio.realizedPnl
  }

  ghost predicate HeldBriefly(cfg: Config, l: Ledger) {
    cfg.maxBarsInTrade >= 1 ==> forall id | id in l.engine.positionBars :: l.engine.positionBars[id] < cfg.maxBarsInTrade
  }

  ghost predicate Core(start: Store, l: Ledger) {
    HistoryHolds(start, l) && TablesAgree(l) && EachClosedOnce(l) && EventsReplay(l)
  }

  ghost predicate Inv(cfg: Config, start: Store, l: Ledger) {
    Core(start, l) && HeldBriefly(cfg, l)
  }

  // ---------------------------------------------------------------- small steps

  function OpenStep(cfg: Config, l: Ledger, order: PendingEntry, tick: Tick, useNextOpen: bool): Ledger {
    var e := l.engine;
    var p := NewPosition(cfg, e, order, tick, useNextOpen);
    Issue(
      l.(engine := e.(positionBars := e.positionBars[p.id := 0],
                      positionOrders := e.positionOrders[p.id := order.orderId], nextId := e.nextId + 1),
         collected := l.collected + [Event(tick.time, OpenedEvent(p))]),
      PositionOpened(p, Notional(p) + OpeningFee(cfg, p)))
  }

  function CloseStep(cfg: Config, l: Ledger, p: Position, exitPrice: real, reason: ExitReason, time: int): Ledger {
    var e := l.engine;
    var pnl := ClosingPnl(cfg, p, exitPrice);
    Issue(
      l.(engine := e.(positionBars := e.positionBars - {p.id}, positionOrders := e.positionOrders - {p.id}),
         collected := l.collected + [Event(time, ClosedEvent(p.id, pnl, reason, exitPrice, BarsHeld(e, p.id)))]),
      PositionClosed(p.id, pnl))
  }

  lemma CommitOpening(cfg: Config, l: Ledger, b: Batch, order: PendingEntry, tick: Tick, useNextOpen: bool)
    ensures Commit(l, Opening(cfg, b, order, tick, useNextOpen)) == OpenStep(cfg, Commit(l, b), order, tick, useNextOpen)
  {
    var after := Opening(cfg, b, order, tick, useNextOpen);
    var n, m := |b.events|, |b.transitions|;
    ApplyAllSnoc(l.store, b.transitions, after.transitions[m]);
    assert l.collected + (b.events + [after.events[n]]) == (l.collected + b.events) + [after.events[n]];
    assert l.trail + (b.transitions + [after.transitions[m]]) == (l.trail + b.transitions) + [after.transitions[m]];
  }

  lemma CommitClosing(cfg: Config, l: Ledger, b: Batch, p: Position, price: real, reason: ExitReason, time: int)
    ensures Commit(l, Closing(cfg, b, p, price, reason, time)) == CloseStep(cfg, Commit(l, b), p, price, reason, time)
  {
    var after := Closing(cfg, b, p, price, reason, time);
    var n, m := |b.events|, |b.transitions|;
    ApplyAllSnoc(l.store, b.transitions, after.transitions[m]);
    assert l.collected + (b.events + [after.events[n]]) == (l.collected + b.events) + [after.events[n]];
    assert l.trail + (b.transitions + [after.transitions[m]]) == (l.trail + b.transitions) + [after.transitions[m]];
  }

  lemma CommitIdle(l: Ledger)
    ensures Commit(l, Idle(l.engine)) == l
  {
    assert l.collected + [] == l.collected && l.trail + [] == l.trail;
  }

  // ---------------------------------------------------------------- history

  lemma IssueKeepsHistory(start: Store, l: Ledger, t: Transition)
    requires HistoryHolds(start, l) && Issuable(l.store, t)
    ensures HistoryHolds(start, Issue(l, t))
  {
    ApplyAllSnoc(start, l.trail, t);
    assert (l.trail + [t])[..|l.trail|] == l.trail;
  }

  lemma IdsSnoc(ps: seq<Position>, p: Position)
    ensures Ids(ps + [p]) == Ids(ps) + {p.id}
  {
    forall id | id in Ids(ps) + {p.id} ensures id in Ids(ps + [p]) {
      if id == p.id {
        assert (ps + [p])[|ps|] == p;
      } else {
        var q :| q in ps && q.id == id;
        assert q in ps + [p];
      }
    }
  }

  lemma IdsWithout(ps: seq<Position>, id: Id)
    ensures Ids(Without(ps, id)) == Ids(ps) - {id}
  {
    WithoutProperties(ps, id);
  }

  lemma OpenKeepsTables(cfg: Config, start: Store, l: Ledger, order: PendingEntry, tick: Tick, useNextOpen: bool)
    requires HistoryHolds(start, l) && TablesAgree(l)
    ensures
      var after := OpenStep(cfg, l, order, tick, useNextOpen);
      HistoryHolds(start, after) && TablesAgree(after)
  {
    var p := NewPosition(cfg, l.engine, order, tick, useNextOpen);
    assert p.id !in Ids(Open(l));
    StepKeepsDistinct(l.store, PositionOpened(p, Notional(p) + OpeningFee(cfg, p)));
    IssueKeepsHistory(start, l, PositionOpened(p, Notional(p) + OpeningFee(cfg, p)));
    IdsSnoc(Open(l), p);
  }

  lemma CloseKeepsTables(
    cfg: Config, start: Store, l: Ledger, p: Position, price: real, reason: ExitReason, time: int)
    requires HistoryHolds(start, l) && TablesAgree(l)
    ensures
      var after := CloseStep(cfg, l, p, price, reason, time);
      HistoryHolds(start, after) && TablesAgree(after)
  {
    var t := PositionClosed(p.id, ClosingPnl(cfg, p, price));
    StepKeepsDistinct(l.store, t);
    IssueKeepsHistory(start, l, t);
    IdsWithout(Open(l), p.id);
  }

  // ---------------------------------------------------------------- the events follow

  lemma OnceAfterOpening(events: seq<Event>, openIds: set<Id>, nextId: Id, e: Event)
    requires OnceEach(events, openIds, nextId) && e.kind.OpenedEvent? && e.kind.position.id == nextId
    ensures OnceEach(events + [e], openIds + {nextId}, nextId + 1)
  {
    assert (events + [e])[..|events|] == events;
  }

  lemma OnceAfterClosing(events: seq<Event>, openIds: set<Id>, nextId: Id, e: Event)
    requires OnceEach(events, openIds, nextId) && e.kind.ClosedEvent? && e.kind.positionId in openIds
    ensures OnceEach(events + [e], openIds - {e.kind.positionId}, nextId)
  {
    assert (events + [e])[..|events|] == events;
  }

  lemma AbsorbedSnoc(events: seq<Event>, e: Event)
    ensures Absorbed(events + [e]) == Absorb(Absorbed(events), e)
  {
    assert (events + [e])[..|events|] == events;
  }

  lemma EmittedSnoc(l: Ledger, e: Event)
    ensures l.log + (l.collected + [e]) == Emitted(l) + [e]
  {
  }

  lemma {:induction false} SetNewLot(lots: seq<Lot>, lot: Lot)
    requires forall x | x in lots :: x.id != lot.id
    ensures SetLot(lots, lot) == lots + [lot]
  {
    if lots != [] {
      SetNewLot(lots[1..], lot);
      assert lots == [lots[0]] + lots[1..];
    }
  }

  lemma {:induction false} LotsFollow(ps: seq<Position>)
    ensures |LotsOf(ps)| == |ps| && forall i | 0 <= i < |ps| :: LotsOf(ps)[i] == LotOf(ps[i])
  {
    if ps != [] {
      LotsFollow(ps[..|ps| - 1]);
    }
  }

  lemma {:induction false} PopFollows(ps: seq<Position>, id: Id)
    ensures PopLot(LotsOf(ps), id) == LotsOf(Without(ps, id))
  {
    if ps != [] {
      var n := |ps| - 1;
      PopFollows(ps[..n], id);
      assert LotsOf(ps)[..|LotsOf(ps)| - 1] == LotsOf(ps[..n]);
      if ps[n].id != id {
        var w := Without(ps[..n], id);
        assert (w + [ps[n]])[..|w|] == w;
      } else {
        assert Without(ps, id) == Without(ps[..n], id);
        assert PopLot(LotsOf(ps), id) == PopLot(LotsOf(ps[..n]), id);
      }
    }
  }

  lemma OpenedLots(ps: seq<Position>, p: Position)
    requires p.id !in Ids(ps)
    ensures SetLot(LotsOf(ps), LotOf(p)) == LotsOf(ps + [p])
  {
    LotsFollow(ps);
    forall x | x in LotsOf(ps) ensures x.id != p.id {
      var i :| 0 <= i < |ps| && x == LotsOf(ps)[i];
      assert ps[i].id in Ids(ps);
    }
    SetNewLot(LotsOf(ps), LotOf(p));
    assert (ps + [p])[..|ps|] == ps;
  }

  lemma OpenKeepsEvents(cfg: Config, l: Ledger, order: PendingEntry, tick: Tick, useNextOpen: bool)
    requires TablesAgree(l) && EachClosedOnce(l) && EventsReplay(l)
    ensures EachClosedOnce(OpenStep(cfg, l, order, tick, useNextOpen))
    ensures EventsReplay(OpenStep(cfg, l, order, tick, useNextOpen))
  {
    var p := NewPosition(cfg, l.engine, order, tick, useNextOpen);
    var e := Event(tick.time, OpenedEvent(p));
    EmittedSnoc(l, e);
    OnceAfterOpening(Emitted(l), Ids(Open(l)), l.engine.nextId, e);
    IdsSnoc(Open(l), p);
    AbsorbedSnoc(Emitted(l), e);
    OpenedLots(Open(l), p);
  }

  lemma CloseKeepsEvents(cfg: Config, l: Ledger, p: Position, price: real, reason: ExitReason, time: int)
    requires EachClosedOnce(l) && EventsReplay(l) && p.id in Ids(Open(l))
    ensures EachClosedOnce(CloseStep(cfg, l, p, price, reason, time))
    ensures EventsReplay(CloseStep(cfg, l, p, price, reason, time))
  {
    var e := Event(time, ClosedEvent(p.id, ClosingPnl(cfg, p, price), reason, price, BarsHeld(l.engine, p.id)));
    EmittedSnoc(l, e);
    OnceAfterClosing(Emitted(l), Ids(Open(l)), l.engine.nextId, e);
    IdsWithout(Open(l), p.id);
    AbsorbedSnoc(Emitted(l), e);
    PopFollows(Open(l), p.id);
  }

  // ---------------------------------------------------------------- the batches

  /** Counting a bar touches only the holding-time table. */
  function Counted(l: Ledger, id: Id, held: nat): Ledger {
    l.(engine := l.engine.(positionBars := l.engine.positionBars[id := held]))
  }

  lemma CountKeepsCore(start: Store, l: Ledger, id: Id, held: nat)
    requires Core(start, l) && id in Ids(Open(l))
    ensures Core(start, Counted(l, id, held))
  {
    assert l.engine.positionBars[id := held].Keys == l.engine.positionBars.Keys;
  }

  /** `after` follows `before` by counting bars and closing at most the positions in `ids`. */
  ghost predicate Shrunk(before: Ledger, after: Ledger, ids: set<Id>) {
    && Ids(Open(before)) - ids <= Ids(Open(after))
    && (forall p | p in Open(after) :: p in Open(before))
    && |Open(after)| <= |Open(before)|
    && after.engine.pending == before.engine.pending && after.engine.nextId == before.engine.nextId
    && after.log == before.log && after.signalsDay == before.signalsDay
  }

  lemma CloseStepKeeps(
    cfg: Config, start: Store, l: Ledger, p: Position, price: real, reason: ExitReason, time: int)
    requires Core(start, l) && p.id in Ids(Open(l))
    requires cfg.maxBarsInTrade >= 1 ==>
               forall id | id in l.engine.positionBars && id != p.id :: l.engine.positionBars[id] < cfg.maxBarsInTrade
    ensures
      var after := CloseStep(cfg, l, p, price, reason, time);
      Inv(cfg, start, after) && Shrunk(l, after, {p.id}) && Ids(Open(after)) == Ids(Open(l)) - {p.id}
  {
    CloseKeepsTables(cfg, start, l, p, price, reason, time);
    CloseKeepsEvents(cfg, l, p, price, reason, time);
    IdsWithout(Open(l), p.id);
    WithoutShrinks(Open(l), p.id);
    WithoutProperties(Open(l), p.id);
  }

  lemma StayIsShort(
    cfg: Config, p: Position, bar: Bar, held: int, approvedSide: Option<OrderSide>, checkTimeout: bool)
    requires CheckExit(cfg, p, bar, held, approvedSide, checkTimeout) == Stay
    ensures checkTimeout ==> held < cfg.maxBarsInTrade
  {
  }

  lemma CountStepKeeps(cfg: Config, start: Store, l: Ledger, id: Id, held: nat)
    requires Inv(cfg, start, l) && id in Ids(Open(l))
    ensures Core(start, Counted(l, id, held)) && Shrunk(l, Counted(l, id, held), {})
    ensures held < cfg.maxBarsInTrade ==> HeldBriefly(cfg, Counted(l, id, held))
  {
    CountKeepsCore(start, l, id, held);
  }

  lemma ShrunkThen(a: Ledger, b: Ledger, c: Ledger, first: set<Id>, second: set<Id>)
    requires Shrunk(a, b, first) && Shrunk(b, c, second)
    ensures Shrunk(a, c, first + second)
  {
  }

  /** ExitStep on the whole ledger: engine, store and log move together. */
  function StepExit(
    cfg: Config, l: Ledger, p: Position, tick: Tick, approvedSide: Option<OrderSide>, incrementBars: bool
  ): Ledger
  {
    if p.symbol != tick.symbol then l
    else
      var held := BarsHeld(l.engine, p.id) + if incrementBars then 1 else 0;
      var counted := if incrementBars then Counted(l, p.id, held) else l;
      match CheckExit(cfg, p, tick.bar, held, approvedSide, incrementBars)
      case Stay => counted
      case Leave(reason, price) => CloseStep(cfg, counted, p, price, reason, tick.time)
  }

  /** Counting a bar in the batch is counting it in the ledger. */
  lemma CommitCounted(l: Ledger, b: Batch, id: Id, held: nat)
    ensures Commit(l, b.(engine := b.engine.(positionBars := b.engine.positionBars[id := held])))
            == Counted(Commit(l, b), id, held)
  {
  }

  lemma CommitExit(
    cfg: Config, l: Ledger, b: Batch, p: Position, tick: Tick, approvedSide: Option<OrderSide>, incrementBars: bool)
    ensures Commit(l, ExitStep(cfg, b, p, tick, approvedSide, incrementBars))
            == StepExit(cfg, Commit(l, b), p, tick, approvedSide, incrementBars)
  {
    if p.symbol == tick.symbol {
      var held := BarsHeld(b.engine, p.id) + if incrementBars then 1 else 0;
      var counted :=
        if incrementBars then b.(engine := b.engine.(positionBars := b.engine.positionBars[p.id := held])) else b;
      CommitCounted(l, b, p.id, held);
      var exit := CheckExit(cfg, p, tick.bar, held, approvedSide, incrementBars);
      var stepped := ExitStep(cfg, b, p, tick, approvedSide, incrementBars);
      if exit.Leave? {
        assert stepped == Closing(cfg, counted, p, exit.price, exit.reason, tick.time);
        CommitClosing(cfg, l, counted, p, exit.price, exit.reason, tick.time);
      } else {
        assert stepped == counted;
      }
    }
  }

  lemma LeaveKeeps(
    cfg: Config, start: Store, l: Ledger, held: nat, incrementBars: bool, after: Ledger,
    p: Position, price: real, reason: ExitReason, time: int)
    requires Inv(cfg, start, l) && p.id in Ids(Open(l))
    requires after == CloseStep(cfg, if incrementBars then Counted(l, p.id, held) else l, p, price, reason, time)
    ensures Inv(cfg, start, after) && Shrunk(l, after, {p.id})
  {
    if incrementBars {
      CountStepKeeps(cfg, start, l, p.id, held);
      CloseStepKeeps(cfg, start, Counted(l, p.id, held), p, price, reason, time);
      ShrunkThen(l, Counted(l, p.id, held), after, {}, {p.id});
      assert {} + {p.id} == {p.id};
    } else {
      CloseStepKeeps(cfg, start, l, p, price, reason, time);
    }
  }

  lemma StayKeeps(
    cfg: Config, start: Store, l: Ledger, p: Position, held: nat, incrementBars: bool, counted: Ledger)
    requires Inv(cfg, start, l) && p.id in Ids(Open(l)) && (incrementBars ==> held < cfg.maxBarsInTrade)
    requires counted == if incrementBars then Counted(l, p.id, held) else l
    ensures Inv(cfg, start, counted) && Shrunk(l, counted, {p.id})
  {
    if incrementBars {
      CountStepKeeps(cfg, start, l, p.id, held);
    }
  }

  lemma MatchingExitKeeps(
    cfg: Config, start: Store, l: Ledger, p: Position, tick: Tick,
    approvedSide: Option<OrderSide>, incrementBars: bool, held: nat, exit: Exit, after: Ledger)
    requires Inv(cfg, start, l) && p.id in Ids(Open(l))
    requires exit == CheckExit(cfg, p, tick.bar, held, approvedSide, incrementBars)
    requires var counted := if incrementBars then Counted(l, p.id, held) else l;
             after == if exit.Leave? then CloseStep(cfg, counted, p, exit.price, exit.reason, tick.time) else counted
    ensures Inv(cfg, start, after) && Shrunk(l, after, {p.id})
  {
    if exit.Leave? {
      LeaveKeeps(cfg, start, l, held, incrementBars, after, p, exit.price, exit.reason, tick.time);
    } else {
      StayIsShort(cfg, p, tick.bar, held, approvedSide, incrementBars);
      StayKeeps(cfg, start, l, p, held, incrementBars, after);
    }
  }

  lemma StepExitKeeps(
    cfg: Config, start: Store, l: Ledger, p: Position, tick: Tick,
    approvedSide: Option<OrderSide>, incrementBars: bool, after: Ledger)
    requires Inv(cfg, start, l) && p.id in Ids(Open(l))
    requires after == StepExit(cfg, l, p, tick, approvedSide, incrementBars)
    ensures Inv(cfg, start, after) && Shrunk(l, after, {p.id})
  {
    if p.symbol == tick.symbol {
      var held := BarsHeld(l.engine, p.id) + if incrementBars then 1 else 0;
      var exit := CheckExit(cfg, p, tick.bar, held, approvedSide, incrementBars);
      MatchingExitKeeps(cfg, start, l, p, tick, approvedSide, incrementBars, held, exit, after);
    }
  }

  lemma {:induction false} WithoutShrinks(ps: seq<Position>, id: Id)
    ensures |Without(ps, id)| <= |ps|
  {
    if ps != [] {
      WithoutShrinks(ps[..|ps| - 1], id);
    }
  }
}
