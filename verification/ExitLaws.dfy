/**
 Which positions a cycle closes, at what price, and what a close pays. Everything here is said of the
 position, the bar and the event, not of the rules the engine evaluates.
 */
module ExitLaws {
  import opened Wrappers
  import opened StateStore
  import opened Pricing
  import opened Engine
  import opened Runtime
  import opened LedgerLaws
  import opened CycleLaws
  import opened HoldingTime

  // ---------------------------------------------------------------- what a bar does to a position

  /** The bar reached the stop: a long's from above, a short's from below. */
  predicate StopTouched(p: Position, bar: Bar) {
    p.stopLoss.Some? && if p.side == Long then bar.low <= p.stopLoss.value else bar.high >= p.stopLoss.value
  }

  predicate TargetTouched(p: Position, bar: Bar) {
    p.takeProfit.Some? && if p.side == Long then bar.high >= p.takeProfit.value else bar.low <= p.takeProfit.value
  }

  predicate Opposes(p: Position, side: OrderSide) { (p.side == Long) != (side == Buy) }

  /** Whether a position has to go: on the first look by the bar and its age, on the second by the signal. */
  predicate Leaves(cfg: Config, p: Position, bar: Bar, held: int, side: Option<OrderSide>) {
    if side.Some? then Opposes(p, side.value)
    else StopTouched(p, bar) || TargetTouched(p, bar) || held >= cfg.maxBarsInTrade
  }

  /** A stop goes before a target and both before time; a timeout and a signal take the close. */
  predicate LeavesAt(p: Position, bar: Bar, side: Option<OrderSide>, reason: ExitReason, price: real) {
    if side.Some? then reason == SignalExit && price == bar.close
    else if StopTouched(p, bar) then reason == StopLoss && p.stopLoss == Some(price)
    else if TargetTouched(p, bar) then reason == TakeProfit && p.takeProfit == Some(price)
    else reason == Timeout && price == bar.close
  }

  function Direction(side: PositionSide): real { if side == Long then 1.0 else -1.0 }

  /** What a trade earns: the move in its direction, less the exit fee on what is paid or received. */
  function Earned(cfg: Config, p: Position, price: real): real {
    Direction(p.side) * p.quantity * (price - p.entryPrice) - price * p.quantity * FeeRate(cfg)
  }

  predicate CloseOf(cfg: Config, p: Position, e: Event) {
    e.kind.ClosedEvent? && e.kind.positionId == p.id && e.kind.pnl == Earned(cfg, p, e.kind.exitPrice)
  }

  /** The event of a position closed by a look at the bar. */
  predicate ClosedBy(cfg: Config, p: Position, tick: Tick, held: nat, side: Option<OrderSide>, e: Event) {
    && CloseOf(cfg, p, e) && e.time == tick.time && e.kind.barsHeld == held
    && LeavesAt(p, tick.bar, side, e.kind.reason, e.kind.exitPrice)
  }

  ghost predicate ClosedIn(
    cfg: Config, events: seq<Event>, p: Position, tick: Tick, held: nat, side: Option<OrderSide>)
  {
    exists e :: e in events && ClosedBy(cfg, p, tick, held, side, e)
  }

  lemma ExitIs(cfg: Config, p: Position, bar: Bar, held: int, side: Option<OrderSide>)
    ensures var exit := CheckExit(cfg, p, bar, held, side, side.None?);
            && (exit.Leave? <==> Leaves(cfg, p, bar, held, side))
            && (exit.Leave? ==> LeavesAt(p, bar, side, exit.reason, exit.price))
  {
  }

  lemma CloseEarns(cfg: Config, p: Position, price: real)
    ensures ClosingPnl(cfg, p, price) == Earned(cfg, p, price)
  {
    if p.side == Short {
      assert (p.entryPrice - price) * p.quantity == Direction(p.side) * p.quantity * (price - p.entryPrice);
    }
    assert price * p.quantity * cfg.feeBps / 10000.0 == price * p.quantity * FeeRate(cfg);
  }

  // ---------------------------------------------------------------- one look at one position

  /** The age a look counts: one bar more on the first, as it stands on the second. */
  function HeldAt(e: EngineState, p: Position, side: Option<OrderSide>): nat {
    BarsHeld(e, p.id) + if side.None? then 1 else 0
  }

  /** The position is looked at and has to go. */
  predicate Goes(cfg: Config, e: EngineState, p: Position, tick: Tick, side: Option<OrderSide>) {
    p.symbol == tick.symbol && Leaves(cfg, p, tick.bar, HeldAt(e, p, side), side)
  }

  lemma CloseStepTells(
    cfg: Config, l: Ledger, p: Position, price: real, reason: ExitReason, tick: Tick, held: nat,
    side: Option<OrderSide>, after: Ledger) returns (e: Event)
    requires after == CloseStep(cfg, l, p, price, reason, tick.time) && BarsHeld(l.engine, p.id) == held
    requires LeavesAt(p, tick.bar, side, reason, price)
    ensures after.collected == l.collected + [e] && ClosedBy(cfg, p, tick, held, side, e)
    ensures Open(after) == Without(Open(l), p.id)
    ensures forall id | id != p.id :: BarsHeld(after.engine, id) == BarsHeld(l.engine, id)
  {
    CloseEarns(cfg, p, price);
    e := Event(tick.time, ClosedEvent(p.id, ClosingPnl(cfg, p, price), reason, price, held));
  }

  lemma StepOutcome(cfg: Config, l: Ledger, p: Position, tick: Tick, side: Option<OrderSide>, after: Ledger)
    returns (events: seq<Event>)
    requires after == StepExit(cfg, l, p, tick, side, side.None?)
    ensures after.collected == l.collected + events
    ensures if Goes(cfg, l.engine, p, tick, side)
            then |events| == 1 && ClosedBy(cfg, p, tick, HeldAt(l.engine, p, side), side, events[0])
                 && Open(after) == Without(Open(l), p.id)
            else events == [] && Open(after) == Open(l)
    ensures forall id | id != p.id :: BarsHeld(after.engine, id) == BarsHeld(l.engine, id)
  {
    events := [];
    if p.symbol == tick.symbol {
      var held := HeldAt(l.engine, p, side);
      var counted := if side.None? then Counted(l, p.id, held) else l;
      var exit := CheckExit(cfg, p, tick.bar, held, side, side.None?);
      ExitIs(cfg, p, tick.bar, held, side);
      if exit.Leave? {
        var e := CloseStepTells(cfg, counted, p, exit.price, exit.reason, tick, held, side, after);
        events := [e];
      }
    }
  }

  // ---------------------------------------------------------------- one look at all of them

  /** What a look makes of a position that was open before it. */
  ghost predicate Outcome(
    cfg: Config, before: Ledger, after: Ledger, looked: bool, p: Position, tick: Tick, side: Option<OrderSide>)
  {
    if looked && Goes(cfg, before.engine, p, tick, side)
    then p.id !in Ids(Open(after)) && ClosedIn(cfg, after.collected, p, tick, HeldAt(before.engine, p, side), side)
    else p in Open(after)
  }

  lemma OtherStays(
    cfg: Config, before: Ledger, mid: Ledger, after: Ledger, last: Position, events: seq<Event>,
    looked: bool, p: Position, tick: Tick, side: Option<OrderSide>)
    requires Outcome(cfg, before, mid, looked, p, tick, side) && p.id != last.id
    requires after.collected == mid.collected + events
    requires Open(after) == Open(mid) || Open(after) == Without(Open(mid), last.id)
    ensures Outcome(cfg, before, after, looked, p, tick, side)
  {
    WithoutProperties(Open(mid), last.id);
    if looked && Goes(cfg, before.engine, p, tick, side) {
      var e :| e in mid.collected && ClosedBy(cfg, p, tick, HeldAt(before.engine, p, side), side, e);
      assert e in after.collected;
    }
  }

  lemma LastGoes(
    cfg: Config, before: Ledger, mid: Ledger, after: Ledger, p: Position, events: seq<Event>,
    tick: Tick, side: Option<OrderSide>)
    requires p in Open(mid) && BarsHeld(mid.engine, p.id) == BarsHeld(before.engine, p.id)
    requires after.collected == mid.collected + events
    requires if Goes(cfg, mid.engine, p, tick, side)
             then |events| == 1 && ClosedBy(cfg, p, tick, HeldAt(mid.engine, p, side), side, events[0])
                  && Open(after) == Without(Open(mid), p.id)
             else Open(after) == Open(mid)
    ensures Outcome(cfg, before, after, true, p, tick, side)
  {
    WithoutProperties(Open(mid), p.id);
    if Goes(cfg, mid.engine, p, tick, side) {
      assert events[0] in events;
      assert events[0] in after.collected;
    }
  }

  /** The loop over `ps`, for any one position that is open as it starts. */
  lemma {:induction false} SweepOutcome(
    cfg: Config, l: Ledger, b: Batch, ps: seq<Position>, tick: Tick, side: Option<OrderSide>,
    mid: Ledger, after: Ledger, p: Position)
    requires mid == Commit(l, b) && Distinct(Open(mid)) && p in Open(mid)
    requires Distinct(ps) && forall q | q in ps :: q in Open(mid)
    requires after == Commit(l, ExitSweep(cfg, b, ps, tick, side, side.None?))
    ensures Outcome(cfg, mid, after, p in ps, p, tick, side)
    ensures p !in ps ==> BarsHeld(after.engine, p.id) == BarsHeld(mid.engine, p.id)
  {
    if ps != [] {
      var n := |ps| - 1;
      var swept := ExitSweep(cfg, b, ps[..n], tick, side, side.None?);
      var before := Commit(l, swept);
      LastIsOther(ps);
      InitOrLast(ps, p);
      SweepOutcome(cfg, l, b, ps[..n], tick, side, mid, before, p);
      CommitExit(cfg, l, swept, ps[n], tick, side, side.None?);
      var events := StepOutcome(cfg, before, ps[n], tick, side, after);
      if p == ps[n] {
        LastGoes(cfg, mid, before, after, p, events, tick, side);
      } else {
        SameIdSame(Open(mid), p, ps[n]);
        OtherStays(cfg, mid, before, after, ps[n], events, p in ps, p, tick, side);
      }
    }
  }

  lemma InitOrLast<T>(s: seq<T>, x: T)
    requires s != []
    ensures x in s <==> x in s[..|s| - 1] || x == s[|s| - 1]
  {
    assert s == s[..|s| - 1] + [s[|s| - 1]];
  }

  lemma SameIdSame(ps: seq<Position>, p: Position, q: Position)
    requires Distinct(ps) && p in ps && q in ps && p != q
    ensures p.id != q.id
  {
  }

  /** The close of some position that was looked at and had to go. */
  ghost predicate OfSome(
    cfg: Config, before: Ledger, ps: seq<Position>, tick: Tick, side: Option<OrderSide>, e: Event)
  {
    exists p :: p in ps && Goes(cfg, before.engine, p, tick, side)
                && ClosedBy(cfg, p, tick, HeldAt(before.engine, p, side), side, e)
  }

  /** And nothing else is published by the loop over `ps`, which are some of `looked`. */
  lemma {:induction false} SweepClosesOnly(
    cfg: Config, l: Ledger, b: Batch, looked: seq<Position>, ps: seq<Position>, tick: Tick, side: Option<OrderSide>,
    mid: Ledger, after: Ledger, e: Event)
    requires mid == Commit(l, b) && Distinct(Open(mid)) && forall q | q in looked :: q in Open(mid)
    requires Distinct(ps) && forall q | q in ps :: q in looked
    requires after == Commit(l, ExitSweep(cfg, b, ps, tick, side, side.None?)) && e in after.collected
    ensures e in mid.collected || OfSome(cfg, mid, looked, tick, side, e)
  {
    if ps != [] {
      var n := |ps| - 1;
      var swept := ExitSweep(cfg, b, ps[..n], tick, side, side.None?);
      var before := Commit(l, swept);
      LastIsOther(ps);
      NotInInit(ps);
      SweepOutcome(cfg, l, b, ps[..n], tick, side, mid, before, ps[n]);
      CommitExit(cfg, l, swept, ps[n], tick, side, side.None?);
      var events := StepOutcome(cfg, before, ps[n], tick, side, after);
      if e in before.collected {
        SweepClosesOnly(cfg, l, b, looked, ps[..n], tick, side, mid, before, e);
      } else {
        assert e in events;
        LastIsOfSome(cfg, mid, before, looked, ps[n], events, tick, side, e);
      }
    }
  }

  lemma LastIsOfSome(
    cfg: Config, before: Ledger, mid: Ledger, ps: seq<Position>, p: Position, events: seq<Event>,
    tick: Tick, side: Option<OrderSide>, e: Event)
    requires p in ps && BarsHeld(mid.engine, p.id) == BarsHeld(before.engine, p.id) && e in events
    requires if Goes(cfg, mid.engine, p, tick, side)
             then |events| == 1 && ClosedBy(cfg, p, tick, HeldAt(mid.engine, p, side), side, events[0])
             else events == []
    ensures OfSome(cfg, before, ps, tick, side, e)
  {
  }

  lemma NotInInit(ps: seq<Position>)
    requires Distinct(ps) && ps != []
    ensures ps[|ps| - 1] !in ps[..|ps| - 1]
  {
  }

  // ---------------------------------------------------------------- the two looks of a cycle

  lemma FillsKeepCounters(cfg: Config, start: Store, l: Ledger, tick: Tick, mid: Ledger, p: Position)
    requires Inv(cfg, start, l) && p in Open(l) && mid == Commit(l, PendingFills(cfg, Idle(l.engine), tick))
    ensures BarsHeld(mid.engine, p.id) == BarsHeld(l.engine, p.id)
  {
    assert p.id in Ids(Open(l));
    PendingAdvances(cfg, l.engine, l.engine.pending, tick);
  }

  /** Fills put new positions behind those that were open. */
  lemma {:induction false} FillsAppend(cfg: Config, l: Ledger, ps: seq<PendingEntry>, tick: Tick, after: Ledger)
    requires after == Commit(l, PendingSweep(cfg, Idle(l.engine), ps, tick).0)
    ensures Open(l) <= Open(after)
    ensures forall e | e in after.collected :: e in l.collected || e.kind.OpenedEvent?
  {
    if ps == [] {
      CommitIdle(l);
    } else {
      var n := |ps| - 1;
      var swept := PendingSweep(cfg, Idle(l.engine), ps[..n], tick);
      FillsAppend(cfg, l, ps[..n], tick, Commit(l, swept.0));
      CommitOpening(cfg, l, swept.0, ps[n], tick, true);
    }
  }

  lemma FillsKeepOpen(cfg: Config, start: Store, l: Ledger, tick: Tick, mid: Ledger)
    requires Inv(cfg, start, l) && mid == Commit(l, PendingFills(cfg, Idle(l.engine), tick))
    ensures Inv(cfg, start, mid) && Open(l) <= Open(mid)
    ensures forall e | e in mid.collected :: e in l.collected || e.kind.OpenedEvent?
  {
    PendingFillsKeep(cfg, start, l, tick, mid);
    FillsAppend(cfg, l, l.engine.pending, tick, Commit(l, PendingSweep(cfg, Idle(l.engine), l.engine.pending, tick).0));
  }

  lemma SameCounterSameOutcome(
    cfg: Config, before: Ledger, mid: Ledger, after: Ledger, p: Position, tick: Tick, side: Option<OrderSide>)
    requires BarsHeld(mid.engine, p.id) == BarsHeld(before.engine, p.id)
    requires Outcome(cfg, mid, after, true, p, tick, side)
    ensures Outcome(cfg, before, after, true, p, tick, side)
  {
  }

  /** From the start of a cycle to the end of its first look, for any one position open at the start. */
  lemma FirstLook(cfg: Config, start: Store, l: Ledger, tick: Tick, after: Ledger, p: Position)
    requires Inv(cfg, start, l) && after == PreDecision(cfg, l, tick) && p in Open(l)
    ensures Outcome(cfg, l, after, true, p, tick, None)
  {
    var filled := PendingFills(cfg, Idle(l.engine), tick);
    var mid := Commit(l, filled);
    FillsKeepOpen(cfg, start, l, tick, mid);
    FillsKeepCounters(cfg, start, l, tick, mid, p);
    SweepOutcome(cfg, l, filled, Open(l), tick, None, mid, after, p);
    SameCounterSameOutcome(cfg, l, mid, after, p, tick, None);
  }

  /** A position filled on this bar is not looked at. */
  lemma FilledStays(cfg: Config, start: Store, l: Ledger, tick: Tick, mid: Ledger, after: Ledger, p: Position)
    requires Inv(cfg, start, l) && mid == Commit(l, PendingFills(cfg, Idle(l.engine), tick))
    requires after == PreDecision(cfg, l, tick) && p in Open(mid) && p !in Open(l)
    ensures p in Open(after)
  {
    FillsKeepOpen(cfg, start, l, tick, mid);
    SweepOutcome(cfg, l, PendingFills(cfg, Idle(l.engine), tick), Open(l), tick, None, mid, after, p);
  }

  lemma {:induction false} SameCounterSameClose(
    cfg: Config, before: Ledger, mid: Ledger, ps: seq<Position>, tick: Tick, side: Option<OrderSide>, e: Event)
    requires forall p | p in ps :: BarsHeld(mid.engine, p.id) == BarsHeld(before.engine, p.id)
    requires OfSome(cfg, mid, ps, tick, side, e)
    ensures OfSome(cfg, before, ps, tick, side, e)
  {
    var p :| p in ps && Goes(cfg, mid.engine, p, tick, side)
             && ClosedBy(cfg, p, tick, HeldAt(mid.engine, p, side), side, e);
    assert Goes(cfg, before.engine, p, tick, side);
  }

  /** The closes of the first look are of positions that were open before it and had to go. */
  lemma FirstLookCloses(cfg: Config, start: Store, l: Ledger, tick: Tick, after: Ledger, e: Event)
    requires Inv(cfg, start, l) && after == PreDecision(cfg, l, tick) && e in after.collected && e.kind.ClosedEvent?
    ensures e in l.collected || OfSome(cfg, l, Open(l), tick, None, e)
  {
    var filled := PendingFills(cfg, Idle(l.engine), tick);
    var mid := Commit(l, filled);
    FillsKeepOpen(cfg, start, l, tick, mid);
    SweepClosesOnly(cfg, l, filled, Open(l), Open(l), tick, None, mid, after, e);
    if e !in l.collected {
      forall p | p in Open(l) ensures BarsHeld(mid.engine, p.id) == BarsHeld(l.engine, p.id) {
        FillsKeepCounters(cfg, start, l, tick, mid, p);
      }
      SameCounterSameClose(cfg, l, mid, Open(l), tick, None, e);
    }
  }

  lemma SecondLookCloses(cfg: Config, start: Store, l: Ledger, tick: Tick, decision: Decision, after: Ledger, e: Event)
    requires Inv(cfg, start, l) && after == SignalExits(cfg, l, tick, decision) && e in after.collected
    ensures e in l.collected
            || (Signalled(decision) && OfSome(cfg, l, Open(l), tick, Some(decision.finalSignal.value.side), e))
  {
    if Signalled(decision) {
      CommitIdle(l);
      SweepClosesOnly(cfg, l, Idle(l.engine), Open(l), Open(l), tick, Some(decision.finalSignal.value.side), l, after, e);
    }
  }

  predicate Signalled(decision: Decision) { decision.approved && decision.finalSignal.Some? }

  /** The second look: an approved signal closes what opposes it in its symbol, and nothing else. */
  lemma SecondLook(cfg: Config, start: Store, l: Ledger, tick: Tick, decision: Decision, after: Ledger, p: Position)
    requires Inv(cfg, start, l) && after == SignalExits(cfg, l, tick, decision) && p in Open(l)
    ensures if Signalled(decision) then Outcome(cfg, l, after, true, p, tick, Some(decision.finalSignal.value.side))
            else after == l
  {
    if Signalled(decision) {
      CommitIdle(l);
      SweepOutcome(cfg, l, Idle(l.engine), Open(l), tick, Some(decision.finalSignal.value.side), l, after, p);
    }
  }

  /** So what is open after the second look is exactly what it had no reason to close. */
  lemma OpenAfterSignal(cfg: Config, start: Store, l: Ledger, tick: Tick, decision: Decision, after: Ledger)
    requires Inv(cfg, start, l) && after == SignalExits(cfg, l, tick, decision) && Signalled(decision)
    ensures forall p :: p in Open(after)
              <==> p in Open(l) && !(p.symbol == tick.symbol && Opposes(p, decision.finalSignal.value.side))
  {
    CommitIdle(l);
    if Open(l) != [] {
      ExitSweepKeeps(cfg, start, l, Idle(l.engine), Open(l), tick, Some(decision.finalSignal.value.side), false, after);
    }
    forall p ensures p in Open(after)
        <==> p in Open(l) && !(p.symbol == tick.symbol && Opposes(p, decision.finalSignal.value.side))
    {
      if p in Open(l) {
        SecondLook(cfg, start, l, tick, decision, after, p);
        assert p in Open(after) ==> p.id in Ids(Open(after));
      }
    }
  }

  // ---------------------------------------------------------------- a whole cycle

  /** The same position, with whatever running profit the last mark stored. */
  predicate SamePosition(p: Position, q: Position) { q == p.(unrealizedPnl := q.unrealizedPnl) }

  ghost predicate StillOpen(l: Ledger, p: Position) { exists q :: q in Open(l) && SamePosition(p, q) }

  function NewEvents(before: Ledger, after: Ledger): seq<Event> {
    if |before.log| <= |after.log| then after.log[|before.log|..] else []
  }

  predicate SignalledOut(input: CycleInput, p: Position) {
    && Signalled(input.decision) && p.symbol == input.tick.symbol
    && Opposes(p, input.decision.finalSignal.value.side)
  }

  /**
   What a cycle makes of a position that was open before it: stopped, taken at its target or timed out on
   the first look; else closed by an approved opposing signal; else still open, as it was.
   */
  ghost predicate Fate(cfg: Config, before: Ledger, input: CycleInput, after: Ledger, p: Position) {
    var tick := input.tick;
    var held := BarsHeld(before.engine, p.id) + 1;
    if p.symbol == tick.symbol
       && (StopTouched(p, tick.bar) || TargetTouched(p, tick.bar) || held >= cfg.maxBarsInTrade) then
      p.id !in Ids(Open(after)) && ClosedIn(cfg, NewEvents(before, after), p, tick, held, None)
    else if SignalledOut(input, p) then
      p.id !in Ids(Open(after))
      && ClosedIn(cfg, NewEvents(before, after), p, tick, held, Some(input.decision.finalSignal.value.side))
    else StillOpen(after, p)
  }

  lemma MarkedIsSame(l: Ledger, tick: Tick, after: Ledger, p: Position) returns (q: Position)
    requires after == Mark(l, tick) && p in Open(l)
    ensures q in Open(after) && SamePosition(p, q) && after.engine == l.engine && after.collected == l.collected
  {
    var ps, prices := Open(l), map[tick.symbol := tick.bar.close];
    RevalueAllAt(ps, prices);
    var i :| 0 <= i < |ps| && ps[i] == p;
    q := RevalueAll(ps, prices)[i];
  }

  lemma MarkedWas(l: Ledger, tick: Tick, after: Ledger, q: Position) returns (p: Position)
    requires after == Mark(l, tick) && q in Open(after)
    ensures p in Open(l) && SamePosition(p, q)
  {
    var ps, prices := Open(l), map[tick.symbol := tick.bar.close];
    RevalueAllAt(ps, prices);
    var i :| 0 <= i < |Open(after)| && Open(after)[i] == q;
    p := ps[i];
  }

  lemma ActAppends(cfg: Config, l: Ledger, tick: Tick, decision: Decision, after: Ledger)
    requires after == Act(cfg, l, tick, decision)
    ensures Open(l) <= Open(after) && l.collected <= after.collected
    ensures forall e | e in after.collected :: e in l.collected || !e.kind.ClosedEvent?
  {
    if decision.approved {
      var b := Execution(cfg, l.engine, decision, l.store, tick);
      if b.transitions != [] {
        var quantity, order := OpeningCase(cfg, l.engine, decision, l.store, tick, b);
        OpeningCommits(cfg, l, order, tick, b, after);
      }
    }
  }

  lemma SameIsClosedAlike(
    cfg: Config, events: seq<Event>, p: Position, q: Position, tick: Tick, held: nat, side: Option<OrderSide>)
    requires SamePosition(p, q) && ClosedIn(cfg, events, q, tick, held, side)
    ensures ClosedIn(cfg, events, p, tick, held, side)
  {
    var e :| e in events && ClosedBy(cfg, q, tick, held, side, e);
    assert ClosedBy(cfg, p, tick, held, side, e);
  }

  lemma MoreEvents(
    cfg: Config, events: seq<Event>, more: seq<Event>, p: Position, tick: Tick, held: nat, side: Option<OrderSide>)
    requires ClosedIn(cfg, events, p, tick, held, side) && forall e | e in events :: e in more
    ensures ClosedIn(cfg, more, p, tick, held, side)
  {
    var e :| e in events && ClosedBy(cfg, p, tick, held, side, e);
  }

  lemma GoneStaysGone(l: Ledger, after: Ledger, id: Id)
    requires Descends(l, after) && id < l.engine.nextId && id !in Ids(Open(l))
    ensures id !in Ids(Open(after))
  {
    assert forall p | p in Open(l) :: p.id in Ids(Open(l));
  }

  /** From the first look of a cycle to its second: the reset, the mark and the signal counted. */
  function Decided(l: Ledger, input: CycleInput): Ledger {
    CountSignal(Mark(DailyReset(l, input.tick.time), input.tick), input.decision)
  }

  lemma DecidedKeeps(cfg: Config, start: Store, l: Ledger, input: CycleInput, after: Ledger)
    requires Inv(cfg, start, l) && after == Decided(l, input)
    ensures Inv(cfg, start, after) && Descends(l, after)
  {
    var l1 := DailyReset(l, input.tick.time);
    DailyResetKeeps(cfg, start, l, input.tick.time, l1);
    var l2 := Mark(l1, input.tick);
    MarkKeeps(cfg, start, l1, input.tick, l2);
    CountSignalKeeps(cfg, start, l2, input.decision, after);
    DescendsThen(l, l1, l2);
    DescendsThen(l, l2, after);
  }

  lemma DecidedFrame(l: Ledger, input: CycleInput, after: Ledger)
    requires after == Decided(l, input)
    ensures after.engine == l.engine && after.collected == l.collected && after.log == l.log
    ensures Open(after) == Open(Mark(l, input.tick))
  {
  }

  /** The second half of a cycle, for a position that is open when the decision falls. */
  ghost predicate LaterFate(cfg: Config, e: EngineState, input: CycleInput, acted: Ledger, p: Position) {
    if SignalledOut(input, p) then
      p.id !in Ids(Open(acted))
      && ClosedIn(cfg, acted.collected, p, input.tick, BarsHeld(e, p.id), Some(input.decision.finalSignal.value.side))
    else StillOpen(acted, p)
  }

  lemma IdsBelow(cfg: Config, start: Store, l: Ledger, after: Ledger, p: Position)
    requires Inv(cfg, start, l) && Descends(l, after) && p in Open(l)
    ensures p.id < l.engine.nextId <= after.engine.nextId
  {
    assert p.id in Ids(Open(l));
  }

  lemma AfterDecision(
    cfg: Config, start: Store, l: Ledger, input: CycleInput, signalled: Ledger, acted: Ledger, p: Position)
    requires Inv(cfg, start, l) && p in Open(l) && signalled == SignalExits(cfg, l, input.tick, input.decision)
    requires acted == Act(cfg, signalled, input.tick, input.decision)
    ensures LaterFate(cfg, l.engine, input, acted, p)
  {
    var tick, decision := input.tick, input.decision;
    SecondLook(cfg, start, l, tick, decision, signalled, p);
    SignalExitsKeep(cfg, start, l, tick, decision, signalled);
    ActAppends(cfg, signalled, tick, decision, acted);
    if SignalledOut(input, p) {
      var side := Some(decision.finalSignal.value.side);
      MoreEvents(cfg, signalled.collected, acted.collected, p, tick, BarsHeld(l.engine, p.id), side);
      IdsBelow(cfg, start, l, signalled, p);
      ActKeeps(cfg, start, signalled, tick, decision, acted);
      GoneStaysGone(signalled, acted, p.id);
    } else {
      assert p in Open(signalled) && p in Open(acted) && SamePosition(p, p);
    }
  }

  lemma AlikeFate(cfg: Config, e: EngineState, input: CycleInput, acted: Ledger, p: Position, q: Position)
    requires SamePosition(p, q) && LaterFate(cfg, e, input, acted, q)
    ensures LaterFate(cfg, e, input, acted, p)
  {
    if SignalledOut(input, p) {
      SameIsClosedAlike(cfg, acted.collected, p, q, input.tick, BarsHeld(e, p.id),
                        Some(input.decision.finalSignal.value.side));
    } else {
      var r :| r in Open(acted) && SamePosition(q, r);
      assert SamePosition(p, r);
    }
  }

  /** What the first look left open meets the second marked, and otherwise as it was. */
  lemma AfterFirstLook(cfg: Config, start: Store, l: Ledger, input: CycleInput, acted: Ledger, p: Position)
    requires Inv(cfg, start, l) && p in Open(l)
    requires acted == Act(cfg, SignalExits(cfg, Decided(l, input), input.tick, input.decision), input.tick, input.decision)
    ensures LaterFate(cfg, l.engine, input, acted, p)
  {
    var decided := Decided(l, input);
    DecidedKeeps(cfg, start, l, input, decided);
    DecidedFrame(l, input, decided);
    var q := MarkedIsSame(l, input.tick, Mark(l, input.tick), p);
    AfterDecision(cfg, start, decided, input, SignalExits(cfg, decided, input.tick, input.decision), acted, q);
    AlikeFate(cfg, l.engine, input, acted, p, q);
  }

  lemma CollectedGrows(cfg: Config, start: Store, l: Ledger, input: CycleInput, acted: Ledger)
    requires Inv(cfg, start, l)
    requires acted == Act(cfg, SignalExits(cfg, Decided(l, input), input.tick, input.decision), input.tick, input.decision)
    ensures forall e | e in l.collected :: e in acted.collected
    ensures Descends(l, acted)
  {
    var decided := Decided(l, input);
    DecidedKeeps(cfg, start, l, input, decided);
    DecidedFrame(l, input, decided);
    var signalled := SignalExits(cfg, decided, input.tick, input.decision);
    SignalExitsKeep(cfg, start, decided, input.tick, input.decision, signalled);
    ActKeeps(cfg, start, signalled, input.tick, input.decision, acted);
    ActAppends(cfg, signalled, input.tick, input.decision, acted);
    DescendsThen(l, decided, signalled);
    DescendsThen(l, signalled, acted);
  }

  lemma PublishedIn(
    cfg: Config, before: Ledger, acted: Ledger, after: Ledger, p: Position, tick: Tick, held: nat,
    side: Option<OrderSide>)
    requires acted.log == before.log && after == Publish(acted, tick)
    requires ClosedIn(cfg, acted.collected, p, tick, held, side)
    ensures ClosedIn(cfg, NewEvents(before, after), p, tick, held, side)
  {
    assert NewEvents(before, after) == [Event(tick.time, CandleReceived(tick.bar.close))] + acted.collected;
    MoreEvents(cfg, acted.collected, NewEvents(before, after), p, tick, held, side);
  }

  /** What the first look leaves open is one bar older. */
  lemma FirstLookCounts(cfg: Config, start: Store, l: Ledger, tick: Tick, after: Ledger, p: Position)
    requires Inv(cfg, start, l) && after == PreDecision(cfg, l, tick)
    requires p in Open(l) && p in Open(after) && p.symbol == tick.symbol
    ensures BarsHeld(after.engine, p.id) == BarsHeld(l.engine, p.id) + 1
  {
    EvaluationAdvances(cfg, start, l, tick, None, true);
    PreDecisionKeeps(cfg, start, l, tick, after);
    assert p.id in Ids(Open(l)) && p.id in Ids(Open(after));
    OneSymbolPerId(Open(l), p, tick.symbol);
  }

  lemma FateByBar(cfg: Config, l: Ledger, input: CycleInput, acted: Ledger, after: Ledger, p: Position)
    requires Goes(cfg, l.engine, p, input.tick, None) && p.id !in Ids(Open(acted))
    requires ClosedIn(cfg, acted.collected, p, input.tick, BarsHeld(l.engine, p.id) + 1, None)
    requires acted.log == l.log && after == Publish(acted, input.tick)
    ensures Fate(cfg, l, input, after, p)
  {
    PublishedIn(cfg, l, acted, after, p, input.tick, BarsHeld(l.engine, p.id) + 1, None);
  }

  lemma FateLater(
    cfg: Config, l: Ledger, early: EngineState, input: CycleInput, acted: Ledger, after: Ledger, p: Position)
    requires !Goes(cfg, l.engine, p, input.tick, None) && LaterFate(cfg, early, input, acted, p)
    requires p.symbol == input.tick.symbol ==> BarsHeld(early, p.id) == BarsHeld(l.engine, p.id) + 1
    requires acted.log == l.log && after == Publish(acted, input.tick)
    ensures Fate(cfg, l, input, after, p)
  {
    if SignalledOut(input, p) {
      PublishedIn(cfg, l, acted, after, p, input.tick, BarsHeld(early, p.id),
                  Some(input.decision.finalSignal.value.side));
    } else {
      var q :| q in Open(acted) && SamePosition(p, q);
      assert q in Open(after);
    }
  }

  lemma CycleFate(
    cfg: Config, start: Store, l: Ledger, input: CycleInput, early: Ledger, acted: Ledger, after: Ledger, p: Position)
    requires Inv(cfg, start, l) && l.collected == [] && p in Open(l)
    requires early == PreDecision(cfg, l, input.tick)
    requires acted
             == Act(cfg, SignalExits(cfg, Decided(early, input), input.tick, input.decision), input.tick, input.decision)
    requires acted.log == l.log && after == Publish(acted, input.tick)
    ensures Fate(cfg, l, input, after, p)
  {
    PreDecisionKeeps(cfg, start, l, input.tick, early);
    FirstLook(cfg, start, l, input.tick, early, p);
    if Goes(cfg, l.engine, p, input.tick, None) {
      CollectedGrows(cfg, start, early, input, acted);
      MoreEvents(cfg, early.collected, acted.collected, p, input.tick, BarsHeld(l.engine, p.id) + 1, None);
      IdsBelow(cfg, start, l, early, p);
      GoneStaysGone(early, acted, p.id);
      FateByBar(cfg, l, input, acted, after, p);
    } else {
      AfterFirstLook(cfg, start, early, input, acted, p);
      if p.symbol == input.tick.symbol {
        FirstLookCounts(cfg, start, l, input.tick, early, p);
      }
      FateLater(cfg, l, early.engine, input, acted, after, p);
    }
  }

  lemma CycleIs(cfg: Config, l: Ledger, input: CycleInput, early: Ledger, acted: Ledger)
    requires early == PreDecision(cfg, l, input.tick)
    requires acted
             == Act(cfg, SignalExits(cfg, Decided(early, input), input.tick, input.decision), input.tick, input.decision)
    ensures Cycle(cfg, l, input) == Publish(acted, input.tick)
  {
  }

  lemma ActedLog(cfg: Config, start: Store, l: Ledger, input: CycleInput, early: Ledger, acted: Ledger)
    requires Inv(cfg, start, l) && early == PreDecision(cfg, l, input.tick)
    requires acted
             == Act(cfg, SignalExits(cfg, Decided(early, input), input.tick, input.decision), input.tick, input.decision)
    ensures acted.log == l.log
  {
    PreDecisionKeeps(cfg, start, l, input.tick, early);
    var decided := Decided(early, input);
    DecidedKeeps(cfg, start, early, input, decided);
    DecidedFrame(early, input, decided);
    var signalled := SignalExits(cfg, decided, input.tick, input.decision);
    SignalExitsKeep(cfg, start, decided, input.tick, input.decision, signalled);
    ActKeeps(cfg, start, signalled, input.tick, input.decision, acted);
  }

  /**
   In every cycle of every run, every position that was open before it is stopped at its stop, taken at its
   target, timed out at the close, closed at the close by an opposing signal, or still there, and which of
   these is decided by its own terms, the bar, its age and the decision.
   */
  lemma {:induction false} EveryExit(
    cfg: Config, cash: real, limits: RiskLimits, past: seq<CycleInput>, input: CycleInput,
    l: Ledger, after: Ledger, p: Position)
    requires l == Cycles(cfg, EmptyLedger(cash, limits), past) && after == Cycle(cfg, l, input) && p in Open(l)
    ensures Fate(cfg, l, input, after, p)
  {
    var start := InitialStore(cash, limits);
    RunKeeps(cfg, cash, limits, past);
    var early := PreDecision(cfg, l, input.tick);
    var acted :=
      Act(cfg, SignalExits(cfg, Decided(early, input), input.tick, input.decision), input.tick, input.decision);
    CycleIs(cfg, l, input, early, acted);
    ActedLog(cfg, start, l, input, early, acted);
    CycleFate(cfg, start, l, input, early, acted, after, p);
  }

  /** Every close a cycle publishes is of a position that had to go on one of its two looks. */
  lemma NoOtherExit(
    cfg: Config, cash: real, limits: RiskLimits, past: seq<CycleInput>, input: CycleInput,
    l: Ledger, after: Ledger, decided: Ledger, e: Event)
    requires l == Cycles(cfg, EmptyLedger(cash, limits), past) && after == Cycle(cfg, l, input)
    requires decided == Decided(PreDecision(cfg, l, input.tick), input)
    requires e in NewEvents(l, after) && e.kind.ClosedEvent?
    ensures OfSome(cfg, l, Open(l), input.tick, None, e)
            || (Signalled(input.decision)
                && OfSome(cfg, decided, Open(decided), input.tick, Some(input.decision.finalSignal.value.side), e))
  {
    var start := InitialStore(cash, limits);
    RunKeeps(cfg, cash, limits, past);
    var early := PreDecision(cfg, l, input.tick);
    var signalled := SignalExits(cfg, decided, input.tick, input.decision);
    var acted := Act(cfg, signalled, input.tick, input.decision);
    CycleIs(cfg, l, input, early, acted);
    ActedLog(cfg, start, l, input, early, acted);
    assert NewEvents(l, after) == [Event(input.tick.time, CandleReceived(input.tick.bar.close))] + acted.collected;
    ClosesBeforeActing(cfg, start, l, input, early, decided, signalled, acted, e);
  }

  lemma ClosesBeforeActing(
    cfg: Config, start: Store, l: Ledger, input: CycleInput, early: Ledger, decided: Ledger, signalled: Ledger,
    acted: Ledger, e: Event)
    requires Inv(cfg, start, l) && l.collected == [] && early == PreDecision(cfg, l, input.tick)
    requires decided == Decided(early, input) && signalled == SignalExits(cfg, decided, input.tick, input.decision)
    requires acted == Act(cfg, signalled, input.tick, input.decision) && e in acted.collected && e.kind.ClosedEvent?
    ensures OfSome(cfg, l, Open(l), input.tick, None, e)
            || (Signalled(input.decision)
                && OfSome(cfg, decided, Open(decided), input.tick, Some(input.decision.finalSignal.value.side), e))
  {
    PreDecisionKeeps(cfg, start, l, input.tick, early);
    DecidedKeeps(cfg, start, early, input, decided);
    DecidedFrame(early, input, decided);
    ActAppends(cfg, signalled, input.tick, input.decision, acted);
    SecondLookCloses(cfg, start, decided, input.tick, input.decision, signalled, e);
    if e in decided.collected {
      FirstLookCloses(cfg, start, l, input.tick, early, e);
    }
  }

  // ---------------------------------------------------------------- liquidation

  predicate EndedBy(cfg: Config, p: Position, tick: Tick, e: Event) {
    CloseOf(cfg, p, e) && e.time == tick.time && e.kind.reason == EndOfRun && e.kind.exitPrice == tick.bar.close
  }

  ghost predicate Ended(cfg: Config, events: seq<Event>, p: Position, tick: Tick) {
    exists e :: e in events && EndedBy(cfg, p, tick, e)
  }

  lemma EndStepTells(cfg: Config, l: Ledger, p: Position, tick: Tick, after: Ledger) returns (events: seq<Event>)
    requires after == if p.symbol == tick.symbol then CloseStep(cfg, l, p, tick.bar.close, EndOfRun, tick.time) else l
    ensures after.collected == l.collected + events
    ensures if p.symbol == tick.symbol then |events| == 1 && EndedBy(cfg, p, tick, events[0]) else events == []
  {
    events := [];
    if p.symbol == tick.symbol {
      CloseEarns(cfg, p, tick.bar.close);
      events := [after.collected[|l.collected|]];
    }
  }

  /** The liquidation loop closes each position of its symbol at the bar's close. */
  lemma {:induction false} LiquidationEnds(
    cfg: Config, l: Ledger, ps: seq<Position>, tick: Tick, after: Ledger, p: Position)
    requires after == Commit(l, LiquidationSweep(cfg, Idle(l.engine), ps, tick))
    requires p in ps && p.symbol == tick.symbol
    ensures Ended(cfg, after.collected, p, tick)
  {
    var n := |ps| - 1;
    var swept := LiquidationSweep(cfg, Idle(l.engine), ps[..n], tick);
    var mid := Commit(l, swept);
    CommitClosing(cfg, l, swept, ps[n], tick.bar.close, EndOfRun, tick.time);
    var events := EndStepTells(cfg, mid, ps[n], tick, after);
    InitOrLast(ps, p);
    if p == ps[n] {
      assert events[0] in after.collected;
    } else {
      LiquidationEnds(cfg, l, ps[..n], tick, mid, p);
      var e :| e in mid.collected && EndedBy(cfg, p, tick, e);
      assert e in after.collected;
    }
  }

  lemma {:induction false} LiquidationClosesOnly(
    cfg: Config, l: Ledger, looked: seq<Position>, ps: seq<Position>, tick: Tick, after: Ledger, e: Event)
    requires after == Commit(l, LiquidationSweep(cfg, Idle(l.engine), ps, tick)) && e in after.collected
    requires forall q | q in ps :: q in looked
    ensures e in l.collected || exists p :: p in looked && p.symbol == tick.symbol && EndedBy(cfg, p, tick, e)
  {
    if ps == [] {
      CommitIdle(l);
    } else {
      var n := |ps| - 1;
      var swept := LiquidationSweep(cfg, Idle(l.engine), ps[..n], tick);
      var mid := Commit(l, swept);
      CommitClosing(cfg, l, swept, ps[n], tick.bar.close, EndOfRun, tick.time);
      var events := EndStepTells(cfg, mid, ps[n], tick, after);
      if e in mid.collected {
        LiquidationClosesOnly(cfg, l, looked, ps[..n], tick, mid, e);
      } else {
        assert e in events && ps[n] in looked;
      }
    }
  }

  /**
   The end of a run: every position of the symbol is closed at the bar's close as such, and nothing else is
   published.
   */
  lemma LiquidationAtClose(cfg: Config, l: Ledger, tick: Tick, after: Ledger)
    requires l.collected == [] && after == Liquidation(cfg, l, tick)
    ensures forall p | p in Open(l) && p.symbol == tick.symbol :: Ended(cfg, NewEvents(l, after), p, tick)
    ensures forall e | e in NewEvents(l, after) ::
              exists p :: p in Open(l) && p.symbol == tick.symbol && EndedBy(cfg, p, tick, e)
  {
    if exists p :: p in Open(l) && p.symbol == tick.symbol {
      var closed := Commit(l, LiquidationSweep(cfg, Idle(l.engine), Open(l), tick));
      assert NewEvents(l, after) == closed.collected;
      forall p | p in Open(l) && p.symbol == tick.symbol ensures Ended(cfg, NewEvents(l, after), p, tick) {
        LiquidationEnds(cfg, l, Open(l), tick, closed, p);
      }
      forall e | e in NewEvents(l, after)
        ensures exists p :: p in Open(l) && p.symbol == tick.symbol && EndedBy(cfg, p, tick, e)
      {
        LiquidationClosesOnly(cfg, l, Open(l), Open(l), tick, closed, e);
      }
    }
  }
}
