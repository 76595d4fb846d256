/**
 What a live execution reports (backend/src/carry/live_executor.py, _resolve_fill and execute), read off
 the venue's replies: quantity, price and fee of each leg, and what they do to the runner's cash.
 */
module ReportLaws {
  import opened Wrappers
  import opened Arithmetic
  import opened CarryManager
  import opened CarryRunner
  import opened LiveCarry

  // ---------------------------------------------------------------- reading a reply

  /** The filled quantity; the amount ordered where that is missing. */
  function QtyIn(reply: Reply): real { if reply.filled == 0.0 then reply.amount else reply.filled }

  /** The average price; the order's price where that is missing. */
  function QuoteIn(average: real, price: real): real { if average == 0.0 then price else average }

  /** The order is read back when it gave no positive price and can be. */
  predicate ReadAgain(reply: Reply) {
    QuoteIn(reply.average, reply.price) <= 0.0 && reply.hasId && reply.readBack.Some?
  }

  /** The reply's own price if positive, else the one read back if positive, else the reference. */
  function PriceIn(reply: Reply, refPx: real): real {
    if QuoteIn(reply.average, reply.price) > 0.0 then QuoteIn(reply.average, reply.price)
    else if ReadAgain(reply) && QuoteIn(reply.readBack.value.average, reply.readBack.value.price) > 0.0 then
      QuoteIn(reply.readBack.value.average, reply.readBack.value.price)
    else refPx
  }

  /** The fee named first, in the reply or when it was read back; an estimate if none positive is. */
  function FeeIn(reply: Reply, refPx: real, takerBps: real): real {
    var named := if reply.fee == 0.0 && ReadAgain(reply) then reply.readBack.value.fee else reply.fee;
    if named > 0.0 then named else QtyIn(reply) * PriceIn(reply, refPx) * takerBps / 10000.0
  }

  lemma ReplyIsRead(reply: Reply, refPx: real, takerBps: real)
    ensures ResolveFill(reply, refPx, takerBps)
            == LegFill(QtyIn(reply), PriceIn(reply, refPx), FeeIn(reply, refPx, takerBps))
  {
  }

  // ---------------------------------------------------------------- a report

  /** An order is placed above a billionth of a unit. */
  predicate Ordered(delta: real) { delta > 0.000000001 || delta < -0.000000001 }

  /** What a leg contributes to a report: its own reply's figures if it was ordered, and otherwise nothing. */
  predicate LegTold(delta: real, o: Outcome, refPx: real, takerBps: real, qty: real, price: real, fee: real) {
    if Ordered(delta) then
      && o.Accepted?
      && qty == (if delta > 0.0 then QtyIn(o.reply) else -QtyIn(o.reply))
      && price == PriceIn(o.reply, refPx) && fee == FeeIn(o.reply, refPx, takerBps)
    else qty == 0.0 && price == refPx && fee == 0.0
  }

  /**
   A successful execution reports each leg at its own reply's quantity, price and fee, ten basis points
   estimated for spot and five for perp where no fee is named, and the fee is the sum of the two.
   */
  lemma ReportTells(
    book: Book, steps: Option<Steps>, plan: Plan, spotPx: real, perpPx: real, script: Script, after: Book, f: Fill)
    returns (spotFee: real, perpFee: real)
    requires ValidSteps(steps) && Execute(book, steps, plan, spotPx, perpPx, script) == (after, Ok(Some(f)))
    ensures
      var spotDelta, perpDelta := RoundQty(steps, plan.spotDelta), RoundQty(steps, plan.perpDelta);
      && LegTold(spotDelta, script.spot(Abs(spotDelta)), spotPx, 10.0, f.spotQty, f.spotPx, spotFee)
      && LegTold(perpDelta, script.perp(Abs(perpDelta), perpDelta <= 0.0), perpPx, 5.0, f.perpQty, f.perpPx, perpFee)
      && f.fee == spotFee + perpFee
  {
    var spotDelta, perpDelta := RoundQty(steps, plan.spotDelta), RoundQty(steps, plan.perpDelta);
    spotFee, perpFee := SpotLeg(script, spotDelta, spotPx).fee, PerpLeg(script, perpDelta, perpPx).fee;
    if Placed(spotDelta) {
      ReplyIsRead(SpotOutcome(script, spotDelta).reply, spotPx, 10.0);
    }
    if Placed(perpDelta) {
      ReplyIsRead(PerpOutcome(script, perpDelta).reply, perpPx, 5.0);
    }
  }

  // ---------------------------------------------------------------- cash over a run

  function FilledQty(delta: real, o: Outcome): real {
    if !Ordered(delta) || o.Refused? then 0.0 else if delta > 0.0 then QtyIn(o.reply) else -QtyIn(o.reply)
  }

  function FilledPrice(delta: real, o: Outcome, refPx: real): real {
    if !Ordered(delta) || o.Refused? then refPx else PriceIn(o.reply, refPx)
  }

  function FilledFee(delta: real, o: Outcome, refPx: real, takerBps: real): real {
    if !Ordered(delta) || o.Refused? then 0.0 else FeeIn(o.reply, refPx, takerBps)
  }

  /** How much of a short a signed perp quantity covers. */
  function CoveredBy(short: real, qty: real): real {
    if qty >= 0.0 || short <= 0.0 then 0.0 else if -qty <= short then -qty else short
  }

  /** Spot is paid for or sold at its price; a short that is covered realises its gain on the entry price. */
  function LegsCash(p: Position, spotQty: real, spotPx: real, perpQty: real, perpPx: real): real {
    CoveredBy(p.perpQty, perpQty) * (p.perpEntryPx - perpPx) - spotQty * spotPx
  }

  lemma ToldIsFilled(delta: real, o: Outcome, refPx: real, takerBps: real, qty: real, price: real, fee: real)
    requires LegTold(delta, o, refPx, takerBps, qty, price, fee)
    ensures qty == FilledQty(delta, o) && price == FilledPrice(delta, o, refPx)
    ensures fee == FilledFee(delta, o, refPx, takerBps)
  {
  }

  /**
   What a live step moves the runner's cash by, from the replies to its two orders: the spot bought or sold,
   the gain on the short covered, both fees. Nothing if there was nothing to do or an order was refused.
   */
  function StepCash(cfg: Config, steps: Option<Steps>, r: Runner, snap: Snapshot, script: Script): real
    requires cfg.capitalMultiplier != 0.0 && ValidSteps(steps)
  {
    var plan := PlanFor(cfg, r, snap);
    var spotDelta, perpDelta := RoundQty(steps, plan.spotDelta), RoundQty(steps, plan.perpDelta);
    var spot, perp := script.spot(Abs(spotDelta)), script.perp(Abs(perpDelta), perpDelta <= 0.0);
    if plan.reason == Noop || (Ordered(spotDelta) && spot.Refused?) || (Ordered(perpDelta) && perp.Refused?) then 0.0
    else
      LegsCash(r.position, FilledQty(spotDelta, spot), FilledPrice(spotDelta, spot, snap.spotPx),
               FilledQty(perpDelta, perp), FilledPrice(perpDelta, perp, snap.perpPx))
      - (FilledFee(spotDelta, spot, snap.spotPx, 10.0) + FilledFee(perpDelta, perp, snap.perpPx, 5.0))
  }

  /** When an execution does nothing, reports, or fails, and how: a positive spot fill is unwound if the perp order is refused. */
  lemma ExecutionCase(
    book: Book, steps: Option<Steps>, plan: Plan, spotPx: real, perpPx: real, script: Script)
    requires ValidSteps(steps)
    ensures
      var spotDelta, perpDelta := RoundQty(steps, plan.spotDelta), RoundQty(steps, plan.perpDelta);
      var spot, perp := script.spot(Abs(spotDelta)), script.perp(Abs(perpDelta), perpDelta <= 0.0);
      var r := Execute(book, steps, plan, spotPx, perpPx, script).1;
      if plan.reason == Noop then r == Ok(None)
      else if Ordered(spotDelta) && spot.Refused? then r == Err(SpotRefused)
      else if Ordered(perpDelta) && perp.Refused? then
        r == Err(if Ordered(spotDelta) && QtyIn(spot.reply) > 0.0 && script.unwind(QtyIn(spot.reply)).Refused?
                 then UnwindRefused else PartialCarryFill)
      else r.Ok? && r.value.Some?
  {
  }

  lemma SettleCash(r: Runner, snap: Snapshot, plan: Plan, report: Option<Fill>)
    ensures Settle(r, snap, plan, report).cash == r.cash + if report.Some? then CashFlow(r.position, report.value) else 0.0
  {
  }

  lemma CashOfReport(p: Position, f: Fill)
    ensures CashFlow(p, f) == LegsCash(p, f.spotQty, f.spotPx, f.perpQty, f.perpPx) - f.fee
  {
    assert Covered(p, f.perpQty) == CoveredBy(p.perpQty, f.perpQty);
    assert -f.spotQty * f.spotPx == -(f.spotQty * f.spotPx);
  }

  lemma ReportedCash(
    cfg: Config, steps: Option<Steps>, r: Runner, book: Book, snap: Snapshot, script: Script, plan: Plan,
    after: Book, f: Fill)
    requires cfg.capitalMultiplier != 0.0 && ValidSteps(steps) && plan == PlanFor(cfg, r, snap)
    requires Execute(book, steps, plan, snap.spotPx, snap.perpPx, script) == (after, Ok(Some(f)))
    ensures StepCash(cfg, steps, r, snap, script)
            == LegsCash(r.position, f.spotQty, f.spotPx, f.perpQty, f.perpPx) - f.fee
  {
    var spotFee, perpFee := ReportTells(book, steps, plan, snap.spotPx, snap.perpPx, script, after, f);
    var spotDelta, perpDelta := RoundQty(steps, plan.spotDelta), RoundQty(steps, plan.perpDelta);
    ToldIsFilled(spotDelta, script.spot(Abs(spotDelta)), snap.spotPx, 10.0, f.spotQty, f.spotPx, spotFee);
    ToldIsFilled(perpDelta, script.perp(Abs(perpDelta), perpDelta <= 0.0), snap.perpPx, 5.0,
                 f.perpQty, f.perpPx, perpFee);
    ExecutionCase(book, steps, plan, snap.spotPx, snap.perpPx, script);
  }

  lemma LiveStepCash(
    cfg: Config, steps: Option<Steps>, r: Runner, book: Book, snap: Snapshot, script: Script, after: Runner)
    requires cfg.capitalMultiplier != 0.0 && ValidSteps(steps)
    requires after == LiveStep(cfg, steps, r, book, snap, script).0
    ensures after.cash == r.cash + StepCash(cfg, steps, r, snap, script)
  {
    var plan := PlanFor(cfg, r, snap);
    var done := Execute(book, steps, plan, snap.spotPx, snap.perpPx, script);
    ExecutionCase(book, steps, plan, snap.spotPx, snap.perpPx, script);
    if done.1.Ok? {
      SettleCash(r, snap, plan, done.1.value);
      if done.1.value.Some? {
        ReportedCash(cfg, steps, r, book, snap, script, plan, done.0, done.1.value.value);
        CashOfReport(r.position, done.1.value.value);
      }
    }
  }

  function RunCash(
    cfg: Config, steps: Option<Steps>, r: Runner, book: Book, snaps: seq<Snapshot>, scripts: seq<Script>): real
    requires cfg.capitalMultiplier != 0.0 && ValidSteps(steps) && |scripts| == |snaps|
  {
    if snaps == [] then 0.0
    else
      var n := |snaps| - 1;
      var before := LiveRun(cfg, steps, r, book, snaps[..n], scripts[..n]);
      RunCash(cfg, steps, r, book, snaps[..n], scripts[..n]) + StepCash(cfg, steps, before.0, snaps[n], scripts[n])
  }

  /** Over every live run, whatever is refused, the runner's cash moves by what the replies to its orders say. */
  lemma {:induction false} LiveRunCash(
    cfg: Config, steps: Option<Steps>, r: Runner, book: Book, snaps: seq<Snapshot>, scripts: seq<Script>)
    requires cfg.capitalMultiplier != 0.0 && ValidSteps(steps) && |scripts| == |snaps|
    ensures LiveRun(cfg, steps, r, book, snaps, scripts).0.cash
            == r.cash + RunCash(cfg, steps, r, book, snaps, scripts)
  {
    if snaps != [] {
      var n := |snaps| - 1;
      var before := LiveRun(cfg, steps, r, book, snaps[..n], scripts[..n]);
      LiveRunCash(cfg, steps, r, book, snaps[..n], scripts[..n]);
      LiveStepCash(cfg, steps, before.0, before.1, snaps[n], scripts[n],
                   LiveRun(cfg, steps, r, book, snaps, scripts).0);
    }
  }
}
