/**
 The live carry executor (backend/src/carry/live_executor.py): a spot order, then a perp order, and an
 unwind of the first if the second fails. The exchange is abstract: each order meets an arbitrary
 outcome, and the theorems say what must be true of the outcomes for the books to stay reconciled.
 */
module LiveCarry {
  import opened Wrappers
  import opened Arithmetic
  import opened CarryManager
  import opened CarryRunner

  /** What the venue answers, with 0.0 for a missing or zero figure (both are falsy in the source). */
  datatype Reply = Reply(
    filled: real, amount: real, average: real, price: real, fee: real, hasId: bool, readBack: Option<ReadBack>)

  datatype ReadBack = ReadBack(average: real, price: real, fee: real)

  /** An order is refused untouched, or accepted with `executed` really traded. */
  datatype Outcome = Refused | Accepted(executed: real, reply: Reply)

  /** What becomes of a spot order for a quantity, and of a perp order for a quantity, reduce-only or not. */
  type SpotMarket = real -> Outcome
  type PerpMarket = (real, bool) -> Outcome

  datatype Side = Buy | Sell

  /** Lot steps of the two venues; None when precision cannot be read. */
  datatype Steps = Steps(spot: real, perp: real)

  datatype Book = Book(spotQty: real, perpShort: real)

  datatype LegFill = LegFill(qty: real, avgPrice: real, fee: real)

  datatype ExecError = SpotRefused | PartialCarryFill | UnwindRefused

  const SPOT_TAKER_BPS := 10.0
  const PERP_TAKER_BPS := 5.0
  const SMALLEST_ORDER := 0.000000001

  /** The quantity read from a reply: `filled`, or `amount` when that is zero or missing. */
  function Reported(reply: Reply): real { OrElse(reply.filled, reply.amount) }

  function ResolveFill(reply: Reply, refPx: real, takerBps: real): LegFill {
    var qty := Reported(reply);
    var quoted := OrElse(reply.average, reply.price);
    var reread := quoted <= 0.0 && reply.hasId && reply.readBack.Some?;
    var price0 := if reread then OrElse(reply.readBack.value.average, reply.readBack.value.price) else quoted;
    var fee0 := if reread then OrElse(reply.fee, reply.readBack.value.fee) else reply.fee;
    var price := if price0 <= 0.0 then refPx else price0;
    LegFill(qty, price, if fee0 <= 0.0 then qty * price * takerBps / 10000.0 else fee0)
  }

  // ---------------------------------------------------------------- lot sizes

  /** amount_to_precision: down to a whole number of steps. */
  function Truncate(qty: real, step: real): real
    requires step > 0.0
  {
    Lots((qty / step).Floor, step)
  }

  ghost predicate ValidSteps(steps: Option<Steps>) {
    steps.Some? ==> steps.value.spot > 0.0 && steps.value.perp > 0.0
  }

  function RoundQty(steps: Option<Steps>, qty: real): real
    requires ValidSteps(steps)
  {
    if steps.None? then qty
    else
      var coarser := Min(Truncate(Abs(qty), steps.value.spot), Truncate(Abs(qty), steps.value.perp));
      if qty >= 0.0 then coarser else -coarser
  }

  function Lots(k: int, step: real): real { k as real * step }

  ghost predicate WholeLots(qty: real, step: real) { exists k: int :: qty == Lots(k, step) }

  lemma TruncateIsBelow(qty: real, step: real)
    requires qty >= 0.0 && step > 0.0
    ensures 0.0 <= Truncate(qty, step) <= qty
    ensures WholeLots(Truncate(qty, step), step)
  {
    DivideBack(qty, step);
    assert (qty / step).Floor >= 0;
    ScaleOrder((qty / step).Floor as real, qty / step, step);
  }

  lemma DivideBack(qty: real, step: real)
    requires step > 0.0
    ensures (qty / step) * step == qty
    ensures qty >= 0.0 ==> qty / step >= 0.0
  {
  }

  lemma ScaleOrder(x: real, y: real, c: real)
    requires x <= y && c > 0.0
    ensures x * c <= y * c
    ensures x >= 0.0 ==> x * c >= 0.0
  {
  }

  lemma RoundQtyShrinks(steps: Option<Steps>, qty: real)
    requires ValidSteps(steps)
    ensures Abs(RoundQty(steps, qty)) <= Abs(qty)
    ensures qty >= 0.0 ==> RoundQty(steps, qty) >= 0.0
    ensures qty <= 0.0 ==> RoundQty(steps, qty) <= 0.0
  {
    if steps.Some? {
      TruncateIsBelow(Abs(qty), steps.value.spot);
      TruncateIsBelow(Abs(qty), steps.value.perp);
    }
  }

  /** The largest whole number of steps below q is at least any other. */
  lemma TruncateIsLargest(qty: real, step: real, k: int)
    requires qty >= 0.0 && step > 0.0 && Lots(k, step) <= qty
    ensures Lots(k, step) <= Truncate(qty, step)
  {
    DivideBack(qty, step);
    Unscale(k as real, qty / step, step);
    assert k <= (qty / step).Floor;
    ScaleOrder(k as real, (qty / step).Floor as real, step);
  }

  lemma Unscale(x: real, y: real, c: real)
    requires x * c <= y * c && c > 0.0
    ensures x <= y
  {
    if x > y {
      ScaleStrict(y, x, c);
      assert false;
    }
  }

  lemma ScaleStrict(x: real, y: real, c: real)
    requires x < y && c > 0.0
    ensures x * c < y * c
  {
  }

  /** The finer venue accepts whatever is whole in lots of a coarser multiple of its own step. */
  lemma CoarserIsAccepted(qty: real, fine: real, coarse: real)
    requires qty >= 0.0 && fine > 0.0 && coarse > 0.0 && WholeLots(coarse, fine)
    ensures Truncate(qty, coarse) <= Truncate(qty, fine) && WholeLots(Truncate(qty, coarse), fine)
  {
    var k: int :| coarse == Lots(k, fine);
    var m := (qty / coarse).Floor;
    TruncateIsBelow(qty, coarse);
    Regrouped(m, k, fine);
    TruncateIsLargest(qty, fine, m * k);
  }

  lemma Regrouped(m: int, k: int, fine: real)
    ensures Lots(m, Lots(k, fine)) == Lots(m * k, fine)
  {
    assert (m * k) as real == m as real * k as real;
  }

  ghost predicate BothAccept(steps: Steps)
    requires steps.spot > 0.0 && steps.perp > 0.0
  {
    forall qty: real :: qty >= 0.0 ==>
      WholeLots(RoundQty(Some(steps), qty), steps.spot) && WholeLots(RoundQty(Some(steps), qty), steps.perp)
  }

  /** When neither step divides the other, one lot of the coarser venue rounds to an amount it refuses. */
  lemma UnevenIsRefused(fine: real, coarse: real)
    requires 0.0 < fine < coarse && !WholeLots(coarse, fine)
    ensures Truncate(coarse, coarse) == coarse && Truncate(coarse, fine) < coarse
    ensures !WholeLots(Truncate(coarse, fine), coarse)
  {
    assert coarse / coarse == 1.0 && Lots(1, coarse) == coarse;
    TruncateIsBelow(coarse, fine);
    var t := Truncate(coarse, fine);
    assert Lots(1, fine) == fine;
    TruncateIsLargest(coarse, fine, 1);
    assert 0.0 < t < coarse;
    NotWhole(t, coarse);
  }

  lemma NotWhole(t: real, step: real)
    requires 0.0 < t < step
    ensures !WholeLots(t, step)
  {
    forall k: int ensures t != Lots(k, step) {
      if k >= 1 {
        ScaleOrder(1.0, k as real, step);
      } else {
        ScaleOrder(k as real, 0.0, step);
      }
    }
  }

  /**
   The rounding promises a quantity both venues accept. It keeps that promise for every quantity exactly
   when one venue's step is a whole multiple of the other's.
   */
  lemma BothAcceptIff(steps: Steps)
    requires steps.spot > 0.0 && steps.perp > 0.0
    ensures BothAccept(steps) <==> WholeLots(steps.spot, steps.perp) || WholeLots(steps.perp, steps.spot)
  {
    var s, p := steps.spot, steps.perp;
    if WholeLots(s, p) || WholeLots(p, s) {
      forall qty: real | qty >= 0.0
        ensures WholeLots(RoundQty(Some(steps), qty), s) && WholeLots(RoundQty(Some(steps), qty), p)
      {
        TruncateIsBelow(qty, s);
        TruncateIsBelow(qty, p);
        if WholeLots(s, p) {
          CoarserIsAccepted(qty, p, s);
        } else {
          CoarserIsAccepted(qty, s, p);
        }
      }
    } else {
      assert s != p by {
        assert s == Lots(1, s);
      }
      if s < p {
        UnevenIsRefused(s, p);
        assert !WholeLots(RoundQty(Some(steps), p), p);
      } else {
        UnevenIsRefused(p, s);
        assert !WholeLots(RoundQty(Some(steps), s), s);
      }
    }
  }

  // ---------------------------------------------------------------- the exchange

  function Trade(book: Book, side: Side, o: Outcome): Book {
    if o.Refused? then book
    else book.(spotQty := book.spotQty + if side == Buy then o.executed else -o.executed)
  }

  function TradePerp(book: Book, side: Side, o: Outcome): Book {
    if o.Refused? then book
    else book.(perpShort := book.perpShort + if side == Sell then o.executed else -o.executed)
  }

  /** The markets the three orders of one execution meet, each answering to the quantity it is asked for. */
  datatype Script = Script(spot: SpotMarket, perp: PerpMarket, unwind: SpotMarket)

  function Opposite(side: Side): Side { if side == Buy then Sell else Buy }

  function SpotSide(delta: real): Side { if delta > 0.0 then Buy else Sell }

  function PerpSide(delta: real): Side { if delta > 0.0 then Sell else Buy }

  predicate Placed(delta: real) { Abs(delta) > SMALLEST_ORDER }

  function Signed(qty: real, delta: real): real { if delta >= 0.0 then qty else -qty }

  function NoLeg(refPx: real): LegFill { LegFill(0.0, refPx, 0.0) }

  /** The spot order of an execution, for the whole rounded delta. */
  function SpotOutcome(script: Script, delta: real): Outcome { script.spot(Abs(delta)) }

  /** The perp order: reduce-only when it lessens the short. */
  function PerpOutcome(script: Script, delta: real): Outcome { script.perp(Abs(delta), delta <= 0.0) }

  /** The order that puts a spot leg back: for the quantity its reply reported, on the other side. */
  function UnwindOutcome(script: Script, leg: LegFill): Outcome { script.unwind(Abs(leg.qty)) }

  function SpotLeg(script: Script, delta: real, refPx: real): LegFill {
    if Placed(delta) && SpotOutcome(script, delta).Accepted?
    then ResolveFill(SpotOutcome(script, delta).reply, refPx, SPOT_TAKER_BPS) else NoLeg(refPx)
  }

  function PerpLeg(script: Script, delta: real, refPx: real): LegFill {
    if Placed(delta) && PerpOutcome(script, delta).Accepted?
    then ResolveFill(PerpOutcome(script, delta).reply, refPx, PERP_TAKER_BPS) else NoLeg(refPx)
  }

  /** Spot first; then perp; if the perp leg fails, the spot leg is sold or bought back. */
  function Execute(
    book: Book, steps: Option<Steps>, plan: Plan, spotPx: real, perpPx: real, script: Script
  ): (Book, Result<Option<Fill>, ExecError>)
    requires ValidSteps(steps)
  {
    if plan.reason == Noop then (book, Ok(None))
    else
      var spotDelta := RoundQty(steps, plan.spotDelta);
      var perpDelta := RoundQty(steps, plan.perpDelta);
      if Placed(spotDelta) && SpotOutcome(script, spotDelta).Refused? then (book, Err(SpotRefused))
      else
        var spotDone :=
          if Placed(spotDelta) then Trade(book, SpotSide(spotDelta), SpotOutcome(script, spotDelta)) else book;
        var spotLeg := SpotLeg(script, spotDelta, spotPx);
        if Placed(perpDelta) && PerpOutcome(script, perpDelta).Refused? then
          if Placed(spotDelta) && spotLeg.qty > 0.0 then
            var unwind := UnwindOutcome(script, spotLeg);
            if unwind.Refused? then (spotDone, Err(UnwindRefused))
            else (Trade(spotDone, Opposite(SpotSide(spotDelta)), unwind), Err(PartialCarryFill))
          else (spotDone, Err(PartialCarryFill))
        else
          var perpDone :=
            if Placed(perpDelta) then TradePerp(spotDone, PerpSide(perpDelta), PerpOutcome(script, perpDelta))
            else spotDone;
          var perpLeg := PerpLeg(script, perpDelta, perpPx);
          (perpDone,
           Ok(Some(Fill(Signed(spotLeg.qty, spotDelta), spotLeg.avgPrice,
                        Signed(perpLeg.qty, perpDelta), perpLeg.avgPrice, spotLeg.fee + perpLeg.fee))))
  }

  class CarryExchange {
    var spotQty: real
    var perpShort: real
    const steps: Option<Steps>

    ghost function State(): Book
      reads this
    {
      Book(spotQty, perpShort)
    }

    constructor (book: Book, steps: Option<Steps>)
      ensures State() == book && this.steps == steps
    {
      spotQty, perpShort := book.spotQty, book.perpShort;
      this.steps := steps;
    }

    /** Asks the market for the size of `qty`, whatever its sign. */
    method MarketSpot(side: Side, qty: real, refPx: real, market: SpotMarket) returns (r: Option<LegFill>)
      modifies this
      ensures State() == Trade(old(State()), side, market(Abs(qty)))
      ensures r.None? <==> market(Abs(qty)).Refused?
      ensures r.Some? ==> r.value == ResolveFill(market(Abs(qty)).reply, refPx, SPOT_TAKER_BPS)
    {
      var outcome := market(Abs(qty));
      if outcome.Refused? {
        return None;
      }
      spotQty := if side == Buy then spotQty + outcome.executed else spotQty - outcome.executed;
      r := Some(ResolveFill(outcome.reply, refPx, SPOT_TAKER_BPS));
    }

    method MarketPerp(side: Side, qty: real, reduceOnly: bool, refPx: real, market: PerpMarket)
      returns (r: Option<LegFill>)
      modifies this
      ensures State() == TradePerp(old(State()), side, market(Abs(qty), reduceOnly))
      ensures r.None? <==> market(Abs(qty), reduceOnly).Refused?
      ensures r.Some? ==> r.value == ResolveFill(market(Abs(qty), reduceOnly).reply, refPx, PERP_TAKER_BPS)
    {
      var outcome := market(Abs(qty), reduceOnly);
      if outcome.Refused? {
        return None;
      }
      perpShort := if side == Sell then perpShort + outcome.executed else perpShort - outcome.executed;
      r := Some(ResolveFill(outcome.reply, refPx, PERP_TAKER_BPS));
    }
  }

  class LiveCarryExecutor {
    const exchange: CarryExchange

    constructor (exchange: CarryExchange)
      ensures this.exchange == exchange
    {
      this.exchange := exchange;
    }

    method ExecutePlan(plan: Plan, spotPx: real, perpPx: real, script: Script)
      returns (r: Result<Option<Fill>, ExecError>)
      requires ValidSteps(exchange.steps)
      modifies exchange
      ensures (exchange.State(), r) == Execute(old(exchange.State()), exchange.steps, plan, spotPx, perpPx, script)
    {
      if plan.reason == Noop {
        return Ok(None);
      }
      var spotDelta := RoundQty(exchange.steps, plan.spotDelta);
      var perpDelta := RoundQty(exchange.steps, plan.perpDelta);
      var spotLeg, perpLeg := NoLeg(spotPx), NoLeg(perpPx);
      if Placed(spotDelta) {
        var fill := exchange.MarketSpot(SpotSide(spotDelta), spotDelta, spotPx, script.spot);
        if fill.None? {
          return Err(SpotRefused);
        }
        spotLeg := fill.value;
      }
      if Placed(perpDelta) {
        var fill;
        if perpDelta > 0.0 {
          fill := exchange.MarketPerp(Sell, perpDelta, false, perpPx, script.perp);
        } else {
          fill := exchange.MarketPerp(Buy, perpDelta, true, perpPx, script.perp);
        }
        if fill.None? {
          if Placed(spotDelta) && spotLeg.qty > 0.0 {
            var unwound := exchange.MarketSpot(Opposite(SpotSide(spotDelta)), spotLeg.qty, spotPx, script.unwind);
            return Err(if unwound.None? then UnwindRefused else PartialCarryFill);
          }
          return Err(PartialCarryFill);
        }
        perpLeg := fill.value;
      }
      r := Ok(Some(Fill(Signed(spotLeg.qty, spotDelta), spotLeg.avgPrice,
                        Signed(perpLeg.qty, perpDelta), perpLeg.avgPrice, spotLeg.fee + perpLeg.fee)));
    }
  }

  // ---------------------------------------------------------------- what the code reads and what happened

  /** The venue's own figure is the quantity it traded. */
  ghost predicate Truthful(o: Outcome) { o.Accepted? ==> o.reply.filled == o.executed }

  /** The quantity the code reads is the quantity traded, and no more was traded than was asked for. */
  ghost predicate Honest(o: Outcome, asked: real) {
    o.Accepted? ==> 0.0 <= o.executed <= asked && Reported(o.reply) == o.executed
  }

  /** A truthful reply is read right exactly when something was traded, or no amount is given either. */
  ghost predicate ReadRight(o: Outcome) { o.Accepted? ==> o.executed != 0.0 || o.reply.amount == 0.0 }

  /** The market trades all of whatever positive quantity it is asked for. */
  ghost predicate FillsAll(market: SpotMarket) {
    forall qty: real :: qty > 0.0 ==> market(qty).Accepted? && market(qty).executed == qty
  }

  /** The executor was asked to act, and both legs are large enough to be ordered. */
  ghost predicate BothPlaced(steps: Option<Steps>, plan: Plan)
    requires ValidSteps(steps)
  {
    plan.reason != Noop && Placed(RoundQty(steps, plan.spotDelta)) && Placed(RoundQty(steps, plan.perpDelta))
  }

  /**
   A perp failure, when the unwind trades all it is asked for. What is asked for is the quantity read
   from the spot reply, and nothing is asked for unless that is positive. So the exchange is put back
   exactly when the quantity read, if positive, is what the spot order really traded.
   */
  lemma UnwindRestoresIff(book: Book, steps: Option<Steps>, plan: Plan, spotPx: real, perpPx: real, script: Script)
    requires ValidSteps(steps) && BothPlaced(steps, plan) && FillsAll(script.unwind)
    requires SpotOutcome(script, RoundQty(steps, plan.spotDelta)).Accepted?
    requires PerpOutcome(script, RoundQty(steps, plan.perpDelta)).Refused?
    ensures
      var spot := SpotOutcome(script, RoundQty(steps, plan.spotDelta));
      var done := Execute(book, steps, plan, spotPx, perpPx, script);
      && done.1 == Err(PartialCarryFill)
      && (done.0 == book <==> Max0(Reported(spot.reply)) == spot.executed)
  {
    var leg := SpotLeg(script, RoundQty(steps, plan.spotDelta), spotPx);
    if leg.qty > 0.0 {
      assert script.unwind(leg.qty).Accepted? && script.unwind(leg.qty).executed == leg.qty;
    }
  }

  /** For a truthful spot reply the guard is that something was traded, or that no positive amount is given. */
  lemma TruthfulUnwindRestoresIff(
    book: Book, steps: Option<Steps>, plan: Plan, spotPx: real, perpPx: real, script: Script)
    requires ValidSteps(steps) && BothPlaced(steps, plan) && FillsAll(script.unwind)
    requires SpotOutcome(script, RoundQty(steps, plan.spotDelta)).Accepted?
    requires PerpOutcome(script, RoundQty(steps, plan.perpDelta)).Refused?
    requires Truthful(SpotOutcome(script, RoundQty(steps, plan.spotDelta)))
    requires SpotOutcome(script, RoundQty(steps, plan.spotDelta)).executed >= 0.0
    ensures
      var spot := SpotOutcome(script, RoundQty(steps, plan.spotDelta));
      Execute(book, steps, plan, spotPx, perpPx, script).0 == book
      <==> spot.executed != 0.0 || spot.reply.amount <= 0.0
  {
    UnwindRestoresIff(book, steps, plan, spotPx, perpPx, script);
  }

  /** A market that accepts an order, trades none of it yet, and repeats the amount ordered. */
  function Unfilled(qty: real): Outcome { Accepted(0.0, Reply(0.0, qty, 100.0, 0.0, 0.0, false, None)) }

  /** A market that trades every order in full. */
  function Filling(qty: real): Outcome { Accepted(qty, Reply(qty, qty, 100.0, 0.0, 0.0, false, None)) }

  /** An unfilled spot order and a refused perp order: the unwind sells coins that were there before the runner. */
  lemma UnwindSellsBaseline(ordered: real)
    requires ordered > 1.0
    ensures
      var script := Script(Unfilled, (qty, reduceOnly) => Refused, Filling);
      FillsAll(script.unwind)
      && Execute(Book(10.0, 0.0), None, Plan(ordered, ordered, Open), 100.0, 100.0, script)
         == (Book(10.0 - ordered, 0.0), Err(PartialCarryFill))
  {
  }

  /** What a successful execution moved on the exchange. */
  ghost predicate ReportIsRight(book: Book, after: Book, f: Fill) {
    after == Book(book.spotQty + f.spotQty, book.perpShort + f.perpQty)
  }

  /**
   For truthful replies a successful execution reports what moved exactly when each order it placed
   traded something or has no amount in its reply: zero is read as missing, and the amount instead.
   */
  lemma ReportIsRightIff(
    book: Book, steps: Option<Steps>, plan: Plan, spotPx: real, perpPx: real, script: Script, after: Book, f: Fill)
    requires ValidSteps(steps) && Execute(book, steps, plan, spotPx, perpPx, script) == (after, Ok(Some(f)))
    requires Truthful(SpotOutcome(script, RoundQty(steps, plan.spotDelta)))
    requires Truthful(PerpOutcome(script, RoundQty(steps, plan.perpDelta)))
    ensures
      var spotDelta, perpDelta := RoundQty(steps, plan.spotDelta), RoundQty(steps, plan.perpDelta);
      ReportIsRight(book, after, f)
      <==> (Placed(spotDelta) ==> ReadRight(SpotOutcome(script, spotDelta)))
           && (Placed(perpDelta) ==> ReadRight(PerpOutcome(script, perpDelta)))
  {
  }

  /** The input on which it is wrong: nothing traded, and the runner books all that was ordered. */
  lemma UnfilledOrderIsBooked(r: Runner, ordered: real)
    requires ordered > 1.0 && r == NewRunner(1000.0)
    ensures
      var script := Script(Unfilled, (qty, reduceOnly) => Unfilled(qty), Filling);
      var done := Execute(Book(0.0, 0.0), None, Plan(ordered, ordered, Open), 100.0, 100.0, script);
      done.0 == Book(0.0, 0.0) && done.1.Ok? && done.1.value.Some?
      && Filled(r, done.1.value).position.spotQty == ordered
  {
  }

  // ---------------------------------------------------------------- the runner

  /** A live step: an executor error leaves the runner as it was. */
  function LiveStep(cfg: Config, steps: Option<Steps>, r: Runner, book: Book, snap: Snapshot, script: Script)
    : (Runner, Book)
    requires cfg.capitalMultiplier != 0.0 && ValidSteps(steps)
  {
    var plan := PlanFor(cfg, r, snap);
    var done := Execute(book, steps, plan, snap.spotPx, snap.perpPx, script);
    (if done.1.Err? then r else Settle(r, snap, plan, done.1.value), done.0)
  }

  function LiveRun(
    cfg: Config, steps: Option<Steps>, r: Runner, book: Book, snaps: seq<Snapshot>, scripts: seq<Script>
  ): (Runner, Book)
    requires cfg.capitalMultiplier != 0.0 && ValidSteps(steps) && |scripts| == |snaps|
  {
    if snaps == [] then (r, book)
    else
      var n := |snaps| - 1;
      var before := LiveRun(cfg, steps, r, book, snaps[..n], scripts[..n]);
      LiveStep(cfg, steps, before.0, before.1, snaps[n], scripts[n])
  }

  /** The runner's legs are the exchange's, net of the spot that was there before it started. */
  ghost predicate Reconciled(baseline: real, r: Runner, book: Book) {
    && Sound(r.position)
    && r.position.spotQty == book.spotQty - baseline
    && r.position.perpQty == book.perpShort
  }

  /**
   What is assumed of the venue for one plan: its replies are read right, reduce-only is respected, and
   the spot market fills the unwind, whatever quantity that turns out to be. The perp leg may fail at will.
   */
  ghost predicate Cooperates(steps: Option<Steps>, book: Book, plan: Plan, script: Script)
    requires ValidSteps(steps)
  {
    var spotDelta, perpDelta := RoundQty(steps, plan.spotDelta), RoundQty(steps, plan.perpDelta);
    var perp := PerpOutcome(script, perpDelta);
    && Honest(SpotOutcome(script, spotDelta), Abs(spotDelta)) && Honest(perp, Abs(perpDelta))
    && (perpDelta < 0.0 && perp.Accepted? ==> perp.executed <= book.perpShort)
    && FillsAll(script.unwind)
  }

  ghost predicate AllCooperate(
    cfg: Config, steps: Option<Steps>, r: Runner, book: Book, snaps: seq<Snapshot>, scripts: seq<Script>)
    requires cfg.capitalMultiplier != 0.0 && ValidSteps(steps) && |scripts| == |snaps|
  {
    snaps != [] ==>
      var n := |snaps| - 1;
      var before := LiveRun(cfg, steps, r, book, snaps[..n], scripts[..n]);
      && AllCooperate(cfg, steps, r, book, snaps[..n], scripts[..n])
      && Cooperates(steps, before.1, PlanFor(cfg, before.0, snaps[n]), scripts[n])
  }

  /** Every failed execution, at whichever order, leaves the exchange as it was. */
  lemma FailureRestores(book: Book, steps: Option<Steps>, plan: Plan, spotPx: real, perpPx: real, script: Script)
    requires ValidSteps(steps) && Cooperates(steps, book, plan, script)
    requires Execute(book, steps, plan, spotPx, perpPx, script).1.Err?
    ensures Execute(book, steps, plan, spotPx, perpPx, script).0 == book
  {
    var spotDelta, perpDelta := RoundQty(steps, plan.spotDelta), RoundQty(steps, plan.perpDelta);
    if BothPlaced(steps, plan) && SpotOutcome(script, spotDelta).Accepted? && PerpOutcome(script, perpDelta).Refused? {
      UnwindRestoresIff(book, steps, plan, spotPx, perpPx, script);
    }
  }

  /** A successful execution reports to the runner exactly what moved on the exchange. */
  lemma ReportMatchesBook(
    book: Book, steps: Option<Steps>, plan: Plan, spotPx: real, perpPx: real, script: Script, after: Book, f: Fill)
    requires ValidSteps(steps) && Cooperates(steps, book, plan, script)
    requires Execute(book, steps, plan, spotPx, perpPx, script) == (after, Ok(Some(f)))
    ensures after == Book(book.spotQty + f.spotQty, book.perpShort + f.perpQty)
    ensures Abs(f.spotQty) <= Abs(plan.spotDelta) && (plan.spotDelta >= 0.0 ==> f.spotQty >= 0.0)
    ensures book.perpShort >= 0.0 ==> after.perpShort >= 0.0
  {
    RoundQtyShrinks(steps, plan.spotDelta);
    RoundQtyShrinks(steps, plan.perpDelta);
  }

  lemma LiveStepReconciles(
    cfg: Config, steps: Option<Steps>, baseline: real, r: Runner, book: Book, snap: Snapshot, script: Script)
    requires cfg.capitalMultiplier != 0.0 && ValidSteps(steps) && Reconciled(baseline, r, book)
    requires Cooperates(steps, book, PlanFor(cfg, r, snap), script)
    ensures var after := LiveStep(cfg, steps, r, book, snap, script);
            Reconciled(baseline, after.0, after.1)
  {
    var plan := PlanFor(cfg, r, snap);
    var done := Execute(book, steps, plan, snap.spotPx, snap.perpPx, script);
    PlanIsExecutable(cfg, r, snap, plan);
    if done.1.Err? {
      FailureRestores(book, steps, plan, snap.spotPx, snap.perpPx, script);
    } else if done.1.value.Some? {
      var f := done.1.value.value;
      ReportMatchesBook(book, steps, plan, snap.spotPx, snap.perpPx, script, done.0, f);
      FillReconciles(baseline, r, book, done.0, plan, f);
      SettleKeepsLegs(r, snap, plan, f);
    }
  }

  lemma FillReconciles(baseline: real, r: Runner, book: Book, after: Book, plan: Plan, f: Fill)
    requires Reconciled(baseline, r, book) && r.position.spotQty + plan.spotDelta >= 0.0
    requires after == Book(book.spotQty + f.spotQty, book.perpShort + f.perpQty) && after.perpShort >= 0.0
    requires Abs(f.spotQty) <= Abs(plan.spotDelta) && (plan.spotDelta >= 0.0 ==> f.spotQty >= 0.0)
    ensures var p := ApplyFill(r.position, f);
            Sound(p) && p.spotQty == after.spotQty - baseline && p.perpQty == after.perpShort
  {
  }

  lemma SettleKeepsLegs(r: Runner, snap: Snapshot, plan: Plan, f: Fill)
    ensures var after := Settle(r, snap, plan, Some(f)).position;
            after.spotQty == ApplyFill(r.position, f).spotQty && after.perpQty == ApplyFill(r.position, f).perpQty
  {
  }

  /**
   Two-leg reconciliation. Over every run, with the perp leg failing wherever it likes, the runner's
   quantities stay the exchange's less the baseline.
   */
  lemma {:induction false} RunReconciles(
    cfg: Config, steps: Option<Steps>, baseline: real, r: Runner, book: Book,
    snaps: seq<Snapshot>, scripts: seq<Script>)
    requires cfg.capitalMultiplier != 0.0 && ValidSteps(steps) && |scripts| == |snaps|
    requires Reconciled(baseline, r, book) && AllCooperate(cfg, steps, r, book, snaps, scripts)
    ensures var after := LiveRun(cfg, steps, r, book, snaps, scripts);
            Reconciled(baseline, after.0, after.1)
  {
    if snaps != [] {
      var n := |snaps| - 1;
      var before := LiveRun(cfg, steps, r, book, snaps[..n], scripts[..n]);
      RunReconciles(cfg, steps, baseline, r, book, snaps[..n], scripts[..n]);
      LiveStepReconciles(cfg, steps, baseline, before.0, before.1, snaps[n], scripts[n]);
    }
  }
}
