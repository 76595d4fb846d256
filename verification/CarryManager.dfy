/**
 Delta-neutral carry, the pure part (backend/src/carry/position_manager.py): a long spot leg hedged by
 a short perp leg. What to trade, what a fill does to position and cash, and what that does to equity.
 */
module CarryManager {
  import opened Arithmetic

  datatype Config = Config(
    capitalMultiplier: real, minTrailingFunding8h: real, rebalanceBand: real, resizeBand: real)

  datatype Position = Position(
    spotQty: real, perpQty: real, spotEntryPx: real, perpEntryPx: real, accruedFunding: real, flips: nat)

  datatype Target = Target(hold: bool, targetNotional: real)

  datatype Reason = Open | Close | Resize | Rebalance | Noop

  datatype Plan = Plan(spotDelta: real, perpDelta: real, reason: Reason)

  datatype Fill = Fill(spotQty: real, spotPx: real, perpQty: real, perpPx: real, fee: real)

  const NOOP := Plan(0.0, 0.0, Noop)

  const FLAT := Position(0.0, 0.0, 0.0, 0.0, 0.0, 0)

  const DUST := 0.000000000001

  predicate InMarket(p: Position) { p.spotQty > 0.0 || p.perpQty > 0.0 }

  function NetDelta(p: Position, spotPx: real, perpPx: real): real { p.spotQty * spotPx - p.perpQty * perpPx }

  function Equity(p: Position, cash: real, spotPx: real, perpPx: real): real {
    cash + p.spotQty * spotPx + p.perpQty * (p.perpEntryPx - perpPx) + p.accruedFunding
  }

  function DecideTarget(cfg: Config, trailingFunding8h: real, equity: real): Target
    requires cfg.capitalMultiplier != 0.0
  {
    var hold := trailingFunding8h >= cfg.minTrailingFunding8h;
    Target(hold, if hold then Max0(equity) / cfg.capitalMultiplier else 0.0)
  }

  /** Close, open, rebalance the hedge, or re-strike the size, in that order of urgency. */
  function MakePlan(cfg: Config, p: Position, target: Target, spotPx: real, perpPx: real): Plan {
    var notional := p.spotQty * spotPx;
    if !target.hold then
      if InMarket(p) then Plan(-p.spotQty, -p.perpQty, Close) else NOOP
    else if !InMarket(p) then
      var qty := if spotPx > 0.0 then target.targetNotional / spotPx else 0.0;
      if qty <= 0.0 then NOOP else Plan(qty, qty, Open)
    else
      var delta := NetDelta(p, spotPx, perpPx);
      if notional > 0.0 && Abs(delta) / notional > cfg.rebalanceBand then
        var desired := if perpPx > 0.0 then p.spotQty * spotPx / perpPx else p.perpQty;
        Plan(0.0, desired - p.perpQty, Rebalance)
      else if target.targetNotional > 0.0 && notional > 0.0
              && Abs(notional - target.targetNotional) / target.targetNotional > cfg.resizeBand then
        assert spotPx != 0.0;
        var d := target.targetNotional / spotPx - p.spotQty;
        Plan(d, d, Resize)
      else NOOP
  }

  /** Short quantity actually covered by a fill: never more than the short held. */
  function Covered(p: Position, perpFill: real): real {
    if perpFill < 0.0 && p.perpQty > 0.0 then Min(-perpFill, p.perpQty) else 0.0
  }

  function CashFlow(p: Position, f: Fill): real {
    -f.spotQty * f.spotPx - f.fee + Covered(p, f.perpQty) * (p.perpEntryPx - f.perpPx)
  }

  function ApplyFill(p: Position, f: Fill): Position {
    var newSpot := p.spotQty + f.spotQty;
    var newPerp := p.perpQty + f.perpQty;
    var spotEntry :=
      if f.spotQty > 0.0 then
        if newSpot > 0.0 then (p.spotQty * p.spotEntryPx + f.spotQty * f.spotPx) / newSpot else f.spotPx
      else p.spotEntryPx;
    var perpEntry :=
      if f.perpQty > 0.0 then
        if newPerp > 0.0 then (p.perpQty * p.perpEntryPx + f.perpQty * f.perpPx) / newPerp else f.perpPx
      else p.perpEntryPx;
    var entered := !InMarket(p) && (newSpot > 0.0 || newPerp > 0.0);
    var left := InMarket(p) && newSpot <= DUST && newPerp <= DUST;
    Position(
      Max0(newSpot), Max0(newPerp),
      if newSpot > 0.0 then spotEntry else 0.0, if newPerp > 0.0 then perpEntry else 0.0,
      p.accruedFunding, p.flips + (if entered then 1 else 0) + (if left then 1 else 0))
  }

  function AccrueFunding(p: Position, fundingRate: real, perpPx: real): Position {
    p.(accruedFunding := p.accruedFunding + fundingRate * p.perpQty * perpPx)
  }

  // ---------------------------------------------------------------- what a plan may ask for

  /** Neither leg is ever negative: spot is held long, perp is held short. */
  predicate Sound(p: Position) { p.spotQty >= 0.0 && p.perpQty >= 0.0 }

  /** A plan never sells more spot than is held, whatever the prices and the target. */
  lemma PlanNeverOversellsSpot(cfg: Config, p: Position, target: Target, spotPx: real, perpPx: real)
    requires Sound(p)
    ensures p.spotQty + MakePlan(cfg, p, target, spotPx, perpPx).spotDelta >= 0.0
  {
    var plan := MakePlan(cfg, p, target, spotPx, perpPx);
    if plan.reason == Resize {
      PositiveProduct(p.spotQty, spotPx);
      PositiveQuotient(target.targetNotional, spotPx);
    }
  }

  /**
   It may cover more perp than is short, but only when re-striking a hedge whose legs differ: with the
   perp at twice the spot a hedged pair is short half as many units as it is long.
   */
  lemma PlanCanOvercoverPerp()
    ensures
      var p := Position(1.0, 0.5, 100.0, 200.0, 0.0, 1);
      var plan := MakePlan(Config(1.5, -1.0, 0.02, 0.15), p, Target(true, 30.0), 100.0, 200.0);
      plan.reason == Resize && p.perpQty + plan.perpDelta < 0.0
  {
  }

  lemma OvercoversByResizing(cfg: Config, p: Position, target: Target, spotPx: real, perpPx: real)
    requires Sound(p)
    ensures var plan := MakePlan(cfg, p, target, spotPx, perpPx);
            p.perpQty + plan.perpDelta < 0.0
            <==> plan.reason == Resize && spotPx != 0.0 && target.targetNotional / spotPx < p.spotQty - p.perpQty
  {
    var plan := MakePlan(cfg, p, target, spotPx, perpPx);
    if plan.reason == Rebalance {
      DesiredIsPositive(p.spotQty * spotPx, perpPx);
    } else if plan.reason == Resize {
      PositiveProduct(p.spotQty, spotPx);
    }
  }

  /** Inside the hedge band, outside the size band, with something to hold and something to aim at. */
  predicate Restrikes(cfg: Config, p: Position, target: Target, spotPx: real, perpPx: real) {
    var notional := p.spotQty * spotPx;
    && target.hold && notional > 0.0 && target.targetNotional > 0.0
    && Abs(NetDelta(p, spotPx, perpPx)) / notional <= cfg.rebalanceBand
    && Abs(notional - target.targetNotional) / target.targetNotional > cfg.resizeBand
  }

  lemma ResizesIff(cfg: Config, p: Position, target: Target, spotPx: real, perpPx: real)
    requires Sound(p)
    ensures MakePlan(cfg, p, target, spotPx, perpPx).reason == Resize <==> Restrikes(cfg, p, target, spotPx, perpPx)
  {
    if p.spotQty * spotPx > 0.0 {
      PositiveProduct(p.spotQty, spotPx);
      assert InMarket(p);
    }
  }

  /**
   A plan covers more perp than is short exactly when the hedge is inside its band, the size is outside
   its own, and the target is so small that the spot leg alone exceeds it by more than the perp leg.
   */
  lemma OvercoverIff(cfg: Config, p: Position, target: Target, spotPx: real, perpPx: real)
    requires Sound(p)
    ensures p.perpQty + MakePlan(cfg, p, target, spotPx, perpPx).perpDelta < 0.0
            <==> Restrikes(cfg, p, target, spotPx, perpPx)
                 && spotPx > 0.0 && target.targetNotional / spotPx < p.spotQty - p.perpQty
  {
    OvercoversByResizing(cfg, p, target, spotPx, perpPx);
    ResizesIff(cfg, p, target, spotPx, perpPx);
    if p.spotQty * spotPx > 0.0 {
      PositiveProduct(p.spotQty, spotPx);
    }
  }

  lemma DesiredIsPositive(notional: real, perpPx: real)
    requires notional > 0.0
    ensures perpPx > 0.0 ==> notional / perpPx > 0.0
  {
  }

  // ---------------------------------------------------------------- a fill moves no value

  lemma AveragedEntry(q: real, e: real, dq: real, px: real)
    requires q + dq > 0.0
    ensures (q + dq) * ((q * e + dq * px) / (q + dq)) == q * e + dq * px
  {
  }

  /** The short leg's marked value after a fill, against any mark. */
  lemma PerpLegMoves(p: Position, f: Fill, mark: real)
    requires Sound(p)
    ensures var after := ApplyFill(p, f);
      after.perpQty * (after.perpEntryPx - mark) + Covered(p, f.perpQty) * (p.perpEntryPx - f.perpPx)
      == p.perpQty * (p.perpEntryPx - mark) + (after.perpQty - p.perpQty) * (f.perpPx - mark)
  {
    var after := ApplyFill(p, f);
    if f.perpQty > 0.0 {
      AveragedEntry(p.perpQty, p.perpEntryPx, f.perpQty, f.perpPx);
      AddingToShort(p.perpQty, p.perpEntryPx, f.perpQty, f.perpPx, after.perpEntryPx, mark);
    } else {
      var c := Covered(p, f.perpQty);
      assert after.perpQty == p.perpQty - c;
      if after.perpQty > 0.0 {
        assert after.perpEntryPx == p.perpEntryPx;
      }
      CoveringShort(p.perpQty, p.perpEntryPx, c, f.perpPx, mark);
    }
  }

  lemma AddingToShort(q: real, e: real, dq: real, px: real, avg: real, mark: real)
    requires (q + dq) * avg == q * e + dq * px
    ensures (q + dq) * (avg - mark) == q * (e - mark) + dq * (px - mark)
  {
    assert (q + dq) * (avg - mark) == (q + dq) * avg - (q + dq) * mark;
  }

  lemma CoveringShort(q: real, e: real, c: real, px: real, mark: real)
    ensures (q - c) * (e - mark) + c * (e - px) == q * (e - mark) + -c * (px - mark)
  {
  }

  /**
   Self-financing, on every input: a fill changes equity only by the difference between fill prices and
   marks on the quantities actually traded, less the fee, and by whatever spot is sold that was not held.
   */
  lemma FillIsSelfFinancing(p: Position, cash: real, f: Fill, spotPx: real, perpPx: real)
    requires Sound(p)
    ensures var after := ApplyFill(p, f);
      Equity(after, cash + CashFlow(p, f), spotPx, perpPx) - Equity(p, cash, spotPx, perpPx)
      == f.spotQty * (spotPx - f.spotPx) + (after.perpQty - p.perpQty) * (f.perpPx - perpPx) - f.fee
         + (after.spotQty - (p.spotQty + f.spotQty)) * spotPx
  {
    var after := ApplyFill(p, f);
    PerpLegMoves(p, f, perpPx);
    SpotLegMoves(p.spotQty, f.spotQty, after.spotQty, f.spotPx, spotPx);
  }

  /** A fill that sells no more spot than is held changes equity by its slippage and its fee alone. */
  lemma CoveredFillIsSelfFinancing(p: Position, cash: real, f: Fill, spotPx: real, perpPx: real)
    requires Sound(p) && p.spotQty + f.spotQty >= 0.0
    ensures Equity(ApplyFill(p, f), cash + CashFlow(p, f), spotPx, perpPx) ==
            Equity(p, cash, spotPx, perpPx) + f.spotQty * (spotPx - f.spotPx)
            + (ApplyFill(p, f).perpQty - p.perpQty) * (f.perpPx - perpPx) - f.fee
  {
    FillIsSelfFinancing(p, cash, f, spotPx, perpPx);
    assert ApplyFill(p, f).spotQty == p.spotQty + f.spotQty;
  }

  lemma SpotLegMoves(q: real, dq: real, newQ: real, px: real, mark: real)
    ensures newQ * mark - dq * px - q * mark == dq * (mark - px) + (newQ - (q + dq)) * mark
  {
  }

  lemma FillKeepsSound(p: Position, f: Fill)
    ensures Sound(ApplyFill(p, f))
  {
  }

  /** Buying averages the entry price over what is held, selling leaves it, and a leg sold out forgets it. */
  lemma SpotEntryIsAverage(p: Position, f: Fill)
    requires Sound(p)
    ensures var after := ApplyFill(p, f);
      && (f.spotQty > 0.0 ==>
            after.spotQty * after.spotEntryPx == p.spotQty * p.spotEntryPx + f.spotQty * f.spotPx)
      && (f.spotQty <= 0.0 && after.spotQty > 0.0 ==> after.spotEntryPx == p.spotEntryPx)
      && (after.spotQty == 0.0 ==> after.spotEntryPx == 0.0)
  {
    if f.spotQty > 0.0 {
      AveragedEntry(p.spotQty, p.spotEntryPx, f.spotQty, f.spotPx);
    }
  }

  /** A step counts one flip when it enters the market, or ends a stay in it down to dust, and none otherwise. */
  lemma FlipsCountCrossings(p: Position, f: Fill)
    requires Sound(p)
    ensures var after := ApplyFill(p, f);
      && after.flips
         == p.flips
            + (if !InMarket(p) && InMarket(after) then 1 else 0)
            + (if InMarket(p) && after.spotQty <= 0.000000000001 && after.perpQty <= 0.000000000001 then 1 else 0)
      && (InMarket(p) != InMarket(after) ==> after.flips == p.flips + 1)
      && p.flips <= after.flips <= p.flips + 1
  {
  }
}
