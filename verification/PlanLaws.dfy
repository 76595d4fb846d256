/**
 What a carry plan is for (backend/src/carry/position_manager.py, plan): when each kind is made, and what
 filling it in full achieves.
 */
module PlanLaws {
  import opened Arithmetic
  import opened CarryManager
  import opened CarryRunner

  // ---------------------------------------------------------------- the target

  /** The pair is held while funding is at or above the minimum, and then sized to use the capital multiplier. */
  lemma TargetIs(cfg: Config, funding: real, equity: real)
    requires cfg.capitalMultiplier != 0.0
    ensures var target := DecideTarget(cfg, funding, equity);
            && (target.hold <==> funding >= cfg.minTrailingFunding8h)
            && (target.hold && equity >= 0.0 ==> target.targetNotional * cfg.capitalMultiplier == equity)
            && (!target.hold || equity <= 0.0 ==> target.targetNotional == 0.0)
  {
    MultiplyBack(equity, cfg.capitalMultiplier);
  }

  // ---------------------------------------------------------------- when each plan is made

  /** The hedge is out of its band: the net delta is more than that fraction of the spot notional. */
  predicate OutOfHedge(cfg: Config, p: Position, spotPx: real, perpPx: real) {
    var notional := p.spotQty * spotPx;
    notional > 0.0 && Abs(p.spotQty * spotPx - p.perpQty * perpPx) > cfg.rebalanceBand * notional
  }

  /** The size is out of its band around a positive target. */
  predicate OutOfSize(cfg: Config, p: Position, target: real, spotPx: real) {
    p.spotQty * spotPx > 0.0 && target > 0.0 && Abs(p.spotQty * spotPx - target) > cfg.resizeBand * target
  }

  /** Which plan is made, from the position, the target and the prices: one condition for each. */
  predicate PlanIsDue(cfg: Config, p: Position, target: Target, spotPx: real, perpPx: real, reason: Reason) {
    var held := p.spotQty > 0.0 || p.perpQty > 0.0;
    match reason
    case Close => !target.hold && held
    case Open => target.hold && !held && spotPx > 0.0 && target.targetNotional > 0.0
    case Rebalance => target.hold && OutOfHedge(cfg, p, spotPx, perpPx)
    case Resize =>
      target.hold && !OutOfHedge(cfg, p, spotPx, perpPx) && OutOfSize(cfg, p, target.targetNotional, spotPx)
    case Noop =>
      if !target.hold then !held
      else if !held then spotPx <= 0.0 || target.targetNotional <= 0.0
      else !OutOfHedge(cfg, p, spotPx, perpPx) && !OutOfSize(cfg, p, target.targetNotional, spotPx)
  }

  lemma QuotientExceeds(x: real, d: real, band: real)
    requires d > 0.0
    ensures x / d > band <==> x > band * d
  {
  }

  lemma QuotientSign(x: real, d: real)
    requires d > 0.0
    ensures x / d <= 0.0 <==> x <= 0.0
  {
  }

  lemma HedgeIff(cfg: Config, p: Position, spotPx: real, perpPx: real)
    ensures p.spotQty * spotPx > 0.0 && Abs(NetDelta(p, spotPx, perpPx)) / (p.spotQty * spotPx) > cfg.rebalanceBand
            <==> OutOfHedge(cfg, p, spotPx, perpPx)
  {
    var notional := p.spotQty * spotPx;
    if notional > 0.0 {
      QuotientExceeds(Abs(NetDelta(p, spotPx, perpPx)), notional, cfg.rebalanceBand);
    }
  }

  lemma SizeIff(cfg: Config, p: Position, target: real, spotPx: real)
    ensures target > 0.0 && p.spotQty * spotPx > 0.0 && Abs(p.spotQty * spotPx - target) / target > cfg.resizeBand
            <==> OutOfSize(cfg, p, target, spotPx)
  {
    if target > 0.0 {
      QuotientExceeds(Abs(p.spotQty * spotPx - target), target, cfg.resizeBand);
    }
  }

  lemma ReasonWhenOut(cfg: Config, p: Position, target: Target, spotPx: real, perpPx: real)
    requires !target.hold || !InMarket(p)
    ensures PlanIsDue(cfg, p, target, spotPx, perpPx, MakePlan(cfg, p, target, spotPx, perpPx).reason)
  {
    if spotPx > 0.0 {
      QuotientSign(target.targetNotional, spotPx);
    }
  }

  lemma RebalancesIff(cfg: Config, p: Position, target: Target, spotPx: real, perpPx: real)
    ensures var notional := p.spotQty * spotPx;
            MakePlan(cfg, p, target, spotPx, perpPx).reason == Rebalance
            <==> target.hold && InMarket(p) && notional > 0.0
                 && Abs(NetDelta(p, spotPx, perpPx)) / notional > cfg.rebalanceBand
  {
    var notional, delta := p.spotQty * spotPx, NetDelta(p, spotPx, perpPx);
    var plan := MakePlan(cfg, p, target, spotPx, perpPx);
    if target.hold && InMarket(p) {
      if notional > 0.0 {
        var strayed := Abs(delta) / notional;
        assert strayed > cfg.rebalanceBand ==> plan.reason == Rebalance;
      }
    }
  }

  lemma ReasonsWhenIn(cfg: Config, p: Position, target: Target, spotPx: real, perpPx: real)
    requires target.hold && InMarket(p)
    ensures MakePlan(cfg, p, target, spotPx, perpPx).reason in {Rebalance, Resize, Noop}
  {
  }

  lemma ReasonWhenIn(cfg: Config, p: Position, target: Target, spotPx: real, perpPx: real)
    requires target.hold && InMarket(p) && Sound(p)
    ensures PlanIsDue(cfg, p, target, spotPx, perpPx, MakePlan(cfg, p, target, spotPx, perpPx).reason)
  {
    HedgeIff(cfg, p, spotPx, perpPx);
    SizeIff(cfg, p, target.targetNotional, spotPx);
    RebalancesIff(cfg, p, target, spotPx, perpPx);
    ResizesIff(cfg, p, target, spotPx, perpPx);
    ReasonsWhenIn(cfg, p, target, spotPx, perpPx);
    RestrikesIff(cfg, p, target, spotPx, perpPx);
  }

  lemma RestrikesIff(cfg: Config, p: Position, target: Target, spotPx: real, perpPx: real)
    ensures Restrikes(cfg, p, target, spotPx, perpPx)
            <==> target.hold && !OutOfHedge(cfg, p, spotPx, perpPx)
                 && OutOfSize(cfg, p, target.targetNotional, spotPx)
  {
    HedgeIff(cfg, p, spotPx, perpPx);
    SizeIff(cfg, p, target.targetNotional, spotPx);
  }

  lemma PlanHasReason(cfg: Config, p: Position, target: Target, spotPx: real, perpPx: real)
    requires Sound(p)
    ensures PlanIsDue(cfg, p, target, spotPx, perpPx, MakePlan(cfg, p, target, spotPx, perpPx).reason)
  {
    if target.hold && InMarket(p) {
      ReasonWhenIn(cfg, p, target, spotPx, perpPx);
    } else {
      ReasonWhenOut(cfg, p, target, spotPx, perpPx);
    }
  }

  lemma OneReason(cfg: Config, p: Position, target: Target, spotPx: real, perpPx: real, a: Reason, b: Reason)
    requires Sound(p)
    requires PlanIsDue(cfg, p, target, spotPx, perpPx, a) && PlanIsDue(cfg, p, target, spotPx, perpPx, b)
    ensures a == b
  {
    if p.spotQty * spotPx > 0.0 {
      PositiveProduct(p.spotQty, spotPx);
    }
  }

  /** So every plan is made exactly when it is due. */
  lemma PlanIffDue(cfg: Config, p: Position, target: Target, spotPx: real, perpPx: real, reason: Reason)
    requires Sound(p)
    ensures MakePlan(cfg, p, target, spotPx, perpPx).reason == reason
            <==> PlanIsDue(cfg, p, target, spotPx, perpPx, reason)
  {
    PlanHasReason(cfg, p, target, spotPx, perpPx);
    if PlanIsDue(cfg, p, target, spotPx, perpPx, reason) {
      OneReason(cfg, p, target, spotPx, perpPx, reason, MakePlan(cfg, p, target, spotPx, perpPx).reason);
    }
  }

  // ---------------------------------------------------------------- what a plan achieves

  /** The two legs after the plan's own quantities are filled, at whatever prices. */
  predicate FillsPlan(plan: Plan, f: Fill) { f.spotQty == plan.spotDelta && f.perpQty == plan.perpDelta }

  /** What filling a plan in full is for. */
  predicate Achieves(
    p: Position, spot: real, perp: real, target: Target, spotPx: real, perpPx: real, reason: Reason)
  {
    match reason
    case Close => spot == 0.0 && perp == 0.0
    case Open => spot * spotPx == target.targetNotional && perp == spot
    case Rebalance => spot == p.spotQty && if perpPx > 0.0 then spot * spotPx - perp * perpPx == 0.0 else perp == p.perpQty
    case Resize => spot * spotPx == target.targetNotional && perp == Max0(p.perpQty + (spot - p.spotQty))
    case Noop => spot == p.spotQty && perp == p.perpQty
  }

  lemma MultiplyBack(x: real, d: real)
    requires d != 0.0
    ensures x / d * d == x
  {
  }

  lemma FillQuantities(p: Position, f: Fill)
    ensures var after := ApplyFill(p, f);
            after.spotQty == Max0(p.spotQty + f.spotQty) && after.perpQty == Max0(p.perpQty + f.perpQty)
  {
  }

  lemma OpenAsks(cfg: Config, p: Position, target: Target, spotPx: real, perpPx: real, plan: Plan)
    requires plan == MakePlan(cfg, p, target, spotPx, perpPx) && plan.reason == Open
    ensures plan.spotDelta == plan.perpDelta > 0.0 && plan.spotDelta * spotPx == target.targetNotional && !InMarket(p)
  {
    MultiplyBack(target.targetNotional, spotPx);
  }

  lemma RebalanceAsks(cfg: Config, p: Position, target: Target, spotPx: real, perpPx: real, plan: Plan)
    requires plan == MakePlan(cfg, p, target, spotPx, perpPx) && plan.reason == Rebalance
    ensures plan.spotDelta == 0.0
    ensures if perpPx > 0.0 then p.perpQty + plan.perpDelta >= 0.0
                                 && (p.perpQty + plan.perpDelta) * perpPx == p.spotQty * spotPx
            else plan.perpDelta == 0.0
  {
    if perpPx > 0.0 {
      PositiveQuotient(p.spotQty * spotPx, perpPx);
      MultiplyBack(p.spotQty * spotPx, perpPx);
    }
  }

  lemma ResizeAsks(cfg: Config, p: Position, target: Target, spotPx: real, perpPx: real, plan: Plan)
    requires Sound(p) && plan == MakePlan(cfg, p, target, spotPx, perpPx) && plan.reason == Resize
    ensures plan.spotDelta == plan.perpDelta && p.spotQty + plan.spotDelta >= 0.0
    ensures (p.spotQty + plan.spotDelta) * spotPx == target.targetNotional
  {
    PositiveProduct(p.spotQty, spotPx);
    PositiveQuotient(target.targetNotional, spotPx);
    MultiplyBack(target.targetNotional, spotPx);
  }

  lemma CloseAsks(cfg: Config, p: Position, target: Target, spotPx: real, perpPx: real, plan: Plan)
    requires plan == MakePlan(cfg, p, target, spotPx, perpPx) && plan.reason == Close
    ensures plan.spotDelta == -p.spotQty && plan.perpDelta == -p.perpQty
  {
  }

  lemma PlanLegs(cfg: Config, p: Position, target: Target, spotPx: real, perpPx: real, plan: Plan, spot: real, perp: real)
    requires Sound(p) && plan == MakePlan(cfg, p, target, spotPx, perpPx)
    requires spot == Max0(p.spotQty + plan.spotDelta) && perp == Max0(p.perpQty + plan.perpDelta)
    ensures Achieves(p, spot, perp, target, spotPx, perpPx, plan.reason)
  {
    match plan.reason {
      case Close => CloseAsks(cfg, p, target, spotPx, perpPx, plan);
      case Open =>
        OpenAsks(cfg, p, target, spotPx, perpPx, plan);
        assert spot == plan.spotDelta;
      case Rebalance => RebalanceAsks(cfg, p, target, spotPx, perpPx, plan);
      case Resize =>
        ResizeAsks(cfg, p, target, spotPx, perpPx, plan);
        assert spot == p.spotQty + plan.spotDelta;
      case Noop => NoopAsks(cfg, p, target, spotPx, perpPx, plan);
    }
  }

  lemma NoopAsks(cfg: Config, p: Position, target: Target, spotPx: real, perpPx: real, plan: Plan)
    requires plan == MakePlan(cfg, p, target, spotPx, perpPx) && plan.reason == Noop
    ensures plan == NOOP
  {
  }

  /** Filling a plan in full, at whatever prices and fee, does what the plan was made for. */
  lemma PlanAchieves(cfg: Config, p: Position, target: Target, spotPx: real, perpPx: real, plan: Plan, f: Fill)
    requires Sound(p) && plan == MakePlan(cfg, p, target, spotPx, perpPx) && FillsPlan(plan, f)
    ensures var after := ApplyFill(p, f);
            Achieves(p, after.spotQty, after.perpQty, target, spotPx, perpPx, plan.reason)
  {
    FillQuantities(p, f);
    PlanLegs(cfg, p, target, spotPx, perpPx, plan, ApplyFill(p, f).spotQty, ApplyFill(p, f).perpQty);
  }

  // ---------------------------------------------------------------- over a run

  /** A step made the plan that was due and did what it is for. */
  ghost predicate StepServes(cfg: Config, r: Runner, snap: Snapshot, after: Runner)
    requires cfg.capitalMultiplier != 0.0
  {
    var target := DecideTarget(cfg, snap.trailingFunding8h, EquityAt(r, snap));
    && after.actions != []
    && PlanIsDue(cfg, r.position, target, snap.spotPx, snap.perpPx, after.actions[|after.actions| - 1])
    && Achieves(r.position, after.position.spotQty, after.position.perpQty, target, snap.spotPx, snap.perpPx,
                after.actions[|after.actions| - 1])
  }

  lemma StepLegs(cfg: Config, x: Paper, r: Runner, snap: Snapshot, plan: Plan, after: Runner)
    requires cfg.capitalMultiplier != 0.0 && Sound(r.position)
    requires plan == PlanFor(cfg, r, snap) && after == Step(cfg, x, r, snap)
    ensures after.actions == r.actions + [plan.reason]
    ensures after.position.spotQty == Max0(r.position.spotQty + plan.spotDelta)
    ensures after.position.perpQty == Max0(r.position.perpQty + plan.perpDelta)
  {
    var report := PaperExecute(x, plan, snap.spotPx, snap.perpPx);
    AccrualAdds(Filled(r, report), snap, after, plan.reason);
    if report.Some? {
      FillQuantities(r.position, report.value);
    } else {
      PlanIsExecutable(cfg, r, snap, plan);
    }
  }

  lemma StepIsServed(cfg: Config, x: Paper, r: Runner, snap: Snapshot, after: Runner)
    requires cfg.capitalMultiplier != 0.0 && Sound(r.position) && after == Step(cfg, x, r, snap)
    ensures StepServes(cfg, r, snap, after)
  {
    var target := DecideTarget(cfg, snap.trailingFunding8h, EquityAt(r, snap));
    var plan := PlanFor(cfg, r, snap);
    StepLegs(cfg, x, r, snap, plan, after);
    PlanHasReason(cfg, r.position, target, snap.spotPx, snap.perpPx);
    PlanLegs(cfg, r.position, target, snap.spotPx, snap.perpPx, plan, after.position.spotQty, after.position.perpQty);
  }

  lemma {:induction false} RunIsSound(cfg: Config, x: Paper, initialCapital: real, snaps: seq<Snapshot>, r: Runner)
    requires cfg.capitalMultiplier != 0.0 && r == Run(cfg, x, NewRunner(initialCapital), snaps)
    ensures Sound(r.position)
  {
    if snaps != [] {
      var n := |snaps| - 1;
      var before := Run(cfg, x, NewRunner(initialCapital), snaps[..n]);
      RunIsSound(cfg, x, initialCapital, snaps[..n], before);
      StepIsSound(cfg, x, before, snaps[n], r);
    }
  }

  lemma StepIsSound(cfg: Config, x: Paper, r: Runner, snap: Snapshot, after: Runner)
    requires cfg.capitalMultiplier != 0.0 && Sound(r.position) && after == Step(cfg, x, r, snap)
    ensures Sound(after.position)
  {
    StepEquity(cfg, x, r, snap, after, FundingAt(cfg, x, r, snap), CostAt(cfg, x, r, snap));
  }

  /** Over every run of the paper loop, each step does what its plan was due for. */
  lemma {:induction false} RunIsServed(cfg: Config, x: Paper, initialCapital: real, snaps: seq<Snapshot>, r: Runner, after: Runner)
    requires cfg.capitalMultiplier != 0.0 && snaps != []
    requires r == Run(cfg, x, NewRunner(initialCapital), snaps[..|snaps| - 1])
    requires after == Run(cfg, x, NewRunner(initialCapital), snaps)
    ensures StepServes(cfg, r, snaps[|snaps| - 1], after)
    ensures snaps[|snaps| - 1].trailingFunding8h < cfg.minTrailingFunding8h ==> !InMarket(after.position)
  {
    var snap := snaps[|snaps| - 1];
    RunIsSound(cfg, x, initialCapital, snaps[..|snaps| - 1], r);
    StepIsServed(cfg, x, r, snap, after);
    TargetIs(cfg, snap.trailingFunding8h, EquityAt(r, snap));
  }
}
