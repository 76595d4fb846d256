/**
 The carry loop with the paper executor (backend/src/carry/carry_runner.py): snapshot, decide, plan,
 execute, accrue. The theorems attribute every unit of final equity.
 */
module CarryRunner {
  import opened Wrappers
  import opened Arithmetic
  import opened CarryManager

  datatype Snapshot = Snapshot(
    spotPx: real, perpPx: real, fundingRate: real, trailingFunding8h: real, isFundingTime: bool)

  datatype Paper = Paper(takerBps: real, slippageBps: real)

  datatype Runner = Runner(cash: real, position: Position, equityLog: seq<real>, actions: seq<Reason>)

  function CostFrac(x: Paper): real { (x.takerBps + x.slippageBps) / 10000.0 }

  function TakerFrac(x: Paper): real { x.takerBps / 10000.0 }

  /** Fills the plan exactly: buyers pay up, sellers receive less, and the taker fee is on the plan. */
  function PaperExecute(x: Paper, plan: Plan, spotPx: real, perpPx: real): Option<Fill> {
    if plan.reason == Noop then None
    else
      Some(Fill(
        plan.spotDelta,
        if plan.spotDelta > 0.0 then spotPx * (1.0 + CostFrac(x)) else spotPx * (1.0 - CostFrac(x)),
        plan.perpDelta,
        if plan.perpDelta > 0.0 then perpPx * (1.0 - CostFrac(x)) else perpPx * (1.0 + CostFrac(x)),
        (Abs(plan.spotDelta) * spotPx + Abs(plan.perpDelta) * perpPx) * TakerFrac(x)))
  }

  function PlanFor(cfg: Config, r: Runner, snap: Snapshot): Plan
    requires cfg.capitalMultiplier != 0.0
  {
    var equity := Equity(r.position, r.cash, snap.spotPx, snap.perpPx);
    MakePlan(cfg, r.position, DecideTarget(cfg, snap.trailingFunding8h, equity), snap.spotPx, snap.perpPx)
  }

  function Filled(r: Runner, report: Option<Fill>): Runner {
    if report.None? then r
    else r.(position := ApplyFill(r.position, report.value), cash := r.cash + CashFlow(r.position, report.value))
  }

  function Accrued(r: Runner, snap: Snapshot): Runner {
    if snap.isFundingTime && InMarket(r.position)
    then r.(position := AccrueFunding(r.position, snap.fundingRate, snap.perpPx)) else r
  }

  function Logged(r: Runner, snap: Snapshot, action: Reason): Runner {
    r.(equityLog := r.equityLog + [Equity(r.position, r.cash, snap.spotPx, snap.perpPx)],
       actions := r.actions + [action])
  }

  /** The end of a step, once the executor has reported. */
  function Settle(r: Runner, snap: Snapshot, plan: Plan, report: Option<Fill>): Runner {
    Logged(Accrued(Filled(r, report), snap), snap, plan.reason)
  }

  function Step(cfg: Config, x: Paper, r: Runner, snap: Snapshot): Runner
    requires cfg.capitalMultiplier != 0.0
  {
    var plan := PlanFor(cfg, r, snap);
    Settle(r, snap, plan, PaperExecute(x, plan, snap.spotPx, snap.perpPx))
  }

  function Run(cfg: Config, x: Paper, r: Runner, snaps: seq<Snapshot>): Runner
    requires cfg.capitalMultiplier != 0.0
  {
    if snaps == [] then r else Step(cfg, x, Run(cfg, x, r, snaps[..|snaps| - 1]), snaps[|snaps| - 1])
  }

  function NewRunner(initialCapital: real): Runner { Runner(initialCapital, FLAT, [], []) }

  class PaperRunner {
    const config: Config
    const paper: Paper
    var cash: real
    var position: Position
    var equityLog: seq<real>
    var actions: seq<Reason>

    ghost function State(): Runner
      reads this
    {
      Runner(cash, position, equityLog, actions)
    }

    constructor (config: Config, paper: Paper, initialCapital: real)
      ensures this.config == config && this.paper == paper && State() == NewRunner(initialCapital)
    {
      this.config, this.paper := config, paper;
      cash, position, equityLog, actions := initialCapital, FLAT, [], [];
    }

    method TakeStep(snap: Snapshot) returns (action: Reason)
      requires config.capitalMultiplier != 0.0
      modifies this
      ensures State() == Step(config, paper, old(State()), snap)
      ensures actions == old(actions) + [action]
    {
      var target := DecideTarget(
        config, snap.trailingFunding8h, Equity(position, cash, snap.spotPx, snap.perpPx));
      var plan := MakePlan(config, position, target, snap.spotPx, snap.perpPx);
      action := plan.reason;
      var report := PaperExecute(paper, plan, snap.spotPx, snap.perpPx);
      if report.Some? {
        var cashFlow := CashFlow(position, report.value);
        position := ApplyFill(position, report.value);
        cash := cash + cashFlow;
      }
      if snap.isFundingTime && InMarket(position) {
        position := AccrueFunding(position, snap.fundingRate, snap.perpPx);
      }
      equityLog := equityLog + [Equity(position, cash, snap.spotPx, snap.perpPx)];
      actions := actions + [action];
    }

    method RunAll(snaps: seq<Snapshot>)
      requires config.capitalMultiplier != 0.0
      modifies this
      ensures State() == Run(config, paper, old(State()), snaps)
    {
      for i := 0 to |snaps|
        invariant State() == Run(config, paper, old(State()), snaps[..i])
      {
        assert snaps[..i + 1][..i] == snaps[..i];
        var _ := TakeStep(snaps[i]);
      }
      assert snaps[..|snaps|] == snaps;
    }
  }

  // ---------------------------------------------------------------- where equity comes from

  /** Funding a position receives at a snapshot. */
  function FundingOn(p: Position, snap: Snapshot): real {
    if snap.isFundingTime && InMarket(p) then snap.fundingRate * p.perpQty * snap.perpPx else 0.0
  }

  /** Funding received at a snapshot, on the short held after that snapshot's trade. */
  function FundingAt(cfg: Config, x: Paper, r: Runner, snap: Snapshot): real
    requires cfg.capitalMultiplier != 0.0
  {
    FundingOn(Filled(r, PaperExecute(x, PlanFor(cfg, r, snap), snap.spotPx, snap.perpPx)).position, snap)
  }

  /** The short quantity a plan really trades: it cannot cover more than is short. */
  function PerpTraded(p: Position, plan: Plan): real { Abs(Max0(p.perpQty + plan.perpDelta) - p.perpQty) }

  /** Spread on what is really traded, and the fee on what was planned. */
  function PlanCost(x: Paper, p: Position, plan: Plan, spotPx: real, perpPx: real): real {
    var spotNotional := Abs(plan.spotDelta) * spotPx;
    (spotNotional + PerpTraded(p, plan) * perpPx) * CostFrac(x) +
    (spotNotional + Abs(plan.perpDelta) * perpPx) * TakerFrac(x)
  }

  function CostAt(cfg: Config, x: Paper, r: Runner, snap: Snapshot): real
    requires cfg.capitalMultiplier != 0.0
  {
    PlanCost(x, r.position, PlanFor(cfg, r, snap), snap.spotPx, snap.perpPx)
  }

  /** Market profit between two snapshots on the position carried from one to the other. */
  function MoveBetween(p: Position, from: Snapshot, to: Snapshot): real {
    p.spotQty * (to.spotPx - from.spotPx) - p.perpQty * (to.perpPx - from.perpPx)
  }

  function TotalFunding(cfg: Config, x: Paper, r: Runner, snaps: seq<Snapshot>): real
    requires cfg.capitalMultiplier != 0.0
  {
    if snaps == [] then 0.0
    else
      var n := |snaps| - 1;
      TotalFunding(cfg, x, r, snaps[..n]) + FundingAt(cfg, x, Run(cfg, x, r, snaps[..n]), snaps[n])
  }

  function TotalCost(cfg: Config, x: Paper, r: Runner, snaps: seq<Snapshot>): real
    requires cfg.capitalMultiplier != 0.0
  {
    if snaps == [] then 0.0
    else
      var n := |snaps| - 1;
      TotalCost(cfg, x, r, snaps[..n]) + CostAt(cfg, x, Run(cfg, x, r, snaps[..n]), snaps[n])
  }

  function TotalMove(cfg: Config, x: Paper, r: Runner, snaps: seq<Snapshot>): real
    requires cfg.capitalMultiplier != 0.0
  {
    if |snaps| <= 1 then 0.0
    else
      var n := |snaps| - 1;
      TotalMove(cfg, x, r, snaps[..n]) + MoveBetween(Run(cfg, x, r, snaps[..n]).position, snaps[n - 1], snaps[n])
  }

  function EquityAt(r: Runner, snap: Snapshot): real { Equity(r.position, r.cash, snap.spotPx, snap.perpPx) }

  lemma SpotSlips(dq: real, px: real, c: real)
    ensures dq * (px - (if dq > 0.0 then px * (1.0 + c) else px * (1.0 - c))) == -(Abs(dq) * px * c)
  {
  }

  lemma PerpSlips(dq: real, moved: real, px: real, c: real)
    requires (dq > 0.0 ==> moved == dq) && (dq <= 0.0 ==> moved <= 0.0)
    ensures moved * ((if dq > 0.0 then px * (1.0 - c) else px * (1.0 + c)) - px) == -(Abs(moved) * px * c)
  {
  }

  lemma PerpMovesAsPlanned(p: Position, f: Fill)
    requires Sound(p)
    ensures var moved := ApplyFill(p, f).perpQty - p.perpQty;
      (f.perpQty > 0.0 ==> moved == f.perpQty) && (f.perpQty <= 0.0 ==> moved <= 0.0)
      && (p.perpQty + f.perpQty >= 0.0 ==> moved == f.perpQty)
  {
  }

  lemma SpreadAndFee(a: real, m: real, d: real, c: real, t: real)
    ensures -(a * c) + -(m * c) - (a + d) * t == -((a + m) * c + (a + d) * t)
  {
  }

  lemma {:induction false} PaperSlips(x: Paper, p: Position, plan: Plan, spotPx: real, perpPx: real, f: Fill)
    requires Sound(p) && PaperExecute(x, plan, spotPx, perpPx) == Some(f)
    ensures f.spotQty * (spotPx - f.spotPx) == -(Abs(plan.spotDelta) * spotPx * CostFrac(x))
    ensures (ApplyFill(p, f).perpQty - p.perpQty) * (f.perpPx - perpPx)
            == -(PerpTraded(p, plan) * perpPx * CostFrac(x))
  {
    PerpMovesAsPlanned(p, f);
    SpotSlips(f.spotQty, spotPx, CostFrac(x));
    PerpSlips(f.perpQty, ApplyFill(p, f).perpQty - p.perpQty, perpPx, CostFrac(x));
  }

  /** The slippage of both legs and the fee make up the plan's cost. */
  lemma SlippageIsCost(x: Paper, p: Position, plan: Plan, spotPx: real, perpPx: real, f: Fill)
    requires Sound(p) && PaperExecute(x, plan, spotPx, perpPx) == Some(f)
    ensures f.spotQty * (spotPx - f.spotPx) + (ApplyFill(p, f).perpQty - p.perpQty) * (f.perpPx - perpPx) - f.fee
            == -PlanCost(x, p, plan, spotPx, perpPx)
  {
    PaperSlips(x, p, plan, spotPx, perpPx, f);
    SpreadAndFee(Abs(plan.spotDelta) * spotPx, PerpTraded(p, plan) * perpPx, Abs(plan.perpDelta) * perpPx,
                 CostFrac(x), TakerFrac(x));
  }

  /** Any plan that does not oversell spot, filled on paper, costs its spread and its fee. */
  lemma PaperFillCosts(x: Paper, p: Position, cash: real, plan: Plan, spotPx: real, perpPx: real, f: Fill)
    requires Sound(p) && p.spotQty + plan.spotDelta >= 0.0
    requires PaperExecute(x, plan, spotPx, perpPx) == Some(f)
    ensures Equity(ApplyFill(p, f), cash + CashFlow(p, f), spotPx, perpPx)
            == Equity(p, cash, spotPx, perpPx) - PlanCost(x, p, plan, spotPx, perpPx)
  {
    CoveredFillIsSelfFinancing(p, cash, f, spotPx, perpPx);
    SlippageIsCost(x, p, plan, spotPx, perpPx, f);
  }

  lemma NoopCostsNothing(x: Paper, p: Position, spotPx: real, perpPx: real)
    requires Sound(p)
    ensures PlanCost(x, p, NOOP, spotPx, perpPx) == 0.0
  {
  }

  /** Executing a plan lowers equity by the plan's cost and keeps both legs on their side of zero. */
  lemma PlanCosts(x: Paper, r: Runner, snap: Snapshot, plan: Plan, traded: Runner)
    requires Sound(r.position) && r.position.spotQty + plan.spotDelta >= 0.0
    requires plan.reason == Noop ==> plan == NOOP
    requires traded == Filled(r, PaperExecute(x, plan, snap.spotPx, snap.perpPx))
    ensures EquityAt(traded, snap) == EquityAt(r, snap) - PlanCost(x, r.position, plan, snap.spotPx, snap.perpPx)
    ensures Sound(traded.position)
  {
    if plan.reason == Noop {
      NoopCostsNothing(x, r.position, snap.spotPx, snap.perpPx);
    } else {
      var f := PaperExecute(x, plan, snap.spotPx, snap.perpPx).value;
      PaperFillCosts(x, r.position, r.cash, plan, snap.spotPx, snap.perpPx, f);
      FillKeepsSound(r.position, f);
    }
  }

  lemma PlanIsExecutable(cfg: Config, r: Runner, snap: Snapshot, plan: Plan)
    requires cfg.capitalMultiplier != 0.0 && Sound(r.position) && plan == PlanFor(cfg, r, snap)
    ensures r.position.spotQty + plan.spotDelta >= 0.0 && (plan.reason == Noop ==> plan == NOOP)
  {
    var target := DecideTarget(cfg, snap.trailingFunding8h, EquityAt(r, snap));
    PlanNeverOversellsSpot(cfg, r.position, target, snap.spotPx, snap.perpPx);
  }

  lemma AccrualAdds(r: Runner, snap: Snapshot, after: Runner, action: Reason)
    requires after == Logged(Accrued(r, snap), snap, action)
    ensures EquityAt(after, snap) == EquityAt(r, snap) + FundingOn(r.position, snap)
    ensures after.position.spotQty == r.position.spotQty && after.position.perpQty == r.position.perpQty
  {
  }

  lemma StepEquity(
    cfg: Config, x: Paper, r: Runner, snap: Snapshot, after: Runner, funding: real, cost: real)
    requires cfg.capitalMultiplier != 0.0 && Sound(r.position) && after == Step(cfg, x, r, snap)
    requires funding == FundingAt(cfg, x, r, snap) && cost == CostAt(cfg, x, r, snap)
    ensures Sound(after.position)
    ensures EquityAt(after, snap) == EquityAt(r, snap) + funding - cost
  {
    var plan := PlanFor(cfg, r, snap);
    var traded := Filled(r, PaperExecute(x, plan, snap.spotPx, snap.perpPx));
    PlanIsExecutable(cfg, r, snap, plan);
    PlanCosts(x, r, snap, plan, traded);
    AccrualAdds(traded, snap, after, plan.reason);
  }

  lemma CarryBetween(r: Runner, from: Snapshot, to: Snapshot)
    ensures EquityAt(r, to) == EquityAt(r, from) + MoveBetween(r.position, from, to)
  {
    var p := r.position;
    assert p.spotQty * (to.spotPx - from.spotPx) == p.spotQty * to.spotPx - p.spotQty * from.spotPx;
    assert p.perpQty * (p.perpEntryPx - to.perpPx) ==
           p.perpQty * (p.perpEntryPx - from.perpPx) - p.perpQty * (to.perpPx - from.perpPx);
  }

  /**
   Profit attribution. After any run, equity is the initial capital, plus what the carried position
   gained between snapshots, plus funding received, less trading cost: nothing else.
   */
  lemma {:induction false} ProfitAttribution(cfg: Config, x: Paper, capital: real, snaps: seq<Snapshot>, r: Runner)
    requires cfg.capitalMultiplier != 0.0 && snaps != []
    requires r == Run(cfg, x, NewRunner(capital), snaps)
    ensures Sound(r.position)
    ensures EquityAt(r, snaps[|snaps| - 1]) ==
            capital + TotalMove(cfg, x, NewRunner(capital), snaps)
                    + TotalFunding(cfg, x, NewRunner(capital), snaps) - TotalCost(cfg, x, NewRunner(capital), snaps)
  {
    var n := |snaps| - 1;
    var r0 := NewRunner(capital);
    var before := Run(cfg, x, r0, snaps[..n]);
    if n == 0 {
      assert snaps[..n] == [];
      FlatIsCash(capital, snaps[n]);
    } else {
      ProfitAttribution(cfg, x, capital, snaps[..n], before);
      CarryBetween(before, snaps[n - 1], snaps[n]);
    }
    StepEquity(cfg, x, before, snaps[n], r,
               FundingAt(cfg, x, before, snaps[n]), CostAt(cfg, x, before, snaps[n]));
  }

  lemma FlatIsCash(capital: real, snap: Snapshot)
    ensures EquityAt(NewRunner(capital), snap) == capital && Sound(FLAT)
  {
  }

  lemma LogGrows(cfg: Config, x: Paper, before: Runner, snap: Snapshot, after: Runner)
    requires cfg.capitalMultiplier != 0.0 && after == Step(cfg, x, before, snap)
    ensures after.equityLog == before.equityLog + [EquityAt(after, snap)]
    ensures after.actions == before.actions + [PlanFor(cfg, before, snap).reason]
  {
  }

  /** One equity and one action per snapshot, and the last equity is the one at the last snapshot. */
  lemma {:induction false} LogEndsWithEquity(cfg: Config, x: Paper, r0: Runner, snaps: seq<Snapshot>, r: Runner)
    requires cfg.capitalMultiplier != 0.0 && r == Run(cfg, x, r0, snaps)
    ensures |r.equityLog| == |r0.equityLog| + |snaps| && |r.actions| == |r0.actions| + |snaps|
    ensures snaps != [] ==> r.equityLog[|r.equityLog| - 1] == EquityAt(r, snaps[|snaps| - 1])
  {
    if snaps != [] {
      var n := |snaps| - 1;
      var before := Run(cfg, x, r0, snaps[..n]);
      LogEndsWithEquity(cfg, x, r0, snaps[..n], before);
      LogGrows(cfg, x, before, snaps[n], r);
    }
  }

  /** Every entry: the equity the runner had after that snapshot, and the action it planned at it. */
  lemma {:induction false} LogEntry(cfg: Config, x: Paper, r0: Runner, snaps: seq<Snapshot>, r: Runner, i: nat)
    requires cfg.capitalMultiplier != 0.0 && r == Run(cfg, x, r0, snaps) && i < |snaps|
    ensures |r0.equityLog| + i < |r.equityLog| && |r0.actions| + i < |r.actions|
    ensures r.equityLog[|r0.equityLog| + i] == EquityAt(Run(cfg, x, r0, snaps[..i + 1]), snaps[i])
    ensures r.actions[|r0.actions| + i] == PlanFor(cfg, Run(cfg, x, r0, snaps[..i]), snaps[i]).reason
  {
    var n := |snaps| - 1;
    var before := Run(cfg, x, r0, snaps[..n]);
    LogEndsWithEquity(cfg, x, r0, snaps[..n], before);
    LogGrows(cfg, x, before, snaps[n], r);
    if i < n {
      LogEntry(cfg, x, r0, snaps[..n], before, i);
      assert snaps[..n][..i + 1] == snaps[..i + 1] && snaps[..n][..i] == snaps[..i];
    } else {
      assert snaps[..i + 1] == snaps;
    }
  }

  // ---------------------------------------------------------------- coinciding marks

  ghost predicate Coincide(snaps: seq<Snapshot>) { forall s | s in snaps :: s.spotPx == s.perpPx }

  /** With equal legs and equal marks there is no net delta, so every plan trades both legs alike. */
  lemma EvenPlan(cfg: Config, p: Position, target: Target, px: real)
    requires Sound(p) && p.spotQty == p.perpQty && cfg.rebalanceBand >= 0.0
    ensures var plan := MakePlan(cfg, p, target, px, px);
      plan.reason != Rebalance && plan.spotDelta == plan.perpDelta
  {
    assert NetDelta(p, px, px) == 0.0;
    if p.spotQty * px > 0.0 {
      ZeroQuotient(p.spotQty * px);
    }
  }

  lemma ZeroQuotient(d: real)
    requires d > 0.0
    ensures Abs(0.0) / d == 0.0
  {
  }

  lemma EvenCost(q: real, px: real, taker: real, slip: real)
    ensures (q * px + q * px) * ((taker + slip) / 10000.0) + (q * px + q * px) * (taker / 10000.0)
            == 2.0 * q * px * (2.0 * taker + slip) / 10000.0
  {
  }

  /** A step with equal legs and marks: the legs stay equal, and cost is on the notional of both trades. */
  lemma EvenStep(cfg: Config, x: Paper, r: Runner, snap: Snapshot, after: Runner, plan: Plan, cost: real)
    requires cfg.capitalMultiplier != 0.0 && cfg.rebalanceBand >= 0.0
    requires Sound(r.position) && r.position.spotQty == r.position.perpQty && snap.spotPx == snap.perpPx
    requires after == Step(cfg, x, r, snap) && plan == PlanFor(cfg, r, snap) && cost == CostAt(cfg, x, r, snap)
    ensures Sound(after.position) && after.position.spotQty == after.position.perpQty
    ensures after.actions == r.actions + [plan.reason] && plan.reason != Rebalance
    ensures plan.spotDelta == plan.perpDelta == after.position.spotQty - r.position.spotQty
    ensures cost == 2.0 * Abs(plan.spotDelta) * snap.spotPx * (2.0 * x.takerBps + x.slippageBps) / 10000.0
  {
    EvenPlanFor(cfg, r, snap, plan);
    EvenLegs(x, r, snap, plan, after);
    EvenCostAt(cfg, x, r, snap, plan, cost);
  }

  lemma EvenCostAt(cfg: Config, x: Paper, r: Runner, snap: Snapshot, plan: Plan, cost: real)
    requires cfg.capitalMultiplier != 0.0 && plan == PlanFor(cfg, r, snap) && cost == CostAt(cfg, x, r, snap)
    requires Sound(r.position) && r.position.spotQty == r.position.perpQty && snap.spotPx == snap.perpPx
    requires plan.spotDelta == plan.perpDelta && r.position.spotQty + plan.spotDelta >= 0.0
    ensures cost == 2.0 * Abs(plan.spotDelta) * snap.spotPx * (2.0 * x.takerBps + x.slippageBps) / 10000.0
  {
    assert cost == PlanCost(x, r.position, plan, snap.spotPx, snap.perpPx);
    EvenPlanCost(x, r.position, plan, snap.spotPx);
  }

  /** What a plan that trades both legs alike makes of them. */
  lemma EvenLegs(x: Paper, r: Runner, snap: Snapshot, plan: Plan, after: Runner)
    requires Sound(r.position) && r.position.spotQty == r.position.perpQty && snap.spotPx == snap.perpPx
    requires plan.spotDelta == plan.perpDelta && r.position.spotQty + plan.spotDelta >= 0.0
    requires plan.reason == Noop ==> plan == NOOP
    requires after == Settle(r, snap, plan, PaperExecute(x, plan, snap.spotPx, snap.perpPx))
    ensures Sound(after.position) && after.position.spotQty == after.position.perpQty
    ensures after.actions == r.actions + [plan.reason]
    ensures plan.spotDelta == after.position.spotQty - r.position.spotQty
  {
    var traded := Filled(r, PaperExecute(x, plan, snap.spotPx, snap.perpPx));
    EvenFill(r, plan, x, snap.spotPx, traded);
    AccrualAdds(traded, snap, after, plan.reason);
  }

  lemma EvenPlanFor(cfg: Config, r: Runner, snap: Snapshot, plan: Plan)
    requires cfg.capitalMultiplier != 0.0 && cfg.rebalanceBand >= 0.0 && plan == PlanFor(cfg, r, snap)
    requires Sound(r.position) && r.position.spotQty == r.position.perpQty && snap.spotPx == snap.perpPx
    ensures plan.reason != Rebalance && plan.spotDelta == plan.perpDelta
    ensures r.position.spotQty + plan.spotDelta >= 0.0 && (plan.reason == Noop ==> plan == NOOP)
  {
    EvenPlan(cfg, r.position, DecideTarget(cfg, snap.trailingFunding8h, EquityAt(r, snap)), snap.spotPx);
    PlanIsExecutable(cfg, r, snap, plan);
  }

  lemma EvenPlanCost(x: Paper, p: Position, plan: Plan, px: real)
    requires Sound(p) && p.spotQty == p.perpQty
    requires plan.spotDelta == plan.perpDelta && p.spotQty + plan.spotDelta >= 0.0
    ensures PlanCost(x, p, plan, px, px)
            == 2.0 * Abs(plan.spotDelta) * px * (2.0 * x.takerBps + x.slippageBps) / 10000.0
  {
    EvenCost(Abs(plan.spotDelta), px, x.takerBps, x.slippageBps);
  }

  lemma EvenFill(r: Runner, plan: Plan, x: Paper, px: real, traded: Runner)
    requires Sound(r.position) && r.position.spotQty == r.position.perpQty
    requires plan.spotDelta == plan.perpDelta && r.position.spotQty + plan.spotDelta >= 0.0
    requires plan.reason == Noop ==> plan == NOOP
    requires traded == Filled(r, PaperExecute(x, plan, px, px))
    ensures Sound(traded.position) && traded.position.spotQty == traded.position.perpQty
    ensures traded.position.spotQty - r.position.spotQty == plan.spotDelta
    ensures traded.position.perpQty - r.position.perpQty == plan.spotDelta
  {
  }

  /**
   Price-path independence. When spot and perp marks coincide at every snapshot, as the historical
   provider emits them, the two legs are equal in every reachable state, no rebalance is ever planned,
   and equity is the initial capital plus funding less cost, whatever the prices did.
   */
  lemma {:induction false} PricePathIndependence(
    cfg: Config, x: Paper, capital: real, snaps: seq<Snapshot>, r: Runner)
    requires cfg.capitalMultiplier != 0.0 && cfg.rebalanceBand >= 0.0
    requires Coincide(snaps) && r == Run(cfg, x, NewRunner(capital), snaps)
    ensures Sound(r.position) && r.position.spotQty == r.position.perpQty && Rebalance !in r.actions
    ensures TotalMove(cfg, x, NewRunner(capital), snaps) == 0.0
    ensures snaps != [] ==>
              EquityAt(r, snaps[|snaps| - 1]) ==
              capital + TotalFunding(cfg, x, NewRunner(capital), snaps) - TotalCost(cfg, x, NewRunner(capital), snaps)
  {
    if snaps != [] {
      var n := |snaps| - 1;
      var before := Run(cfg, x, NewRunner(capital), snaps[..n]);
      assert forall s | s in snaps[..n] :: s in snaps;
      PricePathIndependence(cfg, x, capital, snaps[..n], before);
      assert snaps[n] in snaps;
      EvenStep(cfg, x, before, snaps[n], r, PlanFor(cfg, before, snaps[n]), CostAt(cfg, x, before, snaps[n]));
      if n > 0 {
        assert snaps[n - 1] in snaps;
        EvenMove(before.position, snaps[n - 1], snaps[n]);
      }
      ProfitAttribution(cfg, x, capital, snaps, r);
    }
  }

  lemma EvenMove(p: Position, from: Snapshot, to: Snapshot)
    requires p.spotQty == p.perpQty && from.spotPx == from.perpPx && to.spotPx == to.perpPx
    ensures MoveBetween(p, from, to) == 0.0
  {
  }
}
