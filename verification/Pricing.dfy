/**
 The engine's decisions that read state and change none: fill prices and sizes
 (backend/src/execution/simulated_pricing.py), exits (simulated_exits.py) and the pre-trade
 gate (risk_gate.py).
 */
module Pricing {
  import opened Wrappers
  import opened Arithmetic
  import opened StateStore

  datatype FillAt = AtClose | AtNextOpen | AtMid

  datatype Config = Config(
    fillAt: FillAt, slippageBps: real, feeBps: real, maxBarsInTrade: int,
    riskPctPerTrade: real, longOnly: bool, exposurePctPerTrade: real)

  datatype Bar = Bar(open: real, high: real, low: real, close: real)

  datatype OrderSide = Buy | Sell

  function Slippage(cfg: Config): real { cfg.slippageBps / 10000.0 }

  function FeeRate(cfg: Config): real { cfg.feeBps / 10000.0 }

  function FillPrice(cfg: Config, bar: Bar, side: OrderSide, useNextOpen: bool): real {
    var base :=
      if useNextOpen || cfg.fillAt == AtNextOpen then bar.open
      else if cfg.fillAt == AtMid then (bar.high + bar.low) / 2.0
      else bar.close;
    if side == Buy then base * (1.0 + Slippage(cfg)) else base * (1.0 - Slippage(cfg))
  }

  // ---------------------------------------------------------------- sizing

  function RoundHalfEven(x: real): int {
    var down := x.Floor;
    var part := x - down as real;
    if part < 0.5 || (part == 0.5 && down % 2 == 0) then down else down + 1
  }

  /** The nearest whole number, and of two equally near the even one. */
  lemma RoundIsNearest(x: real)
    ensures var r := RoundHalfEven(x);
            && -0.5 <= r as real - x <= 0.5 && (r as real - x == 0.5 || r as real - x == -0.5 ==> r % 2 == 0)
  {
  }

  const UNITS_PER_LOT := 100000000.0

  /** `round(q, 8)`. */
  function Round8(q: real): real { RoundHalfEven(q * UNITS_PER_LOT) as real / UNITS_PER_LOT }

  /** A share of equity in notional, or in what the stop distance puts at risk. */
  function BaseQty(cfg: Config, s: Store, entry: real, stopLoss: real): real
    requires entry > 0.0 && (cfg.exposurePctPerTrade > 0.0 || Abs(entry - stopLoss) > 0.0)
  {
    if cfg.exposurePctPerTrade > 0.0 then s.portfolio.equity * cfg.exposurePctPerTrade / 100.0 / entry
    else s.portfolio.equity * cfg.riskPctPerTrade / 100.0 / Abs(entry - stopLoss)
  }

  /** What the trade aims at. */
  function TargetQty(cfg: Config, s: Store, entry: real, stopLoss: real, sizeMultiplier: real): real
    requires entry > 0.0 && (cfg.exposurePctPerTrade > 0.0 || Abs(entry - stopLoss) > 0.0)
  {
    BaseQty(cfg, s, entry, stopLoss) * Max0(sizeMultiplier)
  }

  /** What the cash buys at the quoted entry. */
  function CashQty(s: Store, entry: real): real
    requires entry > 0.0
  {
    if s.portfolio.cash > 0.0 then s.portfolio.cash / entry else 0.0
  }

  /** What the exposure limit leaves room for. */
  function ExposureQty(s: Store, entry: real): real
    requires entry > 0.0
  {
    Max0(s.risk.limits.maxExposurePct - s.risk.openExposurePct) / 100.0 * s.portfolio.equity / entry
  }

  /** No quantity can be named: no price, or a risk-based size without a stop distance. */
  predicate Unsizable(cfg: Config, entry: real, stopLoss: real) {
    entry <= 0.0 || (cfg.exposurePctPerTrade <= 0.0 && Abs(entry - stopLoss) <= 0.0)
  }

  /** `round(q, 8) if q > 0 else 0`. */
  function Rounded(raw: real): real { if raw > 0.0 then Round8(raw) else 0.0 }

  /** The smallest of what the trade aims at, what cash buys and what the exposure limit leaves, rounded. */
  function Smallest(target: real, cash: real, exposure: real): real {
    Rounded(Min(Min(target, cash), exposure))
  }

  function PositionSize(cfg: Config, s: Store, entry: real, stopLoss: real, sizeMultiplier: real): real {
    if Unsizable(cfg, entry, stopLoss) then 0.0
    else
      Smallest(TargetQty(cfg, s, entry, stopLoss, sizeMultiplier), CashQty(s, entry), ExposureQty(s, entry))
  }

  lemma RoundIsNear(q: real)
    ensures -0.5 <= Round8(q) * UNITS_PER_LOT - q * UNITS_PER_LOT <= 0.5
    ensures q >= 0.0 ==> Round8(q) >= 0.0
  {
  }

  lemma LargerScales(x: real, y: real)
    requires y <= x
    ensures y * UNITS_PER_LOT <= x * UNITS_PER_LOT
  {
  }

  /** In lots, q is not above x by more than half a lot. */
  predicate AtMost(q: real, x: real) { q * UNITS_PER_LOT <= x * UNITS_PER_LOT + 0.5 }

  predicate AtLeast(q: real, x: real) { q * UNITS_PER_LOT >= x * UNITS_PER_LOT - 0.5 }

  /** Above none of the three and equal to one of them, to half a lot; zero if one of them leaves no room. */
  predicate FitsSmallest(q: real, target: real, cash: real, exposure: real) {
    if target <= 0.0 || cash <= 0.0 || exposure <= 0.0 then q == 0.0
    else
      && q >= 0.0 && AtMost(q, target) && AtMost(q, cash) && AtMost(q, exposure)
      && (AtLeast(q, target) || AtLeast(q, cash) || AtLeast(q, exposure))
  }

  lemma SmallestFits(target: real, cash: real, exposure: real)
    ensures FitsSmallest(Smallest(target, cash, exposure), target, cash, exposure)
  {
    var smallest := Min(Min(target, cash), exposure);
    if smallest > 0.0 {
      RoundIsNear(smallest);
      LargerScales(target, smallest);
      LargerScales(cash, smallest);
      LargerScales(exposure, smallest);
    }
  }

  /**
   What a size is: zero when no quantity can be named, and otherwise what fits the smallest of the
   target scaled by the multiplier, the quantity cash buys and the room the exposure limit leaves.
   */
  lemma SizeMeetsSmallestCap(cfg: Config, s: Store, entry: real, stopLoss: real, sizeMultiplier: real)
    ensures var q := PositionSize(cfg, s, entry, stopLoss, sizeMultiplier);
            if Unsizable(cfg, entry, stopLoss) then q == 0.0
            else
              FitsSmallest(
                q, TargetQty(cfg, s, entry, stopLoss, sizeMultiplier), CashQty(s, entry), ExposureQty(s, entry))
  {
    if !Unsizable(cfg, entry, stopLoss) {
      SmallestFits(TargetQty(cfg, s, entry, stopLoss, sizeMultiplier), CashQty(s, entry), ExposureQty(s, entry));
    }
  }

  lemma RoomIsPositive(s: Store, entry: real)
    requires entry > 0.0 && ExposureQty(s, entry) > 0.0
    ensures s.portfolio.equity > 0.0
  {
    var room := Max0(s.risk.limits.maxExposurePct - s.risk.openExposurePct) / 100.0;
    PositiveQuotient(room * s.portfolio.equity, entry);
    PositiveProduct(room, s.portfolio.equity);
  }

  /**
   A size is only ever positive for a solvent account: entry, cash and equity are all positive, and
   it exceeds what the cash buys at the quoted entry by at most half a unit of rounding.
   */
  lemma SizeIsCapped(cfg: Config, s: Store, entry: real, stopLoss: real, sizeMultiplier: real)
    ensures var q := PositionSize(cfg, s, entry, stopLoss, sizeMultiplier);
            q >= 0.0 &&
            (q > 0.0 ==>
               && entry > 0.0 && s.portfolio.cash > 0.0 && s.portfolio.equity > 0.0
               && q * UNITS_PER_LOT <= s.portfolio.cash / entry * UNITS_PER_LOT + 0.5)
  {
    if !Unsizable(cfg, entry, stopLoss) {
      SizeMeetsSmallestCap(cfg, s, entry, stopLoss, sizeMultiplier);
      if ExposureQty(s, entry) > 0.0 {
        RoomIsPositive(s, entry);
      }
    }
  }

  // ---------------------------------------------------------------- exits

  datatype ExitReason = StopLoss | TakeProfit | Timeout | SignalExit | EndOfRun

  datatype Exit = Stay | Leave(reason: ExitReason, price: real)

  function CheckExit(
    cfg: Config, p: Position, bar: Bar, barsHeld: int, approvedSide: Option<OrderSide>, checkTimeout: bool
  ): Exit
  {
    if approvedSide.Some? && !checkTimeout then
      if (p.side == Long && approvedSide.value == Sell) || (p.side == Short && approvedSide.value == Buy)
      then Leave(SignalExit, bar.close) else Stay
    else if p.side == Long && p.stopLoss.Some? && bar.low <= p.stopLoss.value then
      Leave(StopLoss, p.stopLoss.value)
    else if p.side == Long && p.takeProfit.Some? && bar.high >= p.takeProfit.value then
      Leave(TakeProfit, p.takeProfit.value)
    else if p.side == Short && p.stopLoss.Some? && bar.high >= p.stopLoss.value then
      Leave(StopLoss, p.stopLoss.value)
    else if p.side == Short && p.takeProfit.Some? && bar.low <= p.takeProfit.value then
      Leave(TakeProfit, p.takeProfit.value)
    else if checkTimeout && barsHeld >= cfg.maxBarsInTrade then Leave(Timeout, bar.close)
    else Stay
  }

  // ---------------------------------------------------------------- the pre-trade gate

  datatype GateReason = TooManyPositions | MissingEntryPrice | TooMuchExposure | InsufficientCash

  datatype GateResult = Passed | Refused(reason: GateReason)

  function CheckGate(s: Store, quantity: real, limitPrice: Option<real>): GateResult
    requires s.portfolio.equity != 0.0
  {
    var p := s.portfolio;
    var notional := quantity * if limitPrice.Some? then limitPrice.value else 0.0;
    if |p.openPositions| >= s.risk.limits.maxOpenPositions then Refused(TooManyPositions)
    else if limitPrice.None? then Refused(MissingEntryPrice)
    else
      var exposurePct := (s.risk.openExposurePct * p.equity / 100.0 + notional) / p.equity * 100.0;
      if exposurePct > s.risk.limits.maxExposurePct then Refused(TooMuchExposure)
      else if notional > p.cash then Refused(InsufficientCash)
      else Passed
  }
}
