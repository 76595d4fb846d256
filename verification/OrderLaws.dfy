/**
 What every order the engine takes respects: sizing (backend/src/execution/simulated_pricing.py) and the
 pre-trade gate (backend/src/execution/risk_gate.py), read off the account and the signal.
 */
module OrderLaws {
  import opened Wrappers
  import opened Arithmetic
  import opened StateStore
  import opened Pricing
  import opened Engine
  import opened FillLaws

  /** Half a unit of the eighth decimal, which rounding may add to a size. */
  const HALF := 0.000000005

  // ---------------------------------------------------------------- sizes

  /** What a trade may put at stake per unit of its size: its price, or its distance to the stop. */
  function StakePerUnit(cfg: Config, signal: Signal): real {
    if cfg.exposurePctPerTrade > 0.0 then signal.entryPrice else Abs(signal.entryPrice - signal.stopLoss)
  }

  /** And in all: a share of equity, scaled by the signal. */
  function Stake(cfg: Config, s: Store, signal: Signal): real {
    s.portfolio.equity * (if cfg.exposurePctPerTrade > 0.0 then cfg.exposurePctPerTrade else cfg.riskPctPerTrade) / 100.0
    * Max0(signal.sizeMultiplier)
  }

  /** What the exposure limit leaves. */
  function Room(s: Store): real {
    Max0(s.risk.limits.maxExposurePct - s.risk.openExposurePct) / 100.0 * s.portfolio.equity
  }

  /** `total` per `unit` is not exceeded by a quantity, up to rounding. */
  predicate Within(quantity: real, unit: real, total: real) { quantity * unit <= total + HALF * unit }

  predicate Reaches(quantity: real, unit: real, total: real) { quantity * unit >= total - HALF * unit }

  lemma Above(q: real, x: real, h: real, c: real, total: real)
    requires q >= x - h && c > 0.0 && x * c == total
    ensures q * c >= total - h * c
  {
    var d := q - (x - h);
    assert q * c == d * c + (x * c - h * c);
    assert d * c >= 0.0;
  }

  lemma Below(q: real, x: real, h: real, c: real, total: real)
    requires q <= x + h && c > 0.0 && x * c == total
    ensures q * c <= total + h * c
  {
    var d := x + h - q;
    assert q * c == x * c + h * c - d * c;
    assert d * c >= 0.0;
  }

  lemma PerUnit(quantity: real, x: real, unit: real, total: real)
    requires unit > 0.0 && x == total / unit
    ensures AtMost(quantity, x) ==> Within(quantity, unit, total)
    ensures AtLeast(quantity, x) ==> Reaches(quantity, unit, total)
    ensures x > 0.0 <==> total > 0.0
  {
    assert x * unit == total;
    if AtMost(quantity, x) {
      Below(quantity, x, HALF, unit, total);
    }
    if AtLeast(quantity, x) {
      Above(quantity, x, HALF, unit, total);
    }
    PositiveQuotient(total, unit);
  }

  /** What fits the smallest of three quotients, in terms of what is divided. */
  lemma FitsMeans(
    quantity: real, a: real, b: real, c: real, unitA: real, totalA: real, unit: real, totalB: real, totalC: real)
    requires FitsSmallest(quantity, a, b, c) && unitA > 0.0 && unit > 0.0
    requires a == totalA / unitA && b == totalB / unit && c == totalC / unit
    ensures totalA <= 0.0 || totalB <= 0.0 || totalC <= 0.0 ==> quantity == 0.0
    ensures totalA > 0.0 && totalB > 0.0 && totalC > 0.0 ==>
              && quantity >= 0.0 && Within(quantity, unitA, totalA)
              && Within(quantity, unit, totalB) && Within(quantity, unit, totalC)
              && (Reaches(quantity, unitA, totalA) || Reaches(quantity, unit, totalB) || Reaches(quantity, unit, totalC))
  {
    PerUnit(quantity, a, unitA, totalA);
    PerUnit(quantity, b, unit, totalB);
    PerUnit(quantity, c, unit, totalC);
  }

  lemma TargetIsStake(cfg: Config, s: Store, signal: Signal)
    requires !Unsizable(cfg, signal.entryPrice, signal.stopLoss)
    ensures StakePerUnit(cfg, signal) > 0.0
    ensures TargetQty(cfg, s, signal.entryPrice, signal.stopLoss, signal.sizeMultiplier)
            == Stake(cfg, s, signal) / StakePerUnit(cfg, signal)
  {
    var share := s.portfolio.equity * (if cfg.exposurePctPerTrade > 0.0 then cfg.exposurePctPerTrade else cfg.riskPctPerTrade) / 100.0;
    Scale(share, StakePerUnit(cfg, signal), Max0(signal.sizeMultiplier));
  }

  lemma Scale(x: real, d: real, m: real)
    requires d > 0.0
    ensures x / d * m == x * m / d
  {
  }

  /** The cash that can be spent. */
  function Spendable(s: Store): real { Max0(s.portfolio.cash) }

  lemma CashIsSpendable(s: Store, entry: real)
    requires entry > 0.0
    ensures CashQty(s, entry) == Spendable(s) / entry && ExposureQty(s, entry) == Room(s) / entry
  {
  }

  /** A size can be named: there is a price, and something to stake per unit. */
  predicate Sizable(cfg: Config, signal: Signal) { signal.entryPrice > 0.0 && StakePerUnit(cfg, signal) > 0.0 }

  /**
   A size stakes no more than its share of equity, costs no more than the cash, takes no more than the
   exposure limit leaves, and reaches one of the three; it is zero where no size can be named or one of
   them leaves nothing.
   */
  lemma SizeRespects(cfg: Config, s: Store, signal: Signal, quantity: real)
    requires quantity == PositionSize(cfg, s, signal.entryPrice, signal.stopLoss, signal.sizeMultiplier)
    ensures quantity >= 0.0
    ensures !Sizable(cfg, signal) || Stake(cfg, s, signal) <= 0.0 || s.portfolio.cash <= 0.0 || Room(s) <= 0.0 ==>
              quantity == 0.0
    ensures Sizable(cfg, signal) && Stake(cfg, s, signal) > 0.0 && s.portfolio.cash > 0.0 && Room(s) > 0.0 ==>
              && Within(quantity, StakePerUnit(cfg, signal), Stake(cfg, s, signal))
              && Within(quantity, signal.entryPrice, s.portfolio.cash) && Within(quantity, signal.entryPrice, Room(s))
              && (Reaches(quantity, StakePerUnit(cfg, signal), Stake(cfg, s, signal))
                  || Reaches(quantity, signal.entryPrice, s.portfolio.cash)
                  || Reaches(quantity, signal.entryPrice, Room(s)))
  {
    SizeIsCapped(cfg, s, signal.entryPrice, signal.stopLoss, signal.sizeMultiplier);
    SizableIff(cfg, signal);
    if Sizable(cfg, signal) {
      SizeMeetsSmallestCap(cfg, s, signal.entryPrice, signal.stopLoss, signal.sizeMultiplier);
      TargetIsStake(cfg, s, signal);
      CashIsSpendable(s, signal.entryPrice);
      FitsMeans(quantity, TargetQty(cfg, s, signal.entryPrice, signal.stopLoss, signal.sizeMultiplier),
                CashQty(s, signal.entryPrice), ExposureQty(s, signal.entryPrice),
                StakePerUnit(cfg, signal), Stake(cfg, s, signal), signal.entryPrice, Spendable(s), Room(s));
    }
  }

  lemma SizableIff(cfg: Config, signal: Signal)
    ensures Sizable(cfg, signal) <==> !Unsizable(cfg, signal.entryPrice, signal.stopLoss)
  {
  }

  // ---------------------------------------------------------------- the gate

  /** The exposure there would be, as a share of equity, is within the limit. */
  predicate RoomFor(s: Store, quantity: real, price: real) {
    s.risk.openExposurePct * s.portfolio.equity + quantity * price * 100.0
    <= s.risk.limits.maxExposurePct * s.portfolio.equity
  }

  predicate Affordable(s: Store, quantity: real, price: real) { quantity * price <= s.portfolio.cash }

  lemma ExposureQuotient(share: real, equity: real, notional: real, limit: real)
    requires equity > 0.0
    ensures (share * equity / 100.0 + notional) / equity * 100.0 <= limit
            <==> share * equity + notional * 100.0 <= limit * equity
  {
    var total := share * equity / 100.0 + notional;
    assert total / equity * 100.0 * equity == total * 100.0;
    assert total * 100.0 == share * equity + notional * 100.0;
  }

  /** The gate's verdict: the first of its four reasons that applies, in this order, and none otherwise. */
  lemma GateVerdict(s: Store, quantity: real, price: Option<real>)
    requires s.portfolio.equity > 0.0
    ensures
      CheckGate(s, quantity, price)
      == if |s.portfolio.openPositions| >= s.risk.limits.maxOpenPositions then Refused(TooManyPositions)
         else if price.None? then Refused(MissingEntryPrice)
         else if !RoomFor(s, quantity, price.value) then Refused(TooMuchExposure)
         else if !Affordable(s, quantity, price.value) then Refused(InsufficientCash)
         else Passed
  {
    if price.Some? {
      ExposureQuotient(s.risk.openExposurePct, s.portfolio.equity, quantity * price.value, s.risk.limits.maxExposurePct);
    }
  }

  /**
   Every decision the engine takes, at once or deferred, is within the position limit, the exposure limit,
   the cash and its own stake, on the account it was taken on.
   */
  lemma TakenIsSound(cfg: Config, s: Store, decision: Decision, quantity: real)
    requires Takes(cfg, s, decision)
    requires var signal := decision.finalSignal.value;
             quantity == PositionSize(cfg, s, signal.entryPrice, signal.stopLoss, signal.sizeMultiplier)
    ensures
      var signal := decision.finalSignal.value;
      && quantity > 0.0 && |s.portfolio.openPositions| < s.risk.limits.maxOpenPositions
      && RoomFor(s, quantity, signal.entryPrice) && Affordable(s, quantity, signal.entryPrice)
      && Within(quantity, StakePerUnit(cfg, signal), Stake(cfg, s, signal))
  {
    var signal := decision.finalSignal.value;
    SizeIsCapped(cfg, s, signal.entryPrice, signal.stopLoss, signal.sizeMultiplier);
    PassedMeans(s, quantity, signal.entryPrice);
    SizeRespects(cfg, s, signal, quantity);
  }

  lemma PassedMeans(s: Store, quantity: real, price: real)
    requires s.portfolio.equity > 0.0 && CheckGate(s, quantity, Some(price)) == Passed
    ensures |s.portfolio.openPositions| < s.risk.limits.maxOpenPositions
    ensures RoomFor(s, quantity, price) && Affordable(s, quantity, price)
  {
    GateVerdict(s, quantity, Some(price));
  }
}
