/**
 Market-structure bias: the production indicator (backend/src/features/indicators/market_structure.py)
 and the one-pass series over a whole history (backend/src/research/direction_phase.py,
 market_structure_bias), which sweeps two pointers over the confirmed highs and lows.
 */
module MarketStructure {
  import opened Wrappers

  // ---------------------------------------------------------------- pivots

  /** The price at i is an extreme of the bars within k of it. */
  predicate IsPivot(prices: seq<real>, k: nat, i: nat, high: bool)
    requires k <= i < |prices| - k
  {
    forall j | i - k <= j <= i + k :: if high then prices[i] >= prices[j] else prices[i] <= prices[j]
  }

  /** The pivots among the candidates k <= i < end, in order. */
  function Pivots(prices: seq<real>, k: nat, end: int, high: bool): seq<(int, real)>
    requires end <= |prices| - k
    decreases end
  {
    if end <= k then []
    else
      var i := end - 1;
      Pivots(prices, k, i, high) + if IsPivot(prices, k, i, high) then [(i, prices[i])] else []
  }

  /** _find_confirmed_pivots: a pivot is known only once the k bars after it are there. */
  function ConfirmedPivots(prices: seq<real>, k: nat, upTo: int, high: bool): seq<(int, real)>
    requires upTo < |prices|
  {
    var lastConfirmable := upTo - k;
    if lastConfirmable < k then [] else Pivots(prices, k, lastConfirmable + 1, high)
  }

  /** _structure_bias: higher high and higher low, lower high and lower low, or neither. */
  function StructureBias(highs: seq<(int, real)>, lows: seq<(int, real)>): int {
    var h, l := |highs|, |lows|;
    if h < 2 || l < 2 then 0
    else if highs[h - 1].1 > highs[h - 2].1 && lows[l - 1].1 > lows[l - 2].1 then 1
    else if highs[h - 1].1 < highs[h - 2].1 && lows[l - 1].1 < lows[l - 2].1 then -1
    else 0
  }

  datatype Insufficient = Insufficient

  /** What the production indicator says on the bars so far. */
  function LatestBias(highs: seq<real>, lows: seq<real>, k: nat): Result<int, Insufficient>
    requires |highs| == |lows|
  {
    if |highs| < 4 * k + 1 then Err(Insufficient)
    else Ok(BiasAt(highs, lows, k, |highs| - 1))
  }

  function BiasAt(highs: seq<real>, lows: seq<real>, k: nat, t: int): int
    requires |highs| == |lows| && t < |highs|
  {
    StructureBias(ConfirmedPivots(highs, k, t, true), ConfirmedPivots(lows, k, t, false))
  }

  /** The verdict at bar t, held over from the last bar that had one; 0 before any. */
  function Held(highs: seq<real>, lows: seq<real>, k: nat, t: int): int
    requires |highs| == |lows| && -1 <= t < |highs|
    decreases t + 1
  {
    if t < 0 then 0
    else if BiasAt(highs, lows, k, t) != 0 then BiasAt(highs, lows, k, t)
    else Held(highs, lows, k, t - 1)
  }

  // ---------------------------------------------------------------- the sweep

  /** The most recent price and the one before it, of the first n points. */
  function LastTwo(points: seq<(int, real)>, n: nat): (Option<real>, Option<real>)
    requires n <= |points|
  {
    (if n >= 2 then Some(points[n - 2].1) else None, if n >= 1 then Some(points[n - 1].1) else None)
  }

  /** The first point from `from` on that is not confirmed by bar t. */
  function Ahead(points: seq<(int, real)>, k: nat, t: int, from: nat): (to: nat)
    requires from <= |points|
    ensures from <= to <= |points|
    decreases |points| - from
  {
    if from < |points| && points[from].0 + k <= t then Ahead(points, k, t, from + 1) else from
  }

  /** Moves one pointer over every point confirmed by bar t. */
  method Advance(points: seq<(int, real)>, k: nat, t: int, from: nat, older: Option<real>, newer: Option<real>)
    returns (to: nat, last2: Option<real>, last1: Option<real>)
    requires from <= |points| && (older, newer) == LastTwo(points, from)
    ensures to == Ahead(points, k, t, from) && (last2, last1) == LastTwo(points, to)
  {
    to, last2, last1 := from, older, newer;
    while to < |points| && points[to].0 + k <= t
      invariant from <= to <= |points| && (last2, last1) == LastTwo(points, to)
      invariant Ahead(points, k, t, from) == Ahead(points, k, t, to)
    {
      last2, last1 := last1, Some(points[to].1);
      to := to + 1;
    }
  }

  /** Higher high and higher low, lower high and lower low, or the bias as it was. */
  function Decide(high2: Option<real>, high1: Option<real>, low2: Option<real>, low1: Option<real>, prev: int): int
    requires (high2.Some? ==> high1.Some?) && (low2.Some? ==> low1.Some?)
  {
    if high2.Some? && low2.Some? && high1.value > high2.value && low1.value > low2.value then 1
    else if high2.Some? && low2.Some? && high1.value < high2.value && low1.value < low2.value then -1
    else prev
  }

  datatype Sweep = Sweep(hi: nat, li: nat, bias: int)

  /** Both pointers and the bias after bar t, for any two lists of points. */
  function SweepAt(highs: seq<(int, real)>, lows: seq<(int, real)>, k: nat, t: int): (s: Sweep)
    ensures s.hi <= |highs| && s.li <= |lows|
    decreases t + 1
  {
    if t < 0 then Sweep(0, 0, 0)
    else
      var before := SweepAt(highs, lows, k, t - 1);
      var hi, li := Ahead(highs, k, t, before.hi), Ahead(lows, k, t, before.li);
      var ((high2, high1), (low2, low1)) := (LastTwo(highs, hi), LastTwo(lows, li));
      Sweep(hi, li, Decide(high2, high1, low2, low1, before.bias))
  }

  /** The loop over the bars. */
  method SweepBars(highs: seq<(int, real)>, lows: seq<(int, real)>, k: nat, n: nat) returns (series: seq<int>)
    ensures |series| == n && forall t {:trigger series[t]} | 0 <= t < n :: series[t] == SweepAt(highs, lows, k, t).bias
  {
    var bias := new int[n](_ => 0);
    var prev := 0;
    var hi: nat, li: nat := 0, 0;
    var high2: Option<real>, high1: Option<real>, low2: Option<real>, low1: Option<real> := None, None, None, None;
    for t := 0 to n
      invariant hi <= |highs| && li <= |lows| && Sweep(hi, li, prev) == SweepAt(highs, lows, k, t - 1)
      invariant (high2, high1) == LastTwo(highs, hi) && (low2, low1) == LastTwo(lows, li)
      invariant forall s {:trigger bias[s]} | 0 <= s < t :: bias[s] == SweepAt(highs, lows, k, s).bias
    {
      hi, high2, high1 := Advance(highs, k, t, hi, high2, high1);
      li, low2, low1 := Advance(lows, k, t, li, low2, low1);
      prev := Decide(high2, high1, low2, low1, prev);
      bias[t] := prev;
    }
    series := bias[..];
  }

  /** True is UP: the bias is not negative. */
  function Labels(bias: seq<int>): (up: seq<bool>)
    ensures |up| == |bias|
    ensures forall t {:trigger up[t]} | 0 <= t < |up| :: up[t] <==> bias[t] >= 0
  {
    seq(|bias|, t requires 0 <= t < |bias| => bias[t] >= 0)
  }

  /** One pass over the whole history computes, at each bar, the production verdict on the bars up to it, held over. */
  method MarketStructureBias(highPrices: seq<real>, lowPrices: seq<real>, k: nat) returns (up: seq<bool>)
    requires |highPrices| == |lowPrices|
    ensures |up| == |highPrices|
    ensures forall t {:trigger up[t]} | 0 <= t < |up| :: up[t] <==> Held(highPrices, lowPrices, k, t) >= 0
  {
    var highs, lows := AllPivots(highPrices, k, true), AllPivots(lowPrices, k, false);
    var bias := SweepBars(highs, lows, k, |highPrices|);
    forall t | 0 <= t < |bias| ensures bias[t] == Held(highPrices, lowPrices, k, t) {
      SweepIsHeld(highPrices, lowPrices, k, t);
    }
    up := Labels(bias);
  }

  // ---------------------------------------------------------------- the pointers

  /** The first n points lie before bar `bar`, the others at or after it. */
  ghost predicate CutAt(points: seq<(int, real)>, n: nat, bar: int) {
    && n <= |points|
    && (forall i | 0 <= i < n :: points[i].0 < bar)
    && (forall i | n <= i < |points| :: points[i].0 >= bar)
  }

  /** A later end only adds candidates after the earlier ones. */
  lemma {:induction false} PivotsGrow(prices: seq<real>, k: nat, a: int, b: int, high: bool)
    requires a <= b <= |prices| - k
    ensures Pivots(prices, k, a, high) <= Pivots(prices, k, b, high)
    ensures CutAt(Pivots(prices, k, b, high), |Pivots(prices, k, a, high)|, a)
    decreases b
  {
    if a < b && k < b {
      PivotsGrow(prices, k, a, b - 1, high);
    } else if k < b {
      PivotsGrow(prices, k, b - 1, b - 1, high);
    }
  }

  function AllPivots(prices: seq<real>, k: nat, high: bool): seq<(int, real)> {
    ConfirmedPivots(prices, k, |prices| - 1, high)
  }

  lemma ConfirmedIs(prices: seq<real>, k: nat, t: int, high: bool)
    requires t < |prices|
    ensures ConfirmedPivots(prices, k, t, high) == Pivots(prices, k, t - k + 1, high)
  {
  }

  /** A pointer moves to just behind the last point confirmed by bar t, wherever before that it stood. */
  lemma {:induction false} AheadIs(points: seq<(int, real)>, k: nat, t: int, from: nat, n: nat)
    requires from <= n && CutAt(points, n, t - k + 1)
    ensures Ahead(points, k, t, from) == n
    decreases n - from
  {
    if from < n {
      AheadIs(points, k, t, from + 1, n);
    }
  }

  /** Of three ends in order, the pivots up to the middle one are those the pointer has passed. */
  lemma PointerPasses(
    prices: seq<real>, k: nat, t: int, high: bool,
    earlier: seq<(int, real)>, now: seq<(int, real)>, all: seq<(int, real)>)
    requires t < |prices|
    requires earlier == Pivots(prices, k, t - k, high) && now == Pivots(prices, k, t - k + 1, high)
    requires all == Pivots(prices, k, |prices| - k, high)
    ensures |earlier| <= |now| <= |all| && now == all[..|now|] && Ahead(all, k, t, |earlier|) == |now|
  {
    PivotsGrow(prices, k, t - k, t - k + 1, high);
    PivotsGrow(prices, k, t - k + 1, |prices| - k, high);
    AheadIs(all, k, t, |earlier|, |now|);
  }

  /** From behind what was confirmed a bar before, the pointer moves to behind what is confirmed by bar t. */
  lemma PointerIsExact(prices: seq<real>, k: nat, t: nat, high: bool)
    requires t < |prices|
    ensures var all, now := AllPivots(prices, k, high), ConfirmedPivots(prices, k, t, high);
            var from := |ConfirmedPivots(prices, k, t - 1, high)|;
            from <= |all| && Ahead(all, k, t, from) == |now| <= |all| && now == all[..|now|]
  {
    ConfirmedIs(prices, k, t, high);
    ConfirmedIs(prices, k, t - 1, high);
    ConfirmedIs(prices, k, |prices| - 1, high);
    PointerPasses(prices, k, t, high, ConfirmedPivots(prices, k, t - 1, high), ConfirmedPivots(prices, k, t, high),
                  AllPivots(prices, k, high));
  }

  /** Deciding by the last two of a prefix is the verdict on the prefix, or the bias as it was. */
  lemma DecideIsVerdict(highs: seq<(int, real)>, lows: seq<(int, real)>, hi: nat, li: nat, prev: int)
    requires hi <= |highs| && li <= |lows|
    ensures var ((high2, high1), (low2, low1)) := (LastTwo(highs, hi), LastTwo(lows, li));
            var verdict := StructureBias(highs[..hi], lows[..li]);
            Decide(high2, high1, low2, low1, prev) == if verdict != 0 then verdict else prev
  {
  }

  /** The sweep refines the production verdict held over. */
  lemma {:induction false} SweepIsHeld(highs: seq<real>, lows: seq<real>, k: nat, t: int)
    requires |highs| == |lows| && -1 <= t < |highs|
    ensures SweepAt(AllPivots(highs, k, true), AllPivots(lows, k, false), k, t)
            == Sweep(|ConfirmedPivots(highs, k, t, true)|, |ConfirmedPivots(lows, k, t, false)|, Held(highs, lows, k, t))
    decreases t
  {
    if t >= 0 {
      SweepIsHeld(highs, lows, k, t - 1);
      PointerIsExact(highs, k, t, true);
      PointerIsExact(lows, k, t, false);
      DecideIsVerdict(AllPivots(highs, k, true), AllPivots(lows, k, false), |ConfirmedPivots(highs, k, t, true)|,
                      |ConfirmedPivots(lows, k, t, false)|, Held(highs, lows, k, t - 1));
    }
  }

  // ---------------------------------------------------------------- what a verdict says

  /** No bar within k of this one, on either side, goes beyond it. */
  predicate Extreme(prices: seq<real>, k: nat, i: int, high: bool) {
    && k <= i < |prices| - k
    && forall j | i - k <= j <= i + k :: if high then prices[j] <= prices[i] else prices[j] >= prices[i]
  }

  /** The last extreme before `end`. */
  ghost predicate Latest(prices: seq<real>, k: nat, end: int, high: bool, j: int) {
    j < end && Extreme(prices, k, j, high) && forall m | j < m < end :: !Extreme(prices, k, m, high)
  }

  lemma PivotIsExtreme(prices: seq<real>, k: nat, i: int, high: bool)
    requires k <= i < |prices| - k
    ensures Extreme(prices, k, i, high) <==> IsPivot(prices, k, i, high)
  {
  }

  lemma {:induction false} LatestIsLast(prices: seq<real>, k: nat, end: int, high: bool, j: int)
    requires end <= |prices| - k && Latest(prices, k, end, high, j)
    ensures Pivots(prices, k, end, high) == Pivots(prices, k, j, high) + [(j, prices[j])]
    decreases end
  {
    PivotIsExtreme(prices, k, end - 1, high);
    if j < end - 1 {
      assert !Extreme(prices, k, end - 1, high);
      assert Latest(prices, k, end - 1, high, j);
      LatestIsLast(prices, k, end - 1, high, j);
      assert Pivots(prices, k, end, high) == Pivots(prices, k, end - 1, high);
    }
  }

  lemma {:induction false} LastIsLatest(prices: seq<real>, k: nat, end: int, high: bool) returns (j: int)
    requires end <= |prices| - k && Pivots(prices, k, end, high) != []
    ensures Latest(prices, k, end, high, j)
    decreases end
  {
    PivotIsExtreme(prices, k, end - 1, high);
    if IsPivot(prices, k, end - 1, high) {
      j := end - 1;
    } else {
      assert Pivots(prices, k, end, high) == Pivots(prices, k, end - 1, high);
      j := LastIsLatest(prices, k, end - 1, high);
    }
  }

  ghost predicate LastPair(prices: seq<real>, k: nat, end: int, high: bool, i: int, j: int) {
    Latest(prices, k, end, high, j) && Latest(prices, k, j, high, i)
  }

  predicate Turns(before: real, after: real, up: bool) { if up then after > before else after < before }

  /** The later of the last two extremes before `end` is the higher, or the lower. */
  ghost predicate Moved(prices: seq<real>, k: nat, end: int, high: bool, up: bool) {
    exists i, j :: LastPair(prices, k, end, high, i, j) && Turns(prices[i], prices[j], up)
  }

  /** The last two points of a list rise or fall. */
  predicate Turned(points: seq<(int, real)>, up: bool) {
    |points| >= 2 && Turns(points[|points| - 2].1, points[|points| - 1].1, up)
  }

  lemma PairIsLastTwo(prices: seq<real>, k: nat, end: int, high: bool, i: int, j: int)
    requires end <= |prices| - k && LastPair(prices, k, end, high, i, j)
    ensures Pivots(prices, k, end, high) == Pivots(prices, k, i, high) + [(i, prices[i]), (j, prices[j])]
  {
    LatestIsLast(prices, k, end, high, j);
    LatestIsLast(prices, k, j, high, i);
  }

  lemma LastTwoArePair(prices: seq<real>, k: nat, end: int, high: bool) returns (i: int, j: int)
    requires end <= |prices| - k && |Pivots(prices, k, end, high)| >= 2
    ensures LastPair(prices, k, end, high, i, j)
  {
    j := LastIsLatest(prices, k, end, high);
    LatestIsLast(prices, k, end, high, j);
    i := LastIsLatest(prices, k, j, high);
  }

  lemma PairTurns(
    prices: seq<real>, k: nat, end: int, high: bool, up: bool, points: seq<(int, real)>, i: int, j: int)
    requires end <= |prices| - k && points == Pivots(prices, k, end, high) && LastPair(prices, k, end, high, i, j)
    ensures Turned(points, up) <==> Turns(prices[i], prices[j], up)
  {
    PairIsLastTwo(prices, k, end, high, i, j);
    var n := |points|;
    assert points[n - 2] == (i, prices[i]) && points[n - 1] == (j, prices[j]);
  }

  lemma MovedBy(prices: seq<real>, k: nat, end: int, high: bool, up: bool, i: int, j: int)
    requires LastPair(prices, k, end, high, i, j) && Turns(prices[i], prices[j], up)
    ensures Moved(prices, k, end, high, up)
  {
  }

  lemma MovedIsTurned(prices: seq<real>, k: nat, end: int, high: bool, up: bool, points: seq<(int, real)>)
    requires end <= |prices| - k && points == Pivots(prices, k, end, high)
    ensures Moved(prices, k, end, high, up) <==> Turned(points, up)
  {
    forall i, j | LastPair(prices, k, end, high, i, j) && Turns(prices[i], prices[j], up) ensures Turned(points, up) {
      PairTurns(prices, k, end, high, up, points, i, j);
    }
    if Turned(points, up) {
      var i, j := LastTwoArePair(prices, k, end, high);
      PairTurns(prices, k, end, high, up, points, i, j);
      MovedBy(prices, k, end, high, up, i, j);
    }
  }

  lemma BiasIsTurned(highs: seq<(int, real)>, lows: seq<(int, real)>)
    ensures StructureBias(highs, lows) == 1 <==> Turned(highs, true) && Turned(lows, true)
    ensures StructureBias(highs, lows) == -1 <==> Turned(highs, false) && Turned(lows, false)
    ensures StructureBias(highs, lows) in {-1, 0, 1}
  {
  }

  /**
   A verdict is up exactly when the last two highs and the last two lows that k bars have confirmed by bar t
   both rise, and down when both fall.
   */
  lemma VerdictIff(highs: seq<real>, lows: seq<real>, k: nat, t: int, end: int)
    requires |highs| == |lows| && t < |highs| && end == t - k + 1
    ensures BiasAt(highs, lows, k, t) == 1 <==> Moved(highs, k, end, true, true) && Moved(lows, k, end, false, true)
    ensures BiasAt(highs, lows, k, t) == -1 <==> Moved(highs, k, end, true, false) && Moved(lows, k, end, false, false)
    ensures BiasAt(highs, lows, k, t) in {-1, 0, 1}
  {
    ConfirmedIs(highs, k, t, true);
    ConfirmedIs(lows, k, t, false);
    var h, l := Pivots(highs, k, end, true), Pivots(lows, k, end, false);
    BiasIsTurned(h, l);
    MovedIsTurned(highs, k, end, true, true, h);
    MovedIsTurned(lows, k, end, false, true, l);
    MovedIsTurned(highs, k, end, true, false, h);
    MovedIsTurned(lows, k, end, false, false, l);
  }

  // ---------------------------------------------------------------- no look-ahead

  /** Pivots among the first candidates depend on the prices up to k bars past them and on nothing later. */
  lemma {:induction false} PivotsAreLocal(a: seq<real>, b: seq<real>, k: nat, end: int, high: bool)
    requires end <= |a| - k && end <= |b| - k
    requires end + k >= 0 ==> a[..end + k] == b[..end + k]
    ensures Pivots(a, k, end, high) == Pivots(b, k, end, high)
    decreases end
  {
    if end > k {
      var i := end - 1;
      assert a[..i + k] == a[..end + k][..i + k] == b[..i + k];
      PivotsAreLocal(a, b, k, i, high);
      forall j | i - k <= j <= i + k ensures a[j] == b[j] {
        assert a[..end + k][j] == b[..end + k][j];
      }
    }
  }

  lemma BiasIsLocal(highsA: seq<real>, lowsA: seq<real>, highsB: seq<real>, lowsB: seq<real>, k: nat, t: nat)
    requires |highsA| == |lowsA| && |highsB| == |lowsB| && t < |highsA| && t < |highsB|
    requires highsA[..t + 1] == highsB[..t + 1] && lowsA[..t + 1] == lowsB[..t + 1]
    ensures BiasAt(highsA, lowsA, k, t) == BiasAt(highsB, lowsB, k, t)
  {
    if t - k >= k {
      PivotsAreLocal(highsA, highsB, k, t - k + 1, true);
      PivotsAreLocal(lowsA, lowsB, k, t - k + 1, false);
    }
  }

  /** No look-ahead: bars after t, pivots confirmed there or prices changed there, cannot alter the bias at t. */
  lemma {:induction false} NoLookAhead(highsA: seq<real>, lowsA: seq<real>,
                                       highsB: seq<real>, lowsB: seq<real>, k: nat, t: int)
    requires |highsA| == |lowsA| && |highsB| == |lowsB| && -1 <= t < |highsA| && t < |highsB|
    requires highsA[..t + 1] == highsB[..t + 1] && lowsA[..t + 1] == lowsB[..t + 1]
    ensures Held(highsA, lowsA, k, t) == Held(highsB, lowsB, k, t)
    decreases t
  {
    if t >= 0 {
      BiasIsLocal(highsA, lowsA, highsB, lowsB, k, t);
      assert highsA[..t] == highsA[..t + 1][..t] && highsB[..t] == highsB[..t + 1][..t];
      assert lowsA[..t] == lowsA[..t + 1][..t] && lowsB[..t] == lowsB[..t + 1][..t];
      NoLookAhead(highsA, lowsA, highsB, lowsB, k, t - 1);
    }
  }

  /**
   The series against the production indicator run bar by bar on what a live run has then: where the
   indicator gives a verdict the series has the same one, and elsewhere it keeps the one before.
   */
  lemma SeriesFollowsProduction(highs: seq<real>, lows: seq<real>, k: nat, t: nat)
    requires |highs| == |lows| && t < |highs|
    ensures var live := LatestBias(highs[..t + 1], lows[..t + 1], k);
            && (live.Ok? <==> t >= 4 * k)
            && (live.Ok? && live.value != 0 ==> Held(highs, lows, k, t) == live.value)
            && (live == Ok(0) ==> Held(highs, lows, k, t) == Held(highs, lows, k, t - 1))
  {
    BiasIsLocal(highs, lows, highs[..t + 1], lows[..t + 1], k, t);
  }

  // ---------------------------------------------------------------- before the indicator has enough bars

  /** Every point listed is a pivot, with its price. */
  lemma {:induction false} PivotsAreSound(prices: seq<real>, k: nat, end: int, high: bool, p: (int, real))
    requires end <= |prices| - k && p in Pivots(prices, k, end, high)
    ensures k <= p.0 < end && p.1 == prices[p.0] && IsPivot(prices, k, p.0, high)
    decreases end
  {
    if p in Pivots(prices, k, end - 1, high) {
      PivotsAreSound(prices, k, end - 1, high, p);
    }
  }

  lemma {:induction false} PivotsAreOrdered(prices: seq<real>, k: nat, end: int, high: bool)
    requires end <= |prices| - k && |Pivots(prices, k, end, high)| >= 2
    ensures var points := Pivots(prices, k, end, high); points[|points| - 2].0 < points[|points| - 1].0
    decreases end
  {
    var before := Pivots(prices, k, end - 1, high);
    if !IsPivot(prices, k, end - 1, high) {
      assert before + [] == before;
      PivotsAreOrdered(prices, k, end - 1, high);
    } else {
      PivotsAreSound(prices, k, end - 1, high, before[|before| - 1]);
    }
  }

  lemma NearPivotsAreEqual(prices: seq<real>, k: nat, i: nat, j: nat, high: bool)
    requires k <= i < j < |prices| - k && IsPivot(prices, k, i, high) && IsPivot(prices, k, j, high)
    ensures j <= i + k ==> prices[i] == prices[j]
  {
  }

  /** A rise of highs takes 3k + 2 bars: a higher pivot within k bars of a high would have kept it from being one. */
  lemma VerdictNeedsBars(highs: seq<real>, lows: seq<real>, k: nat, t: nat)
    requires |highs| == |lows| && t < |highs| && BiasAt(highs, lows, k, t) != 0
    ensures t + 1 >= 3 * k + 2
  {
    var points := ConfirmedPivots(highs, k, t, true);
    var p, q := points[|points| - 2], points[|points| - 1];
    PivotsAreOrdered(highs, k, t - k + 1, true);
    PivotsAreSound(highs, k, t - k + 1, true, p);
    PivotsAreSound(highs, k, t - k + 1, true, q);
    NearPivotsAreEqual(highs, k, p.0, q.0, true);
  }

  lemma {:induction false} HeldNeedsVerdict(highs: seq<real>, lows: seq<real>, k: nat, t: int)
    requires |highs| == |lows| && -1 <= t < |highs| && Held(highs, lows, k, t) != 0
    ensures t + 1 >= 3 * k + 2
    decreases t
  {
    if BiasAt(highs, lows, k, t) != 0 {
      VerdictNeedsBars(highs, lows, k, t);
    } else {
      HeldNeedsVerdict(highs, lows, k, t - 1);
    }
  }

  /** Two rising pivots, at k and 2k + 1, and nothing else. */
  function Rising(k: nat, high: bool): seq<real> {
    seq(3 * k + 2, i => if i == k then (if high then 1.0 else -2.0)
                        else if i == 2 * k + 1 then (if high then 2.0 else -1.0) else 0.0)
  }

  lemma RisingPivots(k: nat, high: bool, i: nat)
    requires k >= 1 && k <= i <= 2 * k + 1
    ensures IsPivot(Rising(k, high), k, i, high) <==> i == k || i == 2 * k + 1
  {
    var prices := Rising(k, high);
    if k < i <= 2 * k {
      assert i - k <= k <= i + k && prices[k] == if high then 1.0 else -2.0;
      assert prices[i] == 0.0;
    }
  }

  lemma {:induction false} PivotsOfRising(k: nat, high: bool, end: int)
    requires k >= 1 && k < end <= 2 * k + 1
    ensures Pivots(Rising(k, high), k, end, high) == [(k, Rising(k, high)[k])]
    decreases end
  {
    RisingPivots(k, high, end - 1);
    if end == k + 1 {
      assert Pivots(Rising(k, high), k, k, high) == [];
    } else {
      PivotsOfRising(k, high, end - 1);
    }
  }

  lemma AllOfRising(k: nat, high: bool)
    requires k >= 1
    ensures ConfirmedPivots(Rising(k, high), k, 3 * k + 1, high)
            == [(k, Rising(k, high)[k]), (2 * k + 1, Rising(k, high)[2 * k + 1])]
  {
    PivotsOfRising(k, high, 2 * k + 1);
    RisingPivots(k, high, 2 * k + 1);
  }

  /** On these bars the series speaks at a bar by which the indicator has not the bars it asks for. */
  ghost predicate SpeaksEarly(highs: seq<real>, lows: seq<real>, k: nat, t: nat) {
    |highs| == |lows| && t < |highs| && t + 1 < 4 * k + 1 && Held(highs, lows, k, t) != 0
  }

  lemma RisingSpeaks(k: nat)
    requires k >= 2
    ensures SpeaksEarly(Rising(k, true), Rising(k, false), k, 3 * k + 1)
  {
    AllOfRising(k, true);
    AllOfRising(k, false);
    assert BiasAt(Rising(k, true), Rising(k, false), k, 3 * k + 1) == 1;
  }

  /** The series speaks before the indicator has enough bars exactly when the pivot width is at least 2. */
  lemma EarlyVerdictIff(k: nat)
    ensures (exists highs, lows, t: nat :: SpeaksEarly(highs, lows, k, t)) <==> k >= 2
  {
    if k >= 2 {
      RisingSpeaks(k);
    }
    forall highs, lows, t: nat | SpeaksEarly(highs, lows, k, t) ensures k >= 2 {
      HeldNeedsVerdict(highs, lows, k, t);
    }
  }
}
