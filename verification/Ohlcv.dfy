/**
 Exchange history and the paginated download of a range of it (backend/src/data/live_provider.py,
 fetch_ohlcv_range). Timestamps are milliseconds.
 */
module Ohlcv {
  import opened Wrappers
  import opened StableSort

  datatype Bar = Bar(ts: int, open: real, high: real, low: real, close: real, volume: real)

  datatype FetchError = StartAfterEnd | NoData | NoBarsInRange

  function Ts(b: Bar): int { b.ts }

  predicate HasTime(rows: seq<Bar>, time: int) { exists r | r in rows :: r.ts == time }

  /** Number of bars before a time; in a history, the index of the first bar at or after it. */
  function Before(h: seq<Bar>, time: int): nat {
    if h == [] then 0 else Before(h[..|h| - 1], time) + if h[|h| - 1].ts < time then 1 else 0
  }

  lemma {:induction false} BeforeIsIndex(h: seq<Bar>, time: int)
    requires StrictlyBy(h, Ts)
    ensures Before(h, time) <= |h|
    ensures forall i | 0 <= i < Before(h, time) :: h[i].ts < time
    ensures forall i | Before(h, time) <= i < |h| :: h[i].ts >= time
  {
    if h != [] {
      var n := |h| - 1;
      BeforeIsIndex(h[..n], time);
      forall i | 0 <= i < n ensures h[i].ts < h[n].ts {
        assert Ts(h[i]) < Ts(h[n]);
      }
      var k := Before(h[..n], time);
      assert k < n ==> h[..n][k].ts >= time;
    }
  }

  lemma {:induction false} BeforeUnique(h: seq<Bar>, time: int, k: nat)
    requires k <= |h|
    requires forall i | 0 <= i < k :: h[i].ts < time
    requires forall i | k <= i < |h| :: h[i].ts >= time
    ensures Before(h, time) == k
  {
    if h != [] {
      BeforeUnique(h[..|h| - 1], time, if k == |h| then k - 1 else k);
    }
  }

  /** The bars with lo <= ts <= hi. */
  function Window(h: seq<Bar>, lo: int, hi: int): seq<Bar>
    requires StrictlyBy(h, Ts) && lo <= hi
  {
    BeforeIsIndex(h, lo);
    BeforeIsIndex(h, hi + 1);
    BeforeMonotone(h, lo, hi + 1);
    h[Before(h, lo)..Before(h, hi + 1)]
  }

  lemma {:induction false} BeforeMonotone(h: seq<Bar>, a: int, b: int)
    requires a <= b
    ensures Before(h, a) <= Before(h, b)
  {
    if h != [] {
      BeforeMonotone(h[..|h| - 1], a, b);
    }
  }

  lemma InWindow(h: seq<Bar>, lo: int, hi: int, b: Bar)
    requires StrictlyBy(h, Ts) && lo <= hi
    ensures b in Window(h, lo, hi) <==> b in h && lo <= b.ts <= hi
  {
    BeforeIsIndex(h, lo);
    BeforeIsIndex(h, hi + 1);
    BeforeMonotone(h, lo, hi + 1);
    var i, j := Before(h, lo), Before(h, hi + 1);
    if b in Window(h, lo, hi) {
      var k :| 0 <= k < j - i && h[i..j][k] == b;
      assert h[i + k] == b;
    }
    if b in h && lo <= b.ts <= hi {
      var k :| 0 <= k < |h| && h[k] == b;
      assert i <= k < j;
      assert h[i..j][k - i] == b;
    }
  }

  lemma WindowMembers(h: seq<Bar>, lo: int, hi: int)
    requires StrictlyBy(h, Ts) && lo <= hi
    ensures forall b :: b in Window(h, lo, hi) <==> b in h && lo <= b.ts <= hi
    ensures StrictlyBy(Window(h, lo, hi), Ts)
  {
    BeforeIsIndex(h, lo);
    BeforeIsIndex(h, hi + 1);
    BeforeMonotone(h, lo, hi + 1);
    SliceIsStrict(h, Before(h, lo), Before(h, hi + 1));
    forall b ensures b in Window(h, lo, hi) <==> b in h && lo <= b.ts <= hi {
      InWindow(h, lo, hi, b);
    }
  }

  lemma SliceIsStrict(h: seq<Bar>, i: int, j: int)
    requires StrictlyBy(h, Ts) && 0 <= i <= j <= |h|
    ensures StrictlyBy(h[i..j], Ts)
  {
  }

  // ---------------------------------------------------------------- one page

  /** The exchange's answer: the first `limit` bars at or after `since`. */
  function Page(h: seq<Bar>, since: int, limit: nat): seq<Bar>
    requires StrictlyBy(h, Ts)
  {
    BeforeIsIndex(h, since);
    var from := Before(h, since);
    if from + limit <= |h| then h[from..from + limit] else h[from..]
  }

  /** Bars are at least one timeframe apart. */
  ghost predicate Spaced(h: seq<Bar>, timeframe: int) {
    forall i, j :: 0 <= i < j < |h| ==> h[j].ts - h[i].ts >= timeframe
  }

  // ---------------------------------------------------------------- assembling the frame

  /** drop_duplicates on the timestamp, keeping the first row. */
  function KeepFirst(rows: seq<Bar>): seq<Bar> {
    if rows == [] then []
    else
      var n := |rows| - 1;
      KeepFirst(rows[..n]) + if HasTime(rows[..n], rows[n].ts) then [] else [rows[n]]
  }

  /** The boolean mask start <= timestamp <= end. */
  function Between(rows: seq<Bar>, lo: int, hi: int): seq<Bar> {
    if rows == [] then []
    else
      var n := |rows| - 1;
      Between(rows[..n], lo, hi) + if lo <= rows[n].ts <= hi then [rows[n]] else []
  }

  function Frame(rows: seq<Bar>, lo: int, hi: int): seq<Bar> {
    Between(SortBy(KeepFirst(SortBy(rows, Ts)), Ts), lo, hi)
  }

  /** b stands in the rows with no row of its time before it. */
  ghost predicate FirstAt(rows: seq<Bar>, b: Bar) {
    exists i :: 0 <= i < |rows| && rows[i] == b && forall j | 0 <= j < i :: rows[j].ts != b.ts
  }

  lemma {:induction false} HeadIsFirst(rows: seq<Bar>, b: Bar)
    ensures FirstAt(rows, b) <==> WithKey(rows, Ts, b.ts) != [] && WithKey(rows, Ts, b.ts)[0] == b
    ensures WithKey(rows, Ts, b.ts) != [] <==> HasTime(rows, b.ts)
  {
    if rows != [] {
      var n := |rows| - 1;
      var init, last := rows[..n], rows[n];
      assert rows == init + [last];
      HeadIsFirst(init, b);
      if HasTime(init, b.ts) {
        FirstIsEarlier(init, last, b);
      } else {
        FirstIsLast(init, last, b);
      }
    }
  }

  lemma FirstIsEarlier(init: seq<Bar>, last: Bar, b: Bar)
    requires HasTime(init, b.ts)
    ensures FirstAt(init + [last], b) <==> FirstAt(init, b)
  {
    var rows := init + [last];
    var r :| r in init && r.ts == b.ts;
    var k :| 0 <= k < |init| && init[k] == r;
    assert rows[k] == r;
    if i :| 0 <= i < |rows| && rows[i] == b && forall j | 0 <= j < i :: rows[j].ts != b.ts {
      assert i <= k;
      assert forall j | 0 <= j < i :: init[j] == rows[j];
    }
    if i :| 0 <= i < |init| && init[i] == b && forall j | 0 <= j < i :: init[j].ts != b.ts {
      assert rows[i] == b && forall j | 0 <= j < i :: rows[j] == init[j];
    }
  }

  lemma FirstIsLast(init: seq<Bar>, last: Bar, b: Bar)
    requires !HasTime(init, b.ts)
    ensures FirstAt(init + [last], b) <==> last == b
  {
    var rows := init + [last];
    forall j | 0 <= j < |init| ensures rows[j].ts != b.ts {
      assert init[j] in init;
    }
    assert rows[|init|] == last;
  }

  lemma {:induction false} KeepFirstIs(rows: seq<Bar>)
    ensures forall b :: b in KeepFirst(rows) <==> FirstAt(rows, b)
    ensures DistinctBy(KeepFirst(rows), Ts)
    ensures forall b | b in KeepFirst(rows) :: HasTime(rows, b.ts)
  {
    if rows != [] {
      var init, last := rows[..|rows| - 1], rows[|rows| - 1];
      assert rows == init + [last];
      KeepFirstIs(init);
      KeepFirstStep(init, last, KeepFirst(init), KeepFirst(rows));
    }
  }

  lemma KeepFirstStep(init: seq<Bar>, last: Bar, kept: seq<Bar>, after: seq<Bar>)
    requires (forall b :: b in kept <==> FirstAt(init, b)) && DistinctBy(kept, Ts)
    requires forall b | b in kept :: HasTime(init, b.ts)
    requires after == kept + if HasTime(init, last.ts) then [] else [last]
    ensures forall b :: b in after <==> FirstAt(init + [last], b)
    ensures DistinctBy(after, Ts) && forall b | b in after :: HasTime(init + [last], b.ts)
  {
    forall b ensures b in after <==> FirstAt(init + [last], b) {
      if HasTime(init, b.ts) {
        FirstIsEarlier(init, last, b);
      } else {
        FirstIsLast(init, last, b);
        NotFirst(init, b);
      }
    }
    forall i | 0 <= i < |kept| ensures HasTime(init, kept[i].ts) {
      assert kept[i] in kept;
    }
    forall b | b in after ensures HasTime(init + [last], b.ts) {
      if r :| r in init && r.ts == b.ts {
        assert r in init + [last];
      } else {
        assert last in init + [last];
      }
    }
  }

  lemma NotFirst(rows: seq<Bar>, b: Bar)
    requires !HasTime(rows, b.ts)
    ensures !FirstAt(rows, b)
  {
    forall i | 0 <= i < |rows| ensures rows[i].ts != b.ts {
      assert rows[i] in rows;
    }
  }

  lemma {:induction false} BetweenIs(rows: seq<Bar>, lo: int, hi: int)
    requires StrictlyBy(rows, Ts)
    ensures forall b :: b in Between(rows, lo, hi) <==> b in rows && lo <= b.ts <= hi
    ensures StrictlyBy(Between(rows, lo, hi), Ts)
  {
    if rows != [] {
      var n := |rows| - 1;
      LastIsNew(rows);
      BetweenIs(rows[..n], lo, hi);
      assert rows == rows[..n] + [rows[n]];
      var kept := Between(rows[..n], lo, hi);
      forall i | 0 <= i < |kept| ensures Ts(kept[i]) < Ts(rows[n]) {
        assert kept[i] in rows[..n];
        var k :| 0 <= k < n && rows[k] == kept[i];
        assert Ts(rows[k]) < Ts(rows[n]);
      }
      SnocIsStrict(kept, rows[n], Ts);
    }
  }

  /**
   The frame made of any rows a download collected, repeated or out of order: in strict time order, and for
   each time in the range exactly the first row there is of it.
   */
  lemma FrameIs(rows: seq<Bar>, lo: int, hi: int)
    ensures StrictlyBy(Frame(rows, lo, hi), Ts)
    ensures forall b :: b in Frame(rows, lo, hi) <==> FirstAt(rows, b) && lo <= b.ts <= hi
  {
    var sorted := SortBy(rows, Ts);
    var kept := KeepFirst(sorted);
    KeepFirstIs(sorted);
    SortIsStrict(kept, Ts);
    SortHasSame(kept, Ts);
    BetweenIs(SortBy(kept, Ts), lo, hi);
    forall b ensures b in Frame(rows, lo, hi) <==> FirstAt(rows, b) && lo <= b.ts <= hi {
      HeadIsFirst(sorted, b);
      HeadIsFirst(rows, b);
      SortIsStable(rows, Ts, b.ts);
    }
  }

  lemma StrictIsOrdered(rows: seq<Bar>)
    requires StrictlyBy(rows, Ts)
    ensures OrderedBy(rows, Ts)
  {
  }

  lemma LastIsNew(rows: seq<Bar>)
    requires StrictlyBy(rows, Ts) && rows != []
    ensures !HasTime(rows[..|rows| - 1], rows[|rows| - 1].ts) && StrictlyBy(rows[..|rows| - 1], Ts)
  {
    var n := |rows| - 1;
    forall r | r in rows[..n] ensures r.ts != rows[n].ts {
      var i :| 0 <= i < n && rows[i] == r;
      assert Ts(rows[i]) < Ts(rows[n]);
    }
  }

  lemma {:induction false} KeepFirstOfStrict(rows: seq<Bar>)
    requires StrictlyBy(rows, Ts)
    ensures KeepFirst(rows) == rows
  {
    if rows != [] {
      LastIsNew(rows);
      KeepFirstOfStrict(rows[..|rows| - 1]);
    }
  }

  lemma {:induction false} BetweenConcat(a: seq<Bar>, b: seq<Bar>, lo: int, hi: int)
    ensures Between(a + b, lo, hi) == Between(a, lo, hi) + Between(b, lo, hi)
  {
    if b == [] {
      assert a + b == a;
    } else {
      var n := |b| - 1;
      assert (a + b)[..|a| + n] == a + b[..n];
      BetweenConcat(a, b[..n], lo, hi);
    }
  }

  lemma {:induction false} BetweenAll(rows: seq<Bar>, lo: int, hi: int)
    requires forall r | r in rows :: lo <= r.ts <= hi
    ensures Between(rows, lo, hi) == rows
  {
    if rows != [] {
      BetweenAll(rows[..|rows| - 1], lo, hi);
    }
  }

  lemma {:induction false} BetweenNone(rows: seq<Bar>, lo: int, hi: int)
    requires forall r | r in rows :: r.ts > hi
    ensures Between(rows, lo, hi) == []
  {
    if rows != [] {
      BetweenNone(rows[..|rows| - 1], lo, hi);
    }
  }

  lemma SliceConcat<T>(h: seq<T>, a: nat, b: nat, c: nat)
    requires a <= b <= c <= |h|
    ensures h[a..b] + h[b..c] == h[a..c]
  {
  }

  lemma SliceAll(h: seq<Bar>, i: nat, j: nat, lo: int, hi: int)
    requires i <= j <= |h| && forall k | i <= k < j :: lo <= h[k].ts <= hi
    ensures Between(h[i..j], lo, hi) == h[i..j]
  {
    BetweenAll(h[i..j], lo, hi);
  }

  lemma SliceNone(h: seq<Bar>, i: nat, j: nat, lo: int, hi: int)
    requires i <= j <= |h| && forall k | i <= k < j :: h[k].ts > hi
    ensures Between(h[i..j], lo, hi) == []
  {
    BetweenNone(h[i..j], lo, hi);
  }

  lemma BetweenSlice(h: seq<Bar>, i: nat, j: nat, lo: int, hi: int)
    requires StrictlyBy(h, Ts) && lo <= hi && i <= j <= |h|
    requires i == Before(h, lo) && Before(h, hi + 1) <= j
    ensures Between(h[i..j], lo, hi) == Window(h, lo, hi)
  {
    var cut := Before(h, hi + 1);
    BeforeIsIndex(h, lo);
    BeforeIsIndex(h, hi + 1);
    BeforeMonotone(h, lo, hi + 1);
    SliceConcat(h, i, cut, j);
    BetweenConcat(h[i..cut], h[cut..j], lo, hi);
    SliceAll(h, i, cut, lo, hi);
    SliceNone(h, cut, j, lo, hi);
  }

  lemma FrameOfSlice(h: seq<Bar>, i: nat, j: nat, lo: int, hi: int)
    requires StrictlyBy(h, Ts) && lo <= hi && i <= j <= |h|
    requires i == Before(h, lo) && Before(h, hi + 1) <= j
    ensures Frame(h[i..j], lo, hi) == Window(h, lo, hi)
  {
    SliceIsStrict(h, i, j);
    StrictIsOrdered(h[i..j]);
    SortOfOrdered(h[i..j], Ts);
    KeepFirstOfStrict(h[i..j]);
    BetweenSlice(h, i, j, lo, hi);
  }

  // ---------------------------------------------------------------- the page walk

  /** What a range request should return. */
  function Fetched(h: seq<Bar>, start: int, end: int): Result<seq<Bar>, FetchError>
    requires StrictlyBy(h, Ts)
  {
    if start > end then Err(StartAfterEnd)
    else if Before(h, start) == |h| then Err(NoData)
    else if Window(h, start, end) == [] then Err(NoBarsInRange)
    else Ok(Window(h, start, end))
  }

  /** The rows walked so far are the history from the first bar at or after `start`; the next page starts at `since`. */
  ghost predicate Walked(h: seq<Bar>, start: int, since: int, rows: seq<Bar>)
    requires StrictlyBy(h, Ts)
  {
    var from, upto := Before(h, start), Before(h, since);
    from <= upto <= |h| && rows == h[from..upto]
  }

  lemma WalkStarts(h: seq<Bar>, start: int)
    requires StrictlyBy(h, Ts)
    ensures Walked(h, start, start, [])
  {
    BeforeIsIndex(h, start);
  }

  /** A page is the next stretch of the history, and only an exhausted history gives an empty one. */
  lemma {:induction false} PageIsNext(h: seq<Bar>, since: int, limit: nat)
    requires StrictlyBy(h, Ts) && limit > 0
    ensures var from, page := Before(h, since), Page(h, since, limit);
            && from + |page| <= |h| && page == h[from..from + |page|]
            && (page == [] ==> from == |h|)
            && (page != [] ==> page[|page| - 1] == h[from + |page| - 1] && page[|page| - 1].ts >= since)
  {
    BeforeIsIndex(h, since);
  }

  lemma PageStep(h: seq<Bar>, start: int, since: int, rows: seq<Bar>, limit: nat, timeframe: int)
    requires StrictlyBy(h, Ts) && Spaced(h, timeframe) && timeframe > 0 && limit > 0
    requires Walked(h, start, since, rows)
    ensures var page := Page(h, since, limit);
            if page == [] then Before(h, since) == |h|
            else
              var last := page[|page| - 1].ts;
              last >= since && Walked(h, start, last + timeframe, rows + page)
  {
    var page, upto := Page(h, since, limit), Before(h, since);
    PageIsNext(h, since, limit);
    if page != [] {
      NextPage(h, upto + |page|, timeframe);
      SliceConcat(h, Before(h, start), upto, upto + |page|);
    }
  }

  /** The page walk: everything from the first bar at or after `start`, at least as far as `end`. */
  method WalkPages(h: seq<Bar>, start: int, end: int, limit: nat, timeframe: int)
    returns (allRows: seq<Bar>, ghost upto: nat)
    requires StrictlyBy(h, Ts) && Spaced(h, timeframe) && timeframe > 0 && limit > 0 && start <= end
    ensures Before(h, start) <= upto <= |h| && allRows == h[Before(h, start)..upto]
    ensures Before(h, end + 1) <= upto
    ensures allRows == [] ==> Before(h, start) == |h|
  {
    var since := start;
    allRows := [];
    WalkStarts(h, start);
    while since <= end
      invariant Walked(h, start, since, allRows) && (since == start || allRows != [])
      decreases end - since
    {
      var batch := Page(h, since, limit);
      PageStep(h, start, since, allRows, limit, timeframe);
      if batch == [] {
        break;
      }
      allRows := allRows + batch;
      var lastTs := batch[|batch| - 1].ts;
      if lastTs >= end {
        since := lastTs + timeframe;
        break;
      }
      var nextSince := lastTs + timeframe;
      if nextSince <= since {
        break;
      }
      since := nextSince;
    }
    upto := Before(h, since);
    ReachesEnd(h, since, end, upto);
  }

  /**
   Pagination is exact and terminates: page by page, whatever the page size, it returns exactly the
   exchange's bars in [start, end], each once and in order.
   */
  method FetchOhlcvRange(h: seq<Bar>, start: int, end: int, limit: nat, timeframe: int)
    returns (r: Result<seq<Bar>, FetchError>)
    requires StrictlyBy(h, Ts) && Spaced(h, timeframe) && timeframe > 0 && limit > 0
    ensures r == Fetched(h, start, end)
  {
    if start > end {
      return Err(StartAfterEnd);
    }
    var allRows;
    ghost var upto;
    allRows, upto := WalkPages(h, start, end, limit, timeframe);
    if allRows == [] {
      return Err(NoData);
    }
    FrameOfSlice(h, Before(h, start), upto, start, end);
    var filtered := Frame(allRows, start, end);
    if filtered == [] {
      return Err(NoBarsInRange);
    }
    r := Ok(filtered);
  }

  lemma ReachesEnd(h: seq<Bar>, since: int, end: int, upto: nat)
    requires StrictlyBy(h, Ts)
    requires upto == Before(h, since) && (since > end || upto == |h|)
    ensures Before(h, end + 1) <= upto
  {
    BeforeIsIndex(h, end + 1);
    if since > end {
      BeforeMonotone(h, end + 1, since);
    }
  }

  /** With bars a timeframe apart, the next page begins right after the last bar of this one. */
  lemma NextPage(h: seq<Bar>, upto: nat, timeframe: int)
    requires StrictlyBy(h, Ts) && Spaced(h, timeframe) && timeframe > 0 && 0 < upto <= |h|
    ensures Before(h, h[upto - 1].ts + timeframe) == upto
  {
    var next := h[upto - 1].ts + timeframe;
    forall i | 0 <= i < upto ensures h[i].ts < next {
      assert i < upto - 1 ==> Ts(h[i]) < Ts(h[upto - 1]);
    }
    BeforeUnique(h, next, upto);
  }
}
