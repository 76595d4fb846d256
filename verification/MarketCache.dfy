/**
 The continuous OHLCV cache (backend/src/data/market_cache.py, download_csv): one file per market,
 extended by fetching only the missing ends. Coverage is judged by the first and last rows alone, so
 everything rests on the file having no holes.
 */
module MarketCache {
  import opened Wrappers
  import opened StableSort
  import opened Ohlcv

  // ---------------------------------------------------------------- merging

  /** drop_duplicates on the timestamp, keeping the last row. */
  function KeepLast(rows: seq<Bar>): seq<Bar> {
    if rows == [] then []
    else (if HasTime(rows[1..], rows[0].ts) then [] else [rows[0]]) + KeepLast(rows[1..])
  }

  function Merge(existing: seq<Bar>, newer: seq<Bar>): seq<Bar> { SortBy(KeepLast(existing + newer), Ts) }

  /** The rows of `f` whose timestamps `w` does not have. */
  function Fresh(f: seq<Bar>, w: seq<Bar>): seq<Bar> {
    if f == [] then []
    else (if HasTime(w, f[0].ts) then [] else [f[0]]) + Fresh(f[1..], w)
  }

  lemma NoneLater(rows: seq<Bar>)
    requires StrictlyBy(rows, Ts) && rows != []
    ensures !HasTime(rows[1..], rows[0].ts) && StrictlyBy(rows[1..], Ts)
  {
    forall r | r in rows[1..] ensures r.ts != rows[0].ts {
      var i :| 0 < i < |rows| && rows[i] == r;
      assert Ts(rows[0]) < Ts(rows[i]);
    }
  }

  lemma {:induction false} KeepLastOfStrict(rows: seq<Bar>)
    requires StrictlyBy(rows, Ts)
    ensures KeepLast(rows) == rows
  {
    if rows != [] {
      NoneLater(rows);
      KeepLastOfStrict(rows[1..]);
    }
  }

  lemma HasTimeConcat(a: seq<Bar>, b: seq<Bar>, time: int)
    ensures HasTime(a + b, time) <==> HasTime(a, time) || HasTime(b, time)
  {
    if r :| r in a && r.ts == time {
      assert r in a + b;
    }
    if r :| r in b && r.ts == time {
      assert r in a + b;
    }
  }

  lemma {:induction false} KeepLastSplits(f: seq<Bar>, w: seq<Bar>)
    requires StrictlyBy(f, Ts) && StrictlyBy(w, Ts)
    ensures KeepLast(f + w) == Fresh(f, w) + w
  {
    if f == [] {
      assert f + w == w;
      KeepLastOfStrict(w);
    } else {
      assert (f + w)[1..] == f[1..] + w;
      NoneLater(f);
      KeepLastSplits(f[1..], w);
      HasTimeConcat(f[1..], w, f[0].ts);
    }
  }

  lemma ConsIsStrict(b: Bar, f: seq<Bar>, rest: seq<Bar>)
    requires StrictlyBy([b] + f, Ts) && StrictlyBy(rest, Ts) && forall r | r in rest :: r in f
    ensures StrictlyBy([b] + rest, Ts)
  {
    var all := [b] + f;
    forall i | 0 <= i < |rest| ensures Ts(b) < Ts(rest[i]) {
      assert rest[i] in f;
      var k :| 0 <= k < |f| && f[k] == rest[i];
      assert Ts(all[0]) < Ts(all[k + 1]);
    }
  }

  lemma {:induction false} FreshMembers(f: seq<Bar>, w: seq<Bar>)
    requires StrictlyBy(f, Ts)
    ensures forall b :: b in Fresh(f, w) <==> b in f && !HasTime(w, b.ts)
    ensures StrictlyBy(Fresh(f, w), Ts)
  {
    if f != [] {
      FreshMembers(f[1..], w);
      assert f == [f[0]] + f[1..];
      ConsIsStrict(f[0], f[1..], Fresh(f[1..], w));
    }
  }

  ghost predicate IsLast(rows: seq<Bar>, b: Bar) {
    rows != [] && if HasTime(rows[1..], b.ts) then IsLast(rows[1..], b) else rows[0] == b
  }

  /** b stands in the rows with no row of its time after it. */
  ghost predicate LastAt(rows: seq<Bar>, b: Bar) {
    exists i :: 0 <= i < |rows| && rows[i] == b && forall j | i < j < |rows| :: rows[j].ts != b.ts
  }

  lemma {:induction false} IsLastMeans(rows: seq<Bar>, b: Bar)
    ensures IsLast(rows, b) <==> LastAt(rows, b)
  {
    if rows != [] {
      var rest := rows[1..];
      IsLastMeans(rest, b);
      if IsLast(rest, b) {
        var i :| 0 <= i < |rest| && rest[i] == b && forall j | i < j < |rest| :: rest[j].ts != b.ts;
        assert rows[i + 1] == b && forall j | i + 1 < j < |rows| :: rows[j].ts == rest[j - 1].ts;
      }
      if i :| 0 < i < |rows| && rows[i] == b && forall j | i < j < |rows| :: rows[j].ts != b.ts {
        assert rest[i - 1] == b && forall j | i - 1 < j < |rest| :: rest[j].ts == rows[j + 1].ts;
        assert HasTime(rest, b.ts);
      }
    }
  }

  lemma {:induction false} KeepLastKeeps(rows: seq<Bar>)
    ensures forall b :: b in KeepLast(rows) <==> IsLast(rows, b)
    ensures DistinctBy(KeepLast(rows), Ts)
  {
    if rows != [] {
      var rest := rows[1..];
      KeepLastKeeps(rest);
      forall b | IsLast(rest, b) ensures HasTime(rest, b.ts) {
        IsLastMeans(rest, b);
      }
      KeepLastTimes(rest);
    }
  }

  lemma {:induction false} KeepLastTimes(rows: seq<Bar>)
    ensures forall b | b in KeepLast(rows) :: b in rows
  {
    if rows != [] {
      KeepLastTimes(rows[1..]);
    }
  }

  /**
   Whatever the two frames hold, unsorted or with repeated times: the merge is in strict time order and
   has, for each time in either, exactly the last row of that time, the new frame counting as later.
   */
  lemma MergeKeepsLast(f: seq<Bar>, w: seq<Bar>)
    ensures StrictlyBy(Merge(f, w), Ts)
    ensures forall b :: b in Merge(f, w) <==> LastAt(f + w, b)
  {
    var rows := KeepLast(f + w);
    KeepLastKeeps(f + w);
    SortIsStrict(rows, Ts);
    SortHasSame(rows, Ts);
    forall b ensures b in Merge(f, w) <==> LastAt(f + w, b) {
      IsLastMeans(f + w, b);
    }
  }

  /** New rows win on a repeated timestamp; every other row of either side is kept, in time order. */
  lemma MergeMembers(f: seq<Bar>, w: seq<Bar>)
    requires StrictlyBy(f, Ts) && StrictlyBy(w, Ts)
    ensures StrictlyBy(Merge(f, w), Ts)
    ensures forall b :: b in Merge(f, w) <==> b in w || (b in f && !HasTime(w, b.ts))
  {
    KeepLastSplits(f, w);
    FreshMembers(f, w);
    var rows := Fresh(f, w) + w;
    forall i, j | 0 <= i < j < |rows| ensures Ts(rows[i]) != Ts(rows[j]) {
      if i < |Fresh(f, w)| <= j {
        assert rows[i] in Fresh(f, w) && rows[j] in w;
      }
    }
    SortIsStrict(rows, Ts);
    SortHasSame(rows, Ts);
  }

  // ---------------------------------------------------------------- one download

  /** First and last timestamps in the file; None when there is nothing in it. */
  function Coverage(file: Option<seq<Bar>>): Option<(int, int)> {
    if file.None? || file.value == [] then None
    else Some((file.value[0].ts, file.value[|file.value| - 1].ts))
  }

  /** A gap fetch: nothing is fine, but a failed request is not. */
  function Gap(h: seq<Bar>, start: int, end: int): Result<Option<seq<Bar>>, FetchError>
    requires StrictlyBy(h, Ts)
  {
    if start > end then Ok(None)
    else
      match Fetched(h, start, end)
      case Ok(w) => Ok(Some(w))
      case Err(NoBarsInRange) => Ok(None)
      case Err(e) => Err(e)
  }

  function MergeGap(f: seq<Bar>, gap: Option<seq<Bar>>): seq<Bar> {
    if gap.Some? && gap.value != [] then Merge(f, gap.value) else f
  }

  /** The file afterwards, and whether it was rewritten. */
  function Download(h: seq<Bar>, file: Option<seq<Bar>>, start: int, end: int, force: bool)
    : (Option<seq<Bar>>, Result<bool, FetchError>)
    requires StrictlyBy(h, Ts)
  {
    var coverage := Coverage(file);
    if !force && coverage.Some? && coverage.value.0 <= start && coverage.value.1 >= end then (file, Ok(false))
    else if force || coverage.None? then
      match Fetched(h, start, end)
      case Err(e) => (file, Err(e))
      case Ok(w) => (Some(if coverage.Some? then Merge(file.value, w) else w), Ok(true))
    else
      var (first, last) := coverage.value;
      var left := if start < first then Gap(h, start, first) else Ok(None);
      if left.Err? then (file, Err(left.error))
      else
        var right := if end > last then Gap(h, last, end) else Ok(None);
        if right.Err? then (file, Err(right.error))
        else if left.value.None? && right.value.None? then (file, Ok(false))
        else (Some(MergeGap(MergeGap(file.value, left.value), right.value)), Ok(true))
  }

  class CacheFile {
    var file: Option<seq<Bar>>

    constructor ()
      ensures file == None
    {
      file := None;
    }

    method TryFetchGap(h: seq<Bar>, start: int, end: int, limit: nat, timeframe: int)
      returns (r: Result<Option<seq<Bar>>, FetchError>)
      requires StrictlyBy(h, Ts) && Spaced(h, timeframe) && timeframe > 0 && limit > 0
      ensures r == Gap(h, start, end)
    {
      if start > end {
        return Ok(None);
      }
      var fetched := FetchOhlcvRange(h, start, end, limit, timeframe);
      match fetched {
        case Ok(w) => r := Ok(Some(w));
        case Err(NoBarsInRange) => r := Ok(None);
        case Err(e) => r := Err(e);
      }
    }

    /** The merging loop: the file first, then each gap as it was fetched. */
    static method MergeInOrder(frames: seq<seq<Bar>>) returns (merged: seq<Bar>)
      requires frames != []
      ensures merged == MergeFrames(frames)
    {
      merged := frames[0];
      for i := 1 to |frames|
        invariant merged == MergeFrames(frames[..i])
      {
        assert frames[..i + 1][..i] == frames[..i];
        merged := Merge(merged, frames[i]);
      }
      assert frames[..|frames|] == frames;
    }

    method DownloadCsv(h: seq<Bar>, start: int, end: int, force: bool, limit: nat, timeframe: int)
      returns (r: Result<bool, FetchError>)
      requires StrictlyBy(h, Ts) && Spaced(h, timeframe) && timeframe > 0 && limit > 0
      modifies this
      ensures (file, r) == Download(h, old(file), start, end, force)
    {
      var coverage := Coverage(file);
      if !force && coverage.Some? && coverage.value.0 <= start && coverage.value.1 >= end {
        return Ok(false);
      }
      if force || coverage.None? {
        var fetched := FetchOhlcvRange(h, start, end, limit, timeframe);
        if fetched.Err? {
          return Err(fetched.error);
        }
        file := Some(if coverage.Some? then Merge(file.value, fetched.value) else fetched.value);
        return Ok(true);
      }
      var (first, last) := coverage.value;
      var frames: seq<seq<Bar>> := [file.value];
      ghost var left: Option<seq<Bar>> := None;
      ghost var right: Option<seq<Bar>> := None;
      if start < first {
        var gap := TryFetchGap(h, start, first, limit, timeframe);
        if gap.Err? {
          return Err(gap.error);
        }
        left := gap.value;
        if gap.value.Some? {
          frames := frames + [gap.value.value];
        }
      }
      if end > last {
        var gap := TryFetchGap(h, last, end, limit, timeframe);
        if gap.Err? {
          return Err(gap.error);
        }
        right := gap.value;
        if gap.value.Some? {
          frames := frames + [gap.value.value];
        }
      }
      if |frames| == 1 {
        return Ok(false);
      }
      var merged := MergeInOrder(frames);
      FramesAreGaps(file.value, left, right, frames);
      file := Some(merged);
      r := Ok(true);
    }
  }

  function MergeFrames(frames: seq<seq<Bar>>): seq<Bar>
    requires frames != []
  {
    if |frames| == 1 then frames[0] else Merge(MergeFrames(frames[..|frames| - 1]), frames[|frames| - 1])
  }

  lemma FramesAreGaps(f: seq<Bar>, left: Option<seq<Bar>>, right: Option<seq<Bar>>, frames: seq<seq<Bar>>)
    requires left.Some? ==> left.value != []
    requires right.Some? ==> right.value != []
    requires frames == [f] + (if left.Some? then [left.value] else []) + (if right.Some? then [right.value] else [])
    ensures MergeFrames(frames) == MergeGap(MergeGap(f, left), right)
  {
    if left.Some? && right.Some? {
      assert frames[..2] == [f, left.value] && [f, left.value][..1] == [f];
      assert MergeFrames([f, left.value]) == Merge(f, left.value);
    } else if |frames| == 2 {
      assert frames[..1] == [f];
    }
  }

  // ---------------------------------------------------------------- coherence

  /** The file is exactly the exchange's bars from its own first to its own last timestamp. */
  ghost predicate Coherent(h: seq<Bar>, f: seq<Bar>)
    requires StrictlyBy(h, Ts)
  {
    f == [] || (f[0].ts <= f[|f| - 1].ts && f == Window(h, f[0].ts, f[|f| - 1].ts))
  }

  ghost predicate CoherentFile(h: seq<Bar>, file: Option<seq<Bar>>)
    requires StrictlyBy(h, Ts)
  {
    file.Some? ==> Coherent(h, file.value)
  }

  /** A window is the window of its own ends. */
  lemma WindowIsTight(h: seq<Bar>, lo: int, hi: int)
    requires StrictlyBy(h, Ts) && lo <= hi
    ensures Coherent(h, Window(h, lo, hi))
  {
    var w := Window(h, lo, hi);
    if w != [] {
      var first, last := w[0], w[|w| - 1];
      WindowMembers(h, lo, hi);
      assert first in w && last in w;
      FirstIsSmallest(w, last);
      WindowMembers(h, first.ts, last.ts);
      forall b | b in w ensures b in Window(h, first.ts, last.ts) {
        FirstIsSmallest(w, b);
        LastIsLargest(w, b, Ts);
      }
      SameMembers(w, Window(h, first.ts, last.ts));
    }
  }

  lemma FirstIsSmallest(w: seq<Bar>, b: Bar)
    requires StrictlyBy(w, Ts) && b in w
    ensures w[0].ts <= b.ts
  {
    var i :| 0 <= i < |w| && w[i] == b;
    assert i > 0 ==> Ts(w[0]) < Ts(w[i]);
  }

  lemma SameMembers(a: seq<Bar>, b: seq<Bar>)
    requires StrictlyBy(a, Ts) && StrictlyBy(b, Ts)
    requires forall x | x in a :: x in b
    requires forall x | x in b :: x in a
    ensures a == b
  {
    StrictIsUnique(a, b, Ts);
  }

  /** No exchange bar lies between the two ranges. */
  ghost predicate Adjoins(h: seq<Bar>, a: int, b: int, c: int, d: int) {
    forall x | x in h :: !(b < x.ts < c) && !(d < x.ts < a)
  }

  function MinInt(x: int, y: int): int { if y < x then y else x }

  function MaxInt(x: int, y: int): int { if y > x then y else x }

  lemma OneBarPerTime(h: seq<Bar>, x: Bar, y: Bar)
    requires StrictlyBy(h, Ts) && x in h && y in h && x.ts == y.ts
    ensures x == y
  {
    var i :| 0 <= i < |h| && h[i] == x;
    var j :| 0 <= j < |h| && h[j] == y;
    assert i < j ==> Ts(h[i]) < Ts(h[j]);
    assert j < i ==> Ts(h[j]) < Ts(h[i]);
  }

  /** Merging two windows with no exchange bar between them gives the window over both. */
  lemma MergeWindows(h: seq<Bar>, a: int, b: int, c: int, d: int)
    requires StrictlyBy(h, Ts) && a <= b && c <= d && Adjoins(h, a, b, c, d)
    ensures Merge(Window(h, a, b), Window(h, c, d)) == Window(h, MinInt(a, c), MaxInt(b, d))
  {
    var f, w, all := Window(h, a, b), Window(h, c, d), Window(h, MinInt(a, c), MaxInt(b, d));
    WindowMembers(h, a, b);
    WindowMembers(h, c, d);
    WindowMembers(h, MinInt(a, c), MaxInt(b, d));
    MergeMembers(f, w);
    forall x | x in all ensures x in Merge(f, w) {
      if x !in w {
        if r :| r in w && r.ts == x.ts {
          OneBarPerTime(h, x, r);
        }
      }
    }
    SameMembers(Merge(f, w), all);
  }

  // ---------------------------------------------------------------- extending the file

  /** Both ends of a coherent file are exchange bars. */
  lemma EndsAreBars(h: seq<Bar>, f: seq<Bar>)
    requires StrictlyBy(h, Ts) && f != [] && Coherent(h, f)
    ensures f[0] in h && f[|f| - 1] in h
  {
    WindowMembers(h, f[0].ts, f[|f| - 1].ts);
    assert f[0] in f && f[|f| - 1] in f;
  }

  /** A fetch over a range holding an exchange bar succeeds with that window. */
  lemma FetchFinds(h: seq<Bar>, start: int, end: int, b: Bar)
    requires StrictlyBy(h, Ts) && b in h && start <= b.ts <= end
    ensures Fetched(h, start, end) == Ok(Window(h, start, end))
  {
    WindowMembers(h, start, end);
    BeforeIsIndex(h, start);
    var i :| 0 <= i < |h| && h[i] == b;
    assert b in Window(h, start, end);
  }

  /** The gap before the file: fetched up to and including its first row, and merged in. */
  lemma LeftGap(h: seq<Bar>, f: seq<Bar>, start: int)
    requires StrictlyBy(h, Ts) && f != [] && Coherent(h, f) && start < f[0].ts
    ensures Gap(h, start, f[0].ts) == Ok(Some(Window(h, start, f[0].ts))) && Window(h, start, f[0].ts) != []
    ensures Merge(f, Window(h, start, f[0].ts)) == Window(h, start, f[|f| - 1].ts)
  {
    EndsAreBars(h, f);
    FetchFinds(h, start, f[0].ts, f[0]);
    assert Adjoins(h, f[0].ts, f[|f| - 1].ts, start, f[0].ts);
    MergeWindows(h, f[0].ts, f[|f| - 1].ts, start, f[0].ts);
  }

  /** The gap after the exchange's bars up to a bar at `last`: fetched from that bar on, and merged in. */
  lemma RightGap(h: seq<Bar>, low: int, tip: Bar, end: int)
    requires StrictlyBy(h, Ts) && tip in h && low <= tip.ts < end
    ensures Gap(h, tip.ts, end) == Ok(Some(Window(h, tip.ts, end))) && Window(h, tip.ts, end) != []
    ensures Merge(Window(h, low, tip.ts), Window(h, tip.ts, end)) == Window(h, low, end)
  {
    FetchFinds(h, tip.ts, end, tip);
    assert Adjoins(h, low, tip.ts, tip.ts, end);
    MergeWindows(h, low, tip.ts, tip.ts, end);
  }

  /** A request past the last row, once its gaps are fetched. */
  /** A request that the file's first and last rows enclose changes nothing and fetches nothing. */
  lemma CoveredIsLeft(h: seq<Bar>, f: seq<Bar>, start: int, end: int)
    requires StrictlyBy(h, Ts) && f != [] && f[0].ts <= start && end <= f[|f| - 1].ts
    ensures Download(h, Some(f), start, end, false) == (Some(f), Ok(false))
  {
  }

  lemma MergesRight(h: seq<Bar>, f: seq<Bar>, start: int, end: int, w: seq<Bar>)
    requires StrictlyBy(h, Ts) && f != [] && f[0].ts <= start && end > f[|f| - 1].ts
    requires Gap(h, f[|f| - 1].ts, end) == Ok(Some(w)) && w != []
    ensures Download(h, Some(f), start, end, false) == (Some(Merge(f, w)), Ok(true))
  {
  }

  lemma MergesLeft(h: seq<Bar>, f: seq<Bar>, start: int, end: int, v: seq<Bar>)
    requires StrictlyBy(h, Ts) && f != [] && start < f[0].ts && end <= f[|f| - 1].ts
    requires Gap(h, start, f[0].ts) == Ok(Some(v)) && v != []
    ensures Download(h, Some(f), start, end, false) == (Some(Merge(f, v)), Ok(true))
  {
  }

  lemma MergesBoth(h: seq<Bar>, f: seq<Bar>, start: int, end: int, v: seq<Bar>, w: seq<Bar>)
    requires StrictlyBy(h, Ts) && f != [] && start < f[0].ts && end > f[|f| - 1].ts
    requires Gap(h, start, f[0].ts) == Ok(Some(v)) && v != []
    requires Gap(h, f[|f| - 1].ts, end) == Ok(Some(w)) && w != []
    ensures Download(h, Some(f), start, end, false) == (Some(Merge(Merge(f, v), w)), Ok(true))
  {
  }

  lemma ExtendsRight(h: seq<Bar>, f: seq<Bar>, start: int, end: int)
    requires StrictlyBy(h, Ts) && f != [] && Coherent(h, f) && end > f[|f| - 1].ts
    ensures Download(h, Some(f), start, end, false) == (Some(Window(h, MinInt(start, f[0].ts), end)), Ok(true))
  {
    var first, tip := f[0].ts, f[|f| - 1];
    EndsAreBars(h, f);
    if start < first {
      LeftGap(h, f, start);
      RightGap(h, start, tip, end);
      MergesBoth(h, f, start, end, Window(h, start, first), Window(h, tip.ts, end));
    } else {
      RightGap(h, first, tip, end);
      MergesRight(h, f, start, end, Window(h, tip.ts, end));
    }
  }

  /** A non-forced request that the coverage does not already meet leaves one window over both ranges. */
  lemma Extends(h: seq<Bar>, f: seq<Bar>, start: int, end: int)
    requires StrictlyBy(h, Ts) && f != [] && Coherent(h, f)
    requires start < f[0].ts || end > f[|f| - 1].ts
    ensures Download(h, Some(f), start, end, false)
            == (Some(Window(h, MinInt(start, f[0].ts), MaxInt(end, f[|f| - 1].ts))), Ok(true))
  {
    if end > f[|f| - 1].ts {
      ExtendsRight(h, f, start, end);
    } else {
      LeftGap(h, f, start);
    }
  }

  /** Every exchange bar of [start, end] is in the file. */
  ghost predicate Covers(h: seq<Bar>, file: Option<seq<Bar>>, start: int, end: int) {
    file.Some? && forall b | b in h && start <= b.ts <= end :: b in file.value
  }

  ghost predicate NothingLost(file: Option<seq<Bar>>, after: Option<seq<Bar>>) {
    file.Some? ==> after.Some? && forall b | b in file.value :: b in after.value
  }

  /** A wider window is coherent, holds the narrower one, and covers its range. */
  lemma WiderWindow(h: seq<Bar>, lo: int, hi: int, start: int, end: int, file: Option<seq<Bar>>)
    requires StrictlyBy(h, Ts) && lo <= start && end <= hi && lo <= hi
    requires file.Some? ==> forall b | b in file.value :: b in h && lo <= b.ts <= hi
    ensures var after := Some(Window(h, lo, hi));
            CoherentFile(h, after) && NothingLost(file, after) && Covers(h, after, start, end)
  {
    WindowIsTight(h, lo, hi);
    WindowMembers(h, lo, hi);
  }

  /**
   Cache coherence, one request. Against a fixed history a coherent file stays coherent, loses no row,
   and a successful request leaves every exchange bar of its range in it, even when the range is disjoint
   from what the file held. Once the file has a row no request can fail; a failed one changes nothing.
   */
  lemma DownloadKeepsCoherent(h: seq<Bar>, file: Option<seq<Bar>>, start: int, end: int,
                              after: Option<seq<Bar>>, r: Result<bool, FetchError>)
    requires StrictlyBy(h, Ts) && CoherentFile(h, file)
    requires (after, r) == Download(h, file, start, end, false)
    ensures CoherentFile(h, after) && NothingLost(file, after)
    ensures r.Ok? ==> Covers(h, after, start, end)
    ensures Coverage(file).Some? ==> r.Ok?
    ensures r.Err? || r == Ok(false) ==> after == file
  {
    if Coverage(file).None? {
      if Fetched(h, start, end).Ok? {
        WiderWindow(h, start, end, start, end, file);
      }
    } else {
      var f := file.value;
      WindowMembers(h, f[0].ts, f[|f| - 1].ts);
      if start < f[0].ts || end > f[|f| - 1].ts {
        Extends(h, f, start, end);
        WiderWindow(h, MinInt(start, f[0].ts), MaxInt(end, f[|f| - 1].ts), start, end, file);
      }
    }
  }

  // ---------------------------------------------------------------- runs of requests

  datatype Request = Request(start: int, end: int)

  function Requests(h: seq<Bar>, file: Option<seq<Bar>>, rs: seq<Request>): Option<seq<Bar>>
    requires StrictlyBy(h, Ts)
    decreases rs
  {
    if rs == [] then file
    else Requests(h, Download(h, file, rs[0].start, rs[0].end, false).0, rs[1..])
  }

  /** Cache coherence over every run: whatever was in the file, or once delivered to it, is there at the end. */
  lemma {:induction false} RunKeepsCoherent(h: seq<Bar>, file: Option<seq<Bar>>, rs: seq<Request>)
    requires StrictlyBy(h, Ts) && CoherentFile(h, file)
    ensures CoherentFile(h, Requests(h, file, rs))
    ensures NothingLost(file, Requests(h, file, rs))
    decreases rs
  {
    if rs != [] {
      var (after, r) := Download(h, file, rs[0].start, rs[0].end, false);
      DownloadKeepsCoherent(h, file, rs[0].start, rs[0].end, after, r);
      RunKeepsCoherent(h, after, rs[1..]);
    }
  }

  /**
   Starting with no file: after any requests, one that succeeds, and any requests after that, the file is
   exactly the exchange's bars between its ends and holds every exchange bar of the successful range.
   */
  lemma RangesStayCovered(h: seq<Bar>, before: seq<Request>, r: Request, after: seq<Request>)
    requires StrictlyBy(h, Ts)
    requires Download(h, Requests(h, None, before), r.start, r.end, false).1.Ok?
    ensures var held := Requests(h, Download(h, Requests(h, None, before), r.start, r.end, false).0, after);
            CoherentFile(h, held) && Covers(h, held, r.start, r.end)
  {
    RunKeepsCoherent(h, None, before);
    var file := Requests(h, None, before);
    var (next, ok) := Download(h, file, r.start, r.end, false);
    DownloadKeepsCoherent(h, file, r.start, r.end, next, ok);
    RunKeepsCoherent(h, next, after);
  }

  // ---------------------------------------------------------------- forced fetches

  /**
   A forced fetch merges its range in wherever it lies. The file stays coherent exactly when no exchange
   bar lies strictly between the range and what the file covered.
   */
  lemma ForcedKeepsCoherentIff(h: seq<Bar>, f: seq<Bar>, start: int, end: int)
    requires StrictlyBy(h, Ts) && f != [] && Coherent(h, f) && Fetched(h, start, end).Ok?
    ensures Download(h, Some(f), start, end, true) == (Some(Merge(f, Window(h, start, end))), Ok(true))
    ensures Coherent(h, Merge(f, Window(h, start, end))) <==> Adjoins(h, f[0].ts, f[|f| - 1].ts, start, end)
  {
    var first, last, w := f[0].ts, f[|f| - 1].ts, Window(h, start, end);
    if Adjoins(h, first, last, start, end) {
      MergeWindows(h, first, last, start, end);
      WindowIsTight(h, MinInt(first, start), MaxInt(last, end));
    } else {
      var x :| x in h && ((last < x.ts < start) || (end < x.ts < first));
      SkipsBar(h, f, start, end, x);
    }
  }

  /** A coherent file has every exchange bar between its ends. */
  lemma CoherentHas(h: seq<Bar>, f: seq<Bar>, x: Bar)
    requires StrictlyBy(h, Ts) && f != [] && Coherent(h, f) && x in h && f[0].ts <= x.ts <= f[|f| - 1].ts
    ensures x in f
  {
    WindowMembers(h, f[0].ts, f[|f| - 1].ts);
  }

  lemma SkipsBar(h: seq<Bar>, f: seq<Bar>, start: int, end: int, x: Bar)
    requires StrictlyBy(h, Ts) && f != [] && Coherent(h, f) && start <= end && Window(h, start, end) != []
    requires x in h && ((f[|f| - 1].ts < x.ts < start) || (end < x.ts < f[0].ts))
    ensures !Coherent(h, Merge(f, Window(h, start, end)))
  {
    var w := Window(h, start, end);
    WindowMembers(h, start, end);
    WindowMembers(h, f[0].ts, f[|f| - 1].ts);
    assert f[0] in f && f[|f| - 1] in f && w[0] in w;
    MergeHasHole(h, f, w, x);
  }

  lemma MergeHasHole(h: seq<Bar>, f: seq<Bar>, w: seq<Bar>, x: Bar)
    requires StrictlyBy(h, Ts) && StrictlyBy(f, Ts) && StrictlyBy(w, Ts) && f != [] && w != []
    requires x in h && x !in f && x !in w
    requires (f[|f| - 1].ts < x.ts < w[0].ts) || (w[0].ts < x.ts < f[0].ts)
    ensures !Coherent(h, Merge(f, w))
  {
    InsideMerge(f, w, x.ts);
    MergeMembers(f, w);
    if Coherent(h, Merge(f, w)) {
      CoherentHas(h, Merge(f, w), x);
    }
  }

  lemma InsideMerge(f: seq<Bar>, w: seq<Bar>, time: int)
    requires StrictlyBy(f, Ts) && StrictlyBy(w, Ts) && f != [] && w != []
    requires (f[|f| - 1].ts < time < w[0].ts) || (w[0].ts < time < f[0].ts)
    ensures var merged := Merge(f, w); merged != [] && merged[0].ts <= time <= merged[|merged| - 1].ts
  {
    EndsEnclose(f, w, f[0]);
    EndsEnclose(f, w, f[|f| - 1]);
    EndsEnclose(f, w, w[0]);
  }

  lemma EndsEnclose(f: seq<Bar>, w: seq<Bar>, b: Bar)
    requires StrictlyBy(f, Ts) && StrictlyBy(w, Ts) && (b in f || b in w)
    ensures var merged := Merge(f, w); merged != [] && merged[0].ts <= b.ts <= merged[|merged| - 1].ts
  {
    var merged := Merge(f, w);
    MergeMembers(f, w);
    TimeStays(f, w, b);
    var c :| c in merged && c.ts == b.ts;
    FirstIsSmallest(merged, c);
    LastIsLargest(merged, c, Ts);
  }

  /** No timestamp is lost in a merge. */
  lemma TimeStays(f: seq<Bar>, w: seq<Bar>, b: Bar)
    requires StrictlyBy(f, Ts) && StrictlyBy(w, Ts) && (b in f || b in w)
    ensures HasTime(Merge(f, w), b.ts)
  {
    MergeMembers(f, w);
    if b !in Merge(f, w) {
      var r :| r in w && r.ts == b.ts;
      assert r in Merge(f, w);
    }
  }

  /** A time strictly inside the coverage that no row has. */
  ghost predicate Hole(f: seq<Bar>, time: int) {
    StrictlyBy(f, Ts) && f != [] && f[0].ts < time < f[|f| - 1].ts && !HasTime(f, time)
  }

  /**
   A hole is never filled: a time missing strictly inside the file's coverage is missing after any run of
   non-forced requests, since only the two ends are ever looked at.
   */
  lemma {:induction false} HoleIsNeverFilled(h: seq<Bar>, f: seq<Bar>, rs: seq<Request>, time: int)
    requires StrictlyBy(h, Ts) && Hole(f, time)
    ensures Requests(h, Some(f), rs).Some? && Hole(Requests(h, Some(f), rs).value, time)
    decreases rs
  {
    if rs != [] {
      var after := Download(h, Some(f), rs[0].start, rs[0].end, false).0;
      StillMissing(h, f, rs[0].start, rs[0].end, time);
      HoleIsNeverFilled(h, after.value, rs[1..], time);
    }
  }

  lemma GapMisses(h: seq<Bar>, lo: int, hi: int, time: int)
    requires StrictlyBy(h, Ts) && (time < lo || hi < time)
    ensures Gap(h, lo, hi).Ok? ==> Misses(Gap(h, lo, hi).value, time)
  {
    if lo <= hi {
      WindowMembers(h, lo, hi);
    }
  }

  ghost predicate Misses(gap: Option<seq<Bar>>, time: int) {
    gap.Some? ==> StrictlyBy(gap.value, Ts) && !HasTime(gap.value, time)
  }

  lemma StillMissing(h: seq<Bar>, f: seq<Bar>, start: int, end: int, time: int)
    requires StrictlyBy(h, Ts) && Hole(f, time)
    ensures Download(h, Some(f), start, end, false).0.Some?
    ensures Hole(Download(h, Some(f), start, end, false).0.value, time)
  {
    var first, last := f[0].ts, f[|f| - 1].ts;
    var left := if start < first then Gap(h, start, first) else Ok(None);
    var right := if end > last then Gap(h, last, end) else Ok(None);
    GapMisses(h, start, first, time);
    GapMisses(h, last, end, time);
    if left.Ok? && right.Ok? {
      MergeKeepsHole(f, left.value, time);
      MergeKeepsHole(MergeGap(f, left.value), right.value, time);
    }
  }

  lemma MergeKeepsHole(f: seq<Bar>, gap: Option<seq<Bar>>, time: int)
    requires Hole(f, time)
    requires Misses(gap, time)
    ensures Hole(MergeGap(f, gap), time)
  {
    if gap.Some? && gap.value != [] {
      MergeMembers(f, gap.value);
      EndsEnclose(f, gap.value, f[0]);
      EndsEnclose(f, gap.value, f[|f| - 1]);
    }
  }
}
