/**
 The same cache against an exchange that is still trading: its last bar is unfinished and keeps
 changing, and newer bars appear after it. The file can then be wrong in one row only, its last, and
 the next request that reaches past that row repairs it.
 */
module LiveCache {
  import opened Wrappers
  import opened StableSort
  import opened Ohlcv
  import opened MarketCache

  /** Time passes: only the last bar may change, keeping its timestamp, and bars are added after it. */
  ghost predicate Grows(h: seq<Bar>, later: seq<Bar>) {
    && StrictlyBy(h, Ts)
    && StrictlyBy(later, Ts)
    && (h == [] || (|h| <= |later| && SameButTip(h, later[..|h|])))
  }

  /** Equal but for the values in the last row. */
  ghost predicate SameButTip(f: seq<Bar>, w: seq<Bar>) {
    var n := |f| - 1;
    f != [] && |w| == |f| && f[..n] == w[..n] && f[n].ts == w[n].ts
  }

  /** What the exchange has now between the file's ends. */
  function Current(h: seq<Bar>, f: seq<Bar>): seq<Bar>
    requires StrictlyBy(h, Ts) && f != []
  {
    if f[0].ts <= f[|f| - 1].ts then Window(h, f[0].ts, f[|f| - 1].ts) else []
  }

  ghost predicate CoherentButTip(h: seq<Bar>, file: Option<seq<Bar>>)
    requires StrictlyBy(h, Ts)
  {
    file.Some? && file.value != [] ==> SameButTip(file.value, Current(h, file.value))
  }

  lemma CoherentIsButTip(h: seq<Bar>, file: Option<seq<Bar>>)
    requires StrictlyBy(h, Ts) && CoherentFile(h, file)
    ensures CoherentButTip(h, file)
  {
  }

  // ---------------------------------------------------------------- trading goes on

  /** Growth does not move the index of any time up to just past the old last bar. */
  lemma GrowthKeepsIndex(h: seq<Bar>, later: seq<Bar>, time: int)
    requires Grows(h, later) && h != [] && time <= h[|h| - 1].ts + 1
    ensures Before(later, time) == Before(h, time) <= |h|
  {
    var i := Before(h, time);
    BeforeIsIndex(h, time);
    SameTimes(h, later);
    forall k | i <= k < |later| ensures later[k].ts >= time {
      assert k < |h| ==> later[k].ts == h[k].ts;
      assert k >= |h| ==> Ts(later[|h| - 1]) < Ts(later[k]);
    }
    BeforeUnique(later, time, i);
  }

  lemma SameButTipThen(a: seq<Bar>, b: seq<Bar>, c: seq<Bar>)
    requires SameButTip(a, b) && SameButTip(b, c)
    ensures SameButTip(a, c)
  {
  }

  /** The file's last time is one the exchange has. */
  lemma TipIsKnown(h: seq<Bar>, f: seq<Bar>)
    requires StrictlyBy(h, Ts) && f != [] && SameButTip(f, Current(h, f))
    ensures h != [] && f[|f| - 1].ts <= h[|h| - 1].ts
  {
    var tip := Current(h, f)[|f| - 1];
    WindowMembers(h, f[0].ts, f[|f| - 1].ts);
    assert tip in Current(h, f);
    LastIsLargest(h, tip, Ts);
  }

  /** As long as the exchange only grows, what was right but for the tip stays right but for the tip. */
  lemma GrowthKeepsTip(h: seq<Bar>, later: seq<Bar>, f: seq<Bar>)
    requires Grows(h, later) && f != [] && SameButTip(f, Current(h, f))
    ensures SameButTip(f, Current(later, f))
  {
    var first, last := f[0].ts, f[|f| - 1].ts;
    TipIsKnown(h, f);
    GrowthKeepsIndex(h, later, first);
    GrowthKeepsIndex(h, later, last + 1);
    BeforeMonotone(h, first, last + 1);
    SlicesAgree(h, later, Before(h, first), Before(h, last + 1));
    SameButTipThen(f, Current(h, f), Current(later, f));
  }

  lemma SlicesAgree(h: seq<Bar>, later: seq<Bar>, i: nat, j: nat)
    requires Grows(h, later) && i < j <= |h|
    ensures j <= |later| && SameButTip(h[i..j], later[i..j])
  {
    var n, m := |h|, j - i - 1;
    SameTimes(h, later);
    forall k | 0 <= k < m ensures h[i..j][k] == later[i..j][k] {
      assert h[i + k] == h[..n - 1][i + k] == later[..n][..n - 1][i + k];
    }
    assert h[i..j][..m] == later[i..j][..m];
  }

  lemma SameTimes(h: seq<Bar>, later: seq<Bar>)
    requires Grows(h, later)
    ensures |h| <= |later| && forall k | 0 <= k < |h| :: later[k].ts == h[k].ts
  {
    var n := |h|;
    if n > 0 {
      assert n <= |later| && h[..n - 1] == later[..n][..n - 1];
      forall k | 0 <= k < n ensures later[k].ts == h[k].ts {
        assert k < n - 1 ==> h[..n - 1][k] == later[..n][..n - 1][k];
      }
    }
  }

  // ---------------------------------------------------------------- merging over a stale last row

  lemma ButTipIsStrict(f: seq<Bar>, w: seq<Bar>)
    requires SameButTip(f, w) && StrictlyBy(w, Ts)
    ensures StrictlyBy(f, Ts)
  {
    var n := |f| - 1;
    forall i, j | 0 <= i < j < |f| ensures Ts(f[i]) < Ts(f[j]) {
      assert f[i] == f[..n][i] == w[..n][i];
      assert j < n ==> f[j] == f[..n][j] == w[..n][j];
      assert Ts(w[i]) < Ts(w[j]);
    }
  }

  lemma InitMembers(f: seq<Bar>, b: Bar)
    requires StrictlyBy(f, Ts) && f != []
    ensures b in f <==> b in f[..|f| - 1] || b == f[|f| - 1]
    ensures b in f[..|f| - 1] ==> b.ts < f[|f| - 1].ts
  {
    var n := |f| - 1;
    assert f == f[..n] + [f[n]];
    if b in f[..n] {
      var i :| 0 <= i < n && f[i] == b;
      assert Ts(f[i]) < Ts(f[n]);
    }
  }

  /** New rows that have the tip's time replace it, so a stale tip does not show in the merge. */
  lemma TipIsReplaced(f: seq<Bar>, w: seq<Bar>, newer: seq<Bar>)
    requires SameButTip(f, w) && StrictlyBy(w, Ts) && StrictlyBy(newer, Ts)
    requires HasTime(newer, f[|f| - 1].ts)
    ensures Merge(f, newer) == Merge(w, newer)
  {
    ButTipIsStrict(f, w);
    MergeMembers(f, newer);
    MergeMembers(w, newer);
    forall b ensures b in Merge(f, newer) <==> b in Merge(w, newer) {
      InitMembers(f, b);
      InitMembers(w, b);
    }
    SameMembers(Merge(f, newer), Merge(w, newer));
  }

  /** New rows all earlier than the tip leave it last, and as it was. */
  lemma TipSurvives(f: seq<Bar>, w: seq<Bar>, newer: seq<Bar>)
    requires SameButTip(f, w) && StrictlyBy(w, Ts) && StrictlyBy(newer, Ts)
    requires forall b | b in newer :: b.ts < f[|f| - 1].ts
    ensures SameButTip(Merge(f, newer), Merge(w, newer))
  {
    ButTipIsStrict(f, w);
    TipIsLast(f, newer);
    TipIsLast(w, newer);
    var a, b := Merge(f, newer), Merge(w, newer);
    InitOfMerge(f, newer);
    InitOfMerge(w, newer);
    SameMembers(a[..|a| - 1], b[..|b| - 1]);
  }

  lemma TipIsLast(f: seq<Bar>, newer: seq<Bar>)
    requires f != [] && StrictlyBy(f, Ts) && StrictlyBy(newer, Ts)
    requires forall b | b in newer :: b.ts < f[|f| - 1].ts
    ensures var merged := Merge(f, newer);
            StrictlyBy(merged, Ts) && merged != [] && merged[|merged| - 1] == f[|f| - 1]
  {
    var merged, tip := Merge(f, newer), f[|f| - 1];
    MergeMembers(f, newer);
    assert tip in f;
    assert tip in merged;
    var top := merged[|merged| - 1];
    assert top in merged;
    InitMembers(f, top);
    InitMembers(merged, tip);
  }

  lemma InitOfMerge(f: seq<Bar>, newer: seq<Bar>)
    requires f != [] && StrictlyBy(f, Ts) && StrictlyBy(newer, Ts)
    requires forall b | b in newer :: b.ts < f[|f| - 1].ts
    ensures var merged := Merge(f, newer);
            && merged != []
            && StrictlyBy(merged[..|merged| - 1], Ts)
            && forall b :: b in merged[..|merged| - 1] <==> b in newer || (b in f[..|f| - 1] && !HasTime(newer, b.ts))
  {
    var merged := Merge(f, newer);
    TipIsLast(f, newer);
    MergeMembers(f, newer);
    forall b ensures b in merged[..|merged| - 1] <==> b in newer || (b in f[..|f| - 1] && !HasTime(newer, b.ts)) {
      InitMembers(f, b);
      InitMembers(merged, b);
    }
  }

  // ---------------------------------------------------------------- one request

  lemma SameEnds(f: seq<Bar>, w: seq<Bar>)
    requires SameButTip(f, w)
    ensures f[0].ts == w[0].ts && f[|f| - 1].ts == w[|w| - 1].ts
  {
    assert |f| > 1 ==> f[0] == f[..|f| - 1][0] == w[..|f| - 1][0];
  }

  lemma CurrentIsCoherent(h: seq<Bar>, f: seq<Bar>)
    requires StrictlyBy(h, Ts) && f != [] && SameButTip(f, Current(h, f))
    ensures var w := Current(h, f);
            && Coherent(h, w)
            && StrictlyBy(w, Ts)
            && f[0].ts == w[0].ts <= f[|f| - 1].ts == w[|w| - 1].ts
  {
    WindowIsTight(h, f[0].ts, f[|f| - 1].ts);
    WindowMembers(h, f[0].ts, f[|f| - 1].ts);
    SameEnds(f, Current(h, f));
  }

  /** The left gap is fetched, and merging it leaves at most the tip stale: only if it was, and not in one row. */
  lemma FillLeft(h: seq<Bar>, f: seq<Bar>, start: int, filled: seq<Bar>)
    requires StrictlyBy(h, Ts) && f != [] && SameButTip(f, Current(h, f)) && start < f[0].ts
    requires filled == Merge(f, Window(h, start, f[0].ts))
    ensures Gap(h, start, f[0].ts) == Ok(Some(Window(h, start, f[0].ts))) && Window(h, start, f[0].ts) != []
    ensures SameButTip(filled, Window(h, start, f[|f| - 1].ts))
    ensures filled[|filled| - 1].ts == f[|f| - 1].ts
    ensures f[0].ts == f[|f| - 1].ts ==> filled == Window(h, start, f[|f| - 1].ts)
    ensures f[0].ts < f[|f| - 1].ts ==> filled[|filled| - 1] == f[|f| - 1]
  {
    var w, newer := Current(h, f), Window(h, start, f[0].ts);
    CurrentIsCoherent(h, f);
    LeftGap(h, w, start);
    WindowMembers(h, start, f[0].ts);
    if f[0].ts == f[|f| - 1].ts {
      EndsAreBars(h, w);
      FillsOverTip(f, w, newer);
    } else {
      FillsUnderTip(f, w, newer);
    }
  }

  /** New rows up to the file's only row, whose time they have, replace it. */
  lemma FillsOverTip(f: seq<Bar>, w: seq<Bar>, newer: seq<Bar>)
    requires f != [] && SameButTip(f, w) && StrictlyBy(w, Ts) && StrictlyBy(newer, Ts)
    requires w[0] in newer && w[0].ts == f[0].ts == f[|f| - 1].ts
    requires forall b | b in newer :: b.ts <= f[|f| - 1].ts
    ensures Merge(f, newer) == Merge(w, newer) && SameButTip(Merge(f, newer), Merge(w, newer))
    ensures Merge(f, newer)[|Merge(f, newer)| - 1].ts == f[|f| - 1].ts
  {
    TipIsReplaced(f, w, newer);
    EndsEnclose(w, newer, w[0]);
    var merged := Merge(w, newer);
    MergeMembers(w, newer);
    var top := merged[|merged| - 1];
    assert top in merged;
    InitMembers(w, top);
  }

  /** New rows all earlier than the tip leave it last. */
  lemma FillsUnderTip(f: seq<Bar>, w: seq<Bar>, newer: seq<Bar>)
    requires f != [] && SameButTip(f, w) && StrictlyBy(w, Ts) && StrictlyBy(newer, Ts)
    requires forall b | b in newer :: b.ts < f[|f| - 1].ts
    ensures SameButTip(Merge(f, newer), Merge(w, newer))
    ensures Merge(f, newer)[|Merge(f, newer)| - 1] == f[|f| - 1]
  {
    TipSurvives(f, w, newer);
    ButTipIsStrict(f, w);
    TipIsLast(f, newer);
  }

  lemma TopOfWindow(h: seq<Bar>, lo: int, hi: int)
    requires StrictlyBy(h, Ts) && lo <= hi && Window(h, lo, hi) != []
    ensures var w := Window(h, lo, hi); lo <= w[0].ts && w[|w| - 1].ts <= hi
  {
    var w := Window(h, lo, hi);
    WindowMembers(h, lo, hi);
    assert w[0] in w && w[|w| - 1] in w;
  }

  /** The right gap starts at the tip, so it replaces it: nothing stale is left. */
  lemma FillRight(h: seq<Bar>, f: seq<Bar>, low: int, end: int)
    requires StrictlyBy(h, Ts) && f != [] && low <= f[|f| - 1].ts < end
    requires SameButTip(f, Window(h, low, f[|f| - 1].ts))
    ensures var last := f[|f| - 1].ts;
            && Gap(h, last, end) == Ok(Some(Window(h, last, end)))
            && Window(h, last, end) != []
            && Merge(f, Window(h, last, end)) == Window(h, low, end)
  {
    var last := f[|f| - 1].ts;
    var w := Window(h, low, last);
    WindowMembers(h, low, last);
    var tip := w[|w| - 1];
    assert tip in w;
    RightGap(h, low, tip, end);
    WindowMembers(h, last, end);
    assert tip in Window(h, last, end);
    TipIsReplaced(f, w, Window(h, last, end));
  }

  /** A request reaching past the file's last row leaves exactly the exchange's bars, tip included. */
  lemma ReachingPastHeals(h: seq<Bar>, f: seq<Bar>, start: int, end: int)
    requires StrictlyBy(h, Ts) && f != [] && SameButTip(f, Current(h, f)) && end > f[|f| - 1].ts
    ensures Download(h, Some(f), start, end, false) == (Some(Window(h, MinInt(start, f[0].ts), end)), Ok(true))
  {
    CurrentIsCoherent(h, f);
    if start < f[0].ts {
      var filled := Merge(f, Window(h, start, f[0].ts));
      FillLeft(h, f, start, filled);
      FillRight(h, filled, start, end);
      MergesBoth(h, f, start, end, Window(h, start, f[0].ts), Window(h, f[|f| - 1].ts, end));
    } else {
      FillRight(h, f, f[0].ts, end);
      MergesRight(h, f, start, end, Window(h, f[|f| - 1].ts, end));
    }
  }

  lemma ReachingBefore(h: seq<Bar>, f: seq<Bar>, start: int, end: int)
    requires StrictlyBy(h, Ts) && f != [] && SameButTip(f, Current(h, f))
    requires start < f[0].ts && end <= f[|f| - 1].ts
    ensures Download(h, Some(f), start, end, false) == (Some(Merge(f, Window(h, start, f[0].ts))), Ok(true))
  {
    FillLeft(h, f, start, Merge(f, Window(h, start, f[0].ts)));
    MergesLeft(h, f, start, end, Window(h, start, f[0].ts));
  }

  /** The rows have a time for every exchange bar of [start, end]. */
  ghost predicate CoversTimes(h: seq<Bar>, file: Option<seq<Bar>>, start: int, end: int) {
    file.Some? && forall b | b in h && start <= b.ts <= end :: HasTime(file.value, b.ts)
  }

  lemma TimesAreCovered(h: seq<Bar>, f: seq<Bar>, lo: int, hi: int)
    requires StrictlyBy(h, Ts) && lo <= hi && SameButTip(f, Window(h, lo, hi))
    ensures CoversTimes(h, Some(f), lo, hi)
  {
    var w := Window(h, lo, hi);
    WindowMembers(h, lo, hi);
    forall b | b in h && lo <= b.ts <= hi ensures HasTime(f, b.ts) {
      assert b in w;
      InitMembers(w, b);
      InitMembersOf(f, b);
      assert f[|f| - 1] in f;
    }
  }

  lemma InitMembersOf(f: seq<Bar>, b: Bar)
    requires f != []
    ensures b in f[..|f| - 1] ==> b in f
  {
  }

  /** A file that is the window [lo, hi] but for the tip is exact when the tip is. */
  lemma WindowButTip(h: seq<Bar>, f: seq<Bar>, lo: int, hi: int)
    requires StrictlyBy(h, Ts) && lo <= hi && SameButTip(f, Window(h, lo, hi))
    ensures CoherentButTip(h, Some(f)) && CoversTimes(h, Some(f), lo, hi)
    ensures CoherentFile(h, Some(f)) <==> f[|f| - 1] == Window(h, lo, hi)[|f| - 1]
  {
    var w := Window(h, lo, hi);
    WindowIsTight(h, lo, hi);
    SameEnds(f, w);
    TimesAreCovered(h, f, lo, hi);
    assert f == f[..|f| - 1] + [f[|f| - 1]] && w == w[..|w| - 1] + [w[|w| - 1]];
  }

  lemma WindowHolds(h: seq<Bar>, b: Bar, lo: int, hi: int)
    requires StrictlyBy(h, Ts) && b in h && lo <= b.ts <= hi
    ensures Window(h, lo, hi) != []
  {
    WindowMembers(h, lo, hi);
    assert b in Window(h, lo, hi);
  }

  lemma LiveDownloadPast(h: seq<Bar>, f: seq<Bar>, start: int, end: int, after: seq<Bar>)
    requires StrictlyBy(h, Ts) && f != [] && CoherentButTip(h, Some(f)) && end > f[|f| - 1].ts
    requires after == Window(h, MinInt(start, f[0].ts), end)
    ensures CoherentButTip(h, Some(after)) && CoversTimes(h, Some(after), start, end) && CoherentFile(h, Some(after))
  {
    CurrentIsCoherent(h, f);
    EndsAreBars(h, Current(h, f));
    WindowHolds(h, Current(h, f)[0], MinInt(start, f[0].ts), end);
    WindowButTip(h, after, MinInt(start, f[0].ts), end);
  }

  lemma LiveDownloadBefore(h: seq<Bar>, f: seq<Bar>, start: int, end: int, after: seq<Bar>)
    requires StrictlyBy(h, Ts) && f != [] && CoherentButTip(h, Some(f))
    requires start < f[0].ts && end <= f[|f| - 1].ts && after == Merge(f, Window(h, start, f[0].ts))
    ensures CoherentButTip(h, Some(after)) && CoversTimes(h, Some(after), start, end)
    ensures CoherentFile(h, Some(after)) <==> CoherentFile(h, Some(f)) || f[0].ts == f[|f| - 1].ts
  {
    var first, last := f[0].ts, f[|f| - 1].ts;
    CurrentIsCoherent(h, f);
    WindowButTip(h, f, first, last);
    FillLeft(h, f, start, after);
    WindowButTip(h, after, start, last);
    SameTop(h, start, first, last);
  }

  /**
   One request against the exchange as it is now, by a file whose tip may have gone stale. It cannot fail,
   at most the tip is wrong afterwards, and every bar of the range has its row. The file is exact
   afterwards if and only if it was before, or the request reaches past the last row, or the one row
   it held is fetched again as the end of a left gap.
   */
  lemma LiveDownload(h: seq<Bar>, f: seq<Bar>, start: int, end: int,
                     after: Option<seq<Bar>>, r: Result<bool, FetchError>)
    requires StrictlyBy(h, Ts) && f != [] && CoherentButTip(h, Some(f))
    requires (after, r) == Download(h, Some(f), start, end, false)
    ensures r.Ok? && CoherentButTip(h, after) && CoversTimes(h, after, start, end)
    ensures CoherentFile(h, after)
            <==> CoherentFile(h, Some(f)) || end > f[|f| - 1].ts || (start < f[0].ts && f[0].ts == f[|f| - 1].ts)
  {
    if end > f[|f| - 1].ts {
      ReachingPastHeals(h, f, start, end);
      LiveDownloadPast(h, f, start, end, after.value);
    } else if start < f[0].ts {
      ReachingBefore(h, f, start, end);
      LiveDownloadBefore(h, f, start, end, after.value);
    } else {
      WindowButTip(h, f, f[0].ts, f[|f| - 1].ts);
    }
  }

  /** Windows with the same upper end have the same last bar. */
  lemma SameTop(h: seq<Bar>, lo: int, mid: int, hi: int)
    requires StrictlyBy(h, Ts) && lo <= mid <= hi && Window(h, mid, hi) != []
    ensures var v, w := Window(h, lo, hi), Window(h, mid, hi); v != [] && v[|v| - 1] == w[|w| - 1]
  {
    var v, w := Window(h, lo, hi), Window(h, mid, hi);
    BeforeMonotone(h, lo, mid);
    BeforeIsIndex(h, lo);
    BeforeIsIndex(h, hi + 1);
    BeforeMonotone(h, mid, hi + 1);
  }

  // ---------------------------------------------------------------- runs

  datatype Move = Trade(later: seq<Bar>) | Get(start: int, end: int)

  datatype World = World(history: seq<Bar>, file: Option<seq<Bar>>)

  ghost predicate Possible(w: World, m: Move) {
    StrictlyBy(w.history, Ts) && (m.Trade? ==> Grows(w.history, m.later))
  }

  ghost function Step(w: World, m: Move): World
    requires Possible(w, m)
  {
    match m
    case Trade(later) => w.(history := later)
    case Get(start, end) => w.(file := Download(w.history, w.file, start, end, false).0)
  }

  ghost predicate PossibleRun(w: World, ms: seq<Move>)
    decreases ms
  {
    StrictlyBy(w.history, Ts) && (ms == [] || (Possible(w, ms[0]) && PossibleRun(Step(w, ms[0]), ms[1..])))
  }

  ghost function Run(w: World, ms: seq<Move>): World
    requires PossibleRun(w, ms)
    decreases ms
  {
    if ms == [] then w else Run(Step(w, ms[0]), ms[1..])
  }

  lemma StepKeepsTip(w: World, m: Move)
    requires Possible(w, m) && CoherentButTip(w.history, w.file)
    ensures StrictlyBy(Step(w, m).history, Ts) && CoherentButTip(Step(w, m).history, Step(w, m).file)
  {
    match m
    case Trade(later) =>
      if Coverage(w.file).Some? {
        GrowthKeepsTip(w.history, later, w.file.value);
      }
    case Get(start, end) =>
      var (after, r) := Download(w.history, w.file, start, end, false);
      if Coverage(w.file).Some? {
        LiveDownload(w.history, w.file.value, start, end, after, r);
      } else {
        DownloadKeepsCoherent(w.history, w.file, start, end, after, r);
        CoherentIsButTip(w.history, after);
      }
  }

  /** However trading and requests interleave, the file is the exchange's window but for its last row. */
  lemma {:induction false} LiveRunKeepsTip(w: World, ms: seq<Move>)
    requires PossibleRun(w, ms) && CoherentButTip(w.history, w.file)
    ensures var done := Run(w, ms); StrictlyBy(done.history, Ts) && CoherentButTip(done.history, done.file)
    decreases ms
  {
    if ms != [] {
      StepKeepsTip(w, ms[0]);
      LiveRunKeepsTip(Step(w, ms[0]), ms[1..]);
    }
  }
}
