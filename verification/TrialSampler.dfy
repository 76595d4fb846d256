/**
 Sampling trials from a grid of parameter values (backend/src/validation/optimization_space.py,
 generate_trials): the product of the axes, the validity filter, an even stride over what is left,
 and random draws for what duplicates cost. The generator's draws are an arbitrary function of the
 draw number.
 */
module TrialSampler {
  import opened Wrappers

  // ---------------------------------------------------------------- trials

  datatype Value = Number(n: real) | Text(s: string)

  type Combo = map<string, Value>

  datatype Axis = Axis(key: string, values: seq<Value>)

  const PROVIDER_ENABLED_KEYS: seq<string> :=
    ["ema_enabled", "rsi_enabled", "macd_enabled", "adx_enabled", "bb_enabled", "st_enabled", "vol_enabled", "ms_enabled"]

  const TREND_FAMILY_KEYS: seq<string> := ["ema_enabled", "macd_enabled", "adx_enabled", "st_enabled", "ms_enabled"]

  const REVERSION_FAMILY_KEYS: seq<string> := ["bb_enabled", "rsi_enabled"]

  /** int() of a flag is not zero; a missing flag is off. */
  predicate On(params: Combo, key: string) {
    key in params && params[key].Number? && (params[key].n >= 1.0 || params[key].n <= -1.0)
  }

  predicate AnyOn(params: Combo, keys: seq<string>) { exists key | key in keys :: On(params, key) }

  predicate IsValidProviderTrial(params: Combo, family: bool) {
    && AnyOn(params, PROVIDER_ENABLED_KEYS)
    && !(family && AnyOn(params, TREND_FAMILY_KEYS) && AnyOn(params, REVERSION_FAMILY_KEYS))
  }

  /** How many provider switches have more than one value. */
  function Togglable(axes: seq<Axis>): nat {
    if axes == [] then 0
    else Togglable(axes[1..]) + if axes[0].key in PROVIDER_ENABLED_KEYS && |axes[0].values| > 1 then 1 else 0
  }

  function WithValue(rests: seq<Combo>, key: string, v: Value): seq<Combo> {
    seq(|rests|, i requires 0 <= i < |rests| => rests[i][key := v])
  }

  function WithAxis(rests: seq<Combo>, key: string, values: seq<Value>): seq<Combo> {
    if values == [] then [] else WithValue(rests, key, values[0]) + WithAxis(rests, key, values[1..])
  }

  /** itertools.product over the axes, the first one slowest. */
  function Product(axes: seq<Axis>): seq<Combo> {
    if axes == [] then [map[]] else WithAxis(Product(axes[1..]), axes[0].key, axes[0].values)
  }

  function ValidOf(combos: seq<Combo>, family: bool): seq<Combo> {
    if combos == [] then []
    else (if IsValidProviderTrial(combos[0], family) then [combos[0]] else []) + ValidOf(combos[1..], family)
  }

  function Candidates(axes: seq<Axis>, require: Option<bool>): seq<Combo> {
    ValidOf(Product(axes), if require.Some? then require.value else Togglable(axes) >= 2)
  }

  // ---------------------------------------------------------------- the two loops

  ghost predicate Distinct<T>(s: seq<T>) { forall i, j :: 0 <= i < j < |s| ==> s[i] != s[j] }

  ghost function Members<T>(s: seq<T>): set<T> { set c | c in s }

  function Stride(n: nat, cap: int): (stride: nat)
    requires cap != 0
    ensures stride >= 1
  {
    if cap < 0 || n / cap < 1 then 1 else n / cap
  }

  /** The stride loop from an index on: each combination not picked yet is, until the cap is reached. */
  function Striding<T(==)>(combos: seq<T>, stride: nat, cap: int, index: nat, picked: seq<T>): seq<T>
    requires stride >= 1
    decreases |combos| - index
  {
    if index >= |combos| then picked
    else
      var next := if combos[index] in picked then picked else picked + [combos[index]];
      if |next| >= cap then next else Striding(combos, stride, cap, index + stride, next)
  }

  /** list.remove: the first occurrence. */
  function Remove<T(==)>(s: seq<T>, x: T): (r: seq<T>)
    requires x in s
    ensures |r| == |s| - 1
  {
    if s[0] == x then s[1..] else [s[0]] + Remove(s[1..], x)
  }

  function Without<T(==)>(combos: seq<T>, picked: seq<T>): seq<T> {
    if combos == [] then []
    else (if combos[0] in picked then [] else [combos[0]]) + Without(combos[1..], picked)
  }

  /** Random draws from what remains until the cap is reached or nothing remains. */
  function Filled<T(==)>(picked: seq<T>, remaining: seq<T>, cap: int, draw: nat -> nat, step: nat): seq<T>
    decreases |remaining|
  {
    if |picked| >= cap || remaining == [] then picked
    else
      var choice := remaining[draw(step) % |remaining|];
      Filled(if choice in picked then picked else picked + [choice], Remove(remaining, choice), cap, draw, step + 1)
  }

  datatype TrialError = NoValidCombination | ZeroDivision

  function Trials(axes: seq<Axis>, cap: int, require: Option<bool>, draw: nat -> nat): Result<seq<Combo>, TrialError> {
    var combos := Candidates(axes, require);
    if combos == [] then Err(NoValidCombination)
    else if |combos| <= cap then Ok(combos)
    else if cap == 0 then Err(ZeroDivision)
    else
      var picked := Striding(combos, Stride(|combos|, cap), cap, 0, []);
      Ok(Filled(picked, Without(combos, picked), cap, draw, 0))
  }

  method GenerateTrials(axes: seq<Axis>, cap: int, require: Option<bool>, draw: nat -> nat)
    returns (r: Result<seq<Combo>, TrialError>)
    ensures r == Trials(axes, cap, require, draw)
  {
    var combos := Candidates(axes, require);
    if combos == [] {
      return Err(NoValidCombination);
    }
    if |combos| <= cap {
      return Ok(combos);
    }
    if cap == 0 {
      return Err(ZeroDivision);
    }
    var picked := StrideLoop(combos, Stride(|combos|, cap), cap);
    picked := FillUp(combos, picked, cap, draw);
    r := Ok(picked);
  }

  method StrideLoop<T(==)>(combos: seq<T>, stride: nat, cap: int) returns (picked: seq<T>)
    requires stride >= 1
    ensures picked == Striding(combos, stride, cap, 0, [])
  {
    picked := [];
    var seen := {};
    var index: nat := 0;
    while index < |combos|
      invariant Striding(combos, stride, cap, index, picked) == Striding(combos, stride, cap, 0, [])
      invariant seen == Members(picked)
    {
      var combo := combos[index];
      if combo !in seen {
        SnocMembers(picked, combo);
        seen := seen + {combo};
        picked := picked + [combo];
      }
      if |picked| >= cap {
        break;
      }
      index := index + stride;
    }
  }

  method FillUp<T(==)>(combos: seq<T>, strided: seq<T>, cap: int, draw: nat -> nat) returns (picked: seq<T>)
    ensures picked == Filled(strided, Without(combos, strided), cap, draw, 0)
  {
    picked := strided;
    var seen := set c | c in picked;
    var remaining := Without(combos, picked);
    var step: nat := 0;
    while |picked| < cap && remaining != []
      invariant seen == Members(picked)
      invariant Filled(picked, remaining, cap, draw, step) == Filled(strided, Without(combos, strided), cap, draw, 0)
      decreases |remaining|
    {
      var choice := remaining[draw(step) % |remaining|];
      step := step + 1;
      if choice in seen {
        remaining := Remove(remaining, choice);
        continue;
      }
      seen := seen + {choice};
      picked := picked + [choice];
      remaining := Remove(remaining, choice);
    }
  }

  // ---------------------------------------------------------------- distinct, valid, as many as there can be

  lemma {:induction false} DistinctSize<T>(s: seq<T>)
    requires Distinct(s)
    ensures |Members(s)| == |s|
  {
    if s != [] {
      var n := |s| - 1;
      DistinctSize(s[..n]);
      assert s == s[..n] + [s[n]];
      assert Members(s) == Members(s[..n]) + {s[n]};
    }
  }

  lemma SnocMembers<T>(s: seq<T>, x: T)
    ensures Members(s + [x]) == Members(s) + {x}
  {
  }

  lemma ConsMembers<T>(x: T, s: seq<T>)
    ensures Members([x] + s) == {x} + Members(s)
  {
  }

  lemma SnocDistinct<T>(s: seq<T>, x: T)
    requires Distinct(s) && x !in s
    ensures Distinct(s + [x])
  {
  }

  lemma {:induction false} StridingLaws<T>(combos: seq<T>, stride: nat, cap: int, index: nat, picked: seq<T>)
    requires stride >= 1 && Distinct(picked) && Members(picked) <= Members(combos)
    ensures var r := Striding(combos, stride, cap, index, picked);
            Distinct(r) && Members(r) <= Members(combos) && (|picked| < cap ==> |r| <= cap)
    decreases |combos| - index
  {
    if index < |combos| {
      var combo := combos[index];
      var next := if combo in picked then picked else picked + [combo];
      if combo !in picked {
        SnocMembers(picked, combo);
        SnocDistinct(picked, combo);
      }
      if |next| < cap {
        StridingLaws(combos, stride, cap, index + stride, next);
      }
    }
  }

  lemma {:induction false} RemoveMembers<T>(s: seq<T>, x: T)
    requires x in s
    ensures Members(Remove(s, x)) + {x} == Members(s)
  {
    assert s == [s[0]] + s[1..];
    ConsMembers(s[0], s[1..]);
    if s[0] != x {
      RemoveMembers(s[1..], x);
      ConsMembers(s[0], Remove(s[1..], x));
    }
  }

  lemma {:induction false} WithoutMembers<T>(combos: seq<T>, picked: seq<T>)
    ensures Members(Without(combos, picked)) == Members(combos) - Members(picked)
  {
    if combos != [] {
      assert combos == [combos[0]] + combos[1..];
      WithoutMembers(combos[1..], picked);
      ConsMembers(combos[0], combos[1..]);
      ConsMembers(combos[0], Without(combos[1..], picked));
      assert [] + Without(combos[1..], picked) == Without(combos[1..], picked);
    }
  }

  lemma {:induction false} FilledLaws<T>(all: set<T>, picked: seq<T>, remaining: seq<T>, cap: int,
                                      draw: nat -> nat, step: nat)
    requires Distinct(picked) && |picked| <= cap && Members(picked) + Members(remaining) == all
    ensures var r := Filled(picked, remaining, cap, draw, step);
            Distinct(r) && Members(r) <= all && |r| == if cap < |all| then cap else |all|
    decreases |remaining|
  {
    if |picked| >= cap || remaining == [] {
      DistinctSize(picked);
      Fewer(Members(picked), all);
    } else {
      var choice := remaining[draw(step) % |remaining|];
      RemoveMembers(remaining, choice);
      SnocMembers(picked, choice);
      FilledLaws(all, if choice in picked then picked else picked + [choice], Remove(remaining, choice), cap, draw,
                 step + 1);
    }
  }

  lemma Fewer<T>(a: set<T>, b: set<T>)
    requires a <= b
    ensures |a| <= |b|
  {
    assert b == a + (b - a);
  }

  lemma {:induction false} ValidMembers(combos: seq<Combo>, family: bool)
    ensures forall c :: c in ValidOf(combos, family) <==> c in combos && IsValidProviderTrial(c, family)
  {
    if combos != [] {
      assert combos == [combos[0]] + combos[1..];
      ValidMembers(combos[1..], family);
    }
  }

  /**
   With more valid combinations than the cap, whatever the draws: the trials are distinct valid
   combinations of the grid, and as many as the cap allows or there are distinct ones.
   */
  lemma TrialsAreDistinctAndEnough(axes: seq<Axis>, cap: int, require: Option<bool>, draw: nat -> nat)
    requires 1 <= cap < |Candidates(axes, require)|
    ensures var all, r := Members(Candidates(axes, require)), Trials(axes, cap, require, draw);
            && r.Ok?
            && Distinct(r.value)
            && Members(r.value) <= all
            && |r.value| == if cap < |all| then cap else |all|
  {
    var combos := Candidates(axes, require);
    var picked := Striding(combos, Stride(|combos|, cap), cap, 0, []);
    StridingLaws(combos, Stride(|combos|, cap), cap, 0, []);
    WithoutMembers(combos, picked);
    FilledLaws(Members(combos), picked, Without(combos, picked), cap, draw, 0);
  }

  // ---------------------------------------------------------------- what the candidates are

  /** One value of each axis, under its key, and nothing else. */
  predicate InGrid(axes: seq<Axis>, c: Combo) {
    c.Keys == (set i | 0 <= i < |axes| :: axes[i].key)
    && forall i | 0 <= i < |axes| :: axes[i].key in c && c[axes[i].key] in axes[i].values
  }

  ghost predicate KeysDiffer(axes: seq<Axis>) { forall i, j :: 0 <= i < j < |axes| ==> axes[i].key != axes[j].key }

  /** One of the combinations with one of the values put in. */
  ghost predicate Extends(rests: seq<Combo>, key: string, values: seq<Value>, c: Combo) {
    exists r, v :: r in rests && v in values && c == r[key := v]
  }

  lemma WithValueMembers(rests: seq<Combo>, key: string, v: Value, c: Combo)
    ensures c in WithValue(rests, key, v) <==> exists r :: r in rests && c == r[key := v]
  {
    var all := WithValue(rests, key, v);
    if c in all {
      var i :| 0 <= i < |all| && all[i] == c;
      assert rests[i] in rests;
    }
    if r :| r in rests && c == r[key := v] {
      var i :| 0 <= i < |rests| && rests[i] == r;
      assert all[i] == c;
    }
  }

  lemma ExtendsCons(rests: seq<Combo>, key: string, values: seq<Value>, c: Combo)
    requires values != []
    ensures Extends(rests, key, values, c)
            <==> (exists r :: r in rests && c == r[key := values[0]]) || Extends(rests, key, values[1..], c)
  {
    assert values == [values[0]] + values[1..];
    assert forall v :: v in values <==> v == values[0] || v in values[1..];
    if r :| r in rests && c == r[key := values[0]] {
      assert values[0] in values;
    }
  }

  lemma {:induction false} WithAxisMembers(rests: seq<Combo>, key: string, values: seq<Value>, c: Combo)
    ensures c in WithAxis(rests, key, values) <==> Extends(rests, key, values, c)
  {
    if values != [] {
      WithAxisMembers(rests, key, values[1..], c);
      WithValueMembers(rests, key, values[0], c);
      ExtendsCons(rests, key, values, c);
      assert WithAxis(rests, key, values) == WithValue(rests, key, values[0]) + WithAxis(rests, key, values[1..]);
    } else {
      assert WithAxis(rests, key, values) == [];
    }
  }

  function Rest(c: Combo, key: string): Combo { c - {key} }

  lemma GridStep(axes: seq<Axis>, c: Combo)
    requires axes != [] && KeysDiffer(axes)
    ensures InGrid(axes, c) <==> axes[0].key in c && c[axes[0].key] in axes[0].values && InGrid(axes[1..], Rest(c, axes[0].key))
  {
    var key, rest := axes[0].key, Rest(c, axes[0].key);
    forall i | 0 <= i < |axes[1..]| ensures axes[1..][i].key != key {
      assert axes[1..][i] == axes[i + 1];
    }
    if InGrid(axes, c) {
      GridTail(axes, c);
    } else if key in c && c[key] in axes[0].values && InGrid(axes[1..], rest) {
      GridCons(axes, c);
    }
  }

  lemma GridTail(axes: seq<Axis>, c: Combo)
    requires axes != [] && KeysDiffer(axes) && InGrid(axes, c)
    ensures InGrid(axes[1..], Rest(c, axes[0].key))
  {
    var rest := Rest(c, axes[0].key);
    forall i | 0 <= i < |axes[1..]|
      ensures axes[1..][i].key in rest && rest[axes[1..][i].key] in axes[1..][i].values
    {
      assert axes[1..][i] == axes[i + 1];
    }
    forall k | k in rest ensures k in (set i | 0 <= i < |axes[1..]| :: axes[1..][i].key) {
      var i :| 0 <= i < |axes| && axes[i].key == k;
      assert axes[1..][i - 1].key == k;
    }
  }

  lemma GridCons(axes: seq<Axis>, c: Combo)
    requires axes != [] && axes[0].key in c && c[axes[0].key] in axes[0].values
    requires InGrid(axes[1..], Rest(c, axes[0].key))
    ensures InGrid(axes, c)
  {
    var rest := Rest(c, axes[0].key);
    forall i | 0 <= i < |axes| ensures axes[i].key in c && c[axes[i].key] in axes[i].values {
      if i > 0 {
        assert axes[1..][i - 1] == axes[i];
        assert axes[i].key in rest;
      }
    }
    forall k | k in c ensures k in (set i | 0 <= i < |axes| :: axes[i].key) {
      if k != axes[0].key {
        assert k in rest;
        var i :| 0 <= i < |axes[1..]| && axes[1..][i].key == k;
        assert axes[i + 1].key == k;
      }
    }
  }

  lemma NotInTail(axes: seq<Axis>, r: Combo)
    requires axes != [] && KeysDiffer(axes) && InGrid(axes[1..], r)
    ensures axes[0].key !in r
  {
    forall i | 0 <= i < |axes[1..]| ensures axes[1..][i].key != axes[0].key {
      assert axes[1..][i] == axes[i + 1];
    }
    assert axes[0].key !in r.Keys;
  }

  lemma PutIn(axes: seq<Axis>, r: Combo, v: Value, c: Combo)
    requires axes != [] && KeysDiffer(axes) && InGrid(axes[1..], r) && v in axes[0].values
    requires c == r[axes[0].key := v]
    ensures InGrid(axes, c)
  {
    NotInTail(axes, r);
    assert Rest(c, axes[0].key) == r;
    GridStep(axes, c);
  }

  lemma TakeOut(axes: seq<Axis>, c: Combo) returns (r: Combo, v: Value)
    requires axes != [] && KeysDiffer(axes) && InGrid(axes, c)
    ensures InGrid(axes[1..], r) && v in axes[0].values && c == r[axes[0].key := v]
  {
    GridStep(axes, c);
    r, v := Rest(c, axes[0].key), c[axes[0].key];
    assert c == r[axes[0].key := v];
  }

  /** The product is the grid: a combination is in it exactly when it has one value of each axis. */
  lemma {:induction false} ProductIsGrid(axes: seq<Axis>, c: Combo)
    requires KeysDiffer(axes)
    ensures c in Product(axes) <==> InGrid(axes, c)
  {
    if axes == [] {
      assert c.Keys == {} <==> c == map[];
    } else {
      var rests := Product(axes[1..]);
      forall r: Combo ensures r in rests <==> InGrid(axes[1..], r) {
        ProductIsGrid(axes[1..], r);
      }
      WithAxisMembers(rests, axes[0].key, axes[0].values, c);
      if InGrid(axes, c) {
        var r, v := TakeOut(axes, c);
        assert r in rests;
      } else if r, v :| r in rests && v in axes[0].values && c == r[axes[0].key := v] {
        PutIn(axes, r, v, c);
      }
    }
  }

  function GridSize(axes: seq<Axis>): nat { if axes == [] then 1 else |axes[0].values| * GridSize(axes[1..]) }

  lemma {:induction false} WithAxisSize(rests: seq<Combo>, key: string, values: seq<Value>)
    ensures |WithAxis(rests, key, values)| == |values| * |rests|
  {
    if values != [] {
      WithAxisSize(rests, key, values[1..]);
      assert |values| * |rests| == |rests| + (|values| - 1) * |rests|;
    }
  }

  /** As many as the sizes of the axes multiply to. */
  lemma {:induction false} ProductSize(axes: seq<Axis>)
    ensures |Product(axes)| == GridSize(axes)
  {
    if axes != [] {
      ProductSize(axes[1..]);
      WithAxisSize(Product(axes[1..]), axes[0].key, axes[0].values);
    }
  }

  /** Follows trends: the provider is one of five. */
  predicate Trends(c: Combo) {
    On(c, "ema_enabled") || On(c, "macd_enabled") || On(c, "adx_enabled") || On(c, "st_enabled") || On(c, "ms_enabled")
  }

  /** Bets on reversion: the provider is one of two. Volume is of neither kind. */
  predicate Reverts(c: Combo) { On(c, "rsi_enabled") || On(c, "bb_enabled") }

  lemma {:induction false} AnyOnCons(c: Combo, key: string, keys: seq<string>)
    ensures AnyOn(c, [key] + keys) <==> On(c, key) || AnyOn(c, keys)
  {
    assert ([key] + keys)[0] == key;
    forall k | k in [key] + keys ensures k == key || k in keys {
    }
  }

  lemma AnyOnTwo(c: Combo, a: string, b: string)
    ensures AnyOn(c, [a, b]) <==> On(c, a) || On(c, b)
  {
    AnyOnCons(c, a, [b]);
    AnyOnCons(c, b, []);
    assert [a, b] == [a] + [b] && [b] == [b] + [];
  }

  lemma AnyOnFive(c: Combo, k1: string, k2: string, k3: string, k4: string, k5: string)
    ensures AnyOn(c, [k1, k2, k3, k4, k5]) <==> On(c, k1) || On(c, k2) || On(c, k3) || On(c, k4) || On(c, k5)
  {
    AnyOnTwo(c, k4, k5);
    AnyOnCons(c, k3, [k4, k5]);
    AnyOnCons(c, k2, [k3, k4, k5]);
    AnyOnCons(c, k1, [k2, k3, k4, k5]);
    assert [k3, k4, k5] == [k3] + [k4, k5] && [k2, k3, k4, k5] == [k2] + [k3, k4, k5];
    assert [k1, k2, k3, k4, k5] == [k1] + [k2, k3, k4, k5];
  }

  lemma SomeProviderIs(c: Combo)
    ensures AnyOn(c, PROVIDER_ENABLED_KEYS) <==> Trends(c) || Reverts(c) || On(c, "vol_enabled")
  {
    var tail := ["adx_enabled", "bb_enabled", "st_enabled", "vol_enabled", "ms_enabled"];
    AnyOnFive(c, "adx_enabled", "bb_enabled", "st_enabled", "vol_enabled", "ms_enabled");
    AnyOnCons(c, "macd_enabled", tail);
    AnyOnCons(c, "rsi_enabled", ["macd_enabled"] + tail);
    AnyOnCons(c, "ema_enabled", ["rsi_enabled"] + (["macd_enabled"] + tail));
    assert PROVIDER_ENABLED_KEYS == ["ema_enabled"] + (["rsi_enabled"] + (["macd_enabled"] + tail));
  }

  lemma ValidIff(c: Combo, family: bool)
    ensures IsValidProviderTrial(c, family)
            <==> (Trends(c) || Reverts(c) || On(c, "vol_enabled")) && (family ==> !(Trends(c) && Reverts(c)))
  {
    SomeProviderIs(c);
    AnyOnFive(c, "ema_enabled", "macd_enabled", "adx_enabled", "st_enabled", "ms_enabled");
    AnyOnTwo(c, "bb_enabled", "rsi_enabled");
  }

  predicate IsSwitch(key: string) {
    key in {"ema_enabled", "macd_enabled", "adx_enabled", "st_enabled", "ms_enabled",
            "rsi_enabled", "bb_enabled", "vol_enabled"}
  }

  /** The axis is a provider switch with a choice of values. */
  predicate HasChoice(axis: Axis) { IsSwitch(axis.key) && |axis.values| > 1 }

  ghost predicate SomeChoice(axes: seq<Axis>) { exists i :: 0 <= i < |axes| && HasChoice(axes[i]) }

  ghost predicate TwoChoices(axes: seq<Axis>) {
    exists i, j :: 0 <= i < j < |axes| && HasChoice(axes[i]) && HasChoice(axes[j])
  }

  lemma SwitchesAre(key: string)
    ensures key in PROVIDER_ENABLED_KEYS <==> IsSwitch(key)
  {
    var all := PROVIDER_ENABLED_KEYS;
    assert all[0] in all && all[1] in all && all[2] in all && all[3] in all;
    assert all[4] in all && all[5] in all && all[6] in all && all[7] in all;
  }

  lemma ChoicesOfCons(axes: seq<Axis>)
    requires axes != []
    ensures SomeChoice(axes) <==> HasChoice(axes[0]) || SomeChoice(axes[1..])
    ensures TwoChoices(axes) <==> (HasChoice(axes[0]) && SomeChoice(axes[1..])) || TwoChoices(axes[1..])
  {
    var tail := axes[1..];
    assert forall i | 0 <= i < |tail| :: tail[i] == axes[i + 1];
    if i :| 0 <= i < |axes| && HasChoice(axes[i]) {
      assert i > 0 ==> HasChoice(tail[i - 1]);
    }
    if i, j :| 0 <= i < j < |axes| && HasChoice(axes[i]) && HasChoice(axes[j]) {
      assert HasChoice(tail[j - 1]);
      assert i > 0 ==> HasChoice(tail[i - 1]);
    }
    if i :| 0 <= i < |tail| && HasChoice(tail[i]) {
      assert HasChoice(axes[i + 1]);
    }
    if i, j :| 0 <= i < j < |tail| && HasChoice(tail[i]) && HasChoice(tail[j]) {
      assert HasChoice(axes[i + 1]) && HasChoice(axes[j + 1]);
    }
  }

  /** Families are kept apart by default when two provider switches have a choice of values. */
  lemma {:induction false} TogglableCounts(axes: seq<Axis>)
    ensures Togglable(axes) >= 1 <==> SomeChoice(axes)
    ensures Togglable(axes) >= 2 <==> TwoChoices(axes)
  {
    if axes != [] {
      TogglableCounts(axes[1..]);
      SwitchesAre(axes[0].key);
      ChoicesOfCons(axes);
    }
  }

  /** The candidates: the grid, of which some provider is on and, where families are kept apart, not both kinds. */
  lemma CandidatesAre(axes: seq<Axis>, require: Option<bool>, c: Combo)
    requires KeysDiffer(axes)
    ensures c in Candidates(axes, require)
            <==> InGrid(axes, c) && (Trends(c) || Reverts(c) || On(c, "vol_enabled"))
                 && ((if require.Some? then require.value else TwoChoices(axes)) ==> !(Trends(c) && Reverts(c)))
  {
    var family := if require.Some? then require.value else Togglable(axes) >= 2;
    TogglableCounts(axes);
    ProductIsGrid(axes, c);
    ValidMembers(Product(axes), family);
    ValidIff(c, family);
  }

  // ---------------------------------------------------------------- axes without duplicates

  ghost predicate DuplicateFree(axes: seq<Axis>) {
    && (forall i, j :: 0 <= i < j < |axes| ==> axes[i].key != axes[j].key)
    && forall i, j, k :: 0 <= i < |axes| && 0 <= j < k < |axes[i].values| ==> axes[i].values[j] != axes[i].values[k]
  }

  ghost function KeysOf(axes: seq<Axis>): set<string> { set a | a in axes :: a.key }

  lemma SameWithoutKey(a: Combo, b: Combo, key: string, v: Value)
    requires key !in a && key !in b && a[key := v] == b[key := v]
    ensures a == b
  {
    assert a == a[key := v] - {key} && b == b[key := v] - {key};
  }

  lemma WithValueDistinct(rests: seq<Combo>, key: string, v: Value)
    requires Distinct(rests) && forall c | c in rests :: key !in c
    ensures Distinct(WithValue(rests, key, v))
    ensures forall c | c in WithValue(rests, key, v) :: exists rest :: rest in rests && c == rest[key := v]
  {
    var s := WithValue(rests, key, v);
    forall c | c in s ensures exists rest :: rest in rests && c == rest[key := v] {
      var i :| 0 <= i < |s| && s[i] == c;
      assert rests[i] in rests && c == rests[i][key := v];
    }
    forall i, j | 0 <= i < j < |s| ensures s[i] != s[j] {
      if s[i] == s[j] {
        SameWithoutKey(rests[i], rests[j], key, v);
      }
    }
  }

  lemma {:induction false} WithAxisDistinct(rests: seq<Combo>, key: string, values: seq<Value>)
    requires Distinct(rests) && forall c | c in rests :: key !in c
    requires forall j, k :: 0 <= j < k < |values| ==> values[j] != values[k]
    ensures Distinct(WithAxis(rests, key, values))
    ensures forall c | c in WithAxis(rests, key, values) ::
              key in c && c[key] in values && exists rest :: rest in rests && c == rest[key := c[key]]
  {
    if values != [] {
      var first, more := WithValue(rests, key, values[0]), WithAxis(rests, key, values[1..]);
      WithValueDistinct(rests, key, values[0]);
      WithAxisDistinct(rests, key, values[1..]);
      assert values[0] !in values[1..];
      forall i, j | 0 <= i < |first| && 0 <= j < |more| ensures first[i] != more[j] {
        assert first[i] in first && more[j] in more;
      }
    }
  }

  lemma {:induction false} ProductDistinct(axes: seq<Axis>)
    requires DuplicateFree(axes)
    ensures Distinct(Product(axes)) && forall c | c in Product(axes) :: c.Keys <= KeysOf(axes)
  {
    if axes != [] {
      ProductDistinct(axes[1..]);
      var rests := Product(axes[1..]);
      forall c | c in rests ensures axes[0].key !in c {
        assert axes[0].key !in KeysOf(axes[1..]);
      }
      WithAxisDistinct(rests, axes[0].key, axes[0].values);
      assert axes[0] in axes;
      assert KeysOf(axes[1..]) <= KeysOf(axes);
    }
  }

  lemma {:induction false} ValidDistinct(combos: seq<Combo>, family: bool)
    requires Distinct(combos)
    ensures Distinct(ValidOf(combos, family))
  {
    if combos != [] {
      ValidDistinct(combos[1..], family);
      ValidMembers(combos[1..], family);
      assert combos[0] !in combos[1..];
    }
  }

  /** `c` is the combination i strides in. */
  ghost predicate StridesIn<T>(combos: seq<T>, i: nat, stride: nat, c: T) {
    0 <= i * stride < |combos| && c == combos[i * stride]
  }

  ghost predicate AllStrides<T>(combos: seq<T>, stride: nat, picked: seq<T>) {
    forall i {:trigger picked[i]} | 0 <= i < |picked| :: StridesIn(combos, i, stride, picked[i])
  }

  /** Among distinct combinations the next stop is none of those before it. */
  lemma NextIsNew<T>(combos: seq<T>, stride: nat, picked: seq<T>, index: nat)
    requires Distinct(combos) && stride >= 1 && AllStrides(combos, stride, picked)
    requires index == |picked| * stride < |combos|
    ensures combos[index] !in picked
  {
    forall i | 0 <= i < |picked| ensures picked[i] != combos[index] {
      assert StridesIn(combos, i, stride, picked[i]);
      assert index - i * stride == (|picked| - i) * stride;
    }
  }

  /** While the cap is not reached, each stop is picked and the next one still lies in range. */
  lemma {:induction false} StrideIsEnough<T>(combos: seq<T>, stride: nat, cap: int, index: nat, picked: seq<T>)
    requires Distinct(combos) && stride >= 1 && |picked| < cap && (cap - 1) * stride < |combos|
    requires AllStrides(combos, stride, picked) && index == |picked| * stride
    ensures var r := Striding(combos, stride, cap, index, picked); |r| == cap && AllStrides(combos, stride, r)
    decreases cap - |picked|
  {
    Times(|picked|, cap - 1, stride);
    NextIsNew(combos, stride, picked, index);
    var next := picked + [combos[index]];
    assert StridesIn(combos, |picked|, stride, combos[index]);
    assert AllStrides(combos, stride, next);
    if |next| < cap {
      assert |next| * stride == index + stride;
      StrideIsEnough(combos, stride, cap, index + stride, next);
    }
  }

  lemma Times(a: int, b: int, stride: nat)
    requires a <= b
    ensures a * stride <= b * stride
  {
  }

  lemma StrideIsQuotient(n: nat, cap: int)
    requires 1 <= cap < n
    ensures Stride(n, cap) == n / cap >= 1 && (cap - 1) * (n / cap) < n
  {
    assert cap * (n / cap) <= n;
    assert (cap - 1) * (n / cap) == cap * (n / cap) - n / cap;
  }

  /**
   If no axis repeats a value, the stride alone reaches the cap: trial i is the valid combination
   i strides in, and the draws, hence the seed, cannot change the result.
   */
  lemma SeedCannotMatter(axes: seq<Axis>, cap: int, require: Option<bool>, draw: nat -> nat)
    requires DuplicateFree(axes) && 1 <= cap < |Candidates(axes, require)|
    ensures var combos, r := Candidates(axes, require), Trials(axes, cap, require, draw);
            && r.Ok?
            && |r.value| == cap
            && forall i {:trigger r.value[i]} | 0 <= i < cap :: StridesIn(combos, i, |combos| / cap, r.value[i])
  {
    var combos := Candidates(axes, require);
    ProductDistinct(axes);
    ValidDistinct(Product(axes), if require.Some? then require.value else Togglable(axes) >= 2);
    StrideIsQuotient(|combos|, cap);
    StrideIsEnough(combos, |combos| / cap, cap, 0, []);
  }
}
