/**
 The non-overlapping sample of a signal's active bars
 (backend/scripts/run_funding_signal_research.py, _nonoverlap_mask).
 */
module Sampling {
  /** The position before any bar from which the first spacing is measured. */
  const START: int := -1_000_000_000

  /** np.flatnonzero: the active positions, in order. */
  function ActivePositions(active: seq<bool>): seq<int> {
    if active == [] then []
    else
      var n := |active| - 1;
      ActivePositions(active[..n]) + if active[n] then [n] else []
  }

  function LastOf(kept: seq<int>): int {
    if kept == [] then START else kept[|kept| - 1]
  }

  /** The greedy choice over the positions in order. */
  function Kept(positions: seq<int>, horizon: int): seq<int> {
    if positions == [] then []
    else
      var n := |positions| - 1;
      var kept := Kept(positions[..n], horizon);
      if positions[n] - LastOf(kept) >= horizon then kept + [positions[n]] else kept
  }

  ghost predicate Increasing(s: seq<int>) { forall i, j :: 0 <= i < j < |s| ==> s[i] < s[j] }

  /** Any two members are at least the horizon apart. */
  ghost predicate Apart(s: set<int>, horizon: int) {
    forall a, b :: a in s && b in s && a < b ==> b - a >= horizon
  }

  ghost function Members(s: seq<int>): set<int> { set x | x in s }

  lemma {:induction false} ActiveInOrder(active: seq<bool>)
    ensures Increasing(ActivePositions(active))
    ensures forall p :: p in ActivePositions(active) <==> 0 <= p < |active| && active[p]
  {
    if active != [] {
      var n := |active| - 1;
      ActiveInOrder(active[..n]);
      var before := ActivePositions(active[..n]);
      forall i | 0 <= i < |before| ensures before[i] < n {
        assert before[i] in before;
      }
    }
  }

  lemma KeptNext(positions: seq<int>, i: nat, horizon: int)
    requires i < |positions|
    ensures var kept := Kept(positions[..i], horizon);
            Kept(positions[..i + 1], horizon)
            == if positions[i] - LastOf(kept) >= horizon then kept + [positions[i]] else kept
  {
    assert positions[..i + 1][..i] == positions[..i];
  }

  method NonoverlapMask(active: seq<bool>, horizon: int) returns (mask: seq<bool>)
    ensures |mask| == |active|
    ensures forall p | 0 <= p < |mask| :: mask[p] <==> p in Kept(ActivePositions(active), horizon)
  {
    var keep := new bool[|active|](_ => false);
    var last := START;
    var positions := ActivePositions(active);
    ghost var kept := [];
    ActiveInOrder(active);
    for i := 0 to |positions|
      invariant kept == Kept(positions[..i], horizon) && last == LastOf(kept)
      invariant forall p | 0 <= p < keep.Length :: keep[p] <==> p in kept
    {
      var pos := positions[i];
      assert pos in positions;
      KeptNext(positions, i, horizon);
      if pos - last >= horizon {
        keep[pos] := true;
        last := pos;
        kept := kept + [pos];
      }
    }
    assert positions[..|positions|] == positions;
    mask := keep[..];
  }

  // ---------------------------------------------------------------- what is kept

  lemma SnocIncreasing(s: seq<int>, x: int)
    requires Increasing(s) && (s != [] ==> s[|s| - 1] < x)
    ensures Increasing(s + [x])
  {
  }

  lemma SnocMembers(s: seq<int>, x: int)
    ensures Members(s + [x]) == Members(s) + {x}
  {
  }

  lemma SnocApart(kept: seq<int>, horizon: int, x: int)
    requires Increasing(kept) && Apart(Members(kept), horizon) && x - LastOf(kept) >= horizon
    requires kept != [] ==> kept[|kept| - 1] < x
    ensures Apart(Members(kept) + {x}, horizon)
  {
    forall a | a in Members(kept) ensures a <= LastOf(kept) {
    }
  }

  lemma {:induction false} KeptIsSound(positions: seq<int>, horizon: int)
    requires Increasing(positions)
    ensures var kept := Kept(positions, horizon);
            Increasing(kept) && Members(kept) <= Members(positions) && Apart(Members(kept), horizon)
  {
    if positions != [] {
      var n := |positions| - 1;
      var kept, x := Kept(positions[..n], horizon), positions[n];
      KeptIsSound(positions[..n], horizon);
      assert positions == positions[..n] + [x];
      SnocMembers(positions[..n], x);
      if x - LastOf(kept) >= horizon {
        if kept != [] {
          assert kept[|kept| - 1] in Members(kept);
          EarlierThan(positions, n, kept[|kept| - 1]);
        }
        SnocIncreasing(kept, x);
        SnocMembers(kept, x);
        SnocApart(kept, horizon, x);
      }
    }
  }

  lemma {:induction false} SizeOfMembers(s: seq<int>)
    requires Increasing(s)
    ensures |Members(s)| == |s|
  {
    if s != [] {
      var n := |s| - 1;
      SizeOfMembers(s[..n]);
      assert s == s[..n] + [s[n]];
      assert Members(s) == Members(s[..n]) + {s[n]};
    }
  }

  /** The choice as it stood just before its last pick. */
  lemma {:induction false} LastPick(positions: seq<int>, horizon: int) returns (m: nat)
    requires Kept(positions, horizon) != []
    ensures m < |positions| && LastOf(Kept(positions, horizon)) == positions[m]
    ensures Kept(positions, horizon) == Kept(positions[..m], horizon) + [positions[m]]
  {
    var n := |positions| - 1;
    var kept := Kept(positions[..n], horizon);
    if positions[n] - LastOf(kept) >= horizon {
      m := n;
    } else {
      m := LastPick(positions[..n], horizon);
      assert positions[..n][..m] == positions[..m];
    }
  }

  ghost predicate Choice(positions: seq<int>, horizon: int, other: set<int>) {
    other <= Members(positions) && Apart(other, horizon)
  }

  lemma Drop(other: set<int>, x: int)
    ensures |other - {x}| == if x in other then |other| - 1 else |other|
  {
    if x !in other {
      assert other - {x} == other;
    }
  }

  ghost predicate Positions(s: seq<int>) { Increasing(s) && (s != [] ==> s[0] >= 0) }

  lemma Prefix(s: seq<int>, m: nat)
    requires Positions(s) && m <= |s|
    ensures Positions(s[..m])
  {
  }

  /** No other spaced choice from the same positions is larger. */
  lemma {:induction false} NoLargerChoice(positions: seq<int>, horizon: int, other: set<int>)
    requires Positions(positions) && horizon <= -START && Choice(positions, horizon, other)
    ensures |other| <= |Kept(positions, horizon)|
    decreases |positions|
  {
    if positions == [] {
      assert other == {};
    } else {
      var n := |positions| - 1;
      var x, kept := positions[n], Kept(positions[..n], horizon);
      Drop(other, x);
      if x !in other || x - LastOf(kept) >= horizon {
        Prefix(positions, n);
        WithoutLast(positions, horizon, other);
        NoLargerChoice(positions[..n], horizon, other - {x});
      } else {
        FirstIsReached(positions, horizon);
        var m := LastPick(positions[..n], horizon);
        assert positions[..n][..m] == positions[..m];
        Prefix(positions, m);
        BeforePick(positions, horizon, other, m);
        NoLargerChoice(positions[..m], horizon, other - {x});
      }
    }
  }

  /** Nothing is dropped before a first pick. */
  lemma FirstIsReached(positions: seq<int>, horizon: int)
    requires Positions(positions) && positions != [] && horizon <= -START
    ensures var n := |positions| - 1;
            positions[n] - LastOf(Kept(positions[..n], horizon)) < horizon ==> Kept(positions[..n], horizon) != []
  {
  }

  lemma WithoutLast(positions: seq<int>, horizon: int, other: set<int>)
    requires positions != [] && Choice(positions, horizon, other)
    ensures Choice(positions[..|positions| - 1], horizon, other - {positions[|positions| - 1]})
  {
    var n := |positions| - 1;
    assert positions == positions[..n] + [positions[n]];
  }

  /** With the last position taken, what else is taken lies before a pick too close to it. */
  lemma BeforePick(positions: seq<int>, horizon: int, other: set<int>, m: nat)
    requires Increasing(positions) && Choice(positions, horizon, other) && m < |positions| - 1
    requires positions[|positions| - 1] in other && positions[|positions| - 1] - positions[m] < horizon
    ensures Choice(positions[..m], horizon, other - {positions[|positions| - 1]})
  {
    var x := positions[|positions| - 1];
    forall p | p in other - {x} ensures p in Members(positions[..m]) {
      assert p in Members(positions);
      var i :| 0 <= i < |positions| && positions[i] == p;
      assert x - p >= horizon;
      assert i < m;
      assert positions[..m][i] == p;
    }
  }

  lemma EarlierThan(positions: seq<int>, n: nat, p: int)
    requires Increasing(positions) && n < |positions| && p in positions[..n]
    ensures p < positions[n]
  {
  }

  // ---------------------------------------------------------------- optimality

  /** The kept positions are active and spaced, and no set of active positions with that spacing is larger. */
  ghost predicate Optimal(active: seq<bool>, horizon: int) {
    var positions := ActivePositions(active);
    var kept := Members(Kept(positions, horizon));
    Choice(positions, horizon, kept) && forall other | Choice(positions, horizon, other) :: |other| <= |kept|
  }

  lemma GreedyIsOptimal(active: seq<bool>, horizon: int)
    requires horizon <= -START
    ensures Optimal(active, horizon)
  {
    var positions := ActivePositions(active);
    ActiveInOrder(active);
    KeptIsSound(positions, horizon);
    SizeOfMembers(Kept(positions, horizon));
    assert positions != [] ==> positions[0] in positions;
    forall other | Choice(positions, horizon, other) ensures |other| <= |Members(Kept(positions, horizon))| {
      NoLargerChoice(positions, horizon, other);
    }
  }

  /** One active bar, never sampled when the horizon is longer than the offset. */
  lemma LoneBarIsLost(horizon: int)
    requires horizon > -START
    ensures Kept(ActivePositions([true]), horizon) == [] && !Optimal([true], horizon)
  {
    assert ActivePositions([true]) == [0] by {
      assert [true][..0] == [];
    }
    assert Kept([0], horizon) == [] by {
      assert [0][..0] == [];
    }
    assert Choice([0], horizon, {0});
    assert |{0}| == 1;
  }

  /** The sample is optimal for every signal exactly when the horizon is at most the start offset. */
  lemma OptimalIffHorizonFits(horizon: int)
    ensures (forall active: seq<bool> :: Optimal(active, horizon)) <==> horizon <= -START
  {
    if horizon <= -START {
      forall active: seq<bool> ensures Optimal(active, horizon) {
        GreedyIsOptimal(active, horizon);
      }
    } else {
      LoneBarIsLost(horizon);
    }
  }
}
