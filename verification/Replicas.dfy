/** Which replica indexes a deploy takes, and what stays true of them over many deploys. */
module Replicas {

  /** The `n` lowest free indexes from `i` on. */
  function Free(taken: set<int>, i: int, n: nat): (r: seq<int>)
    ensures |r| == n
    decreases n + |taken|
  {
    if n == 0 then []
    else if i in taken then Free(taken - {i}, i + 1, n)
    else [i] + Free(taken, i + 1, n - 1)
  }

  ghost predicate Increasing(s: seq<int>) {
    forall j, k :: 0 <= j < k < |s| ==> s[j] < s[k]
  }

  /** Free indexes are free, distinct and as low as can be: none is beyond what is taken plus `n`. */
  lemma {:induction false} FreeIndexesAreFree(taken: set<int>, i: int, n: nat)
    ensures var r := Free(taken, i, n);
      && Increasing(r)
      && (forall x :: x in r ==> i <= x < i + |taken| + n && x !in taken)
      && (forall x :: x in r ==> forall y :: i <= y < x ==> y in r || y in taken)
    decreases n + |taken|
  {
    if n > 0 {
      var r := Free(taken, i, n);
      if i in taken {
        FreeIndexesAreFree(taken - {i}, i + 1, n);
      } else {
        FreeIndexesAreFree(taken, i + 1, n - 1);
        var rest := Free(taken, i + 1, n - 1);
        assert forall k :: 0 < k < |r| ==> r[k] in rest;
        forall x | x in r ensures forall y :: i <= y < x ==> y in r || y in taken {
          forall y | i <= y < x ensures y in r || y in taken {
            if y == i { assert r[0] == i; } else { assert x in rest; }
          }
        }
      }
    }
  }

  method Taken(live: seq<int>) returns (taken: set<int>)
    ensures taken == set x | x in live
  {
    taken := {};
    for k := 0 to |live|
      invariant taken == set x | x in live[..k]
    {
      taken := taken + {live[k]};
      assert live[..k + 1] == live[..k] + [live[k]];
    }
    assert live[..|live|] == live;
  }

  method FreeIndexes(live: seq<int>, n: nat) returns (out: seq<int>)
    ensures out == Free(set x | x in live, 1, n)
  {
    var taken := Taken(live);
    out := [];
    var i := 1;
    ghost var rest := taken;
    while |out| < n
      invariant |out| <= n && rest <= taken && forall x :: x in taken && x >= i ==> x in rest
      invariant Free(taken, 1, n) == out + Free(rest, i, n - |out|)
      decreases n - |out| + |rest|
    {
      if i !in taken {
        out := out + [i];
      } else {
        rest := rest - {i};
      }
      i := i + 1;
    }
  }

  /** Only running containers with a number hold an index; the unnumbered one is index 0. */
  datatype Inspected = Inspected(index: int, running: bool)

  method NumberedRunning(live: seq<Inspected>) returns (indexes: seq<int>)
    ensures forall x :: x in indexes <==> exists c :: c in live && c.running && c.index >= 1 && c.index == x
  {
    indexes := [];
    for k := 0 to |live|
      invariant forall x :: x in indexes <==> exists c :: c in live[..k] && c.running && c.index >= 1 && c.index == x
    {
      assert live[..k + 1] == live[..k] + [live[k]];
      if live[k].index >= 1 && live[k].running { indexes := indexes + [live[k].index]; }
    }
    assert live[..|live|] == live;
  }

  // ----- many deploys, of any width

  ghost function SetOf(s: seq<int>): set<int> { set x | x in s }

  ghost predicate Within(s: set<int>, n: int) {
    forall x :: x in s ==> 1 <= x <= n
  }

  /** What runs after a deploy of `w` replicas: the fresh pool if it was promoted, else the old one. */
  ghost function After(live: set<int>, w: nat, promoted: bool): set<int> {
    if promoted then SetOf(Free(live, 1, w)) else live
  }

  datatype Rollout = Rollout(width: nat, promoted: bool)

  ghost function AfterAll(live: set<int>, runs: seq<Rollout>): set<int> {
    if runs == [] then live
    else
      var last := runs[|runs| - 1];
      After(AfterAll(live, runs[..|runs| - 1]), last.width, last.promoted)
  }

  /** Both pools of a deploy, while it has both, are within 1..2w. */
  ghost predicate Fits(live: set<int>, w: nat) {
    Within(live + SetOf(Free(live, 1, w)), 2 * w)
  }

  lemma {:induction false} Cardinality(s: seq<int>)
    requires Increasing(s)
    ensures |SetOf(s)| == |s|
  {
    if s != [] {
      var n := |s| - 1;
      Cardinality(s[..n]);
      assert s == s[..n] + [s[n]];
      assert SetOf(s) == SetOf(s[..n]) + {s[n]};
      assert s[n] !in s[..n];
    }
  }

  lemma {:induction false} WithinCount(s: set<int>, n: nat)
    requires Within(s, n)
    ensures |s| <= n
  {
    if n == 0 {
      assert (forall x :: x !in s) ==> s == {};
    } else {
      WithinCount(s - {n}, n - 1);
    }
  }

  lemma AddedIsApart(live: set<int>, w: nat)
    ensures var added := SetOf(Free(live, 1, w)); |added| == w && added !! live && |live + added| == |live| + w
  {
    FreeIndexesAreFree(live, 1, w);
    Cardinality(Free(live, 1, w));
    var added := SetOf(Free(live, 1, w));
    assert |live + added| == |live| + |added|;
  }

  /**
   A deploy's fresh and old numbers together are within 1..2w if and only if the old ones are, and
   are at most w: then enumerating 1..2w finds every container.
   */
  lemma FitsIff(live: set<int>, w: nat)
    ensures Fits(live, w) <==> Within(live, 2 * w) && |live| <= w
  {
    FreeIndexesAreFree(live, 1, w);
    AddedIsApart(live, w);
    if Fits(live, w) { WithinCount(live + SetOf(Free(live, 1, w)), 2 * w); }
  }

  /** Whatever wins a deploy that fits is again at most w numbers within 1..2w. */
  lemma OneDeployFits(live: set<int>, w: nat, promoted: bool)
    requires Fits(live, w)
    ensures |After(live, w, promoted)| <= w && Within(After(live, w, promoted), 2 * w)
    ensures promoted ==> |After(live, w, promoted)| == w
  {
    FitsIff(live, w);
    AddedIsApart(live, w);
  }

  /** After a promoted deploy of width w, one of width v fits if and only if v is not smaller. */
  lemma NextFitsIff(live: set<int>, w: nat, v: nat)
    requires Fits(live, w)
    ensures Fits(After(live, w, true), v) <==> w <= v
  {
    OneDeployFits(live, w, true);
    FitsIff(After(live, w, true), v);
  }

  ghost predicate NeverShrinks(runs: seq<Rollout>) {
    forall i, j :: 0 <= i < j < |runs| ==> runs[i].width <= runs[j].width
  }

  /** Over any deploys and rollbacks whose width never shrinks, every one of them fits. */
  lemma {:induction false} EveryDeployFits(live: set<int>, runs: seq<Rollout>, n: nat)
    requires NeverShrinks(runs) && n < |runs| && Fits(live, runs[0].width)
    ensures Fits(AfterAll(live, runs[..n]), runs[n].width)
  {
    if n == 0 {
      assert runs[..0] == [];
    } else {
      EveryDeployFits(live, runs, n - 1);
      var before := AfterAll(live, runs[..n - 1]);
      assert runs[..n][..n - 1] == runs[..n - 1] && runs[..n][n - 1] == runs[n - 1];
      OneDeployFits(before, runs[n - 1].width, runs[n - 1].promoted);
      FitsIff(AfterAll(live, runs[..n]), runs[n].width);
    }
  }

  /** Two replicas, promoted, and then a deploy of one: the numbers leave 1..2. */
  lemma ShrinkingLeavesTheRange()
    ensures Fits({1, 2}, 2) && !Fits(AfterAll({1, 2}, [Rollout(2, true)]), 1)
  {
    assert |{1, 2}| == 2;
    FitsIff({1, 2}, 2);
    NextFitsIff({1, 2}, 2, 1);
    assert [Rollout(2, true)][..0] == [];
  }
}
