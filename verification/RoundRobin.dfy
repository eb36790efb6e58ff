/** Picking is fair: consecutive picks walk the eligible targets in cyclic order. */
module RoundRobin {
  import opened Edge
  import opened Pool

  /** The eligible positions in [lo, hi), in order. */
  function Between(elig: seq<bool>, lo: nat, hi: nat): (r: seq<nat>)
    requires lo <= hi <= |elig|
    ensures forall i :: i in r <==> lo <= i < hi && elig[i]
    ensures forall j, k :: 0 <= j < k < |r| ==> r[j] < r[k]
  {
    if lo == hi then []
    else
      var init := Between(elig, lo, hi - 1);
      assert forall j :: 0 <= j < |init| ==> init[j] in init;
      init + if elig[hi - 1] then [hi - 1] else []
  }

  /** The eligible positions in the order the cursor meets them. */
  function Cycle(elig: seq<bool>, cursor: nat): seq<nat>
    requires cursor <= |elig|
  {
    Between(elig, cursor, |elig|) + Between(elig, 0, cursor)
  }

  lemma {:induction false} BetweenSplit(elig: seq<bool>, lo: nat, mid: nat, hi: nat)
    requires lo <= mid <= hi <= |elig|
    ensures Between(elig, lo, hi) == Between(elig, lo, mid) + Between(elig, mid, hi)
  {
    if mid < hi { BetweenSplit(elig, lo, mid, hi - 1); }
  }

  lemma {:induction false} BetweenNone(elig: seq<bool>, lo: nat, hi: nat)
    requires lo <= hi <= |elig| && forall i :: lo <= i < hi ==> !elig[i]
    ensures Between(elig, lo, hi) == []
  {
    if lo < hi { BetweenNone(elig, lo, hi - 1); }
  }

  /** Every eligible position is on the cycle, and once. */
  lemma CycleIsEligibleOnce(elig: seq<bool>, cursor: nat)
    requires cursor <= |elig|
    ensures forall i :: i in Cycle(elig, cursor) <==> 0 <= i < |elig| && elig[i]
    ensures forall j, k :: 0 <= j < k < |Cycle(elig, cursor)| ==> Cycle(elig, cursor)[j] != Cycle(elig, cursor)[k]
  {
    var a, b := Between(elig, cursor, |elig|), Between(elig, 0, cursor);
    forall j, k | 0 <= j < k < |a + b| ensures (a + b)[j] != (a + b)[k] {
      assert j < |a| ==> (a + b)[j] in a;
      assert k >= |a| ==> (a + b)[k] in b;
    }
  }

  /** The first eligible position in [lo, hi). */
  function First(elig: seq<bool>, lo: nat, hi: nat): (r: Option<nat>)
    requires lo <= hi <= |elig|
    ensures r.Some? ==> lo <= r.value < hi && elig[r.value] && forall i :: lo <= i < r.value ==> !elig[i]
    ensures r.None? ==> forall i :: lo <= i < hi ==> !elig[i]
    decreases hi - lo
  {
    if lo == hi then None else if elig[lo] then Some(lo) else First(elig, lo + 1, hi)
  }

  lemma Wraps(cursor: nat, k: nat, n: nat)
    requires cursor < n && k <= n
    ensures (cursor + k) % n == if cursor + k < n then cursor + k else cursor + k - n
  {
  }

  lemma {:induction false} ScanWrapped(elig: seq<bool>, cursor: nat, i: nat)
    requires cursor < |elig| && |elig| - cursor <= i <= |elig|
    ensures Scan(elig, cursor, i) == First(elig, cursor + i - |elig|, cursor)
    decreases |elig| - i
  {
    if i < |elig| {
      Wraps(cursor, i, |elig|);
      ScanWrapped(elig, cursor, i + 1);
    }
  }

  /** A cyclic scan is a scan up to the end and then one from the start. */
  lemma {:induction false} ScanIsTwoScans(elig: seq<bool>, cursor: nat, i: nat)
    requires cursor < |elig| && cursor + i <= |elig|
    ensures Scan(elig, cursor, i) == if First(elig, cursor + i, |elig|).Some? then First(elig, cursor + i, |elig|)
                                     else First(elig, 0, cursor)
    decreases |elig| - i
  {
    if cursor + i == |elig| {
      ScanWrapped(elig, cursor, i);
    } else {
      Wraps(cursor, i, |elig|);
      ScanIsTwoScans(elig, cursor, i + 1);
    }
  }

  /** One pick takes the head of the cycle and moves it to the end; it fails only on an empty one. */
  lemma PickRotates(elig: seq<bool>, cursor: nat)
    requires cursor < |elig|
    ensures match Scan(elig, cursor, 0)
      case None => Cycle(elig, cursor) == []
      case Some(idx) =>
        && Cycle(elig, cursor) != [] && Cycle(elig, cursor)[0] == idx
        && Cycle(elig, (idx + 1) % |elig|) == Cycle(elig, cursor)[1..] + [idx]
  {
    hide Between, Scan;
    var n := |elig|;
    ScanIsTwoScans(elig, cursor, 0);
    var high := First(elig, cursor, n);
    if high.Some? {
      NextCursor(elig, high.value);
      HighHead(elig, cursor, high.value);
    } else {
      BetweenNone(elig, cursor, n);
      var low := First(elig, 0, cursor);
      if low.Some? {
        NextCursor(elig, low.value);
        LowHead(elig, cursor, low.value);
      } else {
        BetweenNone(elig, 0, cursor);
      }
    }
  }

  /** An eligible position with none before it in its range is the head of that range. */
  lemma HeadOf(elig: seq<bool>, lo: nat, idx: nat, hi: nat)
    requires lo <= idx < hi <= |elig| && elig[idx] && forall i :: lo <= i < idx ==> !elig[i]
    ensures Between(elig, lo, hi) == [idx] + Between(elig, idx + 1, hi)
    ensures Between(elig, lo, idx + 1) == [idx]
  {
    BetweenNone(elig, lo, idx);
    BetweenSplit(elig, lo, idx + 1, hi);
  }

  lemma HighHead(elig: seq<bool>, cursor: nat, idx: nat)
    requires cursor <= idx < |elig| && elig[idx] && forall i :: cursor <= i < idx ==> !elig[i]
    ensures Cycle(elig, cursor) != [] && Cycle(elig, cursor)[0] == idx
    ensures Between(elig, idx + 1, |elig|) + Between(elig, 0, idx + 1) == Cycle(elig, cursor)[1..] + [idx]
  {
    var a, b := Between(elig, idx + 1, |elig|), Between(elig, 0, cursor);
    HeadOf(elig, cursor, idx, |elig|);
    BetweenSplit(elig, 0, cursor, idx + 1);
    hide Between;
    Rotated(Cycle(elig, cursor), a + Between(elig, 0, idx + 1), idx, a, b);
  }

  lemma Rotated(c: seq<nat>, c': seq<nat>, x: nat, a: seq<nat>, b: seq<nat>)
    requires c == [x] + a + b && c' == a + (b + [x])
    ensures c[0] == x && c' == c[1..] + [x]
  {
  }

  lemma LowHead(elig: seq<bool>, cursor: nat, idx: nat)
    requires idx < cursor <= |elig| && elig[idx] && forall i :: 0 <= i < idx ==> !elig[i]
    requires Between(elig, cursor, |elig|) == []
    ensures Cycle(elig, cursor) != [] && Cycle(elig, cursor)[0] == idx
    ensures Between(elig, idx + 1, |elig|) + Between(elig, 0, idx + 1) == Cycle(elig, cursor)[1..] + [idx]
  {
    HeadOf(elig, 0, idx, cursor);
    BetweenSplit(elig, idx + 1, cursor, |elig|);
    hide Between;
    Rotated(Cycle(elig, cursor), Between(elig, idx + 1, |elig|) + Between(elig, 0, idx + 1), idx,
            Between(elig, idx + 1, cursor), []);
  }

  /** Wrapping the cursor to 0 does not change the cycle. */
  lemma NextCursor(elig: seq<bool>, idx: nat)
    requires idx < |elig|
    ensures (idx + 1) % |elig| <= |elig|
    ensures Cycle(elig, (idx + 1) % |elig|) == Between(elig, idx + 1, |elig|) + Between(elig, 0, idx + 1)
  {
    Wraps(idx, 1, |elig|);
    CycleWraps(elig);
  }

  lemma CycleWraps(elig: seq<bool>)
    ensures Cycle(elig, 0) == Between(elig, |elig|, |elig|) + Between(elig, 0, |elig|)
  {
    assert Between(elig, 0, 0) == [] && Between(elig, |elig|, |elig|) == [];
  }

  // ----- consecutive picks

  /** What one pick per clock reading returns, with nothing else happening to the pool. */
  function Picks(p: Pool, skip: seq<int>, nows: seq<Time>): (r: seq<Option<Target>>)
    ensures |r| == |nows|
    decreases |nows|
  {
    if nows == [] then []
    else
      var first := Picked(p, skip, nows[0]);
      [first.target] + Picks(first.pool, skip, nows[1..])
  }

  /** With eligibility unchanged, the `k`-th pick returns the `k`-th target on the cycle. */
  lemma {:induction false} PicksFollowCycle(p: Pool, skip: seq<int>, nows: seq<Time>, elig: seq<bool>, k: nat)
    requires p.next < |p.targets| && |elig| == |p.targets|
    requires forall t :: t in nows ==> EligibleAt(p.targets, skip, t) == elig
    requires k < |nows| <= |Cycle(elig, p.next)|
    ensures Cycle(elig, p.next)[k] < |p.targets|
    ensures Picks(p, skip, nows)[k] == Some(p.targets[Cycle(elig, p.next)[k]].Live())
    decreases |nows|
  {
    assert nows[0] in nows;
    PickStep(p, skip, nows[0], elig);
    if k > 0 {
      PicksFollowCycle(Picked(p, skip, nows[0]).pool, skip, nows[1..], elig, k - 1);
    }
  }

  lemma CycleInRange(elig: seq<bool>, cursor: nat)
    requires cursor <= |elig|
    ensures forall k :: 0 <= k < |Cycle(elig, cursor)| ==> Cycle(elig, cursor)[k] < |elig|
  {
    CycleIsEligibleOnce(elig, cursor);
    assert forall k :: 0 <= k < |Cycle(elig, cursor)| ==> Cycle(elig, cursor)[k] in Cycle(elig, cursor);
  }

  lemma PickStep(p: Pool, skip: seq<int>, now: Time, elig: seq<bool>)
    requires p.next < |p.targets| && EligibleAt(p.targets, skip, now) == elig && Cycle(elig, p.next) != []
    ensures var cycle, r := Cycle(elig, p.next), Picked(p, skip, now);
      && cycle[0] < |p.targets| && r.target == Some(p.targets[cycle[0]].Live())
      && r.pool == p.(next := r.pool.next) && r.pool.next < |p.targets|
      && Cycle(elig, r.pool.next) == cycle[1..] + [cycle[0]]
  {
    hide Cycle;
    PickRotates(elig, p.next);
    Wraps(Scan(elig, p.next, 0).value, 1, |elig|);
  }

  /**
   Fairness: as many picks as there are eligible targets return each of them exactly once, from
   any cursor position.
   */
  lemma EachEligibleOnce(p: Pool, skip: seq<int>, nows: seq<Time>, elig: seq<bool>)
    requires p.next < |p.targets| && |elig| == |p.targets|
    requires forall t :: t in nows ==> EligibleAt(p.targets, skip, t) == elig
    requires |nows| == |Between(elig, 0, |elig|)|
    ensures var cycle := Cycle(elig, p.next);
      && |cycle| == |nows|
      && (forall i :: i in cycle <==> 0 <= i < |elig| && elig[i])
      && (forall j, k :: 0 <= j < k < |cycle| ==> cycle[j] != cycle[k])
      && (forall k :: 0 <= k < |cycle| ==> cycle[k] < |p.targets|)
      && (forall k :: 0 <= k < |nows| ==> Picks(p, skip, nows)[k] == Some(p.targets[cycle[k]].Live()))
  {
    BetweenSplit(elig, 0, p.next, |elig|);
    CycleIsEligibleOnce(elig, p.next);
    CycleInRange(elig, p.next);
    forall k | 0 <= k < |nows|
      ensures Picks(p, skip, nows)[k] == Some(p.targets[Cycle(elig, p.next)[k]].Live())
    {
      PicksFollowCycle(p, skip, nows, elig, k);
    }
  }

  /** A pick fails exactly when no target is eligible. */
  lemma PickFailsIffNoneEligible(p: Pool, skip: seq<int>, now: Time)
    requires p.next == 0 || p.next < |p.targets|
    ensures Picked(p, skip, now).target.None? <==> forall s :: s in p.targets ==> !Eligible(s, skip, now)
  {
    var elig := EligibleAt(p.targets, skip, now);
    if p.targets != [] {
      ScanIsTwoScans(elig, p.next, 0);
      if Scan(elig, p.next, 0).Some? {
        assert p.targets[Scan(elig, p.next, 0).value] in p.targets;
      }
    }
  }

  /** A push that leaves the same positions eligible leaves the rotation where it was. */
  lemma PushKeepsTurn(p: Pool, op: Op, skip: seq<int>, now: Time)
    requires op.Install? && (p.next == 0 || p.next < |p.targets|)
    requires EligibleAt(Step(p, op).pool.targets, skip, now) == EligibleAt(p.targets, skip, now)
    ensures var q := Step(p, op).pool;
      && q.next <= |q.targets| == |p.targets|
      && Cycle(EligibleAt(q.targets, skip, now), q.next) == Cycle(EligibleAt(p.targets, skip, now), p.next)
  {
    var q := Step(p, op).pool;
    assert |EligibleAt(q.targets, skip, now)| == |q.targets|;
    assert q.next == p.next;
  }
}
