/** Which targets a pick may return: over whole runs, how long a failed one is left out. */
module Failures {
  import opened Edge
  import opened Pool
  import opened PoolRuns
  import opened PoolTheorems
  import RoundRobin

  /** Step `i` marked the target of incarnation `inc` as failed. */
  ghost predicate FailedAt(r: Run, i: nat, inc: int)
    requires i < |r.ops| < |r.pools|
  {
    r.ops[i].Fail? && exists s :: s in r.pools[i].targets && s.incarnation == inc && s.t.replica == r.ops[i].replica
  }

  /** The last time it did before the pool before step `k`. */
  ghost predicate LastFailed(r: Run, i: nat, k: nat, inc: int)
    requires k <= |r.ops| < |r.pools|
  {
    i < k && FailedAt(r, i, inc) && forall j :: i < j < k ==> !FailedAt(r, j, inc)
  }

  /** A target after a step failed last when it did before, or is marked by it; a new one never has. */
  lemma FailStep(p: Pool, op: Op, last: int, s': Slot) returns (s: Slot)
    requires Inv(p, last) && Legal(p, op, last) && s' in Step(p, op).pool.targets
    ensures s'.incarnation > last ==> s'.failedUntil == ZERO_TIME
    ensures s'.incarnation <= last ==>
      && s in p.targets && s.incarnation == s'.incarnation
      && s'.failedUntil == if op.Fail? && op.replica == s.t.replica then op.at + 5_000_000_000 else s.failedUntil
  {
    s := s';
    if op.Install? {
      var x, want := InstallOrigin(p, op, last, s');
      if Kept(p.targets, want) { s := p.targets[Find(p.targets, want.replica).value]; }
    } else {
      var q := Step(p, op).pool;
      SameLength(p, op);
      var i :| 0 <= i < |q.targets| && q.targets[i] == s';
      s := p.targets[i];
      assert SlotOk(s, p.issued, last);
      FailAt(p, op, i);
    }
  }

  lemma FailAt(p: Pool, op: Op, i: nat)
    requires !op.Install? && Distinct(p.targets) && i < |p.targets| && |Step(p, op).pool.targets| == |p.targets|
    ensures var s, s' := p.targets[i], Step(p, op).pool.targets[i];
      && s'.incarnation == s.incarnation
      && s'.failedUntil == if op.Fail? && op.replica == s.t.replica then op.at + 5_000_000_000 else s.failedUntil
  {
    if op.Fail? && op.replica == p.targets[i].t.replica { assert Find(p.targets, op.replica) == Some(i); }
  }

  /** A target is left out until five seconds after it failed last, and not at all if it never has. */
  lemma {:induction false} FailedUntil(r: Run, k: nat, s: Slot)
    requires IsRun(r) && k < |r.pools| && s in r.pools[k].targets
    ensures forall i: nat :: i < k && LastFailed(r, i, k, s.incarnation) ==> s.failedUntil == r.ops[i].at + 5_000_000_000
    ensures (forall i: nat :: i < k ==> !FailedAt(r, i, s.incarnation)) ==> s.failedUntil == ZERO_TIME
  {
    hide IsRun, Step, Inv, Legal, LastAfter, FailedAt, LastFailed;
    RunShape(r);
    if k > 0 {
      OneStep(r, k - 1);
      var p, op, last, inc := r.pools[k - 1], r.ops[k - 1], r.lasts[k - 1], s.incarnation;
      var before := FailStep(p, op, last, s);
      if inc <= last {
        FailedUntil(r, k - 1, before);
        FailedNow(r, k - 1, before);
        LastOrNow(r, k, inc);
      } else {
        NeverFailed(r, k, inc);
        LastHasFailed(r, k, inc);
      }
    } else {
      LastHasFailed(r, k, s.incarnation);
    }
  }

  lemma FailedNow(r: Run, k: nat, s: Slot)
    requires k < |r.ops| < |r.pools| && k < |r.lasts| && Inv(r.pools[k], r.lasts[k]) && s in r.pools[k].targets
    ensures FailedAt(r, k, s.incarnation) <==> r.ops[k].Fail? && r.ops[k].replica == s.t.replica
  {
    hide Inv;
    OnlyIncarnation(r.pools[k], r.lasts[k], s);
  }

  lemma LastOrNow(r: Run, k: nat, inc: int)
    requires 0 < k <= |r.ops| < |r.pools|
    ensures forall i: nat :: i < k && LastFailed(r, i, k, inc) ==>
      if FailedAt(r, k - 1, inc) then i == k - 1 else i < k - 1 && LastFailed(r, i, k - 1, inc)
  {
  }

  lemma LastHasFailed(r: Run, k: nat, inc: int)
    requires k <= |r.ops| < |r.pools|
    ensures forall i: nat :: i < k && LastFailed(r, i, k, inc) ==> FailedAt(r, i, inc)
  {
  }

  lemma NeverFailed(r: Run, k: nat, inc: int)
    requires IsRun(r) && 0 < k < |r.pools| && r.lasts[k - 1] < inc
    ensures forall i: nat :: i < k ==> !FailedAt(r, i, inc)
  {
    RunIsHistory(r);
    forall i: nat | i < k ensures !FailedAt(r, i, inc) {
      Monotone(r, i, k - 1);
      Reachable(r, i);
      forall t | t in r.pools[i].targets ensures t.incarnation != inc {
        assert SlotOk(t, r.pools[i].issued, r.lasts[i]);
      }
    }
  }

  lemma {:induction false} SomeLastFailed(r: Run, k: nat, inc: int) returns (i: nat)
    requires k <= |r.ops| < |r.pools| && exists j: nat :: j < k && FailedAt(r, j, inc)
    ensures LastFailed(r, i, k, inc)
  {
    i := k - 1;
    if !FailedAt(r, k - 1, inc) { i := SomeLastFailed(r, k - 1, inc); }
  }

  /** What a pick may return: active, not to be skipped, and not failed within the last five seconds. */
  ghost predicate MayPick(r: Run, k: nat, s: Slot, skip: seq<int>, now: Time)
    requires k <= |r.ops| < |r.pools|
  {
    && s.t.state == Active && s.t.replica !in skip
    && forall i: nat :: i < k && LastFailed(r, i, k, s.incarnation) ==> now >= r.ops[i].at + 5_000_000_000
  }

  lemma EligibleIff(r: Run, k: nat, s: Slot, skip: seq<int>, now: Time)
    requires IsRun(r) && k < |r.pools| && s in r.pools[k].targets && now >= ZERO_TIME
    ensures Eligible(s, skip, now) <==> MayPick(r, k, s, skip, now)
  {
    hide LastFailed, FailedAt;
    FailedUntil(r, k, s);
    if exists j: nat :: j < k && FailedAt(r, j, s.incarnation) {
      var i := SomeLastFailed(r, k, s.incarnation);
      LastIsBefore(r, i, k, s.incarnation);
    }
  }

  lemma LastIsBefore(r: Run, i: nat, k: nat, inc: int)
    requires k <= |r.ops| < |r.pools| && LastFailed(r, i, k, inc)
    ensures i < k
  {
  }

  /** In every reachable pool a pick returns a target it may, and fails only if there is none. */
  lemma PickReturnsWhatItMay(r: Run, k: nat, skip: seq<int>, now: Time)
    requires IsRun(r) && k < |r.pools| && now >= ZERO_TIME
    ensures var p, t := r.pools[k], Picked(r.pools[k], skip, now).target;
      && (t.Some? ==> exists s :: s in p.targets && t.value == s.t.(inflight := |s.conns|) && MayPick(r, k, s, skip, now))
      && (t.None? ==> forall s :: s in p.targets ==> !MayPick(r, k, s, skip, now))
  {
    var p := r.pools[k];
    forall s | s in p.targets ensures Eligible(s, skip, now) <==> MayPick(r, k, s, skip, now) {
      EligibleIff(r, k, s, skip, now);
    }
    Reachable(r, k);
    RoundRobin.PickFailsIffNoneEligible(p, skip, now);
    hide IsRun, MayPick, Eligible, Inv;
    var found := Scan(EligibleAt(p.targets, skip, now), p.next, 0);
    if found.Some? {
      var s := p.targets[found.value];
      assert s in p.targets && Eligible(s, skip, now);
    }
  }
}
