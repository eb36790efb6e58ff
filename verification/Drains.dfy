/** When a drain is over: over whole runs, how long a draining target's connections are left alone. */
module Drains {
  import opened Edge
  import opened Pool
  import opened PoolRuns
  import opened PoolTheorems

  /** The time of a push or a state mark. */
  ghost function When(op: Op): Time {
    match op
    case Install(_, _, _, now, _) => now
    case SetState(_, _, at, _) => at
    case _ => ZERO_TIME
  }

  // ----- one step

  ghost predicate GoesOnDraining(s: Slot, s': Slot) { s.Unreported() && s'.t.since == s.t.since }

  ghost predicate StartsDraining(op: Op, s: Slot, s': Slot) {
    s.t.state != Draining && (op.Install? || op.SetState?) && s'.t.since == When(op)
  }

  /** A drain not over after a step was going on before it, since the same time, or starts with it. */
  lemma DrainStep(p: Pool, op: Op, last: int, s': Slot) returns (s: Slot)
    requires Inv(p, last) && Legal(p, op, last) && s' in Step(p, op).pool.targets && s'.Unreported()
    ensures s in p.targets && s.incarnation == s'.incarnation && (GoesOnDraining(s, s') || StartsDraining(op, s, s'))
  {
    if op.Install? {
      var x, want := InstallOrigin(p, op, last, s');
      assert Kept(p.targets, want);
      s := p.targets[Find(p.targets, want.replica).value];
    } else {
      var q := Step(p, op).pool;
      SameLength(p, op);
      var i :| 0 <= i < |q.targets| && q.targets[i] == s';
      DrainAt(p, op, i);
      s := p.targets[i];
    }
  }

  lemma DrainAt(p: Pool, op: Op, i: nat)
    requires !op.Install? && i < |p.targets| && |Step(p, op).pool.targets| == |p.targets|
    requires Step(p, op).pool.targets[i].Unreported()
    ensures var s, s' := p.targets[i], Step(p, op).pool.targets[i];
      s.incarnation == s'.incarnation && (GoesOnDraining(s, s') || StartsDraining(op, s, s'))
  {
  }

  // ----- runs

  ghost predicate DrainingIn(p: Pool, inc: int) {
    exists s :: s in p.targets && s.incarnation == inc && s.t.state == Draining
  }

  /** Step `i` took the incarnation into draining, and it has been draining ever since, up to the pool before step `k`. */
  ghost predicate EnteredAt(r: Run, i: nat, k: nat, inc: int)
    requires k <= |r.ops| < |r.pools|
  {
    i < k && !DrainingIn(r.pools[i], inc) && forall j :: i < j <= k ==> DrainingIn(r.pools[j], inc)
  }

  /** A drain that is not over began with a push or a mark, and `since` is the time of it. */
  lemma {:induction false} DrainBegan(r: Run, k: nat, s: Slot) returns (i: nat)
    requires IsRun(r) && k < |r.pools| && s in r.pools[k].targets && s.Unreported()
    ensures EnteredAt(r, i, k, s.incarnation) && (r.ops[i].Install? || r.ops[i].SetState?) && s.t.since == When(r.ops[i])
  {
    hide IsRun, Step, Inv, Legal, LastAfter;
    RunShape(r);
    assert k > 0;
    OneStep(r, k - 1);
    var p, op, last := r.pools[k - 1], r.ops[k - 1], r.lasts[k - 1];
    var before := DrainStep(p, op, last, s);
    assert DrainingIn(r.pools[k], s.incarnation);
    if before.Unreported() {
      i := DrainBegan(r, k - 1, before);
    } else {
      i := k - 1;
      OnlyIncarnation(p, last, before);
      assert !DrainingIn(p, s.incarnation);
    }
  }

  lemma OneEntry(r: Run, i: nat, j: nat, k: nat, inc: int)
    requires k <= |r.ops| < |r.pools| && EnteredAt(r, i, k, inc) && EnteredAt(r, j, k, inc)
    ensures i == j
  {
  }

  /**
   Exactly when a sweep cuts: a drain that is not over is cut, all its connections at once and with
   one event that says so, if and only if the drain has passed since the step that took the target
   into draining. Before that the sweep leaves it as it is.
   */
  lemma CutIffOverdue(r: Run, i: nat, k: nat, s: Slot, now: Time)
    requires IsRun(r) && k < |r.pools| && s in r.pools[k].targets && s.Unreported() && EnteredAt(r, i, k, s.incarnation)
    ensures var p := r.pools[k]; var q := Swept(p, now);
      if now >= When(r.ops[i]) + p.drain
      then && (forall id :: !OpenOn(q.pool, s.incarnation, id))
           && Drained(p.host, s.t.(inflight := |s.conns|), true, now) in q.events
      else && s in q.pool.targets && (forall id :: id in s.conns ==> OpenOn(q.pool, s.incarnation, id))
           && DrainedCount(q.events, s.t.replica) == 0
  {
    var began := DrainBegan(r, k, s);
    OneEntry(r, i, began, k, s.incarnation);
    Reachable(r, k);
    var p := r.pools[k];
    hide IsRun, EnteredAt;
    var q := Swept(p, now).pool;
    var x :| 0 <= x < |p.targets| && p.targets[x] == s;
    CutCount(p.host, p.targets, p.drain, now, x);
    assert q.targets[x] == Cut(s, p.drain, now);
    if Overdue(s, p.drain, now) {
      SweepInv(p, now, r.lasts[k]);
      OnlyIncarnation(q, r.lasts[k], q.targets[x]);
      CutEventFor(p.host, p.targets, p.drain, now, x);
    }
  }

  lemma {:induction false} CutEventFor(host: string, slots: seq<Slot>, drain: int, now: Time, x: nat)
    requires x < |slots| && Overdue(slots[x], drain, now)
    ensures Drained(host, slots[x].t.(inflight := |slots[x].conns|), true, now) in CutEvents(host, slots, drain, now)
  {
    if x < |slots| - 1 { CutEventFor(host, slots[..|slots| - 1], drain, now, x); }
  }

  /** Nothing else is cut: a connection a sweep closes was of a target that entered draining at least the drain ago. */
  lemma CutsOnlyOverdue(r: Run, k: nat, inc: int, id: int) returns (i: nat)
    requires IsRun(r) && k < |r.ops| && r.ops[k].Sweep?
    requires OpenOn(r.pools[k], inc, id) && !OpenOn(r.pools[k + 1], inc, id)
    ensures EnteredAt(r, i, k, inc) && r.ops[k].now >= When(r.ops[i]) + r.pools[k].drain
  {
    var p, now := r.pools[k], r.ops[k].now;
    var s :| s in p.targets && s.incarnation == inc && id in s.conns;
    var x :| 0 <= x < |p.targets| && p.targets[x] == s;
    assert r.pools[k + 1].targets[x] == Cut(s, p.drain, now);
    assert Overdue(s, p.drain, now);
    i := DrainBegan(r, k, s);
  }

  // ----- every drain is reported

  /** Some step from `i` on, before `k`, returned the drained event of the incarnation. */
  ghost predicate ReportedBetween(r: Run, i: nat, k: nat, inc: int)
    requires IsRun(r) && k <= |r.ops|
  {
    exists j :: i <= j < k && Reports(r, j, inc)
  }

  /**
   A draining target is marked as reported if and only if its drained event was returned since it
   entered draining: a new drain starts unreported, whatever became of an earlier one.
   */
  lemma {:induction false} ReportedIff(r: Run, i: nat, k: nat, s: Slot)
    requires IsRun(r) && k < |r.pools| && s in r.pools[k].targets && EnteredAt(r, i, k, s.incarnation)
    ensures s.reported <==> ReportedBetween(r, i, k, s.incarnation)
    decreases k
  {
    hide IsRun, Step, Inv, Legal, LastAfter, Reports, DrainedCount;
    RunShape(r);
    OneStep(r, k - 1);
    var p, op, last, inc := r.pools[k - 1], r.ops[k - 1], r.lasts[k - 1], s.incarnation;
    assert DrainingIn(r.pools[k], inc);
    var d :| d in r.pools[k].targets && d.incarnation == inc && d.t.state == Draining;
    Reachable(r, k);
    OnlyIncarnation(r.pools[k], r.lasts[k], s);
    assert s.t.state == Draining;
    ReportsIff(r, k - 1, s);
    if i < k - 1 {
      assert DrainingIn(p, inc);
      var before :| before in p.targets && before.incarnation == inc && before.t.state == Draining;
      OnlyIncarnation(p, last, before);
      ReportedIff(r, i, k - 1, before);
      if before.reported { StaysReported(p, op, last, before, s); }
      assert WasDone(p, s) <==> before.reported;
    } else {
      assert !WasDone(p, s);
    }
  }

  lemma ReportsIff(r: Run, k: nat, s': Slot)
    requires IsRun(r) && k < |r.ops| && s' in r.pools[k + 1].targets
    ensures Reports(r, k, s'.incarnation) <==> Done(s') && !WasDone(r.pools[k], s')
  {
    OneStep(r, k);
    Reachable(r, k + 1);
    OnlyIncarnation(r.pools[k + 1], r.lasts[k + 1], s');
    DrainedExactly(r.pools[k], r.ops[k], r.lasts[k], s');
  }

  lemma StaysReported(p: Pool, op: Op, last: int, s: Slot, s': Slot)
    requires Inv(p, last) && Legal(p, op, last) && s in p.targets && s' in Step(p, op).pool.targets
    requires s.incarnation == s'.incarnation && Done(s) && s'.t.state == Draining
    ensures s'.reported
  {
    assert SlotOk(s, p.issued, last);
    var t := StepEvolves(p, op, last, s');
    OnlyIncarnation(p, last, s);
  }

  /** The end of the last connection reports the drain as over, with nothing in flight and no deadline. */
  lemma LastEndEvent(r: Run, k: nat, s: Slot, id: int, now: Time)
    requires IsRun(r) && k < |r.pools| && s in r.pools[k].targets && s.Unreported() && s.conns.Keys == {id}
    ensures Ended(r.pools[k], s.t.replica, id, now).events == [Drained(r.pools[k].host, s.t.(inflight := 0), false, now)]
  {
    Reachable(r, k);
    var p := r.pools[k];
    hide IsRun;
    var i :| 0 <= i < |p.targets| && p.targets[i] == s;
    assert Find(p.targets, s.t.replica) == Some(i);
    assert id in s.conns && (s.conns - {id}).Keys == {};
    assert Settles(s.(conns := s.conns - {id}));
  }

  // ----- how long

  /** The drain is the route's if it has one, else the edge's if it has one, else thirty seconds; as last pushed. */
  lemma {:induction false} DrainAsPushed(r: Run, k: nat, j: nat)
    requires IsRun(r) && j < k < |r.pools| && r.ops[j].Install? && forall l :: j < l < k ==> !r.ops[l].Install?
    ensures var d, route, edge := r.pools[k].drain, r.ops[j].route.drain, r.ops[j].optDrain;
      && (route > 0 ==> d == route) && (route <= 0 && edge > 0 ==> d == edge)
      && (route <= 0 && edge <= 0 ==> d == 30_000_000_000)
    decreases k
  {
    if j < k - 1 {
      DrainAsPushed(r, k - 1, j);
      DrainKept(r.pools[k - 1], r.ops[k - 1]);
    }
  }

  lemma DrainKept(p: Pool, op: Op)
    requires !op.Install?
    ensures Step(p, op).pool.drain == p.drain
  {
  }
}
