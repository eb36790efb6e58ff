/** Theorems over whole runs of a pool: every sequence of legal steps from an empty pool. */
module PoolTheorems {
  import opened Edge
  import opened Pool
  import opened PoolRuns
  import opened Counters

  /** `pools[i]` is the pool before step `i`; `lasts[i]` the newest incarnation by then. */
  datatype Run = Run(pools: seq<Pool>, ops: seq<Op>, lasts: seq<int>)

  ghost predicate IsRun(r: Run) {
    && |r.pools| == |r.lasts| == |r.ops| + 1
    && r.pools[0] == EmptyPool()
    && forall i :: 0 <= i < |r.ops| ==>
         && Legal(r.pools[i], r.ops[i], r.lasts[i])
         && r.pools[i + 1] == Step(r.pools[i], r.ops[i]).pool
         && r.lasts[i + 1] == LastAfter(r.pools[i], r.ops[i], r.lasts[i])
  }

  /** A run seen only through what each step does to each slot. */
  ghost predicate IsHistory(r: Run) {
    && |r.pools| == |r.lasts| == |r.ops| + 1
    && r.pools[0].targets == []
    && forall i :: 0 <= i < |r.ops| ==> StepRel(r.pools[i], r.ops[i], r.lasts[i], r.pools[i + 1], r.lasts[i + 1])
  }

  lemma RunIsHistory(r: Run)
    requires IsRun(r)
    ensures IsHistory(r)
  {
    forall i | 0 <= i < |r.ops|
      ensures StepRel(r.pools[i], r.ops[i], r.lasts[i], r.pools[i + 1], r.lasts[i + 1])
    {
      Reachable(r, i);
      StepIsRel(r.pools[i], r.ops[i], r.lasts[i]);
    }
  }

  lemma {:induction false} Reachable(r: Run, k: nat)
    requires IsRun(r) && k < |r.pools|
    ensures Inv(r.pools[k], r.lasts[k])
  {
    if k > 0 {
      Reachable(r, k - 1);
      StepInv(r.pools[k - 1], r.ops[k - 1], r.lasts[k - 1]);
    }
  }

  lemma RunShape(r: Run)
    requires IsRun(r)
    ensures |r.pools| == |r.lasts| == |r.ops| + 1 && r.pools[0].targets == []
  {
  }

  lemma OneStep(r: Run, k: nat)
    requires IsRun(r) && k < |r.ops|
    ensures |r.pools| == |r.lasts| == |r.ops| + 1
    ensures var p, op, last := r.pools[k], r.ops[k], r.lasts[k];
      Inv(p, last) && Legal(p, op, last) && r.pools[k + 1] == Step(p, op).pool
  {
    Reachable(r, k);
  }

  /** The counters behind ids and incarnations only grow. */
  lemma {:induction false} Monotone(r: Run, i: nat, k: nat)
    requires IsHistory(r) && i <= k < |r.pools|
    ensures r.lasts[i] <= r.lasts[k] && r.pools[i].issued <= r.pools[k].issued
  {
    if i < k {
      Monotone(r, i, k - 1);
      assert StepRel(r.pools[k - 1], r.ops[k - 1], r.lasts[k - 1], r.pools[k], r.lasts[k]);
    }
  }

  // ----- draining episodes

  /** Step `i` returns a drained event for the target of incarnation `inc`. */
  ghost predicate Reports(r: Run, i: nat, inc: int)
    requires IsRun(r) && i < |r.ops|
  {
    exists s :: s in r.pools[i + 1].targets && s.incarnation == inc
             && DrainedCount(Step(r.pools[i], r.ops[i]).events, s.t.replica) > 0
  }

  /** In the pool before step `k`, incarnation `inc` is behind the route and not draining. */
  ghost predicate OutOfDrain(r: Run, k: nat, inc: int)
    requires k < |r.pools|
  {
    exists s :: s in r.pools[k].targets && s.incarnation == inc && s.t.state != Draining
  }

  ghost predicate IsDone(p: Pool, inc: int) {
    exists s :: s in p.targets && s.incarnation == inc && Done(s)
  }

  ghost predicate Present(p: Pool, inc: int) {
    exists s :: s in p.targets && s.incarnation == inc
  }

  /** Once reported, a target stays reported until it leaves draining; a dropped one never returns. */
  lemma {:induction false} StaysDone(r: Run, i: nat, k: nat, inc: int)
    requires IsHistory(r) && i <= k < |r.pools|
    requires IsDone(r.pools[i], inc) && Present(r.pools[k], inc)
    requires forall j :: i < j <= k ==> !OutOfDrain(r, j, inc)
    ensures IsDone(r.pools[k], inc)
    decreases k
  {
    hide Inv, Opens, Closes;
    if i < k {
      var p, op, last := r.pools[k - 1], r.ops[k - 1], r.lasts[k - 1];
      KnownLater(r, i, k - 1, inc);
      assert StepRel(p, op, last, r.pools[k], r.lasts[k]);
      var s' :| s' in r.pools[k].targets && s'.incarnation == inc;
      var s :| s in p.targets && Evolves(p, op, s, s');
      assert Present(p, inc);
      StaysDone(r, i, k - 1, inc);
      OnlyIncarnation(p, last, s);
      assert !OutOfDrain(r, k, inc);
      assert s'.t.state == Draining && Done(s);
    }
  }

  lemma KnownLater(r: Run, i: nat, k: nat, inc: int)
    requires IsHistory(r) && i <= k < |r.ops| && Present(r.pools[i], inc)
    ensures inc <= r.lasts[k]
  {
    Monotone(r, i, k);
    assert StepRel(r.pools[i], r.ops[i], r.lasts[i], r.pools[i + 1], r.lasts[i + 1]);
    var s :| s in r.pools[i].targets && s.incarnation == inc;
    assert SlotOk(s, r.pools[i].issued, r.lasts[i]);
  }

  /**
   Each draining episode is reported at most once: between two reports of the same incarnation
   the target was seen out of draining, and a single step reports it at most once.
   */
  lemma OncePerEpisode(r: Run, i: nat, j: nat, inc: int)
    requires IsRun(r) && i < j < |r.ops|
    requires Reports(r, i, inc) && Reports(r, j, inc)
    ensures exists k :: i < k <= j && OutOfDrain(r, k, inc)
  {
    Reachable(r, i);
    Reachable(r, j);
    var s :| s in r.pools[i + 1].targets && s.incarnation == inc
          && DrainedCount(Step(r.pools[i], r.ops[i]).events, s.t.replica) > 0;
    DrainedExactly(r.pools[i], r.ops[i], r.lasts[i], s);
    assert IsDone(r.pools[i + 1], inc);
    var t :| t in r.pools[j + 1].targets && t.incarnation == inc
          && DrainedCount(Step(r.pools[j], r.ops[j]).events, t.t.replica) > 0;
    DrainedExactly(r.pools[j], r.ops[j], r.lasts[j], t);
    if forall k :: i < k <= j ==> !OutOfDrain(r, k, inc) {
      RunIsHistory(r);
      KnownLater(r, i + 1, j, inc);
      var u := StepEvolves(r.pools[j], r.ops[j], r.lasts[j], t);
      assert Present(r.pools[j], inc);
      StaysDone(r, i + 1, j, inc);
      assert WasDone(r.pools[j], t);
    }
  }

  /** A single step never returns two drained events for one target. */
  lemma OncePerStep(r: Run, i: nat, s: Slot)
    requires IsRun(r) && i < |r.ops| && s in r.pools[i + 1].targets
    ensures DrainedCount(Step(r.pools[i], r.ops[i]).events, s.t.replica) <= 1
  {
    Reachable(r, i);
    DrainedExactly(r.pools[i], r.ops[i], r.lasts[i], s);
  }

  /**
   No episode is forgotten: a draining target not yet reported has a connection open, the end of
   its last one reports it, and so does a sweep at its deadline.
   */
  lemma EveryDrainEnds(r: Run, k: nat, i: nat, now: Time)
    requires IsRun(r) && k < |r.pools| && i < |r.pools[k].targets|
    requires r.pools[k].targets[i].Unreported()
    ensures var p := r.pools[k]; var s := p.targets[i];
      && s.conns != map[]
      && (forall id :: s.conns.Keys == {id} ==> DrainedCount(Ended(p, s.t.replica, id, now).events, s.t.replica) == 1)
      && (now - s.t.since >= p.drain ==> DrainedCount(Swept(p, now).events, s.t.replica) == 1)
  {
    Reachable(r, k);
    var p := r.pools[k];
    var s := p.targets[i];
    assert SlotOk(s, p.issued, r.lasts[k]);
    CutCount(p.host, p.targets, p.drain, now, i);
    forall id | s.conns.Keys == {id}
      ensures DrainedCount(Ended(p, s.t.replica, id, now).events, s.t.replica) == 1
    {
      LastEndReports(p, r.lasts[k], i, id, now);
    }
  }

  lemma LastEndReports(p: Pool, last: int, i: nat, id: int, now: Time)
    requires Inv(p, last) && i < |p.targets| && p.targets[i].Unreported()
    requires p.targets[i].conns.Keys == {id}
    ensures DrainedCount(Ended(p, p.targets[i].t.replica, id, now).events, p.targets[i].t.replica) == 1
  {
    var s := p.targets[i];
    assert Find(p.targets, s.t.replica) == Some(i);
    assert id in s.conns && (s.conns - {id}).Keys == {};
    assert Settles(s.(conns := s.conns - {id}));
    var e := Released(p, i, id, now).events;
    assert e == [DrainedEvent(p.host, Settle(s.(conns := s.conns - {id})), false, 0, now)];
    assert DrainedCount(e[..0], s.t.replica) == 0;
  }

  // ----- connection ids

  ghost predicate OpenOn(p: Pool, inc: int, id: int) {
    exists s :: s in p.targets && s.incarnation == inc && id in s.conns
  }

  /** Step `i` issued `id` on incarnation `inc`. */
  ghost predicate IssuedAt(r: Run, i: nat, inc: int, id: int)
    requires i < |r.ops| < |r.pools|
  {
    exists s :: s in r.pools[i].targets && s.incarnation == inc && Opens(r.pools[i], r.ops[i], s, id)
  }

  /** Step `i` closed `id` on incarnation `inc`: it was ended there, or cut at the drain deadline. */
  ghost predicate ClosedAt(r: Run, i: nat, inc: int, id: int)
    requires i < |r.ops| < |r.pools|
  {
    exists s :: s in r.pools[i].targets && s.incarnation == inc && Closes(r.pools[i], r.ops[i], s, id)
  }

  /** Some step before `k` issued the id on the incarnation, and no later one closed it. */
  ghost predicate BegunNotClosed(r: Run, k: nat, inc: int, id: int)
    requires k <= |r.ops| < |r.pools|
  {
    exists i :: 0 <= i < k && IssuedAt(r, i, inc, id) && forall j :: i < j < k ==> !ClosedAt(r, j, inc, id)
  }

  /**
   While a target is behind the route, its open ids are exactly those begun on its incarnation and
   neither ended nor cut since. An install that drops it drops its ids with it.
   */
  lemma OpenIsBegunNotClosed(r: Run, k: nat, inc: int, id: int)
    requires IsRun(r) && k < |r.pools| && Present(r.pools[k], inc)
    ensures OpenOn(r.pools[k], inc, id) <==> BegunNotClosed(r, k, inc, id)
  {
    RunIsHistory(r);
    OpenInHistory(r, k, inc, id);
  }

  lemma {:induction false} OpenInHistory(r: Run, k: nat, inc: int, id: int)
    requires IsHistory(r) && k < |r.pools| && Present(r.pools[k], inc)
    ensures OpenOn(r.pools[k], inc, id) <==> BegunNotClosed(r, k, inc, id)
  {
    hide Inv, BegunNotClosed, Opens, Closes, Done;
    if k > 0 {
      var p, op, last := r.pools[k - 1], r.ops[k - 1], r.lasts[k - 1];
      assert StepRel(p, op, last, r.pools[k], r.lasts[k]);
      var s' :| s' in r.pools[k].targets && s'.incarnation == inc;
      OnlyIncarnation(r.pools[k], r.lasts[k], s');
      assert OpenOn(r.pools[k], inc, id) <==> id in s'.conns;
      if inc <= last {
        var s :| s in p.targets && Evolves(p, op, s, s');
        OnlyIncarnation(p, last, s);
        assert Present(p, inc);
        OpenInHistory(r, k - 1, inc, id);
        assert OpenOn(p, inc, id) <==> id in s.conns;
        OneMoreStep(r, k, inc, id, s);
        OpensOrCloses(p, op, s, id);
      } else {
        NotIssuedBefore(r, k, inc, id);
      }
    }
  }

  lemma OpensOrCloses(p: Pool, op: Op, s: Slot, id: int)
    ensures !(Opens(p, op, s, id) && Closes(p, op, s, id))
  {
  }

  lemma NotIssuedBefore(r: Run, k: nat, inc: int, id: int)
    requires IsHistory(r) && 0 < k < |r.pools| && r.lasts[k - 1] < inc
    ensures !BegunNotClosed(r, k, inc, id)
  {
    forall i | 0 <= i < k ensures !IssuedAt(r, i, inc, id) {
      Monotone(r, i, k - 1);
      assert StepRel(r.pools[i], r.ops[i], r.lasts[i], r.pools[i + 1], r.lasts[i + 1]);
      forall t | t in r.pools[i].targets ensures t.incarnation != inc {
        assert SlotOk(t, r.pools[i].issued, r.lasts[i]);
      }
    }
  }

  lemma OneMoreStep(r: Run, k: nat, inc: int, id: int, s: Slot)
    requires 0 < k <= |r.ops| < |r.pools|
    requires s in r.pools[k - 1].targets && s.incarnation == inc
    requires forall t :: t in r.pools[k - 1].targets && t.incarnation == inc ==> t == s
    ensures var p, op := r.pools[k - 1], r.ops[k - 1];
      BegunNotClosed(r, k, inc, id)
      <==> Opens(p, op, s, id) || (BegunNotClosed(r, k - 1, inc, id) && !Closes(p, op, s, id))
  {
    var p, op := r.pools[k - 1], r.ops[k - 1];
    assert IssuedAt(r, k - 1, inc, id) <==> Opens(p, op, s, id);
    assert ClosedAt(r, k - 1, inc, id) <==> Closes(p, op, s, id);
    if BegunNotClosed(r, k - 1, inc, id) && !Closes(p, op, s, id) {
      var i :| 0 <= i < k - 1 && IssuedAt(r, i, inc, id) && forall j :: i < j < k - 1 ==> !ClosedAt(r, j, inc, id);
      assert forall j :: i < j < k ==> !ClosedAt(r, j, inc, id);
    }
  }

  /** An id never comes back: issued and not open anywhere now, it is open nowhere later. */
  lemma NeverReused(r: Run, i: nat, k: nat, inc: int, id: int)
    requires IsRun(r) && i <= k < |r.pools|
    requires id <= r.pools[i].issued && forall c :: !OpenOn(r.pools[i], c, id)
    ensures !OpenOn(r.pools[k], inc, id)
  {
    RunIsHistory(r);
    StaysClosed(r, i, k, inc, id);
  }

  lemma {:induction false} StaysClosed(r: Run, i: nat, k: nat, inc: int, id: int)
    requires IsHistory(r) && i <= k < |r.pools|
    requires id <= r.pools[i].issued && forall c :: !OpenOn(r.pools[i], c, id)
    ensures !OpenOn(r.pools[k], inc, id)
    decreases k
  {
    if i < k {
      var p, op, last := r.pools[k - 1], r.ops[k - 1], r.lasts[k - 1];
      Monotone(r, i, k - 1);
      StaysClosed(r, i, k - 1, inc, id);
      assert StepRel(p, op, last, r.pools[k], r.lasts[k]);
      StepStaysClosed(p, op, last, r.pools[k], r.lasts[k], inc, id);
    }
  }

  lemma StepStaysClosed(p: Pool, op: Op, last: int, q: Pool, last': int, inc: int, id: int)
    requires StepRel(p, op, last, q, last') && id <= p.issued && !OpenOn(p, inc, id)
    ensures !OpenOn(q, inc, id)
  {
    forall s' | s' in q.targets && s'.incarnation == inc ensures id !in s'.conns {
      if inc <= last {
        var s :| s in p.targets && Evolves(p, op, s, s');
        assert id in s.conns ==> OpenOn(p, inc, id);
      }
    }
  }

  /**
   A late end is harmless. An id begun on an incarnation which is gone, or no longer open there,
   changes nothing and reports nothing, whatever now holds the replica index.
   */
  lemma LateEndIsHarmless(r: Run, i: nat, k: nat, inc: int, id: int, replica: int, at: Time)
    requires IsRun(r) && i < k < |r.pools|
    requires IssuedAt(r, i, inc, id) && !OpenOn(r.pools[k], inc, id)
    ensures Ended(r.pools[k], replica, id, at) == Stepped(r.pools[k], [])
  {
    RunIsHistory(r);
    OnlyOnItsIncarnation(r, i, k, inc, id);
  }

  /** An id issued on one incarnation is never open on another. */
  lemma {:induction false} OnlyOnItsIncarnation(r: Run, i: nat, k: nat, inc: int, id: int)
    requires IsHistory(r) && i < k < |r.pools| && IssuedAt(r, i, inc, id)
    ensures forall s :: s in r.pools[k].targets && id in s.conns ==> s.incarnation == inc
    decreases k
  {
    var p, op, last := r.pools[k - 1], r.ops[k - 1], r.lasts[k - 1];
    assert StepRel(p, op, last, r.pools[k], r.lasts[k]);
    if i == k - 1 {
      var o :| o in p.targets && o.incarnation == inc && Opens(p, op, o, id);
      OpenedOnce(p, op, last, r.pools[k], r.lasts[k], o, id);
    } else {
      OnlyOnItsIncarnation(r, i, k - 1, inc, id);
      Monotone(r, i + 1, k - 1);
      assert StepRel(r.pools[i], r.ops[i], r.lasts[i], r.pools[i + 1], r.lasts[i + 1]);
      StaysOnIncarnation(p, op, last, r.pools[k], r.lasts[k], inc, id);
    }
  }

  lemma StaysOnIncarnation(p: Pool, op: Op, last: int, q: Pool, last': int, inc: int, id: int)
    requires StepRel(p, op, last, q, last') && id <= p.issued
    requires forall s :: s in p.targets && id in s.conns ==> s.incarnation == inc
    ensures forall s' :: s' in q.targets && id in s'.conns ==> s'.incarnation == inc
  {
    forall s' | s' in q.targets && id in s'.conns ensures s'.incarnation == inc {
      var s :| s in p.targets && Evolves(p, op, s, s');
      assert id in s.conns;
    }
  }

  lemma OpenedOnce(p: Pool, op: Op, last: int, q: Pool, last': int, o: Slot, id: int)
    requires StepRel(p, op, last, q, last') && o in p.targets && Opens(p, op, o, id)
    ensures forall s' :: s' in q.targets && id in s'.conns ==> s'.incarnation == o.incarnation
  {
    forall s' | s' in q.targets && id in s'.conns ensures s'.incarnation == o.incarnation {
      var s :| s in p.targets && Evolves(p, op, s, s');
      assert SlotOk(s, p.issued, last);
      SameReplica(p, last, s, o);
    }
  }

  lemma SameReplica(p: Pool, last: int, s: Slot, t: Slot)
    requires Inv(p, last) && s in p.targets && t in p.targets
    ensures s.t.replica == t.t.replica ==> s == t
  {
  }

  // ----- counters

  /** The plain request log of a run up to step `k`. */
  ghost function LogOf(r: Run, k: nat): seq<Entry>
    requires k <= |r.ops| < |r.pools|
  {
    if k == 0 then [] else LogOf(r, k - 1) + EntriesOf(r.pools[k - 1], r.ops[k - 1])
  }

  lemma {:induction false} RunAgrees(r: Run, k: nat)
    requires IsRun(r) && k < |r.pools|
    ensures Agrees(r.pools[k], LogOf(r, k), r.lasts[k])
  {
    if k > 0 {
      RunAgrees(r, k - 1);
      Reachable(r, k - 1);
      StepAgrees(r.pools[k - 1], r.ops[k - 1], LogOf(r, k - 1), r.lasts[k - 1]);
    }
  }

  /**
   In every reachable pool, what `counts` answers is the plain count of the request log from the
   chosen install on: per live target, for unrouted requests, and in total.
   */
  lemma CountsMatchTheLog(r: Run, k: nat, since: Time)
    requires IsRun(r) && k < |r.pools|
    ensures |r.pools[k].marks| == |Kepts(LogOf(r, k))|
    ensures Faithful(r.pools[k], CountsOf(r.pools[k], since), Window(LogOf(r, k), r.pools[k], since))
  {
    RunAgrees(r, k);
    Reachable(r, k);
    CountsAreFaithful(r.pools[k], LogOf(r, k), r.lasts[k], since);
  }

  /** The marks kept are of the last sixty-four installs, or of all of them if there were fewer. */
  lemma MarksKept(r: Run, k: nat)
    requires IsRun(r) && k < |r.pools|
    ensures var n, marks, snaps, log := |Snaps(LogOf(r, k))|, r.pools[k].marks, Snaps(LogOf(r, k)), LogOf(r, k);
      && |marks| == (if n < 64 then n else 64)
      && forall i :: 0 <= i < |marks| ==> marks[i].at == log[snaps[n - |marks| + i]].at
  {
    hide IsRun, LogOf;
    RunShape(r);
    RunAgrees(r, k);
    MarksOf(r.pools[k], LogOf(r, k), r.lasts[k]);
  }

  lemma MarksOf(p: Pool, log: seq<Entry>, last: int)
    requires Agrees(p, log, last)
    ensures var n, snaps := |Snaps(log)|, Snaps(log);
      && |p.marks| == (if n < 64 then n else 64)
      && forall i :: 0 <= i < |p.marks| ==> p.marks[i].at == log[snaps[n - |p.marks| + i]].at
  {
    hide Tally, KnownOnly, SlotCounts, MarkKnown, MarkFits;
    forall i | 0 <= i < |p.marks| ensures p.marks[i].at == log[Kepts(log)[i]].at {
      assert MarkAgrees(p.marks[i], log, Kepts(log)[i], p.targets);
    }
  }

  /** The clamps never fire: no mark of a reachable pool holds more than its slot counts now. */
  lemma ClampsNeverFire(r: Run, k: nat, m: nat, s: Slot, n: Number)
    requires IsRun(r) && k < |r.pools| && s in r.pools[k].targets && m < |r.pools[k].marks|
    ensures n.Of(r.pools[k].marks[m].unrouted) <= n.Of(r.pools[k].unrouted)
    ensures var per := r.pools[k].marks[m].per;
      s.t.replica in per && per[s.t.replica].incarnation == s.incarnation
      ==> n.Of(per[s.t.replica].counted) <= n.Of(s.counted)
  {
    RunAgrees(r, k);
    var p, log := r.pools[k], LogOf(r, k);
    var pos := Kepts(log)[m];
    assert MarkAgrees(p.marks[m], log, pos, p.targets);
    assert MarkFits(p.marks[m], log, pos, s) && SlotCounts(s, log);
    SubSplits(log, pos, None);
    SubSplits(log, pos, Some(s.incarnation));
    TallyBounds(log[pos..], None);
    TallyBounds(log[pos..], Some(s.incarnation));
  }
}
