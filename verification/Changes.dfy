/** What a step of a pool reports of its targets: every new one and every change of state, once and as it now is. */
module Changes {
  import opened Edge
  import opened Pool
  import opened PoolRuns
  import opened Drains

  /** The events about a change of a replica, in order. */
  ghost function ChangesOf(events: seq<Event>, replica: int): seq<Event> {
    if events == [] then []
    else
      var e := events[|events| - 1];
      ChangesOf(events[..|events| - 1], replica) + if e.TargetChanged? && e.target.replica == replica then [e] else []
  }

  lemma {:induction false} ChangesConcat(a: seq<Event>, b: seq<Event>, replica: int)
    ensures ChangesOf(a + b, replica) == ChangesOf(a, replica) + ChangesOf(b, replica)
  {
    if b == [] {
      assert a + b == a;
    } else {
      ChangesConcat(a, b[..|b| - 1], replica);
      assert (a + b)[..|a + b| - 1] == a + b[..|b| - 1];
    }
  }

  lemma ChangesMore(events: seq<Event>, e: Event, replica: int)
    ensures ChangesOf(events + [e], replica)
         == ChangesOf(events, replica) + if e.TargetChanged? && e.target.replica == replica then [e] else []
  {
    assert (events + [e])[..|events|] == events;
  }

  /** The slot is a new incarnation, or its state was another one before the step. */
  ghost predicate IsChanged(p: Pool, s': Slot) {
    forall s :: s in p.targets && s.incarnation == s'.incarnation ==> s.t.state != s'.t.state
  }

  // ----- a push

  ghost predicate WantDiffers(slots: seq<Slot>, want: Target) {
    !Kept(slots, want) || slots[Find(slots, want.replica).value].t.state != want.state
  }

  lemma MergeOneMore(slots: seq<Slot>, wants: seq<Target>, host: string, now: Time, last: int)
    requires wants != []
    ensures var n := |wants| - 1;
      var m, all := MergeAll(slots, wants[..n], host, now, last), MergeAll(slots, wants, host, now, last);
      && all.slots[..n] == m.slots && all.slots[n].t.replica == wants[n].replica
      && all.events == m.events + if WantDiffers(slots, wants[n]) then [TargetChanged(host, all.slots[n].Live(), now)] else []
  {
    var n := |wants| - 1;
    var m, all := MergeAll(slots, wants[..n], host, now, last), MergeAll(slots, wants, host, now, last);
    assert m.events + [] == m.events;
    if !Kept(slots, wants[n]) { assert all.slots[n].Live() == all.slots[n].t; }
  }

  lemma {:induction false} MergeQuiet(slots: seq<Slot>, wants: seq<Target>, host: string, now: Time, last: int, replica: int)
    requires forall i :: 0 <= i < |wants| ==> wants[i].replica != replica
    ensures ChangesOf(MergeAll(slots, wants, host, now, last).events, replica) == []
  {
    if wants != [] {
      var n := |wants| - 1;
      MergeQuiet(slots, wants[..n], host, now, last, replica);
      var m, all := MergeAll(slots, wants[..n], host, now, last), MergeAll(slots, wants, host, now, last);
      MergeOneMore(slots, wants, host, now, last);
      hide MergeAll, ChangesOf;
      if WantDiffers(slots, wants[n]) {
        ChangesMore(m.events, TargetChanged(host, all.slots[n].Live(), now), replica);
      } else {
        assert all.events == m.events;
      }
    }
  }

  /** The merge reports a wanted target if it is new or in another state, as it will be. */
  lemma {:induction false} MergeReports(slots: seq<Slot>, wants: seq<Target>, host: string, now: Time, last: int, i: nat)
    requires i < |wants| && DistinctReplicas(wants)
    ensures var m := MergeAll(slots, wants, host, now, last);
      ChangesOf(m.events, wants[i].replica)
      == if WantDiffers(slots, wants[i]) then [TargetChanged(host, m.slots[i].Live(), now)] else []
  {
    hide MergeAll, ChangesOf, WantDiffers;
    var n := |wants| - 1;
    var m, all := MergeAll(slots, wants[..n], host, now, last), MergeAll(slots, wants, host, now, last);
    MergeOneMore(slots, wants, host, now, last);
    if i < n {
      MergeReports(slots, wants[..n], host, now, last, i);
      assert all.slots[i] == all.slots[..n][i];
    } else {
      MergeQuiet(slots, wants[..n], host, now, last, wants[n].replica);
    }
    MoreOrLess(m.events, all.events, WantDiffers(slots, wants[n]), TargetChanged(host, all.slots[n].Live(), now), wants[i].replica);
  }

  lemma MoreOrLess(events: seq<Event>, all: seq<Event>, more: bool, e: Event, replica: int)
    requires all == events + (if more then [e] else []) && e.TargetChanged?
    ensures ChangesOf(all, replica) == if more && e.target.replica == replica then ChangesOf(events, replica) + [e] else ChangesOf(events, replica)
  {
    hide ChangesOf;
    if more { ChangesMore(events, e, replica); } else { assert all == events; }
  }

  lemma {:induction false} SettleQuiet(host: string, slots: seq<Slot>, now: Time, replica: int)
    ensures ChangesOf(SettleEvents(host, slots, now), replica) == []
  {
    if slots != [] {
      var n := |slots| - 1;
      SettleQuiet(host, slots[..n], now, replica);
      if Settles(slots[n]) {
        ChangesMore(SettleEvents(host, slots[..n], now), DrainedEvent(host, Settle(slots[n]), false, 0, now), replica);
      } else {
        assert SettleEvents(host, slots, now) == SettleEvents(host, slots[..n], now);
      }
    }
  }

  lemma InstallReports(p: Pool, op: Op, last: int, s': Slot)
    requires Inv(p, last) && Legal(p, op, last) && op.Install? && s' in Step(p, op).pool.targets
    ensures ChangesOf(Step(p, op).events, s'.t.replica)
         == if IsChanged(p, s') then [TargetChanged(op.host, s'.t.(inflight := |s'.conns|), op.now)] else []
  {
    hide ChangesOf, IsChanged, Inv, Step, Installed;
    InstallParts(p, op);
    var m := MergeAll(p.targets, op.route.targets, op.host, op.now, op.last);
    InstallMembers(p, op.route, op.host, op.optDrain, op.now, op.last);
    var x :| x in m.slots && s' == Settle(x);
    var i :| 0 <= i < |m.slots| && m.slots[i] == x;
    MergeAt(p.targets, op.route.targets, op.host, op.now, op.last, i);
    MergeReports(p.targets, op.route.targets, op.host, op.now, op.last, i);
    var tail := SettleEvents(op.host, SortByReplica(m.slots), op.now);
    SettleQuiet(op.host, SortByReplica(m.slots), op.now, s'.t.replica);
    ChangesConcat(m.events, tail, s'.t.replica);
    MergedDiffers(p, op.route.targets[i], op.now, x, last, m.last);
    SettledSame(p, x);
  }

  lemma InstallParts(p: Pool, op: Op)
    requires op.Install?
    ensures Step(p, op) == Installed(p, op.route, op.host, op.optDrain, op.now, op.last)
    ensures var m := MergeAll(p.targets, op.route.targets, op.host, op.now, op.last);
      Step(p, op).events == m.events + SettleEvents(op.host, SortByReplica(m.slots), op.now)
  {
  }

  lemma SettledSame(p: Pool, x: Slot)
    ensures IsChanged(p, Settle(x)) <==> IsChanged(p, x)
  {
  }

  lemma MergedDiffers(p: Pool, want: Target, now: Time, x: Slot, last: int, hi: int)
    requires Inv(p, last) && (exists lo :: last <= lo && MergedFrom(p.targets, want, now, x, lo, hi))
    ensures x.t.replica == want.replica && (WantDiffers(p.targets, want) <==> IsChanged(p, x))
  {
    if Kept(p.targets, want) {
      var s := p.targets[Find(p.targets, want.replica).value];
      OnlyIncarnation(p, last, s);
    } else {
      forall s | s in p.targets ensures s.incarnation != x.incarnation { assert SlotOk(s, p.issued, last); }
    }
  }

  // ----- any step

  lemma {:induction false} CutQuiet(host: string, slots: seq<Slot>, drain: int, now: Time, replica: int)
    ensures ChangesOf(CutEvents(host, slots, drain, now), replica) == []
  {
    if slots != [] {
      var n := |slots| - 1;
      CutQuiet(host, slots[..n], drain, now, replica);
      if Overdue(slots[n], drain, now) {
        ChangesMore(CutEvents(host, slots[..n], drain, now),
                    DrainedEvent(host, Cut(slots[n], drain, now), true, |slots[n].conns|, now), replica);
      } else {
        assert CutEvents(host, slots, drain, now) == CutEvents(host, slots[..n], drain, now);
      }
    }
  }

  lemma MarkReports(p: Pool, op: Op, last: int, i: nat)
    requires Inv(p, last) && op.SetState? && i < |p.targets| && |Step(p, op).pool.targets| == |p.targets|
    ensures var s, s' := p.targets[i], Step(p, op).pool.targets[i];
      && s'.incarnation == s.incarnation
      && ChangesOf(Step(p, op).events, s'.t.replica)
         == if s.t.state != s'.t.state then [TargetChanged(p.host, s'.t.(inflight := |s'.conns|), op.at)] else []
  {
    var f, events := Find(p.targets, op.replica), Step(p, op).events;
    if f.Some? && op.state.Valid() && p.targets[f.value].t.state != op.state {
      var e := events[0];
      assert events[..1] == [e] && [e][..0] == [];
      if |events| > 1 {
        assert events == [e] + [events[1]];
        ChangesMore([e], events[1], p.targets[i].t.replica);
      } else {
        assert events == [e];
      }
      ChangesMore([], e, p.targets[i].t.replica);
      assert [] + [e] == [e];
    }
  }

  lemma OthersReportNothing(p: Pool, op: Op, i: nat, replica: int)
    requires !op.Install? && !op.SetState? && i < |p.targets| && |Step(p, op).pool.targets| == |p.targets|
    ensures ChangesOf(Step(p, op).events, replica) == []
    ensures var s, s' := p.targets[i], Step(p, op).pool.targets[i]; s'.incarnation == s.incarnation && s'.t.state == s.t.state
  {
    if op.Sweep? { CutQuiet(p.host, p.targets, p.drain, op.now, replica); }
  }

  /** A step reports a target if and only if it is new or its state changed: once, at its time, and as it now is. */
  lemma ChangedExactly(p: Pool, op: Op, last: int, s': Slot)
    requires Inv(p, last) && Legal(p, op, last) && s' in Step(p, op).pool.targets
    ensures ChangesOf(Step(p, op).events, s'.t.replica)
         == if IsChanged(p, s')
            then [TargetChanged(Step(p, op).pool.host, s'.t.(inflight := |s'.conns|), When(op))] else []
  {
    if op.Install? {
      InstallReports(p, op, last, s');
    } else {
      var q := Step(p, op).pool;
      SameLength(p, op);
      var i :| 0 <= i < |q.targets| && q.targets[i] == s';
      OnlyIncarnation(p, last, p.targets[i]);
      if op.SetState? {
        MarkReports(p, op, last, i);
        SameHost(p, op);
      } else {
        OthersReportNothing(p, op, i, s'.t.replica);
      }
    }
  }

  lemma SameHost(p: Pool, op: Op)
    requires !op.Install?
    ensures Step(p, op).pool.host == p.host
  {
  }
}
