/** What every interleaving of pool steps keeps: ids, incarnations and draining episodes. */
module PoolRuns {
  import opened Edge
  import opened Pool

  // ----- the invariant of a pool

  ghost predicate Ordered(slots: seq<Slot>) {
    forall i, j :: 0 <= i < j < |slots| ==> slots[i].t.replica < slots[j].t.replica
  }

  /** Different replicas share neither an incarnation nor a connection id. */
  ghost predicate SlotsApart(s: Slot, t: Slot) {
    s.t.replica != t.t.replica ==>
      s.incarnation != t.incarnation && forall id :: id in s.conns ==> id !in t.conns
  }

  /** What holds of one slot: its ids were issued, and an unreported drain has one open. */
  ghost predicate SlotOk(s: Slot, issued: nat, last: int) {
    && s.incarnation <= last
    && (forall id :: id in s.conns ==> 1 <= id <= issued)
    && (s.Unreported() ==> |s.conns| > 0)
  }

  /** `last` is the newest incarnation handed out by the process. */
  ghost predicate Inv(p: Pool, last: int) {
    && Ordered(p.targets)
    && (forall s :: s in p.targets ==> SlotOk(s, p.issued, last))
    && (forall s, t :: s in p.targets && t in p.targets ==> SlotsApart(s, t))
    && (p.next == 0 || p.next < |p.targets|)
  }

  /** A table reaches a pool only after validation, so a push names a replica once. */
  ghost predicate Legal(p: Pool, op: Op, last: int) {
    op.Install? ==> DistinctReplicas(op.route.targets) && last <= op.last
  }

  ghost function LastAfter(p: Pool, op: Op, last: int): int {
    if op.Install? then MergeAll(p.targets, op.route.targets, op.host, op.now, op.last).last else last
  }

  // ----- sorting

  lemma {:induction false} InsertOrdered(slots: seq<Slot>, s: Slot)
    requires Ordered(slots)
    requires forall x :: x in slots ==> x.t.replica != s.t.replica
    ensures Ordered(Insert(slots, s))
  {
    if slots != [] && slots[0].t.replica <= s.t.replica {
      var rest := Insert(slots[1..], s);
      InsertOrdered(slots[1..], s);
      forall x | x in rest ensures slots[0].t.replica < x.t.replica {
        assert x in multiset(rest);
        assert x == s || x in slots[1..];
      }
    }
  }

  lemma {:induction false} SortOrdered(slots: seq<Slot>)
    requires Distinct(slots)
    ensures Ordered(SortByReplica(slots))
  {
    if slots != [] {
      var init := slots[..|slots| - 1];
      SortOrdered(init);
      forall x | x in SortByReplica(init) ensures x.t.replica != slots[|slots| - 1].t.replica {
        assert x in multiset(SortByReplica(init));
      }
      InsertOrdered(SortByReplica(init), slots[|slots| - 1]);
    }
  }

  lemma SortMembers(slots: seq<Slot>)
    ensures |SortByReplica(slots)| == |slots|
    ensures forall x :: x in SortByReplica(slots) <==> x in slots
  {
    var r := SortByReplica(slots);
    assert |multiset(r)| == |multiset(slots)|;
    forall x ensures x in r <==> x in slots {
      assert x in multiset(r) <==> x in multiset(slots);
    }
  }

  // ----- merging

  /** A merged slot is the one kept at the wanted port, or a new incarnation in (lo, hi]. */
  ghost predicate MergedFrom(slots: seq<Slot>, want: Target, now: Time, x: Slot, lo: int, hi: int) {
    if Kept(slots, want) then x == KeptSlot(slots[Find(slots, want.replica).value], want, now)
    else x == FreshSlot(want, now, x.incarnation) && lo < x.incarnation <= hi
  }

  lemma {:induction false} MergeAt(slots: seq<Slot>, wants: seq<Target>, host: string, now: Time, last: int, i: nat)
    requires i < |wants|
    ensures var m := MergeAll(slots, wants, host, now, last);
      MergedFrom(slots, wants[i], now, m.slots[i], last, m.last)
  {
    var n := |wants| - 1;
    if i < n {
      MergeAt(slots, wants[..n], host, now, last, i);
    }
  }

  lemma {:induction false} MergeNumbers(slots: seq<Slot>, wants: seq<Target>, host: string, now: Time, last: int,
                                        i: nat, j: nat)
    requires i < j < |wants| && !Kept(slots, wants[i]) && !Kept(slots, wants[j])
    ensures var m := MergeAll(slots, wants, host, now, last);
      m.slots[i].incarnation < m.slots[j].incarnation
  {
    var n := |wants| - 1;
    if j < n {
      MergeNumbers(slots, wants[..n], host, now, last, i, j);
    } else {
      MergeAt(slots, wants[..n], host, now, last, i);
    }
  }

  /** The slots of a merge satisfy the invariant up to the drains still to be settled. */
  lemma MergeInv(p: Pool, wants: seq<Target>, host: string, now: Time, before: int, last: int)
    requires Inv(p, before) && before <= last
    requires DistinctReplicas(wants)
    ensures var m := MergeAll(p.targets, wants, host, now, last);
      && Distinct(m.slots)
      && (forall s :: s in m.slots ==> SlotOk(Settle(s), p.issued, m.last))
      && (forall s, t :: s in m.slots && t in m.slots ==> SlotsApart(s, t))
  {
    var m := MergeAll(p.targets, wants, host, now, last);
    forall i | 0 <= i < |wants|
      ensures m.slots[i].t.replica == wants[i].replica && SlotOk(Settle(m.slots[i]), p.issued, m.last)
    {
      MergeAt(p.targets, wants, host, now, last, i);
      MergedOk(p, wants[i], now, m.slots[i], before, last, m.last);
    }
    forall i, j | 0 <= i < |wants| && 0 <= j < |wants| ensures SlotsApart(m.slots[i], m.slots[j]) {
      if i != j {
        ApartAt(p, wants, host, now, before, last, i, j);
      }
    }
  }

  lemma MergedOk(p: Pool, want: Target, now: Time, x: Slot, before: int, last: int, hi: int)
    requires Inv(p, before) && before <= last <= hi && MergedFrom(p.targets, want, now, x, last, hi)
    ensures x.t.replica == want.replica && SlotOk(Settle(x), p.issued, hi)
  {
    if Kept(p.targets, want) {
      assert SlotOk(p.targets[Find(p.targets, want.replica).value], p.issued, before);
      assert |x.conns| == 0 <==> x.conns == map[];
    }
  }

  lemma ApartAt(p: Pool, wants: seq<Target>, host: string, now: Time, before: int, last: int, i: nat, j: nat)
    requires Inv(p, before) && before <= last
    requires i < |wants| && j < |wants| && i != j && DistinctReplicas(wants)
    ensures var m := MergeAll(p.targets, wants, host, now, last); SlotsApart(m.slots[i], m.slots[j])
  {
    MergeAt(p.targets, wants, host, now, last, i);
    MergeAt(p.targets, wants, host, now, last, j);
    if Kept(p.targets, wants[i]) {
      var o := p.targets[Find(p.targets, wants[i].replica).value];
      assert SlotOk(o, p.issued, before);
      if Kept(p.targets, wants[j]) {
        assert SlotsApart(o, p.targets[Find(p.targets, wants[j].replica).value]);
      }
    } else if Kept(p.targets, wants[j]) {
      assert SlotOk(p.targets[Find(p.targets, wants[j].replica).value], p.issued, before);
    } else if i < j {
      MergeNumbers(p.targets, wants, host, now, last, i, j);
    } else {
      MergeNumbers(p.targets, wants, host, now, last, j, i);
    }
  }

  /** The slots after an install are the merged ones, settled: nothing is added or lost. */
  lemma InstallMembers(p: Pool, r: Route, host: string, optDrain: int, now: Time, last: int)
    ensures var m := MergeAll(p.targets, r.targets, host, now, last).slots;
      var q := Installed(p, r, host, optDrain, now, last).pool;
      && |q.targets| == |m|
      && (forall x :: x in m ==> Settle(x) in q.targets)
      && (forall y :: y in q.targets ==> exists x :: x in m && y == Settle(x))
  {
    var m := MergeAll(p.targets, r.targets, host, now, last).slots;
    SortMembers(m);
    SettleMembers(SortByReplica(m));
  }

  lemma SettleMembers(slots: seq<Slot>)
    ensures forall x :: x in slots ==> Settle(x) in SettleAll(slots)
    ensures forall y :: y in SettleAll(slots) ==> exists x :: x in slots && y == Settle(x)
  {
    forall x | x in slots ensures Settle(x) in SettleAll(slots) {
      var i :| 0 <= i < |slots| && slots[i] == x;
      assert SettleAll(slots)[i] == Settle(x);
    }
    forall y | y in SettleAll(slots) ensures exists x :: x in slots && y == Settle(x) {
      var i :| 0 <= i < |slots| && SettleAll(slots)[i] == y;
      assert slots[i] in slots;
    }
  }

  lemma InstallInv(p: Pool, r: Route, host: string, optDrain: int, now: Time, before: int, last: int)
    requires Inv(p, before) && before <= last
    requires DistinctReplicas(r.targets)
    ensures var q := Installed(p, r, host, optDrain, now, last).pool;
      Inv(q, MergeAll(p.targets, r.targets, host, now, last).last)
  {
    var m := MergeAll(p.targets, r.targets, host, now, last);
    MergeInv(p, r.targets, host, now, before, last);
    SortOrdered(m.slots);
    SortMembers(m.slots);
    SettledInv(SortByReplica(m.slots), p.issued, m.last);
  }

  lemma SettledInv(slots: seq<Slot>, issued: nat, last: int)
    requires Ordered(slots)
    requires forall s :: s in slots ==> SlotOk(Settle(s), issued, last)
    requires forall s, t :: s in slots && t in slots ==> SlotsApart(s, t)
    ensures var r := SettleAll(slots);
      && Ordered(r)
      && (forall s :: s in r ==> SlotOk(s, issued, last))
      && (forall s, t :: s in r && t in r ==> SlotsApart(s, t))
  {
    var r := SettleAll(slots);
    forall s, t | s in r && t in r ensures SlotsApart(s, t) {
      var i :| 0 <= i < |r| && r[i] == s;
      var j :| 0 <= j < |r| && r[j] == t;
      assert SlotsApart(slots[i], slots[j]);
    }
    forall s | s in r ensures SlotOk(s, issued, last) {
      var i :| 0 <= i < |r| && r[i] == s;
      assert SlotOk(Settle(slots[i]), issued, last);
    }
  }

  // ----- steps that touch one slot

  /** Replacing one slot by another of the same replica keeps the invariant if its ids stay its own. */
  lemma UpdateInv(p: Pool, q: Pool, i: nat, s: Slot, last: int)
    requires Inv(p, last) && i < |p.targets|
    requires q == p.(targets := p.targets[i := s], issued := q.issued) && p.issued <= q.issued
    requires s.t.replica == p.targets[i].t.replica && s.incarnation == p.targets[i].incarnation
    requires SlotOk(s, q.issued, last)
    requires forall id :: id in s.conns ==> id in p.targets[i].conns || id > p.issued
    ensures Inv(q, last)
  {
    forall t | t in q.targets ensures SlotOk(t, q.issued, last) {
      assert t == s || t in p.targets;
    }
    forall t, u | t in q.targets && u in q.targets ensures SlotsApart(t, u) {
      var j :| 0 <= j < |q.targets| && q.targets[j] == t;
      var k :| 0 <= k < |q.targets| && q.targets[k] == u;
      assert SlotsApart(p.targets[j], p.targets[k]);
      assert SlotOk(p.targets[j], p.issued, last) && SlotOk(p.targets[k], p.issued, last);
    }
  }

  lemma BeginInv(p: Pool, replica: int, cancellable: bool, last: int)
    requires Inv(p, last)
    ensures Inv(Opened(p, replica, cancellable), last)
  {
    var q := Opened(p, replica, cancellable);
    var i := Find(p.targets, replica);
    if i.Some? {
      assert SlotOk(p.targets[i.value], p.issued, last);
      assert p.issued + 1 in q.targets[i.value].conns;
      UpdateInv(p, q, i.value, q.targets[i.value], last);
    }
  }

  lemma SweepInv(p: Pool, now: Time, last: int)
    requires Inv(p, last)
    ensures Inv(Swept(p, now).pool, last)
  {
    var q := Swept(p, now).pool;
    forall s | s in q.targets ensures SlotOk(s, q.issued, last) {
      var i :| 0 <= i < |q.targets| && q.targets[i] == s;
      assert SlotOk(p.targets[i], p.issued, last);
    }
    forall s, t | s in q.targets && t in q.targets ensures SlotsApart(s, t) {
      var i :| 0 <= i < |q.targets| && q.targets[i] == s;
      var j :| 0 <= j < |q.targets| && q.targets[j] == t;
      assert SlotsApart(p.targets[i], p.targets[j]);
    }
  }

  lemma StepInv(p: Pool, op: Op, last: int)
    requires Inv(p, last) && Legal(p, op, last)
    ensures Inv(Step(p, op).pool, LastAfter(p, op, last))
    ensures last <= LastAfter(p, op, last)
    ensures p.issued <= Step(p, op).pool.issued
  {
    var q := Step(p, op).pool;
    match op
    case Install(r, host, optDrain, now, newest) =>
      InstallInv(p, r, host, optDrain, now, last, newest);
    case Pick(skip, now) =>
    case Begin(replica, cancellable) =>
      BeginInv(p, replica, cancellable, last);
    case End(replica, id, at) =>
      OneSlot(p, replica, op, last);
    case Fail(replica, at, detail) =>
      OneSlot(p, replica, op, last);
    case SetState(replica, state, at, detail) =>
      OneSlot(p, replica, op, last);
    case Sweep(now) =>
      SweepInv(p, now, last);
    case CountRequest(replica, status, failed) =>
      OneSlot(p, replica, op, last);
    case CountUnrouted =>
  }

  lemma OneSlot(p: Pool, replica: int, op: Op, last: int)
    requires Inv(p, last)
    requires op.End? || op.Fail? || op.SetState? || op.CountRequest?
    requires op.replica == replica
    ensures Inv(Step(p, op).pool, last)
    ensures Step(p, op).pool.issued == p.issued
  {
    var q := Step(p, op).pool;
    var i := Find(p.targets, replica);
    if i.Some? {
      assert SlotOk(p.targets[i.value], p.issued, last);
      UpdateInv(p, q, i.value, q.targets[i.value], last);
    }
  }

  // ----- how one slot changes in one step

  /** The ids a step opens on a slot: only the next id, and only by a begin on its replica. */
  ghost predicate Opens(p: Pool, op: Op, s: Slot, id: int) {
    op.Begin? && op.replica == s.t.replica && id == p.issued + 1
  }

  /** The ids a step closes on a slot: the one an end names, or all of them at the drain deadline. */
  ghost predicate Closes(p: Pool, op: Op, s: Slot, id: int) {
    || (op.End? && op.replica == s.t.replica && op.id == id)
    || (op.Sweep? && Overdue(s, p.drain, op.now))
  }

  /** A slot whose drain is over and was reported. */
  ghost predicate Done(s: Slot) { s.t.state == Draining && s.reported }

  ghost predicate Evolves(p: Pool, op: Op, s: Slot, s': Slot) {
    && s'.incarnation == s.incarnation && s'.t.replica == s.t.replica && s'.t.port == s.t.port
    && (forall id :: id in s'.conns <==> (id in s.conns || Opens(p, op, s, id)) && !Closes(p, op, s, id))
    && (Done(s) && s'.t.state == Draining ==> s'.reported)
  }

  lemma EvolvesAt(p: Pool, op: Op, i: nat)
    requires !op.Install? && Distinct(p.targets) && i < |p.targets|
    ensures |Step(p, op).pool.targets| == |p.targets|
    ensures Evolves(p, op, p.targets[i], Step(p, op).pool.targets[i])
  {
    if op.Begin? || op.End? || op.Fail? || op.SetState? || op.CountRequest? {
      if p.targets[i].t.replica == op.replica {
        assert Find(p.targets, op.replica) == Some(i);
        TouchedEvolves(p, op, i);
      } else {
        UntouchedAt(p, op, i);
      }
    }
  }

  lemma TouchedEvolves(p: Pool, op: Op, i: nat)
    requires op.Begin? || op.End? || op.Fail? || op.SetState? || op.CountRequest?
    requires i < |p.targets| && Find(p.targets, op.replica) == Some(i)
    ensures |Step(p, op).pool.targets| == |p.targets|
    ensures Evolves(p, op, p.targets[i], Step(p, op).pool.targets[i])
  {
  }

  lemma UntouchedAt(p: Pool, op: Op, i: nat)
    requires op.Begin? || op.End? || op.Fail? || op.SetState? || op.CountRequest?
    requires i < |p.targets| && p.targets[i].t.replica != op.replica
    ensures |Step(p, op).pool.targets| == |p.targets|
    ensures Step(p, op).pool.targets[i] == p.targets[i]
  {
  }

  /** Where a slot of an install comes from: the slot kept at its port, or a new incarnation. */
  lemma InstallOrigin(p: Pool, op: Op, last: int, s': Slot) returns (x: Slot, want: Target)
    requires Inv(p, last) && Legal(p, op, last) && op.Install?
    requires s' in Step(p, op).pool.targets
    ensures s' == Settle(x)
    ensures x in MergeAll(p.targets, op.route.targets, op.host, op.now, op.last).slots
    ensures Kept(p.targets, want) ==>
      var s := p.targets[Find(p.targets, want.replica).value];
      x == KeptSlot(s, want, op.now) && SlotOk(s, p.issued, last)
    ensures !Kept(p.targets, want) ==>
      x == FreshSlot(want, op.now, x.incarnation) && last < x.incarnation
  {
    InstallMembers(p, op.route, op.host, op.optDrain, op.now, op.last);
    var m := MergeAll(p.targets, op.route.targets, op.host, op.now, op.last).slots;
    x :| x in m && s' == Settle(x);
    var i :| 0 <= i < |m| && m[i] == x;
    want := op.route.targets[i];
    MergeAt(p.targets, op.route.targets, op.host, op.now, op.last, i);
  }

  /** A slot after a step is a new incarnation with nothing open, or a slot before it, evolved. */
  lemma StepEvolves(p: Pool, op: Op, last: int, s': Slot) returns (s: Slot)
    requires Inv(p, last) && Legal(p, op, last)
    requires s' in Step(p, op).pool.targets
    ensures s'.incarnation <= last ==> s in p.targets && Evolves(p, op, s, s')
    ensures s'.incarnation > last ==> s'.conns == map[]
  {
    if op.Install? {
      s := InstallEvolves(p, op, last, s');
    } else {
      s := PlaceEvolves(p, op, last, s', Step(p, op).pool);
    }
  }

  lemma InstallEvolves(p: Pool, op: Op, last: int, s': Slot) returns (s: Slot)
    requires Inv(p, last) && Legal(p, op, last) && op.Install?
    requires s' in Step(p, op).pool.targets
    ensures s'.incarnation <= last ==> s in p.targets && Evolves(p, op, s, s')
    ensures s'.incarnation > last ==> s'.conns == map[]
  {
    var x, want := InstallOrigin(p, op, last, s');
    s := s';
    if Kept(p.targets, want) {
      s := p.targets[Find(p.targets, want.replica).value];
      KeptEvolves(p, op, s, want);
    }
  }

  lemma KeptEvolves(p: Pool, op: Op, s: Slot, want: Target)
    requires op.Install?
    ensures Evolves(p, op, s, Settle(KeptSlot(s, want, op.now)))
  {
  }

  lemma PlaceEvolves(p: Pool, op: Op, last: int, s': Slot, q: Pool) returns (s: Slot)
    requires Inv(p, last) && !op.Install? && q == Step(p, op).pool
    requires s' in q.targets
    ensures s in p.targets && Evolves(p, op, s, s') && s'.incarnation <= last
  {
    var i :| 0 <= i < |q.targets| && q.targets[i] == s';
    SameLength(p, op);
    EvolvesAt(p, op, i);
    s := p.targets[i];
    assert SlotOk(s, p.issued, last);
  }

  lemma SameLength(p: Pool, op: Op)
    requires !op.Install?
    ensures |Step(p, op).pool.targets| == |p.targets|
  {
  }

  // ----- drained events

  function DrainedCount(events: seq<Event>, replica: int): nat {
    if events == [] then 0
    else
      var e := events[|events| - 1];
      DrainedCount(events[..|events| - 1], replica) + if e.Drained? && e.target.replica == replica then 1 else 0
  }

  lemma {:induction false} DrainedCountConcat(a: seq<Event>, b: seq<Event>, replica: int)
    ensures DrainedCount(a + b, replica) == DrainedCount(a, replica) + DrainedCount(b, replica)
  {
    if b == [] {
      assert a + b == a;
    } else {
      DrainedCountConcat(a, b[..|b| - 1], replica);
      assert (a + b)[..|a + b| - 1] == a + b[..|b| - 1];
    }
  }

  lemma {:induction false} MergeReportsNothing(slots: seq<Slot>, wants: seq<Target>, host: string, now: Time,
                                               last: int, replica: int)
    ensures DrainedCount(MergeAll(slots, wants, host, now, last).events, replica) == 0
  {
    if wants != [] {
      MergeReportsNothing(slots, wants[..|wants| - 1], host, now, last, replica);
      var m := MergeAll(slots, wants[..|wants| - 1], host, now, last).events;
      var all := MergeAll(slots, wants, host, now, last).events;
      if all != m { assert all[..|all| - 1] == m; }
    }
  }

  lemma {:induction false} SettleCount(host: string, slots: seq<Slot>, now: Time, i: nat)
    requires Ordered(slots) && i < |slots|
    ensures DrainedCount(SettleEvents(host, slots, now), slots[i].t.replica) == if Settles(slots[i]) then 1 else 0
  {
    var n := |slots| - 1;
    var init := SettleEvents(host, slots[..n], now);
    var tail := if Settles(slots[n]) then [DrainedEvent(host, Settle(slots[n]), false, 0, now)] else [];
    DrainedCountConcat(init, tail, slots[i].t.replica);
    if i < n {
      SettleCount(host, slots[..n], now, i);
    } else {
      SettleNone(host, slots[..n], now, slots[i].t.replica);
    }
  }

  lemma {:induction false} SettleNone(host: string, slots: seq<Slot>, now: Time, replica: int)
    requires forall s :: s in slots ==> s.t.replica != replica
    ensures DrainedCount(SettleEvents(host, slots, now), replica) == 0
  {
    if slots != [] {
      var n := |slots| - 1;
      SettleNone(host, slots[..n], now, replica);
      var tail := if Settles(slots[n]) then [DrainedEvent(host, Settle(slots[n]), false, 0, now)] else [];
      DrainedCountConcat(SettleEvents(host, slots[..n], now), tail, replica);
    }
  }

  lemma {:induction false} CutCount(host: string, slots: seq<Slot>, drain: int, now: Time, i: nat)
    requires Ordered(slots) && i < |slots|
    ensures DrainedCount(CutEvents(host, slots, drain, now), slots[i].t.replica)
         == if Overdue(slots[i], drain, now) then 1 else 0
  {
    var n := |slots| - 1;
    var tail := if Overdue(slots[n], drain, now)
                then [DrainedEvent(host, Cut(slots[n], drain, now), true, |slots[n].conns|, now)] else [];
    DrainedCountConcat(CutEvents(host, slots[..n], drain, now), tail, slots[i].t.replica);
    if i < n {
      CutCount(host, slots[..n], drain, now, i);
    } else {
      CutNone(host, slots[..n], drain, now, slots[i].t.replica);
    }
  }

  lemma {:induction false} CutNone(host: string, slots: seq<Slot>, drain: int, now: Time, replica: int)
    requires forall s :: s in slots ==> s.t.replica != replica
    ensures DrainedCount(CutEvents(host, slots, drain, now), replica) == 0
  {
    if slots != [] {
      var n := |slots| - 1;
      CutNone(host, slots[..n], drain, now, replica);
      var tail := if Overdue(slots[n], drain, now)
                  then [DrainedEvent(host, Cut(slots[n], drain, now), true, |slots[n].conns|, now)] else [];
      DrainedCountConcat(CutEvents(host, slots[..n], drain, now), tail, replica);
    }
  }

  /** The incarnation of `s'` had already been reported before the step. */
  ghost predicate WasDone(p: Pool, s': Slot) {
    exists s :: s in p.targets && s.incarnation == s'.incarnation && Done(s)
  }

  /**
   A step returns exactly one drained event for a target if the target became drained and
   reported in that step, and none otherwise.
   */
  lemma DrainedExactly(p: Pool, op: Op, last: int, s': Slot)
    requires Inv(p, last) && Legal(p, op, last)
    requires s' in Step(p, op).pool.targets
    ensures DrainedCount(Step(p, op).events, s'.t.replica) == if Done(s') && !WasDone(p, s') then 1 else 0
  {
    if op.Install? {
      DrainedByInstall(p, op, last, s');
    } else {
      var q := Step(p, op).pool;
      var i :| 0 <= i < |q.targets| && q.targets[i] == s';
      EvolvesAt(p, op, i);
      var s := p.targets[i];
      OnlyIncarnation(p, last, s);
      if op.Sweep? {
        CutCount(p.host, p.targets, p.drain, op.now, i);
      } else if op.End? {
        DrainedByEnd(p, op, last, i);
      } else if op.SetState? {
        DrainedByMark(p, op, last, i);
      }
    }
  }

  lemma OnlyIncarnation(p: Pool, last: int, s: Slot)
    requires Inv(p, last) && s in p.targets
    ensures forall t :: t in p.targets && t.incarnation == s.incarnation ==> t == s
  {
    forall t | t in p.targets && t.incarnation == s.incarnation ensures t == s {
      assert SlotsApart(s, t);
    }
  }

  lemma DrainedByEnd(p: Pool, op: Op, last: int, i: nat)
    requires Inv(p, last) && op.End? && i < |p.targets|
    ensures |Step(p, op).pool.targets| == |p.targets|
    ensures DrainedCount(Step(p, op).events, p.targets[i].t.replica)
         == if Done(Step(p, op).pool.targets[i]) && !Done(p.targets[i]) then 1 else 0
  {
    var f := Find(p.targets, op.replica);
    if f.Some? { assert SlotOk(p.targets[f.value], p.issued, last); }
  }

  lemma DrainedByMark(p: Pool, op: Op, last: int, i: nat)
    requires Inv(p, last) && op.SetState? && i < |p.targets|
    ensures |Step(p, op).pool.targets| == |p.targets|
    ensures DrainedCount(Step(p, op).events, p.targets[i].t.replica)
         == if Done(Step(p, op).pool.targets[i]) && !Done(p.targets[i]) then 1 else 0
  {
    var f := Find(p.targets, op.replica);
    var q := Step(p, op);
    if f.Some? {
      var s := p.targets[f.value];
      assert SlotOk(s, p.issued, last);
      if op.state.Valid() && s.t.state != op.state {
        var moved := q.events[0];
        assert q.events == [moved] + q.events[1..];
        DrainedCountConcat([moved], q.events[1..], p.targets[i].t.replica);
      }
    }
  }

  lemma DrainedByInstall(p: Pool, op: Op, last: int, s': Slot)
    requires Inv(p, last) && Legal(p, op, last) && op.Install?
    requires s' in Step(p, op).pool.targets
    ensures DrainedCount(Step(p, op).events, s'.t.replica) == if Done(s') && !WasDone(p, s') then 1 else 0
  {
    var x, want := InstallOrigin(p, op, last, s');
    InstallCount(p, op, last, x);
    MergedBecomesDone(p, op.now, last, x, want);
  }

  lemma MergedBecomesDone(p: Pool, now: Time, last: int, x: Slot, want: Target)
    requires Inv(p, last)
    requires Kept(p.targets, want) ==> x == KeptSlot(p.targets[Find(p.targets, want.replica).value], want, now)
    requires !Kept(p.targets, want) ==> x == FreshSlot(want, now, x.incarnation) && last < x.incarnation
    ensures Settles(x) <==> Done(Settle(x)) && !WasDone(p, Settle(x))
  {
    if Kept(p.targets, want) {
      var s := p.targets[Find(p.targets, want.replica).value];
      OnlyIncarnation(p, last, s);
      assert WasDone(p, Settle(x)) <==> Done(s);
    } else {
      forall s | s in p.targets ensures s.incarnation != x.incarnation {
        assert SlotOk(s, p.issued, last);
      }
    }
  }

  lemma InstallCount(p: Pool, op: Op, last: int, x: Slot)
    requires Inv(p, last) && Legal(p, op, last) && op.Install?
    requires x in MergeAll(p.targets, op.route.targets, op.host, op.now, op.last).slots
    ensures DrainedCount(Step(p, op).events, x.t.replica) == if Settles(x) then 1 else 0
  {
    var m := MergeAll(p.targets, op.route.targets, op.host, op.now, op.last);
    MergeInv(p, op.route.targets, op.host, op.now, last, op.last);
    MergeReportsNothing(p.targets, op.route.targets, op.host, op.now, op.last, x.t.replica);
    SortedSettleCount(op.host, m.slots, op.now, x);
    DrainedCountConcat(m.events, SettleEvents(op.host, SortByReplica(m.slots), op.now), x.t.replica);
  }

  lemma SortedSettleCount(host: string, slots: seq<Slot>, now: Time, x: Slot)
    requires Distinct(slots) && x in slots
    ensures DrainedCount(SettleEvents(host, SortByReplica(slots), now), x.t.replica) == if Settles(x) then 1 else 0
  {
    var sorted := SortByReplica(slots);
    SortOrdered(slots);
    SortMembers(slots);
    var k :| 0 <= k < |sorted| && sorted[k] == x;
    SettleCount(host, sorted, now, k);
  }

  // ----- one step, without its definition

  /** What the run theorems need of a step: each slot is new and idle, or an old one evolved. */
  ghost predicate StepRel(p: Pool, op: Op, last: int, q: Pool, last': int) {
    && Inv(p, last) && Inv(q, last') && last <= last' && p.issued <= q.issued
    && (forall s' :: s' in q.targets && s'.incarnation <= last ==> exists s :: s in p.targets && Evolves(p, op, s, s'))
    && (forall s' :: s' in q.targets && s'.incarnation > last ==> s'.conns == map[])
    && (forall s, id :: s in p.targets && Opens(p, op, s, id) ==> id <= q.issued)
  }

  lemma StepIsRel(p: Pool, op: Op, last: int)
    requires Inv(p, last) && Legal(p, op, last)
    ensures StepRel(p, op, last, Step(p, op).pool, LastAfter(p, op, last))
  {
    var q := Step(p, op).pool;
    StepInv(p, op, last);
    forall s' | s' in q.targets
      ensures s'.incarnation <= last ==> exists s :: s in p.targets && Evolves(p, op, s, s')
      ensures s'.incarnation > last ==> s'.conns == map[]
    {
      var s := StepEvolves(p, op, last, s');
    }
    forall s, id | s in p.targets && Opens(p, op, s, id) ensures id <= q.issued {
      OpensIssues(p, op, s, id);
    }
  }

  lemma OpensIssues(p: Pool, op: Op, s: Slot, id: int)
    requires s in p.targets && Opens(p, op, s, id)
    ensures id <= Step(p, op).pool.issued
  {
    assert Find(p.targets, s.t.replica).Some?;
  }
}
