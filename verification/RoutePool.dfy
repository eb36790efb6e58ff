/** The edge's route pool as an object: each locked method is one step of the pool's value. */
module RoutePools {
  import opened Edge
  import opened Pool
  import opened PoolRuns
  import opened Counters

  /** The process-wide incarnation counter. */
  class Incarnations {
    var last: int

    constructor ()
      ensures last == 0
    {
      last := 0;
    }

    method Next() returns (n: int)
      modifies `last
      ensures n == last == old(last) + 1
    {
      last := last + 1;
      n := last;
    }
  }

  datatype MarkError = NoReplica(replica: int) | UnknownState(replica: int)

  class RoutePool {
    const norm: string -> string
    const optDrain: int

    var host: string
    var drain: int
    var targets: seq<Slot>
    var next: nat
    var issued: nat
    var unrouted: Counter
    var marks: seq<CountMark>

    ghost var log: seq<Entry>
    ghost var newest: int

    ghost function View(): Pool
      reads this
    {
      Pool(host, drain, targets, next, issued, unrouted, marks)
    }

    /** The pool keeps its invariant, and its counters agree with the log of what was counted. */
    ghost predicate Valid()
      reads this
    {
      Inv(View(), newest) && Agrees(View(), log, newest)
    }

    constructor (r: Route, norm: string -> string, optDrain: int, now: Time, incarnations: Incarnations)
      requires DistinctReplicas(r.targets)
      modifies incarnations`last
      ensures Valid() && this.norm == norm && this.optDrain == optDrain
      ensures View() == Installed(EmptyPool(), r, norm(r.host), optDrain, now, old(incarnations.last)).pool
      ensures log == [Snap(now)]
      ensures newest == incarnations.last >= old(incarnations.last)
      ensures incarnations.last == MergeAll([], r.targets, norm(r.host), now, old(incarnations.last)).last
    {
      this.norm := norm;
      this.optDrain := optDrain;
      host, drain, targets, next, issued := "", 0, [], 0, 0;
      unrouted, marks, log, newest := NO_COUNTS, [], [], incarnations.last;
      new;
      var _ := Install(r, now, incarnations);
    }

    /** A pushed route replaces the targets: see `Installed`. The events are what the push reports. */
    method Install(r: Route, now: Time, incarnations: Incarnations) returns (events: seq<Event>)
      requires Valid() && newest <= incarnations.last
      requires DistinctReplicas(r.targets)
      modifies this, incarnations`last
      ensures Valid()
      ensures Stepped(View(), events) == Installed(old(View()), r, norm(r.host), optDrain, now, old(incarnations.last))
      ensures log == old(log) + [Snap(now)]
      ensures newest == incarnations.last >= old(incarnations.last)
      ensures incarnations.last
           == MergeAll(old(targets), r.targets, norm(r.host), now, old(incarnations.last)).last
    {
      hide Installed, MergeAll, Inv, Agrees;
      Installing(r, now, incarnations.last);
      events := Replace(r, now, incarnations);
      log := log + [Snap(now)];
      newest := incarnations.last;
    }

    method Replace(r: Route, now: Time, incarnations: Incarnations) returns (events: seq<Event>)
      requires Distinct(targets) && DistinctReplicas(r.targets)
      modifies this`host, this`drain, this`targets, this`next, this`marks, incarnations`last
      ensures Stepped(View(), events) == Installed(old(View()), r, norm(r.host), optDrain, now, old(incarnations.last))
      ensures incarnations.last
           == MergeAll(old(targets), r.targets, norm(r.host), now, old(incarnations.last)).last
    {
      hide MergeAll, SortByReplica, SettleAll, SettleEvents, Distinct, EffectiveDrain;
      var changed := Retarget(r, now, incarnations);
      var settled := SettleTargets(now);
      events := changed + settled;
      TakeSnapshot(now);
    }

    /** Merges and sorts the wanted targets, and keeps the cursor in range. */
    method Retarget(r: Route, now: Time, incarnations: Incarnations) returns (events: seq<Event>)
      requires Distinct(targets) && DistinctReplicas(r.targets)
      modifies this`host, this`drain, this`targets, this`next, incarnations`last
      ensures host == norm(r.host) && drain == EffectiveDrain(r.drain, optDrain)
      ensures View() == old(View()).(host := host, drain := drain, targets := targets, next := next)
      ensures var m := MergeAll(old(targets), r.targets, norm(r.host), now, old(incarnations.last));
        targets == SortByReplica(m.slots) && events == m.events && incarnations.last == m.last
      ensures next == if old(next) >= |targets| then 0 else old(next)
    {
      host := norm(r.host);
      drain := EffectiveDrain(r.drain, optDrain);
      var merged: seq<Slot>;
      merged, events := MergeTargets(r.targets, now, incarnations);
      targets := SortByReplica(merged);
      if next >= |targets| { next := 0; }
    }

    /** What the step lemmas say of an install of this pool. */
    lemma Installing(r: Route, now: Time, last: int)
      requires Valid() && newest <= last && DistinctReplicas(r.targets)
      ensures var q := Installed(View(), r, norm(r.host), optDrain, now, last).pool;
        var last' := MergeAll(targets, r.targets, norm(r.host), now, last).last;
        Distinct(targets) && Inv(q, last') && Agrees(q, log + [Snap(now)], last')
    {
      var op := Op.Install(r, norm(r.host), optDrain, now, last);
      StepInv(View(), op, newest);
      StepAgrees(View(), op, log, newest);
    }

    /** Merges the wanted targets over the present ones, in push order. */
    method MergeTargets(wants: seq<Target>, now: Time, incarnations: Incarnations)
      returns (merged: seq<Slot>, events: seq<Event>)
      requires Distinct(targets) && DistinctReplicas(wants)
      modifies incarnations`last
      ensures Merge(merged, events, incarnations.last)
           == MergeAll(targets, wants, host, now, old(incarnations.last))
    {
      hide Find, FreshSlot, KeptSlot, Distinct;
      merged, events := [], [];
      var byReplica := ByReplica();
      for i := 0 to |wants|
        modifies incarnations`last
        invariant Merge(merged, events, incarnations.last)
               == MergeAll(targets, wants[..i], host, now, old(incarnations.last))
        invariant forall j :: i <= j < |wants| ==> Indexed(byReplica, targets, wants[j].replica)
      {
        var want := wants[i];
        assert wants[..i + 1][..i] == wants[..i];
        assert Indexed(byReplica, targets, want.replica);
        if want.replica !in byReplica || byReplica[want.replica].t.port != want.port {
          var incarnation := incarnations.Next();
          var added := FreshSlot(want, now, incarnation);
          merged := merged + [added];
          events := events + [TargetChanged(host, added.t, now)];
          continue;
        }
        var s := byReplica[want.replica];
        byReplica := byReplica - {want.replica};
        var kept := KeptSlot(s, want, now);
        if s.t.state != want.state {
          events := events + [TargetChanged(host, kept.Live(), now)];
        }
        merged := merged + [kept];
      }
      assert wants[..|wants|] == wants;
    }

    ghost predicate Indexed(index: map<int, Slot>, slots: seq<Slot>, replica: int) {
      var i := Find(slots, replica);
      (replica in index <==> i.Some?) && (i.Some? ==> index[replica] == slots[i.value])
    }

    method ByReplica() returns (index: map<int, Slot>)
      requires Distinct(targets)
      ensures forall r :: Indexed(index, targets, r)
    {
      index := map[];
      for i := 0 to |targets|
        invariant forall k :: 0 <= k < i ==> targets[k].t.replica in index && index[targets[k].t.replica] == targets[k]
        invariant forall r :: r in index ==> exists k :: 0 <= k < i && targets[k].t.replica == r
      {
        index := index[targets[i].t.replica := targets[i]];
      }
    }

    /** Reports every drained target with nothing open. */
    method SettleTargets(now: Time) returns (events: seq<Event>)
      modifies this`targets
      ensures View() == old(View()).(targets := targets) && targets == SettleAll(old(targets))
      ensures events == SettleEvents(host, old(targets), now)
    {
      events := [];
      ghost var was := targets;
      for i := 0 to |targets|
        invariant |targets| == |was|
        invariant forall k :: 0 <= k < i ==> targets[k] == Settle(was[k])
        invariant forall k :: i <= k < |was| ==> targets[k] == was[k]
        invariant events == SettleEvents(host, was[..i], now)
      {
        assert was[..i + 1][..i] == was[..i];
        var s := targets[i];
        if s.t.state == Draining && |s.conns| == 0 && !s.reported {
          targets := targets[i := s.(reported := true)];
          events := events + [DrainedEvent(host, targets[i], false, 0, now)];
        }
      }
      assert was[..|was|] == was;
    }

    method TakeSnapshot(at: Time)
      modifies this`marks
      ensures View() == Snapshot(old(View()), at)
    {
      var per: map<int, MarkEntry> := map[];
      for i := 0 to |targets|
        invariant per == PerOf(targets[..i])
      {
        assert targets[..i + 1][..i] == targets[..i];
        per := per[targets[i].t.replica := MarkEntry(targets[i].incarnation, targets[i].counted)];
      }
      assert targets[..|targets|] == targets;
      marks := marks + [CountMark(at, unrouted, per)];
      if |marks| > MAX_COUNT_MARKS { marks := marks[1..]; }
    }

    /** Records a step of the pool in the ghost state. */
    ghost method Stepping(op: Op, was: Pool)
      requires !op.Install?
      requires Inv(was, newest) && Agrees(was, log, newest) && View() == Step(was, op).pool
      modifies this`log
      ensures Valid() && log == old(log) + EntriesOf(was, op) && newest == old(newest)
    {
      StepInv(was, op, newest);
      StepAgrees(was, op, log, newest);
      log := log + EntriesOf(was, op);
    }

    /** The next eligible target in cyclic order from the cursor. */
    method Pick(skip: seq<int>, now: Time) returns (target: Option<Target>)
      requires Valid()
      modifies this`next, this`log
      ensures Valid() && Picking(View(), target) == Picked(old(View()), skip, now)
    {
      hide Inv, Agrees;
      ghost var was := View();
      ghost var elig := EligibleAt(targets, skip, now);
      var n := |targets|;
      target := None;
      for i := 0 to n
        invariant View() == was && log == old(log) && target == None
        invariant Scan(elig, next, 0) == Scan(elig, next, i)
      {
        var idx := (next + i) % n;
        var s := targets[idx];
        if !s.t.state.Routable() || s.t.replica in skip || now < s.failedUntil { continue; }
        next := (idx + 1) % n;
        target := Some(s.Live());
        Stepping(Op.Pick(skip, now), was);
        return;
      }
    }

    method FindSlot(replica: int) returns (i: Option<nat>)
      ensures i == Find(targets, replica)
    {
      for k := 0 to |targets|
        invariant forall j :: 0 <= j < k ==> targets[j].t.replica != replica
      {
        if targets[k].t.replica == replica { return Some(k); }
      }
      return None;
    }

    /** A connection begins: the id is new, or there is no such replica. */
    method Begin(replica: int, cancellable: bool) returns (id: Option<int>)
      requires Valid()
      modifies this
      ensures Valid() && View() == Opened(old(View()), replica, cancellable)
      ensures id == if Find(old(targets), replica).Some? then Some(old(issued) + 1) else None
    {
      hide Inv, Agrees;
      ghost var was := View();
      var i := FindSlot(replica);
      if i.None? { return None; }
      issued := issued + 1;
      var s := targets[i.value];
      targets := targets[i.value := s.(conns := s.conns[issued := cancellable])];
      Stepping(Op.Begin(replica, cancellable), was);
      return Some(issued);
    }

    method Release(i: nat, id: int, at: Time) returns (events: seq<Event>)
      requires i < |targets|
      modifies this`targets
      ensures Stepped(View(), events) == Released(old(View()), i, id, at)
    {
      var s := targets[i];
      if id !in s.conns { return []; }
      s := s.(conns := s.conns - {id});
      targets := targets[i := s];
      if s.t.state != Draining || |s.conns| != 0 || s.reported { return []; }
      s := s.(reported := true);
      targets := targets[i := s];
      return [DrainedEvent(host, s, false, 0, at)];
    }

    /** A connection ends; an id that is not open on the replica changes nothing. */
    method End(replica: int, id: int, now: Time) returns (events: seq<Event>)
      requires Valid()
      modifies this
      ensures Valid() && Stepped(View(), events) == Ended(old(View()), replica, id, now)
    {
      hide Inv, Agrees;
      ghost var was := View();
      events := [];
      var i := FindSlot(replica);
      if i.Some? {
        events := Release(i.value, id, now);
      }
      Stepping(Op.End(replica, id, now), was);
    }

    method MarkStart(replica: int) returns (err: Option<MarkError>)
      requires Valid()
      modifies this
      ensures Valid() && View() == Opened(old(View()), replica, false)
      ensures err.None? <==> Find(old(targets), replica).Some?
    {
      var id := Begin(replica, false);
      err := if id.None? then Some(NoReplica(replica)) else None;
    }

    /** A "done" mark ends some open connection, preferring one that cannot be cancelled. */
    method MarkDone(replica: int, at: Time) returns (events: seq<Event>, err: Option<MarkError>)
      requires Valid()
      modifies this
      ensures Valid()
      ensures err.None? <==> Find(old(targets), replica).Some?
      ensures match Find(old(targets), replica)
        case None => View() == old(View()) && events == []
        case Some(i) =>
          if old(targets)[i].conns == map[] then View() == old(View()) && events == []
          else exists id :: && id in old(targets)[i].conns
                            && (old(targets)[i].conns[id] ==> forall k :: k in old(targets)[i].conns ==> old(targets)[i].conns[k])
                            && Stepped(View(), events) == Ended(old(View()), replica, id, at)
    {
      hide Inv, Agrees;
      events, err := [], None;
      var i := FindSlot(replica);
      if i.None? {
        err := Some(NoReplica(replica));
        return;
      }
      var s := targets[i.value];
      if s.conns == map[] { return; }
      var id := AnyConn(s);
      events := End(replica, id, at);
    }

    /** Some open connection: one that cannot be cancelled if there is any. */
    static method AnyConn(s: Slot) returns (id: int)
      requires s.conns != map[]
      ensures MayClose(s, id)
    {
      if k :| k in s.conns && !s.conns[k] {
        id := k;
      } else {
        assert (forall k :: k !in s.conns) ==> s.conns == map[];
        id :| id in s.conns;
      }
    }

    method MarkFail(replica: int, at: Time, detail: string) returns (err: Option<MarkError>)
      requires Valid()
      modifies this
      ensures Valid() && View() == Failed(old(View()), replica, at, detail)
      ensures err.None? <==> Find(old(targets), replica).Some?
    {
      hide Inv, Agrees;
      ghost var was := View();
      var i := FindSlot(replica);
      if i.None? { return Some(NoReplica(replica)); }
      var s := targets[i.value].(failedUntil := at + FAILURE_WINDOW);
      if detail != "" { s := s.(t := s.t.(detail := detail)); }
      targets := targets[i.value := s];
      assert View() == Failed(was, replica, at, detail);
      Stepping(Op.Fail(replica, at, detail), was);
      return None;
    }

    method MarkState(replica: int, state: TargetState, at: Time, detail: string)
      returns (events: seq<Event>, err: Option<MarkError>)
      requires Valid()
      modifies this
      ensures Valid() && Stepped(View(), events) == MarkedState(old(View()), replica, state, at, detail)
      ensures err.None? <==> Find(old(targets), replica).Some? && state.Valid()
    {
      hide Inv, Agrees;
      ghost var was := View();
      events, err := [], None;
      var i := FindSlot(replica);
      if i.None? {
        err := Some(NoReplica(replica));
        return;
      }
      if !state.Valid() {
        err := Some(UnknownState(replica));
        return;
      }
      var s := targets[i.value];
      if s.t.state == state { return; }
      s := s.(t := s.t.(state := state, since := at));
      if detail != "" { s := s.(t := s.t.(detail := detail)); }
      events := [TargetChanged(host, s.Live(), at)];
      if state == Draining {
        s := s.(reported := false);
        if |s.conns| == 0 {
          s := s.(reported := true);
          events := events + [DrainedEvent(host, s, false, 0, at)];
        }
      }
      targets := targets[i.value := s];
      Stepping(Op.SetState(replica, state, at, detail), was);
    }

    /** Cuts what is still open on every target past its drain deadline, and reports it. */
    method Sweep(now: Time) returns (events: seq<Event>)
      requires Valid()
      modifies this
      ensures Valid() && newest == old(newest) && Stepped(View(), events) == Swept(old(View()), now)
    {
      hide Inv, Agrees;
      ghost var was := View();
      events := CutTargets(now);
      assert View() == was.(targets := targets);
      Stepping(Op.Sweep(now), was);
    }

    method CutTargets(now: Time) returns (events: seq<Event>)
      modifies this`targets
      ensures targets == CutAll(old(targets), drain, now)
      ensures events == CutEvents(host, old(targets), drain, now)
    {
      ghost var was := targets;
      events := [];
      for i := 0 to |targets|
        invariant |targets| == |was|
        invariant forall k :: 0 <= k < i ==> targets[k] == Cut(was[k], drain, now)
        invariant forall k :: i <= k < |was| ==> targets[k] == was[k]
        invariant events == CutEvents(host, was[..i], drain, now)
      {
        assert was[..i + 1][..i] == was[..i];
        var s := targets[i];
        if s.t.state != Draining || s.reported || now - s.t.since < drain { continue; }
        var cut := |s.conns|;
        s := s.(conns := map[], reported := true);
        targets := targets[i := s];
        events := events + [DrainedEvent(host, s, true, cut, now)];
      }
      assert was[..|was|] == was;
    }

    /** A request is charged to whatever holds the index now, or counted as unrouted. */
    method CountRequest(replica: int, status: int, connectFailed: bool)
      requires Valid()
      modifies this
      ensures Valid() && View() == CountedRequest(old(View()), replica, status, connectFailed)
      ensures log == old(log) + EntriesOf(old(View()), Op.CountRequest(replica, status, connectFailed))
    {
      hide Inv, Agrees;
      ghost var was := View();
      var i := FindSlot(replica);
      var c := if i.Some? then targets[i.value].counted else unrouted;
      c := c.(requests := c.requests + 1);
      if connectFailed {
        c := c.(connectFailures := c.connectFailures + 1);
      } else if status >= 500 {
        c := c.(status5xx := c.status5xx + 1);
      }
      if i.Some? {
        targets := targets[i.value := targets[i.value].(counted := c)];
      } else {
        unrouted := c;
      }
      Stepping(Op.CountRequest(replica, status, connectFailed), was);
    }

    method CountUnrouted()
      requires Valid()
      modifies this
      ensures Valid() && View() == CountedUnrouted(old(View()))
      ensures log == old(log) + [Req(None, 500, false)]
    {
      hide Inv, Agrees;
      ghost var was := View();
      unrouted := unrouted.(requests := unrouted.requests + 1, status5xx := unrouted.status5xx + 1);
      Stepping(Op.CountUnrouted, was);
    }

    method MarkBefore(since: Time) returns (m: Option<CountMark>)
      ensures m == Marked(View(), since)
    {
      if marks == [] { return None; }
      var at := -1;
      var i := 0;
      while i < |marks|
        invariant 0 <= i <= |marks| && at == i - 1
        invariant forall k :: 0 <= k < i ==> marks[k].at <= since
      {
        if marks[i].at > since { break; }
        at := i;
        i := i + 1;
      }
      assert Leading(marks, since) == at + 1;
      if at < 0 { return Some(marks[0]); }
      return Some(marks[at]);
    }

    /** Counts since a mark: exactly the plain count of the log's window, in every valid state. */
    method Counts(since: Time) returns (h: HostCounts)
      requires Valid()
      ensures h == CountsOf(View(), since)
      ensures |marks| == |Kepts(log)| && Faithful(View(), h, Window(log, View(), since))
    {
      var m := MarkBefore(since);
      var own := if m.Some? then unrouted.Sub(m.value.unrouted) else unrouted;
      h := SumTargets(m, own);
      CountsAreFaithful(View(), log, newest, since);
    }

    method SumTargets(m: Option<CountMark>, own: Counter) returns (h: HostCounts)
      ensures h.host == host && h.unrouted == own
      ensures h.targets == TargetsOf(targets, m) && h.total == own.Plus(AddUp(h.targets))
    {
      hide AddUp;
      h := HostCounts(host, own, own, []);
      AddUpNone(own);
      for i := 0 to |targets|
        invariant h.host == host && h.unrouted == own
        invariant |h.targets| == i && h.total == own.Plus(AddUp(h.targets))
        invariant forall k :: 0 <= k < i ==> h.targets[k] == TargetCounts(targets[k].t.replica, Since(targets[k], m))
      {
        var s := targets[i];
        var c := s.counted;
        if m.Some? && s.t.replica in m.value.per && m.value.per[s.t.replica].incarnation == s.incarnation {
          c := c.Sub(m.value.per[s.t.replica].counted);
        }
        ghost var was := h.targets;
        h := h.(targets := h.targets + [TargetCounts(s.t.replica, c)], total := h.total.Plus(c));
        AddUpMore(own, was, TargetCounts(s.t.replica, c));
      }
      assert h.targets == TargetsOf(targets, m);
    }

    /** The targets as a table shows them: replica, port, state and what is in flight. */
    method Live() returns (out: seq<Target>)
      ensures |out| == |targets| && forall i :: 0 <= i < |targets| ==> out[i] == targets[i].Live()
    {
      out := [];
      for i := 0 to |targets|
        invariant |out| == i && forall k :: 0 <= k < i ==> out[k] == targets[k].Live()
      {
        out := out + [targets[i].Live()];
      }
    }
  }
}
