/**
 The route pool as a value, and one function per locked method of the edge's pool.
 Every step is a function of the pool before it, so a run is a sequence of steps.
 */
module Pool {
  import opened Edge

  const DEFAULT_DRAIN: int := 30_000_000_000
  const FAILURE_WINDOW: int := 5_000_000_000
  const MAX_COUNT_MARKS: nat := 64

  datatype Counter = Counter(requests: int, status5xx: int, connectFailures: int) {
    function Plus(o: Counter): Counter {
      Counter(requests + o.requests, status5xx + o.status5xx, connectFailures + o.connectFailures)
    }

    /** The difference, with every field clamped at zero. */
    function Sub(o: Counter): Counter {
      Counter(AtLeastZero(requests - o.requests),
              AtLeastZero(status5xx - o.status5xx),
              AtLeastZero(connectFailures - o.connectFailures))
    }

    function Errors(): int { status5xx + connectFailures }
  }

  const NO_COUNTS := Counter(0, 0, 0)

  function AtLeastZero(n: int): int { if n < 0 then 0 else n }

  datatype MarkEntry = MarkEntry(incarnation: int, counted: Counter)

  datatype CountMark = CountMark(at: Time, unrouted: Counter, per: map<int, MarkEntry>)

  /** One replica behind the route. A connection id maps to whether it can be cancelled. */
  datatype Slot = Slot(t: Target, failedUntil: Time, conns: map<int, bool>, reported: bool,
                       incarnation: int, counted: Counter)
  {
    function Live(): Target { t.(inflight := |conns|) }

    predicate Unreported() { t.state == Draining && !reported }
  }

  datatype Pool = Pool(host: string, drain: int, targets: seq<Slot>, next: nat, issued: nat,
                       unrouted: Counter, marks: seq<CountMark>)

  /** The first slot holding a replica index. */
  function Find(slots: seq<Slot>, replica: int): (i: Option<nat>)
    ensures i.Some? ==> i.value < |slots| && slots[i.value].t.replica == replica
    ensures i.Some? ==> forall k :: 0 <= k < i.value ==> slots[k].t.replica != replica
    ensures i.None? ==> forall k :: 0 <= k < |slots| ==> slots[k].t.replica != replica
  {
    if slots == [] then None
    else if slots[0].t.replica == replica then Some(0)
    else match Find(slots[1..], replica)
      case None => None
      case Some(j) =>
        assert forall k :: 0 < k < |slots| ==> slots[k] == slots[1..][k - 1];
        Some(j + 1)
  }

  ghost predicate Distinct(slots: seq<Slot>) {
    forall i, j :: 0 <= i < j < |slots| ==> slots[i].t.replica != slots[j].t.replica
  }

  ghost predicate Sorted(slots: seq<Slot>) {
    forall i, j :: 0 <= i < j < |slots| ==> slots[i].t.replica <= slots[j].t.replica
  }

  // ----- sorting by replica

  function Insert(slots: seq<Slot>, s: Slot): (r: seq<Slot>)
    ensures multiset(r) == multiset(slots) + multiset{s}
  {
    if slots == [] then [s]
    else if s.t.replica < slots[0].t.replica then [s] + slots
    else
      assert slots == [slots[0]] + slots[1..];
      [slots[0]] + Insert(slots[1..], s)
  }

  lemma {:induction false} InsertSorted(slots: seq<Slot>, s: Slot)
    requires Sorted(slots)
    ensures Sorted(Insert(slots, s))
  {
    if slots != [] && slots[0].t.replica <= s.t.replica {
      var rest := Insert(slots[1..], s);
      InsertSorted(slots[1..], s);
      forall x | x in rest ensures slots[0].t.replica <= x.t.replica {
        assert x in multiset(rest);
        assert x == s || x in slots[1..];
      }
    }
  }

  function SortByReplica(slots: seq<Slot>): (r: seq<Slot>)
    ensures multiset(r) == multiset(slots)
    ensures Sorted(r)
  {
    if slots == [] then []
    else
      var init := SortByReplica(slots[..|slots| - 1]);
      InsertSorted(init, slots[|slots| - 1]);
      assert slots == slots[..|slots| - 1] + [slots[|slots| - 1]];
      Insert(init, slots[|slots| - 1])
  }

  // ----- installing a route

  function EffectiveDrain(route: int, option: int): (d: int)
    ensures d > 0
  {
    if route > 0 then route else if option > 0 then option else DEFAULT_DRAIN
  }

  function FreshSlot(want: Target, now: Time, incarnation: int): Slot {
    Slot(want.(inflight := 0, since := if want.since == ZERO_TIME then now else want.since),
         ZERO_TIME, map[], false, incarnation, NO_COUNTS)
  }

  /** A kept slot takes the wanted detail and state; entering draining opens a new episode. */
  function KeptSlot(s: Slot, want: Target, now: Time): Slot {
    if s.t.state == want.state then s.(t := s.t.(detail := want.detail))
    else s.(t := s.t.(detail := want.detail, state := want.state, since := now),
            reported := s.reported && want.state != Draining)
  }

  predicate Kept(slots: seq<Slot>, want: Target) {
    var i := Find(slots, want.replica);
    i.Some? && slots[i.value].t.port == want.port
  }

  datatype Merge = Merge(slots: seq<Slot>, events: seq<Event>, last: int)

  /** The wanted targets merged over the old slots in push order; `last` numbers incarnations. */
  function MergeAll(slots: seq<Slot>, wants: seq<Target>, host: string, now: Time, last: int): (m: Merge)
    ensures |m.slots| == |wants| && last <= m.last
  {
    if wants == [] then Merge([], [], last)
    else
      var m := MergeAll(slots, wants[..|wants| - 1], host, now, last);
      var want := wants[|wants| - 1];
      if Kept(slots, want) then
        var s := slots[Find(slots, want.replica).value];
        var k := KeptSlot(s, want, now);
        Merge(m.slots + [k],
              if s.t.state == want.state then m.events else m.events + [TargetChanged(host, k.Live(), now)],
              m.last)
      else
        var f := FreshSlot(want, now, m.last + 1);
        Merge(m.slots + [f], m.events + [TargetChanged(host, f.t, now)], m.last + 1)
  }

  predicate Settles(s: Slot) { s.Unreported() && |s.conns| == 0 }

  function Settle(s: Slot): Slot {
    if Settles(s) then s.(reported := true) else s
  }

  /** A drained slot with nothing open is reported at once. */
  function SettleAll(slots: seq<Slot>): (r: seq<Slot>)
    ensures |r| == |slots|
    ensures forall i :: 0 <= i < |slots| ==> r[i] == Settle(slots[i])
  {
    seq(|slots|, i requires 0 <= i < |slots| => Settle(slots[i]))
  }

  function DrainedEvent(host: string, s: Slot, deadline: bool, cut: int, at: Time): Event {
    Drained(host, if deadline then s.Live().(inflight := cut) else s.Live(), deadline, at)
  }

  function SettleEvents(host: string, slots: seq<Slot>, now: Time): seq<Event> {
    if slots == [] then []
    else
      var s := slots[|slots| - 1];
      SettleEvents(host, slots[..|slots| - 1], now)
      + if Settles(s) then [DrainedEvent(host, Settle(s), false, 0, now)] else []
  }

  function PerOf(slots: seq<Slot>): map<int, MarkEntry> {
    if slots == [] then map[]
    else
      var s := slots[|slots| - 1];
      PerOf(slots[..|slots| - 1])[s.t.replica := MarkEntry(s.incarnation, s.counted)]
  }

  function Snapshot(p: Pool, at: Time): Pool {
    var marks := p.marks + [CountMark(at, p.unrouted, PerOf(p.targets))];
    p.(marks := if |marks| > MAX_COUNT_MARKS then marks[1..] else marks)
  }

  datatype Stepped = Stepped(pool: Pool, events: seq<Event>)

  function EmptyPool(): Pool { Pool("", 0, [], 0, 0, NO_COUNTS, []) }

  function Installed(p: Pool, r: Route, host: string, optDrain: int, now: Time, last: int): Stepped {
    var m := MergeAll(p.targets, r.targets, host, now, last);
    var sorted := SortByReplica(m.slots);
    var q := p.(host := host, drain := EffectiveDrain(r.drain, optDrain), targets := SettleAll(sorted),
                next := if p.next >= |sorted| then 0 else p.next);
    Stepped(Snapshot(q, now), m.events + SettleEvents(host, sorted, now))
  }

  // ----- picking

  predicate Eligible(s: Slot, skip: seq<int>, now: Time) {
    s.t.state.Routable() && s.t.replica !in skip && now >= s.failedUntil
  }

  function EligibleAt(slots: seq<Slot>, skip: seq<int>, now: Time): (r: seq<bool>)
    ensures |r| == |slots|
    ensures forall i :: 0 <= i < |slots| ==> r[i] == Eligible(slots[i], skip, now)
  {
    seq(|slots|, i requires 0 <= i < |slots| => Eligible(slots[i], skip, now))
  }

  /** The first eligible position at or after the `i`-th in cyclic order from the cursor. */
  function Scan(elig: seq<bool>, cursor: nat, i: nat): (r: Option<nat>)
    requires i <= |elig|
    ensures r.Some? ==> r.value < |elig| && elig[r.value]
    decreases |elig| - i
  {
    if i == |elig| then None
    else if elig[(cursor + i) % |elig|] then Some((cursor + i) % |elig|)
    else Scan(elig, cursor, i + 1)
  }

  datatype Picking = Picking(pool: Pool, target: Option<Target>)

  function Picked(p: Pool, skip: seq<int>, now: Time): Picking {
    match Scan(EligibleAt(p.targets, skip, now), p.next, 0)
    case None => Picking(p, None)
    case Some(idx) => Picking(p.(next := (idx + 1) % |p.targets|), Some(p.targets[idx].Live()))
  }

  // ----- connections

  function Opened(p: Pool, replica: int, cancellable: bool): Pool {
    match Find(p.targets, replica)
    case None => p
    case Some(i) =>
      var s := p.targets[i];
      p.(issued := p.issued + 1,
         targets := p.targets[i := s.(conns := s.conns[p.issued + 1 := cancellable])])
  }

  /** Closing an id on slot `i`: an id that is not open there changes nothing. */
  function Released(p: Pool, i: nat, id: int, at: Time): Stepped
    requires i < |p.targets|
  {
    var s := p.targets[i];
    if id !in s.conns then Stepped(p, [])
    else
      var closed := s.(conns := s.conns - {id});
      var settled := Settle(closed);
      Stepped(p.(targets := p.targets[i := settled]),
              if Settles(closed) then [DrainedEvent(p.host, settled, false, 0, at)] else [])
  }

  function Ended(p: Pool, replica: int, id: int, at: Time): Stepped {
    match Find(p.targets, replica)
    case None => Stepped(p, [])
    case Some(i) => Released(p, i, id, at)
  }

  /** The ids a "done" mark may close: one without a cancel if there is any, else any open id. */
  ghost predicate MayClose(s: Slot, id: int) {
    id in s.conns && (!s.conns[id] || forall k :: k in s.conns ==> s.conns[k])
  }

  function Failed(p: Pool, replica: int, at: Time, detail: string): Pool {
    match Find(p.targets, replica)
    case None => p
    case Some(i) =>
      var s := p.targets[i];
      p.(targets := p.targets[i := s.(failedUntil := at + FAILURE_WINDOW,
                                      t := if detail == "" then s.t else s.t.(detail := detail))])
  }

  function MarkedState(p: Pool, replica: int, state: TargetState, at: Time, detail: string): Stepped {
    match Find(p.targets, replica)
    case None => Stepped(p, [])
    case Some(i) =>
      var s := p.targets[i];
      if !state.Valid() || s.t.state == state then Stepped(p, [])
      else
        var t := s.t.(state := state, since := at, detail := if detail == "" then s.t.detail else detail);
        var moved := s.(t := t, reported := s.reported && state != Draining);
        var settled := Settle(moved);
        Stepped(p.(targets := p.targets[i := settled]),
                [TargetChanged(p.host, moved.Live(), at)]
                + if Settles(moved) then [DrainedEvent(p.host, settled, false, 0, at)] else [])
  }

  // ----- the drain sweep

  predicate Overdue(s: Slot, drain: int, now: Time) {
    s.Unreported() && now - s.t.since >= drain
  }

  function Cut(s: Slot, drain: int, now: Time): Slot {
    if Overdue(s, drain, now) then s.(conns := map[], reported := true) else s
  }

  function CutAll(slots: seq<Slot>, drain: int, now: Time): (r: seq<Slot>)
    ensures |r| == |slots|
    ensures forall i :: 0 <= i < |slots| ==> r[i] == Cut(slots[i], drain, now)
  {
    seq(|slots|, i requires 0 <= i < |slots| => Cut(slots[i], drain, now))
  }

  function CutEvents(host: string, slots: seq<Slot>, drain: int, now: Time): seq<Event> {
    if slots == [] then []
    else
      var s := slots[|slots| - 1];
      CutEvents(host, slots[..|slots| - 1], drain, now)
      + if Overdue(s, drain, now) then [DrainedEvent(host, Cut(s, drain, now), true, |s.conns|, now)] else []
  }

  function Swept(p: Pool, now: Time): Stepped {
    Stepped(p.(targets := CutAll(p.targets, p.drain, now)), CutEvents(p.host, p.targets, p.drain, now))
  }

  // ----- counting

  function Charge(status: int, connectFailed: bool): Counter {
    Counter(1, if !connectFailed && status >= 500 then 1 else 0, if connectFailed then 1 else 0)
  }

  function CountedRequest(p: Pool, replica: int, status: int, connectFailed: bool): Pool {
    match Find(p.targets, replica)
    case None => p.(unrouted := p.unrouted.Plus(Charge(status, connectFailed)))
    case Some(i) =>
      var s := p.targets[i];
      p.(targets := p.targets[i := s.(counted := s.counted.Plus(Charge(status, connectFailed)))])
  }

  function CountedUnrouted(p: Pool): Pool {
    p.(unrouted := p.unrouted.Plus(Counter(1, 1, 0)))
  }

  // ----- steps and runs

  datatype Op =
    | Install(route: Route, host: string, optDrain: int, now: Time, last: int)
    | Pick(skip: seq<int>, now: Time)
    | Begin(replica: int, cancellable: bool)
    | End(replica: int, id: int, at: Time)
    | Fail(replica: int, at: Time, detail: string)
    | SetState(replica: int, state: TargetState, at: Time, detail: string)
    | Sweep(now: Time)
    | CountRequest(replica: int, status: int, connectFailed: bool)
    | CountUnrouted

  function Step(p: Pool, op: Op): Stepped {
    match op
    case Install(r, host, optDrain, now, last) => Installed(p, r, host, optDrain, now, last)
    case Pick(skip, now) => Stepped(Picked(p, skip, now).pool, [])
    case Begin(replica, cancellable) => Stepped(Opened(p, replica, cancellable), [])
    case End(replica, id, at) => Ended(p, replica, id, at)
    case Fail(replica, at, detail) => Stepped(Failed(p, replica, at, detail), [])
    case SetState(replica, state, at, detail) => MarkedState(p, replica, state, at, detail)
    case Sweep(now) => Swept(p, now)
    case CountRequest(replica, status, failed) => Stepped(CountedRequest(p, replica, status, failed), [])
    case CountUnrouted => Stepped(CountedUnrouted(p), [])
  }
}
