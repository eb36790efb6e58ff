/**
 A daemon that dies in the middle of a promotion or a rollback, and the deploy resumed from the rows it
 left: exactly which sides are then stopped.
 */
module Crashes {
  import opened Edge
  import opened Rows
  import opened Pools
  import opened World
  import opened Outcomes
  import opened Deploys
  import opened Resumes
  import Watch

  // ----- what a resumed deploy takes a pool for

  /**
   Straight: as it was. Served: with nothing held behind it. Turned: with the sides exchanged. Alone:
   with the held side for the incoming one, and nothing behind it.
   */
  datatype Reading = Straight | Served | Turned | Alone

  ghost predicate ReadAs(t: Table, p: DeployPool, r: Reading) {
    match r
    case Straight => ActiveIn(t) == Ported(p.incoming) && HeldIn(t) == Ported(p.held)
    case Served => ActiveIn(t) == Ported(p.incoming) && HeldIn(t) == {}
    case Turned => ActiveIn(t) == Ported(p.held) && HeldIn(t) == Ported(p.incoming)
    case Alone => ActiveIn(t) == Ported(p.held) && HeldIn(t) == {}
  }

  ghost function FirstRow(rows: map<int, Table>, listed: seq<RouteRow>, service: string): Table {
    if RoutesOf(listed, service) == [] then map[] else RowsAt(rows, RoutesOf(listed, service)[0])
  }

  /** How the first route of each exposed pool reads. */
  ghost predicate ReadAll(rows: map<int, Table>, listed: seq<RouteRow>, was: seq<DeployPool>, rs: seq<Reading>) {
    && |rs| == |was|
    && forall k :: 0 <= k < |was| && was[k].exposed ==> ReadAs(FirstRow(rows, listed, was[k].service), was[k], rs[k])
  }

  /** Some pool that reads in one of two ways has a held replica with a row, or an incoming one. */
  ghost predicate SomeHeld(was: seq<DeployPool>, rs: seq<Reading>, a: Reading, b: Reading)
    requires |rs| == |was|
  {
    exists k :: 0 <= k < |was| && was[k].exposed && (rs[k] == a || rs[k] == b) && Ported(was[k].held) != {}
  }

  ghost predicate SomeIncoming(was: seq<DeployPool>, rs: seq<Reading>, a: Reading, b: Reading)
    requires |rs| == |was|
  {
    exists k :: 0 <= k < |was| && was[k].exposed && (rs[k] == a || rs[k] == b) && Ported(was[k].incoming) != {}
  }

  ghost predicate HeldStopped(stops: set<Container>, was: seq<DeployPool>) {
    exists c :: c in stops && IsHeld(was, c)
  }

  ghost predicate IncomingStopped(stops: set<Container>, was: seq<DeployPool>) {
    exists c :: c in stops && IsIncoming(was, c)
  }

  ghost predicate BothStopped(stops: set<Container>, was: seq<DeployPool>) {
    HeldStopped(stops, was) && IncomingStopped(stops, was)
  }

  // ----- exactly what a resumed deploy stops

  lemma HeldNumber(was: seq<DeployPool>, k: nat, c: Container)
    requires WellFormed(was) && k < |was| && was[k].exposed && c.service == was[k].service && IsHeld(was, c)
    ensures c.index !in Ported(was[k].incoming)
  {
    hide Sound, RoutesApart;
    if c.index in Ported(was[k].incoming) {
      var i := FromPorted(was[k].incoming, c.index);
      assert c == Container(was[k].service, was[k].incoming[i].index) && IsIncoming(was, c);
      SidesApart(was, c);
      assert false;
    }
  }

  lemma PoolOfSide(was: seq<DeployPool>, c: Container) returns (k: nat)
    requires IsHeld(was, c) || IsIncoming(was, c)
    ensures k < |was| && was[k].exposed && was[k].service == c.service
  {
    k :| 0 <= k < |was| && was[k].exposed && was[k].service == c.service;
  }

  /** Of one container: what the resumed deploy's verdict makes of it. */
  ghost predicate Stops(st: Status, rows: map<int, Table>, listed: seq<RouteRow>, c: Container) {
    (st == Promoted && ReadsHeld(rows, listed, c)) || (st == RolledBack && ReadsActive(rows, listed, c))
  }

  ghost predicate TakesHeld(st: Status, r: Reading) {
    (st == RolledBack && (r == Turned || r == Alone)) || (st == Promoted && r == Straight)
  }

  ghost predicate TakesIncoming(st: Status, r: Reading) {
    (st == RolledBack && (r == Straight || r == Served)) || (st == Promoted && r == Turned)
  }

  lemma StopsHeldHow(st: Status, rows: map<int, Table>, listed: seq<RouteRow>, was: seq<DeployPool>, rs: seq<Reading>,
                     k: nat, c: Container)
    requires WellFormed(was) && Covers(listed, was) && ReadAll(rows, listed, was, rs)
    requires k < |was| && was[k].exposed && c.service == was[k].service
    ensures IsHeld(was, c) && Stops(st, rows, listed, c) ==> TakesHeld(st, rs[k]) && c.index in Ported(was[k].held)
    ensures TakesHeld(st, rs[k]) && c.index in Ported(was[k].held) ==> Stops(st, rows, listed, c)
  {
    hide Sound, RoutesApart, ServicesApart, ActiveIn, HeldIn, Ported, IsHeld, RoutesOf;
    FirstIsOurs(listed, was[k]);
    if IsHeld(was, c) { HeldNumber(was, k, c); }
  }

  lemma StopsIncomingHow(st: Status, rows: map<int, Table>, listed: seq<RouteRow>, was: seq<DeployPool>, rs: seq<Reading>,
                         k: nat, c: Container)
    requires WellFormed(was) && IncomingPorted(was) && Covers(listed, was) && ReadAll(rows, listed, was, rs)
    requires k < |was| && was[k].exposed && c.service == was[k].service
    ensures IsIncoming(was, c) && Stops(st, rows, listed, c) ==> TakesIncoming(st, rs[k]) && c.index in Ported(was[k].incoming)
    ensures TakesIncoming(st, rs[k]) && c.index in Ported(was[k].incoming) ==> Stops(st, rows, listed, c)
  {
    hide Sound, RoutesApart, ActiveIn, HeldIn, Ported, IsHeld, IsIncoming, RoutesOf, IncomingPorted;
    FirstIsOurs(listed, was[k]);
    if IsIncoming(was, c) {
      IncomingByNumber(was, k, c);
      if c.index in Ported(was[k].held) {
        HeldByNumber(was, k, c);
        SidesApart(was, c);
        assert false;
      }
    }
  }

  /** The held side is touched if it was before the crash, or the resumed verdict takes it for the wrong one. */
  lemma HeldStoppedIff(st: Status, rows: map<int, Table>, listed: seq<RouteRow>, was: seq<DeployPool>, rs: seq<Reading>,
                       before: set<Container>, after: set<Container>)
    requires WellFormed(was) && Covers(listed, was) && ReadAll(rows, listed, was, rs)
    requires ResumedStops(st, rows, listed, before, after)
    ensures HeldStopped(after, was) <==>
      || HeldStopped(before, was)
      || (st == RolledBack && SomeHeld(was, rs, Turned, Alone))
      || (st == Promoted && SomeHeld(was, rs, Straight, Straight))
  {
    hide Sound, Apart, Covers, ReadAll, ReadsHeld, ReadsActive, Ported, IsHeld;
    assert |rs| == |was| by { ReadLength(rows, listed, was, rs); }
    if HeldStopped(after, was) {
      var c :| c in after && IsHeld(was, c);
      if c !in before {
        var k := PoolOfSide(was, c);
        StopsHeldHow(st, rows, listed, was, rs, k, c);
      }
    }
    if k :| 0 <= k < |was| && was[k].exposed && TakesHeld(st, rs[k]) && Ported(was[k].held) != {} {
      var x := Member(Ported(was[k].held));
      var c := Container(was[k].service, x);
      StopsHeldHow(st, rows, listed, was, rs, k, c);
      HeldByNumber(was, k, c);
    }
  }

  lemma Member(xs: set<int>) returns (x: int)
    requires xs != {}
    ensures x in xs
  {
    assert (forall y :: y !in xs) ==> xs == {};
    x :| x in xs;
  }

  lemma ReadLength(rows: map<int, Table>, listed: seq<RouteRow>, was: seq<DeployPool>, rs: seq<Reading>)
    requires ReadAll(rows, listed, was, rs)
    ensures |rs| == |was|
  {
  }

  lemma IncomingStoppedIff(st: Status, rows: map<int, Table>, listed: seq<RouteRow>, was: seq<DeployPool>, rs: seq<Reading>,
                           before: set<Container>, after: set<Container>)
    requires WellFormed(was) && IncomingPorted(was) && Covers(listed, was) && ReadAll(rows, listed, was, rs)
    requires ResumedStops(st, rows, listed, before, after)
    ensures IncomingStopped(after, was) <==>
      || IncomingStopped(before, was)
      || (st == RolledBack && SomeIncoming(was, rs, Straight, Served))
      || (st == Promoted && SomeIncoming(was, rs, Turned, Turned))
  {
    hide Sound, RoutesApart, Covers, ReadAll, ReadsHeld, ReadsActive, Ported, IsIncoming, IncomingPorted;
    assert |rs| == |was| by { ReadLength(rows, listed, was, rs); }
    if IncomingStopped(after, was) {
      var c :| c in after && IsIncoming(was, c);
      if c !in before {
        var k := PoolOfSide(was, c);
        StopsIncomingHow(st, rows, listed, was, rs, k, c);
      }
    }
    if k :| 0 <= k < |was| && was[k].exposed && TakesIncoming(st, rs[k]) && Ported(was[k].incoming) != {} {
      var x := Member(Ported(was[k].incoming));
      var c := Container(was[k].service, x);
      StopsIncomingHow(st, rows, listed, was, rs, k, c);
      IncomingByNumber(was, k, c);
    }
  }
  // ----- interrupted work

  ghost predicate OnSide(pools: seq<DeployPool>, held: bool, c: Container) {
    if held then IsHeld(pools, c) else IsIncoming(pools, c)
  }

  function SideOf(p: DeployPool, held: bool): seq<Replica> { if held then p.held else p.incoming }

  /** Stops the first `limit` containers of a side. `done` counts them, `ok` those that stopped. */
  method StopSome(run: DeployRun, held: bool, limit: nat) returns (done: nat, ok: nat)
    modifies run.m`running, run.m`stops, run.m`gone
    ensures forall c :: c in old(run.m.stops) ==> c in run.m.stops
    ensures forall c :: c in run.m.stops ==> c in old(run.m.stops) || OnSide(run.pools, held, c)
    ensures done == 0 ==> run.m.stops == old(run.m.stops)
    ensures done > 0 ==> exists c :: c in run.m.stops && OnSide(run.pools, held, c)
    ensures done <= limit && (done < limit ==> forall c :: OnSide(run.pools, held, c) ==> c in run.m.stops)
  {
    hide IsHeld, IsIncoming;
    var pools := run.pools;
    done, ok := 0, 0;
    SideNone(pools, held);
    for k := 0 to |pools|
      invariant forall c :: c in old(run.m.stops) ==> c in run.m.stops
      invariant forall c :: c in run.m.stops ==> c in old(run.m.stops) || OnSide(pools, held, c)
      invariant done == 0 ==> run.m.stops == old(run.m.stops)
      invariant done > 0 ==> exists c :: c in run.m.stops && OnSide(pools, held, c)
      invariant done <= limit
      invariant forall c :: OnSide(pools[..k], held, c) ==> c in run.m.stops
    {
      SideMore(pools, k, held);
      if !pools[k].exposed { continue; }
      var reps := SideOf(pools[k], held);
      for i := 0 to |reps|
        invariant forall c :: c in old(run.m.stops) ==> c in run.m.stops
        invariant forall c :: c in run.m.stops ==> c in old(run.m.stops) || OnSide(pools, held, c)
        invariant done == 0 ==> run.m.stops == old(run.m.stops)
        invariant done > 0 ==> exists c :: c in run.m.stops && OnSide(pools, held, c)
        invariant done <= limit
        invariant forall c :: OnSide(pools[..k], held, c) ==> c in run.m.stops
        invariant forall j :: 0 <= j < i ==> Container(pools[k].service, reps[j].index) in run.m.stops
      {
        if done == limit { return; }
        OneOfSide(pools, held, k, i);
        var stopped := run.m.StopReplica(Container(pools[k].service, reps[i].index));
        done := done + 1;
        if stopped { ok := ok + 1; }
      }
    }
    assert pools[..|pools|] == pools;
  }

  lemma SideNone(pools: seq<DeployPool>, held: bool)
    ensures forall c :: !OnSide(pools[..0], held, c)
  {
  }

  lemma OneOfSide(pools: seq<DeployPool>, held: bool, k: nat, i: nat)
    requires k < |pools| && pools[k].exposed && i < |SideOf(pools[k], held)|
    ensures OnSide(pools, held, Container(pools[k].service, SideOf(pools[k], held)[i].index))
  {
  }

  lemma SideMore(pools: seq<DeployPool>, k: nat, held: bool)
    requires k < |pools|
    ensures forall c :: OnSide(pools[..k + 1], held, c) ==>
      OnSide(pools[..k], held, c) || (pools[k].exposed && Named(pools[k].service, SideOf(pools[k], held), c))
  {
    hide IsHeld, IsIncoming;
    forall c | OnSide(pools[..k + 1], held, c)
      ensures OnSide(pools[..k], held, c) || (pools[k].exposed && Named(pools[k].service, SideOf(pools[k], held), c))
    {
      HeldOneMore(pools, k, c);
      IncomingOneMore(pools, k, c);
    }
  }

  /** Makes the first `limit` of the writes that record the pools. */
  method PushSome(run: DeployRun, limit: nat) returns (n: nat)
    modifies run.m`rows, run.m`writes, run.m`stored
    ensures n <= |Writes(run.pools, Both)| && n <= limit
    ensures Wrote(old(TraceOf(run.m)), TraceOf(run.m), Writes(run.pools, Both)[..n])
    ensures run.m.calm ==> n == limit || n == |Writes(run.pools, Both)|
  {
    hide Writes, Wrote, TableOf;
    var pools := run.pools;
    n := 0;
    WroteNone(TraceOf(run.m), pools, Both);
    for k := 0 to |pools|
      invariant n == |Writes(pools[..k], Both)| && n <= limit
      invariant Wrote(old(TraceOf(run.m)), TraceOf(run.m), Writes(pools[..k], Both))
    {
      if pools[k].exposed {
        ghost var before := TraceOf(run.m);
        var j := run.m.RecordSome(pools[k].routes, Listing(pools[k], Both), limit - n);
        WritesAt(pools, Both, k, j);
        WroteSome(old(TraceOf(run.m)), before, TraceOf(run.m), Writes(pools[..k], Both), pools[k], Both, j);
        n := n + j;
        if j < |pools[k].routes| { return; }
      } else {
        WritesSkip(pools, Both, k);
      }
    }
    assert pools[..|pools|] == pools;
    assert Writes(pools, Both)[..n] == Writes(pools, Both);
  }

  /** A promotion up to the death of the daemon: some stops and, once they are all made, some writes. */
  method PromoteUntil(run: DeployRun, stops: nat, writes: nat) returns (n: nat, w: nat)
    modifies run`pools, run.m`rows, run.m`writes, run.m`stored, run.m`running, run.m`stops, run.m`gone
    ensures run.pools == old(run.pools) || run.pools == Unheld(old(run.pools))
    ensures forall c :: c in run.m.stops ==> c in old(run.m.stops) || IsHeld(old(run.pools), c)
    ensures forall c :: c in old(run.m.stops) ==> c in run.m.stops
    ensures n == 0 ==> run.m.stops == old(run.m.stops)
    ensures n > 0 ==> exists c :: c in run.m.stops && IsHeld(old(run.pools), c)
    ensures n < stops ==> forall c :: IsHeld(old(run.pools), c) ==> c in run.m.stops
    ensures n <= stops && w <= |Writes(Unheld(old(run.pools)), Both)|
    ensures run.m.rows == Played(old(run.m.rows), Writes(Unheld(old(run.pools)), Both)[..w])
  {
    hide IsHeld, Writes, Unheld, Played;
    var ok: nat;
    n, ok := StopSome(run, true, stops);
    w := 0;
    WroteNone(TraceOf(run.m), Unheld(run.pools), Both);
    RowsWrote(TraceOf(run.m), TraceOf(run.m), []);
    if n == stops { return; }
    run.pools := Unheld(run.pools);
    if ok > 0 {
      ghost var a := TraceOf(run.m);
      w := PushSome(run, writes);
      RowsWrote(a, TraceOf(run.m), Writes(run.pools, Both)[..w]);
    }
  }

  /** A rollback up to the death of the daemon. */
  method RollbackUntil(run: DeployRun, writes: nat, stops: nat, after: nat) returns (w: nat, n: nat, v: nat)
    modifies run`pools, run.m`rows, run.m`writes, run.m`stored, run.m`running, run.m`stops, run.m`gone
    ensures var given := RestatedAll(old(run.pools), Some(RDraining), Some(RActive));
      var back := PutBack(Emptied(given));
      && w <= |Writes(given, Both)| && v <= |Writes(back, Both)|
      && run.m.rows == Played(Played(old(run.m.rows), Writes(given, Both)[..w]), Writes(back, Both)[..v])
      && (n > 0 || v > 0 ==> w == |Writes(given, Both)|)
      && (run.m.calm ==> w == writes || w == |Writes(given, Both)|)
    ensures forall c :: c in old(run.m.stops) ==> c in run.m.stops
    ensures forall c :: c in run.m.stops ==> c in old(run.m.stops) || IsIncoming(old(run.pools), c)
    ensures n == 0 ==> run.m.stops == old(run.m.stops)
    ensures n > 0 ==> exists c :: c in run.m.stops && IsIncoming(old(run.pools), c)
    ensures w == |Writes(RestatedAll(old(run.pools), Some(RDraining), Some(RActive)), Both)| && n < stops ==>
      forall c :: IsIncoming(old(run.pools), c) ==> c in run.m.stops
  {
    hide IsIncoming, Writes, Played, RestatedAll, Emptied, PutBack;
    ghost var was := run.pools;
    run.Restate(Some(RDraining), Some(RActive));
    ghost var given := run.pools;
    ghost var a := TraceOf(run.m);
    w := PushSome(run, writes);
    RowsWrote(a, TraceOf(run.m), Writes(given, Both)[..w]);
    n, v := 0, 0;
    PlayedNothing(run.m.rows, PutBack(Emptied(given)));
    var all := CountWrites(run.pools);
    if w < all { return; }
    SidesRestated(was);
    var ok: nat;
    n, ok := StopSome(run, false, stops);
    if n == stops { return; }
    run.pools := Emptied(run.pools);
    run.Swap();
    ghost var b := TraceOf(run.m);
    v := PushSome(run, after);
    RowsWrote(b, TraceOf(run.m), Writes(run.pools, Both)[..v]);
  }

  lemma PlayedNothing(rows: map<int, Table>, pools: seq<DeployPool>)
    ensures Played(rows, Writes(pools, Both)[..0]) == rows
  {
  }

  lemma SidesRestated(was: seq<DeployPool>)
    ensures forall c :: IsIncoming(RestatedAll(was, Some(RDraining), Some(RActive)), c) <==> IsIncoming(was, c)
  {
    hide IsIncoming, IsHeld, RestatedAll, BareAll;
    RestatedSides(was, Some(RDraining), Some(RActive));
    forall c ensures IsIncoming(RestatedAll(was, Some(RDraining), Some(RActive)), c) <==> IsIncoming(was, c) {
      BareSides(was, c);
      BareSides(RestatedAll(was, Some(RDraining), Some(RActive)), c);
    }
  }

  method CountWrites(pools: seq<DeployPool>) returns (n: nat)
    ensures n == |Writes(pools, Both)|
  {
    hide TableOf;
    n := 0;
    for k := 0 to |pools|
      invariant n == |Writes(pools[..k], Both)|
    {
      WritesLast(pools[..k + 1], Both);
      assert pools[..k + 1][..k] == pools[..k];
      if pools[k].exposed { n := n + |pools[k].routes|; }
    }
    assert pools[..|pools|] == pools;
  }
  // ----- how interrupted work reads

  /** The first route after some writes: the rows of its pool if it was written to, else those it had. */
  lemma PlayedFirst(rows: map<int, Table>, pools: seq<DeployPool>, n: nat, k: nat, f: int)
    requires RoutesApart(pools) && n <= |Writes(pools, Both)| && k < |pools| && pools[k].exposed && f in pools[k].routes
    ensures RowsAt(Played(rows, Writes(pools, Both)[..n]), f)
         == if WrittenTo(Writes(pools, Both)[..n], f) then TableOf(Listing(pools[k], Both)) else RowsAt(rows, f)
  {
    hide Writes, Want, Played, RoutesApart, WrittenTo, TableOf, Listing, WrittenFrom;
    PrefixRecords(rows, pools, Both, n);
    PlayedAt(rows, Writes(pools, Both)[..n], Want(pools, Both), f);
    WantAt(pools, Both, k, f);
  }

  ghost predicate FirstWritten(pools: seq<DeployPool>, n: nat, listed: seq<RouteRow>, service: string)
    requires n <= |Writes(pools, Both)|
  {
    RoutesOf(listed, service) != [] && WrittenTo(Writes(pools, Both)[..n], RoutesOf(listed, service)[0])
  }

  /** Rows recorded of pools that have the same routes as `was`, read from the first one of each service. */
  lemma FirstRead(rows: map<int, Table>, pools: seq<DeployPool>, n: nat, listed: seq<RouteRow>, was: seq<DeployPool>, k: nat)
    requires Apart(pools) && SameShape(pools, was) && n <= |Writes(pools, Both)| && Covers(listed, was)
    requires k < |was| && was[k].exposed
    ensures FirstRow(Played(rows, Writes(pools, Both)[..n]), listed, was[k].service)
         == if FirstWritten(pools, n, listed, was[k].service) then TableOf(Listing(pools[k], Both))
            else FirstRow(rows, listed, was[k].service)
  {
    hide Writes, Played, RoutesApart, WrittenTo, TableOf, Listing, RoutesOf;
    FirstIsOurs(listed, was[k]);
    PlayedFirst(rows, pools, n, k, RoutesOf(listed, was[k].service)[0]);
  }

  lemma SwitchedReads(rows: map<int, Table>, listed: seq<RouteRow>, was: seq<DeployPool>, k: nat)
    requires Switched(rows, was) && Covers(listed, was) && k < |was| && was[k].exposed
    ensures ReadAs(FirstRow(rows, listed, was[k].service), was[k], Straight)
  {
    hide ActiveIn, HeldIn, Ported, AllPorted, RoutesOf;
    FirstIsOurs(listed, was[k]);
  }

  lemma PortsOf(pools: seq<DeployPool>, k: nat)
    requires k < |pools|
    ensures Ported(BareAll(pools)[k].incoming) == Ported(pools[k].incoming)
    ensures Ported(BareAll(pools)[k].held) == Ported(pools[k].held)
  {
    BareKeepsPorts(pools[k]);
  }

  lemma PortedRestated(p: DeployPool, incoming: Option<ReplicaState>, held: Option<ReplicaState>)
    ensures var q := Restated(p, incoming, held);
      Ported(q.incoming) == Ported(p.incoming) && Ported(q.held) == Ported(p.held)
  {
    RestatedBare(p, incoming, held);
    BareKeepsPorts(p);
    BareKeepsPorts(Restated(p, incoming, held));
  }

  // -- a promotion

  ghost function PromotionReadings(pools: seq<DeployPool>, w: nat, listed: seq<RouteRow>): (rs: seq<Reading>)
    requires w <= |Writes(Unheld(pools), Both)|
    ensures |rs| == |pools| && forall k :: 0 <= k < |rs| ==> rs[k] == Straight || rs[k] == Served
  {
    seq(|pools|, k requires 0 <= k < |pools| =>
      if FirstWritten(Unheld(pools), w, listed, pools[k].service) then Served else Straight)
  }

  lemma PromotionReads(rows: map<int, Table>, pools: seq<DeployPool>, w: nat, listed: seq<RouteRow>)
    requires Sound(pools) && Apart(pools) && AllServing(pools) && Switched(rows, BareAll(pools)) && Covers(listed, BareAll(pools))
    requires w <= |Writes(Unheld(pools), Both)|
    ensures ReadAll(Played(rows, Writes(Unheld(pools), Both)[..w]), listed, BareAll(pools), PromotionReadings(pools, w, listed))
  {
    var was, less := BareAll(pools), Unheld(pools);
    UnheldWellFormed(pools);
    assert SameShape(less, was);
    forall k | 0 <= k < |was| && was[k].exposed
      ensures ReadAs(FirstRow(Played(rows, Writes(less, Both)[..w]), listed, was[k].service), was[k],
                     PromotionReadings(pools, w, listed)[k])
    {
      assert PoolOk(less[k]) && Serving(less[k]);
      hide Sound, Apart, Switched, Covers, Writes, Played, Unheld, FirstWritten, FirstRow, TableOf, ActiveIn, HeldIn, PoolOk, Serving, SameShape;
      FirstRead(rows, less, w, listed, was, k);
      SwitchedReads(rows, listed, was, k);
      PortsOf(pools, k);
      ServingTable(less[k]);
      NoPorts();
    }
  }

  lemma NoPorts()
    ensures Ported([]) == {}
  {
  }

  // -- a rollback

  ghost function RollbackReadings(pools: seq<DeployPool>, w: nat, v: nat, listed: seq<RouteRow>): (rs: seq<Reading>)
    requires var given := RestatedAll(pools, Some(RDraining), Some(RActive));
      w <= |Writes(given, Both)| && v <= |Writes(PutBack(Emptied(given)), Both)|
    ensures |rs| == |pools|
  {
    var given := RestatedAll(pools, Some(RDraining), Some(RActive));
    seq(|pools|, k requires 0 <= k < |pools| =>
      if FirstWritten(PutBack(Emptied(given)), v, listed, pools[k].service) then Alone
      else if FirstWritten(given, w, listed, pools[k].service) then Turned
      else Straight)
  }

  lemma RollbackReads(rows: map<int, Table>, pools: seq<DeployPool>, w: nat, v: nat, listed: seq<RouteRow>)
    requires Sound(pools) && Apart(pools) && Switched(rows, BareAll(pools)) && Covers(listed, BareAll(pools))
    requires var given := RestatedAll(pools, Some(RDraining), Some(RActive));
      w <= |Writes(given, Both)| && v <= |Writes(PutBack(Emptied(given)), Both)|
    ensures var given := RestatedAll(pools, Some(RDraining), Some(RActive));
      ReadAll(Played(Played(rows, Writes(given, Both)[..w]), Writes(PutBack(Emptied(given)), Both)[..v]), listed,
              BareAll(pools), RollbackReadings(pools, w, v, listed))
  {
    var was, given := BareAll(pools), RestatedAll(pools, Some(RDraining), Some(RActive));
    var back := PutBack(Emptied(given));
    RestatedSides(pools, Some(RDraining), Some(RActive));
    BackInPlace(pools);
    assert SameShape(given, was) && SameShape(back, was);
    hide Sound, Apart, Switched, Covers, Writes, Played, FirstRow, ReadAs, SameShape, RestatedAll, PutBack, Emptied,
         RollbackReadings;
    forall k | 0 <= k < |was| && was[k].exposed
      ensures ReadAs(FirstRow(Played(Played(rows, Writes(given, Both)[..w]), Writes(back, Both)[..v]), listed, was[k].service),
                     was[k], RollbackReadings(pools, w, v, listed)[k])
    {
      RollbackReadsAt(rows, pools, w, v, listed, k);
    }
  }

  /** The pools of a rollback, one by one. */
  lemma GivenAt(pools: seq<DeployPool>, k: nat)
    requires Sound(pools) && k < |pools| && pools[k].exposed
    ensures var given := RestatedAll(pools, Some(RDraining), Some(RActive));
      var back := PutBack(Emptied(given));
      && PoolOk(given[k]) && GivingUp(given[k]) && PoolOk(back[k]) && Serving(back[k])
      && Ported(given[k].incoming) == Ported(pools[k].incoming) && Ported(given[k].held) == Ported(pools[k].held)
      && Ported(back[k].incoming) == Ported(pools[k].held) && Ported(back[k].held) == {}
  {
    hide Ported;
    var given := RestatedAll(pools, Some(RDraining), Some(RActive));
    RestatedSides(pools, Some(RDraining), Some(RActive));
    BackInPlace(pools);
    PortedRestated(pools[k], Some(RDraining), Some(RActive));
    NoPorts();
    assert given[k] == Restated(pools[k], Some(RDraining), Some(RActive));
  }

  lemma RollbackReadsAt(rows: map<int, Table>, pools: seq<DeployPool>, w: nat, v: nat, listed: seq<RouteRow>, k: nat)
    requires Sound(pools) && Switched(rows, BareAll(pools)) && Covers(listed, BareAll(pools))
    requires k < |pools| && pools[k].exposed
    requires var given := RestatedAll(pools, Some(RDraining), Some(RActive));
      var back := PutBack(Emptied(given));
      && w <= |Writes(given, Both)| && v <= |Writes(back, Both)|
      && Apart(given) && Apart(back) && SameShape(given, BareAll(pools)) && SameShape(back, BareAll(pools))
    ensures var given := RestatedAll(pools, Some(RDraining), Some(RActive));
      var back, was := PutBack(Emptied(given)), BareAll(pools)[k];
      ReadAs(FirstRow(Played(Played(rows, Writes(given, Both)[..w]), Writes(back, Both)[..v]), listed, was.service), was,
             RollbackReadings(pools, w, v, listed)[k])
  {
    var given := RestatedAll(pools, Some(RDraining), Some(RActive));
    var was, back := BareAll(pools), PutBack(Emptied(given));
    assert was[k].exposed && was[k].service == pools[k].service;
    GivenAt(pools, k);
    hide Sound, Apart, Switched, Covers, Writes, Played, FirstWritten, FirstRow, TableOf, ActiveIn, HeldIn, PoolOk, Serving, GivingUp,
         SameShape, RestatedAll, PutBack, Emptied, Ported;
    FirstRead(Played(rows, Writes(given, Both)[..w]), back, v, listed, was, k);
    FirstRead(rows, given, w, listed, was, k);
    SwitchedReads(rows, listed, was, k);
    PortsOf(pools, k);
    ServingTable(back[k]);
    GivingUpTable(given[k]);
  }

  // ----- crash, resume, verdict

  /** A deploy resumed from whatever rows there are, and watched to its end. */
  method ResumeAndWatch(m: World, policy: Watch.Policy, listed: seq<RouteRow>, beats: seq<Watch.Beat>)
    returns (next: Option<DeployRun>, e: Watch.Ended)
    requires DistinctRoutes(listed)
    modifies m`rows, m`writes, m`stored, m`running, m`stops, m`gone, m`clock
    ensures next.Some? ==> && fresh(next.value) && next.value.m == m && DeployRun.Decides(e.verdict, next.value.status, m.calm)
                           && e == Watch.Life(Watch.Run(policy, next.value.flippedAt, ZERO_TIME, true), true, beats)
                           && ResumedStops(next.value.status, old(m.rows), listed, old(m.stops), m.stops)
    ensures m.calm ==> next.Some?
    ensures m.calm && 0.0 <= policy.maxRate < 1.0 && beats == [BreachBeat()] ==> next.value.status == RolledBack
  {
    hide DistinctRoutes, Regrouped, ReadFrom, Sound, Apart, AllServing, Watch.Life, BareAll, Writes, Wrote, AllStill, WentOn,
         WentBack, ResumedStops;
    ghost var rows, before := m.rows, m.stops;
    ghost var n: nat;
    e := Watch.Ended(Watch.Pending, Watch.Run(policy, ZERO_TIME, ZERO_TIME, true), 0);
    next, n := ResumeRun(m, policy, listed);
    if next.None? { return; }
    ghost var pools, b := next.value.pools, TraceOf(m);
    e := TakeOver(next.value, beats);
    ResumedStopsRead(next.value.status, rows, listed, pools, b, TraceOf(m));
    if 0.0 <= policy.maxRate < 1.0 { BreachBeatRollsBack(Watch.Run(policy, next.value.flippedAt, ZERO_TIME, true)); }
  }

  /** A deploy in its watch, as a crash finds it. */
  ghost predicate Interruptible(run: DeployRun, listed: seq<RouteRow>)
    reads run, run.m
  {
    && run.InWatch() && Apart(run.sides) && IncomingPorted(run.sides) && Switched(run.m.rows, run.sides)
    && Covers(listed, run.sides) && run.m.stops == {}
  }

  lemma BareOf(run: DeployRun)
    requires run.InWatch() && Apart(run.sides)
    ensures Sound(run.pools) && Apart(run.pools) && AllServing(run.pools) && run.sides == BareAll(run.pools) && WellFormed(run.sides)
  {
    BareWellFormed(run.pools);
  }

  ghost predicate HasHeld(was: seq<DeployPool>) { exists c :: IsHeld(was, c) }

  ghost predicate HasIncoming(was: seq<DeployPool>) { exists c :: IsIncoming(was, c) }

  /**
   A crash after any number of a promotion's stops and writes, and a resumed deploy with any verdict:
   both sides are stopped if and only if the first had stopped something, there is a new pool to
   stop, and the second is rolled back. How many rows were written does not matter.
   */
  method CrashInPromotion(run: DeployRun, stops: nat, writes: nat, listed: seq<RouteRow>, beats: seq<Watch.Beat>)
    returns (next: Option<DeployRun>)
    requires DistinctRoutes(listed) && Interruptible(run, listed)
    modifies run`pools
    modifies run.m`rows, run.m`writes, run.m`stored, run.m`running, run.m`stops, run.m`gone, run.m`clock
    ensures next.Some? ==> fresh(next.value)
    ensures next.Some? ==>
      (BothStopped(run.m.stops, run.sides) <==>
       next.value.status == RolledBack && stops > 0 && HasHeld(run.sides) && HasIncoming(run.sides))
    ensures run.m.calm ==> next.Some?
    ensures run.m.calm && 0.0 <= run.policy.maxRate < 1.0 && beats == [BreachBeat()] ==> next.value.status == RolledBack
  {
    hide DistinctRoutes, Sound, Apart, AllServing, BareAll, Writes, Switched, Covers, IncomingPorted, IsHeld, IsIncoming, Played,
         Unheld, ReadAll, ResumedStops, RoutesOf, Watch.Life, FirstWritten, PromotionReadings, HasHeld, HasIncoming, BothStopped;
    BareOf(run);
    ghost var was, rows, sides := run.pools, run.m.rows, run.sides;
    SidesOf(was);
    var n, w := PromoteUntil(run, stops, writes);
    ghost var mid, before := run.m.rows, run.m.stops;
    PromotionReads(rows, was, w, listed);
    ghost var rs := PromotionReadings(was, w, listed);
    var e: Watch.Ended;
    next, e := ResumeAndWatch(run.m, run.policy, listed, beats);
    if next.Some? {
      PromotionStops(next.value.status, mid, listed, sides, rs, before, run.m.stops, n, stops);
    }
  }

  lemma SidesOf(pools: seq<DeployPool>)
    ensures forall c :: IsHeld(pools, c) <==> IsHeld(BareAll(pools), c)
    ensures forall c :: IsIncoming(pools, c) <==> IsIncoming(BareAll(pools), c)
  {
    hide IsHeld, IsIncoming, BareAll;
    forall c
      ensures IsHeld(BareAll(pools), c) <==> IsHeld(pools, c)
      ensures IsIncoming(BareAll(pools), c) <==> IsIncoming(pools, c)
    {
      BareSides(pools, c);
    }
  }

  lemma SomeIncomingIs(was: seq<DeployPool>, rs: seq<Reading>, a: Reading, b: Reading)
    requires |rs| == |was| && ServicesApart(was) && IncomingPorted(was) && forall k :: 0 <= k < |rs| ==> rs[k] == a || rs[k] == b
    ensures SomeIncoming(was, rs, a, b) <==> HasIncoming(was)
  {
    hide Ported;
    if HasIncoming(was) {
      var c :| IsIncoming(was, c);
      var k := PoolOfSide(was, c);
      IncomingByNumber(was, k, c);
    }
    if SomeIncoming(was, rs, a, b) {
      var k :| 0 <= k < |was| && was[k].exposed && (rs[k] == a || rs[k] == b) && Ported(was[k].incoming) != {};
      var x := Member(Ported(was[k].incoming));
      IncomingByNumber(was, k, Container(was[k].service, x));
    }
  }

  lemma PromotionStops(st: Status, rows: map<int, Table>, listed: seq<RouteRow>, was: seq<DeployPool>, rs: seq<Reading>,
                       before: set<Container>, after: set<Container>, n: nat, limit: nat)
    requires WellFormed(was) && IncomingPorted(was) && Covers(listed, was) && ReadAll(rows, listed, was, rs)
    requires ResumedStops(st, rows, listed, before, after) && (forall c :: c in before ==> IsHeld(was, c))
    requires |rs| == |was| && forall k :: 0 <= k < |rs| ==> rs[k] == Straight || rs[k] == Served
    requires n <= limit && (n == 0 ==> before == {}) && (n > 0 ==> exists c :: c in before && IsHeld(was, c))
    requires n < limit ==> forall c :: IsHeld(was, c) ==> c in before
    ensures BothStopped(after, was) <==> st == RolledBack && limit > 0 && HasHeld(was) && HasIncoming(was)
  {
    HeldStoppedIff(st, rows, listed, was, rs, before, after);
    IncomingStoppedIff(st, rows, listed, was, rs, before, after);
    SomeIncomingIs(was, rs, Straight, Served);
    hide Sound, RoutesApart, ServicesApart, Covers, ReadAll, ResumedStops, IsHeld, IsIncoming, IncomingPorted;
    forall c | c in before ensures !IsIncoming(was, c) { SidesApart(was, c); }
  }
  // -- a rollback

  /** The first route of the pool's service shows the held side again after `w` writes of a rollback. */
  ghost predicate TurnedAt(pools: seq<DeployPool>, w: nat, listed: seq<RouteRow>, k: nat)
    requires w <= |Writes(RestatedAll(pools, Some(RDraining), Some(RActive)), Both)| && k < |pools|
  {
    FirstWritten(RestatedAll(pools, Some(RDraining), Some(RActive)), w, listed, pools[k].service)
  }

  /** Some pool, turned or not, has a held replica with a row; and an incoming one. */
  ghost predicate HeldWhere(pools: seq<DeployPool>, w: nat, listed: seq<RouteRow>, turned: bool)
    requires w <= |Writes(RestatedAll(pools, Some(RDraining), Some(RActive)), Both)|
  {
    exists k :: 0 <= k < |pools| && pools[k].exposed && TurnedAt(pools, w, listed, k) == turned && Ported(pools[k].held) != {}
  }

  ghost predicate IncomingWhere(pools: seq<DeployPool>, w: nat, listed: seq<RouteRow>, turned: bool)
    requires w <= |Writes(RestatedAll(pools, Some(RDraining), Some(RActive)), Both)|
  {
    exists k :: 0 <= k < |pools| && pools[k].exposed && TurnedAt(pools, w, listed, k) == turned && Ported(pools[k].incoming) != {}
  }

  lemma AllTurned(pools: seq<DeployPool>, listed: seq<RouteRow>, k: nat)
    requires Apart(pools) && Covers(listed, BareAll(pools)) && k < |pools| && pools[k].exposed
    ensures var given := RestatedAll(pools, Some(RDraining), Some(RActive)); TurnedAt(pools, |Writes(given, Both)|, listed, k)
  {
    var given := RestatedAll(pools, Some(RDraining), Some(RActive));
    var p := BareAll(pools)[k];
    assert p.exposed && CoversPool(listed, p);
    FirstIsOurs(listed, p);
    RestatedSides(pools, Some(RDraining), Some(RActive));
    var f := RoutesOf(listed, p.service)[0];
    assert f in given[k].routes && given[k].exposed;
    hide Writes, Want, RestatedAll, WrittenTo, RoutesOf;
    WritesWanted(given, Both);
    WantAt(given, Both, k, f);
    assert Writes(given, Both)[..|Writes(given, Both)|] == Writes(given, Both);
  }

  /** What the readings of an interrupted rollback come to. */
  lemma RollbackWhere(pools: seq<DeployPool>, w: nat, v: nat, listed: seq<RouteRow>)
    requires Apart(pools) && Covers(listed, BareAll(pools))
    requires var given := RestatedAll(pools, Some(RDraining), Some(RActive));
      && w <= |Writes(given, Both)| && v <= |Writes(PutBack(Emptied(given)), Both)|
      && (v > 0 ==> w == |Writes(given, Both)|)
    ensures var rs, was := RollbackReadings(pools, w, v, listed), BareAll(pools);
      && (SomeHeld(was, rs, Turned, Alone) <==> HeldWhere(pools, w, listed, true))
      && (SomeIncoming(was, rs, Straight, Served) <==> IncomingWhere(pools, w, listed, false))
      && (SomeHeld(was, rs, Straight, Straight) <==> HeldWhere(pools, w, listed, false))
      && (HeldWhere(pools, w, listed, false) ==>
            (SomeIncoming(was, rs, Turned, Turned) <==> IncomingWhere(pools, w, listed, true)))
  {
    var rs, was := RollbackReadings(pools, w, v, listed), BareAll(pools);
    hide Apart, Covers, RollbackReadings, TurnedAt, Ported, Writes, RestatedAll, PutBack, Emptied;
    forall k | 0 <= k < |pools| && pools[k].exposed
      ensures rs[k] == Turned || rs[k] == Alone <==> TurnedAt(pools, w, listed, k)
      ensures rs[k] == Straight <==> !TurnedAt(pools, w, listed, k)
      ensures v == 0 ==> rs[k] != Alone
      ensures v > 0 ==> TurnedAt(pools, w, listed, k)
      ensures Ported(was[k].incoming) == Ported(pools[k].incoming) && Ported(was[k].held) == Ported(pools[k].held)
    {
      RollbackAt(pools, w, v, listed, k);
      PortsOf(pools, k);
    }
    assert forall k :: 0 <= k < |pools| ==> was[k].exposed == pools[k].exposed;
    assert |rs| == |was| == |pools|;
  }

  lemma RollbackAt(pools: seq<DeployPool>, w: nat, v: nat, listed: seq<RouteRow>, k: nat)
    requires Apart(pools) && Covers(listed, BareAll(pools)) && k < |pools| && pools[k].exposed
    requires var given := RestatedAll(pools, Some(RDraining), Some(RActive));
      && w <= |Writes(given, Both)| && v <= |Writes(PutBack(Emptied(given)), Both)|
      && (v > 0 ==> w == |Writes(given, Both)|)
    ensures var r := RollbackReadings(pools, w, v, listed)[k];
      && (r == Turned || r == Alone <==> TurnedAt(pools, w, listed, k)) && (r == Straight <==> !TurnedAt(pools, w, listed, k))
      && (v == 0 ==> r != Alone) && (v > 0 ==> TurnedAt(pools, w, listed, k))
  {
    AllTurned(pools, listed, k);
    if v == 0 { NotWritten(PutBack(Emptied(RestatedAll(pools, Some(RDraining), Some(RActive)))), listed, pools[k].service); }
  }

  lemma NotWritten(pools: seq<DeployPool>, listed: seq<RouteRow>, service: string)
    ensures !FirstWritten(pools, 0, listed, service)
  {
  }

  /**
   A crash after any number of a rollback's writes and stops, and a resumed deploy with any verdict:
   both sides are stopped exactly when a pool was already turned, so that the resumed rollback takes
   its held side for the new one, and the new side of this or another pool was or is stopped; or when
   some pools were turned and others not, and the resumed deploy is promoted.
   */
  method CrashInRollback(run: DeployRun, writes: nat, stops: nat, after: nat, listed: seq<RouteRow>, beats: seq<Watch.Beat>)
    returns (next: Option<DeployRun>, w: nat, n: nat)
    requires DistinctRoutes(listed) && Interruptible(run, listed)
    modifies run`pools
    modifies run.m`rows, run.m`writes, run.m`stored, run.m`running, run.m`stops, run.m`gone, run.m`clock
    ensures next.Some? ==> fresh(next.value)
    ensures w <= |Writes(RestatedAll(old(run.pools), Some(RDraining), Some(RActive)), Both)|
    ensures next.Some? ==>
      (BothStopped(run.m.stops, run.sides) <==>
       || (next.value.status == RolledBack && HeldWhere(old(run.pools), w, listed, true)
           && (n > 0 || IncomingWhere(old(run.pools), w, listed, false)))
       || (next.value.status == Promoted && HeldWhere(old(run.pools), w, listed, false)
           && IncomingWhere(old(run.pools), w, listed, true)))
    ensures stops > 0 && HasIncoming(run.sides) ==>
      w == |Writes(RestatedAll(old(run.pools), Some(RDraining), Some(RActive)), Both)| ==> n > 0
    ensures run.m.calm ==> next.Some? && (w == writes || w == |Writes(RestatedAll(old(run.pools), Some(RDraining), Some(RActive)), Both)|)
    ensures run.m.calm && 0.0 <= run.policy.maxRate < 1.0 && beats == [BreachBeat()] ==> next.value.status == RolledBack
  {
    hide DistinctRoutes, Sound, Apart, AllServing, BareAll, Writes, Switched, Covers, IncomingPorted, IsHeld, IsIncoming, Played,
         ReadAll, ResumedStops, RoutesOf, Watch.Life, FirstWritten, RollbackReadings, BothStopped, HeldWhere, IncomingWhere,
         RestatedAll, PutBack, Emptied, SomeHeld, SomeIncoming, Interruptible;
    InterruptibleMeans(run, listed);
    BareOf(run);
    ghost var was, rows, sides := run.pools, run.m.rows, run.sides;
    SidesOf(was);
    var v: nat;
    w, n, v := RollbackUntil(run, writes, stops, after);
    ghost var mid, before := run.m.rows, run.m.stops;
    RollbackReads(rows, was, w, v, listed);
    RollbackWhere(was, w, v, listed);
    ghost var rs := RollbackReadings(was, w, v, listed);
    var e: Watch.Ended;
    next, e := ResumeAndWatch(run.m, run.policy, listed, beats);
    if next.Some? {
      HeldStoppedIff(next.value.status, mid, listed, sides, rs, before, run.m.stops);
      IncomingStoppedIff(next.value.status, mid, listed, sides, rs, before, run.m.stops);
      OnlyIncoming(sides, before, n);
      TurnedLater(was, w, n, listed);
      BothMeans(run.m.stops, sides);
    }
  }

  lemma InterruptibleMeans(run: DeployRun, listed: seq<RouteRow>)
    requires Interruptible(run, listed)
    ensures && run.InWatch() && Apart(run.sides) && IncomingPorted(run.sides) && Switched(run.m.rows, run.sides)
            && Covers(listed, run.sides) && run.m.stops == {}
  {
  }

  lemma OnlyIncoming(was: seq<DeployPool>, before: set<Container>, n: nat)
    requires WellFormed(was) && forall c :: c in before ==> IsIncoming(was, c)
    requires (n == 0 ==> before == {}) && (n > 0 ==> exists c :: c in before && IsIncoming(was, c))
    ensures !HeldStopped(before, was) && (IncomingStopped(before, was) <==> n > 0)
  {
    hide Sound, Apart, IsHeld, IsIncoming;
    forall c | c in before ensures !IsHeld(was, c) { SidesApart(was, c); }
  }

  /** Once anything is stopped every pool has been turned. */
  lemma TurnedLater(pools: seq<DeployPool>, w: nat, n: nat, listed: seq<RouteRow>)
    requires Apart(pools) && Covers(listed, BareAll(pools))
    requires w <= |Writes(RestatedAll(pools, Some(RDraining), Some(RActive)), Both)|
    requires n > 0 ==> w == |Writes(RestatedAll(pools, Some(RDraining), Some(RActive)), Both)|
    ensures n > 0 ==> !HeldWhere(pools, w, listed, false)
  {
    hide Apart, Covers, TurnedAt, Ported, Writes, RestatedAll;
    if n > 0 {
      forall k | 0 <= k < |pools| && pools[k].exposed ensures TurnedAt(pools, w, listed, k) {
        AllTurned(pools, listed, k);
      }
    }
  }

  lemma BothMeans(stops: set<Container>, was: seq<DeployPool>)
    ensures BothStopped(stops, was) <==> HeldStopped(stops, was) && IncomingStopped(stops, was)
  {
  }

  // ----- runs that stop both sides

  /**
   A promotion that crashed after any stop, be it before its rows or with everything done but the
   status: in a calm world a resumed rollback stops the other side too.
   */
  method BothByPromotion(run: DeployRun, stops: nat, writes: nat, listed: seq<RouteRow>)
    requires DistinctRoutes(listed) && Interruptible(run, listed) && run.m.calm && 0.0 <= run.policy.maxRate < 1.0
    requires HasHeld(run.sides) && HasIncoming(run.sides) && stops > 0
    modifies run`pools
    modifies run.m`rows, run.m`writes, run.m`stored, run.m`running, run.m`stops, run.m`gone, run.m`clock
    ensures BothStopped(run.m.stops, run.sides)
  {
    hide DistinctRoutes, Interruptible, HasHeld, HasIncoming, BothStopped;
    var _ := CrashInPromotion(run, stops, writes, listed, [BreachBeat()]);
  }

  /**
   A rollback that crashed once everything was turned and something stopped: in a calm world the
   resumed deploy takes the old pool for the new one, and its rollback stops that too.
   */
  method BothByRollback(run: DeployRun, writes: nat, stops: nat, after: nat, listed: seq<RouteRow>)
    requires DistinctRoutes(listed) && Interruptible(run, listed) && run.m.calm && 0.0 <= run.policy.maxRate < 1.0
    requires var all := |Writes(RestatedAll(run.pools, Some(RDraining), Some(RActive)), Both)|;
      writes >= all && HeldWhere(run.pools, all, listed, true)
    requires HasIncoming(run.sides) && stops > 0
    modifies run`pools
    modifies run.m`rows, run.m`writes, run.m`stored, run.m`running, run.m`stops, run.m`gone, run.m`clock
    ensures BothStopped(run.m.stops, run.sides)
  {
    hide DistinctRoutes, Interruptible, HasIncoming, BothStopped, Writes, RestatedAll, HeldWhere, IncomingWhere;
    var _, w, n := CrashInRollback(run, writes, stops, after, listed, [BreachBeat()]);
  }
}
