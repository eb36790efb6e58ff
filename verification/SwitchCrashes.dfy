/**
 A daemon that dies while it switches, or while it takes a failed switch back. The Store says that the
 deploy is watched from before the first write until after the last stop, so the next daemon resumes it
 from rows that are not switched yet, or not any more.
 */
module SwitchCrashes {
  import opened Edge
  import opened Rows
  import opened Pools
  import opened World
  import opened Outcomes
  import opened Deploys
  import opened Resumes
  import opened Crashes
  import Watch

  // ----- what the first routes show

  ghost function Flipped(pools: seq<DeployPool>): seq<DeployPool> {
    RestatedAll(pools, Some(RActive), Some(RDraining))
  }

  ghost function TakenBack(pools: seq<DeployPool>): seq<DeployPool> {
    RestatedAll(pools, None, Some(RActive))
  }

  ghost predicate SwitchedAt(pools: seq<DeployPool>, n: nat, listed: seq<RouteRow>, k: nat)
    requires n <= |Writes(Flipped(pools), Both)| && k < |pools|
  {
    FirstWritten(Flipped(pools), n, listed, pools[k].service)
  }

  /** The first listed route of the service is among those put back. */
  ghost predicate PutBackAt(ws: seq<Write>, listed: seq<RouteRow>, service: string) {
    RoutesOf(listed, service) != [] && WrittenTo(ws, RoutesOf(listed, service)[0])
  }

  /** The first `n` writes of a switch, shown by the first listed route of a pool's service. */
  lemma FlipShown(rows: map<int, Table>, pools: seq<DeployPool>, n: nat, listed: seq<RouteRow>, k: nat)
    requires Sound(pools) && Apart(pools) && Covers(listed, BareAll(pools))
    requires n <= |Writes(Flipped(pools), Both)| && k < |pools| && pools[k].exposed
    ensures var t, was := FirstRow(Played(rows, Writes(Flipped(pools), Both)[..n]), listed, pools[k].service), BareAll(pools)[k];
      if SwitchedAt(pools, n, listed, k) then ReadAs(t, was, Straight) else t == FirstRow(rows, listed, pools[k].service)
  {
    var was, final := BareAll(pools), Flipped(pools);
    RestatedSides(pools, Some(RActive), Some(RDraining));
    FlipServes(pools);
    assert SameShape(final, was) && PoolOk(final[k]) && Serving(final[k]);
    assert was[k].exposed && was[k].service == pools[k].service;
    hide Sound, Apart, Covers, Writes, Played, FirstWritten, FirstRow, TableOf, ActiveIn, HeldIn, PoolOk, Serving, SameShape,
         RestatedAll, AllServing, RoutesOf, Ported;
    FirstRead(rows, final, n, listed, was, k);
    PortsOf(pools, k);
    PortedRestated(pools[k], Some(RActive), Some(RDraining));
    ServingTable(final[k]);
  }

  /**
   After any number of the switch's writes a pool reads back as its own two sides if and only if the
   first listed route of its service was written to, or read so before. Where that route showed the
   old pool alone, the second can only be if neither side has a row.
   */
  lemma FlipReadsBackIff(rows: map<int, Table>, pools: seq<DeployPool>, n: nat, listed: seq<RouteRow>, k: nat)
    requires Sound(pools) && Apart(pools) && Covers(listed, BareAll(pools))
    requires n <= |Writes(Flipped(pools), Both)| && k < |pools| && pools[k].exposed
    ensures var was, first := BareAll(pools)[k], FirstRow(rows, listed, pools[k].service);
      && (ReadAs(FirstRow(Played(rows, Writes(Flipped(pools), Both)[..n]), listed, was.service), was, Straight) <==>
          SwitchedAt(pools, n, listed, k) || ReadAs(first, was, Straight))
      && (ReadAs(first, was, Alone) ==>
          (ReadAs(first, was, Straight) <==> Ported(was.incoming) == {} && Ported(was.held) == {}))
  {
    hide Sound, Apart, Covers, Writes, Played, FirstRow, ActiveIn, HeldIn, Ported, RoutesOf, SwitchedAt, Flipped;
    FlipShown(rows, pools, n, listed, k);
    assert BareAll(pools)[k].service == pools[k].service;
  }

  lemma HeldAlone(p: DeployPool)
    requires PoolOk(p) && AllIn(p.held, RActive)
    ensures ActiveIn(TableOf(Listing(p, HeldOnly))) == Ported(p.held) && HeldIn(TableOf(Listing(p, HeldOnly))) == {}
  {
    HeldDistinct(p);
    assert [] + p.held == p.held;
    ActiveBehind([], p.held);
    HeldBehind([], p.held);
  }

  lemma BackAt(pools: seq<DeployPool>, k: nat)
    requires Sound(pools) && k < |pools| && pools[k].exposed
    ensures var back := TakenBack(Flipped(pools))[k];
      PoolOk(back) && AllIn(back.held, RActive) && Ported(back.held) == Ported(pools[k].held)
  {
    var final := Flipped(pools);
    RestatedSides(pools, Some(RActive), Some(RDraining));
    RestatedSides(final, None, Some(RActive));
    PortedRestated(pools[k], Some(RActive), Some(RDraining));
    PortedRestated(final[k], None, Some(RActive));
  }

  /** Some routes put back, shown by the first listed route of a pool's service. */
  lemma BackShown(rows: map<int, Table>, pools: seq<DeployPool>, ws: seq<Write>, listed: seq<RouteRow>, k: nat)
    requires Sound(pools) && Apart(pools) && Covers(listed, BareAll(pools)) && k < |pools| && pools[k].exposed
    requires WrittenFrom(ws, Want(TakenBack(Flipped(pools)), HeldOnly))
    ensures var t, was := FirstRow(Played(rows, ws), listed, pools[k].service), BareAll(pools)[k];
      if PutBackAt(ws, listed, pools[k].service) then ReadAs(t, was, Alone) else t == FirstRow(rows, listed, pools[k].service)
  {
    var was, back := BareAll(pools), TakenBack(Flipped(pools));
    RestatedSides(pools, Some(RActive), Some(RDraining));
    RestatedSides(Flipped(pools), None, Some(RActive));
    assert RoutesApart(back) && back[k].exposed && back[k].routes == was[k].routes;
    assert was[k].exposed && was[k].service == pools[k].service && CoversPool(listed, was[k]);
    FirstIsOurs(listed, was[k]);
    var f := RoutesOf(listed, was[k].service)[0];
    hide Sound, Apart, RoutesApart, Covers, Played, TableOf, ActiveIn, HeldIn, PoolOk, RestatedAll, RoutesOf, Ported, Want,
         WrittenFrom, WrittenTo;
    PlayedAt(rows, ws, Want(back, HeldOnly), f);
    WantAt(back, HeldOnly, k, f);
    BackAt(pools, k);
    HeldAlone(back[k]);
    PortsOf(pools, k);
  }

  // ----- exactly what a resumed deploy stops

  /** What a verdict makes of a number, as the rows show it. */
  ghost predicate Takes(st: Status, t: Table, i: int) {
    (st == Promoted && i in HeldIn(t)) || (st == RolledBack && i in ActiveIn(t))
  }

  /**
   A pool that was put back is taken for its old side alone, one that was switched for what it is, and
   one that was not for whatever its rows showed before.
   */
  ghost predicate TakesOf(st: Status, before: Table, p: DeployPool, switched: bool, back: bool, i: int) {
    if back then st == RolledBack && i in Ported(p.held)
    else if switched then (st == Promoted && i in Ported(p.held)) || (st == RolledBack && i in Ported(p.incoming))
    else Takes(st, before, i)
  }

  /**
   Of every container of the deploy's exposed services: it is stopped if and only if the crash found it
   stopped or the verdict takes it.
   */
  ghost predicate StoppedAsRead(after: set<Container>, made: set<Container>, st: Status, before: map<int, Table>,
                                pools: seq<DeployPool>, n: nat, ws: seq<Write>, listed: seq<RouteRow>)
    requires n <= |Writes(Flipped(pools), Both)|
  {
    forall k, c: Container :: 0 <= k < |pools| && pools[k].exposed && c.service == pools[k].service ==>
      (c in after <==>
       c in made || TakesOf(st, FirstRow(before, listed, c.service), pools[k], SwitchedAt(pools, n, listed, k),
                            PutBackAt(ws, listed, c.service), c.index))
  }

  lemma TakesRead(st: Status, t: Table, p: DeployPool, r: Reading, i: int)
    requires ReadAs(t, p, r)
    ensures r == Straight ==>
      (Takes(st, t, i) <==> (st == Promoted && i in Ported(p.held)) || (st == RolledBack && i in Ported(p.incoming)))
    ensures r == Alone ==> (Takes(st, t, i) <==> st == RolledBack && i in Ported(p.held))
  {
  }

  lemma ResumedIsRead(after: set<Container>, made: set<Container>, st: Status, before: map<int, Table>,
                      pools: seq<DeployPool>, n: nat, ws: seq<Write>, listed: seq<RouteRow>)
    requires Sound(pools) && Apart(pools) && Covers(listed, BareAll(pools))
    requires n <= |Writes(Flipped(pools), Both)| && WrittenFrom(ws, Want(TakenBack(Flipped(pools)), HeldOnly))
    requires ResumedStops(st, Played(Played(before, Writes(Flipped(pools), Both)[..n]), ws), listed, made, after)
    ensures StoppedAsRead(after, made, st, before, pools, n, ws, listed)
  {
    var rows := Played(Played(before, Writes(Flipped(pools), Both)[..n]), ws);
    hide Sound, Apart, Covers, Writes, Played, WrittenFrom, Want, TakenBack, Flipped, SwitchedAt, PutBackAt, ResumedStops, TakesOf,
         FirstRow, Takes, BareAll;
    forall k, c: Container | 0 <= k < |pools| && pools[k].exposed && c.service == pools[k].service
      ensures c in after <==>
        c in made || TakesOf(st, FirstRow(before, listed, c.service), pools[k], SwitchedAt(pools, n, listed, k),
                             PutBackAt(ws, listed, c.service), c.index)
    {
      TakesFirst(after, made, st, rows, listed, c);
      ReadIsTaken(st, before, pools, n, ws, listed, k, c.index);
    }
  }

  /** A resumed deploy stops what its verdict takes from the first route. */
  lemma TakesFirst(after: set<Container>, made: set<Container>, st: Status, rows: map<int, Table>, listed: seq<RouteRow>,
                   c: Container)
    requires ResumedStops(st, rows, listed, made, after)
    ensures c in after <==> c in made || Takes(st, FirstRow(rows, listed, c.service), c.index)
  {
    hide RoutesOf, ActiveIn, HeldIn;
    EmptyFirst(c.index);
  }

  lemma ReadIsTaken(st: Status, before: map<int, Table>, pools: seq<DeployPool>, n: nat, ws: seq<Write>, listed: seq<RouteRow>,
                    k: nat, i: int)
    requires Sound(pools) && Apart(pools) && Covers(listed, BareAll(pools)) && k < |pools| && pools[k].exposed
    requires n <= |Writes(Flipped(pools), Both)| && WrittenFrom(ws, Want(TakenBack(Flipped(pools)), HeldOnly))
    ensures var s := pools[k].service;
      Takes(st, FirstRow(Played(Played(before, Writes(Flipped(pools), Both)[..n]), ws), listed, s), i) <==>
      TakesOf(st, FirstRow(before, listed, s), pools[k], SwitchedAt(pools, n, listed, k), PutBackAt(ws, listed, s), i)
  {
    var mid := Played(before, Writes(Flipped(pools), Both)[..n]);
    hide Sound, Apart, Covers, Writes, Played, WrittenFrom, Want, TakenBack, Flipped, SwitchedAt, PutBackAt, FirstRow, Takes, ReadAs,
         Ported, BareAll;
    FlipShown(before, pools, n, listed, k);
    BackShown(mid, pools, ws, listed, k);
    PortsOf(pools, k);
    var t, was := FirstRow(Played(mid, ws), listed, pools[k].service), BareAll(pools)[k];
    if PutBackAt(ws, listed, pools[k].service) {
      TakesRead(st, t, was, Alone, i);
    } else if SwitchedAt(pools, n, listed, k) {
      TakesRead(st, t, was, Straight, i);
    }
  }

  lemma EmptyFirst(i: int)
    ensures i !in ActiveIn(map[]) && i !in HeldIn(map[])
  {
  }

  // ----- which sides

  /** The first listed route of each service shows the old pool, active and alone. */
  ghost predicate Settled(rows: map<int, Table>, listed: seq<RouteRow>, was: seq<DeployPool>) {
    forall k :: 0 <= k < |was| && was[k].exposed ==> ReadAs(FirstRow(rows, listed, was[k].service), was[k], Alone)
  }

  /** Switched, and not put back. */
  ghost predicate StillSwitched(pools: seq<DeployPool>, n: nat, ws: seq<Write>, listed: seq<RouteRow>, k: nat)
    requires n <= |Writes(Flipped(pools), Both)| && k < |pools|
  {
    SwitchedAt(pools, n, listed, k) && !PutBackAt(ws, listed, pools[k].service)
  }

  ghost predicate HeldSwitched(pools: seq<DeployPool>, n: nat, ws: seq<Write>, listed: seq<RouteRow>, switched: bool)
    requires n <= |Writes(Flipped(pools), Both)|
  {
    exists k :: 0 <= k < |pools| && pools[k].exposed && StillSwitched(pools, n, ws, listed, k) == switched
             && Ported(pools[k].held) != {}
  }

  ghost predicate IncomingSwitched(pools: seq<DeployPool>, n: nat, ws: seq<Write>, listed: seq<RouteRow>)
    requires n <= |Writes(Flipped(pools), Both)|
  {
    exists k :: 0 <= k < |pools| && pools[k].exposed && StillSwitched(pools, n, ws, listed, k) && Ported(pools[k].incoming) != {}
  }

  ghost function SwitchReadings(pools: seq<DeployPool>, n: nat, ws: seq<Write>, listed: seq<RouteRow>): (rs: seq<Reading>)
    requires n <= |Writes(Flipped(pools), Both)|
    ensures |rs| == |pools|
    ensures forall k :: 0 <= k < |rs| ==> rs[k] == if StillSwitched(pools, n, ws, listed, k) then Straight else Alone
  {
    seq(|pools|, k requires 0 <= k < |pools| => if StillSwitched(pools, n, ws, listed, k) then Straight else Alone)
  }

  lemma SwitchReads(rows: map<int, Table>, pools: seq<DeployPool>, n: nat, ws: seq<Write>, listed: seq<RouteRow>)
    requires Sound(pools) && Apart(pools) && Covers(listed, BareAll(pools)) && Settled(rows, listed, BareAll(pools))
    requires n <= |Writes(Flipped(pools), Both)| && WrittenFrom(ws, Want(TakenBack(Flipped(pools)), HeldOnly))
    ensures ReadAll(Played(Played(rows, Writes(Flipped(pools), Both)[..n]), ws), listed, BareAll(pools),
                    SwitchReadings(pools, n, ws, listed))
  {
    var mid, was := Played(rows, Writes(Flipped(pools), Both)[..n]), BareAll(pools);
    hide Sound, Apart, Covers, Writes, Played, WrittenFrom, Want, TakenBack, Flipped, SwitchedAt, PutBackAt, FirstRow, ReadAs;
    forall k | 0 <= k < |was| && was[k].exposed
      ensures ReadAs(FirstRow(Played(mid, ws), listed, was[k].service), was[k], SwitchReadings(pools, n, ws, listed)[k])
    {
      FlipShown(rows, pools, n, listed, k);
      BackShown(mid, pools, ws, listed, k);
    }
  }

  lemma SwitchWhere(pools: seq<DeployPool>, n: nat, ws: seq<Write>, listed: seq<RouteRow>)
    requires n <= |Writes(Flipped(pools), Both)|
    ensures var rs, was := SwitchReadings(pools, n, ws, listed), BareAll(pools);
      && (SomeHeld(was, rs, Turned, Alone) <==> HeldSwitched(pools, n, ws, listed, false))
      && (SomeHeld(was, rs, Straight, Straight) <==> HeldSwitched(pools, n, ws, listed, true))
      && (SomeIncoming(was, rs, Straight, Served) <==> IncomingSwitched(pools, n, ws, listed))
      && !SomeIncoming(was, rs, Turned, Turned)
  {
    var rs, was := SwitchReadings(pools, n, ws, listed), BareAll(pools);
    forall k | 0 <= k < |pools|
      ensures Ported(was[k].incoming) == Ported(pools[k].incoming) && Ported(was[k].held) == Ported(pools[k].held)
      ensures was[k].exposed == pools[k].exposed
    {
      PortsOf(pools, k);
    }
    hide SwitchReadings, StillSwitched, Ported, Writes, Flipped;
  }

  // ----- interrupted

  /** Puts the rows of every exposed pool back, up to `limit` writes; a failed one only ends its pool. */
  method UnrecordSome(run: DeployRun, limit: nat) returns (ghost ws: seq<Write>, died: bool)
    modifies run`pools, run.m`rows, run.m`writes, run.m`stored
    ensures run.pools == TakenBack(old(run.pools)) && |ws| <= limit
    ensures Wrote(old(TraceOf(run.m)), TraceOf(run.m), ws)
    ensures RoutesApart(run.pools) ==> WrittenFrom(ws, Want(run.pools, HeldOnly))
    ensures run.m.calm && limit >= |Writes(run.pools, HeldOnly)| ==> !died && ws == Writes(run.pools, HeldOnly)
  {
    hide Writes, Wrote, TableOf, Want, WrittenFrom, RoutesApart;
    run.Restate(None, Some(RActive));
    var pools := run.pools;
    ws, died := [], false;
    var n: nat := 0;
    WroteNone(TraceOf(run.m), pools, HeldOnly);
    for k := 0 to |pools|
      invariant run.pools == pools && n == |ws| <= limit && !died
      invariant Wrote(old(TraceOf(run.m)), TraceOf(run.m), ws)
      invariant RoutesApart(pools) ==> WrittenFrom(ws, Want(pools, HeldOnly))
      invariant run.m.calm && limit >= |Writes(pools, HeldOnly)| ==> ws == Writes(pools[..k], HeldOnly)
    {
      if pools[k].exposed {
        ghost var before := TraceOf(run.m);
        var j := run.m.RecordSome(pools[k].routes, Listing(pools[k], HeldOnly), limit - n);
        WroteSome(old(TraceOf(run.m)), before, TraceOf(run.m), ws, pools[k], HeldOnly, j);
        WritesAt(pools, HeldOnly, k, |pools[k].routes|);
        if RoutesApart(pools) { WrittenSome(pools, HeldOnly, ws, k, j); }
        ghost var some := OnRoutes(pools[k].routes, TableOf(Listing(pools[k], HeldOnly)));
        assert some[..|some|] == some;
        ws, n := ws + some[..j], n + j;
        if j < |pools[k].routes| && n == limit { return ws, true; }
      } else {
        WritesSkip(pools, HeldOnly, k);
      }
    }
    assert pools[..|pools|] == pools;
  }

  /**
   A switch that fails after `flips` writes at most, and is taken back until the daemon dies: after
   `writes` writes at most, or once they are all tried, after `stops` stops.
   */
  method TakeBackUntil(run: DeployRun, flips: nat, writes: nat, stops: nat) returns (n: nat, ghost ws: seq<Write>)
    requires run.m.stops == {}
    modifies run`pools, run.m`rows, run.m`writes, run.m`stored, run.m`running, run.m`stops, run.m`gone
    ensures n <= flips && n <= |Writes(Flipped(old(run.pools)), Both)| && |ws| <= writes
    ensures run.m.rows == Played(Played(old(run.m.rows), Writes(Flipped(old(run.pools)), Both)[..n]), ws)
    ensures RoutesApart(TakenBack(Flipped(old(run.pools)))) ==>
      WrittenFrom(ws, Want(TakenBack(Flipped(old(run.pools))), HeldOnly))
    ensures forall c :: c in run.m.stops ==> IsIncoming(old(run.pools), c)
    ensures stops == 0 ==> run.m.stops == {}
    ensures run.m.calm ==> n == flips || n == |Writes(Flipped(old(run.pools)), Both)|
    ensures run.m.calm && writes >= |Writes(TakenBack(Flipped(old(run.pools))), HeldOnly)| ==>
      ws == Writes(TakenBack(Flipped(old(run.pools))), HeldOnly)
    ensures run.m.calm && writes >= |Writes(TakenBack(Flipped(old(run.pools))), HeldOnly)| && stops > 0 && HasIncoming(old(run.pools)) ==>
      exists c :: c in run.m.stops && IsIncoming(old(run.pools), c)
  {
    hide Writes, Played, RestatedAll, WrittenFrom, Want, IsIncoming, RoutesApart;
    ghost var was := run.pools;
    run.Restate(Some(RActive), Some(RDraining));
    ghost var a := TraceOf(run.m);
    n := PushSome(run, flips);
    RowsWrote(a, TraceOf(run.m), Writes(Flipped(was), Both)[..n]);
    ghost var b := TraceOf(run.m);
    var died: bool;
    ws, died := UnrecordSome(run, writes);
    RowsWrote(b, TraceOf(run.m), ws);
    if died { return; }
    SidesTakenBack(was);
    var _, _ := StopSome(run, false, stops);
  }

  lemma SidesTakenBack(was: seq<DeployPool>)
    ensures forall c :: IsIncoming(TakenBack(Flipped(was)), c) <==> IsIncoming(was, c)
  {
    hide IsIncoming, IsHeld, RestatedAll, BareAll;
    RestatedSides(was, Some(RActive), Some(RDraining));
    RestatedSides(Flipped(was), None, Some(RActive));
    SidesOf(was);
    SidesOf(TakenBack(Flipped(was)));
  }

  /** A deploy with its new pool up and its switch about to begin, as a crash finds it. */
  ghost predicate BeforeSwitch(run: DeployRun, listed: seq<RouteRow>)
    reads run, run.m
  {
    run.Complete() && Apart(run.sides) && IncomingPorted(run.sides) && Covers(listed, run.sides) && run.m.stops == {}
  }

  /**
   A switch that fails after any number of its writes and is taken back, a crash after any number of
   the writes and stops of that, and a resumed deploy with any verdict. Of each container: it is
   stopped if and only if it already was, or the verdict takes what the first route of its service
   shows. If those routes showed the old pools alone before the switch, the old side is stopped
   exactly when it is rolled back and some pool with a row for it is not, or no longer, switched, or
   it is promoted and one is; the new side exactly when something of it already was, or it is rolled
   back and some pool with a row for it is still switched.
   */
  method CrashInTakingBack(run: DeployRun, flips: nat, writes: nat, stops: nat, listed: seq<RouteRow>, beats: seq<Watch.Beat>)
    returns (next: Option<DeployRun>, n: nat, ghost ws: seq<Write>, ghost made: set<Container>)
    requires DistinctRoutes(listed) && BeforeSwitch(run, listed)
    modifies run`pools
    modifies run.m`rows, run.m`writes, run.m`stored, run.m`running, run.m`stops, run.m`gone, run.m`clock
    ensures next.Some? ==> fresh(next.value)
    ensures n <= flips && n <= |Writes(Flipped(old(run.pools)), Both)| && |ws| <= writes
    ensures (forall c :: c in made ==> IsIncoming(run.sides, c)) && (stops == 0 ==> made == {})
    ensures next.Some? ==>
      StoppedAsRead(run.m.stops, made, next.value.status, old(run.m.rows), old(run.pools), n, ws, listed)
    ensures next.Some? && Settled(old(run.m.rows), listed, run.sides) ==>
      (HeldStopped(run.m.stops, run.sides) <==>
       || (next.value.status == RolledBack && HeldSwitched(old(run.pools), n, ws, listed, false))
       || (next.value.status == Promoted && HeldSwitched(old(run.pools), n, ws, listed, true)))
    ensures next.Some? && Settled(old(run.m.rows), listed, run.sides) ==>
      (IncomingStopped(run.m.stops, run.sides) <==>
       made != {} || (next.value.status == RolledBack && IncomingSwitched(old(run.pools), n, ws, listed)))
    ensures run.m.calm ==> next.Some? && (n == flips || n == |Writes(Flipped(old(run.pools)), Both)|)
    ensures run.m.calm && writes >= |Writes(TakenBack(Flipped(old(run.pools))), HeldOnly)| ==>
      && ws == Writes(TakenBack(Flipped(old(run.pools))), HeldOnly)
      && (stops > 0 && HasIncoming(run.sides) ==> made != {})
    ensures run.m.calm && 0.0 <= run.policy.maxRate < 1.0 && beats == [BreachBeat()] ==> next.value.status == RolledBack
  {
    hide DistinctRoutes, Sound, Apart, BareAll, Writes, Settled, Covers, IncomingPorted, IsHeld, IsIncoming, Played, ReadAll,
         ResumedStops, RoutesOf, Watch.Life, HeldSwitched, IncomingSwitched, Flipped, TakenBack, SomeHeld, SomeIncoming,
         StoppedAsRead, SwitchReadings, WrittenFrom, Want, RoutesApart, HeldStopped, IncomingStopped;
    BareWellFormed(run.pools);
    ghost var was, rows, sides := run.pools, run.m.rows, run.sides;
    SidesOf(was);
    BackApart(was);
    n, ws := TakeBackUntil(run, flips, writes, stops);
    ghost var mid := run.m.rows;
    made := run.m.stops;
    var e: Watch.Ended;
    next, e := ResumeAndWatch(run.m, run.policy, listed, beats);
    if next.Some? {
      ResumedIsRead(run.m.stops, made, next.value.status, rows, was, n, ws, listed);
      if Settled(rows, listed, sides) {
        SwitchReads(rows, was, n, ws, listed);
        SwitchWhere(was, n, ws, listed);
        ghost var rs := SwitchReadings(was, n, ws, listed);
        HeldStoppedIff(next.value.status, mid, listed, sides, rs, made, run.m.stops);
        IncomingStoppedIff(next.value.status, mid, listed, sides, rs, made, run.m.stops);
        MadeIncoming(sides, made);
      }
    }
  }

  lemma BackApart(pools: seq<DeployPool>)
    requires Apart(pools)
    ensures RoutesApart(TakenBack(Flipped(pools)))
  {
    hide Apart, RestatedAll;
    RestatedSides(pools, Some(RActive), Some(RDraining));
    RestatedSides(Flipped(pools), None, Some(RActive));
    ApartRoutes(TakenBack(Flipped(pools)));
  }

  lemma MadeIncoming(was: seq<DeployPool>, made: set<Container>)
    requires WellFormed(was) && forall c :: c in made ==> IsIncoming(was, c)
    ensures !HeldStopped(made, was) && (IncomingStopped(made, was) <==> made != {})
  {
    hide Sound, Apart, IsHeld, IsIncoming;
    forall c | c in made ensures !IsHeld(was, c) { SidesApart(was, c); }
    assert (forall c :: c !in made) ==> made == {};
  }

  /**
   A crash after any number of the writes of a switch, and a resumed deploy with any verdict: the same
   with nothing put back and nothing stopped.
   */
  method CrashInSwitch(run: DeployRun, limit: nat, listed: seq<RouteRow>, beats: seq<Watch.Beat>)
    returns (next: Option<DeployRun>, n: nat)
    requires DistinctRoutes(listed) && BeforeSwitch(run, listed)
    modifies run`pools
    modifies run.m`rows, run.m`writes, run.m`stored, run.m`running, run.m`stops, run.m`gone, run.m`clock
    ensures next.Some? ==> fresh(next.value)
    ensures n <= limit && n <= |Writes(Flipped(old(run.pools)), Both)|
    ensures next.Some? ==> StoppedAsRead(run.m.stops, {}, next.value.status, old(run.m.rows), old(run.pools), n, [], listed)
    ensures next.Some? && Settled(old(run.m.rows), listed, run.sides) ==>
      (HeldStopped(run.m.stops, run.sides) <==>
       || (next.value.status == RolledBack && HeldSwitched(old(run.pools), n, [], listed, false))
       || (next.value.status == Promoted && HeldSwitched(old(run.pools), n, [], listed, true)))
    ensures next.Some? && Settled(old(run.m.rows), listed, run.sides) ==>
      (IncomingStopped(run.m.stops, run.sides) <==>
       next.value.status == RolledBack && IncomingSwitched(old(run.pools), n, [], listed))
    ensures run.m.calm ==> next.Some? && (n == limit || n == |Writes(Flipped(old(run.pools)), Both)|)
    ensures run.m.calm && 0.0 <= run.policy.maxRate < 1.0 && beats == [BreachBeat()] ==> next.value.status == RolledBack
  {
    hide DistinctRoutes, BeforeSwitch, Writes, Settled, Flipped, HeldSwitched, IncomingSwitched, StoppedAsRead, HeldStopped,
         IncomingStopped, IsIncoming, TakenBack;
    ghost var ws, made;
    next, n, ws, made := CrashInTakingBack(run, limit, 0, 0, listed, beats);
    assert ws == [];
  }
}
