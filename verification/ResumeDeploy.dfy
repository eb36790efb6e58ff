/** Taking a watching deploy up again from its route rows, however often the daemon restarts. */
module Resumes {
  import opened Edge
  import opened Rows
  import opened Pools
  import opened World
  import opened Outcomes
  import opened Deploys
  import opened DeployTheorems
  import Watch

  /** A route as the Store lists it. */
  datatype RouteRow = RouteRow(id: int, service: string)

  ghost predicate DistinctRoutes(listed: seq<RouteRow>) {
    forall i, j :: 0 <= i < j < |listed| ==> listed[i].id != listed[j].id
  }

  /** The routes of a service, in the order of the list. */
  ghost function RoutesOf(listed: seq<RouteRow>, service: string): seq<int> {
    if listed == [] then []
    else
      var r := listed[|listed| - 1];
      RoutesOf(listed[..|listed| - 1], service) + if r.service == service then [r.id] else []
  }

  lemma {:induction false} RoutesOfHas(listed: seq<RouteRow>, service: string, id: int)
    ensures id in RoutesOf(listed, service) <==> RouteRow(id, service) in listed
  {
    if listed != [] {
      var n := |listed| - 1;
      RoutesOfHas(listed[..n], service, id);
      assert listed == listed[..n] + [listed[n]];
    }
  }

  lemma RoutesOfMore(listed: seq<RouteRow>, r: RouteRow, service: string)
    ensures RoutesOf(listed + [r], service) == RoutesOf(listed, service) + if r.service == service then [r.id] else []
  {
    assert (listed + [r])[..|listed|] == listed;
  }

  /** Routes grouped by service: one pool for each service listed, with its routes in their order. */
  ghost predicate Regrouped(pools: seq<DeployPool>, listed: seq<RouteRow>) {
    && (forall k :: 0 <= k < |pools| ==>
          pools[k].exposed && pools[k].routes == RoutesOf(listed, pools[k].service) && pools[k].routes != [])
    && (forall r :: r in listed ==> Placed(pools, r.service))
    && ServicesApart(pools)
  }

  ghost predicate Placed(pools: seq<DeployPool>, service: string) {
    exists k :: 0 <= k < |pools| && pools[k].service == service
  }

  /** A pool read from its first route: what is active there is incoming, what is held or draining held. */
  ghost predicate ReadFrom(p: DeployPool, rows: map<int, Table>) {
    && p.routes != []
    && exists targets :: Lists(targets, RowsAt(rows, p.routes[0]))
                      && p.incoming == Resume(targets).incoming && p.held == Resume(targets).held
  }

  lemma ReadFromMeans(p: DeployPool, rows: map<int, Table>)
    requires ReadFrom(p, rows)
    ensures var t := RowsAt(rows, p.routes[0]);
      && Indexes(p.incoming) == ActiveIn(t) && Indexes(p.held) == HeldIn(t) && Serving(p) && DistinctIndexes(p.incoming + p.held)
      && (AllPorted(t) ==> forall r :: r in p.incoming + p.held ==> r.port > 0)
  {
    var t := RowsAt(rows, p.routes[0]);
    var targets :| Lists(targets, t) && p.incoming == Resume(targets).incoming && p.held == Resume(targets).held;
    ResumeReads(targets, t);
    ResumeSplits(targets);
    ResumeDistinct(targets);
    if AllPorted(t) {
      forall r | r in p.incoming + p.held ensures r.port > 0 {
        ListedPort(targets, t, r);
      }
    }
  }

  lemma ListedPort(targets: seq<Listed>, t: Table, r: Replica)
    requires Lists(targets, t) && AllPorted(t) && (ReadAsIncoming(targets, r) || ReadAsHeld(targets, r))
    ensures r.port > 0
  {
    var x :| x in targets && x.index == r.index && x.row.port == r.port;
    var k :| 0 <= k < |targets| && targets[k] == x;
  }

  lemma RegroupedWellFormed(pools: seq<DeployPool>, listed: seq<RouteRow>, rows: map<int, Table>)
    requires Regrouped(pools, listed) && DistinctRoutes(listed) && forall k :: 0 <= k < |pools| ==> ReadFrom(pools[k], rows)
    ensures WellFormed(pools) && AllServing(pools)
  {
    hide ReadFrom, RoutesOf;
    forall k | 0 <= k < |pools| ensures PoolOk(pools[k]) && Serving(pools[k]) { ReadFromMeans(pools[k], rows); }
    forall j, k, id | 0 <= j < k < |pools| && id in pools[j].routes ensures id !in pools[k].routes {
      RoutesOfHas(listed, pools[j].service, id);
      RoutesOfHas(listed, pools[k].service, id);
      OneService(listed, id, pools[j].service, pools[k].service);
    }
  }

  lemma OneService(listed: seq<RouteRow>, id: int, s: string, t: string)
    requires DistinctRoutes(listed) && RouteRow(id, s) in listed
    ensures RouteRow(id, t) in listed ==> s == t
  {
    var i :| 0 <= i < |listed| && listed[i] == RouteRow(id, s);
    if RouteRow(id, t) in listed {
      var j :| 0 <= j < |listed| && listed[j] == RouteRow(id, t);
    }
  }

  // ----- the loops

  /** Sorts a route's rows into the two sides. */
  method ReadTargets(targets: seq<Listed>) returns (incoming: seq<Replica>, held: seq<Replica>, normalised: bool)
    ensures Resumed(incoming, held, normalised) == Resume(targets)
  {
    incoming, held, normalised := [], [], false;
    for i := 0 to |targets|
      invariant Resumed(incoming, held, normalised) == Resume(targets[..i])
    {
      var Listed(index, row) := targets[i];
      assert targets[..i + 1][..i] == targets[..i] && targets[..i + 1][i] == targets[i];
      match row.state {
        case Held => held := held + [Replica(index, row.port, RHeld)];
        case Draining =>
          held := held + [Replica(index, row.port, RHeld)];
          normalised := true;
        case Active => incoming := incoming + [Replica(index, row.port, RActive)];
        case _ =>
      }
    }
    assert targets[..|targets|] == targets;
  }
  /** The pool of each service seen so far. */
  ghost predicate Filed(byService: map<string, nat>, pools: seq<DeployPool>) {
    && (forall s :: s in byService ==> byService[s] < |pools| && pools[byService[s]].service == s)
    && (forall k :: 0 <= k < |pools| ==> pools[k].service in byService && byService[pools[k].service] == k)
  }

  /** One more route: of a service seen before, or of a new one. */
  lemma RegroupedMore(pools: seq<DeployPool>, listed: seq<RouteRow>, r: RouteRow, k: nat)
    requires Regrouped(pools, listed) && k < |pools| && pools[k].service == r.service
    ensures Regrouped(pools[k := pools[k].(routes := pools[k].routes + [r.id])], listed + [r])
  {
    hide RoutesOf;
    var pools' := pools[k := pools[k].(routes := pools[k].routes + [r.id])];
    forall j | 0 <= j < |pools'| ensures pools'[j].routes == RoutesOf(listed + [r], pools'[j].service) {
      RoutesOfMore(listed, r, pools[j].service);
    }
    forall x | x in listed + [r] ensures Placed(pools', x.service) {
      if x != r {
        var j :| 0 <= j < |pools| && pools[j].service == x.service;
        assert pools'[j].service == x.service;
      } else {
        assert pools'[k].service == x.service;
      }
    }
  }

  lemma RegroupedNew(pools: seq<DeployPool>, listed: seq<RouteRow>, r: RouteRow, p: DeployPool)
    requires Regrouped(pools, listed) && p.exposed && p.service == r.service && p.routes == [r.id]
    requires forall k :: 0 <= k < |pools| ==> pools[k].service != r.service
    ensures Regrouped(pools + [p], listed + [r])
  {
    hide RoutesOf;
    var pools' := pools + [p];
    NotListed(pools, listed, r.service);
    forall j | 0 <= j < |pools'| ensures pools'[j].routes == RoutesOf(listed + [r], pools'[j].service) {
      RoutesOfMore(listed, r, pools'[j].service);
      if j < |pools| { assert pools'[j] == pools[j]; }
    }
    forall x | x in listed + [r] ensures Placed(pools', x.service) {
      if x == r {
        assert pools'[|pools|] == p;
      } else {
        var j :| 0 <= j < |pools| && pools[j].service == x.service;
        assert pools'[j] == pools[j];
      }
    }
  }

  lemma {:induction false} NoneOf(listed: seq<RouteRow>, service: string)
    requires forall r :: r in listed ==> r.service != service
    ensures RoutesOf(listed, service) == []
  {
    if listed != [] {
      var n := |listed| - 1;
      assert listed[n] in listed && forall r :: r in listed[..n] ==> r in listed;
      NoneOf(listed[..n], service);
    }
  }

  lemma NotListed(pools: seq<DeployPool>, listed: seq<RouteRow>, service: string)
    requires Regrouped(pools, listed) && forall k :: 0 <= k < |pools| ==> pools[k].service != service
    ensures RoutesOf(listed, service) == []
  {
    forall r | r in listed ensures r.service != service { assert Placed(pools, r.service); }
    NoneOf(listed, service);
  }

  /** Groups the routes and reads each service's pool from its first one; `normalised` if a row there drained. */
  method ReadPools(m: World, listed: seq<RouteRow>) returns (pools: Option<seq<DeployPool>>, normalised: bool)
    ensures pools.Some? ==> Regrouped(pools.value, listed)
    ensures pools.Some? ==> forall k :: 0 <= k < |pools.value| ==> ReadFrom(pools.value[k], m.rows)
    ensures pools.Some? ==> (normalised <==> !AllStill(pools.value, m.rows))
    ensures m.calm ==> pools.Some?
  {
    hide ReadFrom, Regrouped, AllStill;
    var ps: seq<DeployPool> := [];
    var byService: map<string, nat> := map[];
    normalised := false;
    RegroupedNone(listed, m.rows);
    for i := 0 to |listed|
      invariant Regrouped(ps, listed[..i]) && Filed(byService, ps)
      invariant forall k :: 0 <= k < |ps| ==> ReadFrom(ps[k], m.rows) && ps[k].routes != []
      invariant normalised <==> !AllStill(ps, m.rows)
    {
      var one := listed[i];
      assert listed[..i + 1] == listed[..i] + [one];
      if one.service in byService {
        var k := byService[one.service];
        RegroupedMore(ps, listed[..i], one, k);
        ReadFromMore(ps[k], one.id, m.rows);
        StillMore(ps, k, one.id, m.rows);
        ps := ps[k := ps[k].(routes := ps[k].routes + [one.id])];
      } else {
        var targets := m.Targets(one.id);
        if targets.None? { return None, normalised; }
        var incoming, held, draining := ReadTargets(targets.value);
        var p := DeployPool(one.service, [one.id], true, incoming, held);
        ReadFromNew(p, targets.value, m.rows);
        DrainingNormalises(targets.value, RowsAt(m.rows, one.id));
        RegroupedNew(ps, listed[..i], one, p);
        StillNew(ps, p, m.rows);
        byService := byService[one.service := |ps|];
        ps := ps + [p];
        normalised := normalised || draining;
      }
    }
    assert listed[..|listed|] == listed;
    pools := Some(ps);
  }

  /** No row of a pool's first route is draining. */
  ghost predicate AllStill(pools: seq<DeployPool>, rows: map<int, Table>) {
    forall k :: 0 <= k < |pools| && pools[k].routes != [] ==> NoneDraining(RowsAt(rows, pools[k].routes[0]))
  }

  lemma StillMore(pools: seq<DeployPool>, k: nat, id: int, rows: map<int, Table>)
    requires k < |pools| && pools[k].routes != []
    ensures AllStill(pools[k := pools[k].(routes := pools[k].routes + [id])], rows) <==> AllStill(pools, rows)
  {
    hide NoneDraining;
    var more := pools[k := pools[k].(routes := pools[k].routes + [id])];
    assert forall j :: 0 <= j < |pools| && pools[j].routes != [] ==> more[j].routes != [] && more[j].routes[0] == pools[j].routes[0];
    assert forall j :: 0 <= j < |pools| && more[j].routes != [] ==> pools[j].routes != [];
  }

  lemma StillNew(pools: seq<DeployPool>, p: DeployPool, rows: map<int, Table>)
    requires p.routes != []
    ensures AllStill(pools + [p], rows) <==> AllStill(pools, rows) && NoneDraining(RowsAt(rows, p.routes[0]))
  {
    hide NoneDraining;
    var more := pools + [p];
    assert more[|pools|] == p && forall j :: 0 <= j < |pools| ==> more[j] == pools[j];
  }

  ghost predicate NoneDraining(t: Table) {
    forall i :: i in t ==> t[i].state != Draining
  }

  lemma RegroupedNone(listed: seq<RouteRow>, rows: map<int, Table>)
    ensures Regrouped([], listed[..0]) && AllStill([], rows)
  {
  }

  lemma ReadFromMore(p: DeployPool, id: int, rows: map<int, Table>)
    requires ReadFrom(p, rows)
    ensures ReadFrom(p.(routes := p.routes + [id]), rows) && (p.routes + [id])[0] == p.routes[0]
  {
  }

  lemma ReadFromNew(p: DeployPool, targets: seq<Listed>, rows: map<int, Table>)
    requires p.routes != [] && Lists(targets, RowsAt(rows, p.routes[0]))
    requires p.incoming == Resume(targets).incoming && p.held == Resume(targets).held
    ensures ReadFrom(p, rows)
  {
  }

  /** Rows are rewritten exactly when one of them was still draining. */
  lemma DrainingNormalises(targets: seq<Listed>, t: Table)
    requires Lists(targets, t)
    ensures Resume(targets).normalised <==> !NoneDraining(t)
  {
    DrainingSeen(targets);
    if !NoneDraining(t) {
      var i :| i in t && t[i].state == Draining;
      assert Listed(i, t[i]) in targets;
    }
  }

  lemma {:induction false} DrainingSeen(targets: seq<Listed>)
    ensures Resume(targets).normalised <==> exists k :: 0 <= k < |targets| && targets[k].row.state == Draining
  {
    if targets != [] {
      var n := |targets| - 1;
      DrainingSeen(targets[..n]);
      assert forall k :: 0 <= k < n ==> targets[..n][k] == targets[k];
    }
  }
  // ----- what is read is what the rows show

  /** The container's number is active in the first listed route of its service. */
  ghost predicate ReadsActive(rows: map<int, Table>, listed: seq<RouteRow>, c: Container) {
    RoutesOf(listed, c.service) != [] && c.index in ActiveIn(RowsAt(rows, RoutesOf(listed, c.service)[0]))
  }

  ghost predicate ReadsHeld(rows: map<int, Table>, listed: seq<RouteRow>, c: Container) {
    RoutesOf(listed, c.service) != [] && c.index in HeldIn(RowsAt(rows, RoutesOf(listed, c.service)[0]))
  }

  /** The sides of a resumed deploy are what the first route of each service shows, whoever wrote it. */
  lemma ReadSides(pools: seq<DeployPool>, listed: seq<RouteRow>, rows: map<int, Table>, c: Container)
    requires Regrouped(pools, listed) && forall k :: 0 <= k < |pools| ==> ReadFrom(pools[k], rows)
    ensures IsIncoming(pools, c) <==> ReadsActive(rows, listed, c)
    ensures IsHeld(pools, c) <==> ReadsHeld(rows, listed, c)
  {
    hide ReadFrom, RoutesOf, ActiveIn, HeldIn;
    if IsIncoming(pools, c) {
      var k, i :| 0 <= k < |pools| && pools[k].exposed && 0 <= i < |pools[k].incoming|
               && c == Container(pools[k].service, pools[k].incoming[i].index);
      ReadFromMeans(pools[k], rows);
      assert pools[k].incoming[i] in pools[k].incoming;
    }
    if IsHeld(pools, c) {
      var k, i :| 0 <= k < |pools| && pools[k].exposed && 0 <= i < |pools[k].held|
               && c == Container(pools[k].service, pools[k].held[i].index);
      ReadFromMeans(pools[k], rows);
      assert pools[k].held[i] in pools[k].held;
    }
    if ReadsActive(rows, listed, c) || ReadsHeld(rows, listed, c) {
      var k := PoolFor(pools, listed, c.service);
      ReadFromMeans(pools[k], rows);
      if c.index in Indexes(pools[k].incoming) {
        var i := IndexAt(pools[k].incoming, c.index);
        assert c == Container(pools[k].service, pools[k].incoming[i].index);
      }
      if c.index in Indexes(pools[k].held) {
        var i := IndexAt(pools[k].held, c.index);
        assert c == Container(pools[k].service, pools[k].held[i].index);
      }
    }
  }

  lemma PoolFor(pools: seq<DeployPool>, listed: seq<RouteRow>, service: string) returns (k: nat)
    requires Regrouped(pools, listed) && RoutesOf(listed, service) != []
    ensures k < |pools| && pools[k].service == service && pools[k].exposed && pools[k].routes == RoutesOf(listed, service)
  {
    var id := RoutesOf(listed, service)[0];
    RoutesOfHas(listed, service, id);
    assert Placed(pools, RouteRow(id, service).service);
    k :| 0 <= k < |pools| && pools[k].service == service;
  }

  lemma IndexAt(reps: seq<Replica>, x: int) returns (i: nat)
    requires x in Indexes(reps)
    ensures i < |reps| && reps[i].index == x
  {
    var r :| r in reps && r.index == x;
    i :| 0 <= i < |reps| && reps[i] == r;
  }

  // ----- the deploy's own services, and others

  ghost predicate Deployed(was: seq<DeployPool>, service: string) {
    exists k :: 0 <= k < |was| && was[k].exposed && was[k].service == service
  }

  /** The routes of the deploy are listed: those of its services, and no others, under their names. */
  ghost predicate Covers(listed: seq<RouteRow>, was: seq<DeployPool>) {
    forall k :: 0 <= k < |was| && was[k].exposed ==> CoversPool(listed, was[k])
  }

  ghost predicate CoversPool(listed: seq<RouteRow>, p: DeployPool) {
    p.routes != [] && SameIds(p.routes, RoutesOf(listed, p.service))
  }

  ghost predicate SameIds(a: seq<int>, b: seq<int>) {
    forall id :: id in a <==> id in b
  }

  lemma FirstOfSame(a: seq<int>, b: seq<int>)
    requires a != [] && SameIds(a, b)
    ensures b != [] && b[0] in a
  {
    var x := a[0];
    assert x in a && x in b;
    var y := b[0];
    assert y in b && y in a;
  }

  /** The first listed route of a deployed service is one of its pool's. */
  lemma FirstIsOurs(listed: seq<RouteRow>, p: DeployPool)
    requires CoversPool(listed, p)
    ensures RoutesOf(listed, p.service) != [] && RoutesOf(listed, p.service)[0] in p.routes
  {
    FirstOfSame(p.routes, RoutesOf(listed, p.service));
  }

  /** No first route of another service has an active, held or draining row. */
  ghost predicate Quiet(listed: seq<RouteRow>, rows: map<int, Table>, was: seq<DeployPool>) {
    forall s :: RoutesOf(listed, s) != [] && !Deployed(was, s) ==>
      ActiveIn(RowsAt(rows, RoutesOf(listed, s)[0])) == {} && HeldIn(RowsAt(rows, RoutesOf(listed, s)[0])) == {}
  }

  /**
   A resumed deploy has only containers of its own services if and only if no other service has an
   active, held or draining row in the first of its routes.
   */
  lemma TouchesOwnIffQuiet(pools: seq<DeployPool>, listed: seq<RouteRow>, rows: map<int, Table>, was: seq<DeployPool>)
    requires Regrouped(pools, listed) && forall k :: 0 <= k < |pools| ==> ReadFrom(pools[k], rows)
    ensures (forall c :: IsIncoming(pools, c) || IsHeld(pools, c) ==> Deployed(was, c.service)) <==> Quiet(listed, rows, was)
  {
    hide ReadFrom, RoutesOf, ActiveIn, HeldIn, IsIncoming, IsHeld, Regrouped, Deployed;
    if Quiet(listed, rows, was) {
      forall c | IsIncoming(pools, c) || IsHeld(pools, c) ensures Deployed(was, c.service) {
        ReadSides(pools, listed, rows, c);
      }
    }
    if forall c :: IsIncoming(pools, c) || IsHeld(pools, c) ==> Deployed(was, c.service) {
      forall s | RoutesOf(listed, s) != [] && !Deployed(was, s)
        ensures ActiveIn(RowsAt(rows, RoutesOf(listed, s)[0])) == {} && HeldIn(RowsAt(rows, RoutesOf(listed, s)[0])) == {}
      {
        forall i
          ensures i !in ActiveIn(RowsAt(rows, RoutesOf(listed, s)[0])) && i !in HeldIn(RowsAt(rows, RoutesOf(listed, s)[0]))
        {
          ReadSides(pools, listed, rows, Container(s, i));
        }
      }
    }
  }

  // ----- the same two sides

  ghost predicate AllHavePorts(reps: seq<Replica>) {
    forall i :: 0 <= i < |reps| ==> reps[i].port > 0
  }

  /** A pool read back is the pool `q` that was switched, as far as its rows tell. */
  ghost predicate Matches(p: DeployPool, q: DeployPool) {
    && p.exposed && q.exposed && p.service == q.service && (forall id :: id in p.routes <==> id in q.routes)
    && Ported(p.incoming) == Ported(q.incoming) && Ported(p.held) == Ported(q.held)
  }

  ghost predicate IsMatched(now: seq<DeployPool>, q: DeployPool) {
    exists j :: 0 <= j < |now| && Matches(now[j], q)
  }

  /** Every pool that was switched is read back as it was. */
  ghost predicate Rebuilt(now: seq<DeployPool>, was: seq<DeployPool>) {
    forall k :: 0 <= k < |was| && was[k].exposed ==> IsMatched(now, was[k])
  }

  lemma ReadMatches(p: DeployPool, q: DeployPool, rows: map<int, Table>)
    requires ReadFrom(p, rows) && p.exposed && q.exposed && p.service == q.service
    requires forall id :: id in p.routes <==> id in q.routes
    requires var t := RowsAt(rows, p.routes[0]);
      ActiveIn(t) == Ported(q.incoming) && HeldIn(t) == Ported(q.held) && AllPorted(t)
    ensures Matches(p, q)
  {
    hide ReadFrom, ActiveIn, HeldIn, AllPorted;
    ReadFromMeans(p, rows);
    forall i | 0 <= i < |p.incoming| ensures p.incoming[i].port > 0 { assert p.incoming[i] in p.incoming + p.held; }
    forall i | 0 <= i < |p.held| ensures p.held[i].port > 0 { assert p.held[i] in p.incoming + p.held; }
    PortedIndexes(p.incoming);
    PortedIndexes(p.held);
  }

  lemma PortedIndexes(reps: seq<Replica>)
    requires AllHavePorts(reps)
    ensures Ported(reps) == Indexes(reps)
  {
  }

  /**
   A deploy resumed from rows that were switched finds the two sides of each of its services as they
   were: the same routes, incoming replicas and held ones. It may find other services too.
   */
  lemma ResumedIsRebuilt(pools: seq<DeployPool>, listed: seq<RouteRow>, rows: map<int, Table>, was: seq<DeployPool>)
    requires Regrouped(pools, listed) && Covers(listed, was) && Switched(rows, was)
    requires forall k :: 0 <= k < |pools| ==> ReadFrom(pools[k], rows)
    ensures Rebuilt(pools, was)
  {
    hide ReadFrom, Matches, RoutesOf, ActiveIn, HeldIn, AllPorted, Ported;
    forall k | 0 <= k < |was| && was[k].exposed ensures IsMatched(pools, was[k]) {
      var s := was[k].service;
      FirstIsOurs(listed, was[k]);
      var j := PoolFor(pools, listed, s);
      ReadMatches(pools[j], was[k], rows);
    }
  }

  lemma RebuiltBare(pools: seq<DeployPool>, was: seq<DeployPool>)
    requires Rebuilt(pools, was)
    ensures Rebuilt(BareAll(pools), was)
  {
    var b := BareAll(pools);
    forall j, q | 0 <= j < |pools| && Matches(pools[j], q) ensures Matches(b[j], q) {
      BareKeepsPorts(pools[j]);
    }
    hide Matches;
    forall k | 0 <= k < |was| && was[k].exposed ensures IsMatched(b, was[k]) {
      var j := MatchOf(pools, was, k);
      assert Matches(b[j], was[k]);
    }
  }

  lemma MatchOf(now: seq<DeployPool>, was: seq<DeployPool>, k: nat) returns (j: nat)
    requires Rebuilt(now, was) && k < |was| && was[k].exposed
    ensures j < |now| && Matches(now[j], was[k])
  {
    hide Matches;
    assert IsMatched(now, was[k]);
    j :| 0 <= j < |now| && Matches(now[j], was[k]);
  }

  /** What rows and writes show of the pools read back, they show of the pools that were switched. */
  lemma RebuiltShows(now: seq<DeployPool>, was: seq<DeployPool>, rows: map<int, Table>, ws: seq<Write>)
    requires Rebuilt(now, was)
    ensures ShowsIncoming(rows, now) ==> ShowsIncoming(rows, was)
    ensures ShowsHeld(rows, now) ==> ShowsHeld(rows, was)
    ensures Forward(ws, now) ==> Forward(ws, was)
    ensures Back(ws, now) ==> Back(ws, was)
  {
    hide Rebuilt, ActiveIn, Ported;
    forall k, id | 0 <= k < |was| && was[k].exposed && id in was[k].routes
      ensures ShowsIncoming(rows, now) ==> id in rows && ActiveIn(rows[id]) == Ported(was[k].incoming)
      ensures ShowsHeld(rows, now) ==> id in rows && ActiveIn(rows[id]) == Ported(was[k].held)
    {
      var j := MatchOf(now, was, k);
    }
    hide ShowsIncoming, ShowsHeld;
    forall i, k | 0 <= i < |ws| && 0 <= k < |was| && OfRoute(was[k], ws[i].route)
      ensures Forward(ws, now) ==> ActiveIn(ws[i].rows) == Ported(was[k].incoming)
      ensures Back(ws, now) ==> ActiveIn(ws[i].rows) == Ported(was[k].held)
    {
      var j := MatchOf(now, was, k);
      assert OfRoute(now[j], ws[i].route);
    }
  }

  lemma RebuiltSwitched(now: seq<DeployPool>, was: seq<DeployPool>, rows: map<int, Table>)
    requires Rebuilt(now, was) && Switched(rows, now)
    ensures Switched(rows, was)
  {
    hide Rebuilt, ActiveIn, HeldIn, Ported, AllPorted;
    forall k, id | 0 <= k < |was| && was[k].exposed && id in was[k].routes
      ensures id in rows && ActiveIn(rows[id]) == Ported(was[k].incoming) && HeldIn(rows[id]) == Ported(was[k].held)
      ensures AllPorted(rows[id])
    {
      var j := MatchOf(now, was, k);
    }
  }

  lemma RebuiltWhole(now: seq<DeployPool>, was: seq<DeployPool>, before: map<int, Table>, rows: map<int, Table>)
    requires Rebuilt(now, was) && Whole(before, rows, now)
    ensures Whole(before, rows, was)
  {
    hide Rebuilt, ActiveIn, Ported;
    forall k, id | 0 <= k < |was| && OfRoute(was[k], id) && id in rows
      ensures (id in before && rows[id] == before[id]) || WholeSide(rows[id], was[k])
    {
      var j := MatchOf(now, was, k);
      assert OfRoute(now[j], id);
    }
  }

  // ----- the same containers

  lemma InPorted(reps: seq<Replica>, i: nat)
    requires i < |reps| && reps[i].port > 0
    ensures reps[i].index in Ported(reps)
  {
    assert reps[i] in reps;
  }

  lemma FromPorted(reps: seq<Replica>, x: int) returns (i: nat)
    requires x in Ported(reps)
    ensures i < |reps| && reps[i].index == x
  {
    var r :| r in reps && r.port > 0 && r.index == x;
    i :| 0 <= i < |reps| && reps[i] == r;
  }

  /** The incoming containers of a pool, by number. */
  lemma IncomingByNumber(was: seq<DeployPool>, k: nat, c: Container)
    requires ServicesApart(was) && IncomingPorted(was) && k < |was| && was[k].exposed && c.service == was[k].service
    ensures IsIncoming(was, c) <==> c.index in Ported(was[k].incoming)
  {
    hide Ported;
    if IsIncoming(was, c) {
      var l, i :| 0 <= l < |was| && was[l].exposed && 0 <= i < |was[l].incoming|
               && c == Container(was[l].service, was[l].incoming[i].index);
      assert l == k;
      InPorted(was[k].incoming, i);
    }
    if c.index in Ported(was[k].incoming) {
      var i := FromPorted(was[k].incoming, c.index);
      assert c == Container(was[k].service, was[k].incoming[i].index);
    }
  }

  lemma HeldByNumber(was: seq<DeployPool>, k: nat, c: Container)
    requires k < |was| && was[k].exposed && c.service == was[k].service && c.index in Ported(was[k].held)
    ensures IsHeld(was, c)
  {
    hide Ported;
    var i := FromPorted(was[k].held, c.index);
    assert c == Container(was[k].service, was[k].held[i].index);
  }

  lemma SideDeployed(was: seq<DeployPool>, c: Container)
    requires IsHeld(was, c) || IsIncoming(was, c)
    ensures Deployed(was, c.service)
  {
  }

  /** From switched rows, with other services quiet: the containers of each side are those there were. */
  lemma ReadSwitched(listed: seq<RouteRow>, rows: map<int, Table>, was: seq<DeployPool>, c: Container)
    requires Covers(listed, was) && Switched(rows, was) && ServicesApart(was) && IncomingPorted(was)
    requires Quiet(listed, rows, was)
    ensures ReadsActive(rows, listed, c) <==> IsIncoming(was, c)
    ensures ReadsHeld(rows, listed, c) ==> IsHeld(was, c)
  {
    hide RoutesOf, ActiveIn, HeldIn, Ported, AllPorted, IsHeld, IsIncoming, IncomingPorted, ServicesApart;
    if Deployed(was, c.service) {
      var k :| 0 <= k < |was| && was[k].exposed && was[k].service == c.service;
      FirstIsOurs(listed, was[k]);
      IncomingByNumber(was, k, c);
      if c.index in Ported(was[k].held) { HeldByNumber(was, k, c); }
    } else {
      if IsIncoming(was, c) { SideDeployed(was, c); }
    }
  }

  // ----- the ends of a resumed deploy

  ghost predicate SameSides(now: seq<DeployPool>, was: seq<DeployPool>) {
    && (forall c :: IsIncoming(now, c) <==> IsIncoming(was, c))
    && (forall c :: IsHeld(now, c) ==> IsHeld(was, c))
  }

  lemma ResumedStillWatching(live: set<Container>, before: map<int, Table>, a: Trace, b: Trace, now: seq<DeployPool>, was: seq<DeployPool>)
    requires SafeEnd(Watching, live, before, a, was) && Rebuilt(now, was) && SwitchedOn(a, b, now) && Apart(now)
    requires Apart(was) ==> Switched(b.rows, was)
    ensures SafeEnd(Watching, live, before, b, was)
  {
    hide Sound, Apart, IsHeld, IsIncoming, OneTurn, Whole, Switched, Forward, Rebuilt, IncomingPorted, Own;
    if Apart(was) {
      RebuiltShows(now, was, b.rows, b.writes[|a.writes|..]);
      RebuiltWhole(now, was, a.rows, b.rows);
      ForwardTwice(a.writes, b.writes, was);
      ForwardIsOneTurn(b.writes, was);
      WholeTwice(before, a.rows, b.rows, was);
    }
  }

  lemma ResumedPromoted(live: set<Container>, before: map<int, Table>, a: Trace, b: Trace, now: seq<DeployPool>, was: seq<DeployPool>)
    requires SafeEnd(Watching, live, before, a, was) && Rebuilt(now, was) && WentOn(a, b, now) && Apart(now) && Apart(was)
    requires SameSides(now, was) && ShowsIncoming(b.rows, was)
    ensures SafeEnd(Promoted, live, before, b, was)
  {
    hide Sound, Apart, IsHeld, IsIncoming, OneTurn, Whole, Switched, ShowsIncoming, Forward, Rebuilt, IncomingPorted, Own;
    RebuiltShows(now, was, b.rows, b.writes[|a.writes|..]);
    RebuiltWhole(now, was, a.rows, b.rows);
    ForwardTwice(a.writes, b.writes, was);
    ForwardIsOneTurn(b.writes, was);
    WholeTwice(before, a.rows, b.rows, was);
    forall c | IsHeld(now, c) ensures !IsIncoming(was, c) { SidesApart(was, c); }
  }

  lemma ResumedWentBack(st: Status, live: set<Container>, before: map<int, Table>, a: Trace, b: Trace, now: seq<DeployPool>, was: seq<DeployPool>)
    requires SafeEnd(Watching, live, before, a, was) && Rebuilt(now, was) && WentBack(st, a, b, now) && Apart(now) && Apart(was)
    requires SameSides(now, was)
    ensures SafeEnd(st, live, before, b, was)
  {
    hide Sound, Apart, IsHeld, IsIncoming, OneTurn, Whole, Switched, ShowsHeld, Forward, Back, Rebuilt, IncomingPorted, Own;
    RebuiltShows(now, was, b.rows, b.writes[|a.writes|..]);
    RebuiltWhole(now, was, a.rows, b.rows);
    TurnsBack(a.writes, b.writes, was);
    WholeTwice(before, a.rows, b.rows, was);
  }
  // ----- resuming

  /**
   Takes a watching deploy up from the route rows alone. Rows still draining are recorded again as
   held; if that fails the deploy goes on all the same.
   */
  method ResumeRun(m: World, policy: Watch.Policy, listed: seq<RouteRow>) returns (run: Option<DeployRun>, ghost n: nat)
    requires DistinctRoutes(listed)
    modifies m`rows, m`writes, m`stored
    ensures run.None? ==> TraceOf(m) == old(TraceOf(m))
    ensures run.Some? ==> && fresh(run.value) && run.value.m == m && run.value.policy == policy && run.value.InWatch()
                          && !run.value.pushed && run.value.countedFrom == ZERO_TIME && Apart(run.value.pools)
    ensures run.Some? ==> && Regrouped(run.value.pools, listed)
                          && forall k :: 0 <= k < |run.value.pools| ==> ReadFrom(run.value.pools[k], old(m.rows))
    ensures run.Some? ==> && n <= |Writes(run.value.pools, Both)|
                          && Wrote(old(TraceOf(m)), TraceOf(m), Writes(run.value.pools, Both)[..n])
    ensures run.Some? && AllStill(run.value.pools, old(m.rows)) ==> n == 0
    ensures run.Some? && !AllStill(run.value.pools, old(m.rows)) && m.stored ==> n == |Writes(run.value.pools, Both)|
    ensures m.calm ==> run.Some?
  {
    hide Regrouped, ReadFrom, Sound, Apart, AllServing, BareAll, Writes, Wrote, AllStill, DistinctRoutes;
    n := 0;
    var pools, normalised := ReadPools(m, listed);
    if pools.None? { return None, 0; }
    var r := new DeployRun(m, policy);
    r.pools, r.status, r.sides := pools.value, Watching, BareAll(pools.value);
    RegroupedWellFormed(r.pools, listed, m.rows);
    WroteNone(TraceOf(m), r.pools, Both);
    if normalised {
      var _, k := r.PushPools();
      n := k;
    }
    run := Some(r);
  }

  /** The daemon watches a resumed deploy: its window starts again, and nobody commands it. */
  method TakeOver(run: DeployRun, beats: seq<Watch.Beat>) returns (e: Watch.Ended)
    requires run.InWatch()
    modifies run`pools, run`status, run`countedFrom, run`detached, run`flippedAt
    modifies run.m`rows, run.m`writes, run.m`stored, run.m`running, run.m`stops, run.m`gone, run.m`clock
    ensures old(run.m.clock) <= run.flippedAt <= run.m.clock
    ensures e == Watch.Life(Watch.Run(run.policy, run.flippedAt, old(run.countedFrom), true), true, beats)
    ensures DeployRun.Decides(e.verdict, run.status, run.m.calm)
    ensures run.status == Promoted ==> WentOn(old(TraceOf(run.m)), TraceOf(run.m), run.sides)
    ensures run.status == RolledBack || run.status == Failed ==>
      WentBack(run.status, old(TraceOf(run.m)), TraceOf(run.m), run.sides)
    ensures run.status == Watching ==> run.InWatch() && TraceOf(run.m) == old(TraceOf(run.m))
  {
    hide Sound, BareAll, AllServing, WentOn, WentBack, Watch.Life;
    run.flippedAt := run.m.Now();
    run.detached := true;
    e := run.Observe(true, beats);
  }

  /** The containers a resumed deploy stops: those its verdict names, as the rows were read. */
  ghost predicate ResumedStops(st: Status, rows: map<int, Table>, listed: seq<RouteRow>, before: set<Container>, after: set<Container>) {
    forall c :: c in after <==>
      c in before || (st == Promoted && ReadsHeld(rows, listed, c)) || (st == RolledBack && ReadsActive(rows, listed, c))
  }

  lemma ResumedStopsRead(st: Status, rows: map<int, Table>, listed: seq<RouteRow>, pools: seq<DeployPool>, a: Trace, b: Trace)
    requires Regrouped(pools, listed) && forall k :: 0 <= k < |pools| ==> ReadFrom(pools[k], rows)
    requires st == Promoted ==> WentOn(a, b, BareAll(pools))
    requires st == RolledBack || st == Failed ==> WentBack(st, a, b, BareAll(pools))
    requires st == Watching ==> a == b
    requires st == Promoted || st == RolledBack || st == Failed || st == Watching
    ensures ResumedStops(st, rows, listed, a.stops, b.stops)
  {
    hide Regrouped, ReadFrom, ReadsHeld, ReadsActive, IsHeld, IsIncoming, BareAll, Apart, TurnedOn, TurnedBack;
    forall c
      ensures IsHeld(BareAll(pools), c) <==> ReadsHeld(rows, listed, c)
      ensures IsIncoming(BareAll(pools), c) <==> ReadsActive(rows, listed, c)
    {
      BareSides(pools, c);
      ReadSides(pools, listed, rows, c);
    }
  }

  /** A resumed deploy over switched rows is the deploy it was, if other services are quiet. */
  lemma ResumedAsWas(pools: seq<DeployPool>, listed: seq<RouteRow>, rows: map<int, Table>, was: seq<DeployPool>)
    requires Regrouped(pools, listed) && forall k :: 0 <= k < |pools| ==> ReadFrom(pools[k], rows)
    requires Covers(listed, was) && Switched(rows, was) && ServicesApart(was) && IncomingPorted(was) && Quiet(listed, rows, was)
    ensures Rebuilt(BareAll(pools), was) && SameSides(BareAll(pools), was)
  {
    hide Regrouped, ReadFrom, ReadsHeld, ReadsActive, IsHeld, IsIncoming, BareAll, Covers, Switched, ServicesApart,
         IncomingPorted, Quiet, Rebuilt;
    ResumedIsRebuilt(pools, listed, rows, was);
    RebuiltBare(pools, was);
    forall c
      ensures IsIncoming(BareAll(pools), c) <==> IsIncoming(was, c)
      ensures IsHeld(BareAll(pools), c) ==> IsHeld(was, c)
    {
      BareSides(pools, c);
      ReadSides(pools, listed, rows, c);
      ReadSwitched(listed, rows, was, c);
    }
  }

  /** Recording the pools again, in whole or in part, leaves the rows switched. */
  lemma ResumedSwitched(a: Trace, b: Trace, pools: seq<DeployPool>, n: nat, was: seq<DeployPool>)
    requires WellFormed(pools) && AllServing(pools) && Rebuilt(BareAll(pools), was) && Switched(a.rows, was)
    requires n <= |Writes(pools, Both)| && Wrote(a, b, Writes(pools, Both)[..n])
    ensures Switched(b.rows, was) && TurnedOn(a, b, BareAll(pools))
  {
    hide Sound, Apart, AllServing, Rebuilt, Writes, Wrote, Switched, Want, RecordedAll, Recorded, WrittenFrom, TurnedOn, BareAll;
    ApartRoutes(pools);
    ServingPushed(a, b, pools, n);
    ServingWants(pools);
    PrefixRecords(a.rows, pools, Both, n);
    RebuiltSwitched(BareAll(pools), was, Want(pools, Both));
    RowsWrote(a, b, Writes(pools, Both)[..n]);
    SwitchedKept(a.rows, b.rows, Want(pools, Both), was);
  }

  lemma RowsWrote(a: Trace, b: Trace, ws: seq<Write>)
    requires Wrote(a, b, ws)
    ensures b.rows == Played(a.rows, ws)
  {
  }
  // ----- other services, before and after

  /** The deploy's own routes are no other service's. */
  lemma StrangerNotOurs(listed: seq<RouteRow>, was: seq<DeployPool>, s: string)
    requires DistinctRoutes(listed) && Covers(listed, was) && RoutesOf(listed, s) != [] && !Deployed(was, s)
    ensures !Ours(was, RoutesOf(listed, s)[0])
  {
    hide RoutesOf, DistinctRoutes;
    var f := RoutesOf(listed, s)[0];
    assert f in RoutesOf(listed, s);
    RoutesOfHas(listed, s, f);
    forall k | 0 <= k < |was| ensures !OfRoute(was[k], f) {
      RoutesOfHas(listed, was[k].service, f);
      OneService(listed, f, s, was[k].service);
      assert was[k].exposed ==> CoversPool(listed, was[k]) && was[k].service != s;
    }
  }

  lemma QuietThroughDeploy(listed: seq<RouteRow>, before: map<int, Table>, rows: map<int, Table>, was: seq<DeployPool>)
    requires DistinctRoutes(listed) && Covers(listed, was) && Quiet(listed, before, was) && Own(before, rows, was)
    ensures Quiet(listed, rows, was)
  {
    hide RoutesOf, DistinctRoutes, Covers, Ours, ActiveIn, HeldIn, Deployed;
    forall s | RoutesOf(listed, s) != [] && !Deployed(was, s)
      ensures ActiveIn(RowsAt(rows, RoutesOf(listed, s)[0])) == {} && HeldIn(RowsAt(rows, RoutesOf(listed, s)[0])) == {}
    {
      StrangerNotOurs(listed, was, s);
    }
  }

  lemma QuietThroughResume(listed: seq<RouteRow>, a: Trace, b: Trace, pools: seq<DeployPool>, n: nat, was: seq<DeployPool>)
    requires Quiet(listed, a.rows, was) && Regrouped(pools, listed) && RoutesApart(pools)
    requires forall k :: 0 <= k < |pools| ==> ReadFrom(pools[k], a.rows)
    requires n <= |Writes(pools, Both)| && Wrote(a, b, Writes(pools, Both)[..n])
    ensures Quiet(listed, b.rows, was)
  {
    hide RoutesOf, ActiveIn, HeldIn, Deployed, ReadFrom, Writes, Want, TableOf;
    PrefixRecords(a.rows, pools, Both, n);
    forall s | RoutesOf(listed, s) != [] && !Deployed(was, s)
      ensures ActiveIn(RowsAt(b.rows, RoutesOf(listed, s)[0])) == {} && HeldIn(RowsAt(b.rows, RoutesOf(listed, s)[0])) == {}
    {
      var f := RoutesOf(listed, s)[0];
      var j := PoolFor(pools, listed, s);
      ReadFromMeans(pools[j], a.rows);
      NoIndexes(pools[j].incoming);
      NoIndexes(pools[j].held);
      assert pools[j].routes[0] == f && f in pools[j].routes;
      WantAt(pools, Both, j, f);
      EmptyTable();
      assert Listing(pools[j], Both) == [];
    }
  }

  lemma NoIndexes(reps: seq<Replica>)
    ensures Indexes(reps) == {} ==> reps == []
  {
    if reps != [] { assert reps[0].index in Indexes(reps); }
  }

  lemma EmptyTable()
    ensures TableOf([]) == map[] && ActiveIn(map[]) == {} && HeldIn(map[]) == {}
  {
  }

  // ----- whole deploys through crashes

  function NewPools(plans: seq<Plan>): (r: seq<DeployPool>)
    ensures |r| == |plans| && forall k :: 0 <= k < |plans| ==> r[k] == NewPool(plans[k])
  {
    seq(|plans|, k requires 0 <= k < |plans| => NewPool(plans[k]))
  }

  lemma PlansListed(listed: seq<RouteRow>, plans: seq<Plan>, was: seq<DeployPool>)
    requires Planned(was, plans) && |was| == |plans| && Covers(listed, NewPools(plans))
    ensures Covers(listed, was)
    ensures forall rows :: Quiet(listed, rows, NewPools(plans)) ==> Quiet(listed, rows, was)
  {
    hide RoutesOf, SameIds, ActiveIn, HeldIn, LaidOut;
    var blank := NewPools(plans);
    assert forall k :: 0 <= k < |was| ==> PlannedPool(was[k], plans[k]);
    forall k | 0 <= k < |was| && was[k].exposed ensures CoversPool(listed, was[k]) { assert CoversPool(listed, blank[k]); }
    forall s ensures Deployed(blank, s) ==> Deployed(was, s) {
      if Deployed(blank, s) {
        var k :| 0 <= k < |blank| && blank[k].exposed && blank[k].service == s;
        assert was[k].exposed && was[k].service == s;
      }
    }
  }

  /** Routes that the Store lists once, under their services, are no other service's. */
  lemma ListedByService(listed: seq<RouteRow>, plans: seq<Plan>)
    requires DistinctRoutes(listed) && Covers(listed, NewPools(plans))
    ensures RoutesByService(plans)
  {
    hide RoutesOf, DistinctRoutes, SameIds;
    var blank := NewPools(plans);
    forall k | 0 <= k < |plans| && plans[k].exposed ensures CoversPool(listed, blank[k]) {
    }
    forall j, k, id | 0 <= j < |plans| && 0 <= k < |plans| && plans[j].exposed && plans[k].exposed && id in plans[j].routes
      ensures id in plans[k].routes ==> plans[j].service == plans[k].service
    {
      RoutesTwice(listed, blank[j], blank[k], id);
    }
  }

  lemma RoutesTwice(listed: seq<RouteRow>, p: DeployPool, q: DeployPool, id: int)
    requires DistinctRoutes(listed) && CoversPool(listed, p) && CoversPool(listed, q) && id in p.routes
    ensures id in q.routes ==> p.service == q.service
  {
    hide RoutesOf, DistinctRoutes;
    RoutesOfHas(listed, p.service, id);
    RoutesOfHas(listed, q.service, id);
    OneService(listed, id, p.service, q.service);
  }

  /** A deploy between two lives of the daemon: watching, its rows switched, other services quiet. */
  ghost predicate BetweenLives(live: set<Container>, before: map<int, Table>, t: Trace, listed: seq<RouteRow>, was: seq<DeployPool>) {
    SafeEnd(Watching, live, before, t, was) && Apart(was) && Covers(listed, was) && Quiet(listed, t.rows, was)
  }

  lemma BetweenMeans(live: set<Container>, before: map<int, Table>, t: Trace, listed: seq<RouteRow>, was: seq<DeployPool>)
    requires BetweenLives(live, before, t, listed, was)
    ensures ServicesApart(was) && Switched(t.rows, was) && IncomingPorted(was)
  {
    hide IsHeld, IsIncoming, Switched, OneTurn, Whole, RoutesOf, IncomingPorted, Sound;
  }

  /** One more life: resumed from the rows, and ended as its verdict says. */
  lemma OneMoreLife(st: Status, live: set<Container>, before: map<int, Table>, a: Trace, b: Trace, c: Trace, n: nat,
                    listed: seq<RouteRow>, pools: seq<DeployPool>, was: seq<DeployPool>)
    requires BetweenLives(live, before, a, listed, was) && SameContainers(a, b)
    requires Regrouped(pools, listed) && WellFormed(pools) && AllServing(pools)
    requires forall k :: 0 <= k < |pools| ==> ReadFrom(pools[k], a.rows)
    requires n <= |Writes(pools, Both)| && Wrote(a, b, Writes(pools, Both)[..n])
    requires st == Promoted ==> WentOn(b, c, BareAll(pools))
    requires st == RolledBack || st == Failed ==> WentBack(st, b, c, BareAll(pools))
    requires st == Watching ==> b == c
    requires st == Promoted || st == RolledBack || st == Failed || st == Watching
    ensures SafeEnd(st, live, before, c, was)
    ensures st == Watching ==> BetweenLives(live, before, c, listed, was)
  {
    BetweenMeans(live, before, a, listed, was);
    assert SafeEnd(Watching, live, before, a, was) && Apart(was) && Covers(listed, was) && Quiet(listed, a.rows, was);
    BareWellFormed(pools);
    ApartRoutes(pools);
    hide SafeEnd, Sound, Apart, RoutesApart, ServicesApart, Covers, Quiet, Regrouped, ReadFrom, AllServing, Writes, Wrote, WentOn, WentBack, BareAll,
         Switched, Rebuilt, SameSides, TurnedOn, IncomingPorted, ShowsIncoming;
    ResumedAsWas(pools, listed, a.rows, was);
    ResumedSwitched(a, b, pools, n, was);
    ResumedStillWatching(live, before, a, b, BareAll(pools), was);
    QuietThroughResume(listed, a, b, pools, n, was);
    if st == Promoted {
      WentOnShows(b, c, BareAll(pools), was);
      ResumedPromoted(live, before, b, c, BareAll(pools), was);
    } else if st != Watching {
      ResumedWentBack(st, live, before, b, c, BareAll(pools), was);
    }
  }

  lemma WentOnShows(a: Trace, b: Trace, now: seq<DeployPool>, was: seq<DeployPool>)
    requires WentOn(a, b, now) && Apart(now) && Rebuilt(now, was) && Switched(a.rows, was)
    ensures ShowsIncoming(b.rows, was)
  {
    assert MovedOn(a.rows, b.rows, now);
    hide WentOn, Switched, ShowsIncoming, MovedOn, Apart, Rebuilt;
    SwitchedShows(a.rows, was);
    RebuiltMovedOn(now, was, a.rows, b.rows);
    MovedOnShows(a.rows, b.rows, was);
  }

  lemma RebuiltMovedOn(now: seq<DeployPool>, was: seq<DeployPool>, before: map<int, Table>, rows: map<int, Table>)
    requires Rebuilt(now, was) && MovedOn(before, rows, now)
    ensures MovedOn(before, rows, was)
  {
    hide Rebuilt, ActiveIn, Ported;
    forall k, id | 0 <= k < |was| && OfRoute(was[k], id) && id in rows
      ensures (id in before && rows[id] == before[id]) || ActiveIn(rows[id]) == Ported(was[k].incoming)
    {
      var j := MatchOf(now, was, k);
      assert OfRoute(now[j], id);
    }
  }
  /**
   A deploy whose daemon dies during the watch, any number of times, and resumes it from the rows. If
   it names no exposed service twice and no other service shows an active, held or draining row, it
   ends as a deploy that was never interrupted may end: it stops only what ran before, and then only
   if promoted, or only what it started, and the rows show the numbers of the side its status says.
   */
  method DeployThroughCrashes(m: World, policy: Watch.Policy, plans: seq<Plan>, listed: seq<RouteRow>,
                              noWatch: bool, beats: seq<Watch.Beat>, lives: seq<seq<Watch.Beat>>)
    returns (status: Status, ghost sides: seq<DeployPool>)
    requires DistinctRoutes(listed) && Covers(listed, NewPools(plans))
    modifies m
    ensures Planned(sides, plans) && (NamedOnce(plans) ==> Apart(sides))
    ensures NamedOnce(plans) && Quiet(listed, old(m.rows), NewPools(plans)) ==>
      && SafeEnd(status, old(m.running), old(m.rows), TraceOf(m), sides)
      && EndsAsPlanned(status, old(m.running), old(m.rows), TraceOf(m), plans)
  {
    hide DistinctRoutes, Covers, SafeEnd, Regrouped, ReadFrom, Sound, Apart, AllServing, WentOn, WentBack, Watch.Life,
         Planned, BareAll, HeldAsRan, Wanted, IsHeld, Quiet, NamedOnce, Writes, Wrote, BetweenLives, Own, AllStill,
         EndsAsPlanned, RoutesByService;
    ghost var live, before := m.running, m.rows;
    ghost var fine := NamedOnce(plans) && Quiet(listed, before, NewPools(plans));
    ListedByService(listed, plans);
    var first := new DeployRun(m, policy);
    var e := first.RunDeploy(plans, noWatch, beats);
    status, sides := first.status, first.sides;
    if status != Watching {
      if fine { SafeIsPlanned(status, live, before, TraceOf(m), sides, plans); }
      return;
    }
    PlansListed(listed, plans, sides);
    if fine { FirstLife(live, before, TraceOf(m), listed, sides); }
    for i := 0 to |lives|
      invariant status == Watching && (fine ==> BetweenLives(live, before, TraceOf(m), listed, sides))
    {
      ghost var a := TraceOf(m);
      var found, n := ResumeRun(m, policy, listed);
      if found.Some? {
        var run := found.value;
        ghost var b, pools := TraceOf(m), run.pools;
        var _ := TakeOver(run, lives[i]);
        status := run.status;
        if fine { OneMoreLife(status, live, before, a, b, TraceOf(m), n, listed, pools, sides); }
        if status != Watching {
          if fine { SafeIsPlanned(status, live, before, TraceOf(m), sides, plans); }
          return;
        }
      }
    }
    if fine {
      BetweenIsSafe(live, before, TraceOf(m), listed, sides);
      SafeIsPlanned(status, live, before, TraceOf(m), sides, plans);
    }
  }

  lemma FirstLife(live: set<Container>, before: map<int, Table>, t: Trace, listed: seq<RouteRow>, was: seq<DeployPool>)
    requires SafeEnd(Watching, live, before, t, was) && Apart(was) && Covers(listed, was) && DistinctRoutes(listed)
    requires Quiet(listed, before, was) && Own(before, t.rows, was)
    ensures BetweenLives(live, before, t, listed, was)
  {
    hide SafeEnd, Apart, Covers, Quiet, Own, DistinctRoutes;
    QuietThroughDeploy(listed, before, t.rows, was);
  }

  lemma BetweenIsSafe(live: set<Container>, before: map<int, Table>, t: Trace, listed: seq<RouteRow>, was: seq<DeployPool>)
    requires BetweenLives(live, before, t, listed, was)
    ensures SafeEnd(Watching, live, before, t, was)
  {
  }

  // ----- a deploy of some of the services

  /** A poll that sees every request fail. */
  function BreachBeat(): Watch.Beat {
    Watch.Beat(Some(Watch.Seen(ZERO_TIME, Watch.MIN_ERROR_REQUESTS, Watch.MIN_ERROR_REQUESTS)), false, 0, 0, Watch.Tick)
  }

  lemma BreachBeatRollsBack(r: Watch.Run)
    requires 0.0 <= r.policy.maxRate < 1.0
    ensures Watch.Life(r, true, [BreachBeat()]).verdict.RolledBack?
  {
    assert Watch.Breached(r.policy, BreachBeat());
  }

  /**
   A service outside the deploy: resumed from rows that show it active, it is taken for a new pool
   with nothing held behind it. In a world in which nothing fails, a rollback of the resumed deploy
   then stops every active container of it and leaves none of its routes an active row.
   */
  method ResumedOverOthers(m: World, policy: Watch.Policy, listed: seq<RouteRow>, s: string) returns (run: DeployRun)
    requires m.calm && DistinctRoutes(listed) && 0.0 <= policy.maxRate < 1.0
    requires RoutesOf(listed, s) != [] && HeldIn(RowsAt(m.rows, RoutesOf(listed, s)[0])) == {}
    modifies m`rows, m`writes, m`stored, m`running, m`stops, m`gone, m`clock
    ensures fresh(run) && run.status == RolledBack
    ensures forall i :: i in ActiveIn(RowsAt(old(m.rows), RoutesOf(listed, s)[0])) ==> Container(s, i) in m.stops
    ensures forall id :: id in RoutesOf(listed, s) ==> id in m.rows && ActiveIn(m.rows[id]) == {}
  {
    hide DistinctRoutes, RoutesOf, Regrouped, ReadFrom, Sound, Apart, AllServing, Watch.Life, BareAll, IsHeld, IsIncoming,
         Writes, Wrote, AllStill, ActiveIn, HeldIn, TurnedBack, ShowsHeld, IncomingPorted;
    ghost var rows := m.rows;
    var found, _ := ResumeRun(m, policy, listed);
    run := found.value;
    ghost var pools, b := run.pools, TraceOf(m);
    var _ := TakeOver(run, [BreachBeat()]);
    BreachBeatRollsBack(Watch.Run(policy, run.flippedAt, ZERO_TIME, true));
    ResumedStopsRead(RolledBack, rows, listed, pools, b, TraceOf(m));
    BareWellFormed(pools);
    NothingHeldShows(rows, m.rows, listed, pools, s);
  }

  lemma NothingHeldShows(rows: map<int, Table>, after: map<int, Table>, listed: seq<RouteRow>, pools: seq<DeployPool>, s: string)
    requires Regrouped(pools, listed) && forall k :: 0 <= k < |pools| ==> ReadFrom(pools[k], rows)
    requires RoutesOf(listed, s) != [] && HeldIn(RowsAt(rows, RoutesOf(listed, s)[0])) == {}
    requires ShowsHeld(after, BareAll(pools))
    ensures forall id :: id in RoutesOf(listed, s) ==> id in after && ActiveIn(after[id]) == {}
  {
    hide RoutesOf, ReadFrom, ActiveIn, HeldIn, Ported, Indexes, Regrouped, BareAll;
    var j := PoolFor(pools, listed, s);
    ReadFromMeans(pools[j], rows);
    NoIndexes(pools[j].held);
    BareShows(after, pools);
    NothingPorted(pools[j].held);
  }

  lemma NothingPorted(reps: seq<Replica>)
    requires reps == []
    ensures Ported(reps) == {}
  {
  }
}
