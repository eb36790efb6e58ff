/** The router: one pool per host, all replaced together by a pushed table. */
module Routers {
  import opened Edge
  import opened Pool
  import opened PoolRuns
  import opened RoutePools

  // ----- what a push does to the pools, as values

  datatype Push = Push(views: map<string, Pool>, events: seq<Event>, last: int)

  function ViewOf(views: map<string, Pool>, host: string): Pool {
    if host in views then views[host] else EmptyPool()
  }

  /** Every route installed over the pool its host had; a new pool's events are not reported. */
  function PushRoutes(views: map<string, Pool>, routes: seq<Route>, norm: string -> string, optDrain: int,
                      now: Time, last: int): Push
  {
    if routes == [] then Push(map[], [], last)
    else
      var init := PushRoutes(views, routes[..|routes| - 1], norm, optDrain, now, last);
      var r := routes[|routes| - 1];
      var p := ViewOf(views, r.host);
      var s := Installed(p, r, norm(r.host), optDrain, now, init.last);
      Push(init.views[r.host := s.pool],
           init.events + if r.host in views then s.events else [],
           MergeAll(p.targets, r.targets, norm(r.host), now, init.last).last)
  }

  function Normalised(routes: seq<Route>, norm: string -> string): (r: seq<Route>)
    ensures |r| == |routes|
    ensures forall i :: 0 <= i < |r| ==> r[i] == routes[i].(host := norm(routes[i].host))
  {
    seq(|routes|, i requires 0 <= i < |routes| => routes[i].(host := norm(routes[i].host)))
  }

  ghost predicate DistinctHosts(routes: seq<Route>) {
    forall i, j :: 0 <= i < j < |routes| ==> routes[i].host != routes[j].host
  }

  /** The pool a push leaves for a route: an install over what its host had, or over nothing. */
  ghost predicate PushedAt(views: map<string, Pool>, r: Route, norm: string -> string, optDrain: int, now: Time,
                           q: Pool, low: int)
  {
    exists last :: low <= last && q == Installed(ViewOf(views, r.host), r, norm(r.host), optDrain, now, last).pool
  }

  lemma {:induction false} PushLast(views: map<string, Pool>, routes: seq<Route>, norm: string -> string, optDrain: int,
                                    now: Time, last: int)
    ensures last <= PushRoutes(views, routes, norm, optDrain, now, last).last
  {
    if routes != [] { PushLast(views, routes[..|routes| - 1], norm, optDrain, now, last); }
  }

  /** A push leaves exactly the table's hosts. */
  lemma {:induction false} PushHosts(views: map<string, Pool>, routes: seq<Route>, norm: string -> string, optDrain: int,
                                     now: Time, last: int, h: string)
    ensures h in PushRoutes(views, routes, norm, optDrain, now, last).views
       <==> exists k :: 0 <= k < |routes| && routes[k].host == h
  {
    hide Installed, MergeAll;
    if routes != [] {
      var n := |routes| - 1;
      PushHosts(views, routes[..n], norm, optDrain, now, last, h);
      assert forall k :: 0 <= k < n ==> routes[..n][k] == routes[k];
    }
  }

  lemma TableHasPools(views: map<string, Pool>, routes: seq<Route>, norm: string -> string, optDrain: int, now: Time, last: int)
    ensures forall r :: r in routes ==> r.host in PushRoutes(views, routes, norm, optDrain, now, last).views
  {
    hide PushRoutes;
    forall r | r in routes ensures r.host in PushRoutes(views, routes, norm, optDrain, now, last).views {
      PushHosts(views, routes, norm, optDrain, now, last, r.host);
    }
  }

  /** A push leaves exactly the table's hosts, and each pool is the install of its route. */
  lemma PushShape(views: map<string, Pool>, routes: seq<Route>, norm: string -> string, optDrain: int,
                  now: Time, last: int, i: nat)
    requires DistinctHosts(routes) && i < |routes|
    ensures var push := PushRoutes(views, routes, norm, optDrain, now, last).views;
      && routes[i].host in push
      && (forall h :: h in push ==> exists k :: 0 <= k < |routes| && routes[k].host == h)
      && PushedAt(views, routes[i], norm, optDrain, now, push[routes[i].host], last)
  {
    hide PushRoutes, PushedAt, Installed;
    forall h
      ensures h in PushRoutes(views, routes, norm, optDrain, now, last).views
         <==> exists k :: 0 <= k < |routes| && routes[k].host == h
    {
      PushHosts(views, routes, norm, optDrain, now, last, h);
    }
    PushInstalls(views, routes, norm, optDrain, now, last, i);
  }

  lemma {:induction false} PushInstalls(views: map<string, Pool>, routes: seq<Route>, norm: string -> string, optDrain: int,
                                        now: Time, last: int, i: nat)
    requires DistinctHosts(routes) && i < |routes|
    ensures var push := PushRoutes(views, routes, norm, optDrain, now, last).views;
      routes[i].host in push && PushedAt(views, routes[i], norm, optDrain, now, push[routes[i].host], last)
  {
    hide Installed, MergeAll;
    var n := |routes| - 1;
    PushLast(views, routes[..n], norm, optDrain, now, last);
    if i < n { PushInstalls(views, routes[..n], norm, optDrain, now, last, i); }
  }

  // ----- what an install keeps

  /** What survives an install: connections, incarnation, counters and the failure window. */
  ghost predicate Survives(s: Slot, s': Slot) {
    && s'.conns == s.conns && s'.incarnation == s.incarnation
    && s'.counted == s.counted && s'.failedUntil == s.failedUntil
  }

  ghost predicate Shows(s: Slot, t: Target) {
    s.t.replica == t.replica && s.t.port == t.port && s.t.state == t.state && s.t.detail == t.detail
  }

  ghost predicate At(s: Slot, replica: int, port: int) { s.t.replica == replica && s.t.port == port }

  /**
   A target that was behind the route at its port survives, in its state since when it was unless that
   changes; any other starts afresh, in its state since when the table says, or now.
   */
  ghost predicate CarriesOver(p: Pool, last: int, want: Target, now: Time, s': Slot) {
    if exists s :: s in p.targets && At(s, want.replica, want.port)
    then exists s :: && s in p.targets && At(s, want.replica, want.port) && Survives(s, s')
                     && s'.t.since == if s.t.state == want.state then s.t.since else now
    else && s'.incarnation > last && s'.conns == map[] && s'.counted == NO_COUNTS && s'.failedUntil == ZERO_TIME
         && s'.t.since == if want.since == ZERO_TIME then now else want.since
  }

  lemma KeptIff(p: Pool, last: int, want: Target)
    requires Inv(p, last)
    ensures Kept(p.targets, want) <==> exists s :: s in p.targets && At(s, want.replica, want.port)
  {
    var f := Find(p.targets, want.replica);
    if Kept(p.targets, want) {
      var t := p.targets[f.value];
      assert t in p.targets && At(t, want.replica, want.port);
    }
    if s :| s in p.targets && At(s, want.replica, want.port) {
      var i :| 0 <= i < |p.targets| && p.targets[i] == s;
      assert f == Some(i);
    }
  }

  /**
   After an install the pool holds one slot per wanted target, in replica order, showing its
   replica, port and state; one kept at the same port survives, and any other is a new incarnation.
   */
  lemma InstallShows(p: Pool, op: Op, last: int, want: Target)
    requires Inv(p, last) && op.Install? && Legal(p, op, last) && want in op.route.targets
    ensures var q := Step(p, op).pool;
      && |q.targets| == |op.route.targets| && Ordered(q.targets)
      && (exists s' :: s' in q.targets && Shows(s', want) && CarriesOver(p, last, want, op.now, s'))
  {
    hide SortByReplica, SettleAll, SettleEvents, Snapshot, Inv;
    var i :| 0 <= i < |op.route.targets| && op.route.targets[i] == want;
    var m := MergeAll(p.targets, op.route.targets, op.host, op.now, op.last).slots;
    MergeAt(p.targets, op.route.targets, op.host, op.now, op.last, i);
    StepInv(p, op, last);
    InstallMembers(p, op.route, op.host, op.optDrain, op.now, op.last);
    KeptIff(p, last, want);
    if Kept(p.targets, want) {
      var s := p.targets[Find(p.targets, want.replica).value];
      assert s in p.targets && At(s, want.replica, want.port) && Survives(s, Settle(m[i]));
    }
    assert Settle(m[i]) in Step(p, op).pool.targets && Shows(Settle(m[i]), want) && CarriesOver(p, last, want, op.now, Settle(m[i]));
  }

  /**
   A push delivers its table: the pool of every host shows each target of its route, and a replica
   kept at its port keeps its connections, incarnation, counters and failure window.
   */
  lemma PushDelivers(views: map<string, Pool>, routes: seq<Route>, norm: string -> string, optDrain: int,
                     now: Time, last: int, i: nat, want: Target)
    requires DistinctHosts(routes) && i < |routes| && want in routes[i].targets
    requires DistinctReplicas(routes[i].targets) && forall h :: h in views ==> Inv(views[h], last)
    ensures var push := PushRoutes(views, routes, norm, optDrain, now, last).views;
      && routes[i].host in push
      && |push[routes[i].host].targets| == |routes[i].targets| && Ordered(push[routes[i].host].targets)
      && (exists s' :: s' in push[routes[i].host].targets && Shows(s', want)
            && CarriesOver(ViewOf(views, routes[i].host), last, want, now, s'))
  {
    hide Step, MergeAll, CarriesOver, Shows, Ordered, Inv, Installed;
    PushShape(views, routes, norm, optDrain, now, last, i);
    EmptyInv(last);
    var r := routes[i];
    var p := ViewOf(views, r.host);
    var q := PushRoutes(views, routes, norm, optDrain, now, last).views[r.host];
    var l :| last <= l && q == Installed(p, r, norm(r.host), optDrain, now, l).pool;
    var op := Op.Install(r, norm(r.host), optDrain, now, l);
    StepsToInstall(p, op);
    InstallShows(p, op, last, want);
  }

  lemma EmptyInv(last: int)
    ensures Inv(EmptyPool(), last)
  {
  }

  /** A push reports what it does to the pools there were, all of it, and nothing of the new ones. */
  lemma {:induction false} PushReports(views: map<string, Pool>, routes: seq<Route>, norm: string -> string, optDrain: int,
                                       now: Time, last: int, e: Event)
    ensures e in PushRoutes(views, routes, norm, optDrain, now, last).events <==>
      exists i :: 0 <= i < |routes| && ReportedOf(views, routes, norm, optDrain, now, last, i, e)
  {
    hide Installed, MergeAll;
    if routes != [] {
      var n := |routes| - 1;
      PushReports(views, routes[..n], norm, optDrain, now, last, e);
      forall i | 0 <= i < n
        ensures ReportedOf(views, routes[..n], norm, optDrain, now, last, i, e)
           <==> ReportedOf(views, routes, norm, optDrain, now, last, i, e)
      {
        assert routes[..n][..i] == routes[..i] && routes[..n][i] == routes[i];
      }
      var init := PushRoutes(views, routes[..n], norm, optDrain, now, last);
      assert e in PushRoutes(views, routes, norm, optDrain, now, last).events
        <==> e in init.events || ReportedOf(views, routes, norm, optDrain, now, last, n, e);
      if e in init.events {
        var i :| 0 <= i < n && ReportedOf(views, routes[..n], norm, optDrain, now, last, i, e);
        assert ReportedOf(views, routes, norm, optDrain, now, last, i, e);
      }
      if i :| 0 <= i < |routes| && ReportedOf(views, routes, norm, optDrain, now, last, i, e) {
        if i < n { assert ReportedOf(views, routes[..n], norm, optDrain, now, last, i, e); }
      }
    }
  }

  /** The route's host had a pool, and the install over it, after those before it, returns the event. */
  ghost predicate ReportedOf(views: map<string, Pool>, routes: seq<Route>, norm: string -> string, optDrain: int,
                             now: Time, last: int, i: nat, e: Event)
    requires i < |routes|
  {
    var before := PushRoutes(views, routes[..i], norm, optDrain, now, last).last;
    routes[i].host in views
    && e in Installed(views[routes[i].host], routes[i], norm(routes[i].host), optDrain, now, before).events
  }

  lemma StepsToInstall(p: Pool, op: Op)
    requires op.Install?
    ensures Step(p, op) == Installed(p, op.route, op.host, op.optDrain, op.now, op.last)
  {
  }

  function FirstRoute(routes: seq<Route>, host: string): (r: Option<Route>)
    ensures r.Some? ==> r.value in routes && r.value.host == host
    ensures r.None? ==> forall x :: x in routes ==> x.host != host
  {
    if routes == [] then None
    else if routes[0].host == host then Some(routes[0])
    else FirstRoute(routes[1..], host)
  }

  /** The events of a sweep of some hosts, one after the other. */
  ghost function SweptEvents(views: map<string, Pool>, order: seq<string>, now: Time): seq<Event> {
    if order == [] then []
    else
      var h := order[|order| - 1];
      SweptEvents(views, order[..|order| - 1], now) + if h in views then Swept(views[h], now).events else []
  }

  lemma SweptNone(views: map<string, Pool>, now: Time)
    ensures SweptEvents(views, [], now) == []
  {
  }

  lemma SweptMore(views: map<string, Pool>, order: seq<string>, h: string, now: Time)
    ensures SweptEvents(views, order + [h], now) == SweptEvents(views, order, now) + if h in views then Swept(views[h], now).events else []
  {
    assert (order + [h])[..|order|] == order;
  }

  lemma NormalisedApart(routes: seq<Route>, norm: string -> string)
    requires ValidTable(routes, norm)
    ensures DistinctHosts(Normalised(routes, norm))
    ensures forall i :: 0 <= i < |routes| ==> DistinctReplicas(Normalised(routes, norm)[i].targets)
  {
    assert forall i :: 0 <= i < |routes| ==> ValidRoute(routes[i]);
  }

  // ----- the router

  class Router {
    const norm: string -> string
    const optDrain: int
    const incarnations: Incarnations

    var table: seq<Route>
    var pools: map<string, RoutePool>

    ghost predicate Valid()
      reads this, incarnations, pools.Values
    {
      && (forall h :: h in pools ==> InOrder(pools[h]) && pools[h].newest <= incarnations.last)
      && (forall h, k :: h in pools && k in pools && h != k ==> pools[h] != pools[k])
      && (forall r :: r in table ==> r.host in pools)
    }

    ghost predicate InOrder(p: RoutePool)
      reads p
    {
      p.Valid() && p.norm == norm && p.optDrain == optDrain
    }

    lemma TablePools()
      requires Valid()
      ensures forall r :: r in table ==> r.host in pools
    {
    }

    ghost function Views(): map<string, Pool>
      reads this, pools.Values
    {
      map h | h in pools :: pools[h].View()
    }

    constructor (norm: string -> string, optDrain: int)
      ensures Valid() && pools == map[] && table == [] && fresh(incarnations)
      ensures this.norm == norm && this.optDrain == optDrain
    {
      this.norm := norm;
      this.optDrain := optDrain;
      incarnations := new Incarnations();
      table, pools := [], map[];
    }

    /** A push is all or nothing: a table that does not validate changes no pool and no route. */
    method Install(routes: seq<Route>, now: Time) returns (err: Option<TableError>, events: seq<Event>)
      requires Valid()
      modifies this`table, this`pools, incarnations`last, pools.Values
      ensures Valid()
      ensures err.None? <==> ValidTable(routes, norm)
      ensures err.Some? ==> table == old(table) && pools == old(pools) && Views() == old(Views()) && events == []
      ensures err.None? ==>
        var push := PushRoutes(old(Views()), Normalised(routes, norm), norm, optDrain, now, old(incarnations.last));
        && table == Normalised(routes, norm)
        && Views() == push.views
        && events == push.events + [TableInstalled(|routes|, now)]
      ensures forall h :: h in pools && h in old(pools) ==> pools[h] == old(pools)[h]
    {
      hide Installed, PushRoutes, InOrder, RoutePool.View, ValidTable;
      err := ValidateTable(routes, norm);
      events := [];
      if err.Some? { return; }
      var t := Normalised(routes, norm);
      NormalisedApart(routes, norm);
      TableHasPools(Views(), t, norm, optDrain, now, incarnations.last);
      var installed, reported := InstallAll(t, now);
      pools := installed;
      table := t;
      events := reported + [TableInstalled(|t|, now)];
    }

    /** Finds the pool of a host. The route beside it is looked up under the host normalised twice. */
    method Lookup(host: string) returns (found: Option<(Option<Route>, RoutePool)>)
      ensures found.Some? <==> norm(host) in pools
      ensures found.Some? ==> found.value == (FirstRoute(table, norm(norm(host))), pools[norm(host)])
    {
      var h := norm(host);
      if h !in pools { return None; }
      return Some((FirstRoute(table, norm(h)), pools[h]));
    }

    /** The table as it stands: the pushed routes, each showing its pool's targets. */
    method Table() returns (out: seq<Route>)
      requires Valid()
      ensures |out| == |table|
      ensures forall i :: 0 <= i < |table| ==>
        && out[i] == table[i].(targets := out[i].targets)
        && |out[i].targets| == |pools[table[i].host].targets|
        && forall k :: 0 <= k < |out[i].targets| ==> out[i].targets[k] == pools[table[i].host].targets[k].Live()
    {
      hide Valid, Slot.Live;
      TablePools();
      out := [];
      for i := 0 to |table|
        invariant |out| == i
        invariant forall j :: 0 <= j < i ==>
          && out[j] == table[j].(targets := out[j].targets)
          && |out[j].targets| == |pools[table[j].host].targets|
          && forall k :: 0 <= k < |out[j].targets| ==> out[j].targets[k] == pools[table[j].host].targets[k].Live()
      {
        assert table[i] in table;
        var live := pools[table[i].host].Live();
        out := out + [table[i].(targets := live)];
      }
    }

    /** One sweep of every pool, in whatever order the map gives; `order` is that order. */
    method Sweep(now: Time) returns (events: seq<Event>, ghost order: seq<string>)
      requires Valid()
      modifies pools.Values
      ensures Valid()
      ensures forall h :: h in pools ==> pools[h].View() == Swept(old(pools[h].View()), now).pool
      ensures (forall h :: h in order <==> h in pools) && forall i, j :: 0 <= i < j < |order| ==> order[i] != order[j]
      ensures events == SweptEvents(old(Views()), order, now)
    {
      hide Swept, RoutePool.View, RoutePool.Valid, SweptEvents;
      ghost var views := Views();
      events, order := [], [];
      SweptNone(views, now);
      var rest := pools.Keys;
      while rest != {}
        invariant rest <= pools.Keys
        invariant forall h :: h in pools ==> InOrder(pools[h]) && pools[h].newest <= incarnations.last
        invariant forall h :: h in rest ==> pools[h].View() == old(pools[h].View())
        invariant forall h :: h in pools && h !in rest ==> pools[h].View() == Swept(old(pools[h].View()), now).pool
        invariant forall h :: h in order <==> h in pools && h !in rest
        invariant forall i, j :: 0 <= i < j < |order| ==> order[i] != order[j]
        invariant events == SweptEvents(views, order, now)
      {
        var h :| h in rest;
        var es := pools[h].Sweep(now);
        SweptMore(views, order, h, now);
        events := events + es;
        order := order + [h];
        rest := rest - {h};
      }
    }

    method InstallAll(t: seq<Route>, now: Time) returns (next: map<string, RoutePool>, events: seq<Event>)
      requires Valid() && DistinctHosts(t)
      requires forall i :: 0 <= i < |t| ==> DistinctReplicas(t[i].targets)
      modifies incarnations`last, pools.Values
      ensures forall h :: h in next ==> InOrder(next[h]) && next[h].newest <= incarnations.last
      ensures forall h, k :: h in next && k in next && h != k ==> next[h] != next[k]
      ensures forall h :: h in next && h in pools ==> next[h] == pools[h]
      ensures Follows(next, events, PushRoutes(old(Views()), t, norm, optDrain, now, old(incarnations.last)))
    {
      hide Installed, MergeAll, PushRoutes, InOrder, RoutePool.View, Follows;
      next, events := map[], [];
      ghost var views := Views();
      ghost var last0 := incarnations.last;
      ghost var home: map<RoutePool, string> := map[];
      FollowsNone(views, t, now);
      for i := 0 to |t|
        invariant incarnations.last >= last0
        invariant forall p :: p in home.Keys ==> InOrder(p) && p.newest <= incarnations.last
        invariant forall h :: h in next ==> next[h] in home.Keys && home[next[h]] == h
        invariant forall h :: h in next ==> exists k :: 0 <= k < i && t[k].host == h
        invariant forall h :: h in pools && h !in next ==> pools[h] !in home.Keys && unchanged(pools[h])
        invariant forall h :: h in next && h in pools ==> next[h] == pools[h]
        invariant Follows(next, events, PushRoutes(views, t[..i], norm, optDrain, now, last0))
      {
        var r := t[i];
        assert r.host !in next;
        assert r.host in pools ==> pools[r.host].View() == views[r.host];
        ghost var push := PushRoutes(views, t[..i], norm, optDrain, now, last0);
        PushNext(views, t, i, norm, optDrain, now, last0);
        var p, es := InstallNext(r, now, next, events, push, home.Keys);
        assert forall h :: h in pools && h != r.host ==> pools[h] != p;
        events := events + es;
        next := next[r.host := p];
        home := home[p := r.host];
      }
      assert t[..|t|] == t;
    }

    /** The pools and events so far are those of a push of the routes so far. */
    ghost predicate Follows(next: map<string, RoutePool>, events: seq<Event>, push: Push)
      reads next.Values, incarnations
    {
      && next.Keys == push.views.Keys
      && (forall h :: h in next ==> next[h].View() == push.views[h])
      && events == push.events && incarnations.last == push.last
    }

    lemma FollowsNone(views: map<string, Pool>, t: seq<Route>, now: Time)
      ensures Follows(map[], [], PushRoutes(views, t[..0], norm, optDrain, now, incarnations.last))
    {
    }

    /** One more route: the pools done before it keep what they promised. */
    method InstallNext(r: Route, now: Time, ghost next: map<string, RoutePool>, ghost events: seq<Event>,
                       ghost push: Push, ghost done: set<RoutePool>)
      returns (p: RoutePool, es: seq<Event>)
      requires DistinctReplicas(r.targets)
      requires r.host in pools ==>
        InOrder(pools[r.host]) && pools[r.host].newest <= incarnations.last && pools[r.host] !in done
      requires r.host !in next && Follows(next, events, push)
      requires (forall h :: h in next ==> next[h] in done) && forall q :: q in done ==> InOrder(q) && q.newest <= incarnations.last
      modifies incarnations`last, if r.host in pools then {pools[r.host]} else {}
      ensures InOrder(p) && p.newest <= incarnations.last && if r.host in pools then p == pools[r.host] else fresh(p)
      ensures incarnations.last >= old(incarnations.last)
      ensures p !in done && forall q :: q in done ==> InOrder(q) && q.newest <= incarnations.last
      ensures var was := if r.host in pools then old(pools[r.host].View()) else EmptyPool();
        var s := Installed(was, r, norm(r.host), optDrain, now, push.last);
        && es == (if r.host in pools then s.events else [])
        && Follows(next[r.host := p], events + es,
                   Push(push.views[r.host := s.pool], push.events + es,
                        MergeAll(was.targets, r.targets, norm(r.host), now, push.last).last))
    {
      hide Installed, MergeAll, InOrder, RoutePool.View;
      p, es := InstallOne(r, now);
      assert forall q :: q in done ==> q != p && InOrder(q);
      assert forall h :: h in next ==> next[h] != p && next[h].View() == push.views[h];
    }

    method InstallOne(r: Route, now: Time) returns (p: RoutePool, events: seq<Event>)
      requires DistinctReplicas(r.targets)
      requires r.host in pools ==> InOrder(pools[r.host]) && pools[r.host].newest <= incarnations.last
      modifies incarnations`last, if r.host in pools then {pools[r.host]} else {}
      ensures InOrder(p) && p.newest <= incarnations.last && if r.host in pools then p == pools[r.host] else fresh(p)
      ensures incarnations.last >= old(incarnations.last)
      ensures var was := if r.host in pools then old(pools[r.host].View()) else EmptyPool();
        var s := Installed(was, r, norm(r.host), optDrain, now, old(incarnations.last));
        && p.View() == s.pool
        && events == (if r.host in pools then s.events else [])
        && incarnations.last == MergeAll(was.targets, r.targets, norm(r.host), now, old(incarnations.last)).last
    {
      hide Installed, MergeAll, RoutePool.Valid;
      if r.host in pools {
        p := pools[r.host];
        events := p.Install(r, now, incarnations);
      } else {
        p := new RoutePool(r, norm, optDrain, now, incarnations);
        events := [];
      }
    }
  }

  /**
   A lookup returns the route its pool was built from exactly when normalising the host once is
   the same as normalising it twice.
   */
  lemma LookupFindsItsRoute(routes: seq<Route>, norm: string -> string, host: string, i: nat)
    requires DistinctHosts(routes) && i < |routes| && routes[i].host == norm(host)
    ensures FirstRoute(routes, norm(norm(host))) == Some(routes[i]) <==> norm(norm(host)) == norm(host)
  {
    var found := FirstRoute(routes, norm(host));
    assert routes[i] in routes;
    var k :| 0 <= k < |routes| && routes[k] == found.value;
  }

  /** Drops one dot at the end, as normalising a host does. */
  function TrimDot(s: string): string { if s != "" && s[|s| - 1] == '.' then s[..|s| - 1] else s }

  /** A host that ends in two dots has a pool, and is not given its route. */
  lemma TwoDotsMissTheRoute(r: Route)
    requires r.host == "a."
    ensures TrimDot("a..") == r.host && FirstRoute([r], TrimDot(TrimDot("a.."))) != Some(r)
  {
    assert "a.."[..2] == "a." && "a."[..1] == "a";
    LookupFindsItsRoute([r], TrimDot, "a..", 0);
  }

  lemma PushNext(views: map<string, Pool>, t: seq<Route>, i: nat, norm: string -> string, optDrain: int, now: Time,
                 last: int)
    requires i < |t|
    ensures var init := PushRoutes(views, t[..i], norm, optDrain, now, last);
      var p := ViewOf(views, t[i].host);
      var s := Installed(p, t[i], norm(t[i].host), optDrain, now, init.last);
      PushRoutes(views, t[..i + 1], norm, optDrain, now, last)
      == Push(init.views[t[i].host := s.pool], init.events + if t[i].host in views then s.events else [],
              MergeAll(p.targets, t[i].targets, norm(t[i].host), now, init.last).last)
  {
    hide Installed, MergeAll;
    assert t[..i + 1][..i] == t[..i];
  }
}
