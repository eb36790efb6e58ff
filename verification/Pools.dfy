/** The pools of a deploy as values: which containers and which routes belong to which side. */
module Pools {
  import opened Edge
  import opened Rows

  /** A container's name is its service and replica number. */
  datatype Container = Container(service: string, index: int)

  /** One service of a deploy; `incoming` is the new pool and `held` the one it replaces. */
  datatype DeployPool = DeployPool(service: string, routes: seq<int>, exposed: bool,
                                   incoming: seq<Replica>, held: seq<Replica>)

  // ----- pools without the states of their replicas

  function Bare(p: DeployPool): DeployPool {
    p.(incoming := WithState(p.incoming, RStarting), held := WithState(p.held, RStarting))
  }

  function BareAll(pools: seq<DeployPool>): (r: seq<DeployPool>)
    ensures |r| == |pools| && forall k :: 0 <= k < |pools| ==> r[k] == Bare(pools[k])
  {
    seq(|pools|, k requires 0 <= k < |pools| => Bare(pools[k]))
  }

  lemma BareSame(reps: seq<Replica>)
    ensures Ported(WithState(reps, RStarting)) == Ported(reps)
  {
    var b := WithState(reps, RStarting);
    forall i ensures i in Ported(b) <==> i in Ported(reps) {
      if i in Ported(reps) {
        var r :| r in reps && r.port > 0 && r.index == i;
        var k :| 0 <= k < |reps| && reps[k] == r;
        assert b[k] in b;
      }
      if i in Ported(b) {
        var r :| r in b && r.port > 0 && r.index == i;
        var k :| 0 <= k < |b| && b[k] == r;
        assert reps[k] in reps;
      }
    }
  }

  /** Changing states changes neither side of a pool. */
  lemma BareKeepsPorts(p: DeployPool)
    ensures Ported(Bare(p).incoming) == Ported(p.incoming) && Ported(Bare(p).held) == Ported(p.held)
  {
    BareSame(p.incoming);
    BareSame(p.held);
  }

  // ----- sides

  ghost predicate IsHeld(pools: seq<DeployPool>, c: Container) {
    exists k, i :: 0 <= k < |pools| && pools[k].exposed && 0 <= i < |pools[k].held|
                && c == Container(pools[k].service, pools[k].held[i].index)
  }

  ghost predicate IsIncoming(pools: seq<DeployPool>, c: Container) {
    exists k, i :: 0 <= k < |pools| && pools[k].exposed && 0 <= i < |pools[k].incoming|
                && c == Container(pools[k].service, pools[k].incoming[i].index)
  }

  ghost predicate PoolOk(p: DeployPool) {
    && DistinctIndexes(p.incoming + p.held)
    && (!p.exposed ==> p.held == [])
  }

  ghost predicate RoutesApart(pools: seq<DeployPool>) {
    forall j, k :: 0 <= j < k < |pools| && pools[j].exposed && pools[k].exposed ==>
      forall id :: id in pools[j].routes ==> id !in pools[k].routes
  }

  ghost predicate ServicesApart(pools: seq<DeployPool>) {
    forall j, k :: 0 <= j < k < |pools| && pools[j].exposed && pools[k].exposed ==> pools[j].service != pools[k].service
  }

  /** No exposed service, and no route of one, is in two pools. */
  ghost predicate Apart(pools: seq<DeployPool>) {
    RoutesApart(pools) && ServicesApart(pools)
  }

  /** Each pool by itself is in order. */
  ghost predicate Sound(pools: seq<DeployPool>) {
    && (forall k :: 0 <= k < |pools| && pools[k].exposed ==> PoolOk(pools[k]))
    && (forall k :: 0 <= k < |pools| && !pools[k].exposed ==> pools[k].held == [])
  }

  ghost predicate WellFormed(pools: seq<DeployPool>) {
    Sound(pools) && Apart(pools)
  }

  /** No container is on both sides. */
  lemma SidesApart(pools: seq<DeployPool>, c: Container)
    requires WellFormed(pools)
    ensures !(IsHeld(pools, c) && IsIncoming(pools, c))
  {
    if IsHeld(pools, c) && IsIncoming(pools, c) {
      var k, i :| 0 <= k < |pools| && pools[k].exposed && 0 <= i < |pools[k].held|
               && c == Container(pools[k].service, pools[k].held[i].index);
      var l, j :| 0 <= l < |pools| && pools[l].exposed && 0 <= j < |pools[l].incoming|
               && c == Container(pools[l].service, pools[l].incoming[j].index);
      Across(pools[k], i, j, pools[l], pools, k, l);
      assert false;
    }
  }

  lemma Across(p: DeployPool, i: nat, j: nat, q: DeployPool, pools: seq<DeployPool>, k: nat, l: nat)
    requires WellFormed(pools) && k < |pools| && l < |pools| && p == pools[k] && q == pools[l]
    requires p.exposed && q.exposed && i < |p.held| && j < |q.incoming|
    ensures p.service != q.service || p.held[i].index != q.incoming[j].index
  {
    if k == l {
      var all := p.incoming + p.held;
      assert all[j] == p.incoming[j] && all[|p.incoming| + i] == p.held[i];
    }
  }

  /** The sides, and being well formed, do not depend on states. */
  lemma BareSides(pools: seq<DeployPool>, c: Container)
    ensures IsHeld(BareAll(pools), c) <==> IsHeld(pools, c)
    ensures IsIncoming(BareAll(pools), c) <==> IsIncoming(pools, c)
  {
    var b := BareAll(pools);
    if IsHeld(pools, c) {
      var k, i :| 0 <= k < |pools| && pools[k].exposed && 0 <= i < |pools[k].held|
               && c == Container(pools[k].service, pools[k].held[i].index);
      assert b[k].held[i].index == pools[k].held[i].index;
    }
    if IsIncoming(pools, c) {
      var k, i :| 0 <= k < |pools| && pools[k].exposed && 0 <= i < |pools[k].incoming|
               && c == Container(pools[k].service, pools[k].incoming[i].index);
      assert b[k].incoming[i].index == pools[k].incoming[i].index;
    }
    if IsHeld(b, c) {
      var k, i :| 0 <= k < |b| && b[k].exposed && 0 <= i < |b[k].held|
               && c == Container(b[k].service, b[k].held[i].index);
      assert b[k].held[i].index == pools[k].held[i].index;
    }
    if IsIncoming(b, c) {
      var k, i :| 0 <= k < |b| && b[k].exposed && 0 <= i < |b[k].incoming|
               && c == Container(b[k].service, b[k].incoming[i].index);
      assert b[k].incoming[i].index == pools[k].incoming[i].index;
    }
  }

  lemma BareWellFormed(pools: seq<DeployPool>)
    ensures Sound(BareAll(pools)) <==> Sound(pools)
    ensures Apart(BareAll(pools)) <==> Apart(pools)
  {
    var b := BareAll(pools);
    forall k | 0 <= k < |pools| ensures PoolOk(b[k]) <==> PoolOk(pools[k]) {
      SameDistinct(pools[k]);
    }
  }

  lemma SameDistinct(p: DeployPool)
    ensures PoolOk(Bare(p)) <==> PoolOk(p)
  {
    var all, bare := p.incoming + p.held, Bare(p).incoming + Bare(p).held;
    assert |all| == |bare| && forall i :: 0 <= i < |all| ==> bare[i].index == all[i].index;
  }

  // ----- rows wanted

  datatype Side = Both | HeldOnly

  function Listing(p: DeployPool, side: Side): seq<Replica> {
    if side == Both then p.incoming + p.held else p.held
  }

  function Same(routes: seq<int>, t: Table): map<int, Table> { map id | id in routes :: t }

  /** The rows a write of every exposed pool leaves, route by route. */
  function Want(pools: seq<DeployPool>, side: Side): map<int, Table> {
    if pools == [] then map[]
    else
      var p := pools[|pools| - 1];
      var w := Want(pools[..|pools| - 1], side);
      if p.exposed then w + Same(p.routes, TableOf(Listing(p, side))) else w
  }

  lemma {:induction false} WantAt(pools: seq<DeployPool>, side: Side, k: nat, id: int)
    requires RoutesApart(pools) && k < |pools| && pools[k].exposed && id in pools[k].routes
    ensures id in Want(pools, side) && Want(pools, side)[id] == TableOf(Listing(pools[k], side))
  {
    var n := |pools| - 1;
    if k < n {
      WantAt(pools[..n], side, k, id);
      assert pools[n].exposed ==> id !in pools[n].routes;
    }
  }

  lemma {:induction false} WantOnly(pools: seq<DeployPool>, side: Side, id: int)
    requires id in Want(pools, side)
    ensures exists k :: 0 <= k < |pools| && pools[k].exposed && id in pools[k].routes
  {
    var n := |pools| - 1;
    if id in Want(pools[..n], side) {
      WantOnly(pools[..n], side, id);
      var k :| 0 <= k < n && pools[..n][k].exposed && id in pools[..n][k].routes;
      assert pools[k].exposed && id in pools[k].routes;
    } else {
      assert pools[n].exposed && id in pools[n].routes;
    }
  }

  /** Every route of every exposed pool shows exactly that pool's incoming replicas as active. */
  ghost predicate ShowsIncoming(rows: map<int, Table>, pools: seq<DeployPool>) {
    forall k, id :: 0 <= k < |pools| && pools[k].exposed && id in pools[k].routes ==>
      id in rows && ActiveIn(rows[id]) == Ported(pools[k].incoming)
  }

  ghost predicate ShowsHeld(rows: map<int, Table>, pools: seq<DeployPool>) {
    forall k, id :: 0 <= k < |pools| && pools[k].exposed && id in pools[k].routes ==>
      id in rows && ActiveIn(rows[id]) == Ported(pools[k].held)
  }

  ghost predicate AllPorted(t: Table) {
    forall i :: i in t ==> t[i].port > 0
  }

  /** Rows a resumed deploy reads back as the pools: active is incoming, the rest is held. */
  ghost predicate Switched(rows: map<int, Table>, pools: seq<DeployPool>) {
    forall k, id :: 0 <= k < |pools| && pools[k].exposed && id in pools[k].routes ==>
      && id in rows && ActiveIn(rows[id]) == Ported(pools[k].incoming)
      && HeldIn(rows[id]) == Ported(pools[k].held) && AllPorted(rows[id])
  }

  ghost predicate AllIn(reps: seq<Replica>, st: ReplicaState) {
    forall r :: r in reps ==> r.state == st
  }

  ghost predicate Serving(p: DeployPool) {
    AllIn(p.incoming, RActive) && forall r :: r in p.held ==> r.state == RHeld || r.state == RDraining
  }

  ghost predicate GivingUp(p: DeployPool) {
    AllIn(p.held, RActive) && forall r :: r in p.incoming ==> r.state == RDraining
  }

  lemma ServingTable(p: DeployPool)
    requires PoolOk(p) && Serving(p)
    ensures ActiveIn(TableOf(Listing(p, Both))) == Ported(p.incoming)
    ensures HeldIn(TableOf(Listing(p, Both))) == Ported(p.held) && AllPorted(TableOf(Listing(p, Both)))
  {
    TableShape(p.incoming + p.held);
    ActiveBeside(p.incoming, p.held);
    HeldBeside(p.incoming, p.held);
  }

  lemma GivingUpTable(p: DeployPool)
    requires PoolOk(p) && GivingUp(p)
    ensures ActiveIn(TableOf(Listing(p, Both))) == Ported(p.held)
    ensures HeldIn(TableOf(Listing(p, Both))) == Ported(p.incoming)
  {
    ActiveBehind(p.incoming, p.held);
    HeldBehind(p.incoming, p.held);
  }

  lemma BackTable(p: DeployPool)
    requires PoolOk(p) && AllIn(p.held, RActive)
    ensures ActiveIn(TableOf(Listing(p, HeldOnly))) == Ported(p.held)
  {
    HeldDistinct(p);
    assert [] + p.held == p.held;
    ActiveBehind([], p.held);
  }

  ghost predicate AllServing(pools: seq<DeployPool>) {
    forall k :: 0 <= k < |pools| && pools[k].exposed ==> Serving(pools[k])
  }

  ghost predicate AllGivingUp(pools: seq<DeployPool>) {
    forall k :: 0 <= k < |pools| && pools[k].exposed ==> GivingUp(pools[k])
  }

  ghost predicate AllBack(pools: seq<DeployPool>) {
    forall k :: 0 <= k < |pools| && pools[k].exposed ==> AllIn(pools[k].held, RActive)
  }

  lemma ServingWant(pools: seq<DeployPool>, k: nat, id: int)
    requires WellFormed(pools) && AllServing(pools) && k < |pools| && pools[k].exposed && id in pools[k].routes
    ensures id in Want(pools, Both) && ActiveIn(Want(pools, Both)[id]) == Ported(pools[k].incoming)
    ensures HeldIn(Want(pools, Both)[id]) == Ported(pools[k].held) && AllPorted(Want(pools, Both)[id])
  {
    hide Want, TableOf, ActiveIn, HeldIn, Ported, Serving, PoolOk, Listing, AllPorted, RoutesApart;
    WantAt(pools, Both, k, id);
    ServingTable(pools[k]);
  }

  lemma GivingUpWant(pools: seq<DeployPool>, k: nat, id: int)
    requires WellFormed(pools) && AllGivingUp(pools) && k < |pools| && pools[k].exposed && id in pools[k].routes
    ensures id in Want(pools, Both) && ActiveIn(Want(pools, Both)[id]) == Ported(pools[k].held)
  {
    hide Want, TableOf, ActiveIn, Ported, PoolOk, GivingUp, Listing, RoutesApart;
    WantAt(pools, Both, k, id);
    GivingUpTable(pools[k]);
  }

  lemma BackWant(pools: seq<DeployPool>, k: nat, id: int)
    requires WellFormed(pools) && AllBack(pools) && k < |pools| && pools[k].exposed && id in pools[k].routes
    ensures id in Want(pools, HeldOnly) && ActiveIn(Want(pools, HeldOnly)[id]) == Ported(pools[k].held)
  {
    hide Want, TableOf, ActiveIn, Ported, PoolOk, AllIn, Listing, RoutesApart;
    WantAt(pools, HeldOnly, k, id);
    BackTable(pools[k]);
  }

  /** Pools that serve from the incoming side want rows a resumed deploy reads back exactly. */
  lemma WantServing(pools: seq<DeployPool>)
    requires WellFormed(pools) && AllServing(pools)
    ensures Switched(Want(pools, Both), pools) && ShowsIncoming(Want(pools, Both), pools)
  {
    hide Want, ActiveIn, HeldIn, Ported, AllPorted, AllServing, WellFormed;
    forall k, id | 0 <= k < |pools| && pools[k].exposed && id in pools[k].routes
      ensures id in Want(pools, Both) && ActiveIn(Want(pools, Both)[id]) == Ported(pools[k].incoming)
      ensures HeldIn(Want(pools, Both)[id]) == Ported(pools[k].held) && AllPorted(Want(pools, Both)[id])
    {
      ServingWant(pools, k, id);
    }
    SwitchedShows(Want(pools, Both), pools);
  }

  lemma SwitchedShows(rows: map<int, Table>, pools: seq<DeployPool>)
    requires Switched(rows, pools)
    ensures ShowsIncoming(rows, pools)
  {
    hide ActiveIn, HeldIn, Ported, AllPorted;
  }

  lemma WantGivingUp(pools: seq<DeployPool>)
    requires WellFormed(pools) && AllGivingUp(pools)
    ensures ShowsHeld(Want(pools, Both), pools)
  {
    hide Want, ActiveIn, Ported, WellFormed, AllGivingUp;
    forall k, id | 0 <= k < |pools| && pools[k].exposed && id in pools[k].routes
      ensures id in Want(pools, Both) && ActiveIn(Want(pools, Both)[id]) == Ported(pools[k].held)
    {
      GivingUpWant(pools, k, id);
    }
  }

  lemma WantBack(pools: seq<DeployPool>)
    requires WellFormed(pools) && AllBack(pools)
    ensures ShowsHeld(Want(pools, HeldOnly), pools)
  {
    hide Want, ActiveIn, Ported, WellFormed, AllBack;
    forall k, id | 0 <= k < |pools| && pools[k].exposed && id in pools[k].routes
      ensures id in Want(pools, HeldOnly) && ActiveIn(Want(pools, HeldOnly)[id]) == Ported(pools[k].held)
    {
      BackWant(pools, k, id);
    }
  }

  lemma HeldDistinct(p: DeployPool)
    requires DistinctIndexes(p.incoming + p.held)
    ensures DistinctIndexes([] + p.held) && DistinctIndexes(p.incoming + [])
  {
    var all := p.incoming + p.held;
    assert forall i :: 0 <= i < |p.held| ==> ([] + p.held)[i] == all[|p.incoming| + i];
    assert forall i :: 0 <= i < |p.incoming| ==> (p.incoming + [])[i] == all[i];
  }

  // ----- writing rows one route at a time

  /** Each route has the rows it had or the ones wanted: what any prefix of the writes leaves. */
  ghost predicate Recorded(before: map<int, Table>, after: map<int, Table>, want: map<int, Table>) {
    && before.Keys <= after.Keys
    && forall id :: id in after ==> (id in before && after[id] == before[id]) || (id in want && after[id] == want[id])
  }

  ghost predicate RecordedAll(after: map<int, Table>, want: map<int, Table>) {
    forall id :: id in want ==> id in after && after[id] == want[id]
  }

  ghost predicate WholeSide(t: Table, p: DeployPool) {
    ActiveIn(t) == Ported(p.incoming) || ActiveIn(t) == Ported(p.held)
  }
}
