/** A deploy: its steps up to the switch, and the two ways it ends. */
module Deploys {
  import opened Edge
  import opened Rows
  import opened Pools
  import opened World
  import opened Outcomes
  import Replicas
  import Watch

  /** A service to deploy. `ports` gives the port of a replica number, 0 when the layout has none. */
  datatype Plan = Plan(service: string, routes: seq<int>, exposed: bool, want: nat, ports: int -> int)

  /** The layout has a port for every number of an exposed service. */
  ghost predicate PortsGiven(plans: seq<Plan>) {
    forall k, i :: 0 <= k < |plans| && plans[k].exposed && i >= 1 ==> plans[k].ports(i) > 0
  }

  /** An exposed service has a route, and different ones have different routes. */
  ghost predicate RoutesByService(plans: seq<Plan>) {
    && (forall k :: 0 <= k < |plans| && plans[k].exposed ==> plans[k].routes != [])
    && (forall j, k :: 0 <= j < |plans| && 0 <= k < |plans| && plans[j].exposed && plans[k].exposed ==>
          plans[j].service == plans[k].service || forall id :: id in plans[j].routes ==> id !in plans[k].routes)
  }

  /** No exposed service is named twice. */
  ghost predicate NamedOnce(plans: seq<Plan>) {
    forall j, k :: 0 <= j < k < |plans| && plans[j].exposed && plans[k].exposed ==> plans[j].service != plans[k].service
  }

  lemma RestatedUnexposed(p: DeployPool, incoming: Option<ReplicaState>, held: Option<ReplicaState>)
    ensures !p.exposed ==> Restated(p, incoming, held) == p
    ensures Restated(p, incoming, held).exposed == p.exposed && Restated(p, incoming, held).routes == p.routes
  {
  }

  /** Some of the pools restated: the sides are the same. */
  lemma HalfRestated(was: seq<DeployPool>, now: seq<DeployPool>, incoming: Option<ReplicaState>,
                     held: Option<ReplicaState>, n: nat)
    requires n <= |was| == |now|
    requires forall j :: 0 <= j < n ==> now[j] == Restated(was[j], incoming, held)
    requires forall j :: n <= j < |was| ==> now[j] == was[j]
    ensures BareAll(now) == BareAll(was) && (Sound(now) <==> Sound(was))
  {
    hide Restated, Bare, Sound, Apart;
    forall j | 0 <= j < |was| ensures BareAll(now)[j] == BareAll(was)[j] {
      if j < n { RestatedBare(was[j], incoming, held); }
    }
    assert BareAll(now) == BareAll(was);
    BareWellFormed(now);
    BareWellFormed(was);
  }

  /** The first `n` pools flipped, the others as they were. */
  ghost predicate HalfFlipped(was: seq<DeployPool>, now: seq<DeployPool>, n: nat) {
    && n <= |was| == |now|
    && (forall j :: 0 <= j < n ==> now[j] == Restated(was[j], Some(RActive), Some(RDraining)))
    && (forall j :: n <= j < |was| ==> now[j] == was[j])
  }

  lemma FailedHow(st: Status, a: Trace, b: Trace, sides: seq<DeployPool>)
    requires GaveUp(st, a, b, sides)
    ensures NotSwitched(st, a, b, sides)
  {
    assert st == Failed;
    hide GaveUp, NotSwitched;
    GaveUpNotSwitched(a, b, sides);
  }

  lemma TookBackHow(st: Status, a: Trace, b: Trace, c: Trace, sides: seq<DeployPool>)
    requires SwitchedOn(a, b, sides) && (b.stored ==> a.stored) && TookBack(st, b, c, sides)
    ensures NotSwitched(st, a, c, sides)
  {
    assert st == Failed;
    hide TookBack, NotSwitched, SwitchedOn;
    TookBackNotSwitched(a, b, c, sides);
  }

  lemma PrefixOurs(pools: seq<DeployPool>, side: Side, n: nat, sides: seq<DeployPool>)
    requires SameShape(pools, sides) && n <= |Writes(pools, side)|
    ensures AllOurs(Writes(pools, side)[..n], sides)
  {
    hide Writes, Ours;
    assert sides[..|pools|] == sides;
    WritesOurs(pools, side, sides);
    assert forall w :: w in Writes(pools, side)[..n] ==> w in Writes(pools, side);
  }

  /** Recording, in whole or in part, pools that show the incoming side. */
  lemma PushedOn(a: Trace, b: Trace, pools: seq<DeployPool>, n: nat, sides: seq<DeployPool>)
    requires n <= |Writes(pools, Both)| && Wrote(a, b, Writes(pools, Both)[..n])
    requires SameShape(pools, sides)
    requires Apart(sides) ==> RoutesApart(pools) && ShowsIncoming(Want(pools, Both), sides)
    ensures TurnedOn(a, b, sides)
    ensures Apart(sides) && (ShowsIncoming(a.rows, sides) || n == |Writes(pools, Both)|) ==> ShowsIncoming(b.rows, sides)
    ensures Apart(sides) && Switched(Want(pools, Both), sides) && (Switched(a.rows, sides) || n == |Writes(pools, Both)|) ==>
      Switched(b.rows, sides)
  {
    hide Writes, Want, Apart, RoutesApart, ShowsIncoming, Switched, TurnedOn, RecordedAll, WrittenFrom, Recorded, AllOurs, SameShape;
    PrefixOurs(pools, Both, n, sides);
    if Apart(sides) { PrefixRecords(a.rows, pools, Both, n); }
    WroteOn(a, b, Writes(pools, Both)[..n], Want(pools, Both), sides);
  }

  lemma PushedBack(a: Trace, b: Trace, pools: seq<DeployPool>, n: nat, sides: seq<DeployPool>)
    requires n <= |Writes(pools, Both)| && Wrote(a, b, Writes(pools, Both)[..n])
    requires SameShape(pools, sides)
    requires Apart(sides) ==> RoutesApart(pools) && ShowsHeld(Want(pools, Both), sides)
    ensures TurnedBack(a, b, sides)
    ensures Apart(sides) && (ShowsHeld(a.rows, sides) || n == |Writes(pools, Both)|) ==> ShowsHeld(b.rows, sides)
  {
    hide Writes, Want, Apart, RoutesApart, ShowsHeld, TurnedBack, RecordedAll, WrittenFrom, Recorded, AllOurs, SameShape;
    PrefixOurs(pools, Both, n, sides);
    if Apart(sides) { PrefixRecords(a.rows, pools, Both, n); }
    WroteBack(a, b, Writes(pools, Both)[..n], Want(pools, Both), sides);
  }

  /** What any number of the writes of serving pools leave. */
  lemma ServingPushed(a: Trace, b: Trace, pools: seq<DeployPool>, n: nat)
    requires Sound(pools) && AllServing(pools)
    requires n <= |Writes(pools, Both)| && Wrote(a, b, Writes(pools, Both)[..n])
    ensures TurnedOn(a, b, BareAll(pools))
    ensures Apart(BareAll(pools)) && (Switched(a.rows, BareAll(pools)) || n == |Writes(pools, Both)|) ==>
      Switched(b.rows, BareAll(pools))
  {
    hide Sound, Apart, BareAll, Writes, Wrote, Want, TurnedOn, AllServing, Switched, ShowsIncoming;
    BareWellFormed(pools);
    if Apart(pools) {
      ApartRoutes(pools);
      ServingWants(pools);
    }
    PushedOn(a, b, pools, n, BareAll(pools));
  }

  /** What any number of the flip's writes leave. */
  lemma FlipPushed(a: Trace, b: Trace, was: seq<DeployPool>, n: nat)
    requires var final := RestatedAll(was, Some(RActive), Some(RDraining));
      Sound(was) && n <= |Writes(final, Both)| && Wrote(a, b, Writes(final, Both)[..n])
    ensures TurnedOn(a, b, BareAll(was))
    ensures Apart(BareAll(was)) && n == |Writes(RestatedAll(was, Some(RActive), Some(RDraining)), Both)| ==>
      Switched(b.rows, BareAll(was)) && Exactly(b.rows, BareAll(was), Some(RActive), Some(RDraining))
  {
    hide Sound, Apart, BareAll, Writes, Wrote, RestatedAll, TurnedOn, AllServing, Switched, Exactly;
    if Apart(BareAll(was)) && n == |Writes(RestatedAll(was, Some(RActive), Some(RDraining)), Both)| {
      AllWrites(RestatedAll(was, Some(RActive), Some(RDraining)), Both, n);
      RestatedExactly(a, b, was, RActive, RDraining);
    }
    RestatedSides(was, Some(RActive), Some(RDraining));
    FlipServes(was);
    ServingPushed(a, b, RestatedAll(was, Some(RActive), Some(RDraining)), n);
  }

  /** What any number of a promotion's writes leave. */
  lemma UnheldPushed(a: Trace, b: Trace, was: seq<DeployPool>, n: nat)
    requires Sound(was) && AllServing(was)
    requires n <= |Writes(Unheld(was), Both)| && Wrote(a, b, Writes(Unheld(was), Both)[..n])
    ensures TurnedOn(a, b, BareAll(was))
    ensures Apart(BareAll(was)) && ShowsIncoming(a.rows, BareAll(was)) ==> ShowsIncoming(b.rows, BareAll(was))
    ensures Apart(BareAll(was)) && n == |Writes(Unheld(was), Both)| ==> Exactly(b.rows, BareAll(was), Some(RActive), None)
  {
    hide Sound, Apart, BareAll, Writes, Wrote, Want, TurnedOn, AllServing, Switched, ShowsIncoming, Unheld, Exactly;
    if Apart(BareAll(was)) && n == |Writes(Unheld(was), Both)| {
      AllWrites(Unheld(was), Both, n);
      UnheldExactly(a, b, was);
    }
    BareWellFormed(was);
    UnheldWellFormed(was);
    if Apart(was) {
      ApartRoutes(Unheld(was));
      UnheldWants(was);
    }
    PushedOn(a, b, Unheld(was), n, BareAll(was));
  }

  /** What any number of the writes of a rollback's first push leave. */
  lemma GiveUpPushed(a: Trace, b: Trace, was: seq<DeployPool>, n: nat)
    requires var given := RestatedAll(was, Some(RDraining), Some(RActive));
      Sound(was) && n <= |Writes(given, Both)| && Wrote(a, b, Writes(given, Both)[..n])
    ensures TurnedBack(a, b, BareAll(was))
    ensures Apart(BareAll(was)) && n == |Writes(RestatedAll(was, Some(RDraining), Some(RActive)), Both)| ==>
      ShowsHeld(b.rows, BareAll(was)) && Exactly(b.rows, BareAll(was), Some(RDraining), Some(RActive))
  {
    var given := RestatedAll(was, Some(RDraining), Some(RActive));
    assert SameShape(given, BareAll(was));
    hide Sound, Apart, BareAll, Writes, Wrote, Want, TurnedBack, ShowsHeld, RestatedAll, Exactly;
    if Apart(BareAll(was)) && n == |Writes(given, Both)| {
      AllWrites(given, Both, n);
      RestatedExactly(a, b, was, RDraining, RActive);
    }
    BareWellFormed(was);
    RestatedSides(was, Some(RDraining), Some(RActive));
    if Apart(was) {
      ApartRoutes(given);
      GiveUpWants(was);
    }
    PushedBack(a, b, given, n, BareAll(was));
  }

  /** What any number of the writes of its last push leave. */
  lemma BackPushed(a: Trace, b: Trace, was: seq<DeployPool>, n: nat)
    requires var back := PutBack(Emptied(RestatedAll(was, Some(RDraining), Some(RActive))));
      Sound(was) && n <= |Writes(back, Both)| && Wrote(a, b, Writes(back, Both)[..n])
    ensures TurnedBack(a, b, BareAll(was))
    ensures Apart(BareAll(was)) && ShowsHeld(a.rows, BareAll(was)) ==> ShowsHeld(b.rows, BareAll(was))
    ensures Apart(BareAll(was)) && n == |Writes(PutBack(Emptied(RestatedAll(was, Some(RDraining), Some(RActive)))), Both)| ==>
      Exactly(b.rows, BareAll(was), None, Some(RActive))
  {
    var back := PutBack(Emptied(RestatedAll(was, Some(RDraining), Some(RActive))));
    assert SameShape(back, BareAll(was));
    hide Sound, Apart, BareAll, Writes, Wrote, Want, TurnedBack, ShowsHeld, RestatedAll, PutBack, Emptied, Exactly;
    if Apart(BareAll(was)) && n == |Writes(back, Both)| {
      AllWrites(back, Both, n);
      BackExactly(a, b, was);
    }
    BareWellFormed(was);
    BackInPlace(was);
    if Apart(was) { ApartRoutes(back); }
    PushedBack(a, b, back, n, BareAll(was));
  }

  /** What taking a flip back leaves. */
  lemma UnflipWrote(a: Trace, b: Trace, was: seq<DeployPool>, ws: seq<Write>)
    requires var back := RestatedAll(was, None, Some(RActive));
      && Sound(was) && Wrote(a, b, ws) && AllOurs(ws, BareAll(was)) && (RoutesApart(back) ==> WrittenFrom(ws, Want(back, HeldOnly)))
      && (b.stored ==> ws == Writes(back, HeldOnly))
    ensures TurnedBack(a, b, BareAll(was))
    ensures Apart(BareAll(was)) && b.stored ==>
      ShowsHeld(b.rows, BareAll(was)) && Exactly(b.rows, BareAll(was), None, Some(RActive))
  {
    hide Sound, Apart, RoutesApart, Writes, Wrote, RecordedAll, Want, WrittenFrom, BareAll, RestatedAll, ShowsHeld, TurnedBack,
         Exactly;
    var back := RestatedAll(was, None, Some(RActive));
    if Apart(BareAll(was)) && b.stored { UnflipExactly(a, b, was); }
    BareWellFormed(was);
    RestatedSides(was, None, Some(RActive));
    if Apart(was) {
      ApartRoutes(back);
      UnflipWants(was);
      WroteAll(a, b, ws, back, HeldOnly);
    }
    WroteBack(a, b, ws, Want(back, HeldOnly), BareAll(was));
  }

  /** All the writes of a side made: the rows are exactly what they say. */
  lemma PushedExactly(a: Trace, b: Trace, pools: seq<DeployPool>, side: Side, sides: seq<DeployPool>,
                      incoming: Option<ReplicaState>, held: Option<ReplicaState>)
    requires Wrote(a, b, Writes(pools, side)) && Apart(pools) && SameShape(pools, sides)
    requires forall k :: 0 <= k < |pools| && pools[k].exposed ==> Listing(pools[k], side) == Faced(sides[k], incoming, held)
    ensures Exactly(b.rows, sides, incoming, held)
  {
    ApartRoutes(pools);
    hide Wrote, Writes, Apart, RoutesApart, SameShape, Listing, Faced, Exactly, Want;
    WroteAll(a, b, Writes(pools, side), pools, side);
    WantedExactly(b.rows, pools, side, sides, incoming, held);
  }

  /** Pools restated on both sides: a flip, and the first push of a rollback. */
  lemma RestatedExactly(a: Trace, b: Trace, was: seq<DeployPool>, incoming: ReplicaState, held: ReplicaState)
    requires var final := RestatedAll(was, Some(incoming), Some(held)); Wrote(a, b, Writes(final, Both))
    requires Apart(BareAll(was))
    ensures Exactly(b.rows, BareAll(was), Some(incoming), Some(held))
  {
    var final := RestatedAll(was, Some(incoming), Some(held));
    BareWellFormed(was);
    RestatedSides(was, Some(incoming), Some(held));
    hide Wrote, Writes, Apart, Exactly, Listing, Faced, Restated, Bare;
    forall k | 0 <= k < |final|
      ensures final[k].exposed == BareAll(was)[k].exposed && final[k].routes == BareAll(was)[k].routes
      ensures final[k].exposed ==> Listing(final[k], Both) == Faced(BareAll(was)[k], Some(incoming), Some(held))
    {
      RestatedUnexposed(was[k], Some(incoming), Some(held));
      BareShape(was[k]);
      if was[k].exposed { RestatedFaced(was[k], incoming, held); }
    }
    PushedExactly(a, b, final, Both, BareAll(was), Some(incoming), Some(held));
  }

  lemma BareShape(p: DeployPool)
    ensures Bare(p).exposed == p.exposed && Bare(p).routes == p.routes
  {
  }

  /** The push of a hold. */
  lemma HoldExactly(a: Trace, b: Trace, was: seq<DeployPool>)
    requires AllServing(was) && Wrote(a, b, Writes(RestatedAll(was, None, Some(RHeld)), Both)) && Apart(BareAll(was))
    ensures Exactly(b.rows, BareAll(was), Some(RActive), Some(RHeld))
  {
    var final := RestatedAll(was, None, Some(RHeld));
    BareWellFormed(was);
    RestatedSides(was, None, Some(RHeld));
    hide Wrote, Writes, Apart, Exactly, Listing, Faced, Restated, Bare;
    forall k | 0 <= k < |final|
      ensures final[k].exposed == BareAll(was)[k].exposed && final[k].routes == BareAll(was)[k].routes
      ensures final[k].exposed ==> Listing(final[k], Both) == Faced(BareAll(was)[k], Some(RActive), Some(RHeld))
    {
      RestatedUnexposed(was[k], None, Some(RHeld));
      BareShape(was[k]);
      if was[k].exposed { ServingFaced(was[k], RHeld); }
    }
    PushedExactly(a, b, final, Both, BareAll(was), Some(RActive), Some(RHeld));
  }

  /** The push of a promotion. */
  lemma UnheldExactly(a: Trace, b: Trace, was: seq<DeployPool>)
    requires AllServing(was) && Wrote(a, b, Writes(Unheld(was), Both)) && Apart(BareAll(was))
    ensures Exactly(b.rows, BareAll(was), Some(RActive), None)
  {
    BareWellFormed(was);
    UnheldWellFormed(was);
    hide Wrote, Writes, Apart, Exactly, Listing, Faced, Bare;
    forall k | 0 <= k < |was|
      ensures Unheld(was)[k].exposed == BareAll(was)[k].exposed && Unheld(was)[k].routes == BareAll(was)[k].routes
      ensures was[k].exposed ==> Listing(Unheld(was)[k], Both) == Faced(BareAll(was)[k], Some(RActive), None)
    {
      BareShape(was[k]);
      if was[k].exposed { ServingFaced(was[k], RHeld); }
    }
    PushedExactly(a, b, Unheld(was), Both, BareAll(was), Some(RActive), None);
  }

  /** The last push of a rollback. */
  lemma BackExactly(a: Trace, b: Trace, was: seq<DeployPool>)
    requires Sound(was) && Apart(BareAll(was))
    requires Wrote(a, b, Writes(PutBack(Emptied(RestatedAll(was, Some(RDraining), Some(RActive)))), Both))
    ensures Exactly(b.rows, BareAll(was), None, Some(RActive))
  {
    var back := PutBack(Emptied(RestatedAll(was, Some(RDraining), Some(RActive))));
    BareWellFormed(was);
    BackInPlace(was);
    hide Wrote, Writes, Apart, Exactly, Faced;
    forall k | 0 <= k < |was|
      ensures back[k].exposed == BareAll(was)[k].exposed && back[k].routes == BareAll(was)[k].routes
      ensures was[k].exposed ==> Listing(back[k], Both) == Faced(BareAll(was)[k], None, Some(RActive))
    {
      if was[k].exposed {
        BackFaced(was[k]);
        assert back[k].incoming == WithState(was[k].held, RActive) && back[k].incoming + [] == back[k].incoming;
      }
    }
    hide Listing;
    PushedExactly(a, b, back, Both, BareAll(was), None, Some(RActive));
  }

  /** A switch taken back. */
  lemma UnflipExactly(a: Trace, b: Trace, was: seq<DeployPool>)
    requires Wrote(a, b, Writes(RestatedAll(was, None, Some(RActive)), HeldOnly)) && Apart(BareAll(was))
    ensures Exactly(b.rows, BareAll(was), None, Some(RActive))
  {
    var final := RestatedAll(was, None, Some(RActive));
    BareWellFormed(was);
    RestatedSides(was, None, Some(RActive));
    hide Wrote, Writes, Apart, Exactly, Listing, Faced, Restated, Bare;
    forall k | 0 <= k < |final|
      ensures final[k].exposed == BareAll(was)[k].exposed && final[k].routes == BareAll(was)[k].routes
      ensures final[k].exposed ==> Listing(final[k], HeldOnly) == Faced(BareAll(was)[k], None, Some(RActive))
    {
      RestatedUnexposed(was[k], None, Some(RActive));
      BareShape(was[k]);
      if was[k].exposed { BackFaced(was[k]); }
    }
    PushedExactly(a, b, final, HeldOnly, BareAll(was), None, Some(RActive));
  }

  lemma NothingHeld(rows: map<int, Table>, pools: seq<DeployPool>)
    requires Exactly(rows, BareAll(pools), Some(RActive), Some(RDraining))
    requires forall k :: 0 <= k < |pools| && pools[k].exposed ==> pools[k].held == []
    ensures Exactly(rows, BareAll(pools), Some(RActive), Some(RHeld))
  {
    hide Exactly;
    forall k | 0 <= k < |pools| && pools[k].exposed ensures BareAll(pools)[k].held == [] {
      assert WithState([], RStarting) == [];
    }
    NoneHeldExactly(rows, BareAll(pools), RDraining, RHeld);
  }

  lemma AllWrites(pools: seq<DeployPool>, side: Side, n: nat)
    requires n == |Writes(pools, side)|
    ensures Writes(pools, side)[..n] == Writes(pools, side)
  {
  }

  lemma ApartRoutes(pools: seq<DeployPool>)
    requires Apart(pools)
    ensures RoutesApart(pools)
  {
  }

  lemma UnexposedHoldNothing(pools: seq<DeployPool>)
    requires Sound(pools)
    ensures forall k :: 0 <= k < |pools| && !pools[k].exposed ==> pools[k].held == []
  {
  }

  /** Every replica of a pool, new or old, has the port the layout gives its number. */
  ghost predicate LaidOut(p: DeployPool, plan: Plan) {
    && (forall i :: 0 <= i < |p.incoming| ==> p.incoming[i].port == plan.ports(p.incoming[i].index))
    && (forall i :: 0 <= i < |p.held| ==> p.held[i].port == plan.ports(p.held[i].index))
  }

  ghost predicate PlannedPool(p: DeployPool, plan: Plan) {
    p.service == plan.service && p.routes == plan.routes && p.exposed == plan.exposed && LaidOut(p, plan)
  }

  /** The pools of the first plans, in their order, laid out as planned. */
  ghost predicate Planned(pools: seq<DeployPool>, plans: seq<Plan>) {
    |pools| <= |plans| && forall k :: 0 <= k < |pools| ==> PlannedPool(pools[k], plans[k])
  }

  lemma PlannedMore(pools: seq<DeployPool>, p: DeployPool, plans: seq<Plan>)
    requires Planned(pools, plans) && |pools| < |plans| && PlannedPool(p, plans[|pools|])
    ensures Planned(pools + [p], plans)
  {
    hide PlannedPool;
  }

  lemma NewIsPlanned(plan: Plan)
    ensures PlannedPool(NewPool(plan), plan)
  {
  }

  lemma PlannedReplica(p: DeployPool, r: Replica, plan: Plan)
    requires PlannedPool(p, plan) && r.port == plan.ports(r.index)
    ensures PlannedPool(p.(incoming := p.incoming + [r]), plan)
  {
  }

  lemma PlannedLast(pools: seq<DeployPool>, p: DeployPool, plans: seq<Plan>)
    requires Planned(pools + [p], plans)
    ensures Planned(pools, plans) && PlannedPool(p, plans[|pools|])
  {
    var all := pools + [p];
    assert all[|pools|] == p && forall k :: 0 <= k < |pools| ==> all[k] == pools[k];
  }

  function NewPool(p: Plan): DeployPool { DeployPool(p.service, p.routes, p.exposed, [], []) }

  lemma NextPool(pools: seq<DeployPool>, p: DeployPool)
    requires Sound(pools) && PoolOk(p)
    ensures Sound(pools + [p])
  {
    var all, n := pools + [p], |pools|;
    assert (forall k :: 0 <= k < n ==> all[k] == pools[k]) && all[n] == p;
  }

  ghost predicate Numbered(reps: seq<Replica>, numbers: seq<int>) {
    |reps| == |numbers| && forall i :: 0 <= i < |reps| ==> reps[i].index == numbers[i]
  }

  ghost function NumbersOf(service: string, cs: set<Container>): set<int> {
    set c | c in cs && c.service == service && c.index >= 1 :: c.index
  }

  ghost predicate FirstNamed(pools: seq<DeployPool>, k: nat)
    requires k < |pools|
  {
    forall j :: 0 <= j < k && pools[j].exposed ==> pools[j].service != pools[k].service
  }

  /** The incoming side of a pool: as many as planned, with numbers from 1, the lowest free ones at its turn. */
  ghost predicate WantedAt(pools: seq<DeployPool>, k: nat, plan: Plan, live: set<Container>)
    requires k < |pools|
  {
    && |pools[k].incoming| == plan.want
    && (forall i :: 0 <= i < |pools[k].incoming| ==> pools[k].incoming[i].index >= 1)
    && (FirstNamed(pools, k) ==> Numbered(pools[k].incoming, Replicas.Free(NumbersOf(plan.service, live), 1, plan.want)))
  }

  ghost predicate Wanted(pools: seq<DeployPool>, plans: seq<Plan>, live: set<Container>)
    requires |pools| <= |plans|
  {
    forall k :: 0 <= k < |pools| && pools[k].exposed ==> WantedAt(pools, k, plans[k], live)
  }

  lemma WantedMore(pools: seq<DeployPool>, p: DeployPool, plans: seq<Plan>, live: set<Container>)
    requires |pools| < |plans| && Wanted(pools, plans, live)
    requires p.exposed ==> WantedAt(pools + [p], |pools|, plans[|pools|], live)
    ensures Wanted(pools + [p], plans, live)
  {
    hide Replicas.Free, NumbersOf;
    var all := pools + [p];
    forall k | 0 <= k < |all| && all[k].exposed ensures WantedAt(all, k, plans[k], live) {
      if k < |pools| {
        assert WantedAt(pools, k, plans[k], live);
        assert forall j :: 0 <= j <= k ==> all[j] == pools[j];
      }
    }
  }

  lemma WantedBare(pools: seq<DeployPool>, plans: seq<Plan>, live: set<Container>)
    requires |pools| <= |plans| && Wanted(pools, plans, live)
    ensures Wanted(BareAll(pools), plans, live)
  {
    hide Replicas.Free, NumbersOf;
    var b := BareAll(pools);
    forall k | 0 <= k < |b| && b[k].exposed ensures WantedAt(b, k, plans[k], live) {
      assert WantedAt(pools, k, plans[k], live);
      assert forall i :: 0 <= i < |pools[k].incoming| ==> b[k].incoming[i].index == pools[k].incoming[i].index;
      assert forall j :: 0 <= j <= k ==> b[j].exposed == pools[j].exposed && b[j].service == pools[j].service;
    }
  }

  /** What runs of a service no earlier pool has named is what ran before the deploy. */
  lemma NumbersAtTurn(pools: seq<DeployPool>, p: DeployPool, found: seq<int>, started: set<Container>, live: set<Container>,
                      running: set<Container>)
    requires Begun(pools, started, live, running) && FirstNamed(pools + [p], |pools|)
    requires forall i :: i in found <==> i >= 1 && Container(p.service, i) in running
    ensures (set x | x in found) == NumbersOf(p.service, live)
  {
    var all := pools + [p];
    assert forall k :: 0 <= k < |pools| ==> all[k] == pools[k];
    forall i ensures i in (set x | x in found) <==> i in NumbersOf(p.service, live) {
      var c := Container(p.service, i);
      assert !IsIncoming(pools, c);
      hide IsIncoming, IsHeld, IncomingPorted;
      if i in NumbersOf(p.service, live) {
        var d :| d in live && d.service == p.service && d.index >= 1 && d.index == i;
        assert d == c;
      }
    }
  }

  function ReplicasOf(live: seq<int>, ports: int -> int, st: ReplicaState): (r: seq<Replica>)
    ensures |r| == |live| && forall i :: 0 <= i < |live| ==> r[i] == Replica(live[i], ports(live[i]), st)
  {
    seq(|live|, i requires 0 <= i < |live| => Replica(live[i], ports(live[i]), st))
  }

  /** A pool being filled: its first replicas have the first free numbers, beside the live ones. */
  ghost predicate Filling(p: DeployPool, q: DeployPool, live: seq<int>, indexes: seq<int>, i: nat)
    requires i <= |indexes|
  {
    && q == p.(incoming := q.incoming, held := q.held)
    && |q.incoming| == i && |q.held| == |live|
    && (forall j :: 0 <= j < i ==> q.incoming[j].index == indexes[j])
    && (forall j :: 0 <= j < |live| ==> q.held[j].index == live[j])
  }

  lemma FillingOk(p: DeployPool, q: DeployPool, live: seq<int>, indexes: seq<int>, i: nat)
    requires p.exposed && i <= |indexes| && Filling(p, q, live, indexes, i)
    requires forall j, k :: 0 <= j < k < |live| ==> live[j] != live[k]
    requires forall j, k :: 0 <= j < k < |indexes| ==> indexes[j] < indexes[k]
    requires forall j :: 0 <= j < |indexes| ==> indexes[j] !in live
    ensures PoolOk(q)
  {
    var all := q.incoming + q.held;
    forall j, k | 0 <= j < k < |all| ensures all[j].index != all[k].index {
      assert j < i ==> all[j].index == indexes[j];
      assert k < i ==> all[k].index == indexes[k];
      assert j >= i ==> all[j].index == live[j - i];
      assert k >= i ==> all[k].index == live[k - i] && live[k - i] in live;
    }
  }

  lemma EmptyOk(p: DeployPool)
    requires p.incoming == [] && p.held == []
    ensures PoolOk(p)
  {
  }

  lemma HeldNamed(plan: Plan, live: seq<int>, running: set<Container>)
    requires forall i :: i in live <==> i >= 1 && Container(plan.service, i) in running
    ensures var held := ReplicasOf(live, plan.ports, RDraining);
      forall c :: Named(plan.service, held, c) <==> c.service == plan.service && c.index >= 1 && c in running
  {
    var held := ReplicasOf(live, plan.ports, RDraining);
    forall c ensures Named(plan.service, held, c) <==> c.service == plan.service && c.index >= 1 && c in running {
      if c.service == plan.service && c.index >= 1 && c in running {
        assert c == Container(plan.service, c.index) && c.index in live;
        var i :| 0 <= i < |live| && live[i] == c.index;
        assert held[i].index == c.index;
      }
      if Named(plan.service, held, c) {
        var i :| 0 <= i < |held| && c == Container(plan.service, held[i].index);
        assert live[i] in live;
      }
    }
  }

  lemma StartFilling(p: DeployPool, plan: Plan, live: seq<int>, indexes: seq<int>)
    requires p == NewPool(plan)
    ensures Filling(p, p.(held := ReplicasOf(live, plan.ports, RDraining)), live, indexes, 0)
  {
  }

  lemma FillingShape(p: DeployPool, q: DeployPool, live: seq<int>, indexes: seq<int>, i: nat)
    requires i <= |indexes| && Filling(p, q, live, indexes, i)
    ensures q == p.(incoming := q.incoming, held := q.held)
  {
  }

  lemma FillOne(p: DeployPool, q: DeployPool, r: Replica, live: seq<int>, indexes: seq<int>, i: nat)
    requires i < |indexes| && Filling(p, q, live, indexes, i) && r.index == indexes[i]
    ensures Filling(p, q.(incoming := q.incoming + [r]), live, indexes, i + 1)
  {
  }

  lemma FreeBeside(found: seq<int>, n: nat, indexes: seq<int>)
    requires indexes == Replicas.Free(set x | x in found, 1, n)
    ensures forall j, k :: 0 <= j < k < |indexes| ==> indexes[j] < indexes[k]
    ensures forall j :: 0 <= j < |indexes| ==> indexes[j] >= 1 && indexes[j] !in found
  {
    var taken := set x | x in found;
    Replicas.FreeIndexesAreFree(taken, 1, n);
    forall j | 0 <= j < |indexes| ensures indexes[j] >= 1 && indexes[j] !in found {
      assert indexes[j] in indexes;
      assert indexes[j] !in taken;
    }
  }

  /** A free number names a container that did not run before. */
  lemma FreeOutside(service: string, found: seq<int>, indexes: seq<int>, live: set<Container>, started: set<Container>,
                    running: set<Container>, pools: seq<DeployPool>)
    requires Begun(pools, started, live, running)
    requires forall i :: i in found <==> i >= 1 && Container(service, i) in running
    requires forall j :: 0 <= j < |indexes| ==> indexes[j] >= 1 && indexes[j] !in found
    ensures forall j :: 0 <= j < |indexes| ==> Container(service, indexes[j]) !in live
  {
    hide IsHeld, IsIncoming;
  }

  lemma PlannedBare(pools: seq<DeployPool>, plans: seq<Plan>)
    ensures Planned(BareAll(pools), plans) <==> Planned(pools, plans)
  {
    var b := BareAll(pools);
    forall k | 0 <= k < |pools| && k < |plans| ensures PlannedPool(b[k], plans[k]) <==> PlannedPool(pools[k], plans[k]) {
      PlannedBarePool(pools[k], plans[k]);
    }
    hide PlannedPool;
  }

  lemma PlannedBarePool(p: DeployPool, plan: Plan)
    ensures PlannedPool(Bare(p), plan) <==> PlannedPool(p, plan)
  {
    var b := Bare(p);
    assert forall i :: 0 <= i < |p.incoming| ==> b.incoming[i].port == p.incoming[i].port && b.incoming[i].index == p.incoming[i].index;
    assert forall i :: 0 <= i < |p.held| ==> b.held[i].port == p.held[i].port && b.held[i].index == p.held[i].index;
  }

  /** Pools of services named once are apart. */
  lemma PlannedApart(pools: seq<DeployPool>, plans: seq<Plan>)
    requires Planned(pools, plans) && NamedOnce(plans) && RoutesByService(plans)
    ensures Apart(pools)
  {
    assert forall k :: 0 <= k < |pools| ==> PlannedPool(pools[k], plans[k]);
    hide LaidOut;
    forall j, k, id | 0 <= j < k < |pools| && pools[j].exposed && pools[k].exposed && id in pools[j].routes
      ensures id !in pools[k].routes
    {
      assert plans[j].service != plans[k].service;
    }
  }

  lemma WentOnStops(a: Trace, b: Trace, sides: seq<DeployPool>)
    requires WentOn(a, b, sides)
    ensures forall c :: IsHeld(sides, c) ==> c in b.stops
  {
    hide IsHeld, TurnedOn, Apart;
  }

  lemma OwnThrough(st: Status, a: Trace, b: Trace, c: Trace, sides: seq<DeployPool>)
    requires SwitchedOn(a, b, sides) && (st == Promoted ==> WentOn(b, c, sides)) && (st == Watching ==> c == b)
    requires st == RolledBack || st == Failed ==> WentBack(st, b, c, sides)
    requires st == Promoted || st == Watching || st == RolledBack || st == Failed
    ensures Own(a.rows, c.rows, sides)
  {
    hide Own, Apart, StoppedHeld, StoppedIncoming;
    if c.rows != b.rows { OwnTwice(a.rows, b.rows, c.rows, sides); }
  }

  lemma ExactFailed(st: Status, a: Trace, b: Trace, sides: seq<DeployPool>)
    requires NotSwitched(st, a, b, sides)
    ensures ExactEnd(st, a.rows, b, sides)
  {
    assert st == Failed;
    hide NotSwitched, ExactEnd;
    ExactNotSwitched(a, b, sides);
  }

  lemma NotSwitchedIsFailed(st: Status, a: Trace, b: Trace, sides: seq<DeployPool>)
    requires NotSwitched(st, a, b, sides)
    ensures st == Failed && Own(a.rows, b.rows, sides)
  {
  }

  ghost function TraceOf(m: World): Trace
    reads m
  {
    Trace(m.rows, m.running, m.writes, m.stops, m.started, m.stored, m.gone)
  }

  lemma WroteNone(a: Trace, pools: seq<DeployPool>, side: Side)
    ensures Wrote(a, a, []) && Writes(pools[..0], side) == [] && Writes(pools, side)[..0] == []
    ensures WrittenFrom([], Want(pools, side))
  {
  }

  lemma WroteSome(a: Trace, b: Trace, c: Trace, ws: seq<Write>, p: DeployPool, side: Side, j: nat)
    requires Wrote(a, b, ws) && j <= |p.routes|
    requires var vs := OnRoutes(p.routes, TableOf(Listing(p, side)))[..j];
      c.writes == b.writes + vs && c.rows == Played(b.rows, vs)
    ensures Wrote(a, c, ws + OnRoutes(p.routes, TableOf(Listing(p, side)))[..j])
    ensures j == |p.routes| ==> Wrote(a, c, ws + OnRoutes(p.routes, TableOf(Listing(p, side))))
  {
    hide TableOf, Listing, Played;
    var all := OnRoutes(p.routes, TableOf(Listing(p, side)));
    assert all[..|all|] == all;
    WroteMore(a, b, c, ws, all[..j]);
  }

  lemma SomeOurs(was: seq<DeployPool>, ws: seq<Write>, k: nat, p: DeployPool, side: Side, j: nat)
    requires AllOurs(ws, BareAll(was)) && k < |was| && was[k].exposed && p.routes == was[k].routes && j <= |p.routes|
    ensures AllOurs(ws + OnRoutes(p.routes, TableOf(Listing(p, side)))[..j], BareAll(was))
  {
    hide TableOf, Listing;
    var some := OnRoutes(p.routes, TableOf(Listing(p, side)))[..j];
    forall w | w in ws + some ensures Ours(BareAll(was), w.route) {
      if w !in ws { assert OfRoute(BareAll(was)[k], w.route); }
    }
  }

  lemma WrittenSome(pools: seq<DeployPool>, side: Side, ws: seq<Write>, k: nat, j: nat)
    requires RoutesApart(pools) && WrittenFrom(ws, Want(pools, side)) && k < |pools| && pools[k].exposed && j <= |pools[k].routes|
    ensures WrittenFrom(ws + OnRoutes(pools[k].routes, TableOf(Listing(pools[k], side)))[..j], Want(pools, side))
  {
    hide Want, TableOf, Listing, RoutesApart;
    var some := OnRoutes(pools[k].routes, TableOf(Listing(pools[k], side)))[..j];
    forall w | w in ws + some ensures w.route in Want(pools, side) && w.rows == Want(pools, side)[w.route] {
      if w !in ws {
        var i :| 0 <= i < |some| && some[i] == w;
        WantAt(pools, side, k, pools[k].routes[i]);
      }
    }
  }

  /** All the writes of a side made: the rows are the wanted ones. */
  lemma WroteAll(a: Trace, b: Trace, ws: seq<Write>, pools: seq<DeployPool>, side: Side)
    requires Wrote(a, b, ws) && RoutesApart(pools)
    ensures ws == Writes(pools, side) ==> RecordedAll(b.rows, Want(pools, side))
  {
    hide Writes, Want, RoutesApart, Played, RecordedAll, Recorded, WrittenFrom;
    var all := Writes(pools, side);
    assert all[..|all|] == all;
    PrefixRecords(a.rows, pools, side, |all|);
  }

  /** A rollback from its parts: shown, stopped, and put in place. */
  lemma WentBackAll(a: Trace, b: Trace, c: Trace, d: Trace, sides: seq<DeployPool>)
    requires TurnedBack(a, b, sides) && SameContainers(a, b) && (b.stored ==> a.stored)
    requires StoppedIncoming(b, c, sides) && c == b.(running := c.running, stops := c.stops, gone := c.gone)
    requires TurnedBack(c, d, sides) && SameContainers(c, d) && (d.stored ==> c.stored)
    requires Apart(sides) ==> ShowsHeld(d.rows, sides)
    requires Apart(sides) && d.stored ==> Exactly(d.rows, sides, None, Some(RActive))
    ensures WentBack(RolledBack, a, d, sides)
  {
    hide TurnedBack, StoppedIncoming, Apart, ShowsHeld, Exactly;
    TurnedBackSame(b, c, d, sides);
    TurnedBackTwice(a, b, d, sides);
    StoppedFrame(b, a, c, d, sides);
  }

  lemma WentBackNot(a: Trace, b: Trace, sides: seq<DeployPool>)
    requires TurnedBack(a, b, sides) && SameContainers(a, b) && (b.stored ==> a.stored)
    requires Apart(sides) && b.stored ==> ShowsHeld(b.rows, sides) && Exactly(b.rows, sides, Some(RDraining), Some(RActive))
    ensures WentBack(Failed, a, b, sides)
  {
    hide TurnedBack, Apart, ShowsHeld, Exactly;
  }

  /** A promotion from its parts. */
  lemma WentOnAll(a: Trace, b: Trace, c: Trace, sides: seq<DeployPool>)
    requires StoppedHeld(a, b, sides) && b == a.(running := b.running, stops := b.stops, gone := b.gone)
    requires TurnedOn(b, c, sides) && SameContainers(b, c) && (c.stored ==> b.stored)
    requires Apart(sides) && ShowsIncoming(b.rows, sides) ==> ShowsIncoming(c.rows, sides)
    requires Apart(sides) && c.stored && b.gone != a.gone ==> Exactly(c.rows, sides, Some(RActive), None)
    requires (forall x :: IsHeld(sides, x) ==> x !in b.gone) ==> c.rows == b.rows && c.writes == b.writes
    ensures WentOn(a, c, sides)
  {
    hide StoppedHeld, Apart, ShowsIncoming, Exactly, IsHeld;
    StoppedFrame(a, a, b, c, sides);
  }

  lemma GaveUpFails(st: Status, a: Trace, b: Trace, sides: seq<DeployPool>)
    requires GaveUp(st, a, b, sides)
    ensures st == Failed && b.rows == a.rows && b.writes == a.writes
  {
  }

  lemma TookBackAll(a: Trace, b: Trace, c: Trace, sides: seq<DeployPool>)
    requires TurnedBack(a, b, sides) && SameContainers(a, b) && (b.stored ==> a.stored)
    requires Apart(sides) && b.stored ==> ShowsHeld(b.rows, sides) && Exactly(b.rows, sides, None, Some(RActive))
    requires GaveUp(Failed, b, c, sides)
    ensures TookBack(Failed, a, c, sides)
  {
    hide StoppedIncoming, Apart, ShowsHeld, TurnedBack, Exactly;
    TurnedBackSame(a, b, c, sides);
    StoppedFrame(b, a, c, c, sides);
  }

  /** Nothing was written before, or nothing after. */
  lemma TurnedBackSame(a: Trace, b: Trace, c: Trace, sides: seq<DeployPool>)
    ensures TurnedBack(b, c, sides) && a.rows == b.rows && a.writes == b.writes ==> TurnedBack(a, c, sides)
    ensures TurnedBack(a, b, sides) && c.rows == b.rows && c.writes == b.writes ==> TurnedBack(a, c, sides)
  {
  }

  lemma HeldBare(pools: seq<DeployPool>)
    ensures forall c :: IsHeld(pools, c) ==> IsHeld(BareAll(pools), c)
  {
    hide IsHeld, BareAll;
    forall c | IsHeld(pools, c) ensures IsHeld(BareAll(pools), c) { BareSides(pools, c); }
  }

  lemma OnesHeld(pools: seq<DeployPool>, k: nat)
    requires k < |pools| && (!pools[k].exposed ==> pools[k].held == [])
    ensures forall c :: Named(pools[k].service, pools[k].held, c) ==> IsHeld(pools, c)
  {
  }

  lemma WantedNone(plans: seq<Plan>, live: set<Container>)
    ensures Wanted([], plans, live)
  {
  }

  /** A pool about to be filled, and the numbers it will be filled with. */
  lemma BegunInit(was: seq<DeployPool>, q: DeployPool, started: set<Container>, live: set<Container>, running: set<Container>,
                  plan: Plan, found: seq<int>, want: nat, indexes: seq<int>)
    requires Begun(was, started, live, running) && q.service == plan.service
    requires forall i :: i in found <==> i >= 1 && Container(plan.service, i) in running
    requires indexes == Replicas.Free(set x | x in found, 1, want)
    ensures FirstNamed(was + [q], |was|) ==> indexes == Replicas.Free(NumbersOf(plan.service, live), 1, want)
  {
    hide Begun, Replicas.Free, NumbersOf;
    if FirstNamed(was + [q], |was|) { NumbersAtTurn(was, q, found, started, live, running); }
  }

  /** A filled pool holds what ran and has what was planned. */
  lemma Grown(was: seq<DeployPool>, p: DeployPool, q: DeployPool, r: DeployPool, found: seq<int>, indexes: seq<int>,
              plans: seq<Plan>, live: set<Container>)
    requires |was| < |plans| && p == NewPool(plans[|was|]) && p.exposed && q == p.(held := r.held)
    requires Filling(p, r, found, indexes, |indexes|) && |indexes| == plans[|was|].want
    requires forall j :: 0 <= j < |indexes| ==> indexes[j] >= 1
    requires FirstNamed(was + [q], |was|) ==>
      indexes == Replicas.Free(NumbersOf(p.service, live), 1, plans[|was|].want)
    requires HeldAsRan(was, live) && Wanted(was, plans, live) && HeldAtTurn(was, q, live)
    ensures var all := was + [r]; HeldAsRan(all, live) && Wanted(all, plans, live)
  {
    hide HeldAsRan, Wanted, Replicas.Free, NumbersOf, Named, IsIncoming;
    var all := was + [r];
    assert HeldAtTurn(was, r, live);
    HeldAsRanMore(was, r, live);
    assert FirstNamed(all, |was|) ==> FirstNamed(was + [q], |was|) by {
      assert forall j :: 0 <= j < |was| ==> all[j] == was[j] == (was + [q])[j];
      assert all[|was|] == r && (was + [q])[|was|] == q;
    }
    WantedMore(was, r, plans, live);
  }

  class DeployRun {
    const m: World
    const policy: Watch.Policy

    var pools: seq<DeployPool>
    var status: Status
    var pushed: bool
    var replaced: bool
    var detached: bool
    var flippedAt: Time
    var countedFrom: Time

    /** The pools as they were when they were last complete, without states. */
    ghost var sides: seq<DeployPool>

    constructor (m: World, policy: Watch.Policy)
      ensures this.m == m && this.policy == policy && pools == sides == [] && status == Building
      ensures !pushed && !replaced && !detached && flippedAt == countedFrom == ZERO_TIME
    {
      this.m, this.policy := m, policy;
      pools, status, sides := [], Building, [];
      pushed, replaced, detached, flippedAt, countedFrom := false, false, false, ZERO_TIME, ZERO_TIME;
    }

    ghost function Seen(): Trace
      reads m
    {
      TraceOf(m)
    }

    ghost predicate Complete()
      reads this
    {
      Sound(pools) && sides == BareAll(pools)
    }

    /** Switched and not decided. */
    ghost predicate InWatch()
      reads this
    {
      status == Watching && Complete() && AllServing(pools)
    }

    // ----- rows

    /** Records both sides of every exposed pool and pushes the routes; the first failure ends it. */
    method PushPools() returns (ok: bool, ghost n: nat)
      modifies m`rows, m`writes, m`stored
      ensures n <= |Writes(pools, Both)| && Wrote(old(Seen()), Seen(), Writes(pools, Both)[..n])
      ensures ok || m.stored ==> n == |Writes(pools, Both)|
      ensures m.stored ==> old(m.stored)
      ensures m.calm ==> ok
    {
      hide Writes, Wrote, TableOf;
      n := 0;
      WroteNone(Seen(), pools, Both);
      for k := 0 to |pools|
        invariant n == |Writes(pools[..k], Both)| && Wrote(old(Seen()), Seen(), Writes(pools[..k], Both))
        invariant m.stored == old(m.stored)
      {
        if pools[k].exposed {
          ghost var before := Seen();
          ghost var j: nat;
          ok, j := m.RecordTargets(pools[k].routes, Listing(pools[k], Both));
          WritesAt(pools, Both, k, j);
          WroteSome(old(Seen()), before, Seen(), Writes(pools[..k], Both), pools[k], Both, j);
          n := n + j;
          if !ok { return; }
        } else {
          WritesSkip(pools, Both, k);
        }
      }
      assert pools[..|pools|] == pools;
      assert Writes(pools, Both)[..n] == Writes(pools, Both);
      ok := m.Attempt();
    }

    // ----- containers

    /** Stops the incoming side of every exposed pool; a stop that fails is only a warning. */
    method RemoveFresh()
      modifies `pools, m`running, m`stops, m`gone
      ensures StoppedIncoming(old(Seen()), Seen(), old(pools)) && pools == Emptied(old(pools))
    {
      hide StoppedIncoming, StoppedAll;
      ghost var was := pools;
      StoppedNone(Seen(), was[..0]);
      for k := 0 to |pools|
        invariant |pools| == |was|
        invariant forall j :: 0 <= j < k ==> pools[j] == Emptied(was)[j]
        invariant forall j :: k <= j < |pools| ==> pools[j] == was[j]
        invariant StoppedIncoming(old(Seen()), Seen(), was[..k])
      {
        ghost var before := Seen();
        StoppedNone(before, []);
        if pools[k].exposed {
          var _ := StopAll(pools[k].service, pools[k].incoming);
          pools := pools[k := pools[k].(incoming := [])];
        }
        StoppedIncomingOneMore(old(Seen()), before, Seen(), was, k);
      }
      assert was[..|was|] == was;
    }

    method StopAll(service: string, reps: seq<Replica>) returns (stopped: nat)
      modifies m`running, m`stops, m`gone
      ensures StoppedAll(old(Seen()), Seen(), service, reps)
      ensures stopped > 0 ==> exists c :: Named(service, reps, c) && c in m.gone
      ensures m.gone != old(m.gone) ==> stopped > 0
    {
      hide StoppedAll;
      stopped := 0;
      StoppedNone(Seen(), []);
      assert reps[..0] == [];
      for i := 0 to |reps|
        invariant StoppedAll(old(Seen()), Seen(), service, reps[..i])
        invariant stopped > 0 ==> exists c :: Named(service, reps, c) && c in m.gone
        invariant m.gone != old(m.gone) ==> stopped > 0
      {
        ghost var before := Seen();
        assert Named(service, reps, Container(service, reps[i].index));
        var ok := m.StopReplica(Container(service, reps[i].index));
        if ok { stopped := stopped + 1; }
        StoppedOneMore(old(Seen()), before, Seen(), service, reps, i);
      }
      assert reps[..|reps|] == reps;
    }

    /** The first half of a promotion: every held replica is stopped, and no row is written. */
    method StopHeld() returns (stopped: nat)
      requires Sound(pools)
      modifies `pools, m`running, m`stops, m`gone
      ensures StoppedHeld(old(Seen()), Seen(), old(pools)) && pools == Unheld(old(pools))
      ensures stopped > 0 ==> exists c :: IsHeld(old(pools), c) && c in m.gone
      ensures m.gone != old(m.gone) ==> stopped > 0
    {
      UnexposedHoldNothing(pools);
      hide Sound, StoppedHeld, StoppedAll, IsHeld;
      ghost var was := pools;
      StoppedNone(Seen(), was[..0]);
      stopped := 0;
      for k := 0 to |pools|
        invariant |pools| == |was|
        invariant forall j :: 0 <= j < k ==> pools[j] == was[j].(held := [])
        invariant forall j :: k <= j < |pools| ==> pools[j] == was[j]
        invariant StoppedHeld(old(Seen()), Seen(), was[..k])
        invariant stopped > 0 ==> exists c :: IsHeld(was, c) && c in m.gone
        invariant m.gone != old(m.gone) ==> stopped > 0
      {
        ghost var before := Seen();
        OnesHeld(was, k);
        var n := StopAll(pools[k].service, pools[k].held);
        stopped := stopped + n;
        pools := pools[k := pools[k].(held := [])];
        StoppedHeldOneMore(old(Seen()), before, Seen(), was, k);
      }
      assert was[..|was|] == was;
    }

    // ----- the two ends

    method Promote()
      requires InWatch()
      modifies `pools, `status, m`rows, m`writes, m`stored, m`running, m`stops, m`gone
      ensures status == Promoted && WentOn(old(Seen()), Seen(), sides)
    {
      hide Sound, Apart, AllServing, ShowsIncoming, StoppedHeld, BareAll, Unheld, Writes, Wrote, TurnedOn, WentOn, IsHeld,
           Exactly;
      ghost var was, a := pools, Seen();
      var stopped := StopHeld();
      ghost var b := Seen();
      StoppedBare(a, b, was);
      HeldBare(was);
      NothingWritten(b, b, sides);
      if stopped > 0 {
        var _, n := PushPools();
        UnheldPushed(b, Seen(), was, n);
      }
      WentOnAll(a, b, Seen(), sides);
      status := Promoted;
    }

    method Restate(incoming: Option<ReplicaState>, held: Option<ReplicaState>)
      modifies `pools
      ensures pools == RestatedAll(old(pools), incoming, held)
    {
      ghost var was := pools;
      for k := 0 to |pools|
        invariant |pools| == |was|
        invariant forall j :: 0 <= j < k ==> pools[j] == Restated(was[j], incoming, held)
        invariant forall j :: k <= j < |pools| ==> pools[j] == was[j]
      {
        pools := pools[k := Restated(pools[k], incoming, held)];
      }
    }

    /** The held pool becomes the pool. */
    method Swap()
      modifies `pools
      ensures pools == PutBack(old(pools))
    {
      ghost var was := pools;
      for k := 0 to |pools|
        invariant |pools| == |was|
        invariant forall j :: 0 <= j < k ==> pools[j] == was[j].(incoming := was[j].held, held := [])
        invariant forall j :: k <= j < |pools| ==> pools[j] == was[j]
      {
        pools := pools[k := pools[k].(incoming := pools[k].held, held := [])];
      }
    }

    method Rollback()
      requires Complete()
      modifies `pools, `status, m`rows, m`writes, m`stored, m`running, m`stops, m`gone
      ensures WentBack(status, old(Seen()), Seen(), sides)
      ensures m.calm ==> status == RolledBack
    {
      hide Sound, Apart, ShowsHeld, StoppedIncoming, BareAll, PutBack, Emptied, RestatedAll, TurnedBack, WentBack, Exactly;
      ghost var was, a := pools, Seen();
      var ok := GiveBack();
      ghost var b := Seen();
      if !ok {
        WentBackNot(a, b, sides);
        status := Failed;
        return;
      }
      RestatedSides(was, Some(RDraining), Some(RActive));
      ghost var given := pools;
      RemoveFresh();
      ghost var c := Seen();
      StoppedBare(b, c, given);
      PutInPlace(was);
      WentBackAll(a, b, c, Seen(), sides);
      status := RolledBack;
    }

    /** The first half of a rollback: the held side is active again, the incoming one on its way out. */
    method GiveBack() returns (ok: bool)
      requires Complete()
      modifies `pools, m`rows, m`writes, m`stored
      ensures pools == RestatedAll(old(pools), Some(RDraining), Some(RActive))
      ensures TurnedBack(old(Seen()), Seen(), sides) && (m.stored ==> old(m.stored))
      ensures Apart(sides) && (ok || m.stored) ==>
        ShowsHeld(m.rows, sides) && Exactly(m.rows, sides, Some(RDraining), Some(RActive))
      ensures m.calm ==> ok
    {
      hide Sound, Apart, ShowsHeld, BareAll, Writes, Wrote, RestatedAll, TurnedBack, Exactly;
      ghost var was, a := pools, Seen();
      Restate(Some(RDraining), Some(RActive));
      ghost var n: nat;
      ok, n := PushPools();
      GiveUpPushed(a, Seen(), was, n);
    }

    /** The last of it: the held side takes the place of the incoming one. */
    method PutInPlace(ghost was: seq<DeployPool>)
      requires Sound(was) && pools == Emptied(RestatedAll(was, Some(RDraining), Some(RActive))) && sides == BareAll(was)
      modifies `pools, m`rows, m`writes, m`stored
      ensures TurnedBack(old(Seen()), Seen(), sides) && (m.stored ==> old(m.stored))
      ensures Apart(sides) && old(ShowsHeld(m.rows, sides)) ==> ShowsHeld(m.rows, sides)
      ensures Apart(sides) && m.stored ==> Exactly(m.rows, sides, None, Some(RActive))
    {
      hide Sound, Apart, ShowsHeld, BareAll, Writes, Wrote, RestatedAll, TurnedBack, PutBack, Emptied, Exactly;
      ghost var a := Seen();
      Swap();
      var _, n := PushPools();
      BackPushed(a, Seen(), was, n);
    }

    // ----- failing

    /** Fails a deploy: a rollback once the switch was pushed, before that only the cleaning up. */
    method Fail()
      requires Sound(pools)
      modifies `pools, `status, `sides, m`rows, m`writes, m`stored, m`running, m`stops, m`gone
      ensures sides == BareAll(old(pools))
      ensures old(pushed) ==> WentBack(status, old(Seen()), Seen(), sides)
      ensures !old(pushed) ==> GaveUp(status, old(Seen()), Seen(), sides)
    {
      hide Sound, WentBack, BareAll, Emptied, StoppedIncoming;
      sides := BareAll(pools);
      if pushed {
        Rollback();
        return;
      }
      ghost var was, a := pools, Seen();
      status := Failed;
      RemoveFresh();
      StoppedBare(a, Seen(), was);
    }

    /** A step with no effect here but to succeed, or to fail the deploy. */
    method Try() returns (ok: bool)
      requires Sound(pools)
      modifies `pools, `status, `sides, m`rows, m`writes, m`stored, m`running, m`stops, m`gone
      ensures ok ==> Seen() == old(Seen()) && pools == old(pools) && status == old(status) && sides == old(sides)
      ensures !ok ==> sides == BareAll(old(pools))
      ensures !ok && old(pushed) ==> WentBack(status, old(Seen()), Seen(), sides)
      ensures !ok && !old(pushed) ==> GaveUp(status, old(Seen()), Seen(), sides)
      ensures m.calm ==> ok
    {
      hide Sound, WentBack, GaveUp, BareAll;
      ok := m.Attempt();
      if !ok { Fail(); }
    }

    method SetStatus(st: Status) returns (ok: bool)
      requires Sound(pools)
      modifies `pools, `status, `sides, m`rows, m`writes, m`stored, m`running, m`stops, m`gone
      ensures ok ==> Seen() == old(Seen()) && pools == old(pools) && status == st && sides == old(sides)
      ensures !ok ==> sides == BareAll(old(pools))
      ensures !ok && old(pushed) ==> WentBack(status, old(Seen()), Seen(), sides)
      ensures !ok && !old(pushed) ==> GaveUp(status, old(Seen()), Seen(), sides)
      ensures m.calm ==> ok
    {
      hide Sound, WentBack, GaveUp, BareAll;
      status := st;
      ok := Try();
    }

    // ----- the switch

    /** Records the flip of every exposed pool, up to the first failure: the first `n` of its writes are made. */
    method RecordFlip() returns (ok: bool, ghost n: nat)
      requires Sound(pools)
      modifies `pools, `flippedAt, m`rows, m`writes, m`stored, m`clock
      ensures BareAll(pools) == old(BareAll(pools)) && Sound(pools)
      ensures var final := RestatedAll(old(pools), Some(RActive), Some(RDraining));
        && n <= |Writes(final, Both)| && Wrote(old(Seen()), Seen(), Writes(final, Both)[..n])
        && (ok ==> pools == final && n == |Writes(final, Both)|)
      ensures m.stored ==> old(m.stored)
      ensures m.calm ==> ok
      ensures m.clock >= old(m.clock) && (flippedAt == old(flippedAt) || old(m.clock) <= flippedAt <= m.clock)
      ensures old(flippedAt) != ZERO_TIME ==> flippedAt == old(flippedAt)
    {
      hide Sound, Apart, BareAll, Restated, Writes, Wrote;
      ghost var was := pools;
      ghost var final := RestatedAll(was, Some(RActive), Some(RDraining));
      n := 0;
      WroteNone(Seen(), final, Both);
      HalfRestated(was, pools, Some(RActive), Some(RDraining), 0);
      for k := 0 to |pools|
        invariant HalfFlipped(was, pools, k) && BareAll(pools) == BareAll(was) && Sound(pools)
        invariant n == |Writes(final[..k], Both)| <= |Writes(final, Both)|
        invariant Wrote(old(Seen()), Seen(), Writes(final, Both)[..n])
        invariant m.stored == old(m.stored)
        invariant m.clock >= old(m.clock) && (flippedAt == old(flippedAt) || old(m.clock) <= flippedAt <= m.clock)
        invariant old(flippedAt) != ZERO_TIME ==> flippedAt == old(flippedAt)
      {
        RestatedUnexposed(was[k], Some(RActive), Some(RDraining));
        if pools[k].exposed {
          ok := m.Attempt();
          if !ok { return; }
          ghost var j: nat;
          ok, j := FlipOne(k, was, final, old(Seen()), n);
          n := n + j;
          if !ok { return; }
        } else {
          WritesSkip(final, Both, k);
        }
      }
      assert pools == final && final[..|final|] == final;
      ok := true;
    }

    /** One pool of the flip: incoming active, held draining, recorded. */
    method FlipOne(k: nat, ghost was: seq<DeployPool>, ghost final: seq<DeployPool>, ghost start: Trace, ghost n: nat)
      returns (ok: bool, ghost j: nat)
      requires final == RestatedAll(was, Some(RActive), Some(RDraining)) && HalfFlipped(was, pools, k) && k < |was|
      requires was[k].exposed && Sound(was)
      requires n == |Writes(final[..k], Both)| <= |Writes(final, Both)| && Wrote(start, Seen(), Writes(final, Both)[..n])
      modifies `pools, `flippedAt, m`rows, m`writes, m`stored, m`clock
      ensures HalfFlipped(was, pools, k + 1) && BareAll(pools) == BareAll(was) && Sound(pools)
      ensures n + j <= |Writes(final, Both)| && Wrote(start, Seen(), Writes(final, Both)[..n + j])
      ensures ok ==> n + j == |Writes(final[..k + 1], Both)| && m.stored == old(m.stored)
      ensures !ok ==> !m.stored
      ensures m.calm ==> ok
      ensures m.clock >= old(m.clock) && (flippedAt == old(flippedAt) || old(m.clock) <= flippedAt <= m.clock)
      ensures old(flippedAt) != ZERO_TIME ==> flippedAt == old(flippedAt)
    {
      hide Sound, Apart, BareAll, Restated, Writes, Wrote, TableOf;
      pools := pools[k := Restated(pools[k], Some(RActive), Some(RDraining))];
      HalfRestated(was, pools, Some(RActive), Some(RDraining), k + 1);
      var at := m.Now();
      if flippedAt == ZERO_TIME { flippedAt := at; }
      ghost var before := Seen();
      assert pools[k] == final[k];
      WritesAt(final, Both, k, 0);
      ok, j := m.RecordTargets(pools[k].routes, Listing(pools[k], Both));
      WritesAt(final, Both, k, j);
      ghost var ws := Writes(final[..k], Both);
      assert ws == Writes(final, Both)[..n];
      WroteSome(start, before, Seen(), ws, final[k], Both, j);
    }

    /** Puts the rows of every exposed pool back to its held side; a failure is only a warning. */
    method UnrecordFlip() returns (ghost ws: seq<Write>)
      requires Sound(pools)
      modifies `pools, m`rows, m`writes, m`stored
      ensures pools == RestatedAll(old(pools), None, Some(RActive))
      ensures Wrote(old(Seen()), Seen(), ws) && AllOurs(ws, BareAll(old(pools)))
      ensures RoutesApart(pools) ==> WrittenFrom(ws, Want(pools, HeldOnly))
      ensures m.stored ==> old(m.stored) && ws == Writes(pools, HeldOnly)
    {
      hide Sound, Apart, RoutesApart, BareAll, Restated, Writes, Wrote, TableOf, Want, WrittenFrom;
      ghost var was := pools;
      ghost var final := RestatedAll(was, None, Some(RActive));
      ws := [];
      WroteNone(Seen(), final, HeldOnly);
      for k := 0 to |pools|
        invariant |pools| == |was|
        invariant forall j :: 0 <= j < k ==> pools[j] == final[j]
        invariant forall j :: k <= j < |pools| ==> pools[j] == was[j]
        invariant Wrote(old(Seen()), Seen(), ws) && AllOurs(ws, BareAll(was))
        invariant RoutesApart(final) ==> WrittenFrom(ws, Want(final, HeldOnly))
        invariant m.stored ==> old(m.stored) && ws == Writes(final[..k], HeldOnly)
      {
        RestatedUnexposed(was[k], None, Some(RActive));
        if pools[k].exposed {
          pools := pools[k := Restated(pools[k], None, Some(RActive))];
          ghost var before := Seen();
          var ok, j := m.RecordTargets(pools[k].routes, Listing(pools[k], HeldOnly));
          WroteSome(old(Seen()), before, Seen(), ws, final[k], HeldOnly, j);
          WritesAt(final, HeldOnly, k, |final[k].routes|);
          if RoutesApart(final) { WrittenSome(final, HeldOnly, ws, k, j); }
          ghost var some := OnRoutes(final[k].routes, TableOf(Listing(final[k], HeldOnly)));
          SomeOurs(was, ws, k, final[k], HeldOnly, j);
          assert some[..|some|] == some;
          ws := ws + some[..j];
        } else {
          WritesSkip(final, HeldOnly, k);
        }
      }
      assert pools == final && final[..|final|] == final;
      var _ := m.Attempt();
    }

    method FailFlip()
      requires Complete() && !pushed
      modifies `pools, `status, `sides, m`rows, m`writes, m`stored, m`running, m`stops, m`gone
      ensures sides == old(sides) && TookBack(status, old(Seen()), Seen(), sides)
    {
      hide Sound, Apart, RoutesApart, Writes, Wrote, Want, WrittenFrom, BareAll, RestatedAll, ShowsHeld, TurnedBack, TookBack,
           GaveUp, Exactly;
      ghost var was, a := pools, Seen();
      var ws := UnrecordFlip();
      ghost var b := Seen();
      UnflipWrote(a, b, was, ws);
      RestatedSides(was, None, Some(RActive));
      Fail();
      GaveUpFails(status, b, Seen(), sides);
      TookBackAll(a, b, Seen(), sides);
    }

    /** Replaces what is not behind the edge, in place. */
    method ReplaceUnexposed() returns (ok: bool)
      requires Sound(pools) && !pushed
      modifies `pools, `status, `sides, `replaced, m`rows, m`writes, m`stored, m`running, m`stops, m`gone
      ensures ok ==> Seen() == old(Seen()) && pools == old(pools) && status == old(status) && sides == old(sides)
      ensures !ok ==> sides == BareAll(old(pools)) && GaveUp(status, old(Seen()), Seen(), sides)
      ensures m.calm ==> ok
    {
      hide Sound, GaveUp, BareAll;
      for k := 0 to |pools|
        invariant Seen() == old(Seen()) && pools == old(pools) && status == old(status) && sides == old(sides)
      {
        if !pools[k].exposed {
          ok := Try();
          if !ok { return; }
          replaced := true;
          ok := Try();
          if !ok { return; }
        }
      }
      ok := true;
    }

    method Flip() returns (ok: bool)
      requires Complete() && !pushed
      modifies `pools, `status, `sides, `replaced, `pushed, `flippedAt
      modifies m`rows, m`writes, m`stored, m`running, m`stops, m`gone, m`clock
      ensures sides == old(sides)
      ensures ok ==> InWatch() && pushed && SwitchedOn(old(Seen()), Seen(), sides) && (Apart(sides) ==> Switched(m.rows, sides))
      ensures ok && Apart(sides) && m.stored ==> Exactly(m.rows, sides, Some(RActive), Some(RHeld))
      ensures ok && old(flippedAt) == ZERO_TIME < old(m.clock) ==> old(m.clock) <= flippedAt <= m.clock
      ensures !ok ==> NotSwitched(status, old(Seen()), Seen(), sides)
      ensures m.calm ==> ok
    {
      hide Sound, Apart, BareAll, GaveUp, TookBack, NotSwitched, TurnedOn, AllServing, Switched, Exactly;
      ghost var was, a := pools, Seen();
      ok := ReplaceUnexposed();
      if ok { ok := SetStatus(Watching); }
      if !ok {
        FailedHow(status, a, Seen(), sides);
        return;
      }
      ok := SwitchRows();
      ghost var b := Seen();
      if !ok {
        FailFlip();
        TookBackHow(status, a, b, Seen(), sides);
        return;
      }
      pushed := true;
      Hold();
      TurnedOnTwice(a, b, Seen(), sides);
    }

    /** The switch itself: every exposed pool recorded, and the routes pushed. */
    method SwitchRows() returns (ok: bool)
      requires Complete()
      modifies `pools, `flippedAt, m`rows, m`writes, m`stored, m`clock
      ensures Complete() && SwitchedOn(old(Seen()), Seen(), sides) && (m.stored ==> old(m.stored))
      ensures ok ==> AllServing(pools) && (Apart(sides) ==> Switched(m.rows, sides))
      ensures ok && Apart(sides) ==> Exactly(m.rows, sides, Some(RActive), Some(RDraining))
      ensures m.calm ==> ok
      ensures ok && old(flippedAt) == ZERO_TIME < old(m.clock) ==> old(m.clock) <= flippedAt <= m.clock
      ensures m.clock >= old(m.clock)
    {
      hide Sound, Apart, BareAll, Writes, Wrote, RestatedAll, TurnedOn, AllServing, Switched, Exactly;
      ghost var was, a := pools, Seen();
      ghost var n: nat;
      ok, n := RecordFlip();
      FlipServes(was);
      FlipPushed(a, Seen(), was, n);
      if ok {
        if flippedAt == ZERO_TIME { flippedAt := m.Now(); }
        ok := m.Attempt();
      }
    }

    /** Once drained, the old pool is held; if that cannot be recorded the rows go on saying draining. */
    method Hold()
      requires InWatch()
      modifies `pools, m`rows, m`writes, m`stored
      ensures InWatch() && SwitchedOn(old(Seen()), Seen(), sides)
      ensures Apart(sides) && old(Switched(m.rows, sides)) ==> Switched(m.rows, sides)
      ensures m.stored ==> old(m.stored)
      ensures Apart(sides) && m.stored && old(Exactly(m.rows, sides, Some(RActive), Some(RDraining))) ==>
        Exactly(m.rows, sides, Some(RActive), Some(RHeld))
    {
      hide Sound, Apart, BareAll, Writes, Wrote, AllServing, Switched, TurnedOn, RestatedAll, Exactly;
      ghost var was, a := pools, Seen();
      var held := 0;
      for k := 0 to |pools|
        invariant held >= 0 && (held == 0 ==> forall j :: 0 <= j < k && pools[j].exposed ==> pools[j].held == [])
      {
        if pools[k].exposed { held := held + |pools[k].held|; }
      }
      NothingWritten(a, a, sides);
      if held == 0 {
        if Exactly(m.rows, sides, Some(RActive), Some(RDraining)) { NothingHeld(m.rows, pools); }
        return;
      }
      Restate(None, Some(RHeld));
      RestatedSides(was, None, Some(RHeld));
      FlipServes(was);
      var _, n := PushPools();
      ServingPushed(a, Seen(), pools, n);
      if Apart(sides) && m.stored {
        AllWrites(pools, Both, n);
        HoldExactly(a, Seen(), was);
      }
    }

    // ----- bringing the incoming side up

    /** What is true while replicas are brought up: nothing but new containers has changed. */
    ghost predicate Filled(live: set<Container>)
      reads this, m
    {
      !pushed && Sound(pools) && Begun(pools, m.started, live, m.running) && AllUp(m.running, pools)
    }

    /** What a failure while replicas are brought up leaves. */
    ghost predicate Abandoned(live: set<Container>, before: Trace, plans: seq<Plan>)
      reads this, m
    {
      && Sound(sides) && Planned(sides, plans)
      && exists a: Trace :: a == before.(running := a.running, started := a.started)
                         && Begun(sides, a.started, live, a.running) && GaveUp(status, a, Seen(), sides)
    }

    /** So far only containers were brought up. */
    ghost predicate OnlyBroughtUp(before: Trace)
      reads m
    {
      Seen() == before.(running := m.running, started := m.started)
    }

    method FailStart(ghost live: set<Container>, ghost before: Trace, ghost plans: seq<Plan>)
      requires Planned(pools, plans)
      requires !pushed && Sound(pools) && Begun(pools, m.started, live, m.running) && OnlyBroughtUp(before)
      modifies `pools, `status, `sides, m`rows, m`writes, m`stored, m`running, m`stops, m`gone
      ensures Abandoned(live, before, plans)
    {
      hide Sound, Apart, Begun, GaveUp, BareAll, Planned;
      ghost var a := Seen();
      PlannedBare(pools, plans);
      BareWellFormed(pools);
      BegunBare(pools, m.started, live, m.running);
      Fail();
      assert Begun(sides, a.started, live, a.running);
    }

    /** Brings up the replicas of one exposed service beside the ones that run. */
    method StartPool(plan: Plan, ghost plans: seq<Plan>, ghost live: set<Container>, ghost before: Trace) returns (ok: bool)
      requires Filled(live) && OnlyBroughtUp(before) && |pools| < |plans| && plans[|pools|] == plan && plan.exposed
      requires Planned(pools, plans) && HeldAsRan(pools, live) && Wanted(pools, plans, live)
      modifies `pools, `status, `sides, m`rows, m`writes, m`stored, m`running, m`stops, m`gone, m`started
      ensures ok ==> && Filled(live) && OnlyBroughtUp(before) && |pools| == |old(pools)| + 1 && status == old(status)
                     && Planned(pools, plans) && HeldAsRan(pools, live) && Wanted(pools, plans, live)
      ensures !ok ==> Abandoned(live, before, plans)
      ensures m.calm && (forall i :: i >= 1 ==> plan.ports(i) > 0) ==> ok
    {
      hide Sound, Begun, AllUp, HeldAsRan, Wanted, WantedAt, Abandoned, Filling, PoolOk, Named, HeldAtTurn, Replicas.Free,
           NumbersOf, FirstNamed, Planned;
      ghost var was := pools;
      var p := NewPool(plan);
      PlannedMore(was, p, plans);
      pools := pools + [p];
      EmptyOk(p);
      NextPool(was, p);
      BegunAddPool(was, p, m.started, live, m.running);
      ok := m.Attempt();
      if !ok {
        FailStart(live, before, plans);
        return;
      }
      var found := m.LiveReplicas(plan.service);
      if found.None? {
        FailStart(live, before, plans);
        return false;
      }
      var q := p.(held := ReplicasOf(found.value, plan.ports, RDraining));
      pools := pools[|pools| - 1 := q];
      assert pools == was + [q];
      PlannedMore(was, q, plans);
      HeldNamed(plan, found.value, m.running);
      BegunAddHeld(was, p, q.held, m.started, live, m.running);
      var indexes := Replicas.FreeIndexes(found.value, plan.want);
      FreeBeside(found.value, plan.want, indexes);
      StartFilling(p, plan, found.value, indexes);
      FillingOk(p, q, found.value, indexes, 0);
      NextPool(was, q);
      ok := m.Attempt();
      if !ok {
        FailStart(live, before, plans);
        return;
      }
      FreeOutside(plan.service, found.value, indexes, live, m.started, m.running, pools);
      ghost var started, running := m.started, m.running;
      BegunInit(was, q, started, live, running, plan, found.value, plan.want, indexes);
      ok := Fill(plan, p, found.value, indexes, plans, live, before, was);
      if ok {
        Grown(was, p, q, pools[|was|], found.value, indexes, plans, live);
        assert pools == was + [pools[|was|]];
      }
    }

    /** Brings up replicas with the given numbers in the last pool. */
    method Fill(plan: Plan, ghost p: DeployPool, ghost found: seq<int>, indexes: seq<int>, ghost plans: seq<Plan>,
                ghost live: set<Container>, ghost before: Trace, ghost was: seq<DeployPool>)
      returns (ok: bool)
      requires pools != [] && pools == was + [pools[|pools| - 1]] && p == NewPool(plan) && plan.exposed && Sound(was)
      requires Planned(pools, plans) && |was| < |plans| && plans[|was|] == plan
      requires Filling(p, pools[|pools| - 1], found, indexes, 0) && Filled(live) && OnlyBroughtUp(before)
      requires forall j, k :: 0 <= j < k < |found| ==> found[j] != found[k]
      requires forall j, k :: 0 <= j < k < |indexes| ==> indexes[j] < indexes[k]
      requires forall j :: 0 <= j < |indexes| ==> indexes[j] !in found && Container(plan.service, indexes[j]) !in live
      modifies `pools, `status, `sides, m`rows, m`writes, m`stored, m`running, m`stops, m`gone, m`started
      ensures ok ==> && Filled(live) && OnlyBroughtUp(before) && |pools| == |was| + 1 && pools == was + [pools[|was|]]
                     && status == old(status) && Filling(p, pools[|was|], found, indexes, |indexes|)
                     && pools[|was|].held == old(pools[|pools| - 1].held) && Planned(pools, plans)
      ensures !ok ==> Abandoned(live, before, plans)
      ensures m.calm && (forall j :: 0 <= j < |indexes| ==> plan.ports(indexes[j]) > 0) ==> ok
    {
      hide Sound, Begun, AllUp, Abandoned, Filling, PoolOk, Planned, LaidOut;
      var n := |pools| - 1;
      FillingShape(p, pools[n], found, indexes, 0);
      for i := 0 to |indexes|
        invariant |pools| == n + 1 && pools == was + [pools[n]] && Filling(p, pools[n], found, indexes, i)
        invariant Filled(live) && OnlyBroughtUp(before) && status == old(status)
        invariant pools[n] == p.(incoming := pools[n].incoming, held := pools[n].held)
        invariant pools[n].held == old(pools[|pools| - 1].held) && Planned(pools, plans)
      {
        var c := Container(plan.service, indexes[i]);
        if plan.ports(indexes[i]) <= 0 {
          FailStart(live, before, plans);
          return false;
        }
        ghost var started, running := m.started, m.running;
        var made, up := m.BringUp(c);
        if made {
          var r := Replica(indexes[i], plan.ports(indexes[i]), if up then RHealthy else RFailed);
          ghost var q := pools[n];
          BegunAddReplica(was, q, r, started, live, running, m.running);
          PlannedLast(was, q, plans);
          PlannedReplica(q, r, plan);
          PlannedMore(was, q.(incoming := q.incoming + [r]), plans);
          pools := pools[n := pools[n].(incoming := pools[n].incoming + [r])];
          assert pools == was + [pools[n]];
          FillOne(p, q, r, found, indexes, i);
          FillingOk(p, pools[n], found, indexes, i + 1);
          NextPool(was, pools[n]);
        }
        if !up {
          FailStart(live, before, plans);
          return false;
        }
      }
      ok := true;
    }

    method Start(plans: seq<Plan>) returns (ok: bool)
      requires pools == [] && !pushed && m.started == {}
      modifies `pools, `status, `sides, m`rows, m`writes, m`stored, m`running, m`stops, m`gone, m`started
      ensures ok ==> && Complete() && Filled(old(m.running)) && OnlyBroughtUp(old(Seen()))
                     && Planned(pools, plans) && |pools| == |plans|
                     && HeldAsRan(pools, old(m.running)) && Wanted(pools, plans, old(m.running))
      ensures !ok ==> Abandoned(old(m.running), old(Seen()), plans)
      ensures m.calm && PortsGiven(plans) ==> ok
    {
      hide Sound, Begun, AllUp, HeldAsRan, Wanted, WantedAt, GaveUp, Abandoned, PoolOk, BareAll, HeldAtTurn, PlannedPool;
      ghost var live, before := m.running, Seen();
      BegunNone(live);
      WantedNone(plans, live);
      ok := SetStatus(Bringing);
      if ok { ok := Try(); }
      if !ok {
        AbandonedAtOnce(live, before, plans);
        return;
      }
      for k := 0 to |plans|
        invariant Filled(live) && OnlyBroughtUp(before) && Planned(pools, plans) && |pools| == k
        invariant HeldAsRan(pools, live) && Wanted(pools, plans, live)
      {
        if plans[k].exposed {
          ok := StartPool(plans[k], plans, live, before);
          if !ok { return; }
        } else {
          var p := NewPool(plans[k]);
          EmptyOk(p);
          NextPool(pools, p);
          BegunAddPool(pools, p, m.started, live, m.running);
          HeldAsRanMore(pools, p, live);
          WantedMore(pools, p, plans, live);
          NewIsPlanned(plans[k]);
          PlannedMore(pools, p, plans);
          pools := pools + [p];
        }
      }
      sides := BareAll(pools);
      ok := true;
    }

    lemma AbandonedAtOnce(live: set<Container>, before: Trace, plans: seq<Plan>)
      requires sides == [] && before.started == {} && before.running == live && GaveUp(status, before, Seen(), sides)
      ensures Abandoned(live, before, plans)
    {
      hide GaveUp;
      BegunNone(live);
    }

    // ----- the watch and the whole deploy

    /** The status a watch leaves; a rollback that cannot be recorded is a failure. */
    static ghost predicate Decides(v: Watch.Verdict, st: Status, calm: bool) {
      match v
      case Promoted(_) => st == Promoted
      case RolledBack(_) => st == RolledBack || (st == Failed && !calm)
      case _ => st == Watching
    }

    /** Watches until the watch decides, is abandoned, or there is nothing more to see. */
    method Observe(noWatch: bool, beats: seq<Watch.Beat>) returns (e: Watch.Ended)
      requires InWatch()
      modifies `pools, `status, `countedFrom, `detached, m`rows, m`writes, m`stored, m`running, m`stops, m`gone
      ensures e == Watch.Life(Watch.Run(policy, flippedAt, old(countedFrom), old(detached)), noWatch, beats)
      ensures Decides(e.verdict, status, m.calm) && countedFrom == e.run.countedFrom && detached == e.run.detached
      ensures status == Promoted ==> WentOn(old(Seen()), Seen(), sides)
      ensures status == RolledBack || status == Failed ==> WentBack(status, old(Seen()), Seen(), sides)
      ensures status == Watching ==> InWatch() && Seen() == old(Seen())
    {
      hide Sound, BareAll, AllServing, WentOn, Watch.Life;
      e := Watch.WatchToEnd(Watch.Run(policy, flippedAt, countedFrom, detached), noWatch, beats);
      countedFrom, detached := e.run.countedFrom, e.run.detached;
      match e.verdict {
        case Promoted(_) => Promote();
        case RolledBack(_) => Rollback();
        case _ =>
      }
    }

    /**
     A whole deploy, through every failure and every hand-off, whatever services it names. A
     promotion stops exactly the held side, a rollback exactly the incoming one. If no exposed
     service is named twice the sides are apart, every write shows one whole side, and the rows left
     are those of the side the status says.
     */
    method RunDeploy(plans: seq<Plan>, noWatch: bool, beats: seq<Watch.Beat>) returns (e: Option<Watch.Ended>)
      requires pools == [] && !pushed && flippedAt == countedFrom == ZERO_TIME
      modifies this, m
      ensures SafeEnd(status, old(m.running), old(m.rows), Seen(), sides) && Own(old(m.rows), m.rows, sides)
      ensures ExactEnd(status, old(m.rows), Seen(), sides)
      ensures Planned(sides, plans) && (NamedOnce(plans) && RoutesByService(plans) ==> Apart(sides))
      ensures e.Some? || m.rows != old(m.rows) || m.writes != [] ==>
        |sides| == |plans| && HeldAsRan(sides, old(m.running)) && Wanted(sides, plans, old(m.running))
      ensures status == Promoted ==> forall c :: IsHeld(sides, c) ==> c in m.stops
      ensures e.None? ==> status == Failed
      ensures e.Some? ==> && e.value == Watch.Life(Watch.Run(policy, flippedAt, ZERO_TIME, old(detached)), noWatch, beats)
                          && Decides(e.value.verdict, status, m.calm)
      ensures e.Some? && ZERO_TIME < old(m.clock) ==> old(m.clock) <= flippedAt <= m.clock
      ensures status == Watching ==> InWatch()
      ensures m.calm && PortsGiven(plans) ==> e.Some?
    {
      hide SafeEnd, Ready, HeldAsRan, Wanted, Planned, Watch.Life, Decides, InWatch, IsHeld, PortsGiven, NamedOnce, RoutesByService,
           Apart, ExactEnd;
      m.writes, m.stops, m.started, m.stored, m.gone := [], {}, {}, true, {};
      ghost var live, before := m.running, m.rows;
      var ok := Prepare(plans);
      if NamedOnce(plans) && RoutesByService(plans) { PlannedApart(sides, plans); }
      if !ok { return None; }
      e := Switch(noWatch, beats, live, before);
    }

    /** The incoming side is up beside the old one, checked, and nothing else has happened. */
    ghost predicate Ready(live: set<Container>, before: map<int, Table>)
      reads this, m
    {
      && Complete() && !pushed && Begun(sides, m.started, live, m.running) && AllUp(m.running, sides)
      && Sound(sides) && m.stops == {} && m.gone == {} && m.writes == [] && m.rows == before
    }

    /** Builds, migrates, brings the incoming side up and checks it. */
    method Prepare(plans: seq<Plan>) returns (ok: bool)
      requires pools == [] && !pushed
      requires m.writes == [] && m.stops == {} && m.gone == {} && m.started == {}
      modifies `pools, `status, `sides, m`rows, m`writes, m`stored, m`running, m`stops, m`gone, m`started
      ensures Planned(sides, plans)
      ensures ok ==> && Ready(old(m.running), old(m.rows)) && |sides| == |plans|
                     && HeldAsRan(sides, old(m.running)) && Wanted(sides, plans, old(m.running))
      ensures !ok ==> status == Failed && SafeEnd(status, old(m.running), old(m.rows), Seen(), sides)
      ensures !ok ==> ExactEnd(status, old(m.rows), Seen(), sides)
      ensures !ok ==> m.rows == old(m.rows) && m.writes == []
      ensures Own(old(m.rows), m.rows, sides)
      ensures m.calm && PortsGiven(plans) ==> ok
    {
      hide Sound, Begun, AllUp, HeldAsRan, Wanted, Abandoned, BareAll, SafeEnd, GaveUp, NotSwitched, Planned, PortsGiven;
      ghost var live, before := m.running, Seen();
      BegunNone(live);
      ok := Try();
      if ok { ok := SetStatus(Migrating); }
      if ok { ok := Try(); }
      if !ok {
        AbandonedAtOnce(live, before, plans);
        AbandonedIsSafe(live, before, plans);
        return;
      }
      ok := Start(plans);
      if !ok {
        AbandonedIsSafe(live, before, plans);
        return;
      }
      ghost var begun := Seen();
      BegunBare(pools, m.started, live, m.running);
      HeldAsRanBare(pools, live);
      PlannedBare(pools, plans);
      WantedBare(pools, plans, live);
      BareWellFormed(pools);
      ok := SetStatus(Checking);
      if ok { ok := Try(); }
      if !ok {
        GaveUpFails(status, begun, Seen(), sides);
        FailedHow(status, begun, Seen(), sides);
        NotSwitchedIsFailed(status, begun, Seen(), sides);
        EndNotSwitched(live, begun, Seen(), sides);
      }
    }

    /** Switches to the incoming side and watches it. */
    method Switch(noWatch: bool, beats: seq<Watch.Beat>, ghost live: set<Container>, ghost before: map<int, Table>)
      returns (e: Option<Watch.Ended>)
      requires Ready(live, before) && flippedAt == countedFrom == ZERO_TIME
      modifies `pools, `status, `sides, `replaced, `pushed, `flippedAt, `countedFrom, `detached
      modifies m`rows, m`writes, m`stored, m`running, m`stops, m`gone, m`clock
      ensures sides == old(sides) && SafeEnd(status, live, before, Seen(), sides) && Own(old(m.rows), m.rows, sides)
      ensures ExactEnd(status, before, Seen(), sides)
      ensures e.None? ==> status == Failed
      ensures e.Some? ==> && e.value == Watch.Life(Watch.Run(policy, flippedAt, ZERO_TIME, old(detached)), noWatch, beats)
                          && Decides(e.value.verdict, status, m.calm)
      ensures e.Some? && ZERO_TIME < old(m.clock) ==> old(m.clock) <= flippedAt <= m.clock
      ensures status == Watching ==> InWatch()
      ensures status == Promoted ==> forall c :: IsHeld(sides, c) ==> c in m.stops
      ensures m.calm ==> e.Some?
    {
      hide Sound, Apart, Begun, AllUp, BareAll, IsHeld, AllServing, Switched, SafeEnd, WentOn, WentBack, NotSwitched,
           TurnedOn, Watch.Life, Own, Exactly;
      ghost var begun := Seen();
      var ok := Flip();
      if !ok {
        ExactFailed(status, begun, Seen(), sides);
        NotSwitchedIsFailed(status, begun, Seen(), sides);
        EndNotSwitched(live, begun, Seen(), sides);
        return None;
      }
      ghost var switched := Seen();
      EndWatching(live, begun, switched, sides);
      var end := Observe(noWatch, beats);
      e := Some(end);
      OwnThrough(status, begun, switched, Seen(), sides);
      if status == Promoted {
        EndPromoted(live, before, switched, Seen(), sides);
        WentOnStops(switched, Seen(), sides);
        ExactPromoted(before, switched, Seen(), sides);
      } else if status != Watching {
        EndWentBack(status, live, before, switched, Seen(), sides);
        ExactWentBack(status, before, switched, Seen(), sides);
      }
    }

    lemma AbandonedIsSafe(live: set<Container>, before: Trace, plans: seq<Plan>)
      requires Abandoned(live, before, plans) && before.stops == {} && before.gone == {} && before.writes == []
      ensures status == Failed && SafeEnd(status, live, before.rows, Seen(), sides) && m.rows == before.rows
      ensures m.writes == []
      ensures Planned(sides, plans)
    {
      var a: Trace :| a == before.(running := a.running, started := a.started)
                   && Begun(sides, a.started, live, a.running) && GaveUp(status, a, Seen(), sides);
      assert status == Failed && m.rows == before.rows && m.writes == [];
      hide Begun, GaveUp, SafeEnd, Sound;
      GaveUpNotSwitched(a, Seen(), sides);
      EndNotSwitched(live, a, Seen(), sides);
    }
  }
}
