/**
 Whole runs, from the plans and the containers found to the last stop, in which both what ran before a
 deploy and what it started are stopped: one for each step in which the daemon may die.
 */
module CrashRuns {
  import opened Edge
  import opened Rows
  import opened Pools
  import opened World
  import opened Outcomes
  import opened Deploys
  import opened DeployTheorems
  import opened Resumes
  import opened Crashes
  import opened SwitchCrashes
  import Replicas
  import Watch

  /** Plans whose services are named once, with a port for every number and their routes listed. */
  ghost predicate WellPlanned(plans: seq<Plan>, listed: seq<RouteRow>) {
    DistinctRoutes(listed) && Covers(listed, NewPools(plans)) && NamedOnce(plans) && PortsGiven(plans)
  }

  /** Something ran of an exposed service. */
  ghost predicate RunsOld(plans: seq<Plan>, live: set<Container>) {
    exists k, i :: 0 <= k < |plans| && plans[k].exposed && i >= 1 && Container(plans[k].service, i) in live
  }

  ghost predicate WantsNew(plans: seq<Plan>) {
    exists k :: 0 <= k < |plans| && plans[k].exposed && plans[k].want > 0
  }

  /** What the deploy starts: the lowest free numbers of its exposed services. */
  ghost predicate StartsFree(started: set<Container>, plans: seq<Plan>, live: set<Container>) {
    forall c :: c in started ==> FreeIn(plans, live, c)
  }

  ghost predicate FreeIn(plans: seq<Plan>, live: set<Container>, c: Container) {
    exists k :: 0 <= k < |plans| && plans[k].exposed && c.service == plans[k].service
             && c.index in Replicas.Free(NumbersOf(c.service, live), 1, plans[k].want)
  }

  /** A container that ran before and one that was started are both among those stopped. */
  ghost predicate StopsOldAndNew(stops: set<Container>, live: set<Container>, started: set<Container>) {
    (exists c :: c in stops && c in live) && (exists c :: c in stops && c in started)
  }

  // ----- the deploys that are interrupted

  /** The sides of a deploy, as what ran and what was started. */
  ghost predicate SidesAre(sides: seq<DeployPool>, live: set<Container>, started: set<Container>) {
    && (forall c :: IsHeld(sides, c) ==> c in live)
    && (forall c :: IsIncoming(sides, c) <==> c in started)
  }

  ghost predicate OfPlans(sides: seq<DeployPool>, plans: seq<Plan>, live: set<Container>, started: set<Container>) {
    && AsPlanned(sides, plans, live) && SidesAre(sides, live, started) && StartsFree(started, plans, live)
    && (RunsOld(plans, live) ==> HasHeld(sides)) && (WantsNew(plans) ==> HasIncoming(sides))
  }

  lemma SidesOfPlans(sides: seq<DeployPool>, plans: seq<Plan>, live: set<Container>, started: set<Container>)
    requires AsPlanned(sides, plans, live) && Sound(sides)
    requires forall c :: c in started <==> IsIncoming(sides, c)
    requires forall c :: IsHeld(sides, c) ==> c in live || c in started
    ensures OfPlans(sides, plans, live, started)
  {
    StartedFree(sides, plans, live, started);
    HasSides(sides, plans, live);
    hide Sound, AsPlanned, IsHeld, IsIncoming, StartsFree, RunsOld, WantsNew, HasHeld, HasIncoming;
    forall c | IsHeld(sides, c) ensures c in live {
      PlannedSidesApart(sides, plans, live, c);
    }
  }

  lemma PlannedSidesApart(sides: seq<DeployPool>, plans: seq<Plan>, live: set<Container>, c: Container)
    requires AsPlanned(sides, plans, live) && Sound(sides)
    ensures !(IsHeld(sides, c) && IsIncoming(sides, c))
  {
    hide Sound, Apart, IsHeld, IsIncoming;
    SidesApart(sides, c);
  }

  lemma StartedFree(sides: seq<DeployPool>, plans: seq<Plan>, live: set<Container>, started: set<Container>)
    requires AsPlanned(sides, plans, live) && forall c :: c in started ==> IsIncoming(sides, c)
    ensures StartsFree(started, plans, live)
  {
    hide HeldAsRan, Wanted, Apart, Replicas.Free, NumbersOf, LaidOut;
    forall c | c in started ensures FreeIn(plans, live, c) {
      assert IsIncoming(sides, c);
      var k := PoolOfSide(sides, c);
      assert PlannedPool(sides[k], plans[k]);
      IncomingIsFree(sides, plans, live, k, c.index);
      assert c == Container(plans[k].service, c.index);
    }
  }

  lemma HasSides(sides: seq<DeployPool>, plans: seq<Plan>, live: set<Container>)
    requires AsPlanned(sides, plans, live)
    ensures RunsOld(plans, live) ==> HasHeld(sides)
    ensures WantsNew(plans) ==> HasIncoming(sides)
  {
    hide HeldAsRan, Apart, Replicas.Free, NumbersOf, LaidOut, IsHeld;
    assert forall k :: 0 <= k < |sides| ==> PlannedPool(sides[k], plans[k]);
    if RunsOld(plans, live) {
      var k, i :| 0 <= k < |plans| && plans[k].exposed && i >= 1 && Container(plans[k].service, i) in live;
      RanIsHeld(sides, live, k, Container(plans[k].service, i));
    }
    if WantsNew(plans) {
      var k :| 0 <= k < |plans| && plans[k].exposed && plans[k].want > 0;
      assert WantedAt(sides, k, plans[k], live);
      var c := Container(sides[k].service, sides[k].incoming[0].index);
      assert IsIncoming(sides, c);
    }
  }

  /** A deploy that is being watched. */
  method Watched(m: World, policy: Watch.Policy, plans: seq<Plan>, listed: seq<RouteRow>) returns (run: DeployRun)
    requires m.calm && WellPlanned(plans, listed)
    modifies m
    ensures fresh(run) && run.m == m && run.policy == policy
    ensures Interruptible(run, listed) && OfPlans(run.sides, plans, old(m.running), m.started)
  {
    hide SafeEnd, Apart, Planned, HeldAsRan, Wanted, NamedOnce, RoutesByService, IsHeld, IsIncoming, Own, Watch.Life, Covers,
         DistinctRoutes, PortsGiven, OfPlans, Sound, BareAll;
    ghost var live, before := m.running, m.rows;
    run := new DeployRun(m, policy);
    ListedByService(listed, plans);
    var e := run.RunDeploy(plans, true, []);
    NothingSeen(Watch.Run(policy, run.flippedAt, ZERO_TIME, false));
    PlansListed(listed, plans, run.sides);
    WatchedIsSwitched(live, before, TraceOf(m), run.sides);
    SidesOfPlans(run.sides, plans, live, m.started);
  }

  lemma NothingSeen(r: Watch.Run)
    ensures Watch.Life(r, true, []).verdict == Watch.Pending
  {
  }

  lemma WatchedIsSwitched(live: set<Container>, before: map<int, Table>, t: Trace, sides: seq<DeployPool>)
    requires SafeEnd(Watching, live, before, t, sides) && Apart(sides)
    ensures Sound(sides) && IncomingPorted(sides) && Switched(t.rows, sides) && t.stops == {}
    ensures forall c :: c in t.started <==> IsIncoming(sides, c)
    ensures forall c :: IsHeld(sides, c) ==> c in live || c in t.started
  {
    hide Sound, Apart, OneTurn, Whole, IsHeld, IsIncoming, IncomingPorted, Switched;
  }

  /** A deploy with its new pool up, about to switch. */
  method Prepared(m: World, policy: Watch.Policy, plans: seq<Plan>, listed: seq<RouteRow>) returns (run: DeployRun)
    requires m.calm && WellPlanned(plans, listed) && m.writes == [] && m.stops == {} && m.gone == {} && m.started == {}
    modifies m
    ensures fresh(run) && run.m == m && run.policy == policy && m.rows == old(m.rows)
    ensures BeforeSwitch(run, listed) && OfPlans(run.sides, plans, old(m.running), m.started)
  {
    hide SafeEnd, Apart, Planned, HeldAsRan, Wanted, NamedOnce, RoutesByService, IsHeld, IsIncoming, Own, Covers,
         DistinctRoutes, PortsGiven, OfPlans, Sound, BareAll, IncomingPorted, AllUp;
    ghost var live := m.running;
    run := new DeployRun(m, policy);
    ListedByService(listed, plans);
    var ok := run.Prepare(plans);
    PlannedApart(run.sides, plans);
    PlansListed(listed, plans, run.sides);
    SidesOfPlans(run.sides, plans, live, m.started);
  }

  lemma BothAre(stops: set<Container>, sides: seq<DeployPool>, plans: seq<Plan>, live: set<Container>, started: set<Container>)
    requires BothStopped(stops, sides) && OfPlans(sides, plans, live, started)
    ensures StopsOldAndNew(stops, live, started) && StartsFree(started, plans, live)
  {
    hide AsPlanned, IsHeld, IsIncoming, StartsFree;
  }

  // ----- a crash in each of its steps, and a resumed rollback

  /** In its promotion, after any stop. */
  method PromotionThenRollback(m: World, policy: Watch.Policy, plans: seq<Plan>, listed: seq<RouteRow>, stops: nat, writes: nat)
    requires m.calm && WellPlanned(plans, listed) && 0.0 <= policy.maxRate < 1.0
    requires RunsOld(plans, m.running) && WantsNew(plans) && stops > 0
    modifies m
    ensures StopsOldAndNew(m.stops, old(m.running), m.started) && StartsFree(m.started, plans, old(m.running))
  {
    hide WellPlanned, Interruptible, OfPlans, RunsOld, WantsNew, HasHeld, HasIncoming, BothStopped, StopsOldAndNew, StartsFree;
    var run := Watched(m, policy, plans, listed);
    OfPlansHas(run.sides, plans, old(m.running), m.started);
    PlannedLists(plans, listed);
    BothByPromotion(run, stops, writes, listed);
    BothAre(m.stops, run.sides, plans, old(m.running), m.started);
  }

  lemma OfPlansHas(sides: seq<DeployPool>, plans: seq<Plan>, live: set<Container>, started: set<Container>)
    requires OfPlans(sides, plans, live, started)
    ensures (RunsOld(plans, live) ==> HasHeld(sides)) && (WantsNew(plans) ==> HasIncoming(sides))
    ensures AsPlanned(sides, plans, live)
  {
  }

  lemma PlannedLists(plans: seq<Plan>, listed: seq<RouteRow>)
    requires WellPlanned(plans, listed)
    ensures DistinctRoutes(listed) && PortsGiven(plans)
  {
  }

  /** Some exposed pool has a held replica with a row. */
  lemma HeldHasRow(sides: seq<DeployPool>, plans: seq<Plan>, live: set<Container>) returns (k: nat)
    requires AsPlanned(sides, plans, live) && PortsGiven(plans) && RunsOld(plans, live)
    ensures k < |sides| && sides[k].exposed && Ported(sides[k].held) != {}
  {
    var i: int;
    k, i :| 0 <= k < |plans| && plans[k].exposed && i >= 1 && Container(plans[k].service, i) in live;
    assert PlannedPool(sides[k], plans[k]);
    SidesByNumber(sides, plans, live, k);
    InNumbers(plans[k].service, live, i);
    assert i in OldNumbers(plans[k], live);
  }

  /** In its rollback, with everything turned back and something stopped. */
  method RollbackThenRollback(m: World, policy: Watch.Policy, plans: seq<Plan>, listed: seq<RouteRow>, stops: nat, after: nat)
    requires m.calm && WellPlanned(plans, listed) && 0.0 <= policy.maxRate < 1.0
    requires RunsOld(plans, m.running) && WantsNew(plans) && stops > 0
    modifies m
    ensures StopsOldAndNew(m.stops, old(m.running), m.started) && StartsFree(m.started, plans, old(m.running))
  {
    hide WellPlanned, OfPlans, RunsOld, WantsNew, HasHeld, HasIncoming, BothStopped, StopsOldAndNew, StartsFree, AsPlanned, PortsGiven,
         DistinctRoutes, Sound, AllServing, Apart, IncomingPorted, Switched, Covers, BareAll, RestatedAll, Writes, HeldWhere;
    var run := Watched(m, policy, plans, listed);
    OfPlansHas(run.sides, plans, old(m.running), m.started);
    PlannedLists(plans, listed);
    BareOf(run);
    HeldTurned(run.pools, plans, old(m.running), listed);
    var all := TurningWrites(run);
    BothByRollback(run, all, stops, after, listed);
    BothAre(m.stops, run.sides, plans, old(m.running), m.started);
  }

  method TurningWrites(run: DeployRun) returns (n: nat)
    ensures n == |Writes(RestatedAll(run.pools, Some(RDraining), Some(RActive)), Both)|
  {
    n := CountWrites(RestatedAll(run.pools, Some(RDraining), Some(RActive)));
  }

  lemma HeldTurned(pools: seq<DeployPool>, plans: seq<Plan>, live: set<Container>, listed: seq<RouteRow>)
    requires AsPlanned(BareAll(pools), plans, live) && PortsGiven(plans) && RunsOld(plans, live)
    requires Apart(pools) && Covers(listed, BareAll(pools))
    ensures HeldWhere(pools, |Writes(RestatedAll(pools, Some(RDraining), Some(RActive)), Both)|, listed, true)
  {
    hide AsPlanned, PortsGiven, RunsOld, Apart, Covers, Writes, RestatedAll, TurnedAt, Ported;
    var k := HeldHasRow(BareAll(pools), plans, live);
    AllTurned(pools, listed, k);
    PortsOf(pools, k);
  }

  /**
   While a switch that failed after any number of its writes is taken back, with everything put back and
   something stopped.
   */
  method TakingBackThenRollback(m: World, policy: Watch.Policy, plans: seq<Plan>, listed: seq<RouteRow>, flips: nat, stops: nat)
    requires m.calm && WellPlanned(plans, listed) && 0.0 <= policy.maxRate < 1.0
    requires m.writes == [] && m.stops == {} && m.gone == {} && m.started == {}
    requires RunsOld(plans, m.running) && WantsNew(plans) && stops > 0
    modifies m
    ensures StopsOldAndNew(m.stops, old(m.running), m.started) && StartsFree(m.started, plans, old(m.running))
  {
    hide WellPlanned, OfPlans, RunsOld, WantsNew, HasHeld, HasIncoming, BothStopped, StopsOldAndNew, StartsFree, AsPlanned, PortsGiven,
         DistinctRoutes, Sound, Apart, IncomingPorted, Covers, BareAll, Writes, Flipped, TakenBack, StoppedAsRead, HeldSwitched,
         IncomingSwitched, HeldStopped, IncomingStopped, Settled, IsIncoming;
    ghost var live := m.running;
    var run := Prepared(m, policy, plans, listed);
    OfPlansHas(run.sides, plans, live, m.started);
    PlannedLists(plans, listed);
    ghost var was, rows := run.pools, m.rows;
    BareWellFormed(was);
    var all := PuttingBackWrites(run);
    var next, n, ws, made := CrashInTakingBack(run, flips, all, stops, listed, [BreachBeat()]);
    HeldPutBack(m.stops, made, rows, was, n, listed, plans, live);
    MadeMeans(m.stops, made, was, rows, n, ws, listed);
    BothMeans(m.stops, run.sides);
    BothAre(m.stops, run.sides, plans, live, m.started);
  }

  method PuttingBackWrites(run: DeployRun) returns (n: nat)
    ensures n >= |Writes(TakenBack(Flipped(run.pools)), HeldOnly)|
  {
    n := CountWrites(run.pools);
    SameCount(TakenBack(Flipped(run.pools)), HeldOnly, run.pools, Both);
  }

  lemma {:induction false} SameCount(a: seq<DeployPool>, s: Side, b: seq<DeployPool>, t: Side)
    requires SameShape(a, b)
    ensures |Writes(a, s)| == |Writes(b, t)|
  {
    hide TableOf;
    if a != [] {
      var n := |a| - 1;
      SameCount(a[..n], s, b[..n], t);
    }
  }

  /** With everything put back, a resumed rollback stops a container of the old side. */
  lemma HeldPutBack(after: set<Container>, made: set<Container>, rows: map<int, Table>, pools: seq<DeployPool>, n: nat,
                    listed: seq<RouteRow>, plans: seq<Plan>, live: set<Container>)
    requires AsPlanned(BareAll(pools), plans, live) && PortsGiven(plans) && RunsOld(plans, live)
    requires Apart(pools) && Covers(listed, BareAll(pools)) && n <= |Writes(Flipped(pools), Both)|
    requires StoppedAsRead(after, made, RolledBack, rows, pools, n, Writes(TakenBack(Flipped(pools)), HeldOnly), listed)
    ensures HeldStopped(after, BareAll(pools))
  {
    hide AsPlanned, PortsGiven, RunsOld, Apart, Covers, Writes, Flipped, TakenBack, SwitchedAt, PutBackAt, Ported, FirstRow, Takes,
         IsHeld;
    var was := BareAll(pools);
    var k := HeldHasRow(was, plans, live);
    PortsOf(pools, k);
    var x := Member(Ported(was[k].held));
    var c := Container(was[k].service, x);
    AllPutBack(pools, listed, k);
    HeldByNumber(was, k, c);
    assert pools[k].exposed && c.service == pools[k].service;
  }

  lemma AllPutBack(pools: seq<DeployPool>, listed: seq<RouteRow>, k: nat)
    requires Apart(pools) && Covers(listed, BareAll(pools)) && k < |pools| && pools[k].exposed
    ensures PutBackAt(Writes(TakenBack(Flipped(pools)), HeldOnly), listed, pools[k].service)
  {
    var back, p := TakenBack(Flipped(pools)), BareAll(pools)[k];
    assert p.exposed && CoversPool(listed, p);
    FirstIsOurs(listed, p);
    BackApart(pools);
    var f := RoutesOf(listed, p.service)[0];
    assert f in back[k].routes && back[k].exposed;
    hide Writes, Want, RestatedAll, WrittenTo, RoutesOf, RoutesApart;
    WritesWanted(back, HeldOnly);
    WantAt(back, HeldOnly, k, f);
  }

  lemma MadeMeans(after: set<Container>, made: set<Container>, pools: seq<DeployPool>, rows: map<int, Table>, n: nat,
                  ws: seq<Write>, listed: seq<RouteRow>)
    requires n <= |Writes(Flipped(pools), Both)| && StoppedAsRead(after, made, RolledBack, rows, pools, n, ws, listed)
    requires made != {} && forall c :: c in made ==> IsIncoming(BareAll(pools), c)
    ensures IncomingStopped(after, BareAll(pools))
  {
    hide IsIncoming, Writes, Flipped, TakesOf, SwitchedAt, PutBackAt, FirstRow;
    assert (forall c :: c !in made) ==> made == {};
    var c :| c in made;
    assert IsIncoming(BareAll(pools), c);
    var k := PoolOfSide(BareAll(pools), c);
    assert pools[k].exposed && c.service == pools[k].service;
  }

  // ----- a crash between two pools of a switch

  ghost predicate StopsNewOf(stops: set<Container>, plans: seq<Plan>, j: nat, live: set<Container>) {
    forall k, x :: 0 <= k < j <= |plans| && plans[k].exposed && x in NewNumbers(plans[k], live) ==>
      Container(plans[k].service, x) in stops
  }

  ghost predicate StopsShown(stops: set<Container>, plans: seq<Plan>, j: nat, rows: map<int, Table>, listed: seq<RouteRow>) {
    forall k, x :: j <= k < |plans| && plans[k].exposed && x in ActiveIn(FirstRow(rows, listed, plans[k].service)) ==>
      Container(plans[k].service, x) in stops
  }

  /**
   In its switch, when the first `j` services are recorded and no other: a resumed rollback stops
   every new replica of the first ones and every old one that the routes of the others show.
   */
  method SwitchThenRollback(m: World, policy: Watch.Policy, plans: seq<Plan>, listed: seq<RouteRow>, j: nat)
    requires m.calm && WellPlanned(plans, listed) && 0.0 <= policy.maxRate < 1.0 && j <= |plans|
    requires m.writes == [] && m.stops == {} && m.gone == {} && m.started == {}
    modifies m
    ensures StopsNewOf(m.stops, plans, j, old(m.running)) && StopsShown(m.stops, plans, j, old(m.rows), listed)
  {
    hide WellPlanned, OfPlans, StopsNewOf, StopsShown, AsPlanned, PortsGiven, DistinctRoutes, Sound, Apart, IncomingPorted, Covers, BareAll,
         Writes, Flipped, StoppedAsRead, HeldSwitched, IncomingSwitched, HeldStopped, IncomingStopped, Settled;
    ghost var live := m.running;
    var run := Prepared(m, policy, plans, listed);
    OfPlansHas(run.sides, plans, live, m.started);
    PlannedLists(plans, listed);
    ghost var was, rows := run.pools, m.rows;
    BareWellFormed(was);
    PlannedLength(was, plans, live);
    var half := CountWrites(run.pools[..j]);
    FlippedLength(was);
    FlippedCount(was, j);
    var next, n := CrashInSwitch(run, half, listed, [BreachBeat()]);
    PrefixOf(Flipped(was), j);
    HalfStopped(m.stops, rows, was, j, listed, plans, live);
  }

  lemma PlannedLength(pools: seq<DeployPool>, plans: seq<Plan>, live: set<Container>)
    requires AsPlanned(BareAll(pools), plans, live)
    ensures |pools| == |plans|
  {
  }

  lemma FlippedLength(pools: seq<DeployPool>)
    ensures |Flipped(pools)| == |pools|
  {
  }

  lemma FlippedCount(pools: seq<DeployPool>, j: nat)
    requires j <= |pools| == |Flipped(pools)|
    ensures |Writes(Flipped(pools)[..j], Both)| == |Writes(pools[..j], Both)|
  {
    SameCount(Flipped(pools)[..j], Both, pools[..j], Both);
  }

  lemma {:induction false} PrefixOf(pools: seq<DeployPool>, j: nat)
    requires j <= |pools|
    ensures Writes(pools[..j], Both) <= Writes(pools, Both)
  {
    hide TableOf;
    if j < |pools| {
      var n := |pools| - 1;
      PrefixOf(pools[..n], j);
      assert pools[..n][..j] == pools[..j];
    } else {
      assert pools[..j] == pools;
    }
  }

  /** The first listed route of a service is written by the first `j` pools if and only if its pool is one of them. */
  lemma SwitchedIffBefore(pools: seq<DeployPool>, j: nat, listed: seq<RouteRow>, k: nat)
    requires Apart(pools) && Covers(listed, BareAll(pools)) && k < |pools| && pools[k].exposed
    requires j <= |pools| == |Flipped(pools)| && Writes(Flipped(pools)[..j], Both) <= Writes(Flipped(pools), Both)
    ensures SwitchedAt(pools, |Writes(Flipped(pools)[..j], Both)|, listed, k) <==> k < j
  {
    var final := Flipped(pools);
    var first := final[..j];
    var f := FirstFlipped(pools, listed, k);
    assert RoutesApart(first) && Writes(final, Both)[..|Writes(first, Both)|] == Writes(first, Both);
    hide Writes, Want, RestatedAll, RoutesOf, Flipped, WrittenTo;
    WritesWanted(first, Both);
    if k < j {
      assert first[k] == final[k];
      WantAt(first, Both, k, f);
    } else {
      WrittenOnce(final, j, k, f);
    }
  }

  lemma FirstFlipped(pools: seq<DeployPool>, listed: seq<RouteRow>, k: nat) returns (f: int)
    requires Apart(pools) && Covers(listed, BareAll(pools)) && k < |pools| && pools[k].exposed
    ensures RoutesOf(listed, pools[k].service) != [] && f == RoutesOf(listed, pools[k].service)[0]
    ensures |Flipped(pools)| == |pools| && Flipped(pools)[k].exposed && f in Flipped(pools)[k].routes
    ensures RoutesApart(Flipped(pools))
  {
    var p := BareAll(pools)[k];
    assert p.exposed && CoversPool(listed, p);
    FirstIsOurs(listed, p);
    RestatedSides(pools, Some(RActive), Some(RDraining));
    ApartRoutes(Flipped(pools));
    f := RoutesOf(listed, p.service)[0];
  }

  lemma WrittenOnce(pools: seq<DeployPool>, j: nat, k: nat, f: int)
    requires RoutesApart(pools) && j <= k < |pools| && pools[k].exposed && f in pools[k].routes
    requires WrittenFrom(Writes(pools[..j], Both), Want(pools[..j], Both))
    ensures !WrittenTo(Writes(pools[..j], Both), f)
  {
    hide Writes, Want, RoutesApart;
    var ws := Writes(pools[..j], Both);
    NotWanted(pools, j, k, f);
    forall i | 0 <= i < |ws| ensures ws[i].route != f {
      assert ws[i] in ws;
    }
  }

  lemma NotWanted(pools: seq<DeployPool>, j: nat, k: nat, f: int)
    requires RoutesApart(pools) && j <= k < |pools| && pools[k].exposed && f in pools[k].routes
    ensures f !in Want(pools[..j], Both)
  {
    hide Want;
    if f in Want(pools[..j], Both) {
      WantOnly(pools[..j], Both, f);
      assert false;
    }
  }

  lemma HalfStopped(after: set<Container>, rows: map<int, Table>, pools: seq<DeployPool>, j: nat, listed: seq<RouteRow>,
                    plans: seq<Plan>, live: set<Container>)
    requires AsPlanned(BareAll(pools), plans, live) && Apart(pools) && Covers(listed, BareAll(pools))
    requires j <= |pools| == |Flipped(pools)| && Writes(Flipped(pools)[..j], Both) <= Writes(Flipped(pools), Both)
    requires StoppedAsRead(after, {}, RolledBack, rows, pools, |Writes(Flipped(pools)[..j], Both)|, [], listed)
    ensures StopsNewOf(after, plans, j, live) && StopsShown(after, plans, j, rows, listed)
  {
    var was := BareAll(pools);
    assert |plans| == |pools|;
    hide HeldAsRan, Wanted, Apart, Covers, Writes, Flipped, SwitchedAt, Ported, FirstRow, ActiveIn, HeldIn, NewNumbers, LaidOut,
         RoutesOf;
    forall k, x | 0 <= k < |plans| && plans[k].exposed
      ensures k < j && x in NewNumbers(plans[k], live) ==> Container(plans[k].service, x) in after
      ensures j <= k && x in ActiveIn(FirstRow(rows, listed, plans[k].service)) ==> Container(plans[k].service, x) in after
    {
      assert PlannedPool(was[k], plans[k]);
      SwitchedIffBefore(pools, j, listed, k);
      SidesByNumber(was, plans, live, k);
      PortsOf(pools, k);
      var c := Container(plans[k].service, x);
      assert pools[k].exposed && c.service == pools[k].service;
      assert !PutBackAt([], listed, c.service);
    }
  }

  // ----- two of them in full

  function PlanOf(service: string, route: int): Plan { Plan(service, [route], true, 1, i => 8000 + i) }

  /** Replica 1, active, alone. */
  function OldRow(): Table { TableOf([Replica(1, 8001, RActive)]) }

  lemma OldRowShows()
    ensures ActiveIn(OldRow()) == {1}
  {
    var reps := [Replica(1, 8001, RActive)];
    assert reps[..0] == [] && TableOf(reps) == map[1 := Row(8001, Active)];
  }

  /** With replica 1 running, replica 2 is brought up. */
  lemma SecondIsFree(service: string, live: set<Container>)
    requires Container(service, 1) in live && forall c :: c in live && c.service == service ==> c.index == 1
    ensures Replicas.Free(NumbersOf(service, live), 1, 1) == [2]
    ensures forall route :: 2 in NewNumbers(PlanOf(service, route), live)
  {
    assert NumbersOf(service, live) == {1};
    assert {1} - {1} == {};
    assert Replicas.Free({1}, 1, 1) == Replicas.Free({}, 2, 1) == [2] + Replicas.Free({}, 3, 0);
  }

  lemma ListedOne(service: string)
    ensures WellPlanned([PlanOf(service, 1)], [RouteRow(1, service)])
  {
    RoutesOfMore([], RouteRow(1, service), service);
    assert [] + [RouteRow(1, service)] == [RouteRow(1, service)];
    assert RoutesOf([RouteRow(1, service)], service) == [1];
  }

  /**
   One service, one replica: it is deployed, watched, promoted, interrupted after its one stop,
   resumed from its rows and rolled back. Both the old replica and the new one are stopped.
   */
  method BothSidesStopped() returns (m: World)
    ensures fresh(m) && Container("web", 1) in m.stops && Container("web", 2) in m.stops
  {
    hide WellPlanned, StopsOldAndNew, StartsFree, NumbersOf, Replicas.Free;
    var web := "web";
    var plan := PlanOf(web, 1);
    m := new World(map[1 := OldRow()], {Container(web, 1)}, 1, true);
    ListedOne(web);
    SecondIsFree(web, m.running);
    assert [plan][0].exposed && Container([plan][0].service, 1) in m.running;
    PromotionThenRollback(m, Watch.Policy(60, false, 0.5), [plan], [RouteRow(1, web)], 1, 0);
    OneOfEach(m.stops, web, m.started);
  }

  lemma OneOfEach(stops: set<Container>, service: string, started: set<Container>)
    requires StopsOldAndNew(stops, {Container(service, 1)}, started)
    requires StartsFree(started, [PlanOf(service, 1)], {Container(service, 1)})
    requires Replicas.Free(NumbersOf(service, {Container(service, 1)}), 1, 1) == [2]
    ensures Container(service, 1) in stops && Container(service, 2) in stops
  {
    hide NumbersOf, Replicas.Free;
    var c :| c in stops && c in started;
    assert FreeIn([PlanOf(service, 1)], {Container(service, 1)}, c);
    assert c == Container(service, 2);
  }

  lemma ListedTwo(s: string, t: string)
    requires s != t
    ensures WellPlanned([PlanOf(s, 1), PlanOf(t, 2)], [RouteRow(1, s), RouteRow(2, t)])
    ensures RoutesOf([RouteRow(1, s), RouteRow(2, t)], t) == [2]
  {
    var a, b := RouteRow(1, s), RouteRow(2, t);
    RoutesOfMore([], a, s);
    RoutesOfMore([a], b, s);
    RoutesOfMore([], a, t);
    RoutesOfMore([a], b, t);
    assert [] + [a] == [a] && [a] + [b] == [a, b];
    hide RoutesOf;
    var plans, listed := [PlanOf(s, 1), PlanOf(t, 2)], [a, b];
    forall k | 0 <= k < 2 ensures CoversPool(listed, NewPools(plans)[k]) {
      assert plans[k].routes == RoutesOf(listed, plans[k].service);
    }
  }

  /**
   Two services, one replica each: the new ones are brought up, the daemon dies after the first of
   the two writes of the switch, and the resumed deploy is rolled back. The new replica of the one
   service and the old replica of the other are stopped.
   */
  method HalfSwitchedStopped() returns (m: World)
    ensures fresh(m) && Container("web", 2) in m.stops && Container("api", 1) in m.stops
  {
    hide WellPlanned, StopsNewOf, StopsShown, NumbersOf, NewNumbers, Replicas.Free, ActiveIn, TableOf, RoutesOf;
    var web, api := "web", "api";
    assert web[0] != api[0];
    var plans, listed := [PlanOf(web, 1), PlanOf(api, 2)], [RouteRow(1, web), RouteRow(2, api)];
    m := new World(map[1 := OldRow(), 2 := OldRow()], {Container(web, 1), Container(api, 1)}, 1, true);
    ListedTwo(web, api);
    SecondIsFree(web, m.running);
    OldRowShows();
    ghost var live, rows := m.running, m.rows;
    SwitchThenRollback(m, Watch.Policy(60, false, 0.5), plans, listed, 1);
    HalfOfTwo(m.stops, plans, live, rows, listed);
  }

  lemma HalfOfTwo(stops: set<Container>, plans: seq<Plan>, live: set<Container>, rows: map<int, Table>, listed: seq<RouteRow>)
    requires |plans| == 2 && plans[0].exposed && plans[1].exposed
    requires StopsNewOf(stops, plans, 1, live) && StopsShown(stops, plans, 1, rows, listed)
    requires 2 in NewNumbers(plans[0], live) && 1 in ActiveIn(FirstRow(rows, listed, plans[1].service))
    ensures Container(plans[0].service, 2) in stops && Container(plans[1].service, 1) in stops
  {
  }
}
