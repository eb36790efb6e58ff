/** What follows for whole deploys: when the two sides share nothing, what runs after, and what is shown. */
module DeployTheorems {
  import opened Edge
  import opened Rows
  import opened Pools
  import opened World
  import opened Outcomes
  import opened Deploys
  import Replicas
  import Watch

  // ----- a service named twice

  /** An exposed service is named again after a first time that wants replicas. */
  ghost predicate NamedTwice(plans: seq<Plan>) {
    exists j, k :: 0 <= j < k < |plans| && plans[j].exposed && plans[k].exposed
                && plans[j].service == plans[k].service && plans[j].want > 0
  }

  /** The two sides of a deploy share a container if and only if it names an exposed service twice. */
  lemma SidesShareIffNamedTwice(pools: seq<DeployPool>, plans: seq<Plan>, live: set<Container>)
    requires Planned(pools, plans) && |pools| == |plans| && HeldAsRan(pools, live) && Wanted(pools, plans, live)
    requires forall c :: IsIncoming(pools, c) ==> c !in live
    ensures (exists c :: IsHeld(pools, c) && IsIncoming(pools, c)) <==> NamedTwice(plans)
  {
    hide Replicas.Free, NumbersOf;
    if NamedTwice(plans) {
      var j, k :| 0 <= j < k < |plans| && plans[j].exposed && plans[k].exposed
               && plans[j].service == plans[k].service && plans[j].want > 0;
      SecondHoldsFirst(pools, plans, live, j, k);
    }
    if c :| IsHeld(pools, c) && IsIncoming(pools, c) {
      HeldIncomingIsTwice(pools, plans, live, c);
    }
  }

  lemma SecondHoldsFirst(pools: seq<DeployPool>, plans: seq<Plan>, live: set<Container>, j: nat, k: nat)
    requires Planned(pools, plans) && |pools| == |plans| && HeldAsRan(pools, live) && Wanted(pools, plans, live)
    requires j < k < |plans| && plans[j].exposed && plans[k].exposed
    requires plans[j].service == plans[k].service && plans[j].want > 0
    ensures exists c :: IsHeld(pools, c) && IsIncoming(pools, c)
  {
    hide Replicas.Free, NumbersOf;
    assert WantedAt(pools, j, plans[j], live);
    var c := Container(pools[j].service, pools[j].incoming[0].index);
    assert pools[..k][j] == pools[j];
    assert IsIncoming(pools[..k], c) && IsIncoming(pools, c);
    assert RanFor(pools, k, live, c);
    assert Named(pools[k].service, pools[k].held, c);
    var i :| 0 <= i < |pools[k].held| && c == Container(pools[k].service, pools[k].held[i].index);
    assert IsHeld(pools, c);
  }

  lemma HeldIncomingIsTwice(pools: seq<DeployPool>, plans: seq<Plan>, live: set<Container>, c: Container)
    requires Planned(pools, plans) && |pools| == |plans| && HeldAsRan(pools, live) && Wanted(pools, plans, live)
    requires (forall d :: IsIncoming(pools, d) ==> d !in live) && IsHeld(pools, c) && IsIncoming(pools, c)
    ensures NamedTwice(plans)
  {
    hide Replicas.Free, NumbersOf;
    var k, i :| 0 <= k < |pools| && pools[k].exposed && 0 <= i < |pools[k].held|
             && c == Container(pools[k].service, pools[k].held[i].index);
    assert Named(pools[k].service, pools[k].held, c);
    assert RanFor(pools, k, live, c);
    var before := pools[..k];
    var j, l :| 0 <= j < |before| && before[j].exposed && 0 <= l < |before[j].incoming|
             && c == Container(before[j].service, before[j].incoming[l].index);
    assert before[j] == pools[j] && WantedAt(pools, j, plans[j], live);
  }

  /** A poll that sees nothing, and then a promote signal. */
  function PromoteBeat(): Watch.Beat { Watch.Beat(None, false, 0, 0, Watch.PromoteSignal) }

  lemma PromoteBeatPromotes(r: Watch.Run, noWatch: bool)
    requires !r.policy.manual
    ensures Watch.Life(r, noWatch, [PromoteBeat()]).verdict.Promoted?
  {
  }

  /**
   A service named twice: in a world in which nothing fails its promotion stops a replica it has
   just started, because the second pool holds what the first one brought up.
   */
  method NamedTwicePromoted(m: World, policy: Watch.Policy, plan: Plan) returns (run: DeployRun)
    requires m.calm && !policy.manual && plan.exposed && plan.want > 0 && PortsGiven([plan, plan])
    modifies m
    ensures fresh(run) && run.m == m && run.status == Promoted
    ensures exists c :: c in m.started && c in m.stops
  {
    hide Watch.Life, HeldAsRan, Wanted, Planned, IsHeld, IsIncoming, ShowsOneSide, Sound, IncomingPorted;
    run := new DeployRun(m, policy);
    ghost var live := m.running;
    var plans := [plan, plan];
    var e := run.RunDeploy(plans, false, [PromoteBeat()]);
    PromoteBeatPromotes(Watch.Run(policy, run.flippedAt, ZERO_TIME, false), false);
    assert plans[0].service == plans[1].service && plans[0].want > 0;
    SidesShareIffNamedTwice(run.sides, plans, live);
    ghost var c :| IsHeld(run.sides, c) && IsIncoming(run.sides, c);
    assert c in m.started && c in m.stops;
  }

  // ----- what runs after

  /**
   With every stop succeeding, what runs of a service after a deploy is its new replicas if it was
   promoted and what ran before if it was rolled back.
   */
  lemma EndsAsAfter(st: Status, live: set<Container>, before: map<int, Table>, t: Trace, sides: seq<DeployPool>,
                    plans: seq<Plan>, k: nat)
    requires SafeEnd(st, live, before, t, sides) && Apart(sides) && t.stops <= t.gone && (st == Promoted || st == RolledBack)
    requires st == Promoted ==> forall c :: IsHeld(sides, c) ==> c in t.stops
    requires |sides| == |plans| && Planned(sides, plans) && HeldAsRan(sides, live) && Wanted(sides, plans, live)
    requires k < |sides| && sides[k].exposed
    ensures NumbersOf(plans[k].service, t.running)
         == Replicas.After(NumbersOf(plans[k].service, live), plans[k].want, st == Promoted)
  {
    hide SafeEnd, HeldAsRan, Wanted, Replicas.Free;
    var s := plans[k].service;
    forall i
      ensures i in NumbersOf(s, t.running) <==>
              i in Replicas.After(NumbersOf(s, live), plans[k].want, st == Promoted)
    {
      InNumbers(s, t.running, i);
      InNumbers(s, live, i);
      if st == Promoted {
        RunsIffIncoming(live, before, t, sides, plans, k, i);
      } else {
        RunsIffRan(live, before, t, sides, Container(s, i));
      }
    }
  }

  lemma InNumbers(service: string, cs: set<Container>, i: int)
    ensures i in NumbersOf(service, cs) <==> i >= 1 && Container(service, i) in cs
  {
    if i in NumbersOf(service, cs) {
      var c :| c in cs && c.service == service && c.index >= 1 && c.index == i;
      assert c == Container(service, i);
    }
  }

  lemma RunsIffRan(live: set<Container>, before: map<int, Table>, t: Trace, sides: seq<DeployPool>, c: Container)
    requires SafeEnd(RolledBack, live, before, t, sides) && t.stops <= t.gone
    ensures c in t.running <==> c in live
  {
    hide IsHeld, IsIncoming, Sound, ShowsOneSide, IncomingPorted;
  }

  lemma RunsIffIncoming(live: set<Container>, before: map<int, Table>, t: Trace, sides: seq<DeployPool>,
                        plans: seq<Plan>, k: nat, i: int)
    requires SafeEnd(Promoted, live, before, t, sides) && Apart(sides) && t.stops <= t.gone
    requires forall c :: IsHeld(sides, c) ==> c in t.stops
    requires |sides| == |plans| && Planned(sides, plans) && HeldAsRan(sides, live) && Wanted(sides, plans, live)
    requires k < |sides| && sides[k].exposed
    ensures i >= 1 && Container(plans[k].service, i) in t.running <==>
            i in Replicas.SetOf(Replicas.Free(NumbersOf(plans[k].service, live), 1, plans[k].want))
  {
    var c := Container(plans[k].service, i);
    var free := Replicas.Free(NumbersOf(plans[k].service, live), 1, plans[k].want);
    IncomingIsFree(sides, plans, live, k, i);
    if i >= 1 && c in live { RanIsHeld(sides, live, k, c); }
    if i in free { IncomingUp(sides, k, c); }
    hide IsHeld, IsIncoming, Sound, Apart, ShowsOneSide, IncomingPorted, HeldAsRan, Wanted, Replicas.Free, NumbersOf;
    if c in t.running && i >= 1 {
      assert c in live || c in t.started;
      assert c in live ==> IsHeld(sides, c);
    }
  }

  lemma RanIsHeld(sides: seq<DeployPool>, live: set<Container>, k: nat, c: Container)
    requires HeldAsRan(sides, live) && k < |sides| && sides[k].exposed && c.service == sides[k].service && c.index >= 1 && c in live
    ensures IsHeld(sides, c)
  {
    assert RanFor(sides, k, live, c);
    var i :| 0 <= i < |sides[k].held| && c == Container(sides[k].service, sides[k].held[i].index);
  }

  lemma IncomingUp(sides: seq<DeployPool>, k: nat, c: Container)
    requires k < |sides| && sides[k].exposed && Named(sides[k].service, sides[k].incoming, c)
    ensures IsIncoming(sides, c)
  {
    var i :| 0 <= i < |sides[k].incoming| && c == Container(sides[k].service, sides[k].incoming[i].index);
  }

  lemma IncomingIsFree(sides: seq<DeployPool>, plans: seq<Plan>, live: set<Container>, k: nat, i: int)
    requires |sides| == |plans| && Planned(sides, plans) && Wanted(sides, plans, live) && Apart(sides)
    requires k < |sides| && sides[k].exposed
    ensures var free := Replicas.Free(NumbersOf(plans[k].service, live), 1, plans[k].want);
      && (i in free <==> Named(plans[k].service, sides[k].incoming, Container(plans[k].service, i)))
      && (IsIncoming(sides, Container(plans[k].service, i)) ==> i in free) && (i in free ==> i >= 1)
  {
    hide NumbersOf, Replicas.Free;
    var c := Container(plans[k].service, i);
    var free := Replicas.Free(NumbersOf(plans[k].service, live), 1, plans[k].want);
    assert WantedAt(sides, k, plans[k], live) && FirstNamed(sides, k);
    var inc := sides[k].incoming;
    assert Numbered(inc, free);
    if i in free {
      var j :| 0 <= j < |free| && free[j] == i;
      assert inc[j].index == i;
    }
    if IsIncoming(sides, c) {
      var l, j :| 0 <= l < |sides| && sides[l].exposed && 0 <= j < |sides[l].incoming|
               && c == Container(sides[l].service, sides[l].incoming[j].index);
      assert l == k;
      assert free[j] == i;
    }
  }

  // ----- what the rows show, by number

  /** The numbers that get a row: those the layout has a port for. */
  ghost function WithPort(plan: Plan, numbers: set<int>): set<int> {
    set i | i in numbers && plan.ports(i) > 0
  }

  /** What ran of a service before the deploy. */
  ghost function OldNumbers(plan: Plan, live: set<Container>): set<int> {
    WithPort(plan, NumbersOf(plan.service, live))
  }

  /** What the deploy brings up beside it. */
  ghost function NewNumbers(plan: Plan, live: set<Container>): set<int> {
    WithPort(plan, Replicas.SetOf(Replicas.Free(NumbersOf(plan.service, live), 1, plan.want)))
  }

  lemma PortedNumbers(reps: seq<Replica>, plan: Plan, x: int)
    requires forall i :: 0 <= i < |reps| ==> reps[i].port == plan.ports(reps[i].index)
    ensures x in Ported(reps) <==> plan.ports(x) > 0 && Named(plan.service, reps, Container(plan.service, x))
  {
    if x in Ported(reps) {
      var r :| r in reps && r.port > 0 && r.index == x;
      var i :| 0 <= i < |reps| && reps[i] == r;
    }
    if plan.ports(x) > 0 && Named(plan.service, reps, Container(plan.service, x)) {
      var i :| 0 <= i < |reps| && Container(plan.service, x) == Container(plan.service, reps[i].index);
      assert reps[i] in reps;
    }
  }

  /** The held side, where it has rows, is what ran; the incoming one is the lowest free numbers. */
  lemma SidesByNumber(sides: seq<DeployPool>, plans: seq<Plan>, live: set<Container>, k: nat)
    requires Planned(sides, plans) && |sides| == |plans| && HeldAsRan(sides, live) && Wanted(sides, plans, live) && Apart(sides)
    requires k < |sides| && sides[k].exposed
    ensures Ported(sides[k].held) == OldNumbers(plans[k], live)
    ensures Ported(sides[k].incoming) == NewNumbers(plans[k], live)
  {
    var plan := plans[k];
    assert PlannedPool(sides[k], plan);
    forall x ensures x in Ported(sides[k].held) <==> x in OldNumbers(plan, live) {
      PortedNumbers(sides[k].held, plan, x);
      HeldIsLive(sides, plans, live, k, x);
      InNumbers(plan.service, live, x);
    }
    forall x ensures x in Ported(sides[k].incoming) <==> x in NewNumbers(plan, live) {
      PortedNumbers(sides[k].incoming, plan, x);
      IncomingIsFree(sides, plans, live, k, x);
    }
  }

  lemma HeldIsLive(sides: seq<DeployPool>, plans: seq<Plan>, live: set<Container>, k: nat, x: int)
    requires Planned(sides, plans) && HeldAsRan(sides, live) && Apart(sides) && k < |sides| && sides[k].exposed
    ensures Named(plans[k].service, sides[k].held, Container(plans[k].service, x)) <==>
            x >= 1 && Container(plans[k].service, x) in live
  {
    var c := Container(plans[k].service, x);
    assert PlannedPool(sides[k], plans[k]);
    assert Named(sides[k].service, sides[k].held, c) <==> RanFor(sides, k, live, c);
    assert forall j :: 0 <= j < k ==> sides[..k][j] == sides[j];
    assert !IsIncoming(sides[..k], c);
  }

  // ----- the ends of a deploy, in terms of what was asked for

  ghost predicate OfPlan(plan: Plan, id: int) { plan.exposed && id in plan.routes }

  ghost predicate ShowsOld(rows: map<int, Table>, plans: seq<Plan>, live: set<Container>) {
    forall k, id :: 0 <= k < |plans| && OfPlan(plans[k], id) ==> id in rows && ActiveIn(rows[id]) == OldNumbers(plans[k], live)
  }

  ghost predicate ShowsNew(rows: map<int, Table>, plans: seq<Plan>, live: set<Container>) {
    forall k, id :: 0 <= k < |plans| && OfPlan(plans[k], id) ==> id in rows && ActiveIn(rows[id]) == NewNumbers(plans[k], live)
  }

  /** Every write to a route of the deploy shows exactly the new numbers, and from some point on exactly the old. */
  ghost predicate TurnsOnce(ws: seq<Write>, plans: seq<Plan>, live: set<Container>) {
    exists n: nat :: TurnsAt(ws, n, plans, live)
  }

  ghost predicate TurnsAt(ws: seq<Write>, n: nat, plans: seq<Plan>, live: set<Container>) {
    forall i, k :: 0 <= i < |ws| && 0 <= k < |plans| && OfPlan(plans[k], ws[i].route) ==>
      ActiveIn(ws[i].rows) == if i < n then NewNumbers(plans[k], live) else OldNumbers(plans[k], live)
  }

  /** No route of the deploy shows a mixture: it has the rows it had, or exactly the old numbers, or exactly the new. */
  ghost predicate Unmixed(before: map<int, Table>, rows: map<int, Table>, plans: seq<Plan>, live: set<Container>) {
    forall k, id :: 0 <= k < |plans| && OfPlan(plans[k], id) && id in rows ==>
      || (id in before && rows[id] == before[id])
      || ActiveIn(rows[id]) == OldNumbers(plans[k], live) || ActiveIn(rows[id]) == NewNumbers(plans[k], live)
  }

  /**
   How a deploy of `plans` that found `live` running and `before` recorded may end. It stops only
   what ran before, and then only if promoted, or only what it started; what is not stopped runs on;
   no route shows a mixture, and the rows show exactly the numbers of the side the status says.
   */
  ghost predicate EndsAsPlanned(st: Status, live: set<Container>, before: map<int, Table>, t: Trace, plans: seq<Plan>) {
    && t.started !! live
    && (if st == Promoted then t.stops <= live && t.started <= t.running else t.stops <= t.started && live <= t.running)
    && TurnsOnce(t.writes, plans, live) && Unmixed(before, t.rows, plans, live)
    && (st == Promoted || st == Watching ==> ShowsNew(t.rows, plans, live))
    && (st == RolledBack ==> ShowsOld(t.rows, plans, live))
    && (st == Failed && t.stored ==> t.rows == before || ShowsOld(t.rows, plans, live))
  }

  ghost predicate AsPlanned(sides: seq<DeployPool>, plans: seq<Plan>, live: set<Container>) {
    |sides| == |plans| && Planned(sides, plans) && HeldAsRan(sides, live) && Wanted(sides, plans, live) && Apart(sides)
  }

  lemma ShowsByNumber(rows: map<int, Table>, sides: seq<DeployPool>, plans: seq<Plan>, live: set<Container>)
    requires AsPlanned(sides, plans, live)
    ensures ShowsHeld(rows, sides) ==> ShowsOld(rows, plans, live)
    ensures ShowsIncoming(rows, sides) ==> ShowsNew(rows, plans, live)
  {
    hide ActiveIn, Ported, OldNumbers, NewNumbers, HeldAsRan, Wanted, Apart, LaidOut;
    forall k, id | 0 <= k < |plans| && OfPlan(plans[k], id)
      ensures ShowsHeld(rows, sides) ==> id in rows && ActiveIn(rows[id]) == OldNumbers(plans[k], live)
      ensures ShowsIncoming(rows, sides) ==> id in rows && ActiveIn(rows[id]) == NewNumbers(plans[k], live)
    {
      assert PlannedPool(sides[k], plans[k]);
      SidesByNumber(sides, plans, live, k);
    }
  }

  lemma WritesByNumber(ws: seq<Write>, sides: seq<DeployPool>, plans: seq<Plan>, live: set<Container>)
    requires AsPlanned(sides, plans, live) && OneTurn(ws, sides)
    ensures TurnsOnce(ws, plans, live)
  {
    hide ActiveIn, Ported, OldNumbers, NewNumbers, HeldAsRan, Wanted, Apart, LaidOut;
    var n :| 0 <= n <= |ws| && Forward(ws[..n], sides) && Back(ws[n..], sides);
    forall i, k | 0 <= i < |ws| && 0 <= k < |plans| && OfPlan(plans[k], ws[i].route)
      ensures ActiveIn(ws[i].rows) == if i < n then NewNumbers(plans[k], live) else OldNumbers(plans[k], live)
    {
      assert PlannedPool(sides[k], plans[k]);
      assert OfRoute(sides[k], ws[i].route);
      SidesByNumber(sides, plans, live, k);
      if i < n { assert ws[..n][i] == ws[i]; } else { assert ws[n..][i - n] == ws[i]; }
    }
    assert TurnsAt(ws, n, plans, live);
  }

  lemma RowsByNumber(before: map<int, Table>, rows: map<int, Table>, sides: seq<DeployPool>, plans: seq<Plan>, live: set<Container>)
    requires AsPlanned(sides, plans, live) && Whole(before, rows, sides)
    ensures Unmixed(before, rows, plans, live)
  {
    hide ActiveIn, Ported, OldNumbers, NewNumbers, HeldAsRan, Wanted, Apart, LaidOut;
    forall k, id | 0 <= k < |plans| && OfPlan(plans[k], id) && id in rows
      ensures || (id in before && rows[id] == before[id])
              || ActiveIn(rows[id]) == OldNumbers(plans[k], live) || ActiveIn(rows[id]) == NewNumbers(plans[k], live)
    {
      assert PlannedPool(sides[k], plans[k]);
      assert OfRoute(sides[k], id);
      SidesByNumber(sides, plans, live, k);
    }
  }

  /** With a port for every number, the old numbers are all that ran and the new ones all that was wanted. */
  lemma AllNumbers(plans: seq<Plan>, live: set<Container>, k: nat)
    requires PortsGiven(plans) && k < |plans| && plans[k].exposed
    ensures OldNumbers(plans[k], live) == NumbersOf(plans[k].service, live)
    ensures NewNumbers(plans[k], live) == Replicas.SetOf(Replicas.Free(NumbersOf(plans[k].service, live), 1, plans[k].want))
    ensures |NewNumbers(plans[k], live)| == plans[k].want && NewNumbers(plans[k], live) !! OldNumbers(plans[k], live)
  {
    var ran := NumbersOf(plans[k].service, live);
    var free := Replicas.Free(ran, 1, plans[k].want);
    Replicas.FreeIndexesAreFree(ran, 1, plans[k].want);
    assert forall i :: i in free ==> i >= 1;
    assert forall i :: i in ran ==> i >= 1;
    Replicas.Cardinality(free);
  }

  lemma NoWrites(plans: seq<Plan>, live: set<Container>)
    ensures TurnsOnce([], plans, live)
  {
    assert TurnsAt([], 0, plans, live);
  }

  /** A safe end of pools laid out as planned is an end as planned. */
  lemma SafeIsPlanned(st: Status, live: set<Container>, before: map<int, Table>, t: Trace, sides: seq<DeployPool>, plans: seq<Plan>)
    requires SafeEnd(st, live, before, t, sides) && Apart(sides)
    requires AsPlanned(sides, plans, live) || (st == Failed && t.rows == before && t.writes == [])
    ensures EndsAsPlanned(st, live, before, t, plans)
  {
    if AsPlanned(sides, plans, live) {
      WritesByNumber(t.writes, sides, plans, live);
      RowsByNumber(before, t.rows, sides, plans, live);
      if st == Promoted || st == Watching { IncomingShown(st, before, t, sides); }
      ShowsByNumber(t.rows, sides, plans, live);
    } else {
      NoWrites(plans, live);
    }
    if st == Promoted {
      NewSurvives(live, before, t, sides);
    } else {
      OldSurvives(st, live, before, t, sides);
      StopsStarted(st, live, before, t, sides);
    }
    StartedApart(st, live, before, t, sides);
    hide SafeEnd, TurnsOnce, Unmixed, ShowsOld, ShowsNew, ShowsHeld, ShowsIncoming, AsPlanned, Apart;
    if st == RolledBack || st == Failed { HeldShown(st, live, before, t, sides); }
  }

  lemma IncomingShown(st: Status, before: map<int, Table>, t: Trace, sides: seq<DeployPool>)
    requires ShowsOneSide(st, before, t, sides) && (st == Promoted || st == Watching)
    ensures ShowsIncoming(t.rows, sides)
  {
    if st == Watching { SwitchedShows(t.rows, sides); }
  }

  lemma HeldShown(st: Status, live: set<Container>, before: map<int, Table>, t: Trace, sides: seq<DeployPool>)
    requires SafeEnd(st, live, before, t, sides) && Apart(sides) && (st == RolledBack || st == Failed)
    ensures st == RolledBack || t.stored ==> (st == Failed && t.rows == before) || ShowsHeld(t.rows, sides)
  {
    hide Sound, SafeStops, Apart, OneTurn, Whole, ShowsHeld;
  }

  lemma StopsStarted(st: Status, live: set<Container>, before: map<int, Table>, t: Trace, sides: seq<DeployPool>)
    requires SafeEnd(st, live, before, t, sides) && st != Promoted
    ensures t.stops <= t.started
  {
    hide Sound, Apart, ShowsOneSide, IsHeld, IsIncoming, IncomingPorted;
  }

  lemma StartedApart(st: Status, live: set<Container>, before: map<int, Table>, t: Trace, sides: seq<DeployPool>)
    requires SafeEnd(st, live, before, t, sides)
    ensures t.started !! live
  {
    hide Sound, Apart, ShowsOneSide, IsHeld, IsIncoming, IncomingPorted;
  }

  // ----- the rows to the letter

  /** Every route of the deploy lists exactly these numbers, with the layout's ports and these states; `None` leaves a side out. */
  ghost predicate Records(rows: map<int, Table>, plans: seq<Plan>, live: set<Container>, incoming: Option<TargetState>,
                          held: Option<TargetState>) {
    forall k, id :: 0 <= k < |plans| && OfPlan(plans[k], id) ==>
      id in rows && RecordsOf(rows[id], plans[k], live, incoming, held)
  }

  ghost predicate RecordsOf(t: Table, plan: Plan, live: set<Container>, incoming: Option<TargetState>, held: Option<TargetState>) {
    && (forall i :: i in t <==> (incoming.Some? && i in NewNumbers(plan, live)) || (held.Some? && i in OldNumbers(plan, live)))
    && (forall i :: incoming.Some? && i in NewNumbers(plan, live) && i in t ==> t[i] == Row(plan.ports(i), incoming.value))
    && (forall i :: held.Some? && i in OldNumbers(plan, live) && i in t ==> t[i] == Row(plan.ports(i), held.value))
  }

  function TargetOf(st: Option<ReplicaState>): Option<TargetState> {
    if st.Some? then Some(st.value.Target()) else None
  }

  lemma FacedDistinct(p: DeployPool, incoming: Option<ReplicaState>, held: Option<ReplicaState>)
    requires PoolOk(p)
    ensures DistinctIndexes(Faced(p, incoming, held))
  {
    var all, some := p.incoming + p.held, Faced(p, incoming, held);
    var d := if incoming.Some? then 0 else |p.incoming|;
    assert forall i :: 0 <= i < |some| ==> i + d < |all| && some[i].index == all[i + d].index;
  }

  lemma FacedIncoming(p: DeployPool, plan: Plan, incoming: ReplicaState, held: Option<ReplicaState>, i: int) returns (r: Replica)
    requires PlannedPool(p, plan) && i in Ported(p.incoming)
    ensures r in Faced(p, Some(incoming), held) && r == Replica(i, plan.ports(i), incoming) && r.port > 0
  {
    var q :| q in p.incoming && q.port > 0 && q.index == i;
    var j :| 0 <= j < |p.incoming| && p.incoming[j] == q;
    r := Faced(p, Some(incoming), held)[j];
  }

  lemma FacedHeld(p: DeployPool, plan: Plan, incoming: Option<ReplicaState>, held: ReplicaState, i: int) returns (r: Replica)
    requires PlannedPool(p, plan) && i in Ported(p.held)
    ensures r in Faced(p, incoming, Some(held)) && r == Replica(i, plan.ports(i), held) && r.port > 0
  {
    var q :| q in p.held && q.port > 0 && q.index == i;
    var j :| 0 <= j < |p.held| && p.held[j] == q;
    r := Faced(p, incoming, Some(held))[(if incoming.Some? then |p.incoming| else 0) + j];
  }

  /** What a table of a pool's sides has, number by number. */
  lemma FacedRows(p: DeployPool, plan: Plan, incoming: Option<ReplicaState>, held: Option<ReplicaState>, i: int)
    requires PoolOk(p) && PlannedPool(p, plan)
    ensures var t := TableOf(Faced(p, incoming, held));
      && (i in t <==> (incoming.Some? && i in Ported(p.incoming)) || (held.Some? && i in Ported(p.held)))
      && (incoming.Some? && i in Ported(p.incoming) ==> i in t && t[i] == Row(plan.ports(i), incoming.value.Target()))
      && (held.Some? && i in Ported(p.held) ==> i in t && t[i] == Row(plan.ports(i), held.value.Target()))
  {
    FacedDistinct(p, incoming, held);
    TableShape(Faced(p, incoming, held));
    hide TableOf, Faced, PlannedPool, PoolOk, Ported;
    if incoming.Some? && i in Ported(p.incoming) { var r := FacedIncoming(p, plan, incoming.value, held, i); }
    if held.Some? && i in Ported(p.held) { var r := FacedHeld(p, plan, incoming, held.value, i); }
    if i in TableOf(Faced(p, incoming, held)) { FacedFrom(p, incoming, held, i); }
  }

  lemma FacedFrom(p: DeployPool, incoming: Option<ReplicaState>, held: Option<ReplicaState>, i: int)
    requires exists r :: r in Faced(p, incoming, held) && r.port > 0 && r.index == i
    ensures (incoming.Some? && i in Ported(p.incoming)) || (held.Some? && i in Ported(p.held))
  {
    var all := Faced(p, incoming, held);
    var r :| r in all && r.port > 0 && r.index == i;
    var j :| 0 <= j < |all| && all[j] == r;
    var d := if incoming.Some? then |p.incoming| else 0;
    if j < d {
      assert p.incoming[j] in p.incoming && p.incoming[j].index == i;
    } else {
      assert p.held[j - d] in p.held && p.held[j - d].index == i;
    }
  }

  lemma ExactByNumber(rows: map<int, Table>, sides: seq<DeployPool>, plans: seq<Plan>, live: set<Container>,
                      incoming: Option<ReplicaState>, held: Option<ReplicaState>)
    requires AsPlanned(sides, plans, live) && Sound(sides) && Exactly(rows, sides, incoming, held)
    ensures Records(rows, plans, live, TargetOf(incoming), TargetOf(held))
  {
    hide HeldAsRan, Wanted, Apart, LaidOut, OldNumbers, NewNumbers, Ported, TableOf, Faced, PoolOk;
    forall k, id | 0 <= k < |plans| && OfPlan(plans[k], id)
      ensures id in rows && RecordsOf(rows[id], plans[k], live, TargetOf(incoming), TargetOf(held))
    {
      assert PlannedPool(sides[k], plans[k]);
      assert OfRoute(sides[k], id);
      SidesByNumber(sides, plans, live, k);
      forall i
        ensures var t := TableOf(Faced(sides[k], incoming, held));
          && (i in t <==> (incoming.Some? && i in Ported(sides[k].incoming)) || (held.Some? && i in Ported(sides[k].held)))
          && (incoming.Some? && i in Ported(sides[k].incoming) ==> i in t && t[i] == Row(plans[k].ports(i), incoming.value.Target()))
          && (held.Some? && i in Ported(sides[k].held) ==> i in t && t[i] == Row(plans[k].ports(i), held.value.Target()))
      {
        FacedRows(sides[k], plans[k], incoming, held, i);
      }
    }
  }

  /**
   The rows a deploy leaves with a Store that answers. Watched: the new numbers active and the old ones
   held. Promoted: the new ones alone, once a stop succeeded. Rolled back: the old ones alone, active.
   Failed: what there was, the old ones alone, or the old ones active beside the new on their way out.
   */
  ghost predicate RecordsAsPlanned(st: Status, live: set<Container>, before: map<int, Table>, t: Trace, plans: seq<Plan>) {
    t.stored ==>
      match st
      case Promoted => Records(t.rows, plans, live, Some(Active), if t.gone == {} then Some(Held) else None)
      case RolledBack => Records(t.rows, plans, live, None, Some(Active))
      case Failed =>
        || t.rows == before || Records(t.rows, plans, live, None, Some(Active))
        || Records(t.rows, plans, live, Some(Draining), Some(Active))
      case _ => Records(t.rows, plans, live, Some(Active), Some(Held))
  }

  lemma ExactIsPlanned(st: Status, live: set<Container>, before: map<int, Table>, t: Trace, sides: seq<DeployPool>, plans: seq<Plan>)
    requires ExactEnd(st, before, t, sides) && Sound(sides) && Apart(sides)
    requires AsPlanned(sides, plans, live) || (st == Failed && t.rows == before)
    ensures RecordsAsPlanned(st, live, before, t, plans)
  {
    hide AsPlanned, Sound, Apart, Exactly, Records;
    if AsPlanned(sides, plans, live) && t.stored {
      if Exactly(t.rows, sides, Some(RActive), Some(RHeld)) { ExactByNumber(t.rows, sides, plans, live, Some(RActive), Some(RHeld)); }
      if Exactly(t.rows, sides, Some(RActive), None) { ExactByNumber(t.rows, sides, plans, live, Some(RActive), None); }
      if Exactly(t.rows, sides, None, Some(RActive)) { ExactByNumber(t.rows, sides, plans, live, None, Some(RActive)); }
      if Exactly(t.rows, sides, Some(RDraining), Some(RActive)) {
        ExactByNumber(t.rows, sides, plans, live, Some(RDraining), Some(RActive));
      }
    }
  }

  lemma SafeIsSound(st: Status, live: set<Container>, before: map<int, Table>, t: Trace, sides: seq<DeployPool>)
    requires SafeEnd(st, live, before, t, sides)
    ensures Sound(sides)
  {
  }

  /**
   Every deploy of services named once, through every failure and every hand-off, ends as planned: no
   run stops both what ran and what it started, per exposed route the active set is exactly the old
   numbers or exactly the new ones, never a mixture, and with a Store that answers every row is as
   the status says.
   */
  method Deploy(m: World, policy: Watch.Policy, plans: seq<Plan>, noWatch: bool, beats: seq<Watch.Beat>)
    returns (run: DeployRun, e: Option<Watch.Ended>)
    modifies m
    ensures fresh(run) && run.m == m
    ensures NamedOnce(plans) && RoutesByService(plans) ==>
      && EndsAsPlanned(run.status, old(m.running), old(m.rows), TraceOf(m), plans)
      && RecordsAsPlanned(run.status, old(m.running), old(m.rows), TraceOf(m), plans)
  {
    hide SafeEnd, Apart, Planned, HeldAsRan, Wanted, NamedOnce, RoutesByService, EndsAsPlanned, IsHeld, Own, Watch.Life, Sound,
         ExactEnd, RecordsAsPlanned;
    ghost var live, before := m.running, m.rows;
    run := new DeployRun(m, policy);
    e := run.RunDeploy(plans, noWatch, beats);
    if NamedOnce(plans) && RoutesByService(plans) {
      SafeIsSound(run.status, live, before, TraceOf(m), run.sides);
      SafeIsPlanned(run.status, live, before, TraceOf(m), run.sides, plans);
      ExactIsPlanned(run.status, live, before, TraceOf(m), run.sides, plans);
    }
  }

  // ----- what the edge is shown

  /** The targets of a route, as they are pushed from its rows. */
  function Pushed(rows: seq<Listed>): (ts: seq<Target>)
    ensures |ts| == |rows|
    ensures forall i :: 0 <= i < |rows| ==>
      ts[i] == Target(rows[i].index, rows[i].row.port, rows[i].row.state, 0, ZERO_TIME, "")
  {
    seq(|rows|, i requires 0 <= i < |rows| => Target(rows[i].index, rows[i].row.port, rows[i].row.state, 0, ZERO_TIME, ""))
  }

  /** Both pools of a service together are targets the edge accepts: each valid, no replica twice. */
  lemma BothPoolsAreAccepted(p: DeployPool, rows: seq<Listed>)
    requires PoolOk(p) && Rows.Lists(rows, TableOf(p.incoming + p.held))
    requires forall r :: r in p.incoming + p.held ==> r.index >= 1 && r.port <= 65535
    ensures (forall t :: t in Pushed(rows) ==> ValidTarget(t)) && DistinctReplicas(Pushed(rows))
  {
    var reps := p.incoming + p.held;
    TableShape(reps);
    forall t | t in Pushed(rows) ensures ValidTarget(t) {
      var i :| 0 <= i < |rows| && Pushed(rows)[i] == t;
      assert rows[i].index in TableOf(reps);
      var r :| r in reps && r.port > 0 && r.index == rows[i].index;
      assert rows[i].row == Row(r.port, r.state.Target());
    }
  }
}
