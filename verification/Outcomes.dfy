/** What a deploy may do to its two pools: the rows it writes, the containers it stops. */
module Outcomes {
  import opened Edge
  import opened Rows
  import opened Pools
  import opened World

  // ----- pools with other states

  /** An exposed pool with the states of a side replaced; `None` leaves a side as it is. */
  function Restated(p: DeployPool, incoming: Option<ReplicaState>, held: Option<ReplicaState>): DeployPool {
    if !p.exposed then p
    else
      p.(incoming := if incoming.Some? then WithState(p.incoming, incoming.value) else p.incoming,
         held := if held.Some? then WithState(p.held, held.value) else p.held)
  }

  function RestatedAll(pools: seq<DeployPool>, incoming: Option<ReplicaState>, held: Option<ReplicaState>): (r: seq<DeployPool>)
    ensures |r| == |pools| && forall k :: 0 <= k < |pools| ==> r[k] == Restated(pools[k], incoming, held)
  {
    seq(|pools|, k requires 0 <= k < |pools| => Restated(pools[k], incoming, held))
  }

  lemma RestatedBare(p: DeployPool, incoming: Option<ReplicaState>, held: Option<ReplicaState>)
    ensures Bare(Restated(p, incoming, held)) == Bare(p)
  {
    var q := Restated(p, incoming, held);
    assert WithState(q.incoming, RStarting) == WithState(p.incoming, RStarting);
    assert WithState(q.held, RStarting) == WithState(p.held, RStarting);
  }

  /** New states leave the sides as they are. */
  lemma RestatedSides(pools: seq<DeployPool>, incoming: Option<ReplicaState>, held: Option<ReplicaState>)
    ensures BareAll(RestatedAll(pools, incoming, held)) == BareAll(pools)
    ensures Sound(RestatedAll(pools, incoming, held)) <==> Sound(pools)
    ensures Apart(RestatedAll(pools, incoming, held)) <==> Apart(pools)
  {
    hide Sound, Apart, Bare, Restated;
    var r := RestatedAll(pools, incoming, held);
    forall k | 0 <= k < |pools| ensures BareAll(r)[k] == BareAll(pools)[k] {
      RestatedBare(pools[k], incoming, held);
    }
    assert BareAll(r) == BareAll(pools);
    BareWellFormed(r);
    BareWellFormed(pools);
  }

  // ----- whole sides

  ghost predicate OfRoute(p: DeployPool, id: int) { p.exposed && id in p.routes }

  /** Every write is to a route of an exposed pool and shows that pool's incoming side, whole. */
  ghost predicate Forward(ws: seq<Write>, pools: seq<DeployPool>) {
    forall i, k :: 0 <= i < |ws| && 0 <= k < |pools| && OfRoute(pools[k], ws[i].route) ==>
      ActiveIn(ws[i].rows) == Ported(pools[k].incoming)
  }

  ghost predicate Back(ws: seq<Write>, pools: seq<DeployPool>) {
    forall i, k :: 0 <= i < |ws| && 0 <= k < |pools| && OfRoute(pools[k], ws[i].route) ==>
      ActiveIn(ws[i].rows) == Ported(pools[k].held)
  }

  /** Traffic turns to the incoming side at most once, and back at most once. */
  ghost predicate OneTurn(ws: seq<Write>, pools: seq<DeployPool>) {
    exists n :: 0 <= n <= |ws| && Forward(ws[..n], pools) && Back(ws[n..], pools)
  }

  lemma ForwardIsOneTurn(ws: seq<Write>, pools: seq<DeployPool>)
    requires Forward(ws, pools)
    ensures OneTurn(ws, pools)
  {
    assert ws[..|ws|] == ws;
  }

  lemma TurnsBack(a: seq<Write>, b: seq<Write>, pools: seq<DeployPool>)
    requires a <= b && Forward(a, pools) && Back(b[|a|..], pools)
    ensures OneTurn(b, pools)
  {
    assert b[..|a|] == a;
  }

  lemma ForwardTwice(a: seq<Write>, b: seq<Write>, pools: seq<DeployPool>)
    requires a <= b && Forward(a, pools) && Forward(b[|a|..], pools)
    ensures Forward(b, pools)
  {
    forall i, k | 0 <= i < |b| && 0 <= k < |pools| && OfRoute(pools[k], b[i].route)
      ensures ActiveIn(b[i].rows) == Ported(pools[k].incoming)
    {
      assert i >= |a| ==> b[i] == b[|a|..][i - |a|];
    }
  }

  lemma BackTwice(a: seq<Write>, b: seq<Write>, n: nat, pools: seq<DeployPool>)
    requires n <= |a| && a <= b && Back(a[n..], pools) && Back(b[|a|..], pools)
    ensures Back(b[n..], pools)
  {
    var ws := b[n..];
    forall i, k | 0 <= i < |ws| && 0 <= k < |pools| && OfRoute(pools[k], ws[i].route)
      ensures ActiveIn(ws[i].rows) == Ported(pools[k].held)
    {
      assert n + i < |a| ==> ws[i] == a[n..][i];
      assert n + i >= |a| ==> ws[i] == b[|a|..][n + i - |a|];
    }
  }

  lemma WrittenForward(ws: seq<Write>, want: map<int, Table>, pools: seq<DeployPool>)
    requires WrittenFrom(ws, want) && ShowsIncoming(want, pools)
    ensures Forward(ws, pools)
  {
    hide ActiveIn, Ported;
    assert forall i :: 0 <= i < |ws| ==> ws[i] in ws;
  }

  lemma WrittenBack(ws: seq<Write>, want: map<int, Table>, pools: seq<DeployPool>)
    requires WrittenFrom(ws, want) && ShowsHeld(want, pools)
    ensures Back(ws, pools)
  {
    hide ActiveIn, Ported;
    assert forall i :: 0 <= i < |ws| ==> ws[i] in ws;
  }

  /** Every route has the rows it had, or rows that show one whole side. */
  ghost predicate Whole(before: map<int, Table>, rows: map<int, Table>, pools: seq<DeployPool>) {
    && before.Keys <= rows.Keys
    && forall k, id :: 0 <= k < |pools| && OfRoute(pools[k], id) && id in rows ==>
      (id in before && rows[id] == before[id]) || WholeSide(rows[id], pools[k])
  }

  lemma WholeKept(a: map<int, Table>, b: map<int, Table>, c: map<int, Table>, want: map<int, Table>, pools: seq<DeployPool>)
    requires Whole(a, b, pools) && Recorded(b, c, want) && (ShowsIncoming(want, pools) || ShowsHeld(want, pools))
    ensures Whole(a, c, pools)
  {
    hide ActiveIn, Ported;
  }

  lemma ShowsHeldKept(a: map<int, Table>, b: map<int, Table>, want: map<int, Table>, pools: seq<DeployPool>)
    requires Recorded(a, b, want) && ShowsHeld(want, pools) && (ShowsHeld(a, pools) || RecordedAll(b, want))
    ensures ShowsHeld(b, pools)
  {
    hide ActiveIn, Ported;
  }

  lemma ShowsIncomingKept(a: map<int, Table>, b: map<int, Table>, want: map<int, Table>, pools: seq<DeployPool>)
    requires Recorded(a, b, want) && ShowsIncoming(want, pools) && (ShowsIncoming(a, pools) || RecordedAll(b, want))
    ensures ShowsIncoming(b, pools)
  {
    hide ActiveIn, Ported;
  }

  lemma SwitchedKept(a: map<int, Table>, b: map<int, Table>, want: map<int, Table>, pools: seq<DeployPool>)
    requires Recorded(a, b, want) && Switched(want, pools) && (Switched(a, pools) || RecordedAll(b, want))
    ensures Switched(b, pools)
  {
    hide ActiveIn, HeldIn, Ported, AllPorted;
  }

  /** Rows show what they show of the sides, whatever the states of the replicas. */
  lemma BareShows(rows: map<int, Table>, pools: seq<DeployPool>)
    ensures ShowsIncoming(rows, BareAll(pools)) <==> ShowsIncoming(rows, pools)
    ensures ShowsHeld(rows, BareAll(pools)) <==> ShowsHeld(rows, pools)
    ensures Switched(rows, BareAll(pools)) <==> Switched(rows, pools)
  {
    hide ActiveIn, HeldIn, Ported, AllPorted;
    var b := BareAll(pools);
    forall k | 0 <= k < |pools|
      ensures b[k].exposed == pools[k].exposed && b[k].routes == pools[k].routes
      ensures Ported(b[k].incoming) == Ported(pools[k].incoming) && Ported(b[k].held) == Ported(pools[k].held)
    {
      BareKeepsPorts(pools[k]);
    }
  }

  // ----- what each write of a deploy shows

  /** Rows of serving pools show the incoming side, and tell the sides apart. */
  lemma ServingWants(pools: seq<DeployPool>)
    requires WellFormed(pools) && AllServing(pools)
    ensures Switched(Want(pools, Both), BareAll(pools)) && ShowsIncoming(Want(pools, Both), BareAll(pools))
  {
    hide Want, Switched, ShowsIncoming, Sound, Apart, Serving;
    WantServing(pools);
    BareShows(Want(pools, Both), pools);
  }

  /** The pools of a flip serve; so do those of a hold. */
  lemma FlipServes(pools: seq<DeployPool>)
    ensures AllServing(RestatedAll(pools, Some(RActive), Some(RDraining)))
    ensures AllServing(pools) ==> AllServing(RestatedAll(pools, None, Some(RHeld)))
  {
  }

  /** Serving pools without their held side. */
  function Unheld(pools: seq<DeployPool>): (r: seq<DeployPool>)
    ensures |r| == |pools| && forall k :: 0 <= k < |pools| ==> r[k] == pools[k].(held := [])
  {
    seq(|pools|, k requires 0 <= k < |pools| => pools[k].(held := []))
  }

  lemma UnheldWellFormed(pools: seq<DeployPool>)
    ensures Sound(pools) ==> Sound(Unheld(pools))
    ensures Apart(pools) ==> Apart(Unheld(pools))
  {
    forall k | Sound(pools) && 0 <= k < |pools| && pools[k].exposed ensures PoolOk(Unheld(pools)[k]) {
      HeldDistinct(pools[k]);
    }
  }

  lemma UnheldWants(pools: seq<DeployPool>)
    requires WellFormed(pools) && AllServing(pools)
    ensures ShowsIncoming(Want(Unheld(pools), Both), BareAll(pools))
  {
    hide Want, Sound, Apart, BareAll;
    UnheldWellFormed(pools);
    WantServing(Unheld(pools));
    assert ShowsIncoming(Want(Unheld(pools), Both), pools);
    BareShows(Want(Unheld(pools), Both), pools);
  }

  /** The held side, put back in the place of the incoming one. */
  function PutBack(pools: seq<DeployPool>): (r: seq<DeployPool>)
    ensures |r| == |pools| && forall k :: 0 <= k < |pools| ==> r[k] == pools[k].(incoming := pools[k].held, held := [])
  {
    seq(|pools|, k requires 0 <= k < |pools| => pools[k].(incoming := pools[k].held, held := []))
  }

  lemma PutBackWellFormed(pools: seq<DeployPool>)
    ensures Sound(pools) ==> Sound(PutBack(pools))
    ensures Apart(pools) ==> Apart(PutBack(pools))
  {
    forall k | Sound(pools) && 0 <= k < |pools| && pools[k].exposed ensures PoolOk(PutBack(pools)[k]) {
      HeldDistinct(pools[k]);
      assert [] + pools[k].held == pools[k].held == pools[k].held + [];
    }
  }

  lemma PutBackWants(pools: seq<DeployPool>)
    requires WellFormed(pools) && AllBack(pools)
    ensures ShowsHeld(Want(PutBack(pools), Both), BareAll(pools))
  {
    hide Want, Sound, Apart, BareAll;
    PutBackWellFormed(pools);
    WantServing(PutBack(pools));
    assert ShowsHeld(Want(PutBack(pools), Both), pools);
    BareShows(Want(PutBack(pools), Both), pools);
  }

  /** Exposed pools without their incoming side. */
  function Emptied(pools: seq<DeployPool>): (r: seq<DeployPool>)
    ensures |r| == |pools|
    ensures forall k :: 0 <= k < |pools| ==> r[k] == if pools[k].exposed then pools[k].(incoming := []) else pools[k]
  {
    seq(|pools|, k requires 0 <= k < |pools| => if pools[k].exposed then pools[k].(incoming := []) else pools[k])
  }

  /** After a rollback: the held side, active, is all there is. */
  lemma BackInPlace(pools: seq<DeployPool>)
    requires Sound(pools)
    ensures var back := PutBack(Emptied(RestatedAll(pools, Some(RDraining), Some(RActive))));
      Sound(back) && (Apart(pools) ==> Apart(back) && ShowsHeld(Want(back, Both), BareAll(pools)))
  {
    var given := RestatedAll(pools, Some(RDraining), Some(RActive));
    assert AllBack(given);
    assert PutBack(Emptied(given)) == PutBack(given);
    hide Want, Sound, Apart, BareAll, ShowsHeld, RestatedAll, PutBack, Emptied;
    RestatedSides(pools, Some(RDraining), Some(RActive));
    PutBackWellFormed(given);
    if Apart(pools) { PutBackWants(given); }
  }

  /** Giving up the incoming side: the held one is active again. */
  lemma GiveUpWants(pools: seq<DeployPool>)
    requires WellFormed(pools)
    ensures ShowsHeld(Want(RestatedAll(pools, Some(RDraining), Some(RActive)), Both), BareAll(pools))
  {
    var r := RestatedAll(pools, Some(RDraining), Some(RActive));
    assert AllGivingUp(r);
    hide Want, Sound, Apart, BareAll, ShowsHeld, RestatedAll;
    RestatedSides(pools, Some(RDraining), Some(RActive));
    WantGivingUp(r);
    BareShows(Want(r, Both), r);
  }

  /** Taking a flip back: only the held side is recorded, active. */
  lemma UnflipWants(pools: seq<DeployPool>)
    requires WellFormed(pools)
    ensures ShowsHeld(Want(RestatedAll(pools, None, Some(RActive)), HeldOnly), BareAll(pools))
  {
    var r := RestatedAll(pools, None, Some(RActive));
    assert AllBack(r);
    hide Want, Sound, Apart, BareAll, ShowsHeld, RestatedAll;
    RestatedSides(pools, None, Some(RActive));
    WantBack(r);
    BareShows(Want(r, HeldOnly), r);
  }

  // ----- the end of a deploy

  datatype Status = Building | Migrating | Bringing | Checking | Watching | Promoted | RolledBack | Failed

  /** What the world has been through since a deploy began. */
  datatype Trace = Trace(rows: map<int, Table>, running: set<Container>, writes: seq<Write>,
                         stops: set<Container>, started: set<Container>, stored: bool, gone: set<Container>)

  ghost predicate StopsHeld(stops: set<Container>, pools: seq<DeployPool>) {
    forall c :: c in stops ==> IsHeld(pools, c)
  }

  ghost predicate StopsIncoming(stops: set<Container>, pools: seq<DeployPool>) {
    forall c :: c in stops <==> IsIncoming(pools, c)
  }

  ghost predicate AllUp(running: set<Container>, pools: seq<DeployPool>) {
    forall c :: IsIncoming(pools, c) ==> c in running
  }

  /** The containers stopped: one side only, and the one the status says. */
  ghost predicate StopsOneSide(st: Status, t: Trace, pools: seq<DeployPool>) {
    match st
    case Promoted => StopsHeld(t.stops, pools) && (Apart(pools) ==> AllUp(t.running, pools))
    case RolledBack => StopsIncoming(t.stops, pools)
    case Failed => StopsIncoming(t.stops, pools) || t.stops == {}
    case _ => t.stops == {} && AllUp(t.running, pools)
  }

  /** The rows left: one side only, and the one the status says. */
  ghost predicate ShowsOneSide(st: Status, before: map<int, Table>, t: Trace, pools: seq<DeployPool>) {
    && OneTurn(t.writes, pools) && Whole(before, t.rows, pools)
    && match st
       case Promoted => Forward(t.writes, pools) && ShowsIncoming(t.rows, pools)
       case RolledBack => ShowsHeld(t.rows, pools)
       case Failed => t.stored ==> t.rows == before || ShowsHeld(t.rows, pools)
       case _ => Forward(t.writes, pools) && Switched(t.rows, pools)
  }

  // ----- the rows a side leaves, to the letter

  /** The replicas of a pool with the given states; `None` leaves a side out. */
  function Faced(p: DeployPool, incoming: Option<ReplicaState>, held: Option<ReplicaState>): seq<Replica> {
    (if incoming.Some? then WithState(p.incoming, incoming.value) else [])
    + (if held.Some? then WithState(p.held, held.value) else [])
  }

  /** Every route of an exposed pool has exactly these rows: the numbers, their ports and their states. */
  ghost predicate Exactly(rows: map<int, Table>, pools: seq<DeployPool>, incoming: Option<ReplicaState>, held: Option<ReplicaState>) {
    forall k, id :: 0 <= k < |pools| && OfRoute(pools[k], id) ==>
      id in rows && rows[id] == TableOf(Faced(pools[k], incoming, held))
  }

  lemma WantedExactly(rows: map<int, Table>, pools: seq<DeployPool>, side: Side, sides: seq<DeployPool>,
                      incoming: Option<ReplicaState>, held: Option<ReplicaState>)
    requires RoutesApart(pools) && SameShape(pools, sides) && RecordedAll(rows, Want(pools, side))
    requires forall k :: 0 <= k < |pools| && pools[k].exposed ==> Listing(pools[k], side) == Faced(sides[k], incoming, held)
    ensures Exactly(rows, sides, incoming, held)
  {
    hide Want, TableOf, Listing, Faced, RoutesApart;
    forall k, id | 0 <= k < |sides| && OfRoute(sides[k], id)
      ensures id in rows && rows[id] == TableOf(Faced(sides[k], incoming, held))
    {
      WantAt(pools, side, k, id);
    }
  }

  lemma StateGiven(reps: seq<Replica>, st: ReplicaState)
    requires AllIn(reps, st)
    ensures WithState(WithState(reps, RStarting), st) == reps
  {
    assert forall i :: 0 <= i < |reps| ==> reps[i] in reps;
  }

  lemma StateTwice(reps: seq<Replica>, a: ReplicaState, st: ReplicaState)
    ensures WithState(WithState(reps, a), st) == WithState(reps, st)
  {
  }

  /** Pools restated on both sides. */
  lemma RestatedFaced(p: DeployPool, incoming: ReplicaState, held: ReplicaState)
    requires p.exposed
    ensures Listing(Restated(p, Some(incoming), Some(held)), Both) == Faced(Bare(p), Some(incoming), Some(held))
  {
    StateTwice(p.incoming, RStarting, incoming);
    StateTwice(p.held, RStarting, held);
  }

  /** Serving pools, with the held side restated, without it, and put back. */
  lemma ServingFaced(p: DeployPool, held: ReplicaState)
    requires p.exposed && AllIn(p.incoming, RActive)
    ensures Listing(Restated(p, None, Some(held)), Both) == Faced(Bare(p), Some(RActive), Some(held))
    ensures Listing(p.(held := []), Both) == Faced(Bare(p), Some(RActive), None)
  {
    StateGiven(p.incoming, RActive);
    StateTwice(p.held, RStarting, held);
  }

  lemma BackFaced(p: DeployPool)
    requires p.exposed
    ensures Listing(Restated(p, None, Some(RActive)), HeldOnly) == Faced(Bare(p), None, Some(RActive))
  {
    StateTwice(p.held, RStarting, RActive);
    assert [] + WithState(p.held, RActive) == WithState(p.held, RActive);
  }

  lemma NoneHeldExactly(rows: map<int, Table>, pools: seq<DeployPool>, a: ReplicaState, b: ReplicaState)
    requires Exactly(rows, pools, Some(RActive), Some(a)) && forall k :: 0 <= k < |pools| && pools[k].exposed ==> pools[k].held == []
    ensures Exactly(rows, pools, Some(RActive), Some(b))
  {
    hide TableOf;
    forall k | 0 <= k < |pools| && pools[k].exposed
      ensures Faced(pools[k], Some(RActive), Some(a)) == Faced(pools[k], Some(RActive), Some(b))
    {
      assert WithState([], a) == WithState([], b) == [];
    }
  }

  /** The rows a deploy leaves with a Store that answers, when it found `before`. */
  ghost predicate ExactEnd(st: Status, before: map<int, Table>, t: Trace, pools: seq<DeployPool>) {
    Apart(pools) && t.stored ==>
      match st
      case Promoted =>
        if t.gone == {} then Exactly(t.rows, pools, Some(RActive), Some(RHeld)) else Exactly(t.rows, pools, Some(RActive), None)
      case RolledBack => Exactly(t.rows, pools, None, Some(RActive))
      case Failed =>
        || t.rows == before || Exactly(t.rows, pools, None, Some(RActive))
        || Exactly(t.rows, pools, Some(RDraining), Some(RActive))
      case _ => Exactly(t.rows, pools, Some(RActive), Some(RHeld))
  }

  ghost predicate StoppedIncoming(a: Trace, b: Trace, pools: seq<DeployPool>) {
    && (forall c :: c in b.stops <==> c in a.stops || IsIncoming(pools, c))
    && (forall c :: c in a.running && !IsIncoming(pools, c) ==> c in b.running)
    && b.running <= a.running
    && a.gone <= b.gone && (forall c :: c in b.gone ==> c in a.gone || (IsIncoming(pools, c) && c !in b.running))
  }

  ghost predicate StoppedHeld(a: Trace, b: Trace, pools: seq<DeployPool>) {
    && (forall c :: c in b.stops <==> c in a.stops || IsHeld(pools, c))
    && (forall c :: c in a.running && !IsHeld(pools, c) ==> c in b.running)
    && b.running <= a.running
    && a.gone <= b.gone && (forall c :: c in b.gone ==> c in a.gone || (IsHeld(pools, c) && c !in b.running))
  }

  /** Nothing happened to a container. */
  ghost predicate SameContainers(a: Trace, b: Trace) {
    b.started == a.started && b.running == a.running && b.stops == a.stops && b.gone == a.gone
  }

  /** Further writes to the deploy's own routes, each of which shows the held side. */
  ghost predicate TurnedBack(a: Trace, b: Trace, pools: seq<DeployPool>) {
    a.writes <= b.writes && Own(a.rows, b.rows, pools) && (Apart(pools) ==> Back(b.writes[|a.writes|..], pools) && Whole(a.rows, b.rows, pools))
  }

  /** Further writes to the deploy's own routes, each of which shows the incoming side. */
  ghost predicate TurnedOn(a: Trace, b: Trace, pools: seq<DeployPool>) {
    && a.writes <= b.writes && Own(a.rows, b.rows, pools)
    && (Apart(pools) ==>
          Forward(b.writes[|a.writes|..], pools) && Whole(a.rows, b.rows, pools) && MovedOn(a.rows, b.rows, pools))
  }

  /** What a rollback does: it shows the held side, and only then stops the incoming one. */
  ghost predicate WentBack(st: Status, a: Trace, b: Trace, pools: seq<DeployPool>) {
    && (st == RolledBack || st == Failed)
    && TurnedBack(a, b, pools) && b.started == a.started && (b.stored ==> a.stored)
    && (st == RolledBack ==>
          && StoppedIncoming(a, b, pools) && (Apart(pools) ==> ShowsHeld(b.rows, pools))
          && (Apart(pools) && b.stored ==> Exactly(b.rows, pools, None, Some(RActive))))
    && (st == Failed ==>
          && SameContainers(a, b)
          && (Apart(pools) && b.stored ==>
                ShowsHeld(b.rows, pools) && Exactly(b.rows, pools, Some(RDraining), Some(RActive))))
  }

  /**
   What a promotion does: it stops the held side, and goes on showing the incoming one. Once a stop
   succeeds the rows are the incoming side's alone; if none does they are left as they are.
   */
  ghost predicate WentOn(a: Trace, b: Trace, pools: seq<DeployPool>) {
    && TurnedOn(a, b, pools) && b.started == a.started && StoppedHeld(a, b, pools) && (b.stored ==> a.stored)
    && (Apart(pools) && ShowsIncoming(a.rows, pools) ==> ShowsIncoming(b.rows, pools))
    && (Apart(pools) && b.stored && b.gone != a.gone ==> Exactly(b.rows, pools, Some(RActive), None))
    && ((forall c :: IsHeld(pools, c) ==> c !in b.gone) ==> b.rows == a.rows && b.writes == a.writes)
  }

  /** What a failure before the switch does: nothing but stop the incoming side. */
  ghost predicate GaveUp(st: Status, a: Trace, b: Trace, pools: seq<DeployPool>) {
    && st == Failed && b.rows == a.rows && b.writes == a.writes && b.started == a.started && b.stored == a.stored
    && StoppedIncoming(a, b, pools)
  }

  /** Every route has the rows it had, or rows that show the incoming side. */
  ghost predicate MovedOn(before: map<int, Table>, rows: map<int, Table>, pools: seq<DeployPool>) {
    && before.Keys <= rows.Keys
    && forall k, id :: 0 <= k < |pools| && OfRoute(pools[k], id) && id in rows ==>
      (id in before && rows[id] == before[id]) || ActiveIn(rows[id]) == Ported(pools[k].incoming)
  }

  lemma MovedOnTwice(a: map<int, Table>, b: map<int, Table>, c: map<int, Table>, pools: seq<DeployPool>)
    requires MovedOn(a, b, pools) && MovedOn(b, c, pools)
    ensures MovedOn(a, c, pools)
  {
    hide ActiveIn, Ported;
  }

  lemma MovedOnKept(a: map<int, Table>, b: map<int, Table>, want: map<int, Table>, pools: seq<DeployPool>)
    requires Recorded(a, b, want) && ShowsIncoming(want, pools)
    ensures MovedOn(a, b, pools)
  {
    hide ActiveIn, Ported;
  }

  lemma MovedOnShows(a: map<int, Table>, b: map<int, Table>, pools: seq<DeployPool>)
    requires MovedOn(a, b, pools) && ShowsIncoming(a, pools)
    ensures ShowsIncoming(b, pools)
  {
    hide ActiveIn, Ported;
    forall k, id | 0 <= k < |pools| && pools[k].exposed && id in pools[k].routes
      ensures id in b && ActiveIn(b[id]) == Ported(pools[k].incoming)
    {
      assert OfRoute(pools[k], id);
    }
  }

  ghost predicate Ours(pools: seq<DeployPool>, id: int) {
    exists k :: 0 <= k < |pools| && OfRoute(pools[k], id)
  }

  ghost predicate AllOurs(ws: seq<Write>, pools: seq<DeployPool>) {
    forall w :: w in ws ==> Ours(pools, w.route)
  }

  /** Rows of no other route have changed. */
  ghost predicate Own(a: map<int, Table>, b: map<int, Table>, pools: seq<DeployPool>) {
    forall id :: !Ours(pools, id) ==> (id in a <==> id in b) && (id in a ==> a[id] == b[id])
  }

  lemma {:induction false} PlayedOwn(rows: map<int, Table>, ws: seq<Write>, pools: seq<DeployPool>)
    requires AllOurs(ws, pools)
    ensures Own(rows, Played(rows, ws), pools)
  {
    hide Ours;
    if ws != [] {
      var n := |ws| - 1;
      assert ws[n] in ws && forall w :: w in ws[..n] ==> w in ws;
      PlayedOwn(rows, ws[..n], pools);
    }
  }

  ghost predicate SameShape(pools: seq<DeployPool>, sides: seq<DeployPool>) {
    && |pools| == |sides|
    && forall k :: 0 <= k < |pools| ==> pools[k].exposed == sides[k].exposed && pools[k].routes == sides[k].routes
  }

  lemma {:induction false} WritesOurs(pools: seq<DeployPool>, side: Side, sides: seq<DeployPool>)
    requires |pools| <= |sides| && SameShape(pools, sides[..|pools|])
    ensures AllOurs(Writes(pools, side), sides)
  {
    if pools != [] {
      var n := |pools| - 1;
      assert sides[..n + 1][..n] == sides[..n];
      WritesOurs(pools[..n], side, sides);
      forall w | w in Writes(pools, side) ensures Ours(sides, w.route) {
        if w !in Writes(pools[..n], side) {
          assert sides[..n + 1][n] == sides[n] && OfRoute(sides[n], w.route);
        }
      }
    }
  }

  lemma OwnTwice(a: map<int, Table>, b: map<int, Table>, c: map<int, Table>, pools: seq<DeployPool>)
    requires Own(a, b, pools) && Own(b, c, pools)
    ensures Own(a, c, pools)
  {
    hide Ours;
  }

  lemma WholeTwice(a: map<int, Table>, b: map<int, Table>, c: map<int, Table>, pools: seq<DeployPool>)
    requires Whole(a, b, pools) && Whole(b, c, pools)
    ensures Whole(a, c, pools)
  {
    hide ActiveIn, Ported;
  }

  // ----- traces, step by step

  ghost predicate Named(service: string, reps: seq<Replica>, c: Container) {
    exists i :: 0 <= i < |reps| && c == Container(service, reps[i].index)
  }

  ghost predicate StoppedAll(a: Trace, b: Trace, service: string, reps: seq<Replica>) {
    && (forall c :: c in b.stops <==> c in a.stops || Named(service, reps, c))
    && (forall c :: c in a.running && !Named(service, reps, c) ==> c in b.running)
    && b.running <= a.running
    && a.gone <= b.gone && (forall c :: c in b.gone ==> c in a.gone || (Named(service, reps, c) && c !in b.running))
  }

  lemma NamedOneMore(service: string, reps: seq<Replica>, i: nat, c: Container)
    requires i < |reps|
    ensures Named(service, reps[..i + 1], c) <==> Named(service, reps[..i], c) || c == Container(service, reps[i].index)
  {
    if Named(service, reps[..i], c) {
      var j :| 0 <= j < i && c == Container(service, reps[..i][j].index);
      assert reps[..i + 1][j] == reps[j];
    }
    if c == Container(service, reps[i].index) { assert reps[..i + 1][i] == reps[i]; }
    if Named(service, reps[..i + 1], c) {
      var j :| 0 <= j < i + 1 && c == Container(service, reps[..i + 1][j].index);
      if j < i { assert reps[..i][j] == reps[j]; }
    }
  }

  lemma StoppedOneMore(a: Trace, b: Trace, c: Trace, service: string, reps: seq<Replica>, i: nat)
    requires i < |reps| && StoppedAll(a, b, service, reps[..i])
    requires var x := Container(service, reps[i].index);
      && c.stops == b.stops + {x} && (c.running == b.running || c.running == b.running - {x})
      && (c.gone == b.gone || (c.gone == b.gone + {x} && c.running == b.running - {x}))
    ensures StoppedAll(a, c, service, reps[..i + 1])
  {
    hide Named;
    forall x
      ensures x in c.stops <==> x in a.stops || Named(service, reps[..i + 1], x)
      ensures x in a.running && !Named(service, reps[..i + 1], x) ==> x in c.running
      ensures x in c.gone ==> x in a.gone || (Named(service, reps[..i + 1], x) && x !in c.running)
    {
      NamedOneMore(service, reps, i, x);
    }
  }

  lemma IncomingOneMore(pools: seq<DeployPool>, k: nat, c: Container)
    requires k < |pools|
    ensures IsIncoming(pools[..k + 1], c) <==>
      IsIncoming(pools[..k], c) || (pools[k].exposed && Named(pools[k].service, pools[k].incoming, c))
  {
    var a, b := pools[..k], pools[..k + 1];
    assert forall j :: 0 <= j < k ==> a[j] == b[j] == pools[j];
    assert b[k] == pools[k];
    if IsIncoming(b, c) {
      var j, i :| 0 <= j < |b| && b[j].exposed && 0 <= i < |b[j].incoming| && c == Container(b[j].service, b[j].incoming[i].index);
      assert j < k ==> a[j].incoming[i] == b[j].incoming[i];
    }
    if IsIncoming(a, c) {
      var j, i :| 0 <= j < |a| && a[j].exposed && 0 <= i < |a[j].incoming| && c == Container(a[j].service, a[j].incoming[i].index);
      assert b[j].incoming[i] == a[j].incoming[i];
    }
    if pools[k].exposed && Named(pools[k].service, pools[k].incoming, c) {
      var i :| 0 <= i < |pools[k].incoming| && c == Container(pools[k].service, pools[k].incoming[i].index);
      assert b[k].incoming[i] == pools[k].incoming[i];
    }
  }

  lemma HeldOneMore(pools: seq<DeployPool>, k: nat, c: Container)
    requires k < |pools|
    ensures IsHeld(pools[..k + 1], c) <==>
      IsHeld(pools[..k], c) || (pools[k].exposed && Named(pools[k].service, pools[k].held, c))
  {
    var a, b := pools[..k], pools[..k + 1];
    assert forall j :: 0 <= j < k ==> a[j] == b[j] == pools[j];
    assert b[k] == pools[k];
    if IsHeld(b, c) {
      var j, i :| 0 <= j < |b| && b[j].exposed && 0 <= i < |b[j].held| && c == Container(b[j].service, b[j].held[i].index);
      assert j < k ==> a[j].held[i] == b[j].held[i];
    }
    if IsHeld(a, c) {
      var j, i :| 0 <= j < |a| && a[j].exposed && 0 <= i < |a[j].held| && c == Container(a[j].service, a[j].held[i].index);
      assert b[j].held[i] == a[j].held[i];
    }
    if pools[k].exposed && Named(pools[k].service, pools[k].held, c) {
      var i :| 0 <= i < |pools[k].held| && c == Container(pools[k].service, pools[k].held[i].index);
      assert b[k].held[i] == pools[k].held[i];
    }
  }

  lemma StoppedIncomingOneMore(a: Trace, b: Trace, c: Trace, pools: seq<DeployPool>, k: nat)
    requires k < |pools| && StoppedIncoming(a, b, pools[..k])
    requires StoppedAll(b, c, pools[k].service, if pools[k].exposed then pools[k].incoming else [])
    ensures StoppedIncoming(a, c, pools[..k + 1])
  {
    hide IsIncoming;
    forall x
      ensures IsIncoming(pools[..k + 1], x) <==>
        IsIncoming(pools[..k], x) || (pools[k].exposed && Named(pools[k].service, pools[k].incoming, x))
    {
      IncomingOneMore(pools, k, x);
    }
  }

  lemma StoppedHeldOneMore(a: Trace, b: Trace, c: Trace, pools: seq<DeployPool>, k: nat)
    requires k < |pools| && StoppedHeld(a, b, pools[..k]) && (!pools[k].exposed ==> pools[k].held == [])
    requires StoppedAll(b, c, pools[k].service, pools[k].held)
    ensures StoppedHeld(a, c, pools[..k + 1])
  {
    hide IsHeld;
    forall x
      ensures IsHeld(pools[..k + 1], x) <==>
        IsHeld(pools[..k], x) || (pools[k].exposed && Named(pools[k].service, pools[k].held, x))
    {
      HeldOneMore(pools, k, x);
    }
  }

  lemma StoppedNone(a: Trace, pools: seq<DeployPool>)
    requires pools == []
    ensures StoppedIncoming(a, a, pools) && StoppedHeld(a, a, pools)
    ensures forall service :: StoppedAll(a, a, service, [])
  {
  }

  lemma StoppedBare(a: Trace, b: Trace, pools: seq<DeployPool>)
    ensures StoppedIncoming(a, b, BareAll(pools)) <==> StoppedIncoming(a, b, pools)
    ensures StoppedHeld(a, b, BareAll(pools)) <==> StoppedHeld(a, b, pools)
  {
    hide IsHeld, IsIncoming;
    forall c
      ensures IsHeld(BareAll(pools), c) <==> IsHeld(pools, c)
      ensures IsIncoming(BareAll(pools), c) <==> IsIncoming(pools, c)
    {
      BareSides(pools, c);
    }
  }

  lemma StoppedFrame(a: Trace, a': Trace, b: Trace, b': Trace, pools: seq<DeployPool>)
    requires a.stops == a'.stops && a.running == a'.running && a.gone == a'.gone
    requires b.stops == b'.stops && b.running == b'.running && b.gone == b'.gone
    ensures StoppedIncoming(a, b, pools) <==> StoppedIncoming(a', b', pools)
    ensures StoppedHeld(a, b, pools) <==> StoppedHeld(a', b', pools)
  {
    hide IsHeld, IsIncoming;
  }

  lemma NothingWritten(a: Trace, b: Trace, pools: seq<DeployPool>)
    requires a.rows == b.rows && a.writes == b.writes
    ensures TurnedOn(a, b, pools) && TurnedBack(a, b, pools)
  {
  }

  /** Writes and the rows they leave. */
  ghost predicate Wrote(a: Trace, b: Trace, ws: seq<Write>) {
    b.writes == a.writes + ws && b.rows == Played(a.rows, ws)
  }

  lemma WroteMore(a: Trace, b: Trace, c: Trace, ws: seq<Write>, vs: seq<Write>)
    requires Wrote(a, b, ws) && Wrote(b, c, vs)
    ensures Wrote(a, c, ws + vs)
  {
    PlayedConcat(a.rows, ws, vs);
  }

  /** Writing, in whole or in part, rows that show the incoming side. */
  lemma WroteOn(a: Trace, b: Trace, ws: seq<Write>, want: map<int, Table>, pools: seq<DeployPool>)
    requires AllOurs(ws, pools)
    requires Wrote(a, b, ws) && (Apart(pools) ==> WrittenFrom(ws, want) && ShowsIncoming(want, pools))
    ensures TurnedOn(a, b, pools)
    ensures Apart(pools) && (ShowsIncoming(a.rows, pools) || RecordedAll(b.rows, want)) ==> ShowsIncoming(b.rows, pools)
    ensures Apart(pools) && Switched(want, pools) && (Switched(a.rows, pools) || RecordedAll(b.rows, want)) ==>
      Switched(b.rows, pools)
  {
    PlayedOwn(a.rows, ws, pools);
    assert b.writes[|a.writes|..] == ws;
    if Apart(pools) {
      PlayedRecords(a.rows, ws, want);
      WrittenForward(ws, want, pools);
      hide ShowsIncoming, Switched, Forward, WholeSide, RecordedAll, Recorded, Played, Apart, MovedOn;
      MovedOnKept(a.rows, b.rows, want, pools);
      WholeKept(a.rows, a.rows, b.rows, want, pools);
      if ShowsIncoming(a.rows, pools) || RecordedAll(b.rows, want) { ShowsIncomingKept(a.rows, b.rows, want, pools); }
      if Switched(want, pools) && (Switched(a.rows, pools) || RecordedAll(b.rows, want)) {
        SwitchedKept(a.rows, b.rows, want, pools);
      }
    }
  }

  lemma WroteBack(a: Trace, b: Trace, ws: seq<Write>, want: map<int, Table>, pools: seq<DeployPool>)
    requires AllOurs(ws, pools)
    requires Wrote(a, b, ws) && (Apart(pools) ==> WrittenFrom(ws, want) && ShowsHeld(want, pools))
    ensures TurnedBack(a, b, pools)
    ensures Apart(pools) && (ShowsHeld(a.rows, pools) || RecordedAll(b.rows, want)) ==> ShowsHeld(b.rows, pools)
  {
    PlayedOwn(a.rows, ws, pools);
    assert b.writes[|a.writes|..] == ws;
    if Apart(pools) {
      PlayedRecords(a.rows, ws, want);
      WrittenBack(ws, want, pools);
      hide ShowsHeld, Back, WholeSide, RecordedAll, Recorded, Played, Apart;
      WholeKept(a.rows, a.rows, b.rows, want, pools);
      if ShowsHeld(a.rows, pools) || RecordedAll(b.rows, want) { ShowsHeldKept(a.rows, b.rows, want, pools); }
    }
  }

  lemma TurnedBackTwice(a: Trace, b: Trace, c: Trace, pools: seq<DeployPool>)
    requires TurnedBack(a, b, pools) && TurnedBack(b, c, pools)
    ensures TurnedBack(a, c, pools)
  {
    hide Back, Whole, Apart, Own;
    OwnTwice(a.rows, b.rows, c.rows, pools);
    if Apart(pools) {
      BackTwice(b.writes, c.writes, |a.writes|, pools);
      WholeTwice(a.rows, b.rows, c.rows, pools);
    }
  }

  lemma TurnedOnTwice(a: Trace, b: Trace, c: Trace, pools: seq<DeployPool>)
    requires TurnedOn(a, b, pools) && TurnedOn(b, c, pools)
    ensures TurnedOn(a, c, pools)
  {
    hide Forward, Whole, Apart, Own, MovedOn;
    OwnTwice(a.rows, b.rows, c.rows, pools);
    if Apart(pools) {
      var n := |a.writes|;
      assert c.writes[n..][|b.writes[n..]|..] == c.writes[|b.writes|..];
      ForwardTwice(b.writes[n..], c.writes[n..], pools);
      MovedOnTwice(a.rows, b.rows, c.rows, pools);
      WholeTwice(a.rows, b.rows, c.rows, pools);
    }
  }

  /** Taking back a switch that was not pushed: the held side is shown again, the incoming one stopped. */
  ghost predicate TookBack(st: Status, a: Trace, b: Trace, pools: seq<DeployPool>) {
    && st == Failed && TurnedBack(a, b, pools) && b.started == a.started && StoppedIncoming(a, b, pools)
    && (b.stored ==> a.stored)
    && (Apart(pools) && b.stored ==> ShowsHeld(b.rows, pools) && Exactly(b.rows, pools, None, Some(RActive)))
  }

  /** A switch that did not happen: turned back if anything was turned, the incoming side stopped. */
  ghost predicate NotSwitched(st: Status, a: Trace, b: Trace, pools: seq<DeployPool>) {
    && st == Failed && a.writes <= b.writes && b.started == a.started && StoppedIncoming(a, b, pools)
    && (b.stored ==> a.stored) && Own(a.rows, b.rows, pools)
    && (Apart(pools) ==> && OneTurn(b.writes[|a.writes|..], pools) && Whole(a.rows, b.rows, pools)
                         && (b.stored ==>
                               || b.rows == a.rows
                               || (ShowsHeld(b.rows, pools) && Exactly(b.rows, pools, None, Some(RActive)))))
  }

  /** A switch that happened: the rows show the incoming side, and no container was touched. */
  ghost predicate SwitchedOn(a: Trace, b: Trace, pools: seq<DeployPool>) {
    TurnedOn(a, b, pools) && SameContainers(a, b)
  }

  lemma GaveUpNotSwitched(a: Trace, b: Trace, pools: seq<DeployPool>)
    requires GaveUp(Failed, a, b, pools)
    ensures NotSwitched(Failed, a, b, pools)
  {
    hide StoppedIncoming, OneTurn, Whole, ShowsHeld, Forward, Apart, Exactly;
    NothingWritten(a, b, pools);
    if Apart(pools) { ForwardIsOneTurn(b.writes[|a.writes|..], pools); }
  }

  lemma TookBackNotSwitched(a: Trace, b: Trace, c: Trace, pools: seq<DeployPool>)
    requires SwitchedOn(a, b, pools) && (b.stored ==> a.stored) && TookBack(Failed, b, c, pools)
    ensures NotSwitched(Failed, a, c, pools)
  {
    hide StoppedIncoming, OneTurn, Whole, ShowsHeld, Forward, Back, Apart, Own, Exactly;
    StoppedFrame(b, a, c, c, pools);
    OwnTwice(a.rows, b.rows, c.rows, pools);
    if Apart(pools) {
      WholeTwice(a.rows, b.rows, c.rows, pools);
      var n := |a.writes|;
      assert c.writes[n..][|b.writes[n..]|..] == c.writes[|b.writes|..];
      TurnsBack(b.writes[n..], c.writes[n..], pools);
    }
  }

  // ----- bringing replicas up

  /** Every replica a deploy brings up has a port, so it gets a row. */
  ghost predicate IncomingPorted(pools: seq<DeployPool>) {
    forall k, i :: 0 <= k < |pools| && pools[k].exposed && 0 <= i < |pools[k].incoming| ==> pools[k].incoming[i].port > 0
  }

  /** Replicas brought up beside the ones that ran: the incoming side is the new containers. */
  ghost predicate Begun(pools: seq<DeployPool>, started: set<Container>, live: set<Container>, running: set<Container>) {
    && IncomingPorted(pools)
    && (forall c :: c in started <==> IsIncoming(pools, c))
    && live <= running && (forall c :: c in running ==> c in live || c in started)
    && (forall c :: IsHeld(pools, c) ==> c in live || c in started)
    && (forall c :: IsIncoming(pools, c) ==> c !in live)
  }

  /** What ran of pool `k`'s service when its turn came: what ran before, and what earlier pools brought up. */
  ghost predicate RanFor(pools: seq<DeployPool>, k: nat, live: set<Container>, c: Container)
    requires k < |pools|
  {
    c.service == pools[k].service && c.index >= 1 && (c in live || IsIncoming(pools[..k], c))
  }

  /** The held side of each exposed pool is everything numbered that ran of its service at its turn. */
  ghost predicate HeldAsRan(pools: seq<DeployPool>, live: set<Container>) {
    forall k, c :: 0 <= k < |pools| && pools[k].exposed ==>
      (Named(pools[k].service, pools[k].held, c) <==> RanFor(pools, k, live, c))
  }

  lemma BegunNone(live: set<Container>)
    ensures Begun([], {}, live, live) && Sound([]) && BareAll([]) == [] && AllUp(live, []) && HeldAsRan([], live)
  {
  }

  /** A pool with nothing in it yet changes neither side. */
  lemma BegunPool(pools: seq<DeployPool>, p: DeployPool, c: Container)
    requires p.incoming == [] && p.held == []
    ensures IsIncoming(pools + [p], c) <==> IsIncoming(pools, c)
    ensures IsHeld(pools + [p], c) <==> IsHeld(pools, c)
  {
    var n := |pools|;
    var all := pools + [p];
    assert all[..n] == pools && all[..n + 1] == all && all[n] == p;
    IncomingOneMore(all, n, c);
    HeldOneMore(all, n, c);
  }

  /** Giving the last pool, still empty, its held side. */
  lemma BegunHeld(pools: seq<DeployPool>, p: DeployPool, held: seq<Replica>, c: Container)
    requires p.incoming == [] && p.held == [] && p.exposed
    ensures IsIncoming(pools + [p.(held := held)], c) <==> IsIncoming(pools + [p], c)
    ensures IsHeld(pools + [p.(held := held)], c) <==> IsHeld(pools, c) || Named(p.service, held, c)
  {
    var n := |pools|;
    var q := p.(held := held);
    var all, all' := pools + [p], pools + [q];
    assert all[..n] == pools == all'[..n] && all[..n + 1] == all && all'[..n + 1] == all' && all[n] == p && all'[n] == q;
    IncomingOneMore(all, n, c);
    IncomingOneMore(all', n, c);
    HeldOneMore(all', n, c);
  }

  /** Giving it one more replica. */
  lemma BegunReplica(pools: seq<DeployPool>, p: DeployPool, r: Replica, c: Container)
    requires p.exposed
    ensures var q := p.(incoming := p.incoming + [r]);
      && (IsIncoming(pools + [q], c) <==> IsIncoming(pools + [p], c) || c == Container(p.service, r.index))
      && (IsHeld(pools + [q], c) <==> IsHeld(pools + [p], c))
  {
    var n := |pools|;
    var q := p.(incoming := p.incoming + [r]);
    var all, all' := pools + [p], pools + [q];
    assert all[..n] == pools == all'[..n] && all[..n + 1] == all && all'[..n + 1] == all' && all[n] == p && all'[n] == q;
    IncomingOneMore(all, n, c);
    IncomingOneMore(all', n, c);
    HeldOneMore(all, n, c);
    HeldOneMore(all', n, c);
    var i := |p.incoming|;
    assert q.incoming[..i] == p.incoming && q.incoming[..i + 1] == q.incoming && q.incoming[i] == r;
    NamedOneMore(p.service, q.incoming, i, c);
  }

  lemma PortedBare(pools: seq<DeployPool>)
    ensures IncomingPorted(BareAll(pools)) <==> IncomingPorted(pools)
  {
    var b := BareAll(pools);
    assert forall k, i :: 0 <= k < |pools| && 0 <= i < |pools[k].incoming| ==> b[k].incoming[i].port == pools[k].incoming[i].port;
  }

  lemma PortedLast(pools: seq<DeployPool>, p: DeployPool)
    requires IncomingPorted(pools) && forall i :: 0 <= i < |p.incoming| ==> p.incoming[i].port > 0
    ensures IncomingPorted(pools + [p])
  {
  }

  lemma PortedMore(pools: seq<DeployPool>, p: DeployPool, r: Replica)
    requires IncomingPorted(pools + [p]) && r.port > 0 && p.exposed
    ensures IncomingPorted(pools + [p.(incoming := p.incoming + [r])])
  {
    var all := pools + [p];
    assert all[|pools|] == p;
    assert forall k :: 0 <= k < |pools| ==> all[k] == pools[k];
    PortedLast(pools, p.(incoming := p.incoming + [r]));
  }

  lemma BegunBare(pools: seq<DeployPool>, started: set<Container>, live: set<Container>, running: set<Container>)
    ensures Begun(BareAll(pools), started, live, running) <==> Begun(pools, started, live, running)
    ensures AllUp(running, BareAll(pools)) <==> AllUp(running, pools)
  {
    hide IsHeld, IsIncoming, IncomingPorted;
    PortedBare(pools);
    forall c
      ensures IsHeld(BareAll(pools), c) <==> IsHeld(pools, c)
      ensures IsIncoming(BareAll(pools), c) <==> IsIncoming(pools, c)
    {
      BareSides(pools, c);
    }
  }

  lemma NamedBare(service: string, reps: seq<Replica>, c: Container)
    ensures Named(service, WithState(reps, RStarting), c) <==> Named(service, reps, c)
  {
    var b := WithState(reps, RStarting);
    assert forall i :: 0 <= i < |reps| ==> b[i].index == reps[i].index;
  }

  lemma HeldAsRanBare(pools: seq<DeployPool>, live: set<Container>)
    requires HeldAsRan(pools, live)
    ensures HeldAsRan(BareAll(pools), live)
  {
    hide IsIncoming, Named;
    var b := BareAll(pools);
    forall k, c | 0 <= k < |b| && b[k].exposed ensures Named(b[k].service, b[k].held, c) <==> RanFor(b, k, live, c) {
      NamedBare(pools[k].service, pools[k].held, c);
      BareSides(pools[..k], c);
      assert BareAll(pools[..k]) == b[..k];
      assert Named(pools[k].service, pools[k].held, c) <==> RanFor(pools, k, live, c);
    }
  }

  /** The last pool's held side is what ran at its turn. */
  ghost predicate HeldAtTurn(pools: seq<DeployPool>, p: DeployPool, live: set<Container>) {
    forall c :: Named(p.service, p.held, c) <==> c.service == p.service && c.index >= 1 && (c in live || IsIncoming(pools, c))
  }

  lemma HeldAsRanMore(pools: seq<DeployPool>, p: DeployPool, live: set<Container>)
    ensures HeldAsRan(pools + [p], live) <==> HeldAsRan(pools, live) && (p.exposed ==> HeldAtTurn(pools, p, live))
  {
    hide IsIncoming, Named;
    var all, n := pools + [p], |pools|;
    assert all[..n] == pools && all[n] == p;
    assert forall k :: 0 <= k < n ==> all[k] == pools[k] && all[..k] == pools[..k];
    if HeldAsRan(all, live) {
      forall k, c | 0 <= k < n && pools[k].exposed ensures Named(pools[k].service, pools[k].held, c) <==> RanFor(pools, k, live, c) {
        assert Named(all[k].service, all[k].held, c) <==> RanFor(all, k, live, c);
      }
      forall c | p.exposed
        ensures Named(p.service, p.held, c) <==> c.service == p.service && c.index >= 1 && (c in live || IsIncoming(pools, c))
      {
        assert Named(all[n].service, all[n].held, c) <==> RanFor(all, n, live, c);
      }
    }
    if HeldAsRan(pools, live) && (p.exposed ==> HeldAtTurn(pools, p, live)) {
      forall k, c | 0 <= k < |all| && all[k].exposed ensures Named(all[k].service, all[k].held, c) <==> RanFor(all, k, live, c) {
        if k < n { assert Named(pools[k].service, pools[k].held, c) <==> RanFor(pools, k, live, c); }
      }
    }
  }

  lemma BegunAddPool(pools: seq<DeployPool>, p: DeployPool, started: set<Container>, live: set<Container>, running: set<Container>)
    requires Begun(pools, started, live, running) && AllUp(running, pools)
    requires p.incoming == [] && p.held == []
    ensures Begun(pools + [p], started, live, running) && AllUp(running, pools + [p])
  {
    hide IsHeld, IsIncoming, IncomingPorted;
    PortedLast(pools, p);
    forall c
      ensures IsIncoming(pools + [p], c) <==> IsIncoming(pools, c)
      ensures IsHeld(pools + [p], c) <==> IsHeld(pools, c)
    {
      BegunPool(pools, p, c);
    }
  }

  /** The held side of a pool is what runs of its service, numbered. */
  lemma BegunAddHeld(pools: seq<DeployPool>, p: DeployPool, held: seq<Replica>, started: set<Container>,
                     live: set<Container>, running: set<Container>)
    requires Begun(pools, started, live, running) && AllUp(running, pools)
    requires p.incoming == [] && p.held == [] && p.exposed
    requires forall c :: Named(p.service, held, c) <==> c.service == p.service && c.index >= 1 && c in running
    ensures var all := pools + [p.(held := held)];
      Begun(all, started, live, running) && AllUp(running, all) && HeldAtTurn(pools, p.(held := held), live)
  {
    hide IsHeld, IsIncoming, Named, IncomingPorted;
    PortedLast(pools, p.(held := held));
    var all := pools + [p.(held := held)];
    forall c
      ensures IsIncoming(all, c) <==> IsIncoming(pools, c)
      ensures IsHeld(all, c) <==> IsHeld(pools, c) || Named(p.service, held, c)
    {
      BegunPool(pools, p, c);
      BegunHeld(pools, p, held, c);
    }
  }

  lemma BegunAddReplica(pools: seq<DeployPool>, p: DeployPool, r: Replica, started: set<Container>,
                        live: set<Container>, running: set<Container>, running': set<Container>)
    requires Begun(pools + [p], started, live, running) && AllUp(running, pools + [p])
    requires p.exposed && r.port > 0 && Container(p.service, r.index) !in live
    requires running' == running || running' == running + {Container(p.service, r.index)}
    ensures var all := pools + [p.(incoming := p.incoming + [r])];
      && Begun(all, started + {Container(p.service, r.index)}, live, running')
      && (Container(p.service, r.index) in running' ==> AllUp(running', all))
  {
    hide IsHeld, IsIncoming, IncomingPorted;
    PortedMore(pools, p, r);
    var all := pools + [p.(incoming := p.incoming + [r])];
    forall c
      ensures IsIncoming(all, c) <==> IsIncoming(pools + [p], c) || c == Container(p.service, r.index)
      ensures IsHeld(all, c) <==> IsHeld(pools + [p], c)
    {
      BegunReplica(pools, p, r, c);
    }
  }

  // ----- whole deploys

  /** The containers when a deploy that found `live` running ends. */
  ghost predicate SafeStops(st: Status, live: set<Container>, t: Trace, pools: seq<DeployPool>) {
    && StopsOneSide(st, t, pools) && IncomingPorted(pools)
    && (forall c :: c in t.started <==> IsIncoming(pools, c))
    && (forall c :: IsHeld(pools, c) ==> c in live || c in t.started) && (forall c :: IsIncoming(pools, c) ==> c !in live)
    && (forall c :: c in live && c !in t.stops ==> c in t.running)
    && (forall c :: c in t.running ==> c in live || c in t.started)
    && (forall c :: c in t.gone ==> c in t.stops && c !in t.running)
  }

  /** And the rows, when it found `before` recorded and names no exposed service twice. */
  ghost predicate SafeEnd(st: Status, live: set<Container>, before: map<int, Table>, t: Trace, pools: seq<DeployPool>) {
    Sound(pools) && SafeStops(st, live, t, pools) && (Apart(pools) ==> ShowsOneSide(st, before, t, pools))
  }

  lemma EndNotSwitched(live: set<Container>, a: Trace, b: Trace, pools: seq<DeployPool>)
    requires Sound(pools) && Begun(pools, a.started, live, a.running) && a.stops == {} && a.gone == {} && a.writes == []
    requires NotSwitched(Failed, a, b, pools)
    ensures SafeEnd(Failed, live, a.rows, b, pools)
  {
    hide Sound, Apart, IsHeld, IsIncoming, OneTurn, Whole, ShowsHeld, IncomingPorted, Exactly;
    assert b.writes[|a.writes|..] == b.writes;
  }

  lemma EndWatching(live: set<Container>, a: Trace, b: Trace, pools: seq<DeployPool>)
    requires Sound(pools) && Begun(pools, a.started, live, a.running) && a.stops == {} && a.gone == {} && a.writes == []
    requires AllUp(a.running, pools) && SwitchedOn(a, b, pools) && (Apart(pools) ==> Switched(b.rows, pools))
    ensures SafeEnd(Watching, live, a.rows, b, pools)
  {
    hide Sound, Apart, IsHeld, IsIncoming, OneTurn, Whole, Switched, Forward, IncomingPorted;
    assert b.writes[|a.writes|..] == b.writes;
    if Apart(pools) { ForwardIsOneTurn(b.writes, pools); }
  }

  lemma EndPromoted(live: set<Container>, before: map<int, Table>, b: Trace, c: Trace, pools: seq<DeployPool>)
    requires SafeEnd(Watching, live, before, b, pools) && WentOn(b, c, pools)
    ensures SafeEnd(Promoted, live, before, c, pools)
  {
    hide Sound, Apart, IsHeld, IsIncoming, OneTurn, Whole, Switched, ShowsIncoming, Forward, IncomingPorted, Exactly;
    if Apart(pools) {
      SwitchedShows(b.rows, pools);
      ForwardTwice(b.writes, c.writes, pools);
      ForwardIsOneTurn(c.writes, pools);
      WholeTwice(before, b.rows, c.rows, pools);
      forall x | IsIncoming(pools, x) ensures x in c.running { SidesApart(pools, x); }
    }
  }

  lemma EndWentBack(st: Status, live: set<Container>, before: map<int, Table>, b: Trace, c: Trace, pools: seq<DeployPool>)
    requires SafeEnd(Watching, live, before, b, pools) && WentBack(st, b, c, pools)
    ensures SafeEnd(st, live, before, c, pools)
  {
    hide Sound, Apart, IsHeld, IsIncoming, OneTurn, Whole, Switched, ShowsHeld, Forward, Back, IncomingPorted, Exactly;
    if Apart(pools) {
      TurnsBack(b.writes, c.writes, pools);
      WholeTwice(before, b.rows, c.rows, pools);
    }
  }

  /** The exact rows at each end: a failure before the push, a promotion and a rollback. */
  lemma ExactNotSwitched(a: Trace, b: Trace, pools: seq<DeployPool>)
    requires NotSwitched(Failed, a, b, pools)
    ensures ExactEnd(Failed, a.rows, b, pools)
  {
    hide Apart, Exactly, OneTurn, Whole, ShowsHeld, StoppedIncoming, Own;
  }

  lemma ExactPromoted(before: map<int, Table>, b: Trace, c: Trace, pools: seq<DeployPool>)
    requires ExactEnd(Watching, before, b, pools) && b.gone == {} && WentOn(b, c, pools)
    ensures ExactEnd(Promoted, before, c, pools)
  {
    hide Apart, Exactly, TurnedOn, ShowsIncoming, StoppedHeld, IsHeld;
  }

  lemma ExactWentBack(st: Status, before: map<int, Table>, b: Trace, c: Trace, pools: seq<DeployPool>)
    requires WentBack(st, b, c, pools)
    ensures ExactEnd(st, before, c, pools)
  {
    hide Apart, Exactly, TurnedBack, ShowsHeld, StoppedIncoming;
  }

  /** Unless it is promoted, a deploy leaves everything that ran before it running, whatever it names twice. */
  lemma OldSurvives(st: Status, live: set<Container>, before: map<int, Table>, t: Trace, pools: seq<DeployPool>)
    requires SafeEnd(st, live, before, t, pools) && st != Promoted
    ensures live <= t.running
  {
    hide Sound, Apart, IsHeld, IsIncoming, ShowsOneSide, IncomingPorted;
  }

  /** A promoted deploy leaves every replica it started running, and stopped only what ran before it. */
  lemma NewSurvives(live: set<Container>, before: map<int, Table>, t: Trace, pools: seq<DeployPool>)
    requires SafeEnd(Promoted, live, before, t, pools) && Apart(pools)
    ensures t.started <= t.running && t.stops <= live && t.stops !! t.started
  {
    hide Sound, Apart, IsHeld, IsIncoming, ShowsOneSide, IncomingPorted;
    forall c | c in t.stops ensures c in live && c !in t.started { SidesApart(pools, c); }
  }

  /** No deploy stops a container of each side. */
  lemma NeverBoth(st: Status, t: Trace, pools: seq<DeployPool>, c: Container, d: Container)
    requires WellFormed(pools) && StopsOneSide(st, t, pools) && c in t.stops && d in t.stops
    ensures !(IsHeld(pools, c) && IsIncoming(pools, d))
  {
    hide Sound, Apart, IsHeld, IsIncoming;
    SidesApart(pools, c);
    SidesApart(pools, d);
  }
}
