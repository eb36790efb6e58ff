/** What a deploy acts on: the Store's route rows, the containers, and a clock. Any call may fail. */
module World {
  import opened Edge
  import opened Rows
  import opened Pools

  datatype Write = Write(route: int, rows: Table)

  ghost predicate WrittenFrom(ws: seq<Write>, want: map<int, Table>) {
    forall w :: w in ws ==> w.route in want && w.rows == want[w.route]
  }

  // ----- writes one after the other

  /** The rows after some writes. */
  ghost function Played(rows: map<int, Table>, ws: seq<Write>): map<int, Table> {
    if ws == [] then rows
    else
      var w := ws[|ws| - 1];
      Played(rows, ws[..|ws| - 1])[w.route := w.rows]
  }

  ghost function OnRoutes(routes: seq<int>, t: Table): (ws: seq<Write>)
    ensures |ws| == |routes| && forall i :: 0 <= i < |routes| ==> ws[i] == Write(routes[i], t)
  {
    seq(|routes|, i requires 0 <= i < |routes| => Write(routes[i], t))
  }

  /** The writes that record a side of every exposed pool, in order. */
  ghost function Writes(pools: seq<DeployPool>, side: Side): seq<Write> {
    if pools == [] then []
    else
      var p := pools[|pools| - 1];
      Writes(pools[..|pools| - 1], side) + if p.exposed then OnRoutes(p.routes, TableOf(Listing(p, side))) else []
  }

  ghost predicate WrittenTo(ws: seq<Write>, id: int) {
    exists i :: 0 <= i < |ws| && ws[i].route == id
  }

  lemma PlayedMore(rows: map<int, Table>, ws: seq<Write>, w: Write)
    ensures Played(rows, ws + [w]) == Played(rows, ws)[w.route := w.rows]
  {
    assert (ws + [w])[..|ws|] == ws;
  }

  lemma {:induction false} PlayedConcat(rows: map<int, Table>, a: seq<Write>, b: seq<Write>)
    ensures Played(rows, a + b) == Played(Played(rows, a), b)
  {
    if b == [] {
      assert a + b == a;
    } else {
      var n := |b| - 1;
      PlayedConcat(rows, a, b[..n]);
      assert (a + b)[..|a + b| - 1] == a + b[..n];
    }
  }

  /** A route that was written to has the rows wanted, any other the rows it had. */
  lemma {:induction false} PlayedAt(rows: map<int, Table>, ws: seq<Write>, want: map<int, Table>, id: int)
    requires WrittenFrom(ws, want)
    ensures WrittenTo(ws, id) ==> id in want && id in Played(rows, ws) && Played(rows, ws)[id] == want[id]
    ensures !WrittenTo(ws, id) ==> (id in Played(rows, ws) <==> id in rows) && (id in rows ==> Played(rows, ws)[id] == rows[id])
  {
    if ws != [] {
      var n := |ws| - 1;
      assert ws[n] in ws && forall w :: w in ws[..n] ==> w in ws;
      PlayedAt(rows, ws[..n], want, id);
      assert forall i :: 0 <= i < n ==> ws[..n][i] == ws[i];
    }
  }

  lemma PlayedRecords(rows: map<int, Table>, ws: seq<Write>, want: map<int, Table>)
    requires WrittenFrom(ws, want)
    ensures Recorded(rows, Played(rows, ws), want)
  {
    hide Played, WrittenFrom;
    forall id
      ensures id in rows ==> id in Played(rows, ws)
      ensures id in Played(rows, ws) ==>
        (id in rows && Played(rows, ws)[id] == rows[id]) || (id in want && Played(rows, ws)[id] == want[id])
    {
      PlayedAt(rows, ws, want, id);
    }
  }

  /** With routes apart, the writes are of what is wanted, and all of it. */
  lemma {:induction false} WritesWanted(pools: seq<DeployPool>, side: Side)
    requires RoutesApart(pools)
    ensures WrittenFrom(Writes(pools, side), Want(pools, side))
    ensures forall id :: id in Want(pools, side) ==> WrittenTo(Writes(pools, side), id)
  {
    if pools != [] {
      var n := |pools| - 1;
      var p, init := pools[n], pools[..n];
      WritesWanted(init, side);
      var ws, w := Writes(pools, side), Want(pools, side);
      forall x | x in ws ensures x.route in w && x.rows == w[x.route] {
        if x in Writes(init, side) { InitApart(pools, side, x.route); }
      }
      forall id | id in w ensures WrittenTo(ws, id) {
        WrittenLater(init, p, side, id);
      }
    }
  }

  lemma InitApart(pools: seq<DeployPool>, side: Side, id: int)
    requires RoutesApart(pools) && pools != [] && id in Want(pools[..|pools| - 1], side)
    ensures pools[|pools| - 1].exposed ==> id !in pools[|pools| - 1].routes
  {
    var n := |pools| - 1;
    WantOnly(pools[..n], side, id);
    var k :| 0 <= k < n && pools[..n][k].exposed && id in pools[..n][k].routes;
    assert pools[k].exposed && id in pools[k].routes;
  }

  lemma WrittenLater(init: seq<DeployPool>, p: DeployPool, side: Side, id: int)
    requires (p.exposed && id in p.routes) || WrittenTo(Writes(init, side), id)
    ensures WrittenTo(Writes(init, side) + if p.exposed then OnRoutes(p.routes, TableOf(Listing(p, side))) else [], id)
  {
    hide Writes;
    var a := Writes(init, side);
    var b: seq<Write> := if p.exposed then OnRoutes(p.routes, TableOf(Listing(p, side))) else [];
    if p.exposed && id in p.routes {
      var i :| 0 <= i < |p.routes| && p.routes[i] == id;
      assert (a + b)[|a| + i].route == id;
    } else {
      var i :| 0 <= i < |a| && a[i].route == id;
      assert (a + b)[i].route == id;
    }
  }

  /** The writes of the first pools, and some of the next one's, are the first of all. */
  lemma {:induction false} WritesAt(pools: seq<DeployPool>, side: Side, k: nat, j: nat)
    requires k < |pools| && pools[k].exposed && j <= |pools[k].routes|
    ensures var before := Writes(pools[..k], side);
      && |before| + j <= |Writes(pools, side)|
      && Writes(pools, side)[..|before| + j] == before + OnRoutes(pools[k].routes, TableOf(Listing(pools[k], side)))[..j]
    ensures Writes(pools[..k + 1], side) == Writes(pools[..k], side) + OnRoutes(pools[k].routes, TableOf(Listing(pools[k], side)))
  {
    var n := |pools| - 1;
    var before, some := Writes(pools[..k], side), OnRoutes(pools[k].routes, TableOf(Listing(pools[k], side)));
    assert pools[..k + 1][..k] == pools[..k] && pools[..k + 1][k] == pools[k];
    WritesLast(pools[..k + 1], side);
    WritesLast(pools, side);
    hide Writes, TableOf;
    if k == n {
      assert pools[..n + 1] == pools;
      assert (before + some)[..|before| + j] == before + some[..j];
    } else {
      WritesAt(pools[..n], side, k, j);
      assert pools[..n][..k] == pools[..k] && pools[..n][k] == pools[k];
      assert Writes(pools[..n], side) <= Writes(pools, side);
    }
  }

  lemma WritesLast(pools: seq<DeployPool>, side: Side)
    requires pools != []
    ensures var p := pools[|pools| - 1];
      Writes(pools, side)
      == Writes(pools[..|pools| - 1], side) + if p.exposed then OnRoutes(p.routes, TableOf(Listing(p, side))) else []
  {
  }

  lemma WritesSkip(pools: seq<DeployPool>, side: Side, k: nat)
    requires k < |pools| && !pools[k].exposed
    ensures Writes(pools[..k + 1], side) == Writes(pools[..k], side)
  {
    assert pools[..k + 1][..k] == pools[..k] && pools[..k + 1][k] == pools[k];
  }

  /** Any prefix of the writes leaves each route its old rows or the wanted ones; all of them, the wanted. */
  lemma PrefixRecords(rows: map<int, Table>, pools: seq<DeployPool>, side: Side, n: nat)
    requires RoutesApart(pools) && n <= |Writes(pools, side)|
    ensures var ws := Writes(pools, side)[..n];
      && WrittenFrom(ws, Want(pools, side)) && Recorded(rows, Played(rows, ws), Want(pools, side))
      && (n == |Writes(pools, side)| ==> RecordedAll(Played(rows, ws), Want(pools, side)))
  {
    hide Writes, Want, Played, RoutesApart;
    var all, want := Writes(pools, side), Want(pools, side);
    WritesWanted(pools, side);
    assert forall w :: w in all[..n] ==> w in all;
    PlayedRecords(rows, all[..n], want);
    if n == |all| {
      assert all[..n] == all;
      forall id | id in want ensures id in Played(rows, all) && Played(rows, all)[id] == want[id] {
        PlayedAt(rows, all, want, id);
      }
    }
  }

  function RowsAt(rows: map<int, Table>, id: int): Table { if id in rows then rows[id] else map[] }

  class World {
    /** In a calm world nothing that is asked for fails. */
    const calm: bool

    var rows: map<int, Table>
    var running: set<Container>
    var clock: Time

    /** Every write made, every container a stop was asked for, a stop succeeded of, or a start was made
        of, and whether all writes so far succeeded. */
    ghost var writes: seq<Write>
    ghost var stops: set<Container>
    ghost var started: set<Container>
    ghost var stored: bool
    ghost var gone: set<Container>

    constructor (rows: map<int, Table>, running: set<Container>, clock: Time, calm: bool)
      ensures this.rows == rows && this.running == running && this.clock == clock && this.calm == calm
      ensures writes == [] && stops == {} && started == {} && stored && gone == {}
    {
      this.rows, this.running, this.clock, this.calm := rows, running, clock, calm;
      writes, stops, started, stored, gone := [], {}, {}, true, {};
    }

    /** Whether a call that may fail succeeds. */
    method Chance() returns (ok: bool)
      ensures calm ==> ok
    {
      ok := *;
      if calm { ok := true; }
    }

    /** Any call whose only effect here is to succeed or fail. */
    method Attempt() returns (ok: bool)
      ensures calm ==> ok
    {
      ok := Chance();
    }

    method Now() returns (t: Time)
      modifies `clock
      ensures t == clock >= old(clock)
    {
      var passed: int := *;
      if passed > 0 { clock := clock + passed; }
      t := clock;
    }

    /** Replaces a route's rows in one transaction, or leaves them. */
    method SetTargets(route: int, reps: seq<Replica>) returns (ok: bool)
      modifies `rows, `writes, `stored
      ensures ok ==> && rows == old(rows)[route := TableOf(reps)] && stored == old(stored)
                     && writes == old(writes) + [Write(route, TableOf(reps))]
      ensures !ok ==> rows == old(rows) && writes == old(writes) && !stored
      ensures calm ==> ok
    {
      ok := Chance();
      if ok {
        rows := rows[route := TableOf(reps)];
        writes := writes + [Write(route, TableOf(reps))];
      } else {
        stored := false;
      }
    }

    /** Records a pool under the first routes of its service, up to `limit` of them or the first failure. */
    method RecordSome(routes: seq<int>, reps: seq<Replica>, limit: nat) returns (n: nat)
      modifies `rows, `writes, `stored
      ensures n <= |routes| && n <= limit && writes == old(writes) + OnRoutes(routes, TableOf(reps))[..n]
      ensures rows == Played(old(rows), OnRoutes(routes, TableOf(reps))[..n])
      ensures stored == (old(stored) && (n == |routes| || n == limit))
      ensures calm ==> n == |routes| || n == limit
    {
      hide TableOf;
      ghost var all := OnRoutes(routes, TableOf(reps));
      n := 0;
      while n < |routes| && n < limit
        invariant n <= |routes| && n <= limit && writes == old(writes) + all[..n] && stored == old(stored)
        invariant rows == Played(old(rows), all[..n])
      {
        assert all[..n + 1] == all[..n] + [all[n]];
        PlayedMore(old(rows), all[..n], all[n]);
        var ok := SetTargets(routes[n], reps);
        if !ok { return; }
        n := n + 1;
      }
    }

    /** Records a pool under every route of its service, stopping at the first failure. */
    method RecordTargets(routes: seq<int>, reps: seq<Replica>) returns (ok: bool, ghost n: nat)
      modifies `rows, `writes, `stored
      ensures n <= |routes| && writes == old(writes) + OnRoutes(routes, TableOf(reps))[..n]
      ensures rows == Played(old(rows), OnRoutes(routes, TableOf(reps))[..n])
      ensures (ok <==> n == |routes|) && stored == (old(stored) && ok)
      ensures calm ==> ok
    {
      var k := RecordSome(routes, reps, |routes|);
      ok, n := k == |routes|, k;
    }

    /** The rows of a route as the Store lists them, each number once. */
    method Targets(route: int) returns (found: Option<seq<Listed>>)
      ensures calm ==> found.Some?
      ensures found.Some? ==> Lists(found.value, RowsAt(rows, route))
    {
      var ok := Chance();
      if !ok { return None; }
      var t := RowsAt(rows, route);
      var rest := t.Keys;
      var out: seq<Listed> := [];
      while rest != {}
        invariant rest <= t.Keys
        invariant forall k :: 0 <= k < |out| ==> out[k].index in t && t[out[k].index] == out[k].row && out[k].index !in rest
        invariant forall i :: i in t && i !in rest ==> Listed(i, t[i]) in out
        invariant forall j, k :: 0 <= j < k < |out| ==> out[j].index != out[k].index
      {
        assert (forall i :: i !in rest) ==> rest == {};
        var i :| i in rest;
        assert forall k :: 0 <= k < |out| ==> out[k].index != i;
        out := out + [Listed(i, t[i])];
        rest := rest - {i};
      }
      return Some(out);
    }

    /** Stops and removes a container; it may be stopped even when this fails. */
    method StopReplica(c: Container) returns (ok: bool)
      modifies `running, `stops, `gone
      ensures stops == old(stops) + {c} && gone == if ok then old(gone) + {c} else old(gone)
      ensures running == old(running) || running == old(running) - {c}
      ensures ok ==> running == old(running) - {c}
      ensures calm ==> ok
    {
      stops := stops + {c};
      var stopped := Chance();
      var removed := Chance();
      if stopped { running := running - {c}; }
      ok := stopped && removed;
      if ok { gone := gone + {c}; }
    }

    /** Brings up a replica and waits for it: it may fail before there is a container, or after. */
    method BringUp(c: Container) returns (exists_: bool, ok: bool)
      modifies `running, `started
      ensures ok ==> exists_ && c in running
      ensures exists_ ==> started == old(started) + {c}
      ensures !exists_ ==> started == old(started) && running == old(running)
      ensures running == old(running) || running == old(running) + {c}
      ensures calm ==> ok
    {
      exists_ := Chance();
      ok := false;
      if exists_ {
        started := started + {c};
        var up := Chance();
        if up { running := running + {c}; }
        var healthy := Chance();
        ok := up && healthy;
      }
    }

    /** The replicas of a service that run and have a number. */
    method LiveReplicas(service: string) returns (live: Option<seq<int>>)
      ensures calm ==> live.Some?
      ensures live.Some? ==> forall i, j :: 0 <= i < j < |live.value| ==> live.value[i] != live.value[j]
      ensures live.Some? ==> forall i :: i in live.value <==> i >= 1 && Container(service, i) in running
    {
      var ok := Chance();
      if !ok { return None; }
      var rest := set c | c in running && c.service == service && c.index >= 1;
      var all := rest;
      var out: seq<int> := [];
      while rest != {}
        invariant rest <= all
        invariant forall i, j :: 0 <= i < j < |out| ==> out[i] != out[j]
        invariant forall i :: i in out <==> Container(service, i) in all && Container(service, i) !in rest
      {
        var c :| c in rest;
        assert c == Container(service, c.index);
        out := out + [c.index];
        rest := rest - {c};
      }
      return Some(out);
    }
  }
}
