/** The route rows a deploy writes, as values: what a table of replicas records and what it shows. */
module Rows {
  import opened Edge

  datatype ReplicaState =
    | RStarting | RHealthy | RActive | RDraining | RStopped | RFailed | RHeld | RUnhealthy
  {
    function Target(): TargetState {
      match this
      case RActive => Active
      case RDraining => Draining
      case RStopped => Stopped
      case RFailed => Stopped
      case RHeld => Held
      case RUnhealthy => Unhealthy
      case RStarting => Starting
      case RHealthy => Starting
    }
  }

  datatype Replica = Replica(index: int, port: int, state: ReplicaState)

  datatype Row = Row(port: int, state: TargetState)

  type Table = map<int, Row>

  function WithState(reps: seq<Replica>, st: ReplicaState): (r: seq<Replica>)
    ensures |r| == |reps|
    ensures forall i :: 0 <= i < |reps| ==> r[i] == reps[i].(state := st)
  {
    seq(|reps|, i requires 0 <= i < |reps| => reps[i].(state := st))
  }

  /** The rows recorded for a pool: one per replica that has a port. */
  function TableOf(reps: seq<Replica>): Table {
    if reps == [] then map[]
    else
      var r := reps[|reps| - 1];
      var t := TableOf(reps[..|reps| - 1]);
      if r.port <= 0 then t else t[r.index := Row(r.port, r.state.Target())]
  }

  ghost function ActiveIn(t: Table): set<int> { set i | i in t && t[i].state == Active }

  /** Held rows, and rows still draining: both belong to the old pool. */
  ghost function HeldIn(t: Table): set<int> { set i | i in t && (t[i].state == Held || t[i].state == Draining) }

  /** The indexes of the replicas that get a row. */
  ghost function Ported(reps: seq<Replica>): set<int> { set r | r in reps && r.port > 0 :: r.index }

  ghost function Indexes(reps: seq<Replica>): set<int> { set r | r in reps :: r.index }

  ghost predicate DistinctIndexes(reps: seq<Replica>) {
    forall i, j :: 0 <= i < j < |reps| ==> reps[i].index != reps[j].index
  }

  lemma {:induction false} TableShape(reps: seq<Replica>)
    requires DistinctIndexes(reps)
    ensures forall i :: i in TableOf(reps) <==> exists r :: r in reps && r.port > 0 && r.index == i
    ensures forall r :: r in reps && r.port > 0 ==>
      r.index in TableOf(reps) && TableOf(reps)[r.index] == Row(r.port, r.state.Target())
  {
    if reps != [] {
      var n := |reps| - 1;
      TableShape(reps[..n]);
      assert reps == reps[..n] + [reps[n]];
      assert forall r :: r in reps[..n] ==> r.index != reps[n].index;
      assert reps[n] in reps;
    }
  }

  /** A table of an active pool beside an inactive one shows exactly the active pool. */
  lemma ActiveBeside(incoming: seq<Replica>, held: seq<Replica>)
    requires DistinctIndexes(incoming + held)
    requires (forall r :: r in incoming ==> r.state == RActive) && forall r :: r in held ==> r.state != RActive
    ensures ActiveIn(TableOf(incoming + held)) == Ported(incoming)
  {
    var all := incoming + held;
    TableShape(all);
    var t := TableOf(all);
    forall i ensures i in ActiveIn(t) <==> i in Ported(incoming) {
      if i in Ported(incoming) {
        var r :| r in incoming && r.port > 0 && r.index == i;
        assert r in all;
      }
      if i in t && t[i].state == Active {
        var r :| r in all && r.port > 0 && r.index == i;
        assert r in incoming;
      }
    }
  }

  /** The same with the pools listed the other way round: the incoming one is on its way out. */
  lemma ActiveBehind(incoming: seq<Replica>, held: seq<Replica>)
    requires DistinctIndexes(incoming + held)
    requires (forall r :: r in held ==> r.state == RActive) && forall r :: r in incoming ==> r.state != RActive
    ensures ActiveIn(TableOf(incoming + held)) == Ported(held)
  {
    var all := incoming + held;
    TableShape(all);
    var t := TableOf(all);
    forall i ensures i in ActiveIn(t) <==> i in Ported(held) {
      if i in Ported(held) {
        var r :| r in held && r.port > 0 && r.index == i;
        assert r in all;
      }
      if i in t && t[i].state == Active {
        var r :| r in all && r.port > 0 && r.index == i;
        assert r in held;
      }
    }
  }

  lemma HeldBeside(incoming: seq<Replica>, held: seq<Replica>)
    requires DistinctIndexes(incoming + held)
    requires forall r :: r in incoming ==> r.state == RActive
    requires forall r :: r in held ==> r.state == RHeld || r.state == RDraining
    ensures HeldIn(TableOf(incoming + held)) == Ported(held)
  {
    var all := incoming + held;
    TableShape(all);
    var t := TableOf(all);
    forall i ensures i in HeldIn(t) <==> i in Ported(held) {
      if i in Ported(held) {
        var r :| r in held && r.port > 0 && r.index == i;
        assert r in all;
      }
      if i in t && (t[i].state == Held || t[i].state == Draining) {
        var r :| r in all && r.port > 0 && r.index == i;
        assert r in held;
      }
    }
  }

  /** The incoming pool on its way out is what a reader takes for held. */
  lemma HeldBehind(incoming: seq<Replica>, held: seq<Replica>)
    requires DistinctIndexes(incoming + held)
    requires (forall r :: r in held ==> r.state == RActive) && forall r :: r in incoming ==> r.state == RDraining
    ensures HeldIn(TableOf(incoming + held)) == Ported(incoming)
  {
    var all := incoming + held;
    TableShape(all);
    var t := TableOf(all);
    forall i ensures i in HeldIn(t) <==> i in Ported(incoming) {
      if i in Ported(incoming) {
        var r :| r in incoming && r.port > 0 && r.index == i;
        assert r in all;
      }
      if i in t && (t[i].state == Held || t[i].state == Draining) {
        var r :| r in all && r.port > 0 && r.index == i;
        assert r in incoming;
      }
    }
  }

  // ----- reading a deploy back out of its rows

  /** A row as the Store lists it. */
  datatype Listed = Listed(index: int, row: Row)

  /** What a resumed deploy makes of a route's rows: the new pool, the old one, and whether to rewrite. */
  datatype Resumed = Resumed(incoming: seq<Replica>, held: seq<Replica>, normalised: bool)

  function Resume(rows: seq<Listed>): Resumed {
    if rows == [] then Resumed([], [], false)
    else
      var r := Resume(rows[..|rows| - 1]);
      var Listed(i, row) := rows[|rows| - 1];
      if row.state == Held || row.state == Draining then
        r.(held := r.held + [Replica(i, row.port, RHeld)], normalised := r.normalised || row.state != Held)
      else if row.state == Active then r.(incoming := r.incoming + [Replica(i, row.port, RActive)])
      else r
  }

  /** The rows of a table as the Store lists them: each index once. */
  ghost predicate Lists(rows: seq<Listed>, t: Table) {
    && (forall k :: 0 <= k < |rows| ==> rows[k].index in t && t[rows[k].index] == rows[k].row)
    && (forall i :: i in t ==> Listed(i, t[i]) in rows)
    && (forall j, k :: 0 <= j < k < |rows| ==> rows[j].index != rows[k].index)
  }

  lemma ResumeSplits(rows: seq<Listed>)
    ensures forall x :: x in Resume(rows).incoming <==> ReadAsIncoming(rows, x)
    ensures forall x :: x in Resume(rows).held <==> ReadAsHeld(rows, x)
  {
    forall x
      ensures x in Resume(rows).incoming <==> ReadAsIncoming(rows, x)
      ensures x in Resume(rows).held <==> ReadAsHeld(rows, x)
    {
      ResumeReadsOne(rows, x);
    }
  }

  ghost predicate ReadAsIncoming(rows: seq<Listed>, x: Replica) {
    x.state == RActive && Listed(x.index, Row(x.port, Active)) in rows
  }

  ghost predicate ReadAsHeld(rows: seq<Listed>, x: Replica) {
    && x.state == RHeld
    && (Listed(x.index, Row(x.port, Held)) in rows || Listed(x.index, Row(x.port, Draining)) in rows)
  }

  lemma {:induction false} ResumeReadsOne(rows: seq<Listed>, x: Replica)
    ensures x in Resume(rows).incoming <==> ReadAsIncoming(rows, x)
    ensures x in Resume(rows).held <==> ReadAsHeld(rows, x)
  {
    if rows != [] {
      var n := |rows| - 1;
      ResumeReadsOne(rows[..n], x);
      assert rows == rows[..n] + [rows[n]];
      assert rows[n] == Listed(rows[n].index, Row(rows[n].row.port, rows[n].row.state));
    }
  }

  /**
   A resumed deploy finds the very pools that were switched: its new pool is what was incoming and
   its old one what was held, for a crash while the old pool was draining as well as held.
   */
  lemma ResumeRebuilds(incoming: seq<Replica>, held: seq<Replica>, rows: seq<Listed>)
    requires DistinctIndexes(incoming + held) && Lists(rows, TableOf(incoming + held))
    requires forall r :: r in incoming ==> r.state == RActive
    requires forall r :: r in held ==> r.state == RHeld || r.state == RDraining
    ensures Indexes(Resume(rows).incoming) == Ported(incoming) && Indexes(Resume(rows).held) == Ported(held)
  {
    ActiveBeside(incoming, held);
    HeldBeside(incoming, held);
    ResumeReads(rows, TableOf(incoming + held));
  }

  /** Reading rows back: the new pool is what they show active, the old one what they show held. */
  lemma ResumeReads(rows: seq<Listed>, t: Table)
    requires Lists(rows, t)
    ensures Indexes(Resume(rows).incoming) == ActiveIn(t) && Indexes(Resume(rows).held) == HeldIn(t)
  {
    ResumeSplits(rows);
    var r := Resume(rows);
    forall i ensures i in Indexes(r.incoming) <==> i in ActiveIn(t) {
      if i in ActiveIn(t) { assert Replica(i, t[i].port, RActive) in r.incoming; }
    }
    forall i ensures i in Indexes(r.held) <==> i in HeldIn(t) {
      if i in HeldIn(t) { assert Replica(i, t[i].port, RHeld) in r.held; }
    }
  }

  /**
   The whole old pool comes back exactly when every held replica has a port: one without a port has
   no row, so a resumed deploy does not know it.
   */
  lemma ResumeKeepsAllIffPorted(incoming: seq<Replica>, held: seq<Replica>, rows: seq<Listed>)
    requires DistinctIndexes(incoming + held) && Lists(rows, TableOf(incoming + held))
    requires forall r :: r in incoming ==> r.state == RActive
    requires forall r :: r in held ==> r.state == RHeld || r.state == RDraining
    ensures Indexes(Resume(rows).held) == Indexes(held) <==> forall r :: r in held ==> r.port > 0
  {
    ResumeRebuilds(incoming, held, rows);
    if Ported(held) == Indexes(held) {
      forall r | r in held ensures r.port > 0 {
        assert r.index in Indexes(held);
        var q :| q in held && q.port > 0 && q.index == r.index;
        OneOf(incoming, held, q, r);
      }
    } else {
      assert Ported(held) <= Indexes(held);
    }
  }

  /** One held replica without a port: the rows list only the new one, and nothing held is read back. */
  lemma PortlessIsLost()
    ensures var incoming, held := [Replica(2, 8002, RActive)], [Replica(1, 0, RHeld)];
      && Lists([Listed(2, Row(8002, Active))], TableOf(incoming + held))
      && Resume([Listed(2, Row(8002, Active))]).held == []
  {
    var incoming, held := [Replica(2, 8002, RActive)], [Replica(1, 0, RHeld)];
    var all := incoming + held;
    assert all[..1] == incoming && incoming[..0] == [];
    assert TableOf(all) == TableOf(incoming) == map[2 := Row(8002, Active)];
    assert [Listed(2, Row(8002, Active))][..0] == [];
    assert Listed(2, Row(8002, Active)) in [Listed(2, Row(8002, Active))];
  }

  lemma OneOf(incoming: seq<Replica>, held: seq<Replica>, q: Replica, r: Replica)
    requires DistinctIndexes(incoming + held) && q in held && r in held && q.index == r.index
    ensures q == r
  {
    var i :| 0 <= i < |held| && held[i] == q;
    var j :| 0 <= j < |held| && held[j] == r;
    assert (incoming + held)[|incoming| + i] == q && (incoming + held)[|incoming| + j] == r;
  }

  /** Writing the rows a resumed deploy read, with the old pool held, shows the same active pool. */
  lemma NormalisingKeepsActive(rows: seq<Listed>, t: Table)
    requires Lists(rows, t) && forall i :: i in t ==> t[i].port > 0
    ensures var r := Resume(rows); ActiveIn(TableOf(r.incoming + r.held)) == ActiveIn(t)
  {
    var r := Resume(rows);
    ResumeSplits(rows);
    ResumeDistinct(rows);
    ResumeReads(rows, t);
    ActiveBeside(r.incoming, r.held);
    forall x | x in r.incoming ensures x.port > 0 {
      assert Listed(x.index, Row(x.port, Active)) in rows;
    }
    assert Ported(r.incoming) == Indexes(r.incoming);
  }

  lemma {:induction false} ResumeDistinct(rows: seq<Listed>)
    requires forall j, k :: 0 <= j < k < |rows| ==> rows[j].index != rows[k].index
    ensures DistinctIndexes(Resume(rows).incoming + Resume(rows).held)
    ensures forall x :: x in Resume(rows).incoming + Resume(rows).held ==> exists k :: 0 <= k < |rows| && rows[k].index == x.index
  {
    if rows != [] {
      var n := |rows| - 1;
      var r, r' := Resume(rows[..n]), Resume(rows);
      ResumeDistinct(rows[..n]);
      assert forall x :: x in r.incoming + r.held ==> x.index != rows[n].index;
      assert forall x :: x in r.incoming ==> x in r.incoming + r.held;
      assert forall x :: x in r.held ==> x in r.incoming + r.held;
      AddOne(r.incoming, r.held, Replica(rows[n].index, rows[n].row.port, RActive));
      AddOne(r.incoming, r.held, Replica(rows[n].index, rows[n].row.port, RHeld));
      forall x | x in r'.incoming + r'.held ensures exists k :: 0 <= k < |rows| && rows[k].index == x.index {
        if x.index == rows[n].index {
        } else {
          assert x in r.incoming + r.held;
          var k :| 0 <= k < |rows[..n]| && rows[..n][k].index == x.index;
          assert rows[k].index == x.index;
        }
      }
    }
  }

  lemma AddOne(a: seq<Replica>, b: seq<Replica>, x: Replica)
    requires DistinctIndexes(a + b) && forall y :: y in a + b ==> y.index != x.index
    ensures DistinctIndexes(a + [x] + b) && DistinctIndexes(a + (b + [x]))
  {
    forall i, j | 0 <= i < j < |a + [x] + b| ensures (a + [x] + b)[i].index != (a + [x] + b)[j].index {
      var i', j' := if i < |a| then i else i - 1, if j < |a| then j else j - 1;
      if i != |a| { assert (a + [x] + b)[i] == (a + b)[i'] && (a + b)[i'] in a + b; }
      if j != |a| { assert (a + [x] + b)[j] == (a + b)[j'] && (a + b)[j'] in a + b; }
    }
    assert a + (b + [x]) == (a + b) + [x];
    assert forall i :: 0 <= i < |a + b| ==> (a + b)[i] in a + b;
  }
}
