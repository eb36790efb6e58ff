/** The health loop: what it counts, when it restarts a replica, and what it does to the route rows. */
module Health {
  import opened Edge

  datatype Key = Key(service: string, replica: int)

  datatype RouteOf = RouteOf(id: int, service: string)

  type Rows = map<int, map<int, TargetState>>

  // ----- what happened, as a log

  datatype Act =
    | ProbePassed
    | ProbeFailed
    | Restarted(ok: bool)
    | Marked(route: int, before: TargetState, after: TargetState)

  datatype Entry = Entry(key: Key, act: Act)

  predicate Clears(e: Entry, key: Key) {
    e.key == key && (e.act.ProbePassed? || e.act == Restarted(true))
  }

  predicate Fails(e: Entry, key: Key) {
    e.key == key && e.act.ProbeFailed?
  }

  /** Failed probes of a replica since its last passed one or its last successful restart. */
  ghost function Streak(log: seq<Entry>, key: Key): nat {
    if log == [] then 0
    else
      var n := |log| - 1;
      if Clears(log[n], key) then 0 else Streak(log[..n], key) + if Fails(log[n], key) then 1 else 0
  }

  /** A replica is down from the failed probe that reaches the limit until one passes. */
  ghost predicate Down(log: seq<Entry>, key: Key, limit: int) {
    log != [] &&
    var n := |log| - 1;
    if log[n] == Entry(key, ProbePassed) then false
    else Down(log[..n], key, limit) || (Fails(log[n], key) && Streak(log, key) >= limit)
  }

  ghost function CountFailed(log: seq<Entry>, key: Key): nat {
    if log == [] then 0
    else CountFailed(log[..|log| - 1], key) + if Fails(log[|log| - 1], key) then 1 else 0
  }

  /** The streak is a plain count: of the failed probes after some point, with nothing clearing them since. */
  lemma {:induction false} StreakIsACount(log: seq<Entry>, key: Key) returns (m: nat)
    ensures m <= |log| && CountFailed(log[m..], key) == Streak(log, key)
    ensures forall i :: m <= i < |log| ==> !Clears(log[i], key)
    ensures m == 0 || Clears(log[m - 1], key)
  {
    if log == [] {
      m := 0;
    } else {
      var n := |log| - 1;
      if Clears(log[n], key) {
        m := |log|;
      } else {
        m := StreakIsACount(log[..n], key);
        assert log[..n][m..] == log[m..][..n - m];
        if m > 0 { assert log[..n][m - 1] == log[m - 1]; }
        forall i | m <= i < |log| ensures !Clears(log[i], key) {
          if i < n { assert log[..n][i] == log[i]; }
        }
      }
    }
  }

  predicate IsProbe(a: Act) { a.ProbePassed? || a.ProbeFailed? }

  /** The replicas probed, in order. */
  ghost function Probed(log: seq<Entry>): seq<Key> {
    if log == [] then []
    else
      var e := log[|log| - 1];
      Probed(log[..|log| - 1]) + if IsProbe(e.act) then [e.key] else []
  }

  lemma ProbedMore(log: seq<Entry>, e: Entry)
    ensures Probed(log + [e]) == Probed(log) + if IsProbe(e.act) then [e.key] else []
  {
    assert (log + [e])[..|log|] == log;
  }

  /** What the log of a loop promises, entry by entry. */
  ghost predicate Justified(log: seq<Entry>, limit: int) {
    forall i :: 0 <= i < |log| ==> JustifiedAt(log, i, limit)
  }

  ghost predicate JustifiedAt(log: seq<Entry>, i: nat, limit: int)
    requires i < |log|
  {
    var e := log[i];
    match e.act
    case Restarted(_) => Streak(log[..i], e.key) >= limit
    case Marked(_, before, after) =>
      && before != Held && before != after
      && (after == Active || after == Unhealthy)
      && (after == Active ==> Back(log[..i], e.key, limit))
      && (after == Unhealthy ==> Streak(log[..i], e.key) >= limit)
    case _ => true
  }

  /** The last thing but marks that happened to the replica: it was down, and a probe passed. */
  ghost predicate Back(log: seq<Entry>, key: Key, limit: int) {
    log != [] &&
    var n := |log| - 1;
    if log[n].key == key && log[n].act.Marked? then Back(log[..n], key, limit)
    else log[n] == Entry(key, ProbePassed) && Down(log[..n], key, limit)
  }

  lemma JustifiedMore(log: seq<Entry>, e: Entry, limit: int)
    requires Justified(log, limit) && JustifiedAt(log + [e], |log|, limit)
    ensures Justified(log + [e], limit)
  {
    forall i | 0 <= i < |log + [e]| ensures JustifiedAt(log + [e], i, limit) {
      if i < |log| {
        assert (log + [e])[..i] == log[..i];
        assert JustifiedAt(log, i, limit);
      }
    }
  }

  /**
   Every restart comes after at least `limit` failed probes of that replica, with no passed probe
   and no successful restart of it in between.
   */
  lemma RestartsAreEarned(log: seq<Entry>, limit: int, i: nat) returns (m: nat)
    requires Justified(log, limit) && i < |log| && log[i].act.Restarted?
    ensures m <= i && CountFailed(log[m..i], log[i].key) >= limit
    ensures forall j :: m <= j < i ==> !Clears(log[j], log[i].key)
  {
    assert JustifiedAt(log, i, limit);
    m := StreakIsACount(log[..i], log[i].key);
    assert log[..i][m..] == log[m..i];
    forall j | m <= j < i ensures !Clears(log[j], log[i].key) { assert log[..i][j] == log[j]; }
  }

  /** Down means it reached the limit since its last passed probe. */
  lemma {:induction false} DownIsEarned(log: seq<Entry>, key: Key, limit: int) returns (j: nat)
    requires Down(log, key, limit)
    ensures j < |log| && Fails(log[j], key) && Streak(log[..j + 1], key) >= limit
    ensures forall i :: j < i < |log| ==> log[i] != Entry(key, ProbePassed)
  {
    var n := |log| - 1;
    if Fails(log[n], key) && Streak(log, key) >= limit {
      j := n;
      assert log[..n + 1] == log;
    } else {
      j := DownIsEarned(log[..n], key, limit);
      assert log[..n][..j + 1] == log[..j + 1];
      forall i | j < i < |log| ensures log[i] != Entry(key, ProbePassed) {
        if i < n { assert log[..n][i] == log[i]; }
      }
    }
  }

  /** A replica is made active only by a passed probe that found it down, and by nothing since. */
  lemma {:induction false} BackIsEarned(log: seq<Entry>, key: Key, limit: int) returns (j: nat)
    requires Back(log, key, limit)
    ensures j < |log| && log[j] == Entry(key, ProbePassed) && Down(log[..j], key, limit)
    ensures forall i :: j < i < |log| ==> log[i].key == key && log[i].act.Marked?
  {
    var n := |log| - 1;
    if log[n].key == key && log[n].act.Marked? {
      j := BackIsEarned(log[..n], key, limit);
      assert log[..n][j] == log[j] && log[..n][..j] == log[..j];
      forall i | j < i < |log| ensures log[i].key == key && log[i].act.Marked? {
        if i < n { assert log[..n][i] == log[i]; }
      }
    } else {
      j := n;
    }
  }

  /**
   A row goes back to active only after its replica failed `limit` probes in a row, was taken down
   for it, and then passed one.
   */
  lemma RestoresAreEarned(log: seq<Entry>, limit: int, i: nat) returns (j: nat, f: nat)
    requires Justified(log, limit) && i < |log| && log[i].act.Marked? && log[i].act.after == Active
    ensures f < j < i && log[j] == Entry(log[i].key, ProbePassed) && Down(log[..j], log[i].key, limit)
    ensures Fails(log[f], log[i].key) && Streak(log[..f + 1], log[i].key) >= limit
    ensures forall k :: f < k < j ==> log[k] != Entry(log[i].key, ProbePassed)
    ensures forall k :: j < k < i ==> log[k].key == log[i].key && log[k].act.Marked?
  {
    assert JustifiedAt(log, i, limit);
    var before := log[..i];
    j := BackIsEarned(before, log[i].key, limit);
    f := DownIsEarned(before[..j], log[i].key, limit);
    assert before[..j] == log[..j] && before[j] == log[j];
    assert before[..j][..f + 1] == log[..f + 1] && before[..j][f] == log[f];
    forall k | f < k < j ensures log[k] != Entry(log[i].key, ProbePassed) { assert before[..j][k] == log[k]; }
    forall k | j < k < i ensures log[k].key == log[i].key && log[k].act.Marked? { assert before[k] == log[k]; }
  }

  /**
   A restore that could not be written is not tried again: once a probe passes for a replica that is
   not down, its rows go back to active only after it fails `limit` probes in a row once more.
   */
  lemma LostRestore(log: seq<Entry>, limit: int, n: nat, i: nat) returns (f: nat)
    requires Justified(log, limit) && n < i < |log| && log[i].act.Marked? && log[i].act.after == Active
    requires log[n] == Entry(log[i].key, ProbePassed) && !Down(log[..n], log[i].key, limit)
    ensures n < f < i && Fails(log[f], log[i].key) && Streak(log[..f + 1], log[i].key) >= limit
  {
    hide Streak, Down, Justified;
    var j: nat;
    j, f := RestoresAreEarned(log, limit, i);
  }

  // ----- one more entry

  lemma Logged(log: seq<Entry>, e: Entry, key: Key, limit: int)
    ensures Streak(log + [e], key) == if Clears(e, key) then 0 else Streak(log, key) + if Fails(e, key) then 1 else 0
    ensures Down(log + [e], key, limit) <==>
      e != Entry(key, ProbePassed) && (Down(log, key, limit) || (Fails(e, key) && Streak(log + [e], key) >= limit))
    ensures Back(log + [e], key, limit) <==>
      if e.key == key && e.act.Marked? then Back(log, key, limit) else e == Entry(key, ProbePassed) && Down(log, key, limit)
  {
    var all := log + [e];
    assert all[..|log|] == log && all[|log|] == e;
  }

  /** What one write of a row may be: of a route of the service, never of a held target. */
  ghost predicate RowsMoved(before: Rows, after: Rows, key: Key, want: TargetState, routes: seq<RouteOf>) {
    && before.Keys == after.Keys
    && forall id :: id in before ==>
      && before[id].Keys == after[id].Keys
      && forall r :: r in before[id] && after[id][r] != before[id][r] ==>
        r == key.replica && before[id][r] != Held && after[id][r] == want && RouteOf(id, key.service) in routes
  }

  /** Every route of the service that has the replica, and does not hold it, shows the state. */
  ghost predicate Shown(rows: Rows, key: Key, want: TargetState, routes: seq<RouteOf>) {
    forall x :: x in routes && x.service == key.service && x.id in rows && key.replica in rows[x.id] ==>
      rows[x.id][key.replica] == want || rows[x.id][key.replica] == Held
  }

  ghost predicate DistinctIds(routes: seq<RouteOf>) {
    forall i, j :: 0 <= i < j < |routes| ==> routes[i].id != routes[j].id
  }

  lemma MovedWider(before: Rows, after: Rows, key: Key, want: TargetState, routes: seq<RouteOf>, i: nat)
    requires i < |routes| && RowsMoved(before, after, key, want, routes[..i])
    ensures RowsMoved(before, after, key, want, routes[..i + 1])
  {
    assert forall x :: x in routes[..i] ==> x in routes[..i + 1];
  }

  /** The first routes dealt with, the others untouched: all show the state if and only if the others did. */
  lemma Partly(before: Rows, after: Rows, key: Key, want: TargetState, routes: seq<RouteOf>, i: nat)
    requires i <= |routes| && RowsMoved(before, after, key, want, routes[..i]) && Shown(after, key, want, routes[..i])
    ensures DistinctIds(routes) ==> (Shown(after, key, want, routes) <==> Shown(before, key, want, routes[i..]))
    ensures RowsMoved(before, after, key, want, routes)
  {
    assert forall x :: x in routes[..i] ==> x in routes;
    assert routes == routes[..i] + routes[i..];
    if DistinctIds(routes) {
      forall x | x in routes[i..] ensures forall s :: RouteOf(x.id, s) !in routes[..i] {
        var k :| 0 <= k < |routes[i..]| && routes[i..][k] == x;
        assert routes[i + k] == x;
      }
      forall x | x in routes[i..] && x.id in before && key.replica in before[x.id]
        ensures after[x.id][key.replica] == before[x.id][key.replica]
      {
      }
    }
  }

  lemma NoneMoved(rows: Rows, key: Key, want: TargetState, routes: seq<RouteOf>)
    ensures RowsMoved(rows, rows, key, want, routes[..0]) && Shown(rows, key, want, routes[..0])
  {
  }

  lemma MovedNowhere(rows: Rows, key: Key, want: TargetState, routes: seq<RouteOf>)
    ensures RowsMoved(rows, rows, key, want, routes)
  {
  }

  lemma ShownFewer(rows: Rows, key: Key, want: TargetState, routes: seq<RouteOf>, i: nat)
    requires i <= |routes|
    ensures Shown(rows, key, want, routes) ==> Shown(rows, key, want, routes[i..])
  {
    assert forall x :: x in routes[i..] ==> x in routes;
  }

  lemma ShownMore(rows: Rows, key: Key, want: TargetState, routes: seq<RouteOf>, i: nat)
    requires i < |routes| && Shown(rows, key, want, routes[..i])
    ensures var x := routes[i];
      (x.service == key.service && x.id in rows && key.replica in rows[x.id] ==>
         rows[x.id][key.replica] == want || rows[x.id][key.replica] == Held)
      ==> Shown(rows, key, want, routes[..i + 1])
  {
    assert routes[..i + 1] == routes[..i] + [routes[i]];
    assert routes[i] in routes[..i + 1];
  }

  lemma MovedMore(before: Rows, rows: Rows, key: Key, want: TargetState, routes: seq<RouteOf>, i: nat)
    requires i < |routes| && RowsMoved(before, rows, key, want, routes[..i]) && routes[i].service == key.service
    requires Shown(rows, key, want, routes[..i])
    requires var id := routes[i].id;
      id in rows && key.replica in rows[id] && rows[id][key.replica] != want && rows[id][key.replica] != Held
    ensures var id := routes[i].id;
      var after := rows[id := rows[id][key.replica := want]];
      && RowsMoved(before, after, key, want, routes[..i + 1]) && Shown(after, key, want, routes[..i + 1]) && after != before
  {
    var id := routes[i].id;
    var after := rows[id := rows[id][key.replica := want]];
    assert routes[..i + 1] == routes[..i] + [routes[i]];
    assert routes[i] == RouteOf(id, key.service) && routes[i] in routes[..i + 1];
    assert before[id][key.replica] != after[id][key.replica];
  }

  /** The log grew, by entries of one replica. */
  ghost predicate OnlyOf(before: seq<Entry>, after: seq<Entry>, key: Key) {
    before <= after && forall i :: |before| <= i < |after| ==> after[i].key == key
  }

  ghost predicate HeldStays(before: Rows, after: Rows) {
    forall id, r :: id in before && r in before[id] && before[id][r] == Held ==>
      id in after && r in after[id] && after[id][r] == Held
  }

  /** The replicas that some listed route holds. */
  ghost predicate HeldKey(rows: Rows, routes: seq<RouteOf>, key: Key) {
    exists x :: x in routes && x.service == key.service && x.id in rows && key.replica in rows[x.id]
             && rows[x.id][key.replica] == Held
  }

  ghost predicate Visited(replicas: seq<(Key, bool)>, n: int, key: Key)
    requires n <= |replicas|
  {
    exists j :: 0 <= j < n && replicas[j].0 == key
  }

  /** Whether the Store answers at present. */
  datatype Mood = Answers | Refuses | Either

  class HealthLoop {
    const limit: int
    var store: Mood

    var fails: map<Key, int>
    var down: set<Key>
    var rows: Rows

    ghost var log: seq<Entry>

    constructor (limit: int, rows: Rows)
      requires limit > 0
      ensures Valid() && this.limit == limit && this.rows == rows && log == [] && fails == map[] && down == {}
      ensures store == Either
    {
      this.limit, this.rows, store := limit, rows, Either;
      fails, down, log := map[], {}, [];
    }

    function FailsOf(key: Key): int
      reads this
    {
      if key in fails then fails[key] else 0
    }

    /** The counts and the down set are what the log says, and every entry of it is justified. */
    ghost predicate Valid()
      reads this
    {
      && limit > 0 && Justified(log, limit)
      && (forall key :: FailsOf(key) == Streak(log, key))
      && (forall key :: key in down <==> Down(log, key, limit))
    }

    method Ask() returns (ok: bool)
      ensures (store == Answers ==> ok) && (store == Refuses ==> !ok)
    {
      ok := *;
      match store {
        case Answers => ok := true;
        case Refuses => ok := false;
        case Either =>
      }
    }

    lemma ValidLog(key: Key)
      requires Valid()
      ensures FailsOf(key) == Streak(log, key) && (key in down <==> Down(log, key, limit))
    {
    }

    ghost method Note(e: Entry)
      modifies `log
      ensures log == old(log) + [e]
      ensures forall key :: Streak(log, key)
                         == if Clears(e, key) then 0 else Streak(old(log), key) + if Fails(e, key) then 1 else 0
      ensures forall key :: Down(log, key, limit) <==>
        e != Entry(key, ProbePassed) && (Down(old(log), key, limit) || (Fails(e, key) && Streak(log, key) >= limit))
      ensures forall key :: Back(log, key, limit) <==>
        if e.key == key && e.act.Marked? then Back(old(log), key, limit)
        else e == Entry(key, ProbePassed) && Down(old(log), key, limit)
      ensures Justified(old(log), limit) && JustifiedAt(log, |old(log)|, limit) ==> Justified(log, limit)
      ensures Probed(log) == Probed(old(log)) + if IsProbe(e.act) then [e.key] else []
    {
      ghost var was := log;
      log := log + [e];
      ProbedMore(was, e);
      forall key
        ensures Streak(log, key) == if Clears(e, key) then 0 else Streak(was, key) + if Fails(e, key) then 1 else 0
        ensures Down(log, key, limit) <==>
          e != Entry(key, ProbePassed) && (Down(was, key, limit) || (Fails(e, key) && Streak(log, key) >= limit))
        ensures Back(log, key, limit) <==>
          if e.key == key && e.act.Marked? then Back(was, key, limit) else e == Entry(key, ProbePassed) && Down(was, key, limit)
      {
        Logged(was, e, key, limit);
      }
      if Justified(was, limit) && JustifiedAt(log, |was|, limit) { JustifiedMore(was, e, limit); }
    }

    /** Marks one row; the Store may refuse. */
    method PutTarget(key: Key, route: int, want: TargetState) returns (ok: bool)
      requires Valid() && route in rows && key.replica in rows[route]
      requires rows[route][key.replica] != want && rows[route][key.replica] != Held
      requires want == Active || want == Unhealthy
      requires want == Active ==> Back(log, key, limit)
      requires want == Unhealthy ==> FailsOf(key) >= limit
      modifies `rows, `log
      ensures Valid() && (want == Active ==> Back(log, key, limit))
      ensures ok ==> rows == old(rows)[route := old(rows)[route][key.replica := want]]
      ensures ok ==> log == old(log) + [Entry(key, Marked(route, old(rows)[route][key.replica], want))]
      ensures !ok ==> rows == old(rows) && log == old(log)
      ensures store == Answers ==> ok
      ensures Probed(log) == Probed(old(log))
    {
      hide Streak, Down, Back, Justified, Probed;
      ok := Ask();
      if ok {
        var e := Entry(key, Marked(route, rows[route][key.replica], want));
        rows := rows[route := rows[route][key.replica := want]];
        ValidLog(key);
        assert (log + [e])[..|log|] == log;
        Note(e);
      }
    }

    /**
     Puts a replica's rows in a state, route by route; held ones and other replicas stay. `done` is
     how many routes were dealt with before the Store refused one.
     */
    method SetTargetState(key: Key, want: TargetState, routes: seq<RouteOf>) returns (changed: bool, ok: bool, ghost done: nat)
      requires Valid() && (want == Active || want == Unhealthy)
      requires want == Active ==> Back(log, key, limit)
      requires want == Unhealthy ==> FailsOf(key) >= limit
      modifies `rows, `log
      ensures Valid() && RowsMoved(old(rows), rows, key, want, routes)
      ensures done <= |routes| && (ok <==> done == |routes|)
      ensures ok ==> Shown(rows, key, want, routes)
      ensures DistinctIds(routes) ==> (Shown(rows, key, want, routes) <==> Shown(old(rows), key, want, routes[done..]))
      ensures changed <==> rows != old(rows)
      ensures OnlyOf(old(log), log, key)
      ensures (store == Answers ==> ok) && (store == Refuses ==> rows == old(rows))
      ensures Probed(log) == Probed(old(log))
    {
      hide Valid, Streak, Down, Back, RowsMoved, Shown, DistinctIds, Probed;
      changed, ok, done := false, false, 0;
      NoneMoved(rows, key, want, routes);
      for i := 0 to |routes|
        invariant done == i && !ok
        invariant Valid() && RowsMoved(old(rows), rows, key, want, routes[..i])
        invariant want == Active ==> Back(log, key, limit)
        invariant want == Unhealthy ==> FailsOf(key) >= limit
        invariant Shown(rows, key, want, routes[..i])
        invariant changed <==> rows != old(rows)
        invariant OnlyOf(old(log), log, key)
        invariant store == Refuses ==> rows == old(rows)
        invariant Probed(log) == Probed(old(log))
      {
        var one := routes[i];
        ghost var was := rows;
        ShownMore(rows, key, want, routes, i);
        MovedWider(old(rows), rows, key, want, routes, i);
        if one.service != key.service {
          done := i + 1;
          continue;
        }
        var read := Ask();
        if !read {
          Partly(old(rows), rows, key, want, routes, i);
          return;
        }
        if one.id in rows && key.replica in rows[one.id] {
          var st := rows[one.id][key.replica];
          if st != want && st != Held {
            var put := PutTarget(key, one.id, want);
            if !put {
              Partly(old(rows), rows, key, want, routes, i);
              return;
            }
            changed := true;
            MovedMore(old(rows), was, key, want, routes, i);
          }
        }
        done := i + 1;
      }
      Partly(old(rows), rows, key, want, routes, |routes|);
      assert routes[..|routes|] == routes;
      ok := true;
    }

    // ----- one replica

    method CountFail(key: Key) returns (n: int)
      requires Valid()
      modifies `fails, `log
      ensures log == old(log) + [Entry(key, ProbeFailed)] && n == FailsOf(key) == old(FailsOf(key)) + 1
      ensures Justified(log, limit) && limit > 0
      ensures forall k :: FailsOf(k) == Streak(log, k)
      ensures forall k :: k in down || (k == key && n >= limit) <==> Down(log, k, limit)
      ensures Probed(log) == Probed(old(log)) + [key]
    {
      hide Streak, Down, Back, Probed;
      n := FailsOf(key) + 1;
      fails := fails[key := n];
      Note(Entry(key, ProbeFailed));
    }

    /** A passed probe: the count starts again, and a replica taken down goes back in the pool. */
    method FoundHealthy(key: Key, routes: seq<RouteOf>) returns (changed: bool, ok: bool, ghost done: nat)
      requires Valid()
      modifies `fails, `down, `rows, `log
      ensures Valid() && FailsOf(key) == 0 && key !in down
      ensures key !in old(down) ==> ok && !changed && rows == old(rows)
      ensures RowsMoved(old(rows), rows, key, Active, routes)
      ensures ok && key in old(down) ==> Shown(rows, key, Active, routes)
      ensures done <= |routes| && (key in old(down) ==> (ok <==> done == |routes|))
      ensures DistinctIds(routes) ==>
        (Shown(rows, key, Active, routes) <==>
         Shown(old(rows), key, Active, routes) || (key in old(down) && Shown(old(rows), key, Active, routes[done..])))
      ensures store == Answers ==> ok
      ensures store == Refuses ==> rows == old(rows)
      ensures OnlyOf(old(log), log, key) && old(log) + [Entry(key, ProbePassed)] <= log
      ensures Probed(log) == Probed(old(log)) + [key]
    {
      hide Streak, Down, Back, Shown, DistinctIds, Probed;
      fails := fails - {key};
      var wasDown := key in down;
      down := down - {key};
      Note(Entry(key, ProbePassed));
      NoneMoved(rows, key, Active, routes);
      MovedNowhere(rows, key, Active, routes);
      if !wasDown { return false, true, 0; }
      changed, ok, done := SetTargetState(key, Active, routes);
      ShownFewer(old(rows), key, Active, routes, done);
    }

    /** A replica at the limit: out of the pool the first time, and restarted every time. */
    method FoundUnhealthy(key: Key, routes: seq<RouteOf>) returns (changed: bool, ok: bool, ghost done: nat)
      requires AtLimit(key) && FailsOf(key) >= limit
      modifies `fails, `down, `rows, `log
      ensures Valid() && key in down
      ensures RowsMoved(old(rows), rows, key, Unhealthy, routes)
      ensures ok && key !in old(down) ==> Shown(rows, key, Unhealthy, routes)
      ensures done <= |routes| && (key !in old(down) ==> (ok <==> done == |routes|))
      ensures key !in old(down) && DistinctIds(routes) ==>
        (Shown(rows, key, Unhealthy, routes) <==> Shown(old(rows), key, Unhealthy, routes[done..]))
      ensures store == Answers ==> ok
      ensures key in old(down) ==> ok && !changed && rows == old(rows)
      ensures ok ==> log[|log| - 1].key == key && log[|log| - 1].act.Restarted?
      ensures ok && log[|log| - 1].act == Restarted(true) ==> FailsOf(key) == 0
      ensures FailsOf(key) == 0 || FailsOf(key) == old(FailsOf(key))
      ensures OnlyOf(old(log), log, key) && Probed(log) == Probed(old(log))
    {
      hide Streak, Down, Back, Shown, DistinctIds, Probed;
      var first := key !in down;
      down := down + {key};
      changed, done := false, 0;
      if first {
        changed, ok, done := SetTargetState(key, Unhealthy, routes);
        if !ok { return; }
      }
      ok := true;
      var restarted: bool := *;
      ValidLog(key);
      assert (log + [Entry(key, Restarted(restarted))])[..|log|] == log;
      Note(Entry(key, Restarted(restarted)));
      if restarted { fails := fails - {key}; }
    }

    /** Valid but for one replica at the limit, about to be taken down. */
    ghost predicate AtLimit(key: Key)
      reads this
    {
      && limit > 0 && Justified(log, limit)
      && (forall k :: FailsOf(k) == Streak(log, k))
      && (forall k :: k in down || k == key <==> Down(log, k, limit))
    }

    /** One replica of a pass: inspected, probed, and put down or back. */
    method Replica(key: Key, probed: bool, routes: seq<RouteOf>) returns (changed: bool, ok: bool)
      requires Valid()
      modifies `fails, `down, `rows, `log
      ensures Valid() && HeldStays(old(rows), rows)
      ensures OnlyOf(old(log), log, key)
      ensures !probed ==> rows == old(rows) && log == old(log)
      ensures probed && ok ==>
        && |log| > |old(log)|
        && (log[|old(log)|] == Entry(key, ProbePassed) || log[|old(log)|] == Entry(key, ProbeFailed))
        && (log[|old(log)|].act == ProbePassed ==> FailsOf(key) == 0 && key !in down)
        && (log[|old(log)|].act == ProbeFailed ==>
            if old(FailsOf(key)) + 1 < limit then FailsOf(key) == old(FailsOf(key)) + 1 && rows == old(rows) && down == old(down)
            else key in down && log[|log| - 1].key == key && log[|log| - 1].act.Restarted?)
      ensures Probed(log) == Probed(old(log)) + [key] || (Probed(log) == Probed(old(log)) && (ok ==> !probed))
    {
      hide Streak, Down, Back, Justified, Probed;
      var inspected: bool := *;
      if !inspected { return false, false; }
      if !probed { return false, true; }
      var passed: bool := *;
      ghost var done: nat;
      if passed {
        changed, ok, done := FoundHealthy(key, routes);
        return;
      }
      var n := CountFail(key);
      if n < limit { return false, true; }
      changed, ok, done := FoundUnhealthy(key, routes);
    }

    /** The replicas held by a route; the Store may refuse to list one. */
    method HeldReplicas(routes: seq<RouteOf>) returns (held: Option<set<Key>>)
      ensures held.Some? ==> forall key :: key in held.value <==> HeldKey(rows, routes, key)
    {
      var out: set<Key> := {};
      for i := 0 to |routes|
        invariant forall key :: key in out <==> HeldKey(rows, routes[..i], key)
      {
        var one := routes[i];
        assert routes[..i + 1] == routes[..i] + [one];
        var read := Ask();
        if !read { return None; }
        if one.id in rows {
          var t := rows[one.id];
          out := out + set r | r in t && t[r] == Held :: Key(one.service, r);
        }
      }
      assert routes[..|routes|] == routes;
      held := Some(out);
    }

    /** A pass over an environment's replicas: held ones are left alone, and the first error ends it. */
    method Environment(replicas: seq<(Key, bool)>, routes: seq<RouteOf>) returns (ok: bool)
      requires Valid()
      modifies `fails, `down, `rows, `log
      ensures Valid() && HeldStays(old(rows), rows) && old(log) <= log
      ensures forall i :: |old(log)| <= i < |log| ==>
        !HeldKey(old(rows), routes, log[i].key) && Visited(replicas, |replicas|, log[i].key)
      ensures exists n :: 0 <= n <= |replicas| && (ok ==> n == |replicas|)
                       && Probed(log) == Probed(old(log)) + ToProbe(replicas[..n], old(rows), routes)
    {
      hide Valid, HeldKey, Visited, Probed, ToProbe;
      var held := HeldReplicas(routes);
      NoneToProbe(rows, routes);
      assert replicas[..0] == [] && Probed(log) + [] == Probed(log);
      if held.None? { return false; }
      for k := 0 to |replicas|
        invariant Valid() && HeldStays(old(rows), rows) && old(log) <= log
        invariant forall i :: |old(log)| <= i < |log| ==>
          log[i].key !in held.value && Visited(replicas, k, log[i].key)
        invariant Probed(log) == Probed(old(log)) + ToProbe(replicas[..k], old(rows), routes)
      {
        ToProbeMore(replicas, k, old(rows), routes);
        ghost var so := ToProbe(replicas[..k], old(rows), routes);
        assert Probed(old(log)) + so + [replicas[k].0] == Probed(old(log)) + (so + [replicas[k].0]);
        assert so + [] == so;
        if replicas[k].0 in held.value {
          forall i | |old(log)| <= i < |log| ensures Visited(replicas, k + 1, log[i].key) {
            VisitedMore(replicas, k, log[i].key);
          }
          continue;
        }
        ghost var mid := log;
        var _, fine := Replica(replicas[k].0, replicas[k].1, routes);
        forall i | |old(log)| <= i < |log| ensures log[i].key !in held.value && Visited(replicas, k + 1, log[i].key) {
          if i < |mid| { assert log[i] == mid[i]; }
          VisitedMore(replicas, k, log[i].key);
        }
        if !fine {
          forall i | |old(log)| <= i < |log| ensures Visited(replicas, |replicas|, log[i].key) {
            VisitedAll(replicas, k + 1, log[i].key);
          }
          return false;
        }
      }
      ok := true;
    }
  }

  // ----- rows that stay unhealthy

  /** Any number of passed probes of a replica that is not down change no row. */
  method PassAgain(l: HealthLoop, key: Key, routes: seq<RouteOf>, n: nat)
    requires l.Valid() && key !in l.down
    modifies l`fails, l`down, l`rows, l`log
    ensures l.Valid() && key !in l.down && l.rows == old(l.rows)
  {
    hide Streak, Down, Back, Justified;
    for i := 0 to n
      invariant l.Valid() && key !in l.down && l.rows == old(l.rows)
    {
      var _, _, _ := l.FoundHealthy(key, routes);
    }
  }

  /**
   A daemon that restarts forgets which replicas it took down: their rows stay as they are through
   any number of passed probes.
   */
  method AfterRestart(limit: int, rows: Rows, key: Key, routes: seq<RouteOf>, n: nat) returns (l: HealthLoop)
    requires limit > 0
    ensures fresh(l) && l.Valid() && l.rows == rows
  {
    l := new HealthLoop(limit, rows);
    PassAgain(l, key, routes, n);
  }

  /**
   A restore the Store refuses is not tried again: taken down, found healthy while the Store refuses,
   and found healthy any number of times after, the replica's row is unhealthy still.
   */
  method AfterRefusal(n: nat) returns (l: HealthLoop)
    ensures fresh(l) && l.Valid() && l.store == Answers && l.rows == map[1 := map[1 := Unhealthy]]
  {
    hide Streak, Down, Back, Justified;
    var key, routes := Key("web", 1), [RouteOf(1, "web")];
    l := new HealthLoop(1, map[1 := map[1 := Active]]);
    l.store := Answers;
    var _ := l.CountFail(key);
    var _, _, _ := l.FoundUnhealthy(key, routes);
    OneRow(l.rows, key, routes);
    l.store := Refuses;
    var _, _, _ := l.FoundHealthy(key, routes);
    l.store := Answers;
    PassAgain(l, key, routes, n);
  }

  lemma OneRow(rows: Rows, key: Key, routes: seq<RouteOf>)
    requires key == Key("web", 1) && routes == [RouteOf(1, "web")]
    requires RowsMoved(map[1 := map[1 := Active]], rows, key, Unhealthy, routes) && Shown(rows, key, Unhealthy, routes)
    ensures rows == map[1 := map[1 := Unhealthy]]
  {
    assert routes[0] in routes;
    var before: Rows := map[1 := map[1 := Active]];
    assert rows.Keys == before.Keys == {1};
    assert rows[1].Keys == before[1].Keys == {1};
    assert rows[1][1] == Unhealthy;
    assert rows[1] == map[1 := Unhealthy];
  }

  /** The listed replicas that are to be probed and not held, in order. */
  ghost function ToProbe(replicas: seq<(Key, bool)>, rows: Rows, routes: seq<RouteOf>): seq<Key> {
    if replicas == [] then []
    else
      var r := replicas[|replicas| - 1];
      ToProbe(replicas[..|replicas| - 1], rows, routes) + if r.1 && !HeldKey(rows, routes, r.0) then [r.0] else []
  }

  lemma NoneToProbe(rows: Rows, routes: seq<RouteOf>)
    ensures ToProbe([], rows, routes) == []
  {
  }

  lemma ToProbeMore(replicas: seq<(Key, bool)>, k: nat, rows: Rows, routes: seq<RouteOf>)
    requires k < |replicas|
    ensures ToProbe(replicas[..k + 1], rows, routes)
         == ToProbe(replicas[..k], rows, routes) + if replicas[k].1 && !HeldKey(rows, routes, replicas[k].0) then [replicas[k].0] else []
  {
    assert replicas[..k + 1][..k] == replicas[..k];
  }

  lemma VisitedAll(replicas: seq<(Key, bool)>, n: nat, key: Key)
    requires n <= |replicas| && Visited(replicas, n, key)
    ensures Visited(replicas, |replicas|, key)
  {
  }

  lemma VisitedMore(replicas: seq<(Key, bool)>, n: nat, key: Key)
    requires n < |replicas| && (Visited(replicas, n, key) || key == replicas[n].0)
    ensures Visited(replicas, n + 1, key)
  {
  }
}
