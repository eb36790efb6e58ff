/** The hub's directory of environments, and what a member's announcement does to it. */
module Fleet {
  import opened Edge

  /** An environment is known by its app and its name. */
  datatype Env = Env(app: string, name: string)

  datatype Entry = Entry(machine: string, updatedAt: Time, detail: string)

  datatype Announced = Announced(env: Env, updatedAt: Time, detail: string)

  datatype Announcement = Announcement(machine: string, envs: seq<Announced>, full: bool)

  type Directory = map<Env, Entry>

  predicate Names(e: Announced) { e.env.app != "" && e.env.name != "" }

  function EntryOf(machine: string, e: Announced, now: Time): Entry {
    Entry(machine, if e.updatedAt == ZERO_TIME then now else e.updatedAt, e.detail)
  }

  // ----- what an announcement means

  function PutAll(dir: Directory, machine: string, envs: seq<Announced>, now: Time): Directory {
    if envs == [] then dir
    else
      var n := |envs| - 1;
      PutAll(dir, machine, envs[..n], now)[envs[n].env := EntryOf(machine, envs[n], now)]
  }

  function Keys(envs: seq<Announced>): set<Env> { set i | 0 <= i < |envs| :: envs[i].env }

  /** The directory after an announcement that goes through. */
  function Applied(dir: Directory, a: Announcement, now: Time): Directory {
    var put := PutAll(dir, a.machine, a.envs, now);
    if !a.full then put
    else map k | k in put && (k in Keys(a.envs) || put[k].machine != a.machine) :: put[k]
  }

  /** The last announced entry of an environment. */
  ghost predicate LastOf(envs: seq<Announced>, i: int) {
    0 <= i < |envs| && forall j :: i < j < |envs| ==> envs[j].env != envs[i].env
  }

  lemma {:induction false} PutKeys(dir: Directory, machine: string, envs: seq<Announced>, now: Time)
    ensures var put := PutAll(dir, machine, envs, now);
      && put.Keys == dir.Keys + Keys(envs)
      && (forall k :: k in Keys(envs) ==> put[k].machine == machine)
      && (forall k :: k in dir && k !in Keys(envs) ==> put[k] == dir[k])
  {
    if envs != [] {
      PutKeys(dir, machine, envs[..|envs| - 1], now);
      KeysLast(envs);
      hide Keys;
    }
  }

  lemma {:induction false} PutLast(dir: Directory, machine: string, envs: seq<Announced>, now: Time, i: int)
    requires LastOf(envs, i)
    ensures var put := PutAll(dir, machine, envs, now);
      envs[i].env in put && put[envs[i].env] == EntryOf(machine, envs[i], now)
  {
    var n := |envs| - 1;
    if i < n {
      assert LastOf(envs[..n], i);
      PutLast(dir, machine, envs[..n], now, i);
    }
  }

  lemma PutShape(dir: Directory, machine: string, envs: seq<Announced>, now: Time)
    ensures var put := PutAll(dir, machine, envs, now);
      && put.Keys == dir.Keys + Keys(envs)
      && (forall i :: LastOf(envs, i) ==> envs[i].env in put && put[envs[i].env] == EntryOf(machine, envs[i], now))
      && (forall k :: k in Keys(envs) ==> put[k].machine == machine)
      && (forall k :: k in dir && k !in Keys(envs) ==> put[k] == dir[k])
  {
    hide PutAll, Keys;
    PutKeys(dir, machine, envs, now);
    forall i | LastOf(envs, i)
      ensures var put := PutAll(dir, machine, envs, now);
        envs[i].env in put && put[envs[i].env] == EntryOf(machine, envs[i], now)
    {
      PutLast(dir, machine, envs, now, i);
    }
  }

  lemma KeysLast(envs: seq<Announced>)
    requires envs != []
    ensures Keys(envs) == Keys(envs[..|envs| - 1]) + {envs[|envs| - 1].env}
  {
    var n := |envs| - 1;
    forall k ensures k in Keys(envs) <==> k in Keys(envs[..n]) + {envs[n].env} {
      if k in Keys(envs) {
        var i :| 0 <= i < |envs| && envs[i].env == k;
        if i < n { assert envs[..n][i].env == k; }
      }
      if k in Keys(envs[..n]) {
        var i :| 0 <= i < n && envs[..n][i].env == k;
        assert envs[i].env == k;
      }
    }
  }

  lemma {:induction false} LastExists(envs: seq<Announced>, k: Env) returns (i: nat)
    requires k in Keys(envs)
    ensures LastOf(envs, i) && envs[i].env == k
  {
    var n := |envs| - 1;
    if envs[n].env == k {
      i := n;
    } else {
      KeysLast(envs);
      i := LastExists(envs[..n], k);
    }
  }

  /**
   After a full announcement the machine's rows are exactly the announced ones, the last entry of an
   environment winning, and no row of another machine has changed but one announced here.
   */
  lemma FullIsExact(dir: Directory, a: Announcement, now: Time)
    requires a.full
    ensures var after := Applied(dir, a, now);
      && (forall k :: k in after && after[k].machine == a.machine <==> k in Keys(a.envs))
      && (forall i :: LastOf(a.envs, i) ==> after[a.envs[i].env] == EntryOf(a.machine, a.envs[i], now))
      && (forall k :: k !in Keys(a.envs) && (k !in dir || dir[k].machine != a.machine) ==>
            (k in after <==> k in dir) && (k in dir ==> after[k] == dir[k]))
  {
    PutShape(dir, a.machine, a.envs, now);
    forall i | LastOf(a.envs, i) ensures a.envs[i].env in Keys(a.envs) {
    }
  }

  /** A partial one puts the same rows and removes none. */
  lemma PartialNeverRemoves(dir: Directory, a: Announcement, now: Time)
    requires !a.full
    ensures var after := Applied(dir, a, now);
      && after.Keys == dir.Keys + Keys(a.envs)
      && (forall i :: LastOf(a.envs, i) ==> after[a.envs[i].env] == EntryOf(a.machine, a.envs[i], now))
      && (forall k :: k in dir && k !in Keys(a.envs) ==> after[k] == dir[k])
  {
    PutShape(dir, a.machine, a.envs, now);
  }

  /** Applying an announcement again is as if it had only been applied the second time. */
  lemma Reapplied(dir: Directory, a: Announcement, now: Time, later: Time)
    ensures Applied(Applied(dir, a, now), a, later) == Applied(dir, a, later)
  {
    var once := Applied(dir, a, now);
    PutShape(dir, a.machine, a.envs, now);
    PutShape(once, a.machine, a.envs, later);
    PutShape(dir, a.machine, a.envs, later);
    hide PutAll;
    var x, y := Applied(once, a, later), Applied(dir, a, later);
    assert x.Keys == y.Keys;
    forall k | k in x ensures x[k] == y[k] {
      if k in Keys(a.envs) { var i := LastExists(a.envs, k); }
    }
  }

  /** A later reapplication changes nothing if and only if every entry that counts has a time of its own. */
  lemma ReappliedIff(dir: Directory, a: Announcement, now: Time, later: Time)
    ensures Applied(Applied(dir, a, now), a, later) == Applied(dir, a, now) <==>
      now == later || forall i :: LastOf(a.envs, i) ==> a.envs[i].updatedAt != ZERO_TIME
  {
    Reapplied(dir, a, now, later);
    PutShape(dir, a.machine, a.envs, now);
    PutShape(dir, a.machine, a.envs, later);
    hide PutAll, Keys;
    var x, y := Applied(dir, a, now), Applied(dir, a, later);
    if forall i :: LastOf(a.envs, i) ==> a.envs[i].updatedAt != ZERO_TIME {
      assert x.Keys == y.Keys;
      forall k | k in x ensures x[k] == y[k] {
        if k in Keys(a.envs) { var i := LastExists(a.envs, k); }
      }
    } else {
      var i :| LastOf(a.envs, i) && a.envs[i].updatedAt == ZERO_TIME;
      LastIsListed(a.envs, i);
      assert x[a.envs[i].env].updatedAt == now && y[a.envs[i].env].updatedAt == later;
    }
  }

  lemma LastIsListed(envs: seq<Announced>, i: int)
    requires LastOf(envs, i)
    ensures envs[i].env in Keys(envs)
  {
  }

  /** Full announcements of two machines that share no environment may come in either order. */
  lemma Commute(dir: Directory, a: Announcement, b: Announcement, now: Time, later: Time)
    requires a.full && b.full && a.machine != b.machine && Keys(a.envs) !! Keys(b.envs)
    ensures Applied(Applied(dir, a, now), b, later) == Applied(Applied(dir, b, later), a, now)
  {
    var da, db := Applied(dir, a, now), Applied(dir, b, later);
    PutShape(dir, a.machine, a.envs, now);
    PutShape(dir, b.machine, b.envs, later);
    PutShape(da, b.machine, b.envs, later);
    PutShape(db, a.machine, a.envs, now);
    hide PutAll;
    var x, y := Applied(da, b, later), Applied(db, a, now);
    forall k ensures k in x <==> k in y {
    }
    assert x.Keys == y.Keys;
    forall k | k in x ensures x[k] == y[k] {
      if k in Keys(a.envs) {
        var i := LastExists(a.envs, k);
      } else if k in Keys(b.envs) {
        var i := LastExists(b.envs, k);
      }
    }
  }
  // ----- applying one, row by row

  datatype Failure = NoMachine | NoEnvironment | StoreFailed

  class Hub {
    var dir: Directory

    constructor (dir: Directory)
      ensures this.dir == dir
    {
      this.dir := dir;
    }

    method Put(env: Env, e: Entry) returns (ok: bool)
      modifies this
      ensures dir == if ok then old(dir)[env := e] else old(dir)
    {
      ok := *;
      if ok { dir := dir[env := e]; }
    }

    method Remove(env: Env) returns (ok: bool)
      modifies this
      ensures dir == if ok then old(dir) - {env} else old(dir)
    {
      ok := *;
      if ok { dir := dir - {env}; }
    }

    /** The environments recorded for a machine. */
    method EntriesOf(machine: string) returns (have: Option<seq<Env>>)
      ensures have.Some? ==> forall k :: k in have.value <==> k in dir && dir[k].machine == machine
      ensures have.Some? ==> forall i, j :: 0 <= i < j < |have.value| ==> have.value[i] != have.value[j]
    {
      var ok: bool := *;
      if !ok { return None; }
      var mine := set k | k in dir && dir[k].machine == machine;
      var rest, out := mine, [];
      while rest != {}
        invariant rest <= mine
        invariant forall k :: k in out <==> k in mine && k !in rest
        invariant forall i, j :: 0 <= i < j < |out| ==> out[i] != out[j]
      {
        var k :| k in rest;
        out := out + [k];
        rest := rest - {k};
      }
      return Some(out);
    }

    /** Records the announced environments, up to the first that cannot be. */
    method PutEntries(a: Announcement, now: Time) returns (accepted: nat, err: Option<Failure>)
      modifies this
      ensures accepted <= |a.envs| && dir == PutAll(old(dir), a.machine, a.envs[..accepted], now)
      ensures err.None? ==> accepted == |a.envs| && forall i :: 0 <= i < |a.envs| ==> a.envs[i].env.app != "" && a.envs[i].env.name != ""
      ensures err.Some? ==> err.value != NoMachine
      ensures err == Some(NoEnvironment) ==>
        accepted < |a.envs| && (a.envs[accepted].env.app == "" || a.envs[accepted].env.name == "")
    {
      accepted := 0;
      while accepted < |a.envs|
        invariant accepted <= |a.envs| && dir == PutAll(old(dir), a.machine, a.envs[..accepted], now)
        invariant forall i :: 0 <= i < accepted ==> Names(a.envs[i])
      {
        var e := a.envs[accepted];
        if !Names(e) { return accepted, Some(NoEnvironment); }
        var ok := Put(e.env, EntryOf(a.machine, e, now));
        if !ok { return accepted, Some(StoreFailed); }
        assert a.envs[..accepted + 1][..accepted] == a.envs[..accepted];
        accepted := accepted + 1;
      }
      assert a.envs[..|a.envs|] == a.envs;
      err := None;
    }

    /** Forgets the listed environments that are not kept, up to the first that cannot be. */
    method Forget(have: seq<Env>, keep: set<Env>) returns (removed: nat, ok: bool)
      requires forall i, j :: 0 <= i < j < |have| ==> have[i] != have[j]
      requires forall k :: k in have ==> k in dir
      modifies this
      ensures forall k :: k in dir ==> k in old(dir) && dir[k] == old(dir)[k]
      ensures forall k :: k in old(dir) && k !in dir ==> k in have && k !in keep
      ensures ok ==> forall k :: k in have && k !in keep ==> k !in dir
      ensures |dir| + removed == |old(dir)|
    {
      removed := 0;
      for i := 0 to |have|
        invariant forall k :: k in dir ==> k in old(dir) && dir[k] == old(dir)[k]
        invariant forall k :: k in old(dir) && k !in dir ==> k in have[..i] && k !in keep
        invariant forall k :: k in have[..i] && k !in keep ==> k !in dir
        invariant |dir| + removed == |old(dir)|
      {
        assert have[..i + 1] == have[..i] + [have[i]];
        if have[i] in keep { continue; }
        assert have[i] in dir;
        ghost var was := dir;
        var fine := Remove(have[i]);
        if !fine { return removed, false; }
        OneLess(was, have[i]);
        removed := removed + 1;
      }
      assert have[..|have|] == have;
      ok := true;
    }

    /**
     Applies an announcement. If it goes through the directory is `Applied`; if not, the rows of
     other machines that it does not announce are as they were.
     */
    method Apply(a: Announcement, now: Time) returns (accepted: nat, removed: nat, err: Option<Failure>)
      modifies this
      ensures err.None? ==> && dir == Applied(old(dir), a, now) && accepted == |a.envs|
                            && |dir| + removed == |PutAll(old(dir), a.machine, a.envs, now)|
      ensures err.None? ==>
        a.machine != "" && forall i :: 0 <= i < |a.envs| ==> a.envs[i].env.app != "" && a.envs[i].env.name != ""
      ensures err == Some(NoMachine) <==> a.machine == ""
      ensures err == Some(NoMachine) ==> dir == old(dir)
      ensures !a.full ==> old(dir).Keys <= dir.Keys && removed == 0
      ensures forall k :: k !in Keys(a.envs) && (k !in old(dir) || old(dir)[k].machine != a.machine) ==>
        (k in dir <==> k in old(dir)) && (k in dir ==> dir[k] == old(dir)[k])
    {
      hide PutAll, Applied, Keys;
      if a.machine == "" { return 0, 0, Some(NoMachine); }
      ghost var was := dir;
      accepted, err := PutEntries(a, now);
      removed := 0;
      PutShape(was, a.machine, a.envs[..accepted], now);
      KeysPrefix(a.envs, accepted);
      assert a.envs[..|a.envs|] == a.envs;
      PartialIsPut(was, a, now);
      if err.Some? || !a.full { return; }
      ghost var put := dir;
      var have := EntriesOf(a.machine);
      if have.None? { return accepted, 0, Some(StoreFailed); }
      var fine: bool;
      removed, fine := Forget(have.value, Keys(a.envs));
      if !fine { return accepted, removed, Some(StoreFailed); }
      FullIsForgotten(was, a, now, put, dir);
    }
  }

  lemma PartialIsPut(dir: Directory, a: Announcement, now: Time)
    ensures !a.full ==> Applied(dir, a, now) == PutAll(dir, a.machine, a.envs, now)
  {
  }

  lemma FullIsForgotten(dir: Directory, a: Announcement, now: Time, put: Directory, after: Directory)
    requires a.full && put == PutAll(dir, a.machine, a.envs, now)
    requires forall k :: k in after ==> k in put && after[k] == put[k]
    requires forall k :: k in put && k !in after <==> k in put && put[k].machine == a.machine && k !in Keys(a.envs)
    ensures after == Applied(dir, a, now)
  {
    hide PutAll, Keys;
    assert after.Keys == Applied(dir, a, now).Keys;
  }

  lemma OneLess(dir: Directory, k: Env)
    requires k in dir
    ensures |dir - {k}| + 1 == |dir|
  {
    assert (dir - {k}).Keys == dir.Keys - {k};
    assert |dir.Keys| == |dir| && |(dir - {k}).Keys| == |dir - {k}|;
  }

  lemma KeysPrefix(envs: seq<Announced>, n: nat)
    requires n <= |envs|
    ensures Keys(envs[..n]) <= Keys(envs)
  {
    forall k | k in Keys(envs[..n]) ensures k in Keys(envs) {
      var i :| 0 <= i < n && envs[..n][i].env == k;
      assert envs[i].env == k;
    }
  }
}
