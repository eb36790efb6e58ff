/** What the watch reads from the edge, down to the requests the edge logged. */
module Polls {
  import opened Edge
  import opened Pool
  import opened PoolRuns
  import opened Counters
  import PoolTheorems
  import Watch

  /** An exposed pool of a deploy: its host and the numbers of its fresh replicas. */
  datatype Watched = Watched(host: string, replicas: seq<int>)

  // ----- a poll

  /** The first host of an answer that normalises like the one asked for. */
  function HostAt(counts: seq<HostCounts>, norm: string -> string, host: string): (i: Option<nat>)
    ensures i.Some? ==> i.value < |counts| && norm(counts[i.value].host) == norm(host)
    ensures i.Some? ==> forall k :: 0 <= k < i.value ==> norm(counts[k].host) != norm(host)
    ensures i.None? ==> forall k :: 0 <= k < |counts| ==> norm(counts[k].host) != norm(host)
  {
    if counts == [] then None
    else if norm(counts[0].host) == norm(host) then Some(0)
    else match HostAt(counts[1..], norm, host)
      case None =>
        assert forall k :: 0 < k < |counts| ==> counts[k] == counts[1..][k - 1];
        None
      case Some(j) =>
        assert forall k :: 0 < k < |counts| ==> counts[k] == counts[1..][k - 1];
        Some(j + 1)
  }

  function HostTotal(counts: seq<HostCounts>, norm: string -> string, w: Watched): Counter {
    match HostAt(counts, norm, w.host)
    case None => NO_COUNTS
    case Some(i) => ReplicasSum(counts[i], w.replicas).Plus(counts[i].unrouted)
  }

  /** The fresh replicas of each exposed pool, and what no target took; a host the edge lacks adds nothing. */
  ghost function PollTotal(counts: seq<HostCounts>, norm: string -> string, ws: seq<Watched>): Counter {
    if ws == [] then NO_COUNTS
    else PollTotal(counts, norm, ws[..|ws| - 1]).Plus(HostTotal(counts, norm, ws[|ws| - 1]))
  }

  method FindHost(counts: seq<HostCounts>, norm: string -> string, host: string) returns (i: Option<nat>)
    ensures i == HostAt(counts, norm, host)
  {
    for k := 0 to |counts|
      invariant forall j :: 0 <= j < k ==> norm(counts[j].host) != norm(host)
    {
      if norm(counts[k].host) == norm(host) { return Some(k); }
    }
    return None;
  }

  method Poll(counts: seq<HostCounts>, norm: string -> string, ws: seq<Watched>) returns (requests: int, errors: int)
    ensures requests == PollTotal(counts, norm, ws).requests && errors == PollTotal(counts, norm, ws).Errors()
  {
    requests, errors := 0, 0;
    for i := 0 to |ws|
      invariant requests == PollTotal(counts, norm, ws[..i]).requests
      invariant errors == PollTotal(counts, norm, ws[..i]).Errors()
    {
      assert ws[..i + 1][..i] == ws[..i];
      var at := FindHost(counts, norm, ws[i].host);
      if at.None? { continue; }
      var host := counts[at.value];
      var mine := Replicas(host, ws[i].replicas);
      requests := requests + mine.requests;
      errors := errors + mine.Errors();
      requests := requests + host.unrouted.requests;
      errors := errors + host.unrouted.Errors();
    }
    assert ws[..|ws|] == ws;
  }

  // ----- what the edge logged

  /** A pool of the edge at some step of a run of it. */
  datatype Point = Point(run: PoolTheorems.Run, k: nat)

  ghost predicate Reached(x: Point) {
    PoolTheorems.IsRun(x.run) && x.k < |x.run.pools|
  }

  /** The answer of the edge: the counts of each of its pools, wherever their runs have come to. */
  ghost predicate Answer(counts: seq<HostCounts>, edge: seq<Point>, since: Time) {
    && |counts| == |edge|
    && forall i :: 0 <= i < |edge| ==> Reached(edge[i]) && counts[i] == CountsOf(edge[i].run.pools[edge[i].k], since)
  }

  /** The entries a pool's answer covers: those since the chosen install. */
  ghost function Covered(x: Point, since: Time): seq<Entry>
    requires Reached(x)
  {
    PoolTheorems.CountsMatchTheLog(x.run, x.k, since);
    Window(PoolTheorems.LogOf(x.run, x.k), x.run.pools[x.k], since)
  }

  /** The requests of a log charged to the incarnations that hold the given numbers. */
  ghost function LoggedReplicas(p: Pool, w: seq<Entry>, replicas: seq<int>): Counter {
    if replicas == [] then NO_COUNTS
    else
      var init := LoggedReplicas(p, w, replicas[..|replicas| - 1]);
      match Holder(p, replicas[|replicas| - 1])
      case None => init
      case Some(inc) => init.Plus(TallyOf(w, inc))
  }

  ghost function LoggedHost(x: Point, since: Time, replicas: seq<int>): Counter
    requires Reached(x)
  {
    LoggedReplicas(x.run.pools[x.k], Covered(x, since), replicas).Plus(Unrouted(Covered(x, since)))
  }

  ghost function LoggedTotal(counts: seq<HostCounts>, edge: seq<Point>, since: Time, norm: string -> string, ws: seq<Watched>): Counter
    requires Answer(counts, edge, since)
  {
    if ws == [] then NO_COUNTS
    else
      var init := LoggedTotal(counts, edge, since, norm, ws[..|ws| - 1]);
      match HostAt(counts, norm, ws[|ws| - 1].host)
      case None => init
      case Some(i) => init.Plus(LoggedHost(edge[i], since, ws[|ws| - 1].replicas))
  }

  lemma NamedIsHolder(p: Pool, last: int, h: HostCounts, w: seq<Entry>, replica: int)
    requires Inv(p, last) && Faithful(p, h, w)
    ensures match Holder(p, replica)
      case None => TargetNamed(h, replica).None?
      case Some(inc) => TargetNamed(h, replica) == Some(TargetCounts(replica, TallyOf(w, inc)))
  {
    hide Inv;
    var f, t := Find(p.targets, replica), TargetNamed(h, replica);
    assert f.Some? ==> h.targets[f.value] in h.targets && h.targets[f.value].replica == replica;
    if t.Some? {
      var i :| 0 <= i < |h.targets| && h.targets[i] == t.value;
      assert p.targets[i].t.replica == replica;
      assert f.Some?;
      OneSlotEach(p, last, i, f.value);
    }
  }

  lemma OneSlotEach(p: Pool, last: int, i: nat, j: nat)
    requires Inv(p, last) && i < |p.targets| && j < |p.targets| && p.targets[i].t.replica == p.targets[j].t.replica
    ensures i == j
  {
  }

  lemma {:induction false} ReplicasAreLogged(p: Pool, last: int, h: HostCounts, w: seq<Entry>, replicas: seq<int>)
    requires Inv(p, last) && Faithful(p, h, w)
    ensures ReplicasSum(h, replicas) == LoggedReplicas(p, w, replicas)
  {
    hide Inv, Faithful;
    if replicas != [] {
      var n := |replicas| - 1;
      ReplicasAreLogged(p, last, h, w, replicas[..n]);
      NamedIsHolder(p, last, h, w, replicas[n]);
    }
  }

  lemma HostIsLogged(x: Point, since: Time, replicas: seq<int>)
    requires Reached(x)
    ensures var h := CountsOf(x.run.pools[x.k], since);
      ReplicasSum(h, replicas).Plus(h.unrouted) == LoggedHost(x, since, replicas)
  {
    var p, last := x.run.pools[x.k], x.run.lasts[x.k];
    PoolTheorems.Reachable(x.run, x.k);
    PoolTheorems.CountsMatchTheLog(x.run, x.k, since);
    hide Inv, PoolTheorems.IsRun;
    ReplicasAreLogged(p, last, CountsOf(p, since), Covered(x, since), replicas);
  }

  /** A poll counts the requests the edge logged: those of the fresh incarnations and those no target took. */
  lemma {:induction false} PollIsLogged(counts: seq<HostCounts>, edge: seq<Point>, since: Time, norm: string -> string, ws: seq<Watched>)
    requires Answer(counts, edge, since)
    ensures PollTotal(counts, norm, ws) == LoggedTotal(counts, edge, since, norm, ws)
  {
    hide LoggedHost, CountsOf, Reached;
    if ws != [] {
      var n := |ws| - 1;
      PollIsLogged(counts, edge, since, norm, ws[..n]);
      var i := HostAt(counts, norm, ws[n].host);
      if i.Some? { HostIsLogged(edge[i.value], since, ws[n].replicas); }
    }
  }

  // ----- the rate

  lemma HostIsSane(x: Point, since: Time, replicas: seq<int>)
    requires Reached(x)
    ensures var h := CountsOf(x.run.pools[x.k], since); Sane(ReplicasSum(h, replicas).Plus(h.unrouted))
  {
    PoolTheorems.RunAgrees(x.run, x.k);
    hide Agrees, CountsOf, PoolTheorems.IsRun;
    ErrorsWithinRequests(x.run.pools[x.k], PoolTheorems.LogOf(x.run, x.k), x.run.lasts[x.k], since, replicas);
  }

  lemma {:induction false} PollIsSane(counts: seq<HostCounts>, edge: seq<Point>, since: Time, norm: string -> string, ws: seq<Watched>)
    requires Answer(counts, edge, since)
    ensures Sane(PollTotal(counts, norm, ws))
  {
    hide CountsOf, Reached;
    if ws != [] {
      var n := |ws| - 1;
      PollIsSane(counts, edge, since, norm, ws[..n]);
      var i := HostAt(counts, norm, ws[n].host);
      if i.Some? { HostIsSane(edge[i.value], since, ws[n].replicas); }
    }
  }

  lemma Fraction(a: int, b: int)
    requires 0 <= a <= b && b > 0
    ensures 0.0 <= a as real / b as real <= 1.0
  {
    var q := a as real / b as real;
    assert q * b as real == a as real;
    assert q > 1.0 ==> q * b as real > b as real;
    assert q < 0.0 ==> q * b as real < 0.0;
  }

  /** Polled from pools in any reachable state, the error rate is a rate: from 0 to 1. */
  lemma RateIsARate(counts: seq<HostCounts>, edge: seq<Point>, since: Time, norm: string -> string, ws: seq<Watched>)
    requires Answer(counts, edge, since)
    ensures var c := PollTotal(counts, norm, ws); 0.0 <= Watch.Rate(c.requests, c.Errors()) <= 1.0
  {
    hide Answer, PollTotal;
    PollIsSane(counts, edge, since, norm, ws);
    var c := PollTotal(counts, norm, ws);
    if c.requests > 0 { Fraction(c.Errors(), c.requests); }
  }

  // ----- from the log to the verdict

  /** A beat whose counts were polled from the edge. */
  ghost predicate SeenBy(b: Watch.Beat, counts: seq<HostCounts>, norm: string -> string, ws: seq<Watched>) {
    b.seen.Some? && b.seen.value.requests == PollTotal(counts, norm, ws).requests
    && b.seen.value.errors == PollTotal(counts, norm, ws).Errors()
  }

  lemma Multiplied(errors: int, requests: int, rate: real)
    requires requests > 0 && errors as real / requests as real <= rate
    ensures errors as real <= rate * requests as real
  {
    var q := errors as real / requests as real;
    assert q * requests as real == errors as real;
    Scaled(q, rate, requests as real);
  }

  lemma Scaled(q: real, r: real, n: real)
    requires q <= r && n > 0.0
    ensures q * n <= r * n
  {
  }

  /**
   End to end: when a deploy is promoted without a signal, at every beat that polled the edge the
   requests logged against the fresh incarnations, with those no target took, were too few to judge
   or their errors were within the policy, unless the policy turns the check off.
   */
  lemma PromotedWithinPolicy(r: Watch.Run, noWatch: bool, beats: seq<Watch.Beat>, i: nat, counts: seq<HostCounts>,
                             edge: seq<Point>, since: Time, norm: string -> string, ws: seq<Watched>)
    requires Watch.Life(r, noWatch, beats).verdict == Watch.Promoted(false) && i < Watch.Life(r, noWatch, beats).used
    requires Answer(counts, edge, since) && SeenBy(beats[i], counts, norm, ws)
    ensures var c := LoggedTotal(counts, edge, since, norm, ws);
      || c.requests < Watch.MIN_ERROR_REQUESTS || r.policy.maxRate < 0.0
      || c.Errors() as real <= r.policy.maxRate * c.requests as real
  {
    hide Answer, PollTotal, LoggedTotal, Watch.Life;
    Watch.UnsignalledLife(r, noWatch, beats);
    PollIsLogged(counts, edge, since, norm, ws);
    var c := LoggedTotal(counts, edge, since, norm, ws);
    if c.requests >= Watch.MIN_ERROR_REQUESTS && r.policy.maxRate >= 0.0 {
      assert !Watch.Breached(r.policy, beats[i]);
      Multiplied(c.Errors(), c.requests, r.policy.maxRate);
    }
  }
}
