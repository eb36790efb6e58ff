/** The vocabulary of the edge: targets, routes, tables and the events it reports. */
module Edge {

  /** Instants and durations are nanoseconds; Go's zero time is 0. */
  type Time = int
  const ZERO_TIME: Time := 0

  datatype Option<+T> = None | Some(value: T)

  /** A target state is a string in a pushed table, so an unknown one can arrive. */
  datatype TargetState = Starting | Active | Draining | Stopped | Unhealthy | Held | Unknown(name: string) {
    predicate Routable() { this == Active }

    predicate Valid() { !Unknown? }
  }

  datatype Target = Target(replica: int, port: int, state: TargetState, inflight: int, since: Time, detail: string)

  datatype Kind = HTTPS | TLS | TLSPassthrough | TCP | UDP | Via | Other(name: string) {
    predicate Known() { !Other? }

    predicate Supported() { HTTPS? || Via? }
  }

  datatype Route = Route(host: string, kind: Kind, via: string, targets: seq<Target>, drain: int)

  datatype Event =
    | TargetChanged(host: string, target: Target, at: Time)
    | Drained(host: string, target: Target, deadline: bool, at: Time)
    | TableInstalled(routes: nat, at: Time)

  ghost predicate DistinctReplicas(targets: seq<Target>) {
    forall i, j :: 0 <= i < j < |targets| ==> targets[i].replica != targets[j].replica
  }

  ghost predicate ValidTarget(t: Target) {
    t.replica >= 1 && 1 <= t.port <= 65535 && t.state.Valid()
  }

  ghost predicate ValidRoute(r: Route) {
    && r.kind.Supported()
    && (r.kind.Via? <==> r.via != "")
    && (forall t :: t in r.targets ==> ValidTarget(t))
    && DistinctReplicas(r.targets)
  }

  /** A table is valid when every route is, no host is empty and no two hosts normalise alike. */
  ghost predicate ValidTable(routes: seq<Route>, norm: string -> string) {
    && (forall i :: 0 <= i < |routes| ==> norm(routes[i].host) != "" && ValidRoute(routes[i]))
    && (forall i, j :: 0 <= i < j < |routes| ==> norm(routes[i].host) != norm(routes[j].host))
  }

  datatype TableError =
    | NoHost | DuplicateRoute(host: string) | UnknownKind(host: string) | UnsupportedKind(host: string)
    | ViaWithoutMachine(host: string) | MachineWithoutVia(host: string)
    | BadReplica(host: string) | DuplicateReplica(host: string) | BadPort(host: string) | BadState(host: string)

  method ValidateTargets(host: string, targets: seq<Target>) returns (err: Option<TableError>)
    ensures err.None? <==> (forall t :: t in targets ==> ValidTarget(t)) && DistinctReplicas(targets)
  {
    var replicas: set<int> := {};
    for i := 0 to |targets|
      invariant replicas == set t | t in targets[..i] :: t.replica
      invariant forall t :: t in targets[..i] ==> ValidTarget(t)
      invariant DistinctReplicas(targets[..i])
    {
      var tg := targets[i];
      assert tg in targets;
      if tg.replica < 1 { return Some(BadReplica(host)); }
      if tg.replica in replicas {
        var k :| 0 <= k < i && targets[k].replica == tg.replica;
        return Some(DuplicateReplica(host));
      }
      if tg.port < 1 || tg.port > 65535 { return Some(BadPort(host)); }
      if !tg.state.Valid() { return Some(BadState(host)); }
      assert targets[..i + 1] == targets[..i] + [tg];
      assert forall k :: 0 <= k < i ==> targets[k] in targets[..i];
      replicas := replicas + {tg.replica};
    }
    assert targets[..|targets|] == targets;
    return None;
  }

  /** Validation accepts exactly the valid tables. */
  method ValidateTable(routes: seq<Route>, norm: string -> string) returns (err: Option<TableError>)
    ensures err.None? <==> ValidTable(routes, norm)
  {
    var seen: set<string> := {};
    for i := 0 to |routes|
      invariant seen == set j | 0 <= j < i :: norm(routes[j].host)
      invariant ValidTable(routes[..i], norm)
    {
      var r := routes[i];
      var host := norm(r.host);
      if host == "" { return Some(NoHost); }
      if host in seen { return Some(DuplicateRoute(host)); }
      if !r.kind.Known() { return Some(UnknownKind(host)); }
      if !r.kind.Supported() { return Some(UnsupportedKind(host)); }
      if r.kind.Via? && r.via == "" { return Some(ViaWithoutMachine(host)); }
      if !r.kind.Via? && r.via != "" { return Some(MachineWithoutVia(host)); }
      seen := seen + {host};
      var bad := ValidateTargets(host, r.targets);
      if bad.Some? { return bad; }
    }
    assert routes[..|routes|] == routes;
    return None;
  }
}
