/** HTTPRoute discovery: one HTTP target per annotated route of a namespace. */
module Routes {
  import opened Base

  type Name = string

  const ManagedBy := "warpgate.warpgate.warp.tech/managed-by"
  const ManagedByValue := "httproute-discovery"
  const SourceRoute := "warpgate.warpgate.warp.tech/source-httproute"
  const TargetGroup := "warpgate.warpgate.warp.tech/http-target-group"

  /** spec.hostnames: of the wrong type, absent, or a list. */
  datatype Hostnames = Malformed | Absent | Listed(hosts: seq<string>)

  /** A route with its three annotations; "" stands for a missing one. */
  datatype Route = Route(deleting: bool, bindDomain: string, group: string, connRef: string, hostnames: Hostnames)

  datatype Http = Http(url: string, externalHost: string)

  datatype Spec = Spec(connectionRef: string, name: string, description: string, http: Option<Http>)

  /** `deleting`: deleted, but its controller has not removed the finalizer yet. */
  datatype Target = Target(labels: map<string, string>, annotations: map<string, string>, spec: Spec, deleting: bool)

  /** The routes and targets of one namespace. */
  datatype World = World(ns: Name, routes: map<Name, Route>, targets: map<Name, Target>)

  function ManagedTargetName(ns: Name, name: Name): (r: Name)
    ensures |r| <= 63
  {
    var full := ns + "-" + name;
    if |full| > 63 then full[..63] else full
  }

  /** Two routes of a namespace get one name exactly when they are equal, or truncation makes them so. */
  lemma ManagedTargetNameCollides(ns: Name, a: Name, b: Name)
    ensures ManagedTargetName(ns, a) == ManagedTargetName(ns, b) <==>
            a == b ||
            (var fa, fb := ns + "-" + a, ns + "-" + b;
             |fa| >= 63 && |fb| >= 63 && fa[..63] == fb[..63])
  {
    var fa, fb := ns + "-" + a, ns + "-" + b;
    if |fa| >= 63 {
      assert |fa| == 63 ==> fa[..63] == fa;
    }
    if |fb| >= 63 {
      assert |fb| == 63 ==> fb[..63] == fb;
    }
    if fa == fb {
      assert a == fa[|ns| + 1..] && b == fb[|ns| + 1..];
    }
  }

  function ExtractFirstHostname(h: Hostnames): Option<string> {
    if h.Listed? && |h.hosts| > 0 then Some("https://" + h.hosts[0]) else None
  }

  function SourceKey(ns: Name, name: Name): string {
    ns + "/" + name
  }

  function LabelsOf(ns: Name, name: Name): map<string, string> {
    map[ManagedBy := ManagedByValue, SourceRoute := SourceKey(ns, name)]
  }

  function BuildTarget(ns: Name, name: Name, r: Route, url: string): Target {
    Target(LabelsOf(ns, name), map[TargetGroup := r.group],
           Spec(r.connRef, ManagedTargetName(ns, name),
                "Auto-discovered from HTTPRoute " + SourceKey(ns, name) + " (group: " + r.group + ")",
                Some(Http(url, r.bindDomain))),
           false)
  }

  predicate Labelled(t: Target) {
    ManagedBy in t.labels && t.labels[ManagedBy] == ManagedByValue
  }

  predicate Annotated(r: Route) {
    !r.deleting && r.bindDomain != "" && r.group != "" && r.connRef != ""
  }

  /** The test that decides whether an existing target is rewritten. */
  predicate Matches(t: Target, r: Route, url: string) {
    t.spec.http == Some(Http(url, r.bindDomain)) && t.spec.connectionRef == r.connRef
  }

  /** What becomes of one API call; a Lost one takes effect although the pass sees an error. */
  datatype Reply = Answered | Failed | Lost

  /** The calls of one pass: both reads, and the write it may issue. */
  datatype Replies = Replies(getRoute: bool, getTarget: bool, write: Reply)

  datatype Result = Done | NoHostname | ApiError

  /** What a pass leaves, what it returns, and whether it issued a write call. */
  datatype Outcome = Outcome(world: World, result: Result, wrote: bool)

  function Wrote(w: World, targets: map<Name, Target>, reply: Reply): Outcome {
    Outcome(if reply.Failed? then w else w.(targets := targets), if reply.Answered? then Done else ApiError, true)
  }

  function DeleteManagedSpec(w: World, name: Name, c: Replies): Outcome {
    var t := ManagedTargetName(w.ns, name);
    if !c.getTarget then Outcome(w, ApiError, false)
    else if t !in w.targets || !Labelled(w.targets[t]) then Outcome(w, Done, false)
    else Wrote(w, w.targets[t := w.targets[t].(deleting := true)], c.write)
  }

  function PassSpec(w: World, name: Name, c: Replies): Outcome {
    if !c.getRoute then Outcome(w, ApiError, false)
    else if name !in w.routes || !Annotated(w.routes[name]) then DeleteManagedSpec(w, name, c)
    else
      var r, t := w.routes[name], ManagedTargetName(w.ns, name);
      match ExtractFirstHostname(r.hostnames)
      case None => Outcome(w, NoHostname, false)
      case Some(url) =>
        var desired := BuildTarget(w.ns, name, r, url);
        if !c.getTarget then Outcome(w, ApiError, false)
        else if t !in w.targets then Wrote(w, w.targets[t := desired], c.write)
        else if Matches(w.targets[t], r, url) then Outcome(w, Done, false)
        else Wrote(w, w.targets[t := w.targets[t].(spec := desired.spec, labels := desired.labels)], c.write)
  }

  /** The reconciler with the API server's routes and targets as its fields. */
  class HTTPRouteWatcherReconciler {
    const ns: Name
    var routes: map<Name, Route>
    var targets: map<Name, Target>

    constructor (ns: Name, routes: map<Name, Route>, targets: map<Name, Target>)
      ensures Cluster() == World(ns, routes, targets)
    {
      this.ns := ns;
      this.routes := routes;
      this.targets := targets;
    }

    function Cluster(): World
      reads this
    {
      World(ns, routes, targets)
    }

    method Write(t: Name, target: Target, reply: Reply) returns (result: Result)
      modifies this`targets
      ensures Cluster() ==
              if reply.Failed? then old(Cluster()) else old(Cluster()).(targets := old(targets)[t := target])
      ensures result == if reply.Answered? then Done else ApiError
    {
      if reply.Failed? {
        return ApiError;
      }
      targets := targets[t := target];
      result := if reply.Lost? then ApiError else Done;
    }

    method DeleteManaged(name: Name, c: Replies) returns (result: Result, wrote: bool)
      modifies this`targets
      ensures Outcome(Cluster(), result, wrote) == DeleteManagedSpec(old(Cluster()), name, c)
    {
      result, wrote := Done, false;
      var t := ManagedTargetName(ns, name);
      if !c.getTarget {
        return ApiError, false;
      }
      if t !in targets {
        return;
      }
      if !Labelled(targets[t]) {
        return;
      }
      wrote := true;
      result := Write(t, targets[t].(deleting := true), c.write);
    }

    method Reconcile(name: Name, c: Replies) returns (result: Result, wrote: bool)
      modifies this`targets
      ensures Outcome(Cluster(), result, wrote) == PassSpec(old(Cluster()), name, c)
    {
      result, wrote := Done, false;
      if !c.getRoute {
        return ApiError, false;
      }
      if name !in routes {
        result, wrote := DeleteManaged(name, c);
        return;
      }
      var route := routes[name];
      if route.deleting || route.bindDomain == "" || route.group == "" || route.connRef == "" {
        result, wrote := DeleteManaged(name, c);
        return;
      }
      var url := ExtractFirstHostname(route.hostnames);
      if url.None? {
        return NoHostname, false;
      }
      var t := ManagedTargetName(ns, name);
      if !c.getTarget {
        return ApiError, false;
      }
      var desired := BuildTarget(ns, name, route, url.value);
      if t !in targets {
        wrote := true;
        result := Write(t, desired, c.write);
        return;
      }
      var existing := targets[t];
      if existing.spec.http.None? || existing.spec.http.value.url != url.value ||
         existing.spec.http.value.externalHost != route.bindDomain || existing.spec.connectionRef != route.connRef {
        wrote := true;
        result := Write(t, existing.(spec := desired.spec, labels := desired.labels), c.write);
      }
    }
  }
}
