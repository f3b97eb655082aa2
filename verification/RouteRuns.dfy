/** What route discovery guarantees over every sequence of route events and passes. */
module RouteRuns {
  import opened Base
  import opened Passes
  import opened Routes

  datatype Event =
    | SetRoute(name: Name, route: Route)
    | DropRoute(name: Name)
    | Vanish(target: Name)
    | Reconciles(name: Name, replies: Replies)

  /** `settled`: the routes whose last pass since their last change met no API error. */
  datatype State = State(world: World, settled: set<Name>)

  function Next(s: State, e: Event): State {
    match e
    case SetRoute(n, r) => State(s.world.(routes := s.world.routes[n := r]), s.settled - {n})
    case DropRoute(n) => State(s.world.(routes := s.world.routes - {n}), s.settled - {n})
    case Vanish(t) =>
      if t in s.world.targets &&
          s.world.targets[t].deleting then s.(world := s.world.(targets := s.world.targets - {t}))
      else s
    case Reconciles(n, c) =>
      var o := PassSpec(s.world, n, c);
      State(o.world, if o.result.ApiError? then s.settled else s.settled + {n})
  }

  function Run(s: State, es: seq<Event>): State {
    Fold(Next, s, es)
  }

  predicate Terminating(w: World, n: Name) {
    var t := ManagedTargetName(w.ns, n);
    t in w.targets && w.targets[t].deleting
  }

  /** Only routes with the given names exist, and no pass meets its target half deleted. */
  ghost predicate Allowed(s: State, e: Event, names: set<Name>) {
    match e
    case SetRoute(n, _) => n in names
    case DropRoute(_) => true
    case Vanish(_) => true
    case Reconciles(n, _) => n in names && !Terminating(s.world, n)
  }

  ghost predicate AllowedRun(s: State, es: seq<Event>, names: set<Name>)
    decreases |es|
  {
    es != [] ==> Allowed(s, es[0], names) && AllowedRun(Next(s, es[0]), es[1..], names)
  }

  ghost predicate NoCollisions(ns: Name, names: set<Name>) {
    forall a, b :: a in names && b in names && ManagedTargetName(ns, a) == ManagedTargetName(ns, b) ==> a == b
  }

  /** The route is not deleted and carries all three annotations. */
  predicate Asks(r: Route) {
    !r.deleting && r.bindDomain != "" && r.group != "" && r.connRef != ""
  }

  /** The route has a hostname. */
  predicate Named(r: Route) {
    r.hostnames.Listed? && r.hostnames.hosts != []
  }

  /** The target carries route discovery's label. */
  predicate Managed(t: Target) {
    var key := "warpgate.warpgate.warp.tech/managed-by";
    key in t.labels && t.labels[key] == "httproute-discovery"
  }

  /** The route asks for a target and says for which URL. */
  predicate Wanted(w: World, n: Name) {
    n in w.routes && Asks(w.routes[n]) && Named(w.routes[n])
  }

  /** The route asks for a target but has no hostname: its pass stops with an error. */
  predicate Hostless(w: World, n: Name) {
    n in w.routes && Asks(w.routes[n]) && !Named(w.routes[n])
  }

  predicate HasTarget(w: World, n: Name) {
    var t := ManagedTargetName(w.ns, n);
    t in w.targets && Managed(w.targets[t]) && !w.targets[t].deleting
  }

  predicate Agrees(w: World, n: Name)
    requires n in w.routes
  {
    HasTarget(w, n) &&
    var r, t := w.routes[n], w.targets[ManagedTargetName(w.ns, n)];
    && Named(r) && t.spec.connectionRef == r.connRef && t.spec.http.Some?
    && t.spec.http.value.url == "https://" + r.hostnames.hosts[0] && t.spec.http.value.externalHost == r.bindDomain
  }

  /** Targets under route names are ours, and ours are only there. */
  ghost predicate Ours(w: World, names: set<Name>) {
    && (forall n :: n in w.routes ==> n in names)
    && (forall n :: n in names && ManagedTargetName(w.ns, n) in w.targets ==>
          w.targets[ManagedTargetName(w.ns, n)].labels == LabelsOf(w.ns, n))
    && (forall t :: t in w.targets && Managed(w.targets[t]) ==>
        exists n :: n in names && t == ManagedTargetName(w.ns, n))
  }

  ghost predicate SettledOk(w: World, n: Name) {
    && (Wanted(w, n) ==> Agrees(w, n))
    && (!Wanted(w, n) && !Hostless(w, n) ==> !HasTarget(w, n))
  }

  ghost predicate Inv(s: State, names: set<Name>) {
    Ours(s.world, names) && s.settled <= names && forall n :: n in s.settled ==> SettledOk(s.world, n)
  }

  lemma LabelsAreOurs(ns: Name, n: Name, t: Target)
    requires t.labels == LabelsOf(ns, n)
    ensures Labelled(t) && Managed(t)
  {
    assert ManagedBy[28] != SourceRoute[28];
  }

  /** A pass changes its own target only, keeps it labelled, and without API error settles its route. */
  lemma PassSettles(w: World, n: Name, c: Replies, names: set<Name>)
    requires Ours(w, names) && n in names && !Terminating(w, n)
    ensures var o, t := PassSpec(w, n, c), ManagedTargetName(w.ns, n);
            && o.world.ns == w.ns && o.world.routes == w.routes
            && o.world.targets - {t} == w.targets - {t}
            && (t in o.world.targets ==> o.world.targets[t].labels == LabelsOf(w.ns, n))
            && (!o.result.ApiError? ==> SettledOk(o.world, n))
            && (SettledOk(w, n) ==> SettledOk(o.world, n))
  {
    var o, t := PassSpec(w, n, c), ManagedTargetName(w.ns, n);
    if t in w.targets {
      LabelsAreOurs(w.ns, n, w.targets[t]);
    }
    if t in o.world.targets {
      LabelsAreOurs(w.ns, n, o.world.targets[t]);
    }
    hide Labelled, Managed, LabelsOf, ManagedTargetName, Ours;
  }

  /** Maps that agree once t is left out agree everywhere else. */
  lemma Elsewhere(a: map<Name, Target>, b: map<Name, Target>, t: Name, u: Name)
    requires a - {t} == b - {t} && u != t
    ensures (u in a <==> u in b) && (u in a ==> a[u] == b[u])
  {
    assert u in a <==> u in a - {t};
    assert u in b <==> u in b - {t};
    assert u in a ==> (a - {t})[u] == a[u];
    assert u in b ==> (b - {t})[u] == b[u];
  }

  lemma PassLeavesOthers(w: World, n: Name, m: Name, c: Replies, names: set<Name>)
    requires Ours(w, names) && NoCollisions(w.ns, names) && n in names && m in names && m != n && !Terminating(w, n)
    requires SettledOk(w, m)
    ensures SettledOk(PassSpec(w, n, c).world, m)
  {
    PassSettles(w, n, c, names);
    var w', t, u := PassSpec(w, n, c).world, ManagedTargetName(w.ns, n), ManagedTargetName(w.ns, m);
    hide PassSpec, ManagedTargetName, LabelsOf, Ours;
    assert t != u;
    Elsewhere(w'.targets, w.targets, t, u);
  }

  lemma PassStaysOurs(w: World, n: Name, c: Replies, names: set<Name>)
    requires Ours(w, names) && NoCollisions(w.ns, names) && n in names && !Terminating(w, n)
    ensures Ours(PassSpec(w, n, c).world, names)
  {
    PassSettles(w, n, c, names);
    var w', t := PassSpec(w, n, c).world, ManagedTargetName(w.ns, n);
    hide PassSpec, ManagedTargetName, LabelsOf, SettledOk, Managed;
    forall u | u != t
      ensures (u in w'.targets <==> u in w.targets) && (u in w'.targets ==> w'.targets[u] == w.targets[u])
    {
      Elsewhere(w'.targets, w.targets, t, u);
    }
  }

  lemma VanishKeeps(s: State, t: Name, names: set<Name>)
    requires Inv(s, names)
    ensures Inv(Next(s, Vanish(t)), names)
  {
    hide ManagedTargetName, LabelsOf, Managed, Asks, Named, PassSpec;
  }

  lemma NextKeeps(s: State, e: Event, names: set<Name>)
    requires Inv(s, names) && NoCollisions(s.world.ns, names) && Allowed(s, e, names)
    ensures Inv(Next(s, e), names) && Next(s, e).world.ns == s.world.ns
  {
    match e {
      case SetRoute(_, _) => hide ManagedTargetName, LabelsOf, Managed;
      case DropRoute(_) => hide ManagedTargetName, LabelsOf, Managed;
      case Vanish(t) =>
        VanishKeeps(s, t, names);
        hide Inv;
      case Reconciles(n, c) =>
        PassSettles(s.world, n, c, names);
        PassStaysOurs(s.world, n, c, names);
        forall m | m in s.settled && m != n
          ensures SettledOk(PassSpec(s.world, n, c).world, m)
        {
          PassLeavesOthers(s.world, n, m, c, names);
        }
        hide PassSpec, SettledOk, Ours;
    }
  }

  lemma {:induction false} RunKeeps(s: State, es: seq<Event>, names: set<Name>)
    requires Inv(s, names) && NoCollisions(s.world.ns, names) && AllowedRun(s, es, names)
    ensures Inv(Run(s, es), names) && Run(s, es).world.ns == s.world.ns
    decreases |es|
  {
    if es != [] {
      NextKeeps(s, es[0], names);
      hide Inv, Next, Allowed;
      RunKeeps(Next(s, es[0]), es[1..], names);
    }
  }

  /** The targets route discovery answers for, and those the routes ask for. */
  ghost function LiveTargets(w: World): set<Name> {
    set t | t in w.targets && Managed(w.targets[t]) && !w.targets[t].deleting
  }

  ghost function WantedTargets(w: World): set<Name> {
    set n | n in w.routes && Wanted(w, n) :: ManagedTargetName(w.ns, n)
  }

  lemma LiveHasRoute(w: World, t: Name, names: set<Name>)
    requires Ours(w, names) && t in LiveTargets(w)
    ensures exists n :: n in names && t == ManagedTargetName(w.ns, n) && HasTarget(w, n)
  {
    var n :| n in names && t == ManagedTargetName(w.ns, n);
    assert HasTarget(w, n);
  }

  /**
   * Once all is settled, every route that asks for a target has it, with its URL, host and
   * connection; and there is no other live target exactly when no route that lost its hostnames
   * still has one.
   */
  lemma SettledCorrespond(w: World, names: set<Name>)
    requires Ours(w, names) && NoCollisions(w.ns, names) && forall n :: n in names ==> SettledOk(w, n)
    ensures forall n :: n in w.routes && Wanted(w, n) ==> Agrees(w, n)
    ensures WantedTargets(w) <= LiveTargets(w)
    ensures LiveTargets(w) == WantedTargets(w) <==> forall n :: n in w.routes && Hostless(w, n) ==> !HasTarget(w, n)
  {
    hide LabelsOf, Managed, Asks, Named, ManagedTargetName;
    if forall n :: n in w.routes && Hostless(w, n) ==> !HasTarget(w, n) {
      forall t | t in LiveTargets(w)
        ensures t in WantedTargets(w)
      {
        LiveHasRoute(w, t, names);
      }
    }
    forall n | n in w.routes && Hostless(w, n) && HasTarget(w, n)
      ensures ManagedTargetName(w.ns, n) in LiveTargets(w) && ManagedTargetName(w.ns, n) !in WantedTargets(w)
    {
    }
  }

  /** A settled route's further pass issues no write call, whatever its calls are answered. */
  lemma SettledPassWritesNothing(w: World, n: Name, c: Replies)
    requires SettledOk(w, n) && !Terminating(w, n)
    ensures PassSpec(w, n, c).world == w && !PassSpec(w, n, c).wrote
  {
  }

  /**
   * Over every run in which no two route names collide, nobody else edits targets and no pass meets
   * its target half deleted - API errors and lost replies included: once every route's last pass
   * since its last change met no API error, live targets and routes with a hostname correspond one
   * to one and agree, unless a route lost its hostnames; and a further pass writes nothing.
   */
  lemma RunsCorrespond(s: State, es: seq<Event>, names: set<Name>)
    requires Inv(s, names) && NoCollisions(s.world.ns, names) && AllowedRun(s, es, names)
    requires Run(s, es).settled == names
    ensures var w := Run(s, es).world;
            && (forall n :: n in w.routes && Wanted(w, n) ==> Agrees(w, n))
            && WantedTargets(w) <= LiveTargets(w)
            && (LiveTargets(w) == WantedTargets(w) <==>
                forall n :: n in w.routes && Hostless(w, n) ==> !HasTarget(w, n))
            && (forall m, n ::
                  m in w.routes && n in w.routes && ManagedTargetName(w.ns, m) == ManagedTargetName(w.ns, n) ==>
                  m == n)
            && (forall n, c :: n in names && !Terminating(w, n) ==>
                  PassSpec(w, n, c).world == w && !PassSpec(w, n, c).wrote)
  {
    RunKeeps(s, es, names);
    var w := Run(s, es).world;
    hide AllowedRun, Run;
    SettledCorrespond(w, names);
    forall n, c | n in names && !Terminating(w, n)
      ensures PassSpec(w, n, c).world == w && !PassSpec(w, n, c).wrote
    {
      SettledPassWritesNothing(w, n, c);
    }
    hide SettledOk, PassSpec, LiveTargets, WantedTargets, Agrees, HasTarget, Terminating, ManagedTargetName;
  }

  // ---- What the hypotheses exclude ----

  const Ok := Replies(true, true, Answered)

  /** A pass that meets its target half deleted takes it for the real one; then it is gone. */
  lemma HalfDeletedTargetMissed(w: World, n: Name)
    requires Wanted(w, n) && Terminating(w, n)
    requires Matches(w.targets[ManagedTargetName(w.ns, n)], w.routes[n],
        ExtractFirstHostname(w.routes[n].hostnames).value)
    ensures var s := Next(Next(State(w, {}), Reconciles(n, Ok)), Vanish(ManagedTargetName(w.ns, n)));
            n in s.settled && Wanted(s.world, n) && ManagedTargetName(s.world.ns, n) !in s.world.targets
  {
  }

  /** Colliding routes with different hosts are never served both. */
  lemma CollidingRoutesShareOneTarget(w: World, m: Name, n: Name)
    requires ManagedTargetName(w.ns, m) == ManagedTargetName(w.ns, n)
    requires Wanted(w, m) && Wanted(w, n) && w.routes[m].bindDomain != w.routes[n].bindDomain
    ensures !(Agrees(w, m) && Agrees(w, n))
  {
  }
}
