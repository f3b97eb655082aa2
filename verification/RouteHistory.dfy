/** What a run of route discovery decides: which target a route has, and which group it names. */
module RouteHistory {
  import opened Base
  import opened Passes
  import opened Routes
  import opened RouteRuns

  lemma {:induction false} AllowedPrefix(s: State, es: seq<Event>, k: nat, names: set<Name>)
    requires AllowedRun(s, es, names) && k < |es|
    ensures AllowedRun(s, es[..k], names) && Allowed(Run(s, es[..k]), es[k], names)
    decreases |es|
  {
    if k > 0 {
      var rest := es[1..];
      hide Allowed, Next;
      AllowedPrefix(Next(s, es[0]), rest, k - 1, names);
      assert es[..k][0] == es[0] && es[..k][1..] == rest[..k - 1] && rest[k - 1] == es[k];
    }
  }

  // ---- Which target a route has ----

  /** The pass gets as far as deciding: no call fails on the way, and the route has a hostname if it needs one. */
  predicate Reaches(w: World, n: Name, c: Replies) {
    && c.getRoute && c.getTarget && !Hostless(w, n)
    && (PassSpec(w, n, c).wrote ==> !c.write.Failed?)
  }

  /** A pass that gets that far leaves a live target if and only if the route is wanted; others leave it as it was. */
  lemma PassDecides(w: World, n: Name, c: Replies, names: set<Name>)
    requires Ours(w, names) && n in names && !Terminating(w, n)
    ensures HasTarget(PassSpec(w, n, c).world, n) <==> if Reaches(w, n, c) then Wanted(w, n) else HasTarget(w, n)
  {
    var o, t := PassSpec(w, n, c), ManagedTargetName(w.ns, n);
    if t in w.targets {
      LabelsAreOurs(w.ns, n, w.targets[t]);
    }
    PassSettles(w, n, c, names);
    if t in o.world.targets {
      LabelsAreOurs(w.ns, n, o.world.targets[t]);
    }
    hide Labelled, Managed, LabelsOf, ManagedTargetName, Ours, SettledOk;
  }

  /** A route that needs a hostname and has none: the pass stops with an error before any write, target or not. */
  lemma HostlessPassStops(w: World, n: Name, c: Replies)
    requires Hostless(w, n)
    ensures var o := PassSpec(w, n, c);
            o.world == w && !o.wrote && o.result == if c.getRoute then NoHostname else ApiError
  {
  }

  lemma OtherPassKeepsTarget(w: World, m: Name, n: Name, c: Replies, names: set<Name>)
    requires Ours(w, names) && NoCollisions(w.ns, names) && m in names && n in names && m != n && !Terminating(w, m)
    ensures HasTarget(PassSpec(w, m, c).world, n) <==> HasTarget(w, n)
  {
    PassSettles(w, m, c, names);
    var w', t, u := PassSpec(w, m, c).world, ManagedTargetName(w.ns, m), ManagedTargetName(w.ns, n);
    hide PassSpec, ManagedTargetName, LabelsOf, Ours, SettledOk, Managed;
    assert t != u;
    Elsewhere(w'.targets, w.targets, t, u);
  }

  /** The event is a pass over route n that gets as far as deciding. */
  predicate Decides(s: State, e: Event, n: Name) {
    e.Reconciles? && e.name == n && Reaches(s.world, n, e.replies)
  }

  lemma EventDecides(s: State, e: Event, n: Name, names: set<Name>)
    requires Inv(s, names) && NoCollisions(s.world.ns, names) && Allowed(s, e, names) && n in names
    ensures HasTarget(Next(s, e).world, n) <==> if Decides(s, e, n) then Wanted(s.world, n) else HasTarget(s.world, n)
  {
    match e {
      case Reconciles(m, c) =>
        if m == n {
          PassDecides(s.world, n, c, names);
        } else {
          OtherPassKeepsTarget(s.world, m, n, c, names);
        }
        hide PassSpec, HasTarget, Reaches, Inv;
      case _ =>
        hide Inv, Reaches, ManagedTargetName, Managed;
    }
  }

  /** What the last deciding pass over route n saw: whether the route was wanted then. */
  ghost predicate LastSawWanted(s: State, es: seq<Event>, n: Name)
    decreases |es|
  {
    if es == [] then HasTarget(s.world, n)
    else
      var k := |es| - 1;
      var s1 := Run(s, es[..k]);
      if Decides(s1, es[k], n) then Wanted(s1.world, n) else LastSawWanted(s, es[..k], n)
  }

  /**
   * In every allowed run, whatever calls fail or lose their reply: a route has a live target if and
   * only if the last pass over it that got as far as deciding saw it with annotations and a hostname.
   */
  lemma {:induction false} TargetIffLastSawWanted(s: State, es: seq<Event>, n: Name, names: set<Name>)
    requires Inv(s, names) && NoCollisions(s.world.ns, names) && AllowedRun(s, es, names) && n in names
    ensures HasTarget(Run(s, es).world, n) <==> LastSawWanted(s, es, n)
    decreases |es|
  {
    if es != [] {
      var k := |es| - 1;
      FoldSplit(Next, s, es);
      AllowedPrefix(s, es, k, names);
      RunKeeps(s, es[..k], names);
      hide Inv, Next, HasTarget, Decides, Allowed, AllowedRun;
      EventDecides(Run(s, es[..k]), es[k], n, names);
      TargetIffLastSawWanted(s, es[..k], n, names);
    }
  }

  /**
   * Once all is settled, live targets and routes with a hostname correspond if and only if no route
   * now without hostnames had one when a pass last got as far as deciding about it.
   */
  lemma RunsCorrespondIff(s: State, es: seq<Event>, names: set<Name>)
    requires Inv(s, names) && NoCollisions(s.world.ns, names) && AllowedRun(s, es, names)
    requires Run(s, es).settled == names
    ensures var w := Run(s, es).world;
            LiveTargets(w) == WantedTargets(w) <==>
            forall n :: n in w.routes && Hostless(w, n) ==> !LastSawWanted(s, es, n)
  {
    RunsCorrespond(s, es, names);
    RunKeeps(s, es, names);
    var w := Run(s, es).world;
    assert forall n :: n in w.routes ==> n in names;
    forall n | n in w.routes
      ensures HasTarget(w, n) <==> LastSawWanted(s, es, n)
    {
      TargetIffLastSawWanted(s, es, n, names);
    }
    hide Inv, HasTarget, Hostless, LastSawWanted, LiveTargets, WantedTargets, Run, AllowedRun;
  }

  // ---- Which group a target names ----

  /** A pass never changes the annotations of a target that exists, rewrite or not. */
  lemma PassKeepsAnnotations(w: World, n: Name, c: Replies, t: Name)
    requires t in w.targets
    ensures var w' := PassSpec(w, n, c).world;
            t in w'.targets && w'.targets[t].annotations == w.targets[t].annotations
  {
    hide ManagedTargetName, Labelled, Matches;
  }

  /** What a target says that a pass has written for a route. */
  ghost predicate Written(w: World, n: Name, t: Target) {
    && n in w.routes && Wanted(w, n) && !t.deleting
    && t.labels == map["warpgate.warpgate.warp.tech/managed-by" := "httproute-discovery",
                       "warpgate.warpgate.warp.tech/source-httproute" := w.ns + "/" + n]
    && t.spec.name == ManagedTargetName(w.ns, n) && t.spec.connectionRef == w.routes[n].connRef
    && t.spec.http == Some(Http("https://" + w.routes[n].hostnames.hosts[0], w.routes[n].bindDomain))
    && t.spec.description
       == "Auto-discovered from HTTPRoute " + (w.ns + "/" + n) + " (group: " + w.routes[n].group + ")"
  }

  /**
   * A pass touches no target but its own. It marks that one for deletion exactly if it carries the
   * label of route discovery and the route asks for none; anything else it writes is all the route says.
   */
  lemma PassWrites(w: World, n: Name, c: Replies, t: Name)
    ensures var w' := PassSpec(w, n, c).world;
            && (t in w.targets ==> t in w'.targets)
            && (t in w'.targets && (t in w.targets ==> w'.targets[t] != w.targets[t]) ==>
                  && t == ManagedTargetName(w.ns, n)
                  && if n in w.routes && Asks(w.routes[n]) then
                       && Written(w, n, w'.targets[t].(deleting := false))
                       && w'.targets[t].deleting == (t in w.targets && w.targets[t].deleting)
                     else t in w.targets && Managed(w.targets[t])
                          && w'.targets[t] == w.targets[t].(deleting := true))
  {
    hide ManagedTargetName;
  }

  /** A pass that creates a target does so for its route, naming the route's group. */
  lemma PassCreatesWithGroup(w: World, n: Name, c: Replies, t: Name)
    requires t !in w.targets && t in PassSpec(w, n, c).world.targets
    ensures t == ManagedTargetName(w.ns, n) && Wanted(w, n)
    ensures PassSpec(w, n, c).world.targets[t].annotations == map[TargetGroup := w.routes[n].group]
  {
    hide ManagedTargetName, Labelled, Matches, LabelsOf;
  }

  /** At step i a pass over route n created its target, and since then the target has been there. */
  ghost predicate CreatedAt(s: State, es: seq<Event>, i: nat, n: Name) {
    var t := ManagedTargetName(s.world.ns, n);
    && i < |es| && es[i].Reconciles? && es[i].name == n && t !in Run(s, es[..i]).world.targets
    && forall j :: i < j <= |es| ==> t in Run(s, es[..j]).world.targets
  }

  lemma EventCreates(s: State, e: Event, n: Name, names: set<Name>)
    requires NoCollisions(s.world.ns, names) && Allowed(s, e, names) && n in names
    requires ManagedTargetName(s.world.ns, n) in Next(s, e).world.targets
    ensures var t := ManagedTargetName(s.world.ns, n);
            if t in s.world.targets then Next(s, e).world.targets[t].annotations == s.world.targets[t].annotations
            else e.Reconciles? && e.name == n && n in s.world.routes &&
                 Next(s, e).world.targets[t].annotations == map[TargetGroup := s.world.routes[n].group]
  {
    var t := ManagedTargetName(s.world.ns, n);
    if e.Reconciles? {
      if t in s.world.targets {
        PassKeepsAnnotations(s.world, e.name, e.replies, t);
      } else {
        PassCreatesWithGroup(s.world, e.name, e.replies, t);
      }
      hide PassSpec, ManagedTargetName;
    }
  }

  /**
   * In every allowed run a target carries the group its route had when the target was created, so it
   * names its route's present group if and only if that is the same: a changed group annotation
   * never arrives, even by a pass that rewrites the target.
   */
  lemma {:induction false} GroupIsThatOfCreation(s: State, es: seq<Event>, n: Name, names: set<Name>) returns (i: nat)
    requires Inv(s, names) && NoCollisions(s.world.ns, names) && AllowedRun(s, es, names) && n in names
    requires var t := ManagedTargetName(s.world.ns, n); t !in s.world.targets && t in Run(s, es).world.targets
    ensures CreatedAt(s, es, i, n) && n in Run(s, es[..i]).world.routes
    ensures var t, w := ManagedTargetName(s.world.ns, n), Run(s, es).world;
            var then_ := Run(s, es[..i]).world.routes[n].group;
            && w.targets[t].annotations == map[TargetGroup := then_]
            && (n in w.routes ==>
                  (w.targets[t].annotations == map[TargetGroup := w.routes[n].group] <==> w.routes[n].group == then_))
    decreases |es|
  {
    var t, k := ManagedTargetName(s.world.ns, n), |es| - 1;
    if es == [] {
      assert false;
    } else {
      var before := es[..k];
      FoldSplit(Next, s, es);
      AllowedPrefix(s, es, k, names);
      RunKeeps(s, before, names);
      hide Inv, Next, Allowed, AllowedRun, NoCollisions, ManagedTargetName;
      EventCreates(Run(s, before), es[k], n, names);
      if t in Run(s, before).world.targets {
        i := GroupIsThatOfCreation(s, before, n, names);
        StillCreated(s, es, i, n);
      } else {
        i := k;
        JustCreated(s, es, n);
      }
      SameGroup(Run(s, es).world, n, Run(s, es[..i]).world.routes[n].group);
    }
  }

  lemma JustCreated(s: State, es: seq<Event>, n: Name)
    requires es != [] && es[|es| - 1].Reconciles? && es[|es| - 1].name == n
    requires var t := ManagedTargetName(s.world.ns, n);
             t !in Run(s, es[..|es| - 1]).world.targets && t in Run(s, es).world.targets
    ensures CreatedAt(s, es, |es| - 1, n)
  {
    hide Run, ManagedTargetName;
    assert es[..|es|] == es;
  }

  lemma StillCreated(s: State, es: seq<Event>, i: nat, n: Name)
    requires es != [] && CreatedAt(s, es[..|es| - 1], i, n)
    requires ManagedTargetName(s.world.ns, n) in Run(s, es).world.targets
    ensures CreatedAt(s, es, i, n) && es[..|es| - 1][..i] == es[..i]
  {
    hide Run, ManagedTargetName;
    var before := es[..|es| - 1];
    assert before[..i] == es[..i] && es[..|es|] == es;
    forall j | i < j <= |es|
      ensures ManagedTargetName(s.world.ns, n) in Run(s, es[..j]).world.targets
    {
      if j < |es| {
        assert before[..j] == es[..j];
      }
    }
  }

  lemma SameGroup(w: World, n: Name, was: string)
    ensures n in w.routes ==>
              (map[TargetGroup := was] == map[TargetGroup := w.routes[n].group] <==> w.routes[n].group == was)
  {
    if n in w.routes {
      assert map[TargetGroup := was][TargetGroup] == was;
      assert map[TargetGroup := w.routes[n].group][TargetGroup] == w.routes[n].group;
    }
  }
}
