/** The convergence theorem for targets and groups. */
module TargetRounds {
  import opened Base
  import opened Client
  import opened Kube
  import opened Passes
  import opened Lifecycle
  import opened LifecycleProgress
  import opened Kinds
  import opened Targets
  import opened TargetConvergence

  datatype Key = GroupKey(n: Name) | TargetKey(n: Name)

  /** One undisturbed pass of one resource's controller. */
  function Visit(g: Graph, k: Key): Graph {
    match k
    case GroupKey(n) => g.(groups := VisitHalf(GroupKind, g.groups, (), n))
    case TargetKey(n) => g.(targets := VisitHalf(TargetKind, g.targets, ViewOf(g), n))
  }

  function Visits(g: Graph, ks: seq<Key>): Graph {
    Fold(Visit, g, ks)
  }

  /** A round visits every group and every target, in any order. */
  ghost predicate IsRound(g: Graph, ks: seq<Key>) {
    && (forall n :: n in g.groups.slots ==> GroupKey(n) in ks)
    && (forall n :: n in g.targets.slots ==> TargetKey(n) in ks)
  }

  function Rounds(g: Graph, rs: seq<seq<Key>>): Graph {
    Fold(Visits, g, rs)
  }

  ghost predicate Orderly(g: Graph) {
    HalfOk(g.groups) && HalfOk(g.targets)
  }

  function SpecOf(g: Graph, n: Name): TargetSpec
    requires n in g.targets.slots && g.targets.slots[n].store.obj.Some?
  {
    g.targets.slots[n].store.obj.value.spec
  }

  /** A protocol is given, the Secrets it names are readable, and its group exists. */
  predicate Sound(g: Graph, s: TargetSpec) {
    (s.groupRef == "" || s.groupRef in g.groups.slots) && !s.protocol.Missing? && AllReadable(s.protocol, g.secrets)
  }

  function JumpOf(s: TargetSpec): Name {
    if s.protocol.Ssh? then s.protocol.jumpHostRef else ""
  }

  /** A sound target less than d jumps away from one without jump host: its jump depth is below d. */
  predicate Within(g: Graph, n: Name, d: nat)
    decreases d
  {
    && d > 0 && n in g.targets.slots && g.targets.slots[n].store.obj.Some? && Sound(g, SpecOf(g, n))
    && var j := JumpOf(SpecOf(g, n));
       j == "" || Within(g, j, d - 1)
  }

  /** The group and jump host the spec refers to have live ids. */
  ghost predicate DepsLive(g: Graph, s: TargetSpec) {
    (s.groupRef != "" ==> Live(g.groups, s.groupRef)) && (JumpOf(s) != "" ==> Live(g.targets, JumpOf(s)))
  }

  ghost predicate TargetDone(g: Graph, n: Name) {
    n in g.targets.slots && InSync(TargetKind, TargetWorld(g, n))
  }

  ghost predicate GroupDone(g: Graph, n: Name) {
    n in g.groups.slots && InSync(GroupKind, GroupWorld(g, n))
  }

  ghost predicate GroupsDone(g: Graph) {
    forall n :: n in g.groups.slots ==> GroupDone(g, n)
  }

  /** Every group is in sync, and so is every target within d. */
  ghost predicate DoneWithin(g: Graph, d: nat) {
    GroupsDone(g) && forall n :: Within(g, n, d) ==> TargetDone(g, n)
  }

  /** What visits leave: order, names, specs, Secrets, and live ids. */
  ghost predicate Steady(g: Graph, g': Graph) {
    HalfSteady(g.groups, g'.groups) && HalfSteady(g.targets, g'.targets) && g'.secrets == g.secrets
  }

  lemma VisitSteady(g: Graph, k: Key)
    requires Orderly(g)
    ensures Steady(g, Visit(g, k))
  {
    match k {
      case GroupKey(n) => HalfKeeps(GroupKind, g.groups, (), n);
      case TargetKey(n) =>
        KindsTopLevel(ViewOf(g));
        hide TargetPrep;
        HalfKeeps(TargetKind, g.targets, ViewOf(g), n);
    }
    hide VisitHalf;
  }

  lemma {:induction false} WithinSame(g: Graph, g': Graph, n: Name, d: nat)
    requires Steady(g, g')
    ensures Within(g, n, d) <==> Within(g', n, d)
    decreases d
  {
    if d > 0 {
      assert SpecIn(g'.targets, n) == SpecIn(g.targets, n);
      if SpecIn(g.targets, n).Some? && JumpOf(SpecOf(g, n)) != "" {
        WithinSame(g, g', JumpOf(SpecOf(g, n)), d - 1);
      }
    }
  }

  lemma {:induction false} WithinMore(g: Graph, n: Name, d: nat)
    requires Within(g, n, d)
    ensures Within(g, n, d + 1)
    decreases d
  {
    if JumpOf(SpecOf(g, n)) != "" {
      WithinMore(g, JumpOf(SpecOf(g, n)), d - 1);
    }
  }

  lemma DepResolves<S, R>(h: Half<S, R>, h': Half<S, R>, ref: Name)
    requires ref != "" ==> Live(h, ref) && Live(h', ref) && StoredId(h'.slots[ref]) == StoredId(h.slots[ref])
    ensures Resolve(Ids(h), ref).Some? && Resolve(Ids(h'), ref) == Resolve(Ids(h), ref)
  {
    if ref != "" {
      LiveResolves(h, ref);
      LiveResolves(h', ref);
    }
  }

  /** The options depend on the Secrets and on what the jump host resolves to. */
  lemma OptionsStay(p: Protocol, v: View, v': View)
    requires v'.secrets == v.secrets
    requires p.Ssh? ==> Resolve(v'.targets, p.jumpHostRef) == Resolve(v.targets, p.jumpHostRef)
    ensures BuildOptions(p, v') == BuildOptions(p, v)
  {
  }

  lemma DepsResolve(g: Graph, g': Graph, s: TargetSpec)
    requires Steady(g, g') && DepsLive(g, s)
    ensures Resolve(ViewOf(g).groups, s.groupRef).Some? && Resolve(ViewOf(g).targets, JumpOf(s)).Some?
    ensures Resolve(ViewOf(g').groups, s.groupRef) == Resolve(ViewOf(g).groups, s.groupRef)
    ensures Resolve(ViewOf(g').targets, JumpOf(s)) == Resolve(ViewOf(g).targets, JumpOf(s))
  {
    hide HalfOk, SpecIn, Resolve;
    DepResolves(g.groups, g'.groups, s.groupRef);
    DepResolves(g.targets, g'.targets, JumpOf(s));
  }

  /** While the ids a target depends on are live, its request is the same before and after a visit. */
  lemma RequestStays(g: Graph, g': Graph, s: TargetSpec)
    requires Steady(g, g') && DepsLive(g, s) && Sound(g, s)
    ensures TargetPrep(s, ViewOf(g), Served).Build?
    ensures TargetPrep(s, ViewOf(g'), Served) == TargetPrep(s, ViewOf(g), Served)
  {
    DepsResolve(g, g', s);
    hide HalfSteady, DepsLive, Ids, Resolve, ReadSecretValue;
    OptionsBuildIff(s.protocol, ViewOf(g));
    OptionsStay(s.protocol, ViewOf(g), ViewOf(g'));
  }

  lemma LiveResolves<S, R>(h: Half<S, R>, n: Name)
    requires Live(h, n) && n != ""
    ensures Resolve(Ids(h), n) == Some(StoredId(h.slots[n]))
  {
  }

  /** The dependencies of a target within d + 1 are live once everything within d is done. */
  lemma DepsAreLive(g: Graph, n: Name, d: nat)
    requires DoneWithin(g, d) && Within(g, n, d + 1)
    ensures DepsLive(g, SpecOf(g, n)) && Sound(g, SpecOf(g, n))
  {
    var s := SpecOf(g, n);
    if s.groupRef != "" {
      assert GroupDone(g, s.groupRef);
    }
    if JumpOf(s) != "" {
      assert Within(g, JumpOf(s), d);
      assert TargetDone(g, JumpOf(s));
    }
    hide Within, TargetPrep;
  }

  lemma KindsTopLevel(view: View)
    ensures TopLevel(GroupKind, ()) && TopLevel(TargetKind, view)
  {
    hide BuildOptions, Resolve;
  }

  lemma TargetVisit(g: Graph, k: Key, n: Name)
    requires Orderly(g) && n in g.targets.slots && Alive(TargetWorld(g, n))
    requires DepsLive(g, SpecOf(g, n)) && Sound(g, SpecOf(g, n))
    ensures var w, w' := TargetWorld(g, n), TargetWorld(Visit(g, k), n);
            && Alive(w') && Distance(TargetKind, w') <= Distance(TargetKind, w)
            && (k == TargetKey(n) ==>
                Distance(TargetKind, w') == 0 || Distance(TargetKind, w') < Distance(TargetKind, w))
  {
    VisitSteady(g, k);
    RequestStays(g, Visit(g, k), SpecOf(g, n));
    hide TargetPrep, Steady, Sound, DepsLive, HalfOk, ViewOf;
    var w := TargetWorld(g, n);
    match k {
      case GroupKey(_) => DistanceSame(TargetKind, w, TargetWorld(Visit(g, k), n));
      case TargetKey(m) => DistanceFalls(TargetKind, g.targets, ViewOf(g), ViewOf(Visit(g, k)), m, n);
    }
  }

  lemma GroupVisit(g: Graph, k: Key, n: Name)
    requires Orderly(g) && n in g.groups.slots
    ensures var w, w' := GroupWorld(g, n), GroupWorld(Visit(g, k), n);
            && Alive(w) && Alive(w') && Distance(GroupKind, w') <= Distance(GroupKind, w)
            && (k == GroupKey(n) ==> Distance(GroupKind, w') == 0 || Distance(GroupKind, w') < Distance(GroupKind, w))
  {
    assert SlotOk(g.groups.slots[n], g.groups.next);
    match k {
      case GroupKey(m) => DistanceFalls(GroupKind, g.groups, (), (), m, n);
      case TargetKey(_) =>
    }
  }

  // ---- Runs of visits ----

  lemma SteadyTrans(g: Graph, g1: Graph, g2: Graph)
    requires Steady(g, g1) && Steady(g1, g2)
    ensures Steady(g, g2)
  {
    hide HalfOk;
  }

  /** What is done within d stays done, whoever is visited. */
  lemma VisitKeepsDone(g: Graph, k: Key, d: nat)
    requires Orderly(g) && DoneWithin(g, d)
    ensures DoneWithin(Visit(g, k), d)
  {
    var g' := Visit(g, k);
    VisitSteady(g, k);
    forall n | n in g.groups.slots
      ensures GroupDone(g', n)
    {
      GroupStaysDone(g, k, n, d);
    }
    forall n | Within(g', n, d)
      ensures TargetDone(g', n)
    {
      TargetStaysDone(g, k, n, d);
    }
    hide Visit, GroupDone, TargetDone, HalfOk, Within, Live, SpecIn;
  }

  lemma GroupStaysDone(g: Graph, k: Key, n: Name, d: nat)
    requires Orderly(g) && DoneWithin(g, d) && n in g.groups.slots
    ensures GroupDone(Visit(g, k), n)
  {
    VisitSteady(g, k);
    assert GroupDone(g, n);
    GroupVisit(g, k, n);
    hide Visit, DoneWithin, HalfOk;
  }

  lemma TargetStaysDone(g: Graph, k: Key, n: Name, d: nat)
    requires Orderly(g) && DoneWithin(g, d) && Within(Visit(g, k), n, d)
    ensures TargetDone(Visit(g, k), n)
  {
    VisitSteady(g, k);
    WithinSame(g, Visit(g, k), n, d);
    assert TargetDone(g, n);
    WithinMore(g, n, d);
    DepsAreLive(g, n, d);
    TargetVisit(g, k, n);
    hide Visit, Steady, DoneWithin, Within;
  }

  /** Visits bring a target whose dependencies are done no further, and strictly nearer once visited. */
  lemma {:induction false} VisitsNear(g: Graph, ks: seq<Key>, n: Name, d: nat)
    requires Orderly(g) && DoneWithin(g, d) && Within(g, n, d + 1)
    ensures var g' := Visits(g, ks);
            && Alive(TargetWorld(g, n)) && Alive(TargetWorld(g', n))
            && Distance(TargetKind, TargetWorld(g', n)) <= Distance(TargetKind, TargetWorld(g, n))
            && (TargetKey(n) in ks ==>
                  Distance(TargetKind, TargetWorld(g', n)) == 0 ||
                  Distance(TargetKind, TargetWorld(g', n)) < Distance(TargetKind, TargetWorld(g, n)))
    decreases |ks|
  {
    assert SlotOk(g.targets.slots[n], g.targets.next);
    if ks != [] {
      var g1 := Visit(g, ks[0]);
      VisitSteady(g, ks[0]);
      WithinSame(g, g1, n, d + 1);
      VisitKeepsDone(g, ks[0], d);
      DepsAreLive(g, n, d);
      TargetVisit(g, ks[0], n);
      hide Visit, Steady, DoneWithin, Within, Distance;
      VisitsNear(g1, ks[1..], n, d);
    }
  }

  lemma {:induction false} VisitsNearGroup(g: Graph, ks: seq<Key>, n: Name)
    requires Orderly(g) && n in g.groups.slots
    ensures var g' := Visits(g, ks);
            && Alive(GroupWorld(g, n)) && Alive(GroupWorld(g', n))
            && Distance(GroupKind, GroupWorld(g', n)) <= Distance(GroupKind, GroupWorld(g, n))
            && (GroupKey(n) in ks ==>
                  Distance(GroupKind, GroupWorld(g', n)) == 0 ||
                  Distance(GroupKind, GroupWorld(g', n)) < Distance(GroupKind, GroupWorld(g, n)))
    decreases |ks|
  {
    assert SlotOk(g.groups.slots[n], g.groups.next);
    if ks != [] {
      VisitSteady(g, ks[0]);
      GroupVisit(g, ks[0], n);
      hide Visit, Distance, HalfOk;
      VisitsNearGroup(Visit(g, ks[0]), ks[1..], n);
    }
  }

  lemma {:induction false} VisitsKeep(g: Graph, ks: seq<Key>, d: nat)
    requires Orderly(g)
    ensures Orderly(Visits(g, ks)) && Steady(g, Visits(g, ks))
    ensures DoneWithin(g, d) ==> DoneWithin(Visits(g, ks), d)
    decreases |ks|
  {
    if ks == [] {
      hide HalfOk;
    } else {
      var g1 := Visit(g, ks[0]);
      VisitSteady(g, ks[0]);
      if DoneWithin(g, d) {
        VisitKeepsDone(g, ks[0], d);
      }
      VisitsKeep(g1, ks[1..], d);
      SteadyTrans(g, g1, Visits(g, ks));
      hide Visit, DoneWithin, HalfSteady;
    }
  }

  // ---- Rounds ----

  ghost predicate AllRounds(g: Graph, rs: seq<seq<Key>>) {
    forall i :: 0 <= i < |rs| ==> IsRound(g, rs[i])
  }

  function TwoRounds(g: Graph, a: seq<Key>, b: seq<Key>): Graph {
    Visits(Visits(g, a), b)
  }

  lemma GroupTwice(g: Graph, a: seq<Key>, b: seq<Key>, n: Name)
    requires Orderly(g) && n in g.groups.slots && GroupKey(n) in a && GroupKey(n) in b
    ensures GroupDone(TwoRounds(g, a, b), n)
  {
    var g1, g2 := Visits(g, a), TwoRounds(g, a, b);
    VisitsKeep(g, a, 0);
    VisitsKeep(g1, b, 0);
    VisitsNearGroup(g, a, n);
    VisitsNearGroup(g1, b, n);
    DistanceBounds(GroupKind, GroupWorld(g, n));
    DistanceBounds(GroupKind, GroupWorld(g2, n));
    hide Visits, HalfOk, Distance, InSync, DoneWithin, Alive, GroupWorld;
  }

  lemma TargetOnce(g: Graph, a: seq<Key>, n: Name, d: nat)
    requires Orderly(g) && TargetKey(n) in a && DoneWithin(g, d) && Within(g, n, d + 1)
    ensures var g' := Visits(g, a);
            && Orderly(g') && DoneWithin(g', d) && Within(g', n, d + 1)
            && Alive(TargetWorld(g, n)) && Alive(TargetWorld(g', n))
            && (Distance(TargetKind, TargetWorld(g', n)) == 0 ||
                Distance(TargetKind, TargetWorld(g', n)) < Distance(TargetKind, TargetWorld(g, n)))
  {
    VisitsKeep(g, a, d);
    VisitsNear(g, a, n, d);
    WithinSame(g, Visits(g, a), n, d + 1);
    hide *;
  }

  lemma TargetTwice(g: Graph, a: seq<Key>, b: seq<Key>, n: Name, d: nat)
    requires Orderly(g) && TargetKey(n) in a && TargetKey(n) in b && DoneWithin(g, d) && Within(g, n, d + 1)
    ensures TargetDone(TwoRounds(g, a, b), n)
  {
    var g2 := TwoRounds(g, a, b);
    TargetOnce(g, a, n, d);
    TargetOnce(Visits(g, a), b, n, d);
    hide Visits, Orderly, Distance, InSync, DoneWithin, Alive, Sound, TargetWorld;
    DistanceBounds(TargetKind, TargetWorld(g, n));
    DistanceBounds(TargetKind, TargetWorld(g2, n));
  }

  lemma TwoRoundsForGroups(g: Graph, a: seq<Key>, b: seq<Key>)
    requires Orderly(g) && IsRound(g, a) && IsRound(g, b)
    ensures GroupsDone(TwoRounds(g, a, b))
  {
    VisitsKeep(g, a, 0);
    VisitsKeep(Visits(g, a), b, 0);
    hide Visits, HalfOk, GroupDone, Live, SpecIn, DoneWithin;
    forall n | n in TwoRounds(g, a, b).groups.slots
      ensures GroupDone(TwoRounds(g, a, b), n)
    {
      assert n in g.groups.slots;
      GroupTwice(g, a, b, n);
    }
  }

  /** Two rounds carry convergence one jump further. */
  lemma TwoRoundsForTargets(g: Graph, a: seq<Key>, b: seq<Key>, d: nat)
    requires Orderly(g) && IsRound(g, a) && IsRound(g, b) && DoneWithin(g, d)
    ensures DoneWithin(TwoRounds(g, a, b), d + 1)
  {
    var g1, g2 := Visits(g, a), TwoRounds(g, a, b);
    VisitsKeep(g, a, d);
    VisitsKeep(g1, b, d);
    forall n | Within(g2, n, d + 1)
      ensures TargetDone(g2, n)
    {
      WithinSame(g1, g2, n, d + 1);
      WithinSame(g, g1, n, d + 1);
      hide Visits, HalfOk, TargetDone, GroupDone, Sound;
      TargetTwice(g, a, b, n, d);
    }
    hide Visits, HalfOk, TargetDone, GroupDone, Within;
  }

  lemma {:induction false} RoundsKeep(g: Graph, rs: seq<seq<Key>>, d: nat)
    requires Orderly(g)
    ensures Orderly(Rounds(g, rs)) && Steady(g, Rounds(g, rs))
    ensures DoneWithin(g, d) ==> DoneWithin(Rounds(g, rs), d)
    decreases |rs|
  {
    if rs == [] {
      hide HalfOk;
    } else {
      VisitsKeep(g, rs[0], d);
      RoundsKeep(Visits(g, rs[0]), rs[1..], d);
      SteadyTrans(g, Visits(g, rs[0]), Rounds(g, rs));
      hide Visits, DoneWithin, HalfSteady;
    }
  }

  lemma FirstTwo(g: Graph, rs: seq<seq<Key>>)
    requires |rs| >= 2
    ensures Rounds(g, rs) == Rounds(TwoRounds(g, rs[0], rs[1]), rs[2..])
  {
    assert rs[1..][1..] == rs[2..];
    assert Rounds(g, rs) == Rounds(Visits(g, rs[0]), rs[1..]);
  }

  lemma AfterTwo(g: Graph, rs: seq<seq<Key>>)
    requires Orderly(g) && AllRounds(g, rs) && |rs| >= 2
    ensures var g2 := TwoRounds(g, rs[0], rs[1]);
            Orderly(g2) && AllRounds(g2, rs[2..])
  {
    VisitsKeep(g, rs[0], 0);
    VisitsKeep(Visits(g, rs[0]), rs[1], 0);
    hide Visits, HalfOk, DoneWithin;
  }

  lemma {:induction false} Climb(g: Graph, rs: seq<seq<Key>>, d: nat, e: nat)
    requires Orderly(g) && AllRounds(g, rs) && DoneWithin(g, d) && |rs| >= 2 * e
    ensures DoneWithin(Rounds(g, rs), d + e)
    decreases e
  {
    if e == 0 {
      RoundsKeep(g, rs, d);
    } else {
      assert IsRound(g, rs[0]) && IsRound(g, rs[1]);
      hide *;
      AfterTwo(g, rs);
      TwoRoundsForTargets(g, rs[0], rs[1], d);
      Climb(TwoRounds(g, rs[0], rs[1]), rs[2..], d + 1, e - 1);
      FirstTwo(g, rs);
    }
  }

  /** The target is Ready and its record carries exactly its spec, with the ids its group and jump host have now. */
  ghost predicate Reflects(g: Graph, n: Name) {
    && Live(g.targets, n) && SpecIn(g.targets, n).Some? && g.targets.slots[n].store.obj.value.status.ready.IsReady?
    && var s, r := SpecIn(g.targets, n).value, g.targets.recs[StoredId(g.targets.slots[n]).value].req;
       && r.name == s.name && r.description == s.description && r.limits == s.limits
       && (if s.groupRef == "" then r.groupID == None
           else Live(g.groups, s.groupRef) && r.groupID == StoredId(g.groups.slots[s.groupRef]))
       && CarriesProtocol(s.protocol, g.secrets, r.options)
       && (s.protocol.Ssh? ==>
             if JumpOf(s) == "" then r.options.jumpHost == None
             else Live(g.targets, JumpOf(s)) && r.options.jumpHost == StoredId(g.targets.slots[JumpOf(s)]))
  }

  lemma DoneReflects(g: Graph, n: Name, d: nat)
    requires Orderly(g) && DoneWithin(g, d) && Within(g, n, d)
    ensures Reflects(g, n)
  {
    WithinMore(g, n, d);
    DepsAreLive(g, n, d);
    assert TargetDone(g, n);
    BuiltRequestCarriesSpec(SpecOf(g, n), ViewOf(g), Served);
    hide HalfOk, DoneWithin, Within, CarriesProtocol, TargetPrep, Sound;
  }

  lemma ClimbFromGround(g: Graph, rs: seq<seq<Key>>, d: nat)
    requires Orderly(g) && AllRounds(g, rs) && GroupsDone(g) && |rs| >= 2 * d
    ensures Orderly(Rounds(g, rs)) && DoneWithin(Rounds(g, rs), d)
  {
    assert DoneWithin(g, 0);
    hide *;
    Climb(g, rs, 0, d);
    RoundsKeep(g, rs, 0);
  }

  lemma RoundsFinish(g: Graph, rs: seq<seq<Key>>, d: nat)
    requires Orderly(g) && AllRounds(g, rs) && |rs| >= 2 + 2 * d
    ensures Orderly(Rounds(g, rs)) && DoneWithin(Rounds(g, rs), d)
  {
    assert IsRound(g, rs[0]) && IsRound(g, rs[1]);
    hide *;
    AfterTwo(g, rs);
    FirstTwo(g, rs);
    TwoRoundsForGroups(g, rs[0], rs[1]);
    ClimbFromGround(TwoRounds(g, rs[0], rs[1]), rs[2..], d);
  }

  /**
   * From any stored statuses - stale ids included - in any order within each round, after 2 + 2d
   * undisturbed rounds every target less than d jumps deep is live, Ready, and its record carries
   * the ids that its group and its jump host have at that time; every longer run keeps it so.
   */
  lemma RoundsConverge(g: Graph, rs: seq<seq<Key>>, n: Name, d: nat)
    requires Orderly(g) && AllRounds(g, rs) && |rs| >= 2 + 2 * d && Within(g, n, d)
    ensures Reflects(Rounds(g, rs), n)
  {
    RoundsFinish(g, rs, d);
    RoundsKeep(g, rs, 0);
    WithinSame(g, Rounds(g, rs), n, d);
    DoneReflects(Rounds(g, rs), n, d);
    hide *;
  }

  /** A visit to a group or target that is done writes nothing at all, whatever the rest is up to. */
  lemma DoneIsFixed(g: Graph, k: Key)
    requires if k.GroupKey? then GroupDone(g, k.n) else TargetDone(g, k.n)
    ensures Visit(g, k) == g
  {
    match k {
      case GroupKey(n) =>
        CalmPassApproaches(GroupKind, GroupWorld(g, n));
        hide CalmPass;
      case TargetKey(n) =>
        CalmPassApproaches(TargetKind, TargetWorld(g, n));
        hide CalmPass, TargetPrep;
    }
  }

  /**
   * A target that is at no depth is unsound itself, or hangs on a missing target or on another one
   * that is at no depth: convergence by depth fails only for what can never be built.
   */
  lemma OtherwiseStuck(g: Graph, n: Name)
    requires n in g.targets.slots && g.targets.slots[n].store.obj.Some? && forall d: nat :: !Within(g, n, d)
    ensures var s := SpecOf(g, n);
            !Sound(g, s) || (JumpOf(s) != "" && forall d: nat :: !Within(g, JumpOf(s), d))
  {
    var s := SpecOf(g, n);
    if Sound(g, s) && JumpOf(s) == "" {
      assert Within(g, n, 1);
    }
    if Sound(g, s) && JumpOf(s) != "" {
      forall d: nat
        ensures !Within(g, JumpOf(s), d)
      {
        assert !Within(g, n, d + 1);
      }
    }
  }

  /** The request of an existing target, as its next pass would build it. */
  ghost function RequestOf(g: Graph, n: Name): Prep<TargetRequest>
    requires n in g.targets.slots && g.targets.slots[n].store.obj.Some?
  {
    TargetPrep(SpecOf(g, n), ViewOf(g), Served)
  }

  /** Why live ids must not be shared: two targets on one record are both done only with equal requests. */
  lemma SharedRecordNeverSettles(g: Graph, m: Name, n: Name)
    requires m in g.targets.slots && n in g.targets.slots
    requires SpecIn(g.targets, m).Some? && SpecIn(g.targets, n).Some?
    requires RequestOf(g, m) != RequestOf(g, n)
    requires StoredId(g.targets.slots[m]) == StoredId(g.targets.slots[n])
    ensures !(TargetDone(g, m) && TargetDone(g, n))
  {
    hide TargetPrep;
  }
}
