/** Targets that wait for each other: a set of SSH targets whose jump hosts stay inside it. */
module TargetBlocking {
  import opened Base
  import opened Client
  import opened Kube
  import opened Passes
  import opened Lifecycle
  import opened Targets

  /** Either one target's controller or resource takes a step, or anything else happens anywhere else. */
  datatype GraphAction = Of(n: Name, a: Action<TargetSpec, View, TargetRequest>) | Elsewhere(g: Graph)

  function GraphStep(g: Graph, x: GraphAction): Graph {
    match x
    case Of(n, a) => g.(targets := Put(g.targets, n, Step(TargetKind, TargetWorld(g, n), a)))
    case Elsewhere(g') => g'
  }

  function GraphExec(g: Graph, xs: seq<GraphAction>): Graph {
    Fold(GraphStep, g, xs)
  }

  ghost predicate Inside(s: TargetSpec, names: set<Name>) {
    s.protocol.Ssh? && s.protocol.jumpHostRef != "" && s.protocol.jumpHostRef in names
  }

  /** Specs written for members keep their jump host inside; what happens elsewhere leaves members alone. */
  ghost predicate Respects(g: Graph, x: GraphAction, names: set<Name>) {
    match x
    case Of(n, Others(Change(Apply(s)))) => n in names ==> Inside(s, names)
    case Of(n, Others(Change(EditSpec(s)))) => n in names ==> Inside(s, names)
    case Of(_, _) => true
    case Elsewhere(g') => forall n :: n in names ==> SlotOf(g'.targets, n) == SlotOf(g.targets, n)
  }

  ghost predicate RespectsRun(g: Graph, xs: seq<GraphAction>, names: set<Name>)
    decreases |xs|
  {
    xs != [] ==> Respects(g, xs[0], names) && RespectsRun(GraphStep(g, xs[0]), xs[1..], names)
  }

  ghost predicate WaitingObj(o: Resource<TargetSpec>, names: set<Name>) {
    Inside(o.spec, names) && o.status.id.None? && !o.status.ready.IsReady?
  }

  ghost predicate WaitingFlight(f: Flight<TargetSpec, TargetRequest>, names: set<Name>) {
    match f
    case Idle => true
    case Connecting(b) => WaitingObj(b, names)
    case Releasing(b) => WaitingObj(b, names)
    case Adopting(b) => WaitingObj(b, names)
    case Preparing(b) => WaitingObj(b, names)
    case Noting(b, status) => WaitingObj(b, names) && status.id.None? && status.ready.NotReady?
    case _ => false
  }

  /** The records created for a resource so far, and the books of several resources. */
  type Book = map<Id, Option<Id>>
  type Books = map<Name, Book>

  /** The target has no id, is not Ready, and nothing was created for it beyond `past`. */
  ghost predicate Waiting(s: Slot<TargetSpec, TargetRequest>, names: set<Name>, past: Book) {
    && (s.store.obj.Some? ==> WaitingObj(s.store.obj.value, names))
    && WaitingFlight(s.flight, names)
    && s.made == past
  }

  ghost predicate AllWaiting(g: Graph, names: set<Name>, past: Books) {
    forall n :: n in names ==> n in past && Waiting(SlotOf(g.targets, n), names, past[n])
  }

  /** A member's request cannot be built while no member has an id. */
  lemma MemberIsBlocked(g: Graph, s: TargetSpec, f: Fault, names: set<Name>, past: Books)
    requires AllWaiting(g, names, past) && Inside(s, names)
    ensures TargetPrep(s, ViewOf(g), f) == Blocked(BuildError)
  {
    var j := s.protocol.jumpHostRef;
    assert Waiting(SlotOf(g.targets, j), names, past[j]);
    assert Resolve(ViewOf(g).targets, j) == None;
  }

  lemma MemberCalls(w: World<TargetSpec, View, TargetRequest>, f: Fault, names: set<Name>, past: Book)
    requires w.store.obj.Some? ==> WaitingObj(w.store.obj.value, names)
    requires WaitingFlight(w.flight, names) && w.made == past
    requires w.flight.Preparing? ==> TargetPrep(w.flight.base.spec, w.ext, f) == Blocked(BuildError)
    ensures var w' := CallStep(TargetKind, w, f);
            && (w'.store.obj.Some? ==> WaitingObj(w'.store.obj.value, names))
            && WaitingFlight(w'.flight, names) && w'.made == past
  {
    hide TargetPrep;
    match w.flight {
      case Idle =>
      case Connecting(_) =>
      case Releasing(_) =>
      case Adopting(_) =>
      case Preparing(_) =>
      case Noting(_, _) =>
    }
  }

  lemma MemberSteps(g: Graph, n: Name, a: Action<TargetSpec, View, TargetRequest>, names: set<Name>, past: Books)
    requires AllWaiting(g, names, past) && n in names && Respects(g, Of(n, a), names)
    ensures Waiting(SlotOf(GraphStep(g, Of(n, a)).targets, n), names, past[n])
  {
    var w := TargetWorld(g, n);
    match a {
      case Others(e) =>
      case Crash =>
      case Call(f) =>
        if w.flight.Preparing? {
          MemberIsBlocked(g, w.flight.base.spec, f, names, past);
        }
        MemberCalls(w, f, names, past[n]);
    }
  }

  lemma StepWaits(g: Graph, x: GraphAction, names: set<Name>, past: Books)
    requires AllWaiting(g, names, past) && Respects(g, x, names)
    ensures AllWaiting(GraphStep(g, x), names, past)
  {
    if x.Of? && x.n in names {
      MemberSteps(g, x.n, x.a, names, past);
    }
  }

  /**
   * In every run - any faults, any crash, any interleaving of all controllers, any order - for a set
   * of SSH targets without ids whose jump hosts all stay inside the set nothing is ever created in
   * Warpgate and none ever becomes Ready, as long as their specs keep it that way; whatever was
   * created for them before, and has since been deleted, makes no difference.
   */
  lemma {:induction false} ClosedSetNeverCreated(g: Graph, xs: seq<GraphAction>, names: set<Name>, past: Books)
    requires AllWaiting(g, names, past) && RespectsRun(g, xs, names)
    ensures var g' := GraphExec(g, xs);
            forall n :: n in names ==>
              && SlotOf(g'.targets, n).made == past[n]
              && StoredId(SlotOf(g'.targets, n)).None?
              && (SlotOf(g'.targets, n).store.obj.Some? ==>
                  !SlotOf(g'.targets, n).store.obj.value.status.ready.IsReady?)
    decreases |xs|
  {
    if xs == [] {
      forall n | n in names
        ensures Waiting(SlotOf(g.targets, n), names, past[n])
      {
      }
    } else {
      StepWaits(g, xs[0], names, past);
      ClosedSetNeverCreated(GraphStep(g, xs[0]), xs[1..], names, past);
    }
  }
}
