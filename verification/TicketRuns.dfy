/** What every run keeps of a ticket: the spec, the recorded id, and the request behind it. */
module TicketRuns {
  import opened Base
  import opened Client
  import opened Kube
  import opened Passes
  import opened Ticket

  /** The request carries the spec field by field. */
  predicate Carries(r: Request, s: Spec) {
    && r.username == s.username && r.targetName == s.targetName && r.expiry == s.expiry
    && r.numberOfUses == s.numberOfUses && r.description == s.description
  }

  ghost predicate StatusOk(w: World, spec: Spec, st: Status) {
    && (st.ticketID.Some? ==> st.ticketID.value in w.made && Carries(w.made[st.ticketID.value], spec))
    && (st.secretRef ==> st.ticketID.Some?)
  }

  ghost predicate ObjOk(w: World, o: Resource) {
    ValidateSpec(o.spec).Allowed? && StatusOk(w, o.spec, o.status) && (!o.finalizer ==> o.status.ticketID.None?)
  }

  ghost predicate LedgerOk(w: World) {
    && (forall c :: c in w.tickets ==> c < w.nextId)
    && (forall c :: c in w.made ==> c < w.nextId)
    && (forall c :: c in w.made && c in w.tickets ==> w.tickets[c] == w.made[c])
    && (forall c :: c in w.lost ==> c in w.made)
  }

  ghost predicate Stored(w: World, c: Id) {
    w.store.obj.Some? && w.store.obj.value.status.ticketID == Some(c)
  }

  ghost predicate Accounted(w: World) {
    forall c :: c in w.made && c in w.tickets ==> Stored(w, c) || c in w.lost || c in Unsaved(w.flight)
  }

  ghost predicate Held(w: World, b: Resource) {
    Tracks(w.store, b) && ObjOk(w, b)
  }

  /** A status about to be stored keeps a recorded id and what goes with it. */
  ghost predicate Keeps(w: World, b: Resource, status: Status) {
    && StatusOk(w, b.spec, status)
    && (b.status.ticketID.Some? ==> status.ticketID == b.status.ticketID && status.secretRef == b.status.secretRef)
  }

  ghost predicate FlightOk(w: World) {
    match w.flight
    case Idle => true
    case Connecting(b) => Held(w, b)
    case Deleting(b, id) => Held(w, b) && b.finalizer && b.deleting && b.status.ticketID == Some(id)
    case Finding(b) => Leaving(w, b)
    case Dropping(b) => Leaving(w, b)
    case Releasing(b) => Leaving(w, b)
    case Adopting(b) => Held(w, b) && !b.finalizer && !b.deleting
    case Creating(b) => Held(w, b) && b.finalizer && !b.deleting && b.status.ticketID.None?
    case Storing(b, status) =>
      && Held(w, b) && b.finalizer && Keeps(w, b, status)
      && status.ticketID.Some? && b.status.ticketID.None? && !status.secretRef
    case Saving(b, status) => Held(w, b) && b.finalizer && Keeps(w, b, status) && status.ticketID.Some? &&
        status.ready.IsReady?
    case Noting(b, status) =>
      && Held(w, b) && Keeps(w, b, status) && status.ready.NotReady?
      && (status.ticketID.Some? ==> b.finalizer)
  }

  /** The resource is marked and its recorded ticket is gone. */
  ghost predicate Leaving(w: World, b: Resource) {
    Held(w, b) && b.finalizer && b.deleting && (b.status.ticketID.Some? ==> b.status.ticketID.value !in w.tickets)
  }

  ghost predicate Core(w: World) {
    Fresh(w.store) && LedgerOk(w) && Accounted(w) && (w.store.obj.Some? ==> ObjOk(w, w.store.obj.value))
  }

  ghost predicate Inv(w: World) {
    Core(w) && FlightOk(w)
  }

  ghost predicate Initial(w: World) {
    && w.store.obj.None? && w.flight.Idle? && w.made == map[] && w.lost == {}
    && forall c :: c in w.tickets ==> c < w.nextId
  }

  lemma AdmittedKeeps(s: Store<Spec, Status>, e: Edit<Spec>)
    requires Fresh(s)
    ensures Fresh(Admitted(s, e)) && forall base :: Tracks(s, base) ==> Tracks(Admitted(s, e), base)
    ensures Admitted(s, e).obj.Some? ==>
              (if s.obj.Some? then Admitted(s, e).obj.value.spec == s.obj.value.spec &&
                                   Admitted(s, e).obj.value.status == s.obj.value.status &&
                                   Admitted(s, e).obj.value.finalizer == s.obj.value.finalizer
               else ValidateSpec(Admitted(s, e).obj.value.spec).Allowed? && Admitted(s, e).obj.value.status == Blank)
  {
    EditKeeps(s, e, Blank);
  }

  lemma ChangeKeeps(w: World, edit: Edit<Spec>)
    requires Inv(w)
    ensures Inv(EnvStep(w, Change(edit)))
  {
    AdmittedKeeps(w.store, edit);
    hide Admitted, Tracks, ValidateSpec;
  }

  lemma EnvKeeps(w: World, e: Env)
    requires Inv(w)
    ensures Inv(EnvStep(w, e))
  {
    if e.Change? {
      ChangeKeeps(w, e.edit);
    } else {
      hide Tracks, ValidateSpec;
    }
  }

  lemma Moves(w: World, flight: Flight)
    requires Core(w) && Unsaved(w.flight) == {}
    ensures Core(w.(flight := flight))
  {
  }

  lemma LookKeeps(w: World, f: Fault)
    requires Inv(w) && Looks(w.flight)
    ensures Inv(w.(flight := Look(w, f)))
  {
    Moves(w, Look(w, f));
    hide ValidateSpec, Accounted;
  }

  lemma ReleaseKeeps(w: World, f: Fault)
    requires Inv(w) && w.flight.Releasing?
    ensures Inv(Write(w, f))
  {
    hide ValidateSpec;
  }

  lemma AdoptKeeps(w: World, f: Fault)
    requires Inv(w) && w.flight.Adopting?
    ensures Inv(Write(w, f))
  {
    hide ValidateSpec;
  }

  lemma SaveKeeps(w: World, f: Fault)
    requires Inv(w) && (w.flight.Saving? || w.flight.Noting?)
    ensures Inv(Write(w, f))
  {
    hide ValidateSpec;
  }

  lemma DeleteKeeps(w: World, f: Fault)
    requires Inv(w) && w.flight.Deleting?
    ensures Inv(Order(w, f))
  {
    DeleteSettled(f, if w.flight.id in w.tickets then 204 else 404);
    hide ValidateSpec, ErrorOf;
  }

  lemma CreateKeeps(w: World, f: Fault)
    requires Inv(w) && w.flight.Creating?
    ensures Inv(Order(w, f))
  {
    hide ValidateSpec, Tracks;
  }

  lemma SecretKeeps(w: World, f: Fault)
    requires Inv(w) && (w.flight.Dropping? || w.flight.Storing?)
    ensures Inv(Order(w, f))
  {
    hide ValidateSpec, Tracks;
  }

  lemma CallKeeps(w: World, f: Fault)
    requires Inv(w)
    ensures Inv(CallStep(w, f))
  {
    hide Inv, Look, Write, Order;
    match w.flight {
      case Idle => LookKeeps(w, f);
      case Connecting(_) => LookKeeps(w, f);
      case Finding(_) => LookKeeps(w, f);
      case Deleting(_, _) => DeleteKeeps(w, f);
      case Dropping(_) => SecretKeeps(w, f);
      case Releasing(_) => ReleaseKeeps(w, f);
      case Adopting(_) => AdoptKeeps(w, f);
      case Creating(_) => CreateKeeps(w, f);
      case Storing(_, _) => SecretKeeps(w, f);
      case Saving(_, _) => SaveKeeps(w, f);
      case Noting(_, _) => SaveKeeps(w, f);
    }
  }

  lemma CrashKeeps(w: World)
    requires Inv(w)
    ensures Inv(Step(w, Crash))
  {
    hide ValidateSpec, Tracks;
  }

  lemma StepKeeps(w: World, a: Action)
    requires Inv(w)
    ensures Inv(Step(w, a))
  {
    match a {
      case Others(e) => EnvKeeps(w, e);
      case Call(f) => CallKeeps(w, f);
      case Crash => CrashKeeps(w);
    }
  }

  lemma {:induction false} RunKeeps(w: World, acts: seq<Action>)
    requires Inv(w)
    ensures Inv(Exec(w, acts))
    decreases |acts|
  {
    if acts != [] {
      StepKeeps(w, acts[0]);
      RunKeeps(Step(w, acts[0]), acts[1..]);
    }
  }

  lemma InitialInv(w: World)
    requires Initial(w)
    ensures Inv(w) && Books(w)
  {
  }

  // ---- What stays, while the resource exists ----

  /** The resource exists all along the run. */
  ghost predicate Persists(w: World, acts: seq<Action>)
    decreases |acts|
  {
    w.store.obj.Some? && (acts != [] ==> Persists(Step(w, acts[0]), acts[1..]))
  }

  /** Neither the spec nor a recorded ticket, with or without its Secret, is ever exchanged. */
  ghost predicate SameRecord(o: Resource, o': Resource) {
    && o'.spec == o.spec
    && (o.status.ticketID.Some? ==>
        o'.status.ticketID == o.status.ticketID && o'.status.secretRef == o.status.secretRef)
  }

  lemma StepKeepsRecord(w: World, a: Action)
    requires Inv(w) && w.store.obj.Some? && Step(w, a).store.obj.Some?
    ensures SameRecord(w.store.obj.value, Step(w, a).store.obj.value)
  {
    match a {
      case Others(e) =>
        if e.Change? {
          AdmittedKeeps(w.store, e.edit);
        }
        hide Admitted, Inv;
      case Crash => hide Inv;
      case Call(f) => CallKeepsRecord(w, f);
    }
  }

  lemma CallKeepsRecord(w: World, f: Fault)
    requires Inv(w) && w.store.obj.Some? && CallStep(w, f).store.obj.Some?
    ensures SameRecord(w.store.obj.value, CallStep(w, f).store.obj.value)
  {
    match w.flight {
      case Releasing(_) =>
        FinalizerKeepsId(w, f);
        hide Inv, CallStep;
      case Adopting(_) =>
        FinalizerKeepsId(w, f);
        hide Inv, CallStep;
      case Saving(_, _) => SaveKeepsRecord(w, f);
      case Noting(_, _) => SaveKeepsRecord(w, f);
      case _ => hide Inv, Look;
    }
  }

  lemma SaveKeepsRecord(w: World, f: Fault)
    requires Inv(w) && w.store.obj.Some? && (w.flight.Saving? || w.flight.Noting?)
    ensures CallStep(w, f).store.obj.Some? && SameRecord(w.store.obj.value, CallStep(w, f).store.obj.value)
  {
    hide Core, ObjOk;
  }

  /**
   * In every run of edits the webhook rules on, passes, faults and crashes: as long as the resource
   * exists its spec never changes, and its ticket id, once stored, never changes either.
   */
  lemma {:induction false} RecordIsForGood(w: World, acts: seq<Action>)
    requires Inv(w) && Persists(w, acts)
    ensures Exec(w, acts).store.obj.Some? && SameRecord(w.store.obj.value, Exec(w, acts).store.obj.value)
    decreases |acts|
  {
    if acts != [] {
      StepKeeps(w, acts[0]);
      StepKeepsRecord(w, acts[0]);
      hide Inv, Step;
      RecordIsForGood(Step(w, acts[0]), acts[1..]);
    }
  }

  /** The recorded ticket was requested with exactly the spec, and uses are absent or positive. */
  lemma TicketMatchesSpec(w0: World, acts: seq<Action>)
    requires Initial(w0) && Exec(w0, acts).store.obj.Some?
    ensures var w := Exec(w0, acts);
            var o := w.store.obj.value;
            && (o.spec.numberOfUses.Some? ==> o.spec.numberOfUses.value > 0) && o.spec.connectionRef != ""
            && forall c :: o.status.ticketID == Some(c) ==>
                 && c in w.made
                 && w.made[c].username == o.spec.username && w.made[c].targetName == o.spec.targetName
                 && w.made[c].expiry == o.spec.expiry && w.made[c].numberOfUses == o.spec.numberOfUses
                 && w.made[c].description == o.spec.description
                 && (c in w.tickets ==> w.tickets[c] == w.made[c])
  {
    InitialInv(w0);
    RunKeeps(w0, acts);
  }

  // ---- How many tickets are created ----

  ghost predicate Books(w: World) {
    forall c :: c in Unsaved(w.flight) ==> c in w.made && c !in w.lost
  }

  /** The tickets accounted for by a stored or a still unsaved id. */
  ghost function Known(w: World): nat {
    (if w.store.obj.Some? && w.store.obj.value.status.ticketID.Some? then 1 else 0) + |Unsaved(w.flight)|
  }

  lemma KnownIsAtMostOne(w: World)
    requires Inv(w)
    ensures Known(w) <= 1
  {
    hide Core, ObjOk, ValidateSpec;
  }

  lemma StepKeepsBooks(w: World, a: Action)
    requires Inv(w) && Books(w)
    ensures Books(Step(w, a))
  {
    match a {
      case Others(_) => hide Inv, Admitted;
      case Crash => hide Inv;
      case Call(f) =>
        match w.flight {
          case Creating(_) => hide Accounted, ObjOk, Tracks;
          case Releasing(_) => FinalizerWriteHolds(w, f); hide Inv, CallStep, Unsaved;
          case Adopting(_) => FinalizerWriteHolds(w, f); hide Inv, CallStep, Unsaved;
          case Idle => LookHoldsNothing(w, f); hide Inv, Look, Unsaved;
          case Connecting(_) => LookHoldsNothing(w, f); hide Inv, Look, Unsaved;
          case Finding(_) => LookHoldsNothing(w, f); hide Inv, Look, Unsaved;
          case Saving(_, _) => hide Inv, SaveStatus, Accepts;
          case Noting(_, _) => hide Inv, SaveStatus, Accepts;
          case _ => OtherOrderHolds(w, f); hide Inv, CallStep, Unsaved;
        }
    }
  }

  /** Nothing is created or lost unnoticed: each ticket made is lost, stored or held by the pass. */
  lemma StepBalances(w: World, a: Action)
    requires Inv(w) && Books(w) && w.store.obj.Some? && Step(w, a).store.obj.Some?
    ensures |Step(w, a).made| - |Step(w, a).lost| - Known(Step(w, a)) == |w.made| - |w.lost| - Known(w)
  {
    match a {
      case Others(e) =>
        if e.Change? {
          AdmittedKeeps(w.store, e.edit);
        }
        hide Admitted, Inv;
      case Crash => EndBalances(w, false);
      case Call(f) => CallBalances(w, f);
    }
  }

  lemma EndBalances(w: World, saved: bool)
    requires Books(w) && (saved ==> Unsaved(w.flight) == {})
    ensures |End(w, w.store, saved).lost| == |w.lost| + |Unsaved(w.flight)|
  {
    if Unsaved(w.flight) != {} {
      assert Unsaved(w.flight) == {w.flight.status.ticketID.value};
    }
  }

  lemma SaveBalances(w: World, f: Fault)
    requires Inv(w) && Books(w) && w.store.obj.Some? && (w.flight.Saving? || w.flight.Noting?)
    ensures var w' := CallStep(w, f);
            |w'.made| - |w'.lost| - Known(w') == |w.made| - |w.lost| - Known(w)
  {
    EndBalances(w, false);
    var b, status := w.flight.base, w.flight.status;
    var w' := CallStep(w, f);
    if Accepts(w.store, b, f) {
      assert w.store.obj.value == b && w'.store.obj.value.status == status;
      assert w'.lost == w.lost && w'.made == w.made && Unsaved(w'.flight) == {};
      assert b.status.ticketID.Some? ==> status.ticketID == b.status.ticketID;
      hide Inv, CallStep, Accepts;
    } else {
      hide Inv, ErrorOf;
    }
  }

  lemma CreateBalances(w: World, f: Fault)
    requires Inv(w) && w.flight.Creating?
    ensures var w' := CallStep(w, f);
            |w'.made| - |w'.lost| - Known(w') == |w.made| - |w.lost| - Known(w)
  {
    assert w.nextId !in w.made && w.nextId !in w.lost;
    hide Core, Held, Inv;
  }

  lemma LookHoldsNothing(w: World, f: Fault)
    requires Looks(w.flight)
    ensures Unsaved(w.flight) == {} && Unsaved(Look(w, f)) == {}
  {
  }

  lemma OtherOrderHolds(w: World, f: Fault)
    requires w.flight.Deleting? || w.flight.Dropping? || w.flight.Storing?
    ensures var w' := CallStep(w, f);
            w'.made == w.made && w'.lost == w.lost && w'.store == w.store && Unsaved(w'.flight) == Unsaved(w.flight)
  {
    hide Deleted;
  }

  lemma FinalizerWriteHolds(w: World, f: Fault)
    requires w.flight.Releasing? || w.flight.Adopting?
    ensures var w' := CallStep(w, f);
            w'.made == w.made && w'.lost == w.lost && Unsaved(w'.flight) == Unsaved(w.flight) == {}
  {
  }

  lemma CallBalances(w: World, f: Fault)
    requires Inv(w) && Books(w) && w.store.obj.Some? && CallStep(w, f).store.obj.Some?
    ensures var w' := CallStep(w, f);
            |w'.made| - |w'.lost| - Known(w') == |w.made| - |w.lost| - Known(w)
  {
    match w.flight {
      case Saving(_, _) => SaveBalances(w, f);
      case Noting(_, _) => SaveBalances(w, f);
      case Creating(_) => CreateBalances(w, f);
      case Releasing(_) =>
        FinalizerWriteHolds(w, f);
        FinalizerKeepsId(w, f);
        hide Inv, CallStep, Unsaved;
      case Adopting(_) =>
        FinalizerWriteHolds(w, f);
        FinalizerKeepsId(w, f);
        hide Inv, CallStep, Unsaved;
      case Idle => LookHoldsNothing(w, f); hide Inv, Look, Unsaved;
      case Connecting(_) => LookHoldsNothing(w, f); hide Inv, Look, Unsaved;
      case Finding(_) => LookHoldsNothing(w, f); hide Inv, Look, Unsaved;
      case _ =>
        OtherOrderHolds(w, f);
        hide Inv, CallStep, Unsaved;
    }
  }

  lemma FinalizerKeepsId(w: World, f: Fault)
    requires Inv(w) && (w.flight.Releasing? || w.flight.Adopting?)
    requires w.store.obj.Some? && CallStep(w, f).store.obj.Some?
    ensures CallStep(w, f).store.obj.value.status == w.store.obj.value.status
    ensures CallStep(w, f).store.obj.value.spec == w.store.obj.value.spec
  {
    hide Core, ObjOk;
  }

  /**
   * As long as the resource exists, the tickets created for it number at most one more than those
   * whose creation could not be recorded.
   */
  lemma {:induction false} CreatesAreFew(w: World, acts: seq<Action>)
    requires Inv(w) && Books(w) && Persists(w, acts)
    ensures var w' := Exec(w, acts);
            && |w'.made| - |w'.lost| - Known(w') == |w.made| - |w.lost| - Known(w)
            && |w'.made| - |w.made| <= 1 + |w'.lost| - |w.lost|
    decreases |acts|
  {
    KnownIsAtMostOne(w);
    RunKeeps(w, acts);
    KnownIsAtMostOne(Exec(w, acts));
    if acts != [] {
      StepKeeps(w, acts[0]);
      StepKeepsBooks(w, acts[0]);
      StepBalances(w, acts[0]);
      hide Inv, Step, Known, Books;
      CreatesAreFew(Step(w, acts[0]), acts[1..]);
    }
  }

  lemma {:induction false} RunKeepsBooks(w: World, acts: seq<Action>)
    requires Inv(w) && Books(w)
    ensures Inv(Exec(w, acts)) && Books(Exec(w, acts))
    decreases |acts|
  {
    if acts != [] {
      StepKeeps(w, acts[0]);
      StepKeepsBooks(w, acts[0]);
      hide Inv, Books, Step;
      RunKeepsBooks(Step(w, acts[0]), acts[1..]);
    }
  }

  /**
   * From any start, over any stretch of the run in which the resource exists: its spec and a
   * recorded ticket id stay, and at most one ticket more is created than is lost.
   */
  lemma TicketLife(w0: World, before: seq<Action>, acts: seq<Action>)
    requires Initial(w0) && Persists(Exec(w0, before), acts)
    ensures var w := Exec(w0, before);
            var w' := Exec(w, acts);
            && w'.store.obj.Some? && SameRecord(w.store.obj.value, w'.store.obj.value)
            && |w'.made| - |w.made| <= 1 + |w'.lost| - |w.lost|
  {
    InitialInv(w0);
    RunKeepsBooks(w0, before);
    hide Inv, Books, Known, SameRecord;
    RecordIsForGood(Exec(w0, before), acts);
    CreatesAreFew(Exec(w0, before), acts);
  }

  /** A ticket is given up only by a lost create reply, a crash, or a status write that did not land. */
  lemma LostHow(w: World, a: Action)
    requires Inv(w) && Step(w, a).lost != w.lost
    ensures || (w.flight.Creating? && a == Call(Lost))
            || (Unsaved(w.flight) != {} &&
                (a == Crash || (a.Call? && Writes(w.flight) && !Accepts(w.store, w.flight.base, a.fault))))
    ensures exists c :: Step(w, a).lost == w.lost + {c}
  {
    if w.flight.Creating? && a.Call? {
      assert Step(w, a).lost == w.lost + {w.nextId};
    } else {
      assert Step(w, a).lost == w.lost + {w.flight.status.ticketID.value};
    }
    hide Inv;
  }

  // ---- Finalization ----

  /** A live ticket ever created is stored, or lost as above, or in the hands of the pass under way. */
  lemma LiveTicketsAreAccounted(w0: World, acts: seq<Action>)
    requires Initial(w0)
    ensures var w := Exec(w0, acts);
            && (forall c :: c in w.made && c in w.tickets ==> Stored(w, c) || c in w.lost || c in Unsaved(w.flight))
            && (w.flight.Idle? && w.store.obj.None? ==> forall c :: c in w.made && c in w.tickets ==> c in w.lost)
  {
    InitialInv(w0);
    RunKeeps(w0, acts);
  }

  ghost predicate Guarded(w: World) {
    w.store.obj.Some? && w.store.obj.value.finalizer
  }

  /** No create before the finalizer is stored, and none once a ticket is recorded. */
  lemma CreateComesOnce(w0: World, acts: seq<Action>)
    requires Initial(w0) && Exec(w0, acts).flight.Creating?
    ensures Guarded(Exec(w0, acts)) && Exec(w0, acts).store.obj.value.status.ticketID.None?
  {
    InitialInv(w0);
    RunKeeps(w0, acts);
  }

  lemma ReleaseNeedsServedDelete(w: World, f: Fault)
    requires w.flight.Deleting?
    ensures CallStep(w, f).flight.Releasing? || CallStep(w, f).flight.Finding? <==> f.Served?
  {
    DeleteSettled(f, if w.flight.id in w.tickets then 204 else 404);
  }

  /** The finalizer is dropped only from a marked resource whose recorded ticket is gone. */
  lemma FinalizerOutlivesTicket(w0: World, acts: seq<Action>, a: Action)
    requires Initial(w0)
    requires Guarded(Exec(w0, acts)) && !Guarded(Step(Exec(w0, acts), a))
    ensures var w := Exec(w0, acts);
            w.flight.Releasing? && w.store.obj.value.deleting && forall c :: Stored(w, c) ==> c !in w.tickets
  {
    InitialInv(w0);
    RunKeeps(w0, acts);
    var w := Exec(w0, acts);
    match a {
      case Others(e) =>
        if e.Change? {
          AdmittedKeeps(w.store, e.edit);
        }
        hide Inv, Admitted;
      case Crash => hide Inv;
      case Call(f) => FinalizerCall(w, f);
    }
  }

  lemma FinalizerCall(w: World, f: Fault)
    requires Inv(w) && Guarded(w) && !Guarded(CallStep(w, f))
    ensures w.flight.Releasing? && w.store.obj.value.deleting && forall c :: Stored(w, c) ==> c !in w.tickets
  {
    if Writes(w.flight) {
      hide Core, ObjOk;
    } else {
      hide Inv, Look;
    }
  }

  /** The pass under way has left the delete of ticket c behind. */
  predicate PastDelete(w: World, c: Id) {
    (w.flight.Releasing? || w.flight.Finding? || w.flight.Dropping?) && w.flight.base.status.ticketID == Some(c)
  }

  /** The delete of ticket c is served. */
  predicate ServesDelete(w: World, a: Action, c: Id) {
    w.flight.Deleting? && w.flight.id == c && a == Call(Served)
  }

  lemma StepPastDelete(w: World, a: Action, c: Id)
    requires Inv(w) && PastDelete(Step(w, a), c)
    ensures PastDelete(w, c) || ServesDelete(w, a, c)
  {
    if a.Call? {
      if w.flight.Deleting? {
        ReleaseNeedsServedDelete(w, a.fault);
      }
      hide Core, ObjOk, Deleted, ErrorOf;
    }
  }

  lemma PastDeleteThroughServed(w0: World, acts: seq<Action>, c: Id) returns (i: nat)
    requires Initial(w0) && PastDelete(Exec(w0, acts), c)
    ensures i < |acts| && ServesDelete(Exec(w0, acts[..i]), acts[i], c)
  {
    i := Since(Step, w0, acts, (w: World) => PastDelete(w, c));
    InitialInv(w0);
    RunKeeps(w0, acts[..i]);
    hide Inv, Step, PastDelete, ServesDelete;
    StepPastDelete(Exec(w0, acts[..i]), acts[i], c);
  }

  /**
   * In every run: when a resource with recorded ticket c loses its finalizer, the server has served
   * the delete of c at an earlier step of the run.
   */
  lemma FinalizerDropsAfterServedDelete(w0: World, acts: seq<Action>, a: Action, c: Id) returns (i: nat)
    requires Initial(w0)
    requires Guarded(Exec(w0, acts)) && !Guarded(Step(Exec(w0, acts), a)) && Stored(Exec(w0, acts), c)
    ensures i < |acts| && ServesDelete(Exec(w0, acts[..i]), acts[i], c)
  {
    FinalizerOutlivesTicket(w0, acts, a);
    InitialInv(w0);
    RunKeeps(w0, acts);
    assert PastDelete(Exec(w0, acts), c);
    hide Inv, Initial, Step, Guarded;
    i := PastDeleteThroughServed(w0, acts, c);
  }
}
