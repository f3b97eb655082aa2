/** What every run keeps of a user resource, and what it does not. */
module UserRuns {
  import opened Base
  import opened Client
  import opened Kube
  import opened Passes
  import opened User

  ghost predicate StatusOk(w: World, st: Status) {
    st.externalID.Some? ==> st.externalID.value in w.made
  }

  ghost predicate ObjOk(w: World, o: Resource) {
    StatusOk(w, o.status) && (!o.finalizer ==> o.status.externalID.None?)
  }

  ghost predicate LedgerOk(w: World) {
    && (forall c :: c in w.users ==> c < w.nextId)
    && (forall c :: c in w.made ==> c < w.nextId)
    && (forall c :: c in w.lost ==> c in w.made)
  }

  ghost predicate Stored(w: World, c: Id) {
    w.store.obj.Some? && w.store.obj.value.status.externalID == Some(c)
  }

  ghost predicate Accounted(w: World) {
    forall c :: c in w.made && c in w.users ==> Stored(w, c) || c in w.lost || c in Unsaved(w.flight)
  }

  ghost predicate Held(w: World, b: Resource) {
    Tracks(w.store, b) && ObjOk(w, b)
  }

  /** The user stored before the pass is gone once the pass works with another one or none. */
  ghost predicate Superseded(w: World, b: Resource, status: Status) {
    b.status.externalID.Some? && b.status.externalID != status.externalID ==> b.status.externalID.value !in w.users
  }

  ghost predicate Working(w: World, b: Resource, status: Status) {
    Held(w, b) && b.finalizer && StatusOk(w, status) && Superseded(w, b, status)
  }

  /** The resource is marked; `creds`: its recorded credential is gone; `user`: so is its recorded user. */
  ghost predicate Leaving(w: World, b: Resource, cred: bool, user: bool) {
    && Held(w, b) && b.finalizer && b.deleting
    && (cred && b.status.credentialID.Some? && b.status.externalID.Some? ==>
          !CredThere(w.creds, b.status.externalID.value, b.status.credentialID.value))
    && (user && b.status.externalID.Some? ==> b.status.externalID.value !in w.users)
  }

  ghost predicate CredsOk(w: World) {
    forall c :: c in w.creds ==> c < w.nextId
  }

  ghost predicate StatusCredOk(w: World, st: Status) {
    st.credentialID.Some? ==> st.credentialID.value < w.nextId
  }

  ghost predicate FlightOk(w: World) {
    match w.flight
    case Idle => true
    case Connecting(b) => Held(w, b)
    case DeletingCred(b, user, id) =>
      Leaving(w, b, false, false) && b.status.externalID == Some(user) && b.status.credentialID == Some(id)
    case Finding(b) => Leaving(w, b, true, false)
    case Dropping(b) => Leaving(w, b, true, false)
    case DeletingUser(b, user) => Leaving(w, b, true, false) && b.status.externalID == Some(user)
    case Releasing(b) => Leaving(w, b, true, true)
    case Adopting(b) => Held(w, b) && !b.finalizer && !b.deleting
    case Creating(b) => Held(w, b) && b.finalizer && !b.deleting && b.status.externalID.None?
    case Updating(b, user) => Held(w, b) && b.finalizer && !b.deleting && b.status.externalID == Some(user)
    case Generating(b, status, user) => Working(w, b, status) && status.externalID == Some(user)
    case Storing(b, status, cred) => Working(w, b, status) && status.externalID.Some? && cred < w.nextId
    case Saving(b, status) => Working(w, b, status) && status.externalID.Some?
    case Noting(b, status) =>
      && Held(w, b) && StatusOk(w, status) && Superseded(w, b, status)
      && (status.externalID.Some? ==> b.finalizer)
  }

  /** Recorded credential ids were handed out before; a new one is never confused with them. */
  ghost predicate IdsOk(w: World) {
    && CredsOk(w)
    && (w.store.obj.Some? ==> StatusCredOk(w, w.store.obj.value.status))
    && (!w.flight.Idle? ==> StatusCredOk(w, w.flight.base.status))
    && (HasStatus(w.flight) ==> StatusCredOk(w, w.flight.status))
  }

  ghost predicate Core(w: World) {
    Fresh(w.store) && LedgerOk(w) && Accounted(w) && IdsOk(w) && (w.store.obj.Some? ==> ObjOk(w, w.store.obj.value))
  }

  ghost predicate Inv(w: World) {
    Core(w) && FlightOk(w)
  }

  ghost predicate Initial(w: World) {
    && w.store.obj.None? && w.flight.Idle? && w.made == {} && w.lost == {}
    && (forall c :: c in w.users ==> c < w.nextId) && CredsOk(w)
  }

  lemma InitialInv(w: World)
    requires Initial(w)
    ensures Inv(w)
  {
  }

  lemma ChangeKeeps(w: World, edit: Edit<Spec>)
    requires Inv(w)
    ensures Inv(EnvStep(w, Change(edit)))
  {
    EditKeeps(w.store, edit, Blank);
    hide Tracks, CredThere;
  }

  lemma ServerKeeps(w: World, w': World)
    requires Inv(w)
    requires w' == w.(users := w'.users, creds := w'.creds, nextId := w'.nextId, secret := w'.secret)
    requires w.nextId <= w'.nextId && (forall c :: c in w'.users ==> c < w'.nextId)
    requires forall c :: c in w'.users && c < w.nextId ==> c in w.users
    requires forall c :: c in w'.creds ==> c < w'.nextId
    requires forall c :: c in w'.creds && c < w.nextId ==> c in w.creds && w'.creds[c] == w.creds[c]
    ensures Inv(w')
  {
    hide Tracks;
  }

  lemma EnvKeeps(w: World, e: Env)
    requires Inv(w)
    ensures Inv(EnvStep(w, e))
  {
    if e.Change? {
      ChangeKeeps(w, e.edit);
    } else {
      ServerKeeps(w, EnvStep(w, e));
      hide Inv;
    }
  }

  lemma Moves(w: World, flight: Flight)
    requires Core(w) && Unsaved(w.flight) == {}
    requires !flight.Idle? ==> StatusCredOk(w, flight.base.status)
    requires HasStatus(flight) ==> StatusCredOk(w, flight.status)
    ensures Core(w.(flight := flight))
  {
  }

  lemma LookKeeps(w: World, f: Fault)
    requires Inv(w) && Looks(w.flight)
    ensures Inv(w.(flight := Look(w, f)))
  {
    Moves(w, Look(w, f));
    hide Accounted, LedgerOk;
  }

  lemma ReleaseKeeps(w: World, f: Fault)
    requires Inv(w) && w.flight.Releasing?
    ensures Inv(Write(w, f))
  {
  }

  lemma AdoptKeeps(w: World, f: Fault)
    requires Inv(w) && w.flight.Adopting?
    ensures Inv(Write(w, f))
  {
  }

  lemma SaveKeeps(w: World, f: Fault)
    requires Inv(w) && (w.flight.Saving? || w.flight.Noting?)
    ensures Inv(Write(w, f))
  {
  }

  lemma RemoveKeeps(w: World, f: Fault)
    requires Inv(w) && Removes(w.flight)
    ensures Inv(Remove(w, f))
  {
    var w1 := Remove(w, f).(flight := w.flight);
    ServerKeeps(w, w1);
    Moves(w1, Remove(w, f).flight);
    match w.flight {
      case DeletingCred(_, user, id) => DeleteSettled(f, if CredThere(w.creds, user, id) then 204 else 404);
      case Dropping(_) =>
      case DeletingUser(_, user) => DeleteSettled(f, if user in w.users then 204 else 404);
    }
    hide Core, Tracks, ErrorOf;
  }

  lemma CreateKeeps(w: World, f: Fault)
    requires Inv(w) && w.flight.Creating?
    ensures Inv(Order(w, f))
  {
    hide Tracks;
  }

  lemma UpdateKeeps(w: World, f: Fault)
    requires Inv(w) && w.flight.Updating?
    ensures Inv(Order(w, f))
  {
    var w1 := Order(w, f).(flight := w.flight);
    ServerKeeps(w, w1);
    DeleteSettled(f, if w.flight.user in w.users then 200 else 404);
    Moves(w1, Order(w, f).flight);
    hide Core, Tracks, ErrorOf;
  }

  lemma GenerateKeeps(w: World, f: Fault)
    requires Inv(w) && w.flight.Generating?
    ensures Inv(Order(w, f))
  {
    hide Tracks;
  }

  lemma StoreKeeps(w: World, f: Fault)
    requires Inv(w) && w.flight.Storing?
    ensures Inv(Order(w, f))
  {
    hide Tracks;
  }

  lemma CallKeeps(w: World, f: Fault)
    requires Inv(w)
    ensures Inv(CallStep(w, f))
  {
    hide Inv, Look, Write, Order, Remove;
    match w.flight {
      case Releasing(_) => ReleaseKeeps(w, f);
      case Adopting(_) => AdoptKeeps(w, f);
      case Saving(_, _) => SaveKeeps(w, f);
      case Noting(_, _) => SaveKeeps(w, f);
      case Creating(_) => CreateKeeps(w, f);
      case Updating(_, _) => UpdateKeeps(w, f);
      case Generating(_, _, _) => GenerateKeeps(w, f);
      case Storing(_, _, _) => StoreKeeps(w, f);
      case _ =>
        if Looks(w.flight) {
          LookKeeps(w, f);
        } else {
          RemoveKeeps(w, f);
        }
    }
  }

  lemma CrashKeeps(w: World)
    requires Inv(w)
    ensures Inv(Step(w, Crash))
  {
    hide Tracks;
  }

  lemma StepKeeps(w: World, a: Action)
    requires Inv(w)
    ensures Inv(Step(w, a))
  {
    match a {
      case Others(e) => EnvKeeps(w, e);
      case Call(f) => CallKeeps(w, f);
      case Crash => CrashKeeps(w);
    }
  }

  lemma {:induction false} RunKeeps(w: World, acts: seq<Action>)
    requires Inv(w)
    ensures Inv(Exec(w, acts))
    decreases |acts|
  {
    if acts != [] {
      StepKeeps(w, acts[0]);
      RunKeeps(Step(w, acts[0]), acts[1..]);
    }
  }

  // ---- Runs ----

  /**
   * After any run a live user this resource ever created is the one in its stored status, or was
   * lost, or is held by the pass under way; once the resource is finalized only lost ones remain.
   */
  lemma LiveUsersAreAccounted(w0: World, acts: seq<Action>)
    requires Initial(w0)
    ensures var w := Exec(w0, acts);
            && (forall c :: c in w.made && c in w.users ==> Stored(w, c) || c in w.lost || c in Unsaved(w.flight))
            && (w.flight.Idle? && w.store.obj.None? ==> forall c :: c in w.made && c in w.users ==> c in w.lost)
  {
    InitialInv(w0);
    RunKeeps(w0, acts);
  }

  /**
   * A user is lost by a lost create reply, a crash, a status write that does not land - or by a
   * Secret that cannot be created, because that failure writes no status.
   */
  lemma LostHow(w: World, a: Action)
    requires Inv(w) && Step(w, a).lost != w.lost
    ensures || (w.flight.Creating? && a == Call(Lost))
            || (Unsaved(w.flight) != {} &&
                (a == Crash || (a.Call? && (if w.flight.Storing? then !a.fault.Served?
                                            else Writes(w.flight) && !Accepts(w.store, w.flight.base, a.fault)))))
    ensures exists c :: Step(w, a).lost == w.lost + {c}
  {
    assert w.flight.Creating? ==> w.flight.base.status.externalID.None?;
    hide Inv;
    if w.flight.Creating? && a.Call? {
      assert Step(w, a).lost == w.lost + {w.nextId};
    } else {
      assert Step(w, a).lost == w.lost + {w.flight.status.externalID.value};
    }
  }

  ghost predicate Guarded(w: World) {
    w.store.obj.Some? && w.store.obj.value.finalizer
  }

  /** No user is created before the finalizer is stored, nor while one is recorded. */
  lemma CreateComesAfterFinalizer(w0: World, acts: seq<Action>)
    requires Initial(w0)
    ensures var w := Exec(w0, acts);
            && (w.flight.Creating? ==> Guarded(w) && w.store.obj.value.status.externalID.None?)
            && (w.flight.Generating? ==> Guarded(w))
  {
    InitialInv(w0);
    RunKeeps(w0, acts);
  }

  /** Finalization passes each delete only when the server has served it. */
  lemma RemovalsNeedServedDeletes(w: World, f: Fault)
    requires w.flight.DeletingCred? || w.flight.DeletingUser?
    ensures !CallStep(w, f).flight.Idle? <==> f.Served?
  {
    if w.flight.DeletingCred? {
      DeleteSettled(f, if CredThere(w.creds, w.flight.user, w.flight.id) then 204 else 404);
    } else {
      DeleteSettled(f, if w.flight.user in w.users then 204 else 404);
    }
  }

  /** The finalizer is dropped only when the recorded credential and the recorded user are gone. */
  lemma FinalizerOutlivesUser(w0: World, acts: seq<Action>, a: Action)
    requires Initial(w0)
    requires Guarded(Exec(w0, acts)) && !Guarded(Step(Exec(w0, acts), a))
    ensures var w := Exec(w0, acts);
            var st := w.store.obj.value.status;
            && w.flight.Releasing? && w.store.obj.value.deleting
            && (st.externalID.Some? ==> st.externalID.value !in w.users)
            && (st.externalID.Some? && st.credentialID.Some? ==>
                  !CredThere(w.creds, st.externalID.value, st.credentialID.value))
  {
    InitialInv(w0);
    RunKeeps(w0, acts);
    var w := Exec(w0, acts);
    if a.Call? {
      FinalizerCall(w, a.fault);
    } else {
      hide Inv;
    }
  }

  lemma FinalizerCall(w: World, f: Fault)
    requires Inv(w) && Guarded(w) && !Guarded(CallStep(w, f))
    ensures w.flight.Releasing? && w.store.obj.value.deleting && Leaving(w, w.flight.base, true, true)
    ensures w.store.obj.value.status == w.flight.base.status
  {
    if Writes(w.flight) {
      hide Core, ObjOk;
    } else {
      hide Inv, Look, Deleted, WithoutUser;
    }
  }

  /** The pass under way has left the delete of user c behind, or that of its credential d. */
  predicate PastUser(w: World, c: Id) {
    w.flight.Releasing? && w.flight.base.status.externalID == Some(c)
  }

  predicate PastCred(w: World, c: Id, d: Id) {
    && (w.flight.Releasing? || w.flight.DeletingUser? || w.flight.Dropping? || w.flight.Finding?)
    && w.flight.base.status.externalID == Some(c) && w.flight.base.status.credentialID == Some(d)
  }

  /** The delete of user c is served, or that of its credential d. */
  predicate ServesUserDelete(w: World, a: Action, c: Id) {
    w.flight.DeletingUser? && w.flight.user == c && a == Call(Served)
  }

  predicate ServesCredDelete(w: World, a: Action, c: Id, d: Id) {
    w.flight.DeletingCred? && w.flight.user == c && w.flight.id == d && a == Call(Served)
  }

  lemma LookPastDeletes(w: World, f: Fault, c: Id, d: Id)
    requires Looks(w.flight)
    ensures PastUser(CallStep(w, f), c) ==> PastUser(w, c)
    ensures PastCred(CallStep(w, f), c, d) ==> PastCred(w, c, d)
  {
  }

  lemma RemovePastDeletes(w: World, f: Fault, c: Id, d: Id)
    requires Removes(w.flight) && FlightOk(w)
    ensures PastUser(CallStep(w, f), c) ==> PastUser(w, c) || ServesUserDelete(w, Call(f), c)
    ensures PastCred(CallStep(w, f), c, d) ==> PastCred(w, c, d) || ServesCredDelete(w, Call(f), c, d)
  {
    if w.flight.DeletingUser? || w.flight.DeletingCred? {
      RemovalsNeedServedDeletes(w, f);
    }
    hide Deleted, WithoutUser, CredThere, Held;
  }

  lemma StepPastDeletes(w: World, a: Action, c: Id, d: Id)
    requires Inv(w)
    ensures PastUser(Step(w, a), c) ==> PastUser(w, c) || ServesUserDelete(w, a, c)
    ensures PastCred(Step(w, a), c, d) ==> PastCred(w, c, d) || ServesCredDelete(w, a, c, d)
  {
    if a.Call? {
      if Looks(w.flight) {
        LookPastDeletes(w, a.fault, c, d);
        hide CallStep, Inv, PastUser, PastCred;
      } else if Removes(w.flight) {
        RemovePastDeletes(w, a.fault, c, d);
        hide CallStep, Inv, PastUser, PastCred;
      } else {
        hide Inv, ErrorOf, SaveStatus, SaveFinalizer;
      }
    } else {
      hide Inv;
    }
  }

  lemma PastUserThroughServed(w0: World, acts: seq<Action>, c: Id) returns (i: nat)
    requires Initial(w0) && PastUser(Exec(w0, acts), c)
    ensures i < |acts| && ServesUserDelete(Exec(w0, acts[..i]), acts[i], c)
  {
    i := Since(Step, w0, acts, (w: World) => PastUser(w, c));
    InitialInv(w0);
    RunKeeps(w0, acts[..i]);
    hide Inv, Step, PastUser, ServesUserDelete;
    StepPastDeletes(Exec(w0, acts[..i]), acts[i], c, 0);
  }

  lemma PastCredThroughServed(w0: World, acts: seq<Action>, c: Id, d: Id) returns (i: nat)
    requires Initial(w0) && PastCred(Exec(w0, acts), c, d)
    ensures i < |acts| && ServesCredDelete(Exec(w0, acts[..i]), acts[i], c, d)
  {
    i := Since(Step, w0, acts, (w: World) => PastCred(w, c, d));
    InitialInv(w0);
    RunKeeps(w0, acts[..i]);
    hide Inv, Step, PastCred, ServesCredDelete;
    StepPastDeletes(Exec(w0, acts[..i]), acts[i], c, d);
  }

  /**
   * In every run: when a resource with recorded user c loses its finalizer, the server has served
   * the delete of c at an earlier step, and that of the recorded credential, if any, at another.
   */
  lemma FinalizerDropsAfterServedDeletes(w0: World, acts: seq<Action>, a: Action, c: Id) returns (i: nat, j: nat)
    requires Initial(w0)
    requires Guarded(Exec(w0, acts)) && !Guarded(Step(Exec(w0, acts), a)) && Stored(Exec(w0, acts), c)
    ensures i < |acts| && ServesUserDelete(Exec(w0, acts[..i]), acts[i], c)
    ensures var d := Exec(w0, acts).store.obj.value.status.credentialID;
            d.Some? ==> j < |acts| && ServesCredDelete(Exec(w0, acts[..j]), acts[j], c, d.value)
  {
    FinalizerOutlivesUser(w0, acts, a);
    InitialInv(w0);
    RunKeeps(w0, acts);
    var w := Exec(w0, acts);
    var d := w.store.obj.value.status.credentialID;
    assert PastUser(w, c) && (d.Some? ==> PastCred(w, c, d.value));
    hide Inv, Initial, Step, Guarded, PastUser, PastCred, ServesUserDelete, ServesCredDelete;
    i := PastUserThroughServed(w0, acts, c);
    j := 0;
    if d.Some? {
      j := PastCredThroughServed(w0, acts, c, d.value);
    }
  }

  // ---- What is lost is recorded nowhere ----

  /** No user id the resource or the pass under way knows is among the lost. */
  ghost predicate Apart(w: World) {
    && (forall c :: Stored(w, c) ==> c !in w.lost)
    && (!w.flight.Idle? && w.flight.base.status.externalID.Some? ==>
          w.flight.base.status.externalID.value !in w.lost)
    && (HasStatus(w.flight) && w.flight.status.externalID.Some? ==> w.flight.status.externalID.value !in w.lost)
  }

  lemma EndKeepsApart(w: World)
    requires Inv(w) && Apart(w)
    ensures Apart(End(w, w.store, false))
  {
    hide LedgerOk, Accounted, Superseded, IdsOk;
  }

  lemma LookKeepsApart(w: World, f: Fault)
    requires Apart(w) && Looks(w.flight)
    ensures Apart(w.(flight := Look(w, f)))
  {
  }

  lemma WriteKeepsApart(w: World, f: Fault)
    requires Inv(w) && Apart(w) && Writes(w.flight)
    ensures Apart(Write(w, f))
  {
    if w.flight.Saving? || w.flight.Noting? {
      EndKeepsApart(w);
    }
    hide LedgerOk, Accounted, Superseded, StatusOk, IdsOk;
  }

  lemma RemoveKeepsApart(w: World, f: Fault)
    requires Apart(w) && Removes(w.flight)
    ensures Apart(Remove(w, f))
  {
    hide Deleted, WithoutUser, CredThere;
  }

  lemma OrderKeepsApart(w: World, f: Fault)
    requires Inv(w) && Apart(w) && !Looks(w.flight) && !Writes(w.flight) && !Removes(w.flight)
    ensures Apart(Order(w, f))
  {
    var st := w.flight.base.status;
    assert w.nextId !in w.lost && (st.externalID.Some? ==> st.externalID.value < w.nextId);
    assert w.store.obj.Some? && w.store.obj.value.status == st;
    if w.flight.Storing? {
      EndKeepsApart(w);
      assert Order(w, f).lost in {w.lost, End(w, w.store, false).lost};
    }
    hide Inv, ErrorOf;
  }

  lemma StepKeepsApart(w: World, a: Action)
    requires Inv(w) && Apart(w)
    ensures Apart(Step(w, a))
  {
    hide Inv, Look, Write, Order, Remove;
    match a {
      case Others(e) => hide WithoutUser;
      case Crash => EndKeepsApart(w);
      case Call(f) =>
        if Looks(w.flight) {
          LookKeepsApart(w, f);
        } else if Writes(w.flight) {
          WriteKeepsApart(w, f);
        } else if Removes(w.flight) {
          RemoveKeepsApart(w, f);
        } else {
          OrderKeepsApart(w, f);
        }
        hide Apart;
    }
  }

  /** A user given up is none that a status still names: lost are only those nothing records. */
  lemma {:induction false} LostAreUnrecorded(w: World, acts: seq<Action>)
    requires Inv(w) && Apart(w)
    ensures Apart(Exec(w, acts))
    decreases |acts|
  {
    if acts != [] {
      StepKeepsApart(w, acts[0]);
      StepKeeps(w, acts[0]);
      hide Inv, Apart, Step;
      LostAreUnrecorded(Step(w, acts[0]), acts[1..]);
    }
  }

  // ---- Limits ----

  /**
   * A user made in the pass under way is forgotten by the call for the Secret if and only if that
   * call is not served: it then ends the pass without a status write, and user and credential stay
   * behind unrecorded.
   */
  lemma SecretFailureForgetsIff(w: World, b: Resource, status: Status, cred: Id, f: Fault)
    requires w.flight == Storing(b, status, cred)
    requires status.externalID.Some? && status.externalID != b.status.externalID
    requires status.externalID.value !in w.lost
    ensures var w' := CallStep(w, f);
            && (status.externalID.value in w'.lost <==> !f.Served?)
            && (w'.flight.Idle? <==> !f.Served?)
            && w'.store == w.store && w'.users == w.users && w'.creds == w.creds
  {
    assert Unsaved(w.flight) == {status.externalID.value};
  }

  /**
   * The pass accepts any Secret of the right name: the one it records holds the generated password
   * exactly when there was none before, or that very one.
   */
  lemma RecordedSecretMatchesIff(w: World, b: Resource, status: Status, cred: Id)
    requires w.flight == Storing(b, status, cred)
    ensures var w' := CallStep(w, Served);
            && w'.flight == Saving(b, status.(credentialID := Some(cred), secretRef := true, ready := IsReady))
            && (w'.secret == Some(cred) <==> w.secret == None || w.secret == Some(cred))
  {
  }
}
