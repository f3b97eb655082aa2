/** What each call of the user controller leads to, and what a stored status proves. */
module UserOutcomes {
  import opened Base
  import opened Client
  import opened Kube
  import opened Passes
  import opened User
  import opened UserRuns

  // ---- One call ----

  /** A pass starts if and only if the resource is read and exists. */
  lemma FetchOutcome(w: World, f: Fault)
    requires w.flight.Idle?
    ensures CallStep(w, f).flight ==
            if f.Served? && w.store.obj.Some? then Connecting(w.store.obj.value) else Idle
  {
  }

  /** With the finalizer stored: create the user, or update the recorded one. */
  function Next(b: Resource): Flight {
    if b.status.externalID.Some? then Updating(b, b.status.externalID.value) else Creating(b)
  }

  /** With the client in hand: finalize a marked resource, adopt one without finalizer, or go on. */
  lemma ConnectOutcome(w: World, f: Fault)
    requires w.flight.Connecting?
    ensures var b := w.flight.base;
            CallStep(w, f).flight ==
            if !f.Served? then Noting(b, b.status.(ready := NotReady(ClientError)))
            else if !b.deleting then (if b.finalizer then Next(b) else Adopting(b))
            else if !b.finalizer then Idle
            else if b.status.credentialID.Some? && b.status.externalID.Some? then
              DeletingCred(b, b.status.externalID.value, b.status.credentialID.value)
            else Remaining(b, true)
  {
  }

  /** Adopting: the pass goes on with what is now stored if and only if the write was served and landed. */
  lemma AdoptOutcome(w: World, f: Fault)
    requires w.flight.Adopting? && Tracks(w.store, w.flight.base) && !w.flight.base.deleting
    ensures var w' := CallStep(w, f);
            if f.Served? && Lands(w.store, w.flight.base, f)
            then w'.store.obj.Some? && w'.flight == Next(w'.store.obj.value) && w'.store.obj.value.finalizer
            else w'.flight.Idle?
  {
    FinalizerWriteOutcome(w.store, w.flight.base, true, f);
  }

  /** Releasing: a marked resource is gone exactly when the write lands, served or not; the pass ends. */
  lemma ReleaseOutcome(w: World, f: Fault)
    requires w.flight.Releasing? && Tracks(w.store, w.flight.base) && w.flight.base.deleting
    ensures var w' := CallStep(w, f);
            && w'.flight.Idle?
            && (if Lands(w.store, w.flight.base, f) then w'.store.obj.None? else w'.store == w.store)
  {
    FinalizerWriteOutcome(w.store, w.flight.base, false, f);
  }

  /** With the user in place: a password is due exactly when one is to be generated and none is recorded. */
  predicate GoesOn(fl: Flight, b: Resource, status: Status) {
    && (fl.Generating? || fl.Saving?) && fl.base == b
    && (fl.Generating? <==> b.spec.generate && status.credentialID.None?)
    && (fl.Generating? ==> fl.status == status && Some(fl.user) == status.externalID)
    && (fl.Saving? ==> fl.status == status.(ready := IsReady))
  }

  /** A create sends username and description only; the pass goes on if and only if it is served. */
  lemma CreateOutcome(w: World, f: Fault)
    requires w.flight.Creating?
    ensures var w', b := CallStep(w, f), w.flight.base;
            && (f.Served? ==> GoesOn(w'.flight, b, b.status.(externalID := Some(w.nextId))))
            && (!f.Served? ==> w'.flight == Noting(b, b.status.(ready := NotReady(CreateFailed))))
            && w'.creds == w.creds && w'.secret == w.secret
            && w'.users == (if f.Served? || f.Lost?
                            then w.users[w.nextId := Account(b.spec.username, b.spec.description,
                                                             Limits(None, None, []))]
                            else w.users)
  {
  }

  /**
   * An update sends everything: the pass goes on if and only if it is served and the user is there;
   * the id is dropped if and only if it is served and the user is absent.
   */
  lemma UpdateOutcome(w: World, f: Fault)
    requires w.flight.Updating?
    ensures var w', b, id := CallStep(w, f), w.flight.base, w.flight.user;
            && (f.Served? && id in w.users && b.status.externalID.Some? ==> GoesOn(w'.flight, b, b.status))
            && (f.Served? && id !in w.users ==>
                  w'.flight == Noting(b, b.status.(externalID := None, ready := NotReady(NotFound))))
            && (!f.Served? ==> w'.flight == Noting(b, b.status.(ready := NotReady(UpdateFailed))))
            && w'.creds == w.creds && w'.secret == w.secret
            && w'.users == (if (f.Served? || f.Lost?) && id in w.users
                            then w.users[id := Account(b.spec.username, b.spec.description, b.spec.limits)]
                            else w.users)
  {
    DeleteSettled(f, if w.flight.user in w.users then 200 else 404);
    hide ErrorOf;
  }

  /** The credential: made for the user at hand, and failing if the user is gone. */
  lemma GenerateOutcome(w: World, f: Fault)
    requires w.flight.Generating?
    ensures var w', fl := CallStep(w, f), w.flight;
            && w'.flight == (if f.Served? && fl.user in w.users then Storing(fl.base, fl.status, w.nextId)
                             else Noting(fl.base, fl.status.(ready := NotReady(PasswordCredentialFailed))))
            && w'.creds == (if (f.Served? || f.Lost?) && fl.user in w.users then w.creds[w.nextId := fl.user]
                            else w.creds)
  {
  }

  /** The Secret: Ready if and only if the call is served; an existing Secret stays as it is. */
  lemma StoreOutcome(w: World, f: Fault)
    requires w.flight.Storing?
    ensures var w', fl := CallStep(w, f), w.flight;
            && w'.flight == (if f.Served?
                             then Saving(fl.base, Status(fl.status.externalID, Some(fl.cred), true, IsReady)) else Idle)
            && w'.secret == (if (f.Served? || f.Lost?) && w.secret.None? then Some(fl.cred) else w.secret)
  {
  }

  /** What is left to remove once the credential is gone: the Secret if one is recorded, then the user. */
  function Remaining(b: Resource, secret: bool): Flight {
    if secret && b.status.secretRef then Finding(b)
    else if b.status.externalID.Some? then DeletingUser(b, b.status.externalID.value)
    else Releasing(b)
  }

  /** Finalization: credential, Secret, user, in this order, each only past the one before. */
  lemma RemoveOutcome(w: World, f: Fault)
    ensures var w', b := CallStep(w, f), if w.flight.Idle? then None else Some(w.flight.base);
            && (w.flight.DeletingCred? ==> w'.flight == if f.Served? then Remaining(b.value, true) else Idle)
            && (w.flight.Finding? ==>
                  w'.flight == if f.Served? && w.secret.Some? then Dropping(b.value) else Remaining(b.value, false))
            && (w.flight.Dropping? ==> w'.flight == if f.Served? then Remaining(b.value, false) else Idle)
            && (w.flight.Dropping? ==> w'.secret == if f.Served? || f.Lost? then None else w.secret)
            && (w.flight.DeletingUser? ==> w'.flight == if f.Served? then Releasing(b.value) else Idle)
  {
    hide Order, Write, ConnectNext, FetchNext, WithoutUser;
    if w.flight.DeletingCred? {
      DeleteSettled(f, if CredThere(w.creds, w.flight.user, w.flight.id) then 204 else 404);
    } else if w.flight.DeletingUser? {
      DeleteSettled(f, if w.flight.user in w.users then 204 else 404);
    }
    hide ErrorOf, CredThere;
  }

  /** A credential or user goes exactly when the request arrives, a user with all its credentials. */
  lemma RemoveEffects(w: World, f: Fault)
    requires w.flight.DeletingCred? || w.flight.DeletingUser?
    ensures var w', fl := CallStep(w, f), w.flight;
            && (!(f.Served? || f.Lost?) ==> w'.users == w.users && w'.creds == w.creds)
            && ((f.Served? || f.Lost?) && fl.DeletingCred? ==>
                  && w'.users == w.users
                  && forall c :: c in w'.creds <==> c in w.creds && !(c == fl.id && w.creds[c] == fl.user))
            && ((f.Served? || f.Lost?) && fl.DeletingUser? ==>
                  && w'.users == w.users - {fl.user}
                  && forall c :: c in w'.creds <==> c in w.creds && w.creds[c] != fl.user)
            && forall c :: c in w'.creds ==> w'.creds[c] == w.creds[c]
  {
    hide Deleted, AfterCred;
  }

  lemma WriteOutcome(w: World, f: Fault)
    requires Writes(w.flight)
    ensures var fl := Write(w, f).flight;
            fl.Idle? || (w.flight.Adopting? && f.Served? && (fl.Creating? || fl.Updating?))
  {
    hide SaveStatus, SaveFinalizer;
  }

  /** What the pass has seen when it notes a failure. */
  ghost predicate Explains(w: World, f: Fault, reason: Reason) {
    match w.flight
    case Connecting(_) => !f.Served? && reason == ClientError
    case Creating(_) => !f.Served? && reason == CreateFailed
    case Updating(_, user) => if f.Served? then user !in w.users && reason == NotFound else reason == UpdateFailed
    case Generating(_, _, user) => !(f.Served? && user in w.users) && reason == PasswordCredentialFailed
    case _ => false
  }

  lemma LookOutcome(w: World, f: Fault, reason: Reason)
    requires Looks(w.flight)
    ensures var fl := Look(w, f);
            && (fl.Noting? && fl.status.ready == NotReady(reason) <==> Explains(w, f, reason))
            && (fl.Noting? ==> fl.status.ready.NotReady?) && !fl.Saving? && !fl.Generating? && !fl.Storing?
  {
  }

  /** The resource's recorded user is the one an update is about. */
  ghost predicate UpdatesRecorded(w: World) {
    w.flight.Updating? ==> w.flight.base.status.externalID == Some(w.flight.user)
  }

  /** The server has made or updated user c for this resource. */
  ghost predicate ServesUser(w: World, f: Fault, b: Resource, c: Id) {
    && f.Served?
    && ((w.flight == Creating(b) && c == w.nextId &&
         CallStep(w, f).users == w.users[c := Account(b.spec.username, b.spec.description, Limits(None, None, []))]) ||
        (w.flight == Updating(b, c) && c in w.users &&
         CallStep(w, f).users == w.users[c := Account(b.spec.username, b.spec.description, b.spec.limits)]))
  }

  /** The pass has user c in hand. */
  ghost predicate Carries(fl: Flight, b: Resource, c: Id) {
    (fl.Generating? || fl.Storing? || fl.Saving?) && fl.base == b && fl.status.externalID == Some(c)
  }

  /** The Secret was created, or one was there. */
  ghost predicate ServesSecret(w: World, f: Fault, b: Resource, st: Status) {
    && f.Served? && w.flight.Storing? && w.flight.base == b
    && st == Status(w.flight.status.externalID, Some(w.flight.cred), true, IsReady)
  }

  /** A call leads to a noted failure exactly when its outcome explains the reason given. */
  lemma NotedIff(w: World, f: Fault, reason: Reason)
    requires UpdatesRecorded(w)
    ensures var fl := CallStep(w, f).flight;
            && (fl.Noting? && fl.status.ready == NotReady(reason) <==> Explains(w, f, reason))
            && (fl.Noting? ==> fl.status.ready.NotReady?) && (fl.Saving? ==> fl.status.ready.IsReady?)
  {
    if Looks(w.flight) {
      LookOutcome(w, f, reason);
      hide Look, Explains;
    } else if Writes(w.flight) {
      WriteOutcome(w, f);
      hide Write;
    } else if w.flight.Creating? {
      CreateOutcome(w, f);
      hide CallStep;
    } else if w.flight.Updating? {
      UpdateOutcome(w, f);
      hide CallStep;
    } else if w.flight.Generating? {
      GenerateOutcome(w, f);
      hide CallStep;
    } else if w.flight.Storing? {
      StoreOutcome(w, f);
      hide CallStep;
    } else {
      RemoveOutcome(w, f);
      hide CallStep;
    }
  }

  /** No password is due: none is to be generated, or one is recorded already. */
  predicate NoneDue(b: Resource, st: Status) {
    st.credentialID == b.status.credentialID && (b.spec.generate ==> st.credentialID.Some?)
  }

  /** The calls that put a user in the pass's hand, and those that lead to a Ready status. */
  lemma EntryOutcome(w: World, f: Fault, b: Resource, c: Id)
    requires UpdatesRecorded(w)
    ensures var fl := CallStep(w, f).flight;
            && (Carries(fl, b, c) && !Carries(w.flight, b, c) ==> ServesUser(w, f, b, c))
            && (fl.Saving? ==>
                  || ServesSecret(w, f, fl.base, fl.status)
                  || ((w.flight.Creating? || w.flight.Updating?) && NoneDue(fl.base, fl.status)))
  {
    if Looks(w.flight) {
      LookOutcome(w, f, NotFound);
      hide Look;
    } else if Writes(w.flight) {
      WriteOutcome(w, f);
      hide Write;
    } else if w.flight.Creating? {
      CreateOutcome(w, f);
      hide CallStep;
    } else if w.flight.Updating? {
      UpdateOutcome(w, f);
      hide CallStep;
    } else if w.flight.Generating? {
      GenerateOutcome(w, f);
      hide CallStep;
    } else if w.flight.Storing? {
      StoreOutcome(w, f);
      hide CallStep;
    } else {
      RemoveOutcome(w, f);
      hide CallStep;
    }
  }

  // ---- Over runs ----

  ghost predicate StoredStatus(w: World, st: Status) {
    w.store.obj.Some? && w.store.obj.value.status == st
  }

  /** The step stores the status the pass has arrived at. */
  ghost predicate Stores(w: World, a: Action, st: Status) {
    && a.Call? && (w.flight.Saving? || w.flight.Noting?) && w.flight.status == st
    && Accepts(w.store, w.flight.base, a.fault)
  }

  lemma WriteStores(w: World, f: Fault, st: Status)
    requires Inv(w) && Writes(w.flight) && !StoredStatus(w, st) && StoredStatus(Write(w, f), st)
    ensures Stores(w, Call(f), st)
  {
    hide Core, ObjOk;
  }

  lemma OrderStoresNothing(w: World, f: Fault)
    requires !Looks(w.flight) && !Writes(w.flight)
    ensures CallStep(w, f).store == w.store
  {
    hide CreateNext, UpdateNext, GenerateNext, StoreNext, Deleted, WithoutUser, CredThere;
  }

  lemma StoredEntry(w: World, a: Action, st: Status)
    requires Inv(w) && !StoredStatus(w, st) && StoredStatus(Step(w, a), st) && st != Blank
    ensures Stores(w, a, st)
  {
    if a.Call? {
      if Looks(w.flight) {
        hide Look, Inv;
      } else if Writes(w.flight) {
        WriteStores(w, a.fault, st);
        hide Write, Inv;
      } else {
        OrderStoresNothing(w, a.fault);
        hide CallStep, Inv;
      }
    } else {
      hide Inv;
    }
  }

  ghost function At(w0: World, acts: seq<Action>, i: nat): World
    requires i <= |acts|
  {
    Exec(w0, acts[..i])
  }

  function FlightOf(w: World): Flight {
    w.flight
  }

  lemma OnlyCallsMove()
    ensures CallsMove(Step, FlightOf, Idle)
  {
    hide CallStep;
  }

  /** The step that stored a status, and the call before it. */
  lemma StoredBy(w0: World, acts: seq<Action>, st: Status) returns (j: nat, n: nat)
    requires Initial(w0) && StoredStatus(Exec(w0, acts), st) && st != Blank
    ensures n < |acts| && Stores(At(w0, acts, n), acts[n], st)
    ensures Stays(Step, FlightOf, w0, acts, j, n) && UpdatesRecorded(At(w0, acts, j))
    ensures CallStep(At(w0, acts, j), acts[j].fault).flight == At(w0, acts, n).flight
  {
    n := Since(Step, w0, acts, w => StoredStatus(w, st));
    InitialInv(w0);
    RunKeeps(w0, acts[..n]);
    OnlyCallsMove();
    hide CallStep, Inv;
    StoredEntry(At(w0, acts, n), acts[n], st);
    j := EnteredBefore(Step, FlightOf, Idle, w0, acts, n);
    RunKeeps(w0, acts[..j]);
    RecordedInRuns(At(w0, acts, j));
  }

  lemma RecordedInRuns(w: World)
    requires Inv(w)
    ensures UpdatesRecorded(w)
  {
  }

  /**
   * In every run: a stored failure was stored, at a step n, by a pass whose last call before, at
   * step j, had exactly the outcome the reason stands for.
   */
  lemma FailureWasSeen(w0: World, acts: seq<Action>, st: Status) returns (j: nat, n: nat)
    requires Initial(w0) && StoredStatus(Exec(w0, acts), st) && st.ready.NotReady?
    ensures n < |acts| && Stores(At(w0, acts, n), acts[n], st)
    ensures Stays(Step, FlightOf, w0, acts, j, n) && Explains(At(w0, acts, j), acts[j].fault, st.ready.reason)
  {
    j, n := StoredBy(w0, acts, st);
    hide CallStep, Explains;
    NotedIff(At(w0, acts, j), acts[j].fault, st.ready.reason);
  }

  /**
   * In every run: a resource stored as Ready with user c was stored so, at a step n, by a pass for
   * which the server made or updated user c at step i, and which has carried it ever since; at step
   * j before n the Secret call was served, or no password was due.
   */
  lemma ReadyWasEarned(w0: World, acts: seq<Action>, st: Status) returns (i: nat, j: nat, n: nat)
    requires Initial(w0) && StoredStatus(Exec(w0, acts), st) && st.ready.IsReady?
    ensures n < |acts| && Stores(At(w0, acts, n), acts[n], st) && st.externalID.Some?
    ensures var b := At(w0, acts, n).flight.base;
            && i < n && acts[i].Call? && ServesUser(At(w0, acts, i), acts[i].fault, b, st.externalID.value)
            && (forall m :: i < m <= n ==> Carries(At(w0, acts, m).flight, b, st.externalID.value))
            && Stays(Step, FlightOf, w0, acts, j, n)
            && (ServesSecret(At(w0, acts, j), acts[j].fault, b, st) || NoneDue(b, st))
  {
    j, n := StoredBy(w0, acts, st);
    var fl := At(w0, acts, n).flight;
    NotedIff(At(w0, acts, j), acts[j].fault, NotFound);
    InitialInv(w0);
    RunKeeps(w0, acts[..n]);
    SavingHasUser(At(w0, acts, n));
    hide CallStep, Inv;
    EntryOutcome(At(w0, acts, j), acts[j].fault, fl.base, st.externalID.value);
    i := CarriedSince(w0, acts, n, fl.base, st.externalID.value);
  }

  lemma SavingHasUser(w: World)
    requires Inv(w) && w.flight.Saving?
    ensures w.flight.status.externalID.Some?
  {
  }

  /** The step at which the pass got hold of the user it carries. */
  lemma CarriedSince(w0: World, acts: seq<Action>, n: nat, b: Resource, c: Id) returns (i: nat)
    requires Initial(w0) && n <= |acts| && Carries(At(w0, acts, n).flight, b, c)
    ensures i < n && acts[i].Call? && ServesUser(At(w0, acts, i), acts[i].fault, b, c)
    ensures forall m :: i < m <= n ==> Carries(At(w0, acts, m).flight, b, c)
  {
    hide CallStep, Inv;
    var before := acts[..n];
    i := Since(Step, w0, before, (w: World) => Carries(w.flight, b, c));
    assert before[..i] == acts[..i];
    forall m | i < m <= n
      ensures Carries(At(w0, acts, m).flight, b, c)
    {
      assert before[..m] == acts[..m];
    }
    InitialInv(w0);
    RunKeeps(w0, acts[..i]);
    RecordedInRuns(At(w0, acts, i));
    EntryOutcome(At(w0, acts, i), acts[i].fault, b, c);
  }
}
