/** What each call of the password credential controller leads to, and what a stored status proves. */
module PasswordOutcomes {
  import opened Base
  import opened Client
  import opened Kube
  import opened Passes
  import opened PasswordCredential
  import opened PasswordLimits

  predicate There(w: World, owner: Id, id: Id) {
    id in w.creds && w.creds[id].owner == owner
  }

  // ---- One call ----

  /** A pass starts if and only if the resource is read and exists. */
  lemma FetchOutcome(w: World, f: Fault)
    requires w.flight.Idle?
    ensures CallStep(w, f).flight ==
            if f.Served? && w.store.obj.Some? then Connecting(w.store.obj.value) else Idle
  {
  }

  /** With the client in hand: finalize a marked resource, adopt one without finalizer, or go on. */
  lemma ConnectOutcome(w: World, f: Fault)
    requires w.flight.Connecting?
    ensures var b := w.flight.base;
            CallStep(w, f).flight ==
            if !f.Served? then Noting(b, b.status.(ready := NotReady(ClientError)))
            else if !b.deleting then (if b.finalizer then Resolving(b) else Adopting(b))
            else if !b.finalizer then Idle
            else if b.status.userID.Some? && b.status.credentialID.Some? then
              Deleting(b, b.status.userID.value, b.status.credentialID.value)
            else Releasing(b)
  {
  }

  /** Adopting: the pass goes on with what is now stored if and only if the write was served and landed. */
  lemma AdoptOutcome(w: World, f: Fault)
    requires w.flight.Adopting? && Tracks(w.store, w.flight.base) && !w.flight.base.deleting
    ensures var w' := CallStep(w, f);
            if f.Served? && Lands(w.store, w.flight.base, f)
            then w'.store.obj.Some? && w'.flight == Resolving(w'.store.obj.value) && w'.store.obj.value.finalizer
            else w'.flight.Idle?
  {
    FinalizerWriteOutcome(w.store, w.flight.base, true, f);
  }

  /** Releasing: a marked resource is gone exactly when the write lands, served or not; the pass ends. */
  lemma ReleaseOutcome(w: World, f: Fault)
    requires w.flight.Releasing? && Tracks(w.store, w.flight.base) && w.flight.base.deleting
    ensures var w' := CallStep(w, f);
            && w'.flight.Idle?
            && (if Lands(w.store, w.flight.base, f) then w'.store.obj.None? else w'.store == w.store)
  {
    FinalizerWriteOutcome(w.store, w.flight.base, false, f);
  }

  /** Resolving the username: the pass goes on with the user it names, and otherwise says so. */
  lemma ResolveOutcome(w: World, f: Fault)
    requires w.flight.Resolving?
    ensures var fl, b := CallStep(w, f).flight, w.flight.base;
            var found := f.Served? && b.spec.username in w.users;
            && (fl.Reading? <==> found) && (fl.Noting? <==> !found)
            && (found ==> fl.base == b && fl.user == w.users[b.spec.username] &&
                          fl.status == b.status.(userID := Some(fl.user)))
            && (!found ==> fl.base == b && fl.status == b.status.(ready := NotReady(UserNotFound)))
  {
  }

  /**
   * Reading the password: nothing but the present value under the key the spec asks for is used. A
   * new credential is due if none is recorded, the old one is removed first if the recorded version
   * or user differs, and otherwise all is in sync.
   */
  lemma ReadOutcome(w: World, f: Fault)
    requires w.flight.Reading?
    ensures var fl, b, status := CallStep(w, f).flight, w.flight.base, w.flight.status;
            var found := f.Served? && b.spec.secretName in w.secrets;
            && fl.base == b
            && (fl.Noting? <==> !(found && CanRead(w, b.spec)))
            && (fl.Noting? ==>
                  fl.status == status.(ready := NotReady(if found then SecretKeyMissing else SecretNotFound)))
            && (!fl.Noting? ==> (fl.Creating? || fl.Removing? || fl.Saving?) && fl.read == ReadNow(w, b.spec))
            && (fl.Creating? ==> status.credentialID.None? && fl.status == status && fl.user == w.flight.user)
            && (fl.Removing? ==>
                  && Some(fl.id) == status.credentialID && fl.status == status && fl.user == w.flight.user
                  && (status.applied != VersionOf(fl.read) || fl.owner != fl.user)
                  && Some(fl.owner) == (if b.status.userID.Some? then b.status.userID else Some(fl.user)))
            && (fl.Saving? ==>
                  && status.credentialID.Some? && status.applied == VersionOf(fl.read)
                  && b.status.userID in {None, Some(w.flight.user)} && fl.status == status.(ready := IsReady))
  {
    hide VersionOf;
  }

  /** Removing the outdated credential: a new one is created only past a served delete. */
  lemma RemoveOutcome(w: World, f: Fault)
    requires w.flight.Removing?
    ensures var w', fl := CallStep(w, f), w.flight;
            && w'.flight.base == fl.base
            && (w'.flight.Creating? <==> f.Served?) && (w'.flight.Noting? <==> !f.Served?)
            && (f.Served? ==> w'.flight.read == fl.read && w'.flight.user == fl.user &&
                              w'.flight.status == fl.status.(credentialID := None, applied := ""))
            && (!f.Served? ==> w'.flight.status == fl.status.(ready := NotReady(RotateFailed)))
            && w'.creds == (if (f.Served? || f.Lost?) && There(w, fl.owner, fl.id) then w.creds - {fl.id} else w.creds)
  {
    var fl := w.flight;
    DeleteSettled(f, if There(w, fl.owner, fl.id) then 204 else 404);
    assert CallStep(w, f) == w.(creds := DeleteCred(w.creds, fl.owner, fl.id, f),
        flight := RemoveNext(w.creds, fl.base, fl.status, fl.read, fl.user, fl.owner, fl.id, f));
    hide ErrorOf, CallStep;
  }

  /** Creating: Ready with the new id and the version read if and only if it is served for an existing user. */
  lemma CreateOutcome(w: World, f: Fault)
    requires w.flight.Creating?
    ensures var w', fl := CallStep(w, f), w.flight;
            var exists_ := fl.user in w.users.Values;
            && w'.flight.base == fl.base
            && (w'.flight.Saving? <==> f.Served? && exists_) && (w'.flight.Noting? <==> !(f.Served? && exists_))
            && (w'.flight.Saving? ==>
                  && w'.flight.read == fl.read
                  && w'.flight.status == Status(fl.status.userID, Some(w.nextId), VersionOf(fl.read), IsReady))
            && (w'.flight.Noting? ==> w'.flight.status == fl.status.(ready := NotReady(CreateFailed)))
            && w'.creds == (if (f.Served? || f.Lost?) && exists_
                            then w.creds[w.nextId := Cred(fl.user, fl.read.password)] else w.creds)
  {
    var fl := w.flight;
    var next := CreateNext(w, fl.base, fl.status, fl.read, fl.user, f);
    assert CallStep(w, f) ==
           if Creates(w, fl.user, f) then Made(w, Cred(fl.user, fl.read.password), next) else w.(flight := next);
    hide VersionOf, CallStep;
  }

  /** What the pass has seen when it notes a failure. */
  ghost predicate Explains(w: World, f: Fault, reason: Reason) {
    match w.flight
    case Connecting(_) => !f.Served? && reason == ClientError
    case Resolving(b) => !(f.Served? && b.spec.username in w.users) && reason == UserNotFound
    case Reading(b, _, _) =>
      if f.Served? && b.spec.secretName in w.secrets then !CanRead(w, b.spec) && reason == SecretKeyMissing
      else reason == SecretNotFound
    case Removing(_, _, _, _, _, _) => !f.Served? && reason == RotateFailed
    case Creating(_, _, _, user) => !(f.Served? && user in w.users.Values) && reason == CreateFailed
    case _ => false
  }

  lemma WriteOutcome(w: World, f: Fault)
    requires Writes(w.flight)
    ensures Write(w, f).flight.Idle? || (w.flight.Adopting? && Write(w, f).flight.Resolving?)
  {
    hide SaveStatus, SaveFinalizer, Accepts;
  }

  /** Finalization goes on past a served delete; the credential goes exactly when the request arrives. */
  lemma DeleteOutcome(w: World, f: Fault)
    requires w.flight.Deleting?
    ensures Order(w, f).flight == if f.Served? then Releasing(w.flight.base) else Idle
    ensures var fl := w.flight;
            Order(w, f).creds ==
            if (f.Served? || f.Lost?) && There(w, fl.owner, fl.id) then w.creds - {fl.id} else w.creds
  {
    DeleteSettled(f, if There(w, w.flight.owner, w.flight.id) then 204 else 404);
    hide ErrorOf;
  }

  lemma LookNotedIff(w: World, f: Fault, reason: Reason)
    requires Looks(w.flight)
    ensures var fl := Look(w, f);
            fl.Noting? && fl.status.ready == NotReady(reason) <==> Explains(w, f, reason)
  {
    hide VersionOf;
  }

  /** A call leads to a noted failure exactly when its outcome explains the reason given. */
  lemma NotedIff(w: World, f: Fault, reason: Reason)
    ensures var fl := CallStep(w, f).flight;
            fl.Noting? && fl.status.ready == NotReady(reason) <==> Explains(w, f, reason)
  {
    hide VersionOf, CanRead;
    if Looks(w.flight) {
      LookNotedIff(w, f, reason);
      hide Look, Explains;
    } else if Writes(w.flight) {
      WriteOutcome(w, f);
      hide Write;
    } else if w.flight.Removing? {
      RemoveOutcome(w, f);
      hide CallStep;
    } else if w.flight.Creating? {
      CreateOutcome(w, f);
      hide CallStep;
    } else {
      DeleteOutcome(w, f);
      hide Order;
    }
  }

  // ---- Over runs ----

  /** The flights that carry what was read from the Secret. */
  predicate HasRead(f: Flight) {
    f.Removing? || f.Creating? || f.Saving?
  }

  /** The pass works on a copy of what is stored, and what it notes is a failure. */
  ghost predicate Sound(w: World) {
    && Fresh(w.store)
    && (!w.flight.Idle? ==> Tracks(w.store, w.flight.base))
    && (w.flight.Noting? ==> w.flight.status.ready.NotReady?)
    && (w.flight.Saving? ==> w.flight.status.ready.IsReady?)
    && (w.flight.Reading? ==> w.flight.status == w.flight.base.status.(userID := Some(w.flight.user)))
  }

  lemma LookKeepsSound(w: World, f: Fault)
    requires Sound(w) && Looks(w.flight)
    ensures Sound(w.(flight := Look(w, f)))
  {
    hide VersionOf, Key;
  }

  lemma WriteKeepsSound(w: World, f: Fault)
    requires Sound(w) && Writes(w.flight)
    ensures Sound(Write(w, f))
  {
  }

  lemma OrderKeepsSound(w: World, f: Fault)
    requires Sound(w) && !Looks(w.flight) && !Writes(w.flight)
    ensures Sound(Order(w, f))
  {
    assert Order(w, f).store == w.store;
    if w.flight.Removing? {
      RemoveOutcome(w, f);
      hide Order;
    } else if w.flight.Creating? {
      CreateOutcome(w, f);
      hide Order;
    }
    hide Deleted, DeleteCred, VersionOf;
  }

  lemma StepKeepsSound(w: World, a: Action)
    requires Sound(w)
    ensures Sound(Step(w, a))
  {
    match a {
      case Others(e) => EnvKeepsSound(w, e);
      case Crash => CrashKeepsSound(w);
      case Call(f) => CallKeepsSound(w, f);
    }
    hide Sound, CallStep, EnvStep;
  }

  lemma EnvKeepsSound(w: World, e: Env)
    requires Sound(w)
    ensures Sound(EnvStep(w, e))
  {
    if e.Change? {
      EditKeeps(w.store, e.edit, Blank);
    }
    hide Edited;
  }

  lemma CrashKeepsSound(w: World)
    requires Sound(w)
    ensures Sound(Step(w, Crash))
  {
  }

  lemma CallKeepsSound(w: World, f: Fault)
    requires Sound(w)
    ensures Sound(CallStep(w, f))
  {
    hide Sound, Look, Write, Order;
    if Looks(w.flight) {
      LookKeepsSound(w, f);
    } else if Writes(w.flight) {
      WriteKeepsSound(w, f);
    } else {
      OrderKeepsSound(w, f);
    }
  }

  lemma RunKeepsSound(w: World, acts: seq<Action>)
    requires Sound(w)
    ensures Sound(Exec(w, acts))
  {
    forall v, a | Sound(v)
      ensures Sound(Step(v, a))
    {
      StepKeepsSound(v, a);
    }
    hide Sound, Step;
    FoldKeeps(Step, w, acts, v => Sound(v));
  }

  /** No resource yet, and no pass under way. */
  ghost predicate Starts(w: World) {
    w.store.obj.None? && w.flight.Idle?
  }

  ghost predicate StoredStatus(w: World, st: Status) {
    w.store.obj.Some? && w.store.obj.value.status == st
  }

  /** The step stores the status the pass has arrived at. */
  ghost predicate Stores(w: World, a: Action, st: Status) {
    && a.Call? && (w.flight.Saving? || w.flight.Noting?) && w.flight.status == st
    && Accepts(w.store, w.flight.base, a.fault)
  }

  lemma StoredEntry(w: World, a: Action, st: Status)
    requires Sound(w) && !StoredStatus(w, st) && StoredStatus(Step(w, a), st) && st != Blank
    ensures Stores(w, a, st)
  {
    if a.Call? {
      if Looks(w.flight) {
        hide Look;
      } else if Writes(w.flight) {
        WriteStores(w, a.fault, st);
        hide Write, Sound;
      } else {
        OrderStoresNothing(w, a.fault);
        hide Order;
      }
    }
  }

  lemma WriteStores(w: World, f: Fault, st: Status)
    requires Sound(w) && Writes(w.flight) && !StoredStatus(w, st) && StoredStatus(Write(w, f), st)
    ensures Stores(w, Call(f), st)
  {
  }

  lemma OrderStoresNothing(w: World, f: Fault)
    requires !Looks(w.flight) && !Writes(w.flight)
    ensures Order(w, f).store == w.store
  {
    hide CreateNext, RemoveNext, FinalDeleteNext, DeleteCred, Creates;
  }

  ghost function At(w0: World, acts: seq<Action>, i: nat): World
    requires i <= |acts|
  {
    Exec(w0, acts[..i])
  }

  function FlightOf(w: World): Flight {
    w.flight
  }

  lemma StoredBy(w0: World, acts: seq<Action>, st: Status) returns (n: nat)
    requires Starts(w0) && StoredStatus(Exec(w0, acts), st) && st != Blank
    ensures n < |acts| && Stores(At(w0, acts, n), acts[n], st) && Sound(At(w0, acts, n))
  {
    n := Since(Step, w0, acts, w => StoredStatus(w, st));
    RunKeepsSound(w0, acts[..n]);
    hide Step;
    StoredEntry(At(w0, acts, n), acts[n], st);
  }

  lemma OnlyCallsMove()
    ensures CallsMove(Step, FlightOf, Idle)
  {
    hide CallStep;
  }

  /**
   * In every run: a stored failure was stored, at a step n, by a pass whose last call before, at
   * step i, had exactly the outcome the reason stands for.
   */
  lemma FailureWasSeen(w0: World, acts: seq<Action>, st: Status) returns (i: nat, n: nat)
    requires Starts(w0) && StoredStatus(Exec(w0, acts), st) && st.ready.NotReady?
    ensures n < |acts| && Stores(At(w0, acts, n), acts[n], st)
    ensures Stays(Step, FlightOf, w0, acts, i, n) && Explains(At(w0, acts, i), acts[i].fault, st.ready.reason)
  {
    n := StoredBy(w0, acts, st);
    assert At(w0, acts, n).flight.Noting?;
    OnlyCallsMove();
    hide CallStep;
    i := EnteredBefore(Step, FlightOf, Idle, w0, acts, n);
    hide Explains, Sound;
    NotedIff(At(w0, acts, i), acts[i].fault, st.ready.reason);
  }

  /** The server makes the credential of a status about to be stored. */
  ghost predicate ServesCreate(w: World, f: Fault, b: Resource, st: Status, r: Read) {
    && f.Served? && w.flight.Creating? && w.flight.base == b && w.flight.read == r && w.flight.user in w.users.Values
    && st == Status(w.flight.status.userID, Some(w.nextId), VersionOf(r), IsReady)
    && CallStep(w, f).creds == w.creds[w.nextId := Cred(w.flight.user, r.password)]
  }

  /** The pass finds the stored credential made for this user from this revision. */
  ghost predicate FindsInSync(w: World, f: Fault, b: Resource, st: Status, r: Read) {
    && ReadsNow(w, f, b, r) && b.status.credentialID.Some?
    && b.status.userID in {None, Some(w.flight.user)} && b.status.applied == VersionOf(r)
    && st == b.status.(userID := Some(w.flight.user), ready := IsReady)
  }

  /** The pass reads r: the present value under the key its spec asks for. */
  ghost predicate ReadsNow(w: World, f: Fault, b: Resource, r: Read) {
    && f.Served? && w.flight.Reading? && w.flight.base == b
    && CanRead(w, b.spec) && r == ReadNow(w, b.spec)
  }

  ghost predicate Carries(f: Flight, b: Resource, r: Read) {
    HasRead(f) && f.base == b && f.read == r
  }

  lemma LookCarries(w: World, f: Fault)
    requires Looks(w.flight) && HasRead(Look(w, f))
    ensures w.flight.Reading?
  {
    hide VersionOf, Key;
  }

  lemma ReadEntry(w: World, f: Fault, b: Resource, r: Read)
    requires !Carries(w.flight, b, r) && Carries(CallStep(w, f).flight, b, r)
    ensures ReadsNow(w, f, b, r)
  {
    hide VersionOf, CanRead;
    if Looks(w.flight) {
      LookCarries(w, f);
      ReadOutcome(w, f);
      hide Look;
    } else if Writes(w.flight) {
      WriteOutcome(w, f);
      hide Write;
    } else if w.flight.Removing? {
      RemoveOutcome(w, f);
      hide CallStep;
    } else if w.flight.Creating? {
      CreateOutcome(w, f);
      hide CallStep;
    } else {
      DeleteOutcome(w, f);
      hide Order;
    }
  }

  lemma SavingEntry(w: World, f: Fault)
    requires CallStep(w, f).flight.Saving?
    requires w.flight.Reading? ==> w.flight.status == w.flight.base.status.(userID := Some(w.flight.user))
    ensures var fl := CallStep(w, f).flight;
            ServesCreate(w, f, fl.base, fl.status, fl.read) || FindsInSync(w, f, fl.base, fl.status, fl.read)
  {
    hide VersionOf, CanRead;
    if Looks(w.flight) {
      LookCarries(w, f);
      ReadOutcome(w, f);
      hide Look;
    } else if Writes(w.flight) {
      WriteOutcome(w, f);
      hide Write;
    } else if w.flight.Removing? {
      RemoveOutcome(w, f);
      hide CallStep;
    } else if w.flight.Creating? {
      CreateOutcome(w, f);
      hide CallStep;
    } else {
      DeleteOutcome(w, f);
      hide Order;
    }
  }

  /**
   * In every run: a resource stored as Ready was stored so, at a step n, by a pass that read r at
   * step i, the present value under the key its spec asks for, and carried it ever since; and at
   * step j the server made a credential of it with the stored id, or the pass found the stored
   * credential to be of that very revision and user.
   */
  lemma ReadyWasEarned(w0: World, acts: seq<Action>, st: Status) returns (i: nat, j: nat, n: nat, r: Read)
    requires Starts(w0) && StoredStatus(Exec(w0, acts), st) && st.ready.IsReady?
    ensures n < |acts| && Stores(At(w0, acts, n), acts[n], st)
    ensures i <= j && Stays(Step, FlightOf, w0, acts, j, n)
    ensures var b := At(w0, acts, n).flight.base;
            && acts[i].Call? && ReadsNow(At(w0, acts, i), acts[i].fault, b, r)
            && (ServesCreate(At(w0, acts, j), acts[j].fault, b, st, r) ||
                FindsInSync(At(w0, acts, j), acts[j].fault, b, st, r))
            && forall m :: i < m <= n ==> Carries(At(w0, acts, m).flight, b, r)
  {
    n := StoredBy(w0, acts, st);
    var fl := At(w0, acts, n).flight;
    assert fl.Saving?;
    OnlyCallsMove();
    r := fl.read;
    var b := fl.base;
    hide CallStep;
    j := EnteredBefore(Step, FlightOf, Idle, w0, acts, n);
    RunKeepsSound(w0, acts[..j]);
    SavingEntry(At(w0, acts, j), acts[j].fault);
    i := CarriedSince(w0, acts, n, b, r);
    hide ReadsNow, FindsInSync, ServesCreate, Sound, VersionOf;
    assert FlightOf(At(w0, acts, n)) == fl;
    assert j < i ==> FlightOf(At(w0, acts, i)) == fl;
  }

  /** The step at which the pass read what it carries. */
  lemma CarriedSince(w0: World, acts: seq<Action>, n: nat, b: Resource, r: Read) returns (i: nat)
    requires w0.flight.Idle? && n <= |acts| && Carries(At(w0, acts, n).flight, b, r)
    ensures i < n && acts[i].Call? && ReadsNow(At(w0, acts, i), acts[i].fault, b, r)
    ensures !Carries(At(w0, acts, i).flight, b, r)
    ensures forall m :: i < m <= n ==> Carries(At(w0, acts, m).flight, b, r)
  {
    hide Step, ReadsNow;
    var before := acts[..n];
    i := Since(Step, w0, before, (w: World) => Carries(w.flight, b, r));
    assert before[..i] == acts[..i];
    forall m | i < m <= n
      ensures Carries(At(w0, acts, m).flight, b, r)
    {
      assert before[..m] == acts[..m];
    }
    StepReads(At(w0, acts, i), acts[i], b, r);
  }

  lemma StepReads(w: World, a: Action, b: Resource, r: Read)
    requires !Carries(w.flight, b, r) && Carries(Step(w, a).flight, b, r)
    ensures a.Call? && ReadsNow(w, a.fault, b, r)
  {
    hide CallStep, ReadsNow;
    if a.Call? {
      ReadEntry(w, a.fault, b, r);
    }
  }
}
