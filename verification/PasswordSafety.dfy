/** What every run of the password credential controller keeps, for a username that stays one user. */
module PasswordSafety {
  import opened Base
  import opened Client
  import opened Kube
  import opened Passes
  import opened PasswordCredential
  import Text

  /** Kubernetes admits no "/" in a Secret name and no "@" in a Secret key. */
  ghost predicate ValidSecret(name: string, data: map<string, string>) {
    '/' !in name && forall k :: k in data ==> '@' !in k
  }

  /** Nothing anybody else does makes a username this resource uses name another user than u. */
  ghost predicate Stable(e: Env, names: set<string>, u: Id) {
    match e
    case Change(Apply(spec)) => spec.username in names
    case Change(EditSpec(spec)) => spec.username in names
    case PutSecret(name, data) => ValidSecret(name, data)
    case PutUser(name, id) => name in names ==> id == u
    case _ => true
  }

  ghost predicate StableRun(acts: seq<Action>, names: set<string>, u: Id) {
    forall i :: 0 <= i < |acts| && acts[i].Others? ==> Stable(acts[i].env, names, u)
  }

  ghost predicate Genuine(history: map<nat, Secret>, r: Read) {
    && r.rv in history
    && history[r.rv].name == r.name
    && r.key in history[r.rv].data
    && history[r.rv].data[r.key] == r.password
  }

  /** The version text names a revision whose password is the one the credential was created with. */
  ghost predicate Records(history: map<nat, Secret>, made: map<Id, Cred>, id: Id, applied: string) {
    id in made && exists r :: Genuine(history, r) && applied == VersionOf(r) && made[id].password == r.password
  }

  ghost predicate StatusOk(w: World, st: Status, u: Id) {
    && (st.userID.Some? ==> st.userID == Some(u))
    && (st.credentialID.Some? ==>
          st.userID.Some? && Records(w.history, w.made, st.credentialID.value, st.applied))
  }

  ghost predicate ObjOk(w: World, o: Resource, names: set<string>, u: Id) {
    && o.spec.username in names
    && StatusOk(w, o.status, u)
    && (!o.finalizer ==> o.status.credentialID.None?)
  }

  ghost predicate SecretsOk(w: World) {
    && (forall rv :: rv in w.history ==>
          rv < w.store.clock && w.history[rv].rv == rv && ValidSecret(w.history[rv].name, w.history[rv].data))
    && (forall n :: n in w.secrets ==>
          w.secrets[n].name == n && w.secrets[n].rv in w.history && w.history[w.secrets[n].rv] == w.secrets[n])
  }

  ghost predicate LedgerOk(w: World, u: Id) {
    && (forall c :: c in w.creds ==> c < w.nextId)
    && (forall c :: c in w.made ==> c < w.nextId && w.made[c].owner == u)
    && (forall c :: c in w.made && c in w.creds ==> w.creds[c] == w.made[c])
    && (forall c :: c in w.lost ==> c in w.made)
  }

  ghost predicate Stored(w: World, c: Id) {
    w.store.obj.Some? && w.store.obj.value.status.credentialID == Some(c)
  }

  /** Each live credential this resource ever created is stored, about to be stored, or given up. */
  ghost predicate Accounted(w: World) {
    forall c :: c in w.made && c in w.creds ==> Stored(w, c) || c in w.lost || c in Unsaved(w.flight)
  }

  /** The credential stored before the pass is gone once the pass works with another one or none. */
  ghost predicate Superseded(w: World, b: Resource, status: Status) {
    b.status.credentialID.Some? && b.status.credentialID != status.credentialID ==>
      b.status.credentialID.value !in w.creds
  }

  ghost predicate Live(w: World, b: Resource, names: set<string>, u: Id) {
    Tracks(w.store, b) && ObjOk(w, b, names, u) && b.finalizer && !b.deleting
  }

  ghost predicate Doomed(w: World, b: Resource, names: set<string>, u: Id) {
    Tracks(w.store, b) && ObjOk(w, b, names, u) && b.finalizer && b.deleting
  }

  ghost predicate FlightOk(w: World, names: set<string>, u: Id) {
    match w.flight
    case Idle => true
    case Connecting(b) => Tracks(w.store, b) && ObjOk(w, b, names, u)
    case Deleting(b, owner, id) =>
      Doomed(w, b, names, u) && b.status.userID == Some(owner) && b.status.credentialID == Some(id)
    case Releasing(b) =>
      Doomed(w, b, names, u) && (b.status.credentialID.Some? ==> b.status.credentialID.value !in w.creds)
    case Adopting(b) => Tracks(w.store, b) && ObjOk(w, b, names, u) && !b.finalizer && !b.deleting
    case Resolving(b) => Live(w, b, names, u)
    case Reading(b, status, user) =>
      Live(w, b, names, u) && user == u && status == b.status.(userID := Some(u))
    case Removing(b, status, read, user, owner, id) =>
      && Live(w, b, names, u) && user == u && owner == u && status == b.status.(userID := Some(u))
      && status.credentialID == Some(id) && Genuine(w.history, read)
    case Creating(b, status, read, user) =>
      && Live(w, b, names, u) && user == u && status.userID == Some(u) && status.credentialID.None?
      && Genuine(w.history, read) && Superseded(w, b, status)
    case Saving(b, status, read) =>
      && Live(w, b, names, u) && StatusOk(w, status, u) && Superseded(w, b, status)
      && Genuine(w.history, read) && status.ready == IsReady
      && status.credentialID.Some? && status.applied == VersionOf(read)
    case Noting(b, status) =>
      && Tracks(w.store, b) && ObjOk(w, b, names, u) && StatusOk(w, status, u) && Superseded(w, b, status)
      && status.ready.NotReady?
      && (status.credentialID.Some? ==> status.credentialID == b.status.credentialID)
  }

  ghost predicate Core(w: World, names: set<string>, u: Id) {
    && Fresh(w.store)
    && (forall n :: n in names && n in w.users ==> w.users[n] == u)
    && SecretsOk(w)
    && LedgerOk(w, u)
    && (w.store.obj.Some? ==> ObjOk(w, w.store.obj.value, names, u))
    && Accounted(w)
  }

  ghost predicate Inv(w: World, names: set<string>, u: Id) {
    Core(w, names, u) && FlightOk(w, names, u)
  }

  /** A world before the resource exists: nothing created for it yet. */
  ghost predicate Initial(w: World, names: set<string>, u: Id) {
    && w.store.obj.None? && w.flight.Idle? && w.made == map[] && w.lost == {}
    && (forall n :: n in names && n in w.users ==> w.users[n] == u)
    && SecretsOk(w)
    && (forall c :: c in w.creds ==> c < w.nextId)
  }

  /** Equal version texts name one revision, so they stand for one password. */
  lemma VersionInjective(h: map<nat, Secret>, a: Read, b: Read)
    requires forall rv :: rv in h ==> ValidSecret(h[rv].name, h[rv].data)
    requires Genuine(h, a) && Genuine(h, b)
    requires VersionOf(a) == VersionOf(b)
    ensures a == b
  {
    var ra, rb := Text.Dec(a.rv), Text.Dec(b.rv);
    assert a.name + ['/'] + (a.key + ['@'] + ra) == VersionOf(a);
    assert b.name + ['/'] + (b.key + ['@'] + rb) == VersionOf(b);
    Text.SplitUnique(a.name, a.key + ['@'] + ra, b.name, b.key + ['@'] + rb, '/');
    Text.SplitUnique(a.key, ra, b.key, rb, '@');
    Text.DecInjective(a.rv, b.rv);
  }

  ghost predicate Grows(w: World, w': World) {
    && (forall rv :: rv in w.history ==> rv in w'.history && w'.history[rv] == w.history[rv])
    && (forall c :: c in w.made ==> c in w'.made && w'.made[c] == w.made[c])
  }

  lemma RecordsGrows(w: World, w': World, id: Id, applied: string)
    requires Grows(w, w') && Records(w.history, w.made, id, applied)
    ensures Records(w'.history, w'.made, id, applied)
  {
    var r :| Genuine(w.history, r) && applied == VersionOf(r) && w.made[id].password == r.password;
    assert Genuine(w'.history, r);
  }

  lemma StatusGrows(w: World, w': World, st: Status, u: Id)
    requires Grows(w, w') && StatusOk(w, st, u)
    ensures StatusOk(w', st, u)
  {
    if st.credentialID.Some? {
      RecordsGrows(w, w', st.credentialID.value, st.applied);
    }
  }

  /** Steps of others that leave the resource alone and kill no record keep what a pass relies on. */
  lemma FlightGrows(w: World, w': World, names: set<string>, u: Id)
    requires FlightOk(w, names, u) && Grows(w, w') && w'.flight == w.flight
    requires forall b :: Tracks(w.store, b) ==> Tracks(w'.store, b)
    requires forall c :: c in w.made && c in w'.creds ==> c in w.creds
    ensures FlightOk(w', names, u)
  {
    if !w.flight.Idle? {
      StatusGrows(w, w', w.flight.base.status, u);
      if w.flight.Saving? || w.flight.Noting? {
        StatusGrows(w, w', w.flight.status, u);
      }
    }
  }

  lemma ChangeKeeps(w: World, edit: Edit<Spec>, names: set<string>, u: Id)
    requires Inv(w, names, u) && Stable(Change(edit), names, u)
    ensures Inv(EnvStep(w, Change(edit)), names, u)
  {
    EditKeeps(w.store, edit, Blank);
    var w' := EnvStep(w, Change(edit));
    FlightGrows(w, w', names, u);
    if w'.store.obj.Some? && w.store.obj.Some? {
      StatusGrows(w, w', w.store.obj.value.status, u);
    }
  }

  lemma SecretKeeps(w: World, e: Env, names: set<string>, u: Id)
    requires Inv(w, names, u) && Stable(e, names, u) && e.PutSecret?
    ensures Inv(EnvStep(w, e), names, u)
  {
    var w' := EnvStep(w, e);
    FlightGrows(w, w', names, u);
    if w.store.obj.Some? {
      StatusGrows(w, w', w.store.obj.value.status, u);
    }
  }

  /** Users, credentials and Secrets that others change leave the resource itself alone. */
  lemma ServerKeeps(w: World, w': World, names: set<string>, u: Id)
    requires Inv(w, names, u)
    requires w' == w.(secrets := w'.secrets, users := w'.users, creds := w'.creds, nextId := w'.nextId)
    requires w.nextId <= w'.nextId && (forall c :: c in w'.creds ==> c < w'.nextId)
    requires forall c :: c in w'.creds && c < w.nextId ==> c in w.creds && w'.creds[c] == w.creds[c]
    requires forall n :: n in names && n in w'.users ==> w'.users[n] == u
    requires forall n :: n in w'.secrets ==> n in w.secrets && w'.secrets[n] == w.secrets[n]
    ensures Inv(w', names, u)
  {
    FlightGrows(w, w', names, u);
    if w.store.obj.Some? {
      StatusGrows(w, w', w.store.obj.value.status, u);
    }
  }

  lemma EnvKeeps(w: World, e: Env, names: set<string>, u: Id)
    requires Inv(w, names, u) && Stable(e, names, u)
    ensures Inv(EnvStep(w, e), names, u)
  {
    match e {
      case Change(edit) => ChangeKeeps(w, edit, names, u);
      case PutSecret(_, _) => SecretKeeps(w, e, names, u);
      case _ => ServerKeeps(w, EnvStep(w, e), names, u);
    }
  }

  /** A step that only moves the pass on needs the condition of where it arrives. */
  lemma Moves(w: World, flight: Flight, names: set<string>, u: Id)
    requires Core(w, names, u) && Unsaved(w.flight) <= Unsaved(flight)
    ensures Core(w.(flight := flight), names, u)
  {
  }

  lemma FetchKeeps(w: World, f: Fault, names: set<string>, u: Id)
    requires Inv(w, names, u) && w.flight.Idle?
    ensures FlightOk(w.(flight := FetchNext(w.store, f)), names, u)
  {
  }

  lemma ConnectKeeps(w: World, b: Resource, f: Fault, names: set<string>, u: Id)
    requires FlightOk(w, names, u) && w.flight == Connecting(b)
    requires b.status.credentialID.Some? ==> b.finalizer
    ensures FlightOk(w.(flight := ConnectNext(b, f)), names, u)
  {
  }

  lemma ResolveKeeps(w: World, b: Resource, f: Fault, names: set<string>, u: Id)
    requires Inv(w, names, u) && w.flight == Resolving(b)
    ensures FlightOk(w.(flight := ResolveNext(w.users, b, f)), names, u)
  {
    hide LedgerOk, SecretsOk, Accounted;
  }

  lemma AfterReadKeeps(w: World, b: Resource, status: Status, read: Read, names: set<string>, u: Id)
    requires Live(w, b, names, u) && status == b.status.(userID := Some(u)) && Genuine(w.history, read)
    ensures FlightOk(w.(flight := AfterRead(b, status, u, read)), names, u)
    ensures Unsaved(AfterRead(b, status, u, read)) == {}
  {
    hide Version, Records;
  }

  lemma ReadKeeps(w: World, b: Resource, status: Status, f: Fault, names: set<string>, u: Id)
    requires Inv(w, names, u) && w.flight == Reading(b, status, u)
    ensures FlightOk(w.(flight := ReadNext(w.secrets, b, status, u, f)), names, u)
    ensures Unsaved(ReadNext(w.secrets, b, status, u, f)) == {}
  {
    if f.Served? && b.spec.secretName in w.secrets && Key(b.spec) in w.secrets[b.spec.secretName].data {
      var secret := w.secrets[b.spec.secretName];
      AfterReadKeeps(w, b, status, Read(secret.name, Key(b.spec), secret.rv, secret.data[Key(b.spec)]), names, u);
    }
  }

  lemma DeletedKeeps(w: World, owner: Id, id: Id, f: Fault, names: set<string>, u: Id)
    requires Inv(w, names, u)
    ensures Inv(w.(creds := DeleteCred(w.creds, owner, id, f)), names, u)
  {
    ServerKeeps(w, w.(creds := DeleteCred(w.creds, owner, id, f)), names, u);
  }

  /** A served delete of a recorded credential leaves it gone, whether it was there or not. */
  lemma Gone(w: World, st: Status, id: Id, f: Fault, u: Id)
    requires StatusOk(w, st, u) && LedgerOk(w, u) && st.credentialID == Some(id)
    ensures Deleted(w.creds, u, id, f) <==> f.Served?
    ensures Deleted(w.creds, u, id, f) ==> id !in DeleteCred(w.creds, u, id, f)
  {
    DeleteSettled(f, if Present(w.creds, u, id) then 204 else 404);
  }

  lemma FinalDeleteKeeps(w: World, b: Resource, id: Id, f: Fault, names: set<string>, u: Id)
    requires Inv(w, names, u) && w.flight == Deleting(b, u, id)
    ensures Inv(Order(w, f), names, u)
  {
    Gone(w, b.status, id, f, u);
    DeletedKeeps(w, u, id, f, names, u);
    var w1 := w.(creds := DeleteCred(w.creds, u, id, f));
    var next := FinalDeleteNext(w.creds, b, u, id, f);
    hide Core, StatusOk, Deleted, DeleteCred;
    Moves(w1, next, names, u);
    assert Order(w, f) == w1.(flight := next);
  }

  lemma RemoveKeeps(w: World, b: Resource, status: Status, read: Read, id: Id, f: Fault, names: set<string>, u: Id)
    requires Inv(w, names, u) && w.flight == Removing(b, status, read, u, u, id)
    ensures Inv(Order(w, f), names, u)
  {
    Gone(w, b.status, id, f, u);
    DeletedKeeps(w, u, id, f, names, u);
    var w1 := w.(creds := DeleteCred(w.creds, u, id, f));
    var next := RemoveNext(w.creds, b, status, read, u, u, id, f);
    hide Core, Records, Deleted, DeleteCred;
    assert FlightOk(w1.(flight := next), names, u);
    Moves(w1, next, names, u);
    assert Order(w, f) == w1.(flight := next);
  }

  lemma ReleaseKeeps(w: World, f: Fault, names: set<string>, u: Id)
    requires Inv(w, names, u) && w.flight.Releasing?
    ensures Inv(Write(w, f), names, u)
  {
  }

  lemma AdoptKeeps(w: World, f: Fault, names: set<string>, u: Id)
    requires Inv(w, names, u) && w.flight.Adopting?
    ensures Inv(Write(w, f), names, u)
  {
  }

  lemma KnownIsOlder(w: World, st: Status, u: Id)
    requires StatusOk(w, st, u) && LedgerOk(w, u)
    ensures st.credentialID.Some? ==> st.credentialID.value < w.nextId
  {
  }

  /** The server made a credential: the books still balance. */
  lemma MadeKeeps(w: World, c: Cred, flight: Flight, names: set<string>, u: Id)
    requires Core(w, names, u) && Unsaved(w.flight) == {} && c.owner == u
    requires Unsaved(flight) == {} || Unsaved(flight) == {w.nextId}
    ensures Core(Made(w, c, flight), names, u)
    ensures Grows(w, Made(w, c, flight))
  {
    var w' := Made(w, c, flight);
    assert Grows(w, w');
    if w.store.obj.Some? {
      StatusGrows(w, w', w.store.obj.value.status, u);
    }
  }

  /** The credential exists; either the pass goes on to store it, or its answer was lost. */
  lemma CreatedKeeps(w: World, b: Resource, status: Status, read: Read, f: Fault, names: set<string>, u: Id)
    requires Inv(w, names, u) && w.flight == Creating(b, status, read, u) && Creates(w, u, f)
    ensures Inv(Order(w, f), names, u)
  {
    var next := CreateNext(w, b, status, read, u, f);
    var w' := Made(w, Cred(u, read.password), next);
    KnownIsOlder(w, b.status, u);
    MadeKeeps(w, Cred(u, read.password), next, names, u);
    StatusGrows(w, w', b.status, u);
    assert Genuine(w'.history, read) && w'.made[w.nextId].password == read.password;
    assert Records(w'.history, w'.made, w.nextId, VersionOf(read));
    hide Core, Records, Version;
    assert Order(w, f) == w';
  }

  lemma CreateKeeps(w: World, b: Resource, status: Status, read: Read, f: Fault, names: set<string>, u: Id)
    requires Inv(w, names, u) && w.flight == Creating(b, status, read, u)
    ensures Inv(Order(w, f), names, u)
  {
    if Creates(w, u, f) {
      CreatedKeeps(w, b, status, read, f, names, u);
    } else {
      Moves(w, CreateNext(w, b, status, read, u, f), names, u);
    }
  }

  lemma SaveKeeps(w: World, f: Fault, names: set<string>, u: Id)
    requires Inv(w, names, u) && (w.flight.Saving? || w.flight.Noting?)
    ensures Inv(Write(w, f), names, u)
  {
    hide Genuine;
  }

  lemma LookKeeps(w: World, f: Fault, names: set<string>, u: Id)
    requires Inv(w, names, u) && Looks(w.flight)
    ensures Inv(w.(flight := Look(w, f)), names, u)
  {
    match w.flight {
      case Idle => FetchKeeps(w, f, names, u);
      case Connecting(b) => ConnectKeeps(w, b, f, names, u);
      case Resolving(b) => ResolveKeeps(w, b, f, names, u);
      case Reading(b, status, _) => ReadKeeps(w, b, status, f, names, u);
    }
    Moves(w, Look(w, f), names, u);
  }

  lemma WriteKeeps(w: World, f: Fault, names: set<string>, u: Id)
    requires Inv(w, names, u) && Writes(w.flight)
    ensures Inv(Write(w, f), names, u)
  {
    match w.flight {
      case Releasing(_) => ReleaseKeeps(w, f, names, u);
      case Adopting(_) => AdoptKeeps(w, f, names, u);
      case Saving(_, _, _) => SaveKeeps(w, f, names, u);
      case Noting(_, _) => SaveKeeps(w, f, names, u);
    }
  }

  lemma OrderKeeps(w: World, f: Fault, names: set<string>, u: Id)
    requires Inv(w, names, u) && !Looks(w.flight) && !Writes(w.flight)
    ensures Inv(Order(w, f), names, u)
  {
    match w.flight {
      case Deleting(b, _, id) => FinalDeleteKeeps(w, b, id, f, names, u);
      case Removing(b, status, read, _, _, id) => RemoveKeeps(w, b, status, read, id, f, names, u);
      case Creating(b, status, read, _) => CreateKeeps(w, b, status, read, f, names, u);
    }
  }

  lemma CallKeeps(w: World, f: Fault, names: set<string>, u: Id)
    requires Inv(w, names, u)
    ensures Inv(CallStep(w, f), names, u)
  {
    hide Inv, Look, Write, Order;
    if Looks(w.flight) {
      LookKeeps(w, f, names, u);
    } else if Writes(w.flight) {
      WriteKeeps(w, f, names, u);
    } else {
      OrderKeeps(w, f, names, u);
    }
  }

  lemma CrashKeeps(w: World, names: set<string>, u: Id)
    requires Inv(w, names, u)
    ensures Inv(Step(w, Crash), names, u)
  {
  }

  lemma StepKeeps(w: World, a: Action, names: set<string>, u: Id)
    requires Inv(w, names, u) && (a.Others? ==> Stable(a.env, names, u))
    ensures Inv(Step(w, a), names, u)
  {
    match a {
      case Others(e) => EnvKeeps(w, e, names, u);
      case Crash => CrashKeeps(w, names, u);
      case Call(f) => CallKeeps(w, f, names, u);
    }
  }

  lemma RestStable(acts: seq<Action>, names: set<string>, u: Id)
    requires StableRun(acts, names, u) && acts != []
    ensures acts[0].Others? ==> Stable(acts[0].env, names, u)
    ensures StableRun(acts[1..], names, u)
  {
    assert forall i :: 0 <= i < |acts[1..]| ==> acts[1..][i] == acts[i + 1];
  }

  lemma {:induction false} RunKeeps(w: World, acts: seq<Action>, names: set<string>, u: Id)
    requires Inv(w, names, u) && StableRun(acts, names, u)
    ensures Inv(Exec(w, acts), names, u)
    decreases |acts|
  {
    if acts != [] {
      StepKeeps(w, acts[0], names, u);
      RestStable(acts, names, u);
      RunKeeps(Step(w, acts[0]), acts[1..], names, u);
    }
  }
}
