/** Users and their generated password: the controller as a state machine, one step per API call. */
module User {
  import opened Base
  import opened Client
  import opened Kube
  import opened Passes

  /** What only an update sends; a create leaves the server's defaults. */
  datatype Limits = Limits(policy: Option<string>, rateLimit: Option<int>, ipRanges: seq<string>)

  const Defaults := Limits(None, None, [])

  /** `generate`: generatePassword is absent or true. */
  datatype Spec = Spec(username: string, description: string, limits: Limits, generate: bool)

  datatype Status = Status(externalID: Option<Id>, credentialID: Option<Id>, secretRef: bool, ready: Ready)

  const Blank := Status(None, None, false, Unset)

  type Resource = Obj<Spec, Status>

  /** A user in Warpgate. */
  datatype Account = Account(username: string, description: string, limits: Limits)

  function Created(s: Spec): Account {
    Account(s.username, s.description, Defaults)
  }

  function Updated(s: Spec): Account {
    Account(s.username, s.description, s.limits)
  }

  datatype Flight =
    | Idle
    | Connecting(base: Resource)
    | DeletingCred(base: Resource, user: Id, id: Id)
    | Finding(base: Resource)
    | Dropping(base: Resource)
    | DeletingUser(base: Resource, user: Id)
    | Releasing(base: Resource)
    | Adopting(base: Resource)
    | Creating(base: Resource)
    | Updating(base: Resource, user: Id)
    | Generating(base: Resource, status: Status, user: Id)
    | Storing(base: Resource, status: Status, cred: Id)
    | Saving(base: Resource, status: Status)
    | Noting(base: Resource, status: Status)

  /**
   * The resource; Warpgate's users, and its password credentials with the user each belongs to; and
   * the Secret of the user's name, holding the password generated for the credential with the given
   * id. `made` and `lost` are bookkeeping: the users created for this resource, and those whose
   * creation it could not record.
   */
  datatype World = World(
    store: Store<Spec, Status>,
    users: map<Id, Account>,
    creds: map<Id, Id>,
    nextId: Id,
    secret: Option<Id>,
    made: set<Id>,
    lost: set<Id>,
    flight: Flight)

  datatype Env =
    | Change(edit: Edit<Spec>)
    | AddUser(account: Account)
    | PutUser(id: Id, account: Account)
    | DropUser(id: Id)
    | AddCred(user: Id)
    | DropCred(id: Id)
    | SetSecret(secret: Option<Id>)

  type Action = Deed<Env>

  /** The server deletes a user together with its credentials. */
  function WithoutUser(creds: map<Id, Id>, user: Id): map<Id, Id> {
    map c | c in creds && creds[c] != user :: creds[c]
  }

  function EnvStep(w: World, e: Env): World {
    match e
    case Change(edit) => w.(store := Edited(w.store, edit, Blank))
    case AddUser(a) => w.(users := w.users[w.nextId := a], nextId := w.nextId + 1)
    case PutUser(id, a) => if id in w.users then w.(users := w.users[id := a]) else w
    case DropUser(id) => w.(users := w.users - {id}, creds := WithoutUser(w.creds, id))
    case AddCred(user) =>
      if user in w.users then w.(creds := w.creds[w.nextId := user], nextId := w.nextId + 1) else w
    case DropCred(id) => w.(creds := w.creds - {id})
    case SetSecret(s) => w.(secret := s)
  }

  predicate HasStatus(f: Flight) {
    f.Generating? || f.Storing? || f.Saving? || f.Noting?
  }

  /** The user ids only the memory of the pass under way holds. */
  function Unsaved(f: Flight): set<Id> {
    if HasStatus(f) && f.status.externalID.Some? && f.status.externalID != f.base.status.externalID
    then {f.status.externalID.value}
    else {}
  }

  function End(w: World, store: Store<Spec, Status>, saved: bool): World {
    w.(store := store, lost := if saved then w.lost else w.lost + Unsaved(w.flight), flight := Idle)
  }

  function Note(b: Resource, status: Status, reason: Reason): Flight {
    Noting(b, status.(ready := NotReady(reason)))
  }

  function FetchNext(store: Store<Spec, Status>, f: Fault): Flight {
    if f.Served? && store.obj.Some? then Connecting(store.obj.value) else Idle
  }

  function AfterAdopt(b: Resource): Flight {
    if b.status.externalID.None? then Creating(b) else Updating(b, b.status.externalID.value)
  }

  function AfterSecret(b: Resource): Flight {
    if b.status.externalID.Some? then DeletingUser(b, b.status.externalID.value) else Releasing(b)
  }

  function AfterCred(b: Resource): Flight {
    if b.status.secretRef then Finding(b) else AfterSecret(b)
  }

  /** The user is in place: generate a password unless one is recorded. */
  function AfterUser(b: Resource, status: Status): Flight {
    if b.spec.generate && status.credentialID.None? && status.externalID.Some? then
      Generating(b, status, status.externalID.value)
    else Saving(b, status.(ready := IsReady))
  }

  function ConnectNext(b: Resource, f: Fault): Flight {
    if !f.Served? then Note(b, b.status, ClientError)
    else if b.deleting then
      if !b.finalizer then Idle
      else if b.status.credentialID.Some? && b.status.externalID.Some? then
        DeletingCred(b, b.status.externalID.value, b.status.credentialID.value)
      else AfterCred(b)
    else if !b.finalizer then Adopting(b)
    else AfterAdopt(b)
  }

  predicate CredThere(creds: map<Id, Id>, user: Id, id: Id) {
    id in creds && creds[id] == user
  }

  /** A delete counts as done when it succeeded or found nothing. */
  predicate Deleted(there: bool, f: Fault) {
    var err := ErrorOf(f, if there then 204 else 404);
    err.None? || IsNotFound(err)
  }

  /** Reading the Secret before deleting it: any error, not only its absence, skips the delete. */
  function FindNext(secret: Option<Id>, b: Resource, f: Fault): Flight {
    if f.Served? && secret.Some? then Dropping(b) else AfterSecret(b)
  }

  function AdoptNext(store: Store<Spec, Status>, b: Resource, f: Fault): Flight {
    if Accepts(store, b, f) && f.Served? then AfterAdopt(b.(finalizer := true, rv := store.clock)) else Idle
  }

  function CreateNext(nextId: Id, b: Resource, f: Fault): Flight {
    if ErrorOf(f, 201).None? then AfterUser(b, b.status.(externalID := Some(nextId)))
    else Note(b, b.status, CreateFailed)
  }

  function UpdateNext(users: map<Id, Account>, b: Resource, user: Id, f: Fault): Flight {
    var err := ErrorOf(f, if user in users then 200 else 404);
    if err.None? then AfterUser(b, b.status)
    else if IsNotFound(err) then Note(b, b.status.(externalID := None), NotFound)
    else Note(b, b.status, UpdateFailed)
  }

  /** A credential is created only for a user that exists. */
  function GenerateNext(w: World, b: Resource, status: Status, user: Id, f: Fault): Flight {
    if ErrorOf(f, if user in w.users then 201 else 404).None? then Storing(b, status, w.nextId)
    else Note(b, status, PasswordCredentialFailed)
  }

  /** The Secret was created, or there already is one of that name. */
  predicate SecretDone(f: Fault) {
    f.Served?
  }

  /** Any other failure ends the pass without a status write. */
  function StoreNext(b: Resource, status: Status, cred: Id, f: Fault): Flight {
    if SecretDone(f) then Saving(b, status.(credentialID := Some(cred), secretRef := true, ready := IsReady))
    else Idle
  }

  predicate Looks(f: Flight) {
    f.Idle? || f.Connecting? || f.Finding?
  }

  function Look(w: World, f: Fault): Flight
    requires Looks(w.flight)
  {
    match w.flight
    case Idle => FetchNext(w.store, f)
    case Connecting(b) => ConnectNext(b, f)
    case Finding(b) => FindNext(w.secret, b, f)
  }

  predicate Writes(f: Flight) {
    f.Releasing? || f.Adopting? || f.Saving? || f.Noting?
  }

  function Write(w: World, f: Fault): World
    requires Writes(w.flight)
  {
    match w.flight
    case Releasing(b) => w.(store := SaveFinalizer(w.store, b, false, f), flight := Idle)
    case Adopting(b) => w.(store := SaveFinalizer(w.store, b, true, f), flight := AdoptNext(w.store, b, f))
    case Saving(b, status) => End(w, SaveStatus(w.store, b, status, f), Accepts(w.store, b, f))
    case Noting(b, status) => End(w, SaveStatus(w.store, b, status, f), Accepts(w.store, b, f))
  }

  /** The calls of finalization. */
  predicate Removes(f: Flight) {
    f.DeletingCred? || f.Dropping? || f.DeletingUser?
  }

  function Remove(w: World, f: Fault): World
    requires Removes(w.flight)
  {
    match w.flight
    case DeletingCred(b, user, id) =>
      w.(creds := if TakesEffect(f) && CredThere(w.creds, user, id) then w.creds - {id} else w.creds,
         flight := if Deleted(CredThere(w.creds, user, id), f) then AfterCred(b) else Idle)
    case Dropping(b) =>
      w.(secret := if TakesEffect(f) then None else w.secret, flight := if f.Served? then AfterSecret(b) else Idle)
    case DeletingUser(b, user) =>
      w.(users := if TakesEffect(f) then w.users - {user} else w.users,
         creds := if TakesEffect(f) then WithoutUser(w.creds, user) else w.creds,
         flight := if Deleted(user in w.users, f) then Releasing(b) else Idle)
  }

  /** The server has made user w.nextId, which the pass holds or has lost sight of. */
  function Made(w: World, a: Account, flight: Flight): World {
    w.(users := w.users[w.nextId := a], made := w.made + {w.nextId}, nextId := w.nextId + 1,
       lost := if Unsaved(flight) == {} then w.lost + {w.nextId} else w.lost, flight := flight)
  }

  /** The calls that create and update. */
  function Order(w: World, f: Fault): World
    requires !Looks(w.flight) && !Writes(w.flight) && !Removes(w.flight)
  {
    match w.flight
    case Creating(b) =>
      if TakesEffect(f) then Made(w, Created(b.spec), CreateNext(w.nextId, b, f))
      else w.(flight := CreateNext(w.nextId, b, f))
    case Updating(b, user) =>
      w.(users := if TakesEffect(f) && user in w.users then w.users[user := Updated(b.spec)] else w.users,
         flight := UpdateNext(w.users, b, user, f))
    case Generating(b, status, user) =>
      var next := GenerateNext(w, b, status, user, f);
      if TakesEffect(f) && user in w.users then
        w.(creds := w.creds[w.nextId := user], nextId := w.nextId + 1, flight := next)
      else w.(flight := next)
    case Storing(b, status, cred) =>
      var w1 := w.(secret := if TakesEffect(f) && w.secret.None? then Some(cred) else w.secret);
      if SecretDone(f) then w1.(flight := StoreNext(b, status, cred, f)) else End(w1, w1.store, false)
  }

  function CallStep(w: World, f: Fault): World {
    if Looks(w.flight) then w.(flight := Look(w, f))
    else if Writes(w.flight) then Write(w, f)
    else if Removes(w.flight) then Remove(w, f)
    else Order(w, f)
  }

  function Step(w: World, a: Action): World {
    match a
    case Others(e) => EnvStep(w, e)
    case Call(f) => CallStep(w, f)
    case Crash => End(w, w.store, false)
  }

  function Exec(w: World, acts: seq<Action>): World {
    Fold(Step, w, acts)
  }
}
