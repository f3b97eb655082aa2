/**
 * The password credential controller as a state machine: the world it shares with everybody else,
 * and one step per API call of Reconcile. Anybody may act between two calls.
 */
module PasswordCredential {
  import opened Base
  import opened Client
  import opened Kube
  import opened Passes
  import Text

  datatype Spec = Spec(username: string, secretName: string, secretKey: string)

  datatype Status = Status(userID: Option<Id>, credentialID: Option<Id>, applied: string, ready: Ready)

  const Blank := Status(None, None, "", Unset)

  type Resource = Obj<Spec, Status>

  /** One revision of a Secret. */
  datatype Secret = Secret(name: string, rv: nat, data: map<string, string>)

  /** A password credential in Warpgate. */
  datatype Cred = Cred(owner: Id, password: string)

  /** What one pass read from the Secret. */
  datatype Read = Read(name: string, key: string, rv: nat, password: string)

  /** How far the pass under way has come: the call it makes next, and its local variables. */
  datatype Flight =
    | Idle
    | Connecting(base: Resource)
    | Deleting(base: Resource, owner: Id, id: Id)
    | Releasing(base: Resource)
    | Adopting(base: Resource)
    | Resolving(base: Resource)
    | Reading(base: Resource, status: Status, user: Id)
    | Removing(base: Resource, status: Status, read: Read, user: Id, owner: Id, id: Id)
    | Creating(base: Resource, status: Status, read: Read, user: Id)
    | Saving(base: Resource, status: Status, read: Read)
    | Noting(base: Resource, status: Status)

  /**
   * Kubernetes and Warpgate together. The last four fields are bookkeeping that no code reads:
   * every Secret revision there ever was, the request behind every credential this resource
   * created, the credentials whose creation it could not record, and the pass under way.
   */
  datatype World = World(
    store: Store<Spec, Status>,
    secrets: map<string, Secret>,
    users: map<string, Id>,
    creds: map<Id, Cred>,
    nextId: Id,
    history: map<nat, Secret>,
    made: map<Id, Cred>,
    lost: set<Id>,
    flight: Flight)

  /** What anybody else may do at any time. */
  datatype Env =
    | Change(edit: Edit<Spec>)
    | PutSecret(name: string, data: map<string, string>)
    | DropSecret(name: string)
    | PutUser(username: string, id: Id)
    | DropUser(username: string)
    | AddCred(cred: Cred)
    | DropCred(id: Id)

  type Action = Deed<Env>

  function Key(spec: Spec): string {
    if spec.secretKey == "" then "password" else spec.secretKey
  }

  /** The text that identifies the Secret revision a password was read from. */
  function Version(name: string, key: string, rv: string): string {
    name + "/" + key + "@" + rv
  }

  function VersionOf(r: Read): string {
    Version(r.name, r.key, Text.Dec(r.rv))
  }

  function EnvStep(w: World, e: Env): World {
    match e
    case Change(edit) => w.(store := Edited(w.store, edit, Blank))
    case PutSecret(name, data) =>
      var s := Secret(name, w.store.clock, data);
      w.(secrets := w.secrets[name := s], history := w.history[s.rv := s],
         store := w.store.(clock := s.rv + 1))
    case DropSecret(name) => w.(secrets := w.secrets - {name})
    case PutUser(name, id) => w.(users := w.users[name := id])
    case DropUser(name) => w.(users := w.users - {name})
    case AddCred(c) => w.(creds := w.creds[w.nextId := c], nextId := w.nextId + 1)
    case DropCred(id) => w.(creds := w.creds - {id})
  }

  /** The credential ids only the memory of the pass under way holds. */
  function Unsaved(f: Flight): set<Id> {
    if f.Saving? && f.status.credentialID.Some? && f.status.credentialID != f.base.status.credentialID
    then {f.status.credentialID.value}
    else {}
  }

  /** The pass ends; whatever it did not store is forgotten. */
  function End(w: World, store: Store<Spec, Status>, saved: bool): World {
    w.(store := store, lost := if saved then w.lost else w.lost + Unsaved(w.flight), flight := Idle)
  }

  function Note(base: Resource, status: Status, reason: Reason): Flight {
    Noting(base, status.(ready := NotReady(reason)))
  }

  function FetchNext(store: Store<Spec, Status>, f: Fault): Flight {
    if f.Served? && store.obj.Some? then Connecting(store.obj.value) else Idle
  }

  function ConnectNext(b: Resource, f: Fault): Flight {
    if !f.Served? then Note(b, b.status, ClientError)
    else if b.deleting then
      if !b.finalizer then Idle
      else if b.status.userID.Some? && b.status.credentialID.Some? then
        Deleting(b, b.status.userID.value, b.status.credentialID.value)
      else Releasing(b)
    else if !b.finalizer then Adopting(b)
    else Resolving(b)
  }

  predicate Present(creds: map<Id, Cred>, owner: Id, id: Id) {
    id in creds && creds[id].owner == owner
  }

  /** DELETE /users/owner/credentials/passwords/id: the store afterwards. */
  function DeleteCred(creds: map<Id, Cred>, owner: Id, id: Id, f: Fault): map<Id, Cred> {
    if TakesEffect(f) && Present(creds, owner, id) then creds - {id} else creds
  }

  /** The delete succeeded, or found nothing to delete. */
  predicate Deleted(creds: map<Id, Cred>, owner: Id, id: Id, f: Fault) {
    var err := ErrorOf(f, if Present(creds, owner, id) then 204 else 404);
    err.None? || IsNotFound(err)
  }

  function FinalDeleteNext(creds: map<Id, Cred>, b: Resource, owner: Id, id: Id, f: Fault): Flight {
    if Deleted(creds, owner, id, f) then Releasing(b) else Idle
  }

  function AdoptNext(store: Store<Spec, Status>, b: Resource, f: Fault): Flight {
    if Accepts(store, b, f) && f.Served? then Resolving(b.(finalizer := true, rv := store.clock)) else Idle
  }

  function ResolveNext(users: map<string, Id>, b: Resource, f: Fault): Flight {
    if f.Served? && b.spec.username in users then
      var user := users[b.spec.username];
      Reading(b, b.status.(userID := Some(user)), user)
    else Note(b, b.status, UserNotFound)
  }

  /** The user resolved by this pass differs from the one stored before. */
  predicate UserChanged(b: Resource, user: Id) {
    b.status.userID.Some? && b.status.userID.value != user
  }

  /** The outdated credential belongs to the user stored before, if one was. */
  function Owner(b: Resource, user: Id): Id {
    if b.status.userID.Some? then b.status.userID.value else user
  }

  /** With the password in hand: create, replace an outdated credential, or find all in sync. */
  function AfterRead(b: Resource, status: Status, user: Id, read: Read): Flight {
    if status.credentialID.None? then Creating(b, status, read, user)
    else if status.applied != VersionOf(read) || UserChanged(b, user) then
      Removing(b, status, read, user, Owner(b, user), status.credentialID.value)
    else Saving(b, status.(ready := IsReady), read)
  }

  function ReadNext(secrets: map<string, Secret>, b: Resource, status: Status, user: Id, f: Fault): Flight {
    if !f.Served? || b.spec.secretName !in secrets then Note(b, status, SecretNotFound)
    else
      var secret, key := secrets[b.spec.secretName], Key(b.spec);
      if key !in secret.data then Note(b, status, SecretKeyMissing)
      else AfterRead(b, status, user, Read(secret.name, key, secret.rv, secret.data[key]))
  }

  function RemoveNext(creds: map<Id, Cred>, b: Resource, status: Status, read: Read, user: Id, owner: Id, id: Id,
                      f: Fault): Flight
  {
    if Deleted(creds, owner, id, f) then Creating(b, status.(credentialID := None, applied := ""), read, user)
    else Note(b, status, RotateFailed)
  }

  /** POST /users/user/credentials/passwords creates only for a user that exists. */
  predicate Creates(w: World, user: Id, f: Fault) {
    TakesEffect(f) && user in w.users.Values
  }

  function CreateNext(w: World, b: Resource, status: Status, read: Read, user: Id, f: Fault): Flight {
    if ErrorOf(f, if user in w.users.Values then 201 else 404).None? then
      Saving(b, status.(credentialID := Some(w.nextId), applied := VersionOf(read), ready := IsReady), read)
    else Note(b, status, CreateFailed)
  }

  /** The world once the server has made credential c, which the pass holds or has lost sight of. */
  function Made(w: World, c: Cred, flight: Flight): World {
    w.(creds := w.creds[w.nextId := c], made := w.made[w.nextId := c], nextId := w.nextId + 1,
       lost := if Unsaved(flight) == {} then w.lost + {w.nextId} else w.lost, flight := flight)
  }

  /** The calls that only look: they move the pass on and change nothing else. */
  predicate Looks(f: Flight) {
    f.Idle? || f.Connecting? || f.Resolving? || f.Reading?
  }

  function Look(w: World, f: Fault): Flight
    requires Looks(w.flight)
  {
    match w.flight
    case Idle => FetchNext(w.store, f)
    case Connecting(b) => ConnectNext(b, f)
    case Resolving(b) => ResolveNext(w.users, b, f)
    case Reading(b, status, user) => ReadNext(w.secrets, b, status, user, f)
  }

  /** The calls that write the Kubernetes resource. */
  predicate Writes(f: Flight) {
    f.Releasing? || f.Adopting? || f.Saving? || f.Noting?
  }

  function Write(w: World, f: Fault): World
    requires Writes(w.flight)
  {
    match w.flight
    case Releasing(b) => w.(store := SaveFinalizer(w.store, b, false, f), flight := Idle)
    case Adopting(b) => w.(store := SaveFinalizer(w.store, b, true, f), flight := AdoptNext(w.store, b, f))
    case Saving(b, status, _) => End(w, SaveStatus(w.store, b, status, f), Accepts(w.store, b, f))
    case Noting(b, status) => End(w, SaveStatus(w.store, b, status, f), Accepts(w.store, b, f))
  }

  /** The calls that write Warpgate: two kinds of delete, and the create. */
  function Order(w: World, f: Fault): World
    requires !Looks(w.flight) && !Writes(w.flight)
  {
    match w.flight
    case Deleting(b, owner, id) =>
      w.(creds := DeleteCred(w.creds, owner, id, f), flight := FinalDeleteNext(w.creds, b, owner, id, f))
    case Removing(b, status, read, user, owner, id) =>
      w.(creds := DeleteCred(w.creds, owner, id, f),
         flight := RemoveNext(w.creds, b, status, read, user, owner, id, f))
    case Creating(b, status, read, user) =>
      var next := CreateNext(w, b, status, read, user, f);
      if Creates(w, user, f) then Made(w, Cred(user, read.password), next) else w.(flight := next)
  }

  /** One API call of the pass under way; an idle controller starts a pass by reading the resource. */
  function CallStep(w: World, f: Fault): World {
    if Looks(w.flight) then w.(flight := Look(w, f))
    else if Writes(w.flight) then Write(w, f)
    else Order(w, f)
  }

  /** One step: somebody else acts, the call under way is made, or the operator dies. */
  function Step(w: World, a: Action): World {
    match a
    case Others(e) => EnvStep(w, e)
    case Call(f) => CallStep(w, f)
    case Crash => End(w, w.store, false)
  }

  function Exec(w: World, acts: seq<Action>): World {
    Fold(Step, w, acts)
  }
}
