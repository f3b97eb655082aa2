/**
 * The create/update/recreate/finalize lifecycle that the role, target group, target and public key
 * controllers share, as a state machine. A kind says how the request is built and whether the
 * record lives under a user.
 */
module Lifecycle {
  import opened Base
  import opened Client
  import opened Kube
  import opened Passes

  /** Stored status: the owning user (public keys only), the record's id, the Ready condition. */
  datatype Status = Status(owner: Option<Id>, id: Option<Id>, ready: Ready)

  const Blank := Status(None, None, Unset)

  type Resource<Spec> = Obj<Spec, Status>

  /** A record in Warpgate, at the top level or under a user. */
  datatype Rec<Req> = Rec(owner: Option<Id>, req: Req)

  /** What the lookups before the request yield. */
  datatype Prep<Req> = Build(owner: Option<Id>, req: Req) | Blocked(reason: Reason)

  datatype Kind<!Spec, !Ext, Req> = Kind(owned: bool, prep: (Spec, Ext, Fault) -> Prep<Req>)

  datatype Flight<Spec, Req> =
    | Idle
    | Connecting(base: Resource<Spec>)
    | Deleting(base: Resource<Spec>, owner: Option<Id>, id: Id)
    | Releasing(base: Resource<Spec>)
    | Adopting(base: Resource<Spec>)
    | Preparing(base: Resource<Spec>)
    | Creating(base: Resource<Spec>, status: Status, req: Req)
    | Updating(base: Resource<Spec>, status: Status, req: Req, id: Id)
    | Saving(base: Resource<Spec>, status: Status)
    | Noting(base: Resource<Spec>, status: Status)

  /**
   * The resource, the records of its kind in Warpgate, and whatever the lookups read. `made` and
   * `lost` are bookkeeping: the records created for this resource with their owners, and those
   * whose creation it could not record.
   */
  datatype World<Spec, Ext, Req> = World(
    store: Store<Spec, Status>,
    recs: map<Id, Rec<Req>>,
    nextId: Id,
    ext: Ext,
    made: map<Id, Option<Id>>,
    lost: set<Id>,
    flight: Flight<Spec, Req>)

  datatype Env<Spec, Ext, Req> =
    | Change(edit: Edit<Spec>)
    | SetExt(ext: Ext)
    | AddRec(rec: Rec<Req>)
    | PutRec(id: Id, req: Req)
    | DropRec(id: Id)

  type Action<Spec, Ext, Req> = Deed<Env<Spec, Ext, Req>>

  function EnvStep<Spec, Ext, Req>(w: World<Spec, Ext, Req>, e: Env<Spec, Ext, Req>): World<Spec, Ext, Req> {
    match e
    case Change(edit) => w.(store := Edited(w.store, edit, Blank))
    case SetExt(ext) => w.(ext := ext)
    case AddRec(r) => w.(recs := w.recs[w.nextId := r], nextId := w.nextId + 1)
    case PutRec(id, req) => if id in w.recs then w.(recs := w.recs[id := w.recs[id].(req := req)]) else w
    case DropRec(id) => w.(recs := w.recs - {id})
  }

  /** The ids only the memory of the pass under way holds. */
  function Unsaved<Spec, Req>(f: Flight<Spec, Req>): set<Id> {
    if f.Saving? && f.status.id.Some? && f.status.id != f.base.status.id then {f.status.id.value} else {}
  }

  function Note<Spec, Req>(b: Resource<Spec>, status: Status, reason: Reason): Flight<Spec, Req> {
    Noting(b, status.(ready := NotReady(reason)))
  }

  predicate Present<Req>(recs: map<Id, Rec<Req>>, owner: Option<Id>, id: Id) {
    id in recs && recs[id].owner == owner
  }

  function FetchNext<Spec, Req>(store: Store<Spec, Status>, f: Fault): Flight<Spec, Req> {
    if f.Served? && store.obj.Some? then Connecting(store.obj.value) else Idle
  }

  function ConnectNext<Spec, Req>(owned: bool, b: Resource<Spec>, f: Fault): Flight<Spec, Req> {
    if !f.Served? then Note(b, b.status, ClientError)
    else if b.deleting then
      if !b.finalizer then Idle
      else if b.status.id.Some? && (owned ==> b.status.owner.Some?) then
        Deleting(b, b.status.owner, b.status.id.value)
      else Releasing(b)
    else if !b.finalizer then Adopting(b)
    else Preparing(b)
  }

  function PrepareNext<Spec, Req>(b: Resource<Spec>, p: Prep<Req>): Flight<Spec, Req> {
    match p
    case Blocked(reason) => Note(b, b.status, reason)
    case Build(owner, req) =>
      var status := b.status.(owner := owner);
      if status.id.None? then Creating(b, status, req) else Updating(b, status, req, status.id.value)
  }

  function DeleteRec<Req>(recs: map<Id, Rec<Req>>, owner: Option<Id>, id: Id, f: Fault): map<Id, Rec<Req>> {
    if TakesEffect(f) && Present(recs, owner, id) then recs - {id} else recs
  }

  /** The delete succeeded, or found nothing to delete. */
  predicate Deleted<Req>(recs: map<Id, Rec<Req>>, owner: Option<Id>, id: Id, f: Fault) {
    var err := ErrorOf(f, if Present(recs, owner, id) then 204 else 404);
    err.None? || IsNotFound(err)
  }

  function DeleteNext<Spec, Req>(recs: map<Id, Rec<Req>>, b: Resource<Spec>, owner: Option<Id>, id: Id, f: Fault)
    : Flight<Spec, Req>
  {
    if Deleted(recs, owner, id, f) then Releasing(b) else Idle
  }

  function AdoptNext<Spec, Req>(store: Store<Spec, Status>, b: Resource<Spec>, f: Fault): Flight<Spec, Req> {
    if Accepts(store, b, f) && f.Served? then Preparing(b.(finalizer := true, rv := store.clock)) else Idle
  }

  function CreateNext<Spec, Req>(nextId: Id, b: Resource<Spec>, status: Status, f: Fault): Flight<Spec, Req> {
    if ErrorOf(f, 201).None? then Saving(b, status.(id := Some(nextId), ready := IsReady))
    else Note(b, status, CreateFailed)
  }

  function PutRecord<Req>(recs: map<Id, Rec<Req>>, owner: Option<Id>, id: Id, req: Req, f: Fault): map<Id, Rec<Req>> {
    if TakesEffect(f) && Present(recs, owner, id) then recs[id := Rec(owner, req)] else recs
  }

  /** An update that finds no record clears the id, so that the next pass creates it again. */
  function UpdateNext<Spec, Req>(recs: map<Id, Rec<Req>>, b: Resource<Spec>, status: Status, id: Id, f: Fault)
    : Flight<Spec, Req>
  {
    var err := ErrorOf(f, if Present(recs, status.owner, id) then 200 else 404);
    if err.None? then Saving(b, status.(ready := IsReady))
    else if IsNotFound(err) then Note(b, status.(id := None), NotFound)
    else Note(b, status, UpdateFailed)
  }

  /** The pass ends; whatever it did not store is forgotten. */
  function End<Spec, Ext, Req>(w: World<Spec, Ext, Req>, store: Store<Spec, Status>, saved: bool)
    : World<Spec, Ext, Req>
  {
    w.(store := store, lost := if saved then w.lost else w.lost + Unsaved(w.flight), flight := Idle)
  }

  /** The world once the server has made a record, which the pass holds or has lost sight of. */
  function Made<Spec, Ext, Req>(w: World<Spec, Ext, Req>, r: Rec<Req>, flight: Flight<Spec, Req>)
    : World<Spec, Ext, Req>
  {
    w.(recs := w.recs[w.nextId := r], made := w.made[w.nextId := r.owner], nextId := w.nextId + 1,
       lost := if Unsaved(flight) == {} then w.lost + {w.nextId} else w.lost, flight := flight)
  }

  /** The calls that only look. */
  predicate Looks<Spec, Req>(f: Flight<Spec, Req>) {
    f.Idle? || f.Connecting? || f.Preparing?
  }

  function Look<Spec, Ext, Req>(k: Kind<Spec, Ext, Req>, w: World<Spec, Ext, Req>, f: Fault): Flight<Spec, Req>
    requires Looks(w.flight)
  {
    match w.flight
    case Idle => FetchNext(w.store, f)
    case Connecting(b) => ConnectNext(k.owned, b, f)
    case Preparing(b) => PrepareNext(b, k.prep(b.spec, w.ext, f))
  }

  /** The calls that write the Kubernetes resource. */
  predicate Writes<Spec, Req>(f: Flight<Spec, Req>) {
    f.Releasing? || f.Adopting? || f.Saving? || f.Noting?
  }

  function Write<Spec, Ext, Req>(w: World<Spec, Ext, Req>, f: Fault): World<Spec, Ext, Req>
    requires Writes(w.flight)
  {
    match w.flight
    case Releasing(b) => w.(store := SaveFinalizer(w.store, b, false, f), flight := Idle)
    case Adopting(b) => w.(store := SaveFinalizer(w.store, b, true, f), flight := AdoptNext(w.store, b, f))
    case Saving(b, status) => End(w, SaveStatus(w.store, b, status, f), Accepts(w.store, b, f))
    case Noting(b, status) => End(w, SaveStatus(w.store, b, status, f), Accepts(w.store, b, f))
  }

  /** The calls that write Warpgate. */
  function Order<Spec, Ext, Req>(w: World<Spec, Ext, Req>, f: Fault): World<Spec, Ext, Req>
    requires !Looks(w.flight) && !Writes(w.flight)
  {
    match w.flight
    case Deleting(b, owner, id) =>
      w.(recs := DeleteRec(w.recs, owner, id, f), flight := DeleteNext(w.recs, b, owner, id, f))
    case Creating(b, status, req) =>
      var next := CreateNext(w.nextId, b, status, f);
      if TakesEffect(f) then Made(w, Rec(status.owner, req), next) else w.(flight := next)
    case Updating(b, status, req, id) =>
      w.(recs := PutRecord(w.recs, status.owner, id, req, f), flight := UpdateNext(w.recs, b, status, id, f))
  }

  function CallStep<Spec, Ext, Req>(k: Kind<Spec, Ext, Req>, w: World<Spec, Ext, Req>, f: Fault)
    : World<Spec, Ext, Req>
  {
    if Looks(w.flight) then w.(flight := Look(k, w, f))
    else if Writes(w.flight) then Write(w, f)
    else Order(w, f)
  }

  function Step<Spec, Ext, Req>(k: Kind<Spec, Ext, Req>, w: World<Spec, Ext, Req>, a: Action<Spec, Ext, Req>)
    : World<Spec, Ext, Req>
  {
    match a
    case Others(e) => EnvStep(w, e)
    case Call(f) => CallStep(k, w, f)
    case Crash => End(w, w.store, false)
  }

  function StepOf<Spec, Ext, Req>(k: Kind<Spec, Ext, Req>)
    : (World<Spec, Ext, Req>, Action<Spec, Ext, Req>) -> World<Spec, Ext, Req>
  {
    (w: World<Spec, Ext, Req>, a: Action<Spec, Ext, Req>) => Step(k, w, a)
  }

  function Exec<Spec, Ext, Req>(k: Kind<Spec, Ext, Req>, w: World<Spec, Ext, Req>, acts: seq<Action<Spec, Ext, Req>>)
    : World<Spec, Ext, Req>
  {
    Fold(StepOf(k), w, acts)
  }
}
