/** Tickets: immutable, created once; the admission webhook and the controller as a state machine. */
module Ticket {
  import opened Base
  import opened Client
  import opened Kube
  import opened Passes

  datatype Spec = Spec(connectionRef: string, username: string, targetName: string, expiry: string,
                       numberOfUses: Option<int>, description: string)

  datatype Status = Status(ticketID: Option<Id>, secretRef: bool, ready: Ready)

  const Blank := Status(None, false, Unset)

  type Resource = Obj<Spec, Status>

  datatype Request = Request(username: string, targetName: string, expiry: string,
                             numberOfUses: Option<int>, description: string)

  function RequestOf(s: Spec): Request {
    Request(s.username, s.targetName, s.expiry, s.numberOfUses, s.description)
  }

  // ---- Admission ----

  datatype Verdict = Allowed(warn: bool) | EmptyConnection | BadUses | Immutable

  function ValidateSpec(s: Spec): Verdict {
    if s.connectionRef == "" then EmptyConnection
    else if s.numberOfUses.Some? && s.numberOfUses.value <= 0 then BadUses
    else Allowed(s.username == "" && s.targetName == "")
  }

  /** A ticket is admitted exactly when its connection is named and its uses, if given, are positive. */
  lemma CreateAdmittedIff(s: Spec)
    ensures ValidateSpec(s).Allowed? <==>
            s.connectionRef != "" && (s.numberOfUses == None || s.numberOfUses.value >= 1)
    ensures ValidateSpec(s).EmptyConnection? <==> s.connectionRef == ""
    ensures ValidateSpec(s) == Allowed(true) <==>
            ValidateSpec(s).Allowed? && s.username == "" && s.targetName == ""
  {
  }

  /** ticketSpecEqual, comparing field by field and the optional number last. */
  predicate TicketSpecEqual(a: Spec, b: Spec) {
    if a.connectionRef != b.connectionRef then false
    else if a.username != b.username then false
    else if a.targetName != b.targetName then false
    else if a.expiry != b.expiry then false
    else if a.description != b.description then false
    else if a.numberOfUses.None? && b.numberOfUses.None? then true
    else if a.numberOfUses.None? || b.numberOfUses.None? then false
    else a.numberOfUses.value == b.numberOfUses.value
  }

  function ValidateUpdate(was: Spec, now: Spec): Verdict {
    if TicketSpecEqual(was, now) then Allowed(false) else Immutable
  }

  /** An update is admitted exactly when it leaves all six fields as they were. */
  lemma UpdateAdmittedIffUnchanged(was: Spec, now: Spec)
    ensures ValidateUpdate(was, now).Allowed? <==> was == now
    ensures ValidateUpdate(was, now) in {Allowed(false), Immutable}
  {
  }

  /** The API server applies an edit only when the webhook admits it. */
  function Admitted(s: Store<Spec, Status>, e: Edit<Spec>): Store<Spec, Status> {
    var ok :=
      match (e, s.obj)
      case (Apply(spec), None) => ValidateSpec(spec).Allowed?
      case (EditSpec(spec), Some(o)) => ValidateUpdate(o.spec, spec).Allowed?
      case _ => true;
    if ok then Edited(s, e, Blank) else s
  }

  /** Deletions always pass; a creation or a change passes exactly when the webhook admits it. */
  lemma AdmittedIff(s: Store<Spec, Status>, e: Edit<Spec>)
    ensures Admitted(s, e) ==
            if e.Apply? && s.obj.None? && !(e.spec.connectionRef != "" &&
                                            (e.spec.numberOfUses.Some? ==> e.spec.numberOfUses.value >= 1)) then s
            else if e.EditSpec? && s.obj.Some? && e.spec != s.obj.value.spec then s
            else Edited(s, e, Blank)
  {
    hide Edited;
  }

  // ---- The controller ----

  datatype Flight =
    | Idle
    | Connecting(base: Resource)
    | Deleting(base: Resource, id: Id)
    | Finding(base: Resource)
    | Dropping(base: Resource)
    | Releasing(base: Resource)
    | Adopting(base: Resource)
    | Creating(base: Resource)
    | Storing(base: Resource, status: Status)
    | Saving(base: Resource, status: Status)
    | Noting(base: Resource, status: Status)

  /**
   * The resource, the tickets in Warpgate, and the Secret of the ticket's name, holding the secret
   * value of the ticket with the given id. `made` and `lost` are bookkeeping: the requests behind
   * the tickets created for this resource, and the tickets whose creation it could not record.
   */
  datatype World = World(
    store: Store<Spec, Status>,
    tickets: map<Id, Request>,
    nextId: Id,
    secret: Option<Id>,
    made: map<Id, Request>,
    lost: set<Id>,
    flight: Flight)

  datatype Env =
    | Change(edit: Edit<Spec>)
    | AddTicket(req: Request)
    | DropTicket(id: Id)
    | SetSecret(secret: Option<Id>)

  type Action = Deed<Env>

  function EnvStep(w: World, e: Env): World {
    match e
    case Change(edit) => w.(store := Admitted(w.store, edit))
    case AddTicket(r) => w.(tickets := w.tickets[w.nextId := r], nextId := w.nextId + 1)
    case DropTicket(id) => w.(tickets := w.tickets - {id})
    case SetSecret(s) => w.(secret := s)
  }

  /** The ticket ids only the memory of the pass under way holds. */
  function Unsaved(f: Flight): set<Id> {
    if (f.Storing? || f.Saving? || f.Noting?) && f.status.ticketID.Some? && f.status.ticketID != f.base.status.ticketID
    then {f.status.ticketID.value}
    else {}
  }

  function End(w: World, store: Store<Spec, Status>, saved: bool): World {
    w.(store := store, lost := if saved then w.lost else w.lost + Unsaved(w.flight), flight := Idle)
  }

  function Note(b: Resource, status: Status, reason: Reason): Flight {
    Noting(b, status.(ready := NotReady(reason)))
  }

  function FetchNext(store: Store<Spec, Status>, f: Fault): Flight {
    if f.Served? && store.obj.Some? then Connecting(store.obj.value) else Idle
  }

  /** With the finalizer stored: create a ticket unless one is recorded. */
  function AfterAdopt(b: Resource): Flight {
    if b.status.ticketID.None? then Creating(b) else Saving(b, b.status.(ready := IsReady))
  }

  function AfterDelete(b: Resource): Flight {
    if b.status.secretRef then Finding(b) else Releasing(b)
  }

  function ConnectNext(b: Resource, f: Fault): Flight {
    if !f.Served? then Note(b, b.status, ClientError)
    else if b.deleting then
      if !b.finalizer then Idle
      else if b.status.ticketID.Some? then Deleting(b, b.status.ticketID.value)
      else AfterDelete(b)
    else if !b.finalizer then Adopting(b)
    else AfterAdopt(b)
  }

  predicate Deleted(tickets: map<Id, Request>, id: Id, f: Fault) {
    var err := ErrorOf(f, if id in tickets then 204 else 404);
    err.None? || IsNotFound(err)
  }

  function DeleteNext(tickets: map<Id, Request>, b: Resource, id: Id, f: Fault): Flight {
    if Deleted(tickets, id, f) then AfterDelete(b) else Idle
  }

  /** Reading the Secret before deleting it: any error, not only its absence, skips the delete. */
  function FindNext(secret: Option<Id>, b: Resource, f: Fault): Flight {
    if f.Served? && secret.Some? then Dropping(b) else Releasing(b)
  }

  function AdoptNext(store: Store<Spec, Status>, b: Resource, f: Fault): Flight {
    if Accepts(store, b, f) && f.Served? then AfterAdopt(b.(finalizer := true, rv := store.clock)) else Idle
  }

  function CreateNext(nextId: Id, b: Resource, f: Fault): Flight {
    if ErrorOf(f, 201).None? then Storing(b, b.status.(ticketID := Some(nextId)))
    else Note(b, b.status, CreateFailed)
  }

  /** Creating the Secret fails when there already is one of that name. */
  function StoreNext(secret: Option<Id>, b: Resource, status: Status, f: Fault): Flight {
    if f.Served? && secret.None? then Saving(b, status.(secretRef := true, ready := IsReady))
    else Note(b, status, SecretCreateFailed)
  }

  function Made(w: World, req: Request, flight: Flight): World {
    w.(tickets := w.tickets[w.nextId := req], made := w.made[w.nextId := req], nextId := w.nextId + 1,
       lost := if Unsaved(flight) == {} then w.lost + {w.nextId} else w.lost, flight := flight)
  }

  predicate Looks(f: Flight) {
    f.Idle? || f.Connecting? || f.Finding?
  }

  function Look(w: World, f: Fault): Flight
    requires Looks(w.flight)
  {
    match w.flight
    case Idle => FetchNext(w.store, f)
    case Connecting(b) => ConnectNext(b, f)
    case Finding(b) => FindNext(w.secret, b, f)
  }

  predicate Writes(f: Flight) {
    f.Releasing? || f.Adopting? || f.Saving? || f.Noting?
  }

  function Write(w: World, f: Fault): World
    requires Writes(w.flight)
  {
    match w.flight
    case Releasing(b) => w.(store := SaveFinalizer(w.store, b, false, f), flight := Idle)
    case Adopting(b) => w.(store := SaveFinalizer(w.store, b, true, f), flight := AdoptNext(w.store, b, f))
    case Saving(b, status) => End(w, SaveStatus(w.store, b, status, f), Accepts(w.store, b, f))
    case Noting(b, status) => End(w, SaveStatus(w.store, b, status, f), Accepts(w.store, b, f))
  }

  /** The calls that write Warpgate or the Secret. */
  function Order(w: World, f: Fault): World
    requires !Looks(w.flight) && !Writes(w.flight)
  {
    match w.flight
    case Deleting(b, id) =>
      w.(tickets := if TakesEffect(f) then w.tickets - {id} else w.tickets, flight := DeleteNext(w.tickets, b, id, f))
    case Dropping(b) =>
      w.(secret := if TakesEffect(f) then None else w.secret, flight := if f.Served? then Releasing(b) else Idle)
    case Creating(b) =>
      if TakesEffect(f) then Made(w, RequestOf(b.spec), CreateNext(w.nextId, b, f))
      else w.(flight := CreateNext(w.nextId, b, f))
    case Storing(b, status) =>
      w.(secret := if TakesEffect(f) && w.secret.None? then status.ticketID else w.secret,
         flight := StoreNext(w.secret, b, status, f))
  }

  function CallStep(w: World, f: Fault): World {
    if Looks(w.flight) then w.(flight := Look(w, f))
    else if Writes(w.flight) then Write(w, f)
    else Order(w, f)
  }

  function Step(w: World, a: Action): World {
    match a
    case Others(e) => EnvStep(w, e)
    case Call(f) => CallStep(w, f)
    case Crash => End(w, w.store, false)
  }

  function Exec(w: World, acts: seq<Action>): World {
    Fold(Step, w, acts)
  }
}
