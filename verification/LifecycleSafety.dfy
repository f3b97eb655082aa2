/** What every run of the shared lifecycle keeps, while the owner its records live under stays one. */
module LifecycleSafety {
  import opened Base
  import opened Client
  import opened Kube
  import opened Passes
  import opened Lifecycle

  /** Whatever the lookups yield for an allowed spec, the owner is u; owned kinds have an owner. */
  ghost predicate Steady<S(!new), E, R>(k: Kind<S, E, R>, ok: S -> bool, ext: E, u: Option<Id>) {
    && (k.owned ==> u.Some?)
    && forall s: S, f :: ok(s) && k.prep(s, ext, f).Build? ==> k.prep(s, ext, f).owner == u
  }

  ghost predicate Allowed<S(!new), E, R>(k: Kind<S, E, R>, e: Env<S, E, R>, ok: S -> bool, u: Option<Id>) {
    match e
    case Change(Apply(spec)) => ok(spec)
    case Change(EditSpec(spec)) => ok(spec)
    case SetExt(ext) => Steady(k, ok, ext, u)
    case _ => true
  }

  ghost predicate AllowedRun<S(!new), E, R>(k: Kind<S, E, R>, acts: seq<Action<S, E, R>>,
                                                   ok: S -> bool, u: Option<Id>)
  {
    forall i :: 0 <= i < |acts| && acts[i].Others? ==> Allowed(k, acts[i].env, ok, u)
  }

  ghost predicate StatusOk<S, E, R>(w: World<S, E, R>, st: Status, u: Option<Id>) {
    && (st.owner.Some? ==> st.owner == u)
    && (st.id.Some? ==> st.owner == u && st.id.value in w.made)
  }

  ghost predicate ObjOk<S, E, R>(w: World<S, E, R>, o: Resource<S>, ok: S -> bool, u: Option<Id>) {
    ok(o.spec) && StatusOk(w, o.status, u) && (!o.finalizer ==> o.status.id.None?)
  }

  ghost predicate LedgerOk<S, E, R>(w: World<S, E, R>, u: Option<Id>) {
    && (forall c :: c in w.recs ==> c < w.nextId)
    && (forall c :: c in w.made ==> c < w.nextId && w.made[c] == u)
    && (forall c :: c in w.made && c in w.recs ==> w.recs[c].owner == u)
    && (forall c :: c in w.lost ==> c in w.made)
  }

  ghost predicate Stored<S, E, R>(w: World<S, E, R>, c: Id) {
    w.store.obj.Some? && w.store.obj.value.status.id == Some(c)
  }

  /** Each live record this resource ever created is stored, about to be stored, or given up. */
  ghost predicate Accounted<S, E, R>(w: World<S, E, R>) {
    forall c :: c in w.made && c in w.recs ==> Stored(w, c) || c in w.lost || c in Unsaved(w.flight)
  }

  /** The record stored before the pass is gone once the pass works with another one or none. */
  ghost predicate Superseded<S, E, R>(w: World<S, E, R>, b: Resource<S>, status: Status) {
    b.status.id.Some? && b.status.id != status.id ==> b.status.id.value !in w.recs
  }

  ghost predicate Held<S, E, R>(w: World<S, E, R>, b: Resource<S>, ok: S -> bool, u: Option<Id>) {
    Tracks(w.store, b) && ObjOk(w, b, ok, u)
  }

  ghost predicate FlightOk<S, E, R>(w: World<S, E, R>, owned: bool, ok: S -> bool, u: Option<Id>) {
    match w.flight
    case Idle => true
    case Connecting(b) => Held(w, b, ok, u)
    case Deleting(b, owner, id) =>
      Held(w, b, ok, u) && b.finalizer && b.deleting && owner == u && b.status.id == Some(id)
    case Releasing(b) =>
      Held(w, b, ok, u) && b.finalizer && b.deleting && (b.status.id.Some? ==> b.status.id.value !in w.recs)
    case Adopting(b) => Held(w, b, ok, u) && !b.finalizer && !b.deleting
    case Preparing(b) => Held(w, b, ok, u) && b.finalizer && !b.deleting
    case Creating(b, status, _) =>
      Held(w, b, ok, u) && b.finalizer && !b.deleting && status.owner == u && status.id.None? && b.status.id.None?
    case Updating(b, status, _, id) =>
      && Held(w, b, ok, u) && b.finalizer && !b.deleting && status.owner == u
      && status.id == Some(id) && b.status.id == Some(id)
    case Saving(b, status) =>
      && Held(w, b, ok, u) && b.finalizer && StatusOk(w, status, u) && Superseded(w, b, status)
      && status.ready.IsReady? && status.id.Some?
    case Noting(b, status) =>
      && Held(w, b, ok, u) && StatusOk(w, status, u) && Superseded(w, b, status)
      && status.ready.NotReady? && (status.id.Some? ==> status.id == b.status.id)
  }

  ghost predicate Core<S(!new), E, R>(k: Kind<S, E, R>, w: World<S, E, R>, ok: S -> bool, u: Option<Id>) {
    && Steady(k, ok, w.ext, u)
    && Fresh(w.store)
    && LedgerOk(w, u)
    && (w.store.obj.Some? ==> ObjOk(w, w.store.obj.value, ok, u))
    && Accounted(w)
  }

  ghost predicate Inv<S(!new), E, R>(k: Kind<S, E, R>, w: World<S, E, R>, ok: S -> bool, u: Option<Id>) {
    Core(k, w, ok, u) && FlightOk(w, k.owned, ok, u)
  }

  /** A world before the resource exists: nothing created for it yet. */
  ghost predicate Initial<S(!new), E, R>(k: Kind<S, E, R>, w: World<S, E, R>, ok: S -> bool, u: Option<Id>) {
    && w.store.obj.None? && w.flight.Idle? && w.made == map[] && w.lost == {}
    && Steady(k, ok, w.ext, u)
    && (forall c :: c in w.recs ==> c < w.nextId)
  }

  lemma ChangeKeeps<S(!new), E, R>(k: Kind<S, E, R>, w: World<S, E, R>, edit: Edit<S>, ok: S -> bool, u: Option<Id>)
    requires Inv(k, w, ok, u) && Allowed(k, Change(edit), ok, u)
    ensures Inv(k, EnvStep(w, Change(edit)), ok, u)
  {
    EditKeeps(w.store, edit, Blank);
  }

  /** Lookups and records that others change leave the resource itself alone. */
  lemma ServerKeeps<S(!new), E, R>(k: Kind<S, E, R>, w: World<S, E, R>, w': World<S, E, R>, ok: S -> bool,
      u: Option<Id>)
    requires Inv(k, w, ok, u)
    requires w' == w.(recs := w'.recs, nextId := w'.nextId, ext := w'.ext)
    requires w.nextId <= w'.nextId && (forall c :: c in w'.recs ==> c < w'.nextId)
    requires forall c :: c in w'.recs && c < w.nextId ==> c in w.recs && w'.recs[c].owner == w.recs[c].owner
    requires Steady(k, ok, w'.ext, u)
    ensures Inv(k, w', ok, u)
  {
  }

  lemma EnvKeeps<S(!new), E, R>(k: Kind<S, E, R>, w: World<S, E, R>, e: Env<S, E, R>, ok: S -> bool, u: Option<Id>)
    requires Inv(k, w, ok, u) && Allowed(k, e, ok, u)
    ensures Inv(k, EnvStep(w, e), ok, u)
  {
    match e {
      case Change(edit) => ChangeKeeps(k, w, edit, ok, u);
      case _ => ServerKeeps(k, w, EnvStep(w, e), ok, u);
    }
  }

  /** A step that only moves the pass on needs the condition of where it arrives. */
  lemma Moves<S(!new), E, R>(k: Kind<S, E, R>, w: World<S, E, R>, flight: Flight<S, R>, ok: S -> bool, u: Option<Id>)
    requires Core(k, w, ok, u) && Unsaved(w.flight) == {}
    ensures Core(k, w.(flight := flight), ok, u)
  {
  }

  lemma LookKeeps<S(!new), E, R>(k: Kind<S, E, R>, w: World<S, E, R>, f: Fault, ok: S -> bool, u: Option<Id>)
    requires Inv(k, w, ok, u) && Looks(w.flight)
    ensures Inv(k, w.(flight := Look(k, w, f)), ok, u)
  {
    Moves(k, w, Look(k, w, f), ok, u);
    match w.flight {
      case Idle =>
      case Connecting(b) => ConnectKeeps(k, w, b, f, ok, u);
      case Preparing(b) => PrepareKeeps(k, w, b, k.prep(b.spec, w.ext, f), ok, u);
    }
  }

  lemma ConnectKeeps<S(!new), E, R>(k: Kind<S, E, R>, w: World<S, E, R>, b: Resource<S>, f: Fault,
      ok: S -> bool, u: Option<Id>)
    requires Core(k, w, ok, u) && Held(w, b, ok, u)
    ensures FlightOk(w.(flight := ConnectNext(k.owned, b, f)), k.owned, ok, u)
  {
    hide LedgerOk, Accounted;
  }

  lemma PrepareKeeps<S(!new), E, R>(k: Kind<S, E, R>, w: World<S, E, R>, b: Resource<S>, p: Prep<R>,
      ok: S -> bool, u: Option<Id>)
    requires Held(w, b, ok, u) && b.finalizer && !b.deleting
    requires p.Build? ==> p.owner == u
    ensures FlightOk(w.(flight := PrepareNext(b, p)), k.owned, ok, u)
  {
  }

  lemma ReleaseKeeps<S(!new), E, R>(k: Kind<S, E, R>, w: World<S, E, R>, f: Fault, ok: S -> bool, u: Option<Id>)
    requires Inv(k, w, ok, u) && w.flight.Releasing?
    ensures Inv(k, Write(w, f), ok, u)
  {
  }

  lemma AdoptKeeps<S(!new), E, R>(k: Kind<S, E, R>, w: World<S, E, R>, f: Fault, ok: S -> bool, u: Option<Id>)
    requires Inv(k, w, ok, u) && w.flight.Adopting?
    ensures Inv(k, Write(w, f), ok, u)
  {
  }

  lemma SaveKeeps<S(!new), E, R>(k: Kind<S, E, R>, w: World<S, E, R>, f: Fault, ok: S -> bool, u: Option<Id>)
    requires Inv(k, w, ok, u) && (w.flight.Saving? || w.flight.Noting?)
    ensures Inv(k, Write(w, f), ok, u)
  {
  }

  lemma WriteKeeps<S(!new), E, R>(k: Kind<S, E, R>, w: World<S, E, R>, f: Fault, ok: S -> bool, u: Option<Id>)
    requires Inv(k, w, ok, u) && Writes(w.flight)
    ensures Inv(k, Write(w, f), ok, u)
  {
    match w.flight {
      case Releasing(_) => ReleaseKeeps(k, w, f, ok, u);
      case Adopting(_) => AdoptKeeps(k, w, f, ok, u);
      case Saving(_, _) => SaveKeeps(k, w, f, ok, u);
      case Noting(_, _) => SaveKeeps(k, w, f, ok, u);
    }
  }

  /** A served delete of a recorded record leaves it gone, whether it was there or not. */
  lemma Gone<S, E, R>(w: World<S, E, R>, st: Status, id: Id, f: Fault, u: Option<Id>)
    requires StatusOk(w, st, u) && LedgerOk(w, u) && st.id == Some(id)
    ensures Deleted(w.recs, u, id, f) <==> f.Served?
    ensures Deleted(w.recs, u, id, f) ==> id !in DeleteRec(w.recs, u, id, f)
    ensures !Present(w.recs, u, id) ==> id !in w.recs
  {
    DeleteSettled(f, if Present(w.recs, u, id) then 204 else 404);
  }

  lemma DeleteKeeps<S(!new), E, R>(k: Kind<S, E, R>, w: World<S, E, R>, b: Resource<S>, id: Id, f: Fault,
      ok: S -> bool, u: Option<Id>)
    requires Inv(k, w, ok, u) && w.flight == Deleting(b, u, id)
    ensures Inv(k, Order(w, f), ok, u)
  {
    var w1 := w.(recs := DeleteRec(w.recs, u, id, f));
    var next := DeleteNext(w.recs, b, u, id, f);
    Gone(w, b.status, id, f, u);
    ServerKeeps(k, w, w1, ok, u);
    Moves(k, w1, next, ok, u);
    hide Core, StatusOk, Deleted, DeleteRec;
    assert Order(w, f) == w1.(flight := next);
  }

  lemma UpdateKeeps<S(!new), E, R>(k: Kind<S, E, R>, w: World<S, E, R>, b: Resource<S>, status: Status, req: R,
      id: Id, f: Fault, ok: S -> bool, u: Option<Id>)
    requires Inv(k, w, ok, u) && w.flight == Updating(b, status, req, id)
    ensures Inv(k, Order(w, f), ok, u)
  {
    var w1 := w.(recs := PutRecord(w.recs, u, id, req, f));
    var next := UpdateNext(w.recs, b, status, id, f);
    DeleteSettled(f, if Present(w.recs, u, id) then 200 else 404);
    Gone(w, b.status, id, f, u);
    ServerKeeps(k, w, w1, ok, u);
    Moves(k, w1, next, ok, u);
    hide Core, ErrorOf;
    assert Order(w, f) == w1.(flight := next);
  }

  /** The server made a record: the books still balance. */
  lemma MadeKeeps<S(!new), E, R>(k: Kind<S, E, R>, w: World<S, E, R>, r: Rec<R>, flight: Flight<S, R>,
      ok: S -> bool, u: Option<Id>)
    requires Core(k, w, ok, u) && Unsaved(w.flight) == {} && r.owner == u
    requires Unsaved(flight) == {} || Unsaved(flight) == {w.nextId}
    ensures Core(k, Made(w, r, flight), ok, u)
  {
  }

  lemma CreateKeeps<S(!new), E, R>(k: Kind<S, E, R>, w: World<S, E, R>, b: Resource<S>, status: Status, req: R,
      f: Fault, ok: S -> bool, u: Option<Id>)
    requires Inv(k, w, ok, u) && w.flight == Creating(b, status, req)
    ensures Inv(k, Order(w, f), ok, u)
  {
    var next := CreateNext(w.nextId, b, status, f);
    if TakesEffect(f) {
      MadeKeeps(k, w, Rec(u, req), next, ok, u);
      hide Core;
      assert Order(w, f) == Made(w, Rec(u, req), next);
    } else {
      Moves(k, w, next, ok, u);
      hide Core;
      assert Order(w, f) == w.(flight := next);
    }
  }

  lemma OrderKeeps<S(!new), E, R>(k: Kind<S, E, R>, w: World<S, E, R>, f: Fault, ok: S -> bool, u: Option<Id>)
    requires Inv(k, w, ok, u) && !Looks(w.flight) && !Writes(w.flight)
    ensures Inv(k, Order(w, f), ok, u)
  {
    match w.flight {
      case Deleting(b, _, id) => DeleteKeeps(k, w, b, id, f, ok, u);
      case Creating(b, status, req) => CreateKeeps(k, w, b, status, req, f, ok, u);
      case Updating(b, status, req, id) => UpdateKeeps(k, w, b, status, req, id, f, ok, u);
    }
  }

  lemma CallKeeps<S(!new), E, R>(k: Kind<S, E, R>, w: World<S, E, R>, f: Fault, ok: S -> bool, u: Option<Id>)
    requires Inv(k, w, ok, u)
    ensures Inv(k, CallStep(k, w, f), ok, u)
  {
    hide Inv, Look, Write, Order;
    if Looks(w.flight) {
      LookKeeps(k, w, f, ok, u);
    } else if Writes(w.flight) {
      WriteKeeps(k, w, f, ok, u);
    } else {
      OrderKeeps(k, w, f, ok, u);
    }
  }

  lemma CrashKeeps<S(!new), E, R>(k: Kind<S, E, R>, w: World<S, E, R>, ok: S -> bool, u: Option<Id>)
    requires Inv(k, w, ok, u)
    ensures Inv(k, Step(k, w, Crash), ok, u)
  {
  }

  lemma StepKeeps<S(!new), E, R>(k: Kind<S, E, R>, w: World<S, E, R>, a: Action<S, E, R>, ok: S -> bool, u: Option<Id>)
    requires Inv(k, w, ok, u) && (a.Others? ==> Allowed(k, a.env, ok, u))
    ensures Inv(k, Step(k, w, a), ok, u)
  {
    match a {
      case Others(e) => EnvKeeps(k, w, e, ok, u);
      case Crash => CrashKeeps(k, w, ok, u);
      case Call(f) => CallKeeps(k, w, f, ok, u);
    }
  }

  lemma RestAllowed<S(!new), E, R>(k: Kind<S, E, R>, acts: seq<Action<S, E, R>>, ok: S -> bool, u: Option<Id>)
    requires AllowedRun(k, acts, ok, u) && acts != []
    ensures acts[0].Others? ==> Allowed(k, acts[0].env, ok, u)
    ensures AllowedRun(k, acts[1..], ok, u)
  {
    assert forall i :: 0 <= i < |acts[1..]| ==> acts[1..][i] == acts[i + 1];
  }

  lemma {:induction false} RunKeeps<S(!new), E, R>(k: Kind<S, E, R>, w: World<S, E, R>,
                                                   acts: seq<Action<S, E, R>>, ok: S -> bool, u: Option<Id>)
    requires Inv(k, w, ok, u) && AllowedRun(k, acts, ok, u)
    ensures Inv(k, Exec(k, w, acts), ok, u)
    decreases |acts|
  {
    if acts != [] {
      RestAllowed(k, acts, ok, u);
      StepKeeps(k, w, acts[0], ok, u);
      RunKeeps(k, Step(k, w, acts[0]), acts[1..], ok, u);
    }
  }
}
