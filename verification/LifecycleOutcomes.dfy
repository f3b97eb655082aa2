/** What each call of the shared lifecycle leads to, for every fault, and what a stored status proves. */
module LifecycleOutcomes {
  import opened Base
  import opened Client
  import opened Kube
  import opened Passes
  import opened Lifecycle

  /** The record is there for the owner that asks for it. */
  predicate There<R>(recs: map<Id, Rec<R>>, owner: Option<Id>, id: Id) {
    id in recs && recs[id].owner == owner
  }

  // ---- One call ----

  /** A pass starts if and only if the resource is read and exists. */
  lemma FetchOutcome<S, E, R>(k: Kind<S, E, R>, w: World<S, E, R>, f: Fault)
    requires w.flight.Idle?
    ensures CallStep(k, w, f).flight ==
            if f.Served? && w.store.obj.Some? then Connecting(w.store.obj.value) else Idle
  {
  }

  /** With the client in hand: finalize a marked resource, adopt one without finalizer, or go on. */
  lemma ConnectOutcome<S, E, R>(k: Kind<S, E, R>, w: World<S, E, R>, f: Fault)
    requires w.flight.Connecting?
    ensures var b := w.flight.base;
            CallStep(k, w, f).flight ==
            if !f.Served? then Noting(b, b.status.(ready := NotReady(ClientError)))
            else if !b.deleting then (if b.finalizer then Preparing(b) else Adopting(b))
            else if !b.finalizer then Idle
            else if b.status.id.Some? && (k.owned ==> b.status.owner.Some?) then
              Deleting(b, b.status.owner, b.status.id.value)
            else Releasing(b)
  {
  }

  /** Adopting: the pass goes on with what is now stored if and only if the write was served and landed. */
  lemma AdoptOutcome<S, E, R>(k: Kind<S, E, R>, w: World<S, E, R>, f: Fault)
    requires w.flight.Adopting? && Tracks(w.store, w.flight.base) && !w.flight.base.deleting
    ensures var w' := CallStep(k, w, f);
            if f.Served? && Lands(w.store, w.flight.base, f)
            then w'.store.obj.Some? && w'.flight == Preparing(w'.store.obj.value) && w'.store.obj.value.finalizer
            else w'.flight.Idle?
  {
    FinalizerWriteOutcome(w.store, w.flight.base, true, f);
  }

  /** With the request in hand: create when no id is stored, update the stored one otherwise. */
  lemma PrepareOutcome<S, E, R>(k: Kind<S, E, R>, w: World<S, E, R>, f: Fault)
    requires w.flight.Preparing?
    ensures var b, p := w.flight.base, k.prep(w.flight.base.spec, w.ext, f);
            CallStep(k, w, f).flight ==
            if p.Blocked? then Noting(b, b.status.(ready := NotReady(p.reason)))
            else if b.status.id.None? then Creating(b, b.status.(owner := p.owner), p.req)
            else Updating(b, b.status.(owner := p.owner), p.req, b.status.id.value)
  {
  }

  /** A create: Ready with the new id if and only if it is served; else the failure is noted. */
  lemma CreateOutcome<S, E, R>(k: Kind<S, E, R>, w: World<S, E, R>, f: Fault)
    requires w.flight.Creating?
    ensures var w', fl := CallStep(k, w, f), w.flight;
            && w'.store == w.store && !w'.flight.Idle? && w'.flight.base == fl.base
            && (w'.flight.Saving? <==> f.Served?) && (w'.flight.Noting? <==> !f.Served?)
            && w'.flight.status ==
               Status(fl.status.owner, if f.Served? then Some(w.nextId) else fl.status.id,
                      if f.Served? then IsReady else NotReady(CreateFailed))
            && w'.recs == (if f.Served? || f.Lost? then w.recs[w.nextId := Rec(fl.status.owner, fl.req)] else w.recs)
  {
  }

  /**
   * An update: Ready if and only if it is served and the record is there; the id is dropped if and
   * only if it is served and the record is absent; every other outcome is noted and keeps the id.
   */
  lemma UpdateOutcome<S, E, R>(k: Kind<S, E, R>, w: World<S, E, R>, f: Fault)
    requires w.flight.Updating?
    ensures var w', fl := CallStep(k, w, f), w.flight;
            var there := There(w.recs, fl.status.owner, fl.id);
            && w'.store == w.store && !w'.flight.Idle? && w'.flight.base == fl.base
            && (w'.flight.Saving? <==> f.Served? && there) && (w'.flight.Noting? <==> !(f.Served? && there))
            && w'.flight.status ==
               Status(fl.status.owner, if f.Served? && !there then None else fl.status.id,
                      if !f.Served? then NotReady(UpdateFailed) else if there then IsReady else NotReady(NotFound))
            && w'.recs == (if (f.Served? || f.Lost?) && there then w.recs[fl.id := Rec(fl.status.owner, fl.req)]
                           else w.recs)
  {
    DeleteSettled(f, if There(w.recs, w.flight.status.owner, w.flight.id) then 200 else 404);
    hide ErrorOf;
  }

  /** A delete: the record goes exactly when the request arrives and it is there; a served one lets the pass go on. */
  lemma DeleteOutcome<S, E, R>(k: Kind<S, E, R>, w: World<S, E, R>, f: Fault)
    requires w.flight.Deleting?
    ensures var w', fl := CallStep(k, w, f), w.flight;
            && w'.store == w.store && w'.flight == (if f.Served? then Releasing(fl.base) else Idle)
            && w'.recs == (if (f.Served? || f.Lost?) && There(w.recs, fl.owner, fl.id) then w.recs - {fl.id}
                           else w.recs)
  {
    DeleteSettled(f, if There(w.recs, w.flight.owner, w.flight.id) then 204 else 404);
    hide ErrorOf;
  }

  /** What the pass has seen when it notes a failure. */
  ghost predicate Explains<S, E, R>(k: Kind<S, E, R>, w: World<S, E, R>, f: Fault, reason: Reason) {
    match w.flight
    case Connecting(_) => !f.Served? && reason == ClientError
    case Preparing(b) => k.prep(b.spec, w.ext, f) == Blocked(reason)
    case Creating(_, _, _) => !f.Served? && reason == CreateFailed
    case Updating(_, status, _, id) =>
      if f.Served? then !There(w.recs, status.owner, id) && reason == NotFound else reason == UpdateFailed
    case _ => false
  }

  lemma LookNotedIff<S, E, R>(k: Kind<S, E, R>, w: World<S, E, R>, f: Fault, reason: Reason)
    requires Looks(w.flight)
    ensures var fl := Look(k, w, f);
            (fl.Noting? && fl.status.ready == NotReady(reason) <==> Explains(k, w, f, reason)) && !fl.Saving?
  {
  }

  lemma OthersNoteNothing<S, E, R>(k: Kind<S, E, R>, w: World<S, E, R>, f: Fault)
    requires w.flight.Deleting? || w.flight.Releasing? || w.flight.Adopting? || w.flight.Saving?
    ensures !CallStep(k, w, f).flight.Noting? && !CallStep(k, w, f).flight.Saving?
  {
    hide SaveStatus, SaveFinalizer, Deleted, DeleteRec;
  }

  /** A call leads to a noted failure exactly when its outcome explains the reason given. */
  lemma NotedIff<S, E, R>(k: Kind<S, E, R>, w: World<S, E, R>, f: Fault, reason: Reason)
    requires !w.flight.Noting?
    ensures var w' := CallStep(k, w, f);
            w'.flight.Noting? && w'.flight.status.ready == NotReady(reason) <==> Explains(k, w, f, reason)
  {
    if Looks(w.flight) {
      LookNotedIff(k, w, f, reason);
      hide Look, Explains;
    } else if w.flight.Updating? {
      UpdateOutcome(k, w, f);
      hide CallStep;
    } else if w.flight.Creating? {
      CreateOutcome(k, w, f);
      hide CallStep;
    } else {
      OthersNoteNothing(k, w, f);
      hide CallStep;
    }
  }

  /** The call that writes record c for this base, and the server's answer that it did. */
  ghost predicate ServesWrite<S, E, R>(w: World<S, E, R>, f: Fault, b: Resource<S>, status: Status, c: Id) {
    && f.Served? && status.id == Some(c) && status.ready == IsReady
    && ((w.flight.Creating? && w.flight.base == b && w.flight.status.owner == status.owner && c == w.nextId) ||
        (w.flight.Updating? && w.flight.base == b && w.flight.status.owner == status.owner && c == w.flight.id &&
         w.flight.status.id == Some(c) && There(w.recs, status.owner, c)))
  }

  lemma SavingEntry<S, E, R>(k: Kind<S, E, R>, w: World<S, E, R>, f: Fault)
    requires CallStep(k, w, f).flight.Saving? && (w.flight.Updating? ==> w.flight.status.id == Some(w.flight.id))
    ensures var w' := CallStep(k, w, f);
            && w'.flight.status.id.Some?
            && ServesWrite(w, f, w'.flight.base, w'.flight.status, w'.flight.status.id.value)
            && w'.recs == w.recs[w'.flight.status.id.value := Rec(w'.flight.status.owner, w.flight.req)]
  {
    if w.flight.Updating? {
      UpdateOutcome(k, w, f);
    } else if w.flight.Creating? {
      CreateOutcome(k, w, f);
    } else if Looks(w.flight) {
      LookNotedIff(k, w, f, NotFound);
      hide Look;
      assert false;
    } else if w.flight.Noting? {
    } else {
      OthersNoteNothing(k, w, f);
    }
    hide CallStep;
  }

  /** A write is begun only with the request the lookups yielded: an update when an id is stored. */
  lemma OrderEntry<S, E, R>(k: Kind<S, E, R>, w: World<S, E, R>, f: Fault)
    requires CallStep(k, w, f).flight.Creating? || CallStep(k, w, f).flight.Updating?
    ensures var fl := CallStep(k, w, f).flight;
            && w.flight == Preparing(fl.base)
            && k.prep(fl.base.spec, w.ext, f) == Build(fl.status.owner, fl.req)
            && (fl.Updating? <==> fl.base.status.id.Some?)
            && (fl.Updating? ==> Some(fl.id) == fl.base.status.id == fl.status.id)
  {
    hide SaveStatus, SaveFinalizer, Deleted, DeleteRec, ErrorOf, PutRecord, Accepts;
  }

  // ---- Over runs ----

  /** The pass works on a copy of what is stored, and what it notes is a failure. */
  ghost predicate Sound<S, E, R>(w: World<S, E, R>) {
    && Fresh(w.store)
    && (!w.flight.Idle? ==> Tracks(w.store, w.flight.base))
    && (w.flight.Updating? ==> w.flight.status.id == Some(w.flight.id))
    && (w.flight.Noting? ==> w.flight.status.ready.NotReady?)
  }

  lemma CallKeepsSound<S, E, R>(k: Kind<S, E, R>, w: World<S, E, R>, f: Fault)
    requires Sound(w)
    ensures Sound(CallStep(k, w, f))
  {
    hide Look, Order, DeleteRec, Deleted, PutRecord;
    if Looks(w.flight) {
      LookKeepsSound(k, w, f);
    } else if !Writes(w.flight) {
      OrderKeepsSound(k, w, f);
      hide Sound;
    }
  }

  lemma LookKeepsSound<S, E, R>(k: Kind<S, E, R>, w: World<S, E, R>, f: Fault)
    requires Sound(w) && Looks(w.flight)
    ensures Sound(w.(flight := Look(k, w, f)))
  {
  }

  lemma OrderKeepsSound<S, E, R>(k: Kind<S, E, R>, w: World<S, E, R>, f: Fault)
    requires Sound(w) && !Looks(w.flight) && !Writes(w.flight)
    ensures Sound(Order(w, f))
  {
    hide ErrorOf, DeleteRec, PutRecord, Deleted, Present;
  }

  lemma StepKeepsSound<S, E, R>(k: Kind<S, E, R>, w: World<S, E, R>, a: Action<S, E, R>)
    requires Sound(w)
    ensures Sound(Step(k, w, a))
  {
    match a {
      case Others(e) =>
        if e.Change? {
          EditKeeps(w.store, e.edit, Blank);
        }
        hide Edited, Tracks;
      case Crash =>
      case Call(f) => CallKeepsSound(k, w, f);
    }
  }

  lemma RunKeepsSound<S(!new), E(!new), R(!new)>(k: Kind<S, E, R>, w: World<S, E, R>, acts: seq<Action<S, E, R>>)
    requires Sound(w)
    ensures Sound(Exec(k, w, acts))
  {
    forall v, a | Sound(v)
      ensures Sound(Step(k, v, a))
    {
      StepKeepsSound(k, v, a);
    }
    hide Sound, Step;
    FoldKeeps(StepOf(k), w, acts, (v: World<S, E, R>) => Sound(v));
  }

  /** No resource yet, and no pass under way. */
  ghost predicate Starts<S, E, R>(w: World<S, E, R>) {
    w.store.obj.None? && w.flight.Idle?
  }

  ghost predicate StoredStatus<S, E, R>(w: World<S, E, R>, st: Status) {
    w.store.obj.Some? && w.store.obj.value.status == st
  }

  /** The step stores the status the pass has arrived at. */
  ghost predicate Stores<S, E, R>(w: World<S, E, R>, a: Action<S, E, R>, st: Status) {
    && a.Call? && (w.flight.Saving? || w.flight.Noting?) && w.flight.status == st
    && Accepts(w.store, w.flight.base, a.fault)
  }

  lemma StoredEntry<S, E, R>(k: Kind<S, E, R>, w: World<S, E, R>, a: Action<S, E, R>, st: Status)
    requires Sound(w) && !StoredStatus(w, st) && StoredStatus(Step(k, w, a), st) && st != Blank
    ensures Stores(w, a, st)
  {
    if a.Call? && !Writes(w.flight) {
      hide Look, CreateNext, UpdateNext, DeleteNext, DeleteRec, PutRecord;
      assert false;
    }
  }

  ghost function At<S, E, R>(k: Kind<S, E, R>, w0: World<S, E, R>, acts: seq<Action<S, E, R>>, i: nat): World<S, E, R>
    requires i <= |acts|
  {
    Exec(k, w0, acts[..i])
  }

  /** From after step i up to n the pass under way stays where it is at n. */
  ghost predicate Stays<S, E, R>(k: Kind<S, E, R>, w0: World<S, E, R>, acts: seq<Action<S, E, R>>, i: nat, n: nat) {
    Passes.Stays(StepOf(k), (w: World<S, E, R>) => w.flight, w0, acts, i, n)
  }

  lemma EnteredBefore<S(!new), E(!new), R(!new)>(k: Kind<S, E, R>, w0: World<S, E, R>, acts: seq<Action<S, E, R>>,
                                                 n: nat)
    returns (i: nat)
    requires w0.flight.Idle? && n <= |acts| && !At(k, w0, acts, n).flight.Idle?
    ensures Stays(k, w0, acts, i, n) && At(k, w0, acts, i).flight != At(k, w0, acts, n).flight
    ensures CallStep(k, At(k, w0, acts, i), acts[i].fault).flight == At(k, w0, acts, n).flight
  {
    hide CallStep;
    i := Passes.EnteredBefore(StepOf(k), (w: World<S, E, R>) => w.flight, Idle, w0, acts, n);
  }

  /** The call before a status write that is to say Ready. */
  lemma ServedBefore<S(!new), E(!new), R(!new)>(k: Kind<S, E, R>, w0: World<S, E, R>, acts: seq<Action<S, E, R>>,
                                                n: nat)
    returns (i: nat)
    requires Starts(w0) && n <= |acts| && At(k, w0, acts, n).flight.Saving?
    ensures Stays(k, w0, acts, i, n)
    ensures var fl, w := At(k, w0, acts, n).flight, At(k, w0, acts, i);
            && fl.status.id.Some? && ServesWrite(w, acts[i].fault, fl.base, fl.status, fl.status.id.value)
            && CallStep(k, w, acts[i].fault).recs
               == w.recs[fl.status.id.value := Rec(fl.status.owner, w.flight.req)]
  {
    i := EnteredBefore(k, w0, acts, n);
    RunKeepsSound(k, w0, acts[..i]);
    var w := At(k, w0, acts, i);
    assert w.flight.Updating? ==> w.flight.status.id == Some(w.flight.id);
    hide Sound, CallStep, Exec;
    SavingEntry(k, w, acts[i].fault);
  }

  /** The lookups before a create or an update. */
  lemma PreparedBefore<S(!new), E(!new), R(!new)>(k: Kind<S, E, R>, w0: World<S, E, R>, acts: seq<Action<S, E, R>>,
                                                  i: nat)
    returns (h: nat)
    requires Starts(w0) && i <= |acts| && (At(k, w0, acts, i).flight.Creating? || At(k, w0, acts, i).flight.Updating?)
    ensures Stays(k, w0, acts, h, i)
    ensures var fl, w := At(k, w0, acts, i).flight, At(k, w0, acts, h);
            && w.flight == Preparing(fl.base)
            && k.prep(fl.base.spec, w.ext, acts[h].fault) == Build(fl.status.owner, fl.req)
  {
    h := EnteredBefore(k, w0, acts, i);
    hide CallStep, Exec;
    OrderEntry(k, At(k, w0, acts, h), acts[h].fault);
  }

  /**
   * In every run: a resource stored as Ready was stored so, at a step n, by a pass whose last call
   * before, at step i, was a create or update of the record with the stored id, and the server
   * served it; what that call sent is what the lookups, at step h, yielded for the spec the pass
   * had read.
   */
  lemma ReadyWasServed<S(!new), E(!new), R(!new)>(k: Kind<S, E, R>, w0: World<S, E, R>, acts: seq<Action<S, E, R>>,
                                                  st: Status) returns (h: nat, i: nat, n: nat)
    requires Starts(w0) && StoredStatus(Exec(k, w0, acts), st) && st.ready.IsReady?
    ensures n < |acts| && Stores(At(k, w0, acts, n), acts[n], st)
    ensures Stays(k, w0, acts, i, n) && st.id.Some?
    ensures var fl, w := At(k, w0, acts, n).flight, At(k, w0, acts, i);
            && ServesWrite(w, acts[i].fault, fl.base, st, st.id.value)
            && CallStep(k, w, acts[i].fault).recs == w.recs[st.id.value := Rec(st.owner, w.flight.req)]
    ensures Stays(k, w0, acts, h, i)
    ensures var b := At(k, w0, acts, n).flight.base;
            && At(k, w0, acts, h).flight == Preparing(b)
            && k.prep(b.spec, At(k, w0, acts, h).ext, acts[h].fault)
               == Build(st.owner, At(k, w0, acts, i).flight.req)
  {
    n := StoredBy(k, w0, acts, st);
    RunKeepsSound(k, w0, acts[..n]);
    assert At(k, w0, acts, n).flight.Saving?;
    hide Sound, Step, CallStep, Exec;
    i := ServedBefore(k, w0, acts, n);
    h := PreparedBefore(k, w0, acts, i);
  }

  lemma StoredBy<S(!new), E(!new), R(!new)>(k: Kind<S, E, R>, w0: World<S, E, R>, acts: seq<Action<S, E, R>>,
                                            st: Status) returns (n: nat)
    requires Starts(w0) && StoredStatus(Exec(k, w0, acts), st) && st != Blank
    ensures n < |acts| && Stores(At(k, w0, acts, n), acts[n], st)
  {
    n := Since(StepOf(k), w0, acts, (w: World<S, E, R>) => StoredStatus(w, st));
    RunKeepsSound(k, w0, acts[..n]);
    StoredEntry(k, At(k, w0, acts, n), acts[n], st);
  }

  /**
   * In every run: a stored failure was stored, at a step n, by a pass whose last call before, at
   * step i, had exactly the outcome the reason stands for.
   */
  lemma FailureWasSeen<S(!new), E(!new), R(!new)>(k: Kind<S, E, R>, w0: World<S, E, R>, acts: seq<Action<S, E, R>>,
                                                  st: Status) returns (i: nat, n: nat)
    requires Starts(w0) && StoredStatus(Exec(k, w0, acts), st) && st.ready.NotReady?
    ensures n < |acts| && Stores(At(k, w0, acts, n), acts[n], st)
    ensures Stays(k, w0, acts, i, n) && Explains(k, At(k, w0, acts, i), acts[i].fault, st.ready.reason)
  {
    n := StoredBy(k, w0, acts, st);
    i := EnteredBefore(k, w0, acts, n);
    var w := At(k, w0, acts, i);
    RunKeepsSound(k, w0, acts[..i]);
    hide CallStep, Exec, Explains;
    if w.flight.Noting? {
      NotingEnds(k, w, acts[i].fault);
      assert false;
    } else if At(k, w0, acts, n).flight.Saving? {
      hide Sound;
      SavedIsReady(k, w, acts[i].fault);
      assert false;
    } else {
      hide Sound;
      NotedIff(k, w, acts[i].fault, st.ready.reason);
    }
  }

  lemma SavedIsReady<S, E, R>(k: Kind<S, E, R>, w: World<S, E, R>, f: Fault)
    requires CallStep(k, w, f).flight.Saving?
    requires w.flight.Updating? ==> w.flight.status.id == Some(w.flight.id)
    ensures CallStep(k, w, f).flight.status.ready.IsReady?
  {
    SavingEntry(k, w, f);
    hide CallStep;
  }

  lemma NotingEnds<S, E, R>(k: Kind<S, E, R>, w: World<S, E, R>, f: Fault)
    requires w.flight.Noting?
    ensures CallStep(k, w, f).flight.Idle?
  {
  }
}
