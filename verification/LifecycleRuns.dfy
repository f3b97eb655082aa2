/** Theorems over whole runs of the shared lifecycle: any interleaving, any fault, any crash. */
module LifecycleRuns {
  import opened Base
  import opened Client
  import opened Kube
  import opened Passes
  import opened Lifecycle
  import opened LifecycleSafety

  lemma InitialInv<S(!new), E, R>(k: Kind<S, E, R>, w0: World<S, E, R>, ok: S -> bool, u: Option<Id>)
    requires Initial(k, w0, ok, u)
    ensures Inv(k, w0, ok, u)
  {
  }

  /**
   * After any run a live record this resource ever created is the one in its stored status, or its
   * create reply or the status write after it was lost, or the pass under way still holds it. Once
   * the resource has been finalized only the lost ones remain.
   */
  lemma LiveRecordsAreAccounted<S(!new), E, R>(k: Kind<S, E, R>, w0: World<S, E, R>, acts: seq<Action<S, E, R>>,
                                               ok: S -> bool, u: Option<Id>)
    requires Initial(k, w0, ok, u) && AllowedRun(k, acts, ok, u)
    ensures var w := Exec(k, w0, acts);
            && (forall c :: c in w.made && c in w.recs ==> Stored(w, c) || c in w.lost || c in Unsaved(w.flight))
            && (w.flight.Idle? && w.store.obj.None? ==> forall c :: c in w.made && c in w.recs ==> c in w.lost)
  {
    InitialInv(k, w0, ok, u);
    RunKeeps(k, w0, acts, ok, u);
  }

  /** A step that loses a record: its create reply is lost, or the status naming it is not stored. */
  predicate Loses<S, E, R>(w: World<S, E, R>, a: Action<S, E, R>) {
    || (w.flight.Creating? && a == Call(Lost))
    || (Unsaved(w.flight) != {} &&
        match a
        case Others(_) => false
        case Crash => true
        case Call(f) => !Accepts(w.store, w.flight.base, f))
  }

  function Losses<S, E, R>(k: Kind<S, E, R>, w: World<S, E, R>, acts: seq<Action<S, E, R>>): nat
    decreases |acts|
  {
    if acts == [] then 0 else (if Loses(w, acts[0]) then 1 else 0) + Losses(k, Step(k, w, acts[0]), acts[1..])
  }

  lemma UnsavedIsOne<S, R>(f: Flight<S, R>)
    ensures Unsaved(f) == {} || exists c :: Unsaved(f) == {c}
  {
    if f.Saving? && f.status.id.Some? && f.status.id != f.base.status.id {
      assert Unsaved(f) == {f.status.id.value};
    }
  }

  lemma StepLosses<S(!new), E, R>(k: Kind<S, E, R>, w: World<S, E, R>, a: Action<S, E, R>, ok: S -> bool, u: Option<Id>)
    requires Inv(k, w, ok, u)
    ensures Step(k, w, a).lost == w.lost || (Loses(w, a) && exists c :: Step(k, w, a).lost == w.lost + {c})
  {
    UnsavedIsOne(w.flight);
    if w.flight.Creating? && a.Call? {
      assert Step(k, w, a).lost == w.lost || Step(k, w, a).lost == w.lost + {w.nextId};
    }
  }

  /** A record is given up only by such a step: no more of them than lost replies and writes. */
  lemma {:induction false} LostAreLosses<S(!new), E, R>(k: Kind<S, E, R>, w: World<S, E, R>, acts: seq<Action<S, E, R>>,
                                                        ok: S -> bool, u: Option<Id>)
    requires Inv(k, w, ok, u) && AllowedRun(k, acts, ok, u)
    ensures |Exec(k, w, acts).lost| <= |w.lost| + Losses(k, w, acts)
    decreases |acts|
  {
    if acts != [] {
      StepLosses(k, w, acts[0], ok, u);
      if Step(k, w, acts[0]).lost != w.lost {
        var c :| Step(k, w, acts[0]).lost == w.lost + {c};
        assert |w.lost + {c}| <= |w.lost| + 1;
      }
      StepKeeps(k, w, acts[0], ok, u);
      RestAllowed(k, acts, ok, u);
      LostAreLosses(k, Step(k, w, acts[0]), acts[1..], ok, u);
    }
  }

  /** No id the resource or the pass under way knows is among the lost. */
  ghost predicate Apart<S, E, R>(w: World<S, E, R>) {
    && (forall c :: Stored(w, c) ==> c !in w.lost)
    && (!w.flight.Idle? && w.flight.base.status.id.Some? ==> w.flight.base.status.id.value !in w.lost)
    && (w.flight.Updating? || w.flight.Saving? || w.flight.Noting? ==>
          (w.flight.status.id.Some? ==> w.flight.status.id.value !in w.lost))
  }

  lemma StepKeepsApart<S(!new), E, R>(k: Kind<S, E, R>, w: World<S, E, R>, a: Action<S, E, R>, ok: S -> bool,
                                      u: Option<Id>)
    requires Inv(k, w, ok, u) && Apart(w)
    ensures Apart(Step(k, w, a))
  {
    hide Inv, Look, Write, Order;
    match a {
      case Others(e) => hide Stored;
      case Crash =>
        EndKeepsApart(k, w, false, ok, u);
      case Call(f) =>
        if Looks(w.flight) {
          LookKeepsApart(k, w, f);
        } else if Writes(w.flight) {
          WriteKeepsApart(k, w, f, ok, u);
        } else {
          OrderKeepsApart(k, w, f, ok, u);
        }
        hide Apart;
    }
  }

  lemma EndKeepsApart<S(!new), E, R>(k: Kind<S, E, R>, w: World<S, E, R>, saved: bool, ok: S -> bool, u: Option<Id>)
    requires Inv(k, w, ok, u) && Apart(w)
    ensures Apart(End(w, w.store, saved))
  {
    hide LedgerOk, Accounted, Superseded;
  }

  lemma LookKeepsApart<S, E, R>(k: Kind<S, E, R>, w: World<S, E, R>, f: Fault)
    requires Apart(w) && Looks(w.flight)
    ensures Apart(w.(flight := Look(k, w, f)))
  {
  }

  lemma WriteKeepsApart<S(!new), E, R>(k: Kind<S, E, R>, w: World<S, E, R>, f: Fault, ok: S -> bool, u: Option<Id>)
    requires Inv(k, w, ok, u) && Apart(w) && Writes(w.flight)
    ensures Apart(Write(w, f))
  {
    if w.flight.Saving? || w.flight.Noting? {
      EndKeepsApart(k, w, false, ok, u);
    }
    hide LedgerOk, Accounted, Superseded, StatusOk;
  }

  lemma OrderKeepsApart<S(!new), E, R>(k: Kind<S, E, R>, w: World<S, E, R>, f: Fault, ok: S -> bool, u: Option<Id>)
    requires Inv(k, w, ok, u) && Apart(w) && !Looks(w.flight) && !Writes(w.flight)
    ensures Apart(Order(w, f))
  {
    var st := w.flight.base.status;
    assert w.nextId !in w.lost && (st.id.Some? ==> st.id.value < w.nextId);
    assert w.store.obj.Some? && w.store.obj.value.status == st;
    hide Inv;
    var w' := Order(w, f);
    OrderKnowsNoMore(w, f);
    assert w'.store == w.store;
    hide Order;
  }

  /** The calls that write Warpgate lose at most the id they create, and drop or keep the one they work with. */
  lemma OrderKnowsNoMore<S, E, R>(w: World<S, E, R>, f: Fault)
    requires !Looks(w.flight) && !Writes(w.flight) && w.flight.base.status.id != Some(w.nextId)
    ensures var w' := Order(w, f);
            && w'.store == w.store && w.lost <= w'.lost <= w.lost + {w.nextId}
            && (!w'.flight.Idle? ==> w'.flight.base == w.flight.base)
            && !w'.flight.Updating?
            && (w'.flight.Saving? || w'.flight.Noting? ==>
                  && (w.flight.Creating? || w.flight.Updating?)
                  && (w'.flight.status.id in {None, w.flight.status.id} ||
                      (w'.flight.status.id == Some(w.nextId) && w'.lost == w.lost)))
  {
    match w.flight {
      case Deleting(b, owner, id) => assert Order(w, f).flight == DeleteNext(w.recs, b, owner, id, f);
      case Creating(b, status, _) => assert Order(w, f).flight == CreateNext(w.nextId, b, status, f);
      case Updating(b, status, _, id) => assert Order(w, f).flight == UpdateNext(w.recs, b, status, id, f);
    }
    hide DeleteRec, PutRecord, Deleted, Present, ErrorOf;
  }

  /** A record given up is none that a status still names: lost are only those nothing records. */
  lemma {:induction false} LostAreUnrecorded<S(!new), E, R>(k: Kind<S, E, R>, w: World<S, E, R>,
                                                            acts: seq<Action<S, E, R>>, ok: S -> bool, u: Option<Id>)
    requires Inv(k, w, ok, u) && AllowedRun(k, acts, ok, u) && Apart(w)
    ensures Apart(Exec(k, w, acts))
    decreases |acts|
  {
    if acts != [] {
      StepKeepsApart(k, w, acts[0], ok, u);
      StepKeeps(k, w, acts[0], ok, u);
      RestAllowed(k, acts, ok, u);
      hide Inv, Apart, Step;
      LostAreUnrecorded(k, Step(k, w, acts[0]), acts[1..], ok, u);
    }
  }

  predicate Guarded<S, E, R>(w: World<S, E, R>) {
    w.store.obj.Some? && w.store.obj.value.finalizer
  }

  /** No create before the finalizer is stored, and none while another record is recorded. */
  lemma CreateComesAfterFinalizer<S(!new), E, R>(k: Kind<S, E, R>, w0: World<S, E, R>, acts: seq<Action<S, E, R>>,
                                                 ok: S -> bool, u: Option<Id>)
    requires Initial(k, w0, ok, u) && AllowedRun(k, acts, ok, u)
    requires Exec(k, w0, acts).flight.Creating?
    ensures var w := Exec(k, w0, acts);
            Guarded(w) && w.store.obj.value.status.id.None?
  {
    InitialInv(k, w0, ok, u);
    RunKeeps(k, w0, acts, ok, u);
  }

  /** A pass gets to drop the finalizer of a recorded record only past a served delete. */
  lemma ReleaseNeedsServedDelete<S, E, R>(k: Kind<S, E, R>, w: World<S, E, R>, f: Fault)
    requires w.flight.Deleting?
    ensures CallStep(k, w, f).flight.Releasing? <==> f.Served?
  {
    DeleteSettled(f, if Present(w.recs, w.flight.owner, w.flight.id) then 204 else 404);
  }

  lemma LookGuards<S, E, R>(k: Kind<S, E, R>, w: World<S, E, R>, f: Fault)
    requires Guarded(w) && !Writes(w.flight)
    ensures Guarded(CallStep(k, w, f))
  {
    hide Look, DeleteRec, PutRecord, CreateNext, UpdateNext, DeleteNext;
  }

  lemma WriteGuards<S(!new), E, R>(k: Kind<S, E, R>, w: World<S, E, R>, f: Fault, ok: S -> bool, u: Option<Id>)
    requires Inv(k, w, ok, u) && Writes(w.flight) && Guarded(w)
    ensures Guarded(Write(w, f)) ||
            (w.flight.Releasing? && w.store.obj.value.deleting && forall c :: Stored(w, c) ==> c !in w.recs)
  {
    hide Core, Superseded;
  }

  /** The finalizer is dropped only when the recorded record is gone from Warpgate. */
  lemma FinalizerOutlivesRecord<S(!new), E, R>(k: Kind<S, E, R>, w0: World<S, E, R>, acts: seq<Action<S, E, R>>,
                                               a: Action<S, E, R>, ok: S -> bool, u: Option<Id>)
    requires Initial(k, w0, ok, u) && AllowedRun(k, acts, ok, u)
    requires Guarded(Exec(k, w0, acts)) && !Guarded(Step(k, Exec(k, w0, acts), a))
    ensures var w := Exec(k, w0, acts);
            && w.flight.Releasing?
            && w.store.obj.value.deleting
            && (forall c :: Stored(w, c) ==> c !in w.recs)
  {
    InitialInv(k, w0, ok, u);
    RunKeeps(k, w0, acts, ok, u);
    var w := Exec(k, w0, acts);
    hide Inv, Write;
    match a {
      case Others(e) =>
      case Crash =>
      case Call(f) =>
        if Writes(w.flight) {
          WriteGuards(k, w, f, ok, u);
        } else {
          LookGuards(k, w, f);
        }
    }
  }

  // ---- The delete behind a finalizer drop ----

  /** The pass under way has left the delete of record c behind. */
  predicate PastDelete<S, E, R>(w: World<S, E, R>, c: Id) {
    w.flight.Releasing? && w.flight.base.status.id == Some(c)
  }

  /** The delete of record c is served. */
  predicate ServesDelete<S, E, R>(w: World<S, E, R>, a: Action<S, E, R>, c: Id) {
    w.flight.Deleting? && w.flight.id == c && a == Call(Served)
  }

  lemma StepPastDelete<S(!new), E, R>(k: Kind<S, E, R>, w: World<S, E, R>, a: Action<S, E, R>, c: Id,
                                      ok: S -> bool, u: Option<Id>)
    requires Inv(k, w, ok, u) && PastDelete(Step(k, w, a), c)
    ensures PastDelete(w, c) || ServesDelete(w, a, c)
  {
    if a.Call? {
      if w.flight.Deleting? {
        ReleaseNeedsServedDelete(k, w, a.fault);
      }
      hide Accounted, LedgerOk, Deleted, DeleteRec, ErrorOf;
    }
  }

  lemma PastDeleteThroughServed<S(!new), E, R>(k: Kind<S, E, R>, w0: World<S, E, R>, acts: seq<Action<S, E, R>>,
                                               c: Id, ok: S -> bool, u: Option<Id>) returns (i: nat)
    requires Initial(k, w0, ok, u) && AllowedRun(k, acts, ok, u) && PastDelete(Exec(k, w0, acts), c)
    ensures i < |acts| && ServesDelete(Exec(k, w0, acts[..i]), acts[i], c)
  {
    i := Since(StepOf(k), w0, acts, (w: World<S, E, R>) => PastDelete(w, c));
    InitialInv(k, w0, ok, u);
    RunKeeps(k, w0, acts[..i], ok, u);
    hide Inv, Step, PastDelete, ServesDelete;
    StepPastDelete(k, Exec(k, w0, acts[..i]), acts[i], c, ok, u);
  }

  /**
   * In every run: when a resource with recorded id c loses its finalizer, the server has served the
   * delete of c at an earlier step of the run.
   */
  lemma FinalizerDropsAfterServedDelete<S(!new), E, R>(k: Kind<S, E, R>, w0: World<S, E, R>,
                                                       acts: seq<Action<S, E, R>>, a: Action<S, E, R>, c: Id,
                                                       ok: S -> bool, u: Option<Id>) returns (i: nat)
    requires Initial(k, w0, ok, u) && AllowedRun(k, acts, ok, u)
    requires Guarded(Exec(k, w0, acts)) && !Guarded(Step(k, Exec(k, w0, acts), a)) && Stored(Exec(k, w0, acts), c)
    ensures i < |acts| && ServesDelete(Exec(k, w0, acts[..i]), acts[i], c)
  {
    FinalizerOutlivesRecord(k, w0, acts, a, ok, u);
    InitialInv(k, w0, ok, u);
    RunKeeps(k, w0, acts, ok, u);
    assert PastDelete(Exec(k, w0, acts), c);
    hide Inv, Initial, Step, Guarded;
    i := PastDeleteThroughServed(k, w0, acts, c, ok, u);
  }
}
