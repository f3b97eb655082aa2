/** Undisturbed passes of the shared lifecycle: what one does, and how soon they reach a fixed point. */
module LifecycleProgress {
  import opened Base
  import opened Client
  import opened Kube
  import opened Passes
  import opened Lifecycle
  import opened LifecycleReconciler

  function Calm<S, E, R>(n: nat): Turn<Env<S, E, R>> {
    Turn([], Served)
  }

  /** A pass without faults in which nobody else acts. */
  function CalmPass<S, E, R>(k: Kind<S, E, R>, w: World<S, E, R>): World<S, E, R> {
    Pass(k, w, Calm)
  }

  /** An idle controller, and a resource nobody has marked for deletion. */
  predicate Alive<S, E, R>(w: World<S, E, R>) {
    w.flight.Idle? && w.store.obj.Some? && !w.store.obj.value.deleting
  }

  /** The resource as the pass works on it: with the finalizer stored. */
  function Adopted<S>(store: Store<S, Status>): Store<S, Status>
    requires store.obj.Some? && !store.obj.value.deleting
  {
    if store.obj.value.finalizer then store else SaveFinalizer(store, store.obj.value, true, Served)
  }

  function SetStatus<S>(store: Store<S, Status>, status: Status): Store<S, Status>
    requires store.obj.Some?
  {
    SaveStatus(store, store.obj.value, status, Served)
  }

  /** What an undisturbed pass amounts to, once its request is known. */
  function Quiet<S, E, R>(w: World<S, E, R>, p: Prep<R>): World<S, E, R>
    requires Alive(w)
  {
    var store := Adopted(w.store);
    var status := store.obj.value.status;
    match p
    case Blocked(reason) => w.(store := SetStatus(store, status.(ready := NotReady(reason))))
    case Build(owner, req) =>
      if status.id.None? then
        w.(store := SetStatus(store, Status(owner, Some(w.nextId), IsReady)),
           recs := w.recs[w.nextId := Rec(owner, req)], made := w.made[w.nextId := owner], nextId := w.nextId + 1)
      else if Present(w.recs, owner, status.id.value) then
        w.(store := SetStatus(store, Status(owner, status.id, IsReady)),
           recs := w.recs[status.id.value := Rec(owner, req)])
      else
        w.(store := SetStatus(store, Status(owner, None, NotReady(NotFound))))
  }

  function Request<S, E, R>(k: Kind<S, E, R>, w: World<S, E, R>): Prep<R>
    requires Alive(w)
  {
    k.prep(w.store.obj.value.spec, w.ext, Served)
  }

  lemma PlayCalm<S, E, R>(k: Kind<S, E, R>, w: World<S, E, R>)
    requires !w.flight.Idle?
    ensures Play(k, w, Calm) == Play(k, CallStep(k, w, Served), Calm)
  {
    PlayTurn(k, w, Calm);
    NoEnv(StepOf(k), w);
  }

  lemma QuietFinish<S, E, R>(k: Kind<S, E, R>, w: World<S, E, R>, b: Resource<S>)
    requires w.store.obj == Some(b) && Writes(w.flight) && w.flight.base == b
    requires w.flight.Saving? || w.flight.Noting?
    ensures Play(k, w, Calm) == w.(store := SetStatus(w.store, w.flight.status), flight := Idle)
  {
    PlayCalm(k, w);
  }

  lemma QuietSync<S, E, R>(k: Kind<S, E, R>, w: World<S, E, R>, b: Resource<S>)
    requires w.store.obj == Some(b) && w.flight == Preparing(b) && b.finalizer && !b.deleting
    ensures Play(k, w, Calm) == Quiet(w.(flight := Idle), k.prep(b.spec, w.ext, Served))
  {
    var p := k.prep(b.spec, w.ext, Served);
    PlayCalm(k, w);
    var w1 := w.(flight := PrepareNext(b, p));
    assert CallStep(k, w, Served) == w1;
    if p.Blocked? {
      QuietFinish(k, w1, b);
    } else {
      PlayCalm(k, w1);
      var w2 := CallStep(k, w1, Served);
      if b.status.id.None? {
        assert w2.flight == CreateNext(w.nextId, b, b.status.(owner := p.owner), Served);
      } else {
        DeleteSettled(Served, if Present(w.recs, p.owner, b.status.id.value) then 200 else 404);
        assert w2.flight == UpdateNext(w.recs, b, b.status.(owner := p.owner), b.status.id.value, Served);
      }
      QuietFinish(k, w2, b);
    }
  }

  /** An undisturbed pass over a live resource does exactly this. */
  lemma CalmPassIsQuiet<S, E, R>(k: Kind<S, E, R>, w: World<S, E, R>)
    requires Alive(w)
    ensures CalmPass(k, w) == Quiet(w, Request(k, w))
  {
    var o := w.store.obj.value;
    NoEnv(StepOf(k), w);
    var w1 := w.(flight := Connecting(o));
    assert CallStep(k, w, Served) == w1;
    PlayCalm(k, w1);
    if o.finalizer {
      QuietSync(k, w.(flight := Preparing(o)), o);
    } else {
      var w2 := w.(flight := Adopting(o));
      assert CallStep(k, w1, Served) == w2;
      PlayCalm(k, w2);
      var b := o.(finalizer := true, rv := w.store.clock);
      var w3 := w.(store := Adopted(w.store), flight := Preparing(b));
      assert CallStep(k, w2, Served) == w3;
      QuietSync(k, w3, b);
    }
  }

  lemma QuietRelease<S, E, R>(k: Kind<S, E, R>, w: World<S, E, R>, b: Resource<S>)
    requires w.flight == Releasing(b)
    ensures Play(k, w, Calm) == w.(store := SaveFinalizer(w.store, b, false, Served), flight := Idle)
  {
    PlayCalm(k, w);
  }

  /** An undisturbed pass over a marked resource deletes the record it names, if any, and lets go. */
  lemma CalmPassFinalizes<S, E, R>(k: Kind<S, E, R>, w: World<S, E, R>, o: Resource<S>)
    requires w.flight.Idle? && w.store.obj == Some(o) && o.deleting && o.finalizer
    ensures var recs := if o.status.id.Some? && (k.owned ==> o.status.owner.Some?)
                        then DeleteRec(w.recs, o.status.owner, o.status.id.value, Served) else w.recs;
            CalmPass(k, w) == w.(recs := recs, store := Store(None, w.store.clock + 1))
  {
    NoEnv(StepOf(k), w);
    var w1 := w.(flight := Connecting(o));
    assert CallStep(k, w, Served) == w1;
    PlayCalm(k, w1);
    if o.status.id.Some? && (k.owned ==> o.status.owner.Some?) {
      var owner, id := o.status.owner, o.status.id.value;
      var w2 := w.(flight := Deleting(o, owner, id));
      assert CallStep(k, w1, Served) == w2;
      PlayCalm(k, w2);
      DeleteSettled(Served, if Present(w.recs, owner, id) then 204 else 404);
      var w3 := w.(recs := DeleteRec(w.recs, owner, id, Served), flight := Releasing(o));
      assert CallStep(k, w2, Served) == w3;
      QuietRelease(k, w3, o);
    } else {
      var w2 := w.(flight := Releasing(o));
      assert CallStep(k, w1, Served) == w2;
      QuietRelease(k, w2, o);
    }
  }

  /** In sync: finalizer stored, status Ready with the id of a live record that equals the request. */
  ghost predicate InSync<S, E, R>(k: Kind<S, E, R>, w: World<S, E, R>) {
    && Alive(w) && w.store.obj.value.finalizer
    && Request(k, w).Build?
    && var st := w.store.obj.value.status;
       && st.ready.IsReady? && st.owner == Request(k, w).owner
       && st.id.Some? && st.id.value in w.recs
       && w.recs[st.id.value] == Rec(Request(k, w).owner, Request(k, w).req)
  }

  /** The measure: 2 for an id that names no record, 1 for none or a live one, 0 when in sync. */
  ghost function Distance<S, E, R>(k: Kind<S, E, R>, w: World<S, E, R>): nat
    requires Alive(w)
  {
    var st, p := w.store.obj.value.status, Request(k, w);
    if InSync(k, w) then 0
    else if p.Build? && (st.id.None? || Present(w.recs, p.owner, st.id.value)) then 1
    else 2
  }

  lemma DistanceBounds<S, E, R>(k: Kind<S, E, R>, w: World<S, E, R>)
    requires Alive(w)
    ensures Distance(k, w) <= 2 && (Distance(k, w) == 0 <==> InSync(k, w))
  {
  }

  /** Each undisturbed pass with a buildable request comes strictly nearer. */
  lemma CalmPassApproaches<S, E, R>(k: Kind<S, E, R>, w: World<S, E, R>)
    requires Alive(w) && Request(k, w).Build?
    ensures var w' := CalmPass(k, w);
            && Alive(w') && w'.store.obj.value.spec == w.store.obj.value.spec && w'.ext == w.ext
            && (if Distance(k, w) == 0 then w' == w else Distance(k, w') < Distance(k, w))
  {
    CalmPassIsQuiet(k, w);
    if InSync(k, w) {
      var st := w.store.obj.value.status;
      assert w.recs[st.id.value := Rec(Request(k, w).owner, Request(k, w).req)] == w.recs;
      assert st == Status(Request(k, w).owner, st.id, IsReady);
    }
  }

  /**
   * From every stored status, stale ids included, two undisturbed passes reach a fixed point in
   * which the remote record equals the request; further passes change nothing.
   */
  lemma TwoPassesConverge<S, E, R>(k: Kind<S, E, R>, w: World<S, E, R>)
    requires Alive(w) && Request(k, w).Build?
    ensures var w2 := CalmPass(k, CalmPass(k, w));
            && InSync(k, w2) && CalmPass(k, w2) == w2
            && w2.store.obj.value.spec == w.store.obj.value.spec && w2.ext == w.ext
  {
    CalmPassApproaches(k, w);
    CalmPassApproaches(k, CalmPass(k, w));
    CalmPassApproaches(k, CalmPass(k, CalmPass(k, w)));
  }
}
