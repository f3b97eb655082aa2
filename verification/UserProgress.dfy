/** Undisturbed passes over a user: three reach a fixed point, because a create sends less than an update. */
module UserProgress {
  import opened Base
  import opened Client
  import opened Kube
  import opened Passes
  import opened User
  import opened UserReconciler

  function Calm(n: nat): Turn<Env> {
    Turn([], Served)
  }

  /** A pass without faults in which nobody else acts. */
  function CalmPass(w: World): World {
    Pass(w, Calm)
  }

  predicate Alive(w: World) {
    w.flight.Idle? && w.store.obj.Some? && !w.store.obj.value.deleting
  }

  function Adopted(store: Store<Spec, Status>): Store<Spec, Status>
    requires store.obj.Some? && !store.obj.value.deleting
  {
    if store.obj.value.finalizer then store else SaveFinalizer(store, store.obj.value, true, Served)
  }

  function SetStatus(store: Store<Spec, Status>, status: Status): Store<Spec, Status>
    requires store.obj.Some?
  {
    SaveStatus(store, store.obj.value, status, Served)
  }

  /** With user `id` in place: generate what is due, and store the Ready status. */
  function Finished(w: World, status: Status, id: Id): World
    requires w.store.obj.Some?
  {
    if w.store.obj.value.spec.generate && status.credentialID.None? then
      w.(store := SetStatus(w.store, status.(externalID := Some(id), credentialID := Some(w.nextId),
          secretRef := true, ready := IsReady)),
         creds := w.creds[w.nextId := id], nextId := w.nextId + 1,
         secret := if w.secret.None? then Some(w.nextId) else w.secret)
    else w.(store := SetStatus(w.store, status.(externalID := Some(id), ready := IsReady)))
  }

  /** What an undisturbed pass amounts to. */
  function Quiet(w: World): World
    requires Alive(w)
  {
    var store := Adopted(w.store);
    var o := store.obj.value;
    var w1 := w.(store := store);
    if o.status.externalID.None? then
      Finished(w1.(users := w.users[w.nextId := Account(o.spec.username, o.spec.description, Defaults)],
                   made := w.made + {w.nextId}, nextId := w.nextId + 1), o.status, w.nextId)
    else
      var id := o.status.externalID.value;
      if id in w.users then
        Finished(w1.(users := w.users[id := Account(o.spec.username, o.spec.description, o.spec.limits)]), o.status, id)
      else w1.(store := SetStatus(store, o.status.(externalID := None, ready := NotReady(NotFound))))
  }

  lemma PlayCalm(w: World)
    requires !w.flight.Idle?
    ensures Play(w, Calm) == Play(CallStep(w, Served), Calm)
  {
    PlayTurn(w, Calm);
    NoEnv(Step, w);
  }

  lemma QuietConclude(w: World, b: Resource)
    requires w.store.obj == Some(b) && (w.flight.Saving? || w.flight.Noting?) && w.flight.base == b
    ensures Play(w, Calm) == w.(store := SetStatus(w.store, w.flight.status), flight := Idle)
  {
    PlayCalm(w);
  }

  lemma QuietFinish(w: World, b: Resource, status: Status, id: Id)
    requires w.store.obj == Some(b) && status.externalID == Some(id) && id in w.users
    requires w.flight == AfterUser(b, status)
    ensures Play(w, Calm) == Finished(w.(flight := Idle), status, id)
  {
    if b.spec.generate && status.credentialID.None? {
      PlayCalm(w);
      var cred := w.nextId;
      var w1 := w.(creds := w.creds[cred := id], nextId := cred + 1, flight := Storing(b, status, cred));
      assert CallStep(w, Served) == w1;
      PlayCalm(w1);
      var ready := status.(credentialID := Some(cred), secretRef := true, ready := IsReady);
      var w2 := w1.(secret := if w.secret.None? then Some(cred) else w.secret, flight := Saving(b, ready));
      assert CallStep(w1, Served) == w2;
      QuietConclude(w2, b);
    } else {
      QuietConclude(w, b);
    }
  }

  lemma FinishedSame(w: World, status: Status, id: Id)
    requires w.store.obj.Some?
    ensures Finished(w, status.(externalID := Some(id)), id) == Finished(w, status, id)
  {
    hide SetStatus;
  }

  lemma QuietCreate(w: World, b: Resource)
    requires w.store.obj == Some(b) && w.flight == Creating(b) && b.status.externalID.None? && b.finalizer &&
        !b.deleting
    ensures Play(w, Calm) == Quiet(w.(flight := Idle))
  {
    hide Play;
    PlayCalm(w);
    var status := b.status.(externalID := Some(w.nextId));
    var w1 := w.(users := w.users[w.nextId := Created(b.spec)], made := w.made + {w.nextId}, nextId := w.nextId + 1,
                 flight := AfterUser(b, status));
    assert CallStep(w, Served) == w1;
    hide CallStep, AfterUser;
    QuietFinish(w1, b, status, w.nextId);
    hide Finished;
    FinishedSame(w1.(flight := Idle), b.status, w.nextId);
  }

  lemma QuietUpdate(w: World, b: Resource, id: Id)
    requires w.store.obj == Some(b) && w.flight == Updating(b, id) && b.status.externalID == Some(id) &&
        b.finalizer && !b.deleting
    ensures Play(w, Calm) == Quiet(w.(flight := Idle))
  {
    PlayCalm(w);
    var w1 := CallStep(w, Served);
    DeleteSettled(Served, if id in w.users then 200 else 404);
    assert w1.flight == UpdateNext(w.users, b, id, Served);
    hide Play, ErrorOf;
    if id in w.users {
      QuietFinish(w1, b, b.status, id);
    } else {
      QuietConclude(w1, b);
    }
  }

  lemma QuietSync(w: World, b: Resource)
    requires w.store.obj == Some(b) && w.flight == AfterAdopt(b) && b.finalizer && !b.deleting
    ensures Play(w, Calm) == Quiet(w.(flight := Idle))
  {
    hide Play, Quiet;
    if b.status.externalID.None? {
      QuietCreate(w, b);
    } else {
      QuietUpdate(w, b, b.status.externalID.value);
    }
  }

  /** An undisturbed pass over a live resource does exactly this. */
  lemma CalmPassIsQuiet(w: World)
    requires Alive(w)
    ensures CalmPass(w) == Quiet(w)
  {
    hide Quiet, AfterAdopt;
    var o := w.store.obj.value;
    NoEnv(Step, w);
    var w1 := w.(flight := Connecting(o));
    assert CallStep(w, Served) == w1;
    PlayCalm(w1);
    if o.finalizer {
      QuietSync(w.(flight := AfterAdopt(o)), o);
      assert w.(flight := Idle) == w;
    } else {
      QuietAdopt(w, o);
    }
  }

  lemma QuietAdopt(w: World, o: Resource)
    requires Alive(w) && w.store.obj == Some(o) && !o.finalizer
    ensures Play(w.(flight := Adopting(o)), Calm) == Quiet(w)
  {
    var w2 := w.(flight := Adopting(o));
    PlayCalm(w2);
    var b := o.(finalizer := true, rv := w.store.clock);
    var w3 := w.(store := Adopted(w.store), flight := AfterAdopt(b));
    assert CallStep(w2, Served) == w3;
    QuietSync(w3, b);
    assert Quiet(w3.(flight := Idle)) == Quiet(w);
  }

  /** The user carries everything the spec says about it. */
  predicate CarriesAll(a: Account, s: Spec) {
    a.username == s.username && a.description == s.description && a.limits == s.limits
  }

  /** In sync: Ready, the user carries everything the spec says, and a password if one is to be generated. */
  ghost predicate InSync(w: World) {
    && Alive(w) && w.store.obj.value.finalizer
    && var o := w.store.obj.value;
       && o.status.ready.IsReady? && o.status.externalID.Some? && o.status.externalID.value in w.users
       && CarriesAll(w.users[o.status.externalID.value], o.spec)
       && (o.spec.generate ==> o.status.credentialID.Some?)
  }

  /** The measure: 3 for an id that names no user, 2 for none, 1 for a live user, 0 when in sync. */
  ghost function Distance(w: World): nat
    requires Alive(w)
  {
    var id := w.store.obj.value.status.externalID;
    if InSync(w) then 0 else if id.None? then 2 else if id.value in w.users then 1 else 3
  }

  lemma CalmPassApproaches(w: World)
    requires Alive(w)
    ensures var w' := CalmPass(w);
            && Alive(w') && w'.store.obj.value.spec == w.store.obj.value.spec
            && (if Distance(w) == 0 then w' == w else Distance(w') < Distance(w))
  {
    CalmPassIsQuiet(w);
    hide CalmPass;
    if InSync(w) {
      var o := w.store.obj.value;
      assert w.users[o.status.externalID.value := Updated(o.spec)] == w.users;
      assert o.status.(ready := IsReady) == o.status;
    }
  }

  /**
   * From every stored status, stale ids included, three undisturbed passes reach a fixed point in
   * which the user carries everything the spec says; further passes change nothing.
   */
  lemma ThreePassesConverge(w: World)
    requires Alive(w)
    ensures var w3 := CalmPass(CalmPass(CalmPass(w)));
            && InSync(w3) && CalmPass(w3) == w3 && w3.store.obj.value.spec == w.store.obj.value.spec
            && var s, id := w.store.obj.value.spec, w3.store.obj.value.status.externalID;
               && id.Some? && id.value in w3.users && w3.users[id.value].username == s.username
               && w3.users[id.value].description == s.description && w3.users[id.value].limits == s.limits
  {
    hide CalmPass;
    CalmPassApproaches(w);
    CalmPassApproaches(CalmPass(w));
    CalmPassApproaches(CalmPass(CalmPass(w)));
    CalmPassApproaches(CalmPass(CalmPass(CalmPass(w))));
  }

  /** The recorded user is gone from Warpgate. */
  predicate Stale(w: World)
    requires w.store.obj.Some?
  {
    var id := w.store.obj.value.status.externalID;
    id.Some? && id.value !in w.users
  }

  /**
   * Two passes suffice unless the recorded user is gone and the spec asks for more than a create
   * sends.
   */
  lemma TwoPassesSufficeIff(w: World)
    requires Alive(w)
    ensures InSync(CalmPass(CalmPass(w))) <==> !(Stale(w) && w.store.obj.value.spec.limits != Defaults)
  {
    CalmPassApproaches(w);
    CalmPassApproaches(CalmPass(w));
    if Stale(w) {
      StaleTwice(w);
    } else {
      hide CalmPass, InSync;
    }
  }

  lemma StaleTwice(w: World)
    requires Alive(w) && Stale(w)
    ensures Alive(CalmPass(w))
    ensures InSync(CalmPass(CalmPass(w))) <==> w.store.obj.value.spec.limits == Defaults
  {
    CalmPassIsQuiet(w);
    CalmPassIsQuiet(CalmPass(w));
    hide CalmPass;
  }

  /** The recorded credential exists and belongs to the recorded user, which exists. */
  predicate OwnsLive(w: World)
    requires w.store.obj.Some?
  {
    var st := w.store.obj.value.status;
    && st.externalID.Some? && st.externalID.value in w.users
    && st.credentialID.Some? && CredThere(w.creds, st.externalID.value, st.credentialID.value)
  }

  /** So it is, or it will be made so: a password is due and none is recorded. */
  predicate WillOwn(w: World)
    requires w.store.obj.Some?
  {
    OwnsLive(w) || (w.store.obj.value.spec.generate && w.store.obj.value.status.credentialID.None?)
  }

  /** Users of credentials were handed out before. */
  predicate OwnersKnown(w: World) {
    forall c :: c in w.creds ==> w.creds[c] < w.nextId
  }

  lemma FinishedOwnsIff(w: World, status: Status, id: Id)
    requires Alive(w) && w.store.obj.value.status == status && id in w.users && id < w.nextId && OwnersKnown(w)
    ensures var w' := Finished(w, status, id);
            && w'.store.obj.Some? && OwnersKnown(w')
            && (WillOwn(w') <==>
                || (status.credentialID.Some? && CredThere(w.creds, id, status.credentialID.value))
                || (w.store.obj.value.spec.generate && status.credentialID.None?))
  {
  }

  lemma CalmPassKeepsOwning(w: World)
    requires Alive(w) && OwnersKnown(w) && forall u :: u in w.users ==> u < w.nextId
    ensures var w' := CalmPass(w);
            && Alive(w') && OwnersKnown(w') && (forall u :: u in w'.users ==> u < w'.nextId)
            && w'.store.obj.value.spec == w.store.obj.value.spec
            && (WillOwn(w') <==> WillOwn(w))
  {
    CalmPassIsQuiet(w);
    CalmPassApproaches(w);
    var store := Adopted(w.store);
    var o, w1 := store.obj.value, w.(store := store);
    hide CalmPass, Distance;
    if o.status.externalID.None? {
      FinishedOwnsIff(w1.(users := w.users[w.nextId := Created(o.spec)], made := w.made + {w.nextId},
                          nextId := w.nextId + 1), o.status, w.nextId);
      hide Finished;
    } else if !Stale(w) {
      var id := o.status.externalID.value;
      FinishedOwnsIff(w1.(users := w.users[id := Updated(o.spec)]), o.status, id);
      hide Finished;
    }
  }

  /**
   * From every stored status: after three undisturbed passes the recorded credential is live under
   * the recorded user if and only if it was before, or a password is to be generated and none was
   * recorded. So a recreated user, which keeps the old credential's id, never gets one of its own.
   */
  lemma PasswordWorksIff(w: World)
    requires Alive(w) && OwnersKnown(w) && forall u :: u in w.users ==> u < w.nextId
    ensures var w3 := CalmPass(CalmPass(CalmPass(w)));
            InSync(w3) && (OwnsLive(w3) <==> WillOwn(w))
  {
    ThreePassesConverge(w);
    CalmPassKeepsOwning(w);
    CalmPassKeepsOwning(CalmPass(w));
    CalmPassKeepsOwning(CalmPass(CalmPass(w)));
    hide CalmPass, OwnsLive;
  }
}
