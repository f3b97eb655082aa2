/** What undisturbed passes of the password credential controller do, and where its guarantees end. */
module PasswordLimits {
  import opened Base
  import opened Client
  import opened Kube
  import opened Passes
  import opened PasswordCredential
  import opened PasswordReconciler

  function Calm(k: nat): Turn<Env> {
    Turn([], Served)
  }

  lemma PlayCalm(w: World)
    requires !w.flight.Idle?
    ensures Play(w, Calm) == Play(CallStep(w, Served), Calm)
  {
    PlayTurn(w, Calm);
    NoEnv(Step, w);
  }

  // ---- One undisturbed pass ----

  /** What the spec asks for: the value under the key it names, or under "password" if it names none. */
  predicate HasPassword(data: map<string, string>, spec: Spec) {
    && (spec.secretKey != "" ==> spec.secretKey in data)
    && (spec.secretKey == "" ==> "password" in data)
  }

  /** A pass would find a password now. */
  predicate CanRead(w: World, spec: Spec) {
    spec.secretName in w.secrets && HasPassword(w.secrets[spec.secretName].data, spec)
  }

  /** What it would read: the present revision of the Secret, under the key the spec asks for. */
  function ReadNow(w: World, spec: Spec): Read
    requires CanRead(w, spec)
  {
    var s := w.secrets[spec.secretName];
    if spec.secretKey != "" then Read(s.name, spec.secretKey, s.rv, s.data[spec.secretKey])
    else Read(s.name, "password", s.rv, s.data["password"])
  }

  function Adopted(store: Store<Spec, Status>): Store<Spec, Status>
    requires store.obj.Some? && !store.obj.value.deleting
  {
    if store.obj.value.finalizer then store else SaveFinalizer(store, store.obj.value, true, Served)
  }

  /** A new credential is made for the user and recorded. */
  function Replaced(w: World, b: Resource, user: Id, read: Read): World {
    w.(creds := w.creds[w.nextId := Cred(user, read.password)], made := w.made[w.nextId := Cred(user, read.password)],
       nextId := w.nextId + 1,
       store := SaveStatus(w.store, b, Status(Some(user), Some(w.nextId), VersionOf(read), IsReady), Served))
  }

  /** The recorded credential counts as outdated. */
  predicate Outdated(b: Resource, user: Id, read: Read) {
    b.status.applied != VersionOf(read) || UserChanged(b, user)
  }

  /** What is left of a pass that has found its user and can read its Secret. */
  function Settled(w: World, b: Resource, user: Id, read: Read): World {
    if b.status.credentialID.None? then Replaced(w, b, user, read)
    else if Outdated(b, user, read) then
      Replaced(w.(creds := DeleteCred(w.creds, Owner(b, user), b.status.credentialID.value, Served)), b, user, read)
    else w.(store := SaveStatus(w.store, b, b.status.(userID := Some(user), ready := IsReady), Served))
  }

  /** What is left of a pass that has found its user but no password. */
  function Unread(w: World, b: Resource, user: Id): World {
    var reason := if b.spec.secretName in w.secrets then SecretKeyMissing else SecretNotFound;
    w.(store := SaveStatus(w.store, b, b.status.(userID := Some(user), ready := NotReady(reason)), Served))
  }

  lemma CalmConclude(w: World, b: Resource)
    requires w.store.obj == Some(b) && (w.flight.Saving? || w.flight.Noting?) && w.flight.base == b
    ensures Play(w, Calm) == w.(store := SaveStatus(w.store, b, w.flight.status, Served), flight := Idle)
  {
    PlayCalm(w);
  }

  lemma CalmCreating(w: World, b: Resource, status: Status, read: Read, user: Id)
    requires w.store.obj == Some(b) && w.flight == Creating(b, status, read, user)
    requires user in w.users.Values && b.status.credentialID != Some(w.nextId) && status.userID == Some(user)
    ensures Play(w, Calm) == Replaced(w.(flight := Idle), b, user, read)
  {
    PlayCalm(w);
    var next := Saving(b, Status(Some(user), Some(w.nextId), VersionOf(read), IsReady), read);
    assert CreateNext(w, b, status, read, user, Served) == next;
    var w1 := Made(w, Cred(user, read.password), next);
    assert CallStep(w, Served) == w1 && w1.lost == w.lost;
    hide CallStep, CreateNext, VersionOf, Play;
    CalmConclude(w1, b);
  }

  lemma CalmReading(w: World, b: Resource, user: Id)
    requires w.store.obj == Some(b) && w.flight == Reading(b, b.status.(userID := Some(user)), user)
    requires user in w.users.Values && b.status.credentialID != Some(w.nextId)
    ensures Play(w, Calm) ==
            if CanRead(w, b.spec) then Settled(w.(flight := Idle), b, user, ReadNow(w, b.spec))
            else Unread(w.(flight := Idle), b, user)
  {
    hide Play, VersionOf;
    PlayCalm(w);
    var status := b.status.(userID := Some(user));
    var w1 := w.(flight := ReadNext(w.secrets, b, status, user, Served));
    assert CallStep(w, Served) == w1;
    hide CallStep;
    if !CanRead(w, b.spec) {
      CalmConclude(w1, b);
    } else if w1.flight.Creating? {
      CalmCreating(w1, b, status, ReadNow(w, b.spec), user);
    } else if w1.flight.Saving? {
      CalmConclude(w1, b);
    } else {
      CalmRemoving(w1, b, status, ReadNow(w, b.spec), user, Owner(b, user), b.status.credentialID.value);
    }
  }

  lemma CalmRemoving(w: World, b: Resource, status: Status, read: Read, user: Id, owner: Id, id: Id)
    requires w.store.obj == Some(b) && w.flight == Removing(b, status, read, user, owner, id)
    requires user in w.users.Values && b.status.credentialID != Some(w.nextId) && status.userID == Some(user)
    ensures Play(w, Calm) ==
            Replaced(w.(creds := DeleteCred(w.creds, owner, id, Served), flight := Idle), b, user, read)
  {
    hide Play, VersionOf;
    PlayCalm(w);
    DeleteSettled(Served, if Present(w.creds, owner, id) then 204 else 404);
    var cleared := status.(credentialID := None, applied := "");
    var w1 := w.(creds := DeleteCred(w.creds, owner, id, Served), flight := Creating(b, cleared, read, user));
    assert CallStep(w, Served) == w1;
    hide CallStep;
    CalmCreating(w1, b, cleared, read, user);
  }

  /** An undisturbed pass over a live resource whose user exists, stated as one update of the world. */
  lemma CalmPassIs(w: World, o: Resource)
    requires w.flight.Idle? && w.store.obj == Some(o) && !o.deleting
    requires o.spec.username in w.users && o.status.credentialID != Some(w.nextId)
    ensures var store := Adopted(w.store);
            var b, user := store.obj.value, w.users[o.spec.username];
            Pass(w, Calm) ==
            if CanRead(w, o.spec) then Settled(w.(store := store), b, user, ReadNow(w, o.spec))
            else Unread(w.(store := store), b, user)
  {
    assert Pass(w, Calm) == Play(TakeTurn(Step, w, Calm(8)), Calm);
    hide Play, Settled, Unread, CanRead;
    NoEnv(Step, w);
    var w1 := w.(flight := Connecting(o));
    assert CallStep(w, Served) == w1;
    PlayCalm(w1);
    var store := Adopted(w.store);
    var b, user := store.obj.value, w.users[o.spec.username];
    var w3 := w.(store := store, flight := Resolving(b));
    if !o.finalizer {
      var w2 := w.(flight := Adopting(o));
      assert CallStep(w1, Served) == w2;
      PlayCalm(w2);
      assert CallStep(w2, Served) == w3;
    } else {
      assert CallStep(w1, Served) == w3;
    }
    PlayCalm(w3);
    var w4 := w3.(flight := Reading(b, b.status.(userID := Some(user)), user));
    assert CallStep(w3, Served) == w4;
    hide CallStep;
    CalmReading(w4, b, user);
    assert w4.(flight := Idle) == w.(store := store);
    SameRead(w, w4, o.spec);
  }

  lemma SameRead(w: World, w': World, spec: Spec)
    requires w'.secrets == w.secrets
    ensures CanRead(w', spec) == CanRead(w, spec)
    ensures CanRead(w, spec) ==> ReadNow(w', spec) == ReadNow(w, spec)
  {
  }

  /** An undisturbed pass over a marked resource deletes what is recorded and lets go. */
  lemma FinalPass(w: World, o: Resource, owner: Id, c: Id)
    requires w.flight.Idle? && w.store.obj == Some(o) && o.finalizer && o.deleting
    requires o.status.userID == Some(owner) && o.status.credentialID == Some(c)
    ensures Pass(w, Calm) == w.(creds := DeleteCred(w.creds, owner, c, Served),
                                store := SaveFinalizer(w.store, o, false, Served))
  {
    var w1 := w.(flight := Connecting(o));
    var w2 := w.(flight := Deleting(o, owner, c));
    var w3 := w.(creds := DeleteCred(w.creds, owner, c, Served), flight := Releasing(o));
    assert Pass(w, Calm) == Play(TakeTurn(Step, w, Calm(8)), Calm);
    NoEnv(Step, w);
    assert CallStep(w, Served) == w1;
    hide Play;
    PlayCalm(w1);
    PlayCalm(w2);
    PlayCalm(w3);
    DeleteSettled(Served, if Present(w.creds, owner, c) then 204 else 404);
    hide ErrorOf, SaveFinalizer;
    assert CallStep(w1, Served) == w2;
    assert CallStep(w2, Served) == w3;
    PlayIdle(CallStep(w3, Served), Calm);
  }

  // ---- A username that comes to mean another user ----

  /** A resource in charge of live credential c of user old, whose username now means another user. */
  ghost predicate Moved(w: World, o: Resource, c: Id, old_: Id, new_: Id) {
    && w.flight.Idle? && w.store.obj == Some(o) && o.finalizer && !o.deleting
    && o.status.userID == Some(old_) && o.status.credentialID == Some(c)
    && c in w.creds && w.creds[c].owner == old_ && c < w.nextId
    && o.spec.username in w.users && w.users[o.spec.username] == new_ && old_ != new_
  }

  /**
   * An undisturbed pass deletes the old user's credential exactly when it can read its Secret: a
   * missing Secret and a missing key both end the pass before, with the new owner stored.
   */
  lemma MovedCredentialRemovedIff(w: World, o: Resource, c: Id, old_: Id, new_: Id)
    requires Moved(w, o, c, old_, new_)
    ensures var w1 := Pass(w, Calm);
            && (c !in w1.creds <==> CanRead(w, o.spec))
            && w1.flight.Idle? && w1.store.obj.Some?
            && var st := w1.store.obj.value.status;
               st.userID == Some(new_) && st.credentialID == Some(if CanRead(w, o.spec) then w.nextId else c)
  {
    CalmPassIs(w, o);
    hide Pass, CanRead, VersionOf;
  }

  /**
   * Why the username must stay one user, exactly: after that pass, deleting the resource and one
   * more undisturbed pass leave the old user's credential live and unrecorded if and only if the
   * first pass could not read its Secret.
   */
  lemma MovedUserLeaksIff(w: World, o: Resource, c: Id, old_: Id, new_: Id)
    requires Moved(w, o, c, old_, new_)
    ensures var w1 := Pass(w, Calm);
            var w3 := Pass(EnvStep(w1, Change(Delete)), Calm);
            && w3.store.obj.None? && w3.lost == w.lost
            && (c in w3.creds <==> !CanRead(w, o.spec))
  {
    MovedCredentialRemovedIff(w, o, c, old_, new_);
    MovedBooks(w, o, c, old_, new_);
    var w1 := Pass(w, Calm);
    var o2 := w1.store.obj.value.(deleting := true, rv := w1.store.clock);
    var c2 := o2.status.credentialID.value;
    hide Pass, CanRead, Moved;
    assert EnvStep(w1, Change(Delete)).store.obj == Some(o2);
    FinalPass(EnvStep(w1, Change(Delete)), o2, new_, c2);
  }

  /** The books around that pass: nothing is lost, and the old credential's owner does not change. */
  lemma MovedBooks(w: World, o: Resource, c: Id, old_: Id, new_: Id)
    requires Moved(w, o, c, old_, new_)
    ensures var w1 := Pass(w, Calm);
            && w1.lost == w.lost && w1.store.obj.Some? && w1.store.obj.value.finalizer && !w1.store.obj.value.deleting
            && (c in w1.creds ==> w1.creds[c].owner == old_)
  {
    CalmPassIs(w, o);
    hide Pass, CanRead, VersionOf;
  }

  /**
   * With a readable Secret the pass asks for the deletion under the old user. Whatever becomes of
   * that call, if it is not served and the status write lands, the stored status names credential c
   * under the wrong user; c is still live if and only if the call took no effect.
   */
  lemma MovedRotationStrandsIff(w: World, b: Resource, read: Read, c: Id, old_: Id, new_: Id, f: Fault)
    requires b.status.userID == Some(old_) && b.status.credentialID == Some(c) && old_ != new_
    requires w.store.obj == Some(b) && c in w.creds && w.creds[c].owner == old_
    requires w.flight == AfterRead(b, b.status.(userID := Some(new_)), new_, read) && !f.Served?
    ensures var w2 := Write(Order(w, f), Served);
            && w2.flight.Idle? && w2.store.obj.Some?
            && w2.store.obj.value.status.userID == Some(new_) && w2.store.obj.value.status.credentialID == Some(c)
            && (c in w2.creds <==> !TakesEffect(f))
  {
    DeleteSettled(f, if Present(w.creds, old_, c) then 204 else 404);
    var noted := b.status.(userID := Some(new_), ready := NotReady(RotateFailed));
    assert Order(w, f) == w.(creds := DeleteCred(w.creds, old_, c, f), flight := Noting(b, noted));
    hide Order, ErrorOf, VersionOf;
  }

  // ---- A credential deleted outside ----

  /** The stored status names a credential that exists. */
  predicate StoredLive(w: World) {
    && w.store.obj.Some? && w.store.obj.value.status.credentialID.Some?
    && w.store.obj.value.status.credentialID.value in w.creds
  }

  lemma SettledIsLiveIff(w: World, b: Resource, user: Id, read: Read)
    requires w.store.obj == Some(b) && b.status.credentialID != Some(w.nextId)
    ensures var w1 := Settled(w, b, user, read);
            && w1.store.obj.Some? && w1.store.obj.value.status.ready.IsReady?
            && (StoredLive(w1) <==> StoredLive(w) || b.status.credentialID.None? || Outdated(b, user, read))
  {
    hide VersionOf, DeleteCred;
  }

  /**
   * After one undisturbed pass over a live resource that finds its user and can read its Secret, the
   * stored credential exists if and only if it did before, or none was recorded, or the recorded
   * version or user differs from what the pass finds. A pass that finds both unchanged writes
   * nothing to Warpgate, so a credential somebody deleted there is not restored.
   */
  lemma ReadyMeansPresentIff(w: World, o: Resource)
    requires w.flight.Idle? && w.store.obj == Some(o) && !o.deleting
    requires o.spec.username in w.users && o.status.credentialID != Some(w.nextId) && CanRead(w, o.spec)
    ensures var w1 := Pass(w, Calm);
            && w1.store.obj.Some? && w1.store.obj.value.status.ready.IsReady?
            && (StoredLive(w1) <==>
                || StoredLive(w)
                || o.status.credentialID.None?
                || Outdated(o, w.users[o.spec.username], ReadNow(w, o.spec)))
  {
    CalmPassIs(w, o);
    var b := Adopted(w.store).obj.value;
    SettledIsLiveIff(w.(store := Adopted(w.store)), b, w.users[o.spec.username], ReadNow(w, o.spec));
    hide Pass, CanRead, VersionOf, Settled;
  }
}
