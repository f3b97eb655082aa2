/** One undisturbed pass is enough for the password credential controller. */
module PasswordProgress {
  import opened Base
  import opened Client
  import opened Kube
  import opened Passes
  import opened PasswordCredential
  import opened PasswordSafety
  import opened PasswordRuns
  import opened PasswordReconciler
  import opened PasswordLimits

  /** The pass works on what is stored. */
  ghost predicate Undisturbed(w: World, names: set<string>, u: Id) {
    Inv(w, names, u) && !w.flight.Idle? && Current(w.store, w.flight.base)
  }

  lemma QuietSaving(w: World, names: set<string>, u: Id)
    requires Undisturbed(w, names, u) && w.flight.Saving?
    ensures Exact(Play(w, Calm), w.flight.read, u)
  {
    PasswordOfRead(w, names, u);
    PlayCalm(w);
    hide SecretsOk, Accounted;
    assert CallStep(w, Served) == End(w, SaveStatus(w.store, w.flight.base, w.flight.status, Served), true);
  }

  lemma QuietCreating(w: World, names: set<string>, u: Id)
    requires Undisturbed(w, names, u) && w.flight.Creating? && u in w.users.Values
    ensures Exact(Play(w, Calm), w.flight.read, u)
  {
    hide VersionOf, Play;
    CallKeeps(w, Served, names, u);
    PlayCalm(w);
    var w1 := CallStep(w, Served);
    assert w1.flight == CreateNext(w, w.flight.base, w.flight.status, w.flight.read, w.flight.user, Served);
    hide Inv, CallStep, VersionOf, Play;
    QuietSaving(w1, names, u);
  }

  lemma QuietRemoving(w: World, names: set<string>, u: Id)
    requires Undisturbed(w, names, u) && w.flight.Removing? && u in w.users.Values
    ensures Exact(Play(w, Calm), w.flight.read, u)
  {
    CallKeeps(w, Served, names, u);
    PlayCalm(w);
    Gone(w, w.flight.base.status, w.flight.id, Served, u);
    var w1 := CallStep(w, Served);
    assert w1.flight == RemoveNext(w.creds, w.flight.base, w.flight.status, w.flight.read, u, u, w.flight.id, Served);
    hide Inv, CallStep;
    QuietCreating(w1, names, u);
  }

  /** The password a pass would read now. */
  ghost predicate Readable(w: World, spec: Spec, r: Read) {
    CanRead(w, spec) && r == ReadNow(w, spec)
  }

  lemma QuietReading(w: World, r: Read, names: set<string>, u: Id)
    requires Undisturbed(w, names, u) && w.flight.Reading? && u in w.users.Values
    requires Readable(w, w.flight.base.spec, r)
    ensures Exact(Play(w, Calm), r, u)
  {
    CallKeeps(w, Served, names, u);
    PlayCalm(w);
    var w1 := CallStep(w, Served);
    assert w1 == w.(flight := AfterRead(w.flight.base, w.flight.status, u, r));
    hide Inv, CallStep, VersionOf;
    match w1.flight {
      case Creating(_, _, _, _) => QuietCreating(w1, names, u);
      case Removing(_, _, _, _, _, _) => QuietRemoving(w1, names, u);
      case Saving(_, _, _) => QuietSaving(w1, names, u);
    }
  }

  lemma QuietResolving(w: World, r: Read, names: set<string>, u: Id)
    requires Undisturbed(w, names, u) && w.flight.Resolving?
    requires w.flight.base.spec.username in w.users && Readable(w, w.flight.base.spec, r)
    ensures Exact(Play(w, Calm), r, u)
  {
    CallKeeps(w, Served, names, u);
    PlayCalm(w);
    var w1 := CallStep(w, Served);
    assert w1 == w.(flight := ResolveNext(w.users, w.flight.base, Served));
    hide CallStep, Core;
    QuietReading(w1, r, names, u);
  }

  lemma QuietAdopting(w: World, r: Read, names: set<string>, u: Id)
    requires Undisturbed(w, names, u) && w.flight.Adopting?
    requires w.flight.base.spec.username in w.users && Readable(w, w.flight.base.spec, r)
    ensures Exact(Play(w, Calm), r, u)
  {
    CallKeeps(w, Served, names, u);
    PlayCalm(w);
    var w1 := CallStep(w, Served);
    assert w1.flight == AdoptNext(w.store, w.flight.base, Served);
    hide Inv;
    QuietResolving(w1, r, names, u);
  }

  /**
   * From any state a run can leave between passes - stale status, half-done rotation, missing
   * finalizer - one undisturbed pass over a live resource with a known user and a readable Secret
   * ends Ready for exactly the current Secret revision.
   */
  lemma OneQuietPassSyncs(w: World, r: Read, names: set<string>, u: Id)
    requires Inv(w, names, u) && w.flight.Idle? && w.store.obj.Some? && !w.store.obj.value.deleting
    requires w.store.obj.value.spec.username in w.users && Readable(w, w.store.obj.value.spec, r)
    ensures Exact(Pass(w, Calm), r, u)
  {
    var o := w.store.obj.value;
    NoEnv(Step, w);
    var w1 := CallStep(w, Served);
    CallKeeps(w, Served, names, u);
    assert w1 == w.(flight := Connecting(o));
    CallKeeps(w1, Served, names, u);
    PlayCalm(w1);
    var w2 := CallStep(w1, Served);
    assert w2 == w.(flight := ConnectNext(o, Served));
    hide Inv, CallStep;
    if o.finalizer {
      QuietResolving(w2, r, names, u);
    } else {
      QuietAdopting(w2, r, names, u);
    }
  }

  /** The password of the credential a world has recorded for the resource, if it is there. */
  ghost predicate LivePassword(w: World, password: string) {
    && w.store.obj.Some? && w.store.obj.value.status.ready.IsReady?
    && var c := w.store.obj.value.status.credentialID;
       c.Some? && c.value in w.made && w.made[c.value].password == password &&
       (c.value in w.creds ==> w.creds[c.value].password == password)
  }

  /**
   * The password that arrives is the one the spec asks for: the value under its key if it names
   * one, the value under "password" if it does not; if there is none the pass reports so.
   */
  lemma QuietPassUsesKey(w: World, names: set<string>, u: Id)
    requires Inv(w, names, u) && w.flight.Idle? && w.store.obj.Some? && !w.store.obj.value.deleting
    requires var s := w.store.obj.value.spec; s.username in w.users && s.secretName in w.secrets
    ensures var s, w' := w.store.obj.value.spec, Pass(w, Calm);
            var data := w.secrets[s.secretName].data;
            && (s.secretKey != "" && s.secretKey in data ==> LivePassword(w', data[s.secretKey]))
            && (s.secretKey == "" && "password" in data ==> LivePassword(w', data["password"]))
            && ((if s.secretKey != "" then s.secretKey !in data else "password" !in data) ==>
                  && w'.creds == w.creds && w'.store.obj.Some?
                  && w'.store.obj.value.status.ready == NotReady(SecretKeyMissing))
  {
    var s := w.store.obj.value.spec;
    if CanRead(w, s) {
      OneQuietPassSyncs(w, ReadNow(w, s), names, u);
      hide Inv, Pass, Calm;
    } else {
      KnownIsOlder(w, w.store.obj.value.status, u);
      CalmPassIs(w, w.store.obj.value);
      hide Inv, Pass, Calm;
    }
  }
}
