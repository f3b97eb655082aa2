/**
 * Theorems over whole runs of the password credential controller: any sequence of other people's
 * actions, API calls with any fault, and operator crashes, for a username that stays one user.
 */
module PasswordRuns {
  import opened Base
  import opened Client
  import opened Kube
  import opened Passes
  import opened PasswordCredential
  import opened PasswordSafety

  lemma InitialInv(w0: World, names: set<string>, u: Id)
    requires Initial(w0, names, u)
    ensures Inv(w0, names, u)
  {
  }

  /**
   * Nothing leaks silently: after any run, a live credential this resource ever created is the one
   * in its stored status, or its create reply or the status write after it was lost, or the pass
   * under way still holds it. Between passes the last case is gone, and once the resource has been
   * finalized only the lost ones remain.
   */
  lemma LiveCredentialsAreAccounted(w0: World, acts: seq<Action>, names: set<string>, u: Id)
    requires Initial(w0, names, u) && StableRun(acts, names, u)
    ensures var w := Exec(w0, acts);
            && (forall c :: c in w.made && c in w.creds ==> Stored(w, c) || c in w.lost || c in Unsaved(w.flight))
            && (w.flight.Idle? ==> forall c :: c in w.made && c in w.creds ==> Stored(w, c) || c in w.lost)
            && (w.flight.Idle? && w.store.obj.None? ==> forall c :: c in w.made && c in w.creds ==> c in w.lost)
  {
    InitialInv(w0, names, u);
    RunKeeps(w0, acts, names, u);
  }

  /** A step that loses a credential: its create reply is lost, or the status naming it is not stored. */
  predicate Loses(w: World, a: Action) {
    || (w.flight.Creating? && a == Call(Lost))
    || (Unsaved(w.flight) != {} &&
        match a
        case Others(_) => false
        case Crash => true
        case Call(f) => !Accepts(w.store, w.flight.base, f))
  }

  function Losses(w: World, acts: seq<Action>): nat
    decreases |acts|
  {
    if acts == [] then 0 else (if Loses(w, acts[0]) then 1 else 0) + Losses(Step(w, acts[0]), acts[1..])
  }

  lemma CreateLosses(w: World, f: Fault, names: set<string>, u: Id)
    requires Inv(w, names, u) && w.flight.Creating?
    ensures Order(w, f).lost == w.lost || (f.Lost? && Order(w, f).lost == w.lost + {w.nextId})
  {
    KnownIsOlder(w, w.flight.base.status, u);
    hide Core, Records, VersionOf;
  }

  lemma WriteLosses(w: World, f: Fault)
    requires Writes(w.flight)
    ensures Write(w, f).lost == w.lost
            || (!Accepts(w.store, w.flight.base, f) && Write(w, f).lost == w.lost + Unsaved(w.flight))
  {
    hide SaveStatus, SaveFinalizer, AdoptNext;
  }

  lemma StepLosses(w: World, a: Action, names: set<string>, u: Id)
    requires Inv(w, names, u)
    ensures Step(w, a).lost == w.lost || (Loses(w, a) && exists c :: Step(w, a).lost == w.lost + {c})
  {
    UnsavedIsOne(w.flight);
    if a.Call? && !Looks(w.flight) {
      if Writes(w.flight) {
        WriteLosses(w, a.fault);
        hide Write;
      } else if w.flight.Creating? {
        CreateLosses(w, a.fault, names, u);
        hide Order;
      }
    }
  }

  lemma UnsavedIsOne(f: Flight)
    ensures Unsaved(f) == {} || exists c :: Unsaved(f) == {c}
  {
    if f.Saving? && f.status.credentialID.Some? && f.status.credentialID != f.base.status.credentialID {
      assert Unsaved(f) == {f.status.credentialID.value};
    }
  }

  /** A credential is given up only by such a step: no more of them than lost replies and writes. */
  lemma {:induction false} LostAreLosses(w: World, acts: seq<Action>, names: set<string>, u: Id)
    requires Inv(w, names, u) && StableRun(acts, names, u)
    ensures |Exec(w, acts).lost| <= |w.lost| + Losses(w, acts)
    decreases |acts|
  {
    if acts != [] {
      StepLosses(w, acts[0], names, u);
      if Step(w, acts[0]).lost != w.lost {
        var c :| Step(w, acts[0]).lost == w.lost + {c};
        assert |w.lost + {c}| <= |w.lost| + 1;
      }
      StepKeeps(w, acts[0], names, u);
      RestStable(acts, names, u);
      LostAreLosses(Step(w, acts[0]), acts[1..], names, u);
    }
  }

  /**
   * Whenever a pass is about to create a credential, its finalizer is stored, and the credential
   * the stored status names - the one to be replaced - is no longer in Warpgate: the old password
   * never outlives the rotation.
   */
  lemma CreateComesLast(w0: World, acts: seq<Action>, names: set<string>, u: Id)
    requires Initial(w0, names, u) && StableRun(acts, names, u)
    requires Exec(w0, acts).flight.Creating?
    ensures var w := Exec(w0, acts);
            && w.store.obj.Some? && w.store.obj.value.finalizer
            && (forall c :: Stored(w, c) ==> c !in w.creds)
            && (forall c :: c in w.made && c in w.creds ==> c in w.lost)
  {
    InitialInv(w0, names, u);
    RunKeeps(w0, acts, names, u);
  }

  predicate Guarded(w: World) {
    w.store.obj.Some? && w.store.obj.value.finalizer
  }

  lemma LookGuards(w: World, f: Fault)
    requires Guarded(w) && !Writes(w.flight)
    ensures Guarded(CallStep(w, f))
  {
    hide Look, DeleteCred, CreateNext, RemoveNext, FinalDeleteNext;
  }

  lemma EnvGuards(w: World, e: Env)
    requires Guarded(w)
    ensures Guarded(EnvStep(w, e))
  {
  }

  lemma WriteGuards(w: World, f: Fault, names: set<string>, u: Id)
    requires Inv(w, names, u) && Writes(w.flight) && Guarded(w) && !w.flight.Releasing?
    ensures Guarded(Write(w, f))
  {
    hide Core, Records, ObjOk, StatusOk, Superseded;
  }

  lemma ReleaseDrops(w: World, f: Fault, names: set<string>, u: Id)
    requires Inv(w, names, u) && Guarded(w) && w.flight.Releasing?
    ensures Guarded(Write(w, f)) || (w.store.obj.value.deleting && forall c :: Stored(w, c) ==> c !in w.creds)
  {
    hide Core, Records, ObjOk, StatusOk;
  }

  /** The finalizer is dropped only when the recorded credential is gone from Warpgate. */
  lemma FinalizerOutlivesCredential(w0: World, acts: seq<Action>, a: Action, names: set<string>, u: Id)
    requires Initial(w0, names, u) && StableRun(acts, names, u)
    requires Guarded(Exec(w0, acts)) && !Guarded(Step(Exec(w0, acts), a))
    ensures var w := Exec(w0, acts);
            && w.flight.Releasing?
            && w.store.obj.value.deleting
            && (forall c :: Stored(w, c) ==> c !in w.creds)
  {
    InitialInv(w0, names, u);
    RunKeeps(w0, acts, names, u);
    var w := Exec(w0, acts);
    hide Inv, Write, EnvStep;
    match a {
      case Others(e) => EnvGuards(w, e);
      case Crash =>
      case Call(f) =>
        if !Writes(w.flight) {
          LookGuards(w, f);
        } else if w.flight.Releasing? {
          ReleaseDrops(w, f, names, u);
        } else {
          WriteGuards(w, f, names, u);
        }
    }
  }

  /** A pass gets to drop the finalizer of a recorded credential only past a served delete. */
  lemma ReleaseNeedsServedDelete(w: World, f: Fault)
    requires w.flight.Deleting?
    ensures Step(w, Call(f)).flight.Releasing? <==> f.Served?
  {
    DeleteSettled(f, if Present(w.creds, w.flight.owner, w.flight.id) then 204 else 404);
  }

  /** The pass under way has left the delete of credential c behind. */
  predicate PastDelete(w: World, c: Id) {
    w.flight.Releasing? && w.flight.base.status.credentialID == Some(c)
  }

  /** The delete of credential c is served. */
  predicate ServesDelete(w: World, a: Action, c: Id) {
    w.flight.Deleting? && w.flight.id == c && a == Call(Served)
  }

  lemma LookPastDelete(w: World, f: Fault, c: Id)
    requires w.flight.Connecting? ==> (w.flight.base.status.credentialID.Some? ==> w.flight.base.status.userID.Some?)
    requires Looks(w.flight)
    ensures !PastDelete(w.(flight := Look(w, f)), c)
  {
    hide VersionOf, Key;
  }

  lemma WritePastDelete(w: World, f: Fault, c: Id)
    requires Writes(w.flight)
    ensures !PastDelete(Write(w, f), c)
  {
    hide SaveStatus, SaveFinalizer, Accepts;
  }

  lemma OrderPastDelete(w: World, f: Fault, c: Id)
    requires !Looks(w.flight) && !Writes(w.flight) && PastDelete(Order(w, f), c)
    requires w.flight.Deleting? ==> w.flight.base.status.credentialID == Some(w.flight.id)
    ensures ServesDelete(w, Call(f), c)
  {
    if w.flight.Deleting? {
      ReleaseNeedsServedDelete(w, f);
    }
    hide Deleted, DeleteCred, ErrorOf, VersionOf;
  }

  lemma StepPastDelete(w: World, a: Action, c: Id, names: set<string>, u: Id)
    requires Inv(w, names, u) && PastDelete(Step(w, a), c)
    ensures PastDelete(w, c) || ServesDelete(w, a, c)
  {
    assert w.flight.Connecting? ==> (w.flight.base.status.credentialID.Some? ==> w.flight.base.status.userID.Some?);
    assert w.flight.Deleting? ==> w.flight.base.status.credentialID == Some(w.flight.id);
    hide Inv;
    if a.Call? {
      if Looks(w.flight) {
        LookPastDelete(w, a.fault, c);
      } else if Writes(w.flight) {
        WritePastDelete(w, a.fault, c);
      } else {
        OrderPastDelete(w, a.fault, c);
      }
      hide Look, Write, Order;
    }
  }

  lemma PastDeleteThroughServed(w0: World, acts: seq<Action>, c: Id, names: set<string>, u: Id)
    returns (i: nat)
    requires Initial(w0, names, u) && StableRun(acts, names, u) && PastDelete(Exec(w0, acts), c)
    ensures i < |acts| && ServesDelete(Exec(w0, acts[..i]), acts[i], c)
  {
    i := Since(Step, w0, acts, (w: World) => PastDelete(w, c));
    InitialInv(w0, names, u);
    RunKeeps(w0, acts[..i], names, u);
    hide Inv, Step, PastDelete, ServesDelete;
    StepPastDelete(Exec(w0, acts[..i]), acts[i], c, names, u);
  }

  /**
   * In every run: when a resource with recorded credential c loses its finalizer, the server has
   * served the delete of c at an earlier step of the run.
   */
  lemma FinalizerDropsAfterServedDelete(w0: World, acts: seq<Action>, a: Action, c: Id, names: set<string>, u: Id)
    returns (i: nat)
    requires Initial(w0, names, u) && StableRun(acts, names, u)
    requires Guarded(Exec(w0, acts)) && !Guarded(Step(Exec(w0, acts), a)) && Stored(Exec(w0, acts), c)
    ensures i < |acts| && ServesDelete(Exec(w0, acts[..i]), acts[i], c)
  {
    FinalizerOutlivesCredential(w0, acts, a, names, u);
    InitialInv(w0, names, u);
    RunKeeps(w0, acts, names, u);
    assert PastDelete(Exec(w0, acts), c);
    hide Inv, Initial, Step, Guarded;
    i := PastDeleteThroughServed(w0, acts, c, names, u);
  }

  /** In every run a recorded credential comes with its owner, so finalization never skips it. */
  lemma RecordedHasOwner(w0: World, acts: seq<Action>, names: set<string>, u: Id)
    requires Initial(w0, names, u) && StableRun(acts, names, u)
    ensures var o := Exec(w0, acts).store.obj;
            o.Some? && o.value.status.credentialID.Some? ==>
              o.value.status.userID == Some(u) && o.value.finalizer
  {
    InitialInv(w0, names, u);
    RunKeeps(w0, acts, names, u);
  }

  /** What a pass leaves when it ends Ready and its status is saved. */
  ghost predicate Exact(w: World, r: Read, u: Id) {
    && w.flight.Idle? && w.store.obj.Some?
    && var st := w.store.obj.value.status;
       && st.ready == IsReady && st.userID == Some(u) && st.credentialID.Some?
       && st.applied == VersionOf(r) && Genuine(w.history, r)
       && st.credentialID.value in w.made && w.made[st.credentialID.value] == Cred(u, r.password)
       && (st.credentialID.value in w.creds ==> w.creds[st.credentialID.value] == Cred(u, r.password))
  }

  lemma PasswordOfRead(w: World, names: set<string>, u: Id)
    requires Inv(w, names, u) && w.flight.Saving?
    ensures var c := w.flight.status.credentialID.value;
            c in w.made && w.made[c] == Cred(u, w.flight.read.password)
  {
    var c := w.flight.status.credentialID.value;
    var r :| Genuine(w.history, r) && w.flight.status.applied == VersionOf(r) && w.made[c].password == r.password;
    VersionInjective(w.history, r, w.flight.read);
  }

  /**
   * A pass that ends Ready with its status saved leaves the version text of exactly the Secret
   * revision it read, and the recorded credential was created from that revision's password; if it
   * still exists on the server, that is its password.
   */
  lemma ReadyMeansThisRevision(w0: World, acts: seq<Action>, f: Fault, names: set<string>, u: Id)
    requires Initial(w0, names, u) && StableRun(acts, names, u)
    requires var w := Exec(w0, acts); w.flight.Saving? && Accepts(w.store, w.flight.base, f)
    ensures var w := Exec(w0, acts); Exact(Step(w, Call(f)), w.flight.read, u)
  {
    InitialInv(w0, names, u);
    RunKeeps(w0, acts, names, u);
    var w := Exec(w0, acts);
    PasswordOfRead(w, names, u);
    assert w.flight.status.ready == IsReady;
  }
}
