/** Accounting for the generated passwords: which credentials a user resource made, and what became of them. */
module UserPasswords {
  import opened Base
  import opened Client
  import opened Kube
  import opened Passes
  import opened User
  import opened UserRuns

  /** The credentials created for this resource, and those whose creation it could not record. */
  datatype Tally = Tally(minted: set<Id>, stray: set<Id>)

  /** The credential ids only the memory of the pass under way holds. */
  function Unrecorded(f: Flight): set<Id> {
    if f.Storing? then {f.cred}
    else if f.Saving? && f.status.credentialID.Some? && f.status.credentialID != f.base.status.credentialID then
      {f.status.credentialID.value}
    else {}
  }

  /** The step makes a credential for this resource. */
  predicate Mints(w: World, a: Action) {
    w.flight.Generating? && a.Call? && TakesEffect(a.fault) && w.flight.user in w.users
  }

  /** The step forgets what the pass under way has not stored: a crash, a failed Secret, a write that does not land. */
  predicate Forgets(w: World, a: Action) {
    || a.Crash?
    || (a.Call? && w.flight.Storing? && !a.fault.Served?)
    || (a.Call? && w.flight.Saving? && !Accepts(w.store, w.flight.base, a.fault))
  }

  function Count(w: World, t: Tally, a: Action): Tally {
    Tally(t.minted + (if Mints(w, a) then {w.nextId} else {}),
          t.stray + (if Mints(w, a) && !a.fault.Served? then {w.nextId} else {})
                  + (if Forgets(w, a) then Unrecorded(w.flight) else {}))
  }

  /** The books of a whole run. */
  function Books(w0: World, acts: seq<Action>): Tally
    decreases |acts|
  {
    if acts == [] then Tally({}, {})
    else
      var n := |acts| - 1;
      Count(Exec(w0, acts[..n]), Books(w0, acts[..n]), acts[n])
  }

  ghost predicate StoredCred(w: World, c: Id) {
    w.store.obj.Some? && w.store.obj.value.status.credentialID == Some(c)
  }

  /** A credential named by a status belongs, while it exists, to the user the status names. */
  ghost predicate Linked(w: World, st: Status) {
    st.credentialID.Some? && st.credentialID.value in w.creds ==>
      st.externalID == Some(w.creds[st.credentialID.value])
  }

  ghost predicate ObjLinked(w: World, o: Resource) {
    Linked(w, o.status) && (!o.finalizer ==> o.status.credentialID.None?)
  }

  ghost predicate OwnersExist(w: World) {
    forall c :: c in w.creds ==> w.creds[c] in w.users
  }

  ghost predicate FlightLinked(w: World) {
    && (!w.flight.Idle? ==> ObjLinked(w, w.flight.base))
    && (HasStatus(w.flight) ==> Linked(w, w.flight.status))
    && (w.flight.Noting? ==> w.flight.status.credentialID == w.flight.base.status.credentialID)
    && (w.flight.Saving? && w.flight.base.status.credentialID.Some? ==>
          w.flight.status.credentialID == w.flight.base.status.credentialID)
    && (w.flight.Generating? || w.flight.Storing? ==>
          w.flight.base.status.credentialID.None? && w.flight.status.credentialID.None?)
    && (w.flight.Storing? && w.flight.cred in w.creds ==>
          w.flight.status.externalID == Some(w.creds[w.flight.cred]))
  }

  ghost predicate Balanced(w: World, t: Tally) {
    && (forall c :: c in t.minted ==> c < w.nextId)
    && t.stray <= t.minted && Unrecorded(w.flight) <= t.minted
    && forall c :: c in t.minted && c in w.creds ==> StoredCred(w, c) || c in t.stray || c in Unrecorded(w.flight)
  }

  ghost predicate Links(w: World) {
    && OwnersExist(w)
    && (w.store.obj.Some? ==> ObjLinked(w, w.store.obj.value))
    && FlightLinked(w)
  }

  ghost predicate All(w: World, t: Tally) {
    Inv(w) && Links(w) && Balanced(w, t)
  }

  lemma EnvLinks(w: World, e: Env)
    requires Inv(w) && Links(w)
    ensures Links(EnvStep(w, e))
  {
    hide Tracks, CredThere, Accounted;
  }

  lemma EnvBalances(w: World, t: Tally, e: Env)
    requires All(w, t)
    ensures Balanced(EnvStep(w, e), Count(w, t, Others(e)))
  {
    hide FlightLinked, FlightOk;
  }

  lemma LookLinks(w: World, f: Fault)
    requires Inv(w) && Links(w) && Looks(w.flight)
    ensures Links(CallStep(w, f))
  {
    hide Core;
  }

  lemma WriteLinks(w: World, f: Fault)
    requires Inv(w) && Links(w) && Writes(w.flight)
    ensures Links(CallStep(w, f))
  {
    hide Core;
  }

  lemma RemoveLinks(w: World, f: Fault)
    requires Inv(w) && Links(w) && Removes(w.flight)
    ensures Links(CallStep(w, f))
  {
    hide Inv, Deleted;
  }

  lemma CreateLinks(w: World, f: Fault)
    requires Inv(w) && Links(w) && w.flight.Creating?
    ensures Links(CallStep(w, f))
  {
    assert w.flight.base.status.externalID.None?;
    hide Inv;
  }

  lemma UpdateLinks(w: World, f: Fault)
    requires Inv(w) && Links(w) && w.flight.Updating?
    ensures Links(CallStep(w, f))
  {
    assert w.flight.base.status.externalID == Some(w.flight.user);
    DeleteSettled(f, if w.flight.user in w.users then 200 else 404);
    hide Inv, ErrorOf;
  }

  lemma GenerateLinks(w: World, f: Fault)
    requires Inv(w) && Links(w) && (w.flight.Generating? || w.flight.Storing?)
    ensures Links(CallStep(w, f))
  {
    if w.flight.Generating? {
      GeneratingUser(w);
    }
    hide FlightOk, Accounted, LedgerOk;
  }

  lemma GeneratingUser(w: World)
    requires Inv(w) && w.flight.Generating?
    ensures w.flight.status.externalID == Some(w.flight.user)
  {
  }

  lemma StepLinks(w: World, a: Action)
    requires Inv(w) && Links(w)
    ensures Links(Step(w, a))
  {
    hide Inv, Links;
    match a {
      case Others(e) => EnvLinks(w, e);
      case Crash => CrashLinks(w);
      case Call(f) =>
        if Looks(w.flight) {
          LookLinks(w, f);
        } else if Writes(w.flight) {
          WriteLinks(w, f);
        } else if Removes(w.flight) {
          RemoveLinks(w, f);
        } else if w.flight.Creating? {
          CreateLinks(w, f);
        } else if w.flight.Updating? {
          UpdateLinks(w, f);
        } else {
          GenerateLinks(w, f);
        }
    }
  }

  lemma CrashLinks(w: World)
    requires Links(w)
    ensures Links(Step(w, Crash))
  {
  }

  // ---- The books ----

  lemma ReleaseBalances(w: World, t: Tally, f: Fault)
    requires All(w, t) && w.flight.Releasing?
    ensures Balanced(CallStep(w, f), Count(w, t, Call(f)))
  {
    hide Accounted, LedgerOk;
  }

  lemma SaveBalances(w: World, t: Tally, f: Fault)
    requires All(w, t) && (w.flight.Saving? || w.flight.Noting? || w.flight.Adopting?)
    ensures Balanced(CallStep(w, f), Count(w, t, Call(f)))
  {
    hide Accounted, LedgerOk, ObjOk;
  }

  lemma LookBalances(w: World, t: Tally, f: Fault)
    requires All(w, t) && Looks(w.flight)
    ensures Balanced(CallStep(w, f), Count(w, t, Call(f)))
  {
    hide Inv, Links;
  }

  lemma RemoveBalances(w: World, t: Tally, f: Fault)
    requires All(w, t) && Removes(w.flight)
    ensures Balanced(CallStep(w, f), Count(w, t, Call(f)))
  {
    hide Inv, Links, Deleted;
  }

  lemma CreateBalances(w: World, t: Tally, f: Fault)
    requires All(w, t) && (w.flight.Creating? || w.flight.Updating?)
    ensures Balanced(CallStep(w, f), Count(w, t, Call(f)))
  {
    assert forall c :: c in w.creds ==> c < w.nextId;
    hide Inv, Links, ErrorOf;
  }

  lemma GenerateBalances(w: World, t: Tally, f: Fault)
    requires All(w, t) && (w.flight.Generating? || w.flight.Storing?)
    ensures Balanced(CallStep(w, f), Count(w, t, Call(f)))
  {
    assert w.flight.base.status.credentialID.None?;
    hide Inv, Links;
  }

  lemma CrashBalances(w: World, t: Tally)
    requires All(w, t)
    ensures Balanced(Step(w, Crash), Count(w, t, Crash))
  {
    hide Inv, Links;
  }

  lemma StepBalances(w: World, t: Tally, a: Action)
    requires All(w, t)
    ensures Balanced(Step(w, a), Count(w, t, a))
  {
    hide All, Balanced, Count;
    match a {
      case Others(e) => EnvBalances(w, t, e);
      case Crash => CrashBalances(w, t);
      case Call(f) =>
        if Looks(w.flight) {
          LookBalances(w, t, f);
        } else if Removes(w.flight) {
          RemoveBalances(w, t, f);
        } else if w.flight.Releasing? {
          ReleaseBalances(w, t, f);
        } else if Writes(w.flight) {
          SaveBalances(w, t, f);
        } else if w.flight.Creating? || w.flight.Updating? {
          CreateBalances(w, t, f);
        } else {
          GenerateBalances(w, t, f);
        }
    }
  }

  lemma {:induction false} RunBalances(w0: World, acts: seq<Action>)
    requires Initial(w0) && OwnersExist(w0)
    ensures All(Exec(w0, acts), Books(w0, acts))
    decreases |acts|
  {
    if acts == [] {
      InitialInv(w0);
    } else {
      var n := |acts| - 1;
      var w, t := Exec(w0, acts[..n]), Books(w0, acts[..n]);
      RunBalances(w0, acts[..n]);
      FoldSplit(Step, w0, acts);
      StepKeeps(w, acts[n]);
      StepLinks(w, acts[n]);
      StepBalances(w, t, acts[n]);
      hide Inv, Links, Balanced, Step, Count, Initial;
    }
  }

  /**
   * After any run a live credential generated for this resource is the one in its stored status, or
   * is stray, or is held by the pass under way; once the resource is finalized only stray ones
   * remain. Stray are exactly those whose create reply was lost, or whose id was forgotten by a
   * crash, a Secret that could not be created, or a status write that did not land.
   */
  lemma LivePasswordsAreAccounted(w0: World, acts: seq<Action>)
    requires Initial(w0) && OwnersExist(w0)
    ensures var w, t := Exec(w0, acts), Books(w0, acts);
            && (forall c :: c in t.minted && c in w.creds ==>
                  StoredCred(w, c) || c in t.stray || c in Unrecorded(w.flight))
            && (w.flight.Idle? && w.store.obj.None? ==> forall c :: c in t.minted && c in w.creds ==> c in t.stray)
  {
    RunBalances(w0, acts);
    hide Inv, Links, Exec, Books;
  }
}
