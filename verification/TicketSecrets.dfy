/** When a stored ticket has its Secret: exactly when the one call that could create it did. */
module TicketSecrets {
  import opened Base
  import opened Client
  import opened Kube
  import opened Passes
  import opened Ticket
  import opened TicketRuns

  /** The pass under way is about to create the Secret of ticket c. */
  predicate StoresSecretOf(w: World, c: Id) {
    w.flight.Storing? && w.flight.status.ticketID == Some(c)
  }

  /** The call creates the Secret, and the pass learns of it. */
  predicate SecretCreated(w: World, f: Fault) {
    f.Served? && w.secret.None?
  }

  /**
   * Whatever becomes of the call that creates the Secret: if the status write after it lands, the
   * ticket is stored, and its Secret is recorded if and only if the call was served and no Secret
   * of that name was there; then the Secret holds the ticket's value.
   */
  lemma SecretRecordedIff(w: World, c: Id, f: Fault, g: Fault)
    requires Inv(w) && StoresSecretOf(w, c)
    requires Accepts(w.store, w.flight.base, g)
    ensures var w2 := CallStep(CallStep(w, f), g);
            && w2.store.obj.Some? && w2.store.obj.value.status.ticketID == Some(c)
            && (w2.store.obj.value.status.secretRef <==> SecretCreated(w, f))
            && (w2.store.obj.value.status.secretRef ==> w2.secret == Some(c))
            && (w2.store.obj.value.status.ready.IsReady? <==> SecretCreated(w, f))
  {
    var b, status := w.flight.base, w.flight.status;
    assert !status.secretRef && b.status.ticketID.None?;
    hide Inv;
    var w1 := CallStep(w, f);
    assert w1.flight == StoreNext(w.secret, b, status, f) && w1.store == w.store;
  }

  predicate Names(st: Status, c: Id, recorded: bool) {
    st.ticketID == Some(c) && st.secretRef == recorded
  }

  /** Ticket c is stored, or known to the pass under way from a read or for its status write. */
  predicate Appears(w: World, c: Id, recorded: bool) {
    || (w.store.obj.Some? && Names(w.store.obj.value.status, c, recorded))
    || (!w.flight.Idle? && Names(w.flight.base.status, c, recorded))
    || ((w.flight.Saving? || w.flight.Noting?) && Names(w.flight.status, c, recorded))
  }

  lemma EditShowsNoMore(w: World, e: Env, c: Id, recorded: bool)
    requires Inv(w) && Appears(EnvStep(w, e), c, recorded)
    ensures Appears(w, c, recorded)
  {
    if e.Change? {
      AdmittedKeeps(w.store, e.edit);
    }
    hide Inv, Admitted;
  }

  lemma StoringShows(w: World, f: Fault, c: Id, recorded: bool)
    requires Inv(w) && w.flight.Storing? && Appears(CallStep(w, f), c, recorded)
    ensures Appears(w, c, recorded) || (StoresSecretOf(w, c) && recorded == SecretCreated(w, f))
  {
    assert !w.flight.status.secretRef;
    hide Inv;
    assert CallStep(w, f).flight == StoreNext(w.secret, w.flight.base, w.flight.status, f);
  }

  lemma WriteShowsNoMore(w: World, f: Fault, c: Id, recorded: bool)
    requires Inv(w) && Writes(w.flight) && Appears(Write(w, f), c, recorded)
    ensures Appears(w, c, recorded)
  {
    hide Inv;
  }

  lemma OtherCallShowsNoMore(w: World, f: Fault, c: Id, recorded: bool)
    requires Inv(w) && !w.flight.Storing? && !Writes(w.flight) && Appears(CallStep(w, f), c, recorded)
    ensures Appears(w, c, recorded)
  {
    hide Inv, Deleted;
  }

  /** A ticket appears with its Secret recorded or not only where the call for its Secret decided so. */
  lemma StepShows(w: World, a: Action, c: Id, recorded: bool)
    requires Inv(w) && Appears(Step(w, a), c, recorded)
    ensures Appears(w, c, recorded) || (StoresSecretOf(w, c) && a.Call? && recorded == SecretCreated(w, a.fault))
  {
    match a {
      case Others(e) => EditShowsNoMore(w, e, c, recorded);
      case Crash => hide Inv;
      case Call(f) =>
        if w.flight.Storing? {
          StoringShows(w, f, c, recorded);
        } else if Writes(w.flight) {
          WriteShowsNoMore(w, f, c, recorded);
        } else {
          OtherCallShowsNoMore(w, f, c, recorded);
        }
    }
  }

  /** At step i of the run the call for the Secret of ticket c is made, with this outcome. */
  predicate DecidedAt(w0: World, acts: seq<Action>, i: nat, c: Id, recorded: bool) {
    && i < |acts| && acts[i].Call? && StoresSecretOf(Exec(w0, acts[..i]), c)
    && recorded == SecretCreated(Exec(w0, acts[..i]), acts[i].fault)
  }

  /** Every ticket that appears in a run went through such a call. */
  lemma AppearsThroughCall(w0: World, acts: seq<Action>, c: Id, recorded: bool) returns (i: nat)
    requires Initial(w0) && Appears(Exec(w0, acts), c, recorded)
    ensures DecidedAt(w0, acts, i, c, recorded)
  {
    i := Since(Step, w0, acts, (w: World) => Appears(w, c, recorded));
    InitialInv(w0);
    RunKeeps(w0, acts[..i]);
    hide Inv, Step, Appears, SecretCreated;
    StepShows(Exec(w0, acts[..i]), acts[i], c, recorded);
  }

  // ---- It is one call ----

  /** The call for the Secret of ticket c has been made, and will not be made again. */
  predicate Spent(w: World, c: Id) {
    c < w.nextId && !StoresSecretOf(w, c)
  }

  lemma StepKeepsSpent(w: World, a: Action, c: Id)
    requires Spent(w, c)
    ensures Spent(Step(w, a), c)
  {
    hide Deleted, Admitted, ErrorOf;
  }

  lemma CallSpends(w: World, f: Fault, c: Id)
    requires Inv(w) && StoresSecretOf(w, c)
    ensures Spent(CallStep(w, f), c)
  {
    assert c in w.made && c < w.nextId;
    hide Inv;
  }

  lemma {:induction false} RunKeepsSpent(w: World, acts: seq<Action>, c: Id)
    requires Spent(w, c)
    ensures Spent(Exec(w, acts), c)
    decreases |acts|
  {
    if acts != [] {
      StepKeepsSpent(w, acts[0], c);
      hide Spent, Step;
      RunKeepsSpent(Step(w, acts[0]), acts[1..], c);
    }
  }

  /** Of two such calls for one ticket in one run, neither comes before the other. */
  lemma DecidedOnce(w0: World, acts: seq<Action>, i: nat, j: nat, c: Id, r: bool, r': bool)
    requires Initial(w0) && DecidedAt(w0, acts, i, c, r) && DecidedAt(w0, acts, j, c, r')
    ensures i >= j
  {
    if i < j {
      InitialInv(w0);
      RunKeeps(w0, acts[..i]);
      var w := Exec(w0, acts[..i]);
      CallSpends(w, acts[i].fault, c);
      var rest := acts[i + 1..j];
      FoldLast(Step, w0, acts[..i], acts[i]);
      FoldAppend(Step, w0, acts[..i] + [acts[i]], rest);
      assert acts[..i + 1] == acts[..i] + [acts[i]] && acts[..j] == acts[..i + 1] + rest;
      RunKeepsSpent(Step(w, acts[i]), rest, c);
      hide Inv, Initial, Step;
      assert false;
    }
  }

  /**
   * In every run a stored ticket went through exactly one call for its Secret, and its Secret is
   * recorded if and only if that call was served with no Secret of that name there. A Ready ticket
   * has its Secret exactly under this condition: later passes neither add nor drop it.
   */
  lemma StoredSecretIff(w0: World, acts: seq<Action>, c: Id) returns (i: nat)
    requires Initial(w0) && Stored(Exec(w0, acts), c)
    ensures var recorded := Exec(w0, acts).store.obj.value.status.secretRef;
            && DecidedAt(w0, acts, i, c, recorded)
            && forall j, r :: DecidedAt(w0, acts, j, c, r) ==> j == i && r == recorded
  {
    var recorded := Exec(w0, acts).store.obj.value.status.secretRef;
    i := AppearsThroughCall(w0, acts, c, recorded);
    forall j, r | DecidedAt(w0, acts, j, c, r)
      ensures j == i && r == recorded
    {
      DecidedOnce(w0, acts, i, j, c, recorded, r);
      DecidedOnce(w0, acts, j, i, c, r, recorded);
    }
  }

  /**
   * Whatever becomes of that call - refused, unsent, its reply lost - if it does not create the
   * Secret, then wherever the ticket's id is stored the Secret is not recorded, in any run after it.
   */
  lemma SecretFate(w0: World, before: seq<Action>, f: Fault, acts: seq<Action>, c: Id)
    requires Initial(w0) && StoresSecretOf(Exec(w0, before), c)
    requires Stored(Exec(w0, before + [Call(f)] + acts), c)
    ensures Exec(w0, before + [Call(f)] + acts).store.obj.value.status.secretRef <==> SecretCreated(Exec(w0, before), f)
  {
    var all, n := before + [Call(f)] + acts, |before|;
    assert all[..n] == before && all[n] == Call(f);
    assert DecidedAt(w0, all, n, c, SecretCreated(Exec(w0, before), f));
    var i := StoredSecretIff(w0, all, c);
  }

  /** A resource as the next pass finds it: with the finalizer and a recorded ticket, not marked. */
  predicate Settled(w: World) {
    && w.flight.Idle? && w.store.obj.Some? && w.store.obj.value.finalizer && !w.store.obj.value.deleting
    && w.store.obj.value.status.ticketID.Some?
  }

  /**
   * A recorded ticket is reported Ready by the next undisturbed pass in any case, with or without
   * its Secret, and nothing else changes.
   */
  lemma NextPassIsReady(w: World)
    requires Settled(w)
    ensures var w' := CallStep(CallStep(CallStep(w, Served), Served), Served);
            var o := w.store.obj.value;
            && w'.flight.Idle? && w'.tickets == w.tickets && w'.secret == w.secret && w'.lost == w.lost
            && w'.store.obj.Some? && w'.store.obj.value.status == o.status.(ready := IsReady)
  {
    var o := w.store.obj.value;
    assert CallStep(w, Served) == w.(flight := Connecting(o));
    assert CallStep(CallStep(w, Served), Served) == w.(flight := Saving(o, o.status.(ready := IsReady)));
  }
}
