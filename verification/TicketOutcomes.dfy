/** What each call of the ticket controller leads to, and what a stored status proves. */
module TicketOutcomes {
  import opened Base
  import opened Client
  import opened Kube
  import opened Passes
  import opened Ticket
  import opened TicketRuns

  // ---- One call ----

  /** A pass starts if and only if the resource is read and exists. */
  lemma FetchOutcome(w: World, f: Fault)
    requires w.flight.Idle?
    ensures CallStep(w, f).flight ==
            if f.Served? && w.store.obj.Some? then Connecting(w.store.obj.value) else Idle
  {
  }

  /** With the finalizer stored: a ticket is created unless one is recorded. */
  function Next(b: Resource): Flight {
    if b.status.ticketID.Some? then Saving(b, b.status.(ready := IsReady)) else Creating(b)
  }

  /** With the client in hand: finalize a marked resource, adopt one without finalizer, or go on. */
  lemma ConnectOutcome(w: World, f: Fault)
    requires w.flight.Connecting?
    ensures var b := w.flight.base;
            CallStep(w, f).flight ==
            if !f.Served? then Noting(b, b.status.(ready := NotReady(ClientError)))
            else if !b.deleting then (if b.finalizer then Next(b) else Adopting(b))
            else if !b.finalizer then Idle
            else if b.status.ticketID.Some? then Deleting(b, b.status.ticketID.value)
            else if b.status.secretRef then Finding(b)
            else Releasing(b)
  {
  }

  /** Adopting: the pass goes on with what is now stored if and only if the write was served and landed. */
  lemma AdoptOutcome(w: World, f: Fault)
    requires w.flight.Adopting? && Tracks(w.store, w.flight.base) && !w.flight.base.deleting
    ensures var w' := CallStep(w, f);
            if f.Served? && Lands(w.store, w.flight.base, f)
            then w'.store.obj.Some? && w'.flight == Next(w'.store.obj.value) && w'.store.obj.value.finalizer
            else w'.flight.Idle?
  {
    FinalizerWriteOutcome(w.store, w.flight.base, true, f);
  }

  /** Releasing: a marked resource is gone exactly when the write lands, served or not; the pass ends. */
  lemma ReleaseOutcome(w: World, f: Fault)
    requires w.flight.Releasing? && Tracks(w.store, w.flight.base) && w.flight.base.deleting
    ensures var w' := CallStep(w, f);
            && w'.flight.Idle?
            && (if Lands(w.store, w.flight.base, f) then w'.store.obj.None? else w'.store == w.store)
  {
    FinalizerWriteOutcome(w.store, w.flight.base, false, f);
  }

  /** A create: the pass goes on with the new ticket, made of the spec, if and only if it is served. */
  lemma CreateOutcome(w: World, f: Fault)
    requires w.flight.Creating?
    ensures var w', b := CallStep(w, f), w.flight.base;
            && (w'.flight.Storing? <==> f.Served?) && (w'.flight.Noting? <==> !f.Served?)
            && w'.flight.base == b && w'.secret == w.secret
            && w'.flight.status == (if f.Served? then b.status.(ticketID := Some(w.nextId))
                                    else b.status.(ready := NotReady(CreateFailed)))
            && (f.Served? || f.Lost? ==>
                  && w'.tickets == w.tickets[w.nextId := w'.tickets[w.nextId]]
                  && Carries(w'.tickets[w.nextId], b.spec) && w'.made[w.nextId] == w'.tickets[w.nextId])
            && (!f.Served? && !f.Lost? ==> w'.tickets == w.tickets && w'.made == w.made)
  {
  }

  /** The Secret: Ready if and only if it is served with none there; it then holds the ticket's value. */
  lemma StoreOutcome(w: World, f: Fault)
    requires w.flight.Storing?
    ensures var w', fl := CallStep(w, f), w.flight;
            var created := f.Served? && w.secret.None?;
            && (w'.flight.Saving? <==> created) && (w'.flight.Noting? <==> !created) && w'.flight.base == fl.base
            && w'.flight.status == (if created then Status(fl.status.ticketID, true, IsReady)
                                    else fl.status.(ready := NotReady(SecretCreateFailed)))
            && w'.secret == (if (f.Served? || f.Lost?) && w.secret.None? then fl.status.ticketID else w.secret)
            && w'.tickets == w.tickets
  {
  }

  /** Finalization goes on past a served delete, and on to the Secret if one is recorded. */
  lemma DeleteOutcome(w: World, f: Fault)
    requires w.flight.Deleting?
    ensures var w', b := CallStep(w, f), w.flight.base;
            && w'.flight == (if !f.Served? then Idle else if b.status.secretRef then Finding(b) else Releasing(b))
            && w'.tickets == (if f.Served? || f.Lost? then w.tickets - {w.flight.id} else w.tickets)
  {
    DeleteSettled(f, if w.flight.id in w.tickets then 204 else 404);
    hide ErrorOf;
  }

  /** The Secret is deleted if it can be read; only a failed deletion stops the pass. */
  lemma DropOutcome(w: World, f: Fault)
    ensures w.flight.Finding? ==>
              CallStep(w, f).flight ==
              if f.Served? && w.secret.Some? then Dropping(w.flight.base) else Releasing(w.flight.base)
    ensures w.flight.Dropping? ==>
              && CallStep(w, f).flight == (if f.Served? then Releasing(w.flight.base) else Idle)
              && CallStep(w, f).secret == (if f.Served? || f.Lost? then None else w.secret)
  {
    hide Deleted;
  }

  lemma WriteOutcome(w: World, f: Fault)
    requires Writes(w.flight)
    ensures var fl := Write(w, f).flight;
            fl.Idle? || (w.flight.Adopting? && f.Served? &&
                         ((fl.Creating? && fl.base.status.ticketID.None?) || FoundReady(fl)))
  {
    hide SaveStatus, SaveFinalizer;
  }

  /** The pass found a ticket recorded and has nothing to do but say Ready. */
  predicate FoundReady(f: Flight) {
    f.Saving? && f.base.status.ticketID.Some? && f.status == f.base.status.(ready := IsReady)
  }

  /** What the pass has seen when it notes a failure. */
  ghost predicate Explains(w: World, f: Fault, reason: Reason) {
    match w.flight
    case Connecting(_) => !f.Served? && reason == ClientError
    case Creating(_) => !f.Served? && reason == CreateFailed
    case Storing(_, _) => !(f.Served? && w.secret.None?) && reason == SecretCreateFailed
    case _ => false
  }

  lemma LookOutcome(w: World, f: Fault, reason: Reason)
    requires Looks(w.flight)
    ensures var fl := Look(w, f);
            && (fl.Noting? && fl.status.ready == NotReady(reason) <==> Explains(w, f, reason))
            && (fl.Noting? ==> fl.status.ready.NotReady? && w.flight.Connecting? && fl.base == w.flight.base
                               && fl.status == fl.base.status.(ready := NotReady(ClientError)))
            && (fl.Saving? ==> w.flight.Connecting? && FoundReady(fl))
            && (fl.Creating? ==> fl.base.status.ticketID.None?)
            && !fl.Storing?
  {
  }

  /** A call leads to a noted failure exactly when its outcome explains the reason given. */
  lemma NotedIff(w: World, f: Fault, reason: Reason)
    ensures var fl := CallStep(w, f).flight;
            fl.Noting? && fl.status.ready == NotReady(reason) <==> Explains(w, f, reason)
  {
    if Looks(w.flight) {
      LookOutcome(w, f, reason);
      hide Look, Explains;
    } else if Writes(w.flight) {
      WriteOutcome(w, f);
      hide Write;
    } else if w.flight.Creating? {
      CreateOutcome(w, f);
      hide CallStep;
    } else if w.flight.Storing? {
      StoreOutcome(w, f);
      hide CallStep;
    } else if w.flight.Deleting? {
      DeleteOutcome(w, f);
      hide CallStep;
    } else {
      DropOutcome(w, f);
      hide CallStep;
    }
  }

  // ---- Over runs ----

  ghost predicate StoredStatus(w: World, st: Status) {
    w.store.obj.Some? && w.store.obj.value.status == st
  }

  /** The step stores the status the pass has arrived at. */
  ghost predicate Stores(w: World, a: Action, st: Status) {
    && a.Call? && (w.flight.Saving? || w.flight.Noting?) && w.flight.status == st
    && Accepts(w.store, w.flight.base, a.fault)
  }

  lemma WriteStores(w: World, f: Fault, st: Status)
    requires Inv(w) && Writes(w.flight) && !StoredStatus(w, st) && StoredStatus(Write(w, f), st)
    ensures Stores(w, Call(f), st)
  {
    hide Core, ObjOk;
  }

  lemma OrderStoresNothing(w: World, f: Fault)
    requires !Looks(w.flight) && !Writes(w.flight)
    ensures Order(w, f).store == w.store
  {
    hide CreateNext, StoreNext, DeleteNext;
  }

  lemma StoredEntry(w: World, a: Action, st: Status)
    requires Inv(w) && !StoredStatus(w, st) && StoredStatus(Step(w, a), st) && st != Blank
    ensures Stores(w, a, st)
  {
    match a {
      case Others(e) =>
        if e.Change? {
          AdmittedKeeps(w.store, e.edit);
        }
        hide Admitted, Inv;
      case Crash =>
      case Call(f) =>
        if Looks(w.flight) {
          hide Look, Inv;
        } else if Writes(w.flight) {
          WriteStores(w, f, st);
          hide Write, Inv;
        } else {
          OrderStoresNothing(w, f);
          hide Order, Inv;
        }
    }
  }

  ghost function At(w0: World, acts: seq<Action>, i: nat): World
    requires i <= |acts|
  {
    Exec(w0, acts[..i])
  }

  function FlightOf(w: World): Flight {
    w.flight
  }

  lemma OnlyCallsMove()
    ensures CallsMove(Step, FlightOf, Idle)
  {
    hide CallStep;
  }

  lemma StoredBy(w0: World, acts: seq<Action>, st: Status) returns (n: nat)
    requires Initial(w0) && StoredStatus(Exec(w0, acts), st) && st != Blank
    ensures n < |acts| && Stores(At(w0, acts, n), acts[n], st)
    ensures if At(w0, acts, n).flight.Saving? then st.ready.IsReady? else st.ready.NotReady?
  {
    n := Since(Step, w0, acts, w => StoredStatus(w, st));
    InitialInv(w0);
    RunKeeps(w0, acts[..n]);
    hide Step;
    StoredEntry(At(w0, acts, n), acts[n], st);
    hide Core, ObjOk;
  }

  /**
   * In every run: a stored failure was stored, at a step n, by a pass whose last call before, at
   * step i, had exactly the outcome the reason stands for.
   */
  lemma FailureWasSeen(w0: World, acts: seq<Action>, st: Status) returns (i: nat, n: nat)
    requires Initial(w0) && StoredStatus(Exec(w0, acts), st) && st.ready.NotReady?
    ensures n < |acts| && Stores(At(w0, acts, n), acts[n], st)
    ensures Stays(Step, FlightOf, w0, acts, i, n) && Explains(At(w0, acts, i), acts[i].fault, st.ready.reason)
  {
    n := StoredBy(w0, acts, st);
    OnlyCallsMove();
    hide CallStep, Explains;
    i := EnteredBefore(Step, FlightOf, Idle, w0, acts, n);
    NotedIff(At(w0, acts, i), acts[i].fault, st.ready.reason);
  }

  /** The Secret of the ticket was created by this call. */
  ghost predicate CreatesSecret(w: World, f: Fault, b: Resource, st: Status) {
    && f.Served? && w.flight.Storing? && w.secret.None? && w.flight.base == b
    && st == Status(w.flight.status.ticketID, true, IsReady)
    && CallStep(w, f).secret == st.ticketID
  }

  /** A ticket is made by this call, from the spec of the resource the pass has read. */
  ghost predicate ServesCreate(w: World, f: Fault, b: Resource, c: Id) {
    && f.Served? && w.flight == Creating(b) && c == w.nextId
    && c in CallStep(w, f).tickets && Carries(CallStep(w, f).tickets[c], b.spec)
  }

  /** The calls that lead to a Ready status, and to the Secret of a new ticket. */
  lemma EntryOutcome(w: World, f: Fault)
    ensures var fl := CallStep(w, f).flight;
            && (fl.Saving? ==> CreatesSecret(w, f, fl.base, fl.status)
                               || (FoundReady(fl) && (w.flight.Connecting? || w.flight.Adopting?)))
            && (fl.Storing? ==>
                  && fl.status.ticketID.Some? && ServesCreate(w, f, fl.base, fl.status.ticketID.value)
                  && fl.status == fl.base.status.(ticketID := fl.status.ticketID))
  {
    if Looks(w.flight) {
      LookOutcome(w, f, NotFound);
      hide Look;
    } else if Writes(w.flight) {
      WriteOutcome(w, f);
      hide Write;
    } else if w.flight.Creating? {
      CreateOutcome(w, f);
      hide CallStep;
    } else if w.flight.Storing? {
      StoreOutcome(w, f);
      hide CallStep;
    } else if w.flight.Deleting? {
      DeleteOutcome(w, f);
      hide CallStep;
    } else {
      DropOutcome(w, f);
      hide CallStep;
    }
  }

  /**
   * In every run: a resource stored as Ready was stored so, at a step n, by a pass that either found
   * a ticket recorded already, or created the Secret at step j and, at step i before it, a ticket
   * that carries the spec the pass had read.
   */
  lemma ReadyWasEarned(w0: World, acts: seq<Action>, st: Status) returns (i: nat, j: nat, n: nat)
    requires Initial(w0) && StoredStatus(Exec(w0, acts), st) && st.ready.IsReady?
    ensures n < |acts| && Stores(At(w0, acts, n), acts[n], st) && st.ticketID.Some?
    ensures Stays(Step, FlightOf, w0, acts, j, n)
    ensures var fl := At(w0, acts, n).flight;
            || FoundReady(fl)
            || (&& CreatesSecret(At(w0, acts, j), acts[j].fault, fl.base, st)
                && Stays(Step, FlightOf, w0, acts, i, j)
                && ServesCreate(At(w0, acts, i), acts[i].fault, fl.base, st.ticketID.value))
  {
    n := StoredBy(w0, acts, st);
    OnlyCallsMove();
    hide CallStep;
    j := EnteredBefore(Step, FlightOf, Idle, w0, acts, n);
    EntryOutcome(At(w0, acts, j), acts[j].fault);
    i := 0;
    if At(w0, acts, j).flight.Storing? {
      i := EnteredBefore(Step, FlightOf, Idle, w0, acts, j);
      EntryOutcome(At(w0, acts, i), acts[i].fault);
    }
  }
}
