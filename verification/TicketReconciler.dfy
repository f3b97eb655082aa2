/** Reconcile of a ticket as code, and its proof against the state machine. */
module TicketReconciler {
  import opened Base
  import opened Client
  import opened Kube
  import opened Passes
  import opened Ticket

  /** How many calls a pass can still make. */
  function Rank(f: Flight): nat {
    match f
    case Idle => 0
    case Connecting(_) => 5
    case Deleting(_, _) => 4
    case Finding(_) => 3
    case Dropping(_) => 2
    case Releasing(_) => 1
    case Adopting(_) => 4
    case Creating(_) => 3
    case Storing(_, _) => 2
    case Saving(_, _) => 1
    case Noting(_, _) => 1
  }

  lemma WriteRank(w: World, f: Fault)
    requires Writes(w.flight)
    ensures Rank(Write(w, f).flight) < Rank(w.flight)
  {
    hide SaveStatus, SaveFinalizer, Accepts;
  }

  lemma OrderRank(w: World, f: Fault)
    requires !Looks(w.flight) && !Writes(w.flight)
    ensures Rank(Order(w, f).flight) < Rank(w.flight)
  {
    hide Deleted, ErrorOf;
  }

  /** Every call brings the pass nearer to its end. */
  lemma RankFalls(w: World, f: Fault)
    requires !w.flight.Idle?
    ensures Rank(CallStep(w, f).flight) < Rank(w.flight)
  {
    if Writes(w.flight) {
      WriteRank(w, f);
      hide Rank, Write;
    } else if !Looks(w.flight) {
      OrderRank(w, f);
      hide Rank, Order;
    }
  }

  lemma StepsFall()
    ensures Falls(Step, RankOf)
  {
    forall w, f | RankOf(w) > 0
      ensures RankOf(Step(w, Call(f))) < RankOf(w)
    {
      RankFalls(w, f);
    }
    hide CallStep;
  }

  function RankOf(w: World): nat {
    Rank(w.flight)
  }

  /** The rest of a pass, and a whole one from an idle controller. */
  function Play(w: World, turns: nat -> Turn<Env>): World {
    PlayOut(Step, RankOf, w, turns)
  }

  function Pass(w: World, turns: nat -> Turn<Env>): World {
    WholePass(Step, RankOf, w, 6, turns)
  }

  /** One turn: others act, then the call under way is made. */
  lemma PlayTurn(w: World, turns: nat -> Turn<Env>)
    requires !w.flight.Idle?
    ensures var t := turns(RankOf(w));
            Play(w, turns) == Play(CallStep(EnvAll(Step, w, t.env), t.fault), turns)
  {
    StepsFall();
    EnvKeepsRank(Step, RankOf, w, turns(RankOf(w)).env);
    hide CallStep;
  }

  lemma PlayIdle(w: World, turns: nat -> Turn<Env>)
    requires w.flight.Idle?
    ensures Play(w, turns) == w
  {
  }

  /** A pass of the code is a run of the state machine that ends idle. */
  lemma PassIsRun(w: World, turns: nat -> Turn<Env>)
    ensures Exec(w, PassActs(Step, RankOf, w, 6, turns)) == Pass(w, turns)
    ensures Pass(w, turns).flight.Idle?
  {
    StepsFall();
    WholePassIsRun(Step, RankOf, w, 6, turns);
    hide Step;
  }

  /** One ticket resource, Warpgate's tickets, the Secret, and the controller working call by call. */
  class Controller {
    var store: Store<Spec, Status>
    var tickets: map<Id, Request>
    var nextId: Id
    var secret: Option<Id>
    ghost var made: map<Id, Request>
    ghost var lost: set<Id>

    constructor ()
      ensures Snap(Idle) == World(Store(None, 0), map[], 0, None, map[], {}, Idle)
    {
      store, tickets, nextId, secret := Store(None, 0), map[], 0, None;
      made, lost := map[], {};
    }

    /** The abstract world, with the pass under way at `flight`. */
    ghost function Snap(flight: Flight): World
      reads this
    {
      World(store, tickets, nextId, secret, made, lost, flight)
    }

    method Act(e: Env, ghost flight: Flight)
      modifies this
      ensures Snap(flight) == EnvStep(old(Snap(flight)), e)
    {
      match e {
        case Change(edit) => store := Admitted(store, edit);
        case AddTicket(r) =>
          tickets := tickets[nextId := r];
          nextId := nextId + 1;
        case DropTicket(id) => tickets := tickets - {id};
        case SetSecret(s) => secret := s;
      }
    }

    /** Others act while the pass is at `flight`. */
    method Interfere(es: seq<Env>, ghost flight: Flight)
      modifies this
      ensures Snap(flight) == EnvAll(Step, old(Snap(flight)), es)
    {
      NoEnv(Step, old(Snap(flight)));
      var i := 0;
      while i < |es|
        invariant i <= |es|
        invariant Snap(flight) == EnvAll(Step, old(Snap(flight)), es[..i])
      {
        EnvAllMore(Step, old(Snap(flight)), es[..i], es[i]);
        assert es[..i] + [es[i]] == es[..i + 1];
        Act(es[i], flight);
        i := i + 1;
      }
      assert es[..|es|] == es;
    }

    /** Others act, and then the call that `flight` stands for is due; it has turn n. */
    method Await(n: nat, turns: nat -> Turn<Env>, ghost flight: Flight)
      requires n == Rank(flight) > 0
      modifies this
      ensures Play(old(Snap(flight)), turns) == Play(CallStep(Snap(flight), turns(n).fault), turns)
      ensures var w := CallStep(Snap(flight), turns(n).fault); w.flight.Idle? ==> Play(w, turns) == w
    {
      PlayTurn(Snap(flight), turns);
      Interfere(turns(n).env, flight);
      if CallStep(Snap(flight), turns(n).fault).flight.Idle? {
        PlayIdle(CallStep(Snap(flight), turns(n).fault), turns);
      }
    }

    /** The status write that ends a pass, successful or not. */
    method Conclude(base: Resource, status: Status, turns: nat -> Turn<Env>, ghost flight: Flight)
      requires flight == Saving(base, status) || flight == Noting(base, status)
      modifies this
      ensures Snap(Idle) == Play(old(Snap(flight)), turns)
    {
      Await(1, turns, flight);
      ghost var stored := Accepts(store, base, turns(1).fault);
      ghost var before := Snap(flight);
      store := SaveStatus(store, base, status, turns(1).fault);
      lost := if stored then lost else lost + Unsaved(flight);
      assert Snap(Idle) == CallStep(before, turns(1).fault);
    }

    method Fail(base: Resource, status: Status, reason: Reason, turns: nat -> Turn<Env>)
      modifies this
      ensures Snap(Idle) == Play(old(Snap(Note(base, status, reason))), turns)
    {
      var noted := status.(ready := NotReady(reason));
      Conclude(base, noted, turns, Noting(base, noted));
    }

    /** Delete the ticket, then its Secret if one is recorded, then let go of the resource. */
    method Finalize(base: Resource, turns: nat -> Turn<Env>)
      requires base.deleting && base.finalizer
      modifies this
      ensures Snap(Idle) == Play(old(Snap(ConnectNext(base, Served))), turns)
    {
      if base.status.ticketID.Some? {
        var id, f := base.status.ticketID.value, turns(4).fault;
        Await(4, turns, Deleting(base, id));
        ghost var before := Snap(Deleting(base, id));
        var err := ErrorOf(f, if id in tickets then 204 else 404);
        if TakesEffect(f) {
          tickets := tickets - {id};
        }
        assert Snap(DeleteNext(before.tickets, base, id, f)) == CallStep(before, f);
        if err.Some? && !IsNotFound(err) {
          return;
        }
      }
      CleanUp(base, turns);
    }

    /** The ticket is gone: its Secret next, if one is recorded and still there. */
    method CleanUp(base: Resource, turns: nat -> Turn<Env>)
      modifies this
      ensures Snap(Idle) == Play(old(Snap(AfterDelete(base))), turns)
    {
      if base.status.secretRef {
        Await(3, turns, Finding(base));
        ghost var before := Snap(Finding(base));
        assert CallStep(before, turns(3).fault) == Snap(FindNext(secret, base, turns(3).fault));
        if turns(3).fault.Served? && secret.Some? {
          var dropped := DropSecret(base, turns);
          if !dropped {
            return;
          }
        }
      }
      Release(base, turns);
    }

    method Release(base: Resource, turns: nat -> Turn<Env>)
      modifies this
      ensures Snap(Idle) == Play(old(Snap(Releasing(base))), turns)
    {
      Await(1, turns, Releasing(base));
      store := SaveFinalizer(store, base, false, turns(1).fault);
    }

    method DropSecret(base: Resource, turns: nat -> Turn<Env>) returns (dropped: bool)
      modifies this
      ensures Play(Snap(if dropped then Releasing(base) else Idle), turns) == Play(old(Snap(Dropping(base))), turns)
    {
      var f := turns(2).fault;
      Await(2, turns, Dropping(base));
      ghost var before := Snap(Dropping(base));
      if TakesEffect(f) {
        secret := None;
      }
      dropped := f.Served?;
      assert Snap(if dropped then Releasing(base) else Idle) == CallStep(before, f);
    }

    /** Store the finalizer; on success the pass goes on with the stored object. */
    method Adopt(base: Resource, turns: nat -> Turn<Env>) returns (saved: Option<Resource>)
      modifies this
      ensures Play(Snap(if saved.Some? then AfterAdopt(saved.value) else Idle),
          turns) == Play(old(Snap(Adopting(base))), turns)
    {
      Await(4, turns, Adopting(base));
      ghost var before := Snap(Adopting(base));
      var f := turns(4).fault;
      saved := if Accepts(store, base, f) && f.Served? then Some(base.(finalizer := true, rv := store.clock)) else None;
      store := SaveFinalizer(store, base, true, f);
      ghost var next := if saved.Some? then AfterAdopt(saved.value) else Idle;
      assert Snap(next) == CallStep(before, turns(4).fault);
    }

    /** No ticket yet: create one, and a Secret with its value. */
    method Create(base: Resource, turns: nat -> Turn<Env>)
      modifies this
      ensures Snap(Idle) == Play(old(Snap(Creating(base))), turns)
    {
      var f := turns(3).fault;
      Await(3, turns, Creating(base));
      ghost var before := Snap(Creating(base));
      var created, err := nextId, ErrorOf(f, 201);
      ghost var next := CreateNext(created, base, f);
      if TakesEffect(f) {
        tickets := tickets[created := RequestOf(base.spec)];
        nextId := created + 1;
        made := made[created := RequestOf(base.spec)];
        lost := if Unsaved(next) == {} then lost + {created} else lost;
      }
      assert Snap(next) == CallStep(before, f);
      if err.Some? {
        Fail(base, base.status, CreateFailed, turns);
        return;
      }
      StoreSecret(base, base.status.(ticketID := Some(created)), turns);
    }

    method StoreSecret(base: Resource, status: Status, turns: nat -> Turn<Env>)
      modifies this
      ensures Snap(Idle) == Play(old(Snap(Storing(base, status))), turns)
    {
      var f := turns(2).fault;
      Await(2, turns, Storing(base, status));
      ghost var before := Snap(Storing(base, status));
      var failed := !f.Served? || secret.Some?;
      if TakesEffect(f) && secret.None? {
        secret := status.ticketID;
      }
      assert Snap(StoreNext(before.secret, base, status, f)) == CallStep(before, f);
      if failed {
        Fail(base, status, SecretCreateFailed, turns);
        return;
      }
      var done := status.(secretRef := true, ready := IsReady);
      Conclude(base, done, turns, Saving(base, done));
    }

    /** One whole pass, with anybody acting before each of its calls and any fault in each call. */
    method Reconcile(turns: nat -> Turn<Env>)
      modifies this
      ensures Snap(Idle) == Pass(old(Snap(Idle)), turns)
    {
      Interfere(turns(6).env, Idle);
      if !turns(6).fault.Served? || store.obj.None? {
        return;
      }
      var base := store.obj.value;

      Await(5, turns, Connecting(base));
      if !turns(5).fault.Served? {
        Fail(base, base.status, ClientError, turns);
        return;
      }
      assert Pass(old(Snap(Idle)), turns) == Play(Snap(ConnectNext(base, Served)), turns);
      if base.deleting {
        if base.finalizer {
          Finalize(base, turns);
        }
        return;
      }
      if !base.finalizer {
        var saved := Adopt(base, turns);
        if saved.None? {
          return;
        }
        base := saved.value;
      }
      if base.status.ticketID.None? {
        Create(base, turns);
      } else {
        var ready := base.status.(ready := IsReady);
        Conclude(base, ready, turns, Saving(base, ready));
      }
    }
  }
}
