/** Reconcile of a user as code, and its proof against the state machine. */
module UserReconciler {
  import opened Base
  import opened Client
  import opened Kube
  import opened Passes
  import opened User

  /** How many calls a pass can still make. */
  function Rank(f: Flight): nat {
    match f
    case Idle => 0
    case Connecting(_) => 6
    case DeletingCred(_, _, _) => 5
    case Finding(_) => 4
    case Dropping(_) => 3
    case DeletingUser(_, _) => 2
    case Releasing(_) => 1
    case Adopting(_) => 5
    case Creating(_) => 4
    case Updating(_, _) => 4
    case Generating(_, _, _) => 3
    case Storing(_, _, _) => 2
    case Saving(_, _) => 1
    case Noting(_, _) => 1
  }

  lemma WriteRank(w: World, f: Fault)
    requires Writes(w.flight)
    ensures Rank(Write(w, f).flight) < Rank(w.flight)
  {
    hide SaveStatus, SaveFinalizer, Accepts;
  }

  lemma RemoveRank(w: World, f: Fault)
    requires Removes(w.flight)
    ensures Rank(Remove(w, f).flight) < Rank(w.flight)
  {
    hide Deleted, CredThere, WithoutUser;
  }

  lemma OrderRank(w: World, f: Fault)
    requires !Looks(w.flight) && !Writes(w.flight) && !Removes(w.flight)
    ensures Rank(Order(w, f).flight) < Rank(w.flight)
  {
    hide ErrorOf;
  }

  /** Every call brings the pass nearer to its end. */
  lemma RankFalls(w: World, f: Fault)
    requires !w.flight.Idle?
    ensures Rank(CallStep(w, f).flight) < Rank(w.flight)
  {
    if Writes(w.flight) {
      WriteRank(w, f);
      hide Rank, Write;
    } else if Removes(w.flight) {
      RemoveRank(w, f);
      hide Rank, Remove;
    } else if !Looks(w.flight) {
      OrderRank(w, f);
      hide Rank, Order;
    }
  }

  lemma StepsFall()
    ensures Falls(Step, RankOf)
  {
    forall w, f | RankOf(w) > 0
      ensures RankOf(Step(w, Call(f))) < RankOf(w)
    {
      RankFalls(w, f);
    }
    hide CallStep;
  }

  function RankOf(w: World): nat {
    Rank(w.flight)
  }

  /** The rest of a pass, and a whole one from an idle controller. */
  function Play(w: World, turns: nat -> Turn<Env>): World {
    PlayOut(Step, RankOf, w, turns)
  }

  function Pass(w: World, turns: nat -> Turn<Env>): World {
    WholePass(Step, RankOf, w, 7, turns)
  }

  /** One turn: others act, then the call under way is made. */
  lemma PlayTurn(w: World, turns: nat -> Turn<Env>)
    requires !w.flight.Idle?
    ensures var t := turns(RankOf(w));
            Play(w, turns) == Play(CallStep(EnvAll(Step, w, t.env), t.fault), turns)
  {
    StepsFall();
    EnvKeepsRank(Step, RankOf, w, turns(RankOf(w)).env);
    hide CallStep;
  }

  lemma PlayIdle(w: World, turns: nat -> Turn<Env>)
    requires w.flight.Idle?
    ensures Play(w, turns) == w
  {
  }

  /** A pass of the code is a run of the state machine that ends idle. */
  lemma PassIsRun(w: World, turns: nat -> Turn<Env>)
    ensures Exec(w, PassActs(Step, RankOf, w, 7, turns)) == Pass(w, turns)
    ensures Pass(w, turns).flight.Idle?
  {
    StepsFall();
    WholePassIsRun(Step, RankOf, w, 7, turns);
    hide Step;
  }

  /** One user resource, Warpgate's users, the Secret, and the controller working call by call. */
  class Controller {
    var store: Store<Spec, Status>
    var users: map<Id, Account>
    var creds: map<Id, Id>
    var nextId: Id
    var secret: Option<Id>
    ghost var made: set<Id>
    ghost var lost: set<Id>

    constructor ()
      ensures Snap(Idle) == World(Store(None, 0), map[], map[], 0, None, {}, {}, Idle)
    {
      store, users, creds, nextId, secret := Store(None, 0), map[], map[], 0, None;
      made, lost := {}, {};
    }

    /** The abstract world, with the pass under way at `flight`. */
    ghost function Snap(flight: Flight): World
      reads this
    {
      World(store, users, creds, nextId, secret, made, lost, flight)
    }

    method Act(e: Env, ghost flight: Flight)
      modifies this
      ensures Snap(flight) == EnvStep(old(Snap(flight)), e)
    {
      match e {
        case Change(edit) => store := Edited(store, edit, Blank);
        case AddUser(a) =>
          users := users[nextId := a];
          nextId := nextId + 1;
        case PutUser(id, a) =>
          if id in users {
            users := users[id := a];
          }
        case DropUser(id) =>
          users := users - {id};
          creds := WithoutUser(creds, id);
        case AddCred(user) =>
          if user in users {
            creds := creds[nextId := user];
            nextId := nextId + 1;
          }
        case DropCred(id) => creds := creds - {id};
        case SetSecret(s) => secret := s;
      }
    }

    /** Others act while the pass is at `flight`. */
    method Interfere(es: seq<Env>, ghost flight: Flight)
      modifies this
      ensures Snap(flight) == EnvAll(Step, old(Snap(flight)), es)
    {
      NoEnv(Step, old(Snap(flight)));
      var i := 0;
      while i < |es|
        invariant i <= |es|
        invariant Snap(flight) == EnvAll(Step, old(Snap(flight)), es[..i])
      {
        EnvAllMore(Step, old(Snap(flight)), es[..i], es[i]);
        assert es[..i] + [es[i]] == es[..i + 1];
        Act(es[i], flight);
        i := i + 1;
      }
      assert es[..|es|] == es;
    }

    /** Others act, and then the call that `flight` stands for is due; it has turn n. */
    method Await(n: nat, turns: nat -> Turn<Env>, ghost flight: Flight)
      requires n == Rank(flight) > 0
      modifies this
      ensures Play(old(Snap(flight)), turns) == Play(CallStep(Snap(flight), turns(n).fault), turns)
      ensures var w := CallStep(Snap(flight), turns(n).fault); w.flight.Idle? ==> Play(w, turns) == w
    {
      PlayTurn(Snap(flight), turns);
      Interfere(turns(n).env, flight);
      if CallStep(Snap(flight), turns(n).fault).flight.Idle? {
        PlayIdle(CallStep(Snap(flight), turns(n).fault), turns);
      }
    }

    /** The status write that ends a pass, successful or not. */
    method Conclude(base: Resource, status: Status, turns: nat -> Turn<Env>, ghost flight: Flight)
      requires flight == Saving(base, status) || flight == Noting(base, status)
      modifies this
      ensures Snap(Idle) == Play(old(Snap(flight)), turns)
    {
      Await(1, turns, flight);
      ghost var stored := Accepts(store, base, turns(1).fault);
      ghost var before := Snap(flight);
      store := SaveStatus(store, base, status, turns(1).fault);
      lost := if stored then lost else lost + Unsaved(flight);
      assert Snap(Idle) == CallStep(before, turns(1).fault);
    }

    method Fail(base: Resource, status: Status, reason: Reason, turns: nat -> Turn<Env>)
      modifies this
      ensures Snap(Idle) == Play(old(Snap(Note(base, status, reason))), turns)
    {
      var noted := status.(ready := NotReady(reason));
      Conclude(base, noted, turns, Noting(base, noted));
    }

    /** The generated credential first, then the Secret, then the user, then the finalizer. */
    method Finalize(base: Resource, turns: nat -> Turn<Env>)
      requires base.deleting && base.finalizer
      modifies this
      ensures Snap(Idle) == Play(old(Snap(ConnectNext(base, Served))), turns)
    {
      if base.status.credentialID.Some? && base.status.externalID.Some? {
        var user, id, f := base.status.externalID.value, base.status.credentialID.value, turns(5).fault;
        Await(5, turns, DeletingCred(base, user, id));
        ghost var before := Snap(DeletingCred(base, user, id));
        var there := CredThere(creds, user, id);
        var err := ErrorOf(f, if there then 204 else 404);
        if TakesEffect(f) && there {
          creds := creds - {id};
        }
        assert Snap(if Deleted(there, f) then AfterCred(base) else Idle) == CallStep(before, f);
        if err.Some? && !IsNotFound(err) {
          return;
        }
      }
      CleanUp(base, turns);
    }

    /** Its Secret next, if one is recorded and still there. */
    method CleanUp(base: Resource, turns: nat -> Turn<Env>)
      modifies this
      ensures Snap(Idle) == Play(old(Snap(AfterCred(base))), turns)
    {
      if base.status.secretRef {
        Await(4, turns, Finding(base));
        ghost var before := Snap(Finding(base));
        assert CallStep(before, turns(4).fault) == Snap(FindNext(secret, base, turns(4).fault));
        if turns(4).fault.Served? && secret.Some? {
          var dropped := DropSecret(base, turns);
          if !dropped {
            return;
          }
        }
      }
      RemoveUser(base, turns);
    }

    method DropSecret(base: Resource, turns: nat -> Turn<Env>) returns (dropped: bool)
      modifies this
      ensures Play(Snap(if dropped then AfterSecret(base) else Idle), turns) == Play(old(Snap(Dropping(base))), turns)
    {
      var f := turns(3).fault;
      Await(3, turns, Dropping(base));
      ghost var before := Snap(Dropping(base));
      if TakesEffect(f) {
        secret := None;
      }
      dropped := f.Served?;
      assert Snap(if dropped then AfterSecret(base) else Idle) == CallStep(before, f);
    }

    method RemoveUser(base: Resource, turns: nat -> Turn<Env>)
      modifies this
      ensures Snap(Idle) == Play(old(Snap(AfterSecret(base))), turns)
    {
      if base.status.externalID.Some? {
        var user, f := base.status.externalID.value, turns(2).fault;
        Await(2, turns, DeletingUser(base, user));
        ghost var before := Snap(DeletingUser(base, user));
        var err := ErrorOf(f, if user in users then 204 else 404);
        if TakesEffect(f) {
          users := users - {user};
          creds := WithoutUser(creds, user);
        }
        assert Snap(if Deleted(user in before.users, f) then Releasing(base) else Idle) == CallStep(before, f);
        if err.Some? && !IsNotFound(err) {
          return;
        }
      }
      Release(base, turns);
    }

    method Release(base: Resource, turns: nat -> Turn<Env>)
      modifies this
      ensures Snap(Idle) == Play(old(Snap(Releasing(base))), turns)
    {
      Await(1, turns, Releasing(base));
      store := SaveFinalizer(store, base, false, turns(1).fault);
    }

    /** Store the finalizer; on success the pass goes on with the stored object. */
    method Adopt(base: Resource, turns: nat -> Turn<Env>) returns (saved: Option<Resource>)
      modifies this
      ensures Play(Snap(if saved.Some? then AfterAdopt(saved.value) else Idle),
          turns) == Play(old(Snap(Adopting(base))), turns)
    {
      Await(5, turns, Adopting(base));
      ghost var before := Snap(Adopting(base));
      var f := turns(5).fault;
      saved := if Accepts(store, base, f) && f.Served? then Some(base.(finalizer := true, rv := store.clock)) else None;
      store := SaveFinalizer(store, base, true, f);
      ghost var next := if saved.Some? then AfterAdopt(saved.value) else Idle;
      assert Snap(next) == CallStep(before, turns(5).fault);
    }

    /** No user yet: create one, with name and description only. */
    method Create(base: Resource, turns: nat -> Turn<Env>)
      modifies this
      ensures Snap(Idle) == Play(old(Snap(Creating(base))), turns)
    {
      var f := turns(4).fault;
      hide Play, ErrorOf, SaveStatus;
      Await(4, turns, Creating(base));
      ghost var before := Snap(Creating(base));
      var created, err := nextId, ErrorOf(f, 201);
      ghost var next := CreateNext(created, base, f);
      if TakesEffect(f) {
        users := users[created := Created(base.spec)];
        nextId := created + 1;
        made := made + {created};
        lost := if Unsaved(next) == {} then lost + {created} else lost;
      }
      assert Snap(next) == CallStep(before, f);
      if err.Some? {
        Fail(base, base.status, CreateFailed, turns);
        return;
      }
      Finish(base, base.status.(externalID := Some(created)), turns);
    }

    /** There is a user: update it with everything, or forget it when it is gone. */
    method Update(base: Resource, user: Id, turns: nat -> Turn<Env>)
      modifies this
      ensures Snap(Idle) == Play(old(Snap(Updating(base, user))), turns)
    {
      var f := turns(4).fault;
      Await(4, turns, Updating(base, user));
      ghost var before := Snap(Updating(base, user));
      var err := ErrorOf(f, if user in users then 200 else 404);
      if TakesEffect(f) && user in users {
        users := users[user := Updated(base.spec)];
      }
      assert Snap(UpdateNext(before.users, base, user, f)) == CallStep(before, f);
      if err.Some? {
        if IsNotFound(err) {
          Fail(base, base.status.(externalID := None), NotFound, turns);
        } else {
          Fail(base, base.status, UpdateFailed, turns);
        }
        return;
      }
      Finish(base, base.status, turns);
    }

    /** The user is in place: a generated password next, if one is due, and the Ready status. */
    method Finish(base: Resource, status: Status, turns: nat -> Turn<Env>)
      modifies this
      ensures Snap(Idle) == Play(old(Snap(AfterUser(base, status))), turns)
    {
      if base.spec.generate && status.credentialID.None? && status.externalID.Some? {
        EnsurePasswordCredential(base, status, status.externalID.value, turns);
      } else {
        var ready := status.(ready := IsReady);
        Conclude(base, ready, turns, Saving(base, ready));
      }
    }

    method EnsurePasswordCredential(base: Resource, status: Status, user: Id, turns: nat -> Turn<Env>)
      modifies this
      ensures Snap(Idle) == Play(old(Snap(Generating(base, status, user))), turns)
    {
      var f := turns(3).fault;
      Await(3, turns, Generating(base, status, user));
      ghost var before := Snap(Generating(base, status, user));
      var cred, err := nextId, ErrorOf(f, if user in users then 201 else 404);
      if TakesEffect(f) && user in users {
        creds := creds[cred := user];
        nextId := cred + 1;
      }
      assert Snap(GenerateNext(before, base, status, user, f)) == CallStep(before, f);
      if err.Some? {
        Fail(base, status, PasswordCredentialFailed, turns);
        return;
      }
      StoreSecret(base, status, cred, turns);
    }

    /** Create the Secret; an existing one will do, any other failure ends the pass unrecorded. */
    method StoreSecret(base: Resource, status: Status, cred: Id, turns: nat -> Turn<Env>)
      modifies this
      ensures Snap(Idle) == Play(old(Snap(Storing(base, status, cred))), turns)
    {
      var f := turns(2).fault;
      ghost var flight := Storing(base, status, cred);
      Await(2, turns, flight);
      ghost var before := Snap(flight);
      if TakesEffect(f) && secret.None? {
        secret := Some(cred);
      }
      if !f.Served? {
        lost := lost + Unsaved(flight);
        assert Snap(Idle) == CallStep(before, f);
        return;
      }
      var ready := status.(credentialID := Some(cred), secretRef := true, ready := IsReady);
      assert Snap(Saving(base, ready)) == CallStep(before, f);
      Conclude(base, ready, turns, Saving(base, ready));
    }

    /** One whole pass, with anybody acting before each of its calls and any fault in each call. */
    method Reconcile(turns: nat -> Turn<Env>)
      modifies this
      ensures Snap(Idle) == Pass(old(Snap(Idle)), turns)
    {
      Interfere(turns(7).env, Idle);
      if !turns(7).fault.Served? || store.obj.None? {
        return;
      }
      var base := store.obj.value;

      Await(6, turns, Connecting(base));
      if !turns(6).fault.Served? {
        Fail(base, base.status, ClientError, turns);
        return;
      }
      assert Pass(old(Snap(Idle)), turns) == Play(Snap(ConnectNext(base, Served)), turns);
      if base.deleting {
        if base.finalizer {
          Finalize(base, turns);
        }
        return;
      }
      if !base.finalizer {
        var saved := Adopt(base, turns);
        if saved.None? {
          return;
        }
        base := saved.value;
      }
      if base.status.externalID.None? {
        Create(base, turns);
      } else {
        Update(base, base.status.externalID.value, turns);
      }
    }
  }
}
