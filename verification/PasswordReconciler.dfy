/** Reconcile of the password credential controller as code, and its proof against the state machine. */
module PasswordReconciler {
  import opened Base
  import opened Client
  import opened Kube
  import opened Passes
  import opened PasswordCredential

  /** How many API calls a pass can still make. */
  function Rank(f: Flight): nat {
    match f
    case Idle => 0
    case Connecting(_) => 7
    case Deleting(_, _, _) => 2
    case Releasing(_) => 1
    case Adopting(_) => 6
    case Resolving(_) => 5
    case Reading(_, _, _) => 4
    case Removing(_, _, _, _, _, _) => 3
    case Creating(_, _, _, _) => 2
    case Saving(_, _, _) => 1
    case Noting(_, _) => 1
  }

  lemma LookRank(w: World, f: Fault)
    requires Looks(w.flight) && !w.flight.Idle?
    ensures Rank(Look(w, f)) < Rank(w.flight)
  {
    hide VersionOf, Key;
  }

  lemma OrderRank(w: World, f: Fault)
    requires !Looks(w.flight) && !Writes(w.flight)
    ensures Rank(Order(w, f).flight) < Rank(w.flight)
  {
    hide VersionOf, DeleteCred, Deleted, Creates, ErrorOf;
    match w.flight {
      case Deleting(b, owner, id) =>
        assert Order(w, f).flight == FinalDeleteNext(w.creds, b, owner, id, f);
      case Removing(b, status, read, user, owner, id) =>
        assert Order(w, f).flight == RemoveNext(w.creds, b, status, read, user, owner, id, f);
      case Creating(b, status, read, user) =>
        assert Order(w, f).flight == CreateNext(w, b, status, read, user, f);
    }
  }

  lemma WriteRank(w: World, f: Fault)
    requires Writes(w.flight)
    ensures Rank(Write(w, f).flight) < Rank(w.flight)
  {
    hide SaveStatus, SaveFinalizer, Accepts;
    match w.flight {
      case Releasing(_) => assert Write(w, f).flight == Idle;
      case Adopting(b) => assert Write(w, f).flight == AdoptNext(w.store, b, f);
      case Saving(_, _, _) => assert Write(w, f).flight == Idle;
      case Noting(_, _) => assert Write(w, f).flight == Idle;
    }
  }

  /** Every call brings the pass nearer to its end. */
  lemma RankFalls(w: World, f: Fault)
    requires !w.flight.Idle?
    ensures Rank(CallStep(w, f).flight) < Rank(w.flight)
  {
    hide Look, Rank, Write, Order;
    if Looks(w.flight) {
      LookRank(w, f);
    } else if Writes(w.flight) {
      WriteRank(w, f);
    } else {
      OrderRank(w, f);
    }
  }

  lemma StepsFall()
    ensures Falls(Step, RankOf)
  {
    forall w, f | RankOf(w) > 0
      ensures RankOf(Step(w, Call(f))) < RankOf(w)
    {
      RankFalls(w, f);
    }
    hide CallStep;
  }

  function RankOf(w: World): nat {
    Rank(w.flight)
  }

  /** The rest of a pass, and a whole one from an idle controller. */
  function Play(w: World, turns: nat -> Turn<Env>): World {
    PlayOut(Step, RankOf, w, turns)
  }

  function Pass(w: World, turns: nat -> Turn<Env>): World {
    WholePass(Step, RankOf, w, 8, turns)
  }

  /** One turn: others act, then the call under way is made. */
  lemma PlayTurn(w: World, turns: nat -> Turn<Env>)
    requires !w.flight.Idle?
    ensures var t := turns(RankOf(w));
            Play(w, turns) == Play(CallStep(EnvAll(Step, w, t.env), t.fault), turns)
  {
    StepsFall();
    EnvKeepsRank(Step, RankOf, w, turns(RankOf(w)).env);
    hide CallStep;
  }

  lemma PlayIdle(w: World, turns: nat -> Turn<Env>)
    requires w.flight.Idle?
    ensures Play(w, turns) == w
  {
  }

  /** A pass of the code is a run of the state machine that ends idle. */
  lemma PassIsRun(w: World, turns: nat -> Turn<Env>)
    ensures Exec(w, PassActs(Step, RankOf, w, 8, turns)) == Pass(w, turns)
    ensures Pass(w, turns).flight.Idle?
  {
    StepsFall();
    WholePassIsRun(Step, RankOf, w, 8, turns);
    hide Step;
  }

  /** Kubernetes and Warpgate as objects, and the controller working on them call by call. */
  class Controller {
    var store: Store<Spec, Status>
    var secrets: map<string, Secret>
    var users: map<string, Id>
    var creds: map<Id, Cred>
    var nextId: Id
    ghost var history: map<nat, Secret>
    ghost var made: map<Id, Cred>
    ghost var lost: set<Id>

    /** The abstract world, with the pass under way at `flight`. */
    ghost function Snap(flight: Flight): World
      reads this
    {
      World(store, secrets, users, creds, nextId, history, made, lost, flight)
    }

    method Act(e: Env, ghost flight: Flight)
      modifies this
      ensures Snap(flight) == EnvStep(old(Snap(flight)), e)
    {
      match e {
        case Change(edit) => store := Edited(store, edit, Blank);
        case PutSecret(name, data) =>
          var s := Secret(name, store.clock, data);
          secrets := secrets[name := s];
          history := history[s.rv := s];
          store := store.(clock := s.rv + 1);
        case DropSecret(name) => secrets := secrets - {name};
        case PutUser(name, id) => users := users[name := id];
        case DropUser(name) => users := users - {name};
        case AddCred(c) =>
          creds := creds[nextId := c];
          nextId := nextId + 1;
        case DropCred(id) => creds := creds - {id};
      }
    }

    /** Others act while the pass is at `flight`. */
    method Interfere(es: seq<Env>, ghost flight: Flight)
      modifies this
      ensures Snap(flight) == EnvAll(Step, old(Snap(flight)), es)
    {
      NoEnv(Step, old(Snap(flight)));
      var i := 0;
      while i < |es|
        invariant i <= |es|
        invariant Snap(flight) == EnvAll(Step, old(Snap(flight)), es[..i])
      {
        EnvAllMore(Step, old(Snap(flight)), es[..i], es[i]);
        assert es[..i] + [es[i]] == es[..i + 1];
        Act(es[i], flight);
        i := i + 1;
      }
      assert es[..|es|] == es;
    }

    /** Others act, and then the call that `flight` stands for is due; it has turn n. */
    method Await(n: nat, turns: nat -> Turn<Env>, ghost flight: Flight)
      requires n == Rank(flight) > 0
      modifies this
      ensures Play(old(Snap(flight)), turns) == Play(CallStep(Snap(flight), turns(n).fault), turns)
      ensures var w := CallStep(Snap(flight), turns(n).fault); w.flight.Idle? ==> Play(w, turns) == w
    {
      PlayTurn(Snap(flight), turns);
      Interfere(turns(n).env, flight);
      if CallStep(Snap(flight), turns(n).fault).flight.Idle? {
        PlayIdle(CallStep(Snap(flight), turns(n).fault), turns);
      }
    }

    method DeletePasswordCredential(owner: Id, id: Id, f: Fault) returns (err: Option<Error>)
      modifies `creds
      ensures creds == DeleteCred(old(creds), owner, id, f)
      ensures (err.None? || IsNotFound(err)) <==> Deleted(old(creds), owner, id, f)
    {
      err := ErrorOf(f, if Present(creds, owner, id) then 204 else 404);
      creds := DeleteCred(creds, owner, id, f);
    }

    method CreatePasswordCredential(user: Id, password: string, f: Fault) returns (id: Id, err: Option<Error>)
      modifies `creds, `nextId, `made
      ensures id == old(nextId)
      ensures err == ErrorOf(f, if user in users.Values then 201 else 404)
      ensures if TakesEffect(f) && user in users.Values
              then creds == old(creds)[id := Cred(user, password)] && made == old(made)[id := Cred(user, password)] &&
                   nextId == id + 1
              else creds == old(creds) && made == old(made) && nextId == id
    {
      id := nextId;
      err := ErrorOf(f, if user in users.Values then 201 else 404);
      if TakesEffect(f) && user in users.Values {
        creds := creds[id := Cred(user, password)];
        made := made[id := Cred(user, password)];
        nextId := id + 1;
      }
    }

    /** A best-effort status write on the way out of a failed pass. */
    method Fail(base: Resource, status: Status, reason: Reason, turns: nat -> Turn<Env>)
      modifies this
      ensures Snap(Idle) == Play(old(Snap(Note(base, status, reason))), turns)
    {
      ghost var flight := Note(base, status, reason);
      Await(1, turns, flight);
      store := SaveStatus(store, base, status.(ready := NotReady(reason)), turns(1).fault);
    }

    /** The resource is marked: delete the recorded credential, then let go of the resource. */
    method Finalize(base: Resource, turns: nat -> Turn<Env>)
      requires base.deleting && base.finalizer
      modifies this
      ensures Snap(Idle) ==
              Play(old(Snap(if base.status.userID.Some? && base.status.credentialID.Some?
                            then Deleting(base, base.status.userID.value, base.status.credentialID.value)
                            else Releasing(base))), turns)
    {
      if base.status.userID.Some? && base.status.credentialID.Some? {
        var owner, id := base.status.userID.value, base.status.credentialID.value;
        Await(2, turns, Deleting(base, owner, id));
        var err := DeletePasswordCredential(owner, id, turns(2).fault);
        if err.Some? && !IsNotFound(err) {
          return;
        }
      }
      Release(base, turns);
    }

    method Release(base: Resource, turns: nat -> Turn<Env>)
      modifies this
      ensures Snap(Idle) == Play(old(Snap(Releasing(base))), turns)
    {
      Await(1, turns, Releasing(base));
      ghost var before := Snap(Releasing(base));
      store := SaveFinalizer(store, base, false, turns(1).fault);
      assert Snap(Idle) == CallStep(before, turns(1).fault);
    }

    /** Store the finalizer; on success the pass goes on with the stored object. */
    method Adopt(base: Resource, turns: nat -> Turn<Env>) returns (saved: Option<Resource>)
      modifies this
      ensures saved.Some? ==> Play(Snap(Resolving(saved.value)), turns) == Play(old(Snap(Adopting(base))), turns)
      ensures saved.None? ==> Snap(Idle) == Play(old(Snap(Adopting(base))), turns)
    {
      Await(6, turns, Adopting(base));
      ghost var before := Snap(Adopting(base));
      var f := turns(6).fault;
      saved := if Accepts(store, base, f) && f.Served? then Some(base.(finalizer := true, rv := store.clock)) else None;
      store := SaveFinalizer(store, base, true, f);
      ghost var next := if saved.Some? then Resolving(saved.value) else Idle;
      assert Snap(next) == CallStep(before, turns(6).fault);
    }

    /** Everything is in place: store the Ready status. */
    method Finish(base: Resource, status: Status, ghost read: Read, turns: nat -> Turn<Env>)
      modifies this
      ensures Snap(Idle) == Play(old(Snap(Saving(base, status.(ready := IsReady), read))), turns)
    {
      var ready := status.(ready := IsReady);
      ghost var flight := Saving(base, ready, read);
      Await(1, turns, flight);
      ghost var stored := Accepts(store, base, turns(1).fault);
      store := SaveStatus(store, base, ready, turns(1).fault);
      lost := if stored then lost else lost + Unsaved(flight);
    }

    /** Create the credential that does not exist yet. */
    method Create(base: Resource, status: Status, read: Read, user: Id, turns: nat -> Turn<Env>)
      modifies this
      ensures Snap(Idle) == Play(old(Snap(Creating(base, status, read, user))), turns)
    {
      hide Play, VersionOf, ErrorOf, SaveStatus;
      Await(2, turns, Creating(base, status, read, user));
      ghost var before := Snap(Creating(base, status, read, user));
      var created, err := CreatePasswordCredential(user, read.password, turns(2).fault);
      ghost var next := CreateNext(before, base, status, read, user, turns(2).fault);
      if Creates(before, user, turns(2).fault) && Unsaved(next) == {} {
        lost := lost + {created};
      }
      assert Snap(next) == CallStep(before, turns(2).fault);
      if err.Some? {
        Fail(base, status, CreateFailed, turns);
        return;
      }
      Finish(base, status.(credentialID := Some(created), applied := VersionOf(read)), read, turns);
    }

    /** The resource is alive and ours: resolve the user, read the password, replace or create. */
    method Sync(base: Resource, turns: nat -> Turn<Env>)
      modifies this
      ensures Snap(Idle) == Play(old(Snap(Resolving(base))), turns)
    {
      Await(5, turns, Resolving(base));
      if !turns(5).fault.Served? || base.spec.username !in users {
        Fail(base, base.status, UserNotFound, turns);
        return;
      }
      var user := users[base.spec.username];
      var status := base.status.(userID := Some(user));

      Await(4, turns, Reading(base, status, user));
      if !turns(4).fault.Served? || base.spec.secretName !in secrets {
        Fail(base, status, SecretNotFound, turns);
        return;
      }
      var secret, key := secrets[base.spec.secretName], Key(base.spec);
      if key !in secret.data {
        Fail(base, status, SecretKeyMissing, turns);
        return;
      }
      var read := Read(secret.name, key, secret.rv, secret.data[key]);
      Replace(base, status, read, user, turns);
    }

    /** Remove a credential of an older revision or another user first, then create the new one. */
    method Replace(base: Resource, status: Status, read: Read, user: Id, turns: nat -> Turn<Env>)
      requires status.userID == Some(user)
      modifies this
      ensures Snap(Idle) == Play(old(Snap(AfterRead(base, status, user, read))), turns)
    {
      var current := status;
      if current.credentialID.Some? && (current.applied != VersionOf(read) || UserChanged(base, user)) {
        var owner, id := Owner(base, user), current.credentialID.value;
        Await(3, turns, Removing(base, status, read, user, owner, id));
        var err := DeletePasswordCredential(owner, id, turns(3).fault);
        if err.Some? && !IsNotFound(err) {
          Fail(base, status, RotateFailed, turns);
          return;
        }
        current := current.(credentialID := None, applied := "");
      }
      if current.credentialID.None? {
        Create(base, current, read, user, turns);
        return;
      }
      Finish(base, current, read, turns);
    }

    /** One whole pass, with anybody acting before each of its calls and any fault in each call. */
    method Reconcile(turns: nat -> Turn<Env>)
      modifies this
      ensures Snap(Idle) == Pass(old(Snap(Idle)), turns)
    {
      Interfere(turns(8).env, Idle);
      if !turns(8).fault.Served? || store.obj.None? {
        return;
      }
      var base := store.obj.value;

      Await(7, turns, Connecting(base));
      if !turns(7).fault.Served? {
        Fail(base, base.status, ClientError, turns);
        return;
      }
      ghost var next := ConnectNext(base, turns(7).fault);
      assert Pass(old(Snap(Idle)), turns) == Play(Snap(next), turns);
      if base.deleting {
        if base.finalizer {
          Finalize(base, turns);
        }
        return;
      }
      if !base.finalizer {
        var saved := Adopt(base, turns);
        if saved.None? {
          return;
        }
        base := saved.value;
      }
      Sync(base, turns);
    }
  }
}
