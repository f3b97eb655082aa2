/** Reconcile of the shared lifecycle as code, and its proof against the state machine. */
module LifecycleReconciler {
  import opened Base
  import opened Client
  import opened Kube
  import opened Passes
  import opened Lifecycle

  /** How many calls a pass can still make. */
  function Rank<S, R>(f: Flight<S, R>): nat {
    match f
    case Idle => 0
    case Connecting(_) => 5
    case Deleting(_, _, _) => 2
    case Releasing(_) => 1
    case Adopting(_) => 4
    case Preparing(_) => 3
    case Creating(_, _, _) => 2
    case Updating(_, _, _, _) => 2
    case Saving(_, _) => 1
    case Noting(_, _) => 1
  }

  lemma OrderRank<S, E, R>(w: World<S, E, R>, f: Fault)
    requires !Looks(w.flight) && !Writes(w.flight)
    ensures Rank(Order(w, f).flight) < Rank(w.flight)
  {
    hide DeleteRec, Deleted, PutRecord, ErrorOf;
    match w.flight {
      case Deleting(b, owner, id) => assert Order(w, f).flight == DeleteNext(w.recs, b, owner, id, f);
      case Creating(b, status, _) => assert Order(w, f).flight == CreateNext(w.nextId, b, status, f);
      case Updating(b, status, _, id) => assert Order(w, f).flight == UpdateNext(w.recs, b, status, id, f);
    }
  }

  lemma WriteRank<S, E, R>(w: World<S, E, R>, f: Fault)
    requires Writes(w.flight)
    ensures Rank(Write(w, f).flight) < Rank(w.flight)
  {
    hide SaveStatus, SaveFinalizer, Accepts;
  }

  /** Every call brings the pass nearer to its end. */
  lemma RankFalls<S, E, R>(k: Kind<S, E, R>, w: World<S, E, R>, f: Fault)
    requires !w.flight.Idle?
    ensures Rank(CallStep(k, w, f).flight) < Rank(w.flight)
  {
    if Looks(w.flight) {
    } else if Writes(w.flight) {
      WriteRank(w, f);
      hide Rank, Write;
    } else {
      OrderRank(w, f);
      hide Rank, Order;
    }
  }

  type Turns<!S, !E, !R> = nat -> Turn<Env<S, E, R>>

  function RankOf<S, E, R>(): World<S, E, R> -> nat {
    (w: World<S, E, R>) => Rank(w.flight)
  }

  /** The rest of a pass, and a whole one from an idle controller. */
  function Play<S, E, R>(k: Kind<S, E, R>, w: World<S, E, R>, turns: Turns<S, E, R>): World<S, E, R> {
    PlayOut(StepOf(k), RankOf(), w, turns)
  }

  function Pass<S, E, R>(k: Kind<S, E, R>, w: World<S, E, R>, turns: Turns<S, E, R>): World<S, E, R> {
    WholePass(StepOf(k), RankOf(), w, 6, turns)
  }

  lemma {:induction false} EnvAllFlight<S, E, R>(k: Kind<S, E, R>, w: World<S, E, R>, es: seq<Env<S, E, R>>)
    ensures EnvAll(StepOf(k), w, es).flight == w.flight
    decreases |es|
  {
    if es == [] {
      NoEnv(StepOf(k), w);
    } else {
      var n := |es| - 1;
      EnvAllFlight(k, w, es[..n]);
      EnvAllMore(StepOf(k), w, es[..n], es[n]);
      assert es == es[..n] + [es[n]];
    }
  }

  /** One turn: others act, then the call under way is made. */
  lemma PlayTurn<S, E, R>(k: Kind<S, E, R>, w: World<S, E, R>, turns: Turns<S, E, R>)
    requires !w.flight.Idle?
    ensures var t := turns(Rank(w.flight));
            Play(k, w, turns) == Play(k, CallStep(k, EnvAll(StepOf(k), w, t.env), t.fault), turns)
  {
    var t := turns(Rank(w.flight));
    EnvAllFlight(k, w, t.env);
    RankFalls(k, EnvAll(StepOf(k), w, t.env), t.fault);
    hide CallStep;
  }

  lemma PlayIdle<S, E, R>(k: Kind<S, E, R>, w: World<S, E, R>, turns: Turns<S, E, R>)
    requires w.flight.Idle?
    ensures Play(k, w, turns) == w
  {
  }

  /** A pass of the code is a run of the state machine that ends idle: what holds of runs holds of passes. */
  lemma PassIsRun<S(!new), E(!new), R(!new)>(k: Kind<S, E, R>, w: World<S, E, R>, turns: Turns<S, E, R>)
    ensures Exec(k, w, PassActs(StepOf(k), RankOf(), w, 6, turns)) == Pass(k, w, turns)
    ensures Pass(k, w, turns).flight.Idle?
  {
    var rank: World<S, E, R> -> nat := RankOf();
    forall w, f | rank(w) > 0
      ensures rank(StepOf(k)(w, Call(f))) < rank(w)
    {
      RankFalls(k, w, f);
    }
    hide CallStep;
    assert Falls(StepOf(k), rank);
    WholePassIsRun(StepOf(k), rank, w, 6, turns);
  }

  /** One resource and the records of its kind, and the controller working on them call by call. */
  class Controller<!S, !E, R> {
    const kind: Kind<S, E, R>
    var store: Store<S, Status>
    var recs: map<Id, Rec<R>>
    var nextId: Id
    var ext: E
    ghost var made: map<Id, Option<Id>>
    ghost var lost: set<Id>

    constructor (kind: Kind<S, E, R>, ext: E)
      ensures this.kind == kind
      ensures Snap(Idle) == World(Store(None, 0), map[], 0, ext, map[], {}, Idle)
    {
      this.kind, this.ext := kind, ext;
      store, recs, nextId := Store(None, 0), map[], 0;
      made, lost := map[], {};
    }

    /** The abstract world, with the pass under way at `flight`. */
    ghost function Snap(flight: Flight<S, R>): World<S, E, R>
      reads this
    {
      World(store, recs, nextId, ext, made, lost, flight)
    }

    method Act(e: Env<S, E, R>, ghost flight: Flight<S, R>)
      modifies this
      ensures Snap(flight) == EnvStep(old(Snap(flight)), e)
    {
      match e {
        case Change(edit) => store := Edited(store, edit, Blank);
        case SetExt(x) => ext := x;
        case AddRec(r) =>
          recs := recs[nextId := r];
          nextId := nextId + 1;
        case PutRec(id, req) =>
          if id in recs {
            recs := recs[id := recs[id].(req := req)];
          }
        case DropRec(id) => recs := recs - {id};
      }
    }

    /** Others act while the pass is at `flight`. */
    method Interfere(es: seq<Env<S, E, R>>, ghost flight: Flight<S, R>)
      modifies this
      ensures Snap(flight) == EnvAll(StepOf(kind), old(Snap(flight)), es)
    {
      NoEnv(StepOf(kind), old(Snap(flight)));
      var i := 0;
      while i < |es|
        invariant i <= |es|
        invariant Snap(flight) == EnvAll(StepOf(kind), old(Snap(flight)), es[..i])
      {
        EnvAllMore(StepOf(kind), old(Snap(flight)), es[..i], es[i]);
        assert es[..i] + [es[i]] == es[..i + 1];
        Act(es[i], flight);
        i := i + 1;
      }
      assert es[..|es|] == es;
    }

    /** Others act, and then the call that `flight` stands for is due; it has turn n. */
    method Await(n: nat, turns: Turns<S, E, R>, ghost flight: Flight<S, R>)
      requires n == Rank(flight) > 0
      modifies this
      ensures Play(kind, old(Snap(flight)), turns) == Play(kind, CallStep(kind, Snap(flight), turns(n).fault), turns)
      ensures var w := CallStep(kind, Snap(flight), turns(n).fault); w.flight.Idle? ==> Play(kind, w, turns) == w
    {
      PlayTurn(kind, Snap(flight), turns);
      Interfere(turns(n).env, flight);
      if CallStep(kind, Snap(flight), turns(n).fault).flight.Idle? {
        PlayIdle(kind, CallStep(kind, Snap(flight), turns(n).fault), turns);
      }
    }

    /** A best-effort status write on the way out of a failed pass. */
    method Fail(base: Resource<S>, status: Status, reason: Reason, turns: Turns<S, E, R>)
      modifies this
      ensures Snap(Idle) == Play(kind, old(Snap(Note(base, status, reason))), turns)
    {
      Await(1, turns, Note(base, status, reason));
      store := SaveStatus(store, base, status.(ready := NotReady(reason)), turns(1).fault);
    }

    method Release(base: Resource<S>, turns: Turns<S, E, R>)
      modifies this
      ensures Snap(Idle) == Play(kind, old(Snap(Releasing(base))), turns)
    {
      Await(1, turns, Releasing(base));
      store := SaveFinalizer(store, base, false, turns(1).fault);
    }

    /** The resource is marked: delete the recorded record, then let go of the resource. */
    method Finalize(base: Resource<S>, turns: Turns<S, E, R>)
      requires base.deleting && base.finalizer
      modifies this
      ensures Snap(Idle) == Play(kind, old(Snap(ConnectNext(kind.owned, base, Served))), turns)
    {
      if base.status.id.Some? && (kind.owned ==> base.status.owner.Some?) {
        var owner, id := base.status.owner, base.status.id.value;
        Await(2, turns, Deleting(base, owner, id));
        ghost var before := Snap(Deleting(base, owner, id));
        var err := ErrorOf(turns(2).fault, if Present(recs, owner, id) then 204 else 404);
        recs := DeleteRec(recs, owner, id, turns(2).fault);
        ghost var next := DeleteNext(before.recs, base, owner, id, turns(2).fault);
        assert Snap(next) == CallStep(kind, before, turns(2).fault);
        if err.Some? && !IsNotFound(err) {
          return;
        }
      }
      Release(base, turns);
    }

    /** Store the finalizer; on success the pass goes on with the stored object. */
    method Adopt(base: Resource<S>, turns: Turns<S, E, R>) returns (saved: Option<Resource<S>>)
      modifies this
      ensures saved.Some? ==> Play(kind, Snap(Preparing(saved.value)), turns) == Play(kind,
          old(Snap(Adopting(base))), turns)
      ensures saved.None? ==> Snap(Idle) == Play(kind, old(Snap(Adopting(base))), turns)
    {
      Await(4, turns, Adopting(base));
      ghost var before := Snap(Adopting(base));
      var f := turns(4).fault;
      saved := if Accepts(store, base, f) && f.Served? then Some(base.(finalizer := true, rv := store.clock)) else None;
      store := SaveFinalizer(store, base, true, f);
      ghost var next := if saved.Some? then Preparing(saved.value) else Idle;
      assert Snap(next) == CallStep(kind, before, turns(4).fault);
    }

    /** Everything is in place: store the Ready status. */
    method Finish(base: Resource<S>, status: Status, turns: Turns<S, E, R>)
      modifies this
      ensures Snap(Idle) == Play(kind, old(Snap(Saving(base, status.(ready := IsReady)))), turns)
    {
      var ready := status.(ready := IsReady);
      ghost var flight := Saving(base, ready);
      Await(1, turns, flight);
      ghost var stored := Accepts(store, base, turns(1).fault);
      store := SaveStatus(store, base, ready, turns(1).fault);
      lost := if stored then lost else lost + Unsaved(flight);
    }

    /** There is no record yet: create one. */
    method Create(base: Resource<S>, status: Status, req: R, turns: Turns<S, E, R>)
      modifies this
      ensures Snap(Idle) == Play(kind, old(Snap(Creating(base, status, req))), turns)
    {
      var f := turns(2).fault;
      Await(2, turns, Creating(base, status, req));
      ghost var before := Snap(Creating(base, status, req));
      var created, err := nextId, ErrorOf(f, 201);
      ghost var next := CreateNext(created, base, status, f);
      if TakesEffect(f) {
        recs := recs[created := Rec(status.owner, req)];
        nextId := created + 1;
        made := made[created := status.owner];
        lost := if Unsaved(next) == {} then lost + {created} else lost;
      }
      assert Snap(next) == CallStep(kind, before, f);
      if err.Some? {
        Fail(base, status, CreateFailed, turns);
        return;
      }
      Finish(base, status.(id := Some(created)), turns);
    }

    /** There is a record: update it, or forget it when it is gone. */
    method Update(base: Resource<S>, status: Status, req: R, id: Id, turns: Turns<S, E, R>)
      modifies this
      ensures Snap(Idle) == Play(kind, old(Snap(Updating(base, status, req, id))), turns)
    {
      var f := turns(2).fault;
      Await(2, turns, Updating(base, status, req, id));
      ghost var before := Snap(Updating(base, status, req, id));
      var err := ErrorOf(f, if Present(recs, status.owner, id) then 200 else 404);
      recs := PutRecord(recs, status.owner, id, req, f);
      assert Snap(UpdateNext(before.recs, base, status, id, f)) == CallStep(kind, before, f);
      if err.Some? {
        if IsNotFound(err) {
          Fail(base, status.(id := None), NotFound, turns);
        } else {
          Fail(base, status, UpdateFailed, turns);
        }
        return;
      }
      Finish(base, status, turns);
    }

    /** One whole pass, with anybody acting before each of its calls and any fault in each call. */
    method Reconcile(turns: Turns<S, E, R>)
      modifies this
      ensures Snap(Idle) == Pass(kind, old(Snap(Idle)), turns)
    {
      Interfere(turns(6).env, Idle);
      if !turns(6).fault.Served? || store.obj.None? {
        return;
      }
      var base := store.obj.value;

      Await(5, turns, Connecting(base));
      if !turns(5).fault.Served? {
        Fail(base, base.status, ClientError, turns);
        return;
      }
      assert Pass(kind, old(Snap(Idle)), turns) == Play(kind, Snap(ConnectNext(kind.owned, base, Served)), turns);
      if base.deleting {
        if base.finalizer {
          Finalize(base, turns);
        }
        return;
      }
      if !base.finalizer {
        var saved := Adopt(base, turns);
        if saved.None? {
          return;
        }
        base := saved.value;
      }
      Sync(base, turns);
    }

    /** The resource is alive and ours: look up what the request needs, then create or update. */
    method Sync(base: Resource<S>, turns: Turns<S, E, R>)
      modifies this
      ensures Snap(Idle) == Play(kind, old(Snap(Preparing(base))), turns)
    {
      Await(3, turns, Preparing(base));
      match kind.prep(base.spec, ext, turns(3).fault) {
        case Blocked(reason) => Fail(base, base.status, reason, turns);
        case Build(owner, req) =>
          var status := base.status.(owner := owner);
          if status.id.None? {
            Create(base, status, req, turns);
          } else {
            Update(base, status, req, status.id.value, turns);
          }
      }
    }
  }
}
