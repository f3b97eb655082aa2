/** Runs of a state machine, and the passes of a controller as runs of it. */
module Passes {
  import opened Client

  /** One step: somebody else acts, the call under way is made with some fault, or the operator dies. */
  datatype Deed<+E> = Others(env: E) | Call(fault: Fault) | Crash

  /** What others do before one call of a pass, and what happens to that call. */
  datatype Turn<+E> = Turn(env: seq<E>, fault: Fault)

  /** A whole run: any sequence of steps. */
  function Fold<W, A>(step: (W, A) -> W, w: W, acts: seq<A>): W
    decreases |acts|
  {
    if acts == [] then w else Fold(step, step(w, acts[0]), acts[1..])
  }

  lemma {:induction false} FoldAppend<W, A>(step: (W, A) -> W, w: W, a: seq<A>, b: seq<A>)
    ensures Fold(step, w, a + b) == Fold(step, Fold(step, w, a), b)
    decreases |a|
  {
    if a == [] {
      assert a + b == b;
    } else {
      assert (a + b)[1..] == a[1..] + b;
      FoldAppend(step, step(w, a[0]), a[1..], b);
    }
  }

  lemma FoldLast<W, A>(step: (W, A) -> W, w: W, acts: seq<A>, a: A)
    ensures Fold(step, w, acts + [a]) == step(Fold(step, w, acts), a)
  {
    FoldAppend(step, w, acts, [a]);
    assert Fold(step, step(Fold(step, w, acts), a), []) == step(Fold(step, w, acts), a);
  }

  /** A run up to its last step, and that step. */
  lemma FoldSplit<W, A>(step: (W, A) -> W, w: W, acts: seq<A>)
    requires acts != []
    ensures var n := |acts| - 1; Fold(step, w, acts) == step(Fold(step, w, acts[..n]), acts[n])
  {
    var n := |acts| - 1;
    assert acts == acts[..n] + [acts[n]];
    FoldLast(step, w, acts[..n], acts[n]);
  }

  /** When a state of a run has property p and the first has not: the last step that brought it about. */
  lemma {:induction false} Since<W, A>(step: (W, A) -> W, w: W, acts: seq<A>, p: W -> bool) returns (i: nat)
    requires !p(w) && p(Fold(step, w, acts))
    ensures i < |acts| && !p(Fold(step, w, acts[..i])) && p(step(Fold(step, w, acts[..i]), acts[i]))
    ensures forall j :: i < j <= |acts| ==> p(Fold(step, w, acts[..j]))
    decreases |acts|
  {
    if acts == [] {
      assert false;
    } else {
      var n := |acts| - 1;
      var before := acts[..n];
      FoldSplit(step, w, acts);
      assert acts[..|acts|] == acts;
      if p(Fold(step, w, before)) {
        i := Since(step, w, before, p);
        assert before[..i] == acts[..i];
        forall j | i < j <= n
          ensures p(Fold(step, w, acts[..j]))
        {
          assert before[..j] == acts[..j];
        }
      } else {
        i := n;
      }
    }
  }

  /** Only calls move the pass under way; a crash ends it. */
  ghost predicate CallsMove<W(!new), E(!new), F>(step: (W, Deed<E>) -> W, flight: W -> F, idle: F) {
    && (forall w, e :: flight(step(w, Others(e))) == flight(w))
    && (forall w :: flight(step(w, Crash)) == idle)
  }

  /** From after step i up to n the pass under way stays where it is at n. */
  ghost predicate Stays<W, E, F>(step: (W, Deed<E>) -> W, flight: W -> F, w: W, acts: seq<Deed<E>>, i: nat, n: nat) {
    && i < n <= |acts| && acts[i].Call?
    && forall j :: i < j <= n ==> flight(Fold(step, w, acts[..j])) == flight(Fold(step, w, acts[..n]))
  }

  /** The call that brought the pass to where it is at n. */
  lemma EnteredBefore<W(!new), E(!new), F>(step: (W, Deed<E>) -> W, flight: W -> F, idle: F, w: W, acts: seq<Deed<E>>,
      n: nat) returns (i: nat)
    requires CallsMove(step, flight, idle)
    requires flight(w) == idle && n <= |acts| && flight(Fold(step, w, acts[..n])) != idle
    ensures Stays(step, flight, w, acts, i, n)
    ensures flight(Fold(step, w, acts[..i])) != flight(Fold(step, w, acts[..n]))
    ensures flight(step(Fold(step, w, acts[..i]), acts[i])) == flight(Fold(step, w, acts[..n]))
  {
    var before := acts[..n];
    i := Since(step, w, before, (v: W) => flight(v) == flight(Fold(step, w, before)));
    assert before[..i] == acts[..i];
    forall j | i < j <= n
      ensures flight(Fold(step, w, acts[..j])) == flight(Fold(step, w, before))
    {
      assert before[..j] == acts[..j];
    }
  }

  /** What every step keeps holds all along a run. */
  lemma {:induction false} FoldKeeps<W(!new), A(!new)>(step: (W, A) -> W, w: W, acts: seq<A>, p: W -> bool)
    requires p(w) && forall v, a :: p(v) ==> p(step(v, a))
    ensures p(Fold(step, w, acts))
    decreases |acts|
  {
    if acts != [] {
      FoldKeeps(step, step(w, acts[0]), acts[1..], p);
    }
  }

  function AllOthers<E>(es: seq<E>): seq<Deed<E>> {
    seq(|es|, i requires 0 <= i < |es| => Others(es[i]))
  }

  function EnvAll<W, E>(step: (W, Deed<E>) -> W, w: W, es: seq<E>): W {
    Fold(step, w, AllOthers(es))
  }

  lemma NoEnv<W, E>(step: (W, Deed<E>) -> W, w: W)
    ensures EnvAll(step, w, []) == w
  {
    assert AllOthers<E>([]) == [];
  }

  lemma EnvAllMore<W, E>(step: (W, Deed<E>) -> W, w: W, es: seq<E>, e: E)
    ensures EnvAll(step, w, es + [e]) == step(EnvAll(step, w, es), Others(e))
  {
    assert AllOthers(es + [e]) == AllOthers(es) + [Others(e)];
    FoldLast(step, w, AllOthers(es), Others(e));
  }

  /**
   * The rest of a pass; `rank` is how many calls it can still make, and turn n belongs to the call
   * made at rank n. Every call lowers the rank, so that a pass ends at rank 0.
   */
  function PlayOut<W, E>(step: (W, Deed<E>) -> W, rank: W -> nat, w: W, turns: nat -> Turn<E>): W
    decreases rank(w)
  {
    if rank(w) == 0 then w
    else
      var w' := TakeTurn(step, w, turns(rank(w)));
      if rank(w') < rank(w) then PlayOut(step, rank, w', turns) else w'
  }

  function TakeTurn<W, E>(step: (W, Deed<E>) -> W, w: W, t: Turn<E>): W {
    step(EnvAll(step, w, t.env), Call(t.fault))
  }

  function Acts<E>(t: Turn<E>): seq<Deed<E>> {
    AllOthers(t.env) + [Call(t.fault)]
  }

  lemma TurnIsRun<W, E>(step: (W, Deed<E>) -> W, w: W, t: Turn<E>)
    ensures Fold(step, w, Acts(t)) == TakeTurn(step, w, t)
  {
    FoldLast(step, w, AllOthers(t.env), Call(t.fault));
  }

  /** The actions the rest of a pass amounts to. */
  function PlayActs<W, E>(step: (W, Deed<E>) -> W, rank: W -> nat, w: W, turns: nat -> Turn<E>): seq<Deed<E>>
    decreases rank(w)
  {
    if rank(w) == 0 then []
    else
      var t := turns(rank(w));
      var w' := TakeTurn(step, w, t);
      Acts(t) + if rank(w') < rank(w) then PlayActs(step, rank, w', turns) else []
  }

  /** The rest of a pass is a run. */
  lemma {:induction false} PlayIsRun<W, E>(step: (W, Deed<E>) -> W, rank: W -> nat, w: W, turns: nat -> Turn<E>)
    ensures Fold(step, w, PlayActs(step, rank, w, turns)) == PlayOut(step, rank, w, turns)
    decreases rank(w)
  {
    if rank(w) != 0 {
      var t := turns(rank(w));
      var w' := TakeTurn(step, w, t);
      TurnIsRun(step, w, t);
      var rest := if rank(w') < rank(w) then PlayActs(step, rank, w', turns) else [];
      FoldAppend(step, w, Acts(t), rest);
      if rank(w') < rank(w) {
        PlayIsRun(step, rank, w', turns);
      }
    }
  }

  /** Other people's actions leave the rank alone, and every call lowers it. */
  ghost predicate Falls<W(!new), E(!new)>(step: (W, Deed<E>) -> W, rank: W -> nat) {
    && (forall w, e :: rank(step(w, Others(e))) == rank(w))
    && (forall w, f :: rank(w) > 0 ==> rank(step(w, Call(f))) < rank(w))
  }

  lemma {:induction false} EnvKeepsRank<W(!new), E(!new)>(step: (W, Deed<E>) -> W, rank: W -> nat, w: W, es: seq<E>)
    requires Falls(step, rank)
    ensures rank(EnvAll(step, w, es)) == rank(w)
    decreases |es|
  {
    if es == [] {
      NoEnv(step, w);
    } else {
      var n := |es| - 1;
      EnvKeepsRank(step, rank, w, es[..n]);
      EnvAllMore(step, w, es[..n], es[n]);
      assert es == es[..n] + [es[n]];
    }
  }

  lemma {:induction false} PlayEnds<W(!new), E(!new)>(step: (W, Deed<E>) -> W, rank: W -> nat, w: W,
      turns: nat -> Turn<E>)
    requires Falls(step, rank)
    ensures rank(PlayOut(step, rank, w, turns)) == 0
    decreases rank(w)
  {
    if rank(w) != 0 {
      EnvKeepsRank(step, rank, w, turns(rank(w)).env);
      PlayEnds(step, rank, TakeTurn(step, w, turns(rank(w))), turns);
    }
  }

  /** A whole pass: the call that starts it takes turn `top`. */
  function WholePass<W, E>(step: (W, Deed<E>) -> W, rank: W -> nat, w: W, top: nat, turns: nat -> Turn<E>): W {
    PlayOut(step, rank, TakeTurn(step, w, turns(top)), turns)
  }

  function PassActs<W, E>(step: (W, Deed<E>) -> W, rank: W -> nat, w: W, top: nat, turns: nat -> Turn<E>)
    : seq<Deed<E>>
  {
    Acts(turns(top)) + PlayActs(step, rank, TakeTurn(step, w, turns(top)), turns)
  }

  /** A pass is a run of the state machine, so everything proved of runs holds of passes. */
  lemma WholePassIsRun<W(!new), E(!new)>(step: (W, Deed<E>) -> W, rank: W -> nat, w: W, top: nat, turns: nat -> Turn<E>)
    requires Falls(step, rank)
    ensures Fold(step, w, PassActs(step, rank, w, top, turns)) == WholePass(step, rank, w, top, turns)
    ensures rank(WholePass(step, rank, w, top, turns)) == 0
  {
    var w' := TakeTurn(step, w, turns(top));
    TurnIsRun(step, w, turns(top));
    FoldAppend(step, w, Acts(turns(top)), PlayActs(step, rank, w', turns));
    PlayIsRun(step, rank, w', turns);
    PlayEnds(step, rank, w', turns);
  }
}
