/** Undisturbed rounds over all groups and targets: convergence by jump depth, from any statuses. */
module TargetConvergence {
  import opened Base
  import opened Client
  import opened Kube
  import opened Lifecycle
  import opened LifecycleReconciler
  import opened LifecycleProgress
  import opened Kinds
  import opened Targets

  // ---- One half: the resources of one kind ----

  ghost predicate SlotOk<S, R>(s: Slot<S, R>, next: Id) {
    && s.flight.Idle? && s.store.obj.Some? && !s.store.obj.value.deleting
    && (StoredId(s).Some? ==> StoredId(s).value < next)
  }

  /** No live record is named by two resources. */
  ghost predicate Distinct<S, R>(h: Half<S, R>) {
    forall m, n ::
      m in h.slots && n in h.slots && m != n &&
      StoredId(h.slots[m]).Some? && StoredId(h.slots[m]).value in h.recs ==>
      StoredId(h.slots[m]) != StoredId(h.slots[n])
  }

  /**
   * Controllers idle, nothing marked for deletion, stored ids once handed out by the server (dead
   * ones included), and no live record named by two resources.
   */
  ghost predicate HalfOk<S, R>(h: Half<S, R>) {
    && (forall n :: n in h.slots ==> SlotOk(h.slots[n], h.next))
    && (forall i :: i in h.recs ==> i < h.next && h.recs[i].owner == None)
    && Distinct(h)
  }

  /** What an undisturbed pass does to its resource and the records: at most its own record changes. */
  ghost predicate Local<S, E, R>(w: World<S, E, R>, w': World<S, E, R>)
    requires Alive(w)
  {
    && Alive(w') && w'.store.obj.value.spec == w.store.obj.value.spec && w.nextId <= w'.nextId
    && (forall i :: i in w.recs ==> i in w'.recs)
    && (forall i :: i in w'.recs ==> i < w'.nextId && w'.recs[i].owner == None)
    && IdMoves(w.store.obj.value.status.id, w'.store.obj.value.status.id, w.recs, w'.recs, w.nextId, w'.nextId)
  }

  /** The stored id stays, or becomes none, or is a new one; only its record may change or appear. */
  ghost predicate IdMoves<R>(was: Option<Id>, now: Option<Id>, recs: map<Id, Rec<R>>, recs': map<Id, Rec<R>>,
      next: Id, next': Id) {
    && (now.Some? ==> now.value < next' && (now == was || now == Some(next)))
    && (was.Some? && was.value in recs ==> now == was)
    && (forall i :: i in recs' ==> i in recs || (i == next && now == Some(i)))
    && (forall i :: i in recs && i in recs' && now != Some(i) ==> recs'[i] == recs[i])
  }

  lemma PassIsLocal<S, E, R>(k: Kind<S, E, R>, w: World<S, E, R>)
    requires Alive(w) && (Request(k, w).Build? ==> Request(k, w).owner == None)
    requires w.store.obj.value.status.id.Some? ==> w.store.obj.value.status.id.value < w.nextId
    requires forall i :: i in w.recs ==> i < w.nextId && w.recs[i].owner == None
    ensures Local(w, CalmPass(k, w))
  {
    CalmPassIsQuiet(k, w);
    hide CalmPass;
  }

  /** One undisturbed pass over resource n. */
  function VisitHalf<S, E, R>(k: Kind<S, E, R>, h: Half<S, R>, ext: E, n: Name): Half<S, R> {
    if n in h.slots then Put(h, n, CalmPass(k, WorldOf(h, ext, n))) else h
  }

  ghost predicate TopLevel<S(!new), E, R>(k: Kind<S, E, R>, ext: E) {
    forall s: S :: k.prep(s, ext, Served).Build? ==> k.prep(s, ext, Served).owner == None
  }

  lemma HalfVisit<S(!new), E, R>(k: Kind<S, E, R>, h: Half<S, R>, ext: E, n: Name)
    requires HalfOk(h) && TopLevel(k, ext) && n in h.slots
    ensures Alive(WorldOf(h, ext, n)) && Local(WorldOf(h, ext, n), CalmPass(k, WorldOf(h, ext, n)))
  {
    assert SlotOk(h.slots[n], h.next);
    PassIsLocal(k, WorldOf(h, ext, n));
  }

  ghost function SpecIn<S, R>(h: Half<S, R>, n: Name): Option<S> {
    if n in h.slots && h.slots[n].store.obj.Some? then Some(h.slots[n].store.obj.value.spec) else None
  }

  ghost predicate Live<S, R>(h: Half<S, R>, n: Name) {
    n in h.slots && StoredId(h.slots[n]).Some? && StoredId(h.slots[n]).value in h.recs
  }

  /** What visits leave: order, names, specs and live ids. */
  ghost predicate HalfSteady<S, R>(h: Half<S, R>, h': Half<S, R>) {
    && HalfOk(h') && h'.slots.Keys == h.slots.Keys
    && (forall n :: n in h.slots ==> SpecIn(h', n) == SpecIn(h, n))
    && (forall n :: Live(h, n) ==> Live(h', n) && StoredId(h'.slots[n]) == StoredId(h.slots[n]))
  }

  lemma HalfStaysOk<S(!new), E, R>(k: Kind<S, E, R>, h: Half<S, R>, ext: E, n: Name)
    requires HalfOk(h) && TopLevel(k, ext) && n in h.slots
    ensures HalfOk(VisitHalf(k, h, ext, n))
  {
    HalfVisit(k, h, ext, n);
    hide CalmPass;
  }

  lemma HalfKeepsOthers<S(!new), E, R>(k: Kind<S, E, R>, h: Half<S, R>, ext: E, n: Name, m: Name)
    requires HalfOk(h) && TopLevel(k, ext) && n in h.slots && m in h.slots
    ensures var h' := VisitHalf(k, h, ext, n);
            && m in h'.slots && SpecIn(h', m) == SpecIn(h, m)
            && (Live(h, m) ==> Live(h', m) && StoredId(h'.slots[m]) == StoredId(h.slots[m]))
  {
    HalfVisit(k, h, ext, n);
    hide CalmPass, HalfOk;
  }

  lemma HalfKeeps<S(!new), E, R>(k: Kind<S, E, R>, h: Half<S, R>, ext: E, n: Name)
    requires HalfOk(h) && TopLevel(k, ext)
    ensures HalfSteady(h, VisitHalf(k, h, ext, n))
  {
    if n in h.slots {
      HalfStaysOk(k, h, ext, n);
      forall m | m in h.slots
        ensures var h' := VisitHalf(k, h, ext, n);
                && SpecIn(h', m) == SpecIn(h, m)
                && (Live(h, m) ==> Live(h', m) && StoredId(h'.slots[m]) == StoredId(h.slots[m]))
      {
        HalfKeepsOthers(k, h, ext, n, m);
      }
      hide CalmPass, HalfOk, SpecIn;
    }
  }

  /** Distance depends on the resource, its request and its own record only. */
  lemma DistanceSame<S, E, R>(k: Kind<S, E, R>, w: World<S, E, R>, w': World<S, E, R>)
    requires Alive(w) && w'.store == w.store && w'.flight == w.flight
    requires Request(k, w') == Request(k, w)
    requires var id := w.store.obj.value.status.id;
             id.Some? ==> (id.value in w.recs <==> id.value in w'.recs)
                          && (id.value in w.recs ==> w'.recs[id.value] == w.recs[id.value])
    ensures Distance(k, w') == Distance(k, w)
  {
  }

  /** A visit to another resource leaves this one's record alone. */
  lemma OtherRecordSame<S(!new), E, R>(k: Kind<S, E, R>, h: Half<S, R>, ext: E, n: Name, m: Name)
    requires HalfOk(h) && TopLevel(k, ext) && m in h.slots && m != n
    ensures var h' := VisitHalf(k, h, ext, n);
            && m in h'.slots && h'.slots[m] == h.slots[m]
            && (StoredId(h.slots[m]).Some? ==>
                  && (StoredId(h.slots[m]).value in h.recs <==> StoredId(h.slots[m]).value in h'.recs)
                  && (StoredId(h.slots[m]).value in h.recs ==>
                        h'.recs[StoredId(h.slots[m]).value] == h.recs[StoredId(h.slots[m]).value]))
  {
    assert SlotOk(h.slots[m], h.next);
    if n in h.slots {
      HalfVisit(k, h, ext, n);
      hide CalmPass;
    }
  }

  /** No visit takes a resource further from its request, and its own visit brings it nearer. */
  lemma DistanceFalls<S(!new), E, R>(k: Kind<S, E, R>, h: Half<S, R>, ext: E, ext': E, n: Name, m: Name)
    requires HalfOk(h) && TopLevel(k, ext) && m in h.slots
    requires Alive(WorldOf(h, ext, m)) && Request(k, WorldOf(h, ext, m)).Build?
    requires k.prep(h.slots[m].store.obj.value.spec, ext', Served) == k.prep(h.slots[m].store.obj.value.spec,
        ext, Served)
    ensures var w, w' := WorldOf(h, ext, m), WorldOf(VisitHalf(k, h, ext, n), ext', m);
            && Alive(w') && Distance(k, w') <= Distance(k, w)
            && (n == m ==> Distance(k, w') == 0 || Distance(k, w') < Distance(k, w))
  {
    var w, w' := WorldOf(h, ext, m), WorldOf(VisitHalf(k, h, ext, n), ext', m);
    if n == m {
      CalmPassApproaches(k, w);
      var w1 := CalmPass(k, w);
      hide CalmPass, HalfOk;
      assert w'.store == w1.store && w'.recs == w1.recs && w'.flight == w1.flight;
      DistanceSame(k, w1, w');
    } else {
      OtherRecordSame(k, h, ext, n, m);
      hide CalmPass, HalfOk, VisitHalf;
      DistanceSame(k, w, w');
    }
  }
}
