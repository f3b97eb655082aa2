/** The Kubernetes API server as the reconcilers use it: one custom resource with optimistic locking. */
module Kube {
  import opened Base
  import opened Client

  /** A custom resource: resource version, our finalizer, deletion mark, spec and status. */
  datatype Obj<Spec, Status> = Obj(rv: nat, finalizer: bool, deleting: bool, spec: Spec, status: Status)

  /** The stored resource, if any, and the next unused resource version of the cluster. */
  datatype Store<Spec, Status> = Store(obj: Option<Obj<Spec, Status>>, clock: nat)

  /** What anyone but the reconciler may do to the resource: never touch its status or finalizer. */
  datatype Edit<Spec> = Apply(spec: Spec) | EditSpec(spec: Spec) | Delete

  /** Apply creates the resource when absent; deleting an object without finalizer removes it. */
  function Edited<Spec, Status>(s: Store<Spec, Status>, e: Edit<Spec>, blank: Status): Store<Spec, Status> {
    match (e, s.obj)
    case (Apply(spec), None) => Store(Some(Obj(s.clock, false, false, spec, blank)), s.clock + 1)
    case (EditSpec(spec), Some(o)) => Store(Some(o.(spec := spec, rv := s.clock)), s.clock + 1)
    case (Delete, Some(o)) =>
      if o.finalizer then Store(Some(o.(deleting := true, rv := s.clock)), s.clock + 1)
      else Store(None, s.clock)
    case _ => s
  }

  /** The copy a pass works on is still what is stored. */
  predicate Current<Spec, Status>(s: Store<Spec, Status>, base: Obj<Spec, Status>) {
    s.obj.Some? && s.obj.value.rv == base.rv
  }

  /** A write takes effect when it reaches the server and meets no newer resource version. */
  predicate Accepts<Spec, Status>(s: Store<Spec, Status>, base: Obj<Spec, Status>, f: Fault) {
    TakesEffect(f) && Current(s, base)
  }

  /** The status subresource update; writing an unchanged status does not change the version. */
  function SaveStatus<Spec, Status(==)>(s: Store<Spec, Status>, base: Obj<Spec, Status>, status: Status, f: Fault)
    : Store<Spec, Status>
  {
    if !Accepts(s, base, f) then s
    else if status == base.status then s
    else Store(Some(base.(status := status, rv := s.clock)), s.clock + 1)
  }

  /** The update that adds or removes the finalizer; a marked object without finalizer disappears. */
  function SaveFinalizer<Spec, Status>(s: Store<Spec, Status>, base: Obj<Spec, Status>, on: bool, f: Fault)
    : Store<Spec, Status>
  {
    if !Accepts(s, base, f) then s
    else if base.deleting && !on then Store(None, s.clock + 1)
    else Store(Some(base.(finalizer := on, rv := s.clock)), s.clock + 1)
  }

  predicate Fresh<Spec, Status>(s: Store<Spec, Status>) {
    s.obj.Some? ==> s.obj.value.rv < s.clock
  }

  /**
   * `base` was read from the store by the pass under way: an equal version means an equal object,
   * and once it carries the finalizer nobody else can remove it or change its status.
   */
  ghost predicate Tracks<Spec, Status>(s: Store<Spec, Status>, base: Obj<Spec, Status>) {
    && base.rv < s.clock
    && (Current(s, base) ==> s.obj.value == base)
    && (base.finalizer ==> s.obj.Some? && s.obj.value.finalizer && s.obj.value.status == base.status)
    && (base.finalizer && base.deleting ==> s.obj.value.deleting)
  }

  lemma EditKeeps<Spec, Status>(s: Store<Spec, Status>, e: Edit<Spec>, blank: Status)
    requires Fresh(s)
    ensures Fresh(Edited(s, e, blank))
    ensures s.clock <= Edited(s, e, blank).clock
    ensures forall base :: Tracks(s, base) ==> Tracks(Edited(s, e, blank), base)
  {
  }

  /** A write lands exactly when it reaches the server and what is stored is still the copy it is based on. */
  predicate Lands<Spec, Status>(s: Store<Spec, Status>, base: Obj<Spec, Status>, f: Fault) {
    (f.Served? || f.Lost?) && s.obj.Some? && s.obj.value.rv == base.rv
  }

  /** A status write that lands changes the status and nothing else but the version; any other, nothing. */
  lemma StatusWriteOutcome<Spec, Status>(s: Store<Spec, Status>, base: Obj<Spec, Status>, status: Status, f: Fault)
    requires Tracks(s, base)
    ensures var s' := SaveStatus(s, base, status, f);
            && (!Lands(s, base, f) ==> s' == s)
            && (Lands(s, base, f) ==>
                  && s'.obj.Some?
                  && s'.obj.value == s.obj.value.(status := status, rv := s'.obj.value.rv)
                  && (s'.obj.value.rv == s.obj.value.rv <==> status == s.obj.value.status))
  {
  }

  /** A finalizer write that lands sets it; dropped from a marked object, it lets the object go. */
  lemma FinalizerWriteOutcome<Spec, Status>(s: Store<Spec, Status>, base: Obj<Spec, Status>, on: bool, f: Fault)
    requires Tracks(s, base)
    ensures var s' := SaveFinalizer(s, base, on, f);
            && (!Lands(s, base, f) ==> s' == s)
            && (Lands(s, base, f) ==>
                  && (s'.obj.None? <==> s.obj.value.deleting && !on)
                  && (s'.obj.Some? ==> s'.obj.value == s.obj.value.(finalizer := on, rv := s.clock)))
  {
  }

  /** What others do to the resource: it appears blank, its spec is replaced, it is marked, or it goes. */
  lemma EditOutcome<Spec, Status>(s: Store<Spec, Status>, e: Edit<Spec>, blank: Status)
    ensures var s' := Edited(s, e, blank);
            && s.clock <= s'.clock
            && (s.obj.None? ==>
                  if e.Apply? then s'.obj == Some(Obj(s.clock, false, false, e.spec, blank)) else s' == s)
            && (s.obj.Some? && e.Apply? ==> s' == s)
            && (s.obj.Some? && e.EditSpec? ==> s'.obj == Some(s.obj.value.(spec := e.spec, rv := s.clock)))
            && (s.obj.Some? && e.Delete? ==>
                  if s.obj.value.finalizer then s'.obj == Some(s.obj.value.(deleting := true, rv := s.clock))
                  else s'.obj.None?)
  {
  }
}
