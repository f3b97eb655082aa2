/** The role, target group and public key controllers as kinds of the shared lifecycle. */
module Kinds {
  import opened Base
  import opened Client
  import opened Kube
  import opened Lifecycle
  import opened LifecycleSafety
  import opened LifecycleProgress

  datatype RoleSpec = RoleSpec(name: string, description: string, isDefault: bool)
  datatype RoleRequest = RoleRequest(name: string, description: string, isDefault: bool)

  const RoleKind: Kind<RoleSpec, (), RoleRequest> :=
    Kind(false, (s: RoleSpec, _: (), _: Fault) => Build(None, RoleRequest(s.name, s.description, s.isDefault)))

  datatype GroupSpec = GroupSpec(name: string, description: string, color: string)
  datatype GroupRequest = GroupRequest(name: string, description: string, color: string)

  const GroupKind: Kind<GroupSpec, (), GroupRequest> :=
    Kind(false, (s: GroupSpec, _: (), _: Fault) => Build(None, GroupRequest(s.name, s.description, s.color)))

  datatype KeySpec = KeySpec(username: string, keyLabel: string, key: string)
  datatype KeyRequest = KeyRequest(keyLabel: string, key: string)

  /** GetUserByUsername, then the request for that user. */
  function KeyPrep(s: KeySpec, users: map<string, Id>, f: Fault): Prep<KeyRequest> {
    if f.Served? && s.username in users then Build(Some(users[s.username]), KeyRequest(s.keyLabel, s.key))
    else Blocked(UserNotFound)
  }

  const PublicKeyKind: Kind<KeySpec, map<string, Id>, KeyRequest> := Kind(true, KeyPrep)

  /** A key's request is built exactly when the user is found, for that user and from the spec. */
  lemma KeyBuiltIff(s: KeySpec, users: map<string, Id>, f: Fault)
    ensures var p := KeyPrep(s, users, f);
            && (p.Build? <==> f.Served? && s.username in users)
            && (p.Build? ==> p.owner == Some(users[s.username]) && p.req.keyLabel == s.keyLabel && p.req.key == s.key)
            && (p.Blocked? ==> p.reason == UserNotFound)
  {
  }

  /** The requests of roles and groups need no lookup and carry the spec. */
  lemma PlainRequests(r: RoleSpec, g: GroupSpec, f: Fault)
    ensures var p, q := RoleKind.prep(r, (), f), GroupKind.prep(g, (), f);
            && p.Build? && p.owner == None && q.Build? && q.owner == None
            && p.req.name == r.name && p.req.description == r.description && p.req.isDefault == r.isDefault
            && q.req.name == g.name && q.req.description == g.description && q.req.color == g.color
  {
  }

  /** Roles and groups need no hypothesis at all; public keys need a username that stays one user. */
  lemma KindsAreSteady(names: set<string>, users: map<string, Id>, u: Id)
    ensures Steady(RoleKind, (_: RoleSpec) => true, (), None)
    ensures Steady(GroupKind, (_: GroupSpec) => true, (), None)
    ensures Steady(PublicKeyKind, (s: KeySpec) => s.username in names, users, Some(u)) <==>
            (forall n :: n in names && n in users ==> users[n] == u)
  {
    if Steady(PublicKeyKind, (s: KeySpec) => s.username in names, users, Some(u)) {
      forall n | n in names && n in users
        ensures users[n] == u
      {
        assert PublicKeyKind.prep(KeySpec(n, "", ""), users, Served).Build?;
      }
    }
  }

  /** Two undisturbed passes take any stored status to a role equal to its spec, and there it stays. */
  lemma RoleConverges(w: World<RoleSpec, (), RoleRequest>)
    requires Alive(w)
    ensures var w2 := CalmPass(RoleKind, CalmPass(RoleKind, w));
            var spec := w.store.obj.value.spec;
            && w2.store.obj.Some? && w2.store.obj.value.spec == spec
            && w2.store.obj.value.status.id.Some? && w2.store.obj.value.status.id.value in w2.recs
            && w2.recs[w2.store.obj.value.status.id.value]
               == Rec(None, RoleRequest(spec.name, spec.description, spec.isDefault))
            && CalmPass(RoleKind, w2) == w2
  {
    TwoPassesConverge(RoleKind, w);
  }

  lemma GroupConverges(w: World<GroupSpec, (), GroupRequest>)
    requires Alive(w)
    ensures var w2 := CalmPass(GroupKind, CalmPass(GroupKind, w));
            var spec := w.store.obj.value.spec;
            && w2.store.obj.Some? && w2.store.obj.value.spec == spec
            && w2.store.obj.value.status.id.Some? && w2.store.obj.value.status.id.value in w2.recs
            && w2.recs[w2.store.obj.value.status.id.value]
               == Rec(None, GroupRequest(spec.name, spec.description, spec.color))
            && CalmPass(GroupKind, w2) == w2
  {
    TwoPassesConverge(GroupKind, w);
  }

  /** The same for a public key whose user exists, stale ids and another stored user included. */
  lemma PublicKeyConverges(w: World<KeySpec, map<string, Id>, KeyRequest>)
    requires Alive(w) && w.store.obj.value.spec.username in w.ext
    ensures var w2 := CalmPass(PublicKeyKind, CalmPass(PublicKeyKind, w));
            var spec := w.store.obj.value.spec;
            && w2.store.obj.Some? && w2.store.obj.value.spec == spec
            && w2.store.obj.value.status.id.Some? && w2.store.obj.value.status.id.value in w2.recs
            && w2.recs[w2.store.obj.value.status.id.value]
               == Rec(Some(w.ext[spec.username]), KeyRequest(spec.keyLabel, spec.key))
            && CalmPass(PublicKeyKind, w2) == w2
  {
    TwoPassesConverge(PublicKeyKind, w);
  }

  type KeyWorld = World<KeySpec, map<string, Id>, KeyRequest>

  /** The stored status names key c of user u. */
  predicate Holds(w: KeyWorld, c: Id, u: Id) {
    w.store.obj.Some? && w.store.obj.value.status.id == Some(c) && w.store.obj.value.status.owner == Some(u)
  }

  /** The key is live under the user the stored status names. */
  predicate HoldsLive(w: KeyWorld, c: Id, u: Id) {
    Holds(w, c, u) && c in w.recs && w.recs[c].owner == Some(u)
  }

  /** The username, if it means anybody, still means user u. */
  predicate StillMeans(w: KeyWorld, u: Id)
    requires w.store.obj.Some?
  {
    var name := w.store.obj.value.spec.username;
    name in w.ext ==> w.ext[name] == u
  }

  /**
   * An undisturbed pass keeps hold of a live key exactly when its username does not mean another
   * user; otherwise the update under the new user finds nothing, and the pass forgets the key.
   */
  lemma KeyIsKeptIff(w: KeyWorld, c: Id, u: Id)
    requires Alive(w) && HoldsLive(w, c, u)
    ensures var w1 := CalmPass(PublicKeyKind, w);
            && Alive(w1) && c in w1.recs && w1.recs[c].owner == Some(u) && w1.lost == w.lost
            && (Holds(w1, c, u) <==> StillMeans(w, u))
            && (w1.store.obj.value.status.id == Some(c) <==> StillMeans(w, u))
  {
    CalmPassIsQuiet(PublicKeyKind, w);
    hide CalmPass;
  }

  /** Whatever becomes of the update call: if the status write after it lands, the same holds. */
  lemma KeyIsKeptByUpdateIff(w: KeyWorld, b: Resource<KeySpec>, c: Id, u: Id, f: Fault)
    requires w.store.obj == Some(b) && HoldsLive(w, c, u) && b.spec.username in w.ext
    requires w.flight == PrepareNext(b, KeyPrep(b.spec, w.ext, Served))
    ensures var w2 := Write(Order(w, f), Served);
            Holds(w2, c, u) <==> StillMeans(w, u)
  {
    var owner := Some(w.ext[b.spec.username]);
    DeleteSettled(f, if Present(w.recs, owner, c) then 200 else 404);
    var next := UpdateNext(w.recs, b, b.status.(owner := owner), c, f);
    assert Order(w, f).flight == next && Order(w, f).store == w.store;
    hide ErrorOf, Order;
  }

  /**
   * After that pass, deleting the resource and one more undisturbed pass leave the key live in
   * Warpgate, unrecorded, exactly when the username had come to mean another user.
   */
  lemma MovedUserLeaksKeyIff(w: KeyWorld, c: Id, u: Id)
    requires Alive(w) && HoldsLive(w, c, u)
    ensures var w1 := CalmPass(PublicKeyKind, w);
            var w3 := CalmPass(PublicKeyKind, EnvStep(w1, Change(Delete)));
            w3.store.obj.None? && (c in w3.recs <==> !StillMeans(w, u))
  {
    KeyIsKeptIff(w, c, u);
    CalmPassIsQuiet(PublicKeyKind, w);
    var w1 := CalmPass(PublicKeyKind, w);
    assert w1.store.obj.value.finalizer;
    var o := w1.store.obj.value.(deleting := true, rv := w1.store.clock);
    CalmPassFinalizes(PublicKeyKind, EnvStep(w1, Change(Delete)), o);
    hide CalmPass, Quiet;
  }
}
