/** Which password credentials a Secret event wakes up, and why those are enough. */
module SecretWatch {
  import opened Base
  import opened Client
  import opened Kube
  import opened Passes
  import opened PasswordCredential
  import opened PasswordSafety
  import opened PasswordRuns
  import opened PasswordReconciler
  import opened PasswordLimits
  import opened PasswordProgress

  /** One listed password credential of the Secret's namespace. */
  datatype Item = Item(name: string, spec: Spec)

  function Readers(items: seq<Item>, secret: string): seq<string> {
    if items == [] then []
    else (if items[0].spec.secretName == secret then [items[0].name] else []) + Readers(items[1..], secret)
  }

  /** The list call may fail; then nobody is woken up. */
  method CredentialsForSecret(list: Option<seq<Item>>, secret: string) returns (reqs: seq<string>)
    ensures reqs == if list.Some? then Readers(list.value, secret) else []
  {
    reqs := [];
    if list.None? {
      return;
    }
    var items, i := list.value, 0;
    while i < |items|
      invariant 0 <= i <= |items|
      invariant reqs + Readers(items[i..], secret) == Readers(items, secret)
    {
      assert items[i..][1..] == items[i + 1..];
      if items[i].spec.secretName == secret {
        reqs := reqs + [items[i].name];
      }
      i := i + 1;
    }
  }

  lemma {:induction false} ReadersAreAll(items: seq<Item>, secret: string, name: string)
    ensures name in Readers(items, secret) <==>
            exists i :: 0 <= i < |items| && items[i].name == name && items[i].spec.secretName == secret
  {
    if items != [] {
      ReadersAreAll(items[1..], secret, name);
      assert forall i :: 1 <= i < |items| ==> items[i] == items[1..][i - 1];
      assert items[0] in items;
    }
  }

  /** A pass over a credential that is not woken up reads the same before and after the Secret changed. */
  lemma OthersReadTheSame(w: World, e: Env, secret: string, b: Resource, status: Status, user: Id, f: Fault)
    requires e == DropSecret(secret) || (e.PutSecret? && e.name == secret)
    requires b.spec.secretName != secret
    ensures ReadNext(EnvStep(w, e).secrets, b, status, user, f) == ReadNext(w.secrets, b, status, user, f)
  {
  }

  /**
   * A rotated password arrives: whatever the runs before, once the Secret has a new revision the
   * credential that reads it is among those woken up, and one undisturbed pass leaves it Ready for
   * exactly that revision.
   */
  lemma RotationArrives(w: World, items: seq<Item>, name: string, data: map<string, string>,
      names: set<string>, u: Id, i: nat)
    requires Inv(w, names, u) && w.flight.Idle? && w.store.obj.Some? && !w.store.obj.value.deleting
    requires var s := w.store.obj.value.spec;
             s.secretName == name && s.username in w.users && HasPassword(data, s) && i < |items| && items[i].spec == s
    requires ValidSecret(name, data)
    ensures items[i].name in Readers(items, name)
    ensures var s := w.store.obj.value.spec;
            var w1 := EnvStep(w, PutSecret(name, data));
            var key := if s.secretKey != "" then s.secretKey else "password";
            Exact(Pass(w1, Calm), Read(name, key, w.store.clock, data[key]), u)
  {
    ReadersAreAll(items, name, items[i].name);
    EnvKeeps(w, PutSecret(name, data), names, u);
    hide Inv, Pass;
    var w1 := EnvStep(w, PutSecret(name, data));
    OneQuietPassSyncs(w1, ReadNow(w1, w.store.obj.value.spec), names, u);
  }
}
