/** The rollout hash: which changes its text shows, and when the Deployment is written. */
module Rollout {
  import opened Base
  import Text
  import opened Instance

  // ---- The hashed text ----

  lemma BoolPrefix(a: bool, b: bool, x: string, y: string)
    requires Bool(a) + x == Bool(b) + y
    ensures a == b && x == y
  {
    assert (Bool(a) + x)[0] == Bool(a)[0] && (Bool(b) + y)[0] == Bool(b)[0];
    assert (Bool(a) + x)[|Bool(a)|..] == x && (Bool(b) + y)[|Bool(b)|..] == y;
  }

  lemma Associate(a: string, b: string, c: string)
    ensures (a + b) + c == a + (b + c)
  {
  }

  lemma AssociateFive(a: string, b: string, c: string, d: string, e: string, x: string)
    ensures a + b + c + d + e + x == a + (b + (c + (d + (e + x))))
  {
    Associate(a + b + c + d, e, x);
    Associate(a + b + c, d, e + x);
    Associate(a + b, c, d + (e + x));
    Associate(a, b, c + (d + (e + x)));
  }

  /** The five flags are read back from their text, whatever follows it. */
  lemma FlagTextDecodes(a: seq<bool>, b: seq<bool>, x: string, y: string)
    requires |a| == |b| == 5
    requires FlagText(a[0], a[1], a[2], a[3], a[4]) + x == FlagText(b[0], b[1], b[2], b[3], b[4]) + y
    ensures a == b && x == y
  {
    hide Bool;
    var x4, y4 := Bool(a[4]) + x, Bool(b[4]) + y;
    var x3, y3 := Bool(a[3]) + x4, Bool(b[3]) + y4;
    var x2, y2 := Bool(a[2]) + x3, Bool(b[2]) + y3;
    var x1, y1 := Bool(a[1]) + x2, Bool(b[1]) + y2;
    AssociateFive(Bool(a[0]), Bool(a[1]), Bool(a[2]), Bool(a[3]), Bool(a[4]), x);
    AssociateFive(Bool(b[0]), Bool(b[1]), Bool(b[2]), Bool(b[3]), Bool(b[4]), y);
    hide FlagText;
    BoolPrefix(a[0], b[0], x1, y1);
    BoolPrefix(a[1], b[1], x2, y2);
    BoolPrefix(a[2], b[2], x3, y3);
    BoolPrefix(a[3], b[3], x4, y4);
    BoolPrefix(a[4], b[4], x, y);
  }

  lemma SameLengthPrefix(a: string, b: string, x: string, y: string)
    requires |a| == |b| && a + x == b + y
    ensures a == b && x == y
  {
    assert (a + x)[..|a|] == a && (b + y)[..|b|] == b;
    assert (a + x)[|a|..] == x && (b + y)[|b|..] == y;
  }

  /** Equal length of the decimal texts, port by port. */
  predicate SameDigits(a: seq<int>, b: seq<int>) {
    |a| == |b| && forall i :: 0 <= i < |a| ==> |Text.DecInt(a[i])| == |Text.DecInt(b[i])|
  }

  /** The unseparated port texts of the same digit counts are read back, whatever follows. */
  lemma PortTextDecodes(a: seq<int>, b: seq<int>, x: string, y: string)
    requires |a| == |b| == 5 && SameDigits(a, b)
    requires PortText(a[0], a[1], a[2], a[3], a[4]) + x == PortText(b[0], b[1], b[2], b[3], b[4]) + y
    ensures a == b && x == y
  {
    hide Text.DecInt;
    var x4, y4 := Text.DecInt(a[4]) + x, Text.DecInt(b[4]) + y;
    var x3, y3 := Text.DecInt(a[3]) + x4, Text.DecInt(b[3]) + y4;
    var x2, y2 := Text.DecInt(a[2]) + x3, Text.DecInt(b[2]) + y3;
    var x1, y1 := Text.DecInt(a[1]) + x2, Text.DecInt(b[1]) + y2;
    AssociateFive(Text.DecInt(a[0]), Text.DecInt(a[1]), Text.DecInt(a[2]), Text.DecInt(a[3]), Text.DecInt(a[4]), x);
    AssociateFive(Text.DecInt(b[0]), Text.DecInt(b[1]), Text.DecInt(b[2]), Text.DecInt(b[3]), Text.DecInt(b[4]), y);
    hide PortText;
    PortPrefix(a[0], b[0], x1, y1);
    PortPrefix(a[1], b[1], x2, y2);
    PortPrefix(a[2], b[2], x3, y3);
    PortPrefix(a[3], b[3], x4, y4);
    PortPrefix(a[4], b[4], x, y);
  }

  lemma PortPrefix(a: int, b: int, x: string, y: string)
    requires |Text.DecInt(a)| == |Text.DecInt(b)| && Text.DecInt(a) + x == Text.DecInt(b) + y
    ensures a == b && x == y
  {
    SameLengthPrefix(Text.DecInt(a), Text.DecInt(b), x, y);
    Text.DecIntInjective(a, b);
  }

  function PortsOf(s: Spec): seq<int> {
    [HttpPort(s), SshPort(s), MysqlPort(s), PgPort(s), KubernetesPort(s)]
  }

  function FlagsOf(s: Spec): seq<bool> {
    [HttpEnabled(s), SshEnabled(s), MysqlEnabled(s), PgEnabled(s), KubernetesEnabled(s)]
  }

  /**
   * Two instances with the same image whose ports have the same digit counts have the same hashed
   * text only if all ports, all flags and the rest of the text are the same.
   */
  lemma HashedTextShowsPortsAndFlags(s: Spec, t: Spec, d: Digests)
    requires ResolveImage(s) == ResolveImage(t) && SameDigits(PortsOf(s), PortsOf(t))
    requires HashedText(s, d) == HashedText(t, d)
    ensures PortsOf(s) == PortsOf(t) && FlagsOf(s) == FlagsOf(t) && HashedTail(s, d) == HashedTail(t, d)
  {
    var f, g := SpecFlagText(s) + HashedTail(s, d), SpecFlagText(t) + HashedTail(t, d);
    hide ResolveImage, PortText, FlagText, HashedTail, SpecPortText, SpecFlagText, PortsOf, FlagsOf;
    Associate(ResolveImage(s) + SpecPortText(s), SpecFlagText(s), HashedTail(s, d));
    Associate(ResolveImage(t) + SpecPortText(t), SpecFlagText(t), HashedTail(t, d));
    Associate(ResolveImage(s), SpecPortText(s), f);
    Associate(ResolveImage(t), SpecPortText(t), g);
    SameLengthPrefix(ResolveImage(s), ResolveImage(t), SpecPortText(s) + f, SpecPortText(t) + g);
    hide HashedText;
    SpecPortsDecode(s, t, f, g);
    SpecFlagsDecode(s, t, HashedTail(s, d), HashedTail(t, d));
  }

  lemma SpecPortsDecode(s: Spec, t: Spec, x: string, y: string)
    requires SameDigits(PortsOf(s), PortsOf(t)) && SpecPortText(s) + x == SpecPortText(t) + y
    ensures PortsOf(s) == PortsOf(t) && x == y
  {
    hide HttpPort, SshPort, MysqlPort, PgPort, KubernetesPort, PortText, SameDigits;
    PortTextDecodes(PortsOf(s), PortsOf(t), x, y);
  }

  lemma SpecFlagsDecode(s: Spec, t: Spec, x: string, y: string)
    requires SpecFlagText(s) + x == SpecFlagText(t) + y
    ensures FlagsOf(s) == FlagsOf(t) && x == y
  {
    hide HttpEnabled, SshEnabled, MysqlEnabled, PgEnabled, KubernetesEnabled, FlagText;
    FlagTextDecodes(FlagsOf(s), FlagsOf(t), x, y);
  }

  /** Without equal digit counts two different sets of valid ports can read the same. */
  lemma PortTextCollides(c: int, d: int, e: int)
    ensures PortText(88, 822, c, d, e) == PortText(888, 22, c, d, e)
  {
    assert Text.Dec(8) == "8" && Text.Dec(2) == "2";
    assert Text.Dec(88) == "88" && Text.Dec(82) == "82" && Text.Dec(22) == "22";
    assert Text.Dec(888) == "888" && Text.Dec(822) == "822";
    hide Text.Dec;
    assert "88" + "822" == "888" + "22";
  }

  // ---- ensureDeployment ----

  /** What becomes of one API call; a Lost one takes effect although the caller sees an error. */
  datatype Reply = Answered | Failed | Lost

  /** The test that decides whether an existing Deployment is rewritten. */
  predicate Outdated(existing: Deployment, desired: Deployment) {
    || existing.template.image != desired.template.image
    || existing.template.hash != desired.template.hash
    || existing.replicas != desired.replicas
  }

  datatype Outcome = Outcome(deployment: Option<Deployment>, ok: bool, wrote: bool)

  function Ensured(existing: Option<Deployment>, desired: Deployment, get: bool, write: Reply): Outcome {
    if !get then Outcome(existing, false, false)
    else if existing.Some? && !Outdated(existing.value, desired) then Outcome(existing, true, false)
    else Outcome(if write.Failed? then existing else Some(desired), write.Answered?, true)
  }

  class DeploymentStore {
    var deployment: Option<Deployment>

    constructor ()
      ensures deployment == None
    {
      deployment := None;
    }

    method EnsureDeployment(name: string, inst: Spec, d: Digests, get: bool, write: Reply) returns (ok: bool,
        wrote: bool)
      modifies this
      ensures Outcome(deployment, ok, wrote) == Ensured(old(deployment), BuildDeployment(name, inst, d), get, write)
    {
      var desired := BuildDeployment(name, inst, d);
      if !get {
        return false, false;
      }
      if deployment.None? {
        if !write.Failed? {
          deployment := Some(desired);
        }
        return write.Answered?, true;
      }
      var existing := deployment.value;
      if existing.template.image != desired.template.image || existing.template.hash != desired.template.hash ||
         existing.replicas != desired.replicas {
        existing := existing.(template := desired.template);
        existing := existing.(replicas := desired.replicas);
        existing := existing.(strategy := desired.strategy);
        if !write.Failed? {
          deployment := Some(existing);
        }
        return write.Answered?, true;
      }
      return true, false;
    }
  }

  /** After a successful call, another one for the same instance issues no write, whatever its replies. */
  lemma SecondCallNeverWrites(existing: Option<Deployment>, desired: Deployment, get: bool, write: Reply,
      get': bool, write': Reply)
    requires Ensured(existing, desired, get, write).ok
    ensures var o := Ensured(Ensured(existing, desired, get, write).deployment, desired, get', write');
            !o.wrote && o.deployment == Ensured(existing, desired, get, write).deployment
  {
  }

  /**
   * A write is issued exactly when the Deployment was read and is missing or differs in image, hash or
   * replicas; the call succeeds exactly when it was read and its write, if any, was answered; then
   * image, hash and replicas are the desired ones.
   */
  lemma EnsuredAgrees(existing: Option<Deployment>, desired: Deployment, get: bool, write: Reply)
    ensures var o := Ensured(existing, desired, get, write);
            && (o.wrote <==> get && (existing.None?
                                     || existing.value.template.image != desired.template.image
                                     || existing.value.template.hash != desired.template.hash
                                     || existing.value.replicas != desired.replicas))
            && (o.ok <==> get && (o.wrote ==> write.Answered?))
            && (!o.wrote || write.Failed? ==> o.deployment == existing)
            && (o.wrote && !write.Failed? ==> o.deployment == Some(desired))
            && (o.ok ==> o.deployment.Some? && o.deployment.value.template.image == desired.template.image
                         && o.deployment.value.template.hash == desired.template.hash
                         && o.deployment.value.replicas == desired.replicas)
  {
  }

  /** A successful call leaves what was built exactly when the test saw a difference or there was none. */
  lemma EnsuredIsDesiredIff(existing: Option<Deployment>, desired: Deployment, get: bool, write: Reply)
    requires Ensured(existing, desired, get, write).ok
    ensures Ensured(existing, desired, get, write).deployment == Some(desired) <==>
            existing.None? || Outdated(existing.value, desired) || existing.value == desired
  {
  }

  /** A changed strategy alone is never applied: neither the hash nor the test looks at it. */
  lemma StrategyChangeIgnored(name: string, s: Spec, d: Digests, write: Reply)
    requires s.strategy == "Recreate"
    ensures var s' := s.(strategy := "RollingUpdate");
            var o := Ensured(Some(BuildDeployment(name, s, d)), BuildDeployment(name, s', d), true, write);
            !o.wrote && o.ok && o.deployment.value.strategy == Recreate &&
                BuildDeployment(name, s', d).strategy == RollingUpdate
  {
    var s' := s.(strategy := "RollingUpdate");
    StrategyIsNotHashed(name, s, d);
    hide Pods, HashedText, InitScript, Replicas;
  }

  lemma StrategyIsNotRun(s: Spec)
    ensures var s' := s.(strategy := "RollingUpdate");
            && ResolveImage(s') == ResolveImage(s) && InitScript(s') == InitScript(s) && Ports(s') == Ports(s)
  {
    hide Enabled, PortOf;
  }

  lemma StrategyIsNotMounted(name: string, s: Spec)
    ensures var s' := s.(strategy := "RollingUpdate");
            InitEnv(s') == InitEnv(s) && InitMounts(s') == InitMounts(s) && Volumes(name, s') == Volumes(name, s)
  {
    hide OrText;
    assert Claim(name, s.(strategy := "RollingUpdate")) == Claim(name, s);
    hide Claim;
  }

  lemma StrategyIsNotHashed(name: string, s: Spec, d: Digests)
    ensures var s' := s.(strategy := "RollingUpdate");
            && Pods(name, s') == Pods(name, s) && HashedText(s', d) == HashedText(s, d)
            && InitScript(s') == InitScript(s) && Replicas(s') == Replicas(s)
  {
    StrategyIsNotRun(s);
    StrategyIsNotMounted(name, s);
    hide Enabled, PortOf, PortText, FlagText, OrText, ResolveImage, InitScript, Ports;
    hide InitEnv, InitMounts, Volumes;
  }
}
