/** What defaulting, the accessors and the built objects come to, field by field of the spec. */
module InstanceReading {
  import opened Base
  import Text
  import opened Instance
  import opened InstanceMeaning
  import opened YamlQuote

  // ---- Defaulting ----

  /** An optional field that is given stays, and one that is not gets the default. */
  predicate Fills<T(==)>(o: Option<T>, d: T, r: Option<T>) {
    r.Some? && (o.Some? ==> r == o) && (o.None? ==> r.value == d)
  }

  predicate FillsText(s: string, d: string, r: string) {
    (s != "" ==> r == s) && (s == "" ==> r == d)
  }

  /** A listener block that is absent stays absent; in one that is there only the port is filled in. */
  predicate FillsPort(l: Option<Listener>, port: int, r: Option<Listener>) {
    && (l.None? <==> r.None?)
    && (l.Some? ==> r.value.enabled == l.value.enabled && Fills(l.value.port, port, r.value.port))
  }

  /** Defaulting sets exactly these fields, and none that the spec gives. */
  lemma DefaultFills(s: Spec)
    ensures var d := Defaulted(s);
            && Fills(s.replicas, 1, d.replicas)
            && Fills(s.createConnection, true, d.createConnection) && Fills(s.recordSessions, false, d.recordSessions)
            && FillsText(s.strategy, "Recreate", d.strategy)
            && (d.image == if s.image != "" || s.version == "" then s.image
                           else "ghcr.io/warp-tech/warpgate:" + s.version)
            && d.version == s.version
    ensures var d := Defaulted(s);
            && FillsPort(s.ssh, 2222, d.ssh) && FillsPort(s.mysql, 33306, d.mysql)
            && FillsPort(s.postgresql, 55432, d.postgresql) && FillsPort(s.kubernetes, 0, d.kubernetes)
            && (s.ssh.Some? ==> FillsText(s.ssh.value.serviceType, "ClusterIP", d.ssh.value.serviceType))
            && (s.mysql.Some? ==> d.mysql.value.serviceType == s.mysql.value.serviceType)
            && (s.postgresql.Some? ==> d.postgresql.value.serviceType == s.postgresql.value.serviceType)
            && (s.kubernetes.Some? ==> d.kubernetes.value.serviceType == s.kubernetes.value.serviceType)
  {
  }

  /** The blocks that are created when they are absent. */
  lemma DefaultCreates(s: Spec)
    ensures var d := Defaulted(s);
            d.http.Some? && d.storage.Some? && d.tls.Some?
    ensures var h, d := if s.http.Some? then s.http.value else Listener(None, None, ""), Defaulted(s).http.value;
            && Fills(h.enabled, true, d.enabled) && Fills(h.port, 8888, d.port)
            && FillsText(h.serviceType, "ClusterIP", d.serviceType)
    ensures var v, d := if s.storage.Some? then s.storage.value else Storage(None, "", None, ""),
                        Defaulted(s).storage.value;
            && Fills(v.enabled, true, d.enabled) && FillsText(v.size, "1Gi", d.size)
            && d.className == v.className && d.existingClaimName == v.existingClaimName
    ensures var t, d := if s.tls.Some? then s.tls.value else Tls(None, "", None), Defaulted(s).tls.value;
            && Fills(t.certManager, true, d.certManager)
            && d.secretName == t.secretName && d.verifyConnection == t.verifyConnection
  {
  }

  // ---- Accessors ----

  /** Only HTTP is on unless it is switched off; the others are off unless switched on. */
  lemma SwitchesRead(s: Spec)
    ensures HttpEnabled(s) <==> !(s.http.Some? && s.http.value.enabled == Some(false))
    ensures SshEnabled(s) <==> s.ssh.Some? && s.ssh.value.enabled == Some(true)
    ensures MysqlEnabled(s) <==> s.mysql.Some? && s.mysql.value.enabled == Some(true)
    ensures PgEnabled(s) <==> s.postgresql.Some? && s.postgresql.value.enabled == Some(true)
    ensures KubernetesEnabled(s) <==> s.kubernetes.Some? && s.kubernetes.value.enabled == Some(true)
    ensures StorageEnabled(s) <==> !(s.storage.Some? && s.storage.value.enabled == Some(false))
    ensures CertManagerEnabled(s) <==> s.tls.Some? && s.tls.value.certManager == Some(true)
    ensures ShouldCreateConnection(s) <==> s.createConnection != Some(false)
    ensures RecordSessions(s) <==> s.recordSessions == Some(true)
    ensures TlsSecretProvided(s) <==> s.tls.Some? && s.tls.value.secretName != ""
  {
  }

  /** The port of a listener: what its block gives, or the protocol's own. */
  predicate PortIs(l: Option<Listener>, d: int, port: int) {
    port == if l.Some? && l.value.port.Some? then l.value.port.value else d
  }

  lemma ValuesRead(s: Spec)
    ensures PortIs(s.http, 8888, HttpPort(s)) && PortIs(s.ssh, 2222, SshPort(s)) && PortIs(s.mysql, 33306, MysqlPort(s))
    ensures PortIs(s.postgresql, 55432, PgPort(s)) && PortIs(s.kubernetes, 8443, KubernetesPort(s))
    ensures Replicas(s) == if s.replicas.Some? then s.replicas.value else 1
    ensures FillsText(s.adminPassword.key, "password", AdminPasswordKey(s))
    ensures FillsText(if s.storage.Some? then s.storage.value.size else "", "1Gi", StorageSize(s))
    ensures s.image != "" ==> ResolveImage(s) == s.image
    ensures s.image == "" && "v" <= s.version ==> ResolveImage(s) == "ghcr.io/warp-tech/warpgate:" + s.version
    ensures s.image == "" && !("v" <= s.version) ==>
              ResolveImage(s) == "ghcr.io/warp-tech/warpgate:" + ("v" + s.version)
  {
  }

  /** A named Secret goes before the plain URL, and without either there is no external database. */
  lemma DatabaseRead(s: Spec)
    ensures var named := s.databaseURLSecretRef.Some? && s.databaseURLSecretRef.value.name != "";
            && (ExternalDatabase(s) <==> named || s.databaseURL != "")
            && (DatabaseURLFromSecret(s) <==> named)
            && (named ==> DatabaseURLEnv(s).FromSecret? && DatabaseURLEnv(s).name == s.databaseURLSecretRef.value.name
                          && FillsText(s.databaseURLSecretRef.value.key, "url", DatabaseURLEnv(s).key))
            && (!named ==> DatabaseURLEnv(s) == Inline(s.databaseURL))
            && FillsText(if s.databaseURLSecretRef.Some? then s.databaseURLSecretRef.value.key else "", "url",
                         DatabaseURLKey(s))
  {
  }

  // ---- The init script ----

  /** The order of the steps. */
  function Stage(part: Part): nat {
    match part
    case CopySshKeys => 0
    case CopyTlsSecret => 1
    case Setup(_, _, _, _, _) => 2
    case UseOverride => 3
    case UseConfig => 3
    case AppendDatabaseURL => 4
    case SelfSigned => 5
    case SecureFiles => 6
  }

  /** The script is exactly these steps: see ScriptInOrder for their order. */
  lemma StepsIff(s: Spec, part: Part)
    ensures part in InitScript(s) <==>
            match part
            case CopySshKeys => s.sshKeysSecretName != ""
            case CopyTlsSecret => s.tls.Some? && s.tls.value.secretName != ""
            case Setup(httpPort, kubernetesPort, database, record, importKeys) =>
              && PortIs(s.http, 8888, httpPort) && database == ExternalDatabase(s)
              && (record <==> s.recordSessions == Some(true)) && (importKeys <==> s.sshKeysSecretName != "")
              && (kubernetesPort.Some? <==> s.kubernetes.Some? && s.kubernetes.value.enabled == Some(true))
              && (kubernetesPort.Some? ==> PortIs(s.kubernetes, 8443, kubernetesPort.value))
            case UseOverride => s.configOverride != ""
            case UseConfig => s.configOverride == ""
            case AppendDatabaseURL => s.configOverride == "" && ExternalDatabase(s)
            case SelfSigned =>
              && !(s.tls.Some? && s.tls.value.secretName != "")
              && !(s.tls.Some? && s.tls.value.certManager == Some(true))
            case SecureFiles => true
  {
    SwitchesRead(s);
    ValuesRead(s);
    StepsListed(s, part);
    hide InitScript, ExternalDatabase, HttpEnabled, KubernetesEnabled, CertManagerEnabled, RecordSessions,
        TlsSecretProvided, HttpPort, KubernetesPort;
  }

  lemma InBoth(a: seq<Part>, b: seq<Part>, part: Part)
    ensures part in a + b <==> part in a || part in b
  {
  }

  /** The same, in terms of the accessors. */
  lemma StepsListed(s: Spec, part: Part)
    ensures part in InitScript(s) <==>
            || (part.CopySshKeys? && s.sshKeysSecretName != "") || (part.CopyTlsSecret? && TlsSecretProvided(s))
            || part == Setup(HttpPort(s), if KubernetesEnabled(s) then Some(KubernetesPort(s)) else None,
                             ExternalDatabase(s), RecordSessions(s), s.sshKeysSecretName != "")
            || part == (if s.configOverride != "" then UseOverride else UseConfig)
            || (part.AppendDatabaseURL? && s.configOverride == "" && ExternalDatabase(s))
            || (part.SelfSigned? && !TlsSecretProvided(s) && !CertManagerEnabled(s)) || part.SecureFiles?
  {
    hide ExternalDatabase, KubernetesEnabled, CertManagerEnabled, RecordSessions, TlsSecretProvided, HttpPort,
        KubernetesPort;
    var keys, tls := When(s.sshKeysSecretName != "", CopySshKeys), When(TlsSecretProvided(s), CopyTlsSecret);
    var setup := [Setup(HttpPort(s), if KubernetesEnabled(s) then Some(KubernetesPort(s)) else None,
                        ExternalDatabase(s), RecordSessions(s), s.sshKeysSecretName != "")];
    var use := [if s.configOverride != "" then UseOverride else UseConfig];
    var url := When(s.configOverride == "" && ExternalDatabase(s), AppendDatabaseURL);
    var self := When(!TlsSecretProvided(s) && !CertManagerEnabled(s), SelfSigned);
    assert InitScript(s) == keys + tls + setup + use + url + self + [SecureFiles];
    hide InitScript;
    InBoth(keys, tls, part);
    InBoth(keys + tls, setup, part);
    InBoth(keys + tls + setup, use, part);
    InBoth(keys + tls + setup + use, url, part);
    InBoth(keys + tls + setup + use + url, self, part);
    InBoth(keys + tls + setup + use + url + self, [SecureFiles], part);
  }

  /** The steps are in order, and of the stages from lo up to hi. */
  ghost predicate Staged(parts: seq<Part>, lo: nat, hi: nat) {
    && (forall i :: 0 <= i < |parts| ==> lo <= Stage(parts[i]) < hi)
    && forall i, j :: 0 <= i < j < |parts| ==> Stage(parts[i]) < Stage(parts[j])
  }

  lemma StagedAppend(a: seq<Part>, b: seq<Part>, lo: nat, mid: nat, hi: nat)
    requires lo <= mid <= hi && Staged(a, lo, mid) && Staged(b, mid, hi)
    ensures Staged(a + b, lo, hi)
  {
    hide Stage;
  }

  lemma StagedOne(b: bool, part: Part, n: nat)
    requires Stage(part) == n
    ensures Staged(When(b, part), n, n + 1) && Staged([part], n, n + 1)
  {
  }

  /** No step comes twice, and each comes in its place. */
  lemma ScriptInOrder(s: Spec)
    ensures Staged(InitScript(s), 0, 7)
  {
    hide ExternalDatabase, KubernetesEnabled, CertManagerEnabled, RecordSessions, TlsSecretProvided, HttpPort,
        KubernetesPort, When, Staged;
    var keys, tls := When(s.sshKeysSecretName != "", CopySshKeys), When(TlsSecretProvided(s), CopyTlsSecret);
    var setup := Setup(HttpPort(s), if KubernetesEnabled(s) then Some(KubernetesPort(s)) else None,
                       ExternalDatabase(s), RecordSessions(s), s.sshKeysSecretName != "");
    var use := if s.configOverride != "" then UseOverride else UseConfig;
    var url := When(s.configOverride == "" && ExternalDatabase(s), AppendDatabaseURL);
    var self := When(!TlsSecretProvided(s) && !CertManagerEnabled(s), SelfSigned);
    StagedOne(s.sshKeysSecretName != "", CopySshKeys, 0);
    StagedOne(TlsSecretProvided(s), CopyTlsSecret, 1);
    StagedOne(true, setup, 2);
    StagedOne(true, use, 3);
    StagedOne(s.configOverride == "" && ExternalDatabase(s), AppendDatabaseURL, 4);
    StagedOne(!TlsSecretProvided(s) && !CertManagerEnabled(s), SelfSigned, 5);
    StagedOne(true, SecureFiles, 6);
    StagedAppend(keys, tls, 0, 1, 2);
    StagedAppend(keys + tls, [setup], 0, 2, 3);
    StagedAppend(keys + tls + [setup], [use], 0, 3, 4);
    StagedAppend(keys + tls + [setup] + [use], url, 0, 4, 5);
    StagedAppend(keys + tls + [setup] + [use] + url, self, 0, 5, 6);
    StagedAppend(keys + tls + [setup] + [use] + url + self, [SecureFiles], 0, 6, 7);
  }

  // ---- Environment, mounts, volumes ----

  lemma EnvIff(s: Spec, v: EnvVar)
    ensures v in InitEnv(s) <==>
            || (v.name == "ADMIN_PASSWORD" && v.source.FromSecret? && v.source.name == s.adminPassword.name
                && FillsText(s.adminPassword.key, "password", v.source.key))
            || (v.name == "DATABASE_URL" && ExternalDatabase(s) && v.source == DatabaseURLEnv(s))
  {
    hide ExternalDatabase, DatabaseURLEnv;
  }

  lemma MountsIff(s: Spec, m: Mount)
    ensures m in InitMounts(s) <==>
            || m == Mount("data", "/data", false)
            || m == Mount("config", "/config", true)
            || (m == Mount("ssh-keys", "/ssh-keys", true) && s.sshKeysSecretName != "")
            || (m == Mount("tls-secret", "/tls-secret", true) && s.tls.Some? && s.tls.value.secretName != "")
            || (m == Mount("config-override", "/override", true) && s.configOverride != "")
  {
  }

  /** Data lives on the claim the spec names, on the operator's own, or on nothing that lasts. */
  lemma VolumesIff(name: string, s: Spec, v: Volume)
    ensures v in Volumes(name, s) <==>
            || v == Volume("config", ConfigMap(name + "-config"))
            || v == Volume("data",
                           if s.storage.Some? && s.storage.value.enabled == Some(false) then EmptyDir
                           else if s.storage.Some? && s.storage.value.existingClaimName != ""
                           then PersistentClaim(s.storage.value.existingClaimName)
                           else PersistentClaim(name + "-data"))
            || (s.sshKeysSecretName != "" && v == Volume("ssh-keys", SecretVolume(s.sshKeysSecretName)))
            || (s.tls.Some? && s.tls.value.secretName != "" &&
                v == Volume("tls-secret", SecretVolume(s.tls.value.secretName)))
            || (s.configOverride != "" && v == Volume("config-override", ConfigMap(name + "-config-override")))
  {
    DataVolume(name, s);
    var data := if StorageEnabled(s) then PersistentClaim(Claim(name, s).value) else EmptyDir;
    hide StorageEnabled, Claim;
  }

  lemma DataVolume(name: string, s: Spec)
    ensures (if StorageEnabled(s) then PersistentClaim(Claim(name, s).value) else EmptyDir) ==
            if s.storage.Some? && s.storage.value.enabled == Some(false) then EmptyDir
            else if s.storage.Some? && s.storage.value.existingClaimName != ""
            then PersistentClaim(s.storage.value.existingClaimName)
            else PersistentClaim(name + "-data")
  {
  }

  /** The Deployment around them. */
  lemma DeploymentRead(name: string, s: Spec, d: Digests)
    ensures var b := BuildDeployment(name, s, d);
            && b.replicas == (if s.replicas.Some? then s.replicas.value else 1)
            && (b.strategy == RollingUpdate <==> s.strategy == "RollingUpdate")
            && b.template.image == ResolveImage(s) && b.template.script == InitScript(s)
            && b.template.ports == Ports(s) && b.template.volumes == Volumes(name, s)
            && b.template.initEnv == InitEnv(s) && b.template.initMounts == InitMounts(s)
            && b.template.mounts == [Mount("data", "/data", false)] && b.template.rest == s.rest
            && b.template.hash == d.rollout(d.config(HashedText(s, d)), InitScript(s))
            && b.template.probe == (if s.http.Some? && s.http.value.enabled == Some(false) then None
                                    else Some(if s.http.Some? && s.http.value.port.Some? then s.http.value.port.value
                                              else 8888))
  {
    SwitchesRead(s);
    ValuesRead(s);
    hide ResolveImage, InitScript, Ports, Volumes, InitEnv, InitMounts, HashedText, HttpEnabled, HttpPort;
  }

  // ---- The rollout hash ----

  lemma CancelMiddle(a: string, x: string, y: string, b: string)
    requires a + x + b == a + y + b
    ensures x == y
  {
    assert |x| == |y|;
    assert (a + x + b)[|a|..|a| + |x|] == x && (a + y + b)[|a|..|a| + |y|] == y;
  }

  /** What is hashed before and after the ports and flags, in order. */
  datatype Tail = Tail(host: string, override: string, url: string, ref: string, keys: string)

  function TailOf(s: Spec, d: Digests): Tail {
    Tail(s.externalHost, s.configOverride, if s.databaseURL == "" then "" else d.fingerprint(s.databaseURL),
         if DatabaseURLFromSecret(s) then s.databaseURLSecretRef.value.name + "/" + DatabaseURLEnv(s).key else "",
         s.sshKeysSecretName)
  }

  function Head(s: Spec): string {
    ResolveImage(s) + SpecPortText(s) + SpecFlagText(s)
  }

  function Hashed(h: string, t: Tail): string {
    h + (t.host + t.override + t.url + t.ref + t.keys)
  }

  lemma HashedTextIs(s: Spec, d: Digests)
    ensures HashedText(s, d) == Hashed(Head(s), TailOf(s, d))
  {
    hide ResolveImage, SpecPortText, SpecFlagText, DatabaseURLFromSecret;
  }

  lemma SameHead(s: Spec, t: Spec)
    requires t == s.(externalHost := t.externalHost, configOverride := t.configOverride,
                     sshKeysSecretName := t.sshKeysSecretName, databaseURL := t.databaseURL,
                     databaseURLSecretRef := t.databaseURLSecretRef)
    ensures Head(t) == Head(s)
  {
    hide PortText, FlagText;
  }

  lemma Regroup(h: string, a: string, b: string, c: string, e: string, f: string)
    ensures h + (a + b + c + e + f) == h + a + (b + c + e + f)
    ensures h + (a + b + c + e + f) == (h + a) + b + (c + e + f)
    ensures h + (a + b + c + e + f) == (h + a + b) + c + (e + f)
    ensures h + (a + b + c + e + f) == (h + a + b + c) + e + f
    ensures h + (a + b + c + e + f) == (h + a + b + c + e) + f + ""
  {
  }

  /** A changed external host shows in the hashed text; so do the other two texts below. */
  lemma HostShows(s: Spec, d: Digests, x: string)
    ensures HashedText(s.(externalHost := x), d) == HashedText(s, d) <==> x == s.externalHost
  {
    var s', t := s.(externalHost := x), TailOf(s, d);
    HashedTextIs(s, d);
    HashedTextIs(s', d);
    SameHead(s, s');
    assert TailOf(s', d) == t.(host := x);
    ShowsFirst(Head(s), t.host, x, t.override, t.url, t.ref, t.keys);
    hide HashedText, TailOf, Head;
  }

  lemma OverrideShows(s: Spec, d: Digests, x: string)
    ensures HashedText(s.(configOverride := x), d) == HashedText(s, d) <==> x == s.configOverride
  {
    var s', t := s.(configOverride := x), TailOf(s, d);
    HashedTextIs(s, d);
    HashedTextIs(s', d);
    SameHead(s, s');
    assert TailOf(s', d) == t.(override := x);
    ShowsSecond(Head(s), t.host, t.override, x, t.url, t.ref, t.keys);
    hide HashedText, TailOf, Head;
  }

  lemma KeysShow(s: Spec, d: Digests, x: string)
    ensures HashedText(s.(sshKeysSecretName := x), d) == HashedText(s, d) <==> x == s.sshKeysSecretName
  {
    var s', t := s.(sshKeysSecretName := x), TailOf(s, d);
    HashedTextIs(s, d);
    HashedTextIs(s', d);
    SameHead(s, s');
    assert TailOf(s', d) == t.(keys := x);
    ShowsLast(Head(s), t.host, t.override, t.url, t.ref, t.keys, x);
    hide HashedText, TailOf, Head;
  }

  lemma ShowsFirst(h: string, a: string, x: string, b: string, c: string, e: string, f: string)
    ensures h + (x + b + c + e + f) == h + (a + b + c + e + f) <==> x == a
  {
    Regroup(h, a, b, c, e, f);
    Regroup(h, x, b, c, e, f);
    if h + (x + b + c + e + f) == h + (a + b + c + e + f) {
      CancelMiddle(h, a, x, b + c + e + f);
    }
  }

  lemma ShowsSecond(h: string, a: string, b: string, x: string, c: string, e: string, f: string)
    ensures h + (a + x + c + e + f) == h + (a + b + c + e + f) <==> x == b
  {
    Regroup(h, a, b, c, e, f);
    Regroup(h, a, x, c, e, f);
    if h + (a + x + c + e + f) == h + (a + b + c + e + f) {
      CancelMiddle(h + a, b, x, c + e + f);
    }
  }

  lemma ShowsThird(h: string, a: string, b: string, c: string, x: string, e: string, f: string)
    ensures h + (a + b + x + e + f) == h + (a + b + c + e + f) <==> x == c
  {
    Regroup(h, a, b, c, e, f);
    Regroup(h, a, b, x, e, f);
    if h + (a + b + x + e + f) == h + (a + b + c + e + f) {
      CancelMiddle(h + a + b, c, x, e + f);
    }
  }

  lemma ShowsFourth(h: string, a: string, b: string, c: string, e: string, x: string, f: string)
    ensures h + (a + b + c + x + f) == h + (a + b + c + e + f) <==> x == e
  {
    Regroup(h, a, b, c, e, f);
    Regroup(h, a, b, c, x, f);
    if h + (a + b + c + x + f) == h + (a + b + c + e + f) {
      CancelMiddle(h + a + b + c, e, x, f);
    }
  }

  lemma ShowsLast(h: string, a: string, b: string, c: string, e: string, f: string, x: string)
    ensures h + (a + b + c + e + x) == h + (a + b + c + e + f) <==> x == f
  {
    Regroup(h, a, b, c, e, f);
    Regroup(h, a, b, c, e, x);
    if h + (a + b + c + e + x) == h + (a + b + c + e + f) {
      CancelMiddle(h + a + b + c + e, f, x, "");
    }
  }

  /** A changed database URL shows exactly as far as its fingerprint does. */
  lemma DatabaseURLShows(s: Spec, d: Digests, x: string)
    ensures HashedText(s.(databaseURL := x), d) == HashedText(s, d) <==>
            (if x == "" then "" else d.fingerprint(x)) ==
            (if s.databaseURL == "" then "" else d.fingerprint(s.databaseURL))
  {
    var s', t := s.(databaseURL := x), TailOf(s, d);
    HashedTextIs(s, d);
    HashedTextIs(s', d);
    SameHead(s, s');
    assert s'.databaseURLSecretRef == s.databaseURLSecretRef;
    var u := if x == "" then "" else d.fingerprint(x);
    assert TailOf(s', d) == t.(url := u);
    ShowsThird(Head(s), t.host, t.override, t.url, u, t.ref, t.keys);
    hide HashedText, TailOf, Head;
  }

  /** The Secret's name and key show as one text, name first. */
  lemma DatabaseRefShows(s: Spec, d: Digests, x: SecretKeyRef)
    requires DatabaseURLFromSecret(s) && x.name != ""
    ensures HashedText(s.(databaseURLSecretRef := Some(x)), d) == HashedText(s, d) <==>
            x.name + "/" + (if x.key != "" then x.key else "url")
            == s.databaseURLSecretRef.value.name + "/" + DatabaseURLEnv(s).key
  {
    var s', t := s.(databaseURLSecretRef := Some(x)), TailOf(s, d);
    HashedTextIs(s, d);
    HashedTextIs(s', d);
    SameHead(s, s');
    var r := x.name + "/" + (if x.key != "" then x.key else "url");
    assert TailOf(s', d) == t.(ref := r);
    ShowsFourth(Head(s), t.host, t.override, t.url, t.ref, r, t.keys);
    hide HashedText, Head;
  }

  // ---- warpgate.yaml ----

  /** One listener's lines; HTTP has no switch, and only SSH goes without a certificate. */
  function SectionLines(name: string, switch_: Option<bool>, port: int, tls: bool): seq<string> {
    [name + ":\n"]
    + (if switch_.Some? then ["  enable: " + (if switch_.value then "true" else "false") + "\n"] else [])
    + ["  listen: \"0.0.0.0:" + Text.DecInt(port) + "\"\n"]
    + (if tls then [Certificate, PrivateKey] else [])
  }

  function OptionalSection(name: string, l: Option<Listener>, d: int): seq<string> {
    if l.Some? && l.value.enabled == Some(true) then
      SectionLines(name, Some(true), if l.value.port.Some? then l.value.port.value else d, true)
    else []
  }

  /** The generated lines, up to the external host and the secret backend. */
  function ConfigLines(s: Spec): seq<string> {
    (if ExternalDatabase(s) then [] else ["database_url: sqlite:/data/db\n"])
    + SectionLines("http", None, if s.http.Some? && s.http.value.port.Some? then s.http.value.port.value else 8888,
                   true)
    + SectionLines("ssh", Some(s.ssh.Some? && s.ssh.value.enabled == Some(true)),
                   if s.ssh.Some? && s.ssh.value.port.Some? then s.ssh.value.port.value else 2222, false)
    + OptionalSection("mysql", s.mysql, 33306) + OptionalSection("postgres", s.postgresql, 55432)
    + OptionalSection("kubernetes", s.kubernetes, 8443)
  }

  lemma {:induction false} DecHasNoNewline(n: nat)
    ensures '\n' !in Text.Dec(n)
  {
    if n >= 10 {
      DecHasNoNewline(n / 10);
    }
  }

  lemma ListenIsLine(port: int)
    ensures IsLine("  listen: \"0.0.0.0:" + Text.DecInt(port) + "\"\n")
  {
    DecHasNoNewline(if port < 0 then -port else port);
    assert '\n' !in Text.DecInt(port);
    hide Text.DecInt;
    var l := "  listen: \"0.0.0.0:" + Text.DecInt(port) + "\"\n";
    assert l[..|l| - 1] == "  listen: \"0.0.0.0:" + Text.DecInt(port) + "\"";
  }

  lemma {:induction false} ConcatBoth(a: seq<string>, b: seq<string>)
    ensures Concat(a + b) == Concat(a) + Concat(b)
  {
    if a == [] {
      assert a + b == b;
    } else {
      assert (a + b)[1..] == a[1..] + b;
      ConcatBoth(a[1..], b);
    }
  }

  lemma Prepend(lines: seq<string>, more: seq<string>)
    requires lines != []
    ensures [lines[0]] + (lines[1..] + more) == lines + more
  {
  }

  /** Complete lines in front of a text are its first lines. */
  lemma {:induction false} LinesInFront(lines: seq<string>, rest: string)
    requires forall l :: l in lines ==> IsLine(l)
    ensures Lines(Concat(lines) + rest) == lines + Lines(rest)
  {
    if lines == [] {
      assert Concat(lines) + rest == rest;
    } else {
      var t := Concat(lines[1..]) + rest;
      assert Concat(lines) + rest == lines[0] + t;
      assert lines[0] in lines && forall l :: l in lines[1..] ==> l in lines;
      hide Lines, IsLine, Concat;
      LinesInFront(lines[1..], rest);
      FirstLine(lines[0], t);
      Prepend(lines, Lines(rest));
    }
  }

  /** Some lines: complete, and together this text. */
  ghost predicate Makes(lines: seq<string>, text: string) {
    Concat(lines) == text && forall l :: l in lines ==> IsLine(l)
  }

  lemma MakesBoth(a: seq<string>, x: string, b: seq<string>, y: string)
    requires Makes(a, x) && Makes(b, y)
    ensures Makes(a + b, x + y)
  {
    ConcatBoth(a, b);
    hide IsLine;
  }

  lemma MakesFour(a: seq<string>, x: string, b: seq<string>, y: string, c: seq<string>, z: string,
      d: seq<string>, t: string)
    requires Makes(a, x) && Makes(b, y) && Makes(c, z) && Makes(d, t)
    ensures Makes(a + b + c + d, x + y + z + t)
  {
    hide Makes;
    MakesBoth(a, x, b, y);
    MakesBoth(a + b, x + y, c, z);
    MakesBoth(a + b + c, x + y + z, d, t);
  }

  lemma MakesOne(line: string)
    requires IsLine(line)
    ensures Makes([line], line)
  {
    assert [line][1..] == [];
  }

  lemma NameIsLine(name: string)
    requires '\n' !in name
    ensures IsLine(name + ":\n")
  {
    var l := name + ":\n";
    assert l[..|l| - 1] == name + ":";
  }

  lemma BlockMakes(name: string, on: bool, port: int, tls: bool)
    requires '\n' !in name
    ensures Makes(SectionLines(name, Some(on), port, tls), ListenerBlock(name, on, port, tls))
  {
    var header, enable := name + ":\n", "  enable: " + (if on then "true" else "false") + "\n";
    var listen := "  listen: \"0.0.0.0:" + Text.DecInt(port) + "\"\n";
    var cert, certText := if tls then [Certificate, PrivateKey] else [], if tls then TlsLines else "";
    NameIsLine(name);
    EnableIsLine(on);
    ListenIsLine(port);
    CertificateMakes();
    assert ListenerBlock(name, on, port, tls) == header + enable + listen + certText by {
      Associate(name, on, port, tls);
    }
    hide IsLine, ListenerBlock, Makes, Text.DecInt;
    MakesOne(header);
    MakesOne(enable);
    MakesOne(listen);
    MakesFour([header], header, [enable], enable, [listen], listen, cert, certText);
  }

  lemma EnableIsLine(on: bool)
    ensures IsLine("  enable: " + (if on then "true" else "false") + "\n")
  {
    var l := "  enable: " + (if on then "true" else "false") + "\n";
    assert l[..|l| - 1] == "  enable: " + (if on then "true" else "false");
  }

  lemma Associate(name: string, on: bool, port: int, tls: bool)
    ensures ListenerBlock(name, on, port, tls) ==
            (name + ":\n") + ("  enable: " + (if on then "true" else "false") + "\n")
            + ("  listen: \"0.0.0.0:" + Text.DecInt(port) + "\"\n") + (if tls then TlsLines else "")
  {
    hide Text.DecInt, TlsLines;
    var b := if on then "true" else "false";
    assert name + ":\n  enable: " + b + "\n" == (name + ":\n") + ("  enable: " + b + "\n");
  }

  const Certificate := "  certificate: /data/tls.certificate.pem\n"
  const PrivateKey := "  key: /data/tls.key.pem\n"

  lemma TlsLinesAre()
    ensures TlsLines == Certificate + PrivateKey
  {
  }

  lemma CertificateIsLine()
    ensures IsLine(Certificate)
  {
    CompleteLine("  certificate: /data/tls.certificate.pem");
    assert Certificate == "  certificate: /data/tls.certificate.pem" + "\n";
    hide IsLine;
  }

  lemma PrivateKeyIsLine()
    ensures IsLine(PrivateKey)
  {
    CompleteLine("  key: /data/tls.key.pem");
    assert PrivateKey == "  key: /data/tls.key.pem" + "\n";
    hide IsLine;
  }

  lemma CertificateMakes()
    ensures Makes([Certificate, PrivateKey], TlsLines) && Makes([], "")
  {
    TlsLinesAre();
    CertificateIsLine();
    PrivateKeyIsLine();
    hide Certificate, PrivateKey, TlsLines, IsLine;
    MakesOne(Certificate);
    MakesOne(PrivateKey);
    MakesBoth([Certificate], Certificate, [PrivateKey], PrivateKey);
    assert [Certificate] + [PrivateKey] == [Certificate, PrivateKey];
  }

  lemma CompleteLine(l: string)
    requires '\n' !in l
    ensures IsLine(l + "\n")
  {
    assert (l + "\n")[..|l + "\n"| - 1] == l;
  }

  lemma HttpMakes(port: int)
    ensures Makes(SectionLines("http", None, port, true), "http:\n" + ListenLine(port) + TlsLines)
  {
    var listen := "  listen: \"0.0.0.0:" + Text.DecInt(port) + "\"\n";
    CompleteLine("http:");
    ListenIsLine(port);
    CertificateMakes();
    assert "http" + ":\n" == "http:" + "\n" == "http:\n" && "http:\n" + "" == "http:\n";
    hide Text.DecInt, IsLine, Makes, TlsLines;
    MakesOne("http:\n");
    MakesOne(listen);
    MakesFour(["http:\n"], "http:\n", [], "", [listen], listen, [Certificate, PrivateKey], TlsLines);
  }

  lemma OptionalMakes(name: string, l: Option<Listener>, d: int)
    requires '\n' !in name
    ensures Makes(OptionalSection(name, l, d), TlsBlock(name, Enabled(l, false), PortOf(l, d)))
  {
    BlockMakes(name, true, PortOf(l, d), true);
    CertificateMakes();
    hide Makes, SectionLines, ListenerBlock;
  }

  lemma DatabaseMakes(external: bool)
    ensures var line := "database_url: sqlite:/data/db\n";
            Makes(if external then [] else [line], if external then "" else line)
  {
    CompleteLine("database_url: sqlite:/data/db");
    assert "database_url: sqlite:/data/db" + "\n" == "database_url: sqlite:/data/db\n";
    hide IsLine;
    MakesOne("database_url: sqlite:/data/db\n");
    CertificateMakes();
    hide Makes;
  }

  lemma PlainNames()
    ensures '\n' !in "ssh" && '\n' !in "mysql" && '\n' !in "postgres" && '\n' !in "kubernetes"
  {
  }

  lemma HeadMakes(s: Spec)
    ensures Makes(ConfigLines(s), ConfigHead(s) + TlsBlock("kubernetes", KubernetesEnabled(s), KubernetesPort(s)))
  {
    hide Makes, SectionLines, OptionalSection, ListenerBlock, TlsBlock, ListenLine, ExternalDatabase, TlsLines;
    PlainNames();
    DatabaseMakes(ExternalDatabase(s));
    HttpMakes(HttpPort(s));
    BlockMakes("ssh", SshEnabled(s), SshPort(s), false);
    OptionalMakes("mysql", s.mysql, 33306);
    OptionalMakes("postgres", s.postgresql, 55432);
    OptionalMakes("kubernetes", s.kubernetes, 8443);
    var db := "database_url: sqlite:/data/db\n";
    var l0, t0 := if ExternalDatabase(s) then [] else [db], if ExternalDatabase(s) then "" else db;
    MakesSix(l0, t0, SectionLines("http", None, HttpPort(s), true),
             "http:\n" + ListenLine(HttpPort(s)) + TlsLines,
             SectionLines("ssh", Some(SshEnabled(s)), SshPort(s), false),
             ListenerBlock("ssh", SshEnabled(s), SshPort(s), false),
             OptionalSection("mysql", s.mysql, 33306), TlsBlock("mysql", MysqlEnabled(s), MysqlPort(s)),
             OptionalSection("postgres", s.postgresql, 55432), TlsBlock("postgres", PgEnabled(s), PgPort(s)),
             OptionalSection("kubernetes", s.kubernetes, 8443),
             TlsBlock("kubernetes", KubernetesEnabled(s), KubernetesPort(s)));
    HttpFirst(t0, ListenLine(HttpPort(s)));
  }

  lemma HttpFirst(t: string, listen: string)
    ensures t + "http:\n" + listen + TlsLines == t + ("http:\n" + listen + TlsLines)
  {
    hide TlsLines;
  }

  lemma MakesSix(a: seq<string>, x: string, b: seq<string>, y: string, c: seq<string>, z: string,
      d: seq<string>, t: string, e: seq<string>, u: string, f: seq<string>, v: string)
    requires Makes(a, x) && Makes(b, y) && Makes(c, z) && Makes(d, t) && Makes(e, u) && Makes(f, v)
    ensures Makes(a + b + c + d + e + f, x + y + z + t + u + v)
  {
    hide Makes;
    MakesFour(a, x, b, y, c, z, d, t);
    MakesBoth(a + b + c + d, x + y + z + t, e, u);
    MakesBoth(a + b + c + d + e, x + y + z + t + u, f, v);
  }

  /**
   * The generated file, line by line: the database line exactly without an external database, each
   * listener with its own port and switch, and then the rendered external host and secret backend.
   */
  lemma ConfigReads(s: Spec, marshal: string -> string)
    ensures Lines(BuildConfig(s, marshal)) ==
            ConfigLines(s) + Lines((if s.externalHost == "" then "" else marshal(s.externalHost)) + s.vault)
  {
    HeadMakes(s);
    var head := ConfigHead(s) + TlsBlock("kubernetes", KubernetesEnabled(s), KubernetesPort(s));
    var tail := (if s.externalHost == "" then "" else marshal(s.externalHost)) + s.vault;
    assert BuildConfig(s, marshal) == head + tail;
    hide BuildConfig, ConfigHead, TlsBlock, ConfigLines, Lines, IsLine;
    LinesInFront(ConfigLines(s), tail);
  }
}
