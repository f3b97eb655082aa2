/** Defaulting against the accessors: where it preserves meaning, and exactly where it does not. */
module InstanceMeaning {
  import opened Base
  import Text
  import opened Instance

  lemma DefaultIsIdempotent(s: Spec)
    ensures Defaulted(Defaulted(s)) == Defaulted(s)
  {
    var d := Defaulted(s);
    assert WithServiceType(WithPort(d.ssh, 2222)) == d.ssh;
    assert WithPort(d.mysql, 33306) == d.mysql && WithPort(d.postgresql, 55432) == d.postgresql;
    assert WithPort(d.kubernetes, 0) == d.kubernetes;
    assert StorageDefaulted(d.storage) == d.storage && TlsDefaulted(d.tls) == d.tls && HttpDefaulted(d.http) == d.http;
  }

  /** The guards under which defaulting and the accessors agree on the three fields they treat differently. */
  predicate ImageAgrees(s: Spec) {
    s.image != "" || s.version == "" || "v" <= s.version
  }

  predicate KubernetesPortAgrees(s: Spec) {
    s.kubernetes.None? || s.kubernetes.value.port.Some?
  }

  predicate CertManagerAgrees(s: Spec) {
    s.tls.Some? && s.tls.value.certManager.Some?
  }

  lemma ImageKeptIff(s: Spec)
    ensures ResolveImage(Defaulted(s)) == ResolveImage(s) <==> ImageAgrees(s)
    ensures ImageAgrees(s) || |ResolveImage(Defaulted(s))| + 1 == |ResolveImage(s)|
  {
    if s.image == "" && s.version != "" && !("v" <= s.version) {
      assert |Registry + s.version| + 1 == |Registry + ("v" + s.version)|;
    }
  }

  /** Every accessor but three gives the same result before and after defaulting, whatever the spec. */
  lemma OtherAccessorsKept(s: Spec)
    ensures var d := Defaulted(s);
            && Replicas(d) == Replicas(s)
            && HttpEnabled(d) == HttpEnabled(s) && SshEnabled(d) == SshEnabled(s) && MysqlEnabled(d) == MysqlEnabled(s)
            && PgEnabled(d) == PgEnabled(s) && KubernetesEnabled(d) == KubernetesEnabled(s)
            && HttpPort(d) == HttpPort(s) && SshPort(d) == SshPort(s) && MysqlPort(d) == MysqlPort(s) &&
                PgPort(d) == PgPort(s)
            && StorageSize(d) == StorageSize(s) && StorageEnabled(d) == StorageEnabled(s)
            && HasExistingClaim(d) == HasExistingClaim(s) && Claim("", d) == Claim("", s)
            && TlsSecretProvided(d) == TlsSecretProvided(s) && ShouldCreateConnection(d) == ShouldCreateConnection(s)
            && AdminPasswordKey(d) == AdminPasswordKey(s) && DatabaseURLFromSecret(d) == DatabaseURLFromSecret(s)
            && ExternalDatabase(d) == ExternalDatabase(s) && DatabaseURLKey(d) == DatabaseURLKey(s)
            && DatabaseURLEnv(d) == DatabaseURLEnv(s) && RecordSessions(d) == RecordSessions(s)
            && (d.strategy == "RollingUpdate" <==> s.strategy == "RollingUpdate")
  {
  }

  lemma KubernetesAndTlsKeptIff(s: Spec)
    ensures KubernetesPort(Defaulted(s)) == KubernetesPort(s) <==> KubernetesPortAgrees(s)
    ensures !KubernetesPortAgrees(s) ==> KubernetesPort(Defaulted(s)) == 0 && KubernetesPort(s) == 8443
    ensures CertManagerEnabled(Defaulted(s)) == CertManagerEnabled(s) <==> CertManagerAgrees(s)
  {
  }

  lemma PortDigits()
    ensures |Text.DecInt(0)| == 1 && |Text.DecInt(8443)| == 4
  {
    assert |Text.Dec(84)| == 2 && |Text.Dec(844)| == 3;
  }

  lemma ConfigParts(s: Spec, marshal: string -> string)
    ensures ConfigHead(Defaulted(s)) == ConfigHead(s)
    ensures ConfigTail(Defaulted(s), marshal) == ConfigTail(s, marshal)
  {
    OtherAccessorsKept(s);
    hide Defaulted, Enabled, PortOf, ListenerBlock, TlsBlock, ListenLine;
    assert Defaulted(s).externalHost == s.externalHost && Defaulted(s).vault == s.vault by {
      SameTail(s);
    }
  }

  lemma SameTail(s: Spec)
    ensures var d := Defaulted(s);
            && d.externalHost == s.externalHost && d.vault == s.vault && d.rest == s.rest
            && d.configOverride == s.configOverride && d.databaseURL == s.databaseURL
            && d.databaseURLSecretRef == s.databaseURLSecretRef && d.sshKeysSecretName == s.sshKeysSecretName
            && d.adminPassword == s.adminPassword
            && (s.tls.Some? ==> d.tls.Some? && d.tls.value.secretName == s.tls.value.secretName)
            && (s.storage.Some? ==>
                  d.storage.Some? && d.storage.value.existingClaimName == s.storage.value.existingClaimName)
  {
  }

  /** The generated configuration is the same exactly when no enabled Kubernetes listener lacks a port. */
  lemma ConfigKeptIff(s: Spec, marshal: string -> string)
    ensures BuildConfig(Defaulted(s), marshal) == BuildConfig(s, marshal) <==>
            KubernetesPortAgrees(s) || !KubernetesEnabled(s)
  {
    ConfigParts(s, marshal);
    OtherAccessorsKept(s);
    KubernetesAndTlsKeptIff(s);
    PortDigits();
    var block, block' := TlsBlock("kubernetes", KubernetesEnabled(s), KubernetesPort(s)),
                         TlsBlock("kubernetes", KubernetesEnabled(Defaulted(s)), KubernetesPort(Defaulted(s)));
    if KubernetesEnabled(s) && !KubernetesPortAgrees(s) {
      assert |block'| + 3 == |block|;
    }
    hide Defaulted, ConfigHead, ConfigTail, TlsBlock, KubernetesEnabled, KubernetesPort;
    assert |BuildConfig(Defaulted(s), marshal)| - |BuildConfig(s, marshal)| == |block'| - |block|;
  }

  /** The text behind the rollout hash is the same exactly when image and Kubernetes port agree. */
  lemma HashedTextKeptIff(s: Spec, d: Digests)
    ensures HashedText(Defaulted(s), d) == HashedText(s, d) <==> ImageAgrees(s) && KubernetesPortAgrees(s)
  {
    ImageKeptIff(s);
    OtherAccessorsKept(s);
    KubernetesAndTlsKeptIff(s);
    PortDigits();
    SameTail(s);
    assert HashedTail(Defaulted(s), d) == HashedTail(s, d);
    assert SpecFlagText(Defaulted(s)) == SpecFlagText(s);
    assert |SpecPortText(Defaulted(s))| == |SpecPortText(s)| - (if KubernetesPortAgrees(s) then 0 else 3);
    assert KubernetesPortAgrees(s) ==> SpecPortText(Defaulted(s)) == SpecPortText(s);
    hide Defaulted, HashedTail, SpecFlagText, SpecPortText, ResolveImage, ImageAgrees, KubernetesPortAgrees;
    assert |HashedText(Defaulted(s), d)| - |HashedText(s, d)|
        == |ResolveImage(Defaulted(s))| - |ResolveImage(s)| + |SpecPortText(Defaulted(s))| - |SpecPortText(s)|;
  }

  lemma ScriptKeptIff(s: Spec)
    ensures InitScript(Defaulted(s)) == InitScript(s) <==>
            && (KubernetesPortAgrees(s) || !KubernetesEnabled(s))
            && (CertManagerAgrees(s) || TlsSecretProvided(s))
  {
    OtherAccessorsKept(s);
    KubernetesAndTlsKeptIff(s);
    SameTail(s);
    var a, b := InitScript(s), InitScript(Defaulted(s));
    hide Defaulted;
    var i := (if s.sshKeysSecretName != "" then 1 else 0) + (if TlsSecretProvided(s) then 1 else 0);
    assert a[i].Setup? && b[i].Setup?;
    assert a[i] == b[i] <==> KubernetesPortAgrees(s) || !KubernetesEnabled(s);
    assert |a| == |b| <==> CertManagerAgrees(s) || TlsSecretProvided(s);
    hide Defaulted, KubernetesPort, KubernetesEnabled, TlsSecretProvided, CertManagerEnabled, ExternalDatabase;
  }

  /** The pods, apart from the hash annotation, are the same exactly under these guards. */
  lemma PodsKeptIff(name: string, s: Spec)
    ensures Pods(name, Defaulted(s)) == Pods(name, s) <==>
            && ImageAgrees(s)
            && (KubernetesPortAgrees(s) || !KubernetesEnabled(s))
            && (CertManagerAgrees(s) || TlsSecretProvided(s))
  {
    ImageKeptIff(s);
    OtherAccessorsKept(s);
    KubernetesAndTlsKeptIff(s);
    SameTail(s);
    ScriptKeptIff(s);
    InputsKept(name, s);
    hide InitScript, ResolveImage, ImageAgrees, KubernetesPortAgrees, CertManagerAgrees, Defaulted;
    hide InitEnv, InitMounts, Volumes;
  }

  lemma InputsKept(name: string, s: Spec)
    ensures var d := Defaulted(s);
            InitEnv(d) == InitEnv(s) && InitMounts(d) == InitMounts(s) && Volumes(name, d) == Volumes(name, s)
  {
    OtherAccessorsKept(s);
    SameTail(s);
    ClaimKept(name, s);
    hide Defaulted, DatabaseURLEnv, Claim, AdminPasswordKey;
  }

  lemma ClaimKept(name: string, s: Spec)
    ensures Claim(name, Defaulted(s)) == Claim(name, s)
  {
    OtherAccessorsKept(s);
    SameTail(s);
    hide Defaulted;
  }

  /** Under all three guards the whole Deployment is the same, hash included, whatever the digests are. */
  lemma DeploymentKept(name: string, s: Spec, d: Digests)
    requires ImageAgrees(s) && KubernetesPortAgrees(s) && CertManagerAgrees(s)
    ensures BuildDeployment(name, Defaulted(s), d) == BuildDeployment(name, s, d)
  {
    PodsKeptIff(name, s);
    HashedTextKeptIff(s, d);
    ScriptKeptIff(s);
    OtherAccessorsKept(s);
    hide Pods, HashedText, InitScript, Replicas, ImageAgrees, KubernetesPortAgrees, CertManagerAgrees, Defaulted;
  }

  /** A protocol's port is exposed exactly when it is on, with the number its listener uses. */
  lemma ExposedPorts(s: Spec, p: int)
    ensures ("http", p) in Ports(s) <==> HttpEnabled(s) && p == HttpPort(s)
    ensures ("ssh", p) in Ports(s) <==> SshEnabled(s) && p == SshPort(s)
    ensures ("mysql", p) in Ports(s) <==> MysqlEnabled(s) && p == MysqlPort(s)
    ensures ("postgresql", p) in Ports(s) <==> PgEnabled(s) && p == PgPort(s)
    ensures ("kubernetes", p) in Ports(s) <==> KubernetesEnabled(s) && p == KubernetesPort(s)
  {
    hide Enabled, PortOf;
  }

  lemma ScriptParts(s: Spec, part: Part)
    requires part in InitScript(s)
    ensures part.CopySshKeys? ==> s.sshKeysSecretName != ""
    ensures part.CopyTlsSecret? ==> TlsSecretProvided(s)
    ensures part.UseOverride? ==> s.configOverride != ""
    ensures part.AppendDatabaseURL? ==> ExternalDatabase(s)
    ensures part.Setup? ==> part.database == ExternalDatabase(s)
    ensures part.Setup? && part.kubernetesPort.Some? ==>
        KubernetesEnabled(s) && part.kubernetesPort.value == KubernetesPort(s)
  {
    hide Enabled, PortOf, TlsSecretProvided, ExternalDatabase, CertManagerEnabled, KubernetesPort, HttpPort,
        RecordSessions;
  }

  /** The directories a step of the script copies from or writes to. */
  function Uses(part: Part): set<string> {
    match part
    case CopySshKeys => {"/ssh-keys", "/data"}
    case CopyTlsSecret => {"/tls-secret", "/data"}
    case UseOverride => {"/override", "/data"}
    case UseConfig => {"/config", "/data"}
    case _ => {"/data"}
  }

  /** The variables a step of the script expands. */
  function Expands(part: Part): set<string> {
    match part
    case Setup(_, _, database, _, _) => {"ADMIN_PASSWORD"} + (if database then {"DATABASE_URL"} else {})
    case AppendDatabaseURL => {"DATABASE_URL"}
    case _ => {}
  }

  predicate Mounted(mounts: seq<Mount>, path: string) {
    exists i :: 0 <= i < |mounts| && mounts[i].path == path
  }

  predicate Given(env: seq<EnvVar>, name: string) {
    exists i :: 0 <= i < |env| && env[i].name == name
  }

  predicate HasVolume(volumes: seq<Volume>, name: string) {
    exists i :: 0 <= i < |volumes| && volumes[i].name == name
  }

  lemma MountedIff(s: Spec)
    ensures Mounted(InitMounts(s), "/data") && Mounted(InitMounts(s), "/config")
    ensures s.sshKeysSecretName != "" ==> Mounted(InitMounts(s), "/ssh-keys")
    ensures TlsSecretProvided(s) ==> Mounted(InitMounts(s), "/tls-secret")
    ensures s.configOverride != "" ==> Mounted(InitMounts(s), "/override")
  {
    var ms := InitMounts(s);
    var a, b := (if s.sshKeysSecretName != "" then 3 else 2), if TlsSecretProvided(s) then 1 else 0;
    hide TlsSecretProvided;
    assert ms[0].path == "/data" && ms[1].path == "/config";
    assert s.sshKeysSecretName != "" ==> ms[2].path == "/ssh-keys";
    assert b == 1 ==> ms[a].path == "/tls-secret";
    assert s.configOverride != "" ==> ms[a + b].path == "/override";
  }

  lemma GivenIff(s: Spec)
    ensures Given(InitEnv(s), "ADMIN_PASSWORD") && (ExternalDatabase(s) ==> Given(InitEnv(s), "DATABASE_URL"))
  {
    hide ExternalDatabase, DatabaseURLEnv, AdminPasswordKey;
    assert InitEnv(s)[0].name == "ADMIN_PASSWORD";
    assert ExternalDatabase(s) ==> InitEnv(s)[1].name == "DATABASE_URL";
  }

  lemma ScriptHasItsDirectories(s: Spec, part: Part, path: string)
    requires part in InitScript(s) && path in Uses(part)
    ensures Mounted(InitMounts(s), path)
  {
    hide InitMounts, Mounted;
    ScriptParts(s, part);
    MountedIff(s);
    hide InitScript, ExternalDatabase, TlsSecretProvided, KubernetesPort, KubernetesEnabled;
  }

  lemma ScriptHasItsVariables(s: Spec, part: Part, name: string)
    requires part in InitScript(s) && name in Expands(part)
    ensures Given(InitEnv(s), name)
  {
    hide InitEnv, Given;
    ScriptParts(s, part);
    GivenIff(s);
    hide InitScript, ExternalDatabase, TlsSecretProvided, KubernetesPort, KubernetesEnabled;
  }

  /**
   * Whatever a step of the init script uses is there: every directory is mounted and every variable
   * is set, although mounts and variables are listed under tests of their own.
   */
  lemma ScriptHasItsInputs(name: string, s: Spec, part: Part)
    requires part in InitScript(s)
    ensures forall p :: p in Uses(part) ==> Mounted(Pods(name, s).initMounts, p)
    ensures forall v :: v in Expands(part) ==> Given(Pods(name, s).initEnv, v)
    ensures part.Setup? && part.kubernetesPort.Some? ==>
              ("kubernetes", part.kubernetesPort.value) in Pods(name, s).ports
  {
    hide InitScript, InitMounts, InitEnv, Mounted, Given, Volumes, Ports, ResolveImage, Uses, Expands;
    forall p | p in Uses(part)
      ensures Mounted(InitMounts(s), p)
    {
      ScriptHasItsDirectories(s, part, p);
    }
    forall v | v in Expands(part)
      ensures Given(InitEnv(s), v)
    {
      ScriptHasItsVariables(s, part, v);
    }
    ScriptParts(s, part);
    ExposedPorts(s, KubernetesPort(s));
    hide KubernetesPort, KubernetesEnabled;
  }

  /** Every mount names a volume of the pod: both lists follow the same tests. */
  lemma MountsHaveVolumes(name: string, s: Spec, i: nat)
    requires i < |InitMounts(s)|
    ensures HasVolume(Volumes(name, s), InitMounts(s)[i].name)
  {
    hide TlsSecretProvided, StorageEnabled, Claim;
    VolumeNames(name, s);
    assert |Volumes(name, s)| == |InitMounts(s)|;
    var j := if i == 0 then 1 else if i == 1 then 0 else i;
    hide TlsSecretName;
    assert Volumes(name, s)[j].name == InitMounts(s)[i].name;
  }

  lemma VolumeNames(name: string, s: Spec)
    ensures var v := Volumes(name, s);
            && |v| == |InitMounts(s)| >= 2 && v[0].name == "config" && v[1].name == "data"
            && forall i :: 2 <= i < |v| ==> v[i].name == InitMounts(s)[i].name
  {
    hide TlsSecretProvided, StorageEnabled, Claim, TlsSecretName;
  }

  /** The secrets mounted are the ones the spec names, and never unnamed. */
  lemma SecretVolumesAreNamed(name: string, s: Spec, v: Volume)
    requires v in Volumes(name, s) && v.source.SecretVolume?
    ensures v.source.name != ""
    ensures (v.name == "ssh-keys" && v.source.name == s.sshKeysSecretName)
            || (v.name == "tls-secret" && s.tls.Some? && v.source.name == s.tls.value.secretName)
  {
    hide StorageEnabled, Claim;
  }

  /** The URL is appended last to a file the script has just written, and never to an override. */
  lemma DatabaseURLFollowsConfig(s: Spec, i: nat)
    requires i < |InitScript(s)| && InitScript(s)[i].AppendDatabaseURL?
    ensures i > 0 && InitScript(s)[i - 1].UseConfig? && forall j :: i < j < |InitScript(s)| ==>
              !InitScript(s)[j].UseConfig? && !InitScript(s)[j].UseOverride? && !InitScript(s)[j].AppendDatabaseURL?
  {
    hide Enabled, PortOf, TlsSecretProvided, ExternalDatabase, CertManagerEnabled, KubernetesPort, HttpPort,
        RecordSessions;
  }
}
