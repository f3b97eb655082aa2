/** A Warpgate instance: webhook defaulting, the controller's accessors, and what it builds from them. */
module Instance {
  import opened Base
  import Text

  datatype Listener = Listener(enabled: Option<bool>, port: Option<int>, serviceType: string)

  datatype Storage = Storage(enabled: Option<bool>, size: string, className: Option<string>, existingClaimName: string)

  datatype Tls = Tls(certManager: Option<bool>, secretName: string, verifyConnection: Option<bool>)

  datatype SecretKeyRef = SecretKeyRef(name: string, key: string)

  /** `vault` is the rendered block of the secret backend; `rest` stands for fields copied as they are. */
  datatype Spec = Spec(
    version: string,
    image: string,
    replicas: Option<nat>,
    adminPassword: SecretKeyRef,
    http: Option<Listener>,
    ssh: Option<Listener>,
    kubernetes: Option<Listener>,
    mysql: Option<Listener>,
    postgresql: Option<Listener>,
    storage: Option<Storage>,
    tls: Option<Tls>,
    sshKeysSecretName: string,
    configOverride: string,
    databaseURL: string,
    databaseURLSecretRef: Option<SecretKeyRef>,
    recordSessions: Option<bool>,
    strategy: string,
    createConnection: Option<bool>,
    externalHost: string,
    vault: string,
    rest: string)

  // ---- Defaulting ----

  function OrElse<T>(o: Option<T>, d: T): Option<T> {
    if o.None? then Some(d) else o
  }

  function OrText(s: string, d: string): string {
    if s == "" then d else s
  }

  const Registry := "ghcr.io/warp-tech/warpgate:"

  function WithPort(l: Option<Listener>, port: int): Option<Listener> {
    if l.None? then None else Some(l.value.(port := OrElse(l.value.port, port)))
  }

  function WithServiceType(l: Option<Listener>): Option<Listener> {
    if l.None? then None else Some(l.value.(serviceType := OrText(l.value.serviceType, "ClusterIP")))
  }

  function HttpDefaulted(l: Option<Listener>): Option<Listener> {
    var l := if l.None? then Listener(None, None, "") else l.value;
    Some(Listener(OrElse(l.enabled, true), OrElse(l.port, 8888), OrText(l.serviceType, "ClusterIP")))
  }

  function SizeDefaulted(s: Option<Storage>): Storage {
    var s := if s.None? then Storage(None, "", None, "") else s.value;
    s.(size := OrText(s.size, "1Gi"))
  }

  function StorageDefaulted(s: Option<Storage>): Option<Storage> {
    var s := SizeDefaulted(s);
    Some(s.(enabled := OrElse(s.enabled, true)))
  }

  function TlsDefaulted(t: Option<Tls>): Option<Tls> {
    var t := if t.None? then Tls(None, "", None) else t.value;
    Some(t.(certManager := OrElse(t.certManager, true)))
  }

  function Defaulted(s: Spec): Spec {
    s.(replicas := OrElse(s.replicas, 1),
       image := if s.image == "" && s.version != "" then Registry + s.version else s.image,
       http := HttpDefaulted(s.http),
       ssh := WithServiceType(WithPort(s.ssh, 2222)),
       mysql := WithPort(s.mysql, 33306),
       postgresql := WithPort(s.postgresql, 55432),
       kubernetes := WithPort(s.kubernetes, 0),
       storage := StorageDefaulted(s.storage),
       tls := TlsDefaulted(s.tls),
       createConnection := OrElse(s.createConnection, true),
       strategy := OrText(s.strategy, "Recreate"),
       recordSessions := OrElse(s.recordSessions, false))
  }

  /** The object the mutating webhook works on. */
  class WarpgateInstance {
    var spec: Spec

    constructor (spec: Spec)
      ensures this.spec == spec
    {
      this.spec := spec;
    }

    method Default()
      modifies this
      ensures spec == Defaulted(old(spec))
    {
      if spec.replicas.None? {
        spec := spec.(replicas := Some(1));
      }
      if spec.image == "" && spec.version != "" {
        spec := spec.(image := Registry + spec.version);
      }
      DefaultHttp();
      DefaultProtocols();
      DefaultStorageAndTls();
      DefaultRest();
    }

    method DefaultRest()
      requires spec.storage.Some?
      modifies this
      ensures spec == old(spec).(createConnection := OrElse(old(spec).createConnection, true),
                                 strategy := OrText(old(spec).strategy, "Recreate"),
                                 kubernetes := WithPort(old(spec).kubernetes, 0),
                                 storage := Some(old(spec).storage.value.(
                                   enabled := OrElse(old(spec).storage.value.enabled, true))),
                                 recordSessions := OrElse(old(spec).recordSessions, false))
    {
      if spec.createConnection.None? {
        spec := spec.(createConnection := Some(true));
      }
      if spec.strategy == "" {
        spec := spec.(strategy := "Recreate");
      }
      if spec.kubernetes.Some? && spec.kubernetes.value.port.None? {
        spec := spec.(kubernetes := Some(spec.kubernetes.value.(port := Some(0))));
      }
      if spec.storage.value.enabled.None? {
        spec := spec.(storage := Some(spec.storage.value.(enabled := Some(true))));
      }
      if spec.recordSessions.None? {
        spec := spec.(recordSessions := Some(false));
      }
    }

    method DefaultProtocols()
      modifies this
      ensures spec == old(spec).(ssh := WithServiceType(WithPort(old(spec).ssh, 2222)),
                                 mysql := WithPort(old(spec).mysql, 33306),
                                 postgresql := WithPort(old(spec).postgresql, 55432))
    {
      if spec.ssh.Some? {
        if spec.ssh.value.port.None? {
          spec := spec.(ssh := Some(spec.ssh.value.(port := Some(2222))));
        }
        if spec.ssh.value.serviceType == "" {
          spec := spec.(ssh := Some(spec.ssh.value.(serviceType := "ClusterIP")));
        }
      }
      if spec.mysql.Some? && spec.mysql.value.port.None? {
        spec := spec.(mysql := Some(spec.mysql.value.(port := Some(33306))));
      }
      if spec.postgresql.Some? && spec.postgresql.value.port.None? {
        spec := spec.(postgresql := Some(spec.postgresql.value.(port := Some(55432))));
      }
    }

    method DefaultStorageAndTls()
      modifies this
      ensures spec == old(spec).(storage := Some(SizeDefaulted(old(spec).storage)), tls := TlsDefaulted(old(spec).tls))
    {
      if spec.storage.None? {
        spec := spec.(storage := Some(Storage(None, "", None, "")));
      }
      if spec.storage.value.size == "" {
        spec := spec.(storage := Some(spec.storage.value.(size := "1Gi")));
      }
      if spec.tls.None? {
        spec := spec.(tls := Some(Tls(None, "", None)));
      }
      if spec.tls.value.certManager.None? {
        spec := spec.(tls := Some(spec.tls.value.(certManager := Some(true))));
      }
    }

    method DefaultHttp()
      modifies this
      ensures spec == old(spec).(http := HttpDefaulted(old(spec).http))
    {
      if spec.http.None? {
        spec := spec.(http := Some(Listener(None, None, "")));
      }
      if spec.http.value.enabled.None? {
        spec := spec.(http := Some(spec.http.value.(enabled := Some(true))));
      }
      if spec.http.value.port.None? {
        spec := spec.(http := Some(spec.http.value.(port := Some(8888))));
      }
      if spec.http.value.serviceType == "" {
        spec := spec.(http := Some(spec.http.value.(serviceType := "ClusterIP")));
      }
    }
  }

  // ---- Accessors ----

  function ResolveImage(s: Spec): string {
    if s.image != "" then s.image
    else Registry + (if "v" <= s.version then s.version else "v" + s.version)
  }

  function Replicas(s: Spec): nat {
    if s.replicas.Some? then s.replicas.value else 1
  }

  predicate Enabled(l: Option<Listener>, default: bool) {
    if l.None? || l.value.enabled.None? then default else l.value.enabled.value
  }

  function PortOf(l: Option<Listener>, default: int): int {
    if l.Some? && l.value.port.Some? then l.value.port.value else default
  }

  predicate HttpEnabled(s: Spec) { Enabled(s.http, true) }
  predicate SshEnabled(s: Spec) { Enabled(s.ssh, false) }
  predicate MysqlEnabled(s: Spec) { Enabled(s.mysql, false) }
  predicate PgEnabled(s: Spec) { Enabled(s.postgresql, false) }
  predicate KubernetesEnabled(s: Spec) { Enabled(s.kubernetes, false) }

  function HttpPort(s: Spec): int { PortOf(s.http, 8888) }
  function SshPort(s: Spec): int { PortOf(s.ssh, 2222) }
  function MysqlPort(s: Spec): int { PortOf(s.mysql, 33306) }
  function PgPort(s: Spec): int { PortOf(s.postgresql, 55432) }
  function KubernetesPort(s: Spec): int { PortOf(s.kubernetes, 8443) }

  function StorageSize(s: Spec): string {
    if s.storage.Some? && s.storage.value.size != "" then s.storage.value.size else "1Gi"
  }

  predicate StorageEnabled(s: Spec) {
    if s.storage.None? || s.storage.value.enabled.None? then true else s.storage.value.enabled.value
  }

  predicate HasExistingClaim(s: Spec) {
    s.storage.Some? && s.storage.value.existingClaimName != ""
  }

  predicate CertManagerEnabled(s: Spec) {
    s.tls.Some? && s.tls.value.certManager.Some? && s.tls.value.certManager.value
  }

  predicate TlsSecretProvided(s: Spec) {
    s.tls.Some? && s.tls.value.secretName != ""
  }

  predicate ShouldCreateConnection(s: Spec) {
    if s.createConnection.None? then true else s.createConnection.value
  }

  function AdminPasswordKey(s: Spec): string {
    OrText(s.adminPassword.key, "password")
  }

  predicate DatabaseURLFromSecret(s: Spec) {
    s.databaseURLSecretRef.Some? && s.databaseURLSecretRef.value.name != ""
  }

  predicate ExternalDatabase(s: Spec) {
    DatabaseURLFromSecret(s) || s.databaseURL != ""
  }

  function DatabaseURLKey(s: Spec): string {
    if s.databaseURLSecretRef.Some? then OrText(s.databaseURLSecretRef.value.key, "url") else "url"
  }

  datatype EnvSource = FromSecret(name: string, key: string) | Inline(value: string)

  function DatabaseURLEnv(s: Spec): EnvSource {
    if DatabaseURLFromSecret(s) then FromSecret(s.databaseURLSecretRef.value.name, DatabaseURLKey(s))
    else Inline(s.databaseURL)
  }

  // ---- warpgate.yaml ----

  function Bool(b: bool): string {
    if b then "true" else "false"
  }

  const TlsLines := "  certificate: /data/tls.certificate.pem\n  key: /data/tls.key.pem\n"

  function ListenLine(port: int): string {
    "  listen: \"0.0.0.0:" + Text.DecInt(port) + "\"\n"
  }

  function ListenerBlock(name: string, enabled: bool, port: int, tls: bool): string {
    name + ":\n  enable: " + Bool(enabled) + "\n" + ListenLine(port) + (if tls then TlsLines else "")
  }

  function TlsBlock(name: string, enabled: bool, port: int): string {
    if enabled then ListenerBlock(name, true, port, true) else ""
  }

  /** Everything before and after the Kubernetes listener; `marshal` renders the external host as YAML. */
  function ConfigHead(s: Spec): string {
    (if ExternalDatabase(s) then "" else "database_url: sqlite:/data/db\n")
    + "http:\n" + ListenLine(HttpPort(s)) + TlsLines
    + ListenerBlock("ssh", SshEnabled(s), SshPort(s), false)
    + TlsBlock("mysql", MysqlEnabled(s), MysqlPort(s))
    + TlsBlock("postgres", PgEnabled(s), PgPort(s))
  }

  function ConfigTail(s: Spec, marshal: string -> string): string {
    (if s.externalHost == "" then "" else marshal(s.externalHost)) + s.vault
  }

  function BuildConfig(s: Spec, marshal: string -> string): string {
    ConfigHead(s) + TlsBlock("kubernetes", KubernetesEnabled(s), KubernetesPort(s)) + ConfigTail(s, marshal)
  }

  // ---- The Deployment ----

  /** The steps of the init script. */
  datatype Part =
    | CopySshKeys
    | CopyTlsSecret
    | Setup(httpPort: int, kubernetesPort: Option<int>, database: bool, record: bool, importKeys: bool)
    | UseOverride
    | UseConfig
    | AppendDatabaseURL
    | SelfSigned
    | SecureFiles

  predicate RecordSessions(s: Spec) {
    s.recordSessions.Some? && s.recordSessions.value
  }

  function When<T>(b: bool, x: T): seq<T> {
    if b then [x] else []
  }

  function InitScript(s: Spec): seq<Part> {
    When(s.sshKeysSecretName != "", CopySshKeys)
    + When(TlsSecretProvided(s), CopyTlsSecret)
    + [Setup(HttpPort(s), if KubernetesEnabled(s) then Some(KubernetesPort(s)) else None,
             ExternalDatabase(s), RecordSessions(s), s.sshKeysSecretName != "")]
    + [if s.configOverride != "" then UseOverride else UseConfig]
    + When(s.configOverride == "" && ExternalDatabase(s), AppendDatabaseURL)
    + When(!TlsSecretProvided(s) && !CertManagerEnabled(s), SelfSigned)
    + [SecureFiles]
  }

  function Ports(s: Spec): seq<(string, int)> {
    When(HttpEnabled(s), ("http", HttpPort(s)))
    + When(SshEnabled(s), ("ssh", SshPort(s)))
    + When(MysqlEnabled(s), ("mysql", MysqlPort(s)))
    + When(PgEnabled(s), ("postgresql", PgPort(s)))
    + When(KubernetesEnabled(s), ("kubernetes", KubernetesPort(s)))
  }

  /** The digests, as arbitrary functions: of the configuration text, of the database URL, and of the rollout. */
  datatype Digests = Digests(config: string -> string, fingerprint: string -> string,
                             rollout: (string, seq<Part>) -> string)

  function PortText(http: int, ssh: int, mysql: int, pg: int, kubernetes: int): string {
    Text.DecInt(http) + Text.DecInt(ssh) + Text.DecInt(mysql) + Text.DecInt(pg) + Text.DecInt(kubernetes)
  }

  function FlagText(http: bool, ssh: bool, mysql: bool, pg: bool, kubernetes: bool): string {
    Bool(http) + Bool(ssh) + Bool(mysql) + Bool(pg) + Bool(kubernetes)
  }

  function SpecPortText(s: Spec): string {
    PortText(HttpPort(s), SshPort(s), MysqlPort(s), PgPort(s), KubernetesPort(s))
  }

  function SpecFlagText(s: Spec): string {
    FlagText(HttpEnabled(s), SshEnabled(s), MysqlEnabled(s), PgEnabled(s), KubernetesEnabled(s))
  }

  /** What configHash writes after the image, the ports and the flags. */
  function HashedTail(s: Spec, d: Digests): string {
    s.externalHost + s.configOverride + (if s.databaseURL == "" then "" else d.fingerprint(s.databaseURL))
    + (if DatabaseURLFromSecret(s) then s.databaseURLSecretRef.value.name + "/" + DatabaseURLKey(s) else "")
    + s.sshKeysSecretName
  }

  function HashedText(s: Spec, d: Digests): string {
    ResolveImage(s) + SpecPortText(s) + SpecFlagText(s) + HashedTail(s, d)
  }

  datatype Strategy = Recreate | RollingUpdate

  datatype EnvVar = EnvVar(name: string, source: EnvSource)

  datatype Mount = Mount(name: string, path: string, readOnly: bool)

  datatype VolumeSource =
    | ConfigMap(name: string)
    | SecretVolume(name: string)
    | PersistentClaim(name: string)
    | EmptyDir

  datatype Volume = Volume(name: string, source: VolumeSource)

  /** The pod template; `hash` is its config-hash annotation. */
  datatype Template = Template(
    image: string, ports: seq<(string, int)>, script: seq<Part>, initEnv: seq<EnvVar>, initMounts: seq<Mount>,
    mounts: seq<Mount>, volumes: seq<Volume>, probe: Option<int>, rest: string, hash: string)

  datatype Deployment = Deployment(template: Template, replicas: nat, strategy: Strategy)

  function Claim(name: string, s: Spec): Option<string> {
    if !StorageEnabled(s) then None
    else if HasExistingClaim(s) then Some(s.storage.value.existingClaimName)
    else Some(name + "-data")
  }

  function InitEnv(s: Spec): seq<EnvVar> {
    [EnvVar("ADMIN_PASSWORD", FromSecret(s.adminPassword.name, AdminPasswordKey(s)))]
    + When(ExternalDatabase(s), EnvVar("DATABASE_URL", DatabaseURLEnv(s)))
  }

  function InitMounts(s: Spec): seq<Mount> {
    [Mount("data", "/data", false), Mount("config", "/config", true)]
    + When(s.sshKeysSecretName != "", Mount("ssh-keys", "/ssh-keys", true))
    + When(TlsSecretProvided(s), Mount("tls-secret", "/tls-secret", true))
    + When(s.configOverride != "", Mount("config-override", "/override", true))
  }

  function TlsSecretName(s: Spec): string {
    if s.tls.Some? then s.tls.value.secretName else ""
  }

  function Volumes(name: string, s: Spec): seq<Volume> {
    [Volume("config", ConfigMap(name + "-config"))]
    + [Volume("data", if StorageEnabled(s) then PersistentClaim(Claim(name, s).value) else EmptyDir)]
    + When(s.sshKeysSecretName != "", Volume("ssh-keys", SecretVolume(s.sshKeysSecretName)))
    + When(TlsSecretProvided(s), Volume("tls-secret", SecretVolume(TlsSecretName(s))))
    + When(s.configOverride != "", Volume("config-override", ConfigMap(name + "-config-override")))
  }

  /** The template without its hash. */
  function Pods(name: string, s: Spec): Template {
    Template(ResolveImage(s), Ports(s), InitScript(s), InitEnv(s), InitMounts(s), [Mount("data", "/data", false)],
             Volumes(name, s), if HttpEnabled(s) then Some(HttpPort(s)) else None, s.rest, "")
  }

  function BuildDeployment(name: string, s: Spec, d: Digests): Deployment {
    Deployment(Pods(name, s).(hash := d.rollout(d.config(HashedText(s, d)), InitScript(s))),
               Replicas(s),
               if s.strategy == "RollingUpdate" then RollingUpdate else Recreate)
  }
}
