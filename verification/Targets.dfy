/** Targets: how the request is built from the spec, and the graph of targets and groups. */
module Targets {
  import opened Base
  import opened Client
  import opened Kube
  import opened Lifecycle
  import opened LifecycleReconciler
  import opened Kinds

  type Name = string

  datatype SecretRef = SecretRef(name: string, key: string)

  /** A TLS block of a spec, and the settings sent to Warpgate. */
  datatype TlsSpec = TlsSpec(mode: string, verify: Option<bool>)

  datatype Tls = Tls(mode: string, verify: bool)

  /**
   * The first protocol block a spec has. A reference that the authentication kind may leave out is an
   * option; jumpHostRef "" means none.
   */
  datatype Protocol =
    | Missing
    | Ssh(host: string, port: int, username: string, authKind: string, passwordRef: SecretRef, keyID: string,
          insecureAlgos: bool, jumpHostRef: Name)
    | Http(url: string, tls: Option<TlsSpec>, headers: Option<map<string, string>>, externalHost: string)
    | MySql(host: string, port: int, username: string, authKind: string, optionalRef: Option<SecretRef>,
            tls: Option<TlsSpec>, database: string)
    | Postgres(host: string, port: int, username: string, protocolVersion: string, authKind: string,
               optionalRef: Option<SecretRef>, tls: Option<TlsSpec>, idleTimeout: string, database: string)
    | Kubernetes(clusterURL: string, authKind: string, tokenRef: SecretRef, certificateRef: SecretRef,
                 privateKeyRef: SecretRef, tls: Option<TlsSpec>)
    | Rdp(host: string, port: int, username: string, domain: string, optionalRef: Option<SecretRef>,
          verifyTls: bool, compression: string, interactiveLogon: bool, tlsSecurity: string)
    | Vnc(host: string, port: int, optionalRef: Option<SecretRef>)

  /** The rate limit and the ticket rules, copied as they are; an absent switch is off. */
  datatype Limits = Limits(rate: Option<int>, ticketSeconds: Option<int>, ticketUses: Option<int>,
                           noTickets: bool, approveTickets: bool, approve: bool)

  datatype TargetSpec = TargetSpec(name: string, description: string, limits: Limits, groupRef: Name,
      protocol: Protocol)

  datatype Options =
    | SshOptions(host: string, port: int, username: string, insecureAlgos: bool, authKind: string,
                 password: string, keyID: string, jumpHost: Option<Id>)
    | HttpOptions(url: string, tls: Tls, headers: map<string, string>, externalHost: string)
    | MySqlOptions(host: string, port: int, username: string, authKind: string, password: string, tls: Tls,
                   database: string)
    | PostgresOptions(host: string, port: int, username: string, authKind: string, password: string, tls: Tls,
                      protocolVersion: string, idleTimeout: string, database: string)
    | KubernetesOptions(clusterURL: string, tls: Tls, authKind: string, token: string, certificate: string,
                        privateKey: string)
    | RdpOptions(host: string, port: int, username: string, domain: string, password: string, verifyTls: bool,
                 compression: string, interactiveLogon: bool, tlsSecurity: string)
    | VncOptions(host: string, port: int, authKind: string, password: string)

  datatype TargetRequest = TargetRequest(name: string, description: string, limits: Limits,
      groupID: Option<Id>, options: Options)

  type Secrets = map<string, map<string, string>>

  /** What building a request reads: the ids stored for targets and groups, and the Secrets. */
  datatype View = View(targets: map<Name, Option<Id>>, groups: map<Name, Option<Id>>,
                       secrets: Secrets)

  /** A Secret reference with the key that is read when it names none. */
  datatype Need = Need(ref: SecretRef, defaultKey: string)

  /** The Secret named has the key named, or the default one if none is. */
  predicate Readable(secrets: Secrets, n: Need) {
    && n.ref.name in secrets
    && (n.ref.key != "" ==> n.ref.key in secrets[n.ref.name])
    && (n.ref.key == "" ==> n.defaultKey in secrets[n.ref.name])
  }

  /** v is the value under the key named, or under the default one if none is. */
  predicate Holds(secrets: Secrets, ref: SecretRef, defaultKey: string, v: string) {
    && ref.name in secrets
    && (ref.key != "" ==> ref.key in secrets[ref.name] && v == secrets[ref.name][ref.key])
    && (ref.key == "" ==> defaultKey in secrets[ref.name] && v == secrets[ref.name][defaultKey])
  }

  function ReadSecretValue(secrets: Secrets, ref: SecretRef, defaultKey: string): (r: Option<string>)
    ensures r.Some? <==> Readable(secrets, Need(ref, defaultKey))
    ensures r.Some? ==> Holds(secrets, ref, defaultKey, r.value)
  {
    var key := if ref.key == "" then defaultKey else ref.key;
    if ref.name in secrets && key in secrets[ref.name] then Some(secrets[ref.name][key]) else None
  }

  function ReadOptional(secrets: Secrets, ref: Option<SecretRef>): Option<string> {
    if ref.None? then Some("") else ReadSecretValue(secrets, ref.value, "password")
  }

  function OrDefault(s: string, d: string): string {
    if s == "" then d else s
  }

  function ToWarpgateTls(spec: Option<TlsSpec>): Tls {
    if spec.None? then Tls("Preferred", true)
    else Tls(spec.value.mode, spec.value.verify.None? || spec.value.verify.value)
  }

  /** The kind and password of a database's authentication. */
  function DatabaseAuth(secrets: Secrets, authKind: string, ref: Option<SecretRef>): Option<(string, string)> {
    if authKind == "IamRole" then Some(("IamRole", ""))
    else
      match ReadOptional(secrets, ref)
      case Some(password) => Some(("Password", password))
      case None => None
  }

  /** The id a reference stands for; a reference to something absent or not yet synced is an error. */
  function Resolve(ids: map<Name, Option<Id>>, ref: Name): Option<Option<Id>> {
    if ref == "" then Some(None)
    else if ref in ids && ids[ref].Some? then Some(ids[ref])
    else None
  }

  function BuildSsh(p: Protocol, view: View): Option<Options>
    requires p.Ssh?
  {
    var password :=
      if p.authKind == "Password" then ReadSecretValue(view.secrets, p.passwordRef, "password") else Some("");
    match (password, Resolve(view.targets, p.jumpHostRef))
    case (Some(pw), Some(jump)) =>
      Some(SshOptions(p.host, p.port, p.username, p.insecureAlgos, p.authKind, pw, p.keyID, jump))
    case _ => None
  }

  function BuildMySql(p: Protocol, secrets: Secrets): Option<Options>
    requires p.MySql?
  {
    match DatabaseAuth(secrets, p.authKind, p.optionalRef)
    case Some((kind, password)) =>
      Some(MySqlOptions(p.host, p.port, p.username, kind, password, ToWarpgateTls(p.tls), p.database))
    case None => None
  }

  function BuildPostgres(p: Protocol, secrets: Secrets): Option<Options>
    requires p.Postgres?
  {
    match DatabaseAuth(secrets, p.authKind, p.optionalRef)
    case Some((kind, password)) =>
      Some(PostgresOptions(p.host, p.port, p.username, kind, password, ToWarpgateTls(p.tls),
                           OrDefault(p.protocolVersion, "3.2"), p.idleTimeout, p.database))
    case None => None
  }

  function BuildKubernetes(p: Protocol, secrets: Secrets): Option<Options>
    requires p.Kubernetes?
  {
    var tls := ToWarpgateTls(p.tls);
    if p.authKind == "Token" then
      match ReadSecretValue(secrets, p.tokenRef, "token")
      case Some(token) => Some(KubernetesOptions(p.clusterURL, tls, p.authKind, token, "", ""))
      case None => None
    else if p.authKind == "Certificate" then
      match (ReadSecretValue(secrets, p.certificateRef, "certificate"),
             ReadSecretValue(secrets, p.privateKeyRef, "privateKey"))
      case (Some(cert), Some(key)) => Some(KubernetesOptions(p.clusterURL, tls, p.authKind, "", cert, key))
      case _ => None
    else
      Some(KubernetesOptions(p.clusterURL, tls, p.authKind, "", "", ""))
  }

  function BuildRdp(p: Protocol, secrets: Secrets): Option<Options>
    requires p.Rdp?
  {
    match ReadOptional(secrets, p.optionalRef)
    case Some(password) =>
      Some(RdpOptions(p.host, p.port, p.username, p.domain, password, p.verifyTls,
                      OrDefault(p.compression, "remotefx"), p.interactiveLogon,
                      OrDefault(p.tlsSecurity, "Tls12")))
    case None => None
  }

  function BuildVnc(p: Protocol, secrets: Secrets): Option<Options>
    requires p.Vnc?
  {
    match ReadOptional(secrets, p.optionalRef)
    case Some(password) =>
      Some(VncOptions(p.host, p.port, if p.optionalRef.None? then "None" else "Password", password))
    case None => None
  }

  function BuildOptions(p: Protocol, view: View): Option<Options> {
    if p.Missing? then None
    else if p.Ssh? then BuildSsh(p, view)
    else if p.Http? then
      var headers := if p.headers.None? then map[] else p.headers.value;
      Some(HttpOptions(p.url, ToWarpgateTls(p.tls), headers, p.externalHost))
    else if p.MySql? then BuildMySql(p, view.secrets)
    else if p.Postgres? then BuildPostgres(p, view.secrets)
    else if p.Kubernetes? then BuildKubernetes(p, view.secrets)
    else if p.Rdp? then BuildRdp(p, view.secrets)
    else BuildVnc(p, view.secrets)
  }

  /** buildTargetRequest; f is the fault, if any, of the reads it makes. */
  function TargetPrep(s: TargetSpec, view: View, f: Fault): Prep<TargetRequest> {
    if !f.Served? then Blocked(BuildError)
    else
      match (BuildOptions(s.protocol, view), Resolve(view.groups, s.groupRef))
      case (Some(options), Some(group)) => Build(None, TargetRequest(s.name, s.description, s.limits, group, options))
      case _ => Blocked(BuildError)
  }

  const TargetKind: Kind<TargetSpec, View, TargetRequest> := Kind(false, TargetPrep)

  /** Everything about one resource that is not shared: its store, its books, its pass under way. */
  datatype Slot<S, R> = Slot(store: Store<S, Status>, made: map<Id, Option<Id>>, lost: set<Id>, flight: Flight<S, R>)

  /** All resources of one kind in a namespace, with their records in Warpgate. */
  datatype Half<S, R> = Half(slots: map<Name, Slot<S, R>>, recs: map<Id, Rec<R>>, next: Id)

  datatype Graph = Graph(
    targets: Half<TargetSpec, TargetRequest>,
    groups: Half<GroupSpec, GroupRequest>,
    secrets: Secrets)

  function StoredId<S, R>(s: Slot<S, R>): Option<Id> {
    if s.store.obj.Some? then s.store.obj.value.status.id else None
  }

  /** The stored ids by name, for the resources that exist. */
  function Ids<S, R>(h: Half<S, R>): map<Name, Option<Id>> {
    map n | n in h.slots && h.slots[n].store.obj.Some? :: StoredId(h.slots[n])
  }

  function ViewOf(g: Graph): View {
    View(Ids(g.targets), Ids(g.groups), g.secrets)
  }

  function SlotOf<S, R>(h: Half<S, R>, n: Name): Slot<S, R> {
    if n in h.slots then h.slots[n] else Slot(Store(None, 0), map[], {}, Idle)
  }

  /** The world one controller works on for resource n, and the half after it has worked. */
  function WorldOf<S, E, R>(h: Half<S, R>, ext: E, n: Name): World<S, E, R> {
    var s := SlotOf(h, n);
    World(s.store, h.recs, h.next, ext, s.made, s.lost, s.flight)
  }

  function Put<S, E, R>(h: Half<S, R>, n: Name, w: World<S, E, R>): Half<S, R> {
    Half(h.slots[n := Slot(w.store, w.made, w.lost, w.flight)], w.recs, w.nextId)
  }

  function TargetWorld(g: Graph, n: Name): World<TargetSpec, View, TargetRequest> {
    WorldOf(g.targets, ViewOf(g), n)
  }

  function GroupWorld(g: Graph, n: Name): World<GroupSpec, (), GroupRequest> {
    WorldOf(g.groups, (), n)
  }

  /** The Secret values the protocol block asks for, by its authentication kind. */
  function Needs(p: Protocol): set<Need> {
    match p
    case Missing => {}
    case Ssh(_, _, _, kind, ref, _, _, _) => if kind == "Password" then {Need(ref, "password")} else {}
    case Http(_, _, _, _) => {}
    case MySql(_, _, _, kind, ref, _, _) => if kind == "IamRole" then {} else OptionalNeed(ref)
    case Postgres(_, _, _, _, kind, ref, _, _, _) => if kind == "IamRole" then {} else OptionalNeed(ref)
    case Kubernetes(_, kind, token, certificate, privateKey, _) =>
      if kind == "Token" then {Need(token, "token")}
      else if kind == "Certificate" then {Need(certificate, "certificate"), Need(privateKey, "privateKey")}
      else {}
    case Rdp(_, _, _, _, ref, _, _, _, _) => OptionalNeed(ref)
    case Vnc(_, _, ref) => OptionalNeed(ref)
  }

  function OptionalNeed(ref: Option<SecretRef>): set<Need> {
    if ref.None? then {} else {Need(ref.value, "password")}
  }

  predicate AllReadable(p: Protocol, secrets: Secrets) {
    forall n :: n in Needs(p) ==> Readable(secrets, n)
  }

  lemma OptionalReadIff(secrets: Secrets, ref: Option<SecretRef>)
    ensures ReadOptional(secrets, ref).Some? <==> forall n :: n in OptionalNeed(ref) ==> Readable(secrets, n)
  {
    if ref.Some? {
      assert Need(ref.value, "password") in OptionalNeed(ref);
    }
  }

  /** Options are built exactly when there is a protocol, its needs are readable, and its jump host has an id. */
  lemma OptionsBuildIff(p: Protocol, view: View)
    ensures BuildOptions(p, view).Some? <==>
            && !p.Missing? && AllReadable(p, view.secrets)
            && (p.Ssh? ==> Resolve(view.targets, p.jumpHostRef).Some?)
  {
    if p.MySql? || p.Postgres? || p.Rdp? || p.Vnc? {
      OptionalReadIff(view.secrets, p.optionalRef);
      hide ReadOptional, OptionalNeed, Readable;
    } else if p.Kubernetes? {
      var token, cert := Need(p.tokenRef, "token"), Need(p.certificateRef, "certificate");
      var key := Need(p.privateKeyRef, "privateKey");
      hide ReadSecretValue;
      assert p.authKind == "Token" ==> token in Needs(p);
      assert p.authKind == "Certificate" ==> cert in Needs(p) && key in Needs(p);
    } else if p.Ssh? {
      hide ReadSecretValue, Resolve;
      assert p.authKind == "Password" ==> Need(p.passwordRef, "password") in Needs(p);
    }
  }

  /** A target's request is built exactly when its reads succeed and everything it refers to is there. */
  lemma RequestBuiltIff(s: TargetSpec, view: View, f: Fault)
    ensures TargetPrep(s, view, f).Build? <==>
            && f.Served? && !s.protocol.Missing? && AllReadable(s.protocol, view.secrets)
            && (s.groupRef == "" || (s.groupRef in view.groups && view.groups[s.groupRef].Some?))
            && (s.protocol.Ssh? && s.protocol.jumpHostRef != "" ==>
                s.protocol.jumpHostRef in view.targets && view.targets[s.protocol.jumpHostRef].Some?)
    ensures TargetPrep(s, view, f).Blocked? ==> TargetPrep(s, view, f).reason == BuildError
  {
    OptionsBuildIff(s.protocol, view);
    hide BuildOptions, AllReadable;
  }

  lemma SameRead(a: Secrets, b: Secrets, ref: SecretRef, defaultKey: string)
    requires forall v :: Holds(a, ref, defaultKey, v) <==> Holds(b, ref, defaultKey, v)
    ensures ReadSecretValue(a, ref, defaultKey) == ReadSecretValue(b, ref, defaultKey)
  {
    var x, y := ReadSecretValue(a, ref, defaultKey), ReadSecretValue(b, ref, defaultKey);
    assert x.Some? ==> Holds(b, ref, defaultKey, x.value);
    assert y.Some? ==> Holds(a, ref, defaultKey, y.value);
    hide ReadSecretValue;
  }

  /** The request depends on no Secret value but the needed ones. */
  lemma OnlyNeedsAreRead(p: Protocol, view: View, secrets: Secrets)
    requires forall n, v :: n in Needs(p) ==>
               (Holds(secrets, n.ref, n.defaultKey, v) <==> Holds(view.secrets, n.ref, n.defaultKey, v))
    ensures BuildOptions(p, view.(secrets := secrets)) == BuildOptions(p, view)
  {
    hide ReadSecretValue, Holds, Readable;
    forall n | n in Needs(p)
      ensures ReadSecretValue(secrets, n.ref, n.defaultKey) == ReadSecretValue(view.secrets, n.ref, n.defaultKey)
    {
      SameRead(secrets, view.secrets, n.ref, n.defaultKey);
    }
    if p.Kubernetes? && p.authKind == "Token" {
      assert Need(p.tokenRef, "token") in Needs(p);
    }
    if p.Kubernetes? && p.authKind == "Certificate" {
      assert Need(p.certificateRef, "certificate") in Needs(p) && Need(p.privateKeyRef, "privateKey") in Needs(p);
    }
    if (p.MySql? || p.Postgres?) && p.authKind != "IamRole" && p.optionalRef.Some? {
      assert Need(p.optionalRef.value, "password") in Needs(p);
    }
    if (p.Rdp? || p.Vnc?) && p.optionalRef.Some? {
      assert Need(p.optionalRef.value, "password") in Needs(p);
    }
    if p.Ssh? && p.authKind == "Password" {
      assert Need(p.passwordRef, "password") in Needs(p);
    }
  }

  /** Verification is off exactly when the spec says so outright; without a block the mode is Preferred. */
  predicate CarriesTls(spec: Option<TlsSpec>, tls: Tls) {
    && (!tls.verify <==> spec.Some? && spec.value.verify == Some(false))
    && tls.mode == (if spec.Some? then spec.value.mode else "Preferred")
  }

  /** An optional text arrives as it is, or as its default when it is empty. */
  predicate Defaulted(s: string, d: string, r: string) {
    (s != "" ==> r == s) && (s == "" ==> r == d)
  }

  /** The value of a reference that may be absent: then it is empty. */
  predicate CarriesSecret(secrets: Secrets, ref: Option<SecretRef>, v: string) {
    && (ref.Some? ==> Holds(secrets, ref.value, "password", v))
    && (ref.None? ==> v == "")
  }

  /** A database role sends no password whatever the spec refers to; every other kind is "Password". */
  predicate CarriesDatabaseAuth(secrets: Secrets, specKind: string, ref: Option<SecretRef>, kind: string, v: string) {
    && (kind == "IamRole" <==> specKind == "IamRole")
    && (kind == "IamRole" ==> v == "")
    && (kind != "IamRole" ==> kind == "Password" && CarriesSecret(secrets, ref, v))
  }

  /** The protocol block arrives field by field, passwords read from the Secrets it names. */
  ghost predicate CarriesProtocol(p: Protocol, secrets: Secrets, o: Options) {
    match p
    case Missing => false
    case Ssh(host, port, username, kind, ref, keyID, insecure, _) =>
      && o.SshOptions? && o.host == host && o.port == port && o.username == username
      && o.insecureAlgos == insecure && o.authKind == kind && o.keyID == keyID
      && (kind == "Password" ==> Holds(secrets, ref, "password", o.password))
      && (kind != "Password" ==> o.password == "")
    case Http(url, tls, headers, externalHost) =>
      && o.HttpOptions? && o.url == url && o.externalHost == externalHost && CarriesTls(tls, o.tls)
      && (headers.Some? ==> o.headers == headers.value) && (headers.None? ==> o.headers == map[])
    case MySql(host, port, username, kind, ref, tls, database) =>
      && o.MySqlOptions? && o.host == host && o.port == port && o.username == username && o.database == database
      && CarriesTls(tls, o.tls) && CarriesDatabaseAuth(secrets, kind, ref, o.authKind, o.password)
    case Postgres(host, port, username, version, kind, ref, tls, idleTimeout, database) =>
      && o.PostgresOptions? && o.host == host && o.port == port && o.username == username
      && o.database == database && o.idleTimeout == idleTimeout && Defaulted(version, "3.2", o.protocolVersion)
      && CarriesTls(tls, o.tls) && CarriesDatabaseAuth(secrets, kind, ref, o.authKind, o.password)
    case Kubernetes(url, kind, token, certificate, privateKey, tls) =>
      && o.KubernetesOptions? && o.clusterURL == url && o.authKind == kind && CarriesTls(tls, o.tls)
      && (kind == "Token" ==> Holds(secrets, token, "token", o.token))
      && (kind != "Token" ==> o.token == "")
      && (kind == "Certificate" ==>
          && Holds(secrets, certificate, "certificate", o.certificate)
          && Holds(secrets, privateKey, "privateKey", o.privateKey))
      && (kind != "Certificate" ==> o.certificate == "" && o.privateKey == "")
    case Rdp(host, port, username, domain, ref, verify, compression, interactive, security) =>
      && o.RdpOptions? && o.host == host && o.port == port && o.username == username && o.domain == domain
      && o.verifyTls == verify && o.interactiveLogon == interactive
      && Defaulted(compression, "remotefx", o.compression) && Defaulted(security, "Tls12", o.tlsSecurity)
      && CarriesSecret(secrets, ref, o.password)
    case Vnc(host, port, ref) =>
      && o.VncOptions? && o.host == host && o.port == port && CarriesSecret(secrets, ref, o.password)
      && (o.authKind == "Password" <==> ref.Some?) && (o.authKind == "None" <==> ref.None?)
  }

  lemma OptionsCarryProtocol(p: Protocol, view: View)
    ensures BuildOptions(p, view).Some? ==> CarriesProtocol(p, view.secrets, BuildOptions(p, view).value)
  {
    hide ReadSecretValue, Resolve;
  }

  /** A request is built only from ids that are stored and Secrets that are readable, and carries the spec. */
  lemma BuiltRequestCarriesSpec(s: TargetSpec, view: View, f: Fault)
    ensures var p := TargetPrep(s, view, f);
            p.Build? ==>
              && p.owner == None && p.req.name == s.name && p.req.description == s.description &&
                  p.req.limits == s.limits
              && (s.groupRef == "" ==> p.req.groupID == None)
              && (s.groupRef != "" ==> s.groupRef in view.groups && p.req.groupID.Some? &&
                                       p.req.groupID == view.groups[s.groupRef])
              && CarriesProtocol(s.protocol, view.secrets, p.req.options)
              && (s.protocol.Ssh? ==>
                    && (s.protocol.jumpHostRef == "" ==> p.req.options.jumpHost == None)
                    && (s.protocol.jumpHostRef != "" ==>
                          s.protocol.jumpHostRef in view.targets && p.req.options.jumpHost.Some? &&
                          p.req.options.jumpHost == view.targets[s.protocol.jumpHostRef]))
  {
    OptionsCarryProtocol(s.protocol, view);
    if !s.protocol.Ssh? {
      hide BuildOptions;
    }
    hide ReadSecretValue, CarriesProtocol;
  }
}
