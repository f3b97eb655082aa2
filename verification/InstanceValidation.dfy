/** The validating webhook of an instance, against what the controller will make of the spec. */
module InstanceValidation {
  import opened Base
  import opened Instance
  import opened InstanceMeaning

  datatype Error =
    | VersionRequired
    | AdminPasswordRequired
    | NothingEnabled
    | BadPort(listener: string)
    | BadStrategy
    | BadSize
    | DatabaseRefNameRequired

  datatype Warning = NothingToVerifyAgainst | PersistenceNotNeeded | URLIgnored | URLDeprecated | DataWillBeLost

  /** One row of the table the port loop runs over. */
  datatype Row = Row(name: string, listener: Option<Listener>, allowZero: bool)

  function Rows(s: Spec): seq<Row> {
    [Row("http", s.http, false), Row("ssh", s.ssh, false), Row("mysql", s.mysql, false),
     Row("postgresql", s.postgresql, false), Row("kubernetes", s.kubernetes, true)]
  }

  predicate PortValid(port: Option<int>, allowZero: bool) {
    port.None? || (if allowZero then 0 else 1) <= port.value <= 65535
  }

  predicate RowValid(r: Row) {
    r.listener.None? || PortValid(r.listener.value.port, r.allowZero)
  }

  function PortErrors(rows: seq<Row>): seq<Error> {
    if rows == [] then [] else When(!RowValid(rows[0]), BadPort(rows[0].name)) + PortErrors(rows[1..])
  }

  /** Enabled explicitly, which is what the validator looks at. */
  predicate On(l: Option<Listener>) {
    l.Some? && l.value.enabled == Some(true)
  }

  predicate SizeValid(s: Spec, parses: string -> bool) {
    s.storage.Some? && s.storage.value.size != "" ==> parses(s.storage.value.size)
  }

  predicate DatabaseRefValid(s: Spec) {
    s.databaseURLSecretRef.Some? ==> s.databaseURLSecretRef.value.name != ""
  }

  function RequiredErrors(s: Spec): seq<Error> {
    When(s.version == "", VersionRequired)
    + When(s.adminPassword.name == "", AdminPasswordRequired)
    + When(!On(s.http) && !On(s.ssh), NothingEnabled)
  }

  function Errors(s: Spec, parses: string -> bool): seq<Error> {
    RequiredErrors(s) + PortErrors(Rows(s))
    + When(s.strategy !in {"", "Recreate", "RollingUpdate"}, BadStrategy)
    + When(!SizeValid(s, parses), BadSize)
    + When(!DatabaseRefValid(s), DatabaseRefNameRequired)
  }

  function DatabaseWarnings(s: Spec): seq<Warning> {
    When(s.databaseURL != "" || s.databaseURLSecretRef.Some?, PersistenceNotNeeded)
    + When(s.databaseURL != "", if s.databaseURLSecretRef.Some? then URLIgnored else URLDeprecated)
  }

  function Warnings(s: Spec): seq<Warning> {
    When(s.tls.Some? && s.tls.value.verifyConnection == Some(true) &&
        s.tls.value.secretName == "", NothingToVerifyAgainst)
    + DatabaseWarnings(s)
    + When(s.storage.Some? && s.storage.value.enabled == Some(false)
           && s.databaseURL == "" && s.databaseURLSecretRef.None?, DataWillBeLost)
  }

  method ValidateDatabase(s: Spec) returns (errs: seq<Error>, warnings: seq<Warning>)
    ensures errs == When(!DatabaseRefValid(s), DatabaseRefNameRequired)
    ensures warnings == DatabaseWarnings(s)
  {
    errs, warnings := [], [];
    var ref := s.databaseURLSecretRef;
    if ref.Some? && ref.value.name == "" {
      errs := errs + [DatabaseRefNameRequired];
    }
    if s.databaseURL != "" || ref.Some? {
      warnings := warnings + [PersistenceNotNeeded];
    }
    if s.databaseURL != "" {
      if ref.Some? {
        warnings := warnings + [URLIgnored];
      } else {
        warnings := warnings + [URLDeprecated];
      }
    }
  }

  lemma NextPortError(errs: seq<Error>, rows: seq<Row>, i: nat)
    requires i < |rows|
    ensures errs + PortErrors(rows[i..])
            == (errs + When(!RowValid(rows[i]), BadPort(rows[i].name))) + PortErrors(rows[i + 1..])
  {
    hide RowValid;
    assert rows[i..][0] == rows[i] && rows[i..][1..] == rows[i + 1..];
  }

  method ValidatePorts(rows: seq<Row>) returns (errs: seq<Error>)
    ensures errs == PortErrors(rows)
  {
    errs := [];
    var i := 0;
    assert rows[0..] == rows && PortErrors(rows[|rows|..]) == [];
    hide PortErrors;
    while i < |rows|
      invariant 0 <= i <= |rows|
      invariant errs + PortErrors(rows[i..]) == PortErrors(rows)
    {
      NextPortError(errs, rows, i);
      var r := rows[i];
      var port := if r.listener.Some? then r.listener.value.port else None;
      if port.Some? && (port.value < (if r.allowZero then 0 else 1) || port.value > 65535) {
        errs := errs + [BadPort(r.name)];
      }
      i := i + 1;
    }
  }

  /** The checks before the port loop. */
  method ValidateRequired(s: Spec) returns (errs: seq<Error>)
    ensures errs == RequiredErrors(s)
  {
    errs := [];
    if s.version == "" {
      errs := errs + [VersionRequired];
    }
    if s.adminPassword.name == "" {
      errs := errs + [AdminPasswordRequired];
    }
    if !On(s.http) && !On(s.ssh) {
      errs := errs + [NothingEnabled];
    }
  }

  method Validate(s: Spec, parses: string -> bool) returns (errs: seq<Error>, warnings: seq<Warning>)
    ensures errs == Errors(s, parses) && warnings == Warnings(s)
  {
    hide RequiredErrors, PortErrors, DatabaseWarnings, DatabaseRefValid;
    errs := ValidateRequired(s);
    warnings := [];
    var portErrs := ValidatePorts(Rows(s));
    errs := errs + portErrs;
    if s.strategy != "" && s.strategy != "Recreate" && s.strategy != "RollingUpdate" {
      errs := errs + [BadStrategy];
    }
    if s.storage.Some? && s.storage.value.size != "" && !parses(s.storage.value.size) {
      errs := errs + [BadSize];
    }
    if s.tls.Some? && s.tls.value.verifyConnection == Some(true) && s.tls.value.secretName == "" {
      warnings := warnings + [NothingToVerifyAgainst];
    }
    var dbErrs, dbWarnings := ValidateDatabase(s);
    errs := errs + dbErrs;
    warnings := warnings + dbWarnings;
    if s.storage.Some? && s.storage.value.enabled == Some(false) && s.databaseURL == "" &&
        s.databaseURLSecretRef.None? {
      warnings := warnings + [DataWillBeLost];
    }
  }

  lemma {:induction false} NoPortErrors(rows: seq<Row>)
    ensures PortErrors(rows) == [] <==> forall r :: r in rows ==> RowValid(r)
  {
    if rows != [] {
      NoPortErrors(rows[1..]);
      assert rows == [rows[0]] + rows[1..];
    }
  }

  lemma ErrorFreeIff(s: Spec, parses: string -> bool)
    ensures Errors(s, parses) == [] <==>
            && s.version != "" && s.adminPassword.name != "" && (On(s.http) || On(s.ssh))
            && (forall r :: r in Rows(s) ==> RowValid(r))
            && s.strategy in {"", "Recreate", "RollingUpdate"} && SizeValid(s, parses) && DatabaseRefValid(s)
  {
    NoPortErrors(Rows(s));
    hide RowValid, Rows, SizeValid, DatabaseRefValid, On, PortErrors;
  }

  lemma {:induction false} PortErrorIff(rows: seq<Row>, e: Error)
    ensures e in PortErrors(rows) <==> exists r :: r in rows && !RowValid(r) && e == BadPort(r.name)
  {
    if rows != [] {
      PortErrorIff(rows[1..], e);
      assert rows == [rows[0]] + rows[1..] && rows[0] in rows;
      hide RowValid;
    }
  }

  /** A port is given and out of range. */
  predicate OutOfRange(l: Option<Listener>, least: int) {
    l.Some? && l.value.port.Some? && !(least <= l.value.port.value <= 65535)
  }

  /** Each error is reported exactly for the defect it names; only Kubernetes may say port 0. */
  lemma ErrorIff(s: Spec, parses: string -> bool, e: Error)
    ensures e in Errors(s, parses) <==>
            match e
            case VersionRequired => s.version == ""
            case AdminPasswordRequired => s.adminPassword.name == ""
            case NothingEnabled =>
              && !(s.http.Some? && s.http.value.enabled == Some(true))
              && !(s.ssh.Some? && s.ssh.value.enabled == Some(true))
            case BadPort(name) =>
              || (name == "http" && OutOfRange(s.http, 1)) || (name == "ssh" && OutOfRange(s.ssh, 1))
              || (name == "mysql" && OutOfRange(s.mysql, 1)) || (name == "postgresql" && OutOfRange(s.postgresql, 1))
              || (name == "kubernetes" && OutOfRange(s.kubernetes, 0))
            case BadStrategy => s.strategy != "" && s.strategy != "Recreate" && s.strategy != "RollingUpdate"
            case BadSize => s.storage.Some? && s.storage.value.size != "" && !parses(s.storage.value.size)
            case DatabaseRefNameRequired =>
              s.databaseURLSecretRef.Some? && s.databaseURLSecretRef.value.name == ""
  {
    PortErrorIff(Rows(s), e);
    RowErrors(s, e);
    InErrors(s, parses, e);
    hide Rows, RowValid, PortErrors, Errors, OutOfRange;
  }

  lemma InErrors(s: Spec, parses: string -> bool, e: Error)
    ensures e in Errors(s, parses) <==>
            || e in PortErrors(Rows(s))
            || (e.VersionRequired? && s.version == "") || (e.AdminPasswordRequired? && s.adminPassword.name == "")
            || (e.NothingEnabled? && !On(s.http) && !On(s.ssh))
            || (e.BadStrategy? && s.strategy !in {"", "Recreate", "RollingUpdate"})
            || (e.BadSize? && !SizeValid(s, parses)) || (e.DatabaseRefNameRequired? && !DatabaseRefValid(s))
  {
    hide Rows, RowValid, PortErrors, On, SizeValid, DatabaseRefValid;
    var a, b := RequiredErrors(s), PortErrors(Rows(s));
    var c := When(s.strategy !in {"", "Recreate", "RollingUpdate"}, BadStrategy);
    var x, y := When(!SizeValid(s, parses), BadSize), When(!DatabaseRefValid(s), DatabaseRefNameRequired);
    InRequired(s, e);
    assert Errors(s, parses) == a + b + c + x + y;
    hide RequiredErrors, Errors;
    InBoth(a, b, e);
    InBoth(a + b, c, e);
    InBoth(a + b + c, x, e);
    InBoth(a + b + c + x, y, e);
  }

  lemma InBoth(a: seq<Error>, b: seq<Error>, e: Error)
    ensures e in a + b <==> e in a || e in b
  {
  }

  lemma InRequired(s: Spec, e: Error)
    ensures e in RequiredErrors(s) <==>
            || (e.VersionRequired? && s.version == "") || (e.AdminPasswordRequired? && s.adminPassword.name == "")
            || (e.NothingEnabled? && !On(s.http) && !On(s.ssh))
  {
    hide On;
  }

  lemma RowErrors(s: Spec, e: Error)
    ensures (exists r :: r in Rows(s) && !RowValid(r) && e == BadPort(r.name)) <==>
            || (e == BadPort("http") && OutOfRange(s.http, 1)) || (e == BadPort("ssh") && OutOfRange(s.ssh, 1))
            || (e == BadPort("mysql") && OutOfRange(s.mysql, 1))
            || (e == BadPort("postgresql") && OutOfRange(s.postgresql, 1))
            || (e == BadPort("kubernetes") && OutOfRange(s.kubernetes, 0))
  {
    var rows := Rows(s);
    assert rows[0] in rows && rows[1] in rows && rows[2] in rows && rows[3] in rows && rows[4] in rows;
  }

  predicate Usable(port: int) {
    1 <= port <= 65535
  }

  /**
   * A defaulted spec is accepted exactly when what the controller will read from the original is in
   * order: a protocol is on, every port it will use is valid, and the references are named.
   */
  lemma AcceptedIffUsable(s: Spec, parses: string -> bool)
    requires parses("1Gi")
    ensures Errors(Defaulted(s), parses) == [] <==>
            && s.version != "" && s.adminPassword.name != "" && (HttpEnabled(s) || SshEnabled(s))
            && Usable(HttpPort(s)) && Usable(SshPort(s)) && Usable(MysqlPort(s)) && Usable(PgPort(s))
            && (KubernetesPortAgrees(s) && s.kubernetes.Some? ==> 0 <= KubernetesPort(s) <= 65535)
            && s.strategy in {"", "Recreate", "RollingUpdate"} && parses(StorageSize(s)) && DatabaseRefValid(s)
  {
    var d := Defaulted(s);
    ErrorFreeIff(d, parses);
    RowsValidIff(d);
    DefaultedRows(s);
    hide Errors, RowValid, Rows, On, Enabled, HttpDefaulted, WithPort, WithServiceType, HttpPort, SshPort,
        MysqlPort, PgPort, KubernetesPort;
  }

  lemma RowsValidIff(s: Spec)
    ensures (forall r :: r in Rows(s) ==> RowValid(r)) <==>
            && RowValid(Row("http", s.http, false)) && RowValid(Row("ssh", s.ssh, false))
            && RowValid(Row("mysql", s.mysql, false)) && RowValid(Row("postgresql", s.postgresql, false))
            && RowValid(Row("kubernetes", s.kubernetes, true))
  {
    hide RowValid;
  }

  lemma DefaultedRows(s: Spec)
    ensures var d := Defaulted(s);
            && (On(d.http) <==> HttpEnabled(s)) && (On(d.ssh) <==> SshEnabled(s))
            && (RowValid(Row("http", d.http, false)) <==> Usable(HttpPort(s)))
            && (RowValid(Row("ssh", d.ssh, false)) <==> Usable(SshPort(s)))
            && (RowValid(Row("mysql", d.mysql, false)) <==> Usable(MysqlPort(s)))
            && (RowValid(Row("postgresql", d.postgresql, false)) <==> Usable(PgPort(s)))
            && (RowValid(Row("kubernetes", d.kubernetes, true)) <==>
                  (KubernetesPortAgrees(s) && s.kubernetes.Some? ==> 0 <= KubernetesPort(s) <= 65535))
  {
  }

  /**
   * What the warnings tell, in terms of what the controller does with an accepted spec: where the
   * database URL comes from, whether data survives, and whether there is a CA to verify against.
   */
  lemma WarningsMean(s: Spec)
    requires DatabaseRefValid(s)
    ensures PersistenceNotNeeded in Warnings(s) <==> ExternalDatabase(s)
    ensures URLIgnored in Warnings(s) <==> s.databaseURL != "" && DatabaseURLEnv(s) != Inline(s.databaseURL)
    ensures URLDeprecated in Warnings(s) <==> ExternalDatabase(s) && DatabaseURLEnv(s) == Inline(s.databaseURL)
    ensures DataWillBeLost in Warnings(s) <==> !StorageEnabled(s) && !ExternalDatabase(s)
    ensures NothingToVerifyAgainst in Warnings(s) <==>
              s.tls.Some? && s.tls.value.verifyConnection == Some(true) && !TlsSecretProvided(s)
  {
    DatabaseWarningsMean(s);
    hide DatabaseWarnings, DatabaseURLEnv;
  }

  lemma DatabaseWarningsMean(s: Spec)
    requires DatabaseRefValid(s)
    ensures PersistenceNotNeeded in DatabaseWarnings(s) <==> ExternalDatabase(s)
    ensures URLIgnored in DatabaseWarnings(s) <==> s.databaseURL != "" && DatabaseURLEnv(s) != Inline(s.databaseURL)
    ensures URLDeprecated in DatabaseWarnings(s) <==>
              ExternalDatabase(s) && DatabaseURLEnv(s) == Inline(s.databaseURL)
    ensures DataWillBeLost !in DatabaseWarnings(s) && NothingToVerifyAgainst !in DatabaseWarnings(s)
  {
  }

  /** Without defaulting the validator is stricter: an absent http block is on for the controller, off for it. */
  lemma UndefaultedHttpRefused(s: Spec, parses: string -> bool)
    requires s.http.None? && !SshEnabled(s)
    ensures HttpEnabled(s) && Errors(s, parses) != []
  {
    ErrorFreeIff(s, parses);
  }
}
