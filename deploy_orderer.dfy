/** deployOrderer (cli/cmd/deploy_orderer.go): the deployment sequence of the Fabric
    orderer service. It reads the orderer's TLS key, certificate and CA certificate from
    the crypto-config tree, stores them in two secrets, prepares the chart values (the
    arm64 values file when targeting arm64, with the domain always set) and installs the
    orderer chart. Reading files, writing secrets, loading the values file, encoding the
    values and installing the chart are effects whose outcomes the environment decides. */
module DeployOrderer {
  import opened Errors
  import opened Kube
  import opened Shared

  /** The command's inputs: the orderer hostname and the emoji come from the viper
      configuration, the rest from the deploy command's flags. */
  datatype Config = Config(
    hostname: string,
    domain: string,
    namespace: string,
    chartsPath: string,
    targetArch: string,
    successEmoji: string,
    installTimeout: nat)

  /** How the environment answers each effect of one run; `encode` stands for
      yaml.Marshal. */
  datatype Env = Env(
    key: Result<seq<byte>>,
    cert: Result<seq<byte>>,
    ca: Result<seq<byte>>,
    tlsWrite: Option<Error>,
    caWrite: Option<Error>,
    armValues: Result<Values>,
    encode: Values -> Result<string>,
    install: Option<Error>)

  // ---------------------------------------------------------------------------
  // Paths and names

  /** path.Join without the final Clean: the non-empty elements, separated by slashes. */
  function JoinPath(elems: seq<string>): (r: string)
  {
    if |elems| == 0 then ""
    else
      var init, last := JoinPath(elems[..|elems| - 1]), elems[|elems| - 1];
      if last == "" then init
      else if init == "" then last
      else init + "/" + last
  }

  /** A joined path is empty exactly when every element is, and a non-empty last element
      ends it. */
  lemma {:induction false} JoinPathShape(elems: seq<string>)
    ensures JoinPath(elems) == "" <==> forall i :: 0 <= i < |elems| ==> elems[i] == ""
    ensures |elems| > 0 && elems[|elems| - 1] != "" ==>
      var r, last := JoinPath(elems), elems[|elems| - 1];
      |last| <= |r| && r[|r| - |last|..] == last
  {
    if |elems| > 0 {
      var init := elems[..|elems| - 1];
      JoinPathShape(init);
      assert forall i :: 0 <= i < |init| ==> init[i] == elems[i];
    }
  }

  /** path.Join over two lists of elements is the join of the two joined paths: an empty
      side is dropped, and two non-empty sides are separated by one slash. */
  lemma {:induction false} JoinPathAppend(a: seq<string>, b: seq<string>)
    ensures var l, r := JoinPath(a), JoinPath(b);
      JoinPath(a + b) == if r == "" then l else if l == "" then r else l + "/" + r
    decreases |b|
  {
    var ab := a + b;
    if |b| == 0 {
      assert ab == a;
    } else {
      var init, last := b[..|b| - 1], b[|b| - 1];
      assert ab[..|ab| - 1] == a + init && ab[|ab| - 1] == last;
      JoinPathAppend(a, init);
      assert b[..|b| - 1] == init;
    }
  }

  /** Adding the next element of `elems`: a non-empty one after a non-empty path is
      joined with a slash. */
  lemma JoinPathPrefix(elems: seq<string>, k: nat)
    requires 1 <= k < |elems|
    requires elems[k] != "" && JoinPath(elems[..k]) != ""
    ensures JoinPath(elems[..k + 1]) == JoinPath(elems[..k]) + "/" + elems[k]
    ensures JoinPath(elems[..k + 1]) != ""
  {
    assert elems[..k + 1][..k] == elems[..k];
  }

  /** Two non-empty elements are joined with one slash. */
  lemma JoinPathPair(dir: string, file: string)
    requires dir != "" && file != ""
    ensures JoinPath([dir, file]) == dir + "/" + file
  {
    assert [dir][..0] == [];
    assert JoinPath([dir]) == dir;
    assert [dir, file][..1] == [dir];
  }

  /** An empty first element is dropped. */
  lemma JoinPathEmptyHead(file: string)
    requires file != ""
    ensures JoinPath(["", file]) == file
  {
    assert ["", file][..1] == [""];
    assert [""][..0] == [];
  }

  /** The orderer's TLS material in the crypto-config tree of the domain. */
  function TlsDir(hostname: string, domain: string): string
  {
    JoinPath([".crypto-config." + domain, "ordererOrganizations", domain, "orderers",
      hostname + "." + domain, "tls"])
  }

  /** The key, the certificate and the CA certificate sit directly in the TLS directory. */
  function KeyPath(hostname: string, domain: string): (r: string)
    ensures r == TlsDir(hostname, domain) + "/" + "server.key"
  {
    JoinPathPair(TlsDir(hostname, domain), "server.key");
    JoinPath([TlsDir(hostname, domain), "server.key"])
  }

  function CertPath(hostname: string, domain: string): (r: string)
    ensures r == TlsDir(hostname, domain) + "/" + "server.crt"
  {
    JoinPathPair(TlsDir(hostname, domain), "server.crt");
    JoinPath([TlsDir(hostname, domain), "server.crt"])
  }

  function CaPath(hostname: string, domain: string): (r: string)
    ensures r == TlsDir(hostname, domain) + "/" + "ca.crt"
  {
    JoinPathPair(TlsDir(hostname, domain), "ca.crt");
    JoinPath([TlsDir(hostname, domain), "ca.crt"])
  }

  /** The secret names: the orderer's host in the domain, then "-tls" or "-ca". */
  function TlsSecretName(hostname: string, domain: string): (r: string)
    ensures var host := hostname + "." + domain;
      |r| == |host| + 4 && r[..|host|] == host && r[|host|..] == "-tls"
  {
    hostname + "." + domain + "-tls"
  }

  function CaSecretName(hostname: string, domain: string): (r: string)
    ensures var host := hostname + "." + domain;
      |r| == |host| + 3 && r[..|host|] == host && r[|host|..] == "-ca"
  {
    hostname + "." + domain + "-ca"
  }

  /** The chart directory "orderer" under the charts directory, which may be empty. */
  function ChartName(chartsPath: string): (r: string)
    ensures chartsPath == "" ==> r == "orderer"
    ensures chartsPath != "" ==> r == chartsPath + "/" + "orderer"
  {
    if chartsPath != "" then JoinPathPair(chartsPath, "orderer"); JoinPath([chartsPath, "orderer"])
    else JoinPathEmptyHead("orderer"); JoinPath([chartsPath, "orderer"])
  }

  /** The arm64 values file sits in the chart directory. */
  function ArmValuesPath(chartsPath: string): (r: string)
    ensures r == ChartName(chartsPath) + "/" + "values.arm64.yaml"
  {
    var w := [chartsPath, "orderer", "values.arm64.yaml"];
    assert w[..2] == [chartsPath, "orderer"];
    JoinPathPrefix(w, 2);
    assert w[..3] == w;
    JoinPath(w)
  }

  /** For a non-empty domain the TLS directory is the slash-separated crypto-config path
      of the orderer. */
  lemma TlsDirText(hostname: string, domain: string)
    requires domain != ""
    ensures TlsDir(hostname, domain) == ".crypto-config." + domain + "/" + "ordererOrganizations" + "/" + domain
      + "/" + "orderers" + "/" + (hostname + "." + domain) + "/" + "tls"
  {
    var w := [".crypto-config." + domain, "ordererOrganizations", domain, "orderers",
      hostname + "." + domain, "tls"];
    assert JoinPath(w[..1]) == w[0] by {
      assert w[..1][..0] == [];
    }
    JoinPathPrefix(w, 1);
    JoinPathPrefix(w, 2);
    JoinPathPrefix(w, 3);
    JoinPathPrefix(w, 4);
    JoinPathPrefix(w, 5);
    assert w[..6] == w;
  }

  /** The two secret names share the orderer's host and domain and differ in their suffix. */
  lemma SecretNamesDiffer(hostname: string, domain: string)
    ensures var prefix := hostname + "." + domain;
      && TlsSecretName(hostname, domain)[..|prefix|] == prefix
      && CaSecretName(hostname, domain)[..|prefix|] == prefix
      && TlsSecretName(hostname, domain) != CaSecretName(hostname, domain)
  {
    var prefix := hostname + "." + domain;
    assert TlsSecretName(hostname, domain)[|prefix| + 1] == 't';
    assert CaSecretName(hostname, domain)[|prefix| + 1] == 'c';
  }

  // ---------------------------------------------------------------------------
  // The records handed to the cluster

  /** The labels both secrets carry, with their own component id. */
  function SecretLabels(cid: string, cfg: Config): map<string, string>
  {
    map["fabnctl/cid" := cid, "fabnctl/domain" := cfg.domain, "fabnctl/host" := cfg.hostname]
  }

  /** The TLS secret: the private key and the certificate under corev1's TLS keys. */
  function TlsSecret(cfg: Config, key: seq<byte>, cert: seq<byte>): (r: Secret)
    ensures r.secretType == SecretTypeTLS && r.name == TlsSecretName(cfg.hostname, cfg.domain)
    ensures r.data.Keys == {TLSPrivateKeyKey, TLSCertKey}
    ensures r.data[TLSPrivateKeyKey] == key && r.data[TLSCertKey] == cert
    ensures r.namespace == cfg.namespace
    ensures r.labels.Keys == {"fabnctl/cid", "fabnctl/domain", "fabnctl/host"}
    ensures r.labels["fabnctl/cid"] == "orderer.tls.secret"
    ensures r.labels["fabnctl/domain"] == cfg.domain && r.labels["fabnctl/host"] == cfg.hostname
  {
    Secret(SecretTypeTLS, map[TLSPrivateKeyKey := key, TLSCertKey := cert],
      TlsSecretName(cfg.hostname, cfg.domain), cfg.namespace, SecretLabels("orderer.tls.secret", cfg))
  }

  /** The CA secret: the CA certificate alone, under "ca.crt". */
  function CaSecret(cfg: Config, ca: seq<byte>): (r: Secret)
    ensures r.secretType == SecretTypeOpaque && r.name == CaSecretName(cfg.hostname, cfg.domain)
    ensures r.data.Keys == {"ca.crt"} && r.data["ca.crt"] == ca
    ensures r.namespace == cfg.namespace
    ensures r.labels.Keys == {"fabnctl/cid", "fabnctl/domain", "fabnctl/host"}
    ensures r.labels["fabnctl/cid"] == "orderer.ca.secret"
    ensures r.labels["fabnctl/domain"] == cfg.domain && r.labels["fabnctl/host"] == cfg.hostname
  {
    Secret(SecretTypeOpaque, map["ca.crt" := ca], CaSecretName(cfg.hostname, cfg.domain), cfg.namespace,
      SecretLabels("orderer.ca.secret", cfg))
  }

  /** `values["domain"] = domain`: the domain is set whatever the values held, and every
      other key keeps its value. */
  function WithDomain(values: Values, domain: string): (r: Values)
    ensures "domain" in r && r["domain"] == Text(domain)
    ensures r.Keys == values.Keys + {"domain"}
    ensures forall k :: k in values && k != "domain" ==> r[k] == values[k]
  {
    values["domain" := Text(domain)]
  }

  /** The values the chart is installed with: the arm64 values file when targeting arm64,
      otherwise no values, and in both cases the domain. */
  function ChartValues(cfg: Config, env: Env): (r: Values)
    ensures "domain" in r && r["domain"] == Text(cfg.domain)
    ensures cfg.targetArch != "arm64" || env.armValues.Err? ==> r.Keys == {"domain"}
    ensures cfg.targetArch == "arm64" && env.armValues.Ok? ==>
      && r.Keys == env.armValues.value.Keys + {"domain"}
      && forall k :: k in env.armValues.value && k != "domain" ==> r[k] == env.armValues.value[k]
  {
    var base := if cfg.targetArch == "arm64" && env.armValues.Ok? then env.armValues.value else map[];
    WithDomain(base, cfg.domain)
  }

  // ---------------------------------------------------------------------------
  // Messages

  function SecretCreated(cfg: Config, name: string): string
  {
    cfg.successEmoji + " Secret '" + name + "' successfully created"
  }

  function InstallStart(): string { "Installing orderer chart" }

  function InstallComplete(): string { "Chart 'orderer/orderer' installed successfully" }

  function OrdererDeployed(hostname: string, domain: string): string
  {
    "\U{1F389} Orderer service successfully deployed on " + hostname + "." + domain + "!"
  }

  // ---------------------------------------------------------------------------
  // The sequence, as a specification

  /** What one run of deployOrderer returns and does: the TLS material is read and
      stored in the two secrets, and then the chart is installed. */
  function Orderer(prefixes: map<ILogLevel, Spinner>, cfg: Config, env: Env): (r: Run)
    ensures r.err.None? <==> InstallReached(cfg, env)
    ensures Secrets(cfg, env).events <= r.events
  {
    var secrets := Secrets(cfg, env);
    if secrets.err.Some? then secrets
    else
      var chart := Chart(prefixes, cfg, env);
      Run(chart.err, secrets.events + chart.events)
  }

  /** The first part of a run: three reads and two secret writes, each ending the run
      with its error when it fails. */
  function Secrets(cfg: Config, env: Env): (r: Run)
    ensures r.err.None? <==> SecretsCreated(env)
    ensures r.events != [] && r.events[0] == ReadFile(KeyPath(cfg.hostname, cfg.domain))
  {
    var read := Reads(cfg, env);
    if read.err.Some? then read
    else
      var written := Writes(cfg, env);
      Run(written.err, read.events + written.events)
  }

  /** The key, the certificate and the CA certificate are read in this order, and the
      first read that fails ends the run with its error, wrapped with the path. */
  function Reads(cfg: Config, env: Env): (r: Run)
    ensures r.err.None? <==> !ReadFails(env)
    ensures r.events != [] && r.events[0] == ReadFile(KeyPath(cfg.hostname, cfg.domain))
  {
    var h, d := cfg.hostname, cfg.domain;
    var readKey := [ReadFile(KeyPath(h, d))];
    if env.key.Err? then
      Run(Some(Wrapped("failed to read private key from path: " + KeyPath(h, d), env.key.error)), readKey)
    else
      var readCert := readKey + [ReadFile(CertPath(h, d))];
      if env.cert.Err? then
        Run(Some(Wrapped("failed to read certificate identity from path: " + CertPath(h, d), env.cert.error)), readCert)
      else
        var readCa := readCert + [ReadFile(CaPath(h, d))];
        if env.ca.Err? then
          Run(Some(Wrapped("failed to read certificate CA from path: " + CaPath(h, d), env.ca.error)), readCa)
        else Run(None, readCa)
  }

  /** Once the three files are read: the TLS secret is written, then the CA secret, and
      a failed write ends the run with its error, wrapped with the secret's name. */
  function Writes(cfg: Config, env: Env): (r: Run)
    requires !ReadFails(env)
    ensures r.err.None? <==> env.tlsWrite.None? && env.caWrite.None?
    ensures r.events != [] && r.events[0] == WriteSecret(TlsSecret(cfg, env.key.value, env.cert.value))
  {
    var h, d := cfg.hostname, cfg.domain;
    var wroteTls := [WriteSecret(TlsSecret(cfg, env.key.value, env.cert.value))];
    if env.tlsWrite.Some? then
      Run(Some(Wrapped("failed to create " + TlsSecretName(h, d) + " secret", env.tlsWrite.value)), wroteTls)
    else
      var wroteCa := wroteTls + [Println(SecretCreated(cfg, TlsSecretName(h, d))),
        WriteSecret(CaSecret(cfg, env.ca.value))];
      if env.caWrite.Some? then
        Run(Some(Wrapped("failed to create " + CaSecretName(h, d) + " secret", env.caWrite.value)), wroteCa)
      else
        Run(None, wroteCa + [Println(SecretCreated(cfg, CaSecretName(h, d)))])
  }

  /** The install closure: the chart installation, its error wrapped. */
  function InstallWork(spec: ChartSpec, cfg: Config, env: Env): (r: Work)
    ensures r.effects == [InstallChart(spec, cfg.installTimeout)]
    ensures r.result.None? <==> env.install.None?
    ensures r.result.Some? ==> r.result.value.Cause() == env.install.value.Cause()
  {
    Work([InstallChart(spec, cfg.installTimeout)],
      if env.install.Some? then Some(Wrapped("failed to install orderer helm chart", env.install.value)) else None)
  }

  /** The chart part of a run, once both secrets exist. A failed installation is
      reported by the spinner, and the run still returns no error. */
  function Chart(prefixes: map<ILogLevel, Spinner>, cfg: Config, env: Env): (r: Run)
    ensures r.err.None? <==> ValuesReady(cfg, env)
  {
    var arm := cfg.targetArch == "arm64";
    var loaded := if arm then [ReadValuesFile(ArmValuesPath(cfg.chartsPath))] else [];
    if arm && env.armValues.Err? then Run(Some(env.armValues.error), loaded)
    else
      var encoded := env.encode(ChartValues(cfg, env));
      if encoded.Err? then Run(Some(Wrapped("failed to encode additional values", encoded.error)), loaded)
      else
        var spec := ChartSpec("orderer", ChartName(cfg.chartsPath), cfg.namespace, true, encoded.value);
        var install := InstallWork(spec, cfg, env);
        var installed := loaded + Decorated(prefixes, InstallStart(), InstallComplete(), install);
        if install.result.Some? then Run(None, installed)
        else Run(None, installed + [Println(OrdererDeployed(cfg.hostname, cfg.domain))])
  }

  // ---------------------------------------------------------------------------
  // The sequence, as the command runs it

  method DeployOrderer(s: Session, cfg: Config, env: Env) returns (err: Option<Error>)
    modifies s
    ensures err == Orderer(s.prefixes, cfg, env).err
    ensures s.trace == old(s.trace) + Orderer(s.prefixes, cfg, env).events
  {
    // The contracts of CreateSecrets and InstallOrdererChart are all this proof needs.
    hide Secrets, Chart;
    err := CreateSecrets(s, cfg, env);
    if err.Some? {
      return;
    }
    err := InstallOrdererChart(s, cfg, env);
  }

  /** deployOrderer up to the secrets: read the key, the certificate and the CA
      certificate, then create or update the TLS secret and the CA secret. */
  method CreateSecrets(s: Session, cfg: Config, env: Env) returns (err: Option<Error>)
    modifies s
    ensures err == Secrets(cfg, env).err
    ensures s.trace == old(s.trace) + Secrets(cfg, env).events
  {
    // The contracts of ReadTlsMaterial and StoreSecrets are all this proof needs.
    hide Reads, Writes;
    var pkPayload, certPayload, caPayload;
    err, pkPayload, certPayload, caPayload := ReadTlsMaterial(s, cfg, env);
    if err.Some? {
      return;
    }
    err := StoreSecrets(s, cfg, env, pkPayload, certPayload, caPayload);
  }

  /** Retrieving the TLS private key, the TLS certificate and the CA certificate. */
  method ReadTlsMaterial(s: Session, cfg: Config, env: Env)
    returns (err: Option<Error>, pkPayload: seq<byte>, certPayload: seq<byte>, caPayload: seq<byte>)
    modifies s
    ensures err == Reads(cfg, env).err
    ensures err.None? ==> pkPayload == env.key.value && certPayload == env.cert.value && caPayload == env.ca.value
    ensures s.trace == old(s.trace) + Reads(cfg, env).events
  {
    // The texts of the paths play no part in this proof.
    hide TlsDir, KeyPath, CertPath, CaPath;
    var hostname, domain := cfg.hostname, cfg.domain;
    var pkPath, certPath, caPath := KeyPath(hostname, domain), CertPath(hostname, domain), CaPath(hostname, domain);
    pkPayload, certPayload, caPayload := [], [], [];

    s.Record([ReadFile(pkPath)]);
    if env.key.Err? {
      return Some(Wrapped("failed to read private key from path: " + pkPath, env.key.error)), [], [], [];
    }
    pkPayload := env.key.value;
    s.Record([ReadFile(certPath)]);
    if env.cert.Err? {
      return Some(Wrapped("failed to read certificate identity from path: " + certPath, env.cert.error)), [], [], [];
    }
    certPayload := env.cert.value;
    s.Record([ReadFile(caPath)]);
    if env.ca.Err? {
      return Some(Wrapped("failed to read certificate CA from path: " + caPath, env.ca.error)), [], [], [];
    }
    caPayload := env.ca.value;
    err := None;
  }

  /** Creating or updating the TLS secret, then the CA secret, from the payloads read. */
  method StoreSecrets(s: Session, cfg: Config, env: Env, pkPayload: seq<byte>, certPayload: seq<byte>,
                      caPayload: seq<byte>)
    returns (err: Option<Error>)
    requires !ReadFails(env)
    requires pkPayload == env.key.value && certPayload == env.cert.value && caPayload == env.ca.value
    modifies s
    ensures err == Writes(cfg, env).err
    ensures s.trace == old(s.trace) + Writes(cfg, env).events
  {
    // The texts of the names and messages and the records' contents play no part in this proof.
    hide TlsSecretName, CaSecretName, TlsSecret, CaSecret, SecretCreated;
    var tlsSecretName, caSecretName := TlsSecretName(cfg.hostname, cfg.domain), CaSecretName(cfg.hostname, cfg.domain);

    s.Record([WriteSecret(TlsSecret(cfg, pkPayload, certPayload))]);
    if env.tlsWrite.Some? {
      return Some(Wrapped("failed to create " + tlsSecretName + " secret", env.tlsWrite.value));
    }
    s.Record([Println(SecretCreated(cfg, tlsSecretName))]);
    s.Record([WriteSecret(CaSecret(cfg, caPayload))]);
    if env.caWrite.Some? {
      return Some(Wrapped("failed to create " + caSecretName + " secret", env.caWrite.value));
    }
    s.Record([Println(SecretCreated(cfg, caSecretName))]);
    return None;
  }

  /** deployOrderer once both secrets exist: prepare the values and install the chart. */
  method InstallOrdererChart(s: Session, cfg: Config, env: Env) returns (err: Option<Error>)
    modifies s
    ensures err == Chart(s.prefixes, cfg, env).err
    ensures s.trace == old(s.trace) + Chart(s.prefixes, cfg, env).events
  {
    // The texts of the paths, names and messages play no part in this proof.
    hide JoinPath, ChartName, ArmValuesPath, InstallStart, InstallComplete, OrdererDeployed;
    var values: Values := map[];
    var chartSpec := ChartSpec("orderer", ChartName(cfg.chartsPath), cfg.namespace, true, "");

    if cfg.targetArch == "arm64" {
      s.Record([ReadValuesFile(ArmValuesPath(cfg.chartsPath))]);
      if env.armValues.Err? {
        return Some(env.armValues.error);
      }
      values := env.armValues.value;
    }

    values := values["domain" := Text(cfg.domain)];

    var valuesYaml := env.encode(values);
    if valuesYaml.Err? {
      return Some(Wrapped("failed to encode additional values", valuesYaml.error));
    }

    chartSpec := chartSpec.(valuesYaml := valuesYaml.value);

    // Installing the orderer chart
    err := DecorateWithInteractiveLog(s, InstallWork(chartSpec, cfg, env), InstallStart(), InstallComplete());
    if err.Some? {
      return None;
    }

    s.Record([Println(OrdererDeployed(cfg.hostname, cfg.domain))]);
    return None;
  }

  // ---------------------------------------------------------------------------
  // Properties of the sequence

  /** One of the three files could not be read. */
  predicate ReadFails(env: Env)
  {
    env.key.Err? || env.cert.Err? || env.ca.Err?
  }

  /** The run gets past both secrets. */
  predicate SecretsCreated(env: Env)
  {
    !ReadFails(env) && env.tlsWrite.None? && env.caWrite.None?
  }

  /** The run gets to the installation: the secrets exist, the arm64 values (when
      needed) were loaded and the values were encoded. */
  predicate InstallReached(cfg: Config, env: Env)
  {
    SecretsCreated(env) && ValuesReady(cfg, env)
  }

  /** The chart values are ready: the arm64 values (when needed) were loaded and the
      values were encoded. */
  predicate ValuesReady(cfg: Config, env: Env)
  {
    (cfg.targetArch == "arm64" ==> env.armValues.Ok?) && env.encode(ChartValues(cfg, env)).Ok?
  }

  /** The files are read in the order key, certificate, CA, each only after the previous
      read succeeded; a failed read ends the run with its error, wrapped with the path,
      before any secret is written. */
  lemma ReadsInOrder(prefixes: map<ILogLevel, Spinner>, cfg: Config, env: Env)
    ensures var r := Orderer(prefixes, cfg, env);
      var h, d := cfg.hostname, cfg.domain;
      && r.events[0] == ReadFile(KeyPath(h, d))
      && (env.key.Ok? ==> r.events[1] == ReadFile(CertPath(h, d)))
      && (env.key.Ok? && env.cert.Ok? ==> r.events[2] == ReadFile(CaPath(h, d)))
      && (ReadFails(env) ==> r.err.Some? && forall e :: e in r.events ==> e.ReadFile?)
      && (env.key.Err? ==>
            r.err == Some(Wrapped("failed to read private key from path: " + KeyPath(h, d), env.key.error)))
      && (env.key.Ok? && env.cert.Err? ==>
            r.err == Some(Wrapped("failed to read certificate identity from path: " + CertPath(h, d), env.cert.error)))
      && (env.key.Ok? && env.cert.Ok? && env.ca.Err? ==>
            r.err == Some(Wrapped("failed to read certificate CA from path: " + CaPath(h, d), env.ca.error)))
  {
    // The texts of the paths, names and messages play no part in this proof.
    hide TlsDir, KeyPath, CertPath, CaPath, TlsSecretName, CaSecretName, TlsSecret, CaSecret, SecretCreated, Chart;
  }

  /** After the reads the TLS secret is written first and the CA secret second, each with
      the payloads read; a failed write ends the run with the secret's name in the error,
      so a failed TLS write means no CA write, and neither failure reaches the chart. */
  lemma TlsSecretWrittenFirst(prefixes: map<ILogLevel, Spinner>, cfg: Config, env: Env)
    requires !ReadFails(env)
    ensures var r := Orderer(prefixes, cfg, env);
      var h, d := cfg.hostname, cfg.domain;
      var tls, ca := TlsSecret(cfg, env.key.value, env.cert.value), CaSecret(cfg, env.ca.value);
      && r.events[3] == WriteSecret(tls)
      && (env.tlsWrite.Some? ==>
            && r.err == Some(Wrapped("failed to create " + TlsSecretName(h, d) + " secret", env.tlsWrite.value))
            && WriteSecret(ca) !in r.events
            && forall e :: e in r.events ==> !e.InstallChart?)
      && (env.tlsWrite.None? ==> r.events[5] == WriteSecret(ca))
      && (env.tlsWrite.None? && env.caWrite.Some? ==>
            && r.err == Some(Wrapped("failed to create " + CaSecretName(h, d) + " secret", env.caWrite.value))
            && forall e :: e in r.events ==> !e.InstallChart?)
  {
    // The texts of the paths, names and messages play no part in this proof.
    hide TlsDir, KeyPath, CertPath, CaPath, TlsSecretName, CaSecretName, ChartName, ArmValuesPath, TlsSecret, CaSecret;
    hide SecretCreated, InstallStart, InstallComplete, OrdererDeployed;
    var tls, ca := TlsSecret(cfg, env.key.value, env.cert.value), CaSecret(cfg, env.ca.value);
    if env.tlsWrite.Some? {
      assert tls != ca;
    }
  }

  /** The secret part reads files, writes secrets and prints, and nothing else; what it
      prints are the two "secret created" lines. */
  lemma SecretsEffects(cfg: Config, env: Env)
    ensures forall e :: e in Secrets(cfg, env).events ==> e.ReadFile? || e.WriteSecret? || e.Println?
    ensures forall e :: e in Secrets(cfg, env).events && e.Println? ==>
      e.line == SecretCreated(cfg, TlsSecretName(cfg.hostname, cfg.domain))
      || e.line == SecretCreated(cfg, CaSecretName(cfg.hostname, cfg.domain))
  {
    // The texts of the paths, names and messages play no part in this proof.
    hide TlsDir, KeyPath, CertPath, CaPath, TlsSecretName, CaSecretName, TlsSecret, CaSecret, SecretCreated;
  }

  /** The chart part loads the arm64 values only when targeting arm64, and installs the
      chart only when the installation is reached, with the chart values encoded. */
  lemma ChartEffects(prefixes: map<ILogLevel, Spinner>, cfg: Config, env: Env)
    ensures var r := Chart(prefixes, cfg, env);
      && (forall e :: e in r.events && e.ReadValuesFile? ==>
            cfg.targetArch == "arm64" && e.path == ArmValuesPath(cfg.chartsPath))
      && (cfg.targetArch == "arm64" ==> r.events[0] == ReadValuesFile(ArmValuesPath(cfg.chartsPath)))
      && (forall e :: e in r.events && e.InstallChart? ==>
            && (cfg.targetArch == "arm64" ==> env.armValues.Ok?)
            && env.encode(ChartValues(cfg, env)).Ok?
            && e.spec == ChartSpec("orderer", ChartName(cfg.chartsPath), cfg.namespace, true,
                                   env.encode(ChartValues(cfg, env)).value)
            && e.timeout == cfg.installTimeout)
  {
    // The texts of the paths, names and messages play no part in this proof.
    hide JoinPath, ChartName, ArmValuesPath, InstallStart, InstallComplete, OrdererDeployed;
    var r := Chart(prefixes, cfg, env);
    var arm := cfg.targetArch == "arm64";
    var loaded := if arm then [ReadValuesFile(ArmValuesPath(cfg.chartsPath))] else [];
    var encoded := env.encode(ChartValues(cfg, env));
    if (arm && env.armValues.Err?) || encoded.Err? {
      assert r.events == loaded;
    } else {
      var spec := ChartSpec("orderer", ChartName(cfg.chartsPath), cfg.namespace, true, encoded.value);
      var install := InstallWork(spec, cfg, env);
      var d := Decorated(prefixes, InstallStart(), InstallComplete(), install);
      DecoratedEffects(prefixes, InstallStart(), InstallComplete(), install);
      var tail := if install.result.Some? then [] else [Println(OrdererDeployed(cfg.hostname, cfg.domain))];
      assert r.events == loaded + d + tail;
      forall e | e in r.events
        ensures e.ReadValuesFile? ==> arm && e.path == ArmValuesPath(cfg.chartsPath)
        ensures e.InstallChart? ==> e == InstallChart(spec, cfg.installTimeout)
      {
        if e in d && !IsSpinnerEvent(e) {
          assert e in install.effects;
        }
      }
    }
  }

  /** The arm64 values file is loaded only when targeting arm64, from the orderer chart's
      directory, and its error is returned as it is. */
  lemma ArmValuesOnlyForArm64(prefixes: map<ILogLevel, Spinner>, cfg: Config, env: Env)
    ensures var r := Orderer(prefixes, cfg, env);
      && (forall e :: e in r.events && e.ReadValuesFile? ==>
            cfg.targetArch == "arm64" && e.path == ArmValuesPath(cfg.chartsPath))
      && (SecretsCreated(env) && cfg.targetArch == "arm64" ==> ReadValuesFile(ArmValuesPath(cfg.chartsPath)) in r.events)
      && (SecretsCreated(env) && cfg.targetArch == "arm64" && env.armValues.Err? ==> r.err == Some(env.armValues.error))
  {
    SecretsEffects(cfg, env);
    ChartEffects(prefixes, cfg, env);
    var secrets, chart := Secrets(cfg, env), Chart(prefixes, cfg, env);
    if SecretsCreated(env) && cfg.targetArch == "arm64" {
      assert Orderer(prefixes, cfg, env).events == secrets.events + chart.events;
      assert chart.events[0] in secrets.events + chart.events;
    }
  }

  /** The chart is installed as release "orderer" of the orderer chart in the namespace,
      waiting for readiness, under the configured timeout, and with the encoded chart
      values, in which the domain always has the configured value and every other key
      keeps the value the arm64 values file gave it. */
  lemma DomainAlwaysWins(prefixes: map<ILogLevel, Spinner>, cfg: Config, env: Env)
    ensures var r := Orderer(prefixes, cfg, env);
      && (forall e :: e in r.events && e.InstallChart? ==>
            && InstallReached(cfg, env)
            && e.spec == ChartSpec("orderer", ChartName(cfg.chartsPath), cfg.namespace, true,
                                   env.encode(ChartValues(cfg, env)).value)
            && e.timeout == cfg.installTimeout)
      && ChartValues(cfg, env)["domain"] == Text(cfg.domain)
      && (cfg.targetArch == "arm64" && env.armValues.Ok? ==>
            forall k :: k in env.armValues.value && k != "domain" ==> ChartValues(cfg, env)[k] == env.armValues.value[k])
  {
    SecretsEffects(cfg, env);
    ChartEffects(prefixes, cfg, env);
  }

  /** A "secret created" line is never the closing message: one ends in 'd', the other in '!'. */
  lemma SecretLineIsNotClosing(cfg: Config, name: string)
    ensures SecretCreated(cfg, name) != OrdererDeployed(cfg.hostname, cfg.domain)
  {
    var a, b := SecretCreated(cfg, name), OrdererDeployed(cfg.hostname, cfg.domain);
    assert a[|a| - 1] == 'd';
    assert b[|b| - 1] == '!';
  }

  /** Once the values are ready the chart part returns no error; the closing message is
      printed, as the last event, exactly when the installation succeeded, and never
      otherwise. */
  lemma ChartClosingLine(prefixes: map<ILogLevel, Spinner>, cfg: Config, env: Env)
    ensures var r, done := Chart(prefixes, cfg, env), Println(OrdererDeployed(cfg.hostname, cfg.domain));
      && (r.err.None? ==> r.events != [] && (r.events[|r.events| - 1] == done <==> env.install.None?))
      && (done in r.events <==> r.err.None? && env.install.None?)
  {
    // The texts of the paths, names and messages play no part in this proof.
    hide JoinPath, ChartName, ArmValuesPath, InstallStart, InstallComplete, OrdererDeployed;
    var arm := cfg.targetArch == "arm64";
    var encoded := env.encode(ChartValues(cfg, env));
    if !(arm && env.armValues.Err?) && encoded.Ok? {
      var spec := ChartSpec("orderer", ChartName(cfg.chartsPath), cfg.namespace, true, encoded.value);
      var install := InstallWork(spec, cfg, env);
      DecoratedEffects(prefixes, InstallStart(), InstallComplete(), install);
    }
  }

  /** Once the installation is reached the run returns no error, whether the chart was
      installed or not; the closing message is printed, as the last event, exactly when
      the installation succeeded, and never otherwise. Before that point every failure
      is returned. */
  lemma InstallFailureReturnsNil(prefixes: map<ILogLevel, Spinner>, cfg: Config, env: Env)
    ensures var r := Orderer(prefixes, cfg, env);
      && (r.err.None? <==> InstallReached(cfg, env))
      && (InstallReached(cfg, env) ==>
            (r.events[|r.events| - 1] == Println(OrdererDeployed(cfg.hostname, cfg.domain)) <==> env.install.None?))
      && (Println(OrdererDeployed(cfg.hostname, cfg.domain)) in r.events <==>
            InstallReached(cfg, env) && env.install.None?)
  {
    // The contracts of Secrets and Chart, and the lemmas about them, are all this proof needs.
    hide Secrets, Chart, SecretCreated, OrdererDeployed, TlsSecretName, CaSecretName;
    var done := Println(OrdererDeployed(cfg.hostname, cfg.domain));
    var h, d := cfg.hostname, cfg.domain;
    var secrets, chart := Secrets(cfg, env), Chart(prefixes, cfg, env);
    SecretsEffects(cfg, env);
    SecretLineIsNotClosing(cfg, TlsSecretName(h, d));
    SecretLineIsNotClosing(cfg, CaSecretName(h, d));
    assert done !in secrets.events;
    ChartClosingLine(prefixes, cfg, env);
    if SecretsCreated(env) {
      assert Orderer(prefixes, cfg, env).events == secrets.events + chart.events;
    }
  }
}
