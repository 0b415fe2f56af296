/**
 * Application settings. Every field has a default and the numeric ones carry
 * bounds that are checked when the settings are loaded, so a running server
 * only ever sees settings within them.
 */
module Config {
  import opened Common

  datatype LogLevel = DEBUG | INFO | WARNING | ERROR
  datatype SecretProvider = Vault | Aws | Azure | Gcp
  datatype LogFormat = Json | PlainText
  datatype LogRotation = Daily | Hourly | BySize

  datatype Settings = Settings(
    serverHost: string,
    serverPort: int,
    serverWorkers: int,
    logLevel: LogLevel,
    secretProvider: SecretProvider,
    secretEndpoint: string,
    vaultRole: string,
    vaultToken: Option<string>,
    authEnabled: bool,
    jwtSecretPath: string,
    jwtAlgorithm: string,
    jwtIssuer: string,
    rateLimitEnabled: bool,
    rateLimitPerMinute: int,
    rateLimitBurst: int,
    metricsEnabled: bool,
    metricsPort: int,
    metricsTlsEnabled: bool,
    metricsCertPath: string,
    metricsKeyPath: string,
    smbEnabled: bool,
    smbCredentialsPath: string,
    gitEnabled: bool,
    gitCredentialsPath: string,
    sharepointEnabled: bool,
    sharepointCredentialsPath: string,
    s3Enabled: bool,
    s3CredentialsPath: string,
    azureBlobEnabled: bool,
    azureCredentialsPath: string,
    maxDocumentSizeMb: int,
    cacheEnabled: bool,
    cacheTtlSeconds: int,
    logFormat: LogFormat,
    logRotation: LogRotation,
    logRetentionDays: int,
    auditLogEnabled: bool,
    piiRedactionEnabled: bool)

  /** A bounded integer field: its name and inclusive bounds, the upper one optional. */
  datatype Bound = Bound(field: string, value: int, lo: int, hi: Option<int>)
  {
    predicate Holds() {
      lo <= value && (hi.Some? ==> value <= hi.value)
    }
  }

  /** The bounds the settings declare, one per constrained field. */
  function Bounds(s: Settings): seq<Bound> {
    [
      Bound("server_port", s.serverPort, 1024, Some(65535)),
      Bound("server_workers", s.serverWorkers, 1, Some(32)),
      Bound("rate_limit_per_minute", s.rateLimitPerMinute, 1, None),
      Bound("rate_limit_burst", s.rateLimitBurst, 1, None),
      Bound("metrics_port", s.metricsPort, 1024, Some(65535)),
      Bound("max_document_size_mb", s.maxDocumentSizeMb, 1, Some(500)),
      Bound("cache_ttl_seconds", s.cacheTtlSeconds, 60, None),
      Bound("log_retention_days", s.logRetentionDays, 1, None)
    ]
  }

  /** Settings that loading accepts. */
  predicate Valid(s: Settings) {
    && 1024 <= s.serverPort <= 65535
    && 1 <= s.serverWorkers <= 32
    && 1 <= s.rateLimitPerMinute
    && 1 <= s.rateLimitBurst
    && 1024 <= s.metricsPort <= 65535
    && 1 <= s.maxDocumentSizeMb <= 500
    && 60 <= s.cacheTtlSeconds
    && 1 <= s.logRetentionDays
  }

  /** The names of the fields whose bound fails, in declaration order; loading reports these. */
  function Violations(bounds: seq<Bound>): (r: seq<string>)
    ensures |r| <= |bounds|
    ensures r == [] <==> forall i :: 0 <= i < |bounds| ==> bounds[i].Holds()
    ensures forall n :: n in r ==> exists i :: 0 <= i < |bounds| && bounds[i].field == n && !bounds[i].Holds()
    ensures forall i :: 0 <= i < |bounds| && !bounds[i].Holds() ==> bounds[i].field in r
    decreases |bounds|
  {
    if |bounds| == 0 then []
    else
      var rest := Violations(bounds[1..]);
      assert forall i :: 1 <= i < |bounds| ==> bounds[i] == bounds[1..][i - 1];
      if bounds[0].Holds() then rest else [bounds[0].field] + rest
  }

  /** The bound list says exactly what `Valid` says. */
  lemma BoundsMeanValid(s: Settings)
    ensures Valid(s) <==> forall i :: 0 <= i < |Bounds(s)| ==> Bounds(s)[i].Holds()
  {
    var b := Bounds(s);
    assert |b| == 8;
    if forall i :: 0 <= i < |b| ==> b[i].Holds() {
      assert b[0].Holds() && b[1].Holds() && b[2].Holds() && b[3].Holds();
      assert b[4].Holds() && b[5].Holds() && b[6].Holds() && b[7].Holds();
    }
  }

  /** Loading either accepts the settings or reports every field out of bounds. */
  function Load(s: Settings): (r: LoadResult)
    ensures r.Loaded? <==> Valid(s)
    ensures r.Loaded? ==> r.settings == s
    ensures r.Refused? ==> |r.fields| > 0 && forall n :: n in r.fields ==> exists b :: b in Bounds(s) && b.field == n && !b.Holds()
    ensures r.Refused? ==> forall b :: b in Bounds(s) && !b.Holds() ==> b.field in r.fields
  {
    var v := Violations(Bounds(s));
    BoundsMeanValid(s);
    if v == [] then Loaded(s) else Refused(v)
  }

  datatype LoadResult = Loaded(settings: Settings) | Refused(fields: seq<string>)

  /** The defaults, used for every field the environment does not set. */
  const Defaults: Settings := Settings(
    "0.0.0.0", 8000, 4, INFO,
    Vault, "http://localhost:8200", "policy-reader", None,
    true, "app/jwt-secret", "RS256", "mcp-policy-reader",
    true, 100, 20,
    true, 9090, true, "certs/metrics/exporter.crt", "certs/metrics/exporter.key",
    true, "smb/credentials",
    true, "git/credentials",
    true, "sharepoint/credentials",
    true, "aws/s3-reader",
    true, "azure/blob-reader",
    100, true, 3600,
    Json, Daily, 365, true, true)

  /** The defaults lie within every bound, and the document limit defaults to 100 MB. */
  lemma DefaultsLoad()
    ensures Load(Defaults) == Loaded(Defaults)
    ensures Defaults.maxDocumentSizeMb == 100
  {
  }

  /** `max_document_size_mb * 1024 * 1024`: the document size limit in bytes. */
  function MaxDocumentBytes(s: Settings): (r: int)
    ensures Valid(s) ==> 1048576 <= r <= 500 * 1048576
    ensures Valid(s) ==> r % 1048576 == 0
  {
    s.maxDocumentSizeMb * 1024 * 1024
  }

  /** A port outside `[1024, 65535]` is rejected by name. */
  lemma PrivilegedPortRejected(s: Settings)
    requires s.serverPort == 80
    ensures Load(s).Refused? && "server_port" in Load(s).fields
  {
    assert !Bounds(s)[0].Holds();
  }

  /** Two ports out of range are both reported, not just the first. */
  lemma BothBadPortsReported(s: Settings)
    requires s.serverPort == 80 && s.metricsPort == 80
    ensures Load(s).Refused?
    ensures "server_port" in Load(s).fields && "metrics_port" in Load(s).fields
  {
    assert Bounds(s)[0] in Bounds(s) && Bounds(s)[4] in Bounds(s);
  }
}
