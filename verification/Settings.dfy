/** The rendering of `settings.py` into the server Secret: custom settings
    first, then the defaults they do not override, then one section per
    feature. The text is kept as the sequence of its assignments. */
module Settings {
  import opened Text
  import opened Pulp

  datatype Backend = AzureStorage | GoogleCloudStorage | S3Boto3Storage

  /** The right-hand sides the operator writes. Dictionaries keep their
      entries; their constant entries and punctuation belong to `ShowValue`. */
  datatype Value =
    | Raw(text: string)
    | Quoted(text: string)
    | Names(names: seq<string>)
    | DatabaseDict(host: string, db: string, user: string, password: string, port: string, sslmode: string)
    | StorageDict(backend: Backend, options: seq<(string, string)>)
    | DebugLogging
    | LdapBackends

  datatype Line = Assign(name: string, value: Value) | Comment(text: string)

  function ShowNames(names: seq<string>): string {
    if names == [] then "" else (if |names| == 1 then "" else ShowNames(names[..|names| - 1]) + ",") + "\"" + names[|names| - 1] + "\""
  }

  function ShowOptions(options: seq<(string, string)>): string {
    if options == [] then ""
    else "\"" + options[0].0 + "\": " + options[0].1 + ",\n" + ShowOptions(options[1..])
  }

  function ShowValue(v: Value): string {
    match v
    case Raw(t) => t
    case Quoted(t) => "\"" + t + "\""
    case Names(ns) => "[" + ShowNames(ns) + "]"
    case DatabaseDict(h, d, u, p, port, ssl) =>
      "{'default': {'HOST': '" + h + "', 'NAME': '" + d + "', 'USER': '" + u + "', 'PASSWORD': '" + p
      + "', 'PORT': '" + port + "', 'OPTIONS': {'sslmode': '" + ssl + "'}}}"
    case StorageDict(_, o) => "{\"default\": {\"OPTIONS\": {" + ShowOptions(o) + "}}}"
    case DebugLogging => "{'loggers': {'': {'level': 'DEBUG'}}}"
    case LdapBackends => "[\"django_auth_ldap.backend.LDAPBackend\"]"
  }

  function Show(line: Line): string {
    match line
    case Assign(n, v) => n + " = " + ShowValue(v) + "\n"
    case Comment(t) => t
  }

  /** The text stored under the key `settings.py`. */
  function Print(lines: seq<Line>): string {
    if lines == [] then "" else Show(lines[0]) + Print(lines[1..])
  }

  // ---- reading Secrets ----

  /** `RetrieveSecretData`: with `required`, one absent key fails the read;
      without it, absent keys are skipped. */
  function Retrieved(cluster: Cluster, secret: string, required: bool, keys: seq<string>): Option<map<string, string>> {
    match cluster.Secret(secret)
    case None => None
    case Some(data) =>
      if required && exists k :: k in keys && k !in data then None
      else Some(map k | k in keys && k in data :: data[k])
  }

  method RetrieveSecretData(cluster: Cluster, secret: string, required: bool, keys: seq<string>)
    returns (r: Option<map<string, string>>)
    ensures r == Retrieved(cluster, secret, required, keys)
  {
    var found := cluster.Secret(secret);
    if found.None? { return None; }
    var data := found.value;
    var result: map<string, string> := map[];
    for i := 0 to |keys|
      invariant required ==> forall k :: k in keys[..i] ==> k in data
      invariant result == map k | k in keys[..i] && k in data :: data[k]
    {
      assert keys[..i + 1] == keys[..i] + [keys[i]];
      if keys[i] !in data {
        if required {
          assert keys[i] in keys;
          return None;
        }
        continue;
      }
      result := result[keys[i] := data[keys[i]]];
    }
    assert keys[..|keys|] == keys;
    return Some(result);
  }

  /** Reading a key of a Go map that may be nil. */
  function At(m: Option<map<string, string>>, k: string): string {
    if m.Some? && k in m.value then m.value[k] else ""
  }

  // ---- addresses ----

  function GetRouteHost(spec: PulpSpec): string { if spec.routeHost == "" then "example.com" else spec.routeHost }

  function GetRootURL(spec: PulpSpec): string {
    if IsIngress(spec) then (if spec.ingressTLSSecret == "" then "http" else "https") + "://" + spec.ingressHost
    else if IsRoute(spec) then "https://" + GetRouteHost(spec)
    else "http://" + spec.name + "-web-svc." + spec.namespace + ".svc.cluster.local:24880"
  }

  // ---- sections ----

  function DefaultPulpSettings(rootUrl: string): map<string, Value> {
    map["DB_ENCRYPTION_KEY" := Quoted("/etc/pulp/keys/database_fields.symmetric.key"),
        "ANSIBLE_CERTS_DIR" := Quoted("/etc/pulp/keys/"),
        "PRIVATE_KEY_PATH" := Quoted("/etc/pulp/keys/container_auth_private_key.pem"),
        "PUBLIC_KEY_PATH" := Quoted("/etc/pulp/keys/container_auth_public_key.pem"),
        "STATIC_ROOT" := Quoted("/var/lib/operator/static/"),
        "TOKEN_AUTH_DISABLED" := Raw("False"),
        "TOKEN_SIGNATURE_ALGORITHM" := Quoted("ES256"),
        "ANSIBLE_API_HOSTNAME" := Quoted(rootUrl),
        "CONTENT_ORIGIN" := Quoted(rootUrl)]
  }

  const DEFAULT_NAMES: set<string> :=
    {"DB_ENCRYPTION_KEY", "ANSIBLE_CERTS_DIR", "PRIVATE_KEY_PATH", "PUBLIC_KEY_PATH", "STATIC_ROOT",
     "TOKEN_AUTH_DISABLED", "TOKEN_SIGNATURE_ALGORITHM", "ANSIBLE_API_HOSTNAME", "CONTENT_ORIGIN"}

  function CustomData(spec: PulpSpec, cluster: Cluster): map<string, string> {
    if spec.customPulpSettings == "" then map[] else cluster.ConfigMapOrEmpty(spec.customPulpSettings)
  }

  function UpperKeys(keys: set<string>): set<string> { set k | k in keys :: ToUpper(k) }

  function CustomNames(spec: PulpSpec, cluster: Cluster): set<string> { UpperKeys(CustomData(spec, cluster).Keys) }

  /** The custom assignments in the order of their keys. */
  function CustomLines(data: map<string, string>, keys: seq<string>): (r: seq<Line>)
    requires forall k :: k in keys ==> k in data
    ensures |r| == |keys|
  {
    if keys == [] then []
    else CustomLines(data, keys[..|keys| - 1]) + [Assign(ToUpper(keys[|keys| - 1]), Raw(data[keys[|keys| - 1]]))]
  }

  function PlainLines(data: map<string, Value>, keys: seq<string>): (r: seq<Line>)
    requires forall k :: k in keys ==> k in data
    ensures |r| == |keys|
  {
    if keys == [] then []
    else PlainLines(data, keys[..|keys| - 1]) + [Assign(keys[|keys| - 1], data[keys[|keys| - 1]])]
  }

  function RemainingDefaults(spec: PulpSpec, cluster: Cluster): map<string, Value> {
    DefaultPulpSettings(GetRootURL(spec)) - CustomNames(spec, cluster)
  }

  ghost function CustomSection(spec: PulpSpec, cluster: Cluster): seq<Line> {
    var data := CustomData(spec, cluster);
    var rest := RemainingDefaults(spec, cluster);
    CustomLines(data, SortedKeys(data.Keys)) + PlainLines(rest, SortedKeys(rest.Keys))
  }

  function DebugSection(spec: PulpSpec): seq<Line> {
    if spec.enableDebugging then [Assign("LOGGING", DebugLogging)] else []
  }

  const MANAGED_DB_KEYS := ["username", "password", "database", "port", "sslmode"]
  const EXTERNAL_DB_KEYS := ["POSTGRES_HOST", "POSTGRES_PORT", "POSTGRES_USERNAME", "POSTGRES_PASSWORD",
                             "POSTGRES_DB_NAME", "POSTGRES_SSLMODE"]

  function DefaultDBSecret(spec: PulpSpec): string { spec.name + "-postgres-configuration" }

  function ManagedDatabase(host: string, db: map<string, string>): Value {
    DatabaseDict(host, At(Some(db), "database"), At(Some(db), "username"), At(Some(db), "password"), At(Some(db), "port"), At(Some(db), "sslmode"))
  }

  function ExternalDatabase(db: map<string, string>): Value {
    DatabaseDict(At(Some(db), "POSTGRES_HOST"), At(Some(db), "POSTGRES_DB_NAME"), At(Some(db), "POSTGRES_USERNAME"),
                 At(Some(db), "POSTGRES_PASSWORD"), At(Some(db), "POSTGRES_PORT"), At(Some(db), "POSTGRES_SSLMODE"))
  }

  function DatabaseSection(spec: PulpSpec, cluster: Cluster, custom: set<string>): seq<Line> {
    if "DATABASES" in custom then []
    else if spec.externalDBSecret == "" then
      match Retrieved(cluster, DefaultDBSecret(spec), true, MANAGED_DB_KEYS)
      case None => []
      case Some(db) => [Assign("DATABASES", ManagedDatabase(spec.name + "-database-svc", db))]
    else
      match Retrieved(cluster, spec.externalDBSecret, true, EXTERNAL_DB_KEYS)
      case None => []
      case Some(db) => [Assign("DATABASES", ExternalDatabase(db))]
  }

  function Decimal(n: int): string
    decreases if n < 0 then 1 - n else n
  {
    if n < 0 then "-" + Decimal(-n)
    else if n < 10 then [('0' as int + n) as char]
    else Decimal(n / 10) + [('0' as int + n % 10) as char]
  }

  const CACHE_KEYS := ["REDIS_HOST", "REDIS_PORT", "REDIS_PASSWORD", "REDIS_DB"]

  /** The only feature section that does not look at the custom settings. */
  function CacheSection(spec: PulpSpec, cluster: Cluster): seq<Line> {
    if !spec.cacheEnabled then []
    else
      var external := spec.externalCacheSecret != "";
      var c := Retrieved(cluster, spec.externalCacheSecret, true, CACHE_KEYS);
      var host := if external then At(c, "REDIS_HOST") else spec.name + "-redis-svc." + spec.namespace;
      var port := if external then At(c, "REDIS_PORT") else Decimal(if spec.redisPort != 0 then spec.redisPort else 6379);
      var pass := if external then At(c, "REDIS_PASSWORD") else "";
      var db := if external then At(c, "REDIS_DB") else "";
      [Assign("CACHE_ENABLED", Raw("True")), Assign("REDIS_HOST", Quoted(host)), Assign("REDIS_PORT", Quoted(port)),
       Assign("REDIS_PASSWORD", Quoted(pass)), Assign("REDIS_DB", Quoted(db))]
  }

  function StorageLines(backend: Backend, options: seq<(string, string)>): seq<Line> {
    [Assign("MEDIA_ROOT", Quoted("")), Assign("STORAGES", StorageDict(backend, options))]
  }

  /** An entry that is left out when the Secret has no value for it. */
  function Optional(key: string, value: string): seq<(string, string)> {
    if value == "" then [] else [(key, value)]
  }

  const AZURE_KEYS := ["azure-account-name", "azure-account-key", "azure-container", "azure-container-path", "azure-connection-string"]

  /** Storage type of the CR, indexed the way the source does it. */
  predicate StorageIs(spec: PulpSpec, kind: string) {
    |GetStorageType(spec)| > 0 && GetStorageType(spec)[0] == kind
  }

  function AzureSection(spec: PulpSpec, cluster: Cluster, custom: set<string>): seq<Line> {
    if "STORAGES" in custom || !StorageIs(spec, AZURE) then []
    else
      match Retrieved(cluster, spec.azureSecret, true, AZURE_KEYS)
      case None => []
      case Some(d) => StorageLines(AzureStorage, AzureOptions(Some(d)))
  }

  function AzureOptions(d: Option<map<string, string>>): seq<(string, string)> {
    [("connection_string", At(d, "azure-connection-string")), ("account_name", At(d, "azure-account-name")),
     ("azure_container", At(d, "azure-container")), ("account_key", At(d, "azure-account-key")),
     ("location", At(d, "azure-container-path"))]
  }

  const GCS_OPTIONAL := ["gcs-iam-sign-blob", "gcs-querystring-auth", "gcs-file-overwrite"]

  function GcsSection(spec: PulpSpec, cluster: Cluster, custom: set<string>): seq<Line> {
    if "STORAGES" in custom || !StorageIs(spec, GCS) then []
    else
      match Retrieved(cluster, spec.gcsSecret, true, ["gcs-bucket-name"])
      case None => []
      case Some(d) =>
        StorageLines(GoogleCloudStorage, GcsOptions(Some(d), Retrieved(cluster, spec.gcsSecret, false, GCS_OPTIONAL)))
  }

  function GcsOptions(d: Option<map<string, string>>, o: Option<map<string, string>>): seq<(string, string)> {
    [("bucket_name", At(d, "gcs-bucket-name"))] + Optional("iam_sign_blob", At(o, "gcs-iam-sign-blob"))
    + Optional("querystring_auth", At(o, "gcs-querystring-auth")) + Optional("file_overwrite", At(o, "gcs-file-overwrite"))
  }

  const S3_OPTIONAL := ["s3-endpoint", "s3-region", "s3-access-key-id", "s3-secret-access-key", "s3-addressing-style"]

  function AddressingStyle(o: Option<map<string, string>>): string {
    if At(o, "s3-addressing-style") != "" then At(o, "s3-addressing-style") else "path"
  }

  function S3Section(spec: PulpSpec, cluster: Cluster, custom: set<string>): seq<Line> {
    if "STORAGES" in custom || !StorageIs(spec, S3) then []
    else
      match Retrieved(cluster, spec.s3Secret, true, ["s3-bucket-name"])
      case None => []
      case Some(d) =>
        var o := Retrieved(cluster, spec.s3Secret, false, S3_OPTIONAL);
        if At(o, "s3-endpoint") == "" && At(o, "s3-region") == "" then []
        else
          StorageLines(S3Boto3Storage, S3Options(Some(d), o))
  }

  function S3Options(d: Option<map<string, string>>, o: Option<map<string, string>>): seq<(string, string)> {
    [("addressing_style", AddressingStyle(o)), ("bucket_name", At(d, "s3-bucket-name"))]
    + Optional("secret_key", At(o, "s3-secret-access-key")) + Optional("access_key", At(o, "s3-access-key-id"))
    + Optional("endpoint_url", At(o, "s3-endpoint")) + Optional("region_name", At(o, "s3-region"))
  }

  const SSO_REQUIRED := ["social_auth_keycloak_key", "social_auth_keycloak_secret", "social_auth_keycloak_public_key",
                         "keycloak_host", "keycloak_protocol", "keycloak_port", "keycloak_realm"]
  const SSO_OPTIONAL := ["keycloak_admin_role", "keycloak_group_token_claim", "keycloak_role_token_claim", "keycloak_host_loopback"]

  function SsoData(spec: PulpSpec, cluster: Cluster): map<string, string> {
    if spec.ssoSecret == "" then map[]
    else
      match Retrieved(cluster, spec.ssoSecret, true, SSO_REQUIRED)
      case None => map[]
      case Some(r) =>
        match Retrieved(cluster, spec.ssoSecret, false, SSO_OPTIONAL)
        case None => map[]
        case Some(o) => r + o
  }

  function QuotedUpperLines(data: map<string, string>, keys: seq<string>): (r: seq<Line>)
    requires forall k :: k in keys ==> k in data
    ensures |r| == |keys|
  {
    if keys == [] then []
    else QuotedUpperLines(data, keys[..|keys| - 1]) + [Assign(ToUpper(keys[|keys| - 1]), Quoted(data[keys[|keys| - 1]]))]
  }

  ghost function SsoSection(spec: PulpSpec, cluster: Cluster): seq<Line> {
    var data := SsoData(spec, cluster);
    QuotedUpperLines(data, SortedKeys(data.Keys))
  }

  function TokenSection(spec: PulpSpec, custom: set<string>): seq<Line> {
    if "TOKEN_SERVER" in custom then []
    else if IsRoute(spec) then [Assign("TOKEN_SERVER", Quoted(GetRootURL(spec) + "/token/"))]
    else if IsIngress(spec) then
      [Assign("TOKEN_SERVER", Quoted((if spec.ingressTLSSecret != "" then "https" else "http") + "://" + spec.ingressHost + "/token/"))]
    else [Assign("TOKEN_SERVER", Quoted("http://" + spec.name + "-api-svc." + spec.namespace + ".svc.cluster.local:24817/token/"))]
  }

  function SecretKeySection(spec: PulpSpec, cluster: Cluster, custom: set<string>): seq<Line> {
    if "SECRET_KEY" in custom then []
    else
      match Retrieved(cluster, spec.pulpSecretKey, true, ["secret_key"])
      case None => []
      case Some(d) => [Assign("SECRET_KEY", Quoted(At(Some(d), "secret_key")))]
  }

  function ChecksumSection(spec: PulpSpec, custom: set<string>): seq<Line> {
    if "ALLOWED_CONTENT_CHECKSUMS" in custom || spec.allowedContentChecksums == [] then []
    else [Assign("ALLOWED_CONTENT_CHECKSUMS", Names(spec.allowedContentChecksums))]
  }

  const LDAP_PREFIX := "AUTH_LDAP_"

  /** The regular expression `(?i)^AUTH_LDAP_.*$`. */
  predicate IsLdapKey(k: string) { |k| >= 10 && ToUpper(k[..10]) == LDAP_PREFIX }

  const LDAP_UNQUOTED: set<string> :=
    {"AUTH_LDAP_CACHE_TIMEOUT", "AUTH_LDAP_GROUP_SEARCH", "AUTH_LDAP_USER_SEARCH", "AUTH_LDAP_GROUP_TYPE",
     "AUTH_LDAP_GLOBAL_OPTIONS", "AUTH_LDAP_CONNECTION_OPTIONS"}
  const LDAP_BOOLEAN: set<string> :=
    {"AUTH_LDAP_MIRROR_GROUPS", "AUTH_LDAP_ALWAYS_UPDATE_USER", "AUTH_LDAP_FIND_GROUP_PERMS", "AUTH_LDAP_START_TLS"}

  function Title(s: string): string { if s == "" then "" else [UpperChar(s[0])] + ToLower(s[1..]) }

  function LdapLine(k: string, v: string): Line {
    var u := ToUpper(k);
    Assign(u, if u in LDAP_UNQUOTED then Raw(v) else if u in LDAP_BOOLEAN then Raw(Title(v)) else Quoted(v))
  }

  function LdapLines(data: map<string, string>, keys: seq<string>): seq<Line>
    requires forall k :: k in keys ==> k in data
  {
    if keys == [] then []
    else
      var k := keys[|keys| - 1];
      LdapLines(data, keys[..|keys| - 1]) + (if IsLdapKey(k) then [LdapLine(k, data[k])] else [])
  }

  const LDAP_HEADER: seq<Line> :=
    [Comment("\n#### LDAP SETTINGS ####\nimport ldap\n"), Assign("AUTHENTICATION_BACKENDS", LdapBackends)]
  const LDAP_FOOTER: seq<Line> := [Comment("#### END OF LDAP SETTINGS ####\n\n")]

  ghost function LdapSection(spec: PulpSpec, cluster: Cluster): seq<Line> {
    if spec.ldapConfig == "" || cluster.Secret(spec.ldapConfig).None? then []
    else
      var data := cluster.SecretOrEmpty(spec.ldapConfig);
      LDAP_HEADER + LdapLines(data, SortedKeys(data.Keys)) + LDAP_FOOTER
  }

  // ---- the settings that also trigger a migration ----

  datatype Flag = RedirectToObjectStorage | HideGuardedDistributions
  {
    function Name(): string {
      match this
      case RedirectToObjectStorage => "REDIRECT_TO_OBJECT_STORAGE"
      case HideGuardedDistributions => "HIDE_GUARDED_DISTRIBUTIONS"
    }

    function In(spec: PulpSpec): bool {
      match this
      case RedirectToObjectStorage => spec.redirectToObjectStorage
      case HideGuardedDistributions => spec.hideGuardedDistributions
    }
  }

  /** An order in which Go may range over the two-entry flag map. */
  predicate IsOrder(order: seq<Flag>) {
    order == [RedirectToObjectStorage, HideGuardedDistributions] || order == [HideGuardedDistributions, RedirectToObjectStorage]
  }

  /** The loop returns at the first flag that is false and not overridden. */
  function FlagSection(spec: PulpSpec, custom: set<string>, order: seq<Flag>): seq<Line> {
    if order == [] then []
    else if order[0].Name() in custom then FlagSection(spec, custom, order[1..])
    else if !order[0].In(spec) then []
    else [Assign(order[0].Name(), Raw("True"))] + FlagSection(spec, custom, order[1..])
  }

  const HEADER: seq<Line> := [Comment("\n# This file is managed by Pulp operator.\n")]

  /** Everything up to the cache section. */
  ghost function RenderedHead(spec: PulpSpec, cluster: Cluster): seq<Line> {
    HEADER + CustomSection(spec, cluster) + DebugSection(spec)
    + DatabaseSection(spec, cluster, CustomNames(spec, cluster)) + CacheSection(spec, cluster)
  }

  ghost function RenderedStorage(spec: PulpSpec, cluster: Cluster): seq<Line> {
    RenderedHead(spec, cluster) + AzureSection(spec, cluster, CustomNames(spec, cluster))
    + GcsSection(spec, cluster, CustomNames(spec, cluster)) + S3Section(spec, cluster, CustomNames(spec, cluster))
    + SsoSection(spec, cluster)
  }

  /** The file without the flags that range over a Go map. */
  ghost function RenderedStable(spec: PulpSpec, cluster: Cluster): seq<Line> {
    RenderedStorage(spec, cluster) + TokenSection(spec, CustomNames(spec, cluster))
    + SecretKeySection(spec, cluster, CustomNames(spec, cluster))
    + ChecksumSection(spec, CustomNames(spec, cluster)) + LdapSection(spec, cluster)
  }

  /** The whole file. */
  ghost function Rendered(spec: PulpSpec, cluster: Cluster, order: seq<Flag>): seq<Line> {
    RenderedStable(spec, cluster) + FlagSection(spec, CustomNames(spec, cluster), order)
  }

  function UppersOf(keys: seq<string>): set<string> {
    if keys == [] then {} else UppersOf(keys[..|keys| - 1]) + {ToUpper(keys[|keys| - 1])}
  }

  lemma {:induction false} UppersOfIsUpperKeys(keys: seq<string>)
    ensures UppersOf(keys) == UpperKeys(set k | k in keys)
  {
    if keys != [] {
      UppersOfIsUpperKeys(keys[..|keys| - 1]);
      assert keys == keys[..|keys| - 1] + [keys[|keys| - 1]];
    }
  }

  lemma Associative<T>(a: seq<T>, b: seq<T>, c: seq<T>)
    ensures a + b + c == a + (b + c)
  {
  }

  lemma NextCustomLine(data: map<string, string>, keys: seq<string>, i: nat)
    requires i < |keys| && forall k :: k in keys ==> k in data
    ensures keys[i] in data
    ensures CustomLines(data, keys[..i + 1]) == CustomLines(data, keys[..i]) + [Assign(ToUpper(keys[i]), Raw(data[keys[i]]))]
    ensures UppersOf(keys[..i + 1]) == UppersOf(keys[..i]) + {ToUpper(keys[i])}
  {
    assert keys[..i + 1][..i] == keys[..i];
  }

  lemma NextPlainLine(data: map<string, Value>, keys: seq<string>, i: nat)
    requires i < |keys| && forall k :: k in keys ==> k in data
    ensures keys[i] in data
    ensures PlainLines(data, keys[..i + 1]) == PlainLines(data, keys[..i]) + [Assign(keys[i], data[keys[i]])]
  {
    assert keys[..i + 1][..i] == keys[..i];
  }

  lemma NextQuotedLine(data: map<string, string>, keys: seq<string>, i: nat)
    requires i < |keys| && forall k :: k in keys ==> k in data
    ensures keys[i] in data
    ensures QuotedUpperLines(data, keys[..i + 1]) == QuotedUpperLines(data, keys[..i]) + [Assign(ToUpper(keys[i]), Quoted(data[keys[i]]))]
  {
    assert keys[..i + 1][..i] == keys[..i];
  }

  lemma NextLdapLine(data: map<string, string>, keys: seq<string>, i: nat)
    requires i < |keys| && forall k :: k in keys ==> k in data
    ensures keys[i] in data
    ensures LdapLines(data, keys[..i + 1]) == LdapLines(data, keys[..i]) + (if IsLdapKey(keys[i]) then [LdapLine(keys[i], data[keys[i]])] else [])
  {
    assert keys[..i + 1][..i] == keys[..i];
  }

  lemma AllUppers(data: map<string, string>, keys: seq<string>)
    requires Lists(keys, data.Keys)
    ensures keys[..|keys|] == keys
    ensures UppersOf(keys) == UpperKeys(data.Keys)
  {
    assert keys[..|keys|] == keys;
    UppersOfIsUpperKeys(keys);
    assert data.Keys == set k | k in keys;
  }

  lemma RemoveOneMore(m: map<string, Value>, s: set<string>, x: string)
    ensures m - s - {x} == m - (s + {x})
  {
  }

  // ---- the appenders, as the source runs them ----

  /** The `*pulpSettings` every appender extends. */
  class SettingsBuilder {
    var lines: seq<Line>

    constructor ()
      ensures lines == HEADER
    {
      lines := HEADER;
    }

    /** Custom keys in sorted order, each removed from the defaults; then the
        defaults that are left. Returns the names the ConfigMap defines. */
    method AddCustomPulpSettings(spec: PulpSpec, cluster: Cluster) returns (custom: set<string>)
      modifies this
      ensures lines == old(lines) + CustomSection(spec, cluster)
      ensures custom == CustomNames(spec, cluster)
    {
      var defaults := DefaultPulpSettings(GetRootURL(spec));
      var data := CustomData(spec, cluster);
      custom, defaults := AddOverrides(data, defaults);
      AddPlainLines(defaults);
      Associative(old(lines), CustomLines(data, SortedKeys(data.Keys)), PlainLines(defaults, SortedKeys(defaults.Keys)));
    }

    method AddOverrides(data: map<string, string>, defaults: map<string, Value>)
      returns (custom: set<string>, rest: map<string, Value>)
      modifies this
      ensures lines == old(lines) + CustomLines(data, SortedKeys(data.Keys))
      ensures custom == UpperKeys(data.Keys)
      ensures rest == defaults - custom
    {
      custom, rest := {}, defaults;
      var keys := SortKeys(data);
      var section: seq<Line> := [];
      for i := 0 to |keys|
        invariant lines == old(lines)
        invariant section == CustomLines(data, keys[..i])
        invariant custom == UppersOf(keys[..i])
        invariant rest == defaults - custom
      {
        NextCustomLine(data, keys, i);
        var name := ToUpper(keys[i]);
        section := section + [Assign(name, Raw(data[keys[i]]))];
        RemoveOneMore(defaults, custom, name);
        custom := custom + {name};
        rest := rest - {name};
      }
      AllUppers(data, keys);
      lines := lines + section;
    }

    method AddPlainLines(data: map<string, Value>)
      modifies this
      ensures lines == old(lines) + PlainLines(data, SortedKeys(data.Keys))
    {
      var keys := SortKeys(data);
      var section: seq<Line> := [];
      for i := 0 to |keys|
        invariant lines == old(lines)
        invariant section == PlainLines(data, keys[..i])
      {
        NextPlainLine(data, keys, i);
        section := section + [Assign(keys[i], data[keys[i]])];
      }
      assert keys[..|keys|] == keys;
      lines := lines + section;
    }

    method AddQuotedUpperLines(data: map<string, string>)
      modifies this
      ensures lines == old(lines) + QuotedUpperLines(data, SortedKeys(data.Keys))
    {
      var keys := SortKeys(data);
      var section: seq<Line> := [];
      for i := 0 to |keys|
        invariant lines == old(lines)
        invariant section == QuotedUpperLines(data, keys[..i])
      {
        NextQuotedLine(data, keys, i);
        section := section + [Assign(ToUpper(keys[i]), Quoted(data[keys[i]]))];
      }
      assert keys[..|keys|] == keys;
      lines := lines + section;
    }

    method SsoConfig(spec: PulpSpec, cluster: Cluster)
      modifies this
      ensures lines == old(lines) + SsoSection(spec, cluster)
    {
      if |spec.ssoSecret| == 0 { return; }
      var required := RetrieveSecretData(cluster, spec.ssoSecret, true, SSO_REQUIRED);
      if required.None? { return; }
      var optional := RetrieveSecretData(cluster, spec.ssoSecret, false, SSO_OPTIONAL);
      if optional.None? { return; }
      AddQuotedUpperLines(required.value + optional.value);
    }

    method LdapSettings(spec: PulpSpec, cluster: Cluster)
      modifies this
      ensures lines == old(lines) + LdapSection(spec, cluster)
    {
      if |spec.ldapConfig| == 0 { return; }
      if cluster.Secret(spec.ldapConfig).None? { return; }
      var data := cluster.SecretOrEmpty(spec.ldapConfig);
      var section := LdapEntries(data);
      lines := lines + (LDAP_HEADER + section + LDAP_FOOTER);
    }

    method LdapEntries(data: map<string, string>) returns (section: seq<Line>)
      ensures section == LdapLines(data, SortedKeys(data.Keys))
    {
      var keys := SortKeys(data);
      section := [];
      for i := 0 to |keys|
        invariant section == LdapLines(data, keys[..i])
      {
        NextLdapLine(data, keys, i);
        if !IsLdapKey(keys[i]) { continue; }
        section := section + [LdapLine(keys[i], data[keys[i]])];
      }
      assert keys[..|keys|] == keys;
    }

    /** `order` is the order Go happens to range over the flag map. */
    method NeedsMigrationSetting(spec: PulpSpec, custom: set<string>, order: seq<Flag>)
      modifies this
      ensures lines == old(lines) + FlagSection(spec, custom, order)
    {
      for i := 0 to |order|
        invariant lines + FlagSection(spec, custom, order[i..]) == old(lines) + FlagSection(spec, custom, order)
      {
        assert order[i..][0] == order[i] && order[i..][1..] == order[i + 1..];
        if order[i].Name() in custom { continue; }
        if !order[i].In(spec) { return; }
        lines := lines + [Assign(order[i].Name(), Raw("True"))];
      }
    }

    method DebugSettings(spec: PulpSpec)
      modifies this
      ensures lines == old(lines) + DebugSection(spec)
    {
      if spec.enableDebugging { lines := lines + [Assign("LOGGING", DebugLogging)]; }
    }

    /** The connection of the managed database or of the user's own. */
    method DatabaseSettings(spec: PulpSpec, cluster: Cluster, custom: set<string>)
      modifies this
      ensures lines == old(lines) + DatabaseSection(spec, cluster, custom)
    {
      if "DATABASES" in custom { return; }
      var database: Value;
      if |spec.externalDBSecret| == 0 {
        var credentials := RetrieveSecretData(cluster, DefaultDBSecret(spec), true, MANAGED_DB_KEYS);
        if credentials.None? { return; }
        database := ManagedDatabase(spec.name + "-database-svc", credentials.value);
      } else {
        var credentials := RetrieveSecretData(cluster, spec.externalDBSecret, true, EXTERNAL_DB_KEYS);
        if credentials.None? { return; }
        database := ExternalDatabase(credentials.value);
      }
      lines := lines + [Assign("DATABASES", database)];
    }

    method CacheSettings(spec: PulpSpec, cluster: Cluster)
      modifies this
      ensures lines == old(lines) + CacheSection(spec, cluster)
    {
      if !spec.cacheEnabled { return; }
      var port := 6379;
      if spec.redisPort != 0 { port := spec.redisPort; }
      var cacheHost, cachePort, cachePassword, cacheDB := spec.name + "-redis-svc." + spec.namespace, Decimal(port), "", "";
      if |spec.externalCacheSecret| > 0 {
        var config := RetrieveSecretData(cluster, spec.externalCacheSecret, true, CACHE_KEYS);
        cacheHost := At(config, "REDIS_HOST");
        cachePort := At(config, "REDIS_PORT");
        cachePassword := At(config, "REDIS_PASSWORD");
        cacheDB := At(config, "REDIS_DB");
      }
      lines := lines + [Assign("CACHE_ENABLED", Raw("True")), Assign("REDIS_HOST", Quoted(cacheHost)), Assign("REDIS_PORT", Quoted(cachePort)),
                        Assign("REDIS_PASSWORD", Quoted(cachePassword)), Assign("REDIS_DB", Quoted(cacheDB))];
    }

    method AzureSettings(spec: PulpSpec, cluster: Cluster, custom: set<string>)
      modifies this
      ensures lines == old(lines) + AzureSection(spec, cluster, custom)
    {
      if "STORAGES" in custom || !StorageIs(spec, AZURE) { return; }
      var storage := RetrieveSecretData(cluster, spec.azureSecret, true, AZURE_KEYS);
      if storage.None? { return; }
      lines := lines + StorageLines(AzureStorage, AzureOptions(storage));
    }

    /** The bucket is required; an empty optional key is left out. */
    method GcsSettings(spec: PulpSpec, cluster: Cluster, custom: set<string>)
      modifies this
      ensures lines == old(lines) + GcsSection(spec, cluster, custom)
    {
      if "STORAGES" in custom || !StorageIs(spec, GCS) { return; }
      var storage := RetrieveSecretData(cluster, spec.gcsSecret, true, ["gcs-bucket-name"]);
      if storage.None? { return; }
      var optional := RetrieveSecretData(cluster, spec.gcsSecret, false, GCS_OPTIONAL);
      var options := GcsEntries(storage, optional);
      lines := lines + StorageLines(GoogleCloudStorage, options);
    }

    method GcsEntries(storage: Option<map<string, string>>, optional: Option<map<string, string>>) returns (options: seq<(string, string)>)
      ensures options == GcsOptions(storage, optional)
    {
      options := [("bucket_name", At(storage, "gcs-bucket-name"))];
      if |At(optional, "gcs-iam-sign-blob")| > 0 { options := options + [("iam_sign_blob", At(optional, "gcs-iam-sign-blob"))]; }
      if |At(optional, "gcs-querystring-auth")| > 0 { options := options + [("querystring_auth", At(optional, "gcs-querystring-auth"))]; }
      if |At(optional, "gcs-file-overwrite")| > 0 { options := options + [("file_overwrite", At(optional, "gcs-file-overwrite"))]; }
    }

    /** The bucket is required, and one of endpoint and region. */
    method S3Settings(spec: PulpSpec, cluster: Cluster, custom: set<string>)
      modifies this
      ensures lines == old(lines) + S3Section(spec, cluster, custom)
    {
      if "STORAGES" in custom || !StorageIs(spec, S3) { return; }
      var storage := RetrieveSecretData(cluster, spec.s3Secret, true, ["s3-bucket-name"]);
      if storage.None? { return; }
      var optional := RetrieveSecretData(cluster, spec.s3Secret, false, S3_OPTIONAL);
      if |At(optional, "s3-endpoint")| == 0 && |At(optional, "s3-region")| == 0 { return; }
      var options := S3Entries(storage, optional);
      lines := lines + StorageLines(S3Boto3Storage, options);
    }

    method S3Entries(storage: Option<map<string, string>>, optional: Option<map<string, string>>) returns (options: seq<(string, string)>)
      ensures options == S3Options(storage, optional)
    {
      options := [("addressing_style", AddressingStyle(optional)), ("bucket_name", At(storage, "s3-bucket-name"))];
      if |At(optional, "s3-secret-access-key")| > 0 { options := options + [("secret_key", At(optional, "s3-secret-access-key"))]; }
      if |At(optional, "s3-access-key-id")| > 0 { options := options + [("access_key", At(optional, "s3-access-key-id"))]; }
      if |At(optional, "s3-endpoint")| > 0 { options := options + [("endpoint_url", At(optional, "s3-endpoint"))]; }
      if |At(optional, "s3-region")| > 0 { options := options + [("region_name", At(optional, "s3-region"))]; }
    }

    method TokenSettings(spec: PulpSpec, custom: set<string>)
      modifies this
      ensures lines == old(lines) + TokenSection(spec, custom)
    {
      if "TOKEN_SERVER" in custom { return; }
      var server := "http://" + spec.name + "-api-svc." + spec.namespace + ".svc.cluster.local:24817/token/";
      if IsRoute(spec) {
        server := GetRootURL(spec) + "/token/";
      } else if IsIngress(spec) {
        var proto := "http";
        if |spec.ingressTLSSecret| > 0 { proto := "https"; }
        server := proto + "://" + spec.ingressHost + "/token/";
      }
      lines := lines + [Assign("TOKEN_SERVER", Quoted(server))];
    }

    method SecretKeySettings(spec: PulpSpec, cluster: Cluster, custom: set<string>)
      modifies this
      ensures lines == old(lines) + SecretKeySection(spec, cluster, custom)
    {
      if "SECRET_KEY" in custom { return; }
      var key := RetrieveSecretData(cluster, spec.pulpSecretKey, true, ["secret_key"]);
      if key.None? { return; }
      lines := lines + [Assign("SECRET_KEY", Quoted(At(key, "secret_key")))];
    }

    method AllowedContentChecksumsSettings(spec: PulpSpec, custom: set<string>)
      modifies this
      ensures lines == old(lines) + ChecksumSection(spec, custom)
    {
      if "ALLOWED_CONTENT_CHECKSUMS" in custom { return; }
      if |spec.allowedContentChecksums| == 0 { return; }
      lines := lines + [Assign("ALLOWED_CONTENT_CHECKSUMS", Names(spec.allowedContentChecksums))];
    }

    /** `pulpServerSecret`. */
    method PulpServerSecret(spec: PulpSpec, cluster: Cluster, order: seq<Flag>)
      requires lines == HEADER
      modifies this
      ensures lines == Rendered(spec, cluster, order)
    {
      var custom := AddCustomPulpSettings(spec, cluster);
      DebugSettings(spec);
      DatabaseSettings(spec, cluster, custom);
      CacheSettings(spec, cluster);
      AzureSettings(spec, cluster, custom);
      GcsSettings(spec, cluster, custom);
      S3Settings(spec, cluster, custom);
      SsoConfig(spec, cluster);
      TokenSettings(spec, custom);
      SecretKeySettings(spec, cluster, custom);
      AllowedContentChecksumsSettings(spec, custom);
      LdapSettings(spec, cluster);
      NeedsMigrationSetting(spec, custom, order);
    }
  }
}
