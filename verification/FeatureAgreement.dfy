/** Parts of the operator that describe the same thing in different places agree:
    the environment of the pods and settings.py, the paths in settings.py and the
    mounts of the pods, the backup of a Secret and what the renderer reads of it. */
module FeatureAgreement {
  import opened Text
  import opened Pulp
  import opened Settings
  import opened SettingsLaws
  import opened SettingsValues
  import A = SettingsAgreement
  import CV = CustomValues
  import E = EnvVars
  import T = PodTemplate
  import B = SecretBackup

  // ---- environment and settings ----

  /** What a container gets for a variable: the last entry of that name. */
  function ValueOf(n: string, vars: seq<EnvVar>): Option<EnvValue> {
    if vars == [] then None
    else if vars[|vars| - 1].name == n then Some(vars[|vars| - 1].value)
    else ValueOf(n, vars[..|vars| - 1])
  }

  /** The text behind an entry. */
  function Resolved(cluster: Cluster, v: EnvValue): string {
    match v case Literal(t) => t case FromSecret(s, k) => Key(cluster.SecretOrEmpty(s), k)
  }

  function TextOf(cluster: Cluster, v: Option<EnvValue>): Option<string> {
    match v case None => None case Some(x) => Some(Resolved(cluster, x))
  }

  lemma {:induction false} ValueConcat(n: string, a: seq<EnvVar>, b: seq<EnvVar>)
    ensures ValueOf(n, a + b) == if ValueOf(n, b).Some? then ValueOf(n, b) else ValueOf(n, a)
  {
    if b == [] {
      assert a + b == a;
    } else {
      var k := |b| - 1;
      assert (a + b)[..|a + b| - 1] == a + b[..k] && (a + b)[|a + b| - 1] == b[k];
      ValueConcat(n, a, b[..k]);
    }
  }

  lemma {:induction false} ValueAbsent(n: string, vars: seq<EnvVar>)
    requires forall i :: 0 <= i < |vars| ==> vars[i].name != n
    ensures ValueOf(n, vars) == None
  {
    if vars != [] { ValueAbsent(n, vars[..|vars| - 1]); }
  }

  lemma {:induction false} ValueAt(n: string, vars: seq<EnvVar>, i: nat)
    requires i < |vars| && vars[i].name == n && forall j :: i < j < |vars| ==> vars[j].name != n
    ensures ValueOf(n, vars) == Some(vars[i].value)
  {
    if i < |vars| - 1 { ValueAt(n, vars[..|vars| - 1], i); }
  }

  lemma PlacedElsewhere(n: string, vars: seq<EnvVar>, low: nat, high: nat)
    requires E.InOrder(vars, low, high) && !(low < E.Place(n) <= high)
    ensures ValueOf(n, vars) == None
  {
    ValueAbsent(n, vars);
  }

  /** The section that writes a managed name. */
  ghost function SectionOf(spec: PulpSpec, c: Component, fingerprint: string, n: string): seq<EnvVar> {
    if E.Place(n) <= 4 then E.GunicornVars(spec, c)
    else if E.Place(n) <= 6 then E.PostgresVars(spec)
    else if E.Place(n) <= 10 then E.RedisVars(spec)
    else E.SigningVars(spec, fingerprint)
  }

  /** A managed name has in the container the value its own section gives it. */
  lemma ManagedValue(spec: PulpSpec, c: Component, fingerprint: string, n: string)
    requires n in E.MANAGED
    ensures ValueOf(n, E.ContainerEnv(spec, c, fingerprint)) == ValueOf(n, SectionOf(spec, c, fingerprint, n))
  {
    var kept := E.Kept(E.ComponentOf(spec, c).envVars);
    var g, p, r := E.GunicornVars(spec, c), E.PostgresVars(spec), E.RedisVars(spec);
    var s, t := E.SigningVars(spec, fingerprint), E.TelemetryVars(spec, c);
    E.ManagedPlaces(n);
    E.GunicornInOrder(spec, c);
    E.ServicesInOrder(spec);
    E.OthersInOrder(spec, c, fingerprint);
    if E.Place(n) > 4 { PlacedElsewhere(n, g, 0, 4); }
    if !(4 < E.Place(n) <= 6) { PlacedElsewhere(n, p, 4, 6); }
    if !(6 < E.Place(n) <= 10) { PlacedElsewhere(n, r, 6, 10); }
    if E.Place(n) <= 10 { PlacedElsewhere(n, s, 10, 12); }
    PlacedElsewhere(n, t, 12, 15);
    ValueAbsent(n, kept);
    SixValues(n, kept, g, p, r, s, t);
  }

  lemma SixValues(n: string, k: seq<EnvVar>, g: seq<EnvVar>, p: seq<EnvVar>, r: seq<EnvVar>, s: seq<EnvVar>, t: seq<EnvVar>)
    requires ValueOf(n, k) == None && ValueOf(n, t) == None
    ensures ValueOf(n, k + (g + p + r + s + t))
            == if ValueOf(n, s).Some? then ValueOf(n, s) else if ValueOf(n, r).Some? then ValueOf(n, r)
               else if ValueOf(n, p).Some? then ValueOf(n, p) else ValueOf(n, g)
  {
    ValueConcat(n, g, p);
    ValueConcat(n, g + p, r);
    ValueConcat(n, g + p + r, s);
    ValueConcat(n, g + p + r + s, t);
    ValueConcat(n, k, g + p + r + s + t);
  }

  lemma ServiceNames()
    ensures E.Place("POSTGRES_SERVICE_HOST") == 5 && E.Place("POSTGRES_SERVICE_PORT") == 6
    ensures E.Place("REDIS_SERVICE_HOST") == 7 && E.Place("REDIS_SERVICE_PORT") == 8 && E.Place("REDIS_SERVICE_DB") == 9
    ensures E.Place("REDIS_SERVICE_PASSWORD") == 10
  {
  }

  lemma TwoValues(a: EnvVar, b: EnvVar)
    requires a.name != b.name
    ensures ValueOf(a.name, [a, b]) == Some(a.value) && ValueOf(b.name, [a, b]) == Some(b.value)
  {
    ValueAt(a.name, [a, b], 0);
    ValueAt(b.name, [a, b], 1);
  }

  lemma FourValues(a: EnvVar, b: EnvVar, c: EnvVar, d: EnvVar)
    requires E.Place(a.name) < E.Place(b.name) < E.Place(c.name) < E.Place(d.name)
    ensures var vs := [a, b, c, d];
      && ValueOf(a.name, vs) == Some(a.value) && ValueOf(b.name, vs) == Some(b.value)
      && ValueOf(c.name, vs) == Some(c.value) && ValueOf(d.name, vs) == Some(d.value)
  {
    var vs := [a, b, c, d];
    ValueAt(a.name, vs, 0);
    ValueAt(b.name, vs, 1);
    ValueAt(c.name, vs, 2);
    ValueAt(d.name, vs, 3);
  }

  lemma PostgresValues(spec: PulpSpec)
    ensures ValueOf("POSTGRES_SERVICE_HOST", E.PostgresVars(spec))
            == Some(if spec.externalDBSecret == "" then Literal(spec.name + "-database-svc") else FromSecret(spec.externalDBSecret, "POSTGRES_HOST"))
    ensures ValueOf("POSTGRES_SERVICE_PORT", E.PostgresVars(spec))
            == Some(if spec.externalDBSecret != "" then FromSecret(spec.externalDBSecret, "POSTGRES_PORT")
                    else Literal(if spec.postgresPort == 0 then "5432" else Decimal(spec.postgresPort)))
  {
    ServiceNames();
    TwoValues(E.PostgresVars(spec)[0], E.PostgresVars(spec)[1]);
  }

  lemma RedisValues(spec: PulpSpec)
    requires spec.cacheEnabled
    ensures ValueOf("REDIS_SERVICE_HOST", E.RedisVars(spec))
            == Some(if spec.externalCacheSecret == "" then Literal(spec.name + "-redis-svc." + spec.namespace)
                    else FromSecret(spec.externalCacheSecret, "REDIS_HOST"))
    ensures ValueOf("REDIS_SERVICE_PORT", E.RedisVars(spec))
            == Some(if spec.externalCacheSecret != "" then FromSecret(spec.externalCacheSecret, "REDIS_PORT")
                    else Literal(if spec.redisPort == 0 then "6379" else Decimal(spec.redisPort)))
    ensures spec.externalCacheSecret != "" ==>
              && ValueOf("REDIS_SERVICE_DB", E.RedisVars(spec)) == Some(FromSecret(spec.externalCacheSecret, "REDIS_DB"))
              && ValueOf("REDIS_SERVICE_PASSWORD", E.RedisVars(spec)) == Some(FromSecret(spec.externalCacheSecret, "REDIS_PASSWORD"))
  {
    var r := E.RedisVars(spec);
    ServiceNames();
    if spec.externalCacheSecret == "" { TwoValues(r[0], r[1]); } else { FourValues(r[0], r[1], r[2], r[3]); }
  }

  /** What a container is told about the database. */
  lemma DatabaseEnvironment(spec: PulpSpec, cluster: Cluster, c: Component, fingerprint: string)
    ensures var env, data, external := E.ContainerEnv(spec, c, fingerprint), cluster.SecretOrEmpty(spec.externalDBSecret), spec.externalDBSecret != "";
      && TextOf(cluster, ValueOf("POSTGRES_SERVICE_HOST", env)) == Some(if external then Key(data, "POSTGRES_HOST") else spec.name + "-database-svc")
      && TextOf(cluster, ValueOf("POSTGRES_SERVICE_PORT", env))
         == Some(if external then Key(data, "POSTGRES_PORT") else if spec.postgresPort == 0 then "5432" else Decimal(spec.postgresPort))
  {
    ServiceNames();
    PostgresValues(spec);
    ManagedValue(spec, c, fingerprint, "POSTGRES_SERVICE_HOST");
    ManagedValue(spec, c, fingerprint, "POSTGRES_SERVICE_PORT");
  }

  /** Every container is told the same database host as settings.py, whether it
      is the operator's own or the user's. */
  lemma DatabaseHostAgrees(spec: PulpSpec, cluster: Cluster, order: seq<Flag>, c: Component, fingerprint: string)
    requires "DATABASES" !in CustomNames(spec, cluster) && Last("DATABASES", Rendered(spec, cluster, order)).Some?
    ensures var v := Last("DATABASES", Rendered(spec, cluster, order)).value;
      && v.DatabaseDict?
      && TextOf(cluster, ValueOf("POSTGRES_SERVICE_HOST", E.ContainerEnv(spec, c, fingerprint))) == Some(v.host)
      && (spec.externalDBSecret != "" ==>
            TextOf(cluster, ValueOf("POSTGRES_SERVICE_PORT", E.ContainerEnv(spec, c, fingerprint))) == Some(v.port))
  {
    DatabaseEnvironment(spec, cluster, c, fingerprint);
    if spec.externalDBSecret == "" {
      A.ManagedDatabaseReachesPulp(spec, cluster, order);
    } else {
      A.ExternalDatabaseReachesPulp(spec, cluster, order);
    }
  }

  /** The text of a quoted setting. */
  function FileText(v: Option<Value>): Option<string> {
    if v.Some? && v.value.Quoted? then Some(v.value.text) else None
  }

  /** What a container is told about the cache, under the operator's own service
      or an external one. */
  lemma CacheEnvironment(spec: PulpSpec, cluster: Cluster, c: Component, fingerprint: string)
    requires spec.cacheEnabled
    ensures var env, data, external := E.ContainerEnv(spec, c, fingerprint), cluster.SecretOrEmpty(spec.externalCacheSecret), spec.externalCacheSecret != "";
      && TextOf(cluster, ValueOf("REDIS_SERVICE_HOST", env))
         == Some(if external then Key(data, "REDIS_HOST") else spec.name + "-redis-svc." + spec.namespace)
      && TextOf(cluster, ValueOf("REDIS_SERVICE_PORT", env))
         == Some(if external then Key(data, "REDIS_PORT") else if spec.redisPort == 0 then "6379" else Decimal(spec.redisPort))
      && (external ==> TextOf(cluster, ValueOf("REDIS_SERVICE_DB", env)) == Some(Key(data, "REDIS_DB")))
      && (external ==> TextOf(cluster, ValueOf("REDIS_SERVICE_PASSWORD", env)) == Some(Key(data, "REDIS_PASSWORD")))
  {
    ServiceNames();
    RedisValues(spec);
    RedisManaged();
    ManagedValue(spec, c, fingerprint, "REDIS_SERVICE_HOST");
    ManagedValue(spec, c, fingerprint, "REDIS_SERVICE_PORT");
    ManagedValue(spec, c, fingerprint, "REDIS_SERVICE_DB");
    ManagedValue(spec, c, fingerprint, "REDIS_SERVICE_PASSWORD");
  }

  lemma RedisManaged()
    ensures "REDIS_SERVICE_HOST" in E.MANAGED && "REDIS_SERVICE_PORT" in E.MANAGED
    ensures "REDIS_SERVICE_DB" in E.MANAGED && "REDIS_SERVICE_PASSWORD" in E.MANAGED
  {
  }

  /** The same for the cache: with the operator's own, or with an external one
      whose Secret is complete, environment and settings.py name the same. */
  lemma CacheAgrees(spec: PulpSpec, cluster: Cluster, order: seq<Flag>, c: Component, fingerprint: string)
    requires spec.cacheEnabled
    requires spec.externalCacheSecret != "" ==> forall k :: k in CACHE_KEYS ==> k in cluster.SecretOrEmpty(spec.externalCacheSecret)
    ensures var file, env := Rendered(spec, cluster, order), E.ContainerEnv(spec, c, fingerprint);
      && FileText(Last("REDIS_HOST", file)).Some? && FileText(Last("REDIS_PORT", file)).Some?
      && TextOf(cluster, ValueOf("REDIS_SERVICE_HOST", env)) == FileText(Last("REDIS_HOST", file))
      && TextOf(cluster, ValueOf("REDIS_SERVICE_PORT", env)) == FileText(Last("REDIS_PORT", file))
      && (spec.externalCacheSecret != "" ==>
            && TextOf(cluster, ValueOf("REDIS_SERVICE_DB", env)) == FileText(Last("REDIS_DB", file))
            && TextOf(cluster, ValueOf("REDIS_SERVICE_PASSWORD", env)) == FileText(Last("REDIS_PASSWORD", file)))
  {
    CacheEnvironment(spec, cluster, c, fingerprint);
    CacheReachesPulp(spec, cluster, order);
    DefaultPort();
  }

  lemma DefaultPort()
    ensures Decimal(6379) == "6379"
  {
    assert Decimal(6) == "6" && Decimal(63) == "6" + "3" && Decimal(637) == "6" + "3" + "7";
  }

  /** Timeout and number of the gunicorn workers, for the component they are
      set on, and the fingerprint of the signing key, which is there exactly when
      signing is on. */
  lemma WorkersReachGunicorn(spec: PulpSpec, cluster: Cluster, c: Component, fingerprint: string)
    requires c == Api || c == Content
    ensures var env, f := E.ContainerEnv(spec, c, fingerprint), if c == Api then spec.api else spec.content;
      && TextOf(cluster, ValueOf("PULP_GUNICORN_TIMEOUT", env)) == Some(if f.gunicornTimeout == 0 then "90" else Decimal(f.gunicornTimeout))
      && TextOf(cluster, ValueOf(if c == Api then "PULP_API_WORKERS" else "PULP_CONTENT_WORKERS", env))
         == Some(if f.gunicornWorkers == 0 then "2" else Decimal(f.gunicornWorkers))
      && ValueOf("PULP_SIGNING_KEY_FINGERPRINT", env) == if spec.signingSecret == "" then None else Some(Literal(fingerprint))
  {
    var g, s := E.GunicornVars(spec, c), E.SigningVars(spec, fingerprint);
    GunicornPlaces();
    ManagedValue(spec, c, fingerprint, "PULP_GUNICORN_TIMEOUT");
    ManagedValue(spec, c, fingerprint, if c == Api then "PULP_API_WORKERS" else "PULP_CONTENT_WORKERS");
    ManagedValue(spec, c, fingerprint, "PULP_SIGNING_KEY_FINGERPRINT");
    E.GunicornInOrder(spec, c);
    E.OthersInOrder(spec, c, fingerprint);
    ValueAt(g[0].name, g, 0);
    ValueAt(g[1].name, g, 1);
    if spec.signingSecret != "" { ValueAt(s[0].name, s, 0); }
  }

  lemma GunicornPlaces()
    ensures E.Place("PULP_GUNICORN_TIMEOUT") == 1 && E.Place("PULP_API_WORKERS") == 2 && E.Place("PULP_CONTENT_WORKERS") == 3
    ensures E.Place("PULP_SIGNING_KEY_FINGERPRINT") == 11
    ensures "PULP_GUNICORN_TIMEOUT" in E.MANAGED && "PULP_API_WORKERS" in E.MANAGED && "PULP_CONTENT_WORKERS" in E.MANAGED
    ensures "PULP_SIGNING_KEY_FINGERPRINT" in E.MANAGED
  {
  }

  // ---- paths and mounts ----

  /** The encryption key is mounted in every pulpcore pod under the path that
      settings.py gives Pulp. */
  lemma EncryptionKeyIsMounted(spec: PulpSpec, cluster: Cluster, order: seq<Flag>, c: Component)
    requires |GetStorageType(spec)| > 0 && "DB_ENCRYPTION_KEY" !in CustomNames(spec, cluster)
    ensures exists path :: Last("DB_ENCRYPTION_KEY", Rendered(spec, cluster, order)) == Some(Quoted(path))
                           && T.Mount(T.FieldsVolume(spec), path, T.FIELDS_KEY) in T.VolumeMounts(spec, cluster, c)
  {
    NotOverridden(spec, cluster, order, "DB_ENCRYPTION_KEY");
    EncryptionDefault(spec);
    MountsIn(spec, cluster, c);
  }

  /** The token keys are mounted in the API's pods under the paths that
      settings.py gives Pulp, each under its own. */
  lemma TokenKeysAreMounted(spec: PulpSpec, cluster: Cluster, order: seq<Flag>)
    requires |GetStorageType(spec)| > 0 && spec.containerTokenSecret != ""
    ensures "PRIVATE_KEY_PATH" !in CustomNames(spec, cluster) ==>
              exists path :: Last("PRIVATE_KEY_PATH", Rendered(spec, cluster, order)) == Some(Quoted(path))
                             && T.Mount(T.CertsVolume(spec), path, T.PRIVATE_KEY) in T.VolumeMounts(spec, cluster, Api)
    ensures "PUBLIC_KEY_PATH" !in CustomNames(spec, cluster) ==>
              exists path :: Last("PUBLIC_KEY_PATH", Rendered(spec, cluster, order)) == Some(Quoted(path))
                             && T.Mount(T.CertsVolume(spec), path, T.PUBLIC_KEY) in T.VolumeMounts(spec, cluster, Api)
  {
    MountsIn(spec, cluster, Api);
    if "PRIVATE_KEY_PATH" !in CustomNames(spec, cluster) {
      NotOverridden(spec, cluster, order, "PRIVATE_KEY_PATH");
      PrivateDefault(spec);
    }
    if "PUBLIC_KEY_PATH" !in CustomNames(spec, cluster) {
      NotOverridden(spec, cluster, order, "PUBLIC_KEY_PATH");
      PublicDefault(spec);
    }
  }

  lemma InParts(m: T.Mount, b: seq<T.Mount>, w: seq<T.Mount>, a: seq<T.Mount>, st: seq<T.Mount>, s: seq<T.Mount>, k: seq<T.Mount>, ca: seq<T.Mount>,
                l: seq<T.Mount>)
    requires m in b || m in k
    ensures m in b + w + a + st + s + k + ca + l
  {
  }

  lemma MountsIn(spec: PulpSpec, cluster: Cluster, c: Component)
    requires |GetStorageType(spec)| > 0
    ensures var ms, d := T.VolumeMounts(spec, cluster, c), "/etc/pulp/keys/";
      && T.Mount(T.FieldsVolume(spec), d + T.FIELDS_KEY, T.FIELDS_KEY) in ms
      && (c == Api && spec.containerTokenSecret != "" ==>
            T.Mount(T.CertsVolume(spec), d + T.PRIVATE_KEY, T.PRIVATE_KEY) in ms && T.Mount(T.CertsVolume(spec), d + T.PUBLIC_KEY, T.PUBLIC_KEY) in ms)
  {
    var b, k := T.BaseMounts(spec), T.CertsMounts(spec, c);
    var w, a, st, s := T.WorkerMounts(spec, c), T.AdminMounts(spec, c), T.StorageMounts(spec), T.SigningMounts(spec, T.SetVolumesResult(spec, cluster, c));
    var ca, l := T.CaMounts(spec), T.LdapMounts(spec, cluster);
    InParts(b[1], b, w, a, st, s, k, ca, l);
    if c == Api && spec.containerTokenSecret != "" {
      InParts(k[0], b, w, a, st, s, k, ca, l);
      InParts(k[1], b, w, a, st, s, k, ca, l);
    }
  }

  lemma EncryptionDefault(spec: PulpSpec)
    ensures DefaultPulpSettings(GetRootURL(spec))["DB_ENCRYPTION_KEY"] == Quoted("/etc/pulp/keys/" + T.FIELDS_KEY)
  {
    EncryptionPath();
  }

  lemma EncryptionPath()
    ensures "/etc/pulp/keys/" + T.FIELDS_KEY == "/etc/pulp/keys/database_fields.symmetric.key"
  {
  }

  lemma PrivateDefault(spec: PulpSpec)
    ensures DefaultPulpSettings(GetRootURL(spec))["PRIVATE_KEY_PATH"] == Quoted("/etc/pulp/keys/" + T.PRIVATE_KEY)
  {
    PrivatePath();
  }

  lemma PrivatePath()
    ensures "/etc/pulp/keys/" + T.PRIVATE_KEY == "/etc/pulp/keys/container_auth_private_key.pem"
  {
  }

  lemma PublicDefault(spec: PulpSpec)
    ensures DefaultPulpSettings(GetRootURL(spec))["PUBLIC_KEY_PATH"] == Quoted("/etc/pulp/keys/" + T.PUBLIC_KEY)
  {
    PublicPath();
  }

  lemma PublicPath()
    ensures "/etc/pulp/keys/" + T.PUBLIC_KEY == "/etc/pulp/keys/container_auth_public_key.pem"
  {
  }

  const CA_FILE := "auth_ldap_ca_file"

  lemma CaFileIsQuoted()
    ensures IsLdapKey(CA_FILE) && |ToUpper(CA_FILE)| == 17
  {
    assert CA_FILE[..10] == "auth_ldap_";
    LowerLdap();
  }

  lemma LowerLdap()
    ensures ToUpper("auth_ldap_") == LDAP_PREFIX
  {
  }

  lemma QuotedByLength(n: string)
    requires |n| == 17
    ensures n !in LDAP_UNQUOTED && n !in LDAP_BOOLEAN
  {
  }

  lemma SameKindOfKey(k: string, j: string)
    requires ToUpper(k) == ToUpper(j) && IsLdapKey(j)
    ensures IsLdapKey(k)
  {
    assert |k| == |ToUpper(k)| == |ToUpper(j)| == |j|;
    assert ToUpper(k[..10]) == ToUpper(k)[..10] == ToUpper(j)[..10] == ToUpper(j[..10]);
  }

  /** Pulp is told where the LDAP server's CA is under any spelling of the key;
      it is mounted there exactly when the key is written in lower case, or
      names no place at all. */
  lemma LdapCaIsMounted(spec: PulpSpec, cluster: Cluster, order: seq<Flag>, k: string)
    requires CV.ReadsLdap(spec, cluster) && spec.ldapCA != "" && k in cluster.SecretOrEmpty(spec.ldapConfig) && ToUpper(k) == ToUpper(CA_FILE)
    requires forall j :: j in cluster.SecretOrEmpty(spec.ldapConfig) && ToUpper(j) == ToUpper(k) ==> j == k
    ensures var place := cluster.SecretOrEmpty(spec.ldapConfig)[k];
      && Last(ToUpper(CA_FILE), Rendered(spec, cluster, order)) == Some(Quoted(place))
      && (T.LdapMounts(spec, cluster) == [T.Mount(T.LDAP_CERT, place, "ca.crt")] <==> k == CA_FILE || place == "")
  {
    CaFileIsQuoted();
    SameKindOfKey(k, CA_FILE);
    QuotedByLength(ToUpper(k));
    LdapReachesPulp(spec, cluster, order, k);
    CaMountPlace(spec, cluster, k);
  }

  lemma CaMountPlace(spec: PulpSpec, cluster: Cluster, k: string)
    requires spec.ldapCA != "" && k in cluster.SecretOrEmpty(spec.ldapConfig) && ToUpper(k) == ToUpper(CA_FILE)
    requires forall j :: j in cluster.SecretOrEmpty(spec.ldapConfig) && ToUpper(j) == ToUpper(k) ==> j == k
    ensures var place := cluster.SecretOrEmpty(spec.ldapConfig)[k];
      T.LdapMounts(spec, cluster) == [T.Mount(T.LDAP_CERT, place, "ca.crt")] <==> k == CA_FILE || place == ""
  {
    var place, ms := cluster.SecretOrEmpty(spec.ldapConfig)[k], T.LdapMounts(spec, cluster);
    assert CA_FILE in cluster.SecretOrEmpty(spec.ldapConfig) <==> k == CA_FILE;
    assert ms == [ms[0]] && ms[0].path == if k == CA_FILE then place else "";
  }

  // ---- backup and rendering ----

  lemma CarriedKey(kind: B.Kind, data: B.Data, k: string)
    requires !B.Whole(kind) && k in B.Keys(kind)
    ensures Key(B.Carried(kind, data), k) == Key(data, k)
  {
  }

  /** What the pods mount of the generated Secrets and of the signing key, and
      what settings.py takes from the database's, comes through a backup and a
      restore. */
  lemma MountedFilesSurvive(data: B.Data, k: string)
    ensures Key(B.Carried(B.FieldsEncryption, data), T.FIELDS_KEY) == Key(data, T.FIELDS_KEY)
    ensures Key(B.Carried(B.AdminPassword, data), "password") == Key(data, "password")
    ensures Key(B.Carried(B.SigningKey, data), T.SIGNING_KEY) == Key(data, T.SIGNING_KEY)
    ensures Key(B.Carried(B.ContainerToken, data), T.PUBLIC_KEY) == Key(data, T.PUBLIC_KEY)
    ensures Key(B.Carried(B.ContainerToken, data), T.PRIVATE_KEY) == Key(data, T.PRIVATE_KEY)
    ensures k in MANAGED_DB_KEYS ==> Key(B.Carried(B.Postgres, data), k) == Key(data, k)
    ensures B.Carried(B.SecretKey, data) == data && B.Carried(B.SigningScripts, data) == data
    ensures B.Carried(B.LdapConfig, data) == data && B.Carried(B.LdapCa, data) == data
  {
    var f, a, g, t := B.Keys(B.FieldsEncryption), B.Keys(B.AdminPassword), B.Keys(B.SigningKey), B.Keys(B.ContainerToken);
    assert f[0] in f && a[0] in a && g[0] in g && t[0] in t && t[1] in t;
    if k in MANAGED_DB_KEYS { DatabaseKeysCarried(k); }
  }

  lemma DatabaseKeysCarried(k: string)
    requires k in MANAGED_DB_KEYS
    ensures k in B.POSTGRES_KEYS
  {
    var m, p := MANAGED_DB_KEYS, B.POSTGRES_KEYS;
    assert p[0] in p && p[2] in p && p[3] in p && p[4] in p && p[6] in p;
    assert m == [p[6], p[2], p[0], p[3], p[4]];
  }

  lemma StorageKeysCarried()
    ensures forall k :: k in ["s3-access-key-id", "s3-bucket-name", "s3-region", "s3-endpoint", "s3-secret-access-key"] ==> k in B.STORAGE_KEYS
    ensures forall k :: k in AZURE_KEYS || k in GCS_OPTIONAL || k == "gcs-bucket-name" ==> k in B.STORAGE_KEYS
  {
    var m, a, g := B.STORAGE_KEYS, AZURE_KEYS, GCS_OPTIONAL;
    assert m[0] in m && m[1] in m && m[2] in m && m[3] in m && m[4] in m && m[5] in m && m[6] in m && m[7] in m && m[8] in m && m[9] in m
        && m[10] in m && m[11] in m && m[12] in m && m[13] in m;
  }

  lemma StorageKeysRead(data: B.Data)
    ensures var r := B.Carried(B.ObjectStorage, data);
      && (forall k :: k in ["s3-access-key-id", "s3-bucket-name", "s3-region", "s3-endpoint", "s3-secret-access-key"] ==> Key(r, k) == Key(data, k))
      && (forall k :: k in AZURE_KEYS || k in GCS_OPTIONAL || k == "gcs-bucket-name" ==> Key(r, k) == Key(data, k))
  {
    StorageKeysCarried();
    forall k | k in B.STORAGE_KEYS ensures Key(B.Carried(B.ObjectStorage, data), k) == Key(data, k) { CarriedKey(B.ObjectStorage, data, k); }
  }

  /** A restored object storage has every option the renderer reads, except that
      the addressing style of S3 is the default one. */
  lemma RestoredStorageSame(data: B.Data, k: string)
    ensures var r := B.Carried(B.ObjectStorage, data);
      && AzureOption(r, k) == AzureOption(data, k) && GcsOption(r, k) == GcsOption(data, k)
      && (k != "addressing_style" ==> S3Option(r, k) == S3Option(data, k))
      && (k == "addressing_style" ==> S3Option(r, k) == Some("path"))
  {
    StorageKeysRead(data);
    ListedKeys();
    S3OptionNamesDiffer(k);
    B.UnknownStorageKeys();
  }

  lemma ListedKeys()
    ensures var s := ["s3-access-key-id", "s3-bucket-name", "s3-region", "s3-endpoint", "s3-secret-access-key"];
      "s3-access-key-id" in s && "s3-bucket-name" in s && "s3-region" in s && "s3-endpoint" in s && "s3-secret-access-key" in s
    ensures "azure-account-name" in AZURE_KEYS && "azure-account-key" in AZURE_KEYS && "azure-container" in AZURE_KEYS
    ensures "azure-container-path" in AZURE_KEYS && "azure-connection-string" in AZURE_KEYS
    ensures "gcs-iam-sign-blob" in GCS_OPTIONAL && "gcs-querystring-auth" in GCS_OPTIONAL && "gcs-file-overwrite" in GCS_OPTIONAL
  {
    var s := ["s3-access-key-id", "s3-bucket-name", "s3-region", "s3-endpoint", "s3-secret-access-key"];
    var a, g := AZURE_KEYS, GCS_OPTIONAL;
    assert s[0] in s && s[1] in s && s[2] in s && s[3] in s && s[4] in s;
    assert a[0] in a && a[1] in a && a[2] in a && a[3] in a && a[4] in a && g[0] in g && g[1] in g && g[2] in g;
  }

  /** A restored Keycloak Secret has every value the renderer reads, except for
      two optional keys. */
  lemma RestoredKeycloakSame(data: B.Data, k: string)
    requires IsSsoKey(k)
    ensures Key(B.Carried(B.Sso, data), k) == if k == "keycloak_role_token_claim" || k == "keycloak_host_loopback" then "" else Key(data, k)
  {
    B.UnknownSsoKeys();
    SsoKeysCarried(k);
    if k in B.SSO_KEYS { CarriedKey(B.Sso, data, k); }
  }

  lemma SsoKeysCarried(k: string)
    requires IsSsoKey(k)
    ensures k in B.SSO_KEYS || k == "keycloak_role_token_claim" || k == "keycloak_host_loopback"
  {
    var m := B.SSO_KEYS;
    assert m[0] in m && m[1] in m && m[2] in m && m[3] in m && m[4] in m && m[5] in m && m[6] in m && m[7] in m && m[8] in m;
    SsoKeyByLength(k);
  }
}
