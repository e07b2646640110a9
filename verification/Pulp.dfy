/** The Pulp custom resource, the objects it refers to by name, and the
    storage rules every stage of the operator relies on. */
module Pulp {
  import opened Text

  datatype Option<+T> = None | Some(value: T)

  datatype Component = Api | Content | Worker | Web

  datatype EnvValue = Literal(text: string) | FromSecret(secret: string, key: string)

  datatype EnvVar = EnvVar(name: string, value: EnvValue)

  datatype ComponentSpec = ComponentSpec(
    replicas: int,
    hpa: Option<bool>,          // the HPA block, when there is one, and its Enabled flag
    envVars: seq<EnvVar>,
    gunicornWorkers: int,
    gunicornTimeout: int,
    accessLogformat: string)

  datatype PulpSpec = PulpSpec(
    name: string,
    namespace: string,
    api: ComponentSpec,
    content: ComponentSpec,
    worker: ComponentSpec,
    web: ComponentSpec,
    imageVersion: string,
    imageWebVersion: string,
    inhibitVersionConstraint: bool,
    // exposure
    ingressType: string,
    ingressClassName: string,
    ingressHost: string,
    ingressTLSSecret: string,
    isNginxIngress: bool,
    routeHost: string,
    // storage
    azureSecret: string,
    gcsSecret: string,
    s3Secret: string,
    fileStorageClass: string,
    fileStorageAccessMode: string,
    fileStorageSize: string,
    pvc: string,
    // cache and database
    cacheEnabled: bool,
    redisPort: int,
    externalCacheSecret: string,
    redisStorageClass: string,
    cachePVC: string,
    externalDBSecret: string,
    postgresPort: int,
    databasePVC: string,
    postgresStorageClass: Option<string>,
    // secrets
    adminPasswordSecret: string,
    pulpSecretKey: string,
    dbFieldsEncryptionSecret: string,
    containerTokenSecret: string,
    containerAuthPublicKey: string,
    containerAuthPrivateKey: string,
    ssoSecret: string,
    ldapConfig: string,
    ldapCA: string,
    signingSecret: string,
    signingScripts: string,
    // settings
    customPulpSettings: string,
    allowedContentChecksums: seq<string>,
    redirectToObjectStorage: bool,
    hideGuardedDistributions: bool,
    enableDebugging: bool,
    // pods
    ipv6Disabled: Option<bool>,
    trustedCa: bool,
    trustedCaConfigMapKey: Option<string>,
    telemetryEnabled: bool,
    telemetryProtocol: string)

  /** The Secrets and ConfigMaps of the CR's namespace, by name. */
  datatype Cluster = Cluster(secrets: map<string, map<string, string>>, configMaps: map<string, map<string, string>>)
  {
    /** The API server rejects an empty object name, so it finds nothing. */
    function Secret(name: string): Option<map<string, string>> {
      if name != "" && name in secrets then Some(secrets[name]) else None
    }

    function ConfigMap(name: string): Option<map<string, string>> {
      if name != "" && name in configMaps then Some(configMaps[name]) else None
    }

    /** A failed read leaves the Go object at its zero value. */
    function SecretOrEmpty(name: string): map<string, string> {
      match Secret(name) case Some(d) => d case None => map[]
    }

    function ConfigMapOrEmpty(name: string): map<string, string> {
      match ConfigMap(name) case Some(d) => d case None => map[]
    }
  }

  predicate IsIngress(spec: PulpSpec) { ToLower(spec.ingressType) == "ingress" }

  predicate IsRoute(spec: PulpSpec) { ToLower(spec.ingressType) == "route" }

  // ---- storage ----

  datatype StorageOwner = PulpStorage | CacheStorage | DatabaseStorage

  const AZURE := "azure blob"
  const GCS := "gcs"
  const S3 := "s3"
  const STORAGE_CLASS := "StorageClass"
  const PVC := "PVC"
  const EMPTY_DIR := "emptyDir"

  function When(given: bool, kind: string): seq<string> { if given then [kind] else [] }

  function StorageNames(spec: PulpSpec, owner: StorageOwner): seq<string> {
    match owner
    case PulpStorage =>
      When(spec.azureSecret != "", AZURE) + When(spec.gcsSecret != "", GCS) + When(spec.s3Secret != "", S3)
      + When(spec.fileStorageClass != "", STORAGE_CLASS) + When(spec.pvc != "", PVC)
    case CacheStorage =>
      When(spec.redisStorageClass != "", STORAGE_CLASS) + When(spec.cachePVC != "", PVC)
    case DatabaseStorage =>
      When(spec.databasePVC != "", PVC) + When(spec.postgresStorageClass.Some?, STORAGE_CLASS)
  }

  /** Whether several storage types are configured, and their names. */
  function MultiStorageConfigured(spec: PulpSpec, owner: StorageOwner): (bool, seq<string>) {
    var names := StorageNames(spec, owner);
    if |names| > 1 then (true, names)
    else if |names| == 0 && owner.CacheStorage? then (false, [EMPTY_DIR])
    else (false, names)
  }

  function GetStorageType(spec: PulpSpec): seq<string> { MultiStorageConfigured(spec, PulpStorage).1 }

  // ---- prechecks ----

  /** What the storage precheck is for: one storage type for Pulp, at most one
      for the cache, and one for a managed database. */
  predicate StorageOk(spec: PulpSpec) {
    && |StorageNames(spec, PulpStorage)| == 1
    && |StorageNames(spec, CacheStorage)| <= 1
    && |StorageNames(spec, DatabaseStorage)| <= 1
    && (spec.externalDBSecret == "" ==> |StorageNames(spec, DatabaseStorage)| == 1)
  }

  /** The precheck's loop over the three owners; `refused` is the early return. */
  method CheckStorageDefinitions(spec: PulpSpec) returns (refused: bool)
    ensures refused <==> !StorageOk(spec)
  {
    var owners := [PulpStorage, CacheStorage, DatabaseStorage];
    var i := 0;
    while i < |owners|
      invariant 0 <= i <= |owners|
      invariant i > 0 ==> |StorageNames(spec, PulpStorage)| == 1
      invariant i > 1 ==> |StorageNames(spec, CacheStorage)| <= 1
      invariant i > 2 ==> |StorageNames(spec, DatabaseStorage)| <= 1
                          && (spec.externalDBSecret == "" ==> |StorageNames(spec, DatabaseStorage)| == 1)
    {
      var owner := owners[i];
      i := i + 1;
      var (several, types) := MultiStorageConfigured(spec, owner);
      if several { return true; }
      if owner.CacheStorage? { continue; }
      if owner.DatabaseStorage? && spec.externalDBSecret != "" { continue; }
      if types == [] { return true; }
    }
    return false;
  }

  /** The storage precheck is exactly what makes every later `storageType[0]`
      defined for both Pulp and the cache. */
  lemma StorageIndexInBounds(spec: PulpSpec)
    requires StorageOk(spec)
    ensures |GetStorageType(spec)| == 1
    ensures GetStorageType(spec)[0] in {AZURE, GCS, S3, STORAGE_CLASS, PVC}
    ensures |MultiStorageConfigured(spec, CacheStorage).1| == 1
    ensures GetStorageType(spec)[0] == STORAGE_CLASS <==> spec.fileStorageClass != ""
    ensures GetStorageType(spec)[0] == PVC <==> spec.pvc != ""
  {
    var n := StorageNames(spec, PulpStorage);
    assert n[0] in n;
  }

  const VALID_CHECKSUMS: set<string> := {"md5", "sha1", "sha224", "sha256", "sha384", "sha512"}

  predicate ChecksumsOk(spec: PulpSpec) {
    spec.allowedContentChecksums == []
    || ("sha256" in spec.allowedContentChecksums
        && forall c :: c in spec.allowedContentChecksums ==> c in VALID_CHECKSUMS)
  }

  method CheckAllowedContentChecksums(spec: PulpSpec) returns (refused: bool)
    ensures refused <==> !ChecksumsOk(spec)
  {
    var sums := spec.allowedContentChecksums;
    if |sums| == 0 { return false; }
    var found: set<string> := {};
    for i := 0 to |sums|
      invariant forall c :: c in sums[..i] ==> c in VALID_CHECKSUMS
      invariant forall c :: c in found <==> c in sums[..i]
    {
      if sums[i] !in VALID_CHECKSUMS { return true; }
      found := found + {sums[i]};
    }
    assert sums[..|sums|] == sums;
    return "sha256" !in found;
  }

  function NeedsSecret(name: string, cluster: Cluster): bool { name != "" ==> cluster.Secret(name).Some? }

  predicate SecretsAvailable(spec: PulpSpec, cluster: Cluster) {
    && NeedsSecret(spec.azureSecret, cluster) && NeedsSecret(spec.gcsSecret, cluster)
    && NeedsSecret(spec.s3Secret, cluster) && NeedsSecret(spec.ssoSecret, cluster)
    && NeedsSecret(spec.externalDBSecret, cluster) && NeedsSecret(spec.externalCacheSecret, cluster)
    && NeedsSecret(spec.ldapConfig, cluster) && NeedsSecret(spec.ldapCA, cluster)
  }

  predicate ImageVersionOk(spec: PulpSpec) {
    (!IsRoute(spec) && !spec.isNginxIngress && spec.imageVersion != spec.imageWebVersion && spec.web.replicas > 0)
    ==> spec.inhibitVersionConstraint
  }

  predicate IngressOk(spec: PulpSpec) {
    IsIngress(spec) ==> spec.ingressClassName != "" && spec.ingressHost != ""
  }

  predicate FileStorageOk(spec: PulpSpec) {
    (spec.fileStorageClass != "") == (spec.fileStorageAccessMode != "")
    && (spec.fileStorageClass != "") == (spec.fileStorageSize != "")
  }

  predicate LdapCaOk(spec: PulpSpec, cluster: Cluster) {
    spec.ldapConfig != "" ==> (("auth_ldap_ca_file" in cluster.SecretOrEmpty(spec.ldapConfig)) == (spec.ldapCA != ""))
  }

  predicate SigningOk(spec: PulpSpec) { (spec.signingScripts != "") == (spec.signingSecret != "") }

  predicate CaConfigMapOk(spec: PulpSpec, openShift: bool) {
    !openShift && spec.trustedCa ==> spec.trustedCaConfigMapKey.Some?
  }

  /** A CR that reaches the first stage of the pipeline. */
  predicate PassesPrechecks(spec: PulpSpec, cluster: Cluster, openShift: bool) {
    && ImageVersionOk(spec) && IngressOk(spec) && StorageOk(spec)
    && (IsRoute(spec) ==> openShift)
    && SecretsAvailable(spec, cluster)
    && FileStorageOk(spec) && ChecksumsOk(spec)
    && LdapCaOk(spec, cluster) && SigningOk(spec) && CaConfigMapOk(spec, openShift)
  }

  /** The chain of prechecks with its early returns. Every refusal ends the
      pass without requeueing it. */
  method Prechecks(spec: PulpSpec, cluster: Cluster, openShift: bool) returns (refused: bool)
    ensures refused <==> !PassesPrechecks(spec, cluster, openShift)
  {
    if !IsRoute(spec) && !spec.isNginxIngress && spec.imageVersion != spec.imageWebVersion && spec.web.replicas > 0 {
      if !spec.inhibitVersionConstraint { return true; }
    }
    if IsIngress(spec) {
      if |spec.ingressClassName| == 0 { return true; }
      if |spec.ingressHost| == 0 { return true; }
    }
    var bad := CheckStorageDefinitions(spec);
    if bad { return true; }
    if !openShift && IsRoute(spec) { return true; }
    bad := CheckSecretsAvailable(spec, cluster);
    if bad { return true; }
    if (|spec.fileStorageAccessMode| > 0 || |spec.fileStorageSize| > 0) && |spec.fileStorageClass| == 0 { return true; }
    if |spec.fileStorageClass| > 0 && (|spec.fileStorageAccessMode| == 0 || |spec.fileStorageSize| == 0) { return true; }
    bad := CheckAllowedContentChecksums(spec);
    if bad { return true; }
    if |spec.ldapConfig| != 0 {
      var caDefined := "auth_ldap_ca_file" in cluster.SecretOrEmpty(spec.ldapConfig);
      if !caDefined && |spec.ldapCA| > 0 { return true; }
      if caDefined && |spec.ldapCA| == 0 { return true; }
    }
    if |spec.signingScripts| > 0 && |spec.signingSecret| == 0 { return true; }
    if |spec.signingScripts| == 0 && |spec.signingSecret| > 0 { return true; }
    if !openShift && spec.trustedCa && spec.trustedCaConfigMapKey.None? { return true; }
    return false;
  }

  /** Reads every Secret the settings rendering depends on, stopping at the
      first one that cannot be found. */
  method CheckSecretsAvailable(spec: PulpSpec, cluster: Cluster) returns (missing: bool)
    ensures missing <==> !SecretsAvailable(spec, cluster)
  {
    var names := [spec.azureSecret, spec.gcsSecret, spec.s3Secret, spec.ssoSecret, spec.externalDBSecret,
                  spec.externalCacheSecret, spec.ldapConfig, spec.ldapCA];
    for i := 0 to |names|
      invariant forall j :: 0 <= j < i ==> NeedsSecret(names[j], cluster)
    {
      if names[i] != "" && cluster.Secret(names[i]).None? {
        assert !NeedsSecret(names[i], cluster);
        return true;
      }
    }
    assert NeedsSecret(names[0], cluster) && NeedsSecret(names[1], cluster) && NeedsSecret(names[2], cluster)
        && NeedsSecret(names[3], cluster) && NeedsSecret(names[4], cluster) && NeedsSecret(names[5], cluster)
        && NeedsSecret(names[6], cluster) && NeedsSecret(names[7], cluster);
    return false;
  }

  // ---- mount_trusted_ca_configmap_key ----

  /** The position of the first separator, or the length. */
  function FirstColon(s: string): (i: nat)
    ensures i <= |s|
    ensures forall j :: 0 <= j < i ==> s[j] != ':'
    ensures i < |s| ==> s[i] == ':'
  {
    if s == "" || s[0] == ':' then 0 else 1 + FirstColon(s[1..])
  }

  /** "name:key" split at a single separator; anything else keeps what stands
      before the first separator as the name and has no key. */
  function SplitCAConfigMapNameKey(s: string): (string, string) {
    var i := FirstColon(s);
    if i < |s| && FirstColon(s[i + 1..]) == |s| - i - 1 then (s[..i], s[i + 1..]) else (s[..i], "")
  }
}
