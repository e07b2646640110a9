/** The pod of a pulpcore Deployment. About twenty-five setters fill one struct
    in order, later ones reading what earlier ones wrote; the pod they leave
    must be closed under its own references. */
module PodTemplate {
  import opened Pulp
  import E = EnvVars

  datatype KeyToPath = KeyToPath(key: string, path: string)

  /** An empty item list projects every key. */
  datatype Source =
    | SecretSource(secret: string, items: seq<KeyToPath>)
    | ConfigMapSource(configMap: string, items: seq<KeyToPath>)
    | ClaimSource(claim: string)
    | EmptyDir

  datatype Volume = Volume(name: string, source: Source)

  /** `subPath` is empty when the whole volume is mounted. */
  datatype Mount = Mount(name: string, path: string, subPath: string)

  datatype Container = Container(name: string, env: seq<EnvVar>, mounts: seq<Mount>)

  datatype Pod = Pod(volumes: seq<Volume>, initContainers: seq<Container>, containers: seq<Container>)

  // ---- names ----

  const SETTINGS_FILE := "settings.py"
  const FIELDS_KEY := "database_fields.symmetric.key"
  const PUBLIC_KEY := "container_auth_public_key.pem"
  const PRIVATE_KEY := "container_auth_private_key.pem"
  const SIGNING_KEY := "signing_service.gpg"
  const PROBE_FILE := "wait_on_postgres.py"
  const OTEL_FILE := "otel-collector-config.yaml"
  const SCRIPTS := ["collection_script.sh", "container_script.sh", "apt_script.sh", "rpm_script.sh"]

  function ServerVolume(spec: PulpSpec): string { spec.name + "-server" }
  function FieldsVolume(spec: PulpSpec): string { spec.name + "-db-fields-encryption" }
  function AnsibleVolume(spec: PulpSpec): string { spec.name + "-ansible-tmp" }
  function ProbeVolume(spec: PulpSpec): string { spec.name + "-worker-probe" }
  function ScriptsVolume(spec: PulpSpec): string { spec.name + "-signing-scripts" }
  function CertsVolume(spec: PulpSpec): string { spec.name + "-container-auth-certs" }
  const FILE_STORAGE := "file-storage"
  const EPHEMERAL_GPG := "ephemeral-gpg"
  const GPG_KEYS := "gpg-keys"
  const TRUSTED_CA := "trusted-ca"
  const LDAP_CERT := "ldap-cert"
  const OTEL_CONFIG := "otel-collector-config"

  predicate Ipv6Off(spec: PulpSpec) { spec.ipv6Disabled == Some(true) }

  predicate OnFileStorage(spec: PulpSpec)
    requires |GetStorageType(spec)| > 0
  {
    GetStorageType(spec)[0] == STORAGE_CLASS || GetStorageType(spec)[0] == PVC
  }

  // ---- volumes, section by section ----

  function File(name: string): KeyToPath { KeyToPath(name, name) }

  function BaseVolumes(spec: PulpSpec): seq<Volume> {
    [Volume(ServerVolume(spec), SecretSource(spec.name + "-server", [File(SETTINGS_FILE)])),
     Volume(FieldsVolume(spec), SecretSource(spec.dbFieldsEncryptionSecret, [File(FIELDS_KEY)]))]
  }

  function WorkerVolumes(spec: PulpSpec, c: Component): seq<Volume> {
    if c != Worker then []
    else
      [Volume(AnsibleVolume(spec), EmptyDir)]
      + if Ipv6Off(spec) then [Volume(ProbeVolume(spec), ConfigMapSource(spec.name + "-worker-probe", [File(PROBE_FILE)]))] else []
  }

  function AdminVolumes(spec: PulpSpec, c: Component): seq<Volume> {
    if c != Api then []
    else [Volume(spec.adminPasswordSecret, SecretSource(spec.adminPasswordSecret, [KeyToPath("password", "admin-password")]))]
  }

  function StorageVolumes(spec: PulpSpec): seq<Volume>
    requires |GetStorageType(spec)| > 0
  {
    if GetStorageType(spec)[0] == STORAGE_CLASS then [Volume(FILE_STORAGE, ClaimSource(spec.name + "-file-storage"))]
    else if GetStorageType(spec)[0] == PVC then [Volume(FILE_STORAGE, ClaimSource(spec.pvc))]
    else []
  }

  /** One item for each script the Secret holds. */
  function ScriptItems(data: map<string, string>, scripts: seq<string>): seq<KeyToPath> {
    if scripts == [] then []
    else ScriptItems(data, scripts[..|scripts| - 1])
         + if scripts[|scripts| - 1] in data then [File(scripts[|scripts| - 1])] else []
  }

  function SigningVolumes(spec: PulpSpec, cluster: Cluster): seq<Volume>
    requires |GetStorageType(spec)| > 0
  {
    if spec.signingSecret == "" then []
    else
      (if OnFileStorage(spec) then [] else [Volume(EPHEMERAL_GPG, EmptyDir)])
      + [Volume(GPG_KEYS, SecretSource(spec.signingSecret, [File(SIGNING_KEY)])),
         Volume(ScriptsVolume(spec), SecretSource(spec.signingScripts, ScriptItems(cluster.SecretOrEmpty(spec.signingScripts), SCRIPTS)))]
  }

  function CertsVolumes(spec: PulpSpec, c: Component): seq<Volume> {
    if c != Api then []
    else [Volume(CertsVolume(spec), SecretSource(spec.containerTokenSecret,
            [KeyToPath(PUBLIC_KEY, spec.containerAuthPublicKey), KeyToPath(PRIVATE_KEY, spec.containerAuthPrivateKey)]))]
  }

  function CaSource(spec: PulpSpec): Source {
    var (name, key) :=
      if spec.trustedCaConfigMapKey.Some? then SplitCAConfigMapNameKey(spec.trustedCaConfigMapKey.value)
      else (spec.name + "-user-ca-bundle", "ca-bundle.crt");
    ConfigMapSource(name, if key != "" then [KeyToPath(key, "tls-ca-bundle.pem")] else [])
  }

  function CaVolumes(spec: PulpSpec): seq<Volume> {
    if !spec.trustedCa then [] else [Volume(TRUSTED_CA, CaSource(spec))]
  }

  function LdapVolumes(spec: PulpSpec): seq<Volume> {
    if spec.ldapCA == "" then [] else [Volume(LDAP_CERT, SecretSource(spec.ldapCA, [File("ca.crt")]))]
  }

  predicate HasSidecar(spec: PulpSpec, c: Component) { spec.telemetryEnabled && c == Api }

  function OtelVolumes(spec: PulpSpec, c: Component): seq<Volume> {
    if HasSidecar(spec, c) then [Volume(OTEL_CONFIG, ConfigMapSource(spec.name + "-otel-collector-config", []))] else []
  }

  /** What `setVolumes` leaves. */
  function SetVolumesResult(spec: PulpSpec, cluster: Cluster, c: Component): seq<Volume>
    requires |GetStorageType(spec)| > 0
  {
    BaseVolumes(spec) + WorkerVolumes(spec, c) + AdminVolumes(spec, c) + StorageVolumes(spec)
    + SigningVolumes(spec, cluster) + CertsVolumes(spec, c) + CaVolumes(spec)
  }

  function Volumes(spec: PulpSpec, cluster: Cluster, c: Component): seq<Volume>
    requires |GetStorageType(spec)| > 0
  {
    SetVolumesResult(spec, cluster, c) + LdapVolumes(spec) + OtelVolumes(spec, c)
  }

  // ---- mounts ----

  function BaseMounts(spec: PulpSpec): seq<Mount> {
    [Mount(ServerVolume(spec), "/etc/pulp/settings.py", SETTINGS_FILE), Mount(FieldsVolume(spec), "/etc/pulp/keys/" + FIELDS_KEY, FIELDS_KEY)]
  }

  function WorkerMounts(spec: PulpSpec, c: Component): seq<Mount> {
    if c != Worker then []
    else
      [Mount(AnsibleVolume(spec), "/.ansible/tmp", "")]
      + if Ipv6Off(spec) then [Mount(ProbeVolume(spec), "/usr/bin/" + PROBE_FILE, PROBE_FILE)] else []
  }

  function AdminMounts(spec: PulpSpec, c: Component): seq<Mount> {
    if c != Api then [] else [Mount(spec.adminPasswordSecret, "/etc/pulp/pulp-admin-password", "admin-password")]
  }

  function StorageMounts(spec: PulpSpec): seq<Mount>
    requires |GetStorageType(spec)| > 0
  {
    if OnFileStorage(spec) then [Mount(FILE_STORAGE, "/var/lib/pulp", "")] else []
  }

  function GpgHomeMounts(spec: PulpSpec): seq<Mount>
    requires |GetStorageType(spec)| > 0
  {
    if OnFileStorage(spec) then [] else [Mount(EPHEMERAL_GPG, "/var/lib/pulp/.gnupg", "")]
  }

  /** The first volume of that name: the one the mounts of the scripts read. */
  function FirstNamed(volumes: seq<Volume>, name: string): Option<Volume> {
    if volumes == [] then None
    else if volumes[0].name == name then Some(volumes[0])
    else FirstNamed(volumes[1..], name)
  }

  function MountsOf(volume: string, items: seq<KeyToPath>): seq<Mount> {
    if items == [] then []
    else MountsOf(volume, items[..|items| - 1])
         + [Mount(volume, "/var/lib/pulp/scripts/" + items[|items| - 1].key, items[|items| - 1].key)]
  }

  function ScriptMounts(volumes: seq<Volume>, name: string): seq<Mount> {
    match FirstNamed(volumes, name)
    case None => []
    case Some(v) => if v.source.SecretSource? then MountsOf(name, v.source.items) else []
  }

  function SigningMounts(spec: PulpSpec, volumes: seq<Volume>): seq<Mount>
    requires |GetStorageType(spec)| > 0
  {
    if spec.signingSecret == "" then [] else GpgHomeMounts(spec) + ScriptMounts(volumes, ScriptsVolume(spec))
  }

  function CertsMounts(spec: PulpSpec, c: Component): seq<Mount> {
    if c != Api || spec.containerTokenSecret == "" then []
    else [Mount(CertsVolume(spec), "/etc/pulp/keys/" + PRIVATE_KEY, PRIVATE_KEY), Mount(CertsVolume(spec), "/etc/pulp/keys/" + PUBLIC_KEY, PUBLIC_KEY)]
  }

  function CaMounts(spec: PulpSpec): seq<Mount> {
    if !spec.trustedCa then [] else [Mount(TRUSTED_CA, "/etc/pki/ca-trust/extracted/pem", "")]
  }

  function CertPath(spec: PulpSpec, cluster: Cluster): string {
    var data := cluster.SecretOrEmpty(spec.ldapConfig);
    if "auth_ldap_ca_file" in data then data["auth_ldap_ca_file"] else ""
  }

  function LdapMounts(spec: PulpSpec, cluster: Cluster): seq<Mount> {
    if spec.ldapCA == "" then [] else [Mount(LDAP_CERT, CertPath(spec, cluster), "ca.crt")]
  }

  /** The mounts of the pulpcore container. */
  function VolumeMounts(spec: PulpSpec, cluster: Cluster, c: Component): seq<Mount>
    requires |GetStorageType(spec)| > 0
  {
    BaseMounts(spec) + WorkerMounts(spec, c) + AdminMounts(spec, c) + StorageMounts(spec)
    + SigningMounts(spec, SetVolumesResult(spec, cluster, c)) + CertsMounts(spec, c) + CaMounts(spec) + LdapMounts(spec, cluster)
  }

  function GpgMounts(spec: PulpSpec): seq<Mount>
    requires |GetStorageType(spec)| > 0
  {
    [Mount(GPG_KEYS, "/etc/pulp/keys/" + SIGNING_KEY, SIGNING_KEY)] + StorageMounts(spec) + GpgHomeMounts(spec)
  }

  function SidecarMounts(): seq<Mount> { [Mount(OTEL_CONFIG, "/etc/otelcol-contrib/" + OTEL_FILE, OTEL_FILE)] }

  function GpgEnv(fingerprint: string): seq<EnvVar> {
    [E.Text("PULP_SIGNING_KEY_FINGERPRINT", fingerprint), E.Text("HOME", "/var/lib/pulp")]
  }

  function MainContainer(c: Component): string {
    match c case Api => "api" case Content => "content" case Worker => "worker" case Web => "web"
  }

  function InitContainers(spec: PulpSpec, fingerprint: string, env: seq<EnvVar>, mounts: seq<Mount>): seq<Container>
    requires |GetStorageType(spec)| > 0
  {
    [Container("init-container", env, mounts)]
    + if spec.signingSecret != "" then [Container("gpg-config", GpgEnv(fingerprint), GpgMounts(spec))] else []
  }

  function Containers(spec: PulpSpec, c: Component, env: seq<EnvVar>, mounts: seq<Mount>): seq<Container> {
    [Container(MainContainer(c), env, mounts)]
    + if HasSidecar(spec, c) then [Container("otel-collector-sidecar", [], SidecarMounts())] else []
  }

  /** The pod `build` must leave behind. */
  function Built(spec: PulpSpec, cluster: Cluster, c: Component, fingerprint: string): Pod
    requires |GetStorageType(spec)| > 0
  {
    Pod(Volumes(spec, cluster, c),
        InitContainers(spec, fingerprint, E.InitContainerEnv(spec, c), BaseMounts(spec) + StorageMounts(spec)),
        Containers(spec, c, E.ContainerEnv(spec, c, fingerprint), VolumeMounts(spec, cluster, c)))
  }

  // ---- the setters ----

  class CommonDeployment {
    var envVars: seq<EnvVar>
    var initContainerEnvVars: seq<EnvVar>
    var volumes: seq<Volume>
    var volumeMounts: seq<Mount>
    var initContainerVolumeMounts: seq<Mount>
    var initContainers: seq<Container>
    var containers: seq<Container>

    constructor ()
      ensures volumes == [] && volumeMounts == []
    {
      envVars, initContainerEnvVars, volumes, volumeMounts := [], [], [], [];
      initContainerVolumeMounts, initContainers, containers := [], [], [];
    }

    method SetVolumes(spec: PulpSpec, cluster: Cluster, c: Component)
      requires StorageOk(spec)
      modifies `volumes
      ensures |GetStorageType(spec)| > 0 && volumes == SetVolumesResult(spec, cluster, c)
    {
      StorageIndexInBounds(spec);
      var vs := BaseVolumes(spec);
      vs := vs + WorkerVolumes(spec, c);
      vs := vs + AdminVolumes(spec, c);
      var storage: seq<Volume> := [];
      var storageType := GetStorageType(spec);
      if storageType[0] == STORAGE_CLASS {
        storage := [Volume(FILE_STORAGE, ClaimSource(spec.name + "-file-storage"))];
      } else if storageType[0] == PVC {
        storage := [Volume(FILE_STORAGE, ClaimSource(spec.pvc))];
      }
      assert storage == StorageVolumes(spec);
      vs := vs + storage;
      var signing := SigningMetadataVolumes(spec, cluster);
      vs := vs + signing;
      vs := vs + CertsVolumes(spec, c);
      vs := vs + CaVolumes(spec);
      volumes := vs;
    }

    method SigningMetadataVolumes(spec: PulpSpec, cluster: Cluster) returns (vs: seq<Volume>)
      requires |GetStorageType(spec)| > 0
      ensures vs == SigningVolumes(spec, cluster)
    {
      vs := [];
      if spec.signingSecret == "" { return; }
      var storageType := GetStorageType(spec);
      if storageType[0] != STORAGE_CLASS && storageType[0] != PVC { vs := [Volume(EPHEMERAL_GPG, EmptyDir)]; }
      var data := cluster.SecretOrEmpty(spec.signingScripts);
      var items: seq<KeyToPath> := [];
      for i := 0 to |SCRIPTS|
        invariant items == ScriptItems(data, SCRIPTS[..i])
      {
        assert SCRIPTS[..i + 1][..i] == SCRIPTS[..i];
        if SCRIPTS[i] in data { items := items + [File(SCRIPTS[i])]; }
      }
      assert SCRIPTS[..|SCRIPTS|] == SCRIPTS;
      vs := vs + [Volume(GPG_KEYS, SecretSource(spec.signingSecret, [File(SIGNING_KEY)])),
                  Volume(ScriptsVolume(spec), SecretSource(spec.signingScripts, items))];
    }

    /** Walks over the volumes set before, and stops at the first one that is
        named like the signing scripts. */
    method SigningScriptMounts(spec: PulpSpec) returns (ms: seq<Mount>)
      ensures ms == ScriptMounts(volumes, ScriptsVolume(spec))
    {
      ms := [];
      var i := 0;
      while i < |volumes|
        invariant 0 <= i <= |volumes| && ms == []
        invariant FirstNamed(volumes, ScriptsVolume(spec)) == FirstNamed(volumes[i..], ScriptsVolume(spec))
      {
        if volumes[i].name == ScriptsVolume(spec) {
          if volumes[i].source.SecretSource? {
            ms := ItemMounts(ScriptsVolume(spec), volumes[i].source.items);
          }
          return;
        }
        i := i + 1;
      }
    }

    method ItemMounts(name: string, items: seq<KeyToPath>) returns (ms: seq<Mount>)
      ensures ms == MountsOf(name, items)
    {
      ms := [];
      for i := 0 to |items|
        invariant ms == MountsOf(name, items[..i])
      {
        assert items[..i + 1][..i] == items[..i];
        ms := ms + [Mount(name, "/var/lib/pulp/scripts/" + items[i].key, items[i].key)];
      }
      assert items[..|items|] == items;
    }

    method SetVolumeMounts(spec: PulpSpec, cluster: Cluster, c: Component)
      requires StorageOk(spec)
      requires |GetStorageType(spec)| > 0 && volumes == SetVolumesResult(spec, cluster, c)
      modifies `volumeMounts
      ensures volumeMounts + LdapMounts(spec, cluster) == VolumeMounts(spec, cluster, c)
    {
      var ms := BaseMounts(spec);
      ms := ms + WorkerMounts(spec, c);
      ms := ms + AdminMounts(spec, c);
      ms := ms + StorageMounts(spec);
      var signing: seq<Mount> := [];
      if spec.signingSecret != "" {
        var scripts := SigningScriptMounts(spec);
        signing := GpgHomeMounts(spec) + scripts;
      }
      assert signing == SigningMounts(spec, volumes);
      ms := ms + signing;
      ms := ms + CertsMounts(spec, c);
      ms := ms + CaMounts(spec);
      volumeMounts := ms;
    }

    method SetInitContainerVolumeMounts(spec: PulpSpec)
      requires StorageOk(spec) && |GetStorageType(spec)| > 0
      modifies `initContainerVolumeMounts
      ensures initContainerVolumeMounts == BaseMounts(spec) + StorageMounts(spec)
    {
      var ms := BaseMounts(spec);
      if OnFileStorage(spec) { ms := ms + [Mount(FILE_STORAGE, "/var/lib/pulp", "")]; }
      initContainerVolumeMounts := ms;
    }

    method SetLDAPConfigs(spec: PulpSpec, cluster: Cluster)
      modifies `volumes, `volumeMounts
      ensures volumes == old(volumes) + LdapVolumes(spec)
      ensures volumeMounts == old(volumeMounts) + LdapMounts(spec, cluster)
    {
      if |spec.ldapCA| == 0 { return; }
      volumes := volumes + [Volume(LDAP_CERT, SecretSource(spec.ldapCA, [File("ca.crt")]))];
      volumeMounts := volumeMounts + [Mount(LDAP_CERT, CertPath(spec, cluster), "ca.crt")];
    }

    method SetInitContainers(spec: PulpSpec, fingerprint: string)
      requires StorageOk(spec) && |GetStorageType(spec)| > 0
      modifies `initContainers
      ensures initContainers == InitContainers(spec, fingerprint, initContainerEnvVars, initContainerVolumeMounts)
    {
      initContainers := [Container("init-container", initContainerEnvVars, initContainerVolumeMounts)];
      if |spec.signingSecret| > 0 {
        var ms := SetGpgInitContainer(spec);
        initContainers := initContainers + [Container("gpg-config", GpgEnv(fingerprint), ms)];
      }
    }

    method SetGpgInitContainer(spec: PulpSpec) returns (ms: seq<Mount>)
      requires |GetStorageType(spec)| > 0
      ensures ms == GpgMounts(spec)
    {
      ms := [Mount(GPG_KEYS, "/etc/pulp/keys/" + SIGNING_KEY, SIGNING_KEY)];
      if OnFileStorage(spec) {
        ms := ms + [Mount(FILE_STORAGE, "/var/lib/pulp", "")];
        assert StorageMounts(spec) == [Mount(FILE_STORAGE, "/var/lib/pulp", "")] && GpgHomeMounts(spec) == [];
      } else {
        ms := ms + [Mount(EPHEMERAL_GPG, "/var/lib/pulp/.gnupg", "")];
        assert GpgHomeMounts(spec) == [Mount(EPHEMERAL_GPG, "/var/lib/pulp/.gnupg", "")] && StorageMounts(spec) == [];
      }
    }

    /** Rewrites the first container and adds sidecar and volume. */
    method SetTelemetryConfig(spec: PulpSpec, c: Component)
      requires |containers| == 1 && containers[0].name == MainContainer(c)
      modifies `containers, `volumes
      ensures volumes == old(volumes) + OtelVolumes(spec, c)
      ensures containers == Containers(spec, c, old(containers)[0].env + E.TelemetryVars(spec, c), old(containers)[0].mounts)
    {
      if !spec.telemetryEnabled || c != Api {
        assert containers[0].env + E.TelemetryVars(spec, c) == containers[0].env;
        return;
      }
      containers := containers[0 := containers[0].(env := containers[0].env + E.TelemetryVars(spec, c))];
      containers := containers + [Container("otel-collector-sidecar", [], SidecarMounts())];
      volumes := volumes + OtelVolumes(spec, c);
    }

    /** Volumes, mounts and environments, in the order of `build`. */
    method BuildParts(spec: PulpSpec, cluster: Cluster, c: Component, fingerprint: string)
      requires StorageOk(spec) && c != Web
      modifies this
      ensures |GetStorageType(spec)| > 0
      ensures volumes == SetVolumesResult(spec, cluster, c) + LdapVolumes(spec)
      ensures volumeMounts == VolumeMounts(spec, cluster, c)
      ensures initContainerVolumeMounts == BaseMounts(spec) + StorageMounts(spec)
      ensures initContainerEnvVars == E.InitContainerEnv(spec, c)
      ensures envVars + E.TelemetryVars(spec, c) == E.ContainerEnv(spec, c, fingerprint)
    {
      envVars := E.SetEnvVars(spec, c, fingerprint);
      SetVolumes(spec, cluster, c);
      SetVolumeMounts(spec, cluster, c);
      SetInitContainerVolumeMounts(spec);
      initContainerEnvVars := E.InitContainerEnvVars(spec, c);
      SetLDAPConfigs(spec, cluster);
    }

    /** The setters in the order of `build`; the fields no later setter reads
        are left out. */
    method Build(spec: PulpSpec, cluster: Cluster, c: Component, fingerprint: string)
      requires StorageOk(spec) && c != Web
      modifies this
      ensures |GetStorageType(spec)| > 0 && Pod(volumes, initContainers, containers) == Built(spec, cluster, c, fingerprint)
    {
      BuildParts(spec, cluster, c, fingerprint);
      SetInitContainers(spec, fingerprint);
      containers := [Container(MainContainer(c), envVars, volumeMounts)];
      SetTelemetryConfig(spec, c);
    }
  }
}
