/** The converse of `PodClosure`: every object that the pods need is behind some
    volume, and every volume is used by some container. */
module PodUse {
  import opened Pulp
  import opened PodTemplate
  import opened PodClosure

  // ---- objects ----

  /** Some volume of the pods of one component refers to the object. */
  ghost predicate Refers(vs: seq<Volume>, r: Ref) { exists v :: v in vs && r in RefsOf(v) }

  lemma RefersMono(own: seq<Volume>, vs: seq<Volume>, r: Ref)
    requires Refers(own, r) && forall v :: v in own ==> v in vs
    ensures Refers(vs, r)
  {
  }

  lemma FixedReferred(spec: PulpSpec, r: Ref)
    requires r in {SecretRef(spec.name + "-server"), SecretRef(spec.dbFieldsEncryptionSecret), SecretRef(spec.adminPasswordSecret), SecretRef(spec.containerTokenSecret)}
    ensures Refers(BaseVolumes(spec), r) || Refers(AdminVolumes(spec, Api), r) || Refers(CertsVolumes(spec, Api), r)
  {
    var b, a, k := BaseVolumes(spec), AdminVolumes(spec, Api), CertsVolumes(spec, Api);
    assert b[0] in b && b[1] in b && a[0] in a && k[0] in k;
    assert RefsOf(b[0]) == {SecretRef(spec.name + "-server")} && RefsOf(b[1]) == {SecretRef(spec.dbFieldsEncryptionSecret)};
    assert RefsOf(a[0]) == {SecretRef(spec.adminPasswordSecret)} && RefsOf(k[0]) == {SecretRef(spec.containerTokenSecret)};
  }

  lemma StorageReferred(spec: PulpSpec)
    requires StorageOk(spec) && |GetStorageType(spec)| > 0
    ensures spec.fileStorageClass != "" ==> Refers(StorageVolumes(spec), ClaimRef(spec.name + "-file-storage"))
    ensures spec.pvc != "" ==> Refers(StorageVolumes(spec), ClaimRef(spec.pvc))
  {
    StorageIndexInBounds(spec);
    if StorageVolumes(spec) != [] { assert StorageVolumes(spec)[0] in StorageVolumes(spec); }
  }

  lemma OptionalReferred(spec: PulpSpec)
    ensures Ipv6Off(spec) ==> Refers(WorkerVolumes(spec, Worker), ConfigMapRef(spec.name + "-worker-probe"))
    ensures spec.telemetryEnabled ==> Refers(OtelVolumes(spec, Api), ConfigMapRef(spec.name + "-otel-collector-config"))
    ensures spec.ldapCA != "" ==> Refers(LdapVolumes(spec), SecretRef(spec.ldapCA))
  {
    var w, o, l := WorkerVolumes(spec, Worker), OtelVolumes(spec, Api), LdapVolumes(spec);
    if Ipv6Off(spec) { assert w[1] in w && RefsOf(w[1]) == {ConfigMapRef(spec.name + "-worker-probe")}; }
    if spec.telemetryEnabled { assert o[0] in o && RefsOf(o[0]) == {ConfigMapRef(spec.name + "-otel-collector-config")}; }
    if spec.ldapCA != "" { assert l[0] in l; }
  }

  lemma CaReferred(spec: PulpSpec)
    requires spec.trustedCa
    ensures Refers(CaVolumes(spec), ConfigMapRef(if spec.trustedCaConfigMapKey.Some? then SplitCAConfigMapNameKey(spec.trustedCaConfigMapKey.value).0
                                                 else spec.name + "-user-ca-bundle"))
  {
    assert CaVolumes(spec)[0] in CaVolumes(spec);
  }

  lemma SigningReferred(spec: PulpSpec, cluster: Cluster)
    requires |GetStorageType(spec)| > 0 && spec.signingSecret != ""
    ensures Refers(SigningVolumes(spec, cluster), SecretRef(spec.signingSecret)) && Refers(SigningVolumes(spec, cluster), SecretRef(spec.signingScripts))
  {
    var own := SigningVolumes(spec, cluster);
    assert own[|own| - 2] in own && own[|own| - 1] in own;
  }

  /** Some section of the API's or the workers' volumes refers to the object. */
  ghost predicate Sectioned(spec: PulpSpec, cluster: Cluster, c: Component, r: Ref)
    requires |GetStorageType(spec)| > 0
  {
    || Refers(BaseVolumes(spec), r) || Refers(WorkerVolumes(spec, c), r) || Refers(AdminVolumes(spec, c), r)
    || Refers(StorageVolumes(spec), r) || Refers(SigningVolumes(spec, cluster), r) || Refers(CertsVolumes(spec, c), r)
    || Refers(CaVolumes(spec), r) || Refers(LdapVolumes(spec), r) || Refers(OtelVolumes(spec, c), r)
  }

  lemma SectionedIsReferred(spec: PulpSpec, cluster: Cluster, c: Component, r: Ref)
    requires |GetStorageType(spec)| > 0 && Sectioned(spec, cluster, c, r)
    ensures Refers(Volumes(spec, cluster, c), r)
  {
    Parts(spec, cluster, c);
  }

  lemma OperatorSectioned(spec: PulpSpec, cluster: Cluster, r: Ref)
    requires StorageOk(spec) && |GetStorageType(spec)| > 0 && r in OperatorObjects(spec)
    ensures Sectioned(spec, cluster, Api, r) || Sectioned(spec, cluster, Worker, r)
  {
    var fixed := {SecretRef(spec.name + "-server"), SecretRef(spec.dbFieldsEncryptionSecret), SecretRef(spec.adminPasswordSecret), SecretRef(spec.containerTokenSecret)};
    if r in fixed {
      FixedReferred(spec, r);
    } else {
      OptionalOperator(spec, fixed, r);
      StorageReferred(spec);
      OptionalReferred(spec);
      if spec.trustedCa { CaReferred(spec); }
    }
  }

  lemma OptionalOperator(spec: PulpSpec, fixed: set<Ref>, r: Ref)
    requires r in OperatorObjects(spec) && r !in fixed
    requires fixed == {SecretRef(spec.name + "-server"), SecretRef(spec.dbFieldsEncryptionSecret), SecretRef(spec.adminPasswordSecret), SecretRef(spec.containerTokenSecret)}
    ensures || (Ipv6Off(spec) && r == ConfigMapRef(spec.name + "-worker-probe"))
            || (spec.fileStorageClass != "" && r == ClaimRef(spec.name + "-file-storage"))
            || (spec.telemetryEnabled && r == ConfigMapRef(spec.name + "-otel-collector-config"))
            || (spec.trustedCa && spec.trustedCaConfigMapKey.None? && r == ConfigMapRef(spec.name + "-user-ca-bundle"))
  {
  }

  lemma UserSectioned(spec: PulpSpec, cluster: Cluster, r: Ref)
    requires StorageOk(spec) && |GetStorageType(spec)| > 0 && r in UserObjects(spec)
    ensures Sectioned(spec, cluster, Api, r)
  {
    OneOfUser(spec, r);
    StorageReferred(spec);
    OptionalReferred(spec);
    if spec.trustedCa { CaReferred(spec); }
    if spec.signingSecret != "" { SigningReferred(spec, cluster); }
  }

  lemma OneOfUser(spec: PulpSpec, r: Ref)
    requires r in UserObjects(spec)
    ensures || (spec.pvc != "" && r == ClaimRef(spec.pvc))
            || (spec.signingSecret != "" && r == SecretRef(spec.signingSecret))
            || (spec.signingSecret != "" && r == SecretRef(spec.signingScripts))
            || (spec.ldapCA != "" && r == SecretRef(spec.ldapCA))
            || (spec.trustedCa && spec.trustedCaConfigMapKey.Some? && r == ConfigMapRef(SplitCAConfigMapNameKey(spec.trustedCaConfigMapKey.value).0))
  {
  }

  /** What the pods of the API, the content server and the workers refer to is
      exactly what the operator creates for them and what the user names. */
  lemma ObjectsExactly(spec: PulpSpec, cluster: Cluster, r: Ref)
    requires StorageOk(spec)
    ensures |GetStorageType(spec)| > 0
    ensures r in OperatorObjects(spec) + UserObjects(spec)
            <==> (exists c: Component :: c != Web && Refers(Volumes(spec, cluster, c), r))
  {
    VolumesNameKnownObjects(spec, cluster, Api);
    if r in OperatorObjects(spec) + UserObjects(spec) {
      if r in OperatorObjects(spec) { OperatorSectioned(spec, cluster, r); } else { UserSectioned(spec, cluster, r); }
      if Sectioned(spec, cluster, Api, r) { SectionedIsReferred(spec, cluster, Api, r); } else { SectionedIsReferred(spec, cluster, Worker, r); }
      assert Api != Web && Worker != Web;
    } else {
      forall c: Component ensures !Refers(Volumes(spec, cluster, c), r) { VolumesNameKnownObjects(spec, cluster, c); }
    }
  }

  // ---- use ----

  function Items(v: Volume): seq<KeyToPath> {
    match v.source case SecretSource(_, items) => items case ConfigMapSource(_, items) => items case _ => []
  }

  /** The container mounts the whole volume, or each of its files. */
  ghost predicate UsedBy(ms: seq<Mount>, v: Volume) {
    || (exists m :: m in ms && m.name == v.name && m.subPath == "")
    || (Items(v) == [] && v.source.ConfigMapSource? && exists m :: m in ms && m.name == v.name)
    || (Items(v) != [] && forall i :: i in Items(v) ==> exists m :: m in ms && m.name == v.name && m.subPath == i.path)
  }

  ghost predicate Used(pod: Pod, v: Volume) {
    exists k :: (k in pod.initContainers || k in pod.containers) && UsedBy(k.mounts, v)
  }

  ghost predicate AllUsedBy(vs: seq<Volume>, ms: seq<Mount>) { forall v :: v in vs ==> UsedBy(ms, v) }

  lemma UsedMono(vs: seq<Volume>, a: seq<Mount>, b: seq<Mount>)
    requires AllUsedBy(vs, a) && forall m :: m in a ==> m in b
    ensures AllUsedBy(vs, b)
  {
  }

  lemma OneFile(v: Volume, m: Mount)
    requires m.name == v.name && |Items(v)| == 1 && Items(v)[0].path == m.subPath
    ensures UsedBy([m], v)
  {
    assert m in [m];
  }

  lemma WholeVolume(v: Volume, m: Mount)
    requires m.name == v.name && m.subPath == ""
    ensures UsedBy([m], v)
  {
    assert m in [m];
  }

  lemma UsedAmong(v: Volume, m: Mount, ms: seq<Mount>)
    requires UsedBy([m], v) && m in ms
    ensures UsedBy(ms, v)
  {
    UsedMono([v], [m], ms);
    assert v in [v];
  }

  lemma OneUsed(v: Volume, m: Mount)
    requires UsedBy([m], v)
    ensures AllUsedBy([v], [m])
  {
  }

  lemma TwoUsed(v: Volume, w: Volume, m: Mount, n: Mount)
    requires UsedBy([m], v) && UsedBy([n], w)
    ensures AllUsedBy([v, w], [m, n])
  {
    UsedAmong(v, m, [m, n]);
    UsedAmong(w, n, [m, n]);
  }

  lemma BaseUsed(spec: PulpSpec)
    ensures AllUsedBy(BaseVolumes(spec), BaseMounts(spec))
  {
    var vs, ms := BaseVolumes(spec), BaseMounts(spec);
    OneFile(vs[0], ms[0]);
    OneFile(vs[1], ms[1]);
    TwoUsed(vs[0], vs[1], ms[0], ms[1]);
  }

  lemma WorkerUsed(spec: PulpSpec)
    ensures AllUsedBy(WorkerVolumes(spec, Worker), WorkerMounts(spec, Worker))
  {
    var vs, ms := WorkerVolumes(spec, Worker), WorkerMounts(spec, Worker);
    WholeVolume(vs[0], ms[0]);
    if Ipv6Off(spec) {
      OneFile(vs[1], ms[1]);
      TwoUsed(vs[0], vs[1], ms[0], ms[1]);
    } else {
      OneUsed(vs[0], ms[0]);
    }
  }

  lemma SidesUsed(spec: PulpSpec, cluster: Cluster, c: Component)
    requires |GetStorageType(spec)| > 0
    ensures AllUsedBy(AdminVolumes(spec, c), AdminMounts(spec, c))
    ensures AllUsedBy(StorageVolumes(spec), StorageMounts(spec))
    ensures AllUsedBy(CaVolumes(spec), CaMounts(spec))
    ensures AllUsedBy(LdapVolumes(spec), LdapMounts(spec, cluster))
    ensures AllUsedBy(OtelVolumes(spec, c), SidecarMounts())
  {
    if c == Api { AdminUsed(spec); }
    if OnFileStorage(spec) {
      WholeVolume(StorageVolumes(spec)[0], StorageMounts(spec)[0]);
      OneUsed(StorageVolumes(spec)[0], StorageMounts(spec)[0]);
    }
    if spec.trustedCa {
      WholeVolume(CaVolumes(spec)[0], CaMounts(spec)[0]);
      OneUsed(CaVolumes(spec)[0], CaMounts(spec)[0]);
    }
    if spec.ldapCA != "" {
      OneFile(LdapVolumes(spec)[0], LdapMounts(spec, cluster)[0]);
      OneUsed(LdapVolumes(spec)[0], LdapMounts(spec, cluster)[0]);
    }
    if HasSidecar(spec, c) { assert SidecarMounts()[0] in SidecarMounts(); }
  }

  lemma AdminUsed(spec: PulpSpec)
    ensures AllUsedBy(AdminVolumes(spec, Api), AdminMounts(spec, Api))
  {
    OneFile(AdminVolumes(spec, Api)[0], AdminMounts(spec, Api)[0]);
    OneUsed(AdminVolumes(spec, Api)[0], AdminMounts(spec, Api)[0]);
  }

  /** The API's certificates can be mounted: a Secret is named, and both files
      keep names that the mounts ask for. */
  predicate CertsUsable(spec: PulpSpec) {
    && spec.containerTokenSecret != ""
    && (spec.containerAuthPublicKey == PUBLIC_KEY || spec.containerAuthPublicKey == PRIVATE_KEY)
    && (spec.containerAuthPrivateKey == PUBLIC_KEY || spec.containerAuthPrivateKey == PRIVATE_KEY)
  }

  /** The Secret of the scripts holds at least one of them. */
  predicate ScriptsHeld(spec: PulpSpec, cluster: Cluster) {
    exists k :: k in SCRIPTS && k in cluster.SecretOrEmpty(spec.signingScripts)
  }

  lemma {:induction false} ItemsHeld(data: map<string, string>, scripts: seq<string>)
    ensures ScriptItems(data, scripts) != [] <==> exists k :: k in scripts && k in data
    ensures forall i :: i in ScriptItems(data, scripts) ==> i.key in scripts && i.path == i.key
  {
    if scripts != [] {
      var last := scripts[|scripts| - 1];
      ItemsHeld(data, scripts[..|scripts| - 1]);
      assert forall k :: k in scripts <==> k in scripts[..|scripts| - 1] || k == last;
    }
  }

  lemma CertsUsed(spec: PulpSpec)
    requires CertsUsable(spec)
    ensures AllUsedBy(CertsVolumes(spec, Api), CertsMounts(spec, Api))
  {
    var v, ms := CertsVolumes(spec, Api)[0], CertsMounts(spec, Api);
    assert ms[0] in ms && ms[1] in ms && ms[0].name == ms[1].name == v.name && ms[0].subPath == PRIVATE_KEY && ms[1].subPath == PUBLIC_KEY;
    assert Items(v) == [KeyToPath(PUBLIC_KEY, spec.containerAuthPublicKey), KeyToPath(PRIVATE_KEY, spec.containerAuthPrivateKey)];
    assert UsedBy(ms, v);
  }

  function ScriptsVolumeOf(spec: PulpSpec, cluster: Cluster): Volume {
    Volume(ScriptsVolume(spec), SecretSource(spec.signingScripts, ScriptItems(cluster.SecretOrEmpty(spec.signingScripts), SCRIPTS)))
  }

  lemma ScriptsAreMounted(spec: PulpSpec, cluster: Cluster, c: Component)
    requires |GetStorageType(spec)| > 0 && spec.signingSecret != "" && NamesDistinct(Volumes(spec, cluster, c))
    ensures ScriptsVolumeOf(spec, cluster) in SetVolumesResult(spec, cluster, c)
    ensures ScriptMounts(SetVolumesResult(spec, cluster, c), ScriptsVolume(spec)) == MountsOf(ScriptsVolume(spec), Items(ScriptsVolumeOf(spec, cluster)))
  {
    var vs, own, v := SetVolumesResult(spec, cluster, c), SigningVolumes(spec, cluster), ScriptsVolumeOf(spec, cluster);
    assert own[|own| - 1] == v && v in own && v in vs;
    assert Volumes(spec, cluster, c) == vs + (LdapVolumes(spec) + OtelVolumes(spec, c));
    PrefixDistinct(vs, LdapVolumes(spec) + OtelVolumes(spec, c));
    FirstNamedIs(vs, ScriptsVolume(spec));
    DistinctIsUnique(vs, v, FirstNamed(vs, ScriptsVolume(spec)).value);
  }

  lemma {:induction false} MountsOfUse(v: Volume)
    requires Items(v) != [] && forall i :: i in Items(v) ==> i.path == i.key
    ensures UsedBy(MountsOf(v.name, Items(v)), v)
  {
    var items := Items(v);
    var ms := MountsOf(v.name, items);
    MountsOfShape(v.name, items);
    forall i | i in items ensures exists m :: m in ms && m.name == v.name && m.subPath == i.path {
      var j :| 0 <= j < |items| && items[j] == i;
      assert ms[j] in ms;
    }
  }

  lemma ScriptsUsed(spec: PulpSpec, cluster: Cluster, c: Component)
    requires |GetStorageType(spec)| > 0 && spec.signingSecret != "" && NamesDistinct(Volumes(spec, cluster, c)) && ScriptsHeld(spec, cluster)
    ensures UsedBy(ScriptMounts(SetVolumesResult(spec, cluster, c), ScriptsVolume(spec)), ScriptsVolumeOf(spec, cluster))
  {
    ScriptsAreMounted(spec, cluster, c);
    ItemsHeld(cluster.SecretOrEmpty(spec.signingScripts), SCRIPTS);
    MountsOfUse(ScriptsVolumeOf(spec, cluster));
  }

  lemma GpgUsed(spec: PulpSpec, cluster: Cluster)
    requires |GetStorageType(spec)| > 0 && spec.signingSecret != ""
    ensures var own := SigningVolumes(spec, cluster);
      |own| >= 2 && own[|own| - 1] == ScriptsVolumeOf(spec, cluster) && AllUsedBy(own[..|own| - 1], GpgMounts(spec))
  {
    var own, ms := SigningVolumes(spec, cluster), GpgMounts(spec);
    var v := own[|own| - 2];
    OneFile(v, ms[0]);
    UsedAmong(v, ms[0], ms);
    if OnFileStorage(spec) {
      assert own[..|own| - 1] == [v];
    } else {
      var w, m := own[0], GpgHomeMounts(spec)[0];
      assert own[..|own| - 1] == [w, v] && m in GpgHomeMounts(spec) && m in ms;
      WholeVolume(w, m);
      UsedAmong(w, m, ms);
    }
  }

  // ---- the whole pod ----

  lemma MainHas(spec: PulpSpec, cluster: Cluster, c: Component)
    requires |GetStorageType(spec)| > 0
    ensures var ms := VolumeMounts(spec, cluster, c);
      && (forall m :: m in BaseMounts(spec) || m in WorkerMounts(spec, c) || m in AdminMounts(spec, c) || m in StorageMounts(spec) ==> m in ms)
      && (forall m :: m in SigningMounts(spec, SetVolumesResult(spec, cluster, c)) || m in CertsMounts(spec, c) ==> m in ms)
      && (forall m :: m in CaMounts(spec) || m in LdapMounts(spec, cluster) ==> m in ms)
  {
  }

  lemma SectionsUsed(spec: PulpSpec, cluster: Cluster, c: Component)
    requires |GetStorageType(spec)| > 0
    ensures var ms := VolumeMounts(spec, cluster, c);
      && AllUsedBy(BaseVolumes(spec), ms) && AllUsedBy(WorkerVolumes(spec, c), ms) && AllUsedBy(AdminVolumes(spec, c), ms)
      && AllUsedBy(StorageVolumes(spec), ms) && AllUsedBy(CaVolumes(spec), ms) && AllUsedBy(LdapVolumes(spec), ms)
  {
    var ms := VolumeMounts(spec, cluster, c);
    MainHas(spec, cluster, c);
    BaseUsed(spec);
    if c == Worker { WorkerUsed(spec); }
    SidesUsed(spec, cluster, c);
    UsedMono(BaseVolumes(spec), BaseMounts(spec), ms);
    UsedMono(WorkerVolumes(spec, c), WorkerMounts(spec, c), ms);
    UsedMono(AdminVolumes(spec, c), AdminMounts(spec, c), ms);
    UsedMono(StorageVolumes(spec), StorageMounts(spec), ms);
    UsedMono(CaVolumes(spec), CaMounts(spec), ms);
    UsedMono(LdapVolumes(spec), LdapMounts(spec, cluster), ms);
  }

  ghost predicate AllUsed(vs: seq<Volume>, pod: Pod) { forall v :: v in vs ==> Used(pod, v) }

  lemma UsedInPod(vs: seq<Volume>, pod: Pod, k: Container)
    requires AllUsedBy(vs, k.mounts) && (k in pod.initContainers || k in pod.containers)
    ensures AllUsed(vs, pod)
  {
  }

  lemma PodContainers(spec: PulpSpec, cluster: Cluster, c: Component, fingerprint: string)
    requires |GetStorageType(spec)| > 0
    ensures var pod := Built(spec, cluster, c, fingerprint);
      && (exists k :: k in pod.containers && k.mounts == VolumeMounts(spec, cluster, c))
      && (HasSidecar(spec, c) ==> exists k :: k in pod.containers && k.mounts == SidecarMounts())
      && (spec.signingSecret != "" ==> exists k :: k in pod.initContainers && k.mounts == GpgMounts(spec))
  {
    var pod := Built(spec, cluster, c, fingerprint);
    assert pod.containers[0] in pod.containers;
    if HasSidecar(spec, c) { assert pod.containers[1] in pod.containers; }
    if spec.signingSecret != "" { assert pod.initContainers[1] in pod.initContainers; }
  }

  lemma OthersUsed(spec: PulpSpec, cluster: Cluster, c: Component, fingerprint: string)
    requires |GetStorageType(spec)| > 0
    ensures var pod := Built(spec, cluster, c, fingerprint);
      && AllUsed(BaseVolumes(spec), pod) && AllUsed(WorkerVolumes(spec, c), pod) && AllUsed(AdminVolumes(spec, c), pod)
      && AllUsed(StorageVolumes(spec), pod) && AllUsed(CaVolumes(spec), pod) && AllUsed(LdapVolumes(spec), pod) && AllUsed(OtelVolumes(spec, c), pod)
  {
    var pod := Built(spec, cluster, c, fingerprint);
    PodContainers(spec, cluster, c, fingerprint);
    SectionsUsed(spec, cluster, c);
    var k :| k in pod.containers && k.mounts == VolumeMounts(spec, cluster, c);
    UsedInPod(BaseVolumes(spec), pod, k);
    UsedInPod(WorkerVolumes(spec, c), pod, k);
    UsedInPod(AdminVolumes(spec, c), pod, k);
    UsedInPod(StorageVolumes(spec), pod, k);
    UsedInPod(CaVolumes(spec), pod, k);
    UsedInPod(LdapVolumes(spec), pod, k);
    if HasSidecar(spec, c) {
      SidesUsed(spec, cluster, c);
      var q :| q in pod.containers && q.mounts == SidecarMounts();
      UsedInPod(OtelVolumes(spec, c), pod, q);
    }
  }

  lemma KeysUsed(spec: PulpSpec, cluster: Cluster, c: Component, fingerprint: string)
    requires |GetStorageType(spec)| > 0 && spec.signingSecret != ""
    ensures var own := SigningVolumes(spec, cluster);
      |own| >= 2 && own[|own| - 1] == ScriptsVolumeOf(spec, cluster) && AllUsed(own[..|own| - 1], Built(spec, cluster, c, fingerprint))
  {
    var pod, own := Built(spec, cluster, c, fingerprint), SigningVolumes(spec, cluster);
    PodContainers(spec, cluster, c, fingerprint);
    GpgUsed(spec, cluster);
    var k :| k in pod.initContainers && k.mounts == GpgMounts(spec);
    UsedInPod(own[..|own| - 1], pod, k);
  }

  lemma UsedByMain(spec: PulpSpec, cluster: Cluster, c: Component, fingerprint: string, v: Volume, ms: seq<Mount>)
    requires |GetStorageType(spec)| > 0 && UsedBy(ms, v) && forall m :: m in ms ==> m in VolumeMounts(spec, cluster, c)
    ensures Used(Built(spec, cluster, c, fingerprint), v)
  {
    var pod := Built(spec, cluster, c, fingerprint);
    PodContainers(spec, cluster, c, fingerprint);
    var k :| k in pod.containers && k.mounts == VolumeMounts(spec, cluster, c);
    assert AllUsedBy([v], ms) && v in [v];
    UsedMono([v], ms, k.mounts);
    UsedInPod([v], pod, k);
  }

  lemma MainHasScripts(spec: PulpSpec, cluster: Cluster, c: Component)
    requires |GetStorageType(spec)| > 0 && spec.signingSecret != ""
    ensures forall m :: m in ScriptMounts(SetVolumesResult(spec, cluster, c), ScriptsVolume(spec)) ==> m in VolumeMounts(spec, cluster, c)
  {
    MainHas(spec, cluster, c);
  }

  lemma SigningUsed(spec: PulpSpec, cluster: Cluster, c: Component, fingerprint: string)
    requires |GetStorageType(spec)| > 0 && spec.signingSecret != "" && NamesDistinct(Volumes(spec, cluster, c)) && ScriptsHeld(spec, cluster)
    ensures AllUsed(SigningVolumes(spec, cluster), Built(spec, cluster, c, fingerprint))
  {
    KeysUsed(spec, cluster, c, fingerprint);
    ScriptsUsed(spec, cluster, c);
    MainHasScripts(spec, cluster, c);
    UsedByMain(spec, cluster, c, fingerprint, ScriptsVolumeOf(spec, cluster), ScriptMounts(SetVolumesResult(spec, cluster, c), ScriptsVolume(spec)));
    LastUsed(SigningVolumes(spec, cluster), Built(spec, cluster, c, fingerprint));
  }

  lemma LastUsed(vs: seq<Volume>, pod: Pod)
    requires vs != [] && AllUsed(vs[..|vs| - 1], pod) && Used(pod, vs[|vs| - 1])
    ensures AllUsed(vs, pod)
  {
    assert vs == vs[..|vs| - 1] + [vs[|vs| - 1]];
  }

  // ---- what no container uses ----

  /** The volume of the API's certificates, by its items. */
  predicate CertsShaped(v: Volume) { v.source.SecretSource? && |v.source.items| == 2 && v.source.items[0].key == PUBLIC_KEY }

  /** A mount of another volume than the certificates'; no Secret is mounted
      whole. */
  ghost predicate Elsewhere(m: Mount, vs: seq<Volume>) {
    exists v :: v in vs && v.name == m.name && !CertsShaped(v) && (m.subPath == "" ==> !v.source.SecretSource?)
  }

  ghost predicate AllElsewhere(ms: seq<Mount>, vs: seq<Volume>) { forall m :: m in ms ==> Elsewhere(m, vs) }

  lemma ElsewhereMono(ms: seq<Mount>, a: seq<Volume>, b: seq<Volume>)
    requires AllElsewhere(ms, a) && forall v :: v in a ==> v in b
    ensures AllElsewhere(ms, b)
  {
  }

  lemma FileElsewhere(m: Mount, v: Volume, vs: seq<Volume>)
    requires v in vs && v.name == m.name && |Items(v)| <= 1 && m.subPath != ""
    ensures Elsewhere(m, vs)
  {
  }

  lemma BaseElsewhere(spec: PulpSpec)
    ensures AllElsewhere(BaseMounts(spec), BaseVolumes(spec))
    ensures AllElsewhere(WorkerMounts(spec, Worker), WorkerVolumes(spec, Worker))
  {
    var vs, ms, wv, wm := BaseVolumes(spec), BaseMounts(spec), WorkerVolumes(spec, Worker), WorkerMounts(spec, Worker);
    FileElsewhere(ms[0], vs[0], vs);
    FileElsewhere(ms[1], vs[1], vs);
    assert wv[0] in wv && Elsewhere(wm[0], wv);
    if Ipv6Off(spec) { FileElsewhere(wm[1], wv[1], wv); }
  }

  lemma SidesElsewhere(spec: PulpSpec, cluster: Cluster, c: Component)
    requires |GetStorageType(spec)| > 0
    ensures AllElsewhere(AdminMounts(spec, c), AdminVolumes(spec, c))
    ensures AllElsewhere(StorageMounts(spec), StorageVolumes(spec))
    ensures AllElsewhere(CaMounts(spec), CaVolumes(spec))
    ensures AllElsewhere(LdapMounts(spec, cluster), LdapVolumes(spec))
    ensures HasSidecar(spec, c) ==> AllElsewhere(SidecarMounts(), OtelVolumes(spec, c))
  {
    if c == Api { AdminElsewhere(spec); }
    if OnFileStorage(spec) { assert StorageVolumes(spec)[0] in StorageVolumes(spec); }
    if spec.trustedCa { assert CaVolumes(spec)[0] in CaVolumes(spec); }
    if spec.ldapCA != "" { FileElsewhere(LdapMounts(spec, cluster)[0], LdapVolumes(spec)[0], LdapVolumes(spec)); }
    if HasSidecar(spec, c) { FileElsewhere(SidecarMounts()[0], OtelVolumes(spec, c)[0], OtelVolumes(spec, c)); }
  }

  lemma AdminElsewhere(spec: PulpSpec)
    ensures AllElsewhere(AdminMounts(spec, Api), AdminVolumes(spec, Api))
  {
    FileElsewhere(AdminMounts(spec, Api)[0], AdminVolumes(spec, Api)[0], AdminVolumes(spec, Api));
  }

  lemma GpgElsewhere(spec: PulpSpec, cluster: Cluster)
    requires |GetStorageType(spec)| > 0 && spec.signingSecret != ""
    ensures AllElsewhere(GpgHomeMounts(spec), SigningVolumes(spec, cluster))
    ensures Elsewhere(GpgMounts(spec)[0], SigningVolumes(spec, cluster))
  {
    var own := SigningVolumes(spec, cluster);
    FileElsewhere(GpgMounts(spec)[0], own[|own| - 2], own);
    if !OnFileStorage(spec) { assert own[0] in own; }
  }

  lemma ScriptNames()
    ensures PUBLIC_KEY !in SCRIPTS && forall k :: k in SCRIPTS ==> k != ""
  {
    var m := SCRIPTS;
    assert |m[0]| == 20 && |m[1]| == 19 && |m[2]| == 13 && |m[3]| == 13 && |PUBLIC_KEY| == 29;
    forall k | k in m ensures |k| == 20 || |k| == 19 || |k| == 13 {
      var i :| 0 <= i < |m| && m[i] == k;
    }
  }

  lemma ScriptsElsewhere(spec: PulpSpec, cluster: Cluster, c: Component)
    requires |GetStorageType(spec)| > 0 && spec.signingSecret != "" && NamesDistinct(Volumes(spec, cluster, c))
    ensures AllElsewhere(ScriptMounts(SetVolumesResult(spec, cluster, c), ScriptsVolume(spec)), Volumes(spec, cluster, c))
  {
    var v := ScriptsVolumeOf(spec, cluster);
    var items := Items(v);
    var ms := MountsOf(v.name, items);
    ScriptNames();
    ScriptsAreMounted(spec, cluster, c);
    MountsOfShape(v.name, items);
    ItemsHeld(cluster.SecretOrEmpty(spec.signingScripts), SCRIPTS);
    assert v in Volumes(spec, cluster, c) && !CertsShaped(v) by { if |items| == 2 { assert items[0] in items; } }
    forall m | m in ms ensures Elsewhere(m, Volumes(spec, cluster, c)) {
      var i :| 0 <= i < |ms| && ms[i] == m;
      assert items[i] in items;
    }
  }

  /** Every mount of the pod is of another volume, or of the certificates'. */
  ghost predicate Placed(m: Mount, spec: PulpSpec, c: Component, vs: seq<Volume>) { Elsewhere(m, vs) || m in CertsMounts(spec, c) }

  ghost predicate AllPlaced(ms: seq<Mount>, spec: PulpSpec, c: Component, vs: seq<Volume>) { forall m :: m in ms ==> Placed(m, spec, c, vs) }

  lemma SectionsPlaced(spec: PulpSpec, cluster: Cluster, c: Component)
    requires |GetStorageType(spec)| > 0
    ensures var vs := Volumes(spec, cluster, c);
      && AllElsewhere(BaseMounts(spec), vs) && AllElsewhere(WorkerMounts(spec, c), vs) && AllElsewhere(AdminMounts(spec, c), vs)
      && AllElsewhere(StorageMounts(spec), vs) && AllElsewhere(CaMounts(spec), vs) && AllElsewhere(LdapMounts(spec, cluster), vs)
      && (HasSidecar(spec, c) ==> AllElsewhere(SidecarMounts(), vs))
  {
    var vs := Volumes(spec, cluster, c);
    Parts(spec, cluster, c);
    BaseElsewhere(spec);
    SidesElsewhere(spec, cluster, c);
    ElsewhereMono(BaseMounts(spec), BaseVolumes(spec), vs);
    ElsewhereMono(WorkerMounts(spec, c), WorkerVolumes(spec, c), vs);
    ElsewhereMono(AdminMounts(spec, c), AdminVolumes(spec, c), vs);
    ElsewhereMono(StorageMounts(spec), StorageVolumes(spec), vs);
    ElsewhereMono(CaMounts(spec), CaVolumes(spec), vs);
    ElsewhereMono(LdapMounts(spec, cluster), LdapVolumes(spec), vs);
    if HasSidecar(spec, c) { ElsewhereMono(SidecarMounts(), OtelVolumes(spec, c), vs); }
  }

  lemma SigningPlaced(spec: PulpSpec, cluster: Cluster, c: Component)
    requires |GetStorageType(spec)| > 0 && NamesDistinct(Volumes(spec, cluster, c))
    ensures var vs := Volumes(spec, cluster, c);
      && AllElsewhere(SigningMounts(spec, SetVolumesResult(spec, cluster, c)), vs)
      && (spec.signingSecret != "" ==> AllElsewhere(GpgMounts(spec), vs))
  {
    if spec.signingSecret != "" {
      var vs, home := Volumes(spec, cluster, c), GpgHomeMounts(spec);
      SectionsPlaced(spec, cluster, c);
      GpgElsewhere(spec, cluster);
      Parts(spec, cluster, c);
      ElsewhereMono(home, SigningVolumes(spec, cluster), vs);
      ElsewhereMono([GpgMounts(spec)[0]], SigningVolumes(spec, cluster), vs);
      ScriptsElsewhere(spec, cluster, c);
      assert forall m :: m in GpgMounts(spec) ==> m in [GpgMounts(spec)[0]] || m in StorageMounts(spec) || m in home;
    }
  }

  lemma EightPlaced(a: seq<Mount>, b: seq<Mount>, k: seq<Mount>, d: seq<Mount>, e: seq<Mount>, f: seq<Mount>, g: seq<Mount>, h: seq<Mount>,
                    spec: PulpSpec, c: Component, vs: seq<Volume>)
    requires AllElsewhere(a, vs) && AllElsewhere(b, vs) && AllElsewhere(k, vs) && AllElsewhere(d, vs) && AllElsewhere(e, vs)
    requires f == CertsMounts(spec, c) && AllElsewhere(g, vs) && AllElsewhere(h, vs)
    ensures AllPlaced(a + b + k + d + e + f + g + h, spec, c, vs)
  {
  }

  lemma MountsPlaced(spec: PulpSpec, cluster: Cluster, c: Component, fingerprint: string, k: Container)
    requires |GetStorageType(spec)| > 0 && NamesDistinct(Volumes(spec, cluster, c))
    requires k in Built(spec, cluster, c, fingerprint).initContainers || k in Built(spec, cluster, c, fingerprint).containers
    ensures AllPlaced(k.mounts, spec, c, Volumes(spec, cluster, c))
  {
    SectionsPlaced(spec, cluster, c);
    SigningPlaced(spec, cluster, c);
    EightPlaced(BaseMounts(spec), WorkerMounts(spec, c), AdminMounts(spec, c), StorageMounts(spec),
                SigningMounts(spec, SetVolumesResult(spec, cluster, c)), CertsMounts(spec, c), CaMounts(spec), LdapMounts(spec, cluster),
                spec, c, Volumes(spec, cluster, c));
    KindsOfContainer(spec, cluster, c, fingerprint, k);
  }

  lemma KindsOfContainer(spec: PulpSpec, cluster: Cluster, c: Component, fingerprint: string, k: Container)
    requires |GetStorageType(spec)| > 0
    requires k in Built(spec, cluster, c, fingerprint).initContainers || k in Built(spec, cluster, c, fingerprint).containers
    ensures || k.mounts == BaseMounts(spec) + StorageMounts(spec)
            || (spec.signingSecret != "" && k.mounts == GpgMounts(spec))
            || k.mounts == VolumeMounts(spec, cluster, c)
            || (HasSidecar(spec, c) && k.mounts == SidecarMounts())
  {
  }

  lemma OnlyCerts(ms: seq<Mount>, spec: PulpSpec, vs: seq<Volume>, v: Volume)
    requires AllPlaced(ms, spec, Api, vs) && NamesDistinct(vs) && v in vs && CertsShaped(v)
    ensures forall m :: m in ms && m.name == v.name ==> m in CertsMounts(spec, Api)
  {
    forall m | m in ms && m.name == v.name ensures m in CertsMounts(spec, Api) {
      if Elsewhere(m, vs) {
        var w :| w in vs && w.name == m.name && !CertsShaped(w);
        DistinctIsUnique(vs, v, w);
      }
    }
  }

  lemma NoSecretWhole(ms: seq<Mount>, spec: PulpSpec, c: Component, vs: seq<Volume>, v: Volume)
    requires AllPlaced(ms, spec, c, vs) && NamesDistinct(vs) && v in vs && v.source.SecretSource?
    ensures forall m :: m in ms && m.name == v.name ==> m.subPath != ""
  {
    CertsFiles(spec, c);
  }

  /** A used certificates' volume is usable. */
  lemma CertsUsedOnly(spec: PulpSpec, cluster: Cluster, fingerprint: string)
    requires |GetStorageType(spec)| > 0 && NamesDistinct(Volumes(spec, cluster, Api))
    requires Used(Built(spec, cluster, Api, fingerprint), CertsVolumes(spec, Api)[0])
    ensures CertsUsable(spec)
  {
    var pod, vs, v := Built(spec, cluster, Api, fingerprint), Volumes(spec, cluster, Api), CertsVolumes(spec, Api)[0];
    var k :| (k in pod.initContainers || k in pod.containers) && UsedBy(k.mounts, v);
    MountsPlaced(spec, cluster, Api, fingerprint, k);
    Parts(spec, cluster, Api);
    assert v in CertsVolumes(spec, Api) && v in vs && CertsShaped(v);
    OnlyCerts(k.mounts, spec, vs, v);
    CertsByFiles(spec, k.mounts);
  }

  lemma CertsByFiles(spec: PulpSpec, ms: seq<Mount>)
    requires UsedBy(ms, CertsVolumes(spec, Api)[0])
    requires forall m :: m in ms && m.name == CertsVolumes(spec, Api)[0].name ==> m in CertsMounts(spec, Api)
    ensures CertsUsable(spec)
  {
    var v := CertsVolumes(spec, Api)[0];
    CertsFiles(spec, Api);
    assert Items(v)[0] in Items(v) && Items(v)[1] in Items(v);
  }

  lemma CertsFiles(spec: PulpSpec, c: Component)
    ensures forall m :: m in CertsMounts(spec, c) ==> spec.containerTokenSecret != "" && (m.subPath == PUBLIC_KEY || m.subPath == PRIVATE_KEY)
    ensures PUBLIC_KEY != "" && PRIVATE_KEY != ""
    ensures Items(CertsVolumes(spec, Api)[0]) == [KeyToPath(PUBLIC_KEY, spec.containerAuthPublicKey), KeyToPath(PRIVATE_KEY, spec.containerAuthPrivateKey)]
  {
    assert |PUBLIC_KEY| == 29 && |PRIVATE_KEY| == 30;
  }

  /** A Secret without items is used by nobody. */
  lemma UsedHasItems(pod: Pod, spec: PulpSpec, c: Component, vs: seq<Volume>, v: Volume)
    requires forall k :: k in pod.initContainers || k in pod.containers ==> AllPlaced(k.mounts, spec, c, vs)
    requires NamesDistinct(vs) && v in vs && v.source.SecretSource? && Used(pod, v)
    ensures Items(v) != []
  {
    var k :| (k in pod.initContainers || k in pod.containers) && UsedBy(k.mounts, v);
    NoSecretWhole(k.mounts, spec, c, vs, v);
  }

  /** A used volume of scripts holds some. */
  lemma ScriptsUsedOnly(spec: PulpSpec, cluster: Cluster, c: Component, fingerprint: string)
    requires |GetStorageType(spec)| > 0 && spec.signingSecret != "" && NamesDistinct(Volumes(spec, cluster, c))
    requires Used(Built(spec, cluster, c, fingerprint), ScriptsVolumeOf(spec, cluster))
    ensures ScriptsHeld(spec, cluster)
  {
    var pod, vs, v := Built(spec, cluster, c, fingerprint), Volumes(spec, cluster, c), ScriptsVolumeOf(spec, cluster);
    ScriptsVolumeIn(spec, cluster, c);
    forall k | k in pod.initContainers || k in pod.containers ensures AllPlaced(k.mounts, spec, c, vs) {
      MountsPlaced(spec, cluster, c, fingerprint, k);
    }
    UsedHasItems(pod, spec, c, vs, v);
    ItemsHeld(cluster.SecretOrEmpty(spec.signingScripts), SCRIPTS);
  }

  lemma ScriptsVolumeIn(spec: PulpSpec, cluster: Cluster, c: Component)
    requires |GetStorageType(spec)| > 0 && spec.signingSecret != ""
    ensures ScriptsVolumeOf(spec, cluster) in Volumes(spec, cluster, c)
  {
    var own := SigningVolumes(spec, cluster);
    Parts(spec, cluster, c);
    assert own[|own| - 1] == ScriptsVolumeOf(spec, cluster) && own[|own| - 1] in own;
  }

  /** With distinct volume names, every volume of a pod is used by one of its
      containers, whole or file by file, exactly when the API's certificates can
      be mounted and the Secret of the scripts, if signing is on, holds one. */
  lemma VolumesAreUsed(spec: PulpSpec, cluster: Cluster, c: Component, fingerprint: string)
    requires StorageOk(spec)
    requires |GetStorageType(spec)| > 0 && NamesDistinct(Volumes(spec, cluster, c))
    ensures AllUsed(Volumes(spec, cluster, c), Built(spec, cluster, c, fingerprint))
            <==> (c == Api ==> CertsUsable(spec)) && (spec.signingSecret != "" ==> ScriptsHeld(spec, cluster))
  {
    var pod, vs := Built(spec, cluster, c, fingerprint), Volumes(spec, cluster, c);
    if AllUsed(vs, pod) {
      Parts(spec, cluster, c);
      if c == Api {
        assert CertsVolumes(spec, Api)[0] in CertsVolumes(spec, Api);
        CertsUsedOnly(spec, cluster, fingerprint);
      }
      if spec.signingSecret != "" {
        ScriptsVolumeIn(spec, cluster, c);
        ScriptsUsedOnly(spec, cluster, c, fingerprint);
      }
    }
    if (c == Api ==> CertsUsable(spec)) && (spec.signingSecret != "" ==> ScriptsHeld(spec, cluster)) {
      OthersUsed(spec, cluster, c, fingerprint);
      if spec.signingSecret != "" { SigningUsed(spec, cluster, c, fingerprint); }
      if c == Api { ApiCertsUsed(spec, cluster, fingerprint); }
      NineUsed(BaseVolumes(spec), WorkerVolumes(spec, c), AdminVolumes(spec, c), StorageVolumes(spec), SigningVolumes(spec, cluster),
               CertsVolumes(spec, c), CaVolumes(spec), LdapVolumes(spec), OtelVolumes(spec, c), pod);
    }
  }

  lemma ApiCertsUsed(spec: PulpSpec, cluster: Cluster, fingerprint: string)
    requires |GetStorageType(spec)| > 0 && CertsUsable(spec)
    ensures AllUsed(CertsVolumes(spec, Api), Built(spec, cluster, Api, fingerprint))
  {
    var v := CertsVolumes(spec, Api)[0];
    CertsUsed(spec);
    MainHas(spec, cluster, Api);
    assert v in CertsVolumes(spec, Api);
    UsedByMain(spec, cluster, Api, fingerprint, v, CertsMounts(spec, Api));
  }

  lemma NineUsed(a: seq<Volume>, b: seq<Volume>, c: seq<Volume>, d: seq<Volume>, e: seq<Volume>, f: seq<Volume>, g: seq<Volume>,
                 h: seq<Volume>, i: seq<Volume>, pod: Pod)
    requires AllUsed(a, pod) && AllUsed(b, pod) && AllUsed(c, pod) && AllUsed(d, pod) && AllUsed(e, pod)
    requires AllUsed(f, pod) && AllUsed(g, pod) && AllUsed(h, pod) && AllUsed(i, pod)
    ensures AllUsed(a + b + c + d + e + f + g + h + i, pod)
  {
  }
}
