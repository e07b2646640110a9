/** The pod of `PodTemplate` is closed under its own references: mounts name
    volumes, mounted files are items of their volumes, and volumes name objects
    of the pipeline or of the user. */
module PodClosure {
  import opened Pulp
  import opened PodTemplate

  predicate HasFile(v: Volume, file: string) {
    match v.source
    case SecretSource(_, items) => items == [] || exists i :: i in items && i.path == file
    case ConfigMapSource(_, items) => items == [] || exists i :: i in items && i.path == file
    case ClaimSource(_) => true
    case EmptyDir => true
  }

  predicate Fits(m: Mount, v: Volume) { v.name == m.name && (m.subPath != "" ==> HasFile(v, m.subPath)) }

  /** Some volume of the pod has the mount's name. */
  ghost predicate Named(m: Mount, volumes: seq<Volume>) { exists v :: v in volumes && v.name == m.name }

  ghost predicate AllNamed(ms: seq<Mount>, volumes: seq<Volume>) { forall m :: m in ms ==> Named(m, volumes) }

  /** That volume also provides the file the mount asks for. */
  ghost predicate Served(m: Mount, volumes: seq<Volume>) { exists v :: v in volumes && Fits(m, v) }

  ghost predicate AllServed(ms: seq<Mount>, volumes: seq<Volume>) { forall m :: m in ms ==> Served(m, volumes) }

  ghost predicate NamesDistinct(volumes: seq<Volume>) {
    forall i, j :: 0 <= i < j < |volumes| ==> volumes[i].name != volumes[j].name
  }

  /** Every mount of every container of the pod. */
  ghost predicate PodNamed(pod: Pod) {
    && (forall k :: k in pod.initContainers ==> AllNamed(k.mounts, pod.volumes))
    && (forall k :: k in pod.containers ==> AllNamed(k.mounts, pod.volumes))
  }

  ghost predicate PodServed(pod: Pod) {
    && (forall k :: k in pod.initContainers ==> AllServed(k.mounts, pod.volumes))
    && (forall k :: k in pod.containers ==> AllServed(k.mounts, pod.volumes))
  }

  // ---- distinct names ----

  /** The last three letters, as a number. */
  function Ending(s: string): int {
    if |s| < 3 then 0 else s[|s| - 1] as int * 1000000 + s[|s| - 2] as int * 1000 + s[|s| - 3] as int
  }

  lemma EndingOf(prefix: string, suffix: string)
    requires |suffix| >= 3
    ensures Ending(prefix + suffix) == Ending(suffix)
  {
  }

  const R_SERVER := 114101118
  const R_FIELDS := 110111105
  const R_ANSIBLE := 112109116
  const R_PROBE := 101098111
  const R_FILE := 101103097
  const R_EPHEMERAL := 103112103
  const R_GPG := 115121101
  const R_SCRIPTS := 115116112
  const R_CERTS := 115116114
  const R_CA := 97099045
  const R_LDAP := 116114101
  const R_OTEL := 103105102

  /** The place of a volume in the order of the setters. */
  function Rank(name: string): nat {
    var e := Ending(name);
    if e == R_SERVER then 1 else if e == R_FIELDS then 2 else if e == R_ANSIBLE then 3 else if e == R_PROBE then 4
    else if e == R_FILE then 5 else if e == R_EPHEMERAL then 6 else if e == R_GPG then 7 else if e == R_SCRIPTS then 8
    else if e == R_CERTS then 9 else if e == R_CA then 10 else if e == R_LDAP then 11 else if e == R_OTEL then 12 else 0
  }

  lemma OwnRanks(spec: PulpSpec)
    ensures Rank(ServerVolume(spec)) == 1 && Rank(FieldsVolume(spec)) == 2 && Rank(AnsibleVolume(spec)) == 3
    ensures Rank(ProbeVolume(spec)) == 4 && Rank(ScriptsVolume(spec)) == 8 && Rank(CertsVolume(spec)) == 9
  {
    EndingOf(spec.name, "-server");
    EndingOf(spec.name, "-db-fields-encryption");
    EndingOf(spec.name, "-ansible-tmp");
    EndingOf(spec.name, "-worker-probe");
    EndingOf(spec.name, "-signing-scripts");
    EndingOf(spec.name, "-container-auth-certs");
  }

  lemma FixedRanks()
    ensures Rank(FILE_STORAGE) == 5 && Rank(EPHEMERAL_GPG) == 6 && Rank(GPG_KEYS) == 7
    ensures Rank(TRUSTED_CA) == 10 && Rank(LDAP_CERT) == 11 && Rank(OTEL_CONFIG) == 12
  {
  }

  ghost predicate InOrder(vs: seq<Volume>, low: nat, high: nat) {
    && (forall i :: 0 <= i < |vs| ==> low < Rank(vs[i].name) <= high)
    && (forall i, j :: 0 <= i < j < |vs| ==> Rank(vs[i].name) < Rank(vs[j].name))
  }

  lemma InOrderConcat(a: seq<Volume>, b: seq<Volume>, low: nat, mid: nat, high: nat)
    requires low <= mid <= high && InOrder(a, low, mid) && InOrder(b, mid, high)
    ensures InOrder(a + b, low, high)
  {
  }

  function BeforeAdmin(spec: PulpSpec, c: Component): seq<Volume> { BaseVolumes(spec) + WorkerVolumes(spec, c) }

  function AfterAdmin(spec: PulpSpec, cluster: Cluster, c: Component): seq<Volume>
    requires |GetStorageType(spec)| > 0
  {
    StorageVolumes(spec) + SigningVolumes(spec, cluster) + CertsVolumes(spec, c) + CaVolumes(spec) + LdapVolumes(spec) + OtelVolumes(spec, c)
  }

  lemma VolumesSplit(spec: PulpSpec, cluster: Cluster, c: Component)
    requires |GetStorageType(spec)| > 0
    ensures Volumes(spec, cluster, c) == BeforeAdmin(spec, c) + AdminVolumes(spec, c) + AfterAdmin(spec, cluster, c)
  {
    SixParts(BeforeAdmin(spec, c) + AdminVolumes(spec, c), StorageVolumes(spec), SigningVolumes(spec, cluster),
             CertsVolumes(spec, c), CaVolumes(spec), LdapVolumes(spec), OtelVolumes(spec, c));
  }

  lemma SixParts<T>(k: seq<T>, a: seq<T>, b: seq<T>, c: seq<T>, d: seq<T>, e: seq<T>, f: seq<T>)
    ensures k + a + b + c + d + e + f == k + (a + b + c + d + e + f)
  {
  }

  lemma BeforeInOrder(spec: PulpSpec, c: Component)
    ensures InOrder(BeforeAdmin(spec, c), 0, 4)
  {
    OwnRanks(spec);
    assert InOrder(BaseVolumes(spec), 0, 2);
    assert InOrder(WorkerVolumes(spec, c), 2, 4);
    InOrderConcat(BaseVolumes(spec), WorkerVolumes(spec, c), 0, 2, 4);
  }

  lemma OneInOrder(vs: seq<Volume>, low: nat, high: nat)
    requires |vs| == 0 || (|vs| == 1 && low < Rank(vs[0].name) <= high)
    ensures InOrder(vs, low, high)
  {
  }

  lemma StorageInOrder(spec: PulpSpec)
    requires |GetStorageType(spec)| > 0
    ensures InOrder(StorageVolumes(spec), 4, 5)
  {
    FixedRanks();
    OneInOrder(StorageVolumes(spec), 4, 5);
  }

  lemma SigningNames(spec: PulpSpec, cluster: Cluster)
    requires |GetStorageType(spec)| > 0
    ensures var vs := SigningVolumes(spec, cluster);
      || vs == []
      || (|vs| == 2 && vs[0].name == GPG_KEYS && vs[1].name == ScriptsVolume(spec))
      || (|vs| == 3 && vs[0].name == EPHEMERAL_GPG && vs[1].name == GPG_KEYS && vs[2].name == ScriptsVolume(spec))
  {
  }

  lemma ThreeInOrder(vs: seq<Volume>)
    requires || vs == []
             || (|vs| == 2 && Rank(vs[0].name) == 7 && Rank(vs[1].name) == 8)
             || (|vs| == 3 && Rank(vs[0].name) == 6 && Rank(vs[1].name) == 7 && Rank(vs[2].name) == 8)
    ensures InOrder(vs, 5, 8)
  {
  }

  lemma SigningInOrder(spec: PulpSpec, cluster: Cluster)
    requires |GetStorageType(spec)| > 0
    ensures InOrder(SigningVolumes(spec, cluster), 5, 8)
  {
    OwnRanks(spec);
    FixedRanks();
    SigningNames(spec, cluster);
    ThreeInOrder(SigningVolumes(spec, cluster));
  }

  lemma SidesInOrder(spec: PulpSpec, c: Component)
    ensures InOrder(CertsVolumes(spec, c), 8, 9) && InOrder(CaVolumes(spec), 9, 10)
    ensures InOrder(LdapVolumes(spec), 10, 11) && InOrder(OtelVolumes(spec, c), 11, 12)
  {
    OwnRanks(spec);
    FixedRanks();
  }

  lemma SixInOrder(a: seq<Volume>, b: seq<Volume>, d: seq<Volume>, e: seq<Volume>, f: seq<Volume>, g: seq<Volume>)
    requires InOrder(a, 4, 5) && InOrder(b, 5, 8) && InOrder(d, 8, 9) && InOrder(e, 9, 10) && InOrder(f, 10, 11) && InOrder(g, 11, 12)
    ensures InOrder(a + b + d + e + f + g, 4, 12)
  {
    InOrderConcat(a, b, 4, 5, 8);
    InOrderConcat(a + b, d, 4, 8, 9);
    InOrderConcat(a + b + d, e, 4, 9, 10);
    InOrderConcat(a + b + d + e, f, 4, 10, 11);
    InOrderConcat(a + b + d + e + f, g, 4, 11, 12);
  }

  lemma AfterInOrder(spec: PulpSpec, cluster: Cluster, c: Component)
    requires |GetStorageType(spec)| > 0
    ensures InOrder(AfterAdmin(spec, cluster, c), 4, 12)
  {
    StorageInOrder(spec);
    SigningInOrder(spec, cluster);
    SidesInOrder(spec, c);
    SixInOrder(StorageVolumes(spec), SigningVolumes(spec, cluster), CertsVolumes(spec, c), CaVolumes(spec), LdapVolumes(spec), OtelVolumes(spec, c));
  }

  lemma InOrderIsDistinct(vs: seq<Volume>, low: nat, high: nat)
    requires InOrder(vs, low, high)
    ensures NamesDistinct(vs)
  {
  }

  /** A volume other than the admin password's carries this name. */
  ghost predicate TakenName(spec: PulpSpec, cluster: Cluster, c: Component, name: string)
    requires |GetStorageType(spec)| > 0
  {
    exists v :: v in BeforeAdmin(spec, c) + AfterAdmin(spec, cluster, c) && v.name == name
  }

  /** The names of the API pod's other volumes, read off the CR. */
  function ReservedNames(spec: PulpSpec): set<string>
    requires |GetStorageType(spec)| > 0
  {
    {ServerVolume(spec), FieldsVolume(spec), CertsVolume(spec)} + StorageNamesUsed(spec) + SigningNamesUsed(spec)
    + (if spec.trustedCa then {TRUSTED_CA} else {})
    + (if spec.ldapCA != "" then {LDAP_CERT} else {})
    + (if spec.telemetryEnabled then {OTEL_CONFIG} else {})
  }

  function NamesOf(vs: seq<Volume>): set<string> { set v | v in vs :: v.name }

  lemma NamesOfConcat(a: seq<Volume>, b: seq<Volume>)
    ensures NamesOf(a + b) == NamesOf(a) + NamesOf(b)
  {
  }

  function StorageNamesUsed(spec: PulpSpec): set<string>
    requires |GetStorageType(spec)| > 0
  {
    if OnFileStorage(spec) then {FILE_STORAGE} else {}
  }

  function SigningNamesUsed(spec: PulpSpec): set<string>
    requires |GetStorageType(spec)| > 0
  {
    if spec.signingSecret == "" then {} else {GPG_KEYS, ScriptsVolume(spec)} + if OnFileStorage(spec) then {} else {EPHEMERAL_GPG}
  }

  lemma StorageUses(spec: PulpSpec)
    requires |GetStorageType(spec)| > 0
    ensures NamesOf(StorageVolumes(spec)) == StorageNamesUsed(spec)
  {
  }

  lemma TwoNames(vs: seq<Volume>, x: string, y: string)
    requires |vs| == 2 && vs[0].name == x && vs[1].name == y
    ensures NamesOf(vs) == {x, y}
  {
    assert vs[0] in vs && vs[1] in vs;
  }

  lemma SigningUses(spec: PulpSpec, cluster: Cluster)
    requires |GetStorageType(spec)| > 0
    ensures NamesOf(SigningVolumes(spec, cluster)) == SigningNamesUsed(spec)
  {
    if spec.signingSecret != "" {
      var pair := [Volume(GPG_KEYS, SecretSource(spec.signingSecret, [File(SIGNING_KEY)])),
         Volume(ScriptsVolume(spec), SecretSource(spec.signingScripts, ScriptItems(cluster.SecretOrEmpty(spec.signingScripts), SCRIPTS)))];
      var home := if OnFileStorage(spec) then [] else [Volume(EPHEMERAL_GPG, EmptyDir)];
      TwoNames(pair, GPG_KEYS, ScriptsVolume(spec));
      NamesOfConcat(home, pair);
      assert SigningVolumes(spec, cluster) == home + pair;
    }
  }

  lemma BaseNames(spec: PulpSpec)
    ensures NamesOf(BeforeAdmin(spec, Api)) == {ServerVolume(spec), FieldsVolume(spec)}
    ensures NamesOf(CertsVolumes(spec, Api)) == {CertsVolume(spec)}
  {
    var vs := BaseVolumes(spec);
    assert vs[0] in vs && vs[1] in vs;
    assert BeforeAdmin(spec, Api) == vs;
  }

  lemma OptionalNames(spec: PulpSpec)
    ensures NamesOf(CaVolumes(spec)) == if spec.trustedCa then {TRUSTED_CA} else {}
    ensures NamesOf(LdapVolumes(spec)) == if spec.ldapCA != "" then {LDAP_CERT} else {}
    ensures NamesOf(OtelVolumes(spec, Api)) == if spec.telemetryEnabled then {OTEL_CONFIG} else {}
  {
  }

  lemma SevenNames(k: seq<Volume>, a: seq<Volume>, b: seq<Volume>, c: seq<Volume>, d: seq<Volume>, e: seq<Volume>, f: seq<Volume>)
    ensures NamesOf(k + (a + b + c + d + e + f))
            == NamesOf(k) + (NamesOf(a) + NamesOf(b) + NamesOf(c) + NamesOf(d) + NamesOf(e) + NamesOf(f))
  {
    NamesOfConcat(k, a + b + c + d + e + f);
    NamesOfConcat(a, b);
    NamesOfConcat(a + b, c);
    NamesOfConcat(a + b + c, d);
    NamesOfConcat(a + b + c + d, e);
    NamesOfConcat(a + b + c + d + e, f);
  }

  lemma Reordered(x: string, y: string, z: string, a: set<string>, b: set<string>, c: set<string>, d: set<string>, e: set<string>)
    ensures {x, y} + (a + b + {z} + c + d + e) == {x, y, z} + a + b + c + d + e
  {
  }

  lemma OtherNamesAreReserved(spec: PulpSpec, cluster: Cluster)
    requires |GetStorageType(spec)| > 0
    ensures NamesOf(BeforeAdmin(spec, Api) + AfterAdmin(spec, cluster, Api)) == ReservedNames(spec)
  {
    SevenNames(BeforeAdmin(spec, Api), StorageVolumes(spec), SigningVolumes(spec, cluster), CertsVolumes(spec, Api),
               CaVolumes(spec), LdapVolumes(spec), OtelVolumes(spec, Api));
    BaseNames(spec);
    StorageUses(spec);
    SigningUses(spec, cluster);
    OptionalNames(spec);
    Reordered(ServerVolume(spec), FieldsVolume(spec), CertsVolume(spec), StorageNamesUsed(spec), SigningNamesUsed(spec),
              NamesOf(CaVolumes(spec)), NamesOf(LdapVolumes(spec)), NamesOf(OtelVolumes(spec, Api)));
  }

  lemma TakenIsReserved(spec: PulpSpec, cluster: Cluster, name: string)
    requires |GetStorageType(spec)| > 0
    ensures TakenName(spec, cluster, Api, name) <==> name in ReservedNames(spec)
  {
    OtherNamesAreReserved(spec, cluster);
  }

  /** Volume names never repeat, except that the admin password's volume is
      named by the user: they do exactly when the admin Secret of an API pod is
      given one of the names the CR's other settings use up. */
  lemma VolumeNamesDistinct(spec: PulpSpec, cluster: Cluster, c: Component)
    requires |GetStorageType(spec)| > 0
    ensures NamesDistinct(Volumes(spec, cluster, c)) <==> (c == Api ==> spec.adminPasswordSecret !in ReservedNames(spec))
  {
    var before, admin, after := BeforeAdmin(spec, c), AdminVolumes(spec, c), AfterAdmin(spec, cluster, c);
    VolumesSplit(spec, cluster, c);
    BeforeInOrder(spec, c);
    AfterInOrder(spec, cluster, c);
    InOrderConcat(before, after, 0, 4, 12);
    InOrderIsDistinct(before + after, 0, 12);
    DistinctAround(before, admin, after);
    if c == Api {
      assert admin == [admin[0]] && admin[0].name == spec.adminPasswordSecret;
      TakenIsReserved(spec, cluster, spec.adminPasswordSecret);
    }
  }

  lemma DistinctAround(before: seq<Volume>, admin: seq<Volume>, after: seq<Volume>)
    requires NamesDistinct(before + after) && |admin| <= 1
    ensures NamesDistinct(before + admin + after)
            <==> (admin != [] ==> !exists v :: v in before + after && v.name == admin[0].name)
  {
    var all := before + admin + after;
    if admin == [] {
      assert all == before + after;
    } else if exists v :: v in before + after && v.name == admin[0].name {
      var i :| 0 <= i < |before + after| && (before + after)[i].name == admin[0].name;
      assert all[|before|] == admin[0];
      assert all[if i < |before| then i else i + 1] == (before + after)[i];
    } else {
      forall i, j | 0 <= i < j < |all| ensures all[i].name != all[j].name {
        InsertedAt(before, admin, after, i);
        InsertedAt(before, admin, after, j);
      }
    }
  }

  lemma InsertedAt(before: seq<Volume>, admin: seq<Volume>, after: seq<Volume>, i: nat)
    requires |admin| == 1 && i < |before + admin + after|
    ensures var all := before + admin + after;
      if i < |before| then all[i] == (before + after)[i] && all[i] in before + after
      else if i == |before| then all[i] == admin[0]
      else all[i] == (before + after)[i - 1] && all[i] in before + after
  {
  }

  // ---- mounts name volumes ----

  lemma NamedMono(ms: seq<Mount>, a: seq<Volume>, b: seq<Volume>)
    requires AllNamed(ms, a) && forall v :: v in a ==> v in b
    ensures AllNamed(ms, b)
  {
  }

  lemma ServedMono(ms: seq<Mount>, a: seq<Volume>, b: seq<Volume>)
    requires AllServed(ms, a) && forall v :: v in a ==> v in b
    ensures AllServed(ms, b)
  {
  }

  /** Every section is part of the pod's volumes. */
  lemma Parts(spec: PulpSpec, cluster: Cluster, c: Component)
    requires |GetStorageType(spec)| > 0
    ensures var vs := Volumes(spec, cluster, c);
      && (forall v :: v in BaseVolumes(spec) || v in WorkerVolumes(spec, c) || v in AdminVolumes(spec, c) ==> v in vs)
      && (forall v :: v in StorageVolumes(spec) || v in SigningVolumes(spec, cluster) || v in CertsVolumes(spec, c) ==> v in vs)
      && (forall v :: v in CaVolumes(spec) || v in LdapVolumes(spec) || v in OtelVolumes(spec, c) ==> v in vs)
  {
  }

  lemma BaseServed(spec: PulpSpec, c: Component)
    ensures AllServed(BaseMounts(spec), BaseVolumes(spec))
    ensures AllServed(WorkerMounts(spec, c), WorkerVolumes(spec, c))
  {
    var vs, ms := BaseVolumes(spec), BaseMounts(spec);
    assert vs[0].source.items[0] == File(SETTINGS_FILE) && vs[1].source.items[0] == File(FIELDS_KEY);
    assert Fits(ms[0], vs[0]) && Fits(ms[1], vs[1]);
    if c == Worker {
      var wv, wm := WorkerVolumes(spec, c), WorkerMounts(spec, c);
      assert Fits(wm[0], wv[0]);
      if Ipv6Off(spec) {
        assert wv[1].source.items[0] == File(PROBE_FILE);
        assert Fits(wm[1], wv[1]);
      }
    }
  }

  lemma AdminServed(spec: PulpSpec, c: Component)
    ensures AllServed(AdminMounts(spec, c), AdminVolumes(spec, c))
  {
    if c == Api {
      var v, m := AdminVolumes(spec, c)[0], AdminMounts(spec, c)[0];
      assert v.source.items[0].path == m.subPath;
      assert Fits(m, v);
    }
  }

  lemma StorageServed(spec: PulpSpec)
    requires |GetStorageType(spec)| > 0
    ensures AllServed(StorageMounts(spec), StorageVolumes(spec))
  {
    if OnFileStorage(spec) {
      assert Fits(StorageMounts(spec)[0], StorageVolumes(spec)[0]);
    }
  }

  lemma GpgServed(spec: PulpSpec, cluster: Cluster)
    requires |GetStorageType(spec)| > 0 && spec.signingSecret != ""
    ensures AllServed([GpgMounts(spec)[0]] + GpgHomeMounts(spec), SigningVolumes(spec, cluster))
  {
    var vs := SigningVolumes(spec, cluster);
    var k := if OnFileStorage(spec) then 0 else 1;
    assert vs[k].source.items[0] == File(SIGNING_KEY);
    assert Fits(GpgMounts(spec)[0], vs[k]);
    if !OnFileStorage(spec) { assert Fits(GpgHomeMounts(spec)[0], vs[0]); }
  }

  lemma SidesServed(spec: PulpSpec, cluster: Cluster, c: Component)
    ensures AllServed(CaMounts(spec), CaVolumes(spec))
    ensures AllServed(LdapMounts(spec, cluster), LdapVolumes(spec))
    ensures HasSidecar(spec, c) ==> AllServed(SidecarMounts(), OtelVolumes(spec, c))
  {
    if spec.trustedCa { assert Fits(CaMounts(spec)[0], CaVolumes(spec)[0]); }
    if spec.ldapCA != "" {
      assert LdapVolumes(spec)[0].source.items[0] == File("ca.crt");
      assert Fits(LdapMounts(spec, cluster)[0], LdapVolumes(spec)[0]);
    }
    if HasSidecar(spec, c) { assert Fits(SidecarMounts()[0], OtelVolumes(spec, c)[0]); }
  }

  lemma ServedIsNamed(ms: seq<Mount>, vs: seq<Volume>)
    requires AllServed(ms, vs)
    ensures AllNamed(ms, vs)
  {
  }

  lemma CertsNamed(spec: PulpSpec, c: Component)
    ensures AllNamed(CertsMounts(spec, c), CertsVolumes(spec, c))
  {
    if CertsMounts(spec, c) != [] {
      assert CertsVolumes(spec, c)[0].name == CertsVolume(spec);
      assert CertsVolumes(spec, c)[0] in CertsVolumes(spec, c);
    }
  }

  /** The certificates fit exactly when the user kept the two file names the
      mounts ask for (in either order). */
  predicate CertNamesKept(spec: PulpSpec) {
    && (spec.containerAuthPublicKey == PUBLIC_KEY || spec.containerAuthPrivateKey == PUBLIC_KEY)
    && (spec.containerAuthPublicKey == PRIVATE_KEY || spec.containerAuthPrivateKey == PRIVATE_KEY)
  }

  lemma CertsFit(spec: PulpSpec, c: Component)
    requires CertsMounts(spec, c) != []
    ensures Fits(CertsMounts(spec, c)[0], CertsVolumes(spec, c)[0]) && Fits(CertsMounts(spec, c)[1], CertsVolumes(spec, c)[0])
            <==> CertNamesKept(spec)
  {
    var v := CertsVolumes(spec, c)[0];
    var items := v.source.items;
    assert items[0] in items && items[1] in items;
    assert items[0].path == spec.containerAuthPublicKey && items[1].path == spec.containerAuthPrivateKey;
    assert PUBLIC_KEY != "" && PRIVATE_KEY != "" by { assert |PUBLIC_KEY| > 0 && |PRIVATE_KEY| > 0; }
  }

  lemma {:induction false} MountsOfShape(volume: string, items: seq<KeyToPath>)
    ensures |MountsOf(volume, items)| == |items|
    ensures forall i :: 0 <= i < |items| ==> MountsOf(volume, items)[i].name == volume && MountsOf(volume, items)[i].subPath == items[i].key
  {
    if items != [] { MountsOfShape(volume, items[..|items| - 1]); }
  }

  lemma {:induction false} ItemsKeepNames(data: map<string, string>, scripts: seq<string>)
    ensures forall i :: i in ScriptItems(data, scripts) ==> i.path == i.key
  {
    if scripts != [] { ItemsKeepNames(data, scripts[..|scripts| - 1]); }
  }

  lemma {:induction false} FirstNamedIs(vs: seq<Volume>, name: string)
    ensures match FirstNamed(vs, name)
      case Some(v) => v in vs && v.name == name
      case None => forall v :: v in vs ==> v.name != name
  {
    if vs != [] && vs[0].name != name {
      FirstNamedIs(vs[1..], name);
      assert forall v :: v in vs <==> v == vs[0] || v in vs[1..];
    }
  }

  lemma ScriptsNamed(vs: seq<Volume>, name: string)
    ensures AllNamed(ScriptMounts(vs, name), vs)
  {
    FirstNamedIs(vs, name);
    match FirstNamed(vs, name)
    case None =>
    case Some(v) => if v.source.SecretSource? { MountsOfShape(name, v.source.items); }
  }

  lemma DistinctIsUnique(vs: seq<Volume>, a: Volume, b: Volume)
    requires NamesDistinct(vs) && a in vs && b in vs && a.name == b.name
    ensures a == b
  {
  }

  lemma PrefixDistinct(a: seq<Volume>, b: seq<Volume>)
    requires NamesDistinct(a + b)
    ensures NamesDistinct(a)
  {
    forall i, j | 0 <= i < j < |a| ensures a[i].name != a[j].name {
      assert (a + b)[i] == a[i] && (a + b)[j] == a[j];
    }
  }

  /** Each script that is mounted is an item of the volume it is mounted from. */
  lemma ScriptsServed(spec: PulpSpec, cluster: Cluster, c: Component)
    requires |GetStorageType(spec)| > 0 && spec.signingSecret != ""
    requires NamesDistinct(Volumes(spec, cluster, c))
    ensures AllServed(ScriptMounts(SetVolumesResult(spec, cluster, c), ScriptsVolume(spec)), SigningVolumes(spec, cluster))
  {
    var vs := SetVolumesResult(spec, cluster, c);
    var own := SigningVolumes(spec, cluster);
    var scripts := own[|own| - 1];
    assert scripts in own && scripts in vs && scripts.name == ScriptsVolume(spec);
    assert Volumes(spec, cluster, c) == vs + (LdapVolumes(spec) + OtelVolumes(spec, c));
    PrefixDistinct(vs, LdapVolumes(spec) + OtelVolumes(spec, c));
    FirstNamedIs(vs, ScriptsVolume(spec));
    DistinctIsUnique(vs, scripts, FirstNamed(vs, ScriptsVolume(spec)).value);
    var items := ScriptItems(cluster.SecretOrEmpty(spec.signingScripts), SCRIPTS);
    ItemsKeepNames(cluster.SecretOrEmpty(spec.signingScripts), SCRIPTS);
    MountsOfShape(ScriptsVolume(spec), items);
    var ms := MountsOf(ScriptsVolume(spec), items);
    forall i | 0 <= i < |ms| ensures Fits(ms[i], scripts) {
      assert items[i] in items && items[i].path == ms[i].subPath;
    }
  }

  // ---- the whole pod ----

  lemma NamedConcat(a: seq<Mount>, b: seq<Mount>, vs: seq<Volume>)
    requires AllNamed(a, vs) && AllNamed(b, vs)
    ensures AllNamed(a + b, vs)
  {
  }

  lemma ServedConcat(a: seq<Mount>, b: seq<Mount>, vs: seq<Volume>)
    ensures AllServed(a + b, vs) <==> AllServed(a, vs) && AllServed(b, vs)
  {
    assert forall m :: m in a + b <==> m in a || m in b;
  }

  /** All sections but the certificates and the scripts. */
  lemma SectionsServed(spec: PulpSpec, cluster: Cluster, c: Component)
    requires |GetStorageType(spec)| > 0
    ensures var vs := Volumes(spec, cluster, c);
      && AllServed(BaseMounts(spec), vs) && AllServed(WorkerMounts(spec, c), vs) && AllServed(AdminMounts(spec, c), vs)
      && AllServed(StorageMounts(spec), vs) && AllServed(CaMounts(spec), vs) && AllServed(LdapMounts(spec, cluster), vs)
      && (HasSidecar(spec, c) ==> AllServed(SidecarMounts(), vs))
      && (spec.signingSecret != "" ==> AllServed([GpgMounts(spec)[0]] + GpgHomeMounts(spec), vs))
  {
    var vs := Volumes(spec, cluster, c);
    Parts(spec, cluster, c);
    BaseServed(spec, c);
    ServedMono(BaseMounts(spec), BaseVolumes(spec), vs);
    ServedMono(WorkerMounts(spec, c), WorkerVolumes(spec, c), vs);
    AdminServed(spec, c);
    ServedMono(AdminMounts(spec, c), AdminVolumes(spec, c), vs);
    StorageServed(spec);
    ServedMono(StorageMounts(spec), StorageVolumes(spec), vs);
    SidesServed(spec, cluster, c);
    ServedMono(CaMounts(spec), CaVolumes(spec), vs);
    ServedMono(LdapMounts(spec, cluster), LdapVolumes(spec), vs);
    if HasSidecar(spec, c) { ServedMono(SidecarMounts(), OtelVolumes(spec, c), vs); }
    if spec.signingSecret != "" {
      GpgServed(spec, cluster);
      ServedMono([GpgMounts(spec)[0]] + GpgHomeMounts(spec), SigningVolumes(spec, cluster), vs);
    }
  }

  lemma GpgMountsParts(spec: PulpSpec, vs: seq<Volume>)
    requires |GetStorageType(spec)| > 0
    requires AllServed([GpgMounts(spec)[0]] + GpgHomeMounts(spec), vs) && AllServed(StorageMounts(spec), vs)
    ensures AllServed(GpgMounts(spec), vs) && AllServed(GpgHomeMounts(spec), vs)
  {
    ServedConcat([GpgMounts(spec)[0]], GpgHomeMounts(spec), vs);
    ServedConcat([GpgMounts(spec)[0]], StorageMounts(spec), vs);
    ServedConcat([GpgMounts(spec)[0]] + StorageMounts(spec), GpgHomeMounts(spec), vs);
    assert [GpgMounts(spec)[0]] + StorageMounts(spec) + GpgHomeMounts(spec) == GpgMounts(spec);
  }

  lemma MainNamed(spec: PulpSpec, cluster: Cluster, c: Component)
    requires |GetStorageType(spec)| > 0
    ensures AllNamed(VolumeMounts(spec, cluster, c), Volumes(spec, cluster, c))
  {
    var vs := Volumes(spec, cluster, c);
    SectionsServed(spec, cluster, c);
    SigningNamed(spec, cluster, c);
    Parts(spec, cluster, c);
    CertsNamed(spec, c);
    NamedMono(CertsMounts(spec, c), CertsVolumes(spec, c), vs);
    EightNamed(BaseMounts(spec), WorkerMounts(spec, c), AdminMounts(spec, c), StorageMounts(spec),
               SigningMounts(spec, SetVolumesResult(spec, cluster, c)), CertsMounts(spec, c), CaMounts(spec), LdapMounts(spec, cluster), vs);
  }

  lemma SigningNamed(spec: PulpSpec, cluster: Cluster, c: Component)
    requires |GetStorageType(spec)| > 0
    ensures AllNamed(SigningMounts(spec, SetVolumesResult(spec, cluster, c)), Volumes(spec, cluster, c))
  {
    if spec.signingSecret != "" {
      var vs, own := Volumes(spec, cluster, c), SetVolumesResult(spec, cluster, c);
      SectionsServed(spec, cluster, c);
      GpgMountsParts(spec, vs);
      ServedIsNamed(GpgHomeMounts(spec), vs);
      ScriptsNamed(own, ScriptsVolume(spec));
      NamedMono(ScriptMounts(own, ScriptsVolume(spec)), own, vs);
      NamedConcat(GpgHomeMounts(spec), ScriptMounts(own, ScriptsVolume(spec)), vs);
    }
  }

  lemma EightNamed(a: seq<Mount>, b: seq<Mount>, c: seq<Mount>, d: seq<Mount>, e: seq<Mount>, f: seq<Mount>, g: seq<Mount>, h: seq<Mount>, vs: seq<Volume>)
    requires AllServed(a, vs) && AllServed(b, vs) && AllServed(c, vs) && AllServed(d, vs) && AllNamed(e, vs) && AllNamed(f, vs) && AllServed(g, vs) && AllServed(h, vs)
    ensures AllNamed(a + b + c + d + e + f + g + h, vs)
  {
  }

  lemma InitServed(spec: PulpSpec, cluster: Cluster, c: Component, fingerprint: string)
    requires |GetStorageType(spec)| > 0
    ensures forall k :: k in Built(spec, cluster, c, fingerprint).initContainers ==> AllServed(k.mounts, Volumes(spec, cluster, c))
  {
    var vs := Volumes(spec, cluster, c);
    SectionsServed(spec, cluster, c);
    ServedConcat(BaseMounts(spec), StorageMounts(spec), vs);
    if spec.signingSecret != "" { GpgMountsParts(spec, vs); }
  }

  lemma SidecarServed(spec: PulpSpec, cluster: Cluster, c: Component, fingerprint: string)
    requires |GetStorageType(spec)| > 0
    ensures var k := Built(spec, cluster, c, fingerprint).containers;
      |k| > 0 && k[0].mounts == VolumeMounts(spec, cluster, c) && forall i :: 0 < i < |k| ==> AllServed(k[i].mounts, Volumes(spec, cluster, c))
  {
    SectionsServed(spec, cluster, c);
  }

  lemma NamedContainers(ks: seq<Container>, vs: seq<Volume>, from: nat)
    requires forall i :: from <= i < |ks| ==> AllServed(ks[i].mounts, vs)
    ensures forall i :: from <= i < |ks| ==> AllNamed(ks[i].mounts, vs)
  {
    forall i | from <= i < |ks| ensures AllNamed(ks[i].mounts, vs) { ServedIsNamed(ks[i].mounts, vs); }
  }

  /** Every mount of every container names a volume of the pod, for every CR
      the storage precheck lets through. */
  lemma MountsNameVolumes(spec: PulpSpec, cluster: Cluster, c: Component, fingerprint: string)
    requires StorageOk(spec)
    ensures |GetStorageType(spec)| > 0 && PodNamed(Built(spec, cluster, c, fingerprint))
  {
    StorageIndexInBounds(spec);
    InitServed(spec, cluster, c, fingerprint);
    SidecarServed(spec, cluster, c, fingerprint);
    MainNamed(spec, cluster, c);
    NamedContainers(Built(spec, cluster, c, fingerprint).initContainers, Volumes(spec, cluster, c), 0);
    NamedContainers(Built(spec, cluster, c, fingerprint).containers, Volumes(spec, cluster, c), 1);
  }

  /** Every mounted file is an item of its volume exactly when the API pod's
      certificate files kept their names. */
  lemma MountedFilesExist(spec: PulpSpec, cluster: Cluster, c: Component, fingerprint: string)
    requires StorageOk(spec)
    requires |GetStorageType(spec)| > 0 && NamesDistinct(Volumes(spec, cluster, c))
    ensures PodServed(Built(spec, cluster, c, fingerprint))
            <==> (c == Api && spec.containerTokenSecret != "" ==> CertNamesKept(spec))
  {
    InitServed(spec, cluster, c, fingerprint);
    SidecarServed(spec, cluster, c, fingerprint);
    MainServed(spec, cluster, c);
    assert Built(spec, cluster, c, fingerprint).containers[0] in Built(spec, cluster, c, fingerprint).containers;
  }

  lemma SigningServed(spec: PulpSpec, cluster: Cluster, c: Component)
    requires |GetStorageType(spec)| > 0 && NamesDistinct(Volumes(spec, cluster, c))
    ensures AllServed(SigningMounts(spec, SetVolumesResult(spec, cluster, c)), Volumes(spec, cluster, c))
  {
    if spec.signingSecret != "" {
      var vs, own := Volumes(spec, cluster, c), SetVolumesResult(spec, cluster, c);
      Parts(spec, cluster, c);
      SectionsServed(spec, cluster, c);
      GpgMountsParts(spec, vs);
      ScriptsServed(spec, cluster, c);
      ServedMono(ScriptMounts(own, ScriptsVolume(spec)), SigningVolumes(spec, cluster), vs);
      ServedConcat(GpgHomeMounts(spec), ScriptMounts(own, ScriptsVolume(spec)), vs);
    }
  }

  lemma CertsServed(spec: PulpSpec, cluster: Cluster, c: Component)
    requires |GetStorageType(spec)| > 0 && NamesDistinct(Volumes(spec, cluster, c))
    ensures AllServed(CertsMounts(spec, c), Volumes(spec, cluster, c))
            <==> (c == Api && spec.containerTokenSecret != "" ==> CertNamesKept(spec))
  {
    var vs := Volumes(spec, cluster, c);
    var ms := CertsMounts(spec, c);
    if ms != [] {
      Parts(spec, cluster, c);
      var own := CertsVolumes(spec, c)[0];
      assert own in CertsVolumes(spec, c) && own in vs;
      CertsFit(spec, c);
      assert ms == [ms[0], ms[1]];
      forall m | m in ms && Served(m, vs) ensures Fits(m, own) {
        var v :| v in vs && Fits(m, v);
        DistinctIsUnique(vs, v, own);
      }
    }
  }

  lemma MainServed(spec: PulpSpec, cluster: Cluster, c: Component)
    requires |GetStorageType(spec)| > 0 && NamesDistinct(Volumes(spec, cluster, c))
    ensures AllServed(VolumeMounts(spec, cluster, c), Volumes(spec, cluster, c))
            <==> (c == Api && spec.containerTokenSecret != "" ==> CertNamesKept(spec))
  {
    SectionsServed(spec, cluster, c);
    SigningServed(spec, cluster, c);
    CertsServed(spec, cluster, c);
    EightServed(BaseMounts(spec), WorkerMounts(spec, c), AdminMounts(spec, c), StorageMounts(spec),
                SigningMounts(spec, SetVolumesResult(spec, cluster, c)), CertsMounts(spec, c), CaMounts(spec), LdapMounts(spec, cluster), Volumes(spec, cluster, c));
  }

  lemma EightServed(a: seq<Mount>, b: seq<Mount>, c: seq<Mount>, d: seq<Mount>, e: seq<Mount>, f: seq<Mount>, g: seq<Mount>, h: seq<Mount>, vs: seq<Volume>)
    requires AllServed(a, vs) && AllServed(b, vs) && AllServed(c, vs) && AllServed(d, vs) && AllServed(e, vs) && AllServed(g, vs) && AllServed(h, vs)
    ensures AllServed(a + b + c + d + e + f + g + h, vs) <==> AllServed(f, vs)
  {
    ServedConcat(a, b, vs);
    ServedConcat(a + b, c, vs);
    ServedConcat(a + b + c, d, vs);
    ServedConcat(a + b + c + d, e, vs);
    ServedConcat(a + b + c + d + e, f, vs);
    ServedConcat(a + b + c + d + e + f, g, vs);
    ServedConcat(a + b + c + d + e + f + g, h, vs);
  }

  // ---- objects behind the volumes ----

  datatype Ref = SecretRef(name: string) | ConfigMapRef(name: string) | ClaimRef(name: string)

  function RefsOf(v: Volume): set<Ref> {
    match v.source
    case SecretSource(s, _) => {SecretRef(s)}
    case ConfigMapSource(m, _) => {ConfigMapRef(m)}
    case ClaimSource(p) => {ClaimRef(p)}
    case EmptyDir => {}
  }

  /** Objects a synced pass has created, under the names the CR carries then. */
  function OperatorObjects(spec: PulpSpec): set<Ref> {
    {SecretRef(spec.name + "-server"), SecretRef(spec.dbFieldsEncryptionSecret), SecretRef(spec.adminPasswordSecret),
     SecretRef(spec.containerTokenSecret)}
    + (if Ipv6Off(spec) then {ConfigMapRef(spec.name + "-worker-probe")} else {})
    + (if spec.fileStorageClass != "" then {ClaimRef(spec.name + "-file-storage")} else {})
    + (if spec.telemetryEnabled then {ConfigMapRef(spec.name + "-otel-collector-config")} else {})
    + (if spec.trustedCa && spec.trustedCaConfigMapKey.None? then {ConfigMapRef(spec.name + "-user-ca-bundle")} else {})
  }

  /** Objects the user names in the CR. */
  function UserObjects(spec: PulpSpec): set<Ref> {
    (if spec.pvc != "" then {ClaimRef(spec.pvc)} else {})
    + (if spec.signingSecret != "" then {SecretRef(spec.signingSecret), SecretRef(spec.signingScripts)} else {})
    + (if spec.ldapCA != "" then {SecretRef(spec.ldapCA)} else {})
    + (if spec.trustedCa && spec.trustedCaConfigMapKey.Some?
       then {ConfigMapRef(SplitCAConfigMapNameKey(spec.trustedCaConfigMapKey.value).0)} else {})
  }

  ghost predicate Known(vs: seq<Volume>, refs: set<Ref>) { forall v :: v in vs ==> RefsOf(v) <= refs }

  lemma BaseKnown(spec: PulpSpec, c: Component)
    ensures Known(BaseVolumes(spec), OperatorObjects(spec))
    ensures Known(WorkerVolumes(spec, c), OperatorObjects(spec))
    ensures Known(AdminVolumes(spec, c), OperatorObjects(spec))
    ensures Known(CertsVolumes(spec, c), OperatorObjects(spec))
    ensures Known(OtelVolumes(spec, c), OperatorObjects(spec))
  {
  }

  lemma StorageKnown(spec: PulpSpec, cluster: Cluster)
    requires StorageOk(spec) && |GetStorageType(spec)| > 0
    ensures Known(StorageVolumes(spec), OperatorObjects(spec) + UserObjects(spec))
    ensures Known(SigningVolumes(spec, cluster), UserObjects(spec))
  {
    StorageIndexInBounds(spec);
  }

  lemma SidesKnown(spec: PulpSpec)
    ensures Known(CaVolumes(spec), OperatorObjects(spec) + UserObjects(spec))
    ensures Known(LdapVolumes(spec), UserObjects(spec))
  {
  }

  /** No volume refers to anything else. */
  lemma VolumesNameKnownObjects(spec: PulpSpec, cluster: Cluster, c: Component)
    requires StorageOk(spec)
    ensures |GetStorageType(spec)| > 0
    ensures Known(Volumes(spec, cluster, c), OperatorObjects(spec) + UserObjects(spec))
  {
    StorageIndexInBounds(spec);
    var refs := OperatorObjects(spec) + UserObjects(spec);
    BaseKnown(spec, c);
    StorageKnown(spec, cluster);
    SidesKnown(spec);
    KnownNine(BaseVolumes(spec), WorkerVolumes(spec, c), AdminVolumes(spec, c), StorageVolumes(spec), SigningVolumes(spec, cluster),
              CertsVolumes(spec, c), CaVolumes(spec), LdapVolumes(spec), OtelVolumes(spec, c), OperatorObjects(spec), UserObjects(spec));
  }

  lemma KnownNine(a: seq<Volume>, b: seq<Volume>, c: seq<Volume>, d: seq<Volume>, e: seq<Volume>, f: seq<Volume>, g: seq<Volume>,
                  h: seq<Volume>, i: seq<Volume>, own: set<Ref>, user: set<Ref>)
    requires Known(a, own) && Known(b, own) && Known(c, own) && Known(d, own + user) && Known(e, user)
    requires Known(f, own) && Known(g, own + user) && Known(h, user) && Known(i, own)
    ensures Known(a + b + c + d + e + f + g + h + i, own + user)
  {
    assert forall v :: v in a || v in b || v in c || v in e || v in f || v in h || v in i ==> RefsOf(v) <= own + user;
    assert forall v :: v in a + b + c + d + e + f + g + h + i <==> v in a || v in b || v in c || v in d || v in e || v in f || v in g || v in h || v in i;
  }
}
