/** What Pulp reads in the rendered file for the settings of each feature, in
    terms of the CR and of the keys of the Secrets it names. */
module SettingsValues {
  import opened Text
  import opened Pulp
  import opened Settings
  import opened SettingsLaws
  import opened CustomValues
  import A = SettingsAgreement

  // ---- the last word on a guarded name ----

  lemma GuardedSilence(spec: PulpSpec, cluster: Cluster, order: seq<Flag>, n: string)
    requires n in GUARDED_NAMES && n !in CustomNames(spec, cluster)
    ensures Last(n, HEADER) == None && Last(n, DebugSection(spec)) == None && Last(n, CacheSection(spec, cluster)) == None
    ensures Last(n, SsoSection(spec, cluster)) == None && Last(n, LdapSection(spec, cluster)) == None
    ensures Last(n, CustomSection(spec, cluster)) == None
    ensures Last(n, FlagSection(spec, CustomNames(spec, cluster), order)) == None
  {
    assert Protected(n);
    ProtectedIsGuarded(n);
    GuardedAndDefaultDiffer(n);
    UnguardedSilence(spec, cluster, order, n);
    CustomSectionLaws(spec, cluster, n);
    SilentLaws(n, HEADER);
    SilentLaws(n, DebugSection(spec));
    SilentLaws(n, CacheSection(spec, cluster));
    SilentLaws(n, SsoSection(spec, cluster));
    SilentLaws(n, LdapSection(spec, cluster));
    FlagsSilent(spec, CustomNames(spec, cluster), order, n);
    SilentLaws(n, FlagSection(spec, CustomNames(spec, cluster), order));
  }

  ghost function StorageValue(spec: PulpSpec, cluster: Cluster, n: string): Option<Value> {
    LaterStorage(spec, cluster, CustomNames(spec, cluster), n)
  }

  ghost function TextValue(spec: PulpSpec, cluster: Cluster, n: string): Option<Value> {
    var custom := CustomNames(spec, cluster);
    Or(Last(n, ChecksumSection(spec, custom)), Or(Last(n, SecretKeySection(spec, cluster, custom)), Last(n, TokenSection(spec, custom))))
  }

  /** A guarded name that is not overridden is what its sections make of it. */
  lemma GuardedLast(spec: PulpSpec, cluster: Cluster, order: seq<Flag>, n: string)
    requires n in GUARDED_NAMES && n !in CustomNames(spec, cluster)
    ensures Last(n, Rendered(spec, cluster, order))
            == Or(TextValue(spec, cluster, n), Or(StorageValue(spec, cluster, n), Last(n, DatabaseSection(spec, cluster, CustomNames(spec, cluster)))))
  {
    var custom := CustomNames(spec, cluster);
    GuardedSilence(spec, cluster, order, n);
    FiveLast(n, HEADER, CustomSection(spec, cluster), DebugSection(spec), DatabaseSection(spec, cluster, custom), CacheSection(spec, cluster));
    FiveLast(n, RenderedHead(spec, cluster), AzureSection(spec, cluster, custom), GcsSection(spec, cluster, custom),
             S3Section(spec, cluster, custom), SsoSection(spec, cluster));
    FiveLast(n, RenderedStorage(spec, cluster), TokenSection(spec, custom), SecretKeySection(spec, cluster, custom),
             ChecksumSection(spec, custom), LdapSection(spec, cluster));
    LastOr(n, RenderedStable(spec, cluster), FlagSection(spec, custom, order));
  }

  // ---- reading a Secret ----

  function Key(data: map<string, string>, k: string): string { if k in data then data[k] else "" }

  lemma RetrievedKey(cluster: Cluster, secret: string, required: bool, keys: seq<string>, k: string)
    requires k in keys && (required ==> Retrieved(cluster, secret, required, keys).Some?)
    ensures At(Retrieved(cluster, secret, required, keys), k) == Key(cluster.SecretOrEmpty(secret), k)
  {
  }

  lemma RetrievedExactly(cluster: Cluster, secret: string, keys: seq<string>)
    ensures Retrieved(cluster, secret, true, keys).Some? <==> cluster.Secret(secret).Some? && forall k :: k in keys ==> k in cluster.SecretOrEmpty(secret)
  {
  }

  // ---- the options of an object storage ----

  /** What Python's dictionary holds for a key. */
  function OptionOf(options: seq<(string, string)>, k: string): Option<string> {
    if options == [] then None
    else if options[|options| - 1].0 == k then Some(options[|options| - 1].1)
    else OptionOf(options[..|options| - 1], k)
  }

  function Else(later: Option<string>, earlier: Option<string>): Option<string> { if later.Some? then later else earlier }

  lemma {:induction false} OptionOfConcat(a: seq<(string, string)>, b: seq<(string, string)>, k: string)
    ensures OptionOf(a + b, k) == Else(OptionOf(b, k), OptionOf(a, k))
  {
    if b == [] {
      assert a + b == a;
    } else {
      var n := |b| - 1;
      assert (a + b)[..|a + b| - 1] == a + b[..n] && (a + b)[|a + b| - 1] == b[n];
      OptionOfConcat(a, b[..n], k);
    }
  }

  lemma OptionOfOne(x: string, v: string, k: string)
    ensures OptionOf([(x, v)], k) == if k == x then Some(v) else None
  {
    assert [(x, v)][..0] == [];
  }

  function NonEmpty(v: string): Option<string> { if v == "" then None else Some(v) }

  lemma OptionOfOptional(x: string, v: string, k: string)
    ensures OptionOf(Optional(x, v), k) == if k == x then NonEmpty(v) else None
  {
    if v != "" { OptionOfOne(x, v, k); }
  }

  lemma OptionOfTwo(x: string, v: string, y: string, w: string, k: string)
    ensures OptionOf([(x, v), (y, w)], k) == if k == y then Some(w) else if k == x then Some(v) else None
  {
    assert [(x, v), (y, w)][..1] == [(x, v)];
    OptionOfOne(x, v, k);
  }

  // ---- S3 ----

  /** Where each option of the S3 storage comes from. */
  function S3Option(data: map<string, string>, k: string): Option<string> {
    if k == "bucket_name" then Some(Key(data, "s3-bucket-name"))
    else if k == "addressing_style" then Some(if Key(data, "s3-addressing-style") == "" then "path" else Key(data, "s3-addressing-style"))
    else if k == "access_key" then NonEmpty(Key(data, "s3-access-key-id"))
    else if k == "secret_key" then NonEmpty(Key(data, "s3-secret-access-key"))
    else if k == "endpoint_url" then NonEmpty(Key(data, "s3-endpoint"))
    else if k == "region_name" then NonEmpty(Key(data, "s3-region"))
    else None
  }

  lemma S3Keys(cluster: Cluster, secret: string)
    ensures var o, data := Retrieved(cluster, secret, false, S3_OPTIONAL), cluster.SecretOrEmpty(secret);
      && At(o, "s3-endpoint") == Key(data, "s3-endpoint") && At(o, "s3-region") == Key(data, "s3-region")
      && At(o, "s3-access-key-id") == Key(data, "s3-access-key-id") && At(o, "s3-secret-access-key") == Key(data, "s3-secret-access-key")
      && At(o, "s3-addressing-style") == Key(data, "s3-addressing-style")
  {
    var m := S3_OPTIONAL;
    assert m[0] in m && m[1] in m && m[2] in m && m[3] in m && m[4] in m;
    RetrievedKey(cluster, secret, false, S3_OPTIONAL, "s3-endpoint");
    RetrievedKey(cluster, secret, false, S3_OPTIONAL, "s3-region");
    RetrievedKey(cluster, secret, false, S3_OPTIONAL, "s3-access-key-id");
    RetrievedKey(cluster, secret, false, S3_OPTIONAL, "s3-secret-access-key");
    RetrievedKey(cluster, secret, false, S3_OPTIONAL, "s3-addressing-style");
  }

  lemma S3OptionNamesDiffer(k: string)
    ensures k in {"bucket_name", "addressing_style"} ==> |k| == 11 || |k| == 16
    ensures k == "access_key" ==> |k| == 10 && k[0] == 'a'
    ensures k == "secret_key" ==> |k| == 10 && k[0] == 's'
    ensures k == "endpoint_url" ==> |k| == 12
    ensures k == "region_name" ==> |k| == 11 && k[0] == 'r'
    ensures k == "bucket_name" ==> |k| == 11 && k[0] == 'b'
    ensures k == "addressing_style" ==> |k| == 16
  {
  }

  /** The six parts in the order they are appended, over any values. */
  lemma SixOptions(style: string, bucket: string, s: string, a: string, e: string, r: string, k: string)
    ensures var o := [("addressing_style", style), ("bucket_name", bucket)] + Optional("secret_key", s) + Optional("access_key", a)
                     + Optional("endpoint_url", e) + Optional("region_name", r);
      OptionOf(o, k) == if k == "bucket_name" then Some(bucket) else if k == "addressing_style" then Some(style)
                        else if k == "access_key" then NonEmpty(a) else if k == "secret_key" then NonEmpty(s)
                        else if k == "endpoint_url" then NonEmpty(e) else if k == "region_name" then NonEmpty(r) else None
  {
    var o := [("addressing_style", style), ("bucket_name", bucket)];
    var p := o + Optional("secret_key", s);
    var q := p + Optional("access_key", a);
    var t := q + Optional("endpoint_url", e);
    OptionOfTwo("addressing_style", style, "bucket_name", bucket, k);
    OptionOfOptional("secret_key", s, k);
    OptionOfOptional("access_key", a, k);
    OptionOfOptional("endpoint_url", e, k);
    OptionOfOptional("region_name", r, k);
    OptionOfConcat(o, Optional("secret_key", s), k);
    OptionOfConcat(p, Optional("access_key", a), k);
    OptionOfConcat(q, Optional("endpoint_url", e), k);
    OptionOfConcat(t, Optional("region_name", r), k);
    S3OptionNamesDiffer(k);
  }

  lemma S3OptionsHold(cluster: Cluster, secret: string, k: string)
    requires Retrieved(cluster, secret, true, ["s3-bucket-name"]).Some?
    ensures OptionOf(S3Options(Retrieved(cluster, secret, true, ["s3-bucket-name"]), Retrieved(cluster, secret, false, S3_OPTIONAL)), k)
            == S3Option(cluster.SecretOrEmpty(secret), k)
  {
    var d, o, data := Retrieved(cluster, secret, true, ["s3-bucket-name"]), Retrieved(cluster, secret, false, S3_OPTIONAL), cluster.SecretOrEmpty(secret);
    var b := ["s3-bucket-name"];
    assert b[0] in b;
    RetrievedKey(cluster, secret, true, b, "s3-bucket-name");
    S3Keys(cluster, secret);
    SixOptions(AddressingStyle(o), At(d, "s3-bucket-name"), At(o, "s3-secret-access-key"), At(o, "s3-access-key-id"),
               At(o, "s3-endpoint"), At(o, "s3-region"), k);
  }

  // ---- Azure and GCS ----

  function AzureOption(data: map<string, string>, k: string): Option<string> {
    if k == "connection_string" then Some(Key(data, "azure-connection-string"))
    else if k == "account_name" then Some(Key(data, "azure-account-name"))
    else if k == "azure_container" then Some(Key(data, "azure-container"))
    else if k == "account_key" then Some(Key(data, "azure-account-key"))
    else if k == "location" then Some(Key(data, "azure-container-path"))
    else None
  }

  lemma AzureOptionNamesDiffer(k: string)
    ensures k == "connection_string" ==> |k| == 17
    ensures k == "account_name" ==> |k| == 12
    ensures k == "azure_container" ==> |k| == 15
    ensures k == "account_key" ==> |k| == 11
    ensures k == "location" ==> |k| == 8
  {
  }

  lemma FiveOptions(c: string, n: string, z: string, a: string, l: string, k: string)
    ensures OptionOf([("connection_string", c), ("account_name", n), ("azure_container", z), ("account_key", a), ("location", l)], k)
            == if k == "connection_string" then Some(c) else if k == "account_name" then Some(n) else if k == "azure_container" then Some(z)
               else if k == "account_key" then Some(a) else if k == "location" then Some(l) else None
  {
    var x, y, w := [("connection_string", c), ("account_name", n)], [("azure_container", z), ("account_key", a)], [("location", l)];
    OptionOfTwo("connection_string", c, "account_name", n, k);
    OptionOfTwo("azure_container", z, "account_key", a, k);
    OptionOfOne("location", l, k);
    OptionOfConcat(x, y, k);
    OptionOfConcat(x + y, w, k);
    assert x + y + w == [("connection_string", c), ("account_name", n), ("azure_container", z), ("account_key", a), ("location", l)];
    AzureOptionNamesDiffer(k);
  }

  lemma AzureOptionsHold(cluster: Cluster, secret: string, k: string)
    requires Retrieved(cluster, secret, true, AZURE_KEYS).Some?
    ensures OptionOf(AzureOptions(Retrieved(cluster, secret, true, AZURE_KEYS)), k) == AzureOption(cluster.SecretOrEmpty(secret), k)
  {
    var d, m := Retrieved(cluster, secret, true, AZURE_KEYS), AZURE_KEYS;
    assert m[0] in m && m[1] in m && m[2] in m && m[3] in m && m[4] in m;
    RetrievedKey(cluster, secret, true, AZURE_KEYS, "azure-account-name");
    RetrievedKey(cluster, secret, true, AZURE_KEYS, "azure-account-key");
    RetrievedKey(cluster, secret, true, AZURE_KEYS, "azure-container");
    RetrievedKey(cluster, secret, true, AZURE_KEYS, "azure-container-path");
    RetrievedKey(cluster, secret, true, AZURE_KEYS, "azure-connection-string");
    FiveOptions(At(d, "azure-connection-string"), At(d, "azure-account-name"), At(d, "azure-container"), At(d, "azure-account-key"),
                At(d, "azure-container-path"), k);
  }

  function GcsOption(data: map<string, string>, k: string): Option<string> {
    if k == "bucket_name" then Some(Key(data, "gcs-bucket-name"))
    else if k == "iam_sign_blob" then NonEmpty(Key(data, "gcs-iam-sign-blob"))
    else if k == "querystring_auth" then NonEmpty(Key(data, "gcs-querystring-auth"))
    else if k == "file_overwrite" then NonEmpty(Key(data, "gcs-file-overwrite"))
    else None
  }

  lemma GcsOptionNamesDiffer(k: string)
    ensures k == "bucket_name" ==> |k| == 11
    ensures k == "iam_sign_blob" ==> |k| == 13
    ensures k == "querystring_auth" ==> |k| == 16
    ensures k == "file_overwrite" ==> |k| == 14
  {
  }

  lemma FourOptions(b: string, i: string, q: string, f: string, k: string)
    ensures OptionOf([("bucket_name", b)] + Optional("iam_sign_blob", i) + Optional("querystring_auth", q) + Optional("file_overwrite", f), k)
            == if k == "bucket_name" then Some(b) else if k == "iam_sign_blob" then NonEmpty(i)
               else if k == "querystring_auth" then NonEmpty(q) else if k == "file_overwrite" then NonEmpty(f) else None
  {
    var x := [("bucket_name", b)];
    OptionOfOne("bucket_name", b, k);
    OptionOfOptional("iam_sign_blob", i, k);
    OptionOfOptional("querystring_auth", q, k);
    OptionOfOptional("file_overwrite", f, k);
    OptionOfConcat(x, Optional("iam_sign_blob", i), k);
    OptionOfConcat(x + Optional("iam_sign_blob", i), Optional("querystring_auth", q), k);
    OptionOfConcat(x + Optional("iam_sign_blob", i) + Optional("querystring_auth", q), Optional("file_overwrite", f), k);
    GcsOptionNamesDiffer(k);
  }

  lemma GcsOptionsHold(cluster: Cluster, secret: string, k: string)
    requires Retrieved(cluster, secret, true, ["gcs-bucket-name"]).Some?
    ensures OptionOf(GcsOptions(Retrieved(cluster, secret, true, ["gcs-bucket-name"]), Retrieved(cluster, secret, false, GCS_OPTIONAL)), k)
            == GcsOption(cluster.SecretOrEmpty(secret), k)
  {
    var b, m := ["gcs-bucket-name"], GCS_OPTIONAL;
    var d, o := Retrieved(cluster, secret, true, b), Retrieved(cluster, secret, false, m);
    assert b[0] in b && m[0] in m && m[1] in m && m[2] in m;
    RetrievedKey(cluster, secret, true, b, "gcs-bucket-name");
    RetrievedKey(cluster, secret, false, m, "gcs-iam-sign-blob");
    RetrievedKey(cluster, secret, false, m, "gcs-querystring-auth");
    RetrievedKey(cluster, secret, false, m, "gcs-file-overwrite");
    FourOptions(At(d, "gcs-bucket-name"), At(o, "gcs-iam-sign-blob"), At(o, "gcs-querystring-auth"), At(o, "gcs-file-overwrite"), k);
  }

  // ---- the object storage as Pulp sees it ----

  lemma StoragesLast(spec: PulpSpec, cluster: Cluster, order: seq<Flag>)
    requires "STORAGES" !in CustomNames(spec, cluster)
    ensures Last("STORAGES", Rendered(spec, cluster, order)) == StorageValue(spec, cluster, "STORAGES")
  {
    var n, custom := "STORAGES", CustomNames(spec, cluster);
    assert n in GUARDED_NAMES;
    GuardedLast(spec, cluster, order, n);
    TextSilent(spec, cluster, custom, n);
    DatabaseSilent(spec, cluster, custom, n);
    SilentLaws(n, TokenSection(spec, custom));
    SilentLaws(n, SecretKeySection(spec, cluster, custom));
    SilentLaws(n, ChecksumSection(spec, custom));
    SilentLaws(n, DatabaseSection(spec, cluster, custom));
  }

  lemma StorageLinesLast(b: Backend, o: seq<(string, string)>)
    ensures Last("STORAGES", StorageLines(b, o)) == Some(StorageDict(b, o))
  {
  }

  lemma OneStorage(spec: PulpSpec, cluster: Cluster, kind: string)
    requires kind in {AZURE, GCS, S3} && StorageIs(spec, kind)
    ensures var custom := CustomNames(spec, cluster);
      StorageValue(spec, cluster, "STORAGES")
      == Last("STORAGES", if kind == S3 then S3Section(spec, cluster, custom) else if kind == GCS then GcsSection(spec, cluster, custom)
                          else AzureSection(spec, cluster, custom))
  {
  }

  lemma OneKey(cluster: Cluster, secret: string, k: string)
    ensures Retrieved(cluster, secret, true, [k]).Some? <==> cluster.Secret(secret).Some? && k in cluster.SecretOrEmpty(secret)
  {
    RetrievedExactly(cluster, secret, [k]);
    assert [k][0] in [k];
  }

  lemma S3SectionLast(spec: PulpSpec, cluster: Cluster, custom: set<string>)
    requires "STORAGES" !in custom && StorageIs(spec, S3)
    ensures var d, o := Retrieved(cluster, spec.s3Secret, true, ["s3-bucket-name"]), Retrieved(cluster, spec.s3Secret, false, S3_OPTIONAL);
      Last("STORAGES", S3Section(spec, cluster, custom))
      == if d.Some? && (At(o, "s3-endpoint") != "" || At(o, "s3-region") != "") then Some(StorageDict(S3Boto3Storage, S3Options(d, o))) else None
  {
    var d, o := Retrieved(cluster, spec.s3Secret, true, ["s3-bucket-name"]), Retrieved(cluster, spec.s3Secret, false, S3_OPTIONAL);
    StorageLinesLast(S3Boto3Storage, S3Options(d, o));
  }

  /** The S3 storage reaches Pulp exactly when the Secret names the bucket and
      one of endpoint and region, and then with the Secret's values under the
      right options; an empty optional key is left out. */
  lemma S3ReachesPulp(spec: PulpSpec, cluster: Cluster, order: seq<Flag>)
    requires "STORAGES" !in CustomNames(spec, cluster) && StorageIs(spec, S3)
    ensures var v, data := Last("STORAGES", Rendered(spec, cluster, order)), cluster.SecretOrEmpty(spec.s3Secret);
      && (v.Some? <==> cluster.Secret(spec.s3Secret).Some? && "s3-bucket-name" in data && (Key(data, "s3-endpoint") != "" || Key(data, "s3-region") != ""))
      && (v.Some? ==> v.value.StorageDict? && v.value.backend == S3Boto3Storage && forall k :: OptionOf(v.value.options, k) == S3Option(data, k))
  {
    StoragesLast(spec, cluster, order);
    OneStorage(spec, cluster, S3);
    S3SectionLast(spec, cluster, CustomNames(spec, cluster));
    S3SectionReads(spec, cluster);
  }

  lemma S3SectionReads(spec: PulpSpec, cluster: Cluster)
    ensures var d, o := Retrieved(cluster, spec.s3Secret, true, ["s3-bucket-name"]), Retrieved(cluster, spec.s3Secret, false, S3_OPTIONAL);
      var data := cluster.SecretOrEmpty(spec.s3Secret);
      && (d.Some? <==> cluster.Secret(spec.s3Secret).Some? && "s3-bucket-name" in data)
      && At(o, "s3-endpoint") == Key(data, "s3-endpoint") && At(o, "s3-region") == Key(data, "s3-region")
      && (d.Some? ==> forall k :: OptionOf(S3Options(d, o), k) == S3Option(data, k))
  {
    var d, o := Retrieved(cluster, spec.s3Secret, true, ["s3-bucket-name"]), Retrieved(cluster, spec.s3Secret, false, S3_OPTIONAL);
    OneKey(cluster, spec.s3Secret, "s3-bucket-name");
    S3Keys(cluster, spec.s3Secret);
    if d.Some? {
      forall k ensures OptionOf(S3Options(d, o), k) == S3Option(cluster.SecretOrEmpty(spec.s3Secret), k) { S3OptionsHold(cluster, spec.s3Secret, k); }
    }
  }

  /** The Azure storage, with all five keys or not at all. */
  lemma AzureReachesPulp(spec: PulpSpec, cluster: Cluster, order: seq<Flag>)
    requires "STORAGES" !in CustomNames(spec, cluster) && StorageIs(spec, AZURE)
    ensures var v, data := Last("STORAGES", Rendered(spec, cluster, order)), cluster.SecretOrEmpty(spec.azureSecret);
      && (v.Some? <==> cluster.Secret(spec.azureSecret).Some? && forall k :: k in AZURE_KEYS ==> k in data)
      && (v.Some? ==> v.value.StorageDict? && v.value.backend == AzureStorage && forall k :: OptionOf(v.value.options, k) == AzureOption(data, k))
  {
    StoragesLast(spec, cluster, order);
    OneStorage(spec, cluster, AZURE);
    RetrievedExactly(cluster, spec.azureSecret, AZURE_KEYS);
    var d := Retrieved(cluster, spec.azureSecret, true, AZURE_KEYS);
    if d.Some? {
      StorageLinesLast(AzureStorage, AzureOptions(d));
      forall k ensures OptionOf(AzureOptions(d), k) == AzureOption(cluster.SecretOrEmpty(spec.azureSecret), k) { AzureOptionsHold(cluster, spec.azureSecret, k); }
    }
  }

  lemma GcsSectionLast(spec: PulpSpec, cluster: Cluster, custom: set<string>)
    requires "STORAGES" !in custom && StorageIs(spec, GCS)
    ensures var d, o := Retrieved(cluster, spec.gcsSecret, true, ["gcs-bucket-name"]), Retrieved(cluster, spec.gcsSecret, false, GCS_OPTIONAL);
      Last("STORAGES", GcsSection(spec, cluster, custom)) == if d.Some? then Some(StorageDict(GoogleCloudStorage, GcsOptions(d, o))) else None
  {
    var d, o := Retrieved(cluster, spec.gcsSecret, true, ["gcs-bucket-name"]), Retrieved(cluster, spec.gcsSecret, false, GCS_OPTIONAL);
    StorageLinesLast(GoogleCloudStorage, GcsOptions(d, o));
  }

  lemma GcsSectionReads(spec: PulpSpec, cluster: Cluster)
    ensures var d, o := Retrieved(cluster, spec.gcsSecret, true, ["gcs-bucket-name"]), Retrieved(cluster, spec.gcsSecret, false, GCS_OPTIONAL);
      var data := cluster.SecretOrEmpty(spec.gcsSecret);
      && (d.Some? <==> cluster.Secret(spec.gcsSecret).Some? && "gcs-bucket-name" in data)
      && (d.Some? ==> forall k :: OptionOf(GcsOptions(d, o), k) == GcsOption(data, k))
  {
    var d, o := Retrieved(cluster, spec.gcsSecret, true, ["gcs-bucket-name"]), Retrieved(cluster, spec.gcsSecret, false, GCS_OPTIONAL);
    OneKey(cluster, spec.gcsSecret, "gcs-bucket-name");
    if d.Some? {
      forall k ensures OptionOf(GcsOptions(d, o), k) == GcsOption(cluster.SecretOrEmpty(spec.gcsSecret), k) { GcsOptionsHold(cluster, spec.gcsSecret, k); }
    }
  }

  /** The GCS storage, when the Secret names the bucket. */
  lemma GcsReachesPulp(spec: PulpSpec, cluster: Cluster, order: seq<Flag>)
    requires "STORAGES" !in CustomNames(spec, cluster) && StorageIs(spec, GCS)
    ensures var v, data := Last("STORAGES", Rendered(spec, cluster, order)), cluster.SecretOrEmpty(spec.gcsSecret);
      && (v.Some? <==> cluster.Secret(spec.gcsSecret).Some? && "gcs-bucket-name" in data)
      && (v.Some? ==> v.value.StorageDict? && v.value.backend == GoogleCloudStorage && forall k :: OptionOf(v.value.options, k) == GcsOption(data, k))
  {
    StoragesLast(spec, cluster, order);
    OneStorage(spec, cluster, GCS);
    GcsSectionLast(spec, cluster, CustomNames(spec, cluster));
    GcsSectionReads(spec, cluster);
  }

  // ---- the cache ----

  lemma {:induction false} LastUnique(n: string, lines: seq<Line>, i: nat)
    requires i < |lines| && IsAssign(n, lines[i]) && forall j :: i < j < |lines| ==> !IsAssign(n, lines[j])
    ensures Last(n, lines) == Some(lines[i].value)
  {
    if i < |lines| - 1 { LastUnique(n, lines[..|lines| - 1], i); }
  }

  lemma CacheNamesDiffer()
    ensures "CACHE_ENABLED" != "REDIS_HOST" && "CACHE_ENABLED" != "REDIS_PORT" && "CACHE_ENABLED" != "REDIS_PASSWORD" && "CACHE_ENABLED" != "REDIS_DB"
    ensures "REDIS_HOST" != "REDIS_PORT" && "REDIS_HOST" != "REDIS_PASSWORD" && "REDIS_HOST" != "REDIS_DB"
    ensures "REDIS_PORT" != "REDIS_PASSWORD" && "REDIS_PORT" != "REDIS_DB" && "REDIS_PASSWORD" != "REDIS_DB"
  {
    assert |"CACHE_ENABLED"| == 13 && |"REDIS_HOST"| == 10 && |"REDIS_PORT"| == 10 && |"REDIS_PASSWORD"| == 14 && |"REDIS_DB"| == 8;
    assert "REDIS_HOST"[6] == 'H' && "REDIS_PORT"[6] == 'P';
  }

  lemma FiveCacheLines(e: Value, h: Value, p: Value, w: Value, d: Value)
    ensures var c := [Assign("CACHE_ENABLED", e), Assign("REDIS_HOST", h), Assign("REDIS_PORT", p), Assign("REDIS_PASSWORD", w), Assign("REDIS_DB", d)];
      && Last("CACHE_ENABLED", c) == Some(e) && Last("REDIS_HOST", c) == Some(h) && Last("REDIS_PORT", c) == Some(p)
      && Last("REDIS_PASSWORD", c) == Some(w) && Last("REDIS_DB", c) == Some(d)
  {
    var c := [Assign("CACHE_ENABLED", e), Assign("REDIS_HOST", h), Assign("REDIS_PORT", p), Assign("REDIS_PASSWORD", w), Assign("REDIS_DB", d)];
    CacheNamesDiffer();
    LastUnique("CACHE_ENABLED", c, 0);
    LastUnique("REDIS_HOST", c, 1);
    LastUnique("REDIS_PORT", c, 2);
    LastUnique("REDIS_PASSWORD", c, 3);
    LastUnique("REDIS_DB", c, 4);
  }

  /** A value of the external cache's Secret; with any of the four keys missing
      all are empty. */
  ghost function CacheKey(cluster: Cluster, secret: string, k: string): string {
    if forall j :: j in CACHE_KEYS ==> j in cluster.SecretOrEmpty(secret) then Key(cluster.SecretOrEmpty(secret), k) else ""
  }

  lemma CacheRetrieved(cluster: Cluster, secret: string, k: string)
    requires k in CACHE_KEYS
    ensures At(Retrieved(cluster, secret, true, CACHE_KEYS), k) == CacheKey(cluster, secret, k)
  {
    RetrievedExactly(cluster, secret, CACHE_KEYS);
    if Retrieved(cluster, secret, true, CACHE_KEYS).Some? { RetrievedKey(cluster, secret, true, CACHE_KEYS, k); }
  }

  lemma CacheKeysListed()
    ensures "REDIS_HOST" in CACHE_KEYS && "REDIS_PORT" in CACHE_KEYS && "REDIS_PASSWORD" in CACHE_KEYS && "REDIS_DB" in CACHE_KEYS
  {
    var m := CACHE_KEYS;
    assert m[0] in m && m[1] in m && m[2] in m && m[3] in m;
  }

  /** The cache settings as Pulp sees them: the operator's own service, or the
      values of the user's Secret. */
  lemma CacheReachesPulp(spec: PulpSpec, cluster: Cluster, order: seq<Flag>)
    requires spec.cacheEnabled
    ensures var file, external := Rendered(spec, cluster, order), spec.externalCacheSecret != "";
      && Last("CACHE_ENABLED", file) == Some(Raw("True"))
      && Last("REDIS_HOST", file) == Some(Quoted(if external then CacheKey(cluster, spec.externalCacheSecret, "REDIS_HOST")
                                                 else spec.name + "-redis-svc." + spec.namespace))
      && Last("REDIS_PORT", file) == Some(Quoted(if external then CacheKey(cluster, spec.externalCacheSecret, "REDIS_PORT")
                                                 else if spec.redisPort == 0 then Decimal(6379) else Decimal(spec.redisPort)))
      && Last("REDIS_PASSWORD", file) == Some(Quoted(if external then CacheKey(cluster, spec.externalCacheSecret, "REDIS_PASSWORD") else ""))
      && Last("REDIS_DB", file) == Some(Quoted(if external then CacheKey(cluster, spec.externalCacheSecret, "REDIS_DB") else ""))
  {
    CacheSectionHas(spec, cluster);
    A.CacheSectionWins(spec, cluster, order, "CACHE_ENABLED");
    A.CacheSectionWins(spec, cluster, order, "REDIS_HOST");
    A.CacheSectionWins(spec, cluster, order, "REDIS_PORT");
    A.CacheSectionWins(spec, cluster, order, "REDIS_PASSWORD");
    A.CacheSectionWins(spec, cluster, order, "REDIS_DB");
  }

  lemma CacheSectionHas(spec: PulpSpec, cluster: Cluster)
    requires spec.cacheEnabled
    ensures var c, external := CacheSection(spec, cluster), spec.externalCacheSecret != "";
      && Last("CACHE_ENABLED", c) == Some(Raw("True"))
      && Last("REDIS_HOST", c) == Some(Quoted(if external then CacheKey(cluster, spec.externalCacheSecret, "REDIS_HOST")
                                              else spec.name + "-redis-svc." + spec.namespace))
      && Last("REDIS_PORT", c) == Some(Quoted(if external then CacheKey(cluster, spec.externalCacheSecret, "REDIS_PORT")
                                              else if spec.redisPort == 0 then Decimal(6379) else Decimal(spec.redisPort)))
      && Last("REDIS_PASSWORD", c) == Some(Quoted(if external then CacheKey(cluster, spec.externalCacheSecret, "REDIS_PASSWORD") else ""))
      && Last("REDIS_DB", c) == Some(Quoted(if external then CacheKey(cluster, spec.externalCacheSecret, "REDIS_DB") else ""))
  {
    var c := CacheSection(spec, cluster);
    CacheKeysListed();
    CacheRetrieved(cluster, spec.externalCacheSecret, "REDIS_HOST");
    CacheRetrieved(cluster, spec.externalCacheSecret, "REDIS_PORT");
    CacheRetrieved(cluster, spec.externalCacheSecret, "REDIS_PASSWORD");
    CacheRetrieved(cluster, spec.externalCacheSecret, "REDIS_DB");
    FiveCacheLines(c[0].value, c[1].value, c[2].value, c[3].value, c[4].value);
  }

  // ---- addresses and keys ----

  lemma TextLast(spec: PulpSpec, cluster: Cluster, order: seq<Flag>, n: string)
    requires n in {"TOKEN_SERVER", "SECRET_KEY", "ALLOWED_CONTENT_CHECKSUMS"} && n !in CustomNames(spec, cluster)
    ensures Last(n, Rendered(spec, cluster, order)) == TextValue(spec, cluster, n)
  {
    var custom := CustomNames(spec, cluster);
    assert n in GUARDED_NAMES;
    TextNamesDiffer(n);
    GuardedLast(spec, cluster, order, n);
    DatabaseSilent(spec, cluster, custom, n);
    StorageSilent(spec, cluster, custom, n);
    SilentLaws(n, DatabaseSection(spec, cluster, custom));
    SilentLaws(n, AzureSection(spec, cluster, custom));
    SilentLaws(n, GcsSection(spec, cluster, custom));
    SilentLaws(n, S3Section(spec, cluster, custom));
  }

  lemma TextNamesDiffer(n: string)
    requires n in {"TOKEN_SERVER", "SECRET_KEY", "ALLOWED_CONTENT_CHECKSUMS"}
    ensures n != "DATABASES" && n != "STORAGES" && n != "MEDIA_ROOT"
  {
    assert |"DATABASES"| == 9 && |"STORAGES"| == 8 && |"MEDIA_ROOT"| == 10 && "MEDIA_ROOT"[0] == 'M' && "SECRET_KEY"[0] == 'S';
    assert |"TOKEN_SERVER"| == 12 && |"SECRET_KEY"| == 10 && |"ALLOWED_CONTENT_CHECKSUMS"| == 25;
  }

  lemma OnlyText(spec: PulpSpec, cluster: Cluster)
    ensures var custom := CustomNames(spec, cluster);
      && TextValue(spec, cluster, "TOKEN_SERVER") == Last("TOKEN_SERVER", TokenSection(spec, custom))
      && TextValue(spec, cluster, "SECRET_KEY") == Last("SECRET_KEY", SecretKeySection(spec, cluster, custom))
      && TextValue(spec, cluster, "ALLOWED_CONTENT_CHECKSUMS") == Last("ALLOWED_CONTENT_CHECKSUMS", ChecksumSection(spec, custom))
  {
    var custom := CustomNames(spec, cluster);
    OthersSilent(spec, cluster, custom, "TOKEN_SERVER");
    OthersSilent(spec, cluster, custom, "SECRET_KEY");
    OthersSilent(spec, cluster, custom, "ALLOWED_CONTENT_CHECKSUMS");
  }

  lemma OthersSilent(spec: PulpSpec, cluster: Cluster, custom: set<string>, n: string)
    ensures n != "TOKEN_SERVER" ==> Last(n, TokenSection(spec, custom)) == None
    ensures n != "SECRET_KEY" ==> Last(n, SecretKeySection(spec, cluster, custom)) == None
    ensures n != "ALLOWED_CONTENT_CHECKSUMS" ==> Last(n, ChecksumSection(spec, custom)) == None
  {
    TextSilent(spec, cluster, custom, n);
    SilentLaws(n, TokenSection(spec, custom));
    SilentLaws(n, SecretKeySection(spec, cluster, custom));
    SilentLaws(n, ChecksumSection(spec, custom));
  }

  /** The address at which Pulp is reached from outside. */
  function OutsideURL(spec: PulpSpec): string {
    if IsRoute(spec) then "https://" + (if spec.routeHost == "" then "example.com" else spec.routeHost)
    else (if spec.ingressTLSSecret == "" then "http" else "https") + "://" + spec.ingressHost
  }

  /** The token server is asked for under the outside address of a Route or an
      Ingress, and otherwise at the API's own service; the Django key is the
      Secret's; the checksums are the CR's. */
  lemma AddressAndKeysReachPulp(spec: PulpSpec, cluster: Cluster, order: seq<Flag>)
    ensures "TOKEN_SERVER" !in CustomNames(spec, cluster) ==>
              Last("TOKEN_SERVER", Rendered(spec, cluster, order))
              == Some(Quoted((if IsRoute(spec) || IsIngress(spec) then OutsideURL(spec)
                              else "http://" + spec.name + "-api-svc." + spec.namespace + ".svc.cluster.local:24817") + "/token/"))
    ensures "SECRET_KEY" !in CustomNames(spec, cluster) ==>
              Last("SECRET_KEY", Rendered(spec, cluster, order))
              == if "secret_key" in cluster.SecretOrEmpty(spec.pulpSecretKey) then Some(Quoted(cluster.SecretOrEmpty(spec.pulpSecretKey)["secret_key"])) else None
    ensures "ALLOWED_CONTENT_CHECKSUMS" !in CustomNames(spec, cluster) ==>
              Last("ALLOWED_CONTENT_CHECKSUMS", Rendered(spec, cluster, order))
              == if spec.allowedContentChecksums == [] then None else Some(Names(spec.allowedContentChecksums))
  {
    OnlyText(spec, cluster);
    if "TOKEN_SERVER" !in CustomNames(spec, cluster) {
      TextLast(spec, cluster, order, "TOKEN_SERVER");
      TokenLine(spec, CustomNames(spec, cluster));
    }
    if "SECRET_KEY" !in CustomNames(spec, cluster) {
      TextLast(spec, cluster, order, "SECRET_KEY");
      SecretKeyLine(spec, cluster, CustomNames(spec, cluster));
    }
    if "ALLOWED_CONTENT_CHECKSUMS" !in CustomNames(spec, cluster) {
      TextLast(spec, cluster, order, "ALLOWED_CONTENT_CHECKSUMS");
      ChecksumLine(spec, CustomNames(spec, cluster));
    }
  }

  lemma ChecksumLine(spec: PulpSpec, custom: set<string>)
    requires "ALLOWED_CONTENT_CHECKSUMS" !in custom
    ensures Last("ALLOWED_CONTENT_CHECKSUMS", ChecksumSection(spec, custom))
            == if spec.allowedContentChecksums == [] then None else Some(Names(spec.allowedContentChecksums))
  {
  }

  lemma TokenLine(spec: PulpSpec, custom: set<string>)
    requires "TOKEN_SERVER" !in custom
    ensures Last("TOKEN_SERVER", TokenSection(spec, custom))
            == Some(Quoted((if IsRoute(spec) || IsIngress(spec) then OutsideURL(spec)
                            else "http://" + spec.name + "-api-svc." + spec.namespace + ".svc.cluster.local:24817") + "/token/"))
  {
    A.LastOfOne("TOKEN_SERVER", TokenSection(spec, custom)[0].value);
    var p, q := "http://" + spec.name + "-api-svc." + spec.namespace, ".svc.cluster.local:24817";
    assert ".svc.cluster.local:24817/token/" == q + "/token/";
    assert p + ".svc.cluster.local:24817/token/" == p + q + "/token/";
    assert !(IsRoute(spec) && IsIngress(spec));
  }

  lemma SecretKeyLine(spec: PulpSpec, cluster: Cluster, custom: set<string>)
    requires "SECRET_KEY" !in custom
    ensures Last("SECRET_KEY", SecretKeySection(spec, cluster, custom))
            == if "secret_key" in cluster.SecretOrEmpty(spec.pulpSecretKey) then Some(Quoted(cluster.SecretOrEmpty(spec.pulpSecretKey)["secret_key"])) else None
  {
    var b := ["secret_key"];
    assert b[0] in b;
    RetrievedExactly(cluster, spec.pulpSecretKey, b);
    var r := Retrieved(cluster, spec.pulpSecretKey, true, b);
    if r.Some? {
      RetrievedKey(cluster, spec.pulpSecretKey, true, b, "secret_key");
      A.LastOfOne("SECRET_KEY", Quoted(At(r, "secret_key")));
    }
  }

  // ---- the defaults ----

  /** The address under which Pulp's own content is found. */
  function RootURL(spec: PulpSpec): string {
    if IsRoute(spec) || IsIngress(spec) then OutsideURL(spec)
    else "http://" + spec.name + "-web-svc." + spec.namespace + ".svc.cluster.local:24880"
  }

  lemma NotOverridden(spec: PulpSpec, cluster: Cluster, order: seq<Flag>, n: string)
    requires n in DEFAULT_NAMES && n !in CustomNames(spec, cluster)
    ensures Last(n, Rendered(spec, cluster, order)) == Some(DefaultPulpSettings(GetRootURL(spec))[n])
  {
    VariantsOrNone(CustomData(spec, cluster), n);
    CustomSettingsOverride(spec, cluster, order, n);
  }

  /** Unless they are overridden, the addresses of the content and of the
      collections' API are the root URL. */
  lemma RootURLReachesPulp(spec: PulpSpec, cluster: Cluster, order: seq<Flag>, n: string)
    requires n in {"CONTENT_ORIGIN", "ANSIBLE_API_HOSTNAME"} && n !in CustomNames(spec, cluster)
    ensures Last(n, Rendered(spec, cluster, order)) == Some(Quoted(RootURL(spec)))
  {
    NotOverridden(spec, cluster, order, n);
    assert !(IsRoute(spec) && IsIngress(spec));
  }

  // ---- Keycloak ----

  /** The Keycloak keys are told apart by their lengths, and the two of the same
      length by one letter. */
  lemma SsoKeyByLength(k: string)
    requires IsSsoKey(k)
    ensures |k| >= 13
    ensures |k| == 24 ==> k == SSO_REQUIRED[0]
    ensures |k| == 27 ==> k == SSO_REQUIRED[1]
    ensures |k| == 31 ==> k == SSO_REQUIRED[2]
    ensures |k| == 13 ==> k == if k[9] == 'h' then SSO_REQUIRED[3] else SSO_REQUIRED[5]
    ensures |k| == 13 ==> k[9] == 'h' || k[9] == 'p'
    ensures |k| == 17 ==> k == SSO_REQUIRED[4]
    ensures |k| == 14 ==> k == SSO_REQUIRED[6]
    ensures |k| == 19 ==> k == SSO_OPTIONAL[0]
    ensures |k| == 26 ==> k == SSO_OPTIONAL[1]
    ensures |k| == 25 ==> k == SSO_OPTIONAL[2]
    ensures |k| == 22 ==> k == SSO_OPTIONAL[3]
    ensures |k| in {13, 14, 17, 19, 22, 24, 25, 26, 27, 31}
  {
    var r, o := SSO_REQUIRED, SSO_OPTIONAL;
    assert |r[0]| == 24 && |r[1]| == 27 && |r[2]| == 31 && |r[3]| == 13 && |r[4]| == 17 && |r[5]| == 13 && |r[6]| == 14;
    assert |o[0]| == 19 && |o[1]| == 26 && |o[2]| == 25 && |o[3]| == 22;
    assert r[3][9] == 'h' && r[5][9] == 'p';
    if k in r {
      var i :| 0 <= i < |r| && r[i] == k;
    } else {
      var i :| 0 <= i < |o| && o[i] == k;
    }
  }

  lemma UppersHostPort(j: string, k: string)
    requires |j| == |k| == 13 && ToUpper(j) == ToUpper(k)
    ensures !(j[9] == 'h' && k[9] == 'p')
  {
    assert UpperChar(j[9]) == ToUpper(j)[9] == ToUpper(k)[9] == UpperChar(k[9]);
    assert UpperChar('h') == 'H' && UpperChar('p') == 'P';
  }

  lemma SsoKeysSpelledOnce(j: string, k: string)
    requires IsSsoKey(j) && IsSsoKey(k) && ToUpper(j) == ToUpper(k)
    ensures j == k
  {
    SsoKeyByLength(j);
    SsoKeyByLength(k);
    assert |j| == |ToUpper(j)| == |ToUpper(k)| == |k|;
    if |k| == 13 {
      UppersHostPort(j, k);
      UppersHostPort(k, j);
    }
  }

  lemma {:induction false} QuotedUpperLast(data: map<string, string>, keys: seq<string>, k: string)
    requires (forall j :: j in keys ==> j in data) && k in keys && forall j :: j in keys && ToUpper(j) == ToUpper(k) ==> j == k
    ensures Last(ToUpper(k), QuotedUpperLines(data, keys)) == Some(Quoted(data[k]))
  {
    var n := |keys| - 1;
    assert keys == keys[..n] + [keys[n]];
    assert QuotedUpperLines(data, keys)[..n] == QuotedUpperLines(data, keys[..n]);
    if keys[n] != k {
      assert keys[n] in keys;
      QuotedUpperLast(data, keys[..n], k);
    }
  }

  lemma SsoNameIsFree(k: string)
    requires IsSsoKey(k)
    ensures var n := ToUpper(k);
      && n !in {"TOKEN_SERVER", "SECRET_KEY", "ALLOWED_CONTENT_CHECKSUMS", "AUTHENTICATION_BACKENDS"}
      && n != "REDIRECT_TO_OBJECT_STORAGE" && n != "HIDE_GUARDED_DISTRIBUTIONS" && !(|n| >= 10 && n[..10] == LDAP_PREFIX)
  {
    var n := ToUpper(k);
    assert IsSsoName(n);
    SsoShapes(n);
    assert n[0] != 'A' && n[0] != 'T' && n[0] != 'R' && n[0] != 'H';
    assert |"SECRET_KEY"| == 10;
    assert n[..10][0] == n[0] && LDAP_PREFIX[0] == 'A';
  }

  /** A Keycloak integration reaches Pulp exactly when its Secret has all the
      required keys, and then with each of its known keys' values. */
  lemma KeycloakReachesPulp(spec: PulpSpec, cluster: Cluster, order: seq<Flag>, k: string)
    requires IsSsoKey(k) && spec.ssoSecret != ""
    ensures var data := cluster.SecretOrEmpty(spec.ssoSecret);
      && (cluster.Secret(spec.ssoSecret).Some? && (forall r :: r in SSO_REQUIRED ==> r in data) && k in data ==>
            Last(ToUpper(k), Rendered(spec, cluster, order)) == Some(Quoted(data[k])))
      && (!(cluster.Secret(spec.ssoSecret).Some? && (forall r :: r in SSO_REQUIRED ==> r in data) && k in data) ==>
            Last(ToUpper(k), SsoSection(spec, cluster)) == None)
  {
    var n, data := ToUpper(k), SsoData(spec, cluster);
    SsoDataExactly(spec, cluster, k);
    AfterSso(spec, cluster, order, n, k);
    SsoKeysOnly(spec, cluster);
    if k in data {
      forall j | j in SortedKeys(data.Keys) && ToUpper(j) == n ensures j == k { SsoKeysSpelledOnce(j, k); }
      QuotedUpperLast(data, SortedKeys(data.Keys), k);
    } else {
      forall j | j in data ensures ToUpper(j) != n { if ToUpper(j) == n { SsoKeysSpelledOnce(j, k); } }
      QuotedUpperSilent(data, SortedKeys(data.Keys), n);
      SilentLaws(n, SsoSection(spec, cluster));
    }
  }

  lemma SsoDataExactly(spec: PulpSpec, cluster: Cluster, k: string)
    requires IsSsoKey(k) && spec.ssoSecret != ""
    ensures var data := cluster.SecretOrEmpty(spec.ssoSecret);
      && (k in SsoData(spec, cluster) <==> cluster.Secret(spec.ssoSecret).Some? && (forall r :: r in SSO_REQUIRED ==> r in data) && k in data)
      && (k in SsoData(spec, cluster) ==> SsoData(spec, cluster)[k] == data[k])
  {
    RetrievedExactly(cluster, spec.ssoSecret, SSO_REQUIRED);
  }

  lemma AfterSso(spec: PulpSpec, cluster: Cluster, order: seq<Flag>, n: string, k: string)
    requires IsSsoKey(k) && n == ToUpper(k)
    ensures Last(n, SsoSection(spec, cluster)).Some? ==> Last(n, Rendered(spec, cluster, order)) == Last(n, SsoSection(spec, cluster))
  {
    var custom := CustomNames(spec, cluster);
    SsoNameIsFree(k);
    OthersSilent(spec, cluster, custom, n);
    LdapSectionSilent(spec, cluster, n);
    SilentLaws(n, LdapSection(spec, cluster));
    FlagsSilent(spec, custom, order, n);
    SilentLaws(n, FlagSection(spec, custom, order));
    FiveLast(n, RenderedHead(spec, cluster), AzureSection(spec, cluster, custom), GcsSection(spec, cluster, custom),
             S3Section(spec, cluster, custom), SsoSection(spec, cluster));
    FiveLast(n, RenderedStorage(spec, cluster), TokenSection(spec, custom), SecretKeySection(spec, cluster, custom),
             ChecksumSection(spec, custom), LdapSection(spec, cluster));
    LastOr(n, RenderedStable(spec, cluster), FlagSection(spec, custom, order));
  }

  // ---- LDAP ----

  lemma {:induction false} LdapLast(data: map<string, string>, keys: seq<string>, k: string)
    requires (forall j :: j in keys ==> j in data) && k in keys && IsLdapKey(k)
    requires forall j :: j in keys && IsLdapKey(j) && ToUpper(j) == ToUpper(k) ==> j == k
    ensures Last(ToUpper(k), LdapLines(data, keys)) == Some(LdapLine(k, data[k]).value)
  {
    var n := |keys| - 1;
    assert keys == keys[..n] + [keys[n]] && keys[n] in keys;
    if keys[n] == k {
      LastOr(ToUpper(k), LdapLines(data, keys[..n]), [LdapLine(k, data[k])]);
      A.LastOfOne(ToUpper(k), LdapLine(k, data[k]).value);
    } else {
      LdapLast(data, keys[..n], k);
      if IsLdapKey(keys[n]) {
        LastOr(ToUpper(k), LdapLines(data, keys[..n]), [LdapLine(keys[n], data[keys[n]])]);
        assert [LdapLine(keys[n], data[keys[n]])][..0] == [];
      } else {
        LastOr(ToUpper(k), LdapLines(data, keys[..n]), []);
      }
    }
  }

  lemma LdapNameIsFree(n: string)
    requires |n| >= 10 && n[..10] == LDAP_PREFIX
    ensures n != "REDIRECT_TO_OBJECT_STORAGE" && n != "HIDE_GUARDED_DISTRIBUTIONS"
  {
    assert n[0] == LDAP_PREFIX[0] == 'A';
  }

  /** An LDAP setting reaches Pulp as it is written in the Secret: as Python
      where the operator expects Python, as a boolean, or quoted. */
  lemma LdapReachesPulp(spec: PulpSpec, cluster: Cluster, order: seq<Flag>, k: string)
    requires ReadsLdap(spec, cluster) && k in cluster.SecretOrEmpty(spec.ldapConfig) && IsLdapKey(k)
    requires forall j :: j in cluster.SecretOrEmpty(spec.ldapConfig) && ToUpper(j) == ToUpper(k) ==> j == k
    ensures var v := cluster.SecretOrEmpty(spec.ldapConfig)[k];
      Last(ToUpper(k), Rendered(spec, cluster, order))
      == Some(if ToUpper(k) in LDAP_UNQUOTED then Raw(v) else if ToUpper(k) in LDAP_BOOLEAN then Raw(Title(v)) else Quoted(v))
  {
    var n, data := ToUpper(k), cluster.SecretOrEmpty(spec.ldapConfig);
    var custom, middle := CustomNames(spec, cluster), LdapLines(data, SortedKeys(data.Keys));
    LdapUpper(k);
    LdapNameIsFree(n);
    LdapLast(data, SortedKeys(data.Keys), k);
    LastOr(n, LDAP_HEADER, middle);
    LdapHeaderWrites(n);
    SilentLaws(n, LDAP_FOOTER);
    LastOr(n, LDAP_HEADER + middle, LDAP_FOOTER);
    FlagsSilent(spec, custom, order, n);
    SilentLaws(n, FlagSection(spec, custom, order));
    FiveLast(n, RenderedStorage(spec, cluster), TokenSection(spec, custom), SecretKeySection(spec, cluster, custom),
             ChecksumSection(spec, custom), LdapSection(spec, cluster));
    LastOr(n, RenderedStable(spec, cluster), FlagSection(spec, custom, order));
  }

  lemma LdapUpper(k: string)
    requires IsLdapKey(k)
    ensures |ToUpper(k)| >= 10 && ToUpper(k)[..10] == LDAP_PREFIX
  {
    assert ToUpper(k)[..10] == ToUpper(k[..10]);
  }
}
