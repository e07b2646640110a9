/** Which custom settings Pulp really sees. The custom section is written first;
    a feature section that assigns the same name later in the file takes it
    back, without looking at the custom settings. */
module CustomValues {
  import opened Text
  import opened Pulp
  import opened Settings
  import opened SettingsLaws
  import A = SettingsAgreement

  /** A later section's value, or the one before it. */
  function Or(later: Option<Value>, earlier: Option<Value>): Option<Value> { if later.Some? then later else earlier }

  lemma LastOr(n: string, a: seq<Line>, b: seq<Line>)
    ensures Last(n, a + b) == Or(Last(n, b), Last(n, a))
  {
    ConcatLaws(n, a, b);
  }

  /** The value the sections after the custom one give to a name. */
  ghost function Later(spec: PulpSpec, cluster: Cluster, n: string): Option<Value> {
    var custom := CustomNames(spec, cluster);
    Or(Last(n, LdapSection(spec, cluster)),
      Or(Last(n, SsoSection(spec, cluster)),
        Or(LaterStorage(spec, cluster, custom, n),
          Or(Last(n, CacheSection(spec, cluster)), Last(n, DebugSection(spec))))))
  }

  ghost function LaterStorage(spec: PulpSpec, cluster: Cluster, custom: set<string>, n: string): Option<Value> {
    Or(Last(n, S3Section(spec, cluster, custom)), Or(Last(n, GcsSection(spec, cluster, custom)), Last(n, AzureSection(spec, cluster, custom))))
  }

  // ---- the file of an overridden name ----

  lemma OverriddenSilence(spec: PulpSpec, cluster: Cluster, order: seq<Flag>, n: string)
    requires n in CustomNames(spec, cluster)
    ensures var custom := CustomNames(spec, cluster);
      && Last(n, HEADER) == None && Last(n, DatabaseSection(spec, cluster, custom)) == None
      && Last(n, TokenSection(spec, custom)) == None && Last(n, SecretKeySection(spec, cluster, custom)) == None
      && Last(n, ChecksumSection(spec, custom)) == None
  {
    var custom := CustomNames(spec, cluster);
    DatabaseSilent(spec, cluster, custom, n);
    TextSilent(spec, cluster, custom, n);
    SilentLaws(n, HEADER);
    SilentLaws(n, DatabaseSection(spec, cluster, custom));
    SilentLaws(n, TokenSection(spec, custom));
    SilentLaws(n, SecretKeySection(spec, cluster, custom));
    SilentLaws(n, ChecksumSection(spec, custom));
  }

  lemma {:induction false} OverriddenFlagsSilent(spec: PulpSpec, custom: set<string>, order: seq<Flag>, n: string)
    requires n in custom
    ensures Silent(n, FlagSection(spec, custom, order))
  {
    if order != [] {
      OverriddenFlagsSilent(spec, custom, order[1..], n);
    }
  }

  lemma OverriddenHead(spec: PulpSpec, cluster: Cluster, n: string)
    requires n in CustomNames(spec, cluster)
    ensures Last(n, RenderedHead(spec, cluster))
            == Or(Last(n, CacheSection(spec, cluster)), Or(Last(n, DebugSection(spec)), Last(n, CustomSection(spec, cluster))))
  {
    OverriddenSilence(spec, cluster, [], n);
    FiveLast(n, HEADER, CustomSection(spec, cluster), DebugSection(spec), DatabaseSection(spec, cluster, CustomNames(spec, cluster)),
             CacheSection(spec, cluster));
  }

  lemma FiveLast(n: string, h: seq<Line>, a: seq<Line>, b: seq<Line>, c: seq<Line>, d: seq<Line>)
    ensures Last(n, h + a + b + c + d) == Or(Last(n, d), Or(Last(n, c), Or(Last(n, b), Or(Last(n, a), Last(n, h)))))
  {
    LastOr(n, h, a);
    LastOr(n, h + a, b);
    LastOr(n, h + a + b, c);
    LastOr(n, h + a + b + c, d);
  }

  lemma OverriddenStorage(spec: PulpSpec, cluster: Cluster, n: string)
    requires n in CustomNames(spec, cluster)
    ensures Last(n, RenderedStorage(spec, cluster))
            == Or(Last(n, SsoSection(spec, cluster)),
                  Or(LaterStorage(spec, cluster, CustomNames(spec, cluster), n), Last(n, RenderedHead(spec, cluster))))
  {
    var custom := CustomNames(spec, cluster);
    FiveLast(n, RenderedHead(spec, cluster), AzureSection(spec, cluster, custom), GcsSection(spec, cluster, custom),
             S3Section(spec, cluster, custom), SsoSection(spec, cluster));
  }

  lemma OverriddenStable(spec: PulpSpec, cluster: Cluster, n: string)
    requires n in CustomNames(spec, cluster)
    ensures Last(n, RenderedStable(spec, cluster)) == Or(Last(n, LdapSection(spec, cluster)), Last(n, RenderedStorage(spec, cluster)))
  {
    var custom := CustomNames(spec, cluster);
    OverriddenSilence(spec, cluster, [], n);
    FiveLast(n, RenderedStorage(spec, cluster), TokenSection(spec, custom), SecretKeySection(spec, cluster, custom),
             ChecksumSection(spec, custom), LdapSection(spec, cluster));
  }

  /** A name of the ConfigMap holds what the later sections give it, and its
      custom value when they give it none. */
  lemma OverriddenLast(spec: PulpSpec, cluster: Cluster, order: seq<Flag>, n: string)
    requires n in CustomNames(spec, cluster)
    ensures Last(n, Rendered(spec, cluster, order)) == Or(Later(spec, cluster, n), Last(n, CustomSection(spec, cluster)))
  {
    OverriddenHead(spec, cluster, n);
    OverriddenStorage(spec, cluster, n);
    OverriddenStable(spec, cluster, n);
    OverriddenFlagsSilent(spec, CustomNames(spec, cluster), order, n);
    AppendSilent(n, RenderedStable(spec, cluster), FlagSection(spec, CustomNames(spec, cluster), order));
  }

  // ---- when a later section writes ----

  /** The object storage is configured and its Secret has what it needs. */
  predicate WritesStorage(spec: PulpSpec, cluster: Cluster) {
    || (StorageIs(spec, AZURE) && Retrieved(cluster, spec.azureSecret, true, AZURE_KEYS).Some?)
    || (StorageIs(spec, GCS) && Retrieved(cluster, spec.gcsSecret, true, ["gcs-bucket-name"]).Some?)
    || (StorageIs(spec, S3) && Retrieved(cluster, spec.s3Secret, true, ["s3-bucket-name"]).Some?
        && (At(Retrieved(cluster, spec.s3Secret, false, S3_OPTIONAL), "s3-endpoint") != ""
            || At(Retrieved(cluster, spec.s3Secret, false, S3_OPTIONAL), "s3-region") != ""))
  }

  predicate ReadsLdap(spec: PulpSpec, cluster: Cluster) { spec.ldapConfig != "" && cluster.Secret(spec.ldapConfig).Some? }

  ghost predicate IsLdapName(data: map<string, string>, n: string) { exists k :: k in data && IsLdapKey(k) && ToUpper(k) == n }

  ghost predicate IsKeyOf(data: map<string, string>, n: string) { exists k :: k in data && ToUpper(k) == n }

  /** Some section after the custom one assigns the name, section by section:
      debugging, the cache, the object storage, Keycloak, LDAP. */
  ghost predicate TakenBack(spec: PulpSpec, cluster: Cluster, n: string) {
    || (n == "LOGGING" && spec.enableDebugging)
    || (n in A.CACHE_NAMES && spec.cacheEnabled)
    || (n == "MEDIA_ROOT" && "STORAGES" !in CustomNames(spec, cluster) && WritesStorage(spec, cluster))
    || IsKeyOf(SsoData(spec, cluster), n)
    || (ReadsLdap(spec, cluster)
        && (n == "AUTHENTICATION_BACKENDS" || IsLdapName(cluster.SecretOrEmpty(spec.ldapConfig), n)))
  }

  lemma DebugWrites(spec: PulpSpec, n: string)
    ensures Last(n, DebugSection(spec)).Some? <==> n == "LOGGING" && spec.enableDebugging
  {
    if spec.enableDebugging {
      var d := DebugSection(spec);
      assert IsAssign("LOGGING", d[0]);
      SilentLaws(n, d);
      assert Silent(n, d) <==> !IsAssign(n, d[0]) by { assert d[0] in d; }
    }
  }

  lemma CacheWritesExactly(spec: PulpSpec, cluster: Cluster, n: string)
    ensures Last(n, CacheSection(spec, cluster)).Some? <==> n in A.CACHE_NAMES && spec.cacheEnabled
  {
    SilentLaws(n, CacheSection(spec, cluster));
    if spec.cacheEnabled {
      if n in A.CACHE_NAMES { A.CacheWrites(spec, cluster, n); } else { CacheWritesNoOther(spec, cluster, n); }
    }
  }

  lemma CacheWritesNoOther(spec: PulpSpec, cluster: Cluster, n: string)
    requires n !in A.CACHE_NAMES
    ensures Silent(n, CacheSection(spec, cluster))
  {
  }

  lemma MediaRootWritten(spec: PulpSpec, cluster: Cluster, custom: set<string>)
    requires "STORAGES" !in custom
    ensures WritesStorage(spec, cluster)
            <==> (AzureSection(spec, cluster, custom) != [] || GcsSection(spec, cluster, custom) != [] || S3Section(spec, cluster, custom) != [])
  {
  }

  lemma StorageStartsWithMediaRoot(spec: PulpSpec, cluster: Cluster, custom: set<string>)
    ensures forall s :: s in [AzureSection(spec, cluster, custom), GcsSection(spec, cluster, custom), S3Section(spec, cluster, custom)] ==>
              s == [] || IsAssign("MEDIA_ROOT", s[0])
  {
  }

  lemma FirstAssignShows(n: string, s: seq<Line>)
    requires s != [] && IsAssign(n, s[0])
    ensures Last(n, s).Some?
  {
    SilentLaws(n, s);
    assert s[0] in s;
  }

  lemma StorageWritesExactly(spec: PulpSpec, cluster: Cluster, n: string)
    requires n in CustomNames(spec, cluster)
    ensures LaterStorage(spec, cluster, CustomNames(spec, cluster), n).Some?
            <==> n == "MEDIA_ROOT" && "STORAGES" !in CustomNames(spec, cluster) && WritesStorage(spec, cluster)
  {
    var custom := CustomNames(spec, cluster);
    var a, g, s := AzureSection(spec, cluster, custom), GcsSection(spec, cluster, custom), S3Section(spec, cluster, custom);
    if n != "MEDIA_ROOT" {
      StorageSilent(spec, cluster, custom, n);
      SilentLaws(n, a);
      SilentLaws(n, g);
      SilentLaws(n, s);
    } else if "STORAGES" !in custom {
      MediaRootWritten(spec, cluster, custom);
      StorageStartsWithMediaRoot(spec, cluster, custom);
      if a != [] { FirstAssignShows(n, a); }
      if g != [] { FirstAssignShows(n, g); }
      if s != [] { FirstAssignShows(n, s); }
    }
  }

  lemma {:induction false} QuotedUpperWrites(data: map<string, string>, keys: seq<string>, k: string)
    requires (forall j :: j in keys ==> j in data) && k in keys
    ensures !Silent(ToUpper(k), QuotedUpperLines(data, keys))
  {
    var n := |keys| - 1;
    var lines := QuotedUpperLines(data, keys);
    if keys[n] == k {
      assert lines[n] in lines;
    } else {
      assert keys == keys[..n] + [keys[n]];
      QuotedUpperWrites(data, keys[..n], k);
      var l :| l in QuotedUpperLines(data, keys[..n]) && IsAssign(ToUpper(k), l);
      assert l in lines;
    }
  }

  lemma SsoWritesExactly(spec: PulpSpec, cluster: Cluster, n: string)
    ensures Last(n, SsoSection(spec, cluster)).Some? <==> IsKeyOf(SsoData(spec, cluster), n)
  {
    var data := SsoData(spec, cluster);
    SilentLaws(n, SsoSection(spec, cluster));
    if IsKeyOf(data, n) {
      var k :| k in data && ToUpper(k) == n;
      QuotedUpperWrites(data, SortedKeys(data.Keys), k);
    } else {
      QuotedUpperSilent(data, SortedKeys(data.Keys), n);
    }
  }

  lemma {:induction false} LdapLinesWrite(data: map<string, string>, keys: seq<string>, n: string)
    requires forall j :: j in keys ==> j in data
    ensures Silent(n, LdapLines(data, keys)) <==> forall k :: k in keys && IsLdapKey(k) ==> ToUpper(k) != n
  {
    if keys != [] {
      var start, k := keys[..|keys| - 1], keys[|keys| - 1];
      LdapLinesWrite(data, start, n);
      LdapLineWrites(data[k], k, n);
      SilentConcat(n, LdapLines(data, start), if IsLdapKey(k) then [LdapLine(k, data[k])] else []);
      assert forall j :: j in keys <==> j in start || j == k by { assert keys == start + [k]; }
    }
  }

  lemma LdapLineWrites(v: string, k: string, n: string)
    ensures Silent(n, [LdapLine(k, v)]) <==> ToUpper(k) != n
  {
    assert LdapLine(k, v) in [LdapLine(k, v)];
  }

  lemma LdapHeaderWrites(n: string)
    ensures Silent(n, LDAP_HEADER) <==> n != "AUTHENTICATION_BACKENDS"
    ensures Silent(n, LDAP_FOOTER)
  {
    assert LDAP_HEADER[1] in LDAP_HEADER && IsAssign("AUTHENTICATION_BACKENDS", LDAP_HEADER[1]);
  }

  lemma LdapWritesExactly(spec: PulpSpec, cluster: Cluster, n: string)
    ensures Last(n, LdapSection(spec, cluster)).Some?
            <==> ReadsLdap(spec, cluster) && (n == "AUTHENTICATION_BACKENDS" || IsLdapName(cluster.SecretOrEmpty(spec.ldapConfig), n))
  {
    SilentLaws(n, LdapSection(spec, cluster));
    if ReadsLdap(spec, cluster) {
      var data := cluster.SecretOrEmpty(spec.ldapConfig);
      var middle := LdapLines(data, SortedKeys(data.Keys));
      LdapHeaderWrites(n);
      LdapLinesWrite(data, SortedKeys(data.Keys), n);
      SilentConcat(n, LDAP_HEADER, middle);
      SilentConcat(n, LDAP_HEADER + middle, LDAP_FOOTER);
    }
  }

  lemma LaterExactly(spec: PulpSpec, cluster: Cluster, n: string)
    requires n in CustomNames(spec, cluster)
    ensures Later(spec, cluster, n).Some? <==> TakenBack(spec, cluster, n)
  {
    DebugWrites(spec, n);
    CacheWritesExactly(spec, cluster, n);
    StorageWritesExactly(spec, cluster, n);
    SsoWritesExactly(spec, cluster, n);
    LdapWritesExactly(spec, cluster, n);
  }

  /** A custom setting, whatever its name, reaches Pulp exactly when no enabled
      feature assigns it later in the file, or assigns the same text. */
  lemma CustomValueReachesPulp(spec: PulpSpec, cluster: Cluster, order: seq<Flag>, n: string, k: string)
    requires IsGreatest(k, Variants(CustomData(spec, cluster), n))
    ensures var v := Last(n, Rendered(spec, cluster, order));
      && v.Some?
      && (TakenBack(spec, cluster, n) ==> Later(spec, cluster, n).Some? && v == Later(spec, cluster, n))
      && (!TakenBack(spec, cluster, n) ==> v == Some(Raw(CustomData(spec, cluster)[k])))
      && (ShowValue(v.value) == CustomData(spec, cluster)[k]
          <==> !TakenBack(spec, cluster, n) || ShowValue(Later(spec, cluster, n).value) == CustomData(spec, cluster)[k])
  {
    assert ToUpper(k) in CustomNames(spec, cluster);
    OverriddenLast(spec, cluster, order, n);
    LaterExactly(spec, cluster, n);
    CustomSectionLaws(spec, cluster, n);
  }
}
