/** What the rendered file means: how often a name is assigned, which
    assignment wins, what the operator itself believes about a setting, and
    which objects the rendering depends on. */
module SettingsLaws {
  import opened Text
  import opened Pulp
  import opened Settings

  /** How many times a name is assigned. */
  function Count(n: string, lines: seq<Line>): nat {
    if lines == [] then 0
    else Count(n, lines[..|lines| - 1]) + (if IsAssign(n, lines[|lines| - 1]) then 1 else 0)
  }

  predicate IsAssign(n: string, line: Line) { line.Assign? && line.name == n }

  /** The value Python ends up with: the last assignment of the name. */
  function Last(n: string, lines: seq<Line>): Option<Value> {
    if lines == [] then None
    else if IsAssign(n, lines[|lines| - 1]) then Some(lines[|lines| - 1].value)
    else Last(n, lines[..|lines| - 1])
  }

  lemma {:induction false} ConcatLaws(n: string, a: seq<Line>, b: seq<Line>)
    ensures Count(n, a + b) == Count(n, a) + Count(n, b)
    ensures Last(n, a + b) == if Last(n, b).Some? then Last(n, b) else Last(n, a)
    decreases |b|
  {
    if b == [] {
      assert a + b == a;
    } else {
      var c := b[..|b| - 1];
      ConcatLaws(n, a, c);
      assert (a + b)[..|a + b| - 1] == a + c;
    }
  }

  ghost predicate Silent(n: string, lines: seq<Line>) {
    forall l :: l in lines ==> !IsAssign(n, l)
  }

  lemma {:induction false} SilentLaws(n: string, lines: seq<Line>)
    ensures Silent(n, lines) <==> Count(n, lines) == 0
    ensures Silent(n, lines) <==> Last(n, lines).None?
  {
    if lines != [] {
      SilentLaws(n, lines[..|lines| - 1]);
      assert lines == lines[..|lines| - 1] + [lines[|lines| - 1]];
    }
  }

  lemma AppendSilent(n: string, a: seq<Line>, b: seq<Line>)
    requires Silent(n, b)
    ensures Count(n, a + b) == Count(n, a) && Last(n, a + b) == Last(n, a)
  {
    ConcatLaws(n, a, b);
    SilentLaws(n, b);
  }

  // ---- the custom section ----

  function Variants(data: map<string, string>, n: string): set<string> {
    set k | k in data && ToUpper(k) == n
  }

  /** The spelling that comes last in byte order. */
  ghost predicate IsGreatest(k: string, keys: set<string>) {
    k in keys && forall j :: j in keys && j != k ==> Less(j, k)
  }

  function VariantsIn(keys: seq<string>, n: string): set<string> {
    set k | k in keys && ToUpper(k) == n
  }

  lemma VariantsOfOneMore(init: seq<string>, k: string, n: string)
    requires k !in init
    ensures |VariantsIn(init + [k], n)| == |VariantsIn(init, n)| + (if ToUpper(k) == n then 1 else 0)
  {
    if ToUpper(k) == n {
      assert VariantsIn(init + [k], n) == VariantsIn(init, n) + {k};
      assert k !in VariantsIn(init, n);
    } else {
      assert VariantsIn(init + [k], n) == VariantsIn(init, n);
    }
  }

  lemma LastIsNew(keys: seq<string>)
    requires Ascending(keys) && keys != []
    ensures keys == keys[..|keys| - 1] + [keys[|keys| - 1]]
    ensures keys[|keys| - 1] !in keys[..|keys| - 1]
    ensures Ascending(keys[..|keys| - 1])
  {
    LessIrreflexive(keys[|keys| - 1]);
  }

  lemma {:induction false} CountCustom(data: map<string, string>, keys: seq<string>, n: string)
    requires Ascending(keys) && forall k :: k in keys ==> k in data
    ensures Count(n, CustomLines(data, keys)) == |VariantsIn(keys, n)|
  {
    if keys == [] {
      assert VariantsIn(keys, n) == {};
    } else {
      var init := keys[..|keys| - 1];
      LastIsNew(keys);
      CountCustom(data, init, n);
      VariantsOfOneMore(init, keys[|keys| - 1], n);
      assert CustomLines(data, keys)[..|keys| - 1] == CustomLines(data, init);
    }
  }

  /** The custom assignment that wins belongs to the greatest spelling. */
  lemma {:induction false} LastCustom(data: map<string, string>, keys: seq<string>, n: string, k: string)
    requires Ascending(keys) && forall j :: j in keys ==> j in data
    requires k in keys && ToUpper(k) == n
    requires forall j :: j in keys && ToUpper(j) == n && j != k ==> Less(j, k)
    ensures Last(n, CustomLines(data, keys)) == Some(Raw(data[k]))
  {
    var last := keys[|keys| - 1];
    var init := keys[..|keys| - 1];
    assert keys == init + [last];
    assert CustomLines(data, keys)[..|keys| - 1] == CustomLines(data, init);
    if last != k {
      if ToUpper(last) == n {
        var i :| 0 <= i < |keys| && keys[i] == k;
        LessTransitive(k, last, k);
        LessIrreflexive(k);
        assert false;
      }
      LastCustom(data, init, n, k);
    }
  }

  lemma {:induction false} CustomWritesUpperKeys(data: map<string, string>, keys: seq<string>, n: string)
    requires forall k :: k in keys ==> k in data
    requires forall k :: k in keys ==> ToUpper(k) != n
    ensures Silent(n, CustomLines(data, keys))
  {
    if keys != [] {
      CustomWritesUpperKeys(data, keys[..|keys| - 1], n);
      assert keys[|keys| - 1] in keys;
    }
  }

  lemma {:induction false} PlainCounts(data: map<string, Value>, keys: seq<string>, n: string)
    requires Ascending(keys) && forall k :: k in keys ==> k in data
    ensures Count(n, PlainLines(data, keys)) == if n in keys then 1 else 0
    ensures Last(n, PlainLines(data, keys)) == if n in keys then Some(data[n]) else None
  {
    if keys != [] {
      var init := keys[..|keys| - 1];
      assert keys == init + [keys[|keys| - 1]];
      PlainCounts(data, init, n);
      assert PlainLines(data, keys)[..|keys| - 1] == PlainLines(data, init);
      LessIrreflexive(n);
    }
  }

  // ---- what the feature sections may write ----

  predicate IsSsoKey(k: string) { k in SSO_REQUIRED || k in SSO_OPTIONAL }

  ghost predicate IsSsoName(n: string) { exists k :: IsSsoKey(k) && ToUpper(k) == n }

  const UNGUARDED_NAMES: set<string> :=
    {"LOGGING", "CACHE_ENABLED", "REDIS_HOST", "REDIS_PORT", "REDIS_PASSWORD", "REDIS_DB", "MEDIA_ROOT",
     "AUTHENTICATION_BACKENDS", "REDIRECT_TO_OBJECT_STORAGE", "HIDE_GUARDED_DISTRIBUTIONS"}

  /** Names a feature section may assign without looking for a custom value. */
  ghost predicate Unguarded(n: string) {
    n in UNGUARDED_NAMES || IsSsoName(n) || (|n| >= 10 && n[..10] == LDAP_PREFIX)
  }

  const GUARDED_NAMES: set<string> := {"DATABASES", "STORAGES", "TOKEN_SERVER", "SECRET_KEY", "ALLOWED_CONTENT_CHECKSUMS"}

  predicate Protected(n: string) { n in DEFAULT_NAMES || n in GUARDED_NAMES }

  lemma LdapSilent(data: map<string, string>, keys: seq<string>, n: string)
    requires forall k :: k in keys ==> k in data
    requires !(|n| >= 10 && n[..10] == LDAP_PREFIX)
    ensures Silent(n, LdapLines(data, keys))
  {
    if keys != [] {
      var k := keys[|keys| - 1];
      LdapSilent(data, keys[..|keys| - 1], n);
      if IsLdapKey(k) {
        assert ToUpper(k)[..10] == ToUpper(k[..10]);
      }
    }
  }

  lemma {:induction false} QuotedUpperSilent(data: map<string, string>, keys: seq<string>, n: string)
    requires forall k :: k in keys ==> k in data && ToUpper(k) != n
    ensures Silent(n, QuotedUpperLines(data, keys))
  {
    if keys != [] {
      QuotedUpperSilent(data, keys[..|keys| - 1], n);
      assert keys[|keys| - 1] in keys;
    }
  }

  lemma SsoKeysOnly(spec: PulpSpec, cluster: Cluster)
    ensures forall k :: k in SsoData(spec, cluster) ==> IsSsoKey(k)
  {
  }

  /** Every Keycloak key starts with "k", or is one of the long
      "social_auth" keys. */
  predicate SsoShape(k: string) { |k| >= 12 && (k[0] == 'k' || (k[0] == 's' && |k| >= 24)) }

  lemma SsoKeyShape(k: string)
    requires IsSsoKey(k)
    ensures SsoShape(k)
  {
    if k in SSO_REQUIRED {
      var i :| 0 <= i < |SSO_REQUIRED| && SSO_REQUIRED[i] == k;
      assert SsoShape(SSO_REQUIRED[0]) && SsoShape(SSO_REQUIRED[1]) && SsoShape(SSO_REQUIRED[2]) && SsoShape(SSO_REQUIRED[3]);
      assert SsoShape(SSO_REQUIRED[4]) && SsoShape(SSO_REQUIRED[5]) && SsoShape(SSO_REQUIRED[6]);
    } else {
      var i :| 0 <= i < |SSO_OPTIONAL| && SSO_OPTIONAL[i] == k;
      assert SsoShape(SSO_OPTIONAL[0]) && SsoShape(SSO_OPTIONAL[1]) && SsoShape(SSO_OPTIONAL[2]) && SsoShape(SSO_OPTIONAL[3]);
    }
  }

  lemma SsoShapes(n: string)
    requires IsSsoName(n)
    ensures |n| >= 12 && (n[0] == 'K' || (n[0] == 'S' && |n| >= 24))
  {
    var k :| IsSsoKey(k) && ToUpper(k) == n;
    SsoKeyShape(k);
  }

  /** Long enough to be told apart from the Keycloak and LDAP names by the
      first two letters and the length. */
  predicate ProtectedShape(n: string) {
    |n| >= 8 && n[0] != 'K' && (n[0] == 'A' ==> n[1] != 'U') && (n[0] == 'S' ==> |n| <= 11)
  }

  lemma ProtectedShapes(n: string)
    requires Protected(n)
    ensures ProtectedShape(n)
  {
  }

  lemma ProtectedNotUnguarded(n: string)
    requires Protected(n)
    ensures n !in UNGUARDED_NAMES
  {
  }

  lemma ProtectedIsGuarded(n: string)
    requires Protected(n)
    ensures !Unguarded(n)
  {
    ProtectedShapes(n);
    ProtectedNotUnguarded(n);
    if IsSsoName(n) {
      SsoShapes(n);
    }
  }

  /** The sections that never look at the custom settings. */
  lemma UnguardedSilence(spec: PulpSpec, cluster: Cluster, order: seq<Flag>, n: string)
    requires !Unguarded(n)
    ensures Silent(n, HEADER) && Silent(n, DebugSection(spec)) && Silent(n, CacheSection(spec, cluster))
    ensures Silent(n, SsoSection(spec, cluster)) && Silent(n, LdapSection(spec, cluster))
  {
    var data := SsoData(spec, cluster);
    SsoKeysOnly(spec, cluster);
    QuotedUpperSilent(data, SortedKeys(data.Keys), n);
    LdapSectionSilent(spec, cluster, n);
  }

  lemma LdapSectionSilent(spec: PulpSpec, cluster: Cluster, n: string)
    requires n != "AUTHENTICATION_BACKENDS" && !(|n| >= 10 && n[..10] == LDAP_PREFIX)
    ensures Silent(n, LdapSection(spec, cluster))
  {
    if !(spec.ldapConfig == "" || cluster.Secret(spec.ldapConfig).None?) {
      var d := cluster.SecretOrEmpty(spec.ldapConfig);
      var middle := LdapLines(d, SortedKeys(d.Keys));
      LdapSilent(d, SortedKeys(d.Keys), n);
      SilentConcat(n, LDAP_HEADER, middle);
      SilentConcat(n, LDAP_HEADER + middle, LDAP_FOOTER);
    }
  }

  lemma SilentConcat(n: string, a: seq<Line>, b: seq<Line>)
    ensures Silent(n, a + b) <==> Silent(n, a) && Silent(n, b)
  {
    assert forall l :: l in a + b <==> l in a || l in b;
  }

  lemma {:induction false} FlagsSilent(spec: PulpSpec, custom: set<string>, order: seq<Flag>, n: string)
    requires n != "REDIRECT_TO_OBJECT_STORAGE" && n != "HIDE_GUARDED_DISTRIBUTIONS"
    ensures Silent(n, FlagSection(spec, custom, order))
  {
    if order != [] {
      FlagsSilent(spec, custom, order[1..], n);
    }
  }

  /** Each guarded section writes one protected name, at most once, and only
      when the custom settings do not define it. */
  lemma DatabaseSilent(spec: PulpSpec, cluster: Cluster, custom: set<string>, n: string)
    requires n != "DATABASES" || n in custom
    ensures Silent(n, DatabaseSection(spec, cluster, custom))
  {
  }

  lemma StorageSilent(spec: PulpSpec, cluster: Cluster, custom: set<string>, n: string)
    requires n != "MEDIA_ROOT" && (n != "STORAGES" || n in custom)
    ensures Silent(n, AzureSection(spec, cluster, custom))
    ensures Silent(n, GcsSection(spec, cluster, custom))
    ensures Silent(n, S3Section(spec, cluster, custom))
  {
  }

  lemma TextSilent(spec: PulpSpec, cluster: Cluster, custom: set<string>, n: string)
    ensures n != "TOKEN_SERVER" || n in custom ==> Silent(n, TokenSection(spec, custom))
    ensures n != "SECRET_KEY" || n in custom ==> Silent(n, SecretKeySection(spec, cluster, custom))
    ensures n != "ALLOWED_CONTENT_CHECKSUMS" || n in custom ==> Silent(n, ChecksumSection(spec, custom))
  {
  }

  ghost function GuardedTotal(n: string, spec: PulpSpec, cluster: Cluster): nat {
    var custom := CustomNames(spec, cluster);
    Count(n, DatabaseSection(spec, cluster, custom)) + Count(n, AzureSection(spec, cluster, custom))
    + Count(n, GcsSection(spec, cluster, custom)) + Count(n, S3Section(spec, cluster, custom))
    + Count(n, TokenSection(spec, custom)) + Count(n, SecretKeySection(spec, cluster, custom))
    + Count(n, ChecksumSection(spec, custom))
  }

  lemma CountTwo(n: string, a: Line, b: Line)
    ensures Count(n, [a, b]) == (if IsAssign(n, a) then 1 else 0) + (if IsAssign(n, b) then 1 else 0)
    ensures Count(n, [a]) == if IsAssign(n, a) then 1 else 0
  {
    assert [a][..0] == [];
    assert Count(n, [a]) == Count(n, []) + if IsAssign(n, a) then 1 else 0;
    assert [a, b][..1] == [a];
  }

  lemma StorageOnce(spec: PulpSpec, cluster: Cluster, custom: set<string>, n: string)
    requires n != "MEDIA_ROOT"
    ensures Count(n, AzureSection(spec, cluster, custom)) + Count(n, GcsSection(spec, cluster, custom))
            + Count(n, S3Section(spec, cluster, custom)) <= 1
  {
    var a, g, s := AzureSection(spec, cluster, custom), GcsSection(spec, cluster, custom), S3Section(spec, cluster, custom);
    assert |a| == 0 || |a| == 2;
    assert |g| == 0 || |g| == 2;
    assert |s| == 0 || |s| == 2;
    assert (a == [] && g == []) || (a == [] && s == []) || (g == [] && s == []);
    if |a| == 2 { CountTwo(n, a[0], a[1]); assert a == [a[0], a[1]]; }
    if |g| == 2 { CountTwo(n, g[0], g[1]); assert g == [g[0], g[1]]; }
    if |s| == 2 { CountTwo(n, s[0], s[1]); assert s == [s[0], s[1]]; }
  }

  lemma CountAtMostLength(n: string, lines: seq<Line>)
    ensures Count(n, lines) <= |lines|
  {
  }

  /** The text sections write one name each. */
  function TextTotal(n: string, spec: PulpSpec, cluster: Cluster, custom: set<string>): nat {
    Count(n, TokenSection(spec, custom)) + Count(n, SecretKeySection(spec, cluster, custom)) + Count(n, ChecksumSection(spec, custom))
  }

  lemma TextAtMostOnce(n: string, spec: PulpSpec, cluster: Cluster, custom: set<string>)
    ensures TextTotal(n, spec, cluster, custom) <= 1
    ensures n in custom || n !in {"TOKEN_SERVER", "SECRET_KEY", "ALLOWED_CONTENT_CHECKSUMS"} ==> TextTotal(n, spec, cluster, custom) == 0
  {
    TextSilent(spec, cluster, custom, n);
    SilentLaws(n, TokenSection(spec, custom));
    SilentLaws(n, SecretKeySection(spec, cluster, custom));
    SilentLaws(n, ChecksumSection(spec, custom));
    CountAtMostLength(n, TokenSection(spec, custom));
    CountAtMostLength(n, SecretKeySection(spec, cluster, custom));
    CountAtMostLength(n, ChecksumSection(spec, custom));
  }

  function ServiceTotal(n: string, spec: PulpSpec, cluster: Cluster, custom: set<string>): nat {
    Count(n, DatabaseSection(spec, cluster, custom)) + Count(n, AzureSection(spec, cluster, custom))
    + Count(n, GcsSection(spec, cluster, custom)) + Count(n, S3Section(spec, cluster, custom))
  }

  lemma ServicesAtMostOnce(n: string, spec: PulpSpec, cluster: Cluster, custom: set<string>)
    requires n != "MEDIA_ROOT"
    ensures ServiceTotal(n, spec, cluster, custom) <= 1
    ensures n in custom || n !in {"DATABASES", "STORAGES"} ==> ServiceTotal(n, spec, cluster, custom) == 0
  {
    if n != "DATABASES" || n in custom { DatabaseSilent(spec, cluster, custom, n); }
    if n != "STORAGES" || n in custom { StorageSilent(spec, cluster, custom, n); }
    SilentLaws(n, DatabaseSection(spec, cluster, custom));
    SilentLaws(n, AzureSection(spec, cluster, custom));
    SilentLaws(n, GcsSection(spec, cluster, custom));
    SilentLaws(n, S3Section(spec, cluster, custom));
    StorageOnce(spec, cluster, custom, n);
    CountAtMostLength(n, DatabaseSection(spec, cluster, custom));
  }

  lemma GuardedAtMostOnce(n: string, spec: PulpSpec, cluster: Cluster)
    requires !Unguarded(n)
    ensures GuardedTotal(n, spec, cluster) <= 1
    ensures n in CustomNames(spec, cluster) || n !in GUARDED_NAMES ==> GuardedTotal(n, spec, cluster) == 0
  {
    var custom := CustomNames(spec, cluster);
    assert n != "MEDIA_ROOT";
    TextAtMostOnce(n, spec, cluster, custom);
    ServicesAtMostOnce(n, spec, cluster, custom);
    assert GuardedTotal(n, spec, cluster) == ServiceTotal(n, spec, cluster, custom) + TextTotal(n, spec, cluster, custom);
  }

  /** Outside the guarded sections, only the custom section assigns a name
      that no feature owns. */
  lemma RenderedCounts(spec: PulpSpec, cluster: Cluster, order: seq<Flag>, n: string)
    requires !Unguarded(n)
    ensures Count(n, Rendered(spec, cluster, order)) == Count(n, CustomSection(spec, cluster)) + GuardedTotal(n, spec, cluster)
    ensures GuardedTotal(n, spec, cluster) == 0 ==> Last(n, Rendered(spec, cluster, order)) == Last(n, CustomSection(spec, cluster))
  {
    var custom := CustomNames(spec, cluster);
    UnguardedSilence(spec, cluster, order, n);
    FlagsSilent(spec, custom, order, n);
    HeadCounts(spec, cluster, n);
    StorageCounts(spec, cluster, n);
    var c2 := RenderedStorage(spec, cluster);
    ConcatLaws(n, c2, TokenSection(spec, custom));
    ConcatLaws(n, c2 + TokenSection(spec, custom), SecretKeySection(spec, cluster, custom));
    ConcatLaws(n, c2 + TokenSection(spec, custom) + SecretKeySection(spec, cluster, custom), ChecksumSection(spec, custom));
    AppendSilent(n, c2 + TokenSection(spec, custom) + SecretKeySection(spec, cluster, custom) + ChecksumSection(spec, custom), LdapSection(spec, cluster));
    AppendSilent(n, RenderedStable(spec, cluster), FlagSection(spec, custom, order));
    SilentLaws(n, TokenSection(spec, custom));
    SilentLaws(n, SecretKeySection(spec, cluster, custom));
    SilentLaws(n, ChecksumSection(spec, custom));
  }

  lemma HeadCounts(spec: PulpSpec, cluster: Cluster, n: string)
    requires Silent(n, HEADER) && Silent(n, DebugSection(spec)) && Silent(n, CacheSection(spec, cluster))
    ensures Count(n, RenderedHead(spec, cluster))
            == Count(n, CustomSection(spec, cluster)) + Count(n, DatabaseSection(spec, cluster, CustomNames(spec, cluster)))
    ensures Count(n, DatabaseSection(spec, cluster, CustomNames(spec, cluster))) == 0
            ==> Last(n, RenderedHead(spec, cluster)) == Last(n, CustomSection(spec, cluster))
  {
    var custom := CustomNames(spec, cluster);
    ConcatLaws(n, HEADER, CustomSection(spec, cluster));
    SilentLaws(n, HEADER);
    var c0 := HEADER + CustomSection(spec, cluster);
    AppendSilent(n, c0, DebugSection(spec));
    ConcatLaws(n, c0 + DebugSection(spec), DatabaseSection(spec, cluster, custom));
    AppendSilent(n, c0 + DebugSection(spec) + DatabaseSection(spec, cluster, custom), CacheSection(spec, cluster));
    SilentLaws(n, DatabaseSection(spec, cluster, custom));
  }

  lemma StorageCounts(spec: PulpSpec, cluster: Cluster, n: string)
    requires Silent(n, SsoSection(spec, cluster))
    ensures Count(n, RenderedStorage(spec, cluster))
            == Count(n, RenderedHead(spec, cluster)) + Count(n, AzureSection(spec, cluster, CustomNames(spec, cluster)))
               + Count(n, GcsSection(spec, cluster, CustomNames(spec, cluster))) + Count(n, S3Section(spec, cluster, CustomNames(spec, cluster)))
    ensures Count(n, AzureSection(spec, cluster, CustomNames(spec, cluster)))
            + Count(n, GcsSection(spec, cluster, CustomNames(spec, cluster))) + Count(n, S3Section(spec, cluster, CustomNames(spec, cluster))) == 0
            ==> Last(n, RenderedStorage(spec, cluster)) == Last(n, RenderedHead(spec, cluster))
  {
    var custom := CustomNames(spec, cluster);
    var c := RenderedHead(spec, cluster);
    ConcatLaws(n, c, AzureSection(spec, cluster, custom));
    ConcatLaws(n, c + AzureSection(spec, cluster, custom), GcsSection(spec, cluster, custom));
    ConcatLaws(n, c + AzureSection(spec, cluster, custom) + GcsSection(spec, cluster, custom), S3Section(spec, cluster, custom));
    AppendSilent(n, c + AzureSection(spec, cluster, custom) + GcsSection(spec, cluster, custom) + S3Section(spec, cluster, custom), SsoSection(spec, cluster));
    SilentLaws(n, AzureSection(spec, cluster, custom));
    SilentLaws(n, GcsSection(spec, cluster, custom));
    SilentLaws(n, S3Section(spec, cluster, custom));
  }

  // ---- overriding ----

  lemma DefaultKeys(rootUrl: string)
    ensures DefaultPulpSettings(rootUrl).Keys == DEFAULT_NAMES
  {
  }

  lemma RemainingKeys(spec: PulpSpec, cluster: Cluster, n: string)
    ensures n in SortedKeys(RemainingDefaults(spec, cluster).Keys) <==> n in DEFAULT_NAMES && n !in CustomNames(spec, cluster)
    ensures n in RemainingDefaults(spec, cluster) ==>
              n in DEFAULT_NAMES && RemainingDefaults(spec, cluster)[n] == DefaultPulpSettings(GetRootURL(spec))[n]
  {
    DefaultKeys(GetRootURL(spec));
  }

  lemma CustomSectionLaws(spec: PulpSpec, cluster: Cluster, n: string)
    ensures Count(n, CustomSection(spec, cluster))
            == |Variants(CustomData(spec, cluster), n)| + (if n in DEFAULT_NAMES && n !in CustomNames(spec, cluster) then 1 else 0)
    ensures n !in CustomNames(spec, cluster) ==>
              Last(n, CustomSection(spec, cluster))
              == if n in DEFAULT_NAMES then Some(DefaultPulpSettings(GetRootURL(spec))[n]) else None
    ensures forall k :: IsGreatest(k, Variants(CustomData(spec, cluster), n)) ==>
              Last(n, CustomSection(spec, cluster)) == Some(Raw(CustomData(spec, cluster)[k]))
  {
    var data := CustomData(spec, cluster);
    var rest := RemainingDefaults(spec, cluster);
    var keys, restKeys := SortedKeys(data.Keys), SortedKeys(rest.Keys);
    RemainingKeys(spec, cluster, n);
    ConcatLaws(n, CustomLines(data, keys), PlainLines(rest, restKeys));
    CountCustom(data, keys, n);
    assert VariantsIn(keys, n) == Variants(data, n);
    PlainCounts(rest, restKeys, n);
    if n !in CustomNames(spec, cluster) {
      CustomWritesUpperKeys(data, keys, n);
      SilentLaws(n, CustomLines(data, keys));
    }
    forall k | IsGreatest(k, Variants(data, n))
      ensures Last(n, CustomSection(spec, cluster)) == Some(Raw(data[k]))
    {
      assert ToUpper(k) in CustomNames(spec, cluster);
      LastCustom(data, keys, n, k);
    }
  }

  lemma VariantsOrNone(data: map<string, string>, n: string)
    ensures Variants(data, n) == {} <==> n !in UpperKeys(data.Keys)
  {
    if n in UpperKeys(data.Keys) {
      var k :| k in data && ToUpper(k) == n;
      assert k in Variants(data, n);
    }
  }

  /** A protected setting is assigned at most once exactly when the ConfigMap
      has at most one spelling of it; the custom value wins over the
      operator's, and among several spellings the greatest in byte order. */
  lemma CustomSettingsOverride(spec: PulpSpec, cluster: Cluster, order: seq<Flag>, n: string)
    requires Protected(n)
    ensures Count(n, Rendered(spec, cluster, order)) <= 1 <==> |Variants(CustomData(spec, cluster), n)| <= 1
    ensures forall k :: IsGreatest(k, Variants(CustomData(spec, cluster), n)) ==>
              Last(n, Rendered(spec, cluster, order)) == Some(Raw(CustomData(spec, cluster)[k]))
    ensures n in DEFAULT_NAMES && Variants(CustomData(spec, cluster), n) == {} ==>
              Last(n, Rendered(spec, cluster, order)) == Some(DefaultPulpSettings(GetRootURL(spec))[n])
  {
    ProtectedIsGuarded(n);
    RenderedCounts(spec, cluster, order, n);
    GuardedAtMostOnce(n, spec, cluster);
    CustomSectionLaws(spec, cluster, n);
    VariantsOrNone(CustomData(spec, cluster), n);
    GuardedAndDefaultDiffer(n);
  }

  lemma GuardedAndDefaultDiffer(n: string)
    ensures !(n in GUARDED_NAMES && n in DEFAULT_NAMES)
  {
  }

  /** With upper-casing injective on the ConfigMap keys, every protected name
      is assigned at most once in the whole file. */
  lemma InjectiveKeysNoRepeats(spec: PulpSpec, cluster: Cluster, order: seq<Flag>)
    requires forall j, k :: j in CustomData(spec, cluster) && k in CustomData(spec, cluster) && ToUpper(j) == ToUpper(k) ==> j == k
    ensures forall n :: Protected(n) ==> Count(n, Rendered(spec, cluster, order)) <= 1
    ensures forall k :: k in CustomData(spec, cluster) && Protected(ToUpper(k)) ==>
              Last(ToUpper(k), Rendered(spec, cluster, order)) == Some(Raw(CustomData(spec, cluster)[k]))
  {
    var data := CustomData(spec, cluster);
    forall n | Protected(n)
      ensures Count(n, Rendered(spec, cluster, order)) <= 1
    {
      var vs := Variants(data, n);
      if vs != {} {
        var k :| k in vs;
        assert vs == {k};
      }
      CustomSettingsOverride(spec, cluster, order, n);
    }
    forall k | k in data && Protected(ToUpper(k))
      ensures Last(ToUpper(k), Rendered(spec, cluster, order)) == Some(Raw(data[k]))
    {
      assert IsGreatest(k, Variants(data, ToUpper(k)));
      CustomSettingsOverride(spec, cluster, order, ToUpper(k));
    }
  }
}
