/** Who else depends on the rendered settings: the operator's own lookup of a
    custom setting, the order of the migration flags, and the watch index. */
module SettingsAgreement {
  import opened Text
  import opened Pulp
  import opened Settings
  import opened SettingsLaws

  // ---- the operator's own reading of custom_pulp_settings ----

  /** `getCMData`: the all-lower-case spelling first, then the all-upper-case one. */
  function GetCMData(data: map<string, string>, key: string): Option<string> {
    if ToLower(key) in data then Some(data[ToLower(key)])
    else if ToUpper(key) in data then Some(data[ToUpper(key)])
    else None
  }

  /** The operator believes of a setting what Python will see. */
  ghost predicate Agree(spec: PulpSpec, cluster: Cluster, order: seq<Flag>, key: string) {
    Last(ToUpper(key), Rendered(spec, cluster, order))
    == match GetCMData(CustomData(spec, cluster), key)
       case Some(v) => Some(Raw(v))
       case None => None
  }

  lemma {:induction false} GreatestExists(keys: set<string>)
    requires keys != {}
    ensures exists k :: IsGreatest(k, keys)
    decreases |keys|
  {
    var x :| x in keys;
    if keys == {x} {
      assert IsGreatest(x, keys);
    } else {
      GreatestExists(keys - {x});
      var k :| IsGreatest(k, keys - {x});
      LessTotal(x, k);
      if Less(x, k) {
        assert IsGreatest(k, keys);
      } else {
        forall j | j in keys && j != x
          ensures Less(j, x)
        {
          if j != k { LessTransitive(j, k, x); }
        }
        assert IsGreatest(x, keys);
      }
    }
  }

  lemma LowerIsGreatestVariant(data: map<string, string>, key: string)
    requires ToLower(key) in data
    ensures IsGreatest(ToLower(key), Variants(data, ToUpper(key)))
  {
    FoldOfUpper(key);
    forall j | j in Variants(data, ToUpper(key)) && j != ToLower(key)
      ensures Less(j, ToLower(key))
    {
      LowerCaseIsGreatest(j);
      FoldOfUpper(j);
    }
  }

  /** For a setting no section of the operator writes, the lookup and the file
      agree unless the file is decided by a mixed-case spelling with a value of
      its own. */
  lemma LookupAgrees(spec: PulpSpec, cluster: Cluster, order: seq<Flag>, key: string)
    requires !Unguarded(ToUpper(key)) && !Protected(ToUpper(key))
    ensures Agree(spec, cluster, order, key) <==>
              (|| ToLower(key) in CustomData(spec, cluster)
               || Variants(CustomData(spec, cluster), ToUpper(key)) <= {ToUpper(key)}
               || (ToUpper(key) in CustomData(spec, cluster)
                   && forall k :: IsGreatest(k, Variants(CustomData(spec, cluster), ToUpper(key)))
                        ==> CustomData(spec, cluster)[k] == CustomData(spec, cluster)[ToUpper(key)]))
  {
    var n := ToUpper(key);
    var data := CustomData(spec, cluster);
    var vs := Variants(data, n);
    RenderedCounts(spec, cluster, order, n);
    GuardedAtMostOnce(n, spec, cluster);
    CustomSectionLaws(spec, cluster, n);
    VariantsOrNone(data, n);
    FoldOfUpper(key);
    if ToLower(key) in data {
      LowerIsGreatestVariant(data, key);
    } else if vs != {} {
      GreatestExists(vs);
      var g :| IsGreatest(g, vs);
      if vs <= {n} {
        assert g == n;
      } else {
        forall k | IsGreatest(k, vs) ensures k == g {
          if k != g { LessTransitive(k, g, k); LessIrreflexive(k); }
        }
      }
    }
  }

  predicate SpelledPlainly(data: map<string, string>, key: string) {
    ToLower(key) in data || Variants(data, ToUpper(key)) <= {ToUpper(key)}
  }

  lemma PlainSpellingAgrees(spec: PulpSpec, cluster: Cluster, order: seq<Flag>, key: string, data: map<string, string>)
    requires spec.customPulpSettings != ""
    requires !Unguarded(ToUpper(key)) && !Protected(ToUpper(key))
    requires SpelledPlainly(data, key)
    ensures Agree(spec, WithSettings(spec, cluster, data), order, key)
  {
    assert CustomData(spec, WithSettings(spec, cluster, data)) == data;
    LookupAgrees(spec, WithSettings(spec, cluster, data), order, key);
  }

  /** Values under which a mixed-case spelling deceives the operator. */
  function Deceiving(keys: set<string>, key: string): map<string, string> {
    map k | k in keys :: if k == ToUpper(key) then "u" else ""
  }

  lemma WinnerIsNotFound(spec: PulpSpec, cluster: Cluster, order: seq<Flag>, key: string, g: string)
    requires !Unguarded(ToUpper(key)) && !Protected(ToUpper(key))
    requires ToLower(key) !in CustomData(spec, cluster)
    requires IsGreatest(g, Variants(CustomData(spec, cluster), ToUpper(key)))
    requires ToUpper(key) in CustomData(spec, cluster) ==> CustomData(spec, cluster)[ToUpper(key)] != CustomData(spec, cluster)[g]
    ensures !Agree(spec, cluster, order, key)
  {
    var n := ToUpper(key);
    RenderedCounts(spec, cluster, order, n);
    GuardedAtMostOnce(n, spec, cluster);
    CustomSectionLaws(spec, cluster, n);
  }

  lemma DeceivingWinner(key: string, keys: set<string>) returns (g: string)
    requires !SpelledPlainly(Deceiving(keys, key), key)
    ensures IsGreatest(g, Variants(Deceiving(keys, key), ToUpper(key)))
    ensures ToUpper(key) in Deceiving(keys, key) ==> Deceiving(keys, key)[ToUpper(key)] != Deceiving(keys, key)[g]
  {
    var data := Deceiving(keys, key);
    var vs := Variants(data, ToUpper(key));
    GreatestExists(vs);
    g :| IsGreatest(g, vs);
    UpperIsNotGreatest(vs, ToUpper(key), g);
    assert |data[g]| == 0;
    assert ToUpper(key) in data ==> |data[ToUpper(key)]| == 1;
  }

  lemma SettingsAsGiven(spec: PulpSpec, cluster: Cluster, data: map<string, string>)
    requires spec.customPulpSettings != ""
    ensures CustomData(spec, WithSettings(spec, cluster, data)) == data
  {
  }

  lemma MixedSpellingDeceives(spec: PulpSpec, cluster: Cluster, order: seq<Flag>, key: string, keys: set<string>)
    requires spec.customPulpSettings != ""
    requires !Unguarded(ToUpper(key)) && !Protected(ToUpper(key))
    requires !SpelledPlainly(Deceiving(keys, key), key)
    ensures !Agree(spec, WithSettings(spec, cluster, Deceiving(keys, key)), order, key)
  {
    var g := DeceivingWinner(key, keys);
    SettingsAsGiven(spec, cluster, Deceiving(keys, key));
    WinnerIsNotFound(spec, WithSettings(spec, cluster, Deceiving(keys, key)), order, key, g);
  }

  lemma SameKeysSameSpelling(a: map<string, string>, b: map<string, string>, key: string)
    requires a.Keys == b.Keys
    ensures SpelledPlainly(a, key) == SpelledPlainly(b, key)
  {
    assert forall k :: k in a <==> k in a.Keys;
    assert forall k :: k in b <==> k in b.Keys;
    assert Variants(a, ToUpper(key)) == Variants(b, ToUpper(key));
  }

  /** Seen from the spellings alone: they guarantee agreement for all values
      exactly when the lower-case one is present or no mixed-case one is. */
  lemma SpellingsDecide(spec: PulpSpec, cluster: Cluster, order: seq<Flag>, key: string, data: map<string, string>)
    requires spec.customPulpSettings != ""
    requires !Unguarded(ToUpper(key)) && !Protected(ToUpper(key))
    ensures (forall d: map<string, string> :: d.Keys == data.Keys ==> Agree(spec, WithSettings(spec, cluster, d), order, key))
            <==> SpelledPlainly(data, key)
  {
    if SpelledPlainly(data, key) {
      forall d: map<string, string> | d.Keys == data.Keys
        ensures Agree(spec, WithSettings(spec, cluster, d), order, key)
      {
        SameKeysSameSpelling(data, d, key);
        PlainSpellingAgrees(spec, cluster, order, key, d);
      }
    } else {
      var d := Deceiving(data.Keys, key);
      assert d.Keys == data.Keys;
      SameKeysSameSpelling(data, d, key);
      MixedSpellingDeceives(spec, cluster, order, key, data.Keys);
    }
  }

  lemma UpperIsLeast(v: string)
    ensures v == ToUpper(v) || Less(ToUpper(v), v)
  {
    if v != "" {
      UpperIsLeast(v[1..]);
      assert ToUpper(v)[1..] == ToUpper(v[1..]);
      if v[0] == UpperChar(v[0]) && v[1..] == ToUpper(v[1..]) {
        assert v == [v[0]] + v[1..];
        assert ToUpper(v) == [UpperChar(v[0])] + ToUpper(v[1..]);
      }
    }
  }

  lemma UpperIsNotGreatest(vs: set<string>, n: string, g: string)
    requires forall v :: v in vs ==> ToUpper(v) == n
    requires !(vs <= {n}) && IsGreatest(g, vs)
    ensures g != n
  {
    if g == n {
      var m :| m in vs && m != n;
      UpperIsLeast(m);
      LessTransitive(m, n, m);
      LessIrreflexive(m);
    }
  }

  function WithSettings(spec: PulpSpec, cluster: Cluster, data: map<string, string>): Cluster {
    cluster.(configMaps := cluster.configMaps[spec.customPulpSettings := data])
  }

  /** The three settings the operator itself looks up. */
  const LOOKED_UP: set<string> := {"api_root", "content_path_prefix", "domain_enabled"}

  /** Enough letters and length to tell these three from every name the
      operator writes itself. */
  predicate LookedUpShape(n: string) {
    |n| >= 2 && ((n[0] == 'A' && n[1] == 'P') || (n[0] == 'C' && |n| == 19) || (n[0] == 'D' && |n| == 14))
  }

  predicate LookedUpKeyShape(k: string) {
    |k| >= 2 && ((k[0] == 'a' && k[1] == 'p') || (k[0] == 'c' && |k| == 19) || (k[0] == 'd' && |k| == 14))
  }

  lemma LookedUpKeys(key: string)
    requires key in LOOKED_UP
    ensures LookedUpKeyShape(key)
  {
  }

  lemma LookedUpShapes(key: string)
    requires LookedUpKeyShape(key)
    ensures LookedUpShape(ToUpper(key))
  {
  }

  lemma OperatorNamesShape(n: string)
    requires n in UNGUARDED_NAMES || Protected(n)
    ensures !LookedUpShape(n)
  {
  }

  lemma LookedUpFree(n: string)
    requires LookedUpShape(n)
    ensures !Unguarded(n) && !Protected(n)
  {
    if n in UNGUARDED_NAMES || Protected(n) { OperatorNamesShape(n); }
    if IsSsoName(n) { SsoShapes(n); }
  }

  lemma LookedUpSettingsAgree(spec: PulpSpec, cluster: Cluster, order: seq<Flag>, key: string)
    requires key in LOOKED_UP && SpelledPlainly(CustomData(spec, cluster), key)
    ensures Agree(spec, cluster, order, key)
  {
    LookedUpKeys(key);
    LookedUpShapes(key);
    LookedUpFree(ToUpper(key));
    LookupAgrees(spec, cluster, order, key);
  }

  // ---- custom values the operator does not honour ----

  const CACHE_NAMES: set<string> := {"CACHE_ENABLED", "REDIS_HOST", "REDIS_PORT", "REDIS_PASSWORD", "REDIS_DB"}

  lemma CacheNamesFree(n: string)
    requires n in CACHE_NAMES
    ensures |n| >= 2 && n[0] in {'C', 'R'} && n != "AUTHENTICATION_BACKENDS"
    ensures n != "REDIRECT_TO_OBJECT_STORAGE" && n != "HIDE_GUARDED_DISTRIBUTIONS"
    ensures n !in GUARDED_NAMES && n != "MEDIA_ROOT"
    ensures !(|n| >= 10 && n[..10] == LDAP_PREFIX)
  {
  }

  lemma CacheWrites(spec: PulpSpec, cluster: Cluster, n: string)
    requires spec.cacheEnabled && n in CACHE_NAMES
    ensures !Silent(n, CacheSection(spec, cluster))
  {
    var c := CacheSection(spec, cluster);
    assert IsAssign("CACHE_ENABLED", c[0]) && IsAssign("REDIS_HOST", c[1]) && IsAssign("REDIS_PORT", c[2])
        && IsAssign("REDIS_PASSWORD", c[3]) && IsAssign("REDIS_DB", c[4]);
  }

  lemma FourSilent(n: string, h: seq<Line>, a: seq<Line>, b: seq<Line>, c: seq<Line>, d: seq<Line>)
    requires Silent(n, a) && Silent(n, b) && Silent(n, c) && Silent(n, d)
    ensures Last(n, h + a + b + c + d) == Last(n, h)
  {
    AppendSilent(n, h, a);
    AppendSilent(n, h + a, b);
    AppendSilent(n, h + a + b, c);
    AppendSilent(n, h + a + b + c, d);
  }

  lemma SectionsSilentOnCache(spec: PulpSpec, cluster: Cluster, custom: set<string>, n: string)
    requires n !in GUARDED_NAMES && n != "MEDIA_ROOT"
    ensures Silent(n, AzureSection(spec, cluster, custom)) && Silent(n, GcsSection(spec, cluster, custom))
    ensures Silent(n, S3Section(spec, cluster, custom)) && Silent(n, TokenSection(spec, custom))
    ensures Silent(n, SecretKeySection(spec, cluster, custom)) && Silent(n, ChecksumSection(spec, custom))
  {
    StorageSilent(spec, cluster, custom, n);
    TextSilent(spec, cluster, custom, n);
  }

  lemma SsoSilentOnCache(spec: PulpSpec, cluster: Cluster, n: string)
    requires |n| >= 1 && n[0] in {'C', 'R'}
    ensures Silent(n, SsoSection(spec, cluster))
  {
    var data := SsoData(spec, cluster);
    SsoKeysOnly(spec, cluster);
    forall k | k in data ensures ToUpper(k) != n {
      SsoKeyShape(k);
    }
    QuotedUpperSilent(data, SortedKeys(data.Keys), n);
  }

  lemma StorageKeepsCache(spec: PulpSpec, cluster: Cluster, n: string)
    requires n in CACHE_NAMES
    ensures Last(n, RenderedStorage(spec, cluster)) == Last(n, RenderedHead(spec, cluster))
  {
    var custom := CustomNames(spec, cluster);
    CacheNamesFree(n);
    SectionsSilentOnCache(spec, cluster, custom, n);
    SsoSilentOnCache(spec, cluster, n);
    StorageLast(spec, cluster, custom, n);
  }

  lemma StableLast(spec: PulpSpec, cluster: Cluster, custom: set<string>, n: string)
    requires custom == CustomNames(spec, cluster)
    requires Silent(n, TokenSection(spec, custom)) && Silent(n, SecretKeySection(spec, cluster, custom))
    requires Silent(n, ChecksumSection(spec, custom)) && Silent(n, LdapSection(spec, cluster))
    ensures Last(n, RenderedStable(spec, cluster)) == Last(n, RenderedStorage(spec, cluster))
  {
    FourSilent(n, RenderedStorage(spec, cluster), TokenSection(spec, custom), SecretKeySection(spec, cluster, custom),
               ChecksumSection(spec, custom), LdapSection(spec, cluster));
  }

  lemma StableKeepsCache(spec: PulpSpec, cluster: Cluster, n: string)
    requires n in CACHE_NAMES
    ensures Last(n, RenderedStable(spec, cluster)) == Last(n, RenderedStorage(spec, cluster))
  {
    CacheNamesFree(n);
    SectionsSilentOnCache(spec, cluster, CustomNames(spec, cluster), n);
    LdapSectionSilent(spec, cluster, n);
    StableLast(spec, cluster, CustomNames(spec, cluster), n);
  }

  lemma AfterCacheSilent(spec: PulpSpec, cluster: Cluster, order: seq<Flag>, n: string)
    requires n in CACHE_NAMES
    ensures Last(n, Rendered(spec, cluster, order)) == Last(n, RenderedHead(spec, cluster))
  {
    StorageKeepsCache(spec, cluster, n);
    StableKeepsCache(spec, cluster, n);
    CacheNamesFree(n);
    FlagsLast(spec, cluster, order, n);
  }

  /** The cache section never looks at the custom settings: with the cache
      enabled its values win, whatever the ConfigMap says. */
  lemma CacheSectionWins(spec: PulpSpec, cluster: Cluster, order: seq<Flag>, n: string)
    requires spec.cacheEnabled && n in CACHE_NAMES
    ensures Last(n, CacheSection(spec, cluster)).Some?
    ensures Last(n, Rendered(spec, cluster, order)) == Last(n, CacheSection(spec, cluster))
  {
    AfterCacheSilent(spec, cluster, order, n);
    CacheWrites(spec, cluster, n);
    SilentLaws(n, CacheSection(spec, cluster));
    var before := HEADER + CustomSection(spec, cluster) + DebugSection(spec)
                  + DatabaseSection(spec, cluster, CustomNames(spec, cluster));
    ConcatLaws(n, before, CacheSection(spec, cluster));
  }

  // ---- what Pulp sees of the Secrets ----

  lemma StorageLast(spec: PulpSpec, cluster: Cluster, custom: set<string>, n: string)
    requires custom == CustomNames(spec, cluster)
    requires Silent(n, AzureSection(spec, cluster, custom)) && Silent(n, GcsSection(spec, cluster, custom))
    requires Silent(n, S3Section(spec, cluster, custom)) && Silent(n, SsoSection(spec, cluster))
    ensures Last(n, RenderedStorage(spec, cluster)) == Last(n, RenderedHead(spec, cluster))
  {
    FourSilent(n, RenderedHead(spec, cluster), AzureSection(spec, cluster, custom), GcsSection(spec, cluster, custom),
               S3Section(spec, cluster, custom), SsoSection(spec, cluster));
  }

  lemma FlagsLast(spec: PulpSpec, cluster: Cluster, order: seq<Flag>, n: string)
    requires n != "REDIRECT_TO_OBJECT_STORAGE" && n != "HIDE_GUARDED_DISTRIBUTIONS"
    ensures Last(n, Rendered(spec, cluster, order)) == Last(n, RenderedStable(spec, cluster))
  {
    FlagsSilent(spec, CustomNames(spec, cluster), order, n);
    AppendSilent(n, RenderedStable(spec, cluster), FlagSection(spec, CustomNames(spec, cluster), order));
  }

  lemma HeadLast(spec: PulpSpec, cluster: Cluster, n: string)
    requires n !in CustomNames(spec, cluster) && n !in DEFAULT_NAMES && !Unguarded(n)
    ensures Last(n, RenderedHead(spec, cluster)) == Last(n, DatabaseSection(spec, cluster, CustomNames(spec, cluster)))
  {
    var d := DatabaseSection(spec, cluster, CustomNames(spec, cluster));
    UnguardedSilence(spec, cluster, [], n);
    CustomSectionLaws(spec, cluster, n);
    ConcatLaws(n, HEADER, CustomSection(spec, cluster));
    SilentLaws(n, HEADER);
    AppendSilent(n, HEADER + CustomSection(spec, cluster), DebugSection(spec));
    ConcatLaws(n, HEADER + CustomSection(spec, cluster) + DebugSection(spec), d);
    AppendSilent(n, HEADER + CustomSection(spec, cluster) + DebugSection(spec) + d, CacheSection(spec, cluster));
  }

  lemma DatabasesIsDatabaseSection(spec: PulpSpec, cluster: Cluster, order: seq<Flag>)
    requires "DATABASES" !in CustomNames(spec, cluster)
    ensures Last("DATABASES", Rendered(spec, cluster, order)) == Last("DATABASES", DatabaseSection(spec, cluster, CustomNames(spec, cluster)))
  {
    assert Protected("DATABASES");
    ProtectedIsGuarded("DATABASES");
    GuardedAndDefaultDiffer("DATABASES");
    UnguardedSilence(spec, cluster, order, "DATABASES");
    StorageSilent(spec, cluster, CustomNames(spec, cluster), "DATABASES");
    TextSilent(spec, cluster, CustomNames(spec, cluster), "DATABASES");
    HeadLast(spec, cluster, "DATABASES");
    StorageLast(spec, cluster, CustomNames(spec, cluster), "DATABASES");
    StableLast(spec, cluster, CustomNames(spec, cluster), "DATABASES");
    FlagsLast(spec, cluster, order, "DATABASES");
  }

  lemma LastOfOne(n: string, v: Value)
    ensures Last(n, [Assign(n, v)]) == Some(v)
  {
  }

  ghost predicate HasAll(data: map<string, string>, keys: seq<string>) { forall k :: k in keys ==> k in data }

  lemma ManagedKeysIn(data: map<string, string>)
    requires HasAll(data, MANAGED_DB_KEYS)
    ensures "username" in data && "password" in data && "database" in data && "port" in data && "sslmode" in data
    ensures forall k :: k in {"username", "password", "database", "port", "sslmode"} ==> k in MANAGED_DB_KEYS
  {
    var m := MANAGED_DB_KEYS;
    assert m[0] == "username" && m[1] == "password" && m[2] == "database" && m[3] == "port" && m[4] == "sslmode";
    assert m[0] in m && m[1] in m && m[2] in m && m[3] in m && m[4] in m;
  }

  /** Unless the custom settings define the database, Pulp connects to the
      operator's own service with exactly the values of the generated Secret; a
      Secret with a missing key leaves Pulp without a database setting. */
  lemma ManagedDatabaseReachesPulp(spec: PulpSpec, cluster: Cluster, order: seq<Flag>)
    requires "DATABASES" !in CustomNames(spec, cluster) && spec.externalDBSecret == ""
    ensures var v := Last("DATABASES", Rendered(spec, cluster, order));
      var data := cluster.SecretOrEmpty(DefaultDBSecret(spec));
      && (v.Some? <==> cluster.Secret(DefaultDBSecret(spec)).Some? && HasAll(data, MANAGED_DB_KEYS))
      && (v.Some? ==>
            && v.value.DatabaseDict? && v.value.host == spec.name + "-database-svc"
            && v.value.user == At(Some(data), "username") && v.value.password == At(Some(data), "password")
            && v.value.db == At(Some(data), "database") && v.value.port == At(Some(data), "port") && v.value.sslmode == At(Some(data), "sslmode"))
  {
    DatabasesIsDatabaseSection(spec, cluster, order);
    var r := Retrieved(cluster, DefaultDBSecret(spec), true, MANAGED_DB_KEYS);
    if r.Some? {
      ManagedKeysIn(cluster.SecretOrEmpty(DefaultDBSecret(spec)));
      LastOfOne("DATABASES", ManagedDatabase(spec.name + "-database-svc", r.value));
    }
  }

  lemma ExternalKeys()
    ensures forall k :: k in {"POSTGRES_HOST", "POSTGRES_PORT", "POSTGRES_USERNAME", "POSTGRES_PASSWORD", "POSTGRES_DB_NAME", "POSTGRES_SSLMODE"}
              ==> k in EXTERNAL_DB_KEYS
  {
    var m := EXTERNAL_DB_KEYS;
    assert m[0] in m && m[1] in m && m[2] in m && m[3] in m && m[4] in m && m[5] in m;
  }

  lemma ExternalValues(data: map<string, string>)
    ensures ExternalDatabase(map k | k in EXTERNAL_DB_KEYS && k in data :: data[k]) == ExternalDatabase(data)
  {
    ExternalKeys();
  }

  lemma ExternalSection(spec: PulpSpec, cluster: Cluster, custom: set<string>)
    requires "DATABASES" !in custom && spec.externalDBSecret != ""
    ensures var r := Retrieved(cluster, spec.externalDBSecret, true, EXTERNAL_DB_KEYS);
      Last("DATABASES", DatabaseSection(spec, cluster, custom)) == if r.Some? then Some(ExternalDatabase(r.value)) else None
  {
    var r := Retrieved(cluster, spec.externalDBSecret, true, EXTERNAL_DB_KEYS);
    if r.Some? { LastOfOne("DATABASES", ExternalDatabase(r.value)); }
  }

  /** With an external database, the values are those of the user's Secret. */
  lemma ExternalDatabaseReachesPulp(spec: PulpSpec, cluster: Cluster, order: seq<Flag>)
    requires "DATABASES" !in CustomNames(spec, cluster) && spec.externalDBSecret != ""
    ensures var v := Last("DATABASES", Rendered(spec, cluster, order));
      var data := cluster.SecretOrEmpty(spec.externalDBSecret);
      && (v.Some? <==> cluster.Secret(spec.externalDBSecret).Some? && HasAll(data, EXTERNAL_DB_KEYS))
      && (v.Some? ==>
            && v.value.DatabaseDict? && v.value.host == At(Some(data), "POSTGRES_HOST") && v.value.port == At(Some(data), "POSTGRES_PORT")
            && v.value.user == At(Some(data), "POSTGRES_USERNAME") && v.value.password == At(Some(data), "POSTGRES_PASSWORD")
            && v.value.db == At(Some(data), "POSTGRES_DB_NAME") && v.value.sslmode == At(Some(data), "POSTGRES_SSLMODE"))
  {
    DatabasesIsDatabaseSection(spec, cluster, order);
    ExternalSection(spec, cluster, CustomNames(spec, cluster));
    ExternalValues(cluster.SecretOrEmpty(spec.externalDBSecret));
  }

  // ---- the order of the migration flags ----

  lemma PrintStep(a: seq<Line>)
    requires a != []
    ensures Print(a) == Show(a[0]) + Print(a[1..])
  {
  }

  lemma {:induction false} PrintConcat(a: seq<Line>, b: seq<Line>)
    ensures Print(a + b) == Print(a) + Print(b)
  {
    if a == [] {
      assert a + b == b;
    } else {
      PrintConcat(a[1..], b);
      assert (a + b)[1..] == a[1..] + b;
      PrintStep(a);
      PrintStep(a + b);
      Associative(Show(a[0]), Print(a[1..]), Print(b));
    }
  }

  const REDIRECT_FIRST := [RedirectToObjectStorage, HideGuardedDistributions]
  const HIDE_FIRST := [HideGuardedDistributions, RedirectToObjectStorage]

  lemma TwoFlags(spec: PulpSpec, custom: set<string>, a: Flag, b: Flag)
    requires a.Name() !in custom && b.Name() !in custom
    ensures FlagSection(spec, custom, [a, b])
            == if !a.In(spec) then [] else if !b.In(spec) then [Assign(a.Name(), Raw("True"))]
               else [Assign(a.Name(), Raw("True")), Assign(b.Name(), Raw("True"))]
  {
    assert [a, b][1..] == [b] && [b][1..] == [];
    assert FlagSection(spec, custom, [b]) == if b.In(spec) then [Assign(b.Name(), Raw("True"))] else [];
  }

  lemma OneFlag(spec: PulpSpec, custom: set<string>, a: Flag, b: Flag)
    requires a.Name() in custom || b.Name() in custom
    ensures FlagSection(spec, custom, [a, b]) == FlagSection(spec, custom, [b, a])
  {
    assert [a, b][1..] == [b] && [b, a][1..] == [a] && [b][1..] == [] && [a][1..] == [];
  }

  lemma FlagTextStarts(f: Flag, rest: seq<Line>)
    ensures |Print([Assign(f.Name(), Raw("True"))] + rest)| > 0
    ensures Print([Assign(f.Name(), Raw("True"))] + rest)[0] == f.Name()[0]
  {
    var lines := [Assign(f.Name(), Raw("True"))] + rest;
    assert Print(lines) == Show(lines[0]) + Print(lines[1..]);
    assert Show(lines[0]) == f.Name() + " = " + "True" + "\n";
  }

  lemma FlagTextsDiffer(spec: PulpSpec, custom: set<string>)
    requires RedirectToObjectStorage.Name() !in custom && HideGuardedDistributions.Name() !in custom
    requires spec.redirectToObjectStorage || spec.hideGuardedDistributions
    ensures Print(FlagSection(spec, custom, REDIRECT_FIRST)) != Print(FlagSection(spec, custom, HIDE_FIRST))
  {
    var r, h := RedirectToObjectStorage, HideGuardedDistributions;
    TwoFlags(spec, custom, r, h);
    TwoFlags(spec, custom, h, r);
    var lr, lh := Assign(r.Name(), Raw("True")), Assign(h.Name(), Raw("True"));
    FlagTextStarts(r, []);
    FlagTextStarts(h, []);
    FlagTextStarts(r, [lh]);
    FlagTextStarts(h, [lr]);
    assert [lr] + [] == [lr] && [lh] + [] == [lh] && [lr] + [lh] == [lr, lh] && [lh] + [lr] == [lh, lr];
    assert r.Name()[0] == 'R' && h.Name()[0] == 'H';
  }

  /** The text depends on the order Go ranges over the flag map exactly when
      neither flag is overridden and one of them is on. */
  lemma OrderShows(spec: PulpSpec, cluster: Cluster)
    ensures Print(Rendered(spec, cluster, REDIRECT_FIRST)) == Print(Rendered(spec, cluster, HIDE_FIRST))
            <==> (|| RedirectToObjectStorage.Name() in CustomNames(spec, cluster)
                  || HideGuardedDistributions.Name() in CustomNames(spec, cluster)
                  || (!spec.redirectToObjectStorage && !spec.hideGuardedDistributions))
  {
    var custom := CustomNames(spec, cluster);
    var r, h := RedirectToObjectStorage, HideGuardedDistributions;
    var stable := RenderedStable(spec, cluster);
    var fr, fh := FlagSection(spec, custom, REDIRECT_FIRST), FlagSection(spec, custom, HIDE_FIRST);
    PrintConcat(stable, fr);
    PrintConcat(stable, fh);
    SamePrefix(Print(stable), Print(fr), Print(fh));
    if r.Name() in custom || h.Name() in custom {
      OneFlag(spec, custom, r, h);
    } else if spec.redirectToObjectStorage || spec.hideGuardedDistributions {
      FlagTextsDiffer(spec, custom);
    } else {
      TwoFlags(spec, custom, r, h);
      TwoFlags(spec, custom, h, r);
    }
  }

  lemma SamePrefix(a: string, b: string, c: string)
    ensures a + b == a + c <==> b == c
  {
    if a + b == a + c {
      assert (a + b)[|a|..] == b && (a + c)[|a|..] == c;
    }
  }

  // ---- the watch index ----

  function Named(name: string): seq<string> { if name != "" then [name] else [] }

  function StructFields(spec: PulpSpec): seq<string> {
    [spec.azureSecret, spec.gcsSecret, spec.s3Secret, spec.ssoSecret, spec.adminPasswordSecret,
     spec.pulpSecretKey, spec.signingScripts, spec.signingSecret]
  }

  function Watched(spec: PulpSpec): seq<string> {
    StructFields(spec) + [spec.externalDBSecret] + [spec.externalCacheSecret] + [spec.ldapConfig] + [spec.ldapCA]
    + [spec.customPulpSettings]
  }

  function AllNamed(names: seq<string>): seq<string> {
    if names == [] then [] else AllNamed(names[..|names| - 1]) + Named(names[|names| - 1])
  }

  /** Names whose changes wake the controller for this CR. */
  function IndexKeys(spec: PulpSpec): seq<string> {
    AllNamed(Watched(spec))
    + (if spec.trustedCaConfigMapKey.Some? then [SplitCAConfigMapNameKey(spec.trustedCaConfigMapKey.value).0] else [])
  }

  lemma OneMoreNamed(names: seq<string>, x: string)
    ensures AllNamed(names + [x]) == AllNamed(names) + Named(x)
  {
    assert (names + [x])[..|names|] == names;
  }

  lemma {:induction false} NamedAreIn(names: seq<string>, n: string)
    ensures n in AllNamed(names) <==> n != "" && n in names
  {
    if names != [] {
      NamedAreIn(names[..|names| - 1], n);
      assert names == names[..|names| - 1] + [names[|names| - 1]];
    }
  }

  /** One optional field of the index. */
  method AddNamed(keys: seq<string>, ghost names: seq<string>, x: string) returns (r: seq<string>)
    requires keys == AllNamed(names)
    ensures r == AllNamed(names + [x])
  {
    OneMoreNamed(names, x);
    r := if x != "" then keys + [x] else keys;
  }

  /** `indexerFunc`: a loop over the struct fields, then the nested fields. */
  method IndexerFunc(spec: PulpSpec) returns (keys: seq<string>)
    ensures keys == IndexKeys(spec)
  {
    keys := [];
    var fields := StructFields(spec);
    for i := 0 to |fields|
      invariant keys == AllNamed(fields[..i])
    {
      assert fields[..i + 1] == fields[..i] + [fields[i]];
      keys := AddNamed(keys, fields[..i], fields[i]);
    }
    assert fields[..|fields|] == fields;
    ghost var s := fields;
    keys := AddNamed(keys, s, spec.externalDBSecret);
    s := s + [spec.externalDBSecret];
    keys := AddNamed(keys, s, spec.externalCacheSecret);
    s := s + [spec.externalCacheSecret];
    keys := AddNamed(keys, s, spec.ldapConfig);
    s := s + [spec.ldapConfig];
    keys := AddNamed(keys, s, spec.ldapCA);
    s := s + [spec.ldapCA];
    keys := AddNamed(keys, s, spec.customPulpSettings);
    if spec.trustedCaConfigMapKey.Some? {
      keys := keys + [SplitCAConfigMapNameKey(spec.trustedCaConfigMapKey.value).0];
    }
  }

  predicate SameAt(a: Cluster, b: Cluster, name: string) {
    a.Secret(name) == b.Secret(name) && a.ConfigMap(name) == b.ConfigMap(name)
  }

  lemma IndexHolds(spec: PulpSpec, n: string)
    requires n != "" && n in {spec.azureSecret, spec.gcsSecret, spec.s3Secret, spec.ssoSecret, spec.pulpSecretKey,
                              spec.externalDBSecret, spec.externalCacheSecret, spec.ldapConfig, spec.customPulpSettings}
    ensures n in IndexKeys(spec)
  {
    var w := Watched(spec);
    assert w[0] == spec.azureSecret && w[1] == spec.gcsSecret && w[2] == spec.s3Secret && w[3] == spec.ssoSecret;
    assert w[5] == spec.pulpSecretKey && w[8] == spec.externalDBSecret && w[9] == spec.externalCacheSecret;
    assert w[10] == spec.ldapConfig && w[12] == spec.customPulpSettings;
    NamedAreIn(w, n);
  }

  ghost predicate SameIndexed(spec: PulpSpec, a: Cluster, b: Cluster) {
    forall n :: n in IndexKeys(spec) ==> SameAt(a, b, n)
  }

  lemma SameNamed(spec: PulpSpec, a: Cluster, b: Cluster, n: string)
    requires SameIndexed(spec, a, b)
    requires n in {spec.azureSecret, spec.gcsSecret, spec.s3Secret, spec.ssoSecret, spec.pulpSecretKey,
                   spec.externalDBSecret, spec.externalCacheSecret, spec.ldapConfig, spec.customPulpSettings}
    ensures SameAt(a, b, n)
  {
    if n != "" { IndexHolds(spec, n); }
  }

  lemma SameCustom(spec: PulpSpec, a: Cluster, b: Cluster)
    requires SameIndexed(spec, a, b)
    ensures CustomNames(spec, a) == CustomNames(spec, b)
    ensures CustomSection(spec, a) == CustomSection(spec, b)
  {
    SameNamed(spec, a, b, spec.customPulpSettings);
    assert CustomData(spec, a) == CustomData(spec, b);
  }

  lemma SameServices(spec: PulpSpec, a: Cluster, b: Cluster, custom: set<string>)
    requires SameIndexed(spec, a, b) && SameAt(a, b, DefaultDBSecret(spec))
    ensures DatabaseSection(spec, a, custom) == DatabaseSection(spec, b, custom)
    ensures CacheSection(spec, a) == CacheSection(spec, b)
  {
    SameNamed(spec, a, b, spec.externalDBSecret);
    SameNamed(spec, a, b, spec.externalCacheSecret);
  }

  lemma SameClouds(spec: PulpSpec, a: Cluster, b: Cluster, custom: set<string>)
    requires SameIndexed(spec, a, b)
    ensures AzureSection(spec, a, custom) == AzureSection(spec, b, custom)
    ensures GcsSection(spec, a, custom) == GcsSection(spec, b, custom)
  {
    SameNamed(spec, a, b, spec.azureSecret);
    SameNamed(spec, a, b, spec.gcsSecret);
  }

  lemma SameKeys(spec: PulpSpec, a: Cluster, b: Cluster, custom: set<string>)
    requires SameIndexed(spec, a, b)
    ensures S3Section(spec, a, custom) == S3Section(spec, b, custom)
    ensures SecretKeySection(spec, a, custom) == SecretKeySection(spec, b, custom)
  {
    SameNamed(spec, a, b, spec.s3Secret);
    SameNamed(spec, a, b, spec.pulpSecretKey);
  }

  lemma SameLogin(spec: PulpSpec, a: Cluster, b: Cluster)
    requires SameIndexed(spec, a, b)
    ensures SsoSection(spec, a) == SsoSection(spec, b)
    ensures LdapSection(spec, a) == LdapSection(spec, b)
  {
    SameNamed(spec, a, b, spec.ssoSecret);
    SameNamed(spec, a, b, spec.ldapConfig);
    assert SsoData(spec, a) == SsoData(spec, b);
  }

  /** Every object the rendering reads is watched, except the Secret of the
      managed database. */
  lemma IndexCoversRendering(spec: PulpSpec, a: Cluster, b: Cluster, order: seq<Flag>)
    requires SameIndexed(spec, a, b) && SameAt(a, b, DefaultDBSecret(spec))
    ensures Rendered(spec, a, order) == Rendered(spec, b, order)
  {
    SameCustom(spec, a, b);
    SameServices(spec, a, b, CustomNames(spec, a));
    assert RenderedHead(spec, a) == RenderedHead(spec, b);
    SameClouds(spec, a, b, CustomNames(spec, a));
    SameKeys(spec, a, b, CustomNames(spec, a));
    SameLogin(spec, a, b);
    assert RenderedStorage(spec, a) == RenderedStorage(spec, b);
  }

  function WithDatabaseSecret(spec: PulpSpec, cluster: Cluster): Cluster {
    cluster.(secrets := cluster.secrets[DefaultDBSecret(spec) := map k | k in MANAGED_DB_KEYS :: "x"])
  }

  function WithoutDatabaseSecret(spec: PulpSpec, cluster: Cluster): Cluster {
    cluster.(secrets := cluster.secrets - {DefaultDBSecret(spec)})
  }

  lemma DatabaseSecretReads(spec: PulpSpec, cluster: Cluster)
    requires DefaultDBSecret(spec) != ""
    ensures Retrieved(WithDatabaseSecret(spec, cluster), DefaultDBSecret(spec), true, MANAGED_DB_KEYS).Some?
    ensures Retrieved(WithoutDatabaseSecret(spec, cluster), DefaultDBSecret(spec), true, MANAGED_DB_KEYS).None?
  {
  }

  lemma DatabaseSecretIsNamed(spec: PulpSpec)
    ensures DefaultDBSecret(spec) != ""
  {
    assert |DefaultDBSecret(spec)| >= 1;
  }

  lemma DatabaseShown(spec: PulpSpec, cluster: Cluster, order: seq<Flag>)
    requires spec.externalDBSecret == "" && "DATABASES" !in CustomNames(spec, cluster)
    ensures Last("DATABASES", Rendered(spec, cluster, order)).Some?
            <==> Retrieved(cluster, DefaultDBSecret(spec), true, MANAGED_DB_KEYS).Some?
  {
    DatabasesIsDatabaseSection(spec, cluster, order);
    var r := Retrieved(cluster, DefaultDBSecret(spec), true, MANAGED_DB_KEYS);
    if r.Some? { LastOfOne("DATABASES", ManagedDatabase(spec.name + "-database-svc", r.value)); }
  }

  lemma OnlyThatSecretDiffers(spec: PulpSpec, cluster: Cluster)
    ensures forall n :: n != DefaultDBSecret(spec) ==> SameAt(cluster, WithDatabaseSecret(spec, cluster), n)
    ensures forall n :: n != DefaultDBSecret(spec) ==> SameAt(cluster, WithoutDatabaseSecret(spec, cluster), n)
    ensures CustomNames(spec, WithDatabaseSecret(spec, cluster)) == CustomNames(spec, cluster)
    ensures CustomNames(spec, WithoutDatabaseSecret(spec, cluster)) == CustomNames(spec, cluster)
  {
    assert CustomData(spec, WithDatabaseSecret(spec, cluster)) == CustomData(spec, cluster);
    assert CustomData(spec, WithoutDatabaseSecret(spec, cluster)) == CustomData(spec, cluster);
  }

  /** The managed database's Secret is read, and not named by the index. */
  predicate ReadsUnwatched(spec: PulpSpec, cluster: Cluster) {
    spec.externalDBSecret == "" && "DATABASES" !in CustomNames(spec, cluster) && DefaultDBSecret(spec) !in IndexKeys(spec)
  }

  lemma SameDatabase(spec: PulpSpec, a: Cluster, b: Cluster, custom: set<string>)
    requires SameIndexed(spec, a, b)
    requires spec.externalDBSecret != "" || "DATABASES" in custom || DefaultDBSecret(spec) in IndexKeys(spec)
    ensures DatabaseSection(spec, a, custom) == DatabaseSection(spec, b, custom)
  {
    SameNamed(spec, a, b, spec.externalDBSecret);
  }

  lemma SameCache(spec: PulpSpec, a: Cluster, b: Cluster)
    requires SameIndexed(spec, a, b)
    ensures CacheSection(spec, a) == CacheSection(spec, b)
  {
    SameNamed(spec, a, b, spec.externalCacheSecret);
  }

  lemma IndexSuffices(spec: PulpSpec, a: Cluster, b: Cluster, order: seq<Flag>)
    requires SameIndexed(spec, a, b) && !ReadsUnwatched(spec, a)
    ensures Rendered(spec, a, order) == Rendered(spec, b, order)
  {
    SameCustom(spec, a, b);
    SameDatabase(spec, a, b, CustomNames(spec, a));
    SameCache(spec, a, b);
    assert RenderedHead(spec, a) == RenderedHead(spec, b);
    SameClouds(spec, a, b, CustomNames(spec, a));
    SameKeys(spec, a, b, CustomNames(spec, a));
    SameLogin(spec, a, b);
    assert RenderedStorage(spec, a) == RenderedStorage(spec, b);
  }

  lemma UnwatchedShows(spec: PulpSpec, cluster: Cluster, order: seq<Flag>)
    requires ReadsUnwatched(spec, cluster)
    ensures SameIndexed(spec, cluster, WithDatabaseSecret(spec, cluster)) && SameIndexed(spec, cluster, WithoutDatabaseSecret(spec, cluster))
    ensures Rendered(spec, WithDatabaseSecret(spec, cluster), order) != Rendered(spec, WithoutDatabaseSecret(spec, cluster), order)
  {
    DatabaseSecretIsNamed(spec);
    DatabaseSecretReads(spec, cluster);
    OnlyThatSecretDiffers(spec, cluster);
    DatabaseShown(spec, WithDatabaseSecret(spec, cluster), order);
    DatabaseShown(spec, WithoutDatabaseSecret(spec, cluster), order);
  }

  /** Agreement on the watched objects alone forces the same file exactly when
      the managed database's Secret is not read, or happens to be watched under
      another field. */
  lemma DatabaseSecretIsNotWatched(spec: PulpSpec, cluster: Cluster, order: seq<Flag>)
    ensures (forall b :: SameIndexed(spec, cluster, b) ==> Rendered(spec, cluster, order) == Rendered(spec, b, order))
            <==> (|| spec.externalDBSecret != "" || "DATABASES" in CustomNames(spec, cluster)
                  || DefaultDBSecret(spec) in IndexKeys(spec))
  {
    if ReadsUnwatched(spec, cluster) {
      UnwatchedShows(spec, cluster, order);
    } else {
      forall b | SameIndexed(spec, cluster, b) ensures Rendered(spec, cluster, order) == Rendered(spec, b, order) {
        IndexSuffices(spec, cluster, b, order);
      }
    }
  }
}
