/** Environment variables of the pulpcore containers: the user's list without
    the names the operator manages, followed by the operator's own entries. */
module EnvVars {
  import opened Pulp
  import S = Settings

  /** `pulpcoreEnvVars`. */
  const MANAGED: set<string> :=
    {"PULP_GUNICORN_TIMEOUT", "PULP_API_WORKERS", "PULP_CONTENT_WORKERS", "REDIS_SERVICE_HOST", "REDIS_SERVICE_PORT",
     "REDIS_SERVICE_DB", "REDIS_SERVICE_PASSWORD", "PULP_SIGNING_KEY_FINGERPRINT", "POSTGRES_SERVICE_HOST", "POSTGRES_SERVICE_PORT"}

  function ComponentOf(spec: PulpSpec, c: Component): ComponentSpec {
    match c case Api => spec.api case Content => spec.content case Worker => spec.worker case Web => spec.web
  }

  /** The positions of the entries whose names are not struck out, in order. */
  function KeptAt(struck: set<string>, user: seq<EnvVar>): (at: seq<nat>)
    ensures forall i :: 0 <= i < |at| ==> at[i] < |user| && user[at[i]].name !in struck
    ensures forall i, j :: 0 <= i < j < |at| ==> at[i] < at[j]
    ensures forall p :: 0 <= p < |user| && user[p].name !in struck ==> p in at
  {
    if user == [] then []
    else
      var n := |user| - 1;
      KeptAt(struck, user[..n]) + (if user[n].name in struck then [] else [n])
  }

  /** The user's entries at those positions. */
  function KeptBut(struck: set<string>, user: seq<EnvVar>): (r: seq<EnvVar>)
    ensures |r| == |KeptAt(struck, user)|
    ensures forall i :: 0 <= i < |r| ==> r[i] == user[KeptAt(struck, user)[i]]
  {
    seq(|KeptAt(struck, user)|, i requires 0 <= i < |KeptAt(struck, user)| => user[KeptAt(struck, user)[i]])
  }

  /** The user's list without the managed names. */
  function Kept(user: seq<EnvVar>): (r: seq<EnvVar>)
    ensures forall i :: 0 <= i < |r| ==> r[i] in user && r[i].name !in MANAGED
  {
    KeptBut(MANAGED, user)
  }

  lemma KeptOneMore(struck: set<string>, user: seq<EnvVar>, i: nat)
    requires i < |user|
    ensures KeptBut(struck, user[..i + 1]) == if user[i].name in struck then KeptBut(struck, user[..i]) else KeptBut(struck, user[..i]) + [user[i]]
  {
    assert user[..i + 1][..i] == user[..i];
  }

  /** `SetCustomEnvVars`: what it keeps is the user's list with the managed
      names struck out, in order and with every repetition. */
  method SetCustomEnvVars(user: seq<EnvVar>) returns (envVars: seq<EnvVar>)
    ensures envVars == Kept(user)
  {
    envVars := [];
    for i := 0 to |user|
      invariant envVars == Kept(user[..i])
    {
      KeptOneMore(MANAGED, user, i);
      if user[i].name in MANAGED { continue; }
      envVars := envVars + [user[i]];
    }
    assert user[..|user|] == user;
  }

  // ---- the operator's own entries ----

  function Text(name: string, text: string): EnvVar { EnvVar(name, Literal(text)) }

  const API_LOGFORMAT := "pulp"
  const CONTENT_LOGFORMAT := "%a"

  function OrDefault(n: int, d: string): string { if n == 0 then d else S.Decimal(n) }

  function GunicornVars(spec: PulpSpec, c: Component): seq<EnvVar> {
    var f := ComponentOf(spec, c);
    match c
    case Worker => []
    case Web => []
    case Api =>
      [Text("PULP_GUNICORN_TIMEOUT", OrDefault(f.gunicornTimeout, "90")), Text("PULP_API_WORKERS", OrDefault(f.gunicornWorkers, "2")),
       Text("PULP_GUNICORN_ACCESS_LOGFORMAT", if f.accessLogformat == "" then API_LOGFORMAT else f.accessLogformat)]
    case Content =>
      [Text("PULP_GUNICORN_TIMEOUT", OrDefault(f.gunicornTimeout, "90")), Text("PULP_CONTENT_WORKERS", OrDefault(f.gunicornWorkers, "2")),
       Text("PULP_GUNICORN_ACCESS_LOGFORMAT", if f.accessLogformat == "" then CONTENT_LOGFORMAT else f.accessLogformat)]
  }

  function PostgresVars(spec: PulpSpec): seq<EnvVar> {
    if spec.externalDBSecret == "" then
      [Text("POSTGRES_SERVICE_HOST", spec.name + "-database-svc"), Text("POSTGRES_SERVICE_PORT", OrDefault(spec.postgresPort, "5432"))]
    else
      [EnvVar("POSTGRES_SERVICE_HOST", FromSecret(spec.externalDBSecret, "POSTGRES_HOST")),
       EnvVar("POSTGRES_SERVICE_PORT", FromSecret(spec.externalDBSecret, "POSTGRES_PORT"))]
  }

  function RedisVars(spec: PulpSpec): seq<EnvVar> {
    if !spec.cacheEnabled then []
    else if spec.externalCacheSecret == "" then
      [Text("REDIS_SERVICE_HOST", spec.name + "-redis-svc." + spec.namespace), Text("REDIS_SERVICE_PORT", OrDefault(spec.redisPort, "6379"))]
    else
      [EnvVar("REDIS_SERVICE_HOST", FromSecret(spec.externalCacheSecret, "REDIS_HOST")),
       EnvVar("REDIS_SERVICE_PORT", FromSecret(spec.externalCacheSecret, "REDIS_PORT")),
       EnvVar("REDIS_SERVICE_DB", FromSecret(spec.externalCacheSecret, "REDIS_DB")),
       EnvVar("REDIS_SERVICE_PASSWORD", FromSecret(spec.externalCacheSecret, "REDIS_PASSWORD"))]
  }

  function SigningVars(spec: PulpSpec, fingerprint: string): seq<EnvVar> {
    if spec.signingSecret == "" then []
    else [Text("PULP_SIGNING_KEY_FINGERPRINT", fingerprint), Text("HOME", "/var/lib/pulp")]
  }

  function TelemetryVars(spec: PulpSpec, c: Component): seq<EnvVar> {
    if !spec.telemetryEnabled || !c.Api? then []
    else
      [Text("PULP_OTEL_ENABLED", "true"), Text("OTEL_EXPORTER_OTLP_PROTOCOL", spec.telemetryProtocol),
       Text("OTEL_EXPORTER_OTLP_ENDPOINT", "http://localhost:4318")]
  }

  function OwnVars(spec: PulpSpec, c: Component, fingerprint: string): seq<EnvVar> {
    GunicornVars(spec, c) + PostgresVars(spec) + RedisVars(spec) + SigningVars(spec, fingerprint)
  }

  /** All entries of the operator, in the order they are appended. */
  function OperatorVars(spec: PulpSpec, c: Component, fingerprint: string): seq<EnvVar> {
    OwnVars(spec, c, fingerprint) + TelemetryVars(spec, c)
  }

  /** `setEnvVars`; `telemetryConfig` appends its entries later. */
  method SetEnvVars(spec: PulpSpec, c: Component, fingerprint: string) returns (envVars: seq<EnvVar>)
    requires c != Web
    ensures envVars == Kept(ComponentOf(spec, c).envVars) + OwnVars(spec, c, fingerprint)
    ensures envVars + TelemetryVars(spec, c) == ContainerEnv(spec, c, fingerprint)
  {
    envVars := SetCustomEnvVars(ComponentOf(spec, c).envVars);
    ghost var kept := envVars;
    if c != Worker { envVars := envVars + GunicornVars(spec, c); }
    assert envVars == kept + GunicornVars(spec, c);
    envVars := envVars + PostgresVars(spec);
    if spec.cacheEnabled { envVars := envVars + RedisVars(spec); }
    if spec.signingSecret != "" { envVars := envVars + SigningVars(spec, fingerprint); }
    FourParts(kept, GunicornVars(spec, c), PostgresVars(spec), RedisVars(spec), SigningVars(spec, fingerprint));
    S.Associative(kept, OwnVars(spec, c, fingerprint), TelemetryVars(spec, c));
  }

  lemma FourParts<T>(k: seq<T>, a: seq<T>, b: seq<T>, c: seq<T>, d: seq<T>)
    ensures k + a + b + c + d == k + (a + b + c + d)
  {
  }

  method InitContainerEnvVars(spec: PulpSpec, c: Component) returns (envVars: seq<EnvVar>)
    ensures envVars == PostgresVars(spec) + Kept(ComponentOf(spec, c).envVars)
  {
    var kept := SetCustomEnvVars(ComponentOf(spec, c).envVars);
    envVars := PostgresVars(spec) + kept;
  }

  // ---- occurrences ----

  function Count(n: string, vars: seq<EnvVar>): nat {
    if vars == [] then 0 else (if vars[0].name == n then 1 else 0) + Count(n, vars[1..])
  }

  lemma {:induction false} CountConcat(n: string, a: seq<EnvVar>, b: seq<EnvVar>)
    ensures Count(n, a + b) == Count(n, a) + Count(n, b)
  {
    if a == [] {
      assert a + b == b;
    } else {
      CountConcat(n, a[1..], b);
      assert (a + b)[1..] == a[1..] + b;
    }
  }

  lemma {:induction false} CountZero(n: string, vars: seq<EnvVar>)
    ensures Count(n, vars) == 0 <==> forall i :: 0 <= i < |vars| ==> vars[i].name != n
  {
    if vars != [] {
      CountZero(n, vars[1..]);
      assert forall i :: 0 < i < |vars| ==> vars[i] == vars[1..][i - 1];
      assert forall i :: 0 <= i < |vars| - 1 ==> vars[1..][i] == vars[i + 1];
    }
  }

  lemma CountLast(n: string, vars: seq<EnvVar>, x: EnvVar)
    ensures Count(n, vars + [x]) == Count(n, vars) + if x.name == n then 1 else 0
  {
    CountConcat(n, vars, [x]);
    assert [x][1..] == [];
  }

  lemma CountStep(struck: set<string>, n: string, init: seq<EnvVar>, kept: seq<EnvVar>, x: EnvVar, next: seq<EnvVar>)
    requires Count(n, kept) == if n in struck then 0 else Count(n, init)
    requires next == if x.name in struck then kept else kept + [x]
    ensures Count(n, next) == if n in struck then 0 else Count(n, init + [x])
  {
    CountLast(n, init, x);
    CountLast(n, kept, x);
  }

  lemma {:induction false} KeptButCount(struck: set<string>, n: string, user: seq<EnvVar>)
    ensures Count(n, KeptBut(struck, user)) == if n in struck then 0 else Count(n, user)
    decreases |user|
  {
    if user == [] {
      assert KeptBut(struck, user) == [];
    } else {
      var init, x := user[..|user| - 1], user[|user| - 1];
      KeptButCount(struck, n, init);
      assert user == init + [x];
      KeptLast(struck, init, x);
      CountStep(struck, n, init, KeptBut(struck, init), x, KeptBut(struck, user));
    }
  }

  lemma KeptLast(struck: set<string>, init: seq<EnvVar>, x: EnvVar)
    ensures KeptBut(struck, init + [x]) == if x.name in struck then KeptBut(struck, init) else KeptBut(struck, init) + [x]
  {
    var user := init + [x];
    KeptOneMore(struck, user, |init|);
    assert user[..|init|] == init && user[..|init| + 1] == user;
  }

  lemma KeptCount(n: string, user: seq<EnvVar>)
    ensures Count(n, Kept(user)) == if n in MANAGED then 0 else Count(n, user)
  {
    KeptButCount(MANAGED, n, user);
  }

  /** Where a name stands in the operator's fixed order of appending. */
  function Place(n: string): nat {
    if |n| == 21 then (if n[1] == 'U' then 1 else if n[19] == 'S' then 5 else 6)
    else if |n| == 16 then (if n[0] == 'P' then 2 else 9)
    else if |n| == 20 then 3
    else if |n| == 30 then 4
    else if |n| == 18 then (if n[16] == 'S' then 7 else 8)
    else if |n| == 22 then 10
    else if |n| == 28 then 11
    else if |n| == 4 then 12
    else if |n| == 17 then 13
    else if |n| == 27 then (if n[25] == 'O' then 14 else 15)
    else 0
  }

  ghost predicate InOrder(vars: seq<EnvVar>, low: nat, high: nat) {
    && (forall i :: 0 <= i < |vars| ==> low < Place(vars[i].name) <= high)
    && (forall i, j :: 0 <= i < j < |vars| ==> Place(vars[i].name) < Place(vars[j].name))
  }

  lemma InOrderConcat(a: seq<EnvVar>, b: seq<EnvVar>, low: nat, mid: nat, high: nat)
    requires low <= mid <= high && InOrder(a, low, mid) && InOrder(b, mid, high)
    ensures InOrder(a + b, low, high)
  {
  }

  lemma {:induction false} InOrderCountsOnce(n: string, vars: seq<EnvVar>, low: nat, high: nat)
    requires InOrder(vars, low, high)
    ensures Count(n, vars) <= 1
  {
    if vars != [] {
      InOrderCountsOnce(n, vars[1..], low, high);
      if vars[0].name == n {
        CountZero(n, vars[1..]);
      }
    }
  }

  lemma ThreeInOrder(vars: seq<EnvVar>)
    requires |vars| == 3 && Place(vars[0].name) == 1 && Place(vars[1].name) in {2, 3} && Place(vars[2].name) == 4
    ensures InOrder(vars, 0, 4)
  {
  }

  lemma GunicornInOrder(spec: PulpSpec, c: Component)
    ensures InOrder(GunicornVars(spec, c), 0, 4)
  {
    if c == Api || c == Content { ThreeInOrder(GunicornVars(spec, c)); }
  }

  lemma ServicesInOrder(spec: PulpSpec)
    ensures InOrder(PostgresVars(spec), 4, 6)
    ensures InOrder(RedisVars(spec), 6, 10)
  {
  }

  lemma OthersInOrder(spec: PulpSpec, c: Component, fingerprint: string)
    ensures InOrder(SigningVars(spec, fingerprint), 10, 12)
    ensures InOrder(TelemetryVars(spec, c), 12, 15)
  {
  }

  lemma OperatorVarsInOrder(spec: PulpSpec, c: Component, fingerprint: string)
    ensures InOrder(OperatorVars(spec, c, fingerprint), 0, 15)
  {
    GunicornInOrder(spec, c);
    ServicesInOrder(spec);
    OthersInOrder(spec, c, fingerprint);
    var g, p, r, s, t := GunicornVars(spec, c), PostgresVars(spec), RedisVars(spec), SigningVars(spec, fingerprint), TelemetryVars(spec, c);
    InOrderConcat(g, p, 0, 4, 6);
    InOrderConcat(g + p, r, 0, 6, 10);
    InOrderConcat(g + p + r, s, 0, 10, 12);
    InOrderConcat(g + p + r + s, t, 0, 12, 15);
  }

  function ContainerEnv(spec: PulpSpec, c: Component, fingerprint: string): seq<EnvVar> {
    Kept(ComponentOf(spec, c).envVars) + OperatorVars(spec, c, fingerprint)
  }

  function InitContainerEnv(spec: PulpSpec, c: Component): seq<EnvVar> {
    PostgresVars(spec) + Kept(ComponentOf(spec, c).envVars)
  }

  /** Each managed name occurs at most once and never with the user's entry;
      every other name occurs as often as the user wrote it, plus at most one
      entry of the operator. */
  lemma ManagedNamesOnce(spec: PulpSpec, c: Component, fingerprint: string, n: string)
    ensures var env := ContainerEnv(spec, c, fingerprint);
      && Count(n, OperatorVars(spec, c, fingerprint)) <= 1
      && Count(n, env) == (if n in MANAGED then 0 else Count(n, ComponentOf(spec, c).envVars)) + Count(n, OperatorVars(spec, c, fingerprint))
      && (n in MANAGED ==> Count(n, env) <= 1)
      && (forall i :: 0 <= i < |env| && env[i].name in MANAGED ==>
            i >= |Kept(ComponentOf(spec, c).envVars)| && env[i] in OperatorVars(spec, c, fingerprint))
  {
    OperatorVarsInOrder(spec, c, fingerprint);
    InOrderCountsOnce(n, OperatorVars(spec, c, fingerprint), 0, 15);
    CountConcat(n, Kept(ComponentOf(spec, c).envVars), OperatorVars(spec, c, fingerprint));
    KeptCount(n, ComponentOf(spec, c).envVars);
  }

  lemma InitManagedNamesOnce(spec: PulpSpec, c: Component, n: string)
    requires n in MANAGED
    ensures Count(n, InitContainerEnv(spec, c)) <= 1
  {
    ServicesInOrder(spec);
    InOrderCountsOnce(n, PostgresVars(spec), 4, 6);
    CountConcat(n, PostgresVars(spec), Kept(ComponentOf(spec, c).envVars));
    KeptCount(n, ComponentOf(spec, c).envVars);
  }

  // ---- the names that are written but not managed ----

  const LOGFORMAT := "PULP_GUNICORN_ACCESS_LOGFORMAT"
  const OTEL_NAMES := ["PULP_OTEL_ENABLED", "OTEL_EXPORTER_OTLP_PROTOCOL", "OTEL_EXPORTER_OTLP_ENDPOINT"]

  /** The five names the operator writes without managing them, and when. */
  predicate Unlisted(spec: PulpSpec, c: Component, n: string) {
    || (n == LOGFORMAT && (c == Api || c == Content))
    || (n == "HOME" && spec.signingSecret != "")
    || (n in OTEL_NAMES && spec.telemetryEnabled && c == Api)
  }

  lemma ManagedPlaces(n: string)
    requires n in MANAGED
    ensures Place(n) in {1, 2, 3, 5, 6, 7, 8, 9, 10, 11}
  {
  }

  lemma UnlistedPlaces()
    ensures Place(LOGFORMAT) == 4 && Place("HOME") == 12
    ensures Place(OTEL_NAMES[0]) == 13 && Place(OTEL_NAMES[1]) == 14 && Place(OTEL_NAMES[2]) == 15
  {
  }

  lemma UnlistedNotManaged(spec: PulpSpec, c: Component, n: string)
    requires Unlisted(spec, c, n)
    ensures n !in MANAGED
  {
    UnlistedPlaces();
    if n in MANAGED { ManagedPlaces(n); }
  }

  lemma GunicornNames(spec: PulpSpec, c: Component)
    ensures forall v :: v in GunicornVars(spec, c) ==> v.name in MANAGED || (v.name == LOGFORMAT && (c == Api || c == Content))
    ensures c == Api || c == Content ==> exists v :: v in GunicornVars(spec, c) && v.name == LOGFORMAT
  {
    var g := GunicornVars(spec, c);
    if c == Api || c == Content { assert g[2] in g && g[2].name == LOGFORMAT; }
  }

  lemma ServiceNames(spec: PulpSpec)
    ensures forall v :: v in PostgresVars(spec) || v in RedisVars(spec) ==> v.name in MANAGED
  {
  }

  lemma OtherNames(spec: PulpSpec, c: Component, fingerprint: string)
    ensures forall v :: v in SigningVars(spec, fingerprint) ==> v.name in MANAGED || (v.name == "HOME" && spec.signingSecret != "")
    ensures forall v :: v in TelemetryVars(spec, c) ==> v.name in OTEL_NAMES && spec.telemetryEnabled && c == Api
    ensures spec.signingSecret != "" ==> exists v :: v in SigningVars(spec, fingerprint) && v.name == "HOME"
    ensures forall n :: n in OTEL_NAMES && spec.telemetryEnabled && c == Api ==> exists v :: v in TelemetryVars(spec, c) && v.name == n
  {
    var g, t := SigningVars(spec, fingerprint), TelemetryVars(spec, c);
    if spec.signingSecret != "" { assert g[1] in g && g[1].name == "HOME"; }
    if spec.telemetryEnabled && c == Api {
      assert forall i :: 0 <= i < 3 ==> t[i] in t && t[i].name == OTEL_NAMES[i];
    }
  }

  lemma InOperatorVars(spec: PulpSpec, c: Component, fingerprint: string, v: EnvVar)
    ensures v in OperatorVars(spec, c, fingerprint)
            <==> || v in GunicornVars(spec, c) || v in PostgresVars(spec) || v in RedisVars(spec)
                 || v in SigningVars(spec, fingerprint) || v in TelemetryVars(spec, c)
  {
  }

  lemma CountIn(n: string, vars: seq<EnvVar>)
    ensures Count(n, vars) > 0 <==> exists v :: v in vars && v.name == n
  {
    CountZero(n, vars);
    if Count(n, vars) > 0 {
      var i :| 0 <= i < |vars| && vars[i].name == n;
      assert vars[i] in vars;
    }
  }

  /** What the operator writes is managed or one of the five. */
  lemma WrittenNames(spec: PulpSpec, c: Component, fingerprint: string, n: string)
    requires n !in MANAGED
    ensures Count(n, OperatorVars(spec, c, fingerprint)) > 0 <==> Unlisted(spec, c, n)
  {
    var vars := OperatorVars(spec, c, fingerprint);
    GunicornNames(spec, c);
    ServiceNames(spec);
    OtherNames(spec, c, fingerprint);
    CountIn(n, vars);
    if Count(n, vars) > 0 {
      var v :| v in vars && v.name == n;
      InOperatorVars(spec, c, fingerprint, v);
    } else if Unlisted(spec, c, n) {
      var v :| (v in GunicornVars(spec, c) || v in SigningVars(spec, fingerprint) || v in TelemetryVars(spec, c)) && v.name == n;
      InOperatorVars(spec, c, fingerprint, v);
      assert false;
    }
  }

  /** Five names the operator writes are missing from its list of managed names.
      For every name: how often it occurs, and so exactly when it repeats. A name
      the operator writes is unique in the container exactly when it is managed
      or the user does not write it. */
  lemma UnlistedNamesRepeat(spec: PulpSpec, c: Component, fingerprint: string, n: string)
    ensures var count, user := Count(n, ContainerEnv(spec, c, fingerprint)), Count(n, ComponentOf(spec, c).envVars);
      && (Unlisted(spec, c, n) ==> n !in MANAGED && count == user + 1)
      && (!Unlisted(spec, c, n) && n !in MANAGED ==> count == user)
      && (n in MANAGED ==> count <= 1)
      && (Count(n, OperatorVars(spec, c, fingerprint)) == 1 ==> (count <= 1 <==> n in MANAGED || user == 0))
  {
    ManagedNamesOnce(spec, c, fingerprint, n);
    if n !in MANAGED { WrittenNames(spec, c, fingerprint, n); }
    if Unlisted(spec, c, n) { UnlistedNotManaged(spec, c, n); }
  }
}
