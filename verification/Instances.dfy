/** The pipeline of one instance: what its flags stand for in the CR, the status
    and the labels, and when its runs settle, in terms of those texts. */
module Instances {
  import opened Text
  import opened Pulp
  import opened Reconcile
  import opened ReconcileLaws
  import opened ReconcileRuns
  import Pdb
  import PodClosure
  import E = Exposure
  import P = PassOrder
  import T = HashTriggers
  import S = Settings
  import A = SettingsAgreement

  // ---- the exposure flags stand for the exposure machine ----

  /** Where a recorded type stands to the wanted one. */
  function TypeStateOf(status: E.IngressType, spec: E.IngressType): TypeState {
    if status.kind == E.Unset || status == spec then Settled
    else if status.kind == spec.kind then Stuck
    else
      match status.kind
      case Route => FromRoute case Ingress => FromIngress
      case NodePort => FromWeb case LoadBalancer => FromWeb
      case _ => Stuck
  }

  /** The configuration is that of the exposure spec. */
  predicate ConfigFits(cfg: Config, spec: E.Spec) {
    && cfg.hasClass == (spec.className.folded != "") && cfg.ocpDefault == spec.className.ocpDefault
    && (UsesIngress(cfg) <==> spec.ingressType.kind == E.Ingress) && (UsesIngress(cfg) ==> cfg.nginx == spec.nginx)
    && (cfg.exposure == Routes <==> spec.ingressType.kind == E.Route)
  }

  /** The pipeline's view of a state of the exposure machine. */
  predicate Views(s: State, e: E.State) {
    && s.kind == TypeStateOf(e.status.ingressType, e.spec.ingressType) && s.classPending == !E.ClassSettled(e)
    && s.routes == e.routes && (IngressObject in s.store <==> e.ingress)
    && (WebDeployment in s.store || WebService in s.store <==> e.web)
  }

  lemma SettledIsTypeSettled(e: E.State)
    ensures TypeStateOf(e.status.ingressType, e.spec.ingressType) == Settled <==> E.TypeSettled(e)
  {
  }

  lemma WithoutObjects(s: State, gone: set<Obj>)
    ensures var store := s.store - gone;
      && (IngressObject in store <==> IngressObject in s.store && IngressObject !in gone)
      && (WEB <= gone ==> WebDeployment !in store && WebService !in store)
      && (WEB !! gone ==> ((WebDeployment in store || WebService in store) <==> (WebDeployment in s.store || WebService in s.store)))
  {
    assert WebDeployment in WEB && WebService in WEB;
  }

  lemma LeavingRoute(cfg: Config, s: State, e: E.State)
    requires Views(s, e) && s.kind == FromRoute
    ensures Views(TypeChanged(cfg, s), E.UpdateIngressType(e, true))
  {
    assert s.store - {} == s.store;
  }

  lemma LeavingIngress(cfg: Config, s: State, e: E.State)
    requires Views(s, e) && ConfigFits(cfg, e.spec) && s.kind == FromIngress
    ensures Views(TypeChanged(cfg, s), E.UpdateIngressType(e, true))
  {
    WithoutObjects(s, {IngressObject} + WEB);
  }

  lemma LeavingWeb(cfg: Config, s: State, e: E.State)
    requires Views(s, e) && s.kind == FromWeb
    ensures Views(TypeChanged(cfg, s), E.UpdateIngressType(e, true))
  {
    WithoutObjects(s, WEB);
  }

  lemma NotLeaving(s: State, e: E.State)
    requires Views(s, e) && (s.kind == Settled || s.kind == Stuck)
    ensures E.UpdateIngressType(e, true) == e
  {
  }

  /** The step of the pipeline that changes the type is the machine's, whatever
      the type was and is to be. */
  lemma TypeChangeIsMachine(cfg: Config, s: State, e: E.State)
    requires Views(s, e) && ConfigFits(cfg, e.spec)
    ensures Views(TypeChanged(cfg, s), E.UpdateIngressType(e, true))
  {
    match s.kind
    case FromRoute => LeavingRoute(cfg, s, e);
    case FromIngress => LeavingIngress(cfg, s, e);
    case FromWeb => LeavingWeb(cfg, s, e);
    case Settled => NotLeaving(s, e);
    case Stuck => NotLeaving(s, e);
  }

  /** A step that changes the class is the machine's. */
  lemma ClassChangeIsMachine(env: Env, cfg: Config, s: State, e: E.State, openShift: bool)
    requires Views(s, e) && ConfigFits(cfg, e.spec) && s.classPending
    ensures Views(Do(env, cfg, s, ChangeClass, []).state, E.UpdateIngressClass(e, openShift, true))
  {
    WithoutObjects(s, ClassGone(cfg));
    ClassGoneParts(cfg);
  }

  lemma ClassGoneParts(cfg: Config)
    ensures IngressObject in ClassGone(cfg) <==> !(UsesIngress(cfg) && cfg.nginx)
    ensures if (UsesIngress(cfg) && cfg.nginx) || cfg.ocpDefault then WEB <= ClassGone(cfg) else WEB !! ClassGone(cfg)
  {
  }

  /** The Routes are the machine's. */
  lemma RoutesAreMachine(env: Env, cfg: Config, s: State, e: E.State, openShift: bool, r: E.Replies)
    requires Views(s, e) && ConfigFits(cfg, e.spec) && cfg.exposure == Routes && r.ready
    ensures Views(Do(env, cfg, s, ExposeRoutes, []).state, E.Expose(e, openShift, r).0)
  {
    WithoutObjects(s, WEB);
  }

  // ---- whole passes over the exposure ----

  /** Pulp-web stands behind the Ingress in both or in neither. */
  predicate WebFits(cfg: Config, spec: E.Spec, openShift: bool) {
    UsesIngress(cfg) ==> (cfg.exposure == WebIngress <==> E.WebBehindIngress(spec, openShift))
  }

  /** The rest of the pass and the environment are in order. */
  predicate Smooth(r: E.Replies) { r.reaches && r.ready && r.exposed && r.typeWrite && r.classWrite && r.finishes }

  lemma ViewsUndone(env: Env, cfg: Config, s: State, u: State, e: E.State)
    requires P.Undone(env, cfg, s, u) && P.ExposedSoFar(s, u, false) && Views(s, e)
    ensures Views(u, e)
  {
    assert Get(u, WebDeployment) == Get(s, WebDeployment) && Get(u, WebService) == Get(s, WebService) && Get(u, IngressObject) == Get(s, IngressObject);
  }

  /** With a type to change and nothing to do before that, a whole pass does what
      the exposure machine's pass does. */
  lemma TypePassIsMachine(env: Env, cfg: Config, s: State, order: seq<Component>, e: E.State, openShift: bool, r: E.Replies)
    requires Sound(env) && Pdb.Covers(order) && Views(s, e) && ConfigFits(cfg, e.spec) && Smooth(r)
    requires !E.TypeSettled(e) && forall i: P.Item :: P.Due(env, cfg, s, i) ==> P.Place(i) >= 43
    ensures var d := Pipeline(env, cfg, s, order);
      Views(d.state, E.Pass(e, openShift, r).0) && d.result == Requeue(None) && E.Pass(e, openShift, r).1
  {
    SettledIsTypeSettled(e);
    FirstFrom43(env, cfg, s);
    var u := P.StopsAtFirst(env, cfg, s, order, P.NewType);
    ViewsUndone(env, cfg, s, u, e);
    TypeChangeIsMachine(cfg, u, e);
    assert E.Pass(e, openShift, r) == (E.UpdateIngressType(e, true), true);
    ChangeTypeDoes(env, cfg, u, order);
  }

  lemma ChangeTypeDoes(env: Env, cfg: Config, u: State, order: seq<Component>)
    requires u.kind != Settled
    ensures Do(env, cfg, u, ChangeType, order) == Outcome(TypeChanged(cfg, u), Requeue(None))
  {
  }

  lemma FirstFrom43(env: Env, cfg: Config, s: State)
    requires s.kind != Settled && forall i: P.Item :: P.Due(env, cfg, s, i) ==> P.Place(i) >= 43
    ensures P.First(env, cfg, s, P.NewType)
  {
    forall j: P.Item | P.Due(env, cfg, s, j) ensures j == P.NewType || P.Place(P.NewType) < P.Place(j) {
      if P.Place(j) == 43 { P.EarlyPlaces(cfg, j); }
    }
  }

  /** What the machine's controllers leave when their objects are there. */
  lemma ExposeLeaves(cfg: Config, e: E.State, openShift: bool, r: E.Replies)
    requires ConfigFits(cfg, e.spec) && WebFits(cfg, e.spec, openShift) && r.ready
    requires (UsesIngress(cfg) ==> e.ingress) && (UsesWeb(cfg) ==> e.web)
    ensures var (x, again) := E.Expose(e, openShift, r);
      && x.spec == e.spec && x.status == e.status && x.ingress == e.ingress && again == (cfg.exposure != Routes && !r.exposed)
      && (if cfg.exposure == Routes then x.routes && !x.web else x.routes == e.routes && x.web == e.web)
  {
  }

  lemma ViewsRouted(env: Env, cfg: Config, s: State, u: State, e: E.State, x: E.State, routed: bool)
    requires P.Undone(env, cfg, s, u) && P.ExposedSoFar(s, u, routed) && Views(s, e)
    requires x.spec == e.spec && x.status == e.status && x.ingress == e.ingress
    requires if routed then x.routes && !x.web else x.routes == e.routes && x.web == e.web
    ensures Views(u, x)
  {
    assert Get(u, IngressObject) == Get(s, IngressObject) && WebDeployment in WEB && WebService in WEB;
    if !routed { assert Get(u, WebDeployment) == Get(s, WebDeployment) && Get(u, WebService) == Get(s, WebService); }
  }

  lemma NeededInMachine(cfg: Config, s: State, e: E.State)
    requires Views(s, e) && forall o :: Needed(cfg, o) ==> o in s.store
    ensures (UsesIngress(cfg) ==> e.ingress) && (UsesWeb(cfg) ==> e.web)
  {
    assert Needed(cfg, IngressObject) <==> UsesIngress(cfg);
    assert Needed(cfg, WebDeployment) <==> UsesWeb(cfg);
  }

  lemma ExposedAlready(env: Env, cfg: Config, s: State, u: State, e: E.State, openShift: bool, r: E.Replies)
    requires P.Undone(env, cfg, s, u) && P.ExposedSoFar(s, u, cfg.exposure == Routes) && Views(s, e)
    requires ConfigFits(cfg, e.spec) && WebFits(cfg, e.spec, openShift) && r.ready
    requires forall o :: Needed(cfg, o) ==> o in s.store
    ensures var (x, again) := E.Expose(e, openShift, r);
      Views(u, x) && again == (cfg.exposure != Routes && !r.exposed) && x.spec == e.spec && x.status == e.status
  {
    NeededInMachine(cfg, s, e);
    ExposeLeaves(cfg, e, openShift, r);
    ViewsRouted(env, cfg, s, u, e, E.Expose(e, openShift, r).0, cfg.exposure == Routes);
  }

  lemma ObjectsThere(env: Env, cfg: Config, s: State)
    requires forall i: P.Item :: P.Due(env, cfg, s, i) ==> P.Place(i) >= 52
    ensures forall o :: Needed(cfg, o) ==> o in s.store
  {
    forall o | Needed(cfg, o) ensures o in s.store {
      assert P.Place(P.Create(o)) < 52;
      if o !in s.store { assert P.Due(env, cfg, s, P.Create(o)); }
    }
  }

  /** With the type settled and everything exposed, a class to change. */
  lemma ClassPassIsMachine(env: Env, cfg: Config, s: State, order: seq<Component>, e: E.State, openShift: bool, r: E.Replies)
    requires Sound(env) && Pdb.Covers(order) && Views(s, e) && ConfigFits(cfg, e.spec) && WebFits(cfg, e.spec, openShift) && Smooth(r)
    requires E.TypeSettled(e) && !E.ClassSettled(e) && forall i: P.Item :: P.Due(env, cfg, s, i) ==> P.Place(i) >= 52
    ensures var d := Pipeline(env, cfg, s, order);
      Views(d.state, E.Pass(e, openShift, r).0) && d.result == Requeue(None) && E.Pass(e, openShift, r).1
  {
    FirstFrom52(env, cfg, s);
    ObjectsThere(env, cfg, s);
    var u := P.StopsAtFirst(env, cfg, s, order, P.NewClass);
    ExposedAlready(env, cfg, s, u, e, openShift, r);
    ClassChangeIsMachine(env, cfg, u, E.Expose(e, openShift, r).0, openShift);
    ClassPassByParts(e, openShift, r);
    ChangeClassDoes(env, cfg, u, order);
  }

  lemma ChangeClassDoes(env: Env, cfg: Config, u: State, order: seq<Component>)
    requires u.classPending
    ensures Do(env, cfg, u, ChangeClass, order) == Do(env, cfg, u, ChangeClass, []) && Do(env, cfg, u, ChangeClass, order).result == Requeue(None)
  {
  }

  lemma ClassPassByParts(e: E.State, openShift: bool, r: E.Replies)
    requires E.TypeSettled(e) && !E.ClassSettled(e) && Smooth(r) && !E.Expose(e, openShift, r).1
    ensures E.Pass(e, openShift, r) == (E.UpdateIngressClass(E.Expose(e, openShift, r).0, openShift, true), true)
  {
    E.ExposeKeepsStatus(e, openShift, r);
  }

  lemma FirstFrom52(env: Env, cfg: Config, s: State)
    requires s.classPending && forall i: P.Item :: P.Due(env, cfg, s, i) ==> P.Place(i) >= 52
    ensures P.First(env, cfg, s, P.NewClass)
  {
    forall j: P.Item | P.Due(env, cfg, s, j) ensures j == P.NewClass || P.Place(P.NewClass) < P.Place(j) {
    }
  }

  /** With nothing due, both go through to the end. */
  lemma LastPassIsMachine(env: Env, cfg: Config, s: State, order: seq<Component>, e: E.State, openShift: bool, r: E.Replies)
    requires Sound(env) && Pdb.Covers(order) && Views(s, e) && ConfigFits(cfg, e.spec) && WebFits(cfg, e.spec, openShift) && Smooth(r)
    requires forall i: P.Item :: !P.Due(env, cfg, s, i)
    ensures var d := Pipeline(env, cfg, s, order);
      Views(d.state, E.Pass(e, openShift, r).0) && d.result == Continue && !E.Pass(e, openShift, r).1
  {
    assert !P.Due(env, cfg, s, P.NewType) && !P.Due(env, cfg, s, P.NewClass);
    P.GoesThroughExactly(env, cfg, s, order);
    P.GoneThrough(env, cfg, s, order);
    ObjectsThere(env, cfg, s);
    SettledIsTypeSettled(e);
    ExposedAlready(env, cfg, s, Pipeline(env, cfg, s, order).state, e, openShift, r);
    LastPassByParts(e, openShift, r);
    ViewsRecorded(Pipeline(env, cfg, s, order).state, E.Expose(e, openShift, r).0, E.Pass(e, openShift, r).0);
  }

  lemma LastPassByParts(e: E.State, openShift: bool, r: E.Replies)
    requires E.TypeSettled(e) && E.ClassSettled(e) && Smooth(r) && !E.Expose(e, openShift, r).1
    ensures var x, (t, again) := E.Expose(e, openShift, r).0, E.Pass(e, openShift, r);
      && !again && t.spec == x.spec && t.routes == x.routes && t.ingress == x.ingress && t.web == x.web
      && t.status.className == x.status.className
      && (t.status.ingressType == x.status.ingressType || (x.status.ingressType.kind == E.Unset && t.status.ingressType == x.spec.ingressType))
  {
    E.ExposeKeepsStatus(e, openShift, r);
  }

  /** Recording the type for the first time leaves it settled. */
  lemma ViewsRecorded(s: State, x: E.State, t: E.State)
    requires Views(s, x) && t.spec == x.spec && t.routes == x.routes && t.ingress == x.ingress && t.web == x.web
    requires t.status.className == x.status.className
    requires t.status.ingressType == x.status.ingressType || (x.status.ingressType.kind == E.Unset && t.status.ingressType == x.spec.ingressType)
    ensures Views(s, t)
  {
  }

  // ---- the trigger flags stand for the hash labels ----

  function WatchedOf(H: T.Data -> string, used: bool, held: Option<T.Object>): Watched {
    if !used then Unused else if !T.Changed(H, held) then Acted else if held.None? then Missing else Changed
  }

  /** One pass over a watched object, no edit arriving in it. */
  function Looked(H: T.Data -> string, k: T.Kind, t: T.State): T.State { T.Step(H, k, t, T.ReconcilePass(None, true)) }

  lemma CaTriggerIsMachine(env: Env, cfg: Config, s: State, H: T.Data -> string, t: T.State)
    requires s.ca == WatchedOf(H, true, t.held)
    ensures var d, u := Do(env, cfg, s, CaTrigger, []), Looked(H, T.TrustedCA, t);
      && d.state.ca == WatchedOf(H, true, u.held) && d.state.restarts - s.restarts == u.fires - t.fires
      && (d.result.Requeue? <==> T.Changed(H, t.held))
  {
  }

  lemma SigningTriggerIsMachine(env: Env, cfg: Config, s: State, H: T.Data -> string, t: T.State)
    requires s.signing == WatchedOf(H, true, t.held)
    ensures var d, u := Do(env, cfg, s, SigningTrigger, []), Looked(H, T.SigningSecret, t);
      && d.state.signing == WatchedOf(H, true, u.held) && d.state.restarts - s.restarts == u.fires - t.fires
      && (d.result.Requeue? <==> T.Changed(H, t.held))
  {
  }

  // ---- an instance ----

  /** What stays fixed over a run: the CR, the user's Secrets and ConfigMaps, the
      platform, the hash and how the data of a stored Secret reads. */
  datatype Instance = Instance(
    spec: PulpSpec,
    cluster: Cluster,
    openShift: bool,
    webAnnotation: Option<bool>,
    nodePortSet: bool,
    pdbs: Pdb.Wanted,
    H: T.Data -> string,
    data: Content -> map<string, string>)

  /** What the first pass of a run finds. */
  datatype Found = Found(
    statusType: string,
    statusClass: string,
    caLabel: string,
    signingLabel: string,
    store: map<Obj, Content>,
    routes: bool,
    cacheManaged: bool,
    otelLeft: bool,
    pdbs: Pdb.State)

  function ExposureSpec(i: Instance): E.Spec {
    E.Spec(E.Typed(i.spec.ingressType), E.Named(i.spec.ingressClassName), i.spec.isNginxIngress, i.webAnnotation)
  }

  function ConfigOf(i: Instance): Config {
    var spec := i.spec;
    Config(
      i.openShift && spec.trustedCa,
      spec.externalDBSecret != "",
      spec.cacheEnabled && spec.externalCacheSecret == "",
      spec.externalCacheSecret != "",
      spec.redisStorageClass != "",
      spec.fileStorageClass != "",
      |spec.adminPasswordSecret| == 1,
      spec.telemetryEnabled,
      spec.ipv6Disabled == Some(true),
      if IsRoute(spec) then Routes else if !IsIngress(spec) then PulpWeb
      else if E.WebBehindIngress(ExposureSpec(i), i.openShift) then WebIngress else BareIngress,
      spec.isNginxIngress,
      spec.ingressClassName == E.OCP_CLASS,
      ToLower(spec.ingressClassName) != "",
      i.nodePortSet,
      i.pdbs)
  }

  lemma ConfigOfFits(i: Instance)
    ensures ConfigFits(ConfigOf(i), ExposureSpec(i)) && WebFits(ConfigOf(i), ExposureSpec(i), i.openShift)
  {
  }

  /** The CR with the default names filled in. */
  function Filled(spec: PulpSpec): PulpSpec {
    spec.(adminPasswordSecret := if spec.adminPasswordSecret == "" then spec.name + "-admin-password" else spec.adminPasswordSecret,
          pulpSecretKey := if spec.pulpSecretKey == "" then spec.name + "-secret-key" else spec.pulpSecretKey,
          dbFieldsEncryptionSecret := if spec.dbFieldsEncryptionSecret == "" then spec.name + "-db-fields-encryption" else spec.dbFieldsEncryptionSecret,
          containerTokenSecret := if spec.containerTokenSecret == "" then spec.name + "-container-auth" else spec.containerTokenSecret)
  }

  /** The ConfigMap of the trusted CA and the signing Secret, as the triggers
      read them. */
  function CaObject(i: Instance, hashLabel: string): Option<T.Object> {
    match i.spec.trustedCaConfigMapKey
    case None => None
    case Some(key) =>
      match i.cluster.ConfigMap(SplitCAConfigMapNameKey(key).0)
      case None => None
      case Some(d) => Some(T.Object(d, hashLabel))
  }

  function SigningObject(i: Instance, hashLabel: string): Option<T.Object> {
    match i.cluster.Secret(i.spec.signingSecret) case None => None case Some(d) => Some(T.Object(d, hashLabel))
  }

  /** The pipeline's state when the run starts. */
  function Start(i: Instance, f: Found): State {
    State(
      f.store,
      Filled(i.spec) == i.spec,
      0,
      WatchedOf(i.H, i.spec.trustedCaConfigMapKey.Some?, CaObject(i, f.caLabel)),
      WatchedOf(i.H, i.spec.signingSecret != "", SigningObject(i, f.signingLabel)),
      TypeStateOf(E.Typed(f.statusType), E.Typed(i.spec.ingressType)),
      ToLower(f.statusClass) != ToLower(i.spec.ingressClassName),
      f.routes,
      f.cacheManaged,
      f.otelLeft,
      f.pdbs)
  }

  /** The state a run starts from is the exposure machine's, read off the same
      CR, status and objects. */
  lemma StartIsMachine(i: Instance, f: Found, e: E.State)
    requires e.spec == ExposureSpec(i) && e.status == E.Status(E.Typed(f.statusType), E.Named(f.statusClass))
    requires e.routes == f.routes && (e.ingress <==> IngressObject in f.store) && (e.web <==> WebDeployment in f.store || WebService in f.store)
    ensures Views(Start(i, f), e) && ConfigFits(ConfigOf(i), e.spec)
    ensures Start(i, f).kind == Settled <==> E.TypeSettled(e)
    ensures Views(TypeChanged(ConfigOf(i), Start(i, f)), E.UpdateIngressType(e, true))
  {
    ConfigOfFits(i);
    SettledIsTypeSettled(e);
    TypeChangeIsMachine(ConfigOf(i), Start(i, f), e);
  }

  // ---- the text of the server Secret ----

  function With(i: Instance, secrets: map<string, map<string, string>>, name: string, c: Option<Content>): map<string, map<string, string>> {
    match c case None => secrets - {name} case Some(v) => secrets[name := i.data(v)]
  }

  /** The Secrets the renderer reads: the user's and the two the operator owns. */
  function Rendering(i: Instance, database: Option<Content>, django: Option<Content>): Cluster {
    var own := if i.spec.externalDBSecret != "" then i.cluster.secrets else With(i, i.cluster.secrets, S.DefaultDBSecret(i.spec), database);
    i.cluster.(secrets := With(i, own, Filled(i.spec).pulpSecretKey, django))
  }

  ghost function ServerText(i: Instance, redirectFirst: bool, database: Option<Content>, django: Option<Content>): Content {
    S.Print(S.Rendered(Filled(i.spec), Rendering(i, database, django), if redirectFirst then A.REDIRECT_FIRST else A.HIDE_FIRST))
  }

  /** The environment of the instance's runs: `base` but for the server Secret. */
  ghost function WorldOf(i: Instance, base: Env): World {
    World(base.(server := (database, django) => ServerText(i, true, database, django)),
          (database, django) => ServerText(i, false, database, django))
  }

  /** One of the two flags is overridden, or both are off. */
  predicate FlagsFree(spec: PulpSpec, cluster: Cluster) {
    || S.Flag.RedirectToObjectStorage.Name() in S.CustomNames(spec, cluster)
    || S.Flag.HideGuardedDistributions.Name() in S.CustomNames(spec, cluster)
    || (!spec.redirectToObjectStorage && !spec.hideGuardedDistributions)
  }

  lemma SameCustomNames(i: Instance, database: Option<Content>, django: Option<Content>)
    ensures S.CustomNames(Filled(i.spec), Rendering(i, database, django)) == S.CustomNames(i.spec, i.cluster)
  {
  }

  lemma TextIsOrderFree(i: Instance, database: Option<Content>, django: Option<Content>)
    ensures ServerText(i, true, database, django) == ServerText(i, false, database, django) <==> FlagsFree(i.spec, i.cluster)
  {
    var spec, cluster := Filled(i.spec), Rendering(i, database, django);
    SameCustomNames(i, database, django);
    A.OrderShows(spec, cluster);
    FlagsFreeSame(spec, i.spec, cluster, i.cluster);
  }

  lemma FlagsFreeSame(a: PulpSpec, b: PulpSpec, x: Cluster, y: Cluster)
    requires S.CustomNames(a, x) == S.CustomNames(b, y)
    requires a.redirectToObjectStorage == b.redirectToObjectStorage && a.hideGuardedDistributions == b.hideGuardedDistributions
    ensures FlagsFree(a, x) <==> FlagsFree(b, y)
  {
  }

  lemma WorldIsDecided(i: Instance, base: Env)
    ensures OrderFree(WorldOf(i, base)) <==> FlagsFree(i.spec, i.cluster)
    ensures Divergent(WorldOf(i, base)) <==> !FlagsFree(i.spec, i.cluster)
  {
    var w := WorldOf(i, base);
    forall d: Option<Content>, k: Option<Content>
      ensures w.env.server(d, k) == w.hideFirst(d, k) <==> FlagsFree(i.spec, i.cluster)
    {
      TextIsOrderFree(i, d, k);
    }
    assert w.env.server(None, None) == w.hideFirst(None, None) <==> FlagsFree(i.spec, i.cluster);
  }

  // ---- what blocks a run ----

  /** The recorded type, if there is one, is the wanted text, or one of the four
      types that differs from it by more than case. */
  predicate TypeCanChange(status: string, wanted: string) {
    || status == "" || status == wanted
    || (ToLower(status) in {"route", "ingress", "nodeport", "loadbalancer"} && ToLower(status) != ToLower(wanted))
  }

  /** An absent object cannot keep a label, and the hash of nothing is a text. */
  predicate NoLabel(i: Instance, used: bool, present: bool) { used && !present && i.H(map[]) != "" }

  /** Nothing keeps the passes from going through: read off the CR, the status and
      the namespace before the first of them. */
  predicate Unblocked(i: Instance, f: Found) {
    && (|i.spec.adminPasswordSecret| == 1 ==> AdminSecret in f.store)
    && !NoLabel(i, i.spec.trustedCaConfigMapKey.Some?, CaObject(i, f.caLabel).Some?)
    && !NoLabel(i, i.spec.signingSecret != "", SigningObject(i, f.signingLabel).Some?)
    && TypeCanChange(f.statusType, i.spec.ingressType)
  }

  lemma StuckByText(status: string, wanted: string)
    ensures TypeStateOf(E.Typed(status), E.Typed(wanted)) == Stuck <==> !TypeCanChange(status, wanted)
  {
    E.FourByText(E.Typed(status));
    if E.FourKinds(E.Typed(status).kind) { E.KindByText(E.Typed(status), E.Typed(wanted)); }
    LowerEmpty(status);
  }

  lemma LowerEmpty(t: string)
    ensures ToLower(t) == "" <==> t == ""
  {
  }

  lemma MissingByLabel(i: Instance, used: bool, held: Option<T.Object>)
    ensures WatchedOf(i.H, used, held) == Missing <==> NoLabel(i, used, held.Some?)
  {
  }

  lemma BlockedByText(i: Instance, f: Found)
    ensures Blocked(ConfigOf(i), Start(i, f)) <==> !Unblocked(i, f)
  {
    StuckByText(f.statusType, i.spec.ingressType);
    MissingByLabel(i, i.spec.trustedCaConfigMapKey.Some?, CaObject(i, f.caLabel));
    MissingByLabel(i, i.spec.signingSecret != "", SigningObject(i, f.signingLabel));
  }

  /** Convergence: with API writes succeeding and no other writer, the passes of
      an instance settle in a synced state, whatever orders Go ranges over its
      maps in, exactly when the admin Secret's name is not one character long or
      the default one exists, the watched objects exist, the recorded exposure
      type can change, and `settings.py` does not depend on the order of the two
      migration flags. */
  lemma Convergence(i: Instance, f: Found, base: Env)
    requires Sound(base)
    ensures AlwaysSettles(WorldOf(i, base), ConfigOf(i), Start(i, f)) <==> Unblocked(i, f) && FlagsFree(i.spec, i.cluster)
  {
    WorldIsDecided(i, base);
    BlockedByText(i, f);
    SettlesExactly(WorldOf(i, base), ConfigOf(i), Start(i, f));
  }

  // ---- the pods of a synced instance ----

  /** The object behind a reference of a pod volume. */
  function Behind(spec: PulpSpec, ref: PodClosure.Ref): Option<Obj> {
    match ref
    case SecretRef(n) =>
      if n == spec.name + "-server" then Some(ServerSecret)
      else if n == spec.dbFieldsEncryptionSecret then Some(FieldsSecret)
      else if n == spec.adminPasswordSecret then Some(if |n| == 1 then ShortAdminSecret else AdminSecret)
      else if n == spec.containerTokenSecret then Some(TokenSecret)
      else None
    case ConfigMapRef(n) =>
      if n == spec.name + "-worker-probe" then Some(ProbeConfigMap)
      else if n == spec.name + "-otel-collector-config" then Some(OtelConfigMap)
      else if n == spec.name + "-user-ca-bundle" then Some(CaBundle)
      else None
    case ClaimRef(n) => if n == spec.name + "-file-storage" then Some(FilePVC) else None
  }

  lemma SuffixesDiffer(name: string)
    ensures name + "-worker-probe" != name + "-otel-collector-config"
    ensures name + "-worker-probe" != name + "-user-ca-bundle"
    ensures name + "-otel-collector-config" != name + "-user-ca-bundle"
  {
    assert |name + "-worker-probe"| == |name| + 13 && |name + "-otel-collector-config"| == |name| + 22 && |name + "-user-ca-bundle"| == |name| + 15;
  }

  lemma SyncedSecrets(env: Env, cfg: Config, spec: PulpSpec, s: State, n: string)
    requires Synced(env, cfg, s) && |spec.adminPasswordSecret| != 1
    requires n in {spec.name + "-server", spec.dbFieldsEncryptionSecret, spec.adminPasswordSecret, spec.containerTokenSecret}
    ensures Behind(spec, PodClosure.SecretRef(n)).Some? && Behind(spec, PodClosure.SecretRef(n)).value in s.store
  {
    assert Needed(cfg, ServerSecret) && Needed(cfg, FieldsSecret) && Needed(cfg, AdminSecret) && Needed(cfg, TokenSecret);
  }

  lemma SyncedConfigMaps(env: Env, cfg: Config, spec: PulpSpec, s: State, n: string)
    requires Synced(env, cfg, s)
    requires || (n == spec.name + "-worker-probe" && cfg.ipv6Off)
             || (n == spec.name + "-otel-collector-config" && cfg.telemetry)
             || (n == spec.name + "-user-ca-bundle" && cfg.openShiftCa)
    ensures Behind(spec, PodClosure.ConfigMapRef(n)).Some? && Behind(spec, PodClosure.ConfigMapRef(n)).value in s.store
  {
    SuffixesDiffer(spec.name);
    if cfg.ipv6Off { assert Needed(cfg, ProbeConfigMap); }
    if cfg.telemetry { assert Needed(cfg, OtelConfigMap); }
    if cfg.openShiftCa { assert Needed(cfg, CaBundle); }
  }

  lemma OperatorRefs(spec: PulpSpec, ref: PodClosure.Ref)
    requires ref in PodClosure.OperatorObjects(spec)
    ensures match ref
      case SecretRef(n) => n in {spec.name + "-server", spec.dbFieldsEncryptionSecret, spec.adminPasswordSecret, spec.containerTokenSecret}
      case ConfigMapRef(n) =>
        || (n == spec.name + "-worker-probe" && spec.ipv6Disabled == Some(true))
        || (n == spec.name + "-otel-collector-config" && spec.telemetryEnabled)
        || (n == spec.name + "-user-ca-bundle" && spec.trustedCa && spec.trustedCaConfigMapKey.None?)
      case ClaimRef(n) => n == spec.name + "-file-storage" && spec.fileStorageClass != ""
  {
  }

  /** At a synced state every object of the operator that a pod volume refers to
      exists, unless the admin Secret's name is one character long. */
  lemma SyncedPodsFindTheirObjects(env: Env, i: Instance, s: State, ref: PodClosure.Ref)
    requires PassesPrechecks(i.spec, i.cluster, i.openShift) && |i.spec.adminPasswordSecret| != 1
    requires Synced(env, ConfigOf(i), s) && ref in PodClosure.OperatorObjects(i.spec)
    ensures Behind(i.spec, ref).Some? && Behind(i.spec, ref).value in s.store
  {
    var cfg, spec := ConfigOf(i), i.spec;
    OperatorRefs(spec, ref);
    match ref
    case SecretRef(n) => SyncedSecrets(env, cfg, spec, s, n);
    case ConfigMapRef(n) =>
      assert CaConfigMapOk(spec, i.openShift);
      SyncedConfigMaps(env, cfg, spec, s, n);
    case ClaimRef(n) => assert Needed(cfg, FilePVC);
  }
}
