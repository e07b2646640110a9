/** One pass of the main controller: a gated pipeline of create, repair and
    transition steps that returns to the queue at the first step that had
    something to do. The contents the steps compare are parameters. */
module Reconcile {
  import opened Pulp
  import Pdb

  datatype Obj =
    | CaBundle | ServiceAccount | Role | RoleBinding
    | DbSecret | DbStatefulSet | DbService
    | CachePVC | CacheService | CacheDeployment
    | FilePVC
    | DjangoSecret | ServerSecret | FieldsSecret | AdminSecret | ShortAdminSecret | TokenSecret
    | ApiDeployment | ApiService | OtelConfigMap | OtelService
    | ContentDeployment | ContentService
    | ProbeConfigMap | WorkerDeployment
    | WebConfigMap | WebDeployment | WebService | IngressObject

  type Content = string

  /** What the constructors compute in one pass and what the API server makes of
      a write. The pulpcore Deployments depend on the names of the Secrets and on
      the last restart, the server Secret on two other Secrets. */
  datatype Env = Env(
    fixed: Obj -> Content,
    core: (Obj, bool, nat) -> Content,
    server: (Option<Content>, Option<Content>) -> Content,
    stored: Content -> Content,
    matches: (Content, Content) -> bool,
    pdb: Pdb.Env)

  /** What is written passes its own check. */
  ghost predicate Sound(env: Env) {
    (forall c :: env.matches(c, env.stored(c))) && Pdb.Sound(env.pdb)
  }

  /** What Go's map iteration picks in one pass: the order of the PDBs, and
      which of the two migration flags is rendered first. */
  datatype Choice = Choice(pdbs: seq<Component>, redirectFirst: bool)

  /** The environment of a whole run: `env` as it is in a pass that renders the
      redirect flag first, and the text of the server Secret in the others. */
  datatype World = World(env: Env, hideFirst: (Option<Content>, Option<Content>) -> Content)

  function At(w: World, redirectFirst: bool): Env {
    if redirectFirst then w.env else w.env.(server := w.hideFirst)
  }

  /** Pulp-web on its own, an Ingress with or without it, or Routes. */
  datatype ExposureKind = PulpWeb | BareIngress | WebIngress | Routes

  /** The fixed part of the CR and of the cluster that decides which steps run. */
  datatype Config = Config(
    openShiftCa: bool,        // OpenShift, and a trusted CA
    externalDb: bool,
    managedCache: bool,       // enabled, and no external cache
    externalCache: bool,
    cachePVC: bool,
    filePVC: bool,
    adminShort: bool,         // admin_password_secret is one character long
    telemetry: bool,
    ipv6Off: bool,
    exposure: ExposureKind,
    nginx: bool,              // an Ingress whose class belongs to nginx
    ocpDefault: bool,         // the class of OpenShift's own controller
    hasClass: bool,
    nodePortSet: bool,
    pdbs: Pdb.Wanted)

  /** A ConfigMap or Secret of the user whose hash label triggers a restart. */
  datatype Watched = Unused | Missing | Changed | Acted

  /** The recorded exposure type against the wanted one. */
  datatype TypeState = Settled | FromRoute | FromIngress | FromWeb | Stuck

  datatype State = State(
    store: map<Obj, Content>,
    named: bool,              // the defaulted Secret names are in the CR
    restarts: nat,            // LastDeploymentUpdate
    ca: Watched,
    signing: Watched,
    kind: TypeState,
    classPending: bool,
    routes: bool,             // the Routes are in place
    cacheManaged: bool,
    otelLeft: bool,           // telemetry was on before
    pdbs: Pdb.State)

  const WEB: set<Obj> := {WebDeployment, WebService}

  const PULPCORE: set<Obj> := {ApiDeployment, ContentDeployment, WorkerDeployment}

  function Get(s: State, o: Obj): Option<Content> { if o in s.store then Some(s.store[o]) else None }

  function Want(env: Env, s: State, o: Obj): Content {
    if o in PULPCORE then env.core(o, s.named, s.restarts)
    else if o == ServerSecret then env.server(Get(s, DbSecret), Get(s, DjangoSecret))
    else env.fixed(o)
  }

  /** The data of the server Secret is compared as a whole; nothing in it is
      defaulted. */
  predicate Matches(env: Env, o: Obj, wanted: Content, found: Content) {
    if o == ServerSecret then wanted == found else env.matches(wanted, found)
  }

  function Stored(env: Env, o: Obj, c: Content): Content { if o == ServerSecret then c else env.stored(c) }

  predicate Drifted(env: Env, s: State, o: Obj) { o in s.store && !Matches(env, o, Want(env, s, o), s.store[o]) }

  function Written(env: Env, s: State, o: Obj): State { s.(store := s.store[o := Stored(env, o, Want(env, s, o))]) }

  predicate UsesIngress(cfg: Config) { cfg.exposure == BareIngress || cfg.exposure == WebIngress }

  predicate UsesWeb(cfg: Config) { cfg.exposure == PulpWeb || cfg.exposure == WebIngress }

  // ---- steps ----

  datatype Step =
    | Ensure(obj: Obj)        // create when missing
    | EnsureAdmin
    | Repair(obj: Obj)        // write when drifted
    | FillNames               // the four UpdateCRField calls
    | SettleCache             // ManagedCacheEnabled, then deprovisionCache
    | CaTrigger
    | SigningTrigger
    | ChangeType
    | ExposeRoutes
    | ChangeClass
    | Pdbs
    | RemoveTelemetry

  datatype Result = Continue | Requeue(written: Option<Obj>) | Failed

  datatype Outcome = Outcome(state: State, result: Result)

  /** The restart that a changed object asks for. A missing object has nowhere to
      keep the hash. */
  function Fired(w: Watched): Watched { if w == Changed then Acted else w }

  /** What a change of the class takes down. */
  function ClassGone(cfg: Config): set<Obj> {
    (if UsesIngress(cfg) && cfg.nginx then WEB else {IngressObject}) + (if cfg.ocpDefault then WEB else {})
  }

  /** What leaving an exposure type takes down besides the Routes. */
  function TypeGone(k: TypeState): set<Obj> {
    match k case FromIngress => {IngressObject} + WEB case FromWeb => WEB case _ => {}
  }

  function TypeChanged(cfg: Config, s: State): State {
    if s.kind == Settled || s.kind == Stuck then s
    else
      s.(kind := Settled, store := s.store - TypeGone(s.kind), routes := s.routes && s.kind != FromRoute,
         classPending := if s.kind == FromIngress then cfg.hasClass else s.classPending)
  }

  function Do(env: Env, cfg: Config, s: State, st: Step, order: seq<Component>): Outcome {
    match st
    case Ensure(o) => if o in s.store then Outcome(s, Continue) else Outcome(Written(env, s, o), Requeue(Some(o)))
    case EnsureAdmin =>
      if AdminSecret in s.store then Outcome(s, Continue)
      else if !cfg.adminShort then Outcome(Written(env, s, AdminSecret), Requeue(Some(AdminSecret)))
      else if ShortAdminSecret in s.store then Outcome(s, Failed)
      else Outcome(Written(env, s, ShortAdminSecret), Requeue(Some(ShortAdminSecret)))
    case Repair(o) =>
      if !Drifted(env, s, o) then Outcome(s, Continue)
      else if o == ServerSecret then Outcome(Written(env, s, o).(restarts := s.restarts + 1), Requeue(Some(o)))
      else Outcome(Written(env, s, o), Requeue(Some(o)))
    case FillNames => Outcome(s.(named := true), Continue)
    case SettleCache =>
      if cfg.managedCache then Outcome(s.(cacheManaged := true), Continue)
      else if cfg.externalCache || !s.cacheManaged then Outcome(s, Continue)
      else Outcome(s.(store := s.store - {CacheService, CacheDeployment}, cacheManaged := false), Continue)
    case CaTrigger =>
      if s.ca == Unused || s.ca == Acted then Outcome(s, Continue)
      else Outcome(s.(ca := Fired(s.ca), restarts := s.restarts + 1), Requeue(None))
    case SigningTrigger =>
      if s.signing == Unused || s.signing == Acted then Outcome(s, Continue)
      else Outcome(s.(signing := Fired(s.signing), restarts := s.restarts + 1), Requeue(None))
    case ChangeType =>
      if s.kind == Settled then Outcome(s, Continue) else Outcome(TypeChanged(cfg, s), Requeue(None))
    case ChangeClass =>
      if !s.classPending then Outcome(s, Continue)
      else Outcome(s.(classPending := false, store := s.store - ClassGone(cfg)), Requeue(None))
    case ExposeRoutes => Outcome(s.(routes := true, store := s.store - WEB), Continue)
    case Pdbs =>
      var (p, requeue) := Pdb.Pass(env.pdb, cfg.pdbs, s.pdbs, order, Pdb.ALL);
      Outcome(s.(pdbs := p), if requeue then Requeue(None) else Continue)
    case RemoveTelemetry =>
      if s.otelLeft && !cfg.telemetry then Outcome(s.(otelLeft := false, store := s.store - {OtelConfigMap, OtelService}), Continue)
      else Outcome(s.(otelLeft := cfg.telemetry), Continue)
  }

  function Exec(env: Env, cfg: Config, s: State, steps: seq<Step>, order: seq<Component>): Outcome
    decreases |steps|
  {
    if steps == [] then Outcome(s, Continue)
    else
      var a := Do(env, cfg, s, steps[0], order);
      if a.result.Continue? then Exec(env, cfg, a.state, steps[1..], order) else a
  }

  // ---- the pipeline ----

  function If(b: bool, steps: seq<Step>): seq<Step> { if b then steps else [] }

  function OcpSteps(cfg: Config): seq<Step> { If(cfg.openShiftCa, [Ensure(CaBundle)]) }

  function AccountSteps(): seq<Step> { [Ensure(ServiceAccount), Ensure(Role), Ensure(RoleBinding)] }

  function DatabaseSteps(cfg: Config): seq<Step> {
    If(!cfg.externalDb, [Ensure(DbSecret), Ensure(DbStatefulSet), Repair(DbStatefulSet), Ensure(DbService), Repair(DbService)])
  }

  function CacheSteps(cfg: Config): seq<Step> {
    If(cfg.managedCache && cfg.cachePVC, [Ensure(CachePVC), Repair(CachePVC)])
    + If(cfg.managedCache, [Ensure(CacheService), Repair(CacheService), Ensure(CacheDeployment), Repair(CacheDeployment)])
    + [SettleCache]
  }

  function FileSteps(cfg: Config): seq<Step> { If(cfg.filePVC, [Ensure(FilePVC)]) }

  function SecretSteps(): seq<Step> {
    [FillNames, Ensure(DjangoSecret), Ensure(ServerSecret), Ensure(FieldsSecret), EnsureAdmin, Ensure(TokenSecret), Repair(ServerSecret)]
  }

  function ApiSteps(cfg: Config): seq<Step> {
    [Ensure(ApiDeployment), Ensure(ApiService)] + If(cfg.telemetry, [Ensure(OtelConfigMap), Ensure(OtelService)])
    + [Repair(ApiDeployment), Repair(ApiService)] + If(cfg.telemetry, [Repair(OtelConfigMap), Repair(OtelService)])
  }

  function ContentSteps(): seq<Step> {
    [Ensure(ContentDeployment), Ensure(ContentService), Repair(ContentDeployment), Repair(ContentService)]
  }

  function WorkerSteps(cfg: Config): seq<Step> {
    If(cfg.ipv6Off, [Ensure(ProbeConfigMap), Repair(ProbeConfigMap)]) + [Ensure(WorkerDeployment), Repair(WorkerDeployment)]
  }

  /** The Service of pulp-web is never repaired without a node port. */
  function WebSteps(cfg: Config): seq<Step> {
    [Ensure(WebConfigMap), Ensure(WebDeployment), Repair(WebDeployment), Ensure(WebService)] + If(cfg.nodePortSet, [Repair(WebService)])
  }

  /** A new Ingress is created and at once updated in the same pass, which then
      returns to the queue like every other create. The Routes never end a pass. */
  function ExposureSteps(cfg: Config): seq<Step> {
    If(UsesIngress(cfg), [Ensure(IngressObject), Repair(IngressObject)]) + If(UsesWeb(cfg), WebSteps(cfg))
    + If(cfg.exposure == Routes, [ExposeRoutes])
  }

  function Steps(cfg: Config): seq<Step> {
    OcpSteps(cfg) + AccountSteps() + DatabaseSteps(cfg) + CacheSteps(cfg) + FileSteps(cfg) + SecretSteps() + [CaTrigger]
    + ApiSteps(cfg) + [SigningTrigger] + ContentSteps() + WorkerSteps(cfg) + [ChangeType] + ExposureSteps(cfg)
    + [ChangeClass, Pdbs, RemoveTelemetry]
  }

  /** The whole pipeline with the renderings of one pass. */
  function Pipeline(env: Env, cfg: Config, s: State, order: seq<Component>): Outcome { Exec(env, cfg, s, Steps(cfg), order) }

  function Pass(w: World, cfg: Config, s: State, ch: Choice): Outcome { Pipeline(At(w, ch.redirectFirst), cfg, s, ch.pdbs) }

  // ---- the same, as the source runs it ----

  class Reconciler {
    const world: World
    const cfg: Config
    var env: Env
    var s: State

    constructor (world: World, cfg: Config, s: State)
      ensures this.world == world && this.cfg == cfg && this.s == s
    {
      this.world, this.cfg, this.env, this.s := world, cfg, world.env, s;
    }

    /** `createPulpResource`. */
    method CreatePulpResource(o: Obj) returns (r: Result)
      modifies `s
      ensures Outcome(s, r) == Do(env, cfg, old(s), Ensure(o), [])
    {
      if o !in s.store {
        s := s.(store := s.store[o := Stored(env, o, Want(env, s, o))]);
        return Requeue(Some(o));
      }
      return Continue;
    }

    /** The admin Secret is looked up under one name and created under another
        when the user's name is one character long. */
    method CreateAdminSecret() returns (r: Result)
      modifies `s
      ensures Outcome(s, r) == Do(env, cfg, old(s), EnsureAdmin, [])
    {
      if AdminSecret in s.store { return Continue; }
      var name := if cfg.adminShort then ShortAdminSecret else AdminSecret;
      if name in s.store { return Failed; }
      s := s.(store := s.store[name := env.stored(Want(env, s, name))]);
      return Requeue(Some(name));
    }

    /** `ReconcileObject`; a changed server Secret also restarts the pods. */
    method ReconcileObject(o: Obj) returns (r: Result)
      modifies `s
      ensures Outcome(s, r) == Do(env, cfg, old(s), Repair(o), [])
    {
      if o !in s.store || Matches(env, o, Want(env, s, o), s.store[o]) { return Continue; }
      s := s.(store := s.store[o := Stored(env, o, Want(env, s, o))]);
      if o == ServerSecret { s := s.(restarts := s.restarts + 1); }
      return Requeue(Some(o));
    }

    method ChangeTypeOfExposure() returns (r: Result)
      modifies `s
      ensures Outcome(s, r) == Do(env, cfg, old(s), ChangeType, [])
    {
      if s.kind == Settled { return Continue; }
      s := TypeChanged(cfg, s);
      return Requeue(None);
    }

    method ChangeIngressClass() returns (r: Result)
      modifies `s
      ensures Outcome(s, r) == Do(env, cfg, old(s), ChangeClass, [])
    {
      if !s.classPending { return Continue; }
      var gone := if UsesIngress(cfg) && cfg.nginx then WEB else {IngressObject};
      if cfg.ocpDefault { gone := gone + WEB; }
      assert gone == ClassGone(cfg);
      s := s.(classPending := false, store := s.store - gone);
      return Requeue(None);
    }

    method Trigger(st: Step) returns (r: Result)
      requires st == CaTrigger || st == SigningTrigger
      modifies `s
      ensures Outcome(s, r) == Do(env, cfg, old(s), st, [])
    {
      var w := if st == CaTrigger then s.ca else s.signing;
      if w == Unused || w == Acted { return Continue; }
      s := s.(restarts := s.restarts + 1);
      if st == CaTrigger { s := s.(ca := Fired(w)); } else { s := s.(signing := Fired(w)); }
      return Requeue(None);
    }

    method PdbController(order: seq<Component>) returns (r: Result)
      modifies `s
      ensures Outcome(s, r) == Do(env, cfg, old(s), Pdbs, order)
    {
      var controller := new Pdb.PdbController(env.pdb, s.pdbs);
      var requeue := controller.Reconcile(cfg.pdbs, order, Pdb.ALL);
      s := s.(pdbs := controller.pdbs);
      return if requeue then Requeue(None) else Continue;
    }

    method CleanUp(st: Step)
      requires st == FillNames || st == SettleCache || st == RemoveTelemetry || st == ExposeRoutes
      modifies `s
      ensures Outcome(s, Continue) == Do(env, cfg, old(s), st, [])
    {
      match st
      case FillNames => s := s.(named := true);
      case ExposeRoutes => s := s.(routes := true, store := s.store - WEB);
      case SettleCache =>
        if cfg.managedCache { s := s.(cacheManaged := true); }
        if !cfg.externalCache && cfg.managedCache != s.cacheManaged {
          s := s.(store := s.store - {CacheService, CacheDeployment}, cacheManaged := cfg.managedCache);
        }
      case RemoveTelemetry =>
        if s.otelLeft && !cfg.telemetry { s := s.(store := s.store - {OtelConfigMap, OtelService}); }
        s := s.(otelLeft := cfg.telemetry);
    }

    method RunStep(st: Step, order: seq<Component>) returns (r: Result)
      modifies `s
      ensures Outcome(s, r) == Do(env, cfg, old(s), st, order)
    {
      match st
      case Ensure(o) => r := CreatePulpResource(o);
      case EnsureAdmin => r := CreateAdminSecret();
      case Repair(o) => r := ReconcileObject(o);
      case ChangeType => r := ChangeTypeOfExposure();
      case ChangeClass => r := ChangeIngressClass();
      case CaTrigger => r := Trigger(st);
      case SigningTrigger => r := Trigger(st);
      case Pdbs => r := PdbController(order);
      case FillNames => CleanUp(st); r := Continue;
      case SettleCache => CleanUp(st); r := Continue;
      case RemoveTelemetry => CleanUp(st); r := Continue;
      case ExposeRoutes => CleanUp(st); r := Continue;
    }

    /** The resources of one controller, with its early returns. */
    method RunSteps(steps: seq<Step>, order: seq<Component>) returns (r: Result)
      modifies `s
      ensures Outcome(s, r) == Exec(env, cfg, old(s), steps, order)
    {
      for i := 0 to |steps|
        invariant Exec(env, cfg, s, steps[i..], order) == Exec(env, cfg, old(s), steps, order)
      {
        assert steps[i..][0] == steps[i] && steps[i..][1..] == steps[i + 1..];
        r := RunStep(steps[i], order);
        if !r.Continue? { return; }
      }
      return Continue;
    }

    method DatabaseTasks(order: seq<Component>) returns (r: Result)
      modifies `s
      ensures Outcome(s, r) == Exec(env, cfg, old(s), DatabaseSteps(cfg), order)
    {
      if cfg.externalDb { return Continue; }
      r := RunSteps(DatabaseSteps(cfg), order);
    }

    /** `pulpCoreTasks` from the file storage to the telemetry clean-up. */
    method PulpCoreTasks(order: seq<Component>) returns (r: Result)
      modifies `s
      ensures Outcome(s, r) == Exec(env, cfg, old(s), CoreSteps(cfg), order)
    {
      r := RunSteps(CoreSteps(cfg), order);
    }

    /** `Reconcile` after the prechecks. */
    method ReconcilePass(ch: Choice) returns (r: Result)
      modifies this
      ensures Outcome(s, r) == Pass(world, cfg, old(s), ch)
    {
      env := At(world, ch.redirectFirst);
      var order := ch.pdbs;
      var early := OcpSteps(cfg) + AccountSteps();
      ghost var s0 := s;
      StepsSplit(cfg);
      r := RunSteps(early, order);
      ExecAppend(env, cfg, s0, early, DatabaseSteps(cfg), order);
      ExecAppend(env, cfg, s0, early + DatabaseSteps(cfg), CacheSteps(cfg), order);
      ExecAppend(env, cfg, s0, early + DatabaseSteps(cfg) + CacheSteps(cfg), CoreSteps(cfg), order);
      if !r.Continue? { return; }
      r := DatabaseTasks(order);
      if !r.Continue? { return; }
      r := RunSteps(CacheSteps(cfg), order);
      if !r.Continue? { return; }
      r := PulpCoreTasks(order);
    }
  }

  function CoreSteps(cfg: Config): seq<Step> {
    FileSteps(cfg) + SecretSteps() + [CaTrigger]
    + ApiSteps(cfg) + [SigningTrigger] + ContentSteps() + WorkerSteps(cfg) + [ChangeType] + ExposureSteps(cfg)
    + [ChangeClass, Pdbs, RemoveTelemetry]
  }

  lemma StepsSplit(cfg: Config)
    ensures Steps(cfg) == OcpSteps(cfg) + AccountSteps() + DatabaseSteps(cfg) + CacheSteps(cfg) + CoreSteps(cfg)
  {
    Regroup(OcpSteps(cfg) + AccountSteps() + DatabaseSteps(cfg) + CacheSteps(cfg), FileSteps(cfg), SecretSteps(), [CaTrigger], ApiSteps(cfg),
            [SigningTrigger], ContentSteps(), WorkerSteps(cfg), [ChangeType], ExposureSteps(cfg), [ChangeClass, Pdbs, RemoveTelemetry]);
  }

  lemma Regroup<T>(k: seq<T>, a: seq<T>, b: seq<T>, c: seq<T>, d: seq<T>, e: seq<T>, f: seq<T>, g: seq<T>, h: seq<T>, i: seq<T>, j: seq<T>)
    ensures k + a + b + c + d + e + f + g + h + i + j == k + (a + b + c + d + e + f + g + h + i + j)
  {
  }

  lemma {:induction false} ExecAppend(env: Env, cfg: Config, s: State, a: seq<Step>, b: seq<Step>, order: seq<Component>)
    ensures Exec(env, cfg, s, a + b, order)
            == var x := Exec(env, cfg, s, a, order); if x.result.Continue? then Exec(env, cfg, x.state, b, order) else x
    decreases |a|
  {
    if a == [] {
      assert a + b == b;
    } else {
      assert (a + b)[0] == a[0] && (a + b)[1..] == a[1..] + b;
      var x := Do(env, cfg, s, a[0], order);
      if x.result.Continue? { ExecAppend(env, cfg, x.state, a[1..], b, order); }
    }
  }
}
