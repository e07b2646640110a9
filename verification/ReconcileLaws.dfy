/** What one pass of the pipeline guarantees: no stage is touched before the
    earlier ones are in order, a pass that is not the last has less left to do,
    and a pass that goes through leaves a synced state. */
module ReconcileLaws {
  import opened Pulp
  import opened Reconcile
  import Pdb

  // ---- which objects a configuration needs ----

  predicate Needed(cfg: Config, o: Obj) {
    match o
    case CaBundle => cfg.openShiftCa
    case ServiceAccount => true case Role => true case RoleBinding => true
    case DbSecret => !cfg.externalDb case DbStatefulSet => !cfg.externalDb case DbService => !cfg.externalDb
    case CachePVC => cfg.managedCache && cfg.cachePVC
    case CacheService => cfg.managedCache case CacheDeployment => cfg.managedCache
    case FilePVC => cfg.filePVC
    case DjangoSecret => true case ServerSecret => true case FieldsSecret => true case AdminSecret => true case TokenSecret => true
    case ShortAdminSecret => false
    case ApiDeployment => true case ApiService => true
    case OtelConfigMap => cfg.telemetry case OtelService => cfg.telemetry
    case ContentDeployment => true case ContentService => true
    case ProbeConfigMap => cfg.ipv6Off case WorkerDeployment => true
    case WebConfigMap => UsesWeb(cfg) case WebDeployment => UsesWeb(cfg)
    case WebService => UsesWeb(cfg)
    case IngressObject => UsesIngress(cfg)
  }

  /** The objects that are compared on every pass; the others are only created. */
  predicate Repairable(cfg: Config, o: Obj) {
    && Needed(cfg, o)
    && match o
       case CaBundle => false case ServiceAccount => false case Role => false case RoleBinding => false
       case DbSecret => false case FilePVC => false case DjangoSecret => false case FieldsSecret => false
       case AdminSecret => false case TokenSecret => false case ShortAdminSecret => false case WebConfigMap => false
       case WebService => cfg.nodePortSet
       case _ => true
  }

  predicate StepOk(cfg: Config, st: Step) {
    && (st.Ensure? ==> Needed(cfg, st.obj) && st.obj != AdminSecret)
    && (st.Repair? ==> Repairable(cfg, st.obj))
    && (st == ExposeRoutes ==> cfg.exposure == Routes)
  }

  ghost predicate AllOk(cfg: Config, steps: seq<Step>) { forall st :: st in steps ==> StepOk(cfg, st) }

  lemma AllOkConcat(cfg: Config, a: seq<Step>, b: seq<Step>)
    requires AllOk(cfg, a) && AllOk(cfg, b)
    ensures AllOk(cfg, a + b)
  {
  }

  // ---- the order of the stages ----

  function StageOf(o: Obj): nat {
    match o
    case CaBundle => 0
    case ServiceAccount => 1 case Role => 1 case RoleBinding => 1
    case DbSecret => 2 case DbStatefulSet => 2 case DbService => 2
    case CachePVC => 3 case CacheService => 3 case CacheDeployment => 3
    case FilePVC => 4
    case DjangoSecret => 5 case ServerSecret => 5 case FieldsSecret => 5 case AdminSecret => 5 case ShortAdminSecret => 5 case TokenSecret => 5
    case ApiDeployment => 6 case ApiService => 6 case OtelConfigMap => 6 case OtelService => 6
    case ContentDeployment => 7 case ContentService => 7
    case ProbeConfigMap => 8 case WorkerDeployment => 8
    case WebConfigMap => 9 case WebDeployment => 9 case WebService => 9 case IngressObject => 9
  }

  function StageOfStep(st: Step): nat {
    match st
    case Ensure(o) => StageOf(o) case Repair(o) => StageOf(o)
    case SettleCache => 3 case FillNames => 4 case EnsureAdmin => 5 case CaTrigger => 5 case SigningTrigger => 6
    case ChangeType => 9 case ExposeRoutes => 9 case ChangeClass => 10 case Pdbs => 10 case RemoveTelemetry => 10
  }

  ghost predicate InStages(steps: seq<Step>, low: nat, high: nat) {
    && (forall i :: 0 <= i < |steps| ==> low <= StageOfStep(steps[i]) <= high)
    && (forall i, j :: 0 <= i < j < |steps| ==> StageOfStep(steps[i]) <= StageOfStep(steps[j]))
  }

  lemma StagesConcat(a: seq<Step>, b: seq<Step>, low: nat, mid: nat, high: nat)
    requires low <= mid <= high && InStages(a, low, mid) && InStages(b, mid, high)
    ensures InStages(a + b, low, high)
  {
  }

  /** All steps of a controller belong to one stage and to the configuration. */
  ghost predicate Section(cfg: Config, steps: seq<Step>, stage: nat) {
    forall st :: st in steps ==> StepOk(cfg, st) && StageOfStep(st) == stage
  }

  lemma SectionConcat(cfg: Config, a: seq<Step>, b: seq<Step>, stage: nat)
    requires Section(cfg, a, stage) && Section(cfg, b, stage)
    ensures Section(cfg, a + b, stage)
  {
  }

  lemma SectionIsInStages(cfg: Config, steps: seq<Step>, stage: nat)
    requires Section(cfg, steps, stage)
    ensures InStages(steps, stage, stage) && AllOk(cfg, steps)
  {
  }

  lemma FirstSections(cfg: Config)
    ensures Section(cfg, OcpSteps(cfg), 0) && Section(cfg, AccountSteps(), 1) && Section(cfg, DatabaseSteps(cfg), 2) && Section(cfg, FileSteps(cfg), 4)
  {
  }

  lemma CacheSection(cfg: Config)
    ensures Section(cfg, CacheSteps(cfg), 3)
  {
    var a := If(cfg.managedCache && cfg.cachePVC, [Ensure(CachePVC), Repair(CachePVC)]);
    var b := If(cfg.managedCache, [Ensure(CacheService), Repair(CacheService), Ensure(CacheDeployment), Repair(CacheDeployment)]);
    assert Section(cfg, a, 3);
    assert Section(cfg, b, 3);
    SectionConcat(cfg, a, b, 3);
    SectionConcat(cfg, a + b, [SettleCache], 3);
  }

  function NamedSecretSteps(): seq<Step> {
    [Ensure(DjangoSecret), Ensure(ServerSecret), Ensure(FieldsSecret), EnsureAdmin, Ensure(TokenSecret), Repair(ServerSecret)]
  }

  lemma SecretSection(cfg: Config)
    ensures Section(cfg, [FillNames], 4) && Section(cfg, NamedSecretSteps(), 5)
    ensures SecretSteps() == [FillNames] + NamedSecretSteps()
  {
  }

  lemma ApiSection(cfg: Config)
    ensures Section(cfg, ApiSteps(cfg), 6)
  {
    var a, b := [Ensure(ApiDeployment), Ensure(ApiService)], If(cfg.telemetry, [Ensure(OtelConfigMap), Ensure(OtelService)]);
    var c, d := [Repair(ApiDeployment), Repair(ApiService)], If(cfg.telemetry, [Repair(OtelConfigMap), Repair(OtelService)]);
    assert Section(cfg, a, 6);
    assert Section(cfg, b, 6);
    assert Section(cfg, c, 6);
    assert Section(cfg, d, 6);
    SectionConcat(cfg, a, b, 6);
    SectionConcat(cfg, a + b, c, 6);
    SectionConcat(cfg, a + b + c, d, 6);
  }

  lemma PodSections(cfg: Config)
    ensures Section(cfg, ContentSteps(), 7) && Section(cfg, WorkerSteps(cfg), 8)
  {
    var a, b := If(cfg.ipv6Off, [Ensure(ProbeConfigMap), Repair(ProbeConfigMap)]), [Ensure(WorkerDeployment), Repair(WorkerDeployment)];
    assert Section(cfg, a, 8);
    assert Section(cfg, b, 8);
    SectionConcat(cfg, a, b, 8);
  }

  lemma WebSection(cfg: Config)
    requires UsesWeb(cfg)
    ensures Section(cfg, WebSteps(cfg), 9)
  {
    var b, c := [Ensure(WebConfigMap), Ensure(WebDeployment), Repair(WebDeployment), Ensure(WebService)], If(cfg.nodePortSet, [Repair(WebService)]);
    assert Section(cfg, b, 9);
    assert Section(cfg, c, 9);
    SectionConcat(cfg, b, c, 9);
  }

  lemma ExposureSection(cfg: Config)
    ensures Section(cfg, ExposureSteps(cfg), 9)
  {
    var a, r := If(UsesIngress(cfg), [Ensure(IngressObject), Repair(IngressObject)]), If(cfg.exposure == Routes, [ExposeRoutes]);
    assert Section(cfg, a, 9);
    assert Section(cfg, r, 9);
    var w := If(UsesWeb(cfg), WebSteps(cfg));
    if UsesWeb(cfg) { WebSection(cfg); }
    SectionConcat(cfg, a, w, 9);
    SectionConcat(cfg, a + w, r, 9);
  }

  lemma SingleSections(cfg: Config)
    ensures Section(cfg, [CaTrigger], 5) && Section(cfg, [SigningTrigger], 6) && Section(cfg, [ChangeType], 9)
    ensures Section(cfg, [ChangeClass, Pdbs, RemoveTelemetry], 10)
  {
  }

  /** A pipeline so far, all of it of this configuration and in stage order. */
  ghost predicate Ordered(cfg: Config, steps: seq<Step>, high: nat) { AllOk(cfg, steps) && InStages(steps, 0, high) }

  lemma Next(cfg: Config, a: seq<Step>, b: seq<Step>, mid: nat, high: nat)
    requires Ordered(cfg, a, mid) && Section(cfg, b, high) && mid <= high
    ensures Ordered(cfg, a + b, high)
  {
    SectionIsInStages(cfg, b, high);
    assert InStages(b, mid, high);
    StagesConcat(a, b, 0, mid, high);
    AllOkConcat(cfg, a, b);
  }

  /** The pipeline before the Secret names are filled in, and after. */
  function Before(cfg: Config): seq<Step> {
    OcpSteps(cfg) + AccountSteps() + DatabaseSteps(cfg) + CacheSteps(cfg) + FileSteps(cfg)
  }

  lemma BeforeOrdered(cfg: Config)
    ensures Ordered(cfg, Before(cfg), 4)
  {
    FirstSections(cfg);
    CacheSection(cfg);
    SectionIsInStages(cfg, OcpSteps(cfg), 0);
    var a := OcpSteps(cfg);
    Next(cfg, a, AccountSteps(), 0, 1);
    Next(cfg, a + AccountSteps(), DatabaseSteps(cfg), 1, 2);
    Next(cfg, a + AccountSteps() + DatabaseSteps(cfg), CacheSteps(cfg), 2, 3);
    Next(cfg, a + AccountSteps() + DatabaseSteps(cfg) + CacheSteps(cfg), FileSteps(cfg), 3, 4);
  }

  lemma SecretsOrdered(cfg: Config)
    ensures Ordered(cfg, Before(cfg) + SecretSteps() + [CaTrigger], 5)
  {
    BeforeOrdered(cfg);
    SecretSection(cfg);
    SingleSections(cfg);
    Next(cfg, Before(cfg), [FillNames], 4, 4);
    Next(cfg, Before(cfg) + [FillNames], NamedSecretSteps(), 4, 5);
    assert Before(cfg) + [FillNames] + NamedSecretSteps() == Before(cfg) + SecretSteps();
    Next(cfg, Before(cfg) + SecretSteps(), [CaTrigger], 5, 5);
  }

  lemma TailOrdered(cfg: Config, a: seq<Step>)
    requires Ordered(cfg, a, 5)
    ensures Ordered(cfg, a + ApiSteps(cfg) + [SigningTrigger] + ContentSteps() + WorkerSteps(cfg) + [ChangeType] + ExposureSteps(cfg)
                         + [ChangeClass, Pdbs, RemoveTelemetry], 10)
  {
    SingleSections(cfg);
    ApiSection(cfg);
    PodSections(cfg);
    ExposureSection(cfg);
    Next(cfg, a, ApiSteps(cfg), 5, 6);
    var b := a + ApiSteps(cfg);
    Next(cfg, b, [SigningTrigger], 6, 6);
    var c := b + [SigningTrigger];
    Next(cfg, c, ContentSteps(), 6, 7);
    var d := c + ContentSteps();
    Next(cfg, d, WorkerSteps(cfg), 7, 8);
    var e := d + WorkerSteps(cfg);
    Next(cfg, e, [ChangeType], 8, 9);
    var f := e + [ChangeType];
    Next(cfg, f, ExposureSteps(cfg), 9, 9);
    Next(cfg, f + ExposureSteps(cfg), [ChangeClass, Pdbs, RemoveTelemetry], 9, 10);
  }

  /** The pipeline runs its stages in order. */
  lemma StepsOrdered(cfg: Config)
    ensures Ordered(cfg, Steps(cfg), 10)
  {
    SecretsOrdered(cfg);
    TailOrdered(cfg, Before(cfg) + SecretSteps() + [CaTrigger]);
  }

  // ---- what a pass that goes on has seen ----

  ghost predicate CleanIn(env: Env, cfg: Config, s: State, st: Step) {
    match st
    case Ensure(o) => o in s.store
    case EnsureAdmin => AdminSecret in s.store
    case Repair(o) => !Drifted(env, s, o)
    case FillNames => s.named
    case SettleCache => true
    case CaTrigger => s.ca == Unused || s.ca == Acted
    case SigningTrigger => s.signing == Unused || s.signing == Acted
    case ChangeType => s.kind == Settled
    case ExposeRoutes => s.routes
    case ChangeClass => !s.classPending
    case Pdbs => Pdb.DueSet(env.pdb, cfg.pdbs, s.pdbs) == {}
    case RemoveTelemetry => true
  }

  lemma QuietPdbs(env: Env, cfg: Config, s: State, order: seq<Component>)
    requires Sound(env) && Pdb.Covers(order) && !Pdb.Pass(env.pdb, cfg.pdbs, s.pdbs, order, Pdb.ALL).1
    ensures Pdb.DueSet(env.pdb, cfg.pdbs, Pdb.Pass(env.pdb, cfg.pdbs, s.pdbs, order, Pdb.ALL).0) == {}
  {
    Pdb.PassProgress(env.pdb, cfg.pdbs, s.pdbs, order, Pdb.ALL);
    assert Pdb.DueSet(env.pdb, cfg.pdbs, s.pdbs) == {};
  }

  /** A step that goes on is clean afterwards. */
  lemma GoingOnIsClean(env: Env, cfg: Config, s: State, st: Step, order: seq<Component>)
    requires Sound(env) && Pdb.Covers(order) && StepOk(cfg, st) && Do(env, cfg, s, st, order).result.Continue?
    ensures CleanIn(env, cfg, Do(env, cfg, s, st, order).state, st)
  {
    if st == Pdbs { QuietPdbs(env, cfg, s, order); }
  }

  lemma NamingKeepsClean(env: Env, cfg: Config, s: State, earlier: Step)
    requires !(earlier.Repair? && (earlier.obj in PULPCORE || earlier.obj == ServerSecret)) && CleanIn(env, cfg, s, earlier)
    ensures CleanIn(env, cfg, s.(named := true), earlier)
  {
  }

  lemma RemovalKeepsClean(env: Env, cfg: Config, s: State, st: Step, earlier: Step, order: seq<Component>)
    requires Silent(st) && StepOk(cfg, st) && StepOk(cfg, earlier)
    requires CleanIn(env, cfg, s, earlier)
    ensures CleanIn(env, cfg, Do(env, cfg, s, st, order).state, earlier)
  {
    RemovalIs(env, cfg, s, st, order);
    WithoutUnneededClean(env, cfg, s, Do(env, cfg, s, st, order).state, Gone(cfg, s, st), earlier);
  }

  lemma WithoutUnneededClean(env: Env, cfg: Config, s: State, t: State, gone: set<Obj>, earlier: Step)
    requires Removes(cfg, s, t, gone) && StepOk(cfg, earlier) && CleanIn(env, cfg, s, earlier)
    ensures CleanIn(env, cfg, t, earlier)
  {
    if earlier.Repair? {
      assert Want(env, t, earlier.obj) == Want(env, s, earlier.obj);
    } else if earlier == EnsureAdmin {
      assert Needed(cfg, AdminSecret);
    }
  }

  lemma PdbsKeepClean(env: Env, cfg: Config, s: State, earlier: Step, order: seq<Component>)
    requires Sound(env) && Pdb.Covers(order) && Do(env, cfg, s, Pdbs, order).result.Continue? && CleanIn(env, cfg, s, earlier)
    ensures CleanIn(env, cfg, Do(env, cfg, s, Pdbs, order).state, earlier)
  {
    QuietPdbs(env, cfg, s, order);
  }

  /** A step that goes on changes nothing an earlier clean step relied on. */
  lemma GoingOnKeepsClean(env: Env, cfg: Config, s: State, st: Step, earlier: Step, order: seq<Component>)
    requires Sound(env) && Pdb.Covers(order) && StepOk(cfg, st) && StepOk(cfg, earlier) && Do(env, cfg, s, st, order).result.Continue?
    requires st == FillNames ==> !(earlier.Repair? && (earlier.obj in PULPCORE || earlier.obj == ServerSecret))
    requires CleanIn(env, cfg, s, earlier)
    ensures CleanIn(env, cfg, Do(env, cfg, s, st, order).state, earlier)
  {
    match st
    case FillNames => NamingKeepsClean(env, cfg, s, earlier);
    case SettleCache => RemovalKeepsClean(env, cfg, s, st, earlier, order);
    case RemoveTelemetry => RemovalKeepsClean(env, cfg, s, st, earlier, order);
    case ExposeRoutes => RemovalKeepsClean(env, cfg, s, st, earlier, order);
    case Pdbs => PdbsKeepClean(env, cfg, s, earlier, order);
    case _ => assert Do(env, cfg, s, st, order).state == s;
  }

  lemma NamesComeFirst(cfg: Config, steps: seq<Step>, i: nat)
    requires Ordered(cfg, steps, 10) && i < |steps| - 1 && steps[|steps| - 1] == FillNames
    ensures !(steps[i].Repair? && (steps[i].obj in PULPCORE || steps[i].obj == ServerSecret))
  {
    assert StageOfStep(steps[i]) <= 4;
  }

  lemma OneMoreClean(env: Env, cfg: Config, u: State, steps: seq<Step>, order: seq<Component>)
    requires Sound(env) && Pdb.Covers(order) && Ordered(cfg, steps, 10) && steps != []
    requires forall i :: 0 <= i < |steps| - 1 ==> CleanIn(env, cfg, u, steps[i])
    requires Do(env, cfg, u, steps[|steps| - 1], order).result.Continue?
    ensures forall i :: 0 <= i < |steps| ==> CleanIn(env, cfg, Do(env, cfg, u, steps[|steps| - 1], order).state, steps[i])
  {
    var n := |steps| - 1;
    assert forall k :: 0 <= k < |steps| ==> steps[k] in steps;
    forall i | 0 <= i < |steps| ensures CleanIn(env, cfg, Do(env, cfg, u, steps[n], order).state, steps[i]) {
      if i == n {
        GoingOnIsClean(env, cfg, u, steps[n], order);
      } else {
        if steps[n] == FillNames { NamesComeFirst(cfg, steps, i); }
        GoingOnKeepsClean(env, cfg, u, steps[n], steps[i], order);
      }
    }
  }

  lemma PrefixOrdered(cfg: Config, steps: seq<Step>, i: nat)
    requires Ordered(cfg, steps, 10) && i <= |steps|
    ensures Ordered(cfg, steps[..i], 10)
  {
  }

  lemma {:induction false} PassedStepsAreClean(env: Env, cfg: Config, s: State, steps: seq<Step>, order: seq<Component>)
    requires Sound(env) && Pdb.Covers(order) && Ordered(cfg, steps, 10)
    requires Exec(env, cfg, s, steps, order).result.Continue?
    ensures forall i :: 0 <= i < |steps| ==> CleanIn(env, cfg, Exec(env, cfg, s, steps, order).state, steps[i])
    decreases |steps|
  {
    if steps != [] {
      var n := |steps| - 1;
      PrefixOrdered(cfg, steps, n);
      LastStep(env, cfg, s, steps, order);
      PassedStepsAreClean(env, cfg, s, steps[..n], order);
      OneMoreClean(env, cfg, Exec(env, cfg, s, steps[..n], order).state, steps, order);
    }
  }

  lemma LastStep(env: Env, cfg: Config, s: State, steps: seq<Step>, order: seq<Component>)
    requires steps != []
    ensures var a := Exec(env, cfg, s, steps[..|steps| - 1], order);
      Exec(env, cfg, s, steps, order) == if a.result.Continue? then Do(env, cfg, a.state, steps[|steps| - 1], order) else a
  {
    var n := |steps| - 1;
    assert steps == steps[..n] + [steps[n]];
    ExecAppend(env, cfg, s, steps[..n], [steps[n]], order);
    var a := Exec(env, cfg, s, steps[..n], order);
    if a.result.Continue? { OneStep(env, cfg, a.state, steps[n], order); }
  }

  lemma OneStep(env: Env, cfg: Config, s: State, st: Step, order: seq<Component>)
    ensures Exec(env, cfg, s, [st], order) == Do(env, cfg, s, st, order)
  {
    assert [st][1..] == [];
  }

  lemma PassedStepIsClean(env: Env, cfg: Config, s: State, steps: seq<Step>, order: seq<Component>, st: Step)
    requires Sound(env) && Pdb.Covers(order) && Ordered(cfg, steps, 10) && st in steps
    requires Exec(env, cfg, s, steps, order).result.Continue?
    ensures CleanIn(env, cfg, Exec(env, cfg, s, steps, order).state, st)
  {
    PassedStepsAreClean(env, cfg, s, steps, order);
  }

  // ---- every needed object has its step ----

  lemma PartsOfSteps(cfg: Config, st: Step)
    requires || st in OcpSteps(cfg) || st in AccountSteps() || st in DatabaseSteps(cfg) || st in CacheSteps(cfg) || st in FileSteps(cfg)
             || st in SecretSteps() || st in ApiSteps(cfg) || st in ContentSteps() || st in WorkerSteps(cfg) || st in ExposureSteps(cfg)
             || st in [CaTrigger] || st in [SigningTrigger] || st in [ChangeType] || st in [ChangeClass, Pdbs, RemoveTelemetry]
    ensures st in Steps(cfg)
  {
    var a := Before(cfg);
    assert st in OcpSteps(cfg) || st in AccountSteps() || st in DatabaseSteps(cfg) || st in CacheSteps(cfg) || st in FileSteps(cfg) ==> st in a;
    var b := a + SecretSteps() + [CaTrigger];
    assert st in a || st in SecretSteps() || st in [CaTrigger] ==> st in b;
  }

  lemma FirstStepsExist(cfg: Config, o: Obj)
    requires Needed(cfg, o) && StageOf(o) in {0, 1, 2, 4}
    ensures Ensure(o) in OcpSteps(cfg) || Ensure(o) in AccountSteps() || Ensure(o) in DatabaseSteps(cfg) || Ensure(o) in FileSteps(cfg)
    ensures Repairable(cfg, o) ==> Repair(o) in DatabaseSteps(cfg)
  {
    if StageOf(o) == 2 {
      var d := DatabaseSteps(cfg);
      assert d[0] == Ensure(DbSecret) && d[1] == Ensure(DbStatefulSet) && d[2] == Repair(DbStatefulSet) && d[3] == Ensure(DbService) && d[4] == Repair(DbService);
    } else if StageOf(o) == 1 {
      var a := AccountSteps();
      assert a[0] == Ensure(ServiceAccount) && a[1] == Ensure(Role) && a[2] == Ensure(RoleBinding);
    } else if StageOf(o) == 0 {
      assert OcpSteps(cfg)[0] == Ensure(CaBundle);
    } else {
      assert FileSteps(cfg)[0] == Ensure(FilePVC);
    }
  }

  lemma CacheStepsExist(cfg: Config, o: Obj)
    requires Needed(cfg, o) && StageOf(o) == 3
    ensures Ensure(o) in CacheSteps(cfg) && Repair(o) in CacheSteps(cfg)
  {
    var a := If(cfg.managedCache && cfg.cachePVC, [Ensure(CachePVC), Repair(CachePVC)]);
    var b := If(cfg.managedCache, [Ensure(CacheService), Repair(CacheService), Ensure(CacheDeployment), Repair(CacheDeployment)]);
    assert b[0] == Ensure(CacheService) && b[1] == Repair(CacheService) && b[2] == Ensure(CacheDeployment) && b[3] == Repair(CacheDeployment);
    if o == CachePVC { assert a[0] == Ensure(CachePVC) && a[1] == Repair(CachePVC); }
    assert forall st :: st in a || st in b ==> st in CacheSteps(cfg);
  }

  lemma SecretStepsExist(cfg: Config, o: Obj)
    requires Needed(cfg, o) && StageOf(o) == 5
    ensures if o == AdminSecret then EnsureAdmin in SecretSteps() else Ensure(o) in SecretSteps()
    ensures Repairable(cfg, o) ==> Repair(o) in SecretSteps()
  {
    var a := SecretSteps();
    assert a[1] == Ensure(DjangoSecret) && a[2] == Ensure(ServerSecret) && a[3] == Ensure(FieldsSecret) && a[4] == EnsureAdmin
        && a[5] == Ensure(TokenSecret) && a[6] == Repair(ServerSecret);
  }

  lemma ApiStepsExist(cfg: Config, o: Obj)
    requires Needed(cfg, o) && StageOf(o) == 6
    ensures Ensure(o) in ApiSteps(cfg) && Repair(o) in ApiSteps(cfg)
  {
    var a, b := [Ensure(ApiDeployment), Ensure(ApiService)], If(cfg.telemetry, [Ensure(OtelConfigMap), Ensure(OtelService)]);
    var c, d := [Repair(ApiDeployment), Repair(ApiService)], If(cfg.telemetry, [Repair(OtelConfigMap), Repair(OtelService)]);
    assert ApiSteps(cfg) == a + b + c + d;
    assert a[0] == Ensure(ApiDeployment) && a[1] == Ensure(ApiService) && c[0] == Repair(ApiDeployment) && c[1] == Repair(ApiService);
    if cfg.telemetry {
      assert b[0] == Ensure(OtelConfigMap) && b[1] == Ensure(OtelService) && d[0] == Repair(OtelConfigMap) && d[1] == Repair(OtelService);
    }
    assert forall st :: st in a || st in b || st in c || st in d ==> st in a + b + c + d;
  }

  lemma PodStepsExist(cfg: Config, o: Obj)
    requires Needed(cfg, o) && (StageOf(o) == 7 || StageOf(o) == 8)
    ensures Ensure(o) in ContentSteps() || Ensure(o) in WorkerSteps(cfg)
    ensures Repair(o) in ContentSteps() || Repair(o) in WorkerSteps(cfg)
  {
    var c := ContentSteps();
    assert c[0] == Ensure(ContentDeployment) && c[1] == Ensure(ContentService) && c[2] == Repair(ContentDeployment) && c[3] == Repair(ContentService);
    var a, b := If(cfg.ipv6Off, [Ensure(ProbeConfigMap), Repair(ProbeConfigMap)]), [Ensure(WorkerDeployment), Repair(WorkerDeployment)];
    assert b[0] == Ensure(WorkerDeployment) && b[1] == Repair(WorkerDeployment);
    if cfg.ipv6Off { assert a[0] == Ensure(ProbeConfigMap) && a[1] == Repair(ProbeConfigMap); }
    assert forall st :: st in a || st in b ==> st in WorkerSteps(cfg);
  }

  lemma ExposureStepsExist(cfg: Config, o: Obj)
    requires Needed(cfg, o) && StageOf(o) == 9
    ensures Ensure(o) in ExposureSteps(cfg)
    ensures Repairable(cfg, o) ==> Repair(o) in ExposureSteps(cfg)
  {
    var a, w := If(UsesIngress(cfg), [Ensure(IngressObject), Repair(IngressObject)]), If(UsesWeb(cfg), WebSteps(cfg));
    assert ExposureSteps(cfg) == a + w + If(cfg.exposure == Routes, [ExposeRoutes]);
    if o == IngressObject {
      assert a[0] == Ensure(IngressObject) && a[1] == Repair(IngressObject);
    } else {
      var b, c := [Ensure(WebConfigMap), Ensure(WebDeployment), Repair(WebDeployment), Ensure(WebService)], If(cfg.nodePortSet, [Repair(WebService)]);
      assert w == b + c;
      assert b[0] == Ensure(WebConfigMap) && b[1] == Ensure(WebDeployment) && b[2] == Repair(WebDeployment) && b[3] == Ensure(WebService);
      if cfg.nodePortSet { assert c[0] == Repair(WebService); }
      assert forall st :: st in b || st in c ==> st in w;
    }
    assert forall st :: st in a || st in w ==> st in ExposureSteps(cfg);
  }

  function EnsureStep(o: Obj): Step { if o == AdminSecret then EnsureAdmin else Ensure(o) }

  lemma StepsExist(cfg: Config, o: Obj)
    requires Needed(cfg, o)
    ensures EnsureStep(o) in Steps(cfg) && StageOfStep(EnsureStep(o)) == StageOf(o)
    ensures Repairable(cfg, o) ==> Repair(o) in Steps(cfg)
  {
    var k := StageOf(o);
    if k == 3 { CacheStepsExist(cfg, o); }
    else if k == 5 { SecretStepsExist(cfg, o); }
    else if k == 6 { ApiStepsExist(cfg, o); }
    else if k == 7 || k == 8 { PodStepsExist(cfg, o); }
    else if k == 9 { ExposureStepsExist(cfg, o); }
    else { FirstStepsExist(cfg, o); }
    PartsOfSteps(cfg, EnsureStep(o));
    if Repairable(cfg, o) { PartsOfSteps(cfg, Repair(o)); }
  }

  // ---- stage order ----

  /** Where a pass that did not go on stopped. */
  lemma {:induction false} StoppedAt(env: Env, cfg: Config, s: State, steps: seq<Step>, order: seq<Component>) returns (i: nat)
    requires !Exec(env, cfg, s, steps, order).result.Continue?
    ensures i < |steps| && Exec(env, cfg, s, steps[..i], order).result.Continue?
    ensures Exec(env, cfg, s, steps, order) == Do(env, cfg, Exec(env, cfg, s, steps[..i], order).state, steps[i], order)
    decreases |steps|
  {
    var a := Do(env, cfg, s, steps[0], order);
    if a.result.Continue? {
      var j := StoppedAt(env, cfg, a.state, steps[1..], order);
      i := j + 1;
      assert steps[..i][0] == steps[0] && steps[..i][1..] == steps[1..][..j];
    } else {
      i := 0;
      assert steps[..0] == [];
    }
  }

  /** The object a step writes. */
  lemma WritesItsObject(env: Env, cfg: Config, s: State, st: Step, order: seq<Component>, o: Obj)
    requires Do(env, cfg, s, st, order).result == Requeue(Some(o))
    ensures StageOf(o) == StageOfStep(st)
    ensures forall p :: p != o ==> (p in Do(env, cfg, s, st, order).state.store <==> p in s.store)
    ensures forall p :: p != o && p in s.store ==> Do(env, cfg, s, st, order).state.store[p] == s.store[p]
    ensures Do(env, cfg, s, st, order).state.named == s.named
  {
  }

  /** A drift check of an earlier stage does not see the write. */
  lemma EarlierWantsSame(env: Env, s: State, t: State, p: Obj, o: Obj)
    requires StageOf(p) < StageOf(o) && t.named == s.named
    requires forall q :: q != o ==> Get(t, q) == Get(s, q)
    requires p in PULPCORE ==> t.restarts == s.restarts
    ensures Want(env, t, p) == Want(env, s, p)
  {
    if p == ServerSecret {
      assert StageOf(DbSecret) < StageOf(o) && StageOf(DjangoSecret) < StageOf(o);
      assert Get(t, DbSecret) == Get(s, DbSecret) && Get(t, DjangoSecret) == Get(s, DjangoSecret);
    }
  }

  lemma RestartsOnlyFromServer(env: Env, cfg: Config, s: State, st: Step, order: seq<Component>, o: Obj)
    requires Do(env, cfg, s, st, order).result == Requeue(Some(o)) && o != ServerSecret
    ensures Do(env, cfg, s, st, order).state.restarts == s.restarts
  {
  }

  /** What an earlier drift check reads is untouched by a write. */
  ghost predicate EarlierUntouched(s: State, t: State, o: Obj) {
    && t.named == s.named
    && (o != ServerSecret ==> t.restarts == s.restarts)
    && forall q :: q != o ==> Get(t, q) == Get(s, q)
  }

  lemma WritesTouchNoEarlier(env: Env, cfg: Config, s: State, st: Step, order: seq<Component>, o: Obj)
    requires Do(env, cfg, s, st, order).result == Requeue(Some(o))
    ensures EarlierUntouched(s, Do(env, cfg, s, st, order).state, o)
  {
    WritesItsObject(env, cfg, s, st, order, o);
    if o != ServerSecret { RestartsOnlyFromServer(env, cfg, s, st, order, o); }
  }

  lemma UntouchedStaysClean(env: Env, s: State, t: State, o: Obj, p: Obj)
    requires EarlierUntouched(s, t, o) && StageOf(p) < StageOf(o) && p in s.store && !Drifted(env, s, p)
    ensures p in t.store && !Drifted(env, t, p)
  {
    if p in PULPCORE { assert StageOf(ServerSecret) < StageOf(p); }
    EarlierWantsSame(env, s, t, p, o);
    SameMeansClean(env, s, t, p);
  }

  lemma SameMeansClean(env: Env, s: State, t: State, p: Obj)
    requires Want(env, t, p) == Want(env, s, p) && Get(t, p) == Get(s, p) && p in s.store && !Drifted(env, s, p)
    ensures p in t.store && !Drifted(env, t, p)
  {
  }

  lemma EarlierStaysClean(env: Env, cfg: Config, u: State, st: Step, order: seq<Component>, o: Obj, p: Obj)
    requires Do(env, cfg, u, st, order).result == Requeue(Some(o))
    requires StageOf(p) < StageOf(o) && p in u.store && !Drifted(env, u, p)
    ensures p in Do(env, cfg, u, st, order).state.store && !Drifted(env, Do(env, cfg, u, st, order).state, p)
  {
    WritesTouchNoEarlier(env, cfg, u, st, order, o);
    UntouchedStaysClean(env, u, Do(env, cfg, u, st, order).state, o, p);
  }

  /** The state in which a pass found the object it wrote. */
  ghost predicate StoppedIn(env: Env, cfg: Config, s: State, order: seq<Component>, i: nat) {
    && i < |Steps(cfg)| && Exec(env, cfg, s, Steps(cfg)[..i], order).result.Continue?
    && Pipeline(env, cfg, s, order) == Do(env, cfg, Exec(env, cfg, s, Steps(cfg)[..i], order).state, Steps(cfg)[i], order)
  }

  lemma EarlierIsClean(env: Env, cfg: Config, s: State, order: seq<Component>, i: nat, p: Obj)
    requires Sound(env) && Pdb.Covers(order) && StoppedIn(env, cfg, s, order, i)
    requires Needed(cfg, p) && StageOf(p) < StageOfStep(Steps(cfg)[i])
    ensures var u := Exec(env, cfg, s, Steps(cfg)[..i], order).state;
      p in u.store && (Repairable(cfg, p) ==> !Drifted(env, u, p))
  {
    StepsOrdered(cfg);
    StepsExist(cfg, p);
    CleanInPrefix(env, cfg, s, Steps(cfg), order, i, EnsureStep(p));
    if Repairable(cfg, p) { CleanInPrefix(env, cfg, s, Steps(cfg), order, i, Repair(p)); }
  }

  lemma CleanInPrefix(env: Env, cfg: Config, s: State, steps: seq<Step>, order: seq<Component>, i: nat, st: Step)
    requires Sound(env) && Pdb.Covers(order) && Ordered(cfg, steps, 10) && i < |steps|
    requires Exec(env, cfg, s, steps[..i], order).result.Continue?
    requires st in steps && StageOfStep(st) < StageOfStep(steps[i])
    ensures CleanIn(env, cfg, Exec(env, cfg, s, steps[..i], order).state, st)
  {
    PrefixOrdered(cfg, steps, i);
    EarlierInPrefix(steps, i, st);
    PassedStepIsClean(env, cfg, s, steps[..i], order, st);
  }

  /** Steps that go on write nothing. */
  lemma GoingOnOnlyRemoves(env: Env, cfg: Config, s: State, st: Step, order: seq<Component>, q: Obj)
    requires Do(env, cfg, s, st, order).result.Continue? && q in Do(env, cfg, s, st, order).state.store
    ensures q in s.store && Do(env, cfg, s, st, order).state.store[q] == s.store[q]
  {
  }

  lemma {:induction false} PassedStepsOnlyRemove(env: Env, cfg: Config, s: State, steps: seq<Step>, order: seq<Component>, q: Obj)
    requires Exec(env, cfg, s, steps, order).result.Continue? && q in Exec(env, cfg, s, steps, order).state.store
    ensures q in s.store && Exec(env, cfg, s, steps, order).state.store[q] == s.store[q]
    decreases |steps|
  {
    if steps != [] {
      PassedStepsOnlyRemove(env, cfg, Do(env, cfg, s, steps[0], order).state, steps[1..], order, q);
      GoingOnOnlyRemoves(env, cfg, s, steps[0], order, q);
    }
  }

  /** Stage order: when a pass creates or updates an object, every object the
      configuration needs from an earlier stage was there before the pass, is
      untouched by it, and passes its own drift check in it. */
  lemma StageOrder(env: Env, cfg: Config, s: State, order: seq<Component>, o: Obj, p: Obj)
    requires Sound(env) && Pdb.Covers(order)
    requires Pipeline(env, cfg, s, order).result == Requeue(Some(o))
    requires Needed(cfg, p) && StageOf(p) < StageOf(o)
    ensures p in s.store && p in Pipeline(env, cfg, s, order).state.store && Pipeline(env, cfg, s, order).state.store[p] == s.store[p]
    ensures Repairable(cfg, p) ==> !Drifted(env, Pipeline(env, cfg, s, order).state, p)
  {
    var i := StoppedAt(env, cfg, s, Steps(cfg), order);
    var u := Exec(env, cfg, s, Steps(cfg)[..i], order).state;
    WritesItsObject(env, cfg, u, Steps(cfg)[i], order, o);
    EarlierIsClean(env, cfg, s, order, i, p);
    PassedStepsOnlyRemove(env, cfg, s, Steps(cfg)[..i], order, p);
    if Repairable(cfg, p) { EarlierStaysClean(env, cfg, u, Steps(cfg)[i], order, o, p); }
  }

  lemma EarlierInPrefix(steps: seq<Step>, i: nat, st: Step)
    requires InStages(steps, 0, 10) && i < |steps| && st in steps && StageOfStep(st) < StageOfStep(steps[i])
    ensures st in steps[..i]
  {
    var j :| 0 <= j < |steps| && steps[j] == st;
    assert steps[..i][j] == st;
  }

  // ---- convergence ----

  /** Nothing keeps the passes from ever going through: the CR's names agree, the
      objects it watches exist, and the exposure type can change. */
  predicate Blocked(cfg: Config, s: State) {
    || (cfg.adminShort && AdminSecret !in s.store)
    || s.ca == Missing || s.signing == Missing || s.kind == Stuck
  }

  function MissingObjects(cfg: Config, s: State): set<Obj> { set o: Obj | Needed(cfg, o) && o !in s.store }

  function DriftedObjects(env: Env, cfg: Config, s: State): set<Obj> {
    set o: Obj | Repairable(cfg, o) && o != ServerSecret && Drifted(env, s, o)
  }

  /** What is left to do, the most disruptive first: a step may add to a later
      component, never to an earlier one. */
  datatype Measure = Measure(names: nat, transitions: nat, missing: nat, restarts: nat, drift: nat, pdbs: nat)

  function One(b: bool): nat { if b then 1 else 0 }

  function Left(env: Env, cfg: Config, s: State): Measure {
    Measure(
      One(!s.named),
      2 * One(s.kind != Settled) + One(s.classPending),
      |MissingObjects(cfg, s)|,
      One(Drifted(env, s, ServerSecret)) + One(s.ca == Changed) + One(s.signing == Changed),
      |DriftedObjects(env, cfg, s)|,
      |Pdb.DueSet(env.pdb, cfg.pdbs, s.pdbs)|)
  }

  predicate Below(a: Measure, b: Measure) {
    || a.names < b.names
    || (a.names == b.names && a.transitions < b.transitions)
    || (a.names == b.names && a.transitions == b.transitions && a.missing < b.missing)
    || (a.names == b.names && a.transitions == b.transitions && a.missing == b.missing && a.restarts < b.restarts)
    || (a.names == b.names && a.transitions == b.transitions && a.missing == b.missing && a.restarts == b.restarts && a.drift < b.drift)
    || (a.names == b.names && a.transitions == b.transitions && a.missing == b.missing && a.restarts == b.restarts && a.drift == b.drift && a.pdbs < b.pdbs)
  }

  lemma BelowTransitive(a: Measure, b: Measure, c: Measure)
    requires Below(a, b) && Below(b, c)
    ensures Below(a, c)
  {
  }

  lemma {:induction false} SmallerSet<T>(a: set<T>, b: set<T>, x: T)
    requires a == b - {x} && x in b
    ensures |a| < |b|
  {
    assert b == a + {x};
  }

  lemma CreatingDecreases(env: Env, cfg: Config, s: State, o: Obj)
    requires Needed(cfg, o) && o !in s.store
    ensures Below(Left(env, cfg, Written(env, s, o)), Left(env, cfg, s))
  {
    SmallerSet(MissingObjects(cfg, Written(env, s, o)), MissingObjects(cfg, s), o);
  }

  lemma RepairKeepsWants(env: Env, s: State, o: Obj, p: Obj)
    requires o in s.store && o != DbSecret && o != DjangoSecret
    ensures Want(env, Written(env, s, o), p) == Want(env, s, p)
  {
  }

  lemma ServerRepairDecreases(env: Env, cfg: Config, s: State, order: seq<Component>)
    requires Sound(env) && Drifted(env, s, ServerSecret)
    ensures Below(Left(env, cfg, Do(env, cfg, s, Repair(ServerSecret), order).state), Left(env, cfg, s))
  {
    var t := Do(env, cfg, s, Repair(ServerSecret), order).state;
    RepairKeepsWants(env, s, ServerSecret, ServerSecret);
    assert MissingObjects(cfg, t) == MissingObjects(cfg, s);
    assert !Drifted(env, t, ServerSecret);
  }

  lemma ObjectRepairDecreases(env: Env, cfg: Config, s: State, o: Obj)
    requires Sound(env) && Repairable(cfg, o) && o != ServerSecret && Drifted(env, s, o)
    ensures Below(Left(env, cfg, Written(env, s, o)), Left(env, cfg, s))
  {
    var w := Written(env, s, o);
    forall p: Obj ensures Want(env, w, p) == Want(env, s, p) { RepairKeepsWants(env, s, o, p); }
    assert MissingObjects(cfg, w) == MissingObjects(cfg, s);
    SmallerSet(DriftedObjects(env, cfg, w), DriftedObjects(env, cfg, s), o);
  }

  lemma RepairingDecreases(env: Env, cfg: Config, s: State, o: Obj, order: seq<Component>)
    requires Sound(env) && Repairable(cfg, o) && Drifted(env, s, o)
    ensures Below(Left(env, cfg, Do(env, cfg, s, Repair(o), order).state), Left(env, cfg, s))
  {
    if o == ServerSecret { ServerRepairDecreases(env, cfg, s, order); } else { ObjectRepairDecreases(env, cfg, s, o); }
  }

  lemma RestartKeeps(env: Env, cfg: Config, s: State, t: State)
    requires t.store == s.store && t.named == s.named && t.kind == s.kind && t.classPending == s.classPending
    ensures MissingObjects(cfg, t) == MissingObjects(cfg, s) && Drifted(env, t, ServerSecret) == Drifted(env, s, ServerSecret)
  {
  }

  lemma TriggersDecrease(env: Env, cfg: Config, s: State, st: Step, order: seq<Component>)
    requires !Blocked(cfg, s) && (st == CaTrigger || st == SigningTrigger) && Do(env, cfg, s, st, order).result.Requeue?
    ensures Below(Left(env, cfg, Do(env, cfg, s, st, order).state), Left(env, cfg, s))
  {
    var t := Do(env, cfg, s, st, order).state;
    assert t.store == s.store && t.named == s.named && t.kind == s.kind && t.classPending == s.classPending;
    RestartKeeps(env, cfg, s, t);
    assert One(t.ca == Changed) + One(t.signing == Changed) < One(s.ca == Changed) + One(s.signing == Changed);
  }

  lemma OnlyPdbs(env: Env, cfg: Config, s: State, p: Pdb.State)
    ensures Left(env, cfg, s.(pdbs := p)) == Left(env, cfg, s).(pdbs := |Pdb.DueSet(env.pdb, cfg.pdbs, p)|)
  {
    var t := s.(pdbs := p);
    RestartKeeps(env, cfg, s, t);
    assert DriftedObjects(env, cfg, t) == DriftedObjects(env, cfg, s);
  }

  lemma PdbDecreases(env: Env, cfg: Config, s: State, order: seq<Component>)
    requires Sound(env)
    ensures var d := Do(env, cfg, s, Pdbs, order);
      if d.result.Continue? then Left(env, cfg, d.state) == Left(env, cfg, s) else Below(Left(env, cfg, d.state), Left(env, cfg, s))
  {
    var (p, requeue) := Pdb.Pass(env.pdb, cfg.pdbs, s.pdbs, order, Pdb.ALL);
    Pdb.PassProgress(env.pdb, cfg.pdbs, s.pdbs, order, Pdb.ALL);
    OnlyPdbs(env, cfg, s, p);
    var before, now := Pdb.DueSet(env.pdb, cfg.pdbs, s.pdbs), Pdb.DueSet(env.pdb, cfg.pdbs, p);
    if requeue {
      var c :| c in before && now == before - {c};
      SmallerSet(now, before, c);
    }
  }

  /** Only objects the configuration does not need are gone. */
  ghost predicate Removes(cfg: Config, s: State, t: State, gone: set<Obj>) {
    && t.store == s.store - gone && (forall o :: o in gone ==> !Needed(cfg, o) && o != DbSecret && o != DjangoSecret)
    && t.named == s.named && t.restarts == s.restarts && t.kind == s.kind && t.classPending == s.classPending
    && t.ca == s.ca && t.signing == s.signing && t.pdbs == s.pdbs && (s.routes ==> t.routes)
  }

  /** Removing objects the configuration does not need leaves as much to do. */
  lemma RemovalKeeps(env: Env, cfg: Config, s: State, t: State, gone: set<Obj>)
    requires Removes(cfg, s, t, gone)
    ensures Left(env, cfg, t) == Left(env, cfg, s)
  {
    assert MissingObjects(cfg, t) == MissingObjects(cfg, s);
    assert forall o: Obj :: Want(env, t, o) == Want(env, s, o);
    assert DriftedObjects(env, cfg, t) == DriftedObjects(env, cfg, s);
    assert Needed(cfg, ServerSecret);
  }

  function Gone(cfg: Config, s: State, st: Step): set<Obj> {
    match st
    case SettleCache => if cfg.managedCache || cfg.externalCache || !s.cacheManaged then {} else {CacheService, CacheDeployment}
    case RemoveTelemetry => if s.otelLeft && !cfg.telemetry then {OtelConfigMap, OtelService} else {}
    case ExposeRoutes => WEB
    case _ => {}
  }

  lemma GoneUnneeded(cfg: Config, s: State, st: Step, o: Obj)
    requires StepOk(cfg, st) && o in Gone(cfg, s, st)
    ensures !Needed(cfg, o) && o != DbSecret && o != DjangoSecret
  {
  }

  /** The objects the silent steps may take down. */
  const REMOVABLE: set<Obj> := {CacheService, CacheDeployment, OtelConfigMap, OtelService} + WEB

  predicate Silent(st: Step) { st == SettleCache || st == RemoveTelemetry || st == ExposeRoutes }

  /** What a silent step takes down. */
  lemma RemovalIs(env: Env, cfg: Config, s: State, st: Step, order: seq<Component>)
    requires Silent(st) && StepOk(cfg, st)
    ensures Removes(cfg, s, Do(env, cfg, s, st, order).state, Gone(cfg, s, st))
  {
    assert s.store - {} == s.store;
    forall o | o in Gone(cfg, s, st) ensures !Needed(cfg, o) && o != DbSecret && o != DjangoSecret { GoneUnneeded(cfg, s, st, o); }
  }

  lemma SilentStepsKeep(env: Env, cfg: Config, s: State, st: Step, order: seq<Component>)
    requires Silent(st) && StepOk(cfg, st)
    ensures Left(env, cfg, Do(env, cfg, s, st, order).state) == Left(env, cfg, s)
  {
    RemovalIs(env, cfg, s, st, order);
    RemovalKeeps(env, cfg, s, Do(env, cfg, s, st, order).state, Gone(cfg, s, st));
  }

  lemma TransitionsDecrease(env: Env, cfg: Config, s: State, st: Step, order: seq<Component>)
    requires (st == ChangeType || st == ChangeClass) && s.kind != Stuck && Do(env, cfg, s, st, order).result.Requeue?
    ensures Below(Left(env, cfg, Do(env, cfg, s, st, order).state), Left(env, cfg, s))
  {
    var t := Do(env, cfg, s, st, order).state;
    assert t.named == s.named;
    assert 2 * One(t.kind != Settled) + One(t.classPending) < 2 * One(s.kind != Settled) + One(s.classPending);
  }

  lemma FillingDecreases(env: Env, cfg: Config, s: State)
    ensures s.named ==> s.(named := true) == s
    ensures !s.named ==> Below(Left(env, cfg, s.(named := true)), Left(env, cfg, s))
  {
  }

  lemma StepDecreases(env: Env, cfg: Config, s: State, st: Step, order: seq<Component>)
    requires Sound(env) && StepOk(cfg, st) && !Blocked(cfg, s)
    ensures var d := Do(env, cfg, s, st, order);
      && !d.result.Failed?
      && (d.result.Continue? ==> Left(env, cfg, d.state) == Left(env, cfg, s) || Below(Left(env, cfg, d.state), Left(env, cfg, s)))
      && (d.result.Requeue? ==> Below(Left(env, cfg, d.state), Left(env, cfg, s)))
  {
    match st
    case Ensure(o) => if o !in s.store { CreatingDecreases(env, cfg, s, o); }
    case EnsureAdmin => if AdminSecret !in s.store { CreatingDecreases(env, cfg, s, AdminSecret); }
    case Repair(o) => if Drifted(env, s, o) { RepairingDecreases(env, cfg, s, o, order); }
    case FillNames => FillingDecreases(env, cfg, s);
    case SettleCache => SilentStepsKeep(env, cfg, s, st, order);
    case RemoveTelemetry => SilentStepsKeep(env, cfg, s, st, order);
    case ExposeRoutes => SilentStepsKeep(env, cfg, s, st, order);
    case CaTrigger => if Do(env, cfg, s, st, order).result.Requeue? { TriggersDecrease(env, cfg, s, st, order); }
    case SigningTrigger => if Do(env, cfg, s, st, order).result.Requeue? { TriggersDecrease(env, cfg, s, st, order); }
    case ChangeType => if Do(env, cfg, s, st, order).result.Requeue? { TransitionsDecrease(env, cfg, s, st, order); }
    case ChangeClass => if Do(env, cfg, s, st, order).result.Requeue? { TransitionsDecrease(env, cfg, s, st, order); }
    case Pdbs => PdbDecreases(env, cfg, s, order);
  }

  lemma WrittenElsewhere(env: Env, s: State, o: Obj)
    requires o != AdminSecret
    ensures AdminSecret in Written(env, s, o).store <==> AdminSecret in s.store
  {
  }

  lemma AdminNotWritten(env: Env, cfg: Config, s: State, st: Step, order: seq<Component>)
    requires (st.Ensure? || st.Repair? || st == EnsureAdmin) && StepOk(cfg, st) && (st == EnsureAdmin ==> cfg.adminShort)
    ensures AdminSecret in Do(env, cfg, s, st, order).state.store <==> AdminSecret in s.store
  {
    WrittenElsewhere(env, s, if st == EnsureAdmin then ShortAdminSecret else st.obj);
  }

  lemma AdminUnmoved(env: Env, cfg: Config, s: State, st: Step, order: seq<Component>)
    requires StepOk(cfg, st) && (st == EnsureAdmin ==> cfg.adminShort)
    ensures AdminSecret in Do(env, cfg, s, st, order).state.store <==> AdminSecret in s.store
  {
    if st.Ensure? || st.Repair? || st == EnsureAdmin {
      AdminNotWritten(env, cfg, s, st, order);
    } else if st == ChangeType || st == ChangeClass {
      AdminNotTakenDown(env, cfg, s, st, order);
    } else if Silent(st) {
      RemovalIs(env, cfg, s, st, order);
      assert Needed(cfg, AdminSecret);
    }
  }

  lemma AdminNotTakenDown(env: Env, cfg: Config, s: State, st: Step, order: seq<Component>)
    requires st == ChangeType || st == ChangeClass
    ensures AdminSecret in Do(env, cfg, s, st, order).state.store <==> AdminSecret in s.store
  {
    var t := Do(env, cfg, s, st, order).state;
    var gone := TransitionRemoves(env, cfg, s, st, order);
    assert AdminSecret !in gone;
  }

  lemma TransitionRemoves(env: Env, cfg: Config, s: State, st: Step, order: seq<Component>) returns (gone: set<Obj>)
    requires st == ChangeType || st == ChangeClass
    ensures gone <= {IngressObject} + WEB && Do(env, cfg, s, st, order).state.store == s.store - gone
  {
    if st == ChangeType {
      gone := TypeRemoves(cfg, s);
    } else {
      gone := if s.classPending then ClassGone(cfg) else {};
      assert s.store - {} == s.store;
    }
  }

  lemma TypeRemoves(cfg: Config, s: State) returns (gone: set<Obj>)
    ensures gone <= {IngressObject} + WEB && TypeChanged(cfg, s).store == s.store - gone
  {
    assert s.store - {} == s.store;
    gone := if s.kind == Stuck then {} else TypeGone(s.kind);
  }

  /** Creating and repairing move none of the flags. */
  lemma WritesMoveNoFlags(env: Env, cfg: Config, s: State, st: Step, order: seq<Component>)
    requires st.Ensure? || st.Repair? || st == EnsureAdmin
    ensures var t := Do(env, cfg, s, st, order).state;
      t.ca == s.ca && t.signing == s.signing && t.kind == s.kind
  {
  }

  predicate SameFlags(s: State, t: State) {
    (t.ca == Missing <==> s.ca == Missing) && (t.signing == Missing <==> s.signing == Missing) && (t.kind == Stuck <==> s.kind == Stuck)
  }

  lemma TypeMovesNoFlags(env: Env, cfg: Config, s: State, order: seq<Component>)
    ensures SameFlags(s, Do(env, cfg, s, ChangeType, order).state)
  {
  }

  lemma ClassMovesNoFlags(env: Env, cfg: Config, s: State, order: seq<Component>)
    ensures SameFlags(s, Do(env, cfg, s, ChangeClass, order).state)
  {
  }

  lemma OthersMoveNoFlags(env: Env, cfg: Config, s: State, order: seq<Component>)
    ensures SameFlags(s, Do(env, cfg, s, FillNames, order).state) && SameFlags(s, Do(env, cfg, s, Pdbs, order).state)
  {
  }

  lemma CaMovesNoFlags(env: Env, cfg: Config, s: State, order: seq<Component>)
    ensures SameFlags(s, Do(env, cfg, s, CaTrigger, order).state)
  {
  }

  lemma SigningMovesNoFlags(env: Env, cfg: Config, s: State, order: seq<Component>)
    ensures SameFlags(s, Do(env, cfg, s, SigningTrigger, order).state)
  {
  }

  /** What blocks besides the admin Secret's name is neither made nor removed. */
  lemma FlagsUnmoved(env: Env, cfg: Config, s: State, st: Step, order: seq<Component>)
    requires StepOk(cfg, st)
    ensures SameFlags(s, Do(env, cfg, s, st, order).state)
  {
    if st.Ensure? || st.Repair? || st == EnsureAdmin {
      WritesMoveNoFlags(env, cfg, s, st, order);
    } else if Silent(st) {
      RemovalIs(env, cfg, s, st, order);
    } else {
      TypeMovesNoFlags(env, cfg, s, order);
      ClassMovesNoFlags(env, cfg, s, order);
      CaMovesNoFlags(env, cfg, s, order);
      SigningMovesNoFlags(env, cfg, s, order);
      OthersMoveNoFlags(env, cfg, s, order);
    }
  }

  /** What blocks is neither made nor removed by a step. */
  lemma BlockedStays(env: Env, cfg: Config, s: State, st: Step, order: seq<Component>)
    requires StepOk(cfg, st)
    ensures Blocked(cfg, Do(env, cfg, s, st, order).state) == Blocked(cfg, s)
  {
    FlagsUnmoved(env, cfg, s, st, order);
    if cfg.adminShort { AdminUnmoved(env, cfg, s, st, order); }
  }

  lemma {:induction false} BlockedStaysBlocked(env: Env, cfg: Config, s: State, steps: seq<Step>, order: seq<Component>)
    requires AllOk(cfg, steps)
    ensures Blocked(cfg, Exec(env, cfg, s, steps, order).state) == Blocked(cfg, s)
    decreases |steps|
  {
    if steps != [] {
      assert steps[0] in steps;
      BlockedStays(env, cfg, s, steps[0], order);
      var a := Do(env, cfg, s, steps[0], order);
      if a.result.Continue? { BlockedStaysBlocked(env, cfg, a.state, steps[1..], order); }
    }
  }

  lemma {:induction false} ExecDecreases(env: Env, cfg: Config, s: State, steps: seq<Step>, order: seq<Component>)
    requires Sound(env) && AllOk(cfg, steps) && !Blocked(cfg, s)
    ensures var d := Exec(env, cfg, s, steps, order);
      && !d.result.Failed?
      && (d.result.Continue? ==> Left(env, cfg, d.state) == Left(env, cfg, s) || Below(Left(env, cfg, d.state), Left(env, cfg, s)))
      && (d.result.Requeue? ==> Below(Left(env, cfg, d.state), Left(env, cfg, s)))
    decreases |steps|
  {
    if steps != [] {
      assert steps[0] in steps;
      StepDecreases(env, cfg, s, steps[0], order);
      BlockedStays(env, cfg, s, steps[0], order);
      var a := Do(env, cfg, s, steps[0], order);
      if a.result.Continue? {
        ExecDecreases(env, cfg, a.state, steps[1..], order);
        var d := Exec(env, cfg, a.state, steps[1..], order);
        if Below(Left(env, cfg, d.state), Left(env, cfg, a.state)) && Below(Left(env, cfg, a.state), Left(env, cfg, s)) {
          BelowTransitive(Left(env, cfg, d.state), Left(env, cfg, a.state), Left(env, cfg, s));
        }
      }
    }
  }

  lemma PipelineDecreases(env: Env, cfg: Config, s: State, order: seq<Component>)
    requires Sound(env) && !Blocked(cfg, s)
    ensures var d := Pipeline(env, cfg, s, order);
      && !d.result.Failed? && !Blocked(cfg, d.state)
      && (d.result.Continue? ==> Left(env, cfg, d.state) == Left(env, cfg, s) || Below(Left(env, cfg, d.state), Left(env, cfg, s)))
      && (d.result.Requeue? ==> Below(Left(env, cfg, d.state), Left(env, cfg, s)))
  {
    StepsOrdered(cfg);
    ExecDecreases(env, cfg, s, Steps(cfg), order);
    BlockedStaysBlocked(env, cfg, s, Steps(cfg), order);
  }

  /** The text of the server Secret is the same whichever flag is looked at
      first. */
  ghost predicate OrderFree(w: World) { forall d, k :: w.env.server(d, k) == w.hideFirst(d, k) }

  /** It never is. */
  ghost predicate Divergent(w: World) { forall d, k :: w.env.server(d, k) != w.hideFirst(d, k) }

  lemma OrderFreeWants(w: World, s: State, first: bool, o: Obj)
    requires OrderFree(w)
    ensures Want(At(w, first), s, o) == Want(w.env, s, o) && Drifted(At(w, first), s, o) == Drifted(w.env, s, o)
  {
  }

  lemma OrderFreeLeft(w: World, cfg: Config, s: State, first: bool)
    requires OrderFree(w)
    ensures Left(At(w, first), cfg, s) == Left(w.env, cfg, s)
  {
    forall o: Obj ensures Drifted(At(w, first), s, o) == Drifted(w.env, s, o) { OrderFreeWants(w, s, first, o); }
    assert DriftedObjects(At(w, first), cfg, s) == DriftedObjects(w.env, cfg, s);
  }

  /** Every pass that asks to be called again has less left to do, when the text
      of the server Secret does not depend on the order of the flags. */
  lemma RequeueDecreases(w: World, cfg: Config, s: State, ch: Choice)
    requires Sound(w.env) && OrderFree(w) && !Blocked(cfg, s)
    ensures var d := Pass(w, cfg, s, ch);
      && !d.result.Failed? && !Blocked(cfg, d.state)
      && (d.result.Continue? ==> Left(w.env, cfg, d.state) == Left(w.env, cfg, s) || Below(Left(w.env, cfg, d.state), Left(w.env, cfg, s)))
      && (d.result.Requeue? ==> Below(Left(w.env, cfg, d.state), Left(w.env, cfg, s)))
  {
    PipelineDecreases(At(w, ch.redirectFirst), cfg, s, ch.pdbs);
    OrderFreeLeft(w, cfg, s, ch.redirectFirst);
    OrderFreeLeft(w, cfg, Pass(w, cfg, s, ch).state, ch.redirectFirst);
  }

  // ---- the synced state ----

  /** No create, update or transition is left. */
  ghost predicate Synced(env: Env, cfg: Config, s: State) {
    && s.named && s.kind == Settled && !s.classPending && (cfg.exposure == Routes ==> s.routes)
    && (s.ca == Unused || s.ca == Acted) && (s.signing == Unused || s.signing == Acted)
    && (forall o: Obj :: Needed(cfg, o) ==> o in s.store)
    && (forall o: Obj :: Repairable(cfg, o) ==> !Drifted(env, s, o))
    && Pdb.DueSet(env.pdb, cfg.pdbs, s.pdbs) == {}
  }

  lemma TransitionStepsExist(cfg: Config)
    ensures FillNames in Steps(cfg) && CaTrigger in Steps(cfg) && SigningTrigger in Steps(cfg)
    ensures ChangeType in Steps(cfg) && ChangeClass in Steps(cfg) && Pdbs in Steps(cfg)
    ensures cfg.exposure == Routes ==> ExposeRoutes in Steps(cfg)
  {
    assert SecretSteps()[0] == FillNames;
    PartsOfSteps(cfg, FillNames);
    PartsOfSteps(cfg, CaTrigger);
    PartsOfSteps(cfg, SigningTrigger);
    PartsOfSteps(cfg, ChangeType);
    PartsOfSteps(cfg, ChangeClass);
    PartsOfSteps(cfg, Pdbs);
    if cfg.exposure == Routes {
      assert ExposureSteps(cfg) == [] + [] + [ExposeRoutes];
      PartsOfSteps(cfg, ExposeRoutes);
    }
  }

  lemma RestingHasObjects(env: Env, cfg: Config, s: State, order: seq<Component>, o: Obj)
    requires Sound(env) && Pdb.Covers(order) && Pipeline(env, cfg, s, order).result.Continue? && Needed(cfg, o)
    ensures o in Pipeline(env, cfg, s, order).state.store
    ensures Repairable(cfg, o) ==> !Drifted(env, Pipeline(env, cfg, s, order).state, o)
  {
    StepsOrdered(cfg);
    StepsExist(cfg, o);
    PassedStepIsClean(env, cfg, s, Steps(cfg), order, EnsureStep(o));
    if Repairable(cfg, o) { PassedStepIsClean(env, cfg, s, Steps(cfg), order, Repair(o)); }
  }

  lemma RestingHasNoTransitions(env: Env, cfg: Config, s: State, order: seq<Component>)
    requires Sound(env) && Pdb.Covers(order) && Pipeline(env, cfg, s, order).result.Continue?
    ensures var t := Pipeline(env, cfg, s, order).state;
      && t.named && t.kind == Settled && !t.classPending && (cfg.exposure == Routes ==> t.routes)
      && (t.ca == Unused || t.ca == Acted) && (t.signing == Unused || t.signing == Acted)
      && Pdb.DueSet(env.pdb, cfg.pdbs, t.pdbs) == {}
  {
    StepsOrdered(cfg);
    TransitionStepsExist(cfg);
    PassedStepIsClean(env, cfg, s, Steps(cfg), order, FillNames);
    PassedStepIsClean(env, cfg, s, Steps(cfg), order, CaTrigger);
    PassedStepIsClean(env, cfg, s, Steps(cfg), order, SigningTrigger);
    PassedStepIsClean(env, cfg, s, Steps(cfg), order, ChangeType);
    PassedStepIsClean(env, cfg, s, Steps(cfg), order, ChangeClass);
    PassedStepIsClean(env, cfg, s, Steps(cfg), order, Pdbs);
    if cfg.exposure == Routes { PassedStepIsClean(env, cfg, s, Steps(cfg), order, ExposeRoutes); }
  }

  /** A pass that goes through to the end leaves a synced state. */
  lemma RestingIsSynced(env: Env, cfg: Config, s: State, order: seq<Component>)
    requires Sound(env) && Pdb.Covers(order) && Pipeline(env, cfg, s, order).result.Continue?
    ensures Synced(env, cfg, Pipeline(env, cfg, s, order).state)
  {
    RestingHasNoTransitions(env, cfg, s, order);
    forall o: Obj | Needed(cfg, o)
      ensures o in Pipeline(env, cfg, s, order).state.store && (Repairable(cfg, o) ==> !Drifted(env, Pipeline(env, cfg, s, order).state, o))
    {
      RestingHasObjects(env, cfg, s, order, o);
    }
  }

  /** Why the order of the measure matters: repairing the server Secret repairs
      one object and puts all three pulpcore Deployments out of date. */
  lemma ServerRepairCausesDrift(env: Env, cfg: Config, s: State, o: Obj, order: seq<Component>)
    requires Drifted(env, s, ServerSecret) && o in PULPCORE && o in s.store
    requires !env.matches(env.core(o, s.named, s.restarts + 1), s.store[o])
    ensures var t := Do(env, cfg, s, Repair(ServerSecret), order).state;
      Drifted(env, t, o) && Do(env, cfg, t, CaTrigger, order).state.restarts >= s.restarts + 1
  {
  }

  /** The Service of pulp-web is outside the drift check without a node port: a
      synced state may hold any version of it. */
  lemma WebServiceDriftStays(env: Env, cfg: Config, s: State, c: Content)
    requires Synced(env, cfg, s) && UsesWeb(cfg) && !cfg.nodePortSet
    ensures Synced(env, cfg, s.(store := s.store[WebService := c]))
  {
    var t := s.(store := s.store[WebService := c]);
    forall o: Obj | Repairable(cfg, o) ensures !Drifted(env, t, o) {
      assert o != WebService;
      assert Want(env, t, o) == Want(env, s, o);
    }
  }
}
