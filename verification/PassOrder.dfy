/** One pass does the first thing that is due. What can be due and in which
    order it is looked at are given by a table of their own; a pass that finds
    several things to do does the one that comes first, and nothing else. */
module PassOrder {
  import opened Pulp
  import opened Reconcile
  import opened ReconcileLaws
  import Pdb

  /** What a pass may find to do. */
  datatype Item =
    | Create(obj: Obj)
    | Update(obj: Obj)
    | CaRestart          // the trusted-CA ConfigMap differs from its label
    | SigningRestart     // the signing Secret does
    | NewType            // the recorded exposure type is not the wanted one
    | NewClass           // the recorded ingress class is not the wanted one
    | NextPdb

  /** Where an object's creation is looked at. */
  function CreatePlace(o: Obj): nat {
    match o
    case CaBundle => 1 case ServiceAccount => 2 case Role => 3 case RoleBinding => 4
    case DbSecret => 5 case DbStatefulSet => 6 case DbService => 8
    case CachePVC => 10 case CacheService => 12 case CacheDeployment => 14
    case FilePVC => 17
    case DjangoSecret => 19 case ServerSecret => 20 case FieldsSecret => 21 case AdminSecret => 22 case ShortAdminSecret => 0 case TokenSecret => 23
    case ApiDeployment => 26 case ApiService => 27 case OtelConfigMap => 28 case OtelService => 29
    case ContentDeployment => 35 case ContentService => 36
    case ProbeConfigMap => 39 case WorkerDeployment => 41
    case IngressObject => 44 case WebConfigMap => 46 case WebDeployment => 47 case WebService => 49
  }

  /** The server Secret is compared after all Secrets exist; the API's and the
      content's objects are compared after all of them exist; every other object
      right after its creation. */
  function UpdatePlace(o: Obj): nat {
    match o
    case ServerSecret => 24
    case ApiDeployment => 30 case ApiService => 31 case OtelConfigMap => 32 case OtelService => 33
    case ContentDeployment => 37 case ContentService => 38
    case _ => CreatePlace(o) + 1
  }

  /** The restart for the CA comes after the Secrets, the one for the signing
      Secret after the API; the exposure type before its controllers, the class
      after them. */
  function Place(i: Item): nat {
    match i
    case Create(o) => CreatePlace(o)
    case Update(o) => UpdatePlace(o)
    case CaRestart => 25 case SigningRestart => 34 case NewType => 43 case NewClass => 52 case NextPdb => 53
  }

  function Named(s: State): State { s.(named := true) }

  /** What is due in a state; the defaulted names count as filled in. */
  ghost predicate Due(env: Env, cfg: Config, s: State, i: Item) {
    match i
    case Create(o) => Needed(cfg, o) && o !in s.store
    case Update(o) => Repairable(cfg, o) && Drifted(env, Named(s), o)
    case CaRestart => s.ca == Missing || s.ca == Changed
    case SigningRestart => s.signing == Missing || s.signing == Changed
    case NewType => s.kind != Settled
    case NewClass => s.classPending
    case NextPdb => Pdb.DueSet(env.pdb, cfg.pdbs, s.pdbs) != {}
  }

  // ---- the steps stand in that order ----

  function StepPlace(st: Step): nat {
    match st
    case Ensure(o) => CreatePlace(o) case EnsureAdmin => CreatePlace(AdminSecret) case Repair(o) => UpdatePlace(o)
    case SettleCache => 16 case FillNames => 18 case CaTrigger => 25 case SigningTrigger => 34
    case ChangeType => 43 case ExposeRoutes => 51 case ChangeClass => 52 case Pdbs => 53 case RemoveTelemetry => 54
  }

  ghost predicate Placed(steps: seq<Step>, low: nat, high: nat) {
    && (forall i :: 0 <= i < |steps| ==> low < StepPlace(steps[i]) <= high)
    && (forall i, j :: 0 <= i < j < |steps| ==> StepPlace(steps[i]) < StepPlace(steps[j]))
  }

  lemma PlacedConcat(a: seq<Step>, b: seq<Step>, low: nat, mid: nat, high: nat)
    requires low <= mid <= high && Placed(a, low, mid) && Placed(b, mid, high)
    ensures Placed(a + b, low, high)
  {
  }

  lemma OnePlaced(b: bool, x: Step, low: nat, high: nat)
    requires low < StepPlace(x) <= high
    ensures Placed(If(b, [x]), low, high) && Placed([x], low, high)
  {
  }

  lemma TwoPlaced(b: bool, x: Step, y: Step, low: nat, high: nat)
    requires low < StepPlace(x) < StepPlace(y) <= high
    ensures Placed(If(b, [x, y]), low, high) && Placed([x, y], low, high)
  {
  }

  lemma FourPlaced(b: bool, w: Step, x: Step, y: Step, z: Step, low: nat, high: nat)
    requires low < StepPlace(w) < StepPlace(x) < StepPlace(y) < StepPlace(z) <= high
    ensures Placed(If(b, [w, x, y, z]), low, high) && Placed([w, x, y, z], low, high)
  {
  }

  lemma FirstPlaced(cfg: Config)
    ensures Placed(OcpSteps(cfg), 0, 1) && Placed(AccountSteps(), 1, 4) && Placed(FileSteps(cfg), 16, 17)
  {
    OnePlaced(cfg.openShiftCa, Ensure(CaBundle), 0, 1);
    OnePlaced(true, Ensure(ServiceAccount), 1, 2);
    TwoPlaced(true, Ensure(Role), Ensure(RoleBinding), 2, 4);
    PlacedConcat([Ensure(ServiceAccount)], [Ensure(Role), Ensure(RoleBinding)], 1, 2, 4);
    assert AccountSteps() == [Ensure(ServiceAccount)] + [Ensure(Role), Ensure(RoleBinding)];
    OnePlaced(cfg.filePVC, Ensure(FilePVC), 16, 17);
  }

  lemma DatabasePlaced(cfg: Config)
    ensures Placed(DatabaseSteps(cfg), 4, 9)
  {
    var a, b := [Ensure(DbSecret)], [Ensure(DbStatefulSet), Repair(DbStatefulSet), Ensure(DbService), Repair(DbService)];
    OnePlaced(true, Ensure(DbSecret), 4, 5);
    FourPlaced(true, Ensure(DbStatefulSet), Repair(DbStatefulSet), Ensure(DbService), Repair(DbService), 5, 9);
    PlacedConcat(a, b, 4, 5, 9);
    assert DatabaseSteps(cfg) == If(!cfg.externalDb, a + b);
  }

  lemma CachePlaced(cfg: Config)
    ensures Placed(CacheSteps(cfg), 9, 16)
  {
    var a := If(cfg.managedCache && cfg.cachePVC, [Ensure(CachePVC), Repair(CachePVC)]);
    var b := If(cfg.managedCache, [Ensure(CacheService), Repair(CacheService), Ensure(CacheDeployment), Repair(CacheDeployment)]);
    TwoPlaced(cfg.managedCache && cfg.cachePVC, Ensure(CachePVC), Repair(CachePVC), 9, 11);
    FourPlaced(cfg.managedCache, Ensure(CacheService), Repair(CacheService), Ensure(CacheDeployment), Repair(CacheDeployment), 11, 15);
    OnePlaced(true, SettleCache, 15, 16);
    PlacedConcat(a, b, 9, 11, 15);
    PlacedConcat(a + b, [SettleCache], 9, 15, 16);
  }

  lemma SecretsPlaced()
    ensures Placed(SecretSteps(), 17, 24)
  {
    var a, b, c := [FillNames, Ensure(DjangoSecret)], [Ensure(ServerSecret), Ensure(FieldsSecret), EnsureAdmin, Ensure(TokenSecret)], [Repair(ServerSecret)];
    TwoPlaced(true, FillNames, Ensure(DjangoSecret), 17, 19);
    FourPlaced(true, Ensure(ServerSecret), Ensure(FieldsSecret), EnsureAdmin, Ensure(TokenSecret), 19, 23);
    OnePlaced(true, Repair(ServerSecret), 23, 24);
    PlacedConcat(a, b, 17, 19, 23);
    PlacedConcat(a + b, c, 17, 23, 24);
    assert SecretSteps() == a + b + c;
  }

  lemma SinglesPlaced()
    ensures Placed([CaTrigger], 24, 25) && Placed([SigningTrigger], 33, 34) && Placed([ChangeType], 42, 43)
    ensures Placed([ChangeClass, Pdbs, RemoveTelemetry], 51, 54)
  {
    OnePlaced(true, CaTrigger, 24, 25);
    OnePlaced(true, SigningTrigger, 33, 34);
    OnePlaced(true, ChangeType, 42, 43);
    TwoPlaced(true, ChangeClass, Pdbs, 51, 53);
    OnePlaced(true, RemoveTelemetry, 53, 54);
    PlacedConcat([ChangeClass, Pdbs], [RemoveTelemetry], 51, 53, 54);
    assert [ChangeClass, Pdbs] + [RemoveTelemetry] == [ChangeClass, Pdbs, RemoveTelemetry];
  }

  lemma ApiPlaced(cfg: Config)
    ensures Placed(ApiSteps(cfg), 25, 33)
  {
    var a, b := [Ensure(ApiDeployment), Ensure(ApiService)], If(cfg.telemetry, [Ensure(OtelConfigMap), Ensure(OtelService)]);
    var c, d := [Repair(ApiDeployment), Repair(ApiService)], If(cfg.telemetry, [Repair(OtelConfigMap), Repair(OtelService)]);
    TwoPlaced(true, Ensure(ApiDeployment), Ensure(ApiService), 25, 27);
    TwoPlaced(cfg.telemetry, Ensure(OtelConfigMap), Ensure(OtelService), 27, 29);
    TwoPlaced(true, Repair(ApiDeployment), Repair(ApiService), 29, 31);
    TwoPlaced(cfg.telemetry, Repair(OtelConfigMap), Repair(OtelService), 31, 33);
    PlacedConcat(a, b, 25, 27, 29);
    PlacedConcat(a + b, c, 25, 29, 31);
    PlacedConcat(a + b + c, d, 25, 31, 33);
  }

  lemma PodsPlaced(cfg: Config)
    ensures Placed(ContentSteps(), 34, 38) && Placed(WorkerSteps(cfg), 38, 42)
  {
    FourPlaced(true, Ensure(ContentDeployment), Ensure(ContentService), Repair(ContentDeployment), Repair(ContentService), 34, 38);
    TwoPlaced(cfg.ipv6Off, Ensure(ProbeConfigMap), Repair(ProbeConfigMap), 38, 40);
    TwoPlaced(true, Ensure(WorkerDeployment), Repair(WorkerDeployment), 40, 42);
    PlacedConcat(If(cfg.ipv6Off, [Ensure(ProbeConfigMap), Repair(ProbeConfigMap)]), [Ensure(WorkerDeployment), Repair(WorkerDeployment)], 38, 40, 42);
  }

  lemma WebPlaced(cfg: Config)
    ensures Placed(WebSteps(cfg), 45, 50)
  {
    FourPlaced(true, Ensure(WebConfigMap), Ensure(WebDeployment), Repair(WebDeployment), Ensure(WebService), 45, 49);
    OnePlaced(cfg.nodePortSet, Repair(WebService), 49, 50);
    PlacedConcat([Ensure(WebConfigMap), Ensure(WebDeployment), Repair(WebDeployment), Ensure(WebService)], If(cfg.nodePortSet, [Repair(WebService)]), 45, 49, 50);
  }

  lemma ExposurePlaced(cfg: Config)
    ensures Placed(ExposureSteps(cfg), 43, 51)
  {
    var a, r := If(UsesIngress(cfg), [Ensure(IngressObject), Repair(IngressObject)]), If(cfg.exposure == Routes, [ExposeRoutes]);
    var w := If(UsesWeb(cfg), WebSteps(cfg));
    TwoPlaced(UsesIngress(cfg), Ensure(IngressObject), Repair(IngressObject), 43, 45);
    WebPlaced(cfg);
    assert Placed(w, 45, 50) by { if !UsesWeb(cfg) { assert w == []; } }
    OnePlaced(cfg.exposure == Routes, ExposeRoutes, 50, 51);
    PlacedConcat(a, w, 43, 45, 50);
    PlacedConcat(a + w, r, 43, 50, 51);
  }

  lemma StepsPlaced(cfg: Config)
    ensures Placed(Steps(cfg), 0, 54)
  {
    FirstPlaced(cfg);
    DatabasePlaced(cfg);
    CachePlaced(cfg);
    SecretsPlaced();
    SinglesPlaced();
    ApiPlaced(cfg);
    PodsPlaced(cfg);
    ExposurePlaced(cfg);
    var a := OcpSteps(cfg) + AccountSteps();
    PlacedConcat(OcpSteps(cfg), AccountSteps(), 0, 1, 4);
    PlacedConcat(a, DatabaseSteps(cfg), 0, 4, 9);
    PlacedConcat(a + DatabaseSteps(cfg), CacheSteps(cfg), 0, 9, 16);
    PlacedConcat(a + DatabaseSteps(cfg) + CacheSteps(cfg), FileSteps(cfg), 0, 16, 17);
    var b := Before(cfg);
    PlacedConcat(b, SecretSteps(), 0, 17, 24);
    PlacedConcat(b + SecretSteps(), [CaTrigger], 0, 24, 25);
    var c := b + SecretSteps() + [CaTrigger];
    PlacedConcat(c, ApiSteps(cfg), 0, 25, 33);
    PlacedConcat(c + ApiSteps(cfg), [SigningTrigger], 0, 33, 34);
    var d := c + ApiSteps(cfg) + [SigningTrigger];
    PlacedConcat(d, ContentSteps(), 0, 34, 38);
    PlacedConcat(d + ContentSteps(), WorkerSteps(cfg), 0, 38, 42);
    var e := d + ContentSteps() + WorkerSteps(cfg);
    PlacedConcat(e, [ChangeType], 0, 42, 43);
    PlacedConcat(e + [ChangeType], ExposureSteps(cfg), 0, 43, 51);
    PlacedConcat(e + [ChangeType] + ExposureSteps(cfg), [ChangeClass, Pdbs, RemoveTelemetry], 0, 51, 54);
  }

  // ---- a step stops exactly when its item is due ----

  function ItemOf(st: Step): Option<Item> {
    match st
    case Ensure(o) => Some(Create(o)) case EnsureAdmin => Some(Create(AdminSecret)) case Repair(o) => Some(Update(o))
    case CaTrigger => Some(CaRestart) case SigningTrigger => Some(SigningRestart)
    case ChangeType => Some(NewType) case ChangeClass => Some(NewClass) case Pdbs => Some(NextPdb)
    case FillNames => None case SettleCache => None case ExposeRoutes => None case RemoveTelemetry => None
  }

  /** The step that handles an item. */
  function StepOf(i: Item): Step {
    match i
    case Create(o) => EnsureStep(o) case Update(o) => Repair(o)
    case CaRestart => CaTrigger case SigningRestart => SigningTrigger case NewType => ChangeType case NewClass => ChangeClass case NextPdb => Pdbs
  }

  lemma ItemSteps(i: Item)
    ensures ItemOf(StepOf(i)) == Some(i) && StepPlace(StepOf(i)) == Place(i)
  {
  }

  /** Only the pulpcore Deployments depend on the names. */
  predicate NamesReady(s: State, st: Step) { s.named || !((st.Ensure? || st.Repair?) && st.obj in PULPCORE) }

  lemma NamedDrift(env: Env, s: State, o: Obj)
    requires s.named || o !in PULPCORE
    ensures Drifted(env, Named(s), o) == Drifted(env, s, o)
  {
    if s.named { assert Named(s) == s; }
  }

  lemma PdbsStop(env: Env, cfg: Config, s: State, order: seq<Component>)
    requires Sound(env) && Pdb.Covers(order)
    ensures !Do(env, cfg, s, Pdbs, order).result.Continue? <==> Pdb.DueSet(env.pdb, cfg.pdbs, s.pdbs) != {}
  {
    Pdb.PassProgress(env.pdb, cfg.pdbs, s.pdbs, order, Pdb.ALL);
  }

  lemma StopsWhenDue(env: Env, cfg: Config, s: State, st: Step, order: seq<Component>)
    requires Sound(env) && Pdb.Covers(order) && StepOk(cfg, st) && NamesReady(s, st)
    ensures !Do(env, cfg, s, st, order).result.Continue? <==> ItemOf(st).Some? && Due(env, cfg, s, ItemOf(st).value)
  {
    match st
    case Repair(o) => NamedDrift(env, s, o);
    case EnsureAdmin => assert Needed(cfg, AdminSecret);
    case Pdbs => PdbsStop(env, cfg, s, order);
    case _ =>
  }

  // ---- steps that go on leave everything due as it was ----

  /** Nothing has been written, only objects the configuration does not need have
      gone, and everything that is compared is what it was. */
  ghost predicate Undone(env: Env, cfg: Config, s: State, u: State) {
    && u.ca == s.ca && u.signing == s.signing && u.kind == s.kind && u.classPending == s.classPending && u.restarts == s.restarts
    && (forall q: Obj :: q in u.store ==> q in s.store && u.store[q] == s.store[q])
    && (forall q: Obj :: q in s.store && (Needed(cfg, q) || q !in REMOVABLE) ==> q in u.store)
    && Pdb.DueSet(env.pdb, cfg.pdbs, u.pdbs) == Pdb.DueSet(env.pdb, cfg.pdbs, s.pdbs)
  }

  lemma UndoneWants(env: Env, cfg: Config, s: State, u: State, o: Obj)
    requires Undone(env, cfg, s, u)
    ensures Want(env, Named(u), o) == Want(env, Named(s), o)
  {
    assert DbSecret !in REMOVABLE && DjangoSecret !in REMOVABLE;
    assert Get(u, DbSecret) == Get(s, DbSecret) && Get(u, DjangoSecret) == Get(s, DjangoSecret);
  }

  lemma UndoneDue(env: Env, cfg: Config, s: State, u: State, i: Item)
    requires Undone(env, cfg, s, u)
    ensures Due(env, cfg, u, i) <==> Due(env, cfg, s, i)
  {
    if i.Update? && Repairable(cfg, i.obj) { UndoneWants(env, cfg, s, u, i.obj); }
  }

  lemma UndoneTwice(env: Env, cfg: Config, s: State, u: State, v: State)
    requires Undone(env, cfg, s, u) && Undone(env, cfg, u, v)
    ensures Undone(env, cfg, s, v)
  {
  }

  lemma GoneIsRemovable(cfg: Config, s: State, st: Step)
    ensures Gone(cfg, s, st) <= REMOVABLE
  {
  }

  lemma RemovedIsUndone(env: Env, cfg: Config, s: State, u: State, gone: set<Obj>)
    requires Removes(cfg, s, u, gone) && gone <= REMOVABLE
    ensures Undone(env, cfg, s, u)
  {
  }

  lemma GoingOnUndone(env: Env, cfg: Config, s: State, st: Step, order: seq<Component>)
    requires Sound(env) && Pdb.Covers(order) && StepOk(cfg, st) && Do(env, cfg, s, st, order).result.Continue?
    ensures Undone(env, cfg, s, Do(env, cfg, s, st, order).state)
  {
    if Silent(st) {
      RemovalIs(env, cfg, s, st, order);
      GoneIsRemovable(cfg, s, st);
      RemovedIsUndone(env, cfg, s, Do(env, cfg, s, st, order).state, Gone(cfg, s, st));
    } else if st == Pdbs {
      PdbsStop(env, cfg, s, order);
      QuietPdbs(env, cfg, s, order);
    } else if st != FillNames {
      assert Do(env, cfg, s, st, order).state == s;
    }
  }

  lemma {:induction false} PrefixUndone(env: Env, cfg: Config, s: State, steps: seq<Step>, order: seq<Component>)
    requires Sound(env) && Pdb.Covers(order) && AllOk(cfg, steps) && Exec(env, cfg, s, steps, order).result.Continue?
    ensures Undone(env, cfg, s, Exec(env, cfg, s, steps, order).state)
    decreases |steps|
  {
    if steps != [] {
      assert steps[0] in steps;
      var a := Do(env, cfg, s, steps[0], order);
      GoingOnUndone(env, cfg, s, steps[0], order);
      PrefixUndone(env, cfg, a.state, steps[1..], order);
      UndoneTwice(env, cfg, s, a.state, Exec(env, cfg, a.state, steps[1..], order).state);
    }
  }

  // ---- where a pass gets to ----

  /** A pipeline of this configuration, in stage order, that fills the names in. */
  ghost predicate Pipelined(cfg: Config, steps: seq<Step>) { Ordered(cfg, steps, 10) && FillNames in steps }

  lemma StepsPipelined(cfg: Config)
    ensures Pipelined(cfg, Steps(cfg))
  {
    StepsOrdered(cfg);
    TransitionStepsExist(cfg);
  }

  ghost predicate Arrives(env: Env, cfg: Config, s: State, steps: seq<Step>, order: seq<Component>, i: nat) {
    i <= |steps| && Exec(env, cfg, s, steps[..i], order).result.Continue?
  }

  lemma ArrivesNamed(env: Env, cfg: Config, s: State, steps: seq<Step>, order: seq<Component>, i: nat)
    requires Sound(env) && Pdb.Covers(order) && Pipelined(cfg, steps) && i < |steps| && Arrives(env, cfg, s, steps, order, i)
    ensures NamesReady(Exec(env, cfg, s, steps[..i], order).state, steps[i])
  {
    if (steps[i].Ensure? || steps[i].Repair?) && steps[i].obj in PULPCORE {
      assert StageOfStep(FillNames) < StageOfStep(steps[i]);
      CleanInPrefix(env, cfg, s, steps, order, i, FillNames);
      assert CleanIn(env, cfg, Exec(env, cfg, s, steps[..i], order).state, FillNames);
    }
  }

  lemma ArrivesUndone(env: Env, cfg: Config, s: State, steps: seq<Step>, order: seq<Component>, i: nat)
    requires Sound(env) && Pdb.Covers(order) && Pipelined(cfg, steps) && Arrives(env, cfg, s, steps, order, i)
    ensures Undone(env, cfg, s, Exec(env, cfg, s, steps[..i], order).state)
  {
    PrefixOrdered(cfg, steps, i);
    PrefixUndone(env, cfg, s, steps[..i], order);
  }

  ghost predicate DueAt(env: Env, cfg: Config, s: State, st: Step) { ItemOf(st).Some? && Due(env, cfg, s, ItemOf(st).value) }

  lemma OneFurther(env: Env, cfg: Config, s: State, steps: seq<Step>, order: seq<Component>, i: nat)
    requires i < |steps|
    ensures var a := Exec(env, cfg, s, steps[..i], order);
      Exec(env, cfg, s, steps[..i + 1], order) == if a.result.Continue? then Do(env, cfg, a.state, steps[i], order) else a
  {
    assert steps[..i + 1][..i] == steps[..i];
    LastStep(env, cfg, s, steps[..i + 1], order);
  }

  /** Arriving at a step, the pass goes past it exactly when nothing is due
      there. */
  lemma PassesStep(env: Env, cfg: Config, s: State, steps: seq<Step>, order: seq<Component>, i: nat)
    requires Sound(env) && Pdb.Covers(order) && Pipelined(cfg, steps) && i < |steps| && Arrives(env, cfg, s, steps, order, i)
    ensures Arrives(env, cfg, s, steps, order, i + 1) <==> !DueAt(env, cfg, s, steps[i])
  {
    var st, u := steps[i], Exec(env, cfg, s, steps[..i], order).state;
    assert st in steps;
    ArrivesNamed(env, cfg, s, steps, order, i);
    ArrivesUndone(env, cfg, s, steps, order, i);
    StopsWhenDue(env, cfg, u, st, order);
    if ItemOf(st).Some? { UndoneDue(env, cfg, s, u, ItemOf(st).value); }
    OneFurther(env, cfg, s, steps, order, i);
  }

  /** The pass arrives at a step exactly when nothing is due before it. */
  lemma {:induction false} ArrivesExactly(env: Env, cfg: Config, s: State, steps: seq<Step>, order: seq<Component>, i: nat)
    requires Sound(env) && Pdb.Covers(order) && Pipelined(cfg, steps) && i <= |steps|
    ensures Arrives(env, cfg, s, steps, order, i) <==> forall k :: 0 <= k < i ==> !DueAt(env, cfg, s, steps[k])
  {
    if i == 0 {
      assert steps[..0] == [];
    } else {
      ArrivesExactly(env, cfg, s, steps, order, i - 1);
      if Arrives(env, cfg, s, steps, order, i - 1) {
        PassesStep(env, cfg, s, steps, order, i - 1);
      } else {
        OneFurther(env, cfg, s, steps, order, i - 1);
      }
    }
  }

  lemma DueHasStep(env: Env, cfg: Config, s: State, i: Item) returns (k: nat)
    requires Due(env, cfg, s, i)
    ensures k < |Steps(cfg)| && Steps(cfg)[k] == StepOf(i)
  {
    TransitionStepsExist(cfg);
    match i {
      case Create(o) => StepsExist(cfg, o);
      case Update(o) => StepsExist(cfg, o);
      case _ =>
    }
    assert StepOf(i) in Steps(cfg);
    k :| 0 <= k < |Steps(cfg)| && Steps(cfg)[k] == StepOf(i);
  }

  // ---- what has become of the exposure on the way ----

  const EXPOSURE: set<Obj> := {IngressObject} + WEB

  /** Before the Routes' turn nothing of the exposure is touched; afterwards they
      are in place and pulp-web is gone. */
  ghost predicate ExposedSoFar(s: State, u: State, routed: bool) {
    && Get(u, IngressObject) == Get(s, IngressObject)
    && if routed then u.routes && forall q :: q in WEB ==> q !in u.store
       else u.routes == s.routes && forall q :: q in WEB ==> Get(u, q) == Get(s, q)
  }

  lemma GoingOnExposes(env: Env, cfg: Config, s: State, st: Step, order: seq<Component>)
    requires Do(env, cfg, s, st, order).result.Continue?
    ensures ExposedSoFar(s, Do(env, cfg, s, st, order).state, st == ExposeRoutes)
  {
  }

  lemma ExposedTwice(s: State, u: State, v: State, a: bool, b: bool)
    requires ExposedSoFar(s, u, a) && ExposedSoFar(u, v, b)
    ensures ExposedSoFar(s, v, a || b)
  {
    if a && !b {
      forall q | q in WEB ensures q !in v.store { assert Get(v, q) == Get(u, q); }
    }
  }

  lemma {:induction false} PrefixExposes(env: Env, cfg: Config, s: State, steps: seq<Step>, order: seq<Component>)
    requires Exec(env, cfg, s, steps, order).result.Continue?
    ensures ExposedSoFar(s, Exec(env, cfg, s, steps, order).state, ExposeRoutes in steps)
    decreases |steps|
  {
    if steps != [] {
      var a := Do(env, cfg, s, steps[0], order);
      GoingOnExposes(env, cfg, s, steps[0], order);
      PrefixExposes(env, cfg, a.state, steps[1..], order);
      ExposedTwice(s, a.state, Exec(env, cfg, a.state, steps[1..], order).state, steps[0] == ExposeRoutes, ExposeRoutes in steps[1..]);
      assert ExposeRoutes in steps <==> steps[0] == ExposeRoutes || ExposeRoutes in steps[1..];
    }
  }

  lemma RoutedBefore(cfg: Config, steps: seq<Step>, k: nat)
    requires Placed(steps, 0, 54) && Pipelined(cfg, steps) && k < |steps| && (cfg.exposure == Routes ==> ExposeRoutes in steps)
    ensures ExposeRoutes in steps[..k] <==> cfg.exposure == Routes && StepPlace(steps[k]) > 51
  {
    if ExposeRoutes in steps[..k] {
      assert steps[..k] <= steps && ExposeRoutes in steps;
      var j :| 0 <= j < k && steps[j] == ExposeRoutes;
    }
    if cfg.exposure == Routes && StepPlace(steps[k]) > 51 {
      var j :| 0 <= j < |steps| && steps[j] == ExposeRoutes;
      assert j < k && steps[..k][j] == ExposeRoutes;
    }
  }

  // ---- the first thing due ----

  ghost predicate First(env: Env, cfg: Config, s: State, i: Item) {
    Due(env, cfg, s, i) && forall j: Item :: Due(env, cfg, s, j) ==> j == i || Place(i) < Place(j)
  }

  /** The pass goes through to the end exactly when nothing is due. */
  lemma GoesThroughExactly(env: Env, cfg: Config, s: State, order: seq<Component>)
    requires Sound(env) && Pdb.Covers(order)
    ensures Pipeline(env, cfg, s, order).result.Continue? <==> forall i: Item :: !Due(env, cfg, s, i)
  {
    StepsPipelined(cfg);
    WholeArrives(env, cfg, s, Steps(cfg), order);
    if i: Item :| Due(env, cfg, s, i) {
      var k := DueHasStep(env, cfg, s, i);
      ItemSteps(i);
      assert DueAt(env, cfg, s, Steps(cfg)[k]);
    }
  }

  /** A pass that goes through has changed nothing that is needed. */
  lemma GoneThrough(env: Env, cfg: Config, s: State, order: seq<Component>)
    requires Sound(env) && Pdb.Covers(order) && Pipeline(env, cfg, s, order).result.Continue?
    ensures var t := Pipeline(env, cfg, s, order).state; Undone(env, cfg, s, t) && ExposedSoFar(s, t, cfg.exposure == Routes)
  {
    StepsPipelined(cfg);
    TransitionStepsExist(cfg);
    PrefixUndone(env, cfg, s, Steps(cfg), order);
    PrefixExposes(env, cfg, s, Steps(cfg), order);
    if ExposeRoutes in Steps(cfg) { assert StepOk(cfg, ExposeRoutes); }
  }

  lemma WholeArrives(env: Env, cfg: Config, s: State, steps: seq<Step>, order: seq<Component>)
    requires Sound(env) && Pdb.Covers(order) && Pipelined(cfg, steps)
    ensures Exec(env, cfg, s, steps, order).result.Continue? <==> forall k :: 0 <= k < |steps| ==> !DueAt(env, cfg, s, steps[k])
  {
    assert steps[..|steps|] == steps;
    ArrivesExactly(env, cfg, s, steps, order, |steps|);
  }

  /** The pass arrives at the step of the first item due, having done nothing,
      and ends there. */
  lemma StopsAtFirst(env: Env, cfg: Config, s: State, order: seq<Component>, i: Item) returns (u: State)
    requires Sound(env) && Pdb.Covers(order) && First(env, cfg, s, i)
    ensures Undone(env, cfg, s, u) && NamesReady(u, StepOf(i)) && Pipeline(env, cfg, s, order) == Do(env, cfg, u, StepOf(i), order)
    ensures ExposedSoFar(s, u, cfg.exposure == Routes && Place(i) > 51)
  {
    var k := DueHasStep(env, cfg, s, i);
    ItemSteps(i);
    StepsPlaced(cfg);
    StepsPipelined(cfg);
    NothingDueBefore(env, cfg, s, Steps(cfg), k, i);
    u := EndsAt(env, cfg, s, Steps(cfg), order, k);
    TransitionStepsExist(cfg);
    RoutedBefore(cfg, Steps(cfg), k);
  }

  lemma ItemPlace(st: Step)
    requires ItemOf(st).Some?
    ensures Place(ItemOf(st).value) == StepPlace(st)
  {
  }

  lemma NothingDueBefore(env: Env, cfg: Config, s: State, steps: seq<Step>, k: nat, i: Item)
    requires Placed(steps, 0, 54) && k < |steps| && steps[k] == StepOf(i) && First(env, cfg, s, i)
    ensures forall j :: 0 <= j < k ==> !DueAt(env, cfg, s, steps[j])
  {
    ItemSteps(i);
    forall j | 0 <= j < k ensures !DueAt(env, cfg, s, steps[j]) {
      if ItemOf(steps[j]).Some? { ItemPlace(steps[j]); }
    }
  }

  lemma EndsAt(env: Env, cfg: Config, s: State, steps: seq<Step>, order: seq<Component>, k: nat) returns (u: State)
    requires Sound(env) && Pdb.Covers(order) && Pipelined(cfg, steps) && k < |steps|
    requires (forall j :: 0 <= j < k ==> !DueAt(env, cfg, s, steps[j])) && DueAt(env, cfg, s, steps[k])
    ensures Undone(env, cfg, s, u) && NamesReady(u, steps[k]) && Exec(env, cfg, s, steps, order) == Do(env, cfg, u, steps[k], order)
    ensures ExposedSoFar(s, u, ExposeRoutes in steps[..k])
  {
    u := Exec(env, cfg, s, steps[..k], order).state;
    ArrivesExactly(env, cfg, s, steps, order, k);
    ArrivesNamed(env, cfg, s, steps, order, k);
    ArrivesUndone(env, cfg, s, steps, order, k);
    PassesStep(env, cfg, s, steps, order, k);
    PrefixExposes(env, cfg, s, steps[..k], order);
    OneFurther(env, cfg, s, steps, order, k);
    assert steps == steps[..k + 1] + steps[k + 1..];
    ExecAppend(env, cfg, s, steps[..k + 1], steps[k + 1..], order);
  }

  // ---- what the pass then does ----

  /** The other objects: none written, none that is needed gone. */
  ghost predicate Elsewhere(cfg: Config, s: State, t: State, touched: set<Obj>) {
    && (forall q: Obj :: q !in touched && q in t.store ==> q in s.store && t.store[q] == s.store[q])
    && (forall q: Obj :: q !in touched && q in s.store && (Needed(cfg, q) || q !in REMOVABLE) ==> q in t.store)
  }

  ghost predicate Wrote(env: Env, cfg: Config, s: State, t: State, o: Obj) {
    o in t.store && t.store[o] == Stored(env, o, Want(env, Named(s), o)) && Elsewhere(cfg, s, t, {o})
  }

  /** The recorded flags, but for the one the item is about. */
  predicate FlagsKept(s: State, t: State, i: Item) {
    && (i == CaRestart || t.ca == s.ca) && (i == SigningRestart || t.signing == s.signing)
    && (i == NewType || t.kind == s.kind) && (i == NewType || i == NewClass || t.classPending == s.classPending)
  }

  function Restarts(i: Item): nat { if i == CaRestart || i == SigningRestart || i == Update(ServerSecret) then 1 else 0 }

  /** The object a creation makes: the admin Secret's has another name when the
      user's is one character long. */
  function Made(cfg: Config, o: Obj): Obj { if o == AdminSecret && cfg.adminShort then ShortAdminSecret else o }

  /** The one effect of a pass whose first item this is. */
  ghost predicate Does(env: Env, cfg: Config, s: State, i: Item, t: State, r: Result) {
    && FlagsKept(s, t, i)
    && match i
       case Create(o) =>
         if Made(cfg, o) in s.store then r == Failed && t.restarts == s.restarts && Elsewhere(cfg, s, t, {})
         else r == Requeue(Some(Made(cfg, o))) && t.restarts == s.restarts && Wrote(env, cfg, s, t, Made(cfg, o))
       case Update(o) => r == Requeue(Some(o)) && t.restarts == s.restarts + Restarts(i) && Wrote(env, cfg, s, t, o)
       case CaRestart => r == Requeue(None) && t.restarts == s.restarts + 1 && t.ca == Fired(s.ca) && Elsewhere(cfg, s, t, {})
       case SigningRestart => r == Requeue(None) && t.restarts == s.restarts + 1 && t.signing == Fired(s.signing) && Elsewhere(cfg, s, t, {})
       case NewType =>
         && r == Requeue(None) && t.restarts == s.restarts && t.kind == (if s.kind == Stuck then Stuck else Settled)
         && t.classPending == (if s.kind == FromIngress then cfg.hasClass else s.classPending)
         && (forall q :: q in TypeGone(s.kind) ==> q !in t.store) && Elsewhere(cfg, s, t, TypeGone(s.kind))
       case NewClass =>
         && r == Requeue(None) && t.restarts == s.restarts && !t.classPending
         && (forall q :: q in ClassGone(cfg) ==> q !in t.store) && Elsewhere(cfg, s, t, ClassGone(cfg))
       case NextPdb =>
         && r == Requeue(None) && t.restarts == s.restarts && Elsewhere(cfg, s, t, {})
         && exists c :: c in Pdb.DueSet(env.pdb, cfg.pdbs, s.pdbs)
                        && Pdb.DueSet(env.pdb, cfg.pdbs, t.pdbs) == Pdb.DueSet(env.pdb, cfg.pdbs, s.pdbs) - {c}
  }

  lemma NamedWant(env: Env, s: State, o: Obj)
    requires s.named || o !in PULPCORE
    ensures Want(env, Named(s), o) == Want(env, s, o)
  {
    if s.named { assert Named(s) == s; }
  }

  lemma WritingDoes(env: Env, cfg: Config, s: State, u: State, o: Obj)
    requires Undone(env, cfg, s, u) && (u.named || o !in PULPCORE)
    ensures Wrote(env, cfg, s, Written(env, u, o), o)
  {
    NamedWant(env, u, o);
    UndoneWants(env, cfg, s, u, o);
  }

  lemma UndoneElsewhere(env: Env, cfg: Config, s: State, u: State)
    requires Undone(env, cfg, s, u)
    ensures Elsewhere(cfg, s, u, {})
  {
  }

  lemma MadeStays(env: Env, cfg: Config, s: State, u: State)
    requires Undone(env, cfg, s, u)
    ensures ShortAdminSecret in u.store <==> ShortAdminSecret in s.store
  {
    assert ShortAdminSecret !in REMOVABLE;
  }

  lemma CreateDoes(env: Env, cfg: Config, s: State, u: State, o: Obj, order: seq<Component>)
    requires Undone(env, cfg, s, u) && (u.named || o !in PULPCORE) && Due(env, cfg, s, Create(o))
    ensures var d := Do(env, cfg, u, EnsureStep(o), order); Does(env, cfg, s, Create(o), d.state, d.result)
  {
    UndoneDue(env, cfg, s, u, Create(o));
    UndoneElsewhere(env, cfg, s, u);
    WritingDoes(env, cfg, s, u, Made(cfg, o));
    MadeStays(env, cfg, s, u);
  }

  lemma UpdateDoes(env: Env, cfg: Config, s: State, u: State, o: Obj, order: seq<Component>)
    requires Undone(env, cfg, s, u) && (u.named || o !in PULPCORE) && Due(env, cfg, s, Update(o))
    ensures var d := Do(env, cfg, u, Repair(o), order); Does(env, cfg, s, Update(o), d.state, d.result)
  {
    UndoneDue(env, cfg, s, u, Update(o));
    NamedDrift(env, u, o);
    WritingDoes(env, cfg, s, u, o);
  }

  lemma RestartDoes(env: Env, cfg: Config, s: State, u: State, order: seq<Component>)
    requires Undone(env, cfg, s, u)
    ensures Due(env, cfg, s, CaRestart) ==> var d := Do(env, cfg, u, CaTrigger, order); Does(env, cfg, s, CaRestart, d.state, d.result)
    ensures Due(env, cfg, s, SigningRestart) ==> var d := Do(env, cfg, u, SigningTrigger, order); Does(env, cfg, s, SigningRestart, d.state, d.result)
  {
  }

  lemma ElsewhereGone(env: Env, cfg: Config, s: State, u: State, t: State, gone: set<Obj>)
    requires Undone(env, cfg, s, u) && t.store == u.store - gone
    ensures (forall q :: q in gone ==> q !in t.store) && Elsewhere(cfg, s, t, gone)
  {
  }

  lemma TypeChangedStore(cfg: Config, u: State)
    requires u.kind != Settled
    ensures TypeChanged(cfg, u).store == u.store - TypeGone(u.kind)
  {
    assert u.store - {} == u.store;
  }

  lemma TypeChangedFlags(cfg: Config, u: State)
    requires u.kind != Settled
    ensures var t := TypeChanged(cfg, u);
      && t.ca == u.ca && t.signing == u.signing && t.restarts == u.restarts && t.kind == (if u.kind == Stuck then Stuck else Settled)
      && t.classPending == if u.kind == FromIngress then cfg.hasClass else u.classPending
  {
  }

  lemma TypeDoes(env: Env, cfg: Config, s: State, u: State, order: seq<Component>)
    requires Undone(env, cfg, s, u) && Due(env, cfg, s, NewType)
    ensures var d := Do(env, cfg, u, ChangeType, order); Does(env, cfg, s, NewType, d.state, d.result)
  {
    var t := TypeChanged(cfg, u);
    TypeChangedStore(cfg, u);
    TypeChangedFlags(cfg, u);
    ElsewhereGone(env, cfg, s, u, t, TypeGone(u.kind));
    assert Do(env, cfg, u, ChangeType, order) == Outcome(t, Requeue(None));
  }

  lemma ClassDoes(env: Env, cfg: Config, s: State, u: State, order: seq<Component>)
    requires Undone(env, cfg, s, u) && Due(env, cfg, s, NewClass)
    ensures var d := Do(env, cfg, u, ChangeClass, order); Does(env, cfg, s, NewClass, d.state, d.result)
  {
    ElsewhereGone(env, cfg, s, u, Do(env, cfg, u, ChangeClass, order).state, ClassGone(cfg));
  }

  lemma PdbDoes(env: Env, cfg: Config, s: State, u: State, order: seq<Component>)
    requires Sound(env) && Pdb.Covers(order) && Undone(env, cfg, s, u) && Due(env, cfg, s, NextPdb)
    ensures var d := Do(env, cfg, u, Pdbs, order); Does(env, cfg, s, NextPdb, d.state, d.result)
  {
    UndoneElsewhere(env, cfg, s, u);
    PdbsStop(env, cfg, u, order);
    Pdb.PassProgress(env.pdb, cfg.pdbs, u.pdbs, order, Pdb.ALL);
  }

  /** A pass does exactly the first thing that is due, and nothing else: one
      object written, or one restart, or one transition, or one PDB. */
  lemma PassDoesFirst(env: Env, cfg: Config, s: State, order: seq<Component>, i: Item)
    requires Sound(env) && Pdb.Covers(order) && First(env, cfg, s, i)
    ensures var d := Pipeline(env, cfg, s, order); Does(env, cfg, s, i, d.state, d.result)
  {
    var u := StopsAtFirst(env, cfg, s, order, i);
    match i
    case Create(o) => CreateDoes(env, cfg, s, u, o, order);
    case Update(o) => UpdateDoes(env, cfg, s, u, o, order);
    case CaRestart => RestartDoes(env, cfg, s, u, order);
    case SigningRestart => RestartDoes(env, cfg, s, u, order);
    case NewType => TypeDoes(env, cfg, s, u, order);
    case NewClass => ClassDoes(env, cfg, s, u, order);
    case NextPdb => PdbDoes(env, cfg, s, u, order);
  }

  lemma {:induction false} FirstDueStep(env: Env, cfg: Config, s: State, steps: seq<Step>, n: nat) returns (k: nat)
    requires n < |steps| && DueAt(env, cfg, s, steps[n])
    ensures k <= n && DueAt(env, cfg, s, steps[k]) && forall j :: 0 <= j < k ==> !DueAt(env, cfg, s, steps[j])
  {
    if j :| 0 <= j < n && DueAt(env, cfg, s, steps[j]) {
      k := FirstDueStep(env, cfg, s, steps, j);
    } else {
      k := n;
    }
  }

  /** Whenever anything is due, something comes first. */
  lemma SomethingIsFirst(env: Env, cfg: Config, s: State, i: Item) returns (first: Item)
    requires Due(env, cfg, s, i)
    ensures First(env, cfg, s, first) && Place(first) <= Place(i)
  {
    var n := DueHasStep(env, cfg, s, i);
    ItemSteps(i);
    var k := FirstDueStep(env, cfg, s, Steps(cfg), n);
    first := ItemOf(Steps(cfg)[k]).value;
    StepsPlaced(cfg);
    ItemPlace(Steps(cfg)[k]);
    forall j: Item | Due(env, cfg, s, j) ensures j == first || Place(first) < Place(j) {
      var m := DueHasStep(env, cfg, s, j);
      ItemSteps(j);
      assert DueAt(env, cfg, s, Steps(cfg)[m]);
    }
  }

  /** While the recorded exposure type is not the wanted one, no pass writes
      anything of the exposure; a pass that finds nothing to do before it ends
      there, with the old type torn down and nothing written. */
  lemma TypeChangesFirst(env: Env, cfg: Config, s: State, order: seq<Component>)
    requires Sound(env) && Pdb.Covers(order) && s.kind != Settled
    ensures var d := Pipeline(env, cfg, s, order);
      && (d.result.Requeue? && d.result.written.Some? ==> StageOf(d.result.written.value) < 9)
      && ((forall i: Item :: Due(env, cfg, s, i) ==> Place(i) >= 43) ==>
            d.result == Requeue(None) && (forall q :: q in TypeGone(s.kind) ==> q !in d.state.store) && Elsewhere(cfg, s, d.state, TypeGone(s.kind)))
  {
    assert Due(env, cfg, s, NewType);
    var first := SomethingIsFirst(env, cfg, s, NewType);
    PassDoesFirst(env, cfg, s, order, first);
    EarlyPlaces(cfg, first);
  }

  lemma EarlyPlaces(cfg: Config, i: Item)
    requires Place(i) <= 43
    ensures i.Create? ==> StageOf(Made(cfg, i.obj)) < 9
    ensures i.Update? ==> StageOf(i.obj) < 9
    ensures Place(i) == 43 ==> i == NewType
  {
  }
}
