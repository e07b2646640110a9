/** What a pass does that has nothing due: it fills in the names, remembers what
    is in use and takes down what no longer is. */
module PassCleanUp {
  import opened Pulp
  import opened Reconcile
  import opened ReconcileLaws
  import opened PassOrder
  import Pdb

  const CACHE: set<Obj> := {CacheService, CacheDeployment}
  const OTEL: set<Obj> := {OtelConfigMap, OtelService}

  /** What has happened to the state once these steps have gone by. */
  ghost predicate Cleaned(cfg: Config, s: State, u: State, named: bool, cache: bool, routed: bool, otel: bool) {
    && u.named == (s.named || named)
    && u.cacheManaged == (if cache then cfg.managedCache || (cfg.externalCache && s.cacheManaged) else s.cacheManaged)
    && u.routes == (s.routes || routed)
    && u.otelLeft == (if otel then cfg.telemetry else s.otelLeft)
    && (forall o: Obj :: o in u.store <==>
          && o in s.store
          && !(cache && s.cacheManaged && !cfg.managedCache && !cfg.externalCache && o in CACHE)
          && !(routed && o in WEB)
          && !(otel && s.otelLeft && !cfg.telemetry && o in OTEL))
    && (forall o: Obj :: o in u.store ==> o in s.store && u.store[o] == s.store[o])
  }

  lemma StepCleans(env: Env, cfg: Config, s: State, st: Step, order: seq<Component>)
    requires Do(env, cfg, s, st, order).result.Continue?
    ensures Cleaned(cfg, s, Do(env, cfg, s, st, order).state, st == FillNames, st == SettleCache, st == ExposeRoutes, st == RemoveTelemetry)
  {
  }

  lemma CleanedTwice(cfg: Config, s: State, u: State, v: State, n: bool, c: bool, r: bool, o: bool, n': bool, c': bool, r': bool, o': bool)
    requires Cleaned(cfg, s, u, n, c, r, o) && Cleaned(cfg, u, v, n', c', r', o')
    ensures Cleaned(cfg, s, v, n || n', c || c', r || r', o || o')
  {
  }

  lemma {:induction false} StepsClean(env: Env, cfg: Config, s: State, steps: seq<Step>, order: seq<Component>)
    requires Exec(env, cfg, s, steps, order).result.Continue?
    ensures Cleaned(cfg, s, Exec(env, cfg, s, steps, order).state,
                    FillNames in steps, SettleCache in steps, ExposeRoutes in steps, RemoveTelemetry in steps)
    decreases |steps|
  {
    if steps != [] {
      var a, first, rest := Do(env, cfg, s, steps[0], order).state, steps[0], steps[1..];
      StepCleans(env, cfg, s, first, order);
      StepsClean(env, cfg, a, rest, order);
      CleanedTwice(cfg, s, a, Exec(env, cfg, a, rest, order).state,
                   first == FillNames, first == SettleCache, first == ExposeRoutes, first == RemoveTelemetry,
                   FillNames in rest, SettleCache in rest, ExposeRoutes in rest, RemoveTelemetry in rest);
      assert forall st: Step :: st in steps <==> st == first || st in rest;
    }
  }

  lemma PdbStep(env: Env, cfg: Config, s: State, order: seq<Component>)
    requires Sound(env) && Pdb.Covers(order) && Do(env, cfg, s, Pdbs, order).result.Continue?
    ensures Do(env, cfg, s, Pdbs, order).state.pdbs == Pdb.Final(env.pdb, cfg.pdbs, s.pdbs)
  {
    Pdb.AllComponents();
    Pdb.QuietPass(env.pdb, cfg.pdbs, s.pdbs, order, Pdb.ALL);
  }

  lemma FinalTwice(env: Pdb.Env, w: Pdb.Wanted, s: Pdb.State, order: seq<Component>)
    requires Pdb.Sound(env) && Pdb.Covers(order)
    ensures Pdb.Final(env, w, Pdb.Final(env, w, s)) == Pdb.Final(env, w, s)
  {
    Pdb.AllComponents();
    Pdb.FinalIsStable(env, w, s, order);
    Pdb.QuietPass(env, w, Pdb.Final(env, w, s), order, Pdb.ALL);
  }

  /** Taking the step of the PDBs or leaving it out. */
  function SettledPdbs(env: Pdb.Env, w: Pdb.Wanted, s: Pdb.State, settled: bool): Pdb.State { if settled then Pdb.Final(env, w, s) else s }

  lemma OneStepPdbs(env: Env, cfg: Config, s: State, st: Step, order: seq<Component>)
    requires Sound(env) && Pdb.Covers(order) && Do(env, cfg, s, st, order).result.Continue?
    ensures Do(env, cfg, s, st, order).state.pdbs == SettledPdbs(env.pdb, cfg.pdbs, s.pdbs, st == Pdbs)
  {
    if st == Pdbs { PdbStep(env, cfg, s, order); }
  }

  lemma SettledTwice(env: Pdb.Env, w: Pdb.Wanted, s: Pdb.State, order: seq<Component>, a: bool, b: bool)
    requires Pdb.Sound(env) && Pdb.Covers(order)
    ensures SettledPdbs(env, w, SettledPdbs(env, w, s, a), b) == SettledPdbs(env, w, s, a || b)
  {
    if a && b { FinalTwice(env, w, s, order); }
  }

  lemma {:induction false} StepsPdbs(env: Env, cfg: Config, s: State, steps: seq<Step>, order: seq<Component>)
    requires Sound(env) && Pdb.Covers(order) && Exec(env, cfg, s, steps, order).result.Continue?
    ensures Exec(env, cfg, s, steps, order).state.pdbs == SettledPdbs(env.pdb, cfg.pdbs, s.pdbs, Pdbs in steps)
    decreases |steps|
  {
    if steps != [] {
      var a, rest := Do(env, cfg, s, steps[0], order).state, steps[1..];
      OneStepPdbs(env, cfg, s, steps[0], order);
      StepsPdbs(env, cfg, a, rest, order);
      SettledTwice(env.pdb, cfg.pdbs, s.pdbs, order, steps[0] == Pdbs, Pdbs in rest);
      assert Pdbs in steps <==> steps[0] == Pdbs || Pdbs in rest;
    }
  }

  lemma CleaningSteps(cfg: Config)
    ensures FillNames in Steps(cfg) && SettleCache in Steps(cfg) && RemoveTelemetry in Steps(cfg) && Pdbs in Steps(cfg)
    ensures ExposeRoutes in Steps(cfg) <==> cfg.exposure == Routes
  {
    TransitionStepsExist(cfg);
    StepsOrdered(cfg);
    if ExposeRoutes in Steps(cfg) { assert StepOk(cfg, ExposeRoutes); }
    var last := [ChangeClass, Pdbs, RemoveTelemetry];
    assert last[2] in last && last[2] in Steps(cfg);
    var c := CacheSteps(cfg);
    assert c[|c| - 1] == SettleCache && SettleCache in c;
  }

  /** A pass with nothing due writes no object. It leaves exactly the objects
      there were, without those of a cache the operator no longer manages, of
      pulp-web under Routes, and of telemetry that was switched off, and without
      the PDBs of components that ask for none. */
  lemma QuietPassCleans(env: Env, cfg: Config, s: State, order: seq<Component>)
    requires Sound(env) && Pdb.Covers(order) && forall i: Item :: !Due(env, cfg, s, i)
    ensures var d := Pipeline(env, cfg, s, order);
      var t := d.state;
      && d.result == Continue && t.named && t.restarts == s.restarts
      && t.cacheManaged == (cfg.managedCache || (cfg.externalCache && s.cacheManaged))
      && t.routes == (s.routes || cfg.exposure == Routes) && t.otelLeft == cfg.telemetry
      && (forall o: Obj :: o in t.store <==>
            && o in s.store
            && (o in {CacheService, CacheDeployment} ==> cfg.managedCache || cfg.externalCache || !s.cacheManaged)
            && (o in {WebDeployment, WebService} ==> cfg.exposure != Routes)
            && (o in {OtelConfigMap, OtelService} ==> cfg.telemetry || !s.otelLeft))
      && (forall o: Obj :: o in t.store ==> t.store[o] == s.store[o])
      && (forall c: Component :: c in t.pdbs <==> c in cfg.pdbs && cfg.pdbs[c] != map[])
      && (forall c: Component :: c in t.pdbs ==> c in s.pdbs && t.pdbs[c] == s.pdbs[c])
  {
    GoesThroughExactly(env, cfg, s, order);
    GoneThrough(env, cfg, s, order);
    CleaningSteps(cfg);
    StepsClean(env, cfg, s, Steps(cfg), order);
    QuietPdbsStay(env, cfg, s, Steps(cfg), order);
  }

  lemma QuietPdbsStay(env: Env, cfg: Config, s: State, steps: seq<Step>, order: seq<Component>)
    requires Sound(env) && Pdb.Covers(order) && !Due(env, cfg, s, NextPdb) && Pdbs in steps && Exec(env, cfg, s, steps, order).result.Continue?
    ensures var p := Exec(env, cfg, s, steps, order).state.pdbs;
      && (forall c: Component :: c in p <==> c in cfg.pdbs && cfg.pdbs[c] != map[])
      && (forall c: Component :: c in p ==> c in s.pdbs && p[c] == s.pdbs[c])
  {
    StepsPdbs(env, cfg, s, steps, order);
    NothingDueStays(env.pdb, cfg.pdbs, s.pdbs);
  }

  lemma NothingDueStays(env: Pdb.Env, w: Pdb.Wanted, s: Pdb.State)
    requires Pdb.DueSet(env, w, s) == {}
    ensures var p := Pdb.Final(env, w, s);
      && (forall c: Component :: c in p <==> c in w && w[c] != map[])
      && (forall c: Component :: c in p ==> c in s && p[c] == s[c])
  {
    Pdb.AllComponents();
    assert forall c: Component :: Pdb.Due(env, w, s, c) ==> c in Pdb.DueSet(env, w, s);
  }
}
