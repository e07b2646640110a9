/** Whole runs of the pipeline: they settle in a synced state exactly when nothing
    blocks them and the text of the server Secret does not depend on the order
    in which Go ranges over the migration flags. */
module ReconcileRuns {
  import opened Pulp
  import opened Reconcile
  import opened ReconcileLaws
  import Pdb

  // ---- a synced state stays synced ----

  /** Objects the configuration does not need can go. */
  lemma SyncedWithout(env: Env, cfg: Config, s: State, t: State, gone: set<Obj>)
    requires Synced(env, cfg, s) && Removes(cfg, s, t, gone)
    ensures Synced(env, cfg, t)
  {
    forall o: Obj ensures Want(env, t, o) == Want(env, s, o) {}
  }

  lemma SyncedRemoval(env: Env, cfg: Config, s: State, st: Step, order: seq<Component>)
    requires Silent(st) && StepOk(cfg, st) && Synced(env, cfg, s)
    ensures Synced(env, cfg, Do(env, cfg, s, st, order).state)
  {
    RemovalIs(env, cfg, s, st, order);
    SyncedWithout(env, cfg, s, Do(env, cfg, s, st, order).state, Gone(cfg, s, st));
  }

  lemma SyncedPdbs(env: Env, cfg: Config, s: State, order: seq<Component>)
    requires Sound(env) && Pdb.Covers(order) && Synced(env, cfg, s)
    ensures Do(env, cfg, s, Pdbs, order).result.Continue? && Synced(env, cfg, Do(env, cfg, s, Pdbs, order).state)
  {
    Pdb.PassProgress(env.pdb, cfg.pdbs, s.pdbs, order, Pdb.ALL);
    QuietPdbs(env, cfg, s, order);
    var t := Do(env, cfg, s, Pdbs, order).state;
    forall o: Obj | Repairable(cfg, o) ensures !Drifted(env, t, o) { assert Want(env, t, o) == Want(env, s, o); }
  }

  lemma SyncedStep(env: Env, cfg: Config, s: State, st: Step, order: seq<Component>)
    requires Sound(env) && Pdb.Covers(order) && StepOk(cfg, st) && Synced(env, cfg, s)
    ensures Do(env, cfg, s, st, order).result.Continue? && Synced(env, cfg, Do(env, cfg, s, st, order).state)
  {
    match st
    case Pdbs => SyncedPdbs(env, cfg, s, order);
    case SettleCache => SyncedRemoval(env, cfg, s, st, order);
    case RemoveTelemetry => SyncedRemoval(env, cfg, s, st, order);
    case ExposeRoutes => SyncedRemoval(env, cfg, s, st, order);
    case EnsureAdmin => assert Needed(cfg, AdminSecret);
    case FillNames => assert s.(named := true) == s;
    case _ => assert Do(env, cfg, s, st, order) == Outcome(s, Continue);
  }

  lemma {:induction false} SyncedSteps(env: Env, cfg: Config, s: State, steps: seq<Step>, order: seq<Component>)
    requires Sound(env) && Pdb.Covers(order) && AllOk(cfg, steps) && Synced(env, cfg, s)
    ensures Exec(env, cfg, s, steps, order).result.Continue? && Synced(env, cfg, Exec(env, cfg, s, steps, order).state)
    decreases |steps|
  {
    if steps != [] {
      assert steps[0] in steps;
      SyncedStep(env, cfg, s, steps[0], order);
      SyncedSteps(env, cfg, Do(env, cfg, s, steps[0], order).state, steps[1..], order);
    }
  }

  lemma OrderFreeSynced(w: World, cfg: Config, s: State, first: bool)
    requires OrderFree(w)
    ensures Synced(At(w, first), cfg, s) <==> Synced(w.env, cfg, s)
  {
    forall o: Obj ensures Drifted(At(w, first), s, o) == Drifted(w.env, s, o) { OrderFreeWants(w, s, first, o); }
  }

  /** Once synced, every pass goes through and leaves a synced state. */
  lemma SyncedStaysSynced(w: World, cfg: Config, s: State, ch: Choice)
    requires Sound(w.env) && OrderFree(w) && Pdb.Covers(ch.pdbs) && Synced(w.env, cfg, s)
    ensures Pass(w, cfg, s, ch).result.Continue? && Synced(w.env, cfg, Pass(w, cfg, s, ch).state)
  {
    StepsOrdered(cfg);
    OrderFreeSynced(w, cfg, s, ch.redirectFirst);
    SyncedSteps(At(w, ch.redirectFirst), cfg, s, Steps(cfg), ch.pdbs);
    OrderFreeSynced(w, cfg, Pass(w, cfg, s, ch).state, ch.redirectFirst);
  }

  // ---- runs ----

  /** What is picked in each pass; it may depend on what the pass finds. */
  type Chooser = (nat, State) -> Choice

  /** The state after a number of passes. */
  function After(w: World, cfg: Config, s: State, choose: Chooser, n: nat): State {
    if n == 0 then s
    else
      var t := After(w, cfg, s, choose, n - 1);
      Pass(w, cfg, t, choose(n - 1, t)).state
  }

  /** The choice of the pass that follows. */
  function Chosen(w: World, cfg: Config, s: State, choose: Chooser, n: nat): Choice { choose(n, After(w, cfg, s, choose, n)) }

  /** The pass that follows goes through to the end. */
  predicate Rests(w: World, cfg: Config, s: State, choose: Chooser, n: nat) {
    Pass(w, cfg, After(w, cfg, s, choose, n), Chosen(w, cfg, s, choose, n)).result.Continue?
  }

  ghost predicate Covering(choose: Chooser) { forall k: nat, t: State :: Pdb.Covers(choose(k, t).pdbs) }

  function LeftAt(w: World, cfg: Config, s: State, choose: Chooser, n: nat): Measure {
    Left(w.env, cfg, After(w, cfg, s, choose, n))
  }

  lemma NextHasLess(w: World, cfg: Config, s: State, choose: Chooser, i: nat)
    requires Sound(w.env) && OrderFree(w) && !Blocked(cfg, After(w, cfg, s, choose, i)) && !Rests(w, cfg, s, choose, i)
    ensures !Blocked(cfg, After(w, cfg, s, choose, i + 1))
    ensures Below(LeftAt(w, cfg, s, choose, i + 1), LeftAt(w, cfg, s, choose, i))
  {
    RequeueDecreases(w, cfg, After(w, cfg, s, choose, i), Chosen(w, cfg, s, choose, i));
  }

  lemma {:induction false} FindRest(w: World, cfg: Config, s: State, choose: Chooser, i: nat) returns (n: nat)
    requires Sound(w.env) && OrderFree(w) && Covering(choose) && !Blocked(cfg, After(w, cfg, s, choose, i))
    ensures n >= i && Rests(w, cfg, s, choose, n)
    decreases LeftAt(w, cfg, s, choose, i).names, LeftAt(w, cfg, s, choose, i).transitions, LeftAt(w, cfg, s, choose, i).missing,
              LeftAt(w, cfg, s, choose, i).restarts, LeftAt(w, cfg, s, choose, i).drift, LeftAt(w, cfg, s, choose, i).pdbs
  {
    if Rests(w, cfg, s, choose, i) {
      n := i;
    } else {
      NextHasLess(w, cfg, s, choose, i);
      n := FindRest(w, cfg, s, choose, i + 1);
    }
  }

  lemma {:induction false} BlockedAfter(w: World, cfg: Config, s: State, choose: Chooser, n: nat)
    ensures Blocked(cfg, After(w, cfg, s, choose, n)) == Blocked(cfg, s)
  {
    if n > 0 {
      BlockedAfter(w, cfg, s, choose, n - 1);
      StepsOrdered(cfg);
      BlockedStaysBlocked(At(w, Chosen(w, cfg, s, choose, n - 1).redirectFirst), cfg, After(w, cfg, s, choose, n - 1), Steps(cfg), Chosen(w, cfg, s, choose, n - 1).pdbs);
    }
  }

  lemma SyncedIsUnblocked(env: Env, cfg: Config, s: State)
    requires Synced(env, cfg, s)
    ensures !Blocked(cfg, s)
  {
    assert Needed(cfg, AdminSecret);
  }

  lemma BlockedNeverRests(w: World, cfg: Config, s: State, choose: Chooser, n: nat)
    requires Sound(w.env) && Pdb.Covers(Chosen(w, cfg, s, choose, n).pdbs) && Blocked(cfg, s)
    ensures !Rests(w, cfg, s, choose, n)
  {
    if Rests(w, cfg, s, choose, n) {
      BlockedAfter(w, cfg, s, choose, n + 1);
      RestingIsSynced(At(w, Chosen(w, cfg, s, choose, n).redirectFirst), cfg, After(w, cfg, s, choose, n), Chosen(w, cfg, s, choose, n).pdbs);
      SyncedIsUnblocked(At(w, Chosen(w, cfg, s, choose, n).redirectFirst), cfg, After(w, cfg, s, choose, n + 1));
      assert false;
    }
  }

  /** From some pass on, every pass goes through and leaves a synced state. */
  ghost predicate Settles(w: World, cfg: Config, s: State, choose: Chooser) {
    exists n: nat :: SettledFrom(w, cfg, s, choose, n)
  }

  ghost predicate SettledFrom(w: World, cfg: Config, s: State, choose: Chooser, n: nat) {
    forall m: nat :: n <= m ==>
      Rests(w, cfg, s, choose, m) && Synced(At(w, Chosen(w, cfg, s, choose, m).redirectFirst), cfg, After(w, cfg, s, choose, m + 1))
  }

  lemma {:induction false} RestsForGood(w: World, cfg: Config, s: State, choose: Chooser, n: nat, m: nat)
    requires Sound(w.env) && OrderFree(w) && Covering(choose) && Rests(w, cfg, s, choose, n) && n <= m
    ensures Rests(w, cfg, s, choose, m) && Synced(w.env, cfg, After(w, cfg, s, choose, m + 1))
    decreases m - n
  {
    if m == n {
      RestingIsSynced(At(w, Chosen(w, cfg, s, choose, n).redirectFirst), cfg, After(w, cfg, s, choose, n), Chosen(w, cfg, s, choose, n).pdbs);
      OrderFreeSynced(w, cfg, After(w, cfg, s, choose, n + 1), Chosen(w, cfg, s, choose, n).redirectFirst);
    } else {
      RestsForGood(w, cfg, s, choose, n, m - 1);
      SyncedStaysSynced(w, cfg, After(w, cfg, s, choose, m), Chosen(w, cfg, s, choose, m));
    }
  }

  /** With a text that does not depend on the order of the flags, API writes
      succeeding and no other writer, every run settles exactly when nothing
      blocks it. */
  lemma OrderFreeRuns(w: World, cfg: Config, s: State, choose: Chooser)
    requires Sound(w.env) && OrderFree(w) && Covering(choose)
    ensures Settles(w, cfg, s, choose) <==> !Blocked(cfg, s)
  {
    if Blocked(cfg, s) {
      forall n: nat ensures !SettledFrom(w, cfg, s, choose, n) { BlockedNeverRests(w, cfg, s, choose, n); }
    } else {
      var n := FindRest(w, cfg, s, choose, 0);
      forall m: nat | n <= m
        ensures Rests(w, cfg, s, choose, m) && Synced(At(w, Chosen(w, cfg, s, choose, m).redirectFirst), cfg, After(w, cfg, s, choose, m + 1))
      {
        RestsForGood(w, cfg, s, choose, n, m);
        OrderFreeSynced(w, cfg, After(w, cfg, s, choose, m + 1), Chosen(w, cfg, s, choose, m).redirectFirst);
      }
      assert SettledFrom(w, cfg, s, choose, n);
    }
  }

  // ---- when the text depends on the order ----

  lemma {:induction false} PassedStepsKeep(env: Env, cfg: Config, s: State, steps: seq<Step>, order: seq<Component>, q: Obj)
    requires Exec(env, cfg, s, steps, order).result.Continue? && q in s.store && q !in REMOVABLE
    ensures q in Exec(env, cfg, s, steps, order).state.store && Exec(env, cfg, s, steps, order).state.store[q] == s.store[q]
    decreases |steps|
  {
    if steps != [] {
      GoingOnKeeps(env, cfg, s, steps[0], order, q);
      PassedStepsKeep(env, cfg, Do(env, cfg, s, steps[0], order).state, steps[1..], order, q);
    }
  }

  lemma GoingOnKeeps(env: Env, cfg: Config, s: State, st: Step, order: seq<Component>, q: Obj)
    requires Do(env, cfg, s, st, order).result.Continue? && q in s.store && q !in REMOVABLE
    ensures q in Do(env, cfg, s, st, order).state.store && Do(env, cfg, s, st, order).state.store[q] == s.store[q]
  {
  }

  lemma PassedStepsSame(env: Env, cfg: Config, s: State, order: seq<Component>, q: Obj)
    requires Pipeline(env, cfg, s, order).result.Continue? && q !in REMOVABLE
    ensures Get(Pipeline(env, cfg, s, order).state, q) == Get(s, q)
  {
    if q in s.store { PassedStepsKeep(env, cfg, s, Steps(cfg), order, q); }
    if q in Pipeline(env, cfg, s, order).state.store { PassedStepsOnlyRemove(env, cfg, s, Steps(cfg), order, q); }
  }

  /** A pass that goes through found the server Secret as it renders it. */
  lemma RestingRendersStored(env: Env, cfg: Config, s: State, order: seq<Component>)
    requires Sound(env) && Pdb.Covers(order) && Pipeline(env, cfg, s, order).result.Continue?
    ensures Get(s, ServerSecret) == Some(env.server(Get(s, DbSecret), Get(s, DjangoSecret)))
  {
    RestingHasObjects(env, cfg, s, order, ServerSecret);
    PassedStepsSame(env, cfg, s, order, ServerSecret);
    PassedStepsSame(env, cfg, s, order, DbSecret);
    PassedStepsSame(env, cfg, s, order, DjangoSecret);
  }

  /** The order that does not give the stored text. */
  function Unlucky(w: World, s: State, order: seq<Component>): Choice {
    Choice(order, Get(s, ServerSecret) != Some(w.env.server(Get(s, DbSecret), Get(s, DjangoSecret))))
  }

  lemma UnluckyPass(w: World, cfg: Config, s: State, order: seq<Component>)
    requires Sound(w.env) && Pdb.Covers(order) && Divergent(w)
    ensures !Pass(w, cfg, s, Unlucky(w, s, order)).result.Continue?
  {
    var ch := Unlucky(w, s, order);
    assert w.env.server(Get(s, DbSecret), Get(s, DjangoSecret)) != w.hideFirst(Get(s, DbSecret), Get(s, DjangoSecret));
    if Pass(w, cfg, s, ch).result.Continue? {
      RestingRendersStored(At(w, ch.redirectFirst), cfg, s, order);
      assert false;
    }
  }

  /** With a text that depends on the order of the flags, some run never goes
      through a single pass, whatever the state it starts from. */
  lemma DivergentRuns(w: World, cfg: Config, s: State, order: seq<Component>) returns (choose: Chooser)
    requires Sound(w.env) && Divergent(w) && Pdb.Covers(order)
    ensures Covering(choose) && forall n: nat :: !Rests(w, cfg, s, choose, n)
  {
    choose := (n: nat, t: State) => Unlucky(w, t, order);
    forall n: nat ensures !Rests(w, cfg, s, choose, n) { UnluckyPass(w, cfg, After(w, cfg, s, choose, n), order); }
  }

  /** Every run settles, whatever Go's map orders, exactly when nothing blocks it
      and the text of the server Secret does not depend on the order. */
  ghost predicate AlwaysSettles(w: World, cfg: Config, s: State) {
    forall choose: Chooser :: Covering(choose) ==> Settles(w, cfg, s, choose)
  }

  const ANY_ORDER: seq<Component> := [Api, Content, Worker, Web]

  lemma AnyOrderCovers()
    ensures Pdb.Covers(ANY_ORDER)
  {
    assert ANY_ORDER[0] == Api && ANY_ORDER[1] == Content && ANY_ORDER[2] == Worker && ANY_ORDER[3] == Web;
    forall c: Component ensures c in ANY_ORDER {
      match c { case Api => case Content => case Worker => case Web => }
    }
  }

  lemma SettlesExactly(w: World, cfg: Config, s: State)
    requires Sound(w.env) && (OrderFree(w) || Divergent(w))
    ensures AlwaysSettles(w, cfg, s) <==> !Blocked(cfg, s) && OrderFree(w)
  {
    AnyOrderCovers();
    if OrderFree(w) {
      forall choose: Chooser | Covering(choose)
        ensures Settles(w, cfg, s, choose) <==> !Blocked(cfg, s)
      {
        OrderFreeRuns(w, cfg, s, choose);
      }
      var always: Chooser := (n: nat, t: State) => Choice(ANY_ORDER, true);
      assert Covering(always);
    } else {
      var choose := DivergentRuns(w, cfg, s, ANY_ORDER);
      forall n: nat ensures !SettledFrom(w, cfg, s, choose, n) { assert !Rests(w, cfg, s, choose, n); }
    }
  }

  /** The work queue: pass after pass while the controller asks for it. */
  method ReconcileUntilSynced(r: Reconciler, choose: Chooser) returns (passes: nat)
    requires Sound(r.world.env) && OrderFree(r.world) && Covering(choose) && !Blocked(r.cfg, r.s)
    modifies r
    ensures Synced(r.world.env, r.cfg, r.s)
  {
    passes := 0;
    var result := Requeue(None);
    while result.Requeue?
      invariant !Blocked(r.cfg, r.s) && !result.Failed?
      invariant result.Continue? ==> Synced(r.world.env, r.cfg, r.s)
      decreases Left(r.world.env, r.cfg, r.s).names, Left(r.world.env, r.cfg, r.s).transitions, Left(r.world.env, r.cfg, r.s).missing,
                Left(r.world.env, r.cfg, r.s).restarts, Left(r.world.env, r.cfg, r.s).drift, Left(r.world.env, r.cfg, r.s).pdbs,
                if result.Requeue? then 1 else 0
    {
      ghost var before, ch := r.s, choose(passes, r.s);
      RequeueDecreases(r.world, r.cfg, before, ch);
      result := r.ReconcilePass(choose(passes, r.s));
      if result.Continue? {
        RestingIsSynced(At(r.world, ch.redirectFirst), r.cfg, before, ch.pdbs);
        OrderFreeSynced(r.world, r.cfg, r.s, ch.redirectFirst);
      }
      passes := passes + 1;
    }
  }
}
