/** Reconciliation of the four PodDisruptionBudgets. The controller ranges over
    a Go map, so every pass sees the components in an order of its own, and it
    returns at the first create or update. */
module Pdb {
  import opened Pulp

  /** The fields of a PodDisruptionBudgetSpec that are set. */
  type Fields = map<string, string>

  /** What a write stores, the equality the controller uses, and the label
      selector of a component. */
  datatype Env = Env(Dflt: Fields -> Fields, Derives: (Fields, Fields) -> bool, Selector: Component -> string)

  /** A spec derives from its own defaulted form. */
  ghost predicate Sound(env: Env) { forall f :: env.Derives(f, env.Dflt(f)) }

  /** The `pdb` field of each component of the CR; absent when not set. */
  type Wanted = map<Component, Fields>

  /** The PDBs in the cluster, by component. */
  type State = map<Component, Fields>

  const ALL: set<Component> := {Api, Content, Worker, Web}

  /** Neither missing nor `{}`. */
  predicate Defined(w: Wanted, c: Component) { c in w && w[c] != map[] }

  function Expected(env: Env, w: Wanted, c: Component): Fields
    requires c in w
  {
    w[c]["selector" := env.Selector(c)]
  }

  predicate Due(env: Env, w: Wanted, s: State, c: Component) {
    Defined(w, c) && (c !in s || !env.Derives(Expected(env, w, c), s[c]))
  }

  /** One pass over the components in a given order; the flag says whether it
      asks to be called again. `deletable` are the components whose delete call
      succeeds: its error is never looked at. */
  function Pass(env: Env, w: Wanted, s: State, order: seq<Component>, deletable: set<Component>): (State, bool) {
    if order == [] then (s, false)
    else if Defined(w, order[0]) then
      if Due(env, w, s, order[0]) then (s[order[0] := env.Dflt(Expected(env, w, order[0]))], true)
      else Pass(env, w, s, order[1..], deletable)
    else Pass(env, w, if order[0] in deletable then s - {order[0]} else s, order[1..], deletable)
  }

  class PdbController {
    const env: Env
    var pdbs: State

    constructor (env: Env, pdbs: State)
      ensures this.env == env && this.pdbs == pdbs
    {
      this.env, this.pdbs := env, pdbs;
    }

    method Delete(c: Component, succeeds: bool)
      modifies `pdbs
      ensures pdbs == if succeeds then old(pdbs) - {c} else old(pdbs)
    {
      if succeeds { pdbs := pdbs - {c}; }
    }

    /** `pdbController`. */
    method Reconcile(w: Wanted, order: seq<Component>, deletable: set<Component>) returns (requeue: bool)
      modifies `pdbs
      ensures (pdbs, requeue) == Pass(env, w, old(pdbs), order, deletable)
    {
      for i := 0 to |order|
        invariant Pass(env, w, pdbs, order[i..], deletable) == Pass(env, w, old(pdbs), order, deletable)
      {
        var c := order[i];
        assert order[i..][0] == c && order[i..][1..] == order[i + 1..];
        var found := c in pdbs;
        if Defined(w, c) {
          var expected := Expected(env, w, c);
          if !found {
            pdbs := pdbs[c := env.Dflt(expected)];
            return true;
          }
          if !env.Derives(expected, pdbs[c]) {
            pdbs := pdbs[c := env.Dflt(expected)];
            return true;
          }
        } else {
          if !found {
            assert pdbs - {c} == pdbs;
            continue;
          }
          Delete(c, c in deletable);
        }
      }
      return false;
    }
  }

  // ---- what every order keeps ----

  lemma AllComponents()
    ensures forall c: Component :: c in ALL
  {
    forall c: Component ensures c in ALL {
      match c { case Api => case Content => case Worker => case Web => }
    }
  }

  /** Where the PDBs must end up, from whatever is in the cluster. */
  function Final(env: Env, w: Wanted, s: State): State {
    map c | c in ALL && Defined(w, c) :: if Due(env, w, s, c) then env.Dflt(Expected(env, w, c)) else s[c]
  }

  function DueSet(env: Env, w: Wanted, s: State): set<Component> { set c | c in ALL && Due(env, w, s, c) }

  ghost predicate Covers(order: seq<Component>) { forall c: Component :: c in order }

  /** No pass changes where the run must end. */
  lemma {:induction false} PassKeepsFinal(env: Env, w: Wanted, s: State, order: seq<Component>, deletable: set<Component>)
    requires Sound(env)
    ensures Final(env, w, Pass(env, w, s, order, deletable).0) == Final(env, w, s)
  {
    AllComponents();
    if order != [] {
      var c := order[0];
      if Due(env, w, s, c) {
        OneWrite(env, w, s, c);
      } else if Defined(w, c) {
        PassKeepsFinal(env, w, s, order[1..], deletable);
      } else {
        assert Final(env, w, s - {c}) == Final(env, w, s);
        PassKeepsFinal(env, w, if c in deletable then s - {c} else s, order[1..], deletable);
      }
    }
  }

  lemma OneWrite(env: Env, w: Wanted, s: State, c: Component)
    requires Sound(env) && Due(env, w, s, c)
    ensures var t := s[c := env.Dflt(Expected(env, w, c))];
      Final(env, w, t) == Final(env, w, s) && DueSet(env, w, t) == DueSet(env, w, s) - {c}
  {
    AllComponents();
    var t := s[c := env.Dflt(Expected(env, w, c))];
    assert env.Derives(Expected(env, w, c), t[c]);
    assert !Due(env, w, t, c);
    assert forall d: Component :: d != c ==> Due(env, w, t, d) == Due(env, w, s, d);
  }

  /** A pass that requeues has repaired exactly one PDB; one that does not has
      found none to repair among those it visited. */
  lemma {:induction false} PassProgress(env: Env, w: Wanted, s: State, order: seq<Component>, deletable: set<Component>)
    requires Sound(env)
    ensures var (t, requeue) := Pass(env, w, s, order, deletable);
      && (requeue ==> exists c :: c in DueSet(env, w, s) && DueSet(env, w, t) == DueSet(env, w, s) - {c})
      && (!requeue ==> DueSet(env, w, t) == DueSet(env, w, s) && forall c :: c in order ==> !Due(env, w, s, c))
      && (!requeue ==> forall c :: c in order && c in deletable && !Defined(w, c) ==> c !in t)
      && (forall c :: c in t && !Defined(w, c) ==> c in s)
      && (forall c :: c in s && c !in t ==> c in deletable && !Defined(w, c))
  {
    AllComponents();
    if order != [] {
      var c := order[0];
      if Due(env, w, s, c) {
        OneWrite(env, w, s, c);
        assert c in DueSet(env, w, s);
      } else if Defined(w, c) {
        PassProgress(env, w, s, order[1..], deletable);
      } else {
        var r := if c in deletable then s - {c} else s;
        assert DueSet(env, w, r) == DueSet(env, w, s);
        PassProgress(env, w, r, order[1..], deletable);
        assert forall d: Component :: Due(env, w, r, d) == Due(env, w, s, d);
      }
    }
  }

  /** A pass over all components that does not requeue leaves the final state
      exactly when no unwanted PDB was left over by a failed delete. */
  lemma QuietPass(env: Env, w: Wanted, s: State, order: seq<Component>, deletable: set<Component>)
    requires Sound(env) && Covers(order) && !Pass(env, w, s, order, deletable).1
    ensures Pass(env, w, s, order, deletable).0 == Final(env, w, s)
            <==> forall c :: c in s && (c !in w || w[c] == map[]) ==> c in deletable
  {
    AllComponents();
    var t := Pass(env, w, s, order, deletable).0;
    PassProgress(env, w, s, order, deletable);
    PassKeepsFinal(env, w, s, order, deletable);
    assert forall c: Component :: Due(env, w, t, c) ==> c in DueSet(env, w, t);
    if forall c :: c in s && !Defined(w, c) ==> c in deletable {
      forall c: Component ensures c in t <==> c in Final(env, w, t) {
        assert !Due(env, w, t, c);
      }
      assert t == Final(env, w, t);
    } else {
      var c :| c in s && !Defined(w, c) && c !in deletable;
      assert c in t && c !in Final(env, w, s);
    }
  }

  // ---- runs ----

  /** Passes, each with an order of its own, until one does not requeue:
      the state, the number of requeues, and whether the run came to rest. */
  function Run(env: Env, w: Wanted, s: State, orders: seq<seq<Component>>): (State, nat, bool)
    decreases |orders|
  {
    if orders == [] then (s, 0, false)
    else
      var (t, requeue) := Pass(env, w, s, orders[0], ALL);
      if !requeue then (t, 0, true)
      else var (u, n, done) := Run(env, w, t, orders[1..]); (u, n + 1, done)
  }

  lemma AtMostFour(env: Env, w: Wanted, s: State)
    ensures |DueSet(env, w, s)| <= 4
  {
    SubsetSize(DueSet(env, w, s), ALL);
  }

  lemma {:induction false} SubsetSize(a: set<Component>, b: set<Component>)
    requires a <= b
    ensures |a| <= |b|
    decreases b
  {
    if a != {} {
      var x :| x in a;
      SubsetSize(a - {x}, b - {x});
    }
  }

  /** However the map is ranged over, a run that is given enough passes comes to
      rest after as many requeues as PDBs were due, and always in the same
      state. */
  lemma {:induction false} RunSettles(env: Env, w: Wanted, s: State, orders: seq<seq<Component>>)
    requires Sound(env) && |orders| > |DueSet(env, w, s)|
    requires forall o :: o in orders ==> Covers(o)
    ensures var (t, n, done) := Run(env, w, s, orders);
      done && t == Final(env, w, s) && n == |DueSet(env, w, s)|
    decreases |orders|
  {
    AllComponents();
    var (t, requeue) := Pass(env, w, s, orders[0], ALL);
    PassProgress(env, w, s, orders[0], ALL);
    if requeue {
      var c :| c in DueSet(env, w, s) && DueSet(env, w, t) == DueSet(env, w, s) - {c};
      PassKeepsFinal(env, w, s, orders[0], ALL);
      RunSettles(env, w, t, orders[1..]);
    } else {
      assert Covers(orders[0]);
      assert DueSet(env, w, s) == {};
      QuietPass(env, w, s, orders[0], ALL);
    }
  }

  /** Confluence: at most four requeues, the same final state for every choice
      of orders, and in it a PDB exactly for each component with a non-empty
      spec: the one that was there if it derives from that spec and the
      component's selector, and otherwise a new one of just these fields. */
  lemma Confluent(env: Env, w: Wanted, s: State, orders: seq<seq<Component>>, others: seq<seq<Component>>)
    requires Sound(env) && |orders| > 4 && |others| > 4
    requires forall o :: o in orders || o in others ==> Covers(o)
    ensures Run(env, w, s, orders).2 && Run(env, w, s, orders) == Run(env, w, s, others)
    ensures Run(env, w, s, orders).1 <= 4
    ensures var t := Run(env, w, s, orders).0;
      forall c: Component ::
        && (c in t <==> c in w && w[c] != map[])
        && (c in t ==>
              var wanted := w[c]["selector" := env.Selector(c)];
              && env.Derives(wanted, t[c])
              && t[c] == if c in s && env.Derives(wanted, s[c]) then s[c] else env.Dflt(wanted))
  {
    AllComponents();
    AtMostFour(env, w, s);
    RunSettles(env, w, s, orders);
    RunSettles(env, w, s, others);
    var t := Final(env, w, s);
    forall c: Component
      ensures c in t <==> c in w && w[c] != map[]
      ensures c in t ==>
                var wanted := w[c]["selector" := env.Selector(c)];
                env.Derives(wanted, t[c]) && t[c] == if c in s && env.Derives(wanted, s[c]) then s[c] else env.Dflt(wanted)
    {
    }
  }

  /** The final state is a fixpoint: every further pass leaves it alone. */
  lemma FinalIsStable(env: Env, w: Wanted, s: State, order: seq<Component>)
    requires Sound(env)
    ensures Pass(env, w, Final(env, w, s), order, ALL) == (Final(env, w, s), false)
    decreases |order|
  {
    AllComponents();
    var t := Final(env, w, s);
    if order != [] {
      var c := order[0];
      assert !Due(env, w, t, c);
      if !Defined(w, c) { assert t - {c} == t; }
      FinalIsStable(env, w, s, order[1..]);
    }
  }

  /** Deletes are not retried in the same run: with one failing, a single quiet
      pass can end with a PDB the CR no longer wants. */
  lemma FailedDeleteStays(env: Env, w: Wanted, s: State, order: seq<Component>, c: Component)
    requires Sound(env) && Covers(order) && DueSet(env, w, s) == {} && c in s && !Defined(w, c)
    ensures !Pass(env, w, s, order, ALL - {c}).1 && c in Pass(env, w, s, order, ALL - {c}).0
    ensures !Pass(env, w, s, order, ALL).1 && c !in Pass(env, w, s, order, ALL).0
  {
    AllComponents();
    PassProgress(env, w, s, order, ALL - {c});
    PassProgress(env, w, s, order, ALL);
  }
}
