/** The way back: components that have become ready are recorded as ready, and
    the check that finds all of them ready finishes. */
module StatusRecovery {
  import opened Pulp
  import opened StatusConditions

  /** The shared copy and every write under way say the same of a component. */
  ghost predicate Agreed(w: World, c: Component, v: bool) {
    && Holds(w.memory, Ready(c), v)
    && forall d :: d in w.pcs ==> Carries(w.pcs[d], Ready(c), v)
  }

  predicate Raising(pc: Pc) { pc == Looking(true) || pc == Clearing(true) || pc == Setting(true) }

  lemma SetAgreed(a: Action, c: Component, d: Component, cell: Cell, commits: bool, v: bool)
    requires Holds(a.memory, Ready(c), v) && a.pc.Setting? && (d == c ==> a.pc.value == v)
    ensures var b := Act(a, d, cell, commits);
      Holds(b.memory, Ready(c), v) && Carries(b.pc, Ready(c), v)
  {
    AllCells(Ready(c));
  }

  lemma ActAgreed(a: Action, c: Component, d: Component, cell: Cell, commits: bool, v: bool)
    requires Holds(a.memory, Ready(c), v) && Carries(a.pc, Ready(c), v)
    requires d == c && a.pc.Setting? ==> a.pc.value == v
    ensures var b := Act(a, d, cell, commits);
      Holds(b.memory, Ready(c), v) && Carries(b.pc, Ready(c), v)
  {
    match a.pc
    case Setting(u) => SetAgreed(a, c, d, cell, commits, v);
    case Serialising(seen, left) => CopiedLaw(a.memory, seen, cell, Ready(c), v);
    case Receiving(body, left) => CopiedLaw(body, a.memory, cell, Ready(c), v);
    case _ =>
  }

  lemma ActStores(a: Action, c: Component, d: Component, cell: Cell, commits: bool, v: bool)
    requires Carries(a.pc, Ready(c), v)
    ensures var b := Act(a, d, cell, commits);
      && (b.persisted == a.persisted || Holds(b.persisted, Ready(c), v))
      && (a.pc.Sending? && commits ==> Holds(b.persisted, Ready(c), v))
  {
  }

  lemma StepAgreed(w: World, c: Component, m: Move, v: bool)
    requires Agreed(w, c, v) && (m.component == c && c in w.pcs && w.pcs[c].Setting? ==> w.pcs[c].value == v)
    ensures var t := StepPc(w, m);
      && Agreed(t, c, v)
      && (t.persisted == w.persisted || Holds(t.persisted, Ready(c), v))
      && (m.component in w.pcs && w.pcs[m.component].Sending? && m.commits ==> Holds(t.persisted, Ready(c), v))
  {
    if m.component in w.pcs {
      ActAgreed(Local(w, m.component), c, m.component, m.cell, m.commits, v);
      ActStores(Local(w, m.component), c, m.component, m.cell, m.commits, v);
    }
  }

  /** Everybody says that the component is not ready until it sets its
      condition; everybody says that it is afterwards, and once its write is
      through it is stored. */
  ghost predicate Recovering(w: World, c: Component, lost: bool) {
    && c in w.pcs
    && ((Agreed(w, c, false) && Raising(w.pcs[c]))
        || (Agreed(w, c, true) && (InFlight(w.pcs[c]) || w.pcs[c].Done?)
            && (w.pcs[c].Receiving? || (w.pcs[c].Done? && !lost) ==> Holds(w.persisted, Ready(c), true))))
  }

  lemma StepRaises(w: World, c: Component, m: Move)
    requires c in w.pcs && w.pcs[c] == Setting(true) && m.component == c && Agreed(w, c, false)
    requires forall d :: d in w.pcs && d != c ==> !InFlight(w.pcs[d])
    ensures Agreed(StepPc(w, m), c, true) && StepPc(w, m).pcs[c].Serialising?
  {
    AllCells(Ready(c));
  }

  lemma StepRecovers(w: World, c: Component, lost: bool, m: Move)
    requires Recovering(w, c, lost)
    requires m.component == c && w.pcs[c].Setting? ==> forall d :: d in w.pcs && d != c ==> !InFlight(w.pcs[d])
    ensures Recovering(StepPc(w, m), c, lost || (m.component == c && w.pcs[c].Sending? && !m.commits))
  {
    if Agreed(w, c, false) {
      if m.component == c && w.pcs[c].Setting? {
        StepRaises(w, c, m);
      } else {
        StepAgreed(w, c, m, false);
      }
    } else {
      StepAgreed(w, c, m, true);
    }
  }

  lemma {:induction false} InterleavingRecovers(w: World, c: Component, ms: seq<Move>)
    requires Recovering(w, c, false) && !SetsDuringWrite(w, c, ms)
    ensures Recovering(Interleave(w, ms), c, WriteLost(w, c, ms))
  {
    if ms != [] {
      InterleavingRecovers(w, c, ms[..|ms| - 1]);
      StepRecovers(Interleave(w, ms[..|ms| - 1]), c, WriteLost(w, c, ms[..|ms| - 1]), ms[|ms| - 1]);
    }
  }

  /** A component that was recorded as not ready and is seen ready is recorded
      as ready, in every interleaving, unless its write meets a conflict or it
      sets its condition while another goroutine's write is under way. */
  lemma ReadyIsStored(s: State, views: map<Component, bool>, ms: seq<Move>, commits: bool, c: Component)
    requires s.memory == s.persisted && Holds(s.persisted, Ready(c), false) && c in views && views[c]
    requires AllDone(Interleave(Spawned(s, views), ms))
    requires !WriteLost(Spawned(s, views), c, ms) && !SetsDuringWrite(Spawned(s, views), c, ms)
    ensures Holds(Step(s, Check(views, ms, commits)).persisted, Ready(c), true)
  {
    var w := Spawned(s, views);
    InterleavingRecovers(w, c, ms);
    assert Interleave(w, ms).pcs[c].Done?;
  }

  // ---- components with nothing to record ----

  ghost predicate Steady(w: World, c: Component) {
    && !Holds(w.memory, Ready(c), false) && !Holds(w.persisted, Ready(c), false)
    && (c in w.pcs ==> w.pcs[c] == Looking(true) || w.pcs[c].Done?)
    && forall d :: d in w.pcs ==> NeverCarries(w.pcs[d], Ready(c))
  }

  lemma ActSteady(a: Action, c: Component, d: Component, cell: Cell, commits: bool)
    requires !Holds(a.memory, Ready(c), false) && !Holds(a.persisted, Ready(c), false) && NeverCarries(a.pc, Ready(c))
    requires d == c ==> a.pc == Looking(true) || a.pc.Done?
    ensures var b := Act(a, d, cell, commits);
      && !Holds(b.memory, Ready(c), false) && !Holds(b.persisted, Ready(c), false) && NeverCarries(b.pc, Ready(c))
      && (d == c ==> b.pc.Done?)
  {
    match a.pc
    case Serialising(seen, left) => CopiedLaw(a.memory, seen, cell, Ready(c), false);
    case Receiving(body, left) => CopiedLaw(body, a.memory, cell, Ready(c), false);
    case _ =>
  }

  lemma {:induction false} InterleavingSteady(w: World, c: Component, ms: seq<Move>)
    requires Steady(w, c)
    ensures Steady(Interleave(w, ms), c)
  {
    if ms != [] {
      InterleavingSteady(w, c, ms[..|ms| - 1]);
      var before, m := Interleave(w, ms[..|ms| - 1]), ms[|ms| - 1];
      if m.component in before.pcs { ActSteady(Local(before, m.component), c, m.component, m.cell, m.commits); }
    }
  }

  // ---- the finished condition is never lost ----

  predicate Keeps(pc: Pc) {
    match pc
    case Serialising(seen, left) => Finished in left || Finished in seen
    case Sending(body) => Finished in body
    case Receiving(body, left) => Finished in body
    case _ => true
  }

  ghost predicate Present(w: World) {
    Finished in w.memory && Finished in w.persisted && forall d :: d in w.pcs ==> Keeps(w.pcs[d])
  }

  lemma ActPresent(a: Action, d: Component, cell: Cell, commits: bool)
    requires Finished in a.memory && Finished in a.persisted && Keeps(a.pc)
    ensures var b := Act(a, d, cell, commits); Finished in b.memory && Finished in b.persisted && Keeps(b.pc)
  {
  }

  lemma {:induction false} InterleavingPresent(w: World, ms: seq<Move>)
    requires Present(w)
    ensures Present(Interleave(w, ms))
  {
    if ms != [] {
      InterleavingPresent(w, ms[..|ms| - 1]);
      var before, m := Interleave(w, ms[..|ms| - 1]), ms[|ms| - 1];
      if m.component in before.pcs { ActPresent(Local(before, m.component), m.component, m.cell, m.commits); }
    }
  }

  /** No write of the check is lost, and no condition is set during another's
      write. */
  ghost predicate Orderly(w: World, ms: seq<Move>) {
    forall c: Component :: !WriteLost(w, c, ms) && !SetsDuringWrite(w, c, ms)
  }

  /** Every component that is looked at is ready, and every one recorded as not
      ready is looked at. */
  ghost predicate AllReady(p: Status, views: map<Component, bool>) {
    && (forall c :: c in views ==> views[c])
    && (forall c: Component :: Holds(p, Ready(c), false) ==> c in views)
  }

  lemma RecoveryFinishes(s: State, views: map<Component, bool>, ms: seq<Move>)
    requires Honest(s.persisted) && s.memory == s.persisted && Finished in s.persisted && AllReady(s.persisted, views)
    requires AllDone(Interleave(Spawned(s, views), ms)) && Orderly(Spawned(s, views), ms)
    ensures var p := Step(s, Check(views, ms, true)).persisted;
      && Holds(p, Finished, true)
      && forall c: Component :: !Holds(p, Ready(c), false) && (Holds(s.persisted, Ready(c), false) ==> Holds(p, Ready(c), true))
  {
    var w := Spawned(s, views);
    var left := Interleave(w, ms).persisted;
    InterleavingPresent(w, ms);
    forall c: Component
      ensures !Holds(left, Ready(c), false) && (Holds(s.persisted, Ready(c), false) ==> Holds(left, Ready(c), true))
    {
      if Holds(s.persisted, Ready(c), false) {
        InterleavingRecovers(w, c, ms);
        assert Interleave(w, ms).pcs[c].Done?;
      } else {
        InterleavingSteady(w, c, ms);
      }
    }
    assert !SomeFalse(left);
  }

  lemma {:induction false} SkippedStays(w: World, c: Component, ms: seq<Move>)
    requires Agreed(w, c, false) && Holds(w.persisted, Ready(c), false) && c !in w.pcs
    ensures var t := Interleave(w, ms); Agreed(t, c, false) && Holds(t.persisted, Ready(c), false) && c !in t.pcs
  {
    if ms != [] {
      SkippedStays(w, c, ms[..|ms| - 1]);
      StepAgreed(Interleave(w, ms[..|ms| - 1]), c, ms[|ms| - 1], false);
    }
  }

  /** In every orderly interleaving a check finishes exactly when every component
      it looks at is ready and every one recorded as not ready is looked at. */
  lemma FinishesExactlyWhenReady(s: State, views: map<Component, bool>, ms: seq<Move>)
    requires Honest(s.persisted) && s.memory == s.persisted && Finished in s.persisted
    requires AllDone(Interleave(Spawned(s, views), ms)) && Orderly(Spawned(s, views), ms)
    ensures Holds(Step(s, Check(views, ms, true)).persisted, Finished, true)
            <==> && (forall c :: c in views ==> views[c])
                 && (forall c: Component :: Holds(s.persisted, Ready(c), false) ==> c in views)
  {
    if AllReady(s.persisted, views) {
      RecoveryFinishes(s, views, ms);
    } else if c :| c in views && !views[c] {
      UnreadyIsStored(s, views, ms, true, c);
    } else {
      var c: Component :| Holds(s.persisted, Ready(c), false) && c !in views;
      SkippedStays(Spawned(s, views), c, ms);
      FinishedAfterCheck(s, views, ms, true);
      assert SomeFalse(Interleave(Spawned(s, views), ms).persisted);
    }
  }
}
