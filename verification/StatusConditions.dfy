/** The condition that says the operator has finished. It is set from a check
    that runs one goroutine per component, all of them sharing one copy of the
    CR: every read and write of a condition can interleave with the others', a
    status write sends whatever the copy holds while it is being serialised, and
    the response overwrites the copy. */
module StatusConditions {
  import opened Pulp

  datatype Cell = Finished | Ready(component: Component)

  /** The conditions that are present. */
  type Status = map<Cell, bool>

  const CELLS: set<Cell> := {Finished, Ready(Api), Ready(Content), Ready(Worker), Ready(Web)}

  predicate Holds(st: Status, c: Cell, v: bool) { c in st && st[c] == v }

  predicate SomeFalse(st: Status) { exists c: Component :: Holds(st, Ready(c), false) }

  /** The claim the status must never make too early. */
  predicate Honest(st: Status) { Holds(st, Finished, true) ==> !SomeFalse(st) }

  // ---- one call on its own ----

  function ClearFinished(st: Status): Status {
    if Holds(st, Finished, true) then st[Finished := false] else st
  }

  /** `UpdateStatus` for one of the four components, or (`None`) for any other
      condition, on a copy nobody else touches: the copy and what is stored. */
  function UpdateStatus(memory: Status, persisted: Status, c: Option<Component>, v: bool, commits: bool): (Status, Status) {
    var a := ClearFinished(memory);
    if c.Some? && Holds(a, Ready(c.value), v) then (a, persisted)
    else
      var b := if c.Some? then a[Ready(c.value) := v] else a;
      (b, if commits then b else persisted)
  }

  /** The last part of `setStatusConditions`: `copy` is the first read. */
  function Conclude(copy: Status, persisted: Status, commits: bool): Status {
    if SomeFalse(copy) then persisted
    else if Holds(copy, Finished, false) then (if commits then persisted[Finished := true] else persisted)
    else persisted
  }

  class Reconciler {
    var memory: Status
    var persisted: Status

    constructor (persisted: Status)
      ensures memory == persisted && this.persisted == persisted
    {
      memory, this.persisted := persisted, persisted;
    }

    method StatusUpdate(commits: bool)
      modifies `persisted
      ensures persisted == if commits then memory else old(persisted)
    {
      if commits { persisted := memory; }
    }

    method SetCondition(c: Option<Component>, v: bool, commits: bool)
      modifies this
      ensures (memory, persisted) == UpdateStatus(old(memory), old(persisted), c, v, commits)
    {
      if Holds(memory, Finished, true) { memory := memory[Finished := false]; }
      if c.None? || !Holds(memory, Ready(c.value), v) {
        if c.Some? { memory := memory[Ready(c.value) := v]; }
        StatusUpdate(commits);
      }
    }

    /** After the goroutines have been waited for. */
    method FinishExecution(commits: bool) returns (requeue: bool)
      modifies this
      ensures persisted == Conclude(old(persisted), old(persisted), commits)
      ensures old(SomeFalse(persisted)) ==> requeue
    {
      memory := persisted;
      var components := [Content, Api, Worker, Web];
      for i := 0 to 4
        invariant memory == persisted == old(persisted)
        invariant forall j :: 0 <= j < i ==> !Holds(memory, Ready(components[j]), false)
      {
        if Holds(memory, Ready(components[i]), false) { return true; }
      }
      NoneFalse(memory, components);
      if Holds(memory, Finished, false) {
        memory := persisted;
        memory := memory[Finished := true];
        StatusUpdate(commits);
        return !commits;
      }
      return false;
    }
  }

  lemma NoneFalse(st: Status, cs: seq<Component>)
    requires cs == [Content, Api, Worker, Web]
    requires forall j :: 0 <= j < 4 ==> !Holds(st, Ready(cs[j]), false)
    ensures !SomeFalse(st)
  {
    assert !Holds(st, Ready(cs[0]), false) && !Holds(st, Ready(cs[1]), false)
        && !Holds(st, Ready(cs[2]), false) && !Holds(st, Ready(cs[3]), false);
    forall c: Component ensures !Holds(st, Ready(c), false) {
      match c { case Api => case Content => case Worker => case Web => }
    }
  }

  // ---- the goroutines, step by step ----

  /** Where the goroutine of one component is. `value` is the state it is about
      to record. */
  datatype Pc =
    | Looking(ready: bool)                     // has seen the Deployment
    | Clearing(value: bool)                    // entered UpdateStatus
    | Setting(value: bool)
    | Serialising(seen: Status, left: set<Cell>)
    | Sending(body: Status)
    | Receiving(body: Status, left: set<Cell>)
    | Done

  datatype World = World(persisted: Status, memory: Status, pcs: map<Component, Pc>, cleared: bool)

  /** What can happen next; `cell` and `commits` are the scheduler's and the API
      server's choices. */
  datatype Move = Move(component: Component, cell: Cell, commits: bool)

  function Copied(from: Status, to: Status, c: Cell): Status {
    if c in from then to[c := from[c]] else to - {c}
  }

  /** What one goroutine does next to the stored status, the shared copy and
      itself. */
  datatype Action = Action(persisted: Status, memory: Status, pc: Pc, cleared: bool)

  function Act(a: Action, c: Component, cell: Cell, commits: bool): Action {
    match a.pc
    case Looking(ready) =>
      if !ready then a.(pc := Clearing(false))
      else if Holds(a.memory, Ready(c), false) then a.(pc := Clearing(true))
      else a.(pc := Done)
    case Clearing(v) => a.(memory := ClearFinished(a.memory), cleared := true, pc := Setting(v))
    case Setting(v) =>
      if Holds(a.memory, Ready(c), v) then a.(pc := Done)
      else a.(memory := a.memory[Ready(c) := v], pc := Serialising(map[], CELLS))
    case Serialising(seen, left) =>
      if left == {} then a.(pc := Sending(seen))
      else if cell in left then a.(pc := Serialising(Copied(a.memory, seen, cell), left - {cell}))
      else a
    case Sending(body) => if commits then a.(persisted := body, pc := Receiving(body, CELLS)) else a.(pc := Done)
    case Receiving(body, left) =>
      if left == {} then a.(pc := Done)
      else if cell in left then a.(memory := Copied(body, a.memory, cell), pc := Receiving(body, left - {cell}))
      else a
    case Done => a
  }

  function Local(w: World, c: Component): Action
    requires c in w.pcs
  {
    Action(w.persisted, w.memory, w.pcs[c], w.cleared)
  }

  function StepPc(w: World, m: Move): World {
    if m.component !in w.pcs then w
    else
      var a := Act(Local(w, m.component), m.component, m.cell, m.commits);
      World(a.persisted, a.memory, w.pcs[m.component := a.pc], a.cleared)
  }

  function Interleave(w: World, ms: seq<Move>): World {
    if ms == [] then w else StepPc(Interleave(w, ms[..|ms| - 1]), ms[|ms| - 1])
  }

  predicate AllCommit(ms: seq<Move>) { forall i :: 0 <= i < |ms| ==> ms[i].commits }

  predicate AllDone(w: World) { forall c :: c in w.pcs ==> w.pcs[c].Done? }

  /** A body under way never says "finished". */
  predicate Modest(w: World, pc: Pc) {
    match pc
    case Looking(_) => true
    case Clearing(_) => true
    case Setting(_) => w.cleared
    case Serialising(seen, _) => w.cleared && !Holds(seen, Finished, true)
    case Sending(body) => w.cleared && !Holds(body, Finished, true)
    case Receiving(body, _) => w.cleared && !Holds(body, Finished, true)
    case Done => true
  }

  ghost predicate Invariant(w: World) {
    && Honest(w.persisted)
    && (w.cleared ==> !Holds(w.memory, Finished, true))
    && (!w.cleared ==> Honest(w.memory))
    && (forall c :: c in w.pcs ==> Modest(w, w.pcs[c]))
  }

  lemma StepKeepsInvariant(w: World, m: Move)
    requires Invariant(w)
    ensures Invariant(StepPc(w, m))
  {
  }

  lemma {:induction false} InterleavingKeepsInvariant(w: World, ms: seq<Move>)
    requires Invariant(w)
    ensures Invariant(Interleave(w, ms))
  {
    if ms != [] {
      InterleavingKeepsInvariant(w, ms[..|ms| - 1]);
      StepKeepsInvariant(Interleave(w, ms[..|ms| - 1]), ms[|ms| - 1]);
    }
  }

  // ---- whole runs of one worker ----

  datatype State = State(persisted: Status, memory: Status)

  datatype Event =
    | Read                                                     // a pass starts, or reads the CR again
    | Set(target: Option<Component>, value: bool, commits: bool)
    | Forget(component: Component)                             // RemoveStatusCondition
    | WriteOut(commits: bool)                                  // any other status write
    | Check(views: map<Component, bool>, moves: seq<Move>, commits: bool)

  function Spawned(s: State, views: map<Component, bool>): World {
    World(s.persisted, s.memory, map c | c in views :: Looking(views[c]), false)
  }

  function Step(s: State, e: Event): State {
    match e
    case Read => State(s.persisted, s.persisted)
    case Set(c, v, ok) => var (m, p) := UpdateStatus(s.memory, s.persisted, c, v, ok); State(p, m)
    case Forget(c) => State(s.persisted, s.memory - {Ready(c)})
    case WriteOut(ok) => State(if ok then s.memory else s.persisted, s.memory)
    case Check(views, ms, ok) =>
      var w := Interleave(Spawned(s, views), ms);
      var p := Conclude(w.persisted, w.persisted, ok);
      State(p, p)
  }

  function Run(s: State, es: seq<Event>): State {
    if es == [] then s else Step(Run(s, es[..|es| - 1]), es[|es| - 1])
  }

  lemma SetKeepsHonest(memory: Status, persisted: Status, c: Option<Component>, v: bool, commits: bool)
    requires Honest(memory) && Honest(persisted)
    ensures var (m, p) := UpdateStatus(memory, persisted, c, v, commits); Honest(m) && Honest(p)
  {
  }

  lemma ConcludeKeepsHonest(p: Status, commits: bool)
    requires Honest(p)
    ensures Honest(Conclude(p, p, commits))
  {
    var q := p[Finished := true];
    assert forall c: Component :: Holds(q, Ready(c), false) ==> Holds(p, Ready(c), false);
  }

  lemma StepKeepsHonest(s: State, e: Event)
    requires Honest(s.persisted) && Honest(s.memory)
    ensures Honest(Step(s, e).persisted) && Honest(Step(s, e).memory)
  {
    match e
    case Read =>
    case Set(c, v, ok) => SetKeepsHonest(s.memory, s.persisted, c, v, ok);
    case Forget(c) =>
      var m := s.memory - {Ready(c)};
      assert forall d: Component :: Holds(m, Ready(d), false) ==> Holds(s.memory, Ready(d), false);
    case WriteOut(ok) =>
    case Check(views, ms, ok) =>
      InterleavingKeepsInvariant(Spawned(s, views), ms);
      ConcludeKeepsHonest(Interleave(Spawned(s, views), ms).persisted, ok);
  }

  /** Finished is never claimed early: over any run of one worker, in every
      interleaving of the goroutines and with every status write either stored
      as a whole or lost, the stored status never says finished while one of
      the four conditions is False. */
  lemma {:induction false} FinishedIsHonest(s: State, es: seq<Event>)
    requires Honest(s.persisted) && Honest(s.memory)
    ensures Honest(Run(s, es).persisted) && Honest(Run(s, es).memory)
  {
    if es != [] {
      FinishedIsHonest(s, es[..|es| - 1]);
      StepKeepsHonest(Run(s, es[..|es| - 1]), es[|es| - 1]);
    }
  }

  // ---- a goroutine that is left alone ----

  lemma {:induction false} InterleaveThen(w: World, a: seq<Move>, b: seq<Move>)
    ensures Interleave(w, a + b) == Interleave(Interleave(w, a), b)
    decreases |b|
  {
    if b == [] {
      assert a + b == a;
    } else {
      var n := |b| - 1;
      assert (a + b)[..|a + b| - 1] == a + b[..n];
      InterleaveThen(w, a, b[..n]);
    }
  }

  lemma AllCells(c: Cell)
    ensures c in CELLS
  {
    match c
    case Finished =>
    case Ready(k) => match k { case Api => case Content => case Worker => case Web => }
  }

  /** What has been read of an undisturbed copy. */
  ghost predicate ReadSoFar(memory: Status, seen: Status, left: set<Cell>) {
    forall c: Cell :: if c in left then c !in seen else (c in seen <==> c in memory) && (c in seen ==> seen[c] == memory[c])
  }

  lemma ReadOneMore(memory: Status, seen: Status, left: set<Cell>, x: Cell)
    requires ReadSoFar(memory, seen, left) && x in left
    ensures ReadSoFar(memory, Copied(memory, seen, x), left - {x})
  {
  }

  lemma {:induction false} SerialisesMemory(w: World, c: Component, seen: Status, left: set<Cell>) returns (ms: seq<Move>)
    requires c in w.pcs && w.pcs[c] == Serialising(seen, left) && ReadSoFar(w.memory, seen, left)
    ensures Interleave(w, ms) == w.(pcs := w.pcs[c := Sending(w.memory)]) && AllCommit(ms)
    decreases |left|
  {
    if left == {} {
      assert seen == w.memory;
      ms := [Move(c, Finished, true)];
      assert ms[..0] == [];
    } else {
      var x :| x in left;
      var m := Move(c, x, true);
      var w' := StepPc(w, m);
      ReadOneMore(w.memory, seen, left, x);
      var rest := SerialisesMemory(w', c, Copied(w.memory, seen, x), left - {x});
      ms := [m] + rest;
      InterleaveThen(w, [m], rest);
      assert [m][..0] == [];
      assert w'.pcs[c := Sending(w.memory)] == w.pcs[c := Sending(w.memory)];
    }
  }

  /** A copy that differs from the response at most in cells still to be
      received. */
  ghost predicate AgreesOutside(memory: Status, body: Status, left: set<Cell>) {
    forall c: Cell :: c !in left ==> (c in memory <==> c in body) && (c in memory ==> memory[c] == body[c])
  }

  lemma {:induction false} ReceivesBody(w: World, c: Component, body: Status, left: set<Cell>) returns (ms: seq<Move>)
    requires c in w.pcs && w.pcs[c] == Receiving(body, left) && AgreesOutside(w.memory, body, left)
    ensures Interleave(w, ms) == w.(memory := body, pcs := w.pcs[c := Done]) && AllCommit(ms)
    decreases |left|
  {
    if left == {} {
      assert w.memory == body;
      ms := [Move(c, Finished, true)];
      assert ms[..0] == [];
    } else {
      var x :| x in left;
      var m := Move(c, x, true);
      var w' := StepPc(w, m);
      var rest := ReceivesBody(w', c, body, left - {x});
      ms := [m] + rest;
      InterleaveThen(w, [m], rest);
      assert [m][..0] == [];
      assert w'.pcs[c := Done] == w.pcs[c := Done];
    }
  }

  /** An undisturbed status write stores the copy, or nothing. */
  lemma WritesMemory(w: World, c: Component, commits: bool) returns (ms: seq<Move>)
    requires c in w.pcs && w.pcs[c] == Serialising(map[], CELLS)
    ensures Interleave(w, ms) == w.(persisted := if commits then w.memory else w.persisted, pcs := w.pcs[c := Done])
    ensures commits ==> AllCommit(ms)
  {
    AllInitiallyUnread(w.memory);
    var a := SerialisesMemory(w, c, map[], CELLS);
    var m := Move(c, Finished, commits);
    var w1 := w.(pcs := w.pcs[c := Sending(w.memory)]);
    var w2 := StepPc(w1, m);
    OneMove(w1, m);
    InterleaveThen(w, a, [m]);
    ms := a + [m];
    if commits {
      var b := ReceivesBody(w2, c, w.memory, CELLS);
      InterleaveThen(w, ms, b);
      ms := ms + b;
      assert w2.pcs[c := Done] == w.pcs[c := Done];
    } else {
      assert w2.pcs == w.pcs[c := Done];
    }
  }

  /** The steps are those of the call: a goroutine in `UpdateStatus` that nobody
      disturbs ends with exactly what the call computes. */
  lemma AloneIsUpdateStatus(w: World, c: Component, v: bool, commits: bool) returns (ms: seq<Move>)
    requires c in w.pcs && w.pcs[c] == Clearing(v)
    ensures var t := Interleave(w, ms);
      && (t.memory, t.persisted) == UpdateStatus(w.memory, w.persisted, Some(c), v, commits)
      && t.pcs == w.pcs[c := Done] && t.cleared
    ensures commits ==> AllCommit(ms)
  {
    var m := Move(c, Finished, commits);
    var w2 := StepPc(StepPc(w, m), m);
    ms := [m, m];
    TwoMoves(w, m);
    if w2.pcs[c].Done? {
      assert w2.pcs == w.pcs[c := Done];
    } else {
      var rest := WritesMemory(w2, c, commits);
      InterleaveThen(w, ms, rest);
      ms := ms + rest;
      assert w2.pcs[c := Done] == w.pcs[c := Done];
    }
  }

  lemma AllInitiallyUnread(memory: Status)
    ensures ReadSoFar(memory, map[], CELLS)
  {
    forall c: Cell ensures c in CELLS { AllCells(c); }
  }

  lemma OneMove(w: World, m: Move)
    ensures Interleave(w, [m]) == StepPc(w, m)
  {
    assert [m][..0] == [];
  }

  lemma TwoMoves(w: World, m: Move)
    ensures Interleave(w, [m, m]) == StepPc(StepPc(w, m), m)
  {
    OneMove(w, m);
    assert [m, m][..1] == [m];
  }

  // ---- what the claim does not cover ----

  /** What the check stores: it says finished exactly when the goroutines left
      no condition False and either finished was already said or it was present
      and the last write goes through. */
  lemma FinishedAfterCheck(s: State, views: map<Component, bool>, ms: seq<Move>, commits: bool)
    requires Honest(s.persisted) && Honest(s.memory)
    ensures var left := Interleave(Spawned(s, views), ms).persisted;
      Holds(Step(s, Check(views, ms, commits)).persisted, Finished, true)
      <==> !SomeFalse(left) && (Holds(left, Finished, true) || (Holds(left, Finished, false) && commits))
  {
    InterleavingKeepsInvariant(Spawned(s, views), ms);
  }

  predicate InFlight(pc: Pc) { pc.Serialising? || pc.Sending? || pc.Receiving? }

  /** The status write of a goroutine meets a conflict. */
  ghost predicate WriteLost(w: World, c: Component, ms: seq<Move>) {
    && ms != []
    && var before, m := Interleave(w, ms[..|ms| - 1]), ms[|ms| - 1];
       WriteLost(w, c, ms[..|ms| - 1])
       || (m.component == c && c in before.pcs && before.pcs[c].Sending? && !m.commits)
  }

  /** A goroutine sets its condition while another one's write is under way. */
  ghost predicate SetsDuringWrite(w: World, c: Component, ms: seq<Move>) {
    && ms != []
    && var before, m := Interleave(w, ms[..|ms| - 1]), ms[|ms| - 1];
       SetsDuringWrite(w, c, ms[..|ms| - 1])
       || (m.component == c && c in before.pcs && before.pcs[c].Setting?
           && exists d :: d in before.pcs && d != c && InFlight(before.pcs[d]))
  }

  /** What a write under way says, or will say, of a cell. */
  predicate Carries(pc: Pc, c: Cell, v: bool) {
    match pc
    case Serialising(seen, left) => c in left || Holds(seen, c, v)
    case Sending(body) => Holds(body, c, v)
    case Receiving(body, left) => Holds(body, c, v)
    case _ => true
  }

  predicate NeverCarries(pc: Pc, c: Cell) {
    match pc
    case Serialising(seen, left) => !Holds(seen, c, false)
    case Sending(body) => !Holds(body, c, false)
    case Receiving(body, left) => !Holds(body, c, false)
    case _ => true
  }

  predicate Before(pc: Pc) { pc == Looking(false) || pc == Clearing(false) || pc == Setting(false) }

  /** Nobody says yet that the component is not ready. */
  ghost predicate Unknown(w: World, c: Component) {
    && c in w.pcs && Before(w.pcs[c]) && !Holds(w.memory, Ready(c), false)
    && forall d :: d in w.pcs ==> NeverCarries(w.pcs[d], Ready(c))
  }

  /** The shared copy and every write under way say that it is not ready. */
  ghost predicate Known(w: World, c: Component) {
    && c in w.pcs && (Before(w.pcs[c]) || InFlight(w.pcs[c]) || w.pcs[c].Done?)
    && Holds(w.memory, Ready(c), false)
    && forall d :: d in w.pcs ==> Carries(w.pcs[d], Ready(c), false)
  }

  lemma CopiedLaw(from: Status, to: Status, x: Cell, c: Cell, v: bool)
    ensures Holds(Copied(from, to, x), c, v) == if x == c then Holds(from, c, v) else Holds(to, c, v)
  {
  }

  lemma ActUnknown(a: Action, c: Component, d: Component, cell: Cell, commits: bool)
    requires !Holds(a.memory, Ready(c), false) && NeverCarries(a.pc, Ready(c))
    requires d == c ==> a.pc == Looking(false) || a.pc == Clearing(false)
    ensures var b := Act(a, d, cell, commits);
      && !Holds(b.memory, Ready(c), false) && NeverCarries(b.pc, Ready(c)) && (d == c ==> Before(b.pc))
  {
    match a.pc
    case Serialising(seen, left) => CopiedLaw(a.memory, seen, cell, Ready(c), false);
    case Receiving(body, left) => CopiedLaw(body, a.memory, cell, Ready(c), false);
    case _ =>
  }

  lemma StepUnknown(w: World, c: Component, m: Move)
    requires Unknown(w, c) && !(m.component == c && w.pcs[c].Setting?)
    ensures Unknown(StepPc(w, m), c)
  {
    if m.component in w.pcs { ActUnknown(Local(w, m.component), c, m.component, m.cell, m.commits); }
  }

  predicate Lowering(pc: Pc) { Before(pc) || InFlight(pc) || pc.Done? }

  lemma SetKnown(a: Action, c: Component, d: Component, cell: Cell, commits: bool)
    requires Holds(a.memory, Ready(c), false) && a.pc.Setting? && (d == c ==> !a.pc.value)
    ensures var b := Act(a, d, cell, commits);
      Holds(b.memory, Ready(c), false) && Carries(b.pc, Ready(c), false) && (b.pc.Done? || InFlight(b.pc))
  {
    AllCells(Ready(c));
  }

  lemma ActKnown(a: Action, c: Component, d: Component, cell: Cell, commits: bool)
    requires Holds(a.memory, Ready(c), false) && Carries(a.pc, Ready(c), false) && (d == c ==> Lowering(a.pc))
    ensures var b := Act(a, d, cell, commits);
      Holds(b.memory, Ready(c), false) && Carries(b.pc, Ready(c), false) && (d == c ==> Lowering(b.pc))
  {
    match a.pc
    case Setting(v) => SetKnown(a, c, d, cell, commits);
    case Serialising(seen, left) => CopiedLaw(a.memory, seen, cell, Ready(c), false);
    case Receiving(body, left) => CopiedLaw(body, a.memory, cell, Ready(c), false);
    case _ =>
  }

  lemma ActStoresKnown(a: Action, c: Component, d: Component, cell: Cell, commits: bool)
    requires Carries(a.pc, Ready(c), false)
    ensures var b := Act(a, d, cell, commits);
      && (b.persisted == a.persisted || Holds(b.persisted, Ready(c), false))
      && (a.pc.Sending? && commits ==> Holds(b.persisted, Ready(c), false))
  {
  }

  lemma StepKnown(w: World, c: Component, m: Move)
    requires Known(w, c)
    ensures var t := StepPc(w, m);
      && Known(t, c)
      && (t.persisted == w.persisted || Holds(t.persisted, Ready(c), false))
      && (m.component == c && w.pcs[c].Sending? && m.commits ==> Holds(t.persisted, Ready(c), false))
  {
    if m.component in w.pcs {
      ActKnown(Local(w, m.component), c, m.component, m.cell, m.commits);
      ActStoresKnown(Local(w, m.component), c, m.component, m.cell, m.commits);
    }
  }

  lemma StepLearns(w: World, c: Component, m: Move)
    requires Unknown(w, c) && m.component == c && w.pcs[c].Setting?
    requires forall d :: d in w.pcs && d != c ==> !InFlight(w.pcs[d])
    ensures Known(StepPc(w, m), c) && StepPc(w, m).pcs[c].Serialising?
  {
    AllCells(Ready(c));
  }

  /** Until the component has set its condition nobody knows; afterwards
      everybody does, and once its write is through it is stored. */
  ghost predicate Tracked(w: World, c: Component, stored: bool, lost: bool) {
    || (!stored && Unknown(w, c))
    || (Known(w, c) && (stored || !Before(w.pcs[c]))
        && (stored || w.pcs[c].Receiving? || (w.pcs[c].Done? && !lost) ==> Holds(w.persisted, Ready(c), false)))
  }

  lemma StepTracks(w: World, c: Component, stored: bool, lost: bool, m: Move)
    requires Tracked(w, c, stored, lost)
    requires m.component == c && w.pcs[c].Setting? ==> forall d :: d in w.pcs && d != c ==> !InFlight(w.pcs[d])
    ensures Tracked(StepPc(w, m), c, stored, lost || (m.component == c && w.pcs[c].Sending? && !m.commits))
  {
    if Known(w, c) {
      StepKnown(w, c, m);
    } else if m.component == c && w.pcs[c].Setting? {
      StepLearns(w, c, m);
    } else {
      StepUnknown(w, c, m);
    }
  }

  lemma {:induction false} InterleavingTracks(w: World, c: Component, stored: bool, ms: seq<Move>)
    requires Tracked(w, c, stored, false) && !SetsDuringWrite(w, c, ms)
    ensures Tracked(Interleave(w, ms), c, stored, WriteLost(w, c, ms))
  {
    if ms != [] {
      InterleavingTracks(w, c, stored, ms[..|ms| - 1]);
      StepTracks(Interleave(w, ms[..|ms| - 1]), c, stored, WriteLost(w, c, ms[..|ms| - 1]), ms[|ms| - 1]);
    }
  }

  /** A component seen not ready is recorded as such, in every interleaving,
      unless its write meets a conflict or it sets its condition while another
      goroutine's write is under way. */
  lemma UnreadyIsStored(s: State, views: map<Component, bool>, ms: seq<Move>, commits: bool, c: Component)
    requires Honest(s.persisted) && s.memory == s.persisted && c in views && !views[c]
    requires AllDone(Interleave(Spawned(s, views), ms))
    requires !WriteLost(Spawned(s, views), c, ms) && !SetsDuringWrite(Spawned(s, views), c, ms)
    ensures var p := Step(s, Check(views, ms, commits)).persisted;
      Holds(p, Ready(c), false) && !Holds(p, Finished, true)
  {
    InterleavingTracks(Spawned(s, views), c, Holds(s.memory, Ready(c), false), ms);
    FinishedAfterCheck(s, views, ms, commits);
  }

  // ---- exactly what is stored, whoever writes ----

  /** The goroutine whose status write was the last to go through. */
  function LastCommit(w: World, ms: seq<Move>): Option<Component> {
    if ms == [] then None
    else
      var before, m := Interleave(w, ms[..|ms| - 1]), ms[|ms| - 1];
      if m.component in before.pcs && before.pcs[m.component].Sending? && m.commits then Some(m.component)
      else LastCommit(w, ms[..|ms| - 1])
  }

  /** The goroutine of `d`, building its write, found `c` not ready in the shared
      copy. */
  predicate ReadUnready(w: World, d: Component, c: Component, ms: seq<Move>) {
    && ms != []
    && var before, m := Interleave(w, ms[..|ms| - 1]), ms[|ms| - 1];
       || ReadUnready(w, d, c, ms[..|ms| - 1])
       || (m.component == d && d in before.pcs && before.pcs[d].Serialising? && m.cell == Ready(c) && m.cell in before.pcs[d].left
           && Holds(before.memory, Ready(c), false))
  }

  /** What a goroutine's write says, or is going to say, of a component. */
  predicate Said(pc: Pc, c: Component, unready: bool) {
    match pc
    case Looking(_) => !unready
    case Clearing(_) => !unready
    case Setting(_) => !unready
    case Serialising(seen, left) => if Ready(c) in left then !unready && Ready(c) !in seen else Holds(seen, Ready(c), false) == unready
    case Sending(body) => Holds(body, Ready(c), false) == unready
    case Receiving(body, _) => Holds(body, Ready(c), false) == unready
    case Done => true
  }

  lemma ActSays(a: Action, d: Component, c: Component, cell: Cell, commits: bool, unready: bool)
    requires Said(a.pc, c, unready)
    ensures Said(Act(a, d, cell, commits).pc, c,
                 unready || (a.pc.Serialising? && cell == Ready(c) && cell in a.pc.left && Holds(a.memory, Ready(c), false)))
  {
    match a.pc
    case Serialising(seen, left) => CopiedLaw(a.memory, seen, cell, Ready(c), false);
    case Setting(v) => AllCells(Ready(c));
    case _ =>
  }

  ghost predicate AllSaid(w: World, c: Component, start: World, ms: seq<Move>) {
    forall d :: d in w.pcs ==> Said(w.pcs[d], c, ReadUnready(start, d, c, ms))
  }

  lemma {:induction false} InterleavingSays(w: World, c: Component, ms: seq<Move>)
    requires forall d :: d in w.pcs ==> w.pcs[d].Looking?
    ensures AllSaid(Interleave(w, ms), c, w, ms)
  {
    if ms != [] {
      var start, m := ms[..|ms| - 1], ms[|ms| - 1];
      var before := Interleave(w, start);
      InterleavingSays(w, c, start);
      if m.component in before.pcs {
        ActSays(Local(before, m.component), m.component, c, m.cell, m.commits, ReadUnready(w, m.component, c, start));
      }
    }
  }

  /** Nothing is read any more for a write that has been sent. */
  predicate AfterSending(w: World, d: Component) { d in w.pcs && (w.pcs[d].Receiving? || w.pcs[d].Done?) }

  /** The last write to go through was built from a copy that said not ready; or
      none went through, and the status said so before. */
  predicate StoresUnready(w: World, c: Component, ms: seq<Move>) {
    match LastCommit(w, ms) case None => Holds(w.persisted, Ready(c), false) case Some(d) => ReadUnready(w, d, c, ms)
  }

  lemma {:induction false} CommittedHasSent(w: World, ms: seq<Move>)
    ensures LastCommit(w, ms).Some? ==> AfterSending(Interleave(w, ms), LastCommit(w, ms).value)
  {
    if ms != [] { CommittedHasSent(w, ms[..|ms| - 1]); }
  }

  lemma ReadsNoMore(w: World, d: Component, c: Component, ms: seq<Move>)
    requires ms != [] && var before := Interleave(w, ms[..|ms| - 1]); d in before.pcs && !before.pcs[d].Serialising?
    ensures ReadUnready(w, d, c, ms) == ReadUnready(w, d, c, ms[..|ms| - 1])
  {
  }

  predicate CommitsNow(w: World, m: Move) { m.component in w.pcs && w.pcs[m.component].Sending? && m.commits }

  lemma StoredByStep(w: World, m: Move)
    ensures StepPc(w, m).persisted == if CommitsNow(w, m) then w.pcs[m.component].body else w.persisted
  {
  }

  lemma LastCommitByMove(w: World, ms: seq<Move>)
    requires ms != []
    ensures LastCommit(w, ms) == if CommitsNow(Interleave(w, ms[..|ms| - 1]), ms[|ms| - 1]) then Some(ms[|ms| - 1].component)
                                 else LastCommit(w, ms[..|ms| - 1])
  {
  }

  lemma StoredByMove(w: World, c: Component, ms: seq<Move>, before: World, m: Move)
    requires ms != [] && before == Interleave(w, ms[..|ms| - 1]) && m == ms[|ms| - 1]
    requires AllSaid(before, c, w, ms[..|ms| - 1])
    requires Holds(before.persisted, Ready(c), false) <==> StoresUnready(w, c, ms[..|ms| - 1])
    ensures Holds(StepPc(before, m).persisted, Ready(c), false) <==> StoresUnready(w, c, ms)
  {
    StoredByStep(before, m);
    LastCommitByMove(w, ms);
    CommittedHasSent(w, ms[..|ms| - 1]);
    match LastCommit(w, ms)
    case None =>
    case Some(d) => ReadsNoMore(w, d, c, ms);
  }

  lemma {:induction false} StoredIsLastCommit(w: World, c: Component, ms: seq<Move>)
    requires forall d :: d in w.pcs ==> w.pcs[d].Looking?
    ensures Holds(Interleave(w, ms).persisted, Ready(c), false) <==> StoresUnready(w, c, ms)
  {
    if ms != [] {
      StoredIsLastCommit(w, c, ms[..|ms| - 1]);
      InterleavingSays(w, c, ms[..|ms| - 1]);
      StoredByMove(w, c, ms, Interleave(w, ms[..|ms| - 1]), ms[|ms| - 1]);
    }
  }

  /** Exactly when a check finishes, over all commit orders: no component was
      found not ready by the goroutine whose write went through last, while it
      built that write (with no write through, none was stored as not ready),
      and finished was already said, or is present and the last write commits. */
  lemma FinishedExactly(s: State, views: map<Component, bool>, ms: seq<Move>, commits: bool)
    requires Honest(s.persisted) && Honest(s.memory)
    ensures var w := Spawned(s, views);
      var left := Interleave(w, ms).persisted;
      Holds(Step(s, Check(views, ms, commits)).persisted, Finished, true)
      <==> && (forall c :: !StoresUnready(w, c, ms))
           && (Holds(left, Finished, true) || (Holds(left, Finished, false) && commits))
  {
    var w := Spawned(s, views);
    FinishedAfterCheck(s, views, ms, commits);
    forall c: Component ensures Holds(Interleave(w, ms).persisted, Ready(c), false) <==> StoresUnready(w, c, ms) {
      StoredIsLastCommit(w, c, ms);
    }
  }

  /** Only one goroutine finds anything to write. */
  predicate OnlyWriter(p: Status, views: map<Component, bool>, c: Component) {
    c in views && !views[c] && forall d :: d in views && d != c ==> views[d] && !Holds(p, Ready(d), false)
  }

  predicate Quiet(pc: Pc, p: Status, d: Component) { pc.Done? || (pc == Looking(true) && !Holds(p, Ready(d), false)) }

  /** The run of a goroutine whose neighbours write nothing. */
  ghost predicate AloneAt(w: World, p: Status, c: Component, lost: bool) {
    && c in w.pcs
    && (forall d :: d in w.pcs && d != c ==> Quiet(w.pcs[d], p, d))
    && OwnPart(Local(w, c), p, c, lost)
  }

  ghost predicate OwnPart(a: Action, p: Status, c: Component, lost: bool) {
    var q := ClearFinished(p)[Ready(c) := false];
    match a.pc
    case Looking(r) => !r && a.memory == a.persisted == p && !lost
    case Clearing(v) => !v && a.memory == a.persisted == p && !lost
    case Setting(v) => !v && a.memory == ClearFinished(p) && a.persisted == p && !lost
    case Serialising(seen, left) => a.memory == q && ReadSoFar(q, seen, left) && a.persisted == p && !lost
    case Sending(body) => a.memory == body == q && a.persisted == p && !lost
    case Receiving(body, left) => a.memory == body == q && a.persisted == q && !lost
    case Done => && (a.memory == q || a.memory == ClearFinished(p))
                 && if lost then a.persisted == p else Holds(a.persisted, Ready(c), false)
  }

  lemma OwnSets(a: Action, p: Status, c: Component, cell: Cell, commits: bool)
    requires a.pc.Setting? && OwnPart(a, p, c, false)
    ensures OwnPart(Act(a, c, cell, commits), p, c, false)
  {
    AllInitiallyUnread(ClearFinished(p)[Ready(c) := false]);
  }

  lemma OwnSerialises(a: Action, p: Status, c: Component, cell: Cell, commits: bool)
    requires a.pc.Serialising? && OwnPart(a, p, c, false)
    ensures OwnPart(Act(a, c, cell, commits), p, c, false)
  {
    if a.pc.left == {} { assert a.pc.seen == a.memory; } else if cell in a.pc.left { ReadOneMore(a.memory, a.pc.seen, a.pc.left, cell); }
  }

  lemma OwnReceives(a: Action, p: Status, c: Component, cell: Cell, commits: bool)
    requires a.pc.Receiving? && OwnPart(a, p, c, false)
    ensures OwnPart(Act(a, c, cell, commits), p, c, false)
  {
    assert Copied(a.memory, a.memory, cell) == a.memory;
  }

  lemma OwnAct(a: Action, p: Status, c: Component, lost: bool, cell: Cell, commits: bool)
    requires OwnPart(a, p, c, lost)
    ensures OwnPart(Act(a, c, cell, commits), p, c, lost || (a.pc.Sending? && !commits))
  {
    match a.pc
    case Setting(v) => OwnSets(a, p, c, cell, commits);
    case Serialising(seen, left) => OwnSerialises(a, p, c, cell, commits);
    case Receiving(body, left) => OwnReceives(a, p, c, cell, commits);
    case _ =>
  }

  lemma OthersUntouched(a: Action, p: Status, c: Component, lost: bool, d: Component)
    requires OwnPart(a, p, c, lost) && d != c && !Holds(p, Ready(d), false)
    ensures !Holds(a.memory, Ready(d), false)
  {
  }

  lemma QuietStep(w: World, p: Status, c: Component, lost: bool, m: Move)
    requires c in w.pcs && OwnPart(Local(w, c), p, c, lost)
    requires m.component != c && m.component in w.pcs && Quiet(w.pcs[m.component], p, m.component)
    ensures StepPc(w, m) == w.(pcs := w.pcs[m.component := Done])
  {
    if w.pcs[m.component] == Looking(true) { OthersUntouched(Local(w, c), p, c, lost, m.component); }
  }

  lemma StepAlone(w: World, p: Status, c: Component, lost: bool, m: Move)
    requires AloneAt(w, p, c, lost)
    ensures AloneAt(StepPc(w, m), p, c, lost || (m.component == c && w.pcs[c].Sending? && !m.commits))
  {
    if m.component == c {
      OwnAct(Local(w, c), p, c, lost, m.cell, m.commits);
      var t := StepPc(w, m);
      assert Local(t, c) == Act(Local(w, c), c, m.cell, m.commits);
    } else if m.component in w.pcs {
      QuietStep(w, p, c, lost, m);
      assert Local(StepPc(w, m), c) == Local(w, c);
    }
  }

  lemma {:induction false} InterleavingAlone(w: World, p: Status, c: Component, ms: seq<Move>)
    requires AloneAt(w, p, c, false)
    ensures AloneAt(Interleave(w, ms), p, c, WriteLost(w, c, ms))
  {
    if ms != [] {
      InterleavingAlone(w, p, c, ms[..|ms| - 1]);
      StepAlone(Interleave(w, ms[..|ms| - 1]), p, c, WriteLost(w, c, ms[..|ms| - 1]), ms[|ms| - 1]);
    }
  }

  /** A write that conflicts is lost without a trace: a goroutine that saw its
      component not ready ends, the stored status is unchanged, and if it
      already said finished it goes on saying so. */
  lemma LostWriteHidesUnready(p: Status, c: Component) returns (ms: seq<Move>)
    requires Holds(p, Finished, true) && Holds(p, Ready(c), true) && !SomeFalse(p)
    ensures AllDone(Interleave(Spawned(State(p, p), map[c := false]), ms))
    ensures Step(State(p, p), Check(map[c := false], ms, true)).persisted == p
  {
    var w := Spawned(State(p, p), map[c := false]);
    var m := Move(c, Finished, false);
    var w1 := StepPc(w, m);
    OneMove(w, m);
    var rest := AloneIsUpdateStatus(w1, c, false, false);
    InterleaveThen(w, [m], rest);
    ms := [m] + rest;
    assert Interleave(w, ms).persisted == p;
  }

  /** With one component not ready and nothing to write for the others, finished
      is stored exactly when that component's write is lost and the status as it
      was would be finished anyway. */
  lemma FinishedDespiteUnready(p: Status, views: map<Component, bool>, ms: seq<Move>, commits: bool, c: Component)
    requires Honest(p) && OnlyWriter(p, views, c)
    requires AllDone(Interleave(Spawned(State(p, p), views), ms))
    ensures Holds(Step(State(p, p), Check(views, ms, commits)).persisted, Finished, true)
            <==> && WriteLost(Spawned(State(p, p), views), c, ms)
                 && !SomeFalse(p) && (Holds(p, Finished, true) || (Holds(p, Finished, false) && commits))
  {
    InterleavingAlone(Spawned(State(p, p), views), p, c, ms);
    FinishedAfterCheck(State(p, p), views, ms, commits);
  }

  lemma ThreeMoves(w: World, m: Move)
    ensures Interleave(w, [m, m, m]) == StepPc(StepPc(StepPc(w, m), m), m)
  {
    TwoMoves(w, m);
    assert [m, m, m][..2] == [m, m];
  }

  /** A goroutine has looked, cleared and set its condition. */
  lemma SetsIt(w: World, c: Component, ready: bool) returns (ms: seq<Move>)
    requires c in w.pcs && w.pcs[c] == Looking(ready) && Holds(w.memory, Ready(c), !ready) && !Holds(w.memory, Finished, true)
    ensures Interleave(w, ms) == World(w.persisted, w.memory[Ready(c) := ready], w.pcs[c := Serialising(map[], CELLS)], true)
    ensures AllCommit(ms)
  {
    var m := Move(c, Finished, true);
    ms := [m, m, m];
    ThreeMoves(w, m);
    assert w.pcs[c := Clearing(ready)][c := Setting(ready)][c := Serialising(map[], CELLS)] == w.pcs[c := Serialising(map[], CELLS)];
  }

  lemma SendsIt(w: World, c: Component) returns (ms: seq<Move>)
    requires c in w.pcs && w.pcs[c] == Serialising(map[], CELLS)
    ensures Interleave(w, ms) == w.(persisted := w.memory, pcs := w.pcs[c := Receiving(w.memory, CELLS)]) && AllCommit(ms)
  {
    AllInitiallyUnread(w.memory);
    ms := SerialisesMemory(w, c, map[], CELLS);
    var m := Move(c, Finished, true);
    var sending := w.(pcs := w.pcs[c := Sending(w.memory)]);
    OneMove(sending, m);
    InterleaveThen(w, ms, [m]);
    ms := ms + [m];
    assert sending.pcs[c := Receiving(w.memory, CELLS)] == w.pcs[c := Receiving(w.memory, CELLS)];
  }

  /** No conflict is needed: with a second goroutine, whose component has just
      become ready, every write can go through and the check still sets
      finished. The response to the second goroutine's write puts back the old
      condition of the first between its being set and its being sent. */
  lemma OverwrittenUnready(p: Status, c: Component, d: Component) returns (ms: seq<Move>)
    requires c != d && Holds(p, Finished, false) && Holds(p, Ready(c), true) && Holds(p, Ready(d), false)
    requires forall e: Component :: e != d ==> !Holds(p, Ready(e), false)
    ensures AllCommit(ms) && AllDone(Interleave(Spawned(State(p, p), map[c := false, d := true]), ms))
    ensures Holds(Step(State(p, p), Check(map[c := false, d := true], ms, true)).persisted, Finished, true)
  {
    var w := Spawned(State(p, p), map[c := false, d := true]);
    ms := BothWritesCommit(w, p, c, d);
    OnlyOneFalse(p, d);
    ConcludeFinishes(p[Ready(d) := true]);
  }

  lemma ConcludeFinishes(q: Status)
    requires !SomeFalse(q) && Holds(q, Finished, false)
    ensures Holds(Conclude(q, q, true), Finished, true)
  {
  }

  lemma BothWritesCommit(w: World, p: Status, c: Component, d: Component) returns (ms: seq<Move>)
    requires c != d && w.memory == p && w.pcs == map[c := Looking(false), d := Looking(true)]
    requires Holds(p, Finished, false) && Holds(p, Ready(c), true) && Holds(p, Ready(d), false)
    ensures AllCommit(ms)
    ensures Interleave(w, ms).persisted == p[Ready(d) := true] && AllDone(Interleave(w, ms))
  {
    var q := p[Ready(d) := true];
    var a := SecondIsStored(w, p, c, d);
    var b := FirstIsOverwritten(Interleave(w, a), q, c, d);
    InterleaveThen(w, a, b);
    var f := LastWrite(Interleave(w, a + b), q, c, d);
    InterleaveThen(w, a + b, f);
    ms := a + b + f;
  }

  lemma LastWrite(w: World, q: Status, c: Component, d: Component) returns (ms: seq<Move>)
    requires c != d && w == World(q, q, map[c := Serialising(map[], CELLS), d := Done], true)
    ensures AllCommit(ms) && Interleave(w, ms).persisted == q && AllDone(Interleave(w, ms))
  {
    ms := WritesMemory(w, c, true);
  }

  lemma SecondIsStored(w: World, p: Status, c: Component, d: Component) returns (ms: seq<Move>)
    requires c != d && w.memory == p && w.pcs == map[c := Looking(false), d := Looking(true)]
    requires Holds(p, Finished, false) && Holds(p, Ready(d), false)
    ensures AllCommit(ms)
    ensures var q := p[Ready(d) := true];
      Interleave(w, ms) == World(q, q, map[c := Looking(false), d := Receiving(q, CELLS)], true)
  {
    var a := SetsIt(w, d, true);
    var b := SendsIt(Interleave(w, a), d);
    InterleaveThen(w, a, b);
    ms := a + b;
  }

  lemma FirstIsOverwritten(w: World, q: Status, c: Component, d: Component) returns (ms: seq<Move>)
    requires c != d && w == World(q, q, map[c := Looking(false), d := Receiving(q, CELLS)], true)
    requires Holds(q, Finished, false) && Holds(q, Ready(c), true)
    ensures AllCommit(ms)
    ensures Interleave(w, ms) == World(q, q, map[c := Serialising(map[], CELLS), d := Done], true)
  {
    var a := SetsIt(w, c, false);
    var w1 := World(q, q[Ready(c) := false], map[c := Serialising(map[], CELLS), d := Receiving(q, CELLS)], true);
    assert Interleave(w, a) == w1;
    var b := PutBack(w1, q, c, d);
    InterleaveThen(w, a, b);
    ms := a + b;
  }

  lemma PutBack(w: World, q: Status, c: Component, d: Component) returns (ms: seq<Move>)
    requires c != d && w.pcs == map[c := Serialising(map[], CELLS), d := Receiving(q, CELLS)]
    ensures AllCommit(ms) && Interleave(w, ms) == w.(memory := q, pcs := map[c := Serialising(map[], CELLS), d := Done])
  {
    OutsideAllCells(w.memory, q);
    ms := ReceivesBody(w, d, q, CELLS);
  }

  lemma OutsideAllCells(memory: Status, body: Status)
    ensures AgreesOutside(memory, body, CELLS)
  {
    forall c: Cell ensures c in CELLS { AllCells(c); }
  }

  lemma OnlyOneFalse(p: Status, d: Component)
    requires forall e: Component :: e != d ==> !Holds(p, Ready(e), false)
    ensures !SomeFalse(p[Ready(d) := true])
  {
  }

  /** The check relies on reading its own writes: if the first read can be an
      older copy, the second read carries the fresh conditions into the write.
      Exactly then the stored status becomes dishonest. */
  lemma StaleFirstRead(copy: Status, persisted: Status, commits: bool)
    requires Honest(persisted)
    ensures !Honest(Conclude(copy, persisted, commits))
            <==> commits && !SomeFalse(copy) && Holds(copy, Finished, false) && SomeFalse(persisted)
  {
    var q := persisted[Finished := true];
    assert forall c: Component :: Holds(q, Ready(c), false) == Holds(persisted, Ready(c), false);
  }
}
