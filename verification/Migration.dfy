/** When the operator starts a database migration Job. The triggers are
    remembered in the status of the CR, which is written as a whole from the
    copy in memory; a write that fails is not retried, but any later write of
    the same pass carries its fields along. */
module Migration {
  import opened Pulp

  /** A Job with the operator's common labels; other Jobs of the operator carry
      the same labels. */
  datatype Job = Job(migration: bool, image: string, active: bool)

  datatype Spec = Spec(image: string, storage: string, redirect: bool, hide: bool, disabled: bool)

  datatype Status = Status(image: string, storage: string, redirect: bool, hide: bool)

  datatype Setting = Redirect | Hide

  /** What the API server does to the calls of one pass. */
  datatype Replies = Replies(
    storageWrite: bool,
    flagWrites: map<Setting, bool>,
    createOk: bool,
    middleWrite: bool,      // some status write of the stages after the migration
    reachesStatus: bool,    // the pass gets to the status tasks
    imageWrite: bool,
    laterWrite: bool,       // some status write after Status.Image
    otherJobs: seq<Job>)    // labelled Jobs the later stages create

  datatype State = State(spec: Spec, status: Status, jobs: seq<Job>, created: nat)

  // ---- triggers ----

  predicate ImageChanged(spec: Spec, st: Status) { st.image != spec.image }

  predicate StorageTypeChanged(spec: Spec, st: Status) { st.storage != spec.storage }

  function SettingsChanged(spec: Spec, st: Status): set<Setting> {
    (if st.redirect != spec.redirect then {Redirect} else {}) + (if st.hide != spec.hide then {Hide} else {})
  }

  function WithSetting(spec: Spec, st: Status, k: Setting): Status {
    match k case Redirect => st.(redirect := spec.redirect) case Hide => st.(hide := spec.hide)
  }

  predicate HasImage(jobs: seq<Job>, image: string) { exists j :: j in jobs && j.image == image }

  predicate HasActive(jobs: seq<Job>) { exists j :: j in jobs && j.active }

  /** The order in which Go ranges over the two settings. */
  predicate IsOrder(order: seq<Setting>) { order == [Redirect, Hide] || order == [Hide, Redirect] }

  // ---- one pass, as functions over (memory, persisted) ----

  /** A status write: all of memory or nothing. */
  function Write(memory: Status, persisted: Status, ok: bool): Status { if ok then memory else persisted }

  function WriteFlags(spec: Spec, memory: Status, persisted: Status, order: seq<Setting>, ok: map<Setting, bool>): (Status, Status)
    decreases |order|
  {
    if order == [] then (memory, persisted)
    else if order[0] !in SettingsChanged(spec, memory) then WriteFlags(spec, memory, persisted, order[1..], ok)
    else
      var m := WithSetting(spec, memory, order[0]);
      WriteFlags(spec, m, Write(m, persisted, order[0] in ok && ok[order[0]]), order[1..], ok)
  }

  datatype Decision = Decision(migrate: bool, memory: Status, persisted: Status)

  function NeedsMigration(s: State, r: Replies, order: seq<Setting>): Decision {
    if s.spec.disabled then Decision(false, s.status, s.status)
    else if StorageTypeChanged(s.spec, s.status) then
      var m := s.status.(storage := s.spec.storage);
      Decision(true, m, Write(m, s.status, r.storageWrite))
    else
      var (m, p) := WriteFlags(s.spec, s.status, s.status, order, r.flagWrites);
      if SettingsChanged(s.spec, s.status) != {} && !HasActive(s.jobs) then Decision(true, m, p)
      else Decision(ImageChanged(s.spec, m) && !HasImage(s.jobs, s.spec.image), m, p)
  }

  function MigrationJob(spec: Spec): Job { Job(true, spec.image, true) }

  function ImageStatus(spec: Spec, memory: Status, persisted: Status, r: Replies): Status {
    if !r.reachesStatus then persisted
    else
      var m := memory.(image := spec.image);
      var p := if ImageChanged(spec, memory) then Write(m, persisted, r.imageWrite) else persisted;
      Write(m, p, r.laterWrite)
  }

  function Pass(s: State, r: Replies, order: seq<Setting>): State {
    var d := NeedsMigration(s, r, order);
    var create := d.migrate && r.createOk;
    var p := Write(d.memory, d.persisted, r.middleWrite);
    State(s.spec, ImageStatus(s.spec, d.memory, p, r),
          s.jobs + (if create then [MigrationJob(s.spec)] else []) + r.otherJobs,
          if create then s.created + 1 else s.created)
  }

  // ---- the same, as the source runs it ----

  class Reconciler {
    var pulp: State          // the cluster: CR and Jobs
    var memory: Status       // the copy the pass works on

    constructor (s: State)
      ensures pulp == s && memory == s.status
    {
      pulp, memory := s, s.status;
    }

    method StatusUpdate(ok: bool)
      modifies `pulp
      ensures pulp == old(pulp).(status := Write(memory, old(pulp).status, ok))
    {
      if ok { pulp := pulp.(status := memory); }
    }

    method HasActiveJobRunning() returns (running: bool)
      ensures running == HasActive(pulp.jobs)
    {
      for i := 0 to |pulp.jobs|
        invariant forall j :: 0 <= j < i ==> !pulp.jobs[j].active
      {
        if pulp.jobs[i].active { return true; }
      }
      return false;
    }

    method MigrationDone() returns (done: bool)
      ensures done == HasImage(pulp.jobs, pulp.spec.image)
    {
      for i := 0 to |pulp.jobs|
        invariant forall j :: 0 <= j < i ==> pulp.jobs[j].image != pulp.spec.image
      {
        if pulp.jobs[i].image == pulp.spec.image { return true; }
      }
      return false;
    }

    method UpdateSettings(order: seq<Setting>, ok: map<Setting, bool>)
      requires IsOrder(order)
      modifies `pulp, `memory
      ensures (memory, pulp.status) == WriteFlags(pulp.spec, old(memory), old(pulp).status, order, ok)
      ensures pulp == old(pulp).(status := pulp.status)
    {
      for i := 0 to |order|
        invariant pulp == old(pulp).(status := pulp.status)
        invariant WriteFlags(pulp.spec, memory, pulp.status, order[i..], ok)
                  == WriteFlags(pulp.spec, old(memory), old(pulp).status, order, ok)
      {
        assert order[i..][0] == order[i] && order[i..][1..] == order[i + 1..];
        if order[i] in SettingsChanged(pulp.spec, memory) {
          memory := WithSetting(pulp.spec, memory, order[i]);
          StatusUpdate(order[i] in ok && ok[order[i]]);
        }
      }
    }

    method NeedsMigrationNow(r: Replies, order: seq<Setting>) returns (migrate: bool)
      requires IsOrder(order) && memory == pulp.status
      modifies `pulp, `memory
      ensures Decision(migrate, memory, pulp.status) == NeedsMigration(old(pulp), r, order)
      ensures pulp == old(pulp).(status := pulp.status)
    {
      if pulp.spec.disabled { return false; }
      if StorageTypeChanged(pulp.spec, memory) {
        memory := memory.(storage := pulp.spec.storage);
        StatusUpdate(r.storageWrite);
        return true;
      }
      var changed := SettingsChanged(pulp.spec, memory);
      if changed != {} {
        UpdateSettings(order, r.flagWrites);
        var running := HasActiveJobRunning();
        if !running { return true; }
      } else {
        NothingToWrite(pulp.spec, memory, pulp.status, order, r.flagWrites);
      }
      if !ImageChanged(pulp.spec, memory) { return false; }
      var done := MigrationDone();
      return !done;
    }

    /** From `runMigration` to the end of the pass. */
    method MigrationPass(r: Replies, order: seq<Setting>)
      requires IsOrder(order) && memory == pulp.status
      modifies this
      ensures pulp == Pass(old(pulp), r, order)
    {
      ghost var d := NeedsMigration(pulp, r, order);
      var migrate := NeedsMigrationNow(r, order);
      if migrate && r.createOk {
        pulp := pulp.(jobs := pulp.jobs + [MigrationJob(pulp.spec)], created := pulp.created + 1);
      }
      assert pulp.jobs == old(pulp).jobs + if d.migrate && r.createOk then [MigrationJob(pulp.spec)] else [];
      StatusUpdate(r.middleWrite);
      pulp := pulp.(jobs := pulp.jobs + r.otherJobs);
      if r.reachesStatus {
        if ImageChanged(pulp.spec, memory) {
          memory := memory.(image := pulp.spec.image);
          StatusUpdate(r.imageWrite);
        }
        StatusUpdate(r.laterWrite);
      }
    }
  }

  lemma {:induction false} NothingToWrite(spec: Spec, m: Status, p: Status, order: seq<Setting>, ok: map<Setting, bool>)
    requires SettingsChanged(spec, m) == {}
    ensures WriteFlags(spec, m, p, order, ok) == (m, p)
    decreases |order|
  {
    if order != [] { NothingToWrite(spec, m, p, order[1..], ok); }
  }

  // ---- runs ----

  datatype Event =
    | ReconcilePass(replies: Replies, order: seq<Setting>)
    | JobsMove(jobs: seq<Job>)     // Jobs start, finish or are removed
    | EditSpec(spec: Spec)

  /** Jobs persist until `Status.Image` has caught up, and only the operator
      creates labelled Jobs. */
  predicate JobsPersist(s: State, jobs: seq<Job>) {
    s.status.image != s.spec.image && HasImage(s.jobs, s.spec.image) ==> HasImage(jobs, s.spec.image)
  }

  ghost predicate Allowed(s: State, e: Event) {
    match e
    case ReconcilePass(_, order) => IsOrder(order)
    case JobsMove(jobs) => JobsPersist(s, jobs)
    case EditSpec(_) => true
  }

  function Step(s: State, e: Event): State {
    match e
    case ReconcilePass(r, order) => Pass(s, r, order)
    case JobsMove(jobs) => s.(jobs := jobs)
    case EditSpec(spec) => s.(spec := spec)
  }

  function Run(s: State, es: seq<Event>): State {
    if es == [] then s else Step(Run(s, es[..|es| - 1]), es[|es| - 1])
  }

  ghost predicate AllAllowed(s: State, es: seq<Event>) {
    es == [] || (AllAllowed(s, es[..|es| - 1]) && Allowed(Run(s, es[..|es| - 1]), es[|es| - 1]))
  }

  /** A pass that created a Job but whose status writes all missed the trigger. */
  predicate Forgets(s: State, e: Event) {
    e.ReconcilePass? && Step(s, e).created > s.created
    && (if StorageTypeChanged(s.spec, s.status) then StorageTypeChanged(s.spec, Step(s, e).status)
        else SettingsChanged(s.spec, Step(s, e).status) != {})
  }

  function Forgotten(s: State, es: seq<Event>): nat {
    if es == [] then 0
    else Forgotten(s, es[..|es| - 1]) + if Forgets(Run(s, es[..|es| - 1]), es[|es| - 1]) then 1 else 0
  }

  function SpecEdits(es: seq<Event>): nat {
    if es == [] then 0 else SpecEdits(es[..|es| - 1]) + if es[|es| - 1].EditSpec? then 1 else 0
  }

  /** Jobs the current spec can still cause: one for a new storage type, one
      for new flags or a new image together. */
  function Owed(s: State): nat {
    (if StorageTypeChanged(s.spec, s.status) then 1 else 0)
    + (if SettingsChanged(s.spec, s.status) != {} || (ImageChanged(s.spec, s.status) && !HasImage(s.jobs, s.spec.image)) then 1 else 0)
  }

  /** Writing the flags changes nothing else, in memory sets them all, and
      leaves the stored status either as it was or with flags of the spec. */
  lemma {:induction false} WriteFlagsLaws(spec: Spec, m: Status, p: Status, order: seq<Setting>, ok: map<Setting, bool>)
    requires IsOrder(order) || |order| <= 1
    requires m.image == p.image && m.storage == p.storage
    requires (m.redirect == p.redirect || m.redirect == spec.redirect) && (m.hide == p.hide || m.hide == spec.hide)
    ensures var (m', p') := WriteFlags(spec, m, p, order, ok);
      && m'.image == m.image && m'.storage == m.storage && p'.image == p.image && p'.storage == p.storage
      && (Redirect in order || m.redirect == spec.redirect ==> m'.redirect == spec.redirect)
      && (Hide in order || m.hide == spec.hide ==> m'.hide == spec.hide)
      && (p'.redirect == p.redirect || p'.redirect == spec.redirect) && (p'.hide == p.hide || p'.hide == spec.hide)
    decreases |order|
  {
    if order != [] {
      if order[0] in SettingsChanged(spec, m) {
        var n := WithSetting(spec, m, order[0]);
        WriteFlagsLaws(spec, n, Write(n, p, order[0] in ok && ok[order[0]]), order[1..], ok);
      } else {
        WriteFlagsLaws(spec, m, p, order[1..], ok);
      }
    }
  }

  lemma HasImageMore(jobs: seq<Job>, more: seq<Job>, image: string)
    ensures HasImage(jobs, image) ==> HasImage(jobs + more, image)
    ensures HasImage(more, image) ==> HasImage(jobs + more, image)
  {
  }

  lemma JobsAfterPass(s: State, r: Replies, order: seq<Setting>)
    ensures var t := Pass(s, r, order);
      && (HasImage(s.jobs, s.spec.image) ==> HasImage(t.jobs, s.spec.image))
      && (t.created > s.created ==> HasImage(t.jobs, s.spec.image))
  {
    var d := NeedsMigration(s, r, order);
    var added := if d.migrate && r.createOk then [MigrationJob(s.spec)] else [];
    HasImageMore(s.jobs, added, s.spec.image);
    HasImageMore(s.jobs + added, r.otherJobs, s.spec.image);
    if d.migrate && r.createOk { assert added[0].image == s.spec.image; }
  }

  /** What a pass does to the stored status. */
  lemma StatusAfterPass(s: State, r: Replies, order: seq<Setting>)
    requires IsOrder(order)
    ensures var t := Pass(s, r, order);
      && t.spec == s.spec
      && (t.status.storage == s.status.storage || t.status.storage == s.spec.storage)
      && (SettingsChanged(s.spec, s.status) == {} ==> SettingsChanged(s.spec, t.status) == {})
      && (t.status.image == s.status.image || t.status.image == s.spec.image)
      && (StorageTypeChanged(s.spec, s.status) || s.spec.disabled ==> t.status.redirect == s.status.redirect && t.status.hide == s.status.hide)
  {
    WriteFlagsLaws(s.spec, s.status, s.status, order, r.flagWrites);
  }

  lemma PassPaysForItsJob(s: State, r: Replies, order: seq<Setting>)
    requires IsOrder(order)
    ensures var t := Pass(s, r, order);
      t.created + Owed(t) <= s.created + Owed(s) + (if Forgets(s, ReconcilePass(r, order)) then 1 else 0)
  {
    StatusAfterPass(s, r, order);
    JobsAfterPass(s, r, order);
    WriteFlagsLaws(s.spec, s.status, s.status, order, r.flagWrites);
  }

  lemma {:induction false} JobsAreOwed(s: State, es: seq<Event>)
    requires AllAllowed(s, es)
    ensures var t := Run(s, es);
      t.created + Owed(t) <= s.created + Owed(s) + 2 * SpecEdits(es) + Forgotten(s, es)
  {
    if es != [] {
      var init, e := es[..|es| - 1], es[|es| - 1];
      JobsAreOwed(s, init);
      if e.ReconcilePass? { PassPaysForItsJob(Run(s, init), e.replies, e.order); }
    }
  }

  /** For a fixed spec, at most two migration Jobs over any run, and at most one
      when the storage type did not change, plus one for each trigger a failed
      status write forgot. */
  lemma MigrationJobsBounded(s: State, es: seq<Event>)
    requires AllAllowed(s, es) && SpecEdits(es) == 0
    ensures Run(s, es).created - s.created <= 2 + Forgotten(s, es)
    ensures s.status.storage == s.spec.storage ==> Run(s, es).created - s.created <= 1 + Forgotten(s, es)
  {
    JobsAreOwed(s, es);
  }

  // ---- Status.Image ----

  /** The recorded image moves on only when the migration is taken care of:
      migrations are switched off, or a labelled Job runs that image, unless
      the pass wanted a Job and could not create it. */
  lemma ImageAdvancesWithAJob(s: State, r: Replies, order: seq<Setting>)
    requires IsOrder(order) && Pass(s, r, order).status.image != s.status.image
    ensures Pass(s, r, order).status.image == s.spec.image
    ensures r.createOk ==> s.spec.disabled || HasImage(Pass(s, r, order).jobs, s.spec.image)
  {
    StatusAfterPass(s, r, order);
    JobsAfterPass(s, r, order);
    WriteFlagsLaws(s.spec, s.status, s.status, order, r.flagWrites);
  }

  /** The exception is exact: the image is recorded without any Job precisely
      when the wanted Job could not be created and no labelled Job has it. */
  lemma FailedCreateStillAdvances(s: State, r: Replies, order: seq<Setting>)
    requires IsOrder(order) && Pass(s, r, order).status.image != s.status.image && !s.spec.disabled
    ensures !HasImage(Pass(s, r, order).jobs, s.spec.image)
            <==> !r.createOk && !HasImage(s.jobs + r.otherJobs, s.spec.image)
  {
    var t := Pass(s, r, order);
    ImageAdvancesWithAJob(s, r, order);
    if !r.createOk {
      assert s.jobs + [] == s.jobs;
      assert t.jobs == s.jobs + r.otherJobs;
    }
  }

  /** Any labelled Job counts as the migration: with another Job of the operator
      on the new image, no migration Job is created although the image is new. */
  lemma OtherJobHidesMigration(s: State, r: Replies, order: seq<Setting>)
    requires IsOrder(order) && !StorageTypeChanged(s.spec, s.status) && SettingsChanged(s.spec, s.status) == {}
    requires ImageChanged(s.spec, s.status) && !s.spec.disabled && r.createOk
    ensures Pass(s, r, order).created == s.created <==> HasImage(s.jobs, s.spec.image)
  {
    NothingToWrite(s.spec, s.status, s.status, order, r.flagWrites);
  }

  // ---- a trigger that is lost ----

  /** Some status write of the pass goes through after the new storage type is
      in memory. */
  predicate StorageRecorded(s: State, r: Replies) {
    || r.storageWrite || r.middleWrite
    || (r.reachesStatus && (r.laterWrite || (ImageChanged(s.spec, s.status) && r.imageWrite)))
  }

  /** A state in which no trigger is pending. */
  predicate InSync(s: State) {
    !StorageTypeChanged(s.spec, s.status) && SettingsChanged(s.spec, s.status) == {} && !ImageChanged(s.spec, s.status)
  }

  /** Passes and Job changes, the spec left alone. */
  ghost predicate SpecKept(es: seq<Event>) {
    forall i :: 0 <= i < |es| ==> !es[i].EditSpec? && (es[i].ReconcilePass? ==> IsOrder(es[i].order))
  }

  lemma PassKeepsInSync(s: State, r: Replies, order: seq<Setting>)
    requires InSync(s)
    ensures InSync(Pass(s, r, order)) && Pass(s, r, order).created == s.created
  {
    NothingToWrite(s.spec, s.status, s.status, order, r.flagWrites);
  }

  lemma {:induction false} InSyncNeverMigrates(s: State, es: seq<Event>)
    requires InSync(s) && SpecKept(es)
    ensures InSync(Run(s, es)) && Run(s, es).created == s.created
  {
    if es != [] {
      InSyncNeverMigrates(s, es[..|es| - 1]);
      var e := es[|es| - 1];
      if e.ReconcilePass? { PassKeepsInSync(Run(s, es[..|es| - 1]), e.replies, e.order); }
    }
  }

  lemma FailedStoragePass(s: State, r: Replies, order: seq<Setting>)
    requires IsOrder(order) && StorageTypeChanged(s.spec, s.status) && !s.spec.disabled
    requires SettingsChanged(s.spec, s.status) == {} && !r.createOk
    ensures var t := Pass(s, r, order);
      && t.created == s.created && t.spec == s.spec && SettingsChanged(t.spec, t.status) == {}
      && (StorageTypeChanged(t.spec, t.status) <==> !StorageRecorded(s, r))
      && (!ImageChanged(s.spec, s.status) ==> !ImageChanged(t.spec, t.status))
  {
    StatusAfterPass(s, r, order);
  }

  /** A new storage type is recorded before its Job exists. When the Job cannot
      be created, and nothing else asks for one, the trigger is lost exactly when
      some later status write of that pass goes through: then no run of passes
      creates a Job while the spec stays, and otherwise the next pass does. */
  lemma FailedStorageMigrationIsNotRetried(s: State, r: Replies, order: seq<Setting>)
    requires IsOrder(order) && StorageTypeChanged(s.spec, s.status) && !s.spec.disabled
    requires SettingsChanged(s.spec, s.status) == {} && !ImageChanged(s.spec, s.status) && !r.createOk
    ensures Pass(s, r, order).created == s.created
    ensures (forall es :: SpecKept(es) ==> Run(Pass(s, r, order), es).created == s.created) <==> StorageRecorded(s, r)
    ensures forall later: Replies, o :: IsOrder(o) && later.createOk ==>
              (Pass(Pass(s, r, order), later, o).created == s.created <==> StorageRecorded(s, r))
  {
    var t := Pass(s, r, order);
    FailedStoragePass(s, r, order);
    if StorageRecorded(s, r) {
      forall es | SpecKept(es) ensures Run(t, es).created == s.created { InSyncNeverMigrates(t, es); }
      forall later: Replies, o | IsOrder(o) && later.createOk ensures Pass(t, later, o).created == s.created { PassKeepsInSync(t, later, o); }
    } else {
      var es := [ReconcilePass(r.(createOk := true), order)];
      assert es[..0] == [];
      assert Run(t, es) == Pass(t, r.(createOk := true), order);
      assert SpecKept(es);
    }
  }

  /** Exactly when a pass creates a Job: migrations are on, the Job can be
      created, and the storage differs, or a flag differs while no labelled Job is
      active, or the image differs and no labelled Job has it. It adds that Job
      and no other. */
  lemma CreatesExactly(s: State, r: Replies, order: seq<Setting>)
    requires IsOrder(order)
    ensures var t := Pass(s, r, order);
      var due := && !s.spec.disabled
                 && (|| s.status.storage != s.spec.storage
                     || ((s.status.redirect != s.spec.redirect || s.status.hide != s.spec.hide) && !exists j :: j in s.jobs && j.active)
                     || (s.status.image != s.spec.image && !exists j :: j in s.jobs && j.image == s.spec.image));
      && t.created == s.created + (if due && r.createOk then 1 else 0)
      && t.jobs == s.jobs + (if due && r.createOk then [Job(true, s.spec.image, true)] else []) + r.otherJobs
  {
    WriteFlagsLaws(s.spec, s.status, s.status, order, r.flagWrites);
  }

  /** With every write going through, the status has caught up after one pass;
      only a pass that saw a new storage type leaves the flags for the next. */
  lemma StatusCatchesUp(s: State, r: Replies, order: seq<Setting>)
    requires IsOrder(order) && r.reachesStatus && r.storageWrite && r.middleWrite && r.imageWrite && r.laterWrite
    ensures var st := Pass(s, r, order).status;
      && st.image == s.spec.image
      && st.storage == (if s.spec.disabled then s.status.storage else s.spec.storage)
      && (st.redirect, st.hide) == (if s.spec.disabled || s.status.storage != s.spec.storage then (s.status.redirect, s.status.hide)
                                    else (s.spec.redirect, s.spec.hide))
  {
    WriteFlagsLaws(s.spec, s.status, s.status, order, r.flagWrites);
  }

  /** The trigger survives any pass that does not get through: as long as the
      stored type differs, the next pass with migrations enabled creates a Job. */
  lemma StorageTriggerFires(s: State, r: Replies, order: seq<Setting>)
    requires StorageTypeChanged(s.spec, s.status) && !s.spec.disabled && r.createOk
    ensures Pass(s, r, order).created == s.created + 1
    ensures r.storageWrite || r.middleWrite ==> !StorageTypeChanged(s.spec, Pass(s, r, order).status)
  {
  }
}
