/** The main reconciler runs while a restore is in progress. The restore creates
    the CR with no replicas and migrations switched off, loads the data, and
    then writes the CR again. Both controllers work on copies that may be old;
    a write of a whole object goes through only from the newest version. */
module RestoreInterleaving {
  import opened Pulp

  /** The two flags whose change needs a migration. */
  datatype Setting = RedirectToObjectStorage | HideGuardedDistributions

  datatype Status = Status(storageType: string, image: string, settings: set<Setting>)

  datatype CR = CR(
    replicas: map<Component, int>,
    disableMigrations: bool,
    hpa: set<Component>,       // components whose autoscaler is enabled
    storageType: string,
    image: string,
    settings: set<Setting>,    // those that are on
    names: nat,                // fields the reconciler fills in with patches
    status: Status)

  const NO_REPLICAS: map<Component, int> := map[Api := 0, Content := 0, Worker := 0, Web := 0]

  /** A copy of the CR and the version it was read at. */
  datatype Copy = Copy(cr: CR, version: nat)

  datatype State = State(
    versions: seq<CR>,                    // every version of the CR, the newest last
    main: Option<Copy>,                   // the copy of the pass that is running
    restore: Option<Copy>,                // the copy `scaleDeployments` is about to write
    scaledAt: Option<nat>,                // the version `scaleDeployments` wrote
    deployments: map<Component, int>,     // replicas of the Deployments the reconciler wrote
    jobs: nat,                            // migration Jobs
    migrating: bool)                      // some pass has run `needsMigration` with migrations on

  const START := State([], None, None, None, map[], 0, false)

  /** The moves of the two controllers; the version read is the cache's choice. */
  datatype Move =
    | CreateCR(backup: CR)
    | ReadForScale(version: nat)
    | Scale(replicas: map<Component, int>)
    | StartPass(version: nat)
    | WriteDeployment(component: Component)
    | PatchNames
    | WriteStatus
    | RunMigration(createOk: bool, active: bool)   // `active`: some labelled Job is running
    | RecordImage
    | EndPass

  function Newest(s: State): CR
    requires s.versions != []
  {
    s.versions[|s.versions| - 1]
  }

  /** Replicas as the server stores them: an autoscaled Deployment is written
      without a count, which the server takes for one. */
  function StoredReplicas(cr: CR, c: Component): int {
    if c in cr.hpa then 1 else if c in cr.replicas then cr.replicas[c] else 0
  }

  /** A status write of a whole copy. */
  function CommitStatus(s: State, c: Copy): State {
    if s.versions == [] || c.version != |s.versions| - 1 then s.(main := Some(c))
    else
      var n := Newest(s).(status := c.cr.status);
      s.(versions := s.versions + [n], main := Some(Copy(n, |s.versions|)))
  }

  function StorageRecorded(c: Copy): Copy { c.(cr := c.cr.(status := c.cr.status.(storageType := c.cr.storageType))) }

  function SettingsRecorded(c: Copy): Copy { c.(cr := c.cr.(status := c.cr.status.(settings := c.cr.settings))) }

  predicate ImagePending(s: State, c: Copy) { c.cr.status.image != c.cr.image && s.jobs == 0 }

  /** The status writes of `needsMigration`. */
  function TriggerWrites(s: State, c: Copy): State {
    if c.cr.status.storageType != c.cr.storageType then CommitStatus(s, StorageRecorded(c))
    else if c.cr.status.settings != c.cr.settings then CommitStatus(s, SettingsRecorded(c))
    else s
  }

  /** Its answer. */
  predicate Triggers(s: State, c: Copy, active: bool) {
    || c.cr.status.storageType != c.cr.storageType
    || (c.cr.status.settings != c.cr.settings && !active)
    || ImagePending(s, c)
  }

  function Migrated(s: State, c: Copy, createOk: bool, active: bool): State {
    TriggerWrites(s, c).(jobs := if Triggers(s, c, active) && createOk then s.jobs + 1 else s.jobs, migrating := true)
  }

  function Step(s: State, m: Move): State {
    match m
    case CreateCR(b) =>
      if s.versions != [] then s
      else s.(versions := [b.(replicas := NO_REPLICAS, disableMigrations := true, status := Status("", "", {}))])
    case ReadForScale(v) =>
      if v < |s.versions| then s.(restore := Some(Copy(s.versions[v], v))) else s
    case Scale(r) =>
      if s.restore.None? || s.restore.value.version != |s.versions| - 1 then s.(restore := None)
      else
        s.(versions := s.versions + [s.restore.value.cr.(replicas := r, disableMigrations := false)], restore := None,
           scaledAt := if s.scaledAt.Some? then s.scaledAt else Some(|s.versions|))
    case StartPass(v) =>
      if s.main.None? && v < |s.versions| then s.(main := Some(Copy(s.versions[v], v))) else s
    case WriteDeployment(c) =>
      if s.main.None? then s else s.(deployments := s.deployments[c := StoredReplicas(s.main.value.cr, c)])
    case PatchNames =>
      if s.main.None? || s.versions == [] then s
      else
        var n := Newest(s).(names := Newest(s).names + 1);
        s.(versions := s.versions + [n], main := Some(Copy(n, |s.versions|)))
    case WriteStatus =>
      if s.main.None? then s else CommitStatus(s, s.main.value)
    case RunMigration(createOk, active) =>
      if s.main.None? || s.main.value.cr.disableMigrations then s
      else Migrated(s, s.main.value, createOk, active)
    case RecordImage =>
      if s.main.None? then s
      else CommitStatus(s, s.main.value.(cr := s.main.value.cr.(status := s.main.value.cr.status.(image := s.main.value.cr.image))))
    case EndPass => s.(main := None)
  }

  function Run(s: State, ms: seq<Move>): State {
    if ms == [] then s else Step(Run(s, ms[..|ms| - 1]), ms[|ms| - 1])
  }

  // ---- until the scaling commits ----

  predicate Quiet(cr: CR) { cr.replicas == NO_REPLICAS && cr.disableMigrations }

  ghost predicate SameAutoscalers(s: State) {
    && (forall i :: 0 <= i < |s.versions| ==> s.versions[i].hpa == s.versions[0].hpa)
    && (s.versions == [] ==> s.main.None? && s.restore.None? && s.deployments == map[])
    && (s.main.Some? ==> s.main.value.cr.hpa == s.versions[0].hpa)
    && (s.restore.Some? ==> s.restore.value.cr.hpa == s.versions[0].hpa)
  }

  ghost predicate Unscaled(s: State) {
    && SameAutoscalers(s)
    && (s.scaledAt.None? ==>
          && (forall i :: 0 <= i < |s.versions| ==> Quiet(s.versions[i]))
          && (s.main.Some? ==> Quiet(s.main.value.cr))
          && (forall c :: c in s.deployments ==> s.deployments[c] == if c in s.versions[0].hpa then 1 else 0)
          && s.jobs == 0 && !s.migrating)
    && (s.scaledAt.Some? ==> s.scaledAt.value < |s.versions|)
  }

  lemma AppendKeeps(s: State, n: CR)
    requires Unscaled(s) && s.versions != [] && n.hpa == s.versions[0].hpa && (s.scaledAt.None? ==> Quiet(n))
    ensures Unscaled(s.(versions := s.versions + [n]))
  {
  }

  lemma CopyKeeps(s: State, c: Copy)
    requires Unscaled(s) && s.versions != [] && c.cr.hpa == s.versions[0].hpa && (s.scaledAt.None? ==> Quiet(c.cr))
    ensures Unscaled(s.(main := Some(c)))
  {
  }

  lemma CommitKeepsQuiet(s: State, c: Copy)
    requires Unscaled(s) && s.main.Some? && c.cr.hpa == s.main.value.cr.hpa
    requires s.scaledAt.None? ==> Quiet(c.cr)
    ensures Unscaled(CommitStatus(s, c))
  {
    if c.version == |s.versions| - 1 {
      var n := Newest(s).(status := c.cr.status);
      AppendKeeps(s, n);
      CopyKeeps(s.(versions := s.versions + [n]), Copy(n, |s.versions|));
    } else {
      CopyKeeps(s, c);
    }
  }

  lemma ScaledMayMigrate(s: State, jobs: nat)
    requires Unscaled(s) && s.scaledAt.Some?
    ensures Unscaled(s.(jobs := jobs, migrating := true))
  {
  }

  lemma CommitKeepsScaledAt(s: State, c: Copy)
    ensures CommitStatus(s, c).scaledAt == s.scaledAt
  {
  }

  lemma WritesKeepUnscaled(s: State)
    requires Unscaled(s) && s.main.Some?
    ensures Unscaled(TriggerWrites(s, s.main.value)) && TriggerWrites(s, s.main.value).scaledAt == s.scaledAt
  {
    CommitKeepsQuiet(s, StorageRecorded(s.main.value));
    CommitKeepsQuiet(s, SettingsRecorded(s.main.value));
    CommitKeepsScaledAt(s, StorageRecorded(s.main.value));
    CommitKeepsScaledAt(s, SettingsRecorded(s.main.value));
  }

  lemma MigrationKeepsUnscaled(s: State, ok: bool, active: bool)
    requires Unscaled(s)
    ensures Unscaled(Step(s, RunMigration(ok, active)))
  {
    if s.main.Some? && !s.main.value.cr.disableMigrations {
      assert s.scaledAt.Some?;
      WritesKeepUnscaled(s);
      ScaledMayMigrate(TriggerWrites(s, s.main.value), Migrated(s, s.main.value, ok, active).jobs);
    }
  }

  lemma ScaleKeepsUnscaled(s: State, r: map<Component, int>)
    requires Unscaled(s)
    ensures Unscaled(Step(s, Scale(r)))
  {
    if s.restore.Some? && s.restore.value.version == |s.versions| - 1 {
      var n := s.restore.value.cr.(replicas := r, disableMigrations := false);
      var t := s.(scaledAt := if s.scaledAt.Some? then s.scaledAt else Some(|s.versions| - 1), restore := None);
      assert Unscaled(t);
      AppendKeeps(t, n);
    }
  }

  lemma PatchKeepsUnscaled(s: State)
    requires Unscaled(s)
    ensures Unscaled(Step(s, PatchNames))
  {
    if s.main.Some? && s.versions != [] {
      var n := Newest(s).(names := Newest(s).names + 1);
      AppendKeeps(s, n);
      CopyKeeps(s.(versions := s.versions + [n]), Copy(n, |s.versions|));
    }
  }

  lemma StepKeepsUnscaled(s: State, m: Move)
    requires Unscaled(s)
    ensures Unscaled(Step(s, m))
  {
    match m
    case WriteStatus => if s.main.Some? { CommitKeepsQuiet(s, s.main.value); }
    case RecordImage =>
      if s.main.Some? {
        CommitKeepsQuiet(s, s.main.value.(cr := s.main.value.cr.(status := s.main.value.cr.status.(image := s.main.value.cr.image))));
      }
    case RunMigration(ok, active) => MigrationKeepsUnscaled(s, ok, active);
    case Scale(r) => ScaleKeepsUnscaled(s, r);
    case PatchNames => PatchKeepsUnscaled(s);
    case CreateCR(b) =>
    case ReadForScale(v) =>
    case StartPass(v) =>
    case WriteDeployment(c) =>
    case EndPass =>
  }

  lemma {:induction false} AlwaysUnscaled(ms: seq<Move>)
    ensures Unscaled(Run(START, ms))
  {
    if ms != [] {
      AlwaysUnscaled(ms[..|ms| - 1]);
      StepKeepsUnscaled(Run(START, ms[..|ms| - 1]), ms[|ms| - 1]);
    }
  }

  /** Two-controller safety: in every interleaving, until `scaleDeployments`
      commits, every Deployment the reconciler wrote has no replicas (one where an
      autoscaler is enabled), and no migration Job exists. */
  lemma NothingRunsBeforeScaling(ms: seq<Move>)
    requires Run(START, ms).scaledAt.None?
    ensures var s := Run(START, ms);
      && s.jobs == 0
      && (forall c :: c in s.deployments ==> s.versions != [] && (s.deployments[c] == 0 <==> c !in Newest(s).hpa))
      && (forall i :: 0 <= i < |s.versions| ==> s.versions[i].replicas == NO_REPLICAS && s.versions[i].disableMigrations)
  {
    AlwaysUnscaled(ms);
    var s := Run(START, ms);
    if s.versions == [] { assert s.deployments == map[]; }
  }

  // ---- the trigger that survives ----

  ghost predicate Untriggered(s: State) {
    && (!s.migrating ==>
         && s.jobs == 0
         && (forall i :: 0 <= i < |s.versions| ==> s.versions[i].status.storageType == "")
         && (s.main.Some? ==> s.main.value.cr.status.storageType == "")
         && (s.restore.Some? ==> s.restore.value.cr.status.storageType == ""))
  }

  lemma StepKeepsTrigger(s: State, m: Move)
    requires Untriggered(s)
    ensures Untriggered(Step(s, m))
  {
  }

  lemma {:induction false} TriggerSurvives(ms: seq<Move>)
    ensures Untriggered(Run(START, ms))
  {
    if ms != [] {
      TriggerSurvives(ms[..|ms| - 1]);
      StepKeepsTrigger(Run(START, ms[..|ms| - 1]), ms[|ms| - 1]);
    }
  }

  /** Whatever the passes recorded meanwhile, the first pass that reaches the
      migration with migrations switched on creates a Job. */
  lemma FirstMigrationCreatesAJob(ms: seq<Move>, active: bool)
    requires var s := Run(START, ms); !s.migrating && s.main.Some? && !s.main.value.cr.disableMigrations
    requires Run(START, ms).main.value.cr.storageType != ""
    ensures Step(Run(START, ms), RunMigration(true, active)).jobs == 1
  {
    TriggerSurvives(ms);
  }

  /** Only the storage type survives: the image is recorded by passes that ran
      with migrations off, and would not have caused a Job by itself. */
  lemma ImageTriggerIsConsumed(b: CR)
    ensures var s := Run(START, [CreateCR(b), StartPass(0), RecordImage]);
      s.versions != [] && Newest(s).status.image == b.image && Newest(s).disableMigrations && Newest(s).status.storageType == ""
  {
    var ms := [CreateCR(b), StartPass(0), RecordImage];
    assert ms[..2] == [CreateCR(b), StartPass(0)] && ms[..2][..1] == [CreateCR(b)] && ms[..2][..1][..0] == [];
    assert Run(START, ms[..2][..1]) == Step(START, CreateCR(b));
  }

  /** A pass reads with migrations on exactly from the scaled version onwards. */
  ghost predicate EnabledFromScaling(s: State) {
    && (s.scaledAt.Some? ==> s.scaledAt.value < |s.versions|)
    && (forall i :: 0 <= i < |s.versions| ==> (!s.versions[i].disableMigrations <==> s.scaledAt.Some? && i >= s.scaledAt.value))
    && (s.main.Some? ==> s.main.value.version < |s.versions| && s.main.value.cr.disableMigrations == s.versions[s.main.value.version].disableMigrations)
  }

  lemma CommitKeepsEnabled(s: State, c: Copy)
    requires EnabledFromScaling(s) && s.main.Some? && c.version == s.main.value.version && c.cr.disableMigrations == s.main.value.cr.disableMigrations
    ensures EnabledFromScaling(CommitStatus(s, c))
  {
  }

  lemma ScaleKeepsEnabled(s: State, r: map<Component, int>)
    requires EnabledFromScaling(s)
    ensures EnabledFromScaling(Step(s, Scale(r)))
  {
  }

  lemma PatchKeepsEnabled(s: State)
    requires EnabledFromScaling(s)
    ensures EnabledFromScaling(Step(s, PatchNames))
  {
  }

  lemma EnabledIgnoresJobs(s: State, jobs: nat)
    requires EnabledFromScaling(s)
    ensures EnabledFromScaling(s.(jobs := jobs, migrating := true))
  {
  }

  lemma WritesKeepEnabled(s: State)
    requires EnabledFromScaling(s) && s.main.Some?
    ensures EnabledFromScaling(TriggerWrites(s, s.main.value))
  {
    CommitKeepsEnabled(s, StorageRecorded(s.main.value));
    CommitKeepsEnabled(s, SettingsRecorded(s.main.value));
  }

  lemma MigrationKeepsEnabled(s: State, ok: bool, active: bool)
    requires EnabledFromScaling(s)
    ensures EnabledFromScaling(Step(s, RunMigration(ok, active)))
  {
    if s.main.Some? && !s.main.value.cr.disableMigrations {
      WritesKeepEnabled(s);
      EnabledIgnoresJobs(TriggerWrites(s, s.main.value), Migrated(s, s.main.value, ok, active).jobs);
    }
  }

  lemma StepKeepsEnabled(s: State, m: Move)
    requires EnabledFromScaling(s)
    ensures EnabledFromScaling(Step(s, m))
  {
    match m
    case WriteStatus => if s.main.Some? { CommitKeepsEnabled(s, s.main.value); }
    case RecordImage =>
      if s.main.Some? {
        CommitKeepsEnabled(s, s.main.value.(cr := s.main.value.cr.(status := s.main.value.cr.status.(image := s.main.value.cr.image))));
      }
    case RunMigration(ok, active) => MigrationKeepsEnabled(s, ok, active);
    case Scale(r) => ScaleKeepsEnabled(s, r);
    case PatchNames => PatchKeepsEnabled(s);
    case CreateCR(b) =>
    case ReadForScale(v) =>
    case StartPass(v) =>
    case WriteDeployment(c) =>
    case EndPass =>
  }

  lemma {:induction false} EnabledExactlyAfterScaling(ms: seq<Move>)
    ensures EnabledFromScaling(Run(START, ms))
  {
    if ms != [] {
      EnabledExactlyAfterScaling(ms[..|ms| - 1]);
      StepKeepsEnabled(Run(START, ms[..|ms| - 1]), ms[|ms| - 1]);
    }
  }

  /** Put together: after the scaling, a new pass that reads any version from
      then on and reaches the migration before any other did creates the Job. */
  lemma FirstPassAfterScalingMigrates(ms: seq<Move>, v: nat, active: bool)
    requires var s := Run(START, ms); s.scaledAt.Some? && s.scaledAt.value <= v < |s.versions| && s.main.None? && !s.migrating
    requires Run(START, ms).versions[v].storageType != ""
    ensures Run(START, ms + [StartPass(v), RunMigration(true, active)]).jobs == 1
  {
    var s := Run(START, ms);
    EnabledExactlyAfterScaling(ms);
    var all := ms + [StartPass(v), RunMigration(true, active)];
    assert all[..|all| - 1] == ms + [StartPass(v)];
    assert (ms + [StartPass(v)])[..|ms|] == ms;
    FirstMigrationCreatesAJob(ms + [StartPass(v)], active);
  }
}
