/** The restore controller: a sequence of stages that is tried again from the
    start after any error, until a lock ConfigMap says that it is done. */
module RestoreProtocol {
  import opened Pulp
  import B = SecretBackup

  datatype Replicas = Replicas(api: int, content: int, worker: int, web: int)

  const ZERO := Replicas(0, 0, 0, 0)

  datatype Ingress = Route | NginxIngress | OtherIngress | NoIngress

  datatype CR = CR(replicas: Replicas, disableMigrations: bool, ingress: Ingress)

  datatype Backup = Backup(cr: CR, configMap: Option<(string, map<string, string>)>, secrets: B.Files)

  datatype Stage = BackupDir | FindPVC | ManagerPod | StatDir | ConfigMaps | Secrets | PulpCR | Database | PulpDir | Scale

  /** What goes wrong in one attempt. `stop` is the stage that returns an error;
      the other errors are ones the source does not look at. */
  datatype Faults = Faults(
    stop: Option<Stage>,
    lockUnread: bool,             // reading the lock fails although it may exist
    configMapUnread: bool,        // reading an existing or missing ConfigMap fails
    unread: set<B.Kind>,          // the same for Secrets
    stopAt: Option<B.Kind>,       // the Secret whose creation fails, when the stage stops
    crUnread: bool,               // reading the Pulp CR fails
    crCreated: bool,              // the failing CR stage had already created the CR
    scaled: bool,                 // the failing scale stage had already written the CR
    lockCreated: bool,            // the final creation of the lock goes through
    completeWritten: bool)        // the final status write goes through

  datatype World = World(
    lock: bool,
    complete: bool,
    configMaps: map<string, map<string, string>>,
    secrets: B.Secrets,
    cr: Option<CR>,
    created: nat,                 // Pulp CRs created by the controller
    performed: seq<Stage>)        // stages begun, over all attempts

  // ---- stages, as functions ----

  function Begin(w: World, s: Stage): World { w.(performed := w.performed + [s]) }

  predicate Stops(f: Faults, s: Stage) { f.stop == Some(s) }

  function RestoreConfigMap(b: Backup, w: World, unread: bool): World {
    match b.configMap
    case None => w
    case Some((name, data)) => if unread || name in w.configMaps then w else w.(configMaps := w.configMaps[name := data])
  }

  /** The Secrets one after the other, up to the one that fails. */
  function RestoreSecrets(files: B.Files, secrets: B.Secrets, order: seq<B.Kind>, f: Faults): B.Secrets
    decreases |order|
  {
    if order == [] || (Stops(f, Secrets) && f.stopAt == Some(order[0])) then secrets
    else if order[0] !in files then
      (if B.Mandatory(order[0]) then secrets else RestoreSecrets(files, secrets, order[1..], f))
    else
      var n := B.NameOf(order[0], files[order[0]]);
      RestoreSecrets(files,
        if order[0] in f.unread || n in secrets then secrets else secrets[n := B.DataOf(order[0], files[order[0]])], order[1..], f)
  }

  /** `restorePulpCR`: only the attempt that creates the CR knows the counts of
      the backup; every other one gets zeroes. */
  function RestorePulpCR(b: Backup, w: World, f: Faults): (World, Replicas) {
    if f.crUnread || w.cr.Some? then (w, ZERO)
    else if Stops(f, PulpCR) && !f.crCreated then (w, ZERO)
    else (w.(cr := Some(b.cr.(replicas := ZERO, disableMigrations := true)), created := w.created + 1), b.cr.replicas)
  }

  function Scaled(keep: bool, cr: CR, counts: Replicas): CR {
    if keep then cr.(replicas := counts, disableMigrations := false)
    else cr.(replicas := Replicas(1, 1, 1, if cr.ingress == Route || cr.ingress == OtherIngress then cr.replicas.web else 1),
             disableMigrations := false)
  }

  predicate HasMandatory(files: B.Files) { forall k :: k in B.RESTORE_ORDER && B.Mandatory(k) ==> k in files }

  /** Everything up to the Secrets, and whether the attempt goes on. */
  function EarlyStages(b: Backup, w: World, f: Faults): (World, bool) {
    var a := Begin(w, FindPVC);
    if Stops(f, FindPVC) then (a, false)
    else
      var c := Begin(a, ManagerPod);
      if Stops(f, ManagerPod) then (c, false)
      else
        var d := Begin(c, StatDir);
        if Stops(f, StatDir) then (d, false)
        else
          var e := Begin(d, ConfigMaps);
          if Stops(f, ConfigMaps) then (e, false)
          else
            var g := Begin(RestoreConfigMap(b, e, f.configMapUnread), Secrets);
            var h := g.(secrets := RestoreSecrets(b.secrets, g.secrets, B.RESTORE_ORDER, f));
            (h, !Stops(f, Secrets) && HasMandatory(b.secrets))
  }

  function LateStages(b: Backup, keep: bool, w: World, f: Faults): (World, bool) {
    var (a, counts) := RestorePulpCR(b, Begin(w, PulpCR), f);
    if Stops(f, PulpCR) then (a, false)
    else
      var c := Begin(a, Database);
      if Stops(f, Database) then (c, false)
      else
        var d := Begin(c, PulpDir);
        if Stops(f, PulpDir) then (d, false)
        else
          var e := Begin(d, Scale);
          if e.cr.None? || (Stops(f, Scale) && !f.scaled) then (e, false)
          else (e.(cr := Some(Scaled(keep, e.cr.value, counts))), !Stops(f, Scale))
  }

  /** One call of `Reconcile`. */
  function Attempt(b: Backup, keep: bool, w: World, f: Faults): World {
    if Stops(f, BackupDir) then w
    else if w.lock && !f.lockUnread then w
    else
      var (e, early) := EarlyStages(b, w.(complete := false), f);
      if !early then e
      else
        var (l, late) := LateStages(b, keep, e, f);
        if !late then l else l.(lock := l.lock || f.lockCreated, complete := f.completeWritten)
  }

  // ---- the same, as the source runs it ----

  class Controller {
    const backup: Backup
    const keep: bool
    var w: World

    constructor (backup: Backup, keep: bool, w: World)
      ensures this.backup == backup && this.keep == keep && this.w == w
    {
      this.backup, this.keep, this.w := backup, keep, w;
    }

    method Perform(s: Stage, f: Faults) returns (ok: bool)
      modifies `w
      ensures w == Begin(old(w), s) && ok == !Stops(f, s)
    {
      w := w.(performed := w.performed + [s]);
      ok := f.stop != Some(s);
    }

    method RestoreSecretStage(f: Faults) returns (ok: bool)
      modifies `w
      ensures w == old(w).(secrets := RestoreSecrets(backup.secrets, old(w).secrets, B.RESTORE_ORDER, f))
      ensures ok ==> forall k :: k in B.RESTORE_ORDER && B.Mandatory(k) ==> k in backup.secrets
      ensures !ok ==> Stops(f, Secrets) || exists k :: k in B.RESTORE_ORDER && B.Mandatory(k) && k !in backup.secrets
    {
      var order := B.RESTORE_ORDER;
      for i := 0 to |order|
        invariant w == old(w).(secrets := w.secrets)
        invariant RestoreSecrets(backup.secrets, w.secrets, order[i..], f) == RestoreSecrets(backup.secrets, old(w).secrets, order, f)
        invariant forall j :: 0 <= j < i ==> B.Mandatory(order[j]) ==> order[j] in backup.secrets
      {
        var k := order[i];
        assert order[i..][0] == k && order[i..][1..] == order[i + 1..];
        if f.stop == Some(Secrets) && f.stopAt == Some(k) { return false; }
        if k !in backup.secrets {
          if B.Mandatory(k) { assert k in order; return false; }
          continue;
        }
        var name, data := B.NameOf(k, backup.secrets[k]), B.DataOf(k, backup.secrets[k]);
        if k !in f.unread && name !in w.secrets { w := w.(secrets := w.secrets[name := data]); }
      }
      return true;
    }

    method RestoreCRStage(f: Faults) returns (counts: Replicas)
      modifies `w
      ensures (w, counts) == RestorePulpCR(backup, old(w), f)
    {
      counts := ZERO;
      if f.crUnread || w.cr.Some? { return; }
      if f.stop == Some(PulpCR) && !f.crCreated { return; }
      var cr := backup.cr;
      counts := cr.replicas;
      cr := cr.(replicas := ZERO);
      cr := cr.(disableMigrations := true);
      w := w.(cr := Some(cr), created := w.created + 1);
    }

    method ScaleDeployments(counts: Replicas, f: Faults) returns (ok: bool)
      modifies `w
      ensures if old(w).cr.None? || (Stops(f, Scale) && !f.scaled) then w == old(w) && !ok
              else w == old(w).(cr := Some(Scaled(keep, old(w).cr.value, counts))) && ok == !Stops(f, Scale)
    {
      if w.cr.None? { return false; }
      var cr := w.cr.value;
      if keep {
        cr := cr.(replicas := counts);
      } else {
        cr := cr.(replicas := cr.replicas.(api := 1, content := 1, worker := 1));
        if cr.ingress != Route && cr.ingress != OtherIngress { cr := cr.(replicas := cr.replicas.(web := 1)); }
      }
      cr := cr.(disableMigrations := false);
      if f.stop == Some(Scale) && !f.scaled { return false; }
      w := w.(cr := Some(cr));
      return f.stop != Some(Scale);
    }

    method RunEarlyStages(f: Faults) returns (ok: bool)
      modifies `w
      ensures w == EarlyStages(backup, old(w), f).0 && ok == EarlyStages(backup, old(w), f).1
    {
      ok := Perform(FindPVC, f);
      if !ok { return; }
      ok := Perform(ManagerPod, f);
      if !ok { return; }
      ok := Perform(StatDir, f);
      if !ok { return; }
      ok := Perform(ConfigMaps, f);
      if !ok { return; }
      if backup.configMap.Some? && !f.configMapUnread && backup.configMap.value.0 !in w.configMaps {
        w := w.(configMaps := w.configMaps[backup.configMap.value.0 := backup.configMap.value.1]);
      }
      var go := Perform(Secrets, f);
      ok := RestoreSecretStage(f);
      ok := ok && go;
    }

    method RunLateStages(f: Faults) returns (ok: bool)
      modifies `w
      ensures w == LateStages(backup, keep, old(w), f).0 && ok == LateStages(backup, keep, old(w), f).1
    {
      ok := Perform(PulpCR, f);
      var counts := RestoreCRStage(f);
      if !ok { return; }
      ok := Perform(Database, f);
      if !ok { return; }
      ok := Perform(PulpDir, f);
      if !ok { return; }
      ok := Perform(Scale, f);
      ok := ScaleDeployments(counts, f);
    }

    method Reconcile(f: Faults)
      modifies `w
      ensures w == Attempt(backup, keep, old(w), f)
    {
      if f.stop == Some(BackupDir) { return; }
      if w.lock && !f.lockUnread { return; }
      w := w.(complete := false);
      var ok := RunEarlyStages(f);
      if !ok { return; }
      ok := RunLateStages(f);
      if !ok { return; }
      if f.lockCreated { w := w.(lock := true); }
      w := w.(complete := f.completeWritten);
    }
  }

  // ---- one attempt ----

  /** Once the lock exists no attempt performs any stage, unless the lock cannot
      be read. */
  lemma LockStopsAttempts(b: Backup, keep: bool, w: World, f: Faults)
    requires w.lock && f.stop != Some(BackupDir)
    ensures Attempt(b, keep, w, f).performed == w.performed <==> !f.lockUnread
    ensures !f.lockUnread ==> Attempt(b, keep, w, f) == w
  {
    if f.lockUnread {
      EarlyPerforms(b, w.(complete := false), f);
      LatePerforms(b, keep, EarlyStages(b, w.(complete := false), f).0, f);
    }
  }

  lemma EarlyPerforms(b: Backup, w: World, f: Faults)
    ensures |EarlyStages(b, w, f).0.performed| > |w.performed|
  {
  }

  lemma LatePerforms(b: Backup, keep: bool, w: World, f: Faults)
    ensures |LateStages(b, keep, w, f).0.performed| >= |w.performed|
  {
  }

  /** Every stage of this attempt went through. */
  predicate Succeeds(b: Backup, keep: bool, w: World, f: Faults) {
    && f.stop.None?
    && EarlyStages(b, w.(complete := false), f).1
    && LateStages(b, keep, EarlyStages(b, w.(complete := false), f).0, f).1
  }

  lemma EarlyKeeps(b: Backup, w: World, f: Faults)
    ensures var (e, ok) := EarlyStages(b, w, f);
      e.lock == w.lock && e.complete == w.complete && e.cr == w.cr && e.created == w.created
  {
  }

  lemma LateFrame(b: Backup, keep: bool, w: World, f: Faults)
    ensures var l := LateStages(b, keep, w, f).0;
      l.lock == w.lock && l.complete == w.complete && l.secrets == w.secrets && l.configMaps == w.configMaps
  {
  }

  lemma LateCR(b: Backup, keep: bool, w: World, f: Faults)
    ensures var (l, ok) := LateStages(b, keep, w, f);
      && (ok ==> l.cr.Some?)
      && l.cr.Some? == RestorePulpCR(b, Begin(w, PulpCR), f).0.cr.Some?
      && l.created == RestorePulpCR(b, Begin(w, PulpCR), f).0.created
  {
  }

  lemma LateKeeps(b: Backup, keep: bool, w: World, f: Faults)
    ensures var (l, ok) := LateStages(b, keep, w, f);
      && l.lock == w.lock && l.complete == w.complete && l.secrets == w.secrets && l.configMaps == w.configMaps
      && (ok ==> l.cr.Some?) && (w.cr.Some? ==> l.cr.Some? && l.created == w.created)
      && (w.cr.None? ==> l.created == w.created + if l.cr.Some? then 1 else 0)
  {
    LateFrame(b, keep, w, f);
    LateCR(b, keep, w, f);
  }

  lemma LateSuccess(b: Backup, keep: bool, w: World, f: Faults)
    ensures LateStages(b, keep, w, f).1 ==> f.stop != Some(PulpCR) && f.stop != Some(Database) && f.stop != Some(PulpDir) && f.stop != Some(Scale)
  {
  }

  lemma EarlySuccess(b: Backup, w: World, f: Faults)
    ensures EarlyStages(b, w, f).1 ==> f.stop != Some(FindPVC) && f.stop != Some(ManagerPod) && f.stop != Some(StatDir)
                                       && f.stop != Some(ConfigMaps) && f.stop != Some(Secrets)
  {
  }

  /** The lock and `RestoreComplete=True` come only from an attempt in which
      every stage succeeded, and such an attempt leaves a Pulp CR behind. */
  lemma CompletionOnlyFromSuccess(b: Backup, keep: bool, w: World, f: Faults)
    ensures var t := Attempt(b, keep, w, f);
      && (t.lock && !w.lock ==> Succeeds(b, keep, w, f) && f.lockCreated)
      && (t.complete && (!w.complete || t.performed != w.performed) ==> Succeeds(b, keep, w, f) && t.cr.Some?)
  {
    var e := EarlyStages(b, w.(complete := false), f).0;
    EarlyKeeps(b, w.(complete := false), f);
    EarlySuccess(b, w.(complete := false), f);
    LateKeeps(b, keep, e, f);
    LateSuccess(b, keep, e, f);
    if f.stop != Some(BackupDir) && !(w.lock && !f.lockUnread) && f.stop.Some? { StagesCover(f.stop.value); }
  }

  lemma StagesCover(s: Stage)
    ensures s in {BackupDir, FindPVC, ManagerPod, StatDir, ConfigMaps, Secrets, PulpCR, Database, PulpDir, Scale}
  {
  }

  lemma {:induction false} SecretsOnlyAdded(files: B.Files, secrets: B.Secrets, order: seq<B.Kind>, f: Faults)
    ensures var r := RestoreSecrets(files, secrets, order, f);
      forall n :: n in secrets ==> n in r && r[n] == secrets[n]
    decreases |order|
  {
    if order == [] || (Stops(f, Secrets) && f.stopAt == Some(order[0])) {
    } else if order[0] !in files {
      SecretsOnlyAdded(files, secrets, order[1..], f);
    } else {
      var n := B.NameOf(order[0], files[order[0]]);
      var next := if order[0] in f.unread || n in secrets then secrets else secrets[n := B.DataOf(order[0], files[order[0]])];
      SecretsOnlyAdded(files, next, order[1..], f);
      assert RestoreSecrets(files, secrets, order, f) == RestoreSecrets(files, next, order[1..], f);
      assert forall x :: x in secrets ==> x in next && next[x] == secrets[x];
    }
  }

  ghost predicate Extends<K, V>(a: map<K, V>, b: map<K, V>) { forall k :: k in a ==> k in b && b[k] == a[k] }

  lemma EarlyOnlyAdds(b: Backup, w: World, f: Faults)
    ensures var e := EarlyStages(b, w, f).0;
      Extends(w.secrets, e.secrets) && Extends(w.configMaps, e.configMaps)
  {
    SecretsOnlyAdded(b.secrets, w.secrets, B.RESTORE_ORDER, f);
  }

  /** No attempt overwrites a Secret or ConfigMap, removes the CR, or creates a
      second one. */
  lemma AttemptOnlyAdds(b: Backup, keep: bool, w: World, f: Faults)
    ensures var t := Attempt(b, keep, w, f);
      && Extends(w.secrets, t.secrets) && Extends(w.configMaps, t.configMaps)
      && (w.lock ==> t.lock)
      && (w.cr.Some? ==> t.cr.Some? && t.created == w.created)
      && (w.cr.None? ==> t.created == w.created + if t.cr.Some? then 1 else 0)
  {
    EarlyKeeps(b, w.(complete := false), f);
    EarlyOnlyAdds(b, w.(complete := false), f);
    LateKeeps(b, keep, EarlyStages(b, w.(complete := false), f).0, f);
  }

  // ---- runs ----

  datatype Event =
    | Try(faults: Faults)
    | EditCR(cr: CR)                                   // somebody writes the existing CR
    | AddSecret(name: string, data: map<string, string>)   // somebody creates a new Secret
    | RemoveLock

  function Step(b: Backup, keep: bool, w: World, e: Event): World {
    match e
    case Try(f) => Attempt(b, keep, w, f)
    case EditCR(cr) => if w.cr.Some? then w.(cr := Some(cr)) else w
    case AddSecret(n, d) => if n in w.secrets then w else w.(secrets := w.secrets[n := d])
    case RemoveLock => w.(lock := false)
  }

  function Run(b: Backup, keep: bool, w: World, es: seq<Event>): World {
    if es == [] then w else Step(b, keep, Run(b, keep, w, es[..|es| - 1]), es[|es| - 1])
  }

  /** Over any attempts, faults and interference: what was there stays as it
      was, and the CR is created at most once. */
  lemma {:induction false} RestoreOnlyAdds(b: Backup, keep: bool, w: World, es: seq<Event>)
    ensures var t := Run(b, keep, w, es);
      && Extends(w.secrets, t.secrets) && Extends(w.configMaps, t.configMaps)
      && (w.cr.Some? ==> t.cr.Some? && t.created == w.created)
      && (w.cr.None? ==> t.created == w.created + if t.cr.Some? then 1 else 0)
  {
    if es != [] {
      RestoreOnlyAdds(b, keep, w, es[..|es| - 1]);
      var u := Run(b, keep, w, es[..|es| - 1]);
      if es[|es| - 1].Try? { AttemptOnlyAdds(b, keep, u, es[|es| - 1].faults); }
    }
  }

  /** While nobody removes the lock and it can be read, nothing more happens. */
  lemma {:induction false} LockedForGood(b: Backup, keep: bool, w: World, es: seq<Event>)
    requires w.lock
    requires forall i :: 0 <= i < |es| ==> es[i] != RemoveLock && (es[i].Try? ==> !es[i].faults.lockUnread)
    ensures Run(b, keep, w, es).lock && Run(b, keep, w, es).performed == w.performed
  {
    if es != [] {
      LockedForGood(b, keep, w, es[..|es| - 1]);
    }
  }

  // ---- what an attempt restores ----

  /** The kinds the Secret stage gets to: up to the one at which it fails, or the
      first mandatory one without a file. */
  function Reached(files: B.Files, order: seq<B.Kind>, f: Faults): seq<B.Kind>
    decreases |order|
  {
    if order == [] || (Stops(f, Secrets) && f.stopAt == Some(order[0])) || (order[0] !in files && B.Mandatory(order[0])) then []
    else [order[0]] + Reached(files, order[1..], f)
  }

  /** The Secrets after the stage, name by name: those that exist stay, and for
      every other name the first file reached and read decides. */
  lemma {:induction false} SecretsExactly(files: B.Files, secrets: B.Secrets, order: seq<B.Kind>, f: Faults, x: string)
    ensures var r, k := RestoreSecrets(files, secrets, order, f), B.FirstFile(files - f.unread, Reached(files, order, f), x);
      && (x in r <==> x in secrets || k.Some?)
      && (x in secrets ==> r[x] == secrets[x])
      && (x !in secrets && k.Some? ==> k.value in files && r[x] == B.DataOf(k.value, files[k.value]))
    decreases |order|
  {
    B.FirstFileIsOne(files - f.unread, Reached(files, order, f), x);
    if order != [] && Reached(files, order, f) != [] {
      var k, rest := order[0], order[1..];
      assert Reached(files, order, f)[1..] == Reached(files, rest, f);
      if k !in files {
        SecretsExactly(files, secrets, rest, f, x);
      } else {
        var n := B.NameOf(k, files[k]);
        var next := if k in f.unread || n in secrets then secrets else secrets[n := B.DataOf(k, files[k])];
        SecretsExactly(files, next, rest, f, x);
        assert RestoreSecrets(files, secrets, order, f) == RestoreSecrets(files, next, rest, f);
      }
    }
  }

  lemma {:induction false} AllReached(files: B.Files, order: seq<B.Kind>, f: Faults)
    requires !Stops(f, Secrets) && forall k :: k in order && B.Mandatory(k) ==> k in files
    ensures Reached(files, order, f) == order
    decreases |order|
  {
    if order != [] {
      assert order[0] in order && forall k :: k in order[1..] ==> k in order;
      AllReached(files, order[1..], f);
      assert [order[0]] + order[1..] == order;
    }
  }

  /** When an attempt succeeds: nothing stops it, every mandatory file is there,
      and there is a CR to scale. */
  lemma SucceedsExactly(b: Backup, keep: bool, w: World, f: Faults)
    ensures Succeeds(b, keep, w, f)
            <==> && f.stop.None? && (forall k :: k in B.RESTORE_ORDER && B.Mandatory(k) ==> k in b.secrets)
                 && (w.cr.Some? || !f.crUnread)
  {
    EarlyKeeps(b, w.(complete := false), f);
    LateCR(b, keep, EarlyStages(b, w.(complete := false), f).0, f);
  }

  lemma EarlyRestores(b: Backup, w: World, f: Faults)
    requires f.stop.None?
    ensures var e := EarlyStages(b, w, f).0;
      && e.secrets == RestoreSecrets(b.secrets, w.secrets, B.RESTORE_ORDER, f)
      && e.configMaps == (if b.configMap.None? || f.configMapUnread || b.configMap.value.0 in w.configMaps then w.configMaps
                          else w.configMaps[b.configMap.value.0 := b.configMap.value.1])
  {
  }

  lemma LateScales(b: Backup, keep: bool, w: World, f: Faults)
    requires LateStages(b, keep, w, f).1
    ensures var cr, found := LateStages(b, keep, w, f).0.cr, if w.cr.Some? then w.cr.value else b.cr;
      && cr.Some? && cr.value == found.(replicas := cr.value.replicas, disableMigrations := false)
  {
  }

  /** What a completed restore leaves. Every Secret with a file that could be
      read exists under its name, with the file's data if it was new, and nothing
      else has appeared; so does the ConfigMap; and the CR is the backup's, or the
      one that was there, but for the replica counts and the migration switch,
      which is on. */
  lemma CompletedRestore(b: Backup, keep: bool, w: World, f: Faults, x: string)
    requires Succeeds(b, keep, w, f) && (w.lock ==> f.lockUnread)
    ensures var t, k := Attempt(b, keep, w, f), B.FirstFile(b.secrets - f.unread, B.RESTORE_ORDER, x);
      && (x in t.secrets <==> x in w.secrets || k.Some?)
      && (x in w.secrets ==> t.secrets[x] == w.secrets[x])
      && (x !in w.secrets && k.Some? ==> k.value in b.secrets && t.secrets[x] == B.DataOf(k.value, b.secrets[k.value]))
      && t.configMaps == (if b.configMap.None? || f.configMapUnread || b.configMap.value.0 in w.configMaps then w.configMaps
                          else w.configMaps[b.configMap.value.0 := b.configMap.value.1])
      && t.cr.Some?
      && var found := if w.cr.Some? then w.cr.value else b.cr;
         t.cr.value == found.(replicas := t.cr.value.replicas, disableMigrations := false)
  {
    var v := w.(complete := false);
    SuccessIsBothHalves(b, keep, w, f);
    SucceedsExactly(b, keep, w, f);
    EarlyKeeps(b, v, f);
    EarlyRestores(b, v, f);
    LateFrame(b, keep, EarlyStages(b, v, f).0, f);
    LateScales(b, keep, EarlyStages(b, v, f).0, f);
    AllReached(b.secrets, B.RESTORE_ORDER, f);
    SecretsExactly(b.secrets, w.secrets, B.RESTORE_ORDER, f, x);
  }

  /** A file of its own for every Secret's name, and the protocol brings back
      what the backup carried: backup, then a restore attempt that succeeds with
      every read answered. */
  lemma BackupThenProtocol(original: B.Secrets, n: B.Names, b: Backup, keep: bool, w: World, f: Faults, e: B.Entry)
    requires B.KindsDistinct(B.Entries(n)) && B.TagsFree(original, B.Entries(n)) && e in B.Entries(n)
    requires B.BackedUp(original, B.Entries(n)) == Some(b.secrets)
    requires Succeeds(b, keep, w, f) && (w.lock ==> f.lockUnread) && f.unread == {}
    ensures var t, first := Attempt(b, keep, w, f), B.FirstKind(B.Entries(n), B.RESTORE_ORDER, e.name);
      && e.name in original && e.name in t.secrets && first.Some?
      && (e.name in w.secrets ==> t.secrets[e.name] == w.secrets[e.name])
      && (e.name !in w.secrets ==> t.secrets[e.name] == B.Carried(first.value, original[e.name]))
  {
    assert b.secrets - f.unread == b.secrets;
    CompletedRestore(b, keep, w, f, e.name);
    B.SharedNamesFirstWins(original, n, w.secrets, e);
    B.FirstFileIsFirstKind(original, B.Entries(n), B.RESTORE_ORDER, e.name);
    B.FirstKindIsOne(B.Entries(n), B.RESTORE_ORDER, e.name);
    B.FileIsEntry(original, B.Entries(n), B.FirstKind(B.Entries(n), B.RESTORE_ORDER, e.name).value, e.name);
  }

  // ---- which stages an attempt performs ----

  const STAGES: seq<Stage> := [FindPVC, ManagerPod, StatDir, ConfigMaps, Secrets, PulpCR, Database, PulpDir, Scale]

  /** How many stages have begun when this one has. */
  function Count(s: Stage): (n: nat)
    ensures n <= 9
  {
    match s
    case BackupDir => 0 case FindPVC => 1 case ManagerPod => 2 case StatDir => 3 case ConfigMaps => 4
    case Secrets => 5 case PulpCR => 6 case Database => 7 case PulpDir => 8 case Scale => 9
  }

  /** How many an attempt begins: up to the first that stops it; a missing
      mandatory file stops it at the Secrets. */
  function Begun(b: Backup, f: Faults): (n: nat)
    ensures n <= 9
  {
    var n := if f.stop.Some? then Count(f.stop.value) else 9;
    if n > 5 && !HasMandatory(b.secrets) then 5 else n
  }

  /** An attempt that gets past the lock begins its stages in the fixed order and
      ends with the first that fails. */
  lemma StagesInOrder(b: Backup, keep: bool, w: World, f: Faults)
    requires f.stop != Some(BackupDir) && (w.lock ==> f.lockUnread)
    ensures Attempt(b, keep, w, f).performed == w.performed + STAGES[..Begun(b, f)]
  {
    var v, n := w.(complete := false), Begun(b, f);
    EarlyOrder(b, v, f);
    EarlyGoesOn(b, v, f);
    if EarlyStages(b, v, f).1 {
      LateOrder(b, keep, EarlyStages(b, v, f).0, f);
      assert STAGES[..5] + STAGES[5..n] == STAGES[..n];
    }
    AttemptPerforms(b, keep, w, f);
  }

  lemma AttemptPerforms(b: Backup, keep: bool, w: World, f: Faults)
    requires f.stop != Some(BackupDir) && (w.lock ==> f.lockUnread)
    ensures var (e, early) := EarlyStages(b, w.(complete := false), f);
      Attempt(b, keep, w, f).performed == if early then LateStages(b, keep, e, f).0.performed else e.performed
  {
  }

  lemma EarlyGoesOn(b: Backup, w: World, f: Faults)
    requires f.stop != Some(BackupDir)
    ensures EarlyStages(b, w, f).1 <==> (f.stop.None? || Count(f.stop.value) > 5) && HasMandatory(b.secrets)
  {
    if f.stop.Some? { StagesCover(f.stop.value); }
  }

  lemma EarlyOrder(b: Backup, w: World, f: Faults)
    requires f.stop != Some(BackupDir)
    ensures EarlyStages(b, w, f).0.performed
            == w.performed + STAGES[..if f.stop.Some? && Count(f.stop.value) < 5 then Count(f.stop.value) else 5]
  {
    FirstStages();
    var p := w.performed;
    Appended(p, [FindPVC], [ManagerPod]);
    Appended(p, [FindPVC] + [ManagerPod], [StatDir]);
    Appended(p, [FindPVC] + [ManagerPod] + [StatDir], [ConfigMaps]);
    Appended(p, [FindPVC] + [ManagerPod] + [StatDir] + [ConfigMaps], [Secrets]);
  }

  lemma Appended<T>(p: seq<T>, a: seq<T>, b: seq<T>)
    ensures p + (a + b) == p + a + b
  {
  }

  lemma FirstStages()
    ensures STAGES[..1] == [FindPVC] && STAGES[..2] == [FindPVC] + [ManagerPod] && STAGES[..3] == [FindPVC] + [ManagerPod] + [StatDir]
    ensures STAGES[..4] == [FindPVC] + [ManagerPod] + [StatDir] + [ConfigMaps]
    ensures STAGES[..5] == [FindPVC] + [ManagerPod] + [StatDir] + [ConfigMaps] + [Secrets]
  {
  }

  lemma LateOrder(b: Backup, keep: bool, w: World, f: Faults)
    requires f.stop.None? || Count(f.stop.value) > 5
    ensures LateStages(b, keep, w, f).0.performed == w.performed + STAGES[5..if f.stop.Some? then Count(f.stop.value) else 9]
  {
    LastStages();
  }

  lemma LastStages()
    ensures STAGES[5..6] == [PulpCR] && STAGES[5..7] == [PulpCR] + [Database] && STAGES[5..8] == [PulpCR] + [Database] + [PulpDir]
    ensures STAGES[5..9] == [PulpCR] + [Database] + [PulpDir] + [Scale]
  {
  }

  // ---- replica counts ----

  /** With `keep_replicas`, a successful attempt leaves the backup's counts
      exactly when it is also the attempt that created the CR; otherwise it
      leaves zeroes. */
  lemma KeptReplicas(b: Backup, w: World, f: Faults)
    requires Succeeds(b, true, w, f) && (w.lock ==> f.lockUnread)
    ensures var t := Attempt(b, true, w, f);
      && t.cr.Some? && !t.cr.value.disableMigrations
      && t.cr.value.replicas == (if t.created > w.created then b.cr.replicas else ZERO)
      && (t.cr.value.replicas == b.cr.replicas <==> t.created > w.created || b.cr.replicas == ZERO)
      && (t.created > w.created <==> w.cr.None?)
  {
    EarlyKeeps(b, w.(complete := false), f);
  }

  /** Without it, one replica each; pulp-web keeps its count under a Route or a
      non-nginx Ingress. */
  lemma SingleReplicas(b: Backup, w: World, f: Faults)
    requires Succeeds(b, false, w, f) && (w.lock ==> f.lockUnread)
    ensures var t := Attempt(b, false, w, f);
      && t.cr.Some? && !t.cr.value.disableMigrations
      && t.cr.value.replicas.api == t.cr.value.replicas.content == t.cr.value.replicas.worker == 1
      && (t.cr.value.ingress != Route && t.cr.value.ingress != OtherIngress ==> t.cr.value.replicas.web == 1)
      && (w.cr.None? && (t.cr.value.ingress == Route || t.cr.value.ingress == OtherIngress) ==> t.cr.value.replicas.web == 0)
  {
    EarlyKeeps(b, w.(complete := false), f);
  }

  /** An error after the CR was created costs the counts: whatever attempt
      finally succeeds scales to zero. */
  lemma RetryForgetsCounts(b: Backup, w: World, f: Faults, es: seq<Event>, g: Faults)
    requires w.cr.None? && Attempt(b, true, w, f).cr.Some? && !Succeeds(b, true, w, f)
    requires var u := Run(b, true, Attempt(b, true, w, f), es); Succeeds(b, true, u, g) && (u.lock ==> g.lockUnread)
    ensures Attempt(b, true, Run(b, true, Attempt(b, true, w, f), es), g).cr.value.replicas == ZERO
  {
    RestoreOnlyAdds(b, true, Attempt(b, true, w, f), es);
    KeptReplicas(b, Run(b, true, Attempt(b, true, w, f), es), g);
  }

  lemma SuccessIsBothHalves(b: Backup, keep: bool, w: World, f: Faults)
    ensures var (e, early) := EarlyStages(b, w.(complete := false), f);
      Succeeds(b, keep, w, f) <==> f.stop != Some(BackupDir) && early && LateStages(b, keep, e, f).1
  {
    var e := EarlyStages(b, w.(complete := false), f).0;
    EarlySuccess(b, w.(complete := false), f);
    LateSuccess(b, keep, e, f);
    if f.stop.Some? { StagesCover(f.stop.value); }
  }

  /** The lock and the condition after an attempt that got past the lock. */
  lemma LockAndCondition(b: Backup, keep: bool, w: World, f: Faults)
    requires f.stop != Some(BackupDir) && (w.lock ==> f.lockUnread)
    ensures var t := Attempt(b, keep, w, f);
      && (t.complete <==> Succeeds(b, keep, w, f) && f.completeWritten)
      && (t.lock <==> w.lock || (Succeeds(b, keep, w, f) && f.lockCreated))
  {
    SuccessIsBothHalves(b, keep, w, f);
    EarlyKeeps(b, w.(complete := false), f);
    LateFrame(b, keep, EarlyStages(b, w.(complete := false), f).0, f);
  }

  /** The lock's own creation is not checked. An attempt that begins a stage ends
      complete and without a lock exactly when all its stages succeed, its status
      write goes through, and it is the creation of the lock that fails. */
  lemma CompleteWithoutLock(b: Backup, keep: bool, w: World, f: Faults)
    requires Attempt(b, keep, w, f).performed != w.performed
    ensures var t := Attempt(b, keep, w, f);
      t.complete && !t.lock <==> Succeeds(b, keep, w, f) && f.completeWritten && !f.lockCreated && !w.lock
  {
    LockAndCondition(b, keep, w, f);
  }

  /** What the next successful attempt then makes of the counts: with
      `keep_replicas` zeroes, whatever the first one had restored; without it one
      replica each, so that it zeroes them exactly with `keep_replicas`. */
  lemma NextAttemptCounts(b: Backup, keep: bool, w: World, f: Faults, g: Faults)
    requires Succeeds(b, keep, w, f) && !w.lock && !f.lockCreated
    requires Succeeds(b, keep, Attempt(b, keep, w, f), g)
    ensures var t := Attempt(b, keep, w, f);
      var u := Attempt(b, keep, t, g);
      && t.cr.Some? && u.cr.Some?
      && (u.cr.value.replicas == ZERO <==> keep)
      && (!keep ==> u.cr.value.replicas == t.cr.value.replicas)
      && (keep && w.cr.None? ==> t.cr.value.replicas == b.cr.replicas)
  {
    var t := Attempt(b, keep, w, f);
    EarlyKeeps(b, w.(complete := false), f);
    LateKeeps(b, keep, EarlyStages(b, w.(complete := false), f).0, f);
    if keep {
      KeptReplicas(b, w, f);
      KeptReplicas(b, t, g);
    } else {
      SingleReplicas(b, w, f);
      SingleReplicas(b, t, g);
      SecondSingle(b, t, g);
    }
  }

  lemma SecondSingle(b: Backup, t: World, g: Faults)
    requires Succeeds(b, false, t, g) && !t.lock && t.cr.Some?
    ensures Attempt(b, false, t, g).cr == Some(Scaled(false, t.cr.value, ZERO))
  {
    EarlyKeeps(b, t.(complete := false), g);
  }
}
