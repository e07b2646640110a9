/** Objects whose content triggers work: the trusted-CA ConfigMap and the
    signing Secret restart the pulpcore pods, the signing-scripts Secret starts
    a Job. Each carries the hash of the content last acted on as a label. */
module HashTriggers {
  import opened Pulp

  type Data = map<string, string>

  datatype Object = Object(data: Data, hashLabel: string)

  datatype Kind = TrustedCA | SigningSecret | SigningScripts

  /** The object (absent when the user has not created it), how often it has
      fired, and the content behind the current label. */
  datatype State = State(held: Option<Object>, fires: nat, acted: Option<Data>)

  /** One pass; `between` is an edit that arrives while the pass is at work,
      `ok` says whether the label update goes through. */
  datatype Event = Edit(data: Data) | ReconcilePass(between: Option<Data>, ok: bool)

  /** A failed read leaves an empty object without labels. */
  function Read(o: Option<Object>): Object {
    match o case Some(x) => x case None => Object(map[], "")
  }

  function Edited(o: Option<Object>, d: Option<Data>): Option<Object> {
    match d
    case None => o
    case Some(data) => Some(Object(data, Read(o).hashLabel))
  }

  predicate Changed(H: Data -> string, o: Option<Object>) { Read(o).hashLabel != H(Read(o).data) }

  /** Whether the label update can go through. The CA ConfigMap is updated from
      the copy that was compared, so a concurrent edit makes it conflict; the
      Secrets are read a second time. */
  predicate Relabels(k: Kind, s: State, between: Option<Data>, ok: bool) {
    ok && Edited(s.held, between).Some? && (k == TrustedCA ==> between.None?)
  }

  function Step(H: Data -> string, k: Kind, s: State, e: Event): State {
    match e
    case Edit(d) => s.(held := Edited(s.held, Some(d)))
    case ReconcilePass(between, ok) =>
      var now := Edited(s.held, between);
      if !Changed(H, s.held) then s.(held := now)
      else if Relabels(k, s, between, ok) then State(Some(now.value.(hashLabel := H(now.value.data))), s.fires + 1, Some(now.value.data))
      else State(now, s.fires + 1, s.acted)
  }

  function Run(H: Data -> string, k: Kind, s: State, es: seq<Event>): State {
    if es == [] then s else Step(H, k, Run(H, k, s, es[..|es| - 1]), es[|es| - 1])
  }

  // ---- the tasks, as the source runs them ----

  class Reconciler {
    const H: Data -> string
    var held: Option<Object>
    ghost var acted: Option<Data>
    var restarts: nat
    var jobs: nat

    constructor (H: Data -> string, held: Option<Object>)
      ensures this.H == H && this.held == held && restarts == 0 && jobs == 0 && acted == None
    {
      this.H, this.held, restarts, jobs, acted := H, held, 0, 0, None;
    }

    ghost function Restarting(): State reads this { State(held, restarts, acted) }

    ghost function Signing(): State reads this { State(held, jobs, acted) }

    method CaConfigMapChanged(between: Option<Data>, ok: bool) returns (changed: bool)
      modifies `held, `acted
      ensures changed == old(Changed(H, held))
      ensures State(held, old(restarts) + (if changed then 1 else 0), acted)
              == Step(H, TrustedCA, old(Restarting()), ReconcilePass(between, ok))
    {
      var cm := Read(held);
      var calculated := H(cm.data);
      if cm.hashLabel == calculated {
        held := Edited(held, between);
        return false;
      }
      cm := cm.(hashLabel := calculated);
      var stale := between.Some?;
      held := Edited(held, between);
      if ok && !stale && held.Some? {
        held := Some(cm);
        acted := Some(cm.data);
      }
      return true;
    }

    /** `configMapTasks`; returns whether the pass ends here with a requeue. */
    method ConfigMapTasks(configured: bool, between: Option<Data>, ok: bool) returns (requeue: bool)
      modifies this
      ensures !configured ==> !requeue && Restarting() == old(Restarting())
      ensures configured ==> requeue == old(Changed(H, held))
      ensures configured ==> Restarting() == Step(H, TrustedCA, old(Restarting()), ReconcilePass(between, ok))
      ensures jobs == old(jobs)
    {
      var needsRestart := false;
      if configured {
        needsRestart := CaConfigMapChanged(between, ok);
      }
      if needsRestart {
        restarts := restarts + 1;
        return true;
      }
      return false;
    }

    method SecretModified() returns (modified: bool)
      ensures modified == Changed(H, held)
    {
      var secret := Read(held);
      return secret.hashLabel != H(secret.data);
    }

    /** Reads the Secret again and stores its hash. */
    method UpdateHashLabel(ok: bool)
      modifies `held, `acted
      ensures var now := old(held);
        if ok && now.Some? then held == Some(now.value.(hashLabel := H(now.value.data))) && acted == Some(now.value.data)
        else held == now && acted == old(acted)
    {
      if ok && held.Some? {
        held := Some(held.value.(hashLabel := H(held.value.data)));
        acted := Some(held.value.data);
      }
    }

    method RunSigningSecretTasks(configured: bool, between: Option<Data>, ok: bool) returns (requeue: bool)
      modifies this
      ensures !configured ==> !requeue && Restarting() == old(Restarting())
      ensures configured ==> requeue == old(Changed(H, held))
      ensures configured ==> Restarting() == Step(H, SigningSecret, old(Restarting()), ReconcilePass(between, ok))
      ensures jobs == old(jobs)
    {
      if !configured { return false; }
      var modified := SecretModified();
      if !modified {
        held := Edited(held, between);
        return false;
      }
      restarts := restarts + 1;
      held := Edited(held, between);
      UpdateHashLabel(ok);
      return true;
    }

    /** Creates the Job and stores the hash, without ending the pass. */
    method RunSigningScriptJob(configured: bool, between: Option<Data>, ok: bool)
      modifies this
      ensures Signing() == if configured then Step(H, SigningScripts, old(Signing()), ReconcilePass(between, ok)) else old(Signing())
      ensures restarts == old(restarts)
    {
      if !configured { return; }
      var modified := SecretModified();
      if !modified {
        held := Edited(held, between);
        return;
      }
      held := Edited(held, between);
      jobs := jobs + 1;
      UpdateHashLabel(ok);
    }
  }

  // ---- how often they fire ----

  /** Edits by the user, those inside a pass included. */
  function Edits(es: seq<Event>): nat {
    if es == [] then 0
    else Edits(es[..|es| - 1])
         + match es[|es| - 1] case Edit(_) => 1 case ReconcilePass(b, _) => if b.Some? then 1 else 0
  }

  /** Passes that fired but could not store the new label. */
  function LostLabels(H: Data -> string, k: Kind, s: State, es: seq<Event>): nat {
    if es == [] then 0
    else
      var before := Run(H, k, s, es[..|es| - 1]);
      LostLabels(H, k, s, es[..|es| - 1])
      + match es[|es| - 1]
        case Edit(_) => 0
        case ReconcilePass(b, ok) => if Changed(H, before.held) && !Relabels(k, before, b, ok) then 1 else 0
  }

  function Pending(H: Data -> string, s: State): nat { if Changed(H, s.held) then 1 else 0 }

  lemma {:induction false} StaysPresent(H: Data -> string, k: Kind, s: State, es: seq<Event>)
    requires s.held.Some?
    ensures Run(H, k, s, es).held.Some?
  {
    if es != [] { StaysPresent(H, k, s, es[..|es| - 1]); }
  }

  /** Every firing is paid for by an edit, by a lost label, or by the content
      that was already unacknowledged at the start. */
  lemma {:induction false} FiringIsPaidFor(H: Data -> string, k: Kind, s: State, es: seq<Event>)
    requires s.held.Some?
    ensures var t := Run(H, k, s, es);
      t.fires + Pending(H, t) <= s.fires + Pending(H, s) + Edits(es) + LostLabels(H, k, s, es)
  {
    if es != [] {
      var init := es[..|es| - 1];
      FiringIsPaidFor(H, k, s, init);
      StaysPresent(H, k, s, init);
    }
  }

  lemma {:induction false} NothingLost(H: Data -> string, k: Kind, s: State, es: seq<Event>)
    requires s.held.Some?
    requires forall e :: e in es && e.ReconcilePass? ==> e.ok && (k == TrustedCA ==> e.between.None?)
    ensures LostLabels(H, k, s, es) == 0
  {
    if es != [] {
      NothingLost(H, k, s, es[..|es| - 1]);
      StaysPresent(H, k, s, es[..|es| - 1]);
      assert es[|es| - 1] in es;
    }
  }

  /** Over any interleaving of edits and successful passes, at most one firing
      per edit and one for the start. */
  lemma FiresAtMostOncePerEdit(H: Data -> string, k: Kind, o: Object, es: seq<Event>)
    requires forall e :: e in es && e.ReconcilePass? ==> e.ok && (k == TrustedCA ==> e.between.None?)
    ensures Run(H, k, State(Some(o), 0, None), es).fires <= Edits(es) + 1
  {
    FiringIsPaidFor(H, k, State(Some(o), 0, None), es);
    NothingLost(H, k, State(Some(o), 0, None), es);
  }

  // ---- which passes fire ----

  ghost predicate Injective(H: Data -> string) {
    && (forall a, b :: H(a) == H(b) ==> a == b)
    && (forall a :: H(a) != "")
  }

  lemma {:induction false} LabelIsActedContent(H: Data -> string, k: Kind, s: State, es: seq<Event>)
    requires s.held.Some? && (match s.acted case Some(d) => s.held.value.hashLabel == H(d) case None => s.held.value.hashLabel == "")
    ensures var t := Run(H, k, s, es);
      t.held.Some? && match t.acted case Some(d) => t.held.value.hashLabel == H(d) case None => t.held.value.hashLabel == ""
  {
    if es != [] { LabelIsActedContent(H, k, s, es[..|es| - 1]); }
  }

  /** With an injective hash, a pass fires exactly when the content differs from
      the content last acted on, fires once, and then the next pass does not
      fire until the content changes again. */
  lemma FiresExactlyOnChange(H: Data -> string, k: Kind, o: Object, es: seq<Event>)
    requires Injective(H) && o.hashLabel == ""
    ensures var s := Run(H, k, State(Some(o), 0, None), es);
      var t := Step(H, k, s, ReconcilePass(None, true));
      && s.held.Some?
      && t.fires == s.fires + (if s.acted == Some(s.held.value.data) then 0 else 1)
      && t.acted == Some(s.held.value.data)
      && Step(H, k, t, ReconcilePass(None, true)) == t
      && forall d :: Step(H, k, Step(H, k, t, Edit(d)), ReconcilePass(None, true)).fires == t.fires + (if d == s.held.value.data then 0 else 1)
  {
    LabelIsActedContent(H, k, State(Some(o), 0, None), es);
  }

  /** A referenced object that does not exist has no label to store: every pass
      fires. */
  lemma {:induction false} MissingObjectFiresAlways(H: Data -> string, k: Kind, n: nat)
    requires H(map[]) != ""
    ensures Run(H, k, State(None, 0, None), seq(n, _ => ReconcilePass(None, true))) == State(None, n, None)
  {
    if n > 0 {
      MissingObjectFiresAlways(H, k, n - 1);
      assert seq(n, _ => ReconcilePass(None, true))[..n - 1] == seq(n - 1, _ => ReconcilePass(None, true));
    }
  }
}
