/** How the operator notices that somebody else changed a Deployment: it stores
    a hash of the server-defaulted spec as a label, and compares label, expected
    spec and current spec on every pass. The API server's defaulting and the
    hash are parameters. */
module DriftCheck {
  import opened Pulp

  /** The parts of a Deployment spec the check treats specially; every other
      field is in `rest`, by path. */
  datatype Spec = Spec(
    replicas: Option<int>,
    deprecatedServiceAccount: string,
    securityContext: Option<string>,
    rest: map<string, string>)

  datatype Stored = Stored(spec: Spec, labels: map<string, string>)

  /** `Dflt` is what a write (real or dry run) turns a spec into. */
  datatype Env = Env(Dflt: Spec -> Spec, H: Spec -> string)

  const HASH_LABEL := "pulp-operator-hash"

  /** What goes into the hash: never the deprecated service account, and the
      replica count only when no autoscaler owns it. */
  function Masked(s: Spec, hpa: bool): Spec {
    s.(deprecatedServiceAccount := "", replicas := if hpa then None else s.replicas)
  }

  function WithoutReplicas(s: Spec, hpa: bool): Spec { if hpa then s.(replicas := None) else s }

  function HashOf(env: Env, s: Spec, hpa: bool): string { env.H(Masked(s, hpa)) }

  function LabelOf(labels: map<string, string>): string { if HASH_LABEL in labels then labels[HASH_LABEL] else "" }

  /** Defaulting twice is defaulting once, as far as the hash can see. */
  ghost predicate Stable(env: Env, hpa: bool) {
    forall s: Spec ::
      Masked(env.Dflt(WithoutReplicas(env.Dflt(s), hpa)), hpa) == Masked(env.Dflt(s), hpa)
      && Masked(env.Dflt(env.Dflt(s)), hpa) == Masked(env.Dflt(s), hpa)
  }

  ghost predicate Injective(env: Env) {
    forall a, b :: env.H(a) == env.H(b) ==> a == b
  }

  // ---- what one pass computes, as functions ----

  /** The object after a dry run; a dry run that fails leaves it alone. */
  function DryRun(env: Env, s: Spec, answered: bool): Spec { if answered then env.Dflt(s) else s }

  /** Which of a pass's dry runs the server answers: the one of the first hash,
      the one after the overwrite on OpenShift, and the one of the check. Each
      error is ignored where it occurs. */
  datatype Answers = Answers(first: bool, second: bool, check: bool)

  const ANSWERED := Answers(true, true, true)

  function Overwritten(s: Spec): Spec { s.(securityContext := Some("")) }

  /** The object `Deploy` hands to the reconciler. On OpenShift the security
      context of the already defaulted object is overwritten, and the object is
      defaulted and hashed a second time. */
  function Deployed(env: Env, e: Spec, hpa: bool, ocp: bool, a: Answers): Stored {
    var first := DryRun(env, e, a.first);
    var spec := if ocp then DryRun(env, Overwritten(first), a.second) else first;
    Stored(spec, map[HASH_LABEL := HashOf(env, spec, hpa)])
  }

  /** `CheckDeploymentSpec`. */
  predicate Drifted(env: Env, expected: Spec, current: Stored, hpa: bool, answered: bool) {
    var fromLabel := LabelOf(current.labels);
    var fromExpected := HashOf(env, DryRun(env, WithoutReplicas(expected, hpa), answered), hpa);
    var fromCurrent := HashOf(env, WithoutReplicas(current.spec, hpa), hpa);
    fromLabel != fromExpected || fromCurrent != fromExpected
  }

  /** The server's copy after a real write. */
  function Written(env: Env, o: Stored): Stored { o.(spec := env.Dflt(o.spec)) }

  /** One pass over one Deployment. */
  function Pass(env: Env, e: Spec, hpa: bool, ocp: bool, a: Answers, current: Option<Stored>): Stored {
    var o := Deployed(env, e, hpa, ocp, a);
    match current
    case None => Written(env, o)
    case Some(c) => if Drifted(env, o.spec, c, hpa, a.check) then Written(env, o) else c
  }

  // ---- the same, as the source runs it ----

  /** A Go Deployment object: dry runs overwrite its spec in place. */
  class DeploymentObject {
    var spec: Spec
    var labels: map<string, string>

    constructor (s: Spec, l: map<string, string>)
      ensures spec == s && labels == l
    {
      spec, labels := s, l;
    }
  }

  /** The API server's copy of one Deployment. */
  class Server {
    const env: Env
    var stored: Option<Stored>

    constructor (env: Env, stored: Option<Stored>)
      ensures this.env == env && this.stored == stored
    {
      this.env, this.stored := env, stored;
    }

    /** Refused for an object that exists. */
    method DryRunCreate(d: DeploymentObject, answered: bool) returns (ok: bool)
      modifies d`spec
      ensures ok == (answered && stored.None?)
      ensures d.spec == DryRun(env, old(d.spec), ok)
    {
      ok := answered && stored.None?;
      if ok { d.spec := env.Dflt(d.spec); }
    }

    /** Refused for an object that does not exist. */
    method DryRunUpdate(d: DeploymentObject, answered: bool)
      modifies d`spec
      ensures d.spec == DryRun(env, old(d.spec), answered && stored.Some?)
    {
      if answered && stored.Some? { d.spec := env.Dflt(d.spec); }
    }

    method Write(d: DeploymentObject)
      modifies `stored
      ensures stored == Some(Written(env, Stored(d.spec, d.labels)))
    {
      stored := Some(Stored(env.Dflt(d.spec), d.labels));
    }
  }

  method HashFromMutated(server: Server, d: DeploymentObject, hpa: bool, answered: bool) returns (hash: string)
    modifies d`spec
    ensures d.spec == DryRun(server.env, old(d.spec), answered && server.stored.Some?)
    ensures hash == HashOf(server.env, d.spec, hpa)
  {
    server.DryRunUpdate(d, answered);
    var copy := d.spec;
    if hpa { copy := copy.(replicas := None); }
    copy := copy.(deprecatedServiceAccount := "");
    assert copy == Masked(d.spec, hpa);
    hash := server.env.H(copy);
  }

  /** Of the two dry runs only one can succeed; `answered` is about that one. */
  method AddHashLabel(server: Server, d: DeploymentObject, hpa: bool, answered: bool)
    modifies d
    ensures d.spec == DryRun(server.env, old(d.spec), answered)
    ensures d.labels == old(d.labels)[HASH_LABEL := HashOf(server.env, d.spec, hpa)]
  {
    var hash;
    var ok := server.DryRunCreate(d, answered);
    if !ok {
      hash := HashFromMutated(server, d, hpa, answered);
    } else {
      var copy := d.spec;
      if hpa { copy := copy.(replicas := None); }
      copy := copy.(deprecatedServiceAccount := "");
      assert copy == Masked(d.spec, hpa);
      hash := server.env.H(copy);
    }
    d.labels := d.labels[HASH_LABEL := hash];
  }

  method Deploy(server: Server, e: Spec, hpa: bool, ocp: bool, a: Answers) returns (d: DeploymentObject)
    ensures fresh(d)
    ensures Stored(d.spec, d.labels) == Deployed(server.env, e, hpa, ocp, a)
  {
    d := new DeploymentObject(e, map[]);
    AddHashLabel(server, d, hpa, a.first);
    if ocp {
      d.spec := d.spec.(securityContext := Some(""));
      AddHashLabel(server, d, hpa, a.second);
    }
  }

  method CheckDeploymentSpec(server: Server, expected: DeploymentObject, current: Stored, hpa: bool, answered: bool) returns (changed: bool)
    ensures changed == Drifted(server.env, expected.spec, current, hpa, answered && server.stored.Some?)
  {
    var expectedCopy := new DeploymentObject(expected.spec, expected.labels);
    var currentCopy := current.spec;
    if hpa {
      expectedCopy.spec := expectedCopy.spec.(replicas := None);
      currentCopy := currentCopy.(replicas := None);
    }
    var fromLabel := LabelOf(current.labels);
    var fromExpected := HashFromMutated(server, expectedCopy, hpa, answered);
    currentCopy := currentCopy.(deprecatedServiceAccount := "");
    assert currentCopy == Masked(WithoutReplicas(current.spec, hpa), hpa);
    var fromCurrent := server.env.H(currentCopy);
    return fromLabel != fromExpected || fromCurrent != fromExpected;
  }

  /** Create when missing, repair when drifted; `requeue` is returned to the
      caller exactly when something was written. */
  method ReconcileDeployment(server: Server, e: Spec, hpa: bool, ocp: bool, a: Answers) returns (requeue: bool)
    modifies server`stored
    ensures server.stored == Some(Pass(server.env, e, hpa, ocp, a, old(server.stored)))
    ensures requeue <==> old(server.stored.None?
              || Drifted(server.env, Deployed(server.env, e, hpa, ocp, a).spec, server.stored.value, hpa, a.check))
  {
    var d := Deploy(server, e, hpa, ocp, a);
    if server.stored.None? {
      server.Write(d);
      return true;
    }
    var changed := CheckDeploymentSpec(server, d, server.stored.value, hpa, a.check);
    if changed {
      server.Write(d);
      return true;
    }
    return false;
  }

  // ---- runs ----

  /** What may happen to a stored Deployment nobody edits by hand. */
  datatype Event = ReconcilePass | Autoscale(replicas: int)

  function Step(env: Env, e: Spec, hpa: bool, ocp: bool, c: Stored, ev: Event): Stored {
    match ev
    case ReconcilePass => Pass(env, e, hpa, ocp, ANSWERED, Some(c))
    case Autoscale(n) => if hpa then c.(spec := c.spec.(replicas := Some(n))) else c
  }

  function Run(env: Env, e: Spec, hpa: bool, ocp: bool, c: Stored, evs: seq<Event>): Stored {
    if evs == [] then c else Step(env, e, hpa, ocp, Run(env, e, hpa, ocp, c, evs[..|evs| - 1]), evs[|evs| - 1])
  }

  /** What the first pass of a fresh cluster stores. */
  function Settled(env: Env, e: Spec, hpa: bool, ocp: bool): Stored { Pass(env, e, hpa, ocp, ANSWERED, None) }

  /** What the check compares: every field but the deprecated service account,
      and the replica count only when no autoscaler owns it. */
  predicate SameFields(a: Spec, b: Spec, hpa: bool) {
    a.rest == b.rest && a.securityContext == b.securityContext && (hpa || a.replicas == b.replicas)
  }

  predicate NoDrift(env: Env, e: Spec, hpa: bool, ocp: bool, c: Stored) {
    !Drifted(env, Deployed(env, e, hpa, ocp, ANSWERED).spec, c, hpa, true)
  }

  lemma MaskTwice(s: Spec, hpa: bool)
    ensures Masked(WithoutReplicas(s, hpa), hpa) == Masked(s, hpa)
  {
  }

  /** Defaulting what `Deploy` returned does not change its hash again. */
  lemma DeployedIsDefaulted(env: Env, e: Spec, hpa: bool, ocp: bool)
    requires Stable(env, hpa)
    ensures var d := Deployed(env, e, hpa, ocp, ANSWERED).spec;
      Masked(env.Dflt(WithoutReplicas(d, hpa)), hpa) == Masked(d, hpa) == Masked(env.Dflt(d), hpa)
  {
    var first := env.Dflt(e);
    if ocp {
      var x := Overwritten(first);
      assert Masked(env.Dflt(env.Dflt(x)), hpa) == Masked(env.Dflt(x), hpa);
    } else {
      assert Masked(env.Dflt(env.Dflt(e)), hpa) == Masked(env.Dflt(e), hpa);
    }
  }

  lemma SameFieldsHash(a: Spec, b: Spec, hpa: bool)
    ensures Masked(a, hpa) == Masked(b, hpa) <==> SameFields(a, b, hpa)
  {
  }

  /** The check accepts a Deployment whose compared fields are the stored ones. */
  lemma SettledPasses(env: Env, e: Spec, hpa: bool, ocp: bool, c: Stored)
    requires Stable(env, hpa)
    requires SameFields(c.spec, Settled(env, e, hpa, ocp).spec, hpa) && c.labels == Settled(env, e, hpa, ocp).labels
    ensures NoDrift(env, e, hpa, ocp, c)
  {
    DeployedIsDefaulted(env, e, hpa, ocp);
    MaskTwice(c.spec, hpa);
    SameFieldsHash(c.spec, Settled(env, e, hpa, ocp).spec, hpa);
  }

  /** The drift check is a fixpoint: once stored, no interleaving of passes and
      autoscaler changes ever makes it report drift, on plain Kubernetes and on
      OpenShift; no pass writes anything, and but for the replica count of an
      autoscaled Deployment everything stays as it was stored. */
  lemma {:induction false} CheckIsFixpoint(env: Env, e: Spec, hpa: bool, ocp: bool, evs: seq<Event>)
    requires Stable(env, hpa)
    ensures var s, c := Settled(env, e, hpa, ocp), Run(env, e, hpa, ocp, Settled(env, e, hpa, ocp), evs);
      && c == s.(spec := s.spec.(replicas := c.spec.replicas)) && (!hpa ==> c == s)
      && NoDrift(env, e, hpa, ocp, c)
      && Step(env, e, hpa, ocp, c, ReconcilePass) == c
  {
    var s := Settled(env, e, hpa, ocp);
    if evs != [] {
      CheckIsFixpoint(env, e, hpa, ocp, evs[..|evs| - 1]);
    }
    SettledPasses(env, e, hpa, ocp, Run(env, e, hpa, ocp, s, evs));
  }

  /** With an injective hash, the check accepts exactly the Deployments with the
      stored label whose fields are the stored ones: the whole rest of the spec,
      the security context, and the replica count unless an autoscaler owns it.
      Only the deprecated service account is overlooked; everything else is
      drift. */
  lemma CheckIsExact(env: Env, e: Spec, hpa: bool, ocp: bool, c: Stored)
    requires Stable(env, hpa) && Injective(env)
    ensures var s := Settled(env, e, hpa, ocp);
      NoDrift(env, e, hpa, ocp, c) <==>
        && c.spec.rest == s.spec.rest && c.spec.securityContext == s.spec.securityContext
        && (!hpa ==> c.spec.replicas == s.spec.replicas)
        && LabelOf(c.labels) == LabelOf(s.labels)
  {
    DeployedIsDefaulted(env, e, hpa, ocp);
    MaskTwice(c.spec, hpa);
    SameFieldsHash(c.spec, Settled(env, e, hpa, ocp).spec, hpa);
  }

  /** What a repair stores: the spec as built, with OpenShift's security context,
      defaulted; and with an injective hash the label tells which fields it was
      taken of. */
  lemma WhatIsStored(env: Env, e: Spec, hpa: bool, ocp: bool, x: Spec)
    requires Stable(env, hpa) && Injective(env)
    ensures var s := Settled(env, e, hpa, ocp);
      && s.spec == env.Dflt(env.Dflt(if ocp then env.Dflt(e).(securityContext := Some("")) else e))
      && (LabelOf(s.labels) == env.H(x.(deprecatedServiceAccount := "", replicas := if hpa then None else x.replicas))
          <==> x.rest == s.spec.rest && x.securityContext == s.spec.securityContext && (!hpa ==> x.replicas == s.spec.replicas))
  {
    DeployedIsDefaulted(env, e, hpa, ocp);
    SameFieldsHash(x, Settled(env, e, hpa, ocp).spec, hpa);
  }

  /** One repair is enough: whatever is stored, the pass after the next one
      writes nothing. */
  lemma RepairSettles(env: Env, e: Spec, hpa: bool, ocp: bool, c: Option<Stored>)
    requires Stable(env, hpa)
    ensures NoDrift(env, e, hpa, ocp, Pass(env, e, hpa, ocp, ANSWERED, c))
  {
    if c.None? || !NoDrift(env, e, hpa, ocp, c.value) {
      SettledPasses(env, e, hpa, ocp, Settled(env, e, hpa, ocp));
    }
  }

  /** What a write leaves of the autoscaler's choice: the dry run has already
      replaced the missing count by the server's default, so a repair resets the
      replicas although the check itself ignores them. */
  lemma RepairResetsAutoscaledReplicas(env: Env, e: Spec, ocp: bool, c: Stored)
    requires forall s: Spec :: env.Dflt(s).replicas == if s.replicas.None? then Some(1) else s.replicas
    requires e.replicas.None?
    ensures !NoDrift(env, e, true, ocp, c) ==> Pass(env, e, true, ocp, ANSWERED, Some(c)).spec.replicas == Some(1)
    ensures NoDrift(env, e, true, ocp, c) ==> Pass(env, e, true, ocp, ANSWERED, Some(c)).spec.replicas == c.spec.replicas
  {
  }

  /** The second hash on OpenShift is needed: with the label computed before
      the security context was overwritten, the stored Deployment would be
      reported as drifted on every pass, unless the overwrite changed nothing. */
  lemma FirstHashIsStale(env: Env, e: Spec)
    requires Stable(env, false) && Injective(env)
    ensures NoDrift(env, e, false, true, Settled(env, e, false, true).(labels := Deployed(env, e, false, false, ANSWERED).labels))
            <==> Masked(env.Dflt(Overwritten(env.Dflt(e))), false) == Masked(env.Dflt(e), false)
  {
    DeployedIsDefaulted(env, e, false, true);
  }

  /** A dry run that fails is ignored where it fails. Whichever of them do, the
      check reports a settled Deployment as drifted exactly when what it then
      compares with, seen through the hash, is not what was stored. */
  lemma FailedDryRun(env: Env, e: Spec, hpa: bool, ocp: bool, a: Answers)
    requires Stable(env, hpa) && Injective(env)
    ensures var d := Deployed(env, e, hpa, ocp, a).spec;
      Drifted(env, d, Settled(env, e, hpa, ocp), hpa, a.check)
      <==> Masked(DryRun(env, WithoutReplicas(d, hpa), a.check), hpa) != Masked(Settled(env, e, hpa, ocp).spec, hpa)
  {
    DeployedIsDefaulted(env, e, hpa, ocp);
    MaskTwice(Settled(env, e, hpa, ocp).spec, hpa);
  }

  /** On plain Kubernetes one answered dry run out of two is enough: drift shows
      exactly when both fail and defaulting shows in the hash. An autoscaled
      Deployment is built without a replica count. */
  lemma PlainFailedDryRun(env: Env, e: Spec, hpa: bool, a: Answers)
    requires Stable(env, hpa) && Injective(env) && (hpa ==> e.replicas.None?)
    ensures Drifted(env, Deployed(env, e, hpa, false, a).spec, Settled(env, e, hpa, false), hpa, a.check)
            <==> !a.first && !a.check && Masked(env.Dflt(e), hpa) != Masked(e, hpa)
  {
    FailedDryRun(env, e, hpa, false, a);
    DeployedIsDefaulted(env, e, hpa, false);
    MaskTwice(env.Dflt(e), hpa);
    assert WithoutReplicas(e, hpa) == e;
  }

  /** On OpenShift, without an autoscaler, the second dry run and the check's
      stand in for each other. The first one shows unless defaulting before the
      overwrite makes no difference to the hash. */
  lemma OpenShiftFailedDryRun(env: Env, e: Spec, a: Answers)
    requires Stable(env, false) && Injective(env)
    ensures var base := Overwritten(DryRun(env, e, a.first));
      Drifted(env, Deployed(env, e, false, true, a).spec, Settled(env, e, false, true), false, a.check)
      <==> if a.first then !a.second && !a.check && Masked(env.Dflt(base), false) != Masked(base, false)
           else Masked(DryRun(env, base, a.second || a.check), false) != Masked(env.Dflt(Overwritten(env.Dflt(e))), false)
  {
    var base, full := Overwritten(DryRun(env, e, a.first)), Overwritten(env.Dflt(e));
    FailedDryRun(env, e, false, true, a);
    assert Masked(env.Dflt(env.Dflt(base)), false) == Masked(env.Dflt(base), false);
    assert Masked(env.Dflt(env.Dflt(full)), false) == Masked(env.Dflt(full), false);
  }

  /** Whatever dry runs fail in a pass, the next answered one puts things right
      again. */
  lemma FailedDryRunHeals(env: Env, e: Spec, hpa: bool, ocp: bool, a: Answers, c: Option<Stored>)
    requires Stable(env, hpa)
    ensures NoDrift(env, e, hpa, ocp, Pass(env, e, hpa, ocp, ANSWERED, Some(Pass(env, e, hpa, ocp, a, c))))
  {
    RepairSettles(env, e, hpa, ocp, Some(Pass(env, e, hpa, ocp, a, c)));
  }

  /** Stability holds of a server that fills in the replica count and the
      deprecated service account. */
  lemma DefaultingExists(hpa: bool, H: Spec -> string)
    ensures Stable(Env((s: Spec) => s.(replicas := if s.replicas.None? then Some(1) else s.replicas, deprecatedServiceAccount := "sa"), H), hpa)
  {
  }
}
