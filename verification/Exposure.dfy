/** How Pulp is exposed: Routes, an Ingress or the pulp-web server. The kind in
    use is remembered in the status, and a change of the spec first tears down
    the old kind and only then lets the new one be built. */
module Exposure {
  import opened Text
  import opened Pulp

  const OCP_CLASS := "openshift-default"

  datatype Kind = Unset | Route | Ingress | NodePort | LoadBalancer | Other

  /** Which kind a text asks for; only the lower-cased text counts. */
  function KindOf(t: string): Kind {
    var l := ToLower(t);
    if l == "" then Unset else if l == "route" then Route else if l == "ingress" then Ingress
    else if l == "nodeport" then NodePort else if l == "loadbalancer" then LoadBalancer else Other
  }

  /** An `ingress_type`: its text and, fixed with it, its kind. */
  datatype IngressType = IngressType(text: string, kind: Kind)
  {
    ghost predicate Valid() { kind == KindOf(text) }
  }

  function Typed(t: string): (i: IngressType)
    ensures i.Valid() && i.text == t
  {
    IngressType(t, KindOf(t))
  }

  /** An `ingress_class_name`: its text, the text without case, and whether it
      is the class of OpenShift's own controller. */
  datatype ClassName = ClassName(text: string, folded: string, ocpDefault: bool)
  {
    ghost predicate Valid() { folded == ToLower(text) && ocpDefault == (text == OCP_CLASS) }
  }

  function Named(t: string): (c: ClassName)
    ensures c.Valid() && c.text == t
  {
    ClassName(t, ToLower(t), t == OCP_CLASS)
  }

  datatype Spec = Spec(
    ingressType: IngressType,
    className: ClassName,
    nginx: bool,
    webAnnotation: Option<bool>)   // whether the user's own "web" annotation of the Ingress, if any, is "true"

  datatype Status = Status(ingressType: IngressType, className: ClassName)

  /** What exists in the cluster: Routes, the Ingress, the OpenShift redirect
      Ingress and pulp-web (Deployment or Service). */
  datatype State = State(spec: Spec, status: Status, routes: bool, ingress: bool, redirect: bool, web: bool)

  /** What one pass meets. */
  datatype Replies = Replies(
    reaches: bool,        // the pass gets as far as the exposure stage
    ready: bool,          // the pods whose plugins must be listed are running and list them
    rewrites: bool,       // some plugin asks for a rewrite
    exposed: bool,        // the Ingress or pulp-web controller finds nothing left to do
    typeWrite: bool,      // the status write of a type transition goes through
    classWrite: bool,     // the status write of a class transition goes through
    finishes: bool,       // the pass gets to the status tasks
    statusWrite: bool)

  const NO_CLASS := ClassName("", "", false)

  predicate FourKinds(k: Kind) { k == Route || k == Ingress || k == NodePort || k == LoadBalancer }

  /** Whether the annotations of the Ingress ask for pulp-web behind it. */
  predicate WebBehindIngress(spec: Spec, openShift: bool) {
    match spec.webAnnotation
    case Some(v) => v
    case None => !spec.nginx && !(openShift && spec.className.ocpDefault)
  }

  // ---- one pass, as functions ----

  /** Tears down what the old type used and records the new one. */
  function UpdateIngressType(s: State, write: bool): State {
    var t, n := s.status.ingressType, s.spec.ingressType;
    if t.kind == Route && n.kind != Route then
      s.(routes := false, status := if write then s.status.(ingressType := n) else s.status)
    else if t.kind == Ingress && n.kind != Ingress then
      s.(ingress := false, redirect := false, web := false, status := if write then Status(n, NO_CLASS) else s.status)
    else if (t.kind == NodePort && n.kind != NodePort) || (t.kind == LoadBalancer && n.kind != LoadBalancer) then
      s.(web := false, status := if write then s.status.(ingressType := n) else s.status)
    else s
  }

  function UpdateIngressClass(s: State, openShift: bool, write: bool): State {
    var a := if s.spec.ingressType.kind == Ingress && s.spec.nginx then s.(web := false) else s.(ingress := false);
    var b := if s.spec.className.ocpDefault then a.(web := false) else a;
    var c := if s.status.className.ocpDefault && !s.spec.className.ocpDefault then b.(redirect := false) else b;
    if write then c.(status := c.status.(className := s.spec.className)) else c
  }

  /** The controller of the type in use, and whether it asks for another pass. */
  function Expose(s: State, openShift: bool, r: Replies): (State, bool) {
    if s.spec.ingressType.kind == Route then
      if !r.ready then (s, true) else (s.(routes := true, web := false), false)
    else if s.spec.ingressType.kind == Ingress then
      if !r.ready then (s, true)
      else
        var a := s.(ingress := true, redirect := s.redirect || (!s.spec.nginx && openShift && s.spec.className.ocpDefault && r.rewrites));
        if WebBehindIngress(s.spec, openShift) then (a.(web := true), !r.exposed) else (a, !r.exposed)
    else (s.(web := true), !r.exposed)
  }

  predicate TypeSettled(s: State) { s.status.ingressType.kind == Unset || s.status.ingressType == s.spec.ingressType }

  predicate ClassSettled(s: State) { s.status.className.folded == s.spec.className.folded }

  /** The exposure part of a pass, and the status tasks if it gets there. */
  function Pass(s: State, openShift: bool, r: Replies): (State, bool) {
    if !r.reaches then (s, true)
    else if !TypeSettled(s) then (UpdateIngressType(s, r.typeWrite), true)
    else
      var (t, requeue) := Expose(s, openShift, r);
      if requeue then (t, true)
      else if !ClassSettled(t) then (UpdateIngressClass(t, openShift, r.classWrite), true)
      else if !r.finishes then (t, true)
      else (if t.status.ingressType.kind == Unset && r.statusWrite then t.(status := t.status.(ingressType := t.spec.ingressType)) else t, false)
  }

  // ---- the same, as the source runs it ----

  class Reconciler {
    const openShift: bool
    var spec: Spec
    var status: Status
    var routes: bool
    var ingress: bool
    var redirect: bool
    var web: bool

    constructor (openShift: bool, s: State)
      ensures this.openShift == openShift && Now() == s
    {
      this.openShift := openShift;
      spec, status, routes, ingress, redirect, web := s.spec, s.status, s.routes, s.ingress, s.redirect, s.web;
    }

    ghost function Now(): State reads this { State(spec, status, routes, ingress, redirect, web) }

    method RemoveWebResources()
      modifies `web
      ensures !web
    {
      web := false;
    }

    method ChangeType(write: bool)
      modifies this
      ensures Now() == UpdateIngressType(old(Now()), write)
    {
      var was, wanted := status.ingressType.kind, spec.ingressType.kind;
      if was == Route && wanted != Route {
        routes := false;
        if write { status := status.(ingressType := spec.ingressType); }
        return;
      }
      if was == Ingress && wanted != Ingress {
        ingress, redirect := false, false;
        var committed := status.(ingressType := spec.ingressType);
        if committed.className != NO_CLASS { committed := committed.(className := NO_CLASS); }
        RemoveWebResources();
        if write { status := committed; }
        return;
      }
      if (was == NodePort && wanted != NodePort) || (was == LoadBalancer && wanted != LoadBalancer) {
        RemoveWebResources();
        if write { status := status.(ingressType := spec.ingressType); }
        return;
      }
    }

    method ChangeClass(write: bool)
      modifies this
      ensures Now() == UpdateIngressClass(old(Now()), openShift, write)
    {
      if spec.ingressType.kind == Ingress && spec.nginx {
        web := false;
      } else {
        ingress := false;
      }
      if spec.className.ocpDefault { RemoveWebResources(); }
      if status.className.ocpDefault && !spec.className.ocpDefault { redirect := false; }
      if write { status := status.(className := spec.className); }
    }

    /** One goroutine per Route. What they answer is never read, since the length
        of their unbuffered channel is always zero. */
    method RouteController(r: Replies) returns (requeue: bool)
      requires spec.ingressType.kind == Route
      modifies `routes, `web
      ensures (Now(), requeue) == Expose(old(Now()), openShift, r)
    {
      if !r.ready { return true; }
      routes := true;
      RemoveWebResources();
      return false;
    }

    method IngressController(r: Replies) returns (requeue: bool)
      requires spec.ingressType.kind == Ingress
      modifies `ingress, `redirect, `web
      ensures (Now(), requeue) == Expose(old(Now()), openShift, r)
    {
      if !r.ready { return true; }
      if !spec.nginx && openShift && spec.className.ocpDefault && r.rewrites { redirect := true; }
      ingress := true;
      if WebBehindIngress(spec, openShift) { web := true; }
      return !r.exposed;
    }

    method ExposeNow(r: Replies) returns (requeue: bool)
      modifies `routes, `ingress, `redirect, `web
      ensures (Now(), requeue) == Expose(old(Now()), openShift, r)
    {
      if spec.ingressType.kind == Route {
        requeue := RouteController(r);
      } else if spec.ingressType.kind == Ingress {
        requeue := IngressController(r);
      } else {
        web := true;
        requeue := !r.exposed;
      }
    }

    method ReconcilePass(r: Replies) returns (requeue: bool)
      modifies this
      ensures Now() == Pass(old(Now()), openShift, r).0 && requeue == Pass(old(Now()), openShift, r).1
    {
      if !r.reaches { return true; }
      if status.ingressType.kind != Unset && status.ingressType != spec.ingressType {
        ChangeType(r.typeWrite);
        return true;
      }
      requeue := ExposeNow(r);
      if requeue { return true; }
      if status.className.folded != spec.className.folded {
        ChangeClass(r.classWrite);
        return true;
      }
      if !r.finishes { return true; }
      if status.ingressType.kind == Unset && r.statusWrite { status := status.(ingressType := spec.ingressType); }
      return false;
    }
  }

  // ---- when a transition commits ----

  lemma KindByText(a: IngressType, b: IngressType)
    requires a.Valid() && b.Valid() && FourKinds(a.kind)
    ensures a.kind == b.kind <==> ToLower(a.text) == ToLower(b.text)
  {
  }

  lemma FourByText(a: IngressType)
    requires a.Valid()
    ensures FourKinds(a.kind) <==> ToLower(a.text) in {"route", "ingress", "nodeport", "loadbalancer"}
  {
  }

  lemma CommitsByKind(s: State)
    requires !TypeSettled(s)
    ensures UpdateIngressType(s, true).status.ingressType == s.spec.ingressType
            <==> FourKinds(s.status.ingressType.kind) && s.status.ingressType.kind != s.spec.ingressType.kind
    ensures UpdateIngressType(s, true).status.ingressType != s.spec.ingressType ==> UpdateIngressType(s, true) == s
  {
  }

  /** The recorded type is replaced exactly when it is one of the four kinds and
      differs from the wanted one by more than case. */
  lemma CommitsExactly(s: State)
    requires s.status.ingressType.Valid() && s.spec.ingressType.Valid() && !TypeSettled(s)
    ensures UpdateIngressType(s, true).status.ingressType == s.spec.ingressType
            <==> && ToLower(s.status.ingressType.text) in {"route", "ingress", "nodeport", "loadbalancer"}
                 && ToLower(s.status.ingressType.text) != ToLower(s.spec.ingressType.text)
  {
    CommitsByKind(s);
    FourByText(s.status.ingressType);
    if FourKinds(s.status.ingressType.kind) { KindByText(s.status.ingressType, s.spec.ingressType); }
  }

  function Repeat(r: Replies, n: nat): seq<Replies> { seq(n, _ => r) }

  function Run(s: State, openShift: bool, rs: seq<Replies>): State {
    if rs == [] then s else Pass(Run(s, openShift, rs[..|rs| - 1]), openShift, rs[|rs| - 1]).0
  }

  /** Everything else is stuck: the caller requeues for ever and nothing
      changes. */
  lemma {:induction false} NoCommitNoProgress(s: State, openShift: bool, rs: seq<Replies>, r: Replies)
    requires !TypeSettled(s)
    requires !FourKinds(s.status.ingressType.kind) || s.status.ingressType.kind == s.spec.ingressType.kind
    ensures Run(s, openShift, rs) == s && Pass(s, openShift, r) == (s, true)
  {
    if rs != [] { NoCommitNoProgress(s, openShift, rs[..|rs| - 1], rs[|rs| - 1]); }
  }

  // ---- what every reachable state satisfies ----

  datatype Event = ReconcilePass(replies: Replies) | EditSpec(spec: Spec)

  function Step(s: State, openShift: bool, e: Event): State {
    match e case ReconcilePass(r) => Pass(s, openShift, r).0 case EditSpec(n) => s.(spec := n)
  }

  function Reach(s: State, openShift: bool, es: seq<Event>): State {
    if es == [] then s else Step(Reach(s, openShift, es[..|es| - 1]), openShift, es[|es| - 1])
  }

  /** The user only ever asks for one of the four kinds. */
  ghost predicate KindsOnly(es: seq<Event>) {
    forall e :: e in es && e.EditSpec? ==> FourKinds(e.spec.ingressType.kind)
  }

  /** What exists belongs to the recorded kind, which is never empty. */
  predicate Consistent(s: State) {
    && s.status.ingressType.kind != Unset && s.spec.ingressType.kind != Unset
    && (s.routes ==> s.status.ingressType.kind == Route)
    && (s.ingress || s.redirect ==> s.status.ingressType.kind == Ingress)
    && (s.web ==> s.status.ingressType.kind != Route)
  }

  lemma TypeConsistent(s: State, write: bool)
    requires Consistent(s)
    ensures Consistent(UpdateIngressType(s, write))
  {
  }

  lemma ClassConsistent(s: State, openShift: bool, write: bool)
    requires Consistent(s)
    ensures Consistent(UpdateIngressClass(s, openShift, write))
  {
  }

  lemma ExposeConsistent(s: State, openShift: bool, r: Replies)
    requires Consistent(s) && TypeSettled(s)
    ensures Consistent(Expose(s, openShift, r).0)
  {
  }

  lemma PassConsistent(s: State, openShift: bool, r: Replies)
    requires Consistent(s)
    ensures Consistent(Pass(s, openShift, r).0)
  {
    if !TypeSettled(s) {
      TypeConsistent(s, r.typeWrite);
    } else {
      ExposeConsistent(s, openShift, r);
      ClassConsistent(Expose(s, openShift, r).0, openShift, r.classWrite);
    }
  }

  lemma {:induction false} AlwaysConsistent(s: State, openShift: bool, es: seq<Event>)
    requires Consistent(s) && KindsOnly(es)
    ensures Consistent(Reach(s, openShift, es))
  {
    if es != [] {
      var e := es[|es| - 1];
      assert forall x :: x in es[..|es| - 1] ==> x in es;
      AlwaysConsistent(s, openShift, es[..|es| - 1]);
      if e.ReconcilePass? {
        PassConsistent(Reach(s, openShift, es[..|es| - 1]), openShift, e.replies);
      } else {
        assert e in es;
      }
    }
  }

  /** A state in which a pass has nothing left to do. */
  predicate Synced(s: State) { s.status.ingressType == s.spec.ingressType && ClassSettled(s) }

  /** Nothing exists that the wanted kind does not use. */
  predicate Clean(s: State) {
    && (s.routes ==> s.spec.ingressType.kind == Route)
    && (s.ingress || s.redirect ==> s.spec.ingressType.kind == Ingress)
    && (s.spec.ingressType.kind == Route ==> !s.web)
  }

  /** From a synced state, over any passes and any edits among the four kinds:
      wherever the recorded type is the wanted one, Routes exist only under
      route, Ingresses only under ingress, and pulp-web never under route. */
  lemma SyncedStatesAreClean(s: State, openShift: bool, es: seq<Event>)
    requires Consistent(s) && KindsOnly(es)
    ensures var t := Reach(s, openShift, es);
      Synced(t) ==>
        && (t.routes ==> t.spec.ingressType.kind == Route)
        && (t.ingress || t.redirect ==> t.spec.ingressType.kind == Ingress)
        && (t.spec.ingressType.kind == Route ==> !t.web)
  {
    AlwaysConsistent(s, openShift, es);
  }

  // ---- before the type is first recorded ----

  /** The class of some pass of the run is replaced. */
  predicate ClassReplaced(s: State, openShift: bool, rs: seq<Replies>) {
    && rs != []
    && (ClassReplaced(s, openShift, rs[..|rs| - 1])
        || ClassUpdate(Run(s, openShift, rs[..|rs| - 1]), openShift, ReconcilePass(rs[|rs| - 1])))
  }

  /** Some pass of the run exposes Pulp. */
  predicate RoutesDone(rs: seq<Replies>) { exists i :: 0 <= i < |rs| && rs[i].reaches && rs[i].ready }

  /** The class does not change before it is recorded for good. */
  lemma PassKeepsClass(s: State, openShift: bool, r: Replies)
    requires TypeSettled(s)
    ensures var t := Pass(s, openShift, r).0;
      && t.spec == s.spec && TypeSettled(t)
      && (t.status.className == s.status.className || (t.status.className == t.spec.className && ClassUpdate(s, openShift, ReconcilePass(r))))
  {
    ExposeKeepsStatus(s, openShift, r);
  }

  lemma {:induction false} RunKeepsClass(s: State, openShift: bool, rs: seq<Replies>)
    requires TypeSettled(s)
    ensures var t := Run(s, openShift, rs);
      && t.spec == s.spec && TypeSettled(t)
      && (t.status.className == s.status.className || (t.status.className == t.spec.className && ClassReplaced(s, openShift, rs)))
  {
    if rs != [] {
      RunKeepsClass(s, openShift, rs[..|rs| - 1]);
      PassKeepsClass(Run(s, openShift, rs[..|rs| - 1]), openShift, rs[|rs| - 1]);
    }
  }

  lemma ExposeOnForeign(s: State, openShift: bool, r: Replies)
    ensures var t, k := Expose(s, openShift, r).0, s.spec.ingressType.kind;
      && (k != Route ==> t.routes == s.routes)
      && (k != Ingress ==> t.ingress == s.ingress && t.redirect == s.redirect)
      && (k == Route ==> t.web == (s.web && !r.ready))
      && (k == Ingress && !WebBehindIngress(s.spec, openShift) ==> t.web == s.web)
    ensures s.spec.ingressType.kind == Route && !Expose(s, openShift, r).1 ==> r.ready
  {
  }

  lemma ClassOnForeign(s: State, openShift: bool, write: bool)
    ensures var t, n := UpdateIngressClass(s, openShift, write), s.spec;
      && t.routes == s.routes
      && (n.ingressType.kind != Ingress ==> !t.ingress)
      && t.redirect == (s.redirect && !(s.status.className.ocpDefault && !n.className.ocpDefault))
      && (!s.web ==> !t.web)
      && (n.ingressType.kind == Ingress ==> t.web == (s.web && !(n.nginx || n.className.ocpDefault)))
  {
  }

  /** A pass is its controller, and the change of the class if that is due. */
  lemma PassByParts(s: State, openShift: bool, r: Replies)
    requires TypeSettled(s) && r.reaches
    ensures var e, t := Expose(s, openShift, r).0, Pass(s, openShift, r).0;
      SameObjects(t, if ClassUpdate(s, openShift, ReconcilePass(r)) then UpdateIngressClass(e, openShift, r.classWrite) else e)
  {
    ExposeKeepsStatus(s, openShift, r);
  }

  predicate SameObjects(s: State, t: State) {
    s.routes == t.routes && s.ingress == t.ingress && s.redirect == t.redirect && s.web == t.web
  }

  /** What one pass does to the objects of the other kinds. */
  lemma PassOnForeign(s: State, openShift: bool, r: Replies)
    requires TypeSettled(s)
    ensures var t, n, u := Pass(s, openShift, r).0, s.spec, ClassUpdate(s, openShift, ReconcilePass(r));
      && (n.ingressType.kind != Route ==> (t.routes <==> s.routes))
      && (n.ingressType.kind != Ingress ==>
            && (t.ingress <==> s.ingress && !u)
            && (t.redirect <==> s.redirect && !(u && s.status.className.ocpDefault && !n.className.ocpDefault)))
      && (n.ingressType.kind == Route ==> (t.web <==> s.web && !(r.reaches && r.ready)))
      && (n.ingressType.kind == Ingress && !WebBehindIngress(n, openShift) ==>
            (t.web <==> s.web && !(u && (n.nginx || n.className.ocpDefault))))
  {
    if r.reaches {
      var e := Expose(s, openShift, r).0;
      PassByParts(s, openShift, r);
      ExposeOnForeign(s, openShift, r);
      ExposeKeepsStatus(s, openShift, r);
      ClassOnForeign(e, openShift, r.classWrite);
    }
  }

  lemma RoutesDoneOnce(rs: seq<Replies>)
    requires rs != []
    ensures var r := rs[|rs| - 1]; RoutesDone(rs) <==> RoutesDone(rs[..|rs| - 1]) || (r.reaches && r.ready)
  {
    var start := rs[..|rs| - 1];
    assert forall i :: 0 <= i < |start| ==> start[i] == rs[i];
  }

  /** While no type is recorded, or the recorded one stays the wanted one,
      nothing is torn down for being of another kind. What an earlier spec left
      stays, over any run, except exactly for what a change of the class and the
      Routes' own clean-up of pulp-web remove by the way. */
  lemma {:induction false} LeftoversExactly(s: State, openShift: bool, rs: seq<Replies>)
    requires TypeSettled(s)
    ensures var t, n, u := Run(s, openShift, rs), s.spec, ClassReplaced(s, openShift, rs);
      && (n.ingressType.kind != Route ==> (t.routes <==> s.routes))
      && (n.ingressType.kind != Ingress ==>
            && (t.ingress <==> s.ingress && !u)
            && (t.redirect <==> s.redirect && !(u && s.status.className.ocpDefault && !n.className.ocpDefault)))
      && (n.ingressType.kind == Route ==> (t.web <==> s.web && !RoutesDone(rs)))
      && (n.ingressType.kind == Ingress && !WebBehindIngress(n, openShift) ==>
            (t.web <==> s.web && !(u && (n.nginx || n.className.ocpDefault))))
  {
    if rs != [] {
      LeftoversExactly(s, openShift, rs[..|rs| - 1]);
      RunKeepsClass(s, openShift, rs[..|rs| - 1]);
      RoutesDoneOnce(rs);
      PassOnForeign(Run(s, openShift, rs[..|rs| - 1]), openShift, rs[|rs| - 1]);
    }
  }

  /** What the passes before the first record have built is left behind by an
      edit of the kind: the Routes for good, the Ingress until the class changes. */
  lemma EditBeforeFirstRecordLeaks(s: State, openShift: bool, r: Replies, n: Spec, rs: seq<Replies>)
    requires s.status.ingressType.kind == Unset && r.reaches && r.ready && !Records(s, openShift, r)
    requires n.ingressType.kind != s.spec.ingressType.kind
    ensures var left := Pass(s, openShift, r).0.(spec := n);
      && (s.spec.ingressType.kind == Route ==> Run(left, openShift, rs).routes)
      && (s.spec.ingressType.kind == Ingress ==>
            && (left.ingress <==> !ClassUpdate(s, openShift, ReconcilePass(r)) || s.spec.nginx)
            && (Run(left, openShift, rs).ingress <==> left.ingress && !ClassReplaced(left, openShift, rs)))
  {
    PassByParts(s, openShift, r);
    LeftoversExactly(Pass(s, openShift, r).0.(spec := n), openShift, rs);
  }

  /** Wherever a run of passes and edits goes, its synced states are clean. */
  ghost predicate StaysClean(s: State, openShift: bool) {
    forall es: seq<Event> :: KindsOnly(es) ==> CleanOnceSynced(Reach(s, openShift, es))
  }

  predicate CleanOnceSynced(s: State) { Synced(s) ==> Clean(s) }

  /** A pass of a state without a recorded type records one. */
  predicate Records(s: State, openShift: bool, r: Replies) {
    s.status.ingressType.kind == Unset && Pass(s, openShift, r).0.status.ingressType.kind != Unset
  }

  lemma RecordingPass(s: State, openShift: bool, r: Replies)
    requires Records(s, openShift, r)
    ensures var t := Pass(s, openShift, r).0;
      && t.spec == s.spec && Synced(t) && t.spec.ingressType.kind != Unset
      && (Clean(t) <==> (s.routes ==> s.spec.ingressType.kind == Route) && (s.ingress || s.redirect ==> s.spec.ingressType.kind == Ingress))
      && (Clean(t) ==> Consistent(t))
  {
    ExposeKeepsStatus(s, openShift, r);
  }

  /** From a first installation on, every synced state is clean, over any passes
      and edits, exactly when nothing foreign to the wanted kind existed at the
      moment the type was first recorded. */
  lemma FirstRecordDecides(s: State, openShift: bool, r: Replies)
    requires Records(s, openShift, r)
    ensures StaysClean(Pass(s, openShift, r).0, openShift)
            <==> (s.routes ==> s.spec.ingressType.kind == Route) && (s.ingress || s.redirect ==> s.spec.ingressType.kind == Ingress)
  {
    var t := Pass(s, openShift, r).0;
    RecordingPass(s, openShift, r);
    if Clean(t) {
      forall es: seq<Event> | KindsOnly(es) ensures CleanOnceSynced(Reach(t, openShift, es)) {
        SyncedStatesAreClean(t, openShift, es);
      }
    } else {
      assert KindsOnly([]) && !CleanOnceSynced(Reach(t, openShift, []));
    }
  }

  /** No edit of the run changes the kind. */
  ghost predicate KeepsKind(k: Kind, es: seq<Event>) {
    forall e :: e in es && e.EditSpec? ==> e.spec.ingressType.kind == k
  }

  /** Nothing foreign exists while no type is recorded. */
  predicate FreshFor(s: State, k: Kind) {
    && s.status.ingressType.kind == Unset && s.spec.ingressType.kind == k
    && (s.routes ==> k == Route) && (s.ingress || s.redirect ==> k == Ingress)
  }

  lemma PassKeepsFresh(s: State, openShift: bool, r: Replies, k: Kind)
    requires FreshFor(s, k) && !Records(s, openShift, r)
    ensures FreshFor(Pass(s, openShift, r).0, k)
  {
    ExposeKeepsStatus(s, openShift, r);
    PassOnForeign(s, openShift, r);
  }

  /** No pass of the run records the type. */
  predicate NothingRecorded(s: State, openShift: bool, es: seq<Event>) {
    es != [] ==>
      var start, e := es[..|es| - 1], es[|es| - 1];
      NothingRecorded(s, openShift, start) && (e.ReconcilePass? ==> !Records(Reach(s, openShift, start), openShift, e.replies))
  }

  lemma {:induction false} WindowKeepsFresh(s: State, openShift: bool, es: seq<Event>, k: Kind)
    requires FreshFor(s, k) && KeepsKind(k, es) && NothingRecorded(s, openShift, es)
    ensures FreshFor(Reach(s, openShift, es), k)
  {
    if es != [] {
      var start, e := es[..|es| - 1], es[|es| - 1];
      assert forall x :: x in start ==> x in es;
      WindowKeepsFresh(s, openShift, start, k);
      match e
      case ReconcilePass(r) => PassKeepsFresh(Reach(s, openShift, start), openShift, r, k);
      case EditSpec(n) => assert e in es;
    }
  }

  /** A first installation whose kind is not edited before it is recorded stays
      clean over everything that follows. */
  lemma UneditedInstallIsClean(s: State, openShift: bool, es: seq<Event>, r: Replies)
    requires FreshFor(s, s.spec.ingressType.kind) && KeepsKind(s.spec.ingressType.kind, es)
    requires NothingRecorded(s, openShift, es) && Records(Reach(s, openShift, es), openShift, r)
    ensures StaysClean(Pass(Reach(s, openShift, es), openShift, r).0, openShift)
  {
    WindowKeepsFresh(s, openShift, es, s.spec.ingressType.kind);
    FirstRecordDecides(Reach(s, openShift, es), openShift, r);
  }

  // ---- how many transitions ----

  predicate TypeUpdate(s: State, e: Event) { e.ReconcilePass? && e.replies.reaches && !TypeSettled(s) }

  predicate ClassUpdate(s: State, openShift: bool, e: Event) {
    && e.ReconcilePass? && e.replies.reaches && TypeSettled(s)
    && !Expose(s, openShift, e.replies).1 && !ClassSettled(s)
  }

  function ClassUpdates(s: State, openShift: bool, es: seq<Event>): nat {
    if es == [] then 0
    else ClassUpdates(s, openShift, es[..|es| - 1])
         + if ClassUpdate(Reach(s, openShift, es[..|es| - 1]), openShift, es[|es| - 1]) then 1 else 0
  }

  /** What makes the recorded class differ from the wanted one again: an edit of
      the class, leaving the ingress type (which clears it), a lost write. */
  predicate ClassCause(s: State, openShift: bool, e: Event) {
    match e
    case EditSpec(n) => n.className.folded != s.spec.className.folded
    case ReconcilePass(r) =>
      || (ClassUpdate(s, openShift, e) && !r.classWrite)
      || (TypeUpdate(s, e) && r.typeWrite && s.status.ingressType.kind == Ingress)
  }

  function ClassCauses(s: State, openShift: bool, es: seq<Event>): nat {
    if es == [] then 0
    else ClassCauses(s, openShift, es[..|es| - 1])
         + if ClassCause(Reach(s, openShift, es[..|es| - 1]), openShift, es[|es| - 1]) then 1 else 0
  }

  lemma ExposeKeepsStatus(s: State, openShift: bool, r: Replies)
    ensures Expose(s, openShift, r).0.status == s.status && Expose(s, openShift, r).0.spec == s.spec
  {
  }

  function ClassPending(s: State): nat { if ClassSettled(s) then 0 else 1 }

  lemma StepPaysForClass(s: State, openShift: bool, e: Event)
    ensures (if ClassUpdate(s, openShift, e) then 1 else 0) + ClassPending(Step(s, openShift, e))
            <= ClassPending(s) + if ClassCause(s, openShift, e) then 1 else 0
  {
    if e.ReconcilePass? { ExposeKeepsStatus(s, openShift, e.replies); }
  }

  /** Each class change costs at most one `updateIngressClass`. */
  lemma {:induction false} ClassUpdatesBounded(s: State, openShift: bool, es: seq<Event>)
    ensures ClassUpdates(s, openShift, es) + ClassPending(Reach(s, openShift, es)) <= ClassPending(s) + ClassCauses(s, openShift, es)
  {
    if es != [] {
      ClassUpdatesBounded(s, openShift, es[..|es| - 1]);
      StepPaysForClass(Reach(s, openShift, es[..|es| - 1]), openShift, es[|es| - 1]);
    }
  }

  /** Nothing of the environment is in the way. */
  predicate AllGood(r: Replies) {
    r.reaches && r.ready && r.exposed && r.typeWrite && r.classWrite && r.finishes && r.statusWrite
  }

  predicate Exposed(s: State) {
    match s.spec.ingressType.kind
    case Route => s.routes && !s.web
    case Ingress => s.ingress
    case _ => s.web
  }

  lemma GoodTypePass(s: State, openShift: bool, r: Replies)
    requires AllGood(r) && !TypeSettled(s) && FourKinds(s.status.ingressType.kind) && s.status.ingressType.kind != s.spec.ingressType.kind
    ensures var t := Pass(s, openShift, r).0;
      t.spec == s.spec && TypeSettled(t)
  {
    CommitsByKind(s);
  }

  lemma GoodClassPass(s: State, openShift: bool, r: Replies)
    requires AllGood(r) && TypeSettled(s)
    ensures var t := Pass(s, openShift, r).0;
      t.spec == s.spec && TypeSettled(t) && ClassSettled(t)
  {
    ExposeKeepsStatus(s, openShift, r);
  }

  lemma GoodLastPass(s: State, openShift: bool, r: Replies)
    requires AllGood(r) && TypeSettled(s) && ClassSettled(s)
    ensures var t := Pass(s, openShift, r).0;
      t.spec == s.spec && Synced(t) && Exposed(t) && !Pass(s, openShift, r).1
  {
    ExposeKeepsStatus(s, openShift, r);
  }

  /** With everything ready and every write accepted, a state whose type is
      settled or commits is synced and exposed as wanted after three passes: one
      for the type, one for the class, one for the controllers. */
  lemma CommittingStateSettles(s: State, openShift: bool, r: Replies)
    requires AllGood(r)
    requires !TypeSettled(s) ==> FourKinds(s.status.ingressType.kind) && s.status.ingressType.kind != s.spec.ingressType.kind
    ensures var t := Run(s, openShift, Repeat(r, 3));
      t.spec == s.spec && Synced(t) && Exposed(t) && !Pass(t, openShift, r).1
  {
    var a := Pass(s, openShift, r).0;
    if TypeSettled(s) { GoodClassPass(s, openShift, r); } else { GoodTypePass(s, openShift, r); }
    var b := Pass(a, openShift, r).0;
    GoodClassPass(a, openShift, r);
    GoodLastPass(b, openShift, r);
    RunThree(s, openShift, r);
    GoodLastPass(Pass(b, openShift, r).0, openShift, r);
  }

  lemma RunThree(s: State, openShift: bool, r: Replies)
    ensures Run(s, openShift, Repeat(r, 3)) == Pass(Pass(Pass(s, openShift, r).0, openShift, r).0, openShift, r).0
  {
    assert Repeat(r, 3)[..2] == Repeat(r, 2) && Repeat(r, 2)[..1] == Repeat(r, 1) && Repeat(r, 1)[..0] == [];
    assert Run(s, openShift, Repeat(r, 1)) == Pass(s, openShift, r).0;
    assert Run(s, openShift, Repeat(r, 2)) == Pass(Run(s, openShift, Repeat(r, 1)), openShift, r).0;
  }

  // ---- what exists afterwards ----

  /** Exactly these objects exist. */
  predicate Exists(s: State, routes: bool, ingress: bool, redirect: bool, web: bool) {
    s.routes == routes && s.ingress == ingress && s.redirect == redirect && s.web == web
  }

  /** Changing to another kind removes everything the old one used. */
  lemma TypeChangeClears(s: State, write: bool)
    requires Consistent(s) && FourKinds(s.status.ingressType.kind) && s.status.ingressType.kind != s.spec.ingressType.kind
    ensures Exists(UpdateIngressType(s, write), false, false, false, false)
  {
  }

  lemma GoodPassBuilds(s: State, openShift: bool, r: Replies)
    requires AllGood(r) && TypeSettled(s) && ClassSettled(s)
    ensures var t, k := Pass(s, openShift, r).0, s.spec.ingressType.kind;
      && (t.routes <==> s.routes || k == Route)
      && (t.ingress <==> s.ingress || k == Ingress)
      && (t.redirect <==> s.redirect || (k == Ingress && !s.spec.nginx && openShift && s.spec.className.ocpDefault && r.rewrites))
      && (t.web <==> k != Route && (s.web || k != Ingress || s.spec.webAnnotation == Some(true)
                                    || (s.spec.webAnnotation == None && !s.spec.nginx && !(openShift && s.spec.className.ocpDefault))))
  {
    ExposeKeepsStatus(s, openShift, r);
  }

  lemma GoodClassPassBuilds(s: State, openShift: bool, r: Replies)
    requires AllGood(r) && TypeSettled(s) && !ClassSettled(s)
    ensures var t, k := Pass(s, openShift, r).0, s.spec.ingressType.kind;
      && (t.routes <==> s.routes || k == Route)
      && (t.ingress ==> k == Ingress)
      && (t.redirect ==> s.redirect || (k == Ingress && !s.spec.nginx && openShift && s.spec.className.ocpDefault && r.rewrites))
      && (s.redirect && (!s.status.className.ocpDefault || s.spec.className.ocpDefault) ==> t.redirect)
      && (s.status.className.ocpDefault && !s.spec.className.ocpDefault ==> !t.redirect)
      && (k == Ingress && t.web ==> !s.spec.nginx && !s.spec.className.ocpDefault && (s.web || s.spec.webAnnotation != Some(false)))
      && (k == Ingress && s.web && !s.spec.nginx && !s.spec.className.ocpDefault ==> t.web)
  {
    ExposeKeepsStatus(s, openShift, r);
    PassByParts(s, openShift, r);
  }

  /** After a change of the kind, three good passes leave exactly the objects of
      the new one: the Routes, or the Ingress with what its class and annotation
      ask for beside it, or pulp-web. */
  lemma TypeChangeRebuilds(s: State, openShift: bool, r: Replies)
    requires AllGood(r) && Consistent(s) && FourKinds(s.status.ingressType.kind) && s.status.ingressType.kind != s.spec.ingressType.kind
    ensures var t, n := Run(s, openShift, Repeat(r, 3)), s.spec;
      && Synced(t)
      && (n.ingressType.kind == Route ==> Exists(t, true, false, false, false))
      && (n.ingressType.kind == Ingress ==>
            Exists(t, false, true, !n.nginx && openShift && n.className.ocpDefault && r.rewrites,
                   n.webAnnotation == Some(true) || (n.webAnnotation == None && !n.nginx && !(openShift && n.className.ocpDefault))))
      && (n.ingressType.kind != Route && n.ingressType.kind != Ingress ==> Exists(t, false, false, false, true))
  {
    var a := Pass(s, openShift, r).0;
    TypeChangeClears(s, true);
    CommitsByKind(s);
    assert a == UpdateIngressType(s, true) && a.spec == s.spec && TypeSettled(a);
    RebuiltFromNothing(a, openShift, r);
    CommittingStateSettles(s, openShift, r);
    RunThree(s, openShift, r);
  }

  lemma RebuiltFromNothing(a: State, openShift: bool, r: Replies)
    requires AllGood(r) && TypeSettled(a) && Exists(a, false, false, false, false)
    ensures var t, n := Pass(Pass(a, openShift, r).0, openShift, r).0, a.spec;
      && (n.ingressType.kind == Route ==> Exists(t, true, false, false, false))
      && (n.ingressType.kind == Ingress ==>
            Exists(t, false, true, !n.nginx && openShift && n.className.ocpDefault && r.rewrites,
                   n.webAnnotation == Some(true) || (n.webAnnotation == None && !n.nginx && !(openShift && n.className.ocpDefault))))
      && (n.ingressType.kind != Route && n.ingressType.kind != Ingress ==> Exists(t, false, false, false, true))
  {
    var b := Pass(a, openShift, r).0;
    GoodClassPass(a, openShift, r);
    if ClassSettled(a) { GoodPassBuilds(a, openShift, r); } else { GoodClassPassBuilds(a, openShift, r); }
    GoodPassBuilds(b, openShift, r);
  }

  /** After a change of the class under Ingress, two good passes leave exactly
      the Ingress, the redirect that the new class asks for or that was not the
      old class's own, and pulp-web where the annotation or the class asks for
      it; another pulp-web survives only when neither its class nor nginx takes
      it down. */
  lemma ClassChangeRebuilds(s: State, openShift: bool, r: Replies)
    requires AllGood(r) && TypeSettled(s) && s.spec.ingressType.kind == Ingress && !ClassSettled(s)
    ensures var t, n := Pass(Pass(s, openShift, r).0, openShift, r).0, s.spec;
      && ClassSettled(t) && t.ingress && (t.routes <==> s.routes)
      && (t.redirect <==> || (!n.nginx && openShift && n.className.ocpDefault && r.rewrites)
                          || (s.redirect && !(s.status.className.ocpDefault && !n.className.ocpDefault)))
      && (t.web <==> || n.webAnnotation == Some(true)
                     || (n.webAnnotation == None && !n.nginx && !(openShift && n.className.ocpDefault))
                     || (s.web && !n.nginx && !n.className.ocpDefault))
  {
    var b := Pass(s, openShift, r).0;
    GoodClassPass(s, openShift, r);
    GoodClassPassBuilds(s, openShift, r);
    GoodPassBuilds(b, openShift, r);
    GoodClassPass(b, openShift, r);
  }
}
