/** Repeated reconcile passes when every API call succeeds. Under such calm
    conditions a pass only steps the status machine; from any status, three
    passes reach a status that every later pass leaves alone, and a second
    round of the children phase writes nothing new. */
module Convergence {
  import opened Api
  import opened Store
  import opened Handler
  import opened Controller

  /** Every call succeeds and the pod List returns `pods`. */
  function Calm(pods: seq<Pod>): Oracle
  {
    Oracle(None, None, None, None, None, None, None, Ok(pods))
  }

  /** With a claim that can be stamped, reconcilePVC never dereferences nil. */
  lemma CalmNoDeref(w: World, req: ObjectKey, scheme: Scheme, pods: seq<Pod>)
    requires PvcKind !in scheme.ownerRefFailures
    ensures !DerefsNil(w, req, scheme, Calm(pods))
  {
  }

  /** The status machine of one calm pass, stated on its own: initialise an
      empty list, reset a True, otherwise store differing pod names with
      True, otherwise leave the status as it is. */
  function NextStatus(st: SparkHistoryStatus, names: Option<seq<string>>): SparkHistoryStatus
  {
    if |st.conditions| == 0 then InitialStatus
    else if st.conditions[0].status == ConditionTrue then WithHealth(st, ConditionFalse)
    else if names != st.nodes then WithHealth(st.(nodes := names), ConditionTrue)
    else st
  }

  /** The status a calm pass leaves alone. */
  ghost predicate Settled(st: SparkHistoryStatus, names: Option<seq<string>>)
  {
    |st.conditions| > 0 && st.conditions[0].status != ConditionTrue && st.nodes == names
  }

  lemma SettledIsFixed(st: SparkHistoryStatus, names: Option<seq<string>>)
    ensures NextStatus(st, names) == st <==> Settled(st, names)
  {
    if |st.conditions| > 0 && st.conditions[0].status == ConditionTrue {
      assert NextStatus(st, names).conditions[0].status == ConditionFalse;
    } else if |st.conditions| > 0 && names != st.nodes {
      assert NextStatus(st, names).nodes == names;
    }
  }

  /** `n` calm passes of the status machine. */
  function Iterate(st: SparkHistoryStatus, names: Option<seq<string>>, n: nat): SparkHistoryStatus
    decreases n
  {
    if n == 0 then st else Iterate(NextStatus(st, names), names, n - 1)
  }

  /** Three passes settle any status: an empty list is initialised, then
      marked True with the pod names, then reset to False; a True is reset
      first; a False with stale names is marked True and then reset. */
  lemma {:induction false} SettlesWithinThree(st: SparkHistoryStatus, names: Option<seq<string>>)
    ensures Settled(Iterate(st, names, 3), names)
  {
    var s1 := NextStatus(st, names);
    var s2 := NextStatus(s1, names);
    var s3 := NextStatus(s2, names);
    assert Iterate(st, names, 3) == s3 by {
      IterateUnfold(st, names, 3);
      IterateUnfold(s1, names, 2);
      IterateUnfold(s2, names, 1);
    }
    if |st.conditions| == 0 {
      assert s1 == InitialStatus;
      if names != s1.nodes {
        assert s2.conditions[0].status == ConditionTrue && s2.nodes == names;
      }
    } else if st.conditions[0].status == ConditionTrue {
      if names != s1.nodes {
        assert s2.conditions[0].status == ConditionTrue && s2.nodes == names;
      }
    } else if names != st.nodes {
      assert s1.conditions[0].status == ConditionTrue && s1.nodes == names;
    }
  }

  /** Once settled, every further pass leaves the status alone. */
  lemma {:induction false} StaysSettled(st: SparkHistoryStatus, names: Option<seq<string>>, n: nat)
    requires Settled(st, names)
    ensures Iterate(st, names, n) == st
  {
    if n > 0 {
      SettledIsFixed(st, names);
      StaysSettled(st, names, n - 1);
    }
  }

  /** A first sight with no pods still flips the condition to True once:
      the pod names of an empty list are nil, which differs from the empty
      slice the first pass stored. */
  lemma ZeroPodsFlipOnce()
    ensures PodNames([]) == None
    ensures NextStatus(InitialStatus, PodNames([])) ==
      SparkHistoryStatus(None, [ComponentCondition(ComponentHealthy, ConditionTrue)])
  {
  }

  // ---------------------------------------------------------------------------
  // The pass follows the status machine
  // ---------------------------------------------------------------------------

  /** Under calm conditions the children phase succeeds. */
  lemma CalmChildren(w: World, inst: SparkHistory, scheme: Scheme, pods: seq<Pod>)
    requires PvcKind !in scheme.ownerRefFailures
    ensures ReconcileChildren(w, inst, scheme, Calm(pods)).err.None?
  {
    var o := Calm(pods);
    var p := ReconcilePvcStep(w, inst, scheme, o);
    assert p.err.None?;
    var d := ApplyStep(p.world, DeploymentFor(inst, scheme), o.applyDeployment);
    var v := ApplyStep(d.world, ServiceFor(inst, scheme), o.applyService);
    assert ApplyRest(p, DeploymentFor(inst, scheme), ServiceFor(inst, scheme), IngressFor(inst, scheme), o)
      == ApplyStep(v.world, IngressFor(inst, scheme), o.applyIngress);
  }

  /** A calm pass stores exactly the next status of the requested instance,
      never fails, and requeues exactly when the pre-check fired. */
  lemma CalmPass(w: World, req: ObjectKey, scheme: Scheme, pods: seq<Pod>)
    requires WellKeyed(w) && PvcKind !in scheme.ownerRefFailures && req in w.instances
    ensures !DerefsNil(w, req, scheme, Calm(pods))
    ensures var out := Pass(w, req, scheme, Calm(pods));
      var inst := w.instances[req];
      out.world.instances == w.instances[req := inst.(status := NextStatus(inst.status, PodNames(pods)))]
      && out.err.None?
      && (out.result == Requeue <==> PreCheck(inst.status).Some?)
  {
    var o := Calm(pods);
    CalmNoDeref(w, req, scheme, pods);
    var inst := w.instances[req];
    if PreCheck(inst.status).Some? {
      PassPreCheck(w, req, scheme, o);
    } else {
      CalmChildren(w, inst, scheme, pods);
      if PodNames(pods) == inst.status.nodes {
        PassSettled(w, req, scheme, o);
        assert inst.(status := inst.status) == inst;
      } else {
        PassNodesChanged(w, req, scheme, o);
      }
    }
  }

  /** From any stored status, three consecutive calm passes settle it: the
      condition is no longer True and the nodes are the pod names. Each pass
      stores the next status of the machine, so the third stores
      `Iterate(st, names, 3)`. */
  lemma ConvergesWithinThree(w0: World, w1: World, w2: World, w3: World,
                             req: ObjectKey, scheme: Scheme, pods: seq<Pod>)
    requires WellKeyed(w0) && PvcKind !in scheme.ownerRefFailures && req in w0.instances
    requires !DerefsNil(w0, req, scheme, Calm(pods)) && w1 == Pass(w0, req, scheme, Calm(pods)).world
    requires !DerefsNil(w1, req, scheme, Calm(pods)) && w2 == Pass(w1, req, scheme, Calm(pods)).world
    requires !DerefsNil(w2, req, scheme, Calm(pods)) && w3 == Pass(w2, req, scheme, Calm(pods)).world
    ensures req in w3.instances
    ensures w3.instances[req].status == Iterate(w0.instances[req].status, PodNames(pods), 3)
    ensures Settled(w3.instances[req].status, PodNames(pods))
  {
    var names := PodNames(pods);
    var st := w0.instances[req].status;
    CalmPass(w0, req, scheme, pods);
    CalmPass(w1, req, scheme, pods);
    CalmPass(w2, req, scheme, pods);
    SettlesWithinThree(st, names);
    assert Iterate(st, names, 3) == NextStatus(NextStatus(NextStatus(st, names), names), names) by {
      IterateUnfold(st, names, 3);
      IterateUnfold(NextStatus(st, names), names, 2);
      IterateUnfold(NextStatus(NextStatus(st, names), names), names, 1);
    }
  }

  lemma IterateUnfold(st: SparkHistoryStatus, names: Option<seq<string>>, n: nat)
    requires n > 0
    ensures Iterate(st, names, n) == Iterate(NextStatus(st, names), names, n - 1)
  {
  }

  /** A settled instance: a calm pass is Done with no error and no status
      write. */
  lemma QuietWhenSettled(w: World, req: ObjectKey, scheme: Scheme, pods: seq<Pod>)
    requires WellKeyed(w) && PvcKind !in scheme.ownerRefFailures && req in w.instances
    requires Settled(w.instances[req].status, PodNames(pods))
    ensures !DerefsNil(w, req, scheme, Calm(pods))
    ensures var out := Pass(w, req, scheme, Calm(pods));
      var ws := Issued(w, out.world);
      out.result == Done && out.err.None? && out.world.instances == w.instances
      && forall i :: 0 <= i < |ws| ==> !ws[i].StatusUpdateCall?
  {
    CalmNoDeref(w, req, scheme, pods);
    CalmChildren(w, w.instances[req], scheme, pods);
    PassSettled(w, req, scheme, Calm(pods));
  }

  // ---------------------------------------------------------------------------
  // A second children phase changes nothing
  // ---------------------------------------------------------------------------

  /** Calm applies never fail, so they store every given child and keep the
      claims. */
  lemma CalmRestStores(p: Step, dep: Option<Child>, svc: Option<Child>, ing: Option<Child>, pods: seq<Pod>)
    requires p.err.None?
    requires dep.Some? ==> Rank(dep.value.KindOf()) == 1
    requires svc.Some? ==> Rank(svc.value.KindOf()) == 2
    requires ing.Some? ==> Rank(ing.value.KindOf()) == 3
    ensures var c := ApplyRest(p, dep, svc, ing, Calm(pods)).world.children;
      Holds(c, dep) && Holds(c, svc) && Holds(c, ing) && ClaimsKept(p.world.children, c)
  {
    var o := Calm(pods);
    var d := ApplyStep(p.world, dep, o.applyDeployment);
    var v := ApplyStep(d.world, svc, o.applyService);
    assert ApplyRest(p, dep, svc, ing, o) == ApplyStep(v.world, ing, o.applyIngress);
    RestStores(p, dep, svc, ing, o);
  }

  /** Calm applies of children that are already stored change nothing. */
  lemma CalmRestIdle(q: Step, dep: Option<Child>, svc: Option<Child>, ing: Option<Child>, pods: seq<Pod>)
    requires q.err.None?
    requires Holds(q.world.children, dep) && Holds(q.world.children, svc) && Holds(q.world.children, ing)
    ensures ApplyRest(q, dep, svc, ing, Calm(pods)).world.children == q.world.children
  {
    var o := Calm(pods);
    var d := ApplyStep(q.world, dep, o.applyDeployment);
    var v := ApplyStep(d.world, svc, o.applyService);
    var g := ApplyStep(v.world, ing, o.applyIngress);
    assert ApplyRest(q, dep, svc, ing, o) == g;
  }

  /** Reconciling the children a second time under calm conditions leaves
      them as the first time did: the claim now exists and is not created
      again, and every other child is written with the value it already has. */
  lemma CalmChildrenIdempotent(w: World, inst: SparkHistory, scheme: Scheme, pods: seq<Pod>)
    requires PvcKind !in scheme.ownerRefFailures
    ensures var c1 := ReconcileChildren(w, inst, scheme, Calm(pods)).world;
      PvcKey(inst) in c1.children
      && ReconcilePvcStep(c1, inst, scheme, Calm(pods)) == Step(c1, None)
      && ReconcileChildren(c1, inst, scheme, Calm(pods)).world.children == c1.children
  {
    var o := Calm(pods);
    var dep, svc, ing := DeploymentFor(inst, scheme), ServiceFor(inst, scheme), IngressFor(inst, scheme);
    var p1 := ReconcilePvcStep(w, inst, scheme, o);
    assert PvcKey(inst) in p1.world.children;
    CalmRestStores(p1, dep, svc, ing, pods);
    var c1 := ApplyRest(p1, dep, svc, ing, o).world;
    assert ReconcileChildren(w, inst, scheme, o).world == c1;
    var p2 := ReconcilePvcStep(c1, inst, scheme, o);
    assert p2 == Step(c1, None);
    CalmRestIdle(p2, dep, svc, ing, pods);
    assert ReconcileChildren(c1, inst, scheme, o).world == ApplyRest(p2, dep, svc, ing, o).world;
  }
}
