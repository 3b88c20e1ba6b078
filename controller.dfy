/** The reconcile pass of internal/controller/sparkhistory_controller.go as a
    function of the store: fetch the SparkHistory resource, run the status
    pre-check, reconcile the four children in order, list the pods and run
    the status post-check. The imperative reconciler in module Reconciler is
    proved to compute exactly this function. */
module Controller {
  import opened Api
  import opened Store
  import opened Handler

  /** ctrl.Result, reduced to the one field the reconciler sets. */
  datatype CtrlResult = CtrlResult(requeue: bool)

  const Done := CtrlResult(false)
  const Requeue := CtrlResult(true)

  /** What a pass leaves behind: the store, and the (Result, error) pair returned. */
  datatype Outcome = Outcome(world: World, result: CtrlResult, err: Option<ApiError>)

  // ---------------------------------------------------------------------------
  // Pod names
  // ---------------------------------------------------------------------------

  /** Go's append on a possibly nil slice: the result is never nil. */
  function AppendName(names: Option<seq<string>>, name: string): seq<string>
  {
    match names
    case None => [name]
    case Some(s) => s + [name]
  }

  /** getPodNames: append each pod's name in turn to a slice that starts nil,
      so no pods give nil rather than an empty slice. */
  function PodNames(pods: seq<Pod>): (names: Option<seq<string>>)
    ensures names.None? <==> |pods| == 0
    ensures names.Some? ==>
      |names.value| == |pods| && forall i :: 0 <= i < |pods| ==> names.value[i] == pods[i].name
  {
    if |pods| == 0 then None
    else Some(AppendName(PodNames(pods[..|pods| - 1]), pods[|pods| - 1].name))
  }

  // ---------------------------------------------------------------------------
  // The status state machine
  // ---------------------------------------------------------------------------

  const InitialStatus := SparkHistoryStatus(Some([]), [ComponentCondition(ComponentHealthy, ConditionFalse)])

  /** Condition 0 with its status replaced. */
  function WithHealth(st: SparkHistoryStatus, health: ConditionStatus): (r: SparkHistoryStatus)
    requires |st.conditions| > 0
    ensures r.nodes == st.nodes && |r.conditions| == |st.conditions|
    ensures r.conditions[0] == st.conditions[0].(status := health)
    ensures forall i :: 1 <= i < |st.conditions| ==> r.conditions[i] == st.conditions[i]
  {
    st.(conditions := st.conditions[0 := st.conditions[0].(status := health)])
  }

  /** The pre-check: the status to write before stopping the pass with a
      requeue, or None when the pass goes on to the children. */
  function PreCheck(st: SparkHistoryStatus): (r: Option<SparkHistoryStatus>)
    ensures r.None? <==> |st.conditions| > 0 && st.conditions[0].status != ConditionTrue
    ensures |st.conditions| == 0 ==> r == Some(InitialStatus)
    ensures |st.conditions| > 0 && r.Some? ==> r.value == WithHealth(st, ConditionFalse)
    // whichever way it stops, the condition it writes is False
    ensures r.Some? ==> |r.value.conditions| > 0 && r.value.conditions[0].status == ConditionFalse
  {
    if |st.conditions| == 0 then Some(InitialStatus)
    else if st.conditions[0].status == ConditionTrue then Some(WithHealth(st, ConditionFalse))
    else None
  }

  /** The post-check: the status to write when the observed pod names differ
      (order-sensitively, nil unlike empty) from the stored ones. */
  function PostCheck(st: SparkHistoryStatus, names: Option<seq<string>>): (r: Option<SparkHistoryStatus>)
    requires |st.conditions| > 0
    ensures r.None? <==> names == st.nodes
    ensures r.Some? ==> r.value == WithHealth(st.(nodes := names), ConditionTrue)
    ensures r.Some? ==> r.value.nodes == names && r.value.conditions[0].status == ConditionTrue
  {
    if names != st.nodes then Some(WithHealth(st.(nodes := names), ConditionTrue)) else None
  }

  // ---------------------------------------------------------------------------
  // The write log of a pass
  // ---------------------------------------------------------------------------

  /** The position of each child in the fixed reconcile order. */
  function Rank(k: Kind): nat
  {
    match k
    case PvcKind => 0
    case DeploymentKind => 1
    case ServiceKind => 2
    case IngressKind => 3
  }

  /** Only child writes, each of a kind later in the order than the one before. */
  ghost predicate ChildWritesInOrder(ws: seq<Write>)
  {
    (forall i :: 0 <= i < |ws| ==> !ws[i].StatusUpdateCall?)
    && (forall i, j :: 0 <= i < j < |ws| ==> Rank(ws[i].key.kind) < Rank(ws[j].key.kind))
  }

  /** Every write but the last succeeded, and the last returned `err`. */
  ghost predicate StopsAtFirstFailure(ws: seq<Write>, err: Option<ApiError>)
  {
    (forall i :: 0 <= i < |ws| - 1 ==> ws[i].err.None?)
    && (|ws| > 0 ==> ws[|ws| - 1].err == err)
  }

  /** The kinds of child a log writes. */
  ghost function WrittenKinds(ws: seq<Write>): set<Kind>
  {
    if ws == [] then {}
    else
      var last := ws[|ws| - 1];
      WrittenKinds(ws[..|ws| - 1]) + if last.StatusUpdateCall? then {} else {last.key.kind}
  }

  // ---------------------------------------------------------------------------
  // Children, in order
  // ---------------------------------------------------------------------------

  /** Whether a clean children phase writes a child of kind `k`: the claim
      when its Get reported not-found, any other child when its builder
      yielded one. */
  ghost predicate Expected(w: World, inst: SparkHistory, scheme: Scheme, o: Oracle, k: Kind)
  {
    if k == PvcKind then PvcMissing(w, inst, o) else k !in scheme.ownerRefFailures
  }

  /** After the claim step `p`: the deployment, the service and the ingress,
      each skipped when its builder gave no object; the first error ends the
      sequence. */
  function ApplyRest(p: Step, dep: Option<Child>, svc: Option<Child>, ing: Option<Child>, o: Oracle): (s: Step)
    ensures s.world.instances == p.world.instances
    ensures Extends(p.world, s.world)
  {
    if p.err.Some? then p
    else
      var d := ApplyStep(p.world, dep, o.applyDeployment);
      if d.err.Some? then d
      else
        var v := ApplyStep(d.world, svc, o.applyService);
        ExtendsTrans(p.world, d.world, v.world);
        if v.err.Some? then v
        else
          var g := ApplyStep(v.world, ing, o.applyIngress);
          ExtendsTrans(p.world, v.world, g.world);
          g
  }

  /** The claim, then the deployment, the service and the ingress; the first
      error ends the sequence. */
  function ReconcileChildren(w: World, inst: SparkHistory, scheme: Scheme, o: Oracle): (s: Step)
    requires !PvcDerefsNil(w, inst, scheme, o.getPvc)
    ensures s.world.instances == w.instances
    ensures Extends(w, s.world)
  {
    var p := ReconcilePvcStep(w, inst, scheme, o);
    var s := ApplyRest(p, DeploymentFor(inst, scheme), ServiceFor(inst, scheme), IngressFor(inst, scheme), o);
    ExtendsTrans(w, p.world, s.world);
    s
  }

  /** A child write of rank `r`, appended to an ordered log whose ranks are all below `r`. */
  lemma InOrderSnoc(ws: seq<Write>, x: Write)
    requires ChildWritesInOrder(ws) && !x.StatusUpdateCall?
    requires forall i :: 0 <= i < |ws| ==> Rank(ws[i].key.kind) < Rank(x.key.kind)
    ensures ChildWritesInOrder(ws + [x])
    ensures WrittenKinds(ws + [x]) == WrittenKinds(ws) + {x.key.kind}
  {
    assert (ws + [x])[..|ws|] == ws;
  }

  /** What holds of the children phase after the steps of rank below `r`
      succeeded: only owned children changed, only child writes were issued,
      in order and all successful. */
  ghost predicate PhaseSoFar(w: World, cur: World, keys: set<ChildKey>, r: nat)
  {
    var ws := Issued(w, cur);
    cur.instances == w.instances && Extends(w, cur) && ChildrenFramed(w, cur, keys)
    && ChildWritesInOrder(ws)
    && (forall i :: 0 <= i < |ws| ==> Rank(ws[i].key.kind) < r && ws[i].err.None?)
  }

  /** One create-or-update step of rank `r` on top of a clean phase. */
  lemma ApplyInPhase(w: World, cur: World, keys: set<ChildKey>, obj: Option<Child>, fault: Option<ApiError>, r: nat)
    requires PhaseSoFar(w, cur, keys, r)
    requires obj.Some? ==> Rank(obj.value.KindOf()) == r && obj.value.Key() in keys
    ensures var s := ApplyStep(cur, obj, fault);
      var ws := Issued(w, s.world);
      StopsAtFirstFailure(ws, s.err)
      && WrittenKinds(ws) == WrittenKinds(Issued(w, cur)) + (if obj.Some? then {obj.value.KindOf()} else {})
      && (s.err.Some? ==> s.world.instances == w.instances && Extends(w, s.world)
                          && ChildrenFramed(w, s.world, keys) && ChildWritesInOrder(ws))
      && (s.err.None? ==> PhaseSoFar(w, s.world, keys, r + 1))
  {
    var s := ApplyStep(cur, obj, fault);
    var x := CreateOrUpdateCall(if obj.Some? then obj.value.Key() else ChildKey(PvcKind, "", ""), fault);
    ExtendsTrans(w, cur, s.world);
    FramedTrans(w, cur, s.world, keys, if obj.Some? then {obj.value.Key()} else {}, keys);
    var before := Issued(w, cur);
    if obj.None? {
      assert Issued(w, s.world) == before + [] == before;
    } else {
      InOrderSnoc(before, x);
      assert Issued(w, s.world) == before + [x];
    }
  }

  /** A create-only step on `key` that writes once exactly when `missing`
      opens the phase. */
  lemma CreateOnlyOpens(w: World, p: Step, key: ChildKey, keys: set<ChildKey>, missing: bool,
                        createFault: Option<ApiError>, getFault: Option<string>)
    requires Rank(key.kind) == 0 && key in keys
    requires p.world.instances == w.instances && Extends(w, p.world)
    requires ChildrenFramed(w, p.world, {key})
    requires Issued(w, p.world) == if missing then [CreateCall(key, createFault)] else []
    requires missing ==> p.err == createFault
    requires !missing ==> p.err.None? || (getFault.Some? && p.err == Some(Failure(getFault.value)))
    ensures var pw := Issued(w, p.world);
      ChildrenFramed(w, p.world, keys) && ChildWritesInOrder(pw)
      && StopsAtFirstFailure(pw, p.err)
      && (|pw| == 0 && p.err.Some? ==> getFault.Some? && p.err == Some(Failure(getFault.value)))
      && WrittenKinds(pw) == (if missing then {key.kind} else {})
      && (p.err.None? ==> PhaseSoFar(w, p.world, keys, 1))
  {
    var pw := Issued(w, p.world);
    if missing {
      InOrderSnoc([], CreateCall(key, createFault));
      assert [] + pw == pw;
    }
  }

  /** The claim step opens the phase. */
  lemma PvcInPhase(w: World, inst: SparkHistory, scheme: Scheme, o: Oracle)
    requires !PvcDerefsNil(w, inst, scheme, o.getPvc)
    ensures var p := ReconcilePvcStep(w, inst, scheme, o);
      var pw := Issued(w, p.world);
      ChildrenFramed(w, p.world, OwnedKeys(inst)) && ChildWritesInOrder(pw)
      && StopsAtFirstFailure(pw, p.err)
      && (|pw| == 0 && p.err.Some? ==> o.getPvc.Some? && p.err == Some(Failure(o.getPvc.value)))
      && WrittenKinds(pw) == (if PvcMissing(w, inst, o) then {PvcKind} else {})
      && (p.err.None? ==> PhaseSoFar(w, p.world, OwnedKeys(inst), 1))
  {
    var p := ReconcilePvcStep(w, inst, scheme, o);
    CreateOnlyOpens(w, p, PvcKey(inst), OwnedKeys(inst), PvcMissing(w, inst, o), o.createPvc, o.getPvc);
  }

  lemma KindsMatch(written: set<Kind>, missing: bool, failures: set<Kind>)
    requires written == (if missing then {PvcKind} else {})
      + (if DeploymentKind !in failures then {DeploymentKind} else {})
      + (if ServiceKind !in failures then {ServiceKind} else {})
      + (if IngressKind !in failures then {IngressKind} else {})
    ensures forall k :: k in written <==> if k == PvcKind then missing else k !in failures
  {
  }

  /** Kind `k` of rank `r` may be written by the step of rank `r` under `keys`. */
  ghost predicate Fits(c: Option<Child>, keys: set<ChildKey>, r: nat)
  {
    c.Some? ==> Rank(c.value.KindOf()) == r && c.value.Key() in keys
  }

  function KindSet(c: Option<Child>): set<Kind>
  {
    if c.Some? then {c.value.KindOf()} else {}
  }

  /** `c`, when present, is stored under its key in `children`. */
  ghost predicate Holds(children: map<ChildKey, Child>, c: Option<Child>)
  {
    c.Some? ==> c.value.Key() in children && children[c.value.Key()] == c.value
  }

  /** The children of rank 0 (the claim) in `children`, as they are in `before`. */
  ghost predicate ClaimsKept(before: map<ChildKey, Child>, children: map<ChildKey, Child>)
  {
    forall k :: k in before && k.kind == PvcKind ==> k in children && children[k] == before[k]
  }

  lemma RestPhase(w: World, p: Step, dep: Option<Child>, svc: Option<Child>, ing: Option<Child>, o: Oracle, keys: set<ChildKey>)
    requires p.err.None? ==> PhaseSoFar(w, p.world, keys, 1)
    requires Fits(dep, keys, 1) && Fits(svc, keys, 2) && Fits(ing, keys, 3)
    ensures var s := ApplyRest(p, dep, svc, ing, o);
      var ws := Issued(w, s.world);
      (p.err.Some? ==> s == p)
      && (p.err.None? ==>
            s.world.instances == w.instances && Extends(w, s.world)
            && ChildrenFramed(w, s.world, keys) && ChildWritesInOrder(ws)
            && StopsAtFirstFailure(ws, s.err)
            && (s.err.None? ==>
                  WrittenKinds(ws) == WrittenKinds(Issued(w, p.world)) + KindSet(dep) + KindSet(svc) + KindSet(ing)))
  {
    if p.err.Some? {
      return;
    }
    var d := ApplyStep(p.world, dep, o.applyDeployment);
    ApplyInPhase(w, p.world, keys, dep, o.applyDeployment, 1);
    if d.err.Some? {
      return;
    }
    var v := ApplyStep(d.world, svc, o.applyService);
    ApplyInPhase(w, d.world, keys, svc, o.applyService, 2);
    if v.err.Some? {
      return;
    }
    ApplyInPhase(w, v.world, keys, ing, o.applyIngress, 3);
  }

  /** A clean run of the three applies leaves each built child stored under
      its key, and the claims as the claim step left them. */
  lemma RestStores(p: Step, dep: Option<Child>, svc: Option<Child>, ing: Option<Child>, o: Oracle)
    requires dep.Some? ==> Rank(dep.value.KindOf()) == 1
    requires svc.Some? ==> Rank(svc.value.KindOf()) == 2
    requires ing.Some? ==> Rank(ing.value.KindOf()) == 3
    ensures var s := ApplyRest(p, dep, svc, ing, o);
      p.err.None? && s.err.None? ==>
        Holds(s.world.children, dep) && Holds(s.world.children, svc) && Holds(s.world.children, ing)
        && ClaimsKept(p.world.children, s.world.children)
  {
    if p.err.Some? {
      return;
    }
    var d := ApplyStep(p.world, dep, o.applyDeployment);
    if d.err.Some? {
      return;
    }
    var v := ApplyStep(d.world, svc, o.applyService);
    if v.err.Some? {
      return;
    }
    var g := ApplyStep(v.world, ing, o.applyIngress);
    assert ApplyRest(p, dep, svc, ing, o) == g;
  }

  /** The children phase writes in the fixed order, stops at the first
      failure, and, when nothing fails, creates the claim iff it was missing
      and applies every child whose builder yielded one. */
  lemma ChildrenPhase(w: World, inst: SparkHistory, scheme: Scheme, o: Oracle)
    requires !PvcDerefsNil(w, inst, scheme, o.getPvc)
    ensures var s := ReconcileChildren(w, inst, scheme, o);
      var ws := Issued(w, s.world);
      ChildrenFramed(w, s.world, OwnedKeys(inst))
      && ChildWritesInOrder(ws)
      && StopsAtFirstFailure(ws, s.err)
      // an error with no write behind it is the claim's failed Get
      && (|ws| == 0 && s.err.Some? ==> o.getPvc.Some? && s.err == Some(Failure(o.getPvc.value)))
      && (s.err.None? ==> forall k :: k in WrittenKinds(ws) <==> Expected(w, inst, scheme, o, k))
      // a clean phase leaves every built child stored under its key
      && (s.err.None? ==>
            Holds(s.world.children, DeploymentFor(inst, scheme))
            && Holds(s.world.children, ServiceFor(inst, scheme))
            && Holds(s.world.children, IngressFor(inst, scheme))
            && (PvcMissing(w, inst, o) ==>
                  PvcKey(inst) in s.world.children
                  && s.world.children[PvcKey(inst)] == ClaimChild(MakePVC(inst, scheme).value)))
  {
    var keys := OwnedKeys(inst);
    var p := ReconcilePvcStep(w, inst, scheme, o);
    PvcInPhase(w, inst, scheme, o);
    var dep, svc, ing := DeploymentFor(inst, scheme), ServiceFor(inst, scheme), IngressFor(inst, scheme);
    RestPhase(w, p, dep, svc, ing, o, keys);
    RestStores(p, dep, svc, ing, o);
    var s := ApplyRest(p, dep, svc, ing, o);
    if s.err.None? {
      KindsMatch(WrittenKinds(Issued(w, s.world)), PvcMissing(w, inst, o), scheme.ownerRefFailures);
    }
  }

  // ---------------------------------------------------------------------------
  // The pass
  // ---------------------------------------------------------------------------

  /** The pass gets as far as the children. */
  ghost predicate ReachesChildren(w: World, req: ObjectKey, o: Oracle)
  {
    o.getInstance.None? && req in w.instances && PreCheck(w.instances[req].status).None?
  }

  /** The one execution the model leaves out: reconcilePVC's nil dereference. */
  ghost predicate DerefsNil(w: World, req: ObjectKey, scheme: Scheme, o: Oracle)
  {
    ReachesChildren(w, req, o) && PvcDerefsNil(w, w.instances[req], scheme, o.getPvc)
  }

  /** A status write, if any, is the single last write and follows only
      successful child writes. */
  ghost predicate StatusWrittenLast(ws: seq<Write>)
  {
    forall i :: 0 <= i < |ws| && ws[i].StatusUpdateCall? ==>
      i == |ws| - 1 && forall j :: 0 <= j < i ==> ws[j].err.None?
  }

  /** After a clean children phase: list the pods and run the post-check. */
  function ObservePods(w: World, sh: SparkHistory, o: Oracle): (out: Outcome)
    requires WellKeyed(w) && |sh.status.conditions| > 0
    ensures WellKeyed(out.world) && Extends(w, out.world) && out.result == Done
    ensures out.world.children == w.children
    // a failed List is returned, and the status is not written
    ensures o.listPods.Err? ==> out == Outcome(w, Done, Some(o.listPods.error))
    // pod names equal to the stored nodes: nothing is written
    ensures o.listPods.Ok? && PodNames(o.listPods.value) == sh.status.nodes ==> out == Outcome(w, Done, None)
  {
    match o.listPods
    case Err(e) => Outcome(w, Done, Some(e))
    case Ok(pods) =>
      match PostCheck(sh.status, PodNames(pods))
      case None => Outcome(w, Done, None)
      case Some(st) =>
        var u := UpdateStatusStep(w, sh.(status := st), o.updateStatus);
        Outcome(u.world, Done, u.err)
  }

  /** When the pod names differ from the stored nodes: one status write that
      stores them with the condition True. */
  lemma ObserveChanged(w: World, sh: SparkHistory, o: Oracle)
    requires WellKeyed(w) && |sh.status.conditions| > 0 && sh.Key() in w.instances
    requires o.listPods.Ok? && PodNames(o.listPods.value) != sh.status.nodes
    ensures var out := ObservePods(w, sh, o);
      var names := PodNames(o.listPods.value);
      out.err == o.updateStatus
      && out.world.writes == w.writes + [StatusUpdateCall(sh.Key(), o.updateStatus)]
      && out.world.instances ==
           if o.updateStatus.None?
           then w.instances[sh.Key() := w.instances[sh.Key()].(status := WithHealth(sh.status.(nodes := names), ConditionTrue))]
           else w.instances
  {
    var st := PostCheck(sh.status, PodNames(o.listPods.value)).value;
    var u := UpdateStatusStep(w, sh.(status := st), o.updateStatus);
    assert ObservePods(w, sh, o) == Outcome(u.world, Done, u.err);
  }

  function Pass(w: World, req: ObjectKey, scheme: Scheme, o: Oracle): (out: Outcome)
    requires WellKeyed(w)
    requires !DerefsNil(w, req, scheme, o)
    ensures WellKeyed(out.world) && Extends(w, out.world)
    // a failed Get other than not-found is returned with an empty Result; nothing is written
    ensures o.getInstance.Some? ==> out == Outcome(w, Done, Some(Failure(o.getInstance.value)))
    // a deleted instance ends the pass quietly
    ensures o.getInstance.None? && req !in w.instances ==> out == Outcome(w, Done, None)
    // only a successful pre-check write asks for a requeue
    ensures out.result == Requeue <==>
      o.getInstance.None? && req in w.instances && PreCheck(w.instances[req].status).Some?
      && o.updateStatus.None?
    // an error always comes with an empty Result
    ensures out.err.Some? ==> out.result == Done
  {
    match FetchInstance(w, req, o.getInstance)
    case Err(e) =>
      if e == NotFound then Outcome(w, Done, None) else Outcome(w, Done, Some(e))
    case Ok(sh) =>
      match PreCheck(sh.status)
      case Some(st) =>
        var u := UpdateStatusStep(w, sh.(status := st), o.updateStatus);
        if u.err.Some? then Outcome(u.world, Done, u.err) else Outcome(u.world, Requeue, None)
      case None =>
        var c := ReconcileChildren(w, sh, scheme, o);
        if c.err.Some? then Outcome(c.world, Done, c.err)
        else
          ObservePods(c.world, sh, o)
  }

  // ---------------------------------------------------------------------------
  // What a pass does, phase by phase
  // ---------------------------------------------------------------------------

  /** The log without a trailing status write. */
  ghost function ChildLog(ws: seq<Write>): seq<Write>
  {
    if |ws| > 0 && ws[|ws| - 1].StatusUpdateCall? then ws[..|ws| - 1] else ws
  }

  /** A pre-check that fires writes the status once and does nothing else:
      no child is touched, no pod is listed. */
  lemma PassPreCheck(w: World, req: ObjectKey, scheme: Scheme, o: Oracle)
    requires WellKeyed(w) && !DerefsNil(w, req, scheme, o)
    requires o.getInstance.None? && req in w.instances && PreCheck(w.instances[req].status).Some?
    ensures var out := Pass(w, req, scheme, o);
      var st := PreCheck(w.instances[req].status).value;
      out.world.children == w.children
      && Issued(w, out.world) == [StatusUpdateCall(req, o.updateStatus)]
      && out.err == o.updateStatus
      && out.world.instances ==
           if o.updateStatus.None? then w.instances[req := w.instances[req].(status := st)] else w.instances
  {
    var sh := w.instances[req];
    var st := PreCheck(sh.status).value;
    var u := UpdateStatusStep(w, sh.(status := st), o.updateStatus);
    ExtendsByOne(w, u.world, StatusUpdateCall(req, u.err));
  }

  /** A child that fails ends the pass with its error: the children written
      before it were written in order and succeeded, and neither the pods
      nor the status are touched. */
  lemma PassChildFails(w: World, req: ObjectKey, scheme: Scheme, o: Oracle)
    requires WellKeyed(w) && !DerefsNil(w, req, scheme, o) && ReachesChildren(w, req, o)
    requires ReconcileChildren(w, w.instances[req], scheme, o).err.Some?
    ensures var out := Pass(w, req, scheme, o);
      var ws := Issued(w, out.world);
      out.result == Done && out.err.Some?
      && out.world.instances == w.instances
      && ChildrenFramed(w, out.world, OwnedKeys(w.instances[req]))
      && ChildWritesInOrder(ws) && StopsAtFirstFailure(ws, out.err)
  {
    var c := ReconcileChildren(w, w.instances[req], scheme, o);
    ChildrenPhase(w, w.instances[req], scheme, o);
    assert Pass(w, req, scheme, o) == Outcome(c.world, Done, c.err);
  }

  /** A failed pod List is returned after a clean children phase, and the
      status is not written. */
  lemma PassListFails(w: World, req: ObjectKey, scheme: Scheme, o: Oracle)
    requires WellKeyed(w) && !DerefsNil(w, req, scheme, o) && ReachesChildren(w, req, o)
    requires ReconcileChildren(w, w.instances[req], scheme, o).err.None? && o.listPods.Err?
    ensures var out := Pass(w, req, scheme, o);
      var ws := Issued(w, out.world);
      out == Outcome(out.world, Done, Some(o.listPods.error))
      && out.world.instances == w.instances
      && ChildrenFramed(w, out.world, OwnedKeys(w.instances[req]))
      && ChildWritesInOrder(ws) && (forall i :: 0 <= i < |ws| ==> ws[i].err.None?)
      && (forall k :: k in WrittenKinds(ws) <==> Expected(w, w.instances[req], scheme, o, k))
  {
    var c := ReconcileChildren(w, w.instances[req], scheme, o);
    ChildrenPhase(w, w.instances[req], scheme, o);
    assert Pass(w, req, scheme, o) == Outcome(c.world, Done, Some(o.listPods.error));
  }

  /** A status write appended after a clean children log. */
  lemma StatusAfterChildren(w: World, c: World, u: World, x: Write, keys: set<ChildKey>)
    requires Extends(w, c) && u.writes == c.writes + [x] && x.StatusUpdateCall?
    requires ChildrenFramed(w, c, keys) && u.children == c.children
    ensures var ws := Issued(w, u);
      Extends(w, u) && ws == Issued(w, c) + [x] && ChildLog(ws) == Issued(w, c)
      && ChildrenFramed(w, u, keys)
  {
    ExtendsByOne(c, u, x);
    ExtendsTrans(w, c, u);
    var ws := Issued(w, u);
    assert ws[..|ws| - 1] == Issued(w, c);
  }

  /** The post-check after a clean children phase, when the pod names equal
      the stored nodes: no status write, an empty Result and no error. */
  lemma PassSettled(w: World, req: ObjectKey, scheme: Scheme, o: Oracle)
    requires WellKeyed(w) && !DerefsNil(w, req, scheme, o) && ReachesChildren(w, req, o)
    requires ReconcileChildren(w, w.instances[req], scheme, o).err.None? && o.listPods.Ok?
    requires PodNames(o.listPods.value) == w.instances[req].status.nodes
    ensures var out := Pass(w, req, scheme, o);
      var ws := Issued(w, out.world);
      out.result == Done && out.err.None?
      && out.world.instances == w.instances
      && ChildrenFramed(w, out.world, OwnedKeys(w.instances[req]))
      && ChildWritesInOrder(ws) && (forall i :: 0 <= i < |ws| ==> ws[i].err.None?)
      && (forall k :: k in WrittenKinds(ws) <==> Expected(w, w.instances[req], scheme, o, k))
  {
    var c := ReconcileChildren(w, w.instances[req], scheme, o);
    ChildrenPhase(w, w.instances[req], scheme, o);
    assert Pass(w, req, scheme, o) == ObservePods(c.world, w.instances[req], o);
  }

  /** The post-check after a clean children phase, when the pod names differ
      from the stored nodes: one status write, after the child writes, that
      stores the names with the condition True; an empty Result and that
      write's error. */
  lemma PassNodesChanged(w: World, req: ObjectKey, scheme: Scheme, o: Oracle)
    requires WellKeyed(w) && !DerefsNil(w, req, scheme, o) && ReachesChildren(w, req, o)
    requires ReconcileChildren(w, w.instances[req], scheme, o).err.None? && o.listPods.Ok?
    requires PodNames(o.listPods.value) != w.instances[req].status.nodes
    ensures var out := Pass(w, req, scheme, o);
      var inst := w.instances[req];
      var names := PodNames(o.listPods.value);
      var ws := Issued(w, out.world);
      var cs := ChildLog(ws);
      out.result == Done && out.err == o.updateStatus
      && ws == cs + [StatusUpdateCall(req, o.updateStatus)]
      && ChildrenFramed(w, out.world, OwnedKeys(inst))
      && ChildWritesInOrder(cs) && (forall i :: 0 <= i < |cs| ==> cs[i].err.None?)
      && (forall k :: k in WrittenKinds(cs) <==> Expected(w, inst, scheme, o, k))
      && out.world.instances ==
           if o.updateStatus.None?
           then w.instances[req := inst.(status := WithHealth(inst.status.(nodes := names), ConditionTrue))]
           else w.instances
  {
    var inst := w.instances[req];
    var c := ReconcileChildren(w, inst, scheme, o);
    ChildrenPhase(w, inst, scheme, o);
    var out := ObservePods(c.world, inst, o);
    assert Pass(w, req, scheme, o) == out;
    ObserveChanged(c.world, inst, o);
    StatusAfterChildren(w, c.world, out.world, StatusUpdateCall(req, o.updateStatus), OwnedKeys(inst));
  }

  /** Whatever path a pass takes, only the requested instance's status and
      that instance's own children may change. */
  lemma PassFrame(w: World, req: ObjectKey, scheme: Scheme, o: Oracle)
    requires WellKeyed(w) && !DerefsNil(w, req, scheme, o)
    ensures var out := Pass(w, req, scheme, o);
      out.world.instances.Keys == w.instances.Keys
      && (forall k :: k in w.instances && k != req ==> out.world.instances[k] == w.instances[k])
      && (req in w.instances ==>
            out.world.instances[req] == w.instances[req].(status := out.world.instances[req].status)
            && ChildrenFramed(w, out.world, OwnedKeys(w.instances[req])))
      && (!ReachesChildren(w, req, o) ==> out.world.children == w.children)
  {
    if o.getInstance.Some? || req !in w.instances {
      return;
    }
    var inst := w.instances[req];
    if PreCheck(inst.status).Some? {
      PassPreCheck(w, req, scheme, o);
      return;
    }
    var c := ReconcileChildren(w, inst, scheme, o);
    if c.err.Some? {
      PassChildFails(w, req, scheme, o);
    } else if o.listPods.Err? {
      PassListFails(w, req, scheme, o);
    } else if PodNames(o.listPods.value) == inst.status.nodes {
      PassSettled(w, req, scheme, o);
    } else {
      PassNodesChanged(w, req, scheme, o);
    }
  }

  /** A log of child writes only has no status write to misplace. */
  lemma NoStatusWrite(ws: seq<Write>, req: ObjectKey)
    requires ChildWritesInOrder(ws)
    ensures StatusWrittenLast(ws)
    ensures forall i :: 0 <= i < |ws| && ws[i].StatusUpdateCall? ==> ws[i].target == req
  {
  }

  /** One status write for `req` after successful child writes. */
  lemma StatusWriteLast(cs: seq<Write>, req: ObjectKey, err: Option<ApiError>)
    requires ChildWritesInOrder(cs) && forall i :: 0 <= i < |cs| ==> cs[i].err.None?
    ensures var ws := cs + [StatusUpdateCall(req, err)];
      StatusWrittenLast(ws)
      && forall i :: 0 <= i < |ws| && ws[i].StatusUpdateCall? ==> ws[i].target == req
  {
    var ws := cs + [StatusUpdateCall(req, err)];
    assert forall i :: 0 <= i < |cs| ==> ws[i] == cs[i];
  }

  /** Whatever path a pass takes, a status write targets the request and
      comes last, after successful writes only. */
  lemma PassLog(w: World, req: ObjectKey, scheme: Scheme, o: Oracle)
    requires WellKeyed(w) && !DerefsNil(w, req, scheme, o)
    ensures var ws := Issued(w, Pass(w, req, scheme, o).world);
      StatusWrittenLast(ws)
      && (forall i :: 0 <= i < |ws| && ws[i].StatusUpdateCall? ==> ws[i].target == req)
  {
    var ws := Issued(w, Pass(w, req, scheme, o).world);
    if o.getInstance.Some? || req !in w.instances {
      assert ws == [];
      return;
    }
    var inst := w.instances[req];
    if PreCheck(inst.status).Some? {
      PassPreCheck(w, req, scheme, o);
      StatusWriteLast([], req, o.updateStatus);
      assert ws == [] + [StatusUpdateCall(req, o.updateStatus)];
      return;
    }
    var c := ReconcileChildren(w, inst, scheme, o);
    if c.err.Some? {
      PassChildFails(w, req, scheme, o);
      NoStatusWrite(ws, req);
    } else if o.listPods.Err? {
      PassListFails(w, req, scheme, o);
      NoStatusWrite(ws, req);
    } else if PodNames(o.listPods.value) == inst.status.nodes {
      PassSettled(w, req, scheme, o);
      NoStatusWrite(ws, req);
    } else {
      PassNodesChanged(w, req, scheme, o);
      StatusWriteLast(ChildLog(ws), req, o.updateStatus);
    }
  }

  /** The conditions list grows only from empty to the one initial
      condition, and otherwise only the status of condition 0 changes. A
      True found at entry is reset to False with the nodes kept; True is
      stored only together with freshly listed pod names that differ from
      the stored nodes. */
  lemma PassConditions(w: World, req: ObjectKey, scheme: Scheme, o: Oracle)
    requires WellKeyed(w) && !DerefsNil(w, req, scheme, o) && req in w.instances
    ensures var before := w.instances[req].status;
      var after := Pass(w, req, scheme, o).world.instances[req].status;
      (|before.conditions| == 0 ==> after == before || after == InitialStatus)
      && (|before.conditions| > 0 ==>
            |after.conditions| == |before.conditions|
            && after.conditions[0].conditionType == before.conditions[0].conditionType
            && (forall i :: 1 <= i < |before.conditions| ==> after.conditions[i] == before.conditions[i]))
      && (|before.conditions| > 0 && before.conditions[0].status == ConditionTrue ==>
            after == before || after == WithHealth(before, ConditionFalse))
      && (|after.conditions| > 0 && after.conditions[0].status == ConditionTrue
          && (|before.conditions| == 0 || before.conditions[0].status != ConditionTrue) ==>
            o.listPods.Ok? && after.nodes == PodNames(o.listPods.value) && after.nodes != before.nodes)
      && (after.nodes != before.nodes ==>
            (|before.conditions| == 0 && after.nodes == Some([]))
            || (o.listPods.Ok? && after.nodes == PodNames(o.listPods.value)))
  {
    PassFrame(w, req, scheme, o);
    if o.getInstance.Some? {
      return;
    }
    var inst := w.instances[req];
    if PreCheck(inst.status).Some? {
      PassPreCheck(w, req, scheme, o);
      return;
    }
    var c := ReconcileChildren(w, inst, scheme, o);
    if c.err.Some? {
      PassChildFails(w, req, scheme, o);
    } else if o.listPods.Err? {
      PassListFails(w, req, scheme, o);
    } else if PodNames(o.listPods.value) == inst.status.nodes {
      PassSettled(w, req, scheme, o);
    } else {
      PassNodesChanged(w, req, scheme, o);
    }
  }
}
