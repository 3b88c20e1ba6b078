/** SparkHistoryReconciler as the operator runs it: a client whose store
    changes under each call, and the methods of handler.go and
    sparkhistory_controller.go issuing those calls one after another with
    early returns. Each method is proved to compute the matching function of
    modules Handler and Controller, whose properties are proved there. */
module Reconciler {
  import opened Api
  import opened Store
  import opened Handler
  import opened Controller

  class SparkHistoryReconciler {
    const client: Client
    const scheme: Scheme

    constructor (client: Client, scheme: Scheme)
      ensures this.client == client && this.scheme == scheme
    {
      this.client := client;
      this.scheme := scheme;
    }

    /** reconcilePVC: Get the claim; create it only when the Get reports
        not-found; any other Get error is returned. */
    method ReconcilePVC(inst: SparkHistory, o: Oracle) returns (err: Option<ApiError>)
      requires client.Valid() && !PvcDerefsNil(client.State(), inst, scheme, o.getPvc)
      modifies client
      ensures client.Valid()
      ensures Step(client.State(), err) == ReconcilePvcStep(old(client.State()), inst, scheme, o)
    {
      err := client.GetChild(PvcKey(inst), o.getPvc);
      if err == Some(NotFound) {
        var pvc := MakePVC(inst, scheme);
        err := client.Create(ClaimChild(pvc.value), o.createPvc);
      }
    }

    /** reconcileDeployment: nothing when the builder gave nil, else one CreateOrUpdate. */
    method ReconcileDeployment(inst: SparkHistory, fault: Option<ApiError>) returns (err: Option<ApiError>)
      requires client.Valid()
      modifies client
      ensures client.Valid()
      ensures Step(client.State(), err) == ApplyStep(old(client.State()), DeploymentFor(inst, scheme), fault)
    {
      var obj := MakeDeployment(inst, scheme);
      if obj.None? {
        return None;
      }
      err := client.CreateOrUpdate(DeploymentChild(obj.value), fault);
    }

    /** reconcileService: nothing when the builder gave nil, else one CreateOrUpdate. */
    method ReconcileService(inst: SparkHistory, fault: Option<ApiError>) returns (err: Option<ApiError>)
      requires client.Valid()
      modifies client
      ensures client.Valid()
      ensures Step(client.State(), err) == ApplyStep(old(client.State()), ServiceFor(inst, scheme), fault)
    {
      var obj := MakeService(inst, scheme);
      if obj.None? {
        return None;
      }
      err := client.CreateOrUpdate(ServiceChild(obj.value), fault);
    }

    /** reconcileIngress: nothing when the builder gave nil, else one CreateOrUpdate. */
    method ReconcileIngress(inst: SparkHistory, fault: Option<ApiError>) returns (err: Option<ApiError>)
      requires client.Valid()
      modifies client
      ensures client.Valid()
      ensures Step(client.State(), err) == ApplyStep(old(client.State()), IngressFor(inst, scheme), fault)
    {
      var obj := MakeIngress(inst, scheme);
      if obj.None? {
        return None;
      }
      err := client.CreateOrUpdate(IngressChild(obj.value), fault);
    }

    /** getPodNames: append each pod's name to a slice that starts nil. */
    method GetPodNames(pods: seq<Pod>) returns (names: Option<seq<string>>)
      ensures names == PodNames(pods)
      ensures names.None? <==> |pods| == 0
      ensures names.Some? ==>
        |names.value| == |pods| && forall i :: 0 <= i < |pods| ==> names.value[i] == pods[i].name
    {
      names := None;
      for i := 0 to |pods|
        invariant names == PodNames(pods[..i])
      {
        assert pods[..i + 1][..i] == pods[..i];
        names := Some(AppendName(names, pods[i].name));
      }
      assert pods[..|pods|] == pods;
    }

    /** Reconcile: one pass for the resource named by `req`. The fetched
        resource `sh` is the local copy whose status the pass edits before
        writing it back. */
    method Reconcile(req: ObjectKey, o: Oracle) returns (res: CtrlResult, err: Option<ApiError>)
      requires client.Valid() && !DerefsNil(client.State(), req, scheme, o)
      modifies client
      ensures client.Valid()
      ensures Outcome(client.State(), res, err) == Pass(old(client.State()), req, scheme, o)
    {
      var fetched := client.Get(req, o.getInstance);
      if fetched.Err? {
        if fetched.error != NotFound {
          return Done, Some(fetched.error);
        }
        return Done, None;
      }
      var sh := fetched.value;

      if |sh.status.conditions| == 0 {
        sh := sh.(status := sh.status.(nodes := Some([])));
        sh := sh.(status := sh.status.(conditions := sh.status.conditions + [ComponentCondition(ComponentHealthy, ConditionFalse)]));
        assert sh.status.conditions == [ComponentCondition(ComponentHealthy, ConditionFalse)];
        err := client.UpdateStatus(sh, o.updateStatus);
        if err.Some? {
          return Done, err;
        }
        return Requeue, None;
      } else if sh.status.conditions[0].status == ConditionTrue {
        sh := sh.(status := sh.status.(conditions := sh.status.conditions[0 := sh.status.conditions[0].(status := ConditionFalse)]));
        err := client.UpdateStatus(sh, o.updateStatus);
        if err.Some? {
          return Done, err;
        }
        return Requeue, None;
      }

      // the children, in order; the first error ends the pass
      err := ReconcilePVC(sh, o);
      if err.Some? {
        return Done, err;
      }
      err := ReconcileDeployment(sh, o.applyDeployment);
      if err.Some? {
        return Done, err;
      }
      err := ReconcileService(sh, o.applyService);
      if err.Some? {
        return Done, err;
      }
      err := ReconcileIngress(sh, o.applyIngress);
      if err.Some? {
        return Done, err;
      }

      if o.listPods.Err? {
        return Done, Some(o.listPods.error);
      }
      var podNames := GetPodNames(o.listPods.value);

      if podNames != sh.status.nodes {
        sh := sh.(status := sh.status.(nodes := podNames));
        sh := sh.(status := sh.status.(conditions := sh.status.conditions[0 := sh.status.conditions[0].(status := ConditionTrue)]));
        err := client.UpdateStatus(sh, o.updateStatus);
        if err.Some? {
          return Done, err;
        }
      }
      return Done, None;
    }
  }
}
