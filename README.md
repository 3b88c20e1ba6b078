# Spark History operator: the reconcile core in Dafny

This project models the reconcile loop of the Spark History operator, a Kubernetes operator. For each `SparkHistory` resource it maintains four child resources:

- a PersistentVolumeClaim that holds the event logs;
- a Deployment that runs the history server;
- a Service in front of it;
- an Ingress to the Service.

It also keeps a small status state machine: the observed pod names and one `Healthy` condition.

The model covers two source files:

- `internal/controller/handler.go`: the four builders (`makePVC`, `makeDeployment`, `makeService`, `makeIngress`) and the four per-child reconcilers (`reconcilePVC`, `reconcileDeployment`, `reconcileService`, `reconcileIngress`).
- `internal/controller/sparkhistory_controller.go`: `Reconcile` and `getPodNames`.

Modules, one per file:

- `Api` (api.dfy) holds the resource types. That includes the custom resource's spec, status and metadata, the four child kinds, and the keys under which the API server stores them. Status nodes are an `Option<seq<string>>` so that a nil slice (None) differs from an empty one (`Some([])`), as Go's `reflect.DeepEqual` tells them apart.
- `Store` (store.dfy) is the API server the reconciler talks to.
  - The store is a `World` value: the SparkHistory resources, the children, and a log of every write issued together with the error it returned.
  - Each call is a pure function on it (`FetchInstance`, `ProbeChild`, `CreateStep`, `CreateOrUpdateStep`, `UpdateStatusStep`).
  - A `Client` class holds the same state in fields that each call updates in place.
  - Whether a call fails is injected per call site by an `Oracle`. Whether a Get finds its object follows from the store.
- `Handler` (handler.dfy) holds the builders, the controller-reference stamp, and the two per-child step specifications:
  - `ReconcilePvcStep` is create-only.
  - `ApplyStep` is create-or-update and is shared by the other three children.
  - Setting the controller reference fails exactly for the kinds the `Scheme` lists.
- `Controller` (controller.dfy) holds the reconcile pass as a function of the store (`Pass`), the status pre-check and post-check, `PodNames`, and the lemmas on what one pass does, phase by phase.
- `Reconciler` (reconciler.dfy) is the `SparkHistoryReconciler` class. Its methods issue the calls one after another on the client with early returns, as the Go code does. Each method is proved to compute the matching function of `Handler` or `Controller`.
- `Convergence` (convergence.dfy) covers repeated passes when every call succeeds:
  - A pass steps an independent status machine (`NextStatus`).
  - Three passes settle any status.
  - A settled resource is left alone.
  - A second children phase writes nothing new.

Three behaviours of the code that the model keeps:

- **Pod-name comparison.** The post-check compares pod names with `reflect.DeepEqual` (internal/controller/sparkhistory_controller.go:119). That comparison is order-sensitive and tells nil from empty, so the model compares sequences, not sets.
- **First sight.** A resource seen for the first time gets the nodes `[]` and the single condition `Healthy` = `False` (internal/controller/sparkhistory_controller.go:69-80).
- **PVC stamping failure.** A failed controller-reference stamp on the PVC is not skipped: `reconcilePVC` dereferences the nil claim. See "Left out".

## Model

| member | source | states |
|---|---|---|
| Store.FetchInstance | internal/controller/sparkhistory_controller.go:58-65 | Get of the resource is Ok with the stored value iff no fault and the key is stored; it is NotFound iff no fault and the key is absent. |
| Store.ProbeChild | internal/controller/handler.go:51-52 | Get of the claim succeeds iff no fault and the key is stored; it is NotFound iff no fault and the key is absent. |
| Store.CreateStep | internal/controller/handler.go:56 | Create succeeds iff no fault and the key is free. It then stores the object under its key and nothing else. The one write is logged. Instances are untouched. |
| Store.CreateOrUpdateStep | internal/controller/handler.go:120 | CreateOrUpdate returns the injected error. On success the object is stored under its key, whether or not it was there. On failure nothing changes. The one write is logged. |
| Store.UpdateStatusStep | internal/controller/sparkhistory_controller.go:75 | Status().Update succeeds iff no fault and the resource exists. It replaces only that resource's status, leaves the children alone, and logs the one write. |
| Store.Client.Get | internal/controller/sparkhistory_controller.go:58 | The client's Get returns what `FetchInstance` gives on its current state. |
| Store.Client.GetChild | internal/controller/handler.go:52 | The client's Get of a child returns what `ProbeChild` gives on its current state. |
| Store.Client.Create | internal/controller/handler.go:56 | The client's fields change exactly as `CreateStep` says, and the returned error is its error. |
| Store.Client.CreateOrUpdate | internal/controller/handler.go:244 | The client's fields change exactly as `CreateOrUpdateStep` says. |
| Store.Client.UpdateStatus | internal/controller/sparkhistory_controller.go:123 | The client's fields change exactly as `UpdateStatusStep` says. |
| Handler.SetControllerReference | internal/controller/handler.go:41-46 | Stamping fails exactly for the scheme's failing kinds. Otherwise it appends the owner's controller reference (group version, kind, name, uid, controller, block-owner-deletion). |
| Handler.MakePVC | internal/controller/handler.go:21-47 | Nil iff stamping fails. Otherwise the claim has the PVC name, the owner's namespace and labels, the owner reference alone, the storage class, access modes and volume mode copied from the persistence spec, and exactly one request, storage := the configured size. |
| Handler.MakeIngress | internal/controller/handler.go:67-111 | Nil iff stamping fails. Otherwise there is one rule with the spec's host and a single path "/" of type Prefix to the backend named after the resource, on the service port. |
| Handler.MakeService | internal/controller/handler.go:127-153 | Nil iff stamping fails. Otherwise the selector equals the metadata labels, which equal the resource's labels. The annotations come from the spec. There is exactly one port, "http"/TCP, with the spec's number, and the service type comes from the resource. |
| Handler.MakeDeployment | internal/controller/handler.go:169-236 | Nil iff stamping fails. Otherwise: the replicas come from the spec; MatchLabels equals the template labels, which equal the resource's labels; the tolerations are copied. There is one container with the resource's name, image tag, pull policy, the start script, cpu/memory limits (a missing one reads as zero) and port 18080. The data volume is mounted at /tmp/spark-events and backed by the PVC name. |
| Handler.DeploymentMountsTheClaim | internal/controller/handler.go:208-224 | The deployment mounts, under the volume's own name, a volume whose claim is the claim the PVC builder names, in the same namespace. |
| Handler.IngressServiceDeploymentAgree | internal/controller/handler.go:88-95 | The service selects exactly the deployment's pod labels. The ingress backend names the service and uses its port. All three share the namespace. |
| Handler.DeploymentFor | internal/controller/handler.go:240-243 | The deployment as a store entry, of its own kind and under one of the resource's four keys. There is none iff stamping fails. |
| Handler.ServiceFor | internal/controller/handler.go:157-160 | The service as a store entry, of its own kind and under one of the resource's keys. There is none iff stamping fails. |
| Handler.IngressFor | internal/controller/handler.go:115-118 | The ingress as a store entry, of its own kind and under one of the resource's keys. There is none iff stamping fails. |
| Handler.ReconcilePvcStep | internal/controller/handler.go:49-65 | Create-only: no existing child is ever replaced and only the claim's key may change. A failed Get is returned unchanged with no write. A found claim means no write and no error. A not-found claim means exactly one Create of the built claim, whose error is returned unchanged; a failed Create leaves the children as they were. |
| Handler.ApplyStep | internal/controller/handler.go:113-125 | With no built object, no write and no error. Otherwise exactly one CreateOrUpdate of the object, whose error is returned unchanged; on success the object is stored, and on failure the children are left as they were. This is the shared shape of reconcileIngress, reconcileService (155-167) and reconcileDeployment (238-249). |
| Controller.PodNames | internal/controller/sparkhistory_controller.go:134-140 | Nil iff there are no pods. Otherwise the names keep the pods' length and order: the i-th name is the i-th pod's name. |
| Controller.WithHealth | internal/controller/sparkhistory_controller.go:81-82 | Only condition 0's status is replaced. The nodes, the length and the other conditions are kept. |
| Controller.PreCheck | internal/controller/sparkhistory_controller.go:69-88 | The pass goes on iff there is a condition and condition 0 is not True. An empty list becomes exactly nodes [] and [Healthy=False]. A True becomes False with everything else kept. |
| Controller.PostCheck | internal/controller/sparkhistory_controller.go:117-128 | Writes iff the pod names differ from the stored nodes, compared order-sensitively with nil unlike empty. The written status has those names and condition 0 True. |
| Controller.ApplyRest | internal/controller/sparkhistory_controller.go:96-109 | The deployment, service and ingress steps after the claim leave the resources untouched and only append to the log. |
| Controller.ReconcileChildren | internal/controller/sparkhistory_controller.go:91-109 | The children phase leaves the SparkHistory resources untouched and only appends to the log. |
| Controller.PvcInPhase | internal/controller/handler.go:49-65 | The claim step writes at most one Create, of the claim, exactly when it was missing. An error without a write is the failed Get. |
| Controller.RestPhase | internal/controller/sparkhistory_controller.go:96-109 | After a clean claim step, the remaining writes are child writes in the fixed order. All but the last succeeded, and the last one's error is the phase's error. When clean, exactly the built children are written. |
| Controller.RestStores | internal/controller/sparkhistory_controller.go:96-109 | When the deployment, service and ingress steps all succeed after a clean claim step, each built child is stored under its key and the claims are kept as they were. |
| Controller.ChildrenPhase | internal/controller/sparkhistory_controller.go:91-109 | PVC → Deployment → Service → Ingress, strictly in that order, with only the resource's own four keys touched. The pass stops at the first failure and returns that error. When clean, the claim is written iff it was missing and each other child iff its builder yielded one, and each built child (the claim too, when it was missing) is then stored under its key. |
| Controller.ObservePods | internal/controller/sparkhistory_controller.go:111-130 | After the children, a failed List is returned with no status write. Pod names equal to the stored nodes give no write and no error. The Result is always empty. |
| Controller.ObserveChanged | internal/controller/sparkhistory_controller.go:119-128 | Differing pod names give exactly one status write, storing the names with condition 0 True and returning that write's error. |
| Controller.Pass | internal/controller/sparkhistory_controller.go:52-132 | A non-not-found fetch error is returned with no write. A deleted resource ends quietly. Requeue happens iff the pre-check fired and its write succeeded. An error always comes with an empty Result. |
| Controller.PassPreCheck | internal/controller/sparkhistory_controller.go:69-88 | When the pre-check fires: exactly one status write, of the pre-check's status, with its error returned. Children are untouched, so no child is reconciled and no pod is listed. |
| Controller.PassChildFails | internal/controller/sparkhistory_controller.go:91-109 | A failing child ends the pass with its error and an empty Result. Only ordered child writes precede it and all of them succeeded. There is no status write and the status is unchanged. |
| Controller.PassListFails | internal/controller/sparkhistory_controller.go:111-115 | A failed List is returned with an empty Result and no status write, after a clean children phase. |
| Controller.PassSettled | internal/controller/sparkhistory_controller.go:117-130 | Pod names equal to the stored nodes give no status write, an empty Result and no error. |
| Controller.PassNodesChanged | internal/controller/sparkhistory_controller.go:117-130 | Differing pod names give one status write after the child writes. It stores the names with condition 0 True, and the pass returns an empty Result with that write's error. |
| Controller.PassFrame | internal/controller/sparkhistory_controller.go:52-132 | Whatever path a pass takes, only the requested resource's status and that resource's own children change. Children are untouched unless the pass gets past the pre-check. |
| Controller.PassLog | internal/controller/sparkhistory_controller.go:52-132 | A status write targets the request and is the last write of the pass, after successful writes only. |
| Controller.PassConditions | internal/controller/sparkhistory_controller.go:69-128 | The conditions list grows only from empty to the one initial condition; otherwise only condition 0's status changes. A True at entry ends as False with the nodes kept, or unchanged. True is stored only together with freshly listed pod names that differ from the stored nodes. Nodes change only to [] on first sight or to the listed names. |
| Reconciler.SparkHistoryReconciler.ReconcilePVC | internal/controller/handler.go:49-65 | The imperative reconcilePVC changes the client exactly as `ReconcilePvcStep` says. |
| Reconciler.SparkHistoryReconciler.ReconcileDeployment | internal/controller/handler.go:238-249 | The imperative reconcileDeployment changes the client exactly as `ApplyStep` does on the built deployment. |
| Reconciler.SparkHistoryReconciler.ReconcileService | internal/controller/handler.go:155-167 | The imperative reconcileService changes the client exactly as `ApplyStep` does on the built service. |
| Reconciler.SparkHistoryReconciler.ReconcileIngress | internal/controller/handler.go:113-125 | The imperative reconcileIngress changes the client exactly as `ApplyStep` does on the built ingress. |
| Reconciler.SparkHistoryReconciler.GetPodNames | internal/controller/sparkhistory_controller.go:134-140 | The loop appending to a nil slice yields `PodNames`: nil iff there are no pods, with the length and order kept. |
| Reconciler.SparkHistoryReconciler.Reconcile | internal/controller/sparkhistory_controller.go:52-132 | The imperative Reconcile leaves the client in the state `Pass` gives and returns its Result and error. Everything proved of `Pass` therefore holds of it. |
| Convergence.SettledIsFixed | internal/controller/sparkhistory_controller.go:69-128 | A status is a fixed point of the status machine iff condition 0 exists, is not True, and the nodes equal the pod names. |
| Convergence.SettlesWithinThree | internal/controller/sparkhistory_controller.go:69-128 | From any status, three steps of the machine reach a settled status. |
| Convergence.StaysSettled | internal/controller/sparkhistory_controller.go:117-130 | A settled status is kept by any number of further steps. |
| Convergence.ZeroPodsFlipOnce | internal/controller/sparkhistory_controller.go:134-140 | With no pods the names are nil. In the model, where a written status is read back as written, that nil differs from the [] stored on first sight, so the condition flips to True once. |
| Convergence.CalmChildren | internal/controller/sparkhistory_controller.go:91-109 | When every call succeeds and the claim can be stamped, the children phase returns no error. |
| Convergence.CalmPass | internal/controller/sparkhistory_controller.go:52-132 | When every call succeeds, a pass stores exactly `NextStatus` of the resource's status, returns no error, and requeues iff the pre-check fired. |
| Convergence.ConvergesWithinThree | internal/controller/sparkhistory_controller.go:69-128 | Three consecutive calm passes leave the status settled: condition not True, nodes equal to the pod names. |
| Convergence.QuietWhenSettled | internal/controller/sparkhistory_controller.go:117-130 | On a settled resource a calm pass is Done with no error, no status write and no resource change. |
| Convergence.CalmRestStores | internal/controller/sparkhistory_controller.go:96-109 | When every call succeeds, the deployment, service and ingress steps store each built child and keep the claims. |
| Convergence.CalmChildrenIdempotent | internal/controller/handler.go:49-65 | A second calm children phase finds the claim, so it is not created again, and leaves every child as the first phase left it. |

## Left out

- SetupWithManager and the kubebuilder RBAC markers (internal/controller/sparkhistory_controller.go:40-48, 143-147) are manager wiring and annotations, not logic.
- Logging through `log.FromContext` has no effect on behaviour.
- The Kubernetes client and API server are modelled by the `Store` module. Get, Create, CreateOrUpdate, Status().Update and List either succeed or fail with an injected error.
  - Label-selector matching is not modelled: List returns the injected pod list.
  - Optimistic concurrency (resource versions, conflicts) is not modelled.
- Store.UpdateStatusStep: the store keeps a status exactly as written. The JSON round trip through the API server is not modelled, so whether an empty `Nodes` list reads back as empty or as nil is not captured (that depends on the field's json tag in api/v1alpha1, which is not part of this model). Convergence.ZeroPodsFlipOnce holds of the model under this reading.
- Store.CreateOrUpdateStep: the body of `CreateOrUpdate` is not part of this model. A successful call is taken to leave exactly the built object under its key, with no merge of fields the server fills in.
- `ctrl.SetControllerReference` and the runtime scheme are a foreign library. The library fails on the owner's side (the owner's type is not registered in the scheme, or the namespaces do not validate), so within one pass it fails for all four builders or for none. The model instead lets the scheme name any set of failing child kinds; this is a deliberate over-approximation that includes both real cases, so every property proved for it holds for them too. The reference it appends is modelled; its other checks are not.
- The helper methods of the API type (`GetPvcName`, `Persistence.GetSize`, `GetImageTag`, `GetImagePullPolicy`, `GetServiceType`, `GetNameWithSuffix("-data")`) are not part of this model. Their values are carried by the resource as data (`Accessors`).
- Resource quantities are kept as text, with no arithmetic and no parsing. A missing cpu or memory limit reads as the zero quantity.
- Kubernetes resource types keep only the fields the builders set.
- Handler.ReconcilePvcStep: `reconcilePVC` uses the claim without a nil check. If the PVC stamp fails while the claim is missing, the Go code dereferences nil (internal/controller/handler.go:54-56). Every member that reaches it requires `!PvcDerefsNil` / `!DerefsNil`, which exclude exactly that execution; the panic itself is not modelled.
- Controller.Pass: `ctrl.Result` is reduced to its `Requeue` flag; `RequeueAfter` is never set by this code. The context, its cancellation, and concurrency across resources belong to the runtime.
- Convergence.ConvergesWithinThree: stated for three given consecutive passes under a fault-free oracle and a fixed pod list. Runs with failures or with pods changing between passes are not covered.
