/** The child side of reconciliation (internal/controller/handler.go): four
    builders that derive a child resource from a SparkHistory resource and
    stamp it with a controller reference, and the specifications of the four
    per-child reconcile steps, the claim create-only and the others
    create-or-update. */
module Handler {
  import opened Api
  import opened Store

  // ---------------------------------------------------------------------------
  // Owner references
  // ---------------------------------------------------------------------------

  /** The runtime scheme, reduced to what matters here: the kinds of child on
      which setting the controller reference fails. */
  datatype Scheme = Scheme(ownerRefFailures: set<Kind>)

  function ControllerRef(owner: SparkHistory): OwnerReference
  {
    OwnerReference("stack.zncdata.net/v1alpha1", "SparkHistory", owner.name, owner.uid, true, true)
  }

  /** SetControllerReference on a freshly built child: either the child's
      metadata with the owner's controller reference appended, or failure. */
  function SetControllerReference(owner: SparkHistory, kind: Kind, meta: ObjectMeta, scheme: Scheme): (r: Option<ObjectMeta>)
    ensures r.None? <==> kind in scheme.ownerRefFailures
    ensures r.Some? ==> r.value == meta.(ownerReferences := meta.ownerReferences + [ControllerRef(owner)])
  {
    if kind in scheme.ownerRefFailures then None
    else Some(meta.(ownerReferences := meta.ownerReferences + [ControllerRef(owner)]))
  }

  /** Metadata as every builder writes it: the given name, the owner's
      namespace and labels, and exactly one owner reference, the owner's
      controller reference. */
  ghost predicate OwnedMeta(m: ObjectMeta, owner: SparkHistory, name: string)
  {
    m.name == name && m.namespace == owner.namespace && m.labels == owner.labels
    && m.ownerReferences == [ControllerRef(owner)]
  }

  // ---------------------------------------------------------------------------
  // Builders
  // ---------------------------------------------------------------------------

  function MakePVC(inst: SparkHistory, scheme: Scheme): (r: Option<PersistentVolumeClaim>)
    ensures r.None? <==> PvcKind in scheme.ownerRefFailures
    ensures r.Some? ==>
      var c := r.value;
      OwnedMeta(c.meta, inst, inst.accessors.pvcName)
      && c.storageClassName == inst.spec.persistence.storageClass
      && c.accessModes == inst.spec.persistence.accessModes
      && c.volumeMode == inst.spec.persistence.volumeMode
      && c.requests == map["storage" := inst.accessors.storageSize]
  {
    var pvc := PersistentVolumeClaim(
      ObjectMeta(inst.accessors.pvcName, inst.namespace, inst.labels, map[], []),
      inst.spec.persistence.storageClass,
      inst.spec.persistence.accessModes,
      map["storage" := inst.accessors.storageSize],
      inst.spec.persistence.volumeMode);
    match SetControllerReference(inst, PvcKind, pvc.meta, scheme)
    case None => None
    case Some(m) => Some(pvc.(meta := m))
  }

  function MakeIngress(inst: SparkHistory, scheme: Scheme): (r: Option<Ingress>)
    ensures r.None? <==> IngressKind in scheme.ownerRefFailures
    ensures r.Some? ==>
      var ing := r.value;
      OwnedMeta(ing.meta, inst, inst.name) && ing.meta.annotations == map[]
      && |ing.rules| == 1
      && ing.rules[0].host == inst.spec.ingress.host
      && ing.rules[0].paths
         == [HttpIngressPath("/", "Prefix", ServiceBackend(inst.name, inst.spec.service.port))]
  {
    var ing := Ingress(
      ObjectMeta(inst.name, inst.namespace, inst.labels, map[], []),
      [IngressRule(
        inst.spec.ingress.host,
        [HttpIngressPath("/", "Prefix", ServiceBackend(inst.name, inst.spec.service.port))])]);
    match SetControllerReference(inst, IngressKind, ing.meta, scheme)
    case None => None
    case Some(m) => Some(ing.(meta := m))
  }

  function MakeService(inst: SparkHistory, scheme: Scheme): (r: Option<Service>)
    ensures r.None? <==> ServiceKind in scheme.ownerRefFailures
    ensures r.Some? ==>
      var svc := r.value;
      OwnedMeta(svc.meta, inst, inst.name)
      && svc.meta.annotations == inst.spec.service.annotations
      && svc.selector == svc.meta.labels == inst.labels
      && svc.ports == [ServicePort(inst.spec.service.port, "http", "TCP")]
      && svc.serviceType == inst.accessors.serviceType
  {
    var svc := Service(
      ObjectMeta(inst.name, inst.namespace, inst.labels, inst.spec.service.annotations, []),
      [ServicePort(inst.spec.service.port, "http", "TCP")],
      inst.labels,
      inst.accessors.serviceType);
    match SetControllerReference(inst, ServiceKind, svc.meta, scheme)
    case None => None
    case Some(m) => Some(svc.(meta := m))
  }

  /** The one container of the history server's pod. */
  function HistoryServerContainer(inst: SparkHistory): Container
  {
    Container(
      inst.name,
      inst.accessors.imageTag,
      inst.accessors.imagePullPolicy,
      ["/opt/bitnami/spark/sbin/start-history-server.sh"],
      map["cpu" := LimitOf(inst.spec.resource.limits, "cpu"),
          "memory" := LimitOf(inst.spec.resource.limits, "memory")],
      [ContainerPort(18080, "http", "TCP")],
      [VolumeMount(inst.accessors.dataVolumeName, "/tmp/spark-events")])
  }

  function MakeDeployment(inst: SparkHistory, scheme: Scheme): (r: Option<Deployment>)
    ensures r.None? <==> DeploymentKind in scheme.ownerRefFailures
    ensures r.Some? ==>
      var dep := r.value;
      OwnedMeta(dep.meta, inst, inst.name)
      && dep.replicas == inst.spec.replicas
      && dep.matchLabels == dep.template.labels == inst.labels
      && dep.template.tolerations == inst.spec.tolerations
      && |dep.template.containers| == 1
      && dep.template.containers[0].name == inst.name
      && dep.template.containers[0].image == inst.accessors.imageTag
      && dep.template.containers[0].imagePullPolicy == inst.accessors.imagePullPolicy
      && dep.template.containers[0].args == ["/opt/bitnami/spark/sbin/start-history-server.sh"]
      // a limit the spec leaves out reads as the zero quantity
      && dep.template.containers[0].limits
         == map["cpu" := LimitOf(inst.spec.resource.limits, "cpu"),
                "memory" := LimitOf(inst.spec.resource.limits, "memory")]
      && dep.template.containers[0].ports == [ContainerPort(18080, "http", "TCP")]
      && dep.template.containers[0].volumeMounts
         == [VolumeMount(inst.accessors.dataVolumeName, "/tmp/spark-events")]
      && dep.template.volumes == [Volume(inst.accessors.dataVolumeName, inst.accessors.pvcName)]
  {
    var dep := Deployment(
      ObjectMeta(inst.name, inst.namespace, inst.labels, map[], []),
      inst.spec.replicas,
      inst.labels,
      PodTemplate(
        inst.labels,
        [HistoryServerContainer(inst)],
        inst.spec.tolerations,
        [Volume(inst.accessors.dataVolumeName, inst.accessors.pvcName)]));
    match SetControllerReference(inst, DeploymentKind, dep.meta, scheme)
    case None => None
    case Some(m) => Some(dep.(meta := m))
  }

  // ---------------------------------------------------------------------------
  // How the children fit together
  // ---------------------------------------------------------------------------

  /** The deployment's pod mounts, under the volume's own name, the volume
      backed by the very claim the claim builder names. */
  lemma DeploymentMountsTheClaim(inst: SparkHistory, scheme: Scheme)
    requires MakeDeployment(inst, scheme).Some? && MakePVC(inst, scheme).Some?
    ensures var dep := MakeDeployment(inst, scheme).value;
      var pvc := MakePVC(inst, scheme).value;
      |dep.template.volumes| == 1 && |dep.template.containers| == 1
      && dep.template.volumes[0].claimName == pvc.meta.name
      && dep.template.containers[0].volumeMounts[0].name == dep.template.volumes[0].name
      && pvc.meta.namespace == dep.meta.namespace
  {
  }

  /** The service selects exactly the deployment's pods, and the ingress
      routes to that service on the service's own port. */
  lemma IngressServiceDeploymentAgree(inst: SparkHistory, scheme: Scheme)
    requires MakeDeployment(inst, scheme).Some?
    requires MakeService(inst, scheme).Some?
    requires MakeIngress(inst, scheme).Some?
    ensures var dep := MakeDeployment(inst, scheme).value;
      var svc := MakeService(inst, scheme).value;
      var ing := MakeIngress(inst, scheme).value;
      svc.selector == dep.template.labels == dep.matchLabels
      && ing.rules[0].paths[0].backend.name == svc.meta.name
      && ing.rules[0].paths[0].backend.port == svc.ports[0].port
      && svc.meta.namespace == dep.meta.namespace == ing.meta.namespace
  {
  }

  // ---------------------------------------------------------------------------
  // Child keys and the children as store entries
  // ---------------------------------------------------------------------------

  function PvcKey(inst: SparkHistory): ChildKey
  {
    ChildKey(PvcKind, inst.namespace, inst.accessors.pvcName)
  }

  /** The keys under which the children of `inst` are stored. */
  function OwnedKeys(inst: SparkHistory): (keys: set<ChildKey>)
    ensures PvcKey(inst) in keys
  {
    {PvcKey(inst),
     ChildKey(DeploymentKind, inst.namespace, inst.name),
     ChildKey(ServiceKind, inst.namespace, inst.name),
     ChildKey(IngressKind, inst.namespace, inst.name)}
  }

  function DeploymentFor(inst: SparkHistory, scheme: Scheme): (c: Option<Child>)
    ensures c.Some? ==> c.value.KindOf() == DeploymentKind && c.value.Key() in OwnedKeys(inst)
    ensures c.None? <==> DeploymentKind in scheme.ownerRefFailures
  {
    match MakeDeployment(inst, scheme)
    case None => None
    case Some(d) => Some(DeploymentChild(d))
  }

  function ServiceFor(inst: SparkHistory, scheme: Scheme): (c: Option<Child>)
    ensures c.Some? ==> c.value.KindOf() == ServiceKind && c.value.Key() in OwnedKeys(inst)
    ensures c.None? <==> ServiceKind in scheme.ownerRefFailures
  {
    match MakeService(inst, scheme)
    case None => None
    case Some(s) => Some(ServiceChild(s))
  }

  function IngressFor(inst: SparkHistory, scheme: Scheme): (c: Option<Child>)
    ensures c.Some? ==> c.value.KindOf() == IngressKind && c.value.Key() in OwnedKeys(inst)
    ensures c.None? <==> IngressKind in scheme.ownerRefFailures
  {
    match MakeIngress(inst, scheme)
    case None => None
    case Some(i) => Some(IngressChild(i))
  }

  // ---------------------------------------------------------------------------
  // The per-child reconcile steps
  // ---------------------------------------------------------------------------

  /** reconcilePVC builds the claim only when the Get reports not-found, and
      then uses it without a nil check: if stamping failed too, it
      dereferences nil. */
  ghost predicate PvcDerefsNil(w: World, inst: SparkHistory, scheme: Scheme, getFault: Option<string>)
  {
    getFault.None? && PvcKey(inst) !in w.children && PvcKind in scheme.ownerRefFailures
  }

  /** The claim's Get succeeded and reported not-found. */
  ghost predicate PvcMissing(w: World, inst: SparkHistory, o: Oracle)
  {
    o.getPvc.None? && PvcKey(inst) !in w.children
  }

  /** reconcilePVC: create-only. */
  function ReconcilePvcStep(w: World, inst: SparkHistory, scheme: Scheme, o: Oracle): (s: Step)
    requires !PvcDerefsNil(w, inst, scheme, o.getPvc)
    ensures s.world.instances == w.instances
    // an existing child, the claim included, is never replaced
    ensures forall k :: k in w.children ==> k in s.world.children && s.world.children[k] == w.children[k]
    ensures ChildrenFramed(w, s.world, {PvcKey(inst)})
    // at most one write: a Create of the claim, exactly when its Get reported not-found
    ensures Extends(w, s.world)
    ensures Issued(w, s.world) == if PvcMissing(w, inst, o) then [CreateCall(PvcKey(inst), o.createPvc)] else []
    // a failed Get (other than not-found) is returned unchanged
    ensures o.getPvc.Some? ==> s == Step(w, Some(Failure(o.getPvc.value)))
    // a claim that exists is left alone, and that is no error
    ensures o.getPvc.None? && PvcKey(inst) in w.children ==> s == Step(w, None)
    // a failed Create leaves the children as they were
    ensures PvcMissing(w, inst, o) && o.createPvc.Some? ==> s.world.children == w.children
    // a missing claim: the Create's error is returned unchanged
    ensures PvcMissing(w, inst, o) ==>
      s.err == o.createPvc
      && (o.createPvc.None? ==> s.world.children == w.children[PvcKey(inst) := ClaimChild(MakePVC(inst, scheme).value)])
  {
    var err := ProbeChild(w, PvcKey(inst), o.getPvc);
    if err == Some(NotFound) then
      var pvc := MakePVC(inst, scheme).value;
      var s := CreateStep(w, ClaimChild(pvc), o.createPvc);
      ExtendsByOne(w, s.world, CreateCall(PvcKey(inst), o.createPvc));
      s
    else
      Step(w, err)
  }

  /** reconcileDeployment, reconcileService and reconcileIngress share this
      shape: nothing to do when the builder gave no object; otherwise one
      CreateOrUpdate whose error is returned unchanged. */
  function ApplyStep(w: World, obj: Option<Child>, fault: Option<ApiError>): (s: Step)
    ensures s.world.instances == w.instances
    ensures obj.None? ==> s == Step(w, None)
    ensures obj.Some? ==> s.err == fault
    // one CreateOrUpdate of the object, and no other write
    ensures Extends(w, s.world)
    ensures Issued(w, s.world) == if obj.Some? then [CreateOrUpdateCall(obj.value.Key(), fault)] else []
    ensures ChildrenFramed(w, s.world, if obj.Some? then {obj.value.Key()} else {})
    // a failed CreateOrUpdate leaves the children as they were
    ensures obj.Some? && fault.Some? ==> s.world.children == w.children
    ensures obj.Some? && fault.None? ==>
      obj.value.Key() in s.world.children && s.world.children[obj.value.Key()] == obj.value
  {
    match obj
    case None => Step(w, None)
    case Some(c) =>
      var s := CreateOrUpdateStep(w, c, fault);
      ExtendsByOne(w, s.world, CreateOrUpdateCall(c.Key(), fault));
      s
  }
}
