/** The data the reconciler works on: the SparkHistory custom resource (its
    spec, status and metadata), the four kinds of child resource it derives
    from it, and the keys under which the API server stores them. Only the
    fields the reconciler reads or writes are kept. */
module Api {

  datatype Option<+T> = None | Some(value: T)

  /** What a fetch from the API server returns. */
  datatype Result<+T> = Ok(value: T) | Err(error: ApiError)

  /** Errors of the API server: the distinguished not-found class, the
      already-exists answer to a create, and every other failure. */
  datatype ApiError = NotFound | AlreadyExists | Failure(reason: string)

  type Labels = map<string, string>

  /** A resource quantity, kept as its canonical text; no arithmetic is done on it. */
  datatype Quantity = Quantity(text: string)

  /** The value a missing key of a resource list reads as. */
  const ZeroQuantity := Quantity("0")

  function LimitOf(limits: map<string, Quantity>, resource: string): Quantity
  {
    if resource in limits then limits[resource] else ZeroQuantity
  }

  datatype Toleration = Toleration(key: string, operator: string, value: string, effect: string)

  // ---------------------------------------------------------------------------
  // The SparkHistory resource
  // ---------------------------------------------------------------------------

  datatype PersistenceSpec = PersistenceSpec(
    storageClass: Option<string>,
    accessModes: seq<string>,
    volumeMode: Option<string>)

  datatype ServiceSpec = ServiceSpec(port: int, annotations: map<string, string>)

  datatype IngressSpec = IngressSpec(host: string)

  datatype ResourceSpec = ResourceSpec(limits: map<string, Quantity>)

  datatype SparkHistorySpec = SparkHistorySpec(
    replicas: int,
    persistence: PersistenceSpec,
    service: ServiceSpec,
    ingress: IngressSpec,
    resource: ResourceSpec,
    tolerations: seq<Toleration>)

  /** The values of the API type's helper methods (GetPvcName,
      Persistence.GetSize, GetImageTag, GetImagePullPolicy, GetServiceType and
      GetNameWithSuffix("-data")). Their definitions are not part of this
      model: each is some fixed function of the resource, so the resource
      carries its values. */
  datatype Accessors = Accessors(
    pvcName: string,
    storageSize: Quantity,
    imageTag: string,
    imagePullPolicy: string,
    serviceType: string,
    dataVolumeName: string)

  datatype ConditionStatus = ConditionTrue | ConditionFalse | ConditionUnknown

  datatype ComponentCondition = ComponentCondition(conditionType: string, status: ConditionStatus)

  const ComponentHealthy := "Healthy"

  /** The status sub-document. `nodes` distinguishes a nil slice (None) from
      an empty one (Some([])), because the reconciler compares it with a
      structural equality that tells the two apart. */
  datatype SparkHistoryStatus = SparkHistoryStatus(
    nodes: Option<seq<string>>,
    conditions: seq<ComponentCondition>)

  /** Namespace and name: the identity of a reconcile request. */
  datatype ObjectKey = ObjectKey(namespace: string, name: string)

  datatype SparkHistory = SparkHistory(
    name: string,
    namespace: string,
    uid: string,
    labels: Labels,
    spec: SparkHistorySpec,
    status: SparkHistoryStatus,
    accessors: Accessors)
  {
    function Key(): ObjectKey { ObjectKey(namespace, name) }
  }

  datatype Pod = Pod(name: string)

  // ---------------------------------------------------------------------------
  // Child resources
  // ---------------------------------------------------------------------------

  /** The back-reference a child carries to the resource that controls it. */
  datatype OwnerReference = OwnerReference(
    apiVersion: string,
    kind: string,
    name: string,
    uid: string,
    controller: bool,
    blockOwnerDeletion: bool)

  datatype ObjectMeta = ObjectMeta(
    name: string,
    namespace: string,
    labels: Labels,
    annotations: map<string, string>,
    ownerReferences: seq<OwnerReference>)

  datatype PersistentVolumeClaim = PersistentVolumeClaim(
    meta: ObjectMeta,
    storageClassName: Option<string>,
    accessModes: seq<string>,
    requests: map<string, Quantity>,
    volumeMode: Option<string>)

  datatype ContainerPort = ContainerPort(containerPort: int, name: string, protocol: string)

  datatype VolumeMount = VolumeMount(name: string, mountPath: string)

  datatype Container = Container(
    name: string,
    image: string,
    imagePullPolicy: string,
    args: seq<string>,
    limits: map<string, Quantity>,
    ports: seq<ContainerPort>,
    volumeMounts: seq<VolumeMount>)

  /** A pod volume backed by a persistent volume claim. */
  datatype Volume = Volume(name: string, claimName: string)

  datatype PodTemplate = PodTemplate(
    labels: Labels,
    containers: seq<Container>,
    tolerations: seq<Toleration>,
    volumes: seq<Volume>)

  datatype Deployment = Deployment(
    meta: ObjectMeta,
    replicas: int,
    matchLabels: Labels,
    template: PodTemplate)

  datatype ServicePort = ServicePort(port: int, name: string, protocol: string)

  datatype Service = Service(
    meta: ObjectMeta,
    ports: seq<ServicePort>,
    selector: Labels,
    serviceType: string)

  datatype ServiceBackend = ServiceBackend(name: string, port: int)

  datatype HttpIngressPath = HttpIngressPath(path: string, pathType: string, backend: ServiceBackend)

  datatype IngressRule = IngressRule(host: string, paths: seq<HttpIngressPath>)

  datatype Ingress = Ingress(meta: ObjectMeta, rules: seq<IngressRule>)

  datatype Kind = PvcKind | DeploymentKind | ServiceKind | IngressKind

  /** Where a child lives in the store. */
  datatype ChildKey = ChildKey(kind: Kind, namespace: string, name: string)

  datatype Child =
    | ClaimChild(pvc: PersistentVolumeClaim)
    | DeploymentChild(deployment: Deployment)
    | ServiceChild(service: Service)
    | IngressChild(ingress: Ingress)
  {
    function Meta(): ObjectMeta
    {
      match this
      case ClaimChild(c) => c.meta
      case DeploymentChild(d) => d.meta
      case ServiceChild(s) => s.meta
      case IngressChild(i) => i.meta
    }

    function KindOf(): Kind
    {
      match this
      case ClaimChild(_) => PvcKind
      case DeploymentChild(_) => DeploymentKind
      case ServiceChild(_) => ServiceKind
      case IngressChild(_) => IngressKind
    }

    /** A create or update addresses the object by its own kind, namespace and name. */
    function Key(): ChildKey
    {
      ChildKey(KindOf(), Meta().namespace, Meta().name)
    }
  }
}
