/** The API server as the reconciler sees it: a store of SparkHistory
    resources and of child resources, plus a log of every write the
    reconciler issues. Each call's failure is injected: the `Oracle` of a
    reconcile pass says, per call site, whether the call fails and with what
    error. Whether a fetched object is found is decided by the store itself. */
module Store {
  import opened Api

  /** A write request as issued, with the error it returned (None on success). */
  datatype Write =
    | CreateCall(key: ChildKey, err: Option<ApiError>)
    | CreateOrUpdateCall(key: ChildKey, err: Option<ApiError>)
    | StatusUpdateCall(target: ObjectKey, err: Option<ApiError>)

  datatype World = World(
    instances: map<ObjectKey, SparkHistory>,
    children: map<ChildKey, Child>,
    writes: seq<Write>)

  /** The API server files each resource under its own namespace and name. */
  ghost predicate WellKeyed(w: World)
  {
    forall k :: k in w.instances ==> w.instances[k].Key() == k
  }

  /** The state after a call, and the error the call returned. */
  datatype Step = Step(world: World, err: Option<ApiError>)

  /** `after` keeps the log of `before` and appends to it. */
  ghost predicate Extends(before: World, after: World)
  {
    |before.writes| <= |after.writes| && after.writes[..|before.writes|] == before.writes
  }

  /** The writes appended to the log between two states. */
  ghost function Issued(before: World, after: World): seq<Write>
  {
    if |before.writes| <= |after.writes| then after.writes[|before.writes|..] else []
  }

  /** Children outside `keys` are as they were, and none appeared outside `keys`. */
  ghost predicate ChildrenFramed(before: World, after: World, keys: set<ChildKey>)
  {
    (forall k :: k in before.children && k !in keys ==>
       k in after.children && after.children[k] == before.children[k])
    && after.children.Keys <= before.children.Keys + keys
  }

  lemma ExtendsByOne(w: World, w': World, x: Write)
    requires w'.writes == w.writes + [x]
    ensures Extends(w, w') && Issued(w, w') == [x]
  {
  }

  lemma ExtendsTrans(a: World, b: World, c: World)
    requires Extends(a, b) && Extends(b, c)
    ensures Extends(a, c)
    ensures Issued(a, c) == Issued(a, b) + Issued(b, c)
  {
    assert c.writes[..|a.writes|] == c.writes[..|b.writes|][..|a.writes|];
    assert c.writes[|a.writes|..] == c.writes[|a.writes|..|b.writes|] + c.writes[|b.writes|..];
  }

  lemma FramedTrans(a: World, b: World, c: World, k1: set<ChildKey>, k2: set<ChildKey>, k: set<ChildKey>)
    requires ChildrenFramed(a, b, k1) && ChildrenFramed(b, c, k2) && k1 + k2 <= k
    ensures ChildrenFramed(a, c, k)
  {
  }

  /** Injected outcomes for one reconcile pass, one per call site. A fetch
      fault is a failure other than not-found; not-found follows from the
      store. `listPods` is what listing the pods returns. */
  datatype Oracle = Oracle(
    getInstance: Option<string>,
    getPvc: Option<string>,
    createPvc: Option<ApiError>,
    applyDeployment: Option<ApiError>,
    applyService: Option<ApiError>,
    applyIngress: Option<ApiError>,
    updateStatus: Option<ApiError>,
    listPods: Result<seq<Pod>>)

  /** Get of a SparkHistory resource. */
  function FetchInstance(w: World, key: ObjectKey, fault: Option<string>): (r: Result<SparkHistory>)
    ensures r.Ok? <==> fault.None? && key in w.instances
    ensures r.Ok? ==> r.value == w.instances[key]
    ensures r == Err(NotFound) <==> fault.None? && key !in w.instances
  {
    if fault.Some? then Err(Failure(fault.value))
    else if key in w.instances then Ok(w.instances[key])
    else Err(NotFound)
  }

  /** Get of a child, reduced to its error: None when the child was found. */
  function ProbeChild(w: World, key: ChildKey, fault: Option<string>): (err: Option<ApiError>)
    ensures err.None? <==> fault.None? && key in w.children
    ensures err == Some(NotFound) <==> fault.None? && key !in w.children
  {
    if fault.Some? then Some(Failure(fault.value))
    else if key in w.children then None
    else Some(NotFound)
  }

  /** The error a create of `obj` returns. */
  function CreateError(w: World, obj: Child, fault: Option<ApiError>): Option<ApiError>
  {
    if fault.Some? then fault
    else if obj.Key() in w.children then Some(AlreadyExists)
    else None
  }

  /** Create: stores `obj` under its own key unless the call fails or the key is taken. */
  function CreateStep(w: World, obj: Child, fault: Option<ApiError>): (s: Step)
    ensures s.world.instances == w.instances
    ensures s.world.writes == w.writes + [CreateCall(obj.Key(), s.err)]
    ensures ChildrenFramed(w, s.world, {obj.Key()})
    ensures s.err.None? <==> fault.None? && obj.Key() !in w.children
    ensures s.err.Some? ==> s.world.children == w.children
    ensures s.err.None? ==> s.world.children == w.children[obj.Key() := obj]
  {
    var err := CreateError(w, obj, fault);
    var children := if err.None? then w.children[obj.Key() := obj] else w.children;
    Step(World(w.instances, children, w.writes + [CreateCall(obj.Key(), err)]), err)
  }

  /** CreateOrUpdate: on success the store holds `obj` under its key, whether
      it was there before or not; on failure nothing changes. */
  function CreateOrUpdateStep(w: World, obj: Child, fault: Option<ApiError>): (s: Step)
    ensures s.world.instances == w.instances
    ensures s.err == fault
    ensures s.world.writes == w.writes + [CreateOrUpdateCall(obj.Key(), fault)]
    ensures ChildrenFramed(w, s.world, {obj.Key()})
    ensures fault.Some? ==> s.world.children == w.children
    ensures fault.None? ==> s.world.children == w.children[obj.Key() := obj]
  {
    var children := if fault.None? then w.children[obj.Key() := obj] else w.children;
    Step(World(w.instances, children, w.writes + [CreateOrUpdateCall(obj.Key(), fault)]), fault)
  }

  /** The error a status update of `inst` returns. */
  function UpdateStatusError(w: World, inst: SparkHistory, fault: Option<ApiError>): Option<ApiError>
  {
    if fault.Some? then fault
    else if inst.Key() !in w.instances then Some(NotFound)
    else None
  }

  /** Status().Update: replaces the stored status of `inst`, and nothing else. */
  function UpdateStatusStep(w: World, inst: SparkHistory, fault: Option<ApiError>): (s: Step)
    ensures s.world.children == w.children
    ensures s.world.writes == w.writes + [StatusUpdateCall(inst.Key(), s.err)]
    ensures s.err.None? <==> fault.None? && inst.Key() in w.instances
    ensures s.err.Some? ==> s.world.instances == w.instances
    ensures s.err.None? ==>
      s.world.instances == w.instances[inst.Key() := w.instances[inst.Key()].(status := inst.status)]
  {
    var err := UpdateStatusError(w, inst, fault);
    var instances :=
      if err.None? then w.instances[inst.Key() := w.instances[inst.Key()].(status := inst.status)]
      else w.instances;
    Step(World(instances, w.children, w.writes + [StatusUpdateCall(inst.Key(), err)]), err)
  }

  /** The client the reconciler holds: the store's state lives in its fields
      and every call updates them in place. */
  class Client {
    var instances: map<ObjectKey, SparkHistory>
    var children: map<ChildKey, Child>
    var writes: seq<Write>

    function State(): World
      reads this
    {
      World(instances, children, writes)
    }

    ghost predicate Valid()
      reads this
    {
      WellKeyed(State())
    }

    constructor (instances: map<ObjectKey, SparkHistory>, children: map<ChildKey, Child>)
      requires WellKeyed(World(instances, children, []))
      ensures Valid()
      ensures State() == World(instances, children, [])
    {
      this.instances := instances;
      this.children := children;
      this.writes := [];
    }

    method Get(key: ObjectKey, fault: Option<string>) returns (r: Result<SparkHistory>)
      ensures r == FetchInstance(State(), key, fault)
    {
      if fault.Some? {
        r := Err(Failure(fault.value));
      } else if key in instances {
        r := Ok(instances[key]);
      } else {
        r := Err(NotFound);
      }
    }

    method GetChild(key: ChildKey, fault: Option<string>) returns (err: Option<ApiError>)
      ensures err == ProbeChild(State(), key, fault)
    {
      if fault.Some? {
        err := Some(Failure(fault.value));
      } else if key in children {
        err := None;
      } else {
        err := Some(NotFound);
      }
    }

    method Create(obj: Child, fault: Option<ApiError>) returns (err: Option<ApiError>)
      requires Valid()
      modifies this
      ensures Valid()
      ensures Step(State(), err) == CreateStep(old(State()), obj, fault)
    {
      var key := obj.Key();
      if fault.Some? {
        err := fault;
      } else if key in children {
        err := Some(AlreadyExists);
      } else {
        err := None;
        children := children[key := obj];
      }
      writes := writes + [CreateCall(key, err)];
    }

    method CreateOrUpdate(obj: Child, fault: Option<ApiError>) returns (err: Option<ApiError>)
      requires Valid()
      modifies this
      ensures Valid()
      ensures Step(State(), err) == CreateOrUpdateStep(old(State()), obj, fault)
    {
      err := fault;
      if err.None? {
        children := children[obj.Key() := obj];
      }
      writes := writes + [CreateOrUpdateCall(obj.Key(), err)];
    }

    method UpdateStatus(inst: SparkHistory, fault: Option<ApiError>) returns (err: Option<ApiError>)
      requires Valid()
      modifies this
      ensures Valid()
      ensures Step(State(), err) == UpdateStatusStep(old(State()), inst, fault)
    {
      var key := inst.Key();
      if fault.Some? {
        err := fault;
      } else if key !in instances {
        err := Some(NotFound);
      } else {
        err := None;
        instances := instances[key := instances[key].(status := inst.status)];
      }
      writes := writes + [StatusUpdateCall(key, err)];
    }
  }
}
