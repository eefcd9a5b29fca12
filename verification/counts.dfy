/** The external commands the readiness check consults, treated as oracles. */
module Commands {
  import opened Cib

  /** The outcome of `crm_resource -r <name> --meta -g <attribute>`: the attribute's
      value as `int()` reads it, or the exit status of the failed command. */
  datatype Lookup = MetaValue(value: int) | MetaError(code: int)

  /** Exit status with which `crm_resource` reports that the meta attribute is not set. */
  const AttributeNotSet: int := 6

  /** What the cluster answers.
      - `meta(name, attribute)`: the meta-attribute lookup above;
      - `roleCount(name)`: `pcs property | grep -c <name>-role=true`;
      - `nodeCount`: `crm_node -l | wc -l`;
      - `status(i)`: the document of the `i`-th `crm_mon -r --as-xml` call of a run;
        every call re-reads the cluster, so successive calls may differ. */
  datatype Cluster = Cluster(
    meta: (string, string) -> Lookup,
    roleCount: string -> nat,
    nodeCount: nat,
    status: nat -> Element)
}

/** The expected and current instance counts of each resource kind. */
module Counts {
  import opened Results
  import opened Cib
  import opened Commands
  import opened Classifier

  /** `master_resource_expected_count`: the `master-max` meta attribute, 1 when it is
      not set, and the lookup's failure otherwise. */
  function MasterExpectedCount(name: string, cluster: Cluster): (r: Result<int>)
    ensures cluster.meta(name, "master-max").MetaValue? ==> r == Ok(cluster.meta(name, "master-max").value)
    ensures cluster.meta(name, "master-max") == MetaError(AttributeNotSet) ==> r == Ok(1)
    ensures r.Err? <==> cluster.meta(name, "master-max").MetaError? && cluster.meta(name, "master-max").code != AttributeNotSet
    ensures r.Err? ==> r.code == cluster.meta(name, "master-max").code
  {
    match cluster.meta(name, "master-max")
    case MetaValue(n) => Ok(n)
    case MetaError(code) => if code == AttributeNotSet then Ok(1) else Err(code)
  }

  /** `clone_resource_expected_count`: the `clone-max` meta attribute; when it is not
      set, the number of nodes carrying the `<name>-role=true` property, or the number
      of cluster nodes when no node carries it; the lookup's failure otherwise. */
  function CloneExpectedCount(name: string, cluster: Cluster): (r: Result<int>)
    ensures cluster.meta(name, "clone-max").MetaValue? ==> r == Ok(cluster.meta(name, "clone-max").value)
    ensures cluster.meta(name, "clone-max") == MetaError(AttributeNotSet) && cluster.roleCount(name) > 0 ==>
              r == Ok(cluster.roleCount(name))
    ensures cluster.meta(name, "clone-max") == MetaError(AttributeNotSet) && cluster.roleCount(name) == 0 ==>
              r == Ok(cluster.nodeCount)
    ensures r.Err? <==> cluster.meta(name, "clone-max").MetaError? && cluster.meta(name, "clone-max").code != AttributeNotSet
    ensures r.Err? ==> r.code == cluster.meta(name, "clone-max").code
  {
    match cluster.meta(name, "clone-max")
    case MetaValue(n) => Ok(n)
    case MetaError(code) =>
      if code == AttributeNotSet then
        var count := cluster.roleCount(name);
        if count == 0 then Ok(cluster.nodeCount) else Ok(count)
      else Err(code)
  }

  /** `primitive_resource_expected_count`: a primitive runs once. */
  function PrimitiveExpectedCount(name: string): int
  {
    1
  }

  /** The dispatch table `expected_count_fun`. A primitive expects one instance; a
      failure is always the failure of the kind's own meta lookup, with its status,
      and never the "attribute not set" status. */
  function ExpectedCount(kind: Kind, name: string, cluster: Cluster): (r: Result<int>)
    ensures kind == Primitive ==> r == Ok(1)
    ensures r.Err? ==> && r.code != AttributeNotSet
                       && MaxAttribute(kind).Some?
                       && cluster.meta(name, MaxAttribute(kind).value) == MetaError(r.code)
  {
    match kind
    case Master => MasterExpectedCount(name, cluster)
    case Clone => CloneExpectedCount(name, cluster)
    case Primitive => Ok(PrimitiveExpectedCount(name))
  }

  /** The meta attribute the expected count of `kind` reads; a primitive reads none. */
  function MaxAttribute(kind: Kind): (r: Option<string>)
    ensures r.None? <==> kind == Primitive
  {
    match kind
    case Master => Some("master-max")
    case Clone => Some("clone-max")
    case Primitive => None
  }

  /** A primitive's expected count is 1 whatever the cluster says. */
  lemma PrimitiveExpectsOne(name: string, cluster: Cluster)
    ensures ExpectedCount(Primitive, name, cluster) == Ok(1)
  {
  }

  /** The "attribute not set" status is always recovered from and never surfaces; the
      expected count fails exactly when the kind's meta lookup fails with any other
      status, and then with that status. */
  lemma ExpectedCountFailures(kind: Kind, name: string, cluster: Cluster)
    ensures ExpectedCount(kind, name, cluster).Err? ==> ExpectedCount(kind, name, cluster).code != AttributeNotSet
    ensures ExpectedCount(kind, name, cluster).Err? <==>
              MaxAttribute(kind).Some? &&
              cluster.meta(name, MaxAttribute(kind).value).MetaError? &&
              cluster.meta(name, MaxAttribute(kind).value).code != AttributeNotSet
    ensures ExpectedCount(kind, name, cluster).Err? ==>
              ExpectedCount(kind, name, cluster).code == cluster.meta(name, MaxAttribute(kind).value).code
  {
  }

  /** The expected count depends on nothing but the kind's own meta attribute, the
      role-property count and the node count: two clusters that agree on those agree
      on the expected count, whatever else they answer. */
  lemma ExpectedCountReadsOnlyItsAttribute(kind: Kind, name: string, c1: Cluster, c2: Cluster)
    requires MaxAttribute(kind).Some? ==> c1.meta(name, MaxAttribute(kind).value) == c2.meta(name, MaxAttribute(kind).value)
    requires c1.roleCount(name) == c2.roleCount(name)
    requires c1.nodeCount == c2.nodeCount
    ensures ExpectedCount(kind, name, c1) == ExpectedCount(kind, name, c2)
  {
  }

  /** When no `<name>-role=true` property and no `clone-max` are set, a clone is
      expected on every node, and its expected count is then never negative. */
  lemma CloneFallsBackToAllNodes(name: string, cluster: Cluster)
    requires cluster.meta(name, "clone-max") == MetaError(AttributeNotSet)
    ensures CloneExpectedCount(name, cluster) == Ok(if cluster.roleCount(name) > 0 then cluster.roleCount(name) else cluster.nodeCount)
    ensures CloneExpectedCount(name, cluster).value >= 0
  {
  }

  /** The role a running instance of `kind` must hold to be counted. */
  function CountedRole(kind: Kind): string
  {
    match kind
    case Master => "Master"
    case Clone => "Started"
    case Primitive => "Started"
  }

  /** The predicate of the count XPath `//resource[@id=name and @orphaned='false' and
      @failed='false' and @active='true' and @role=role]`: the `id` is equal to the
      name (not merely containing it) and the instance is healthy, active and in `role`. */
  predicate Healthy(e: Element, name: string, role: string)
  {
    && Attr(e, "id") == Some(name)
    && Attr(e, "orphaned") == Some("false")
    && Attr(e, "failed") == Some("false")
    && Attr(e, "active") == Some("true")
    && Attr(e, "role") == Some(role)
  }

  /** The number of `instances` satisfying `Healthy`. */
  function CountHealthy(instances: seq<Element>, name: string, role: string): (r: nat)
    ensures r <= |instances|
  {
    if instances == [] then 0
    else
      CountHealthy(instances[..|instances| - 1], name, role) +
      (if Healthy(instances[|instances| - 1], name, role) then 1 else 0)
  }

  /** Positions of the instances satisfying `Healthy`: the reference the counts are
      measured against. */
  ghost function HealthyPositions(instances: seq<Element>, name: string, role: string): set<int>
  {
    set i | 0 <= i < |instances| && Healthy(instances[i], name, role)
  }

  /** Extending the instances by one adds at most the new last position. */
  lemma HealthyPositionsSnoc(instances: seq<Element>, name: string, role: string)
    requires instances != []
    ensures var n := |instances| - 1;
            HealthyPositions(instances, name, role) ==
            HealthyPositions(instances[..n], name, role) + (if Healthy(instances[n], name, role) then {n} else {})
  {
    var n := |instances| - 1;
    var front := instances[..n];
    forall i | 0 <= i < n
      ensures instances[i] == front[i]
    {
    }
  }

  /** `CountHealthy` is the number of positions holding a healthy instance. */
  lemma {:induction false} CountHealthyCountsPositions(instances: seq<Element>, name: string, role: string)
    ensures CountHealthy(instances, name, role) == |HealthyPositions(instances, name, role)|
    decreases |instances|
  {
    if instances != [] {
      var n := |instances| - 1;
      CountHealthyCountsPositions(instances[..n], name, role);
      HealthyPositionsSnoc(instances, name, role);
      assert n !in HealthyPositions(instances[..n], name, role);
    }
  }

  /** When the healthy instances are exactly those at positions `lo` up to `hi`, the
      count is the length of that run, cut off at the end of `instances`. */
  lemma {:induction false} CountOfRun(instances: seq<Element>, name: string, role: string, lo: nat, hi: nat)
    requires lo <= hi
    requires forall i :: 0 <= i < |instances| ==> (Healthy(instances[i], name, role) <==> lo <= i < hi)
    ensures CountHealthy(instances, name, role) ==
              if |instances| <= lo then 0 else if |instances| <= hi then |instances| - lo else hi - lo
    decreases |instances|
  {
    if instances != [] {
      var n := |instances| - 1;
      var front := instances[..n];
      forall i | 0 <= i < |front|
        ensures Healthy(front[i], name, role) <==> lo <= i < hi
      {
        assert front[i] == instances[i];
      }
      CountOfRun(front, name, role, lo, hi);
    }
  }

  /** A current count: the number of `//resource` instances of the document with
      exactly this `id`, healthy and in the role `kind` requires. */
  function CurrentCount(kind: Kind, name: string, doc: Element): (r: nat)
    ensures r == |HealthyPositions(ResourceElements(doc), name, CountedRole(kind))|
    ensures r <= |ResourceElements(doc)|
  {
    CountHealthyCountsPositions(ResourceElements(doc), name, CountedRole(kind));
    CountHealthy(ResourceElements(doc), name, CountedRole(kind))
  }

  /** `clone_resource_current_count`: running healthy `Started` instances. */
  function CloneCurrentCount(name: string, doc: Element): (r: nat)
    ensures r == |HealthyPositions(ResourceElements(doc), name, "Started")|
  {
    CurrentCount(Clone, name, doc)
  }

  /** `master_resource_current_count`: running healthy `Master` instances. */
  function MasterCurrentCount(name: string, doc: Element): (r: nat)
    ensures r == |HealthyPositions(ResourceElements(doc), name, "Master")|
  {
    CurrentCount(Master, name, doc)
  }

  /** `primitive_resource_current_count`, which delegates to the clone count. */
  function PrimitiveCurrentCount(name: string, doc: Element): (r: nat)
    ensures r == |HealthyPositions(ResourceElements(doc), name, "Started")|
  {
    CloneCurrentCount(name, doc)
  }

  /** A primitive is counted exactly as a clone is: `Started`, healthy instances, so a
      primitive running on several nodes reports more than its expected 1. */
  lemma PrimitiveCountsLikeClone(name: string, doc: Element)
    ensures PrimitiveCurrentCount(name, doc) == CloneCurrentCount(name, doc)
    ensures PrimitiveCurrentCount(name, doc) == CurrentCount(Primitive, name, doc)
  {
  }

  /** Masters and started instances are disjoint: every instance counts towards at
      most one of the master count and the clone count. */
  lemma {:induction false} MasterAndStartedDisjoint(instances: seq<Element>, name: string)
    ensures CountHealthy(instances, name, "Master") + CountHealthy(instances, name, "Started") <= |instances|
    decreases |instances|
  {
    if instances != [] {
      MasterAndStartedDisjoint(instances[..|instances| - 1], name);
    }
  }
}
