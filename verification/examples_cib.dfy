/** A small `crm_mon -r --as-xml` document in the shape of the unit tests' cluster:
    a `haproxy` clone started on three nodes, a `galera` master/slave resource
    promoted on three nodes, and two primitives, `ip-192.168.24.10` and
    `openstack-cinder-volume`. */
module ExampleCib {
  import opened Results
  import Text
  import opened Cib
  import opened Classifier
  import opened Commands
  import opened Counts
  import opened Readiness

  /** One running instance as `crm_mon` reports it. */
  function Instance(id: string, role: string): Element
  {
    Element("resource",
            map["role" := role, "active" := "true", "orphaned" := "false", "failed" := "false", "id" := id],
            [])
  }

  function Haproxy(): Element
  {
    Element("clone", map["multi_state" := "false", "id" := "haproxy-clone"],
            [Instance("haproxy", "Started"), Instance("haproxy", "Started"), Instance("haproxy", "Started")])
  }

  function Galera(): Element
  {
    Element("clone", map["multi_state" := "true", "id" := "galera-master"],
            [Instance("galera", "Master"), Instance("galera", "Master"), Instance("galera", "Master")])
  }

  function Entries(): seq<Element>
  {
    [Instance("ip-192.168.24.10", "Started"), Haproxy(), Galera(), Instance("openstack-cinder-volume", "Started")]
  }

  function Document(): Element
  {
    Element("crm_mon", map["version" := "1.1.15"], [Element("resources", map[], Entries())])
  }

  /** A leaf that is not a `resources` element holds no `resources` section. */
  lemma LeafHasNoSection(e: Element)
    requires e.tag != "resources" && e.children == []
    ensures NoResourcesSection(e)
  {
    assert Nodes(e) == [e] + NodesOfAll([]);
  }

  /** A wrapper of leaves, none of them a `resources` element, holds no `resources`
      section. */
  lemma GroupHasNoSection(c: Element)
    requires c.tag != "resources"
    requires forall i :: 0 <= i < |c.children| ==> c.children[i].tag != "resources" && c.children[i].children == []
    ensures NoResourcesSection(c)
  {
    LeavesAreTheirOwnNodes(c.children);
    assert Nodes(c) == [c] + c.children;
  }

  /** The classifier's candidates are the four top-level entries, in order. */
  lemma CandidatesAreEntries()
    ensures ResourcesChildren(Document()) == Entries()
  {
    var es := Entries();
    LeafHasNoSection(es[0]);
    GroupHasNoSection(es[1]);
    GroupHasNoSection(es[2]);
    LeafHasNoSection(es[3]);
    FlatSectionCandidates("crm_mon", map["version" := "1.1.15"], map[], es);
  }

  /** Which queries the identifier `ip-192.168.24.10` contains. */
  lemma VipIdFacts()
    ensures Text.Contains("ip-192.168.24.10", "ip-192.168.24.10")
    ensures !Text.Contains("ip-192.168.24.10", "haproxy")
    ensures !Text.Contains("ip-192.168.24.10", "galera")
    ensures !Text.Contains("ip-192.168.24.10", "openstack-cinder-volume")
    ensures !Text.Contains("ip-192.168.24.10", "blhaaa")
  {
    Text.NotContained("ip-192.168.24.10", "haproxy");
    Text.NotContained("ip-192.168.24.10", "galera");
    Text.NotContained("ip-192.168.24.10", "openstack-cinder-volume");
    Text.NotContained("ip-192.168.24.10", "blhaaa");
    Text.PrefixContained("ip-192.168.24.10", "ip-192.168.24.10");
  }

  /** Which queries the identifier `haproxy-clone` contains. */
  lemma HaproxyIdFacts()
    ensures Text.Contains("haproxy-clone", "haproxy")
    ensures !Text.Contains("haproxy-clone", "galera")
    ensures !Text.Contains("haproxy-clone", "openstack-cinder-volume")
    ensures !Text.Contains("haproxy-clone", "blhaaa")
  {
    Text.NotContained("haproxy-clone", "galera");
    Text.NotContained("haproxy-clone", "openstack-cinder-volume");
    Text.NotContained("haproxy-clone", "blhaaa");
    Text.PrefixContained("haproxy-clone", "haproxy");
  }

  /** Which queries the identifier `galera-master` contains. */
  lemma GaleraIdFacts()
    ensures Text.Contains("galera-master", "galera")
    ensures !Text.Contains("galera-master", "openstack-cinder-volume")
    ensures !Text.Contains("galera-master", "blhaaa")
  {
    Text.NotContained("galera-master", "openstack-cinder-volume");
    Text.NotContained("galera-master", "blhaaa");
    Text.PrefixContained("galera-master", "galera");
  }

  /** Which queries the identifier `openstack-cinder-volume` contains. */
  lemma CinderIdFacts()
    ensures Text.Contains("openstack-cinder-volume", "openstack-cinder-volume")
    ensures !Text.Contains("openstack-cinder-volume", "blhaaa")
  {
    Text.NotContained("openstack-cinder-volume", "blhaaa");
    Text.PrefixContained("openstack-cinder-volume", "openstack-cinder-volume");
  }

  /** The identifiers of the four entries. */
  lemma EntryIds()
    ensures IdString(Entries()[0]) == "ip-192.168.24.10"
    ensures IdString(Entries()[1]) == "haproxy-clone"
    ensures IdString(Entries()[2]) == "galera-master"
    ensures IdString(Entries()[3]) == "openstack-cinder-volume"
  {
  }

  /** The kinds of the four entries. */
  lemma EntryKinds()
    ensures KindOf(Entries()[0]) == Some(Primitive)
    ensures KindOf(Entries()[1]) == Some(Clone)
    ensures KindOf(Entries()[2]) == Some(Master)
    ensures KindOf(Entries()[3]) == Some(Primitive)
  {
  }

  /** `haproxy` is found in `haproxy-clone`, the second entry: a clone. */
  lemma HaproxyIsClone()
    ensures ResourceTypeOf(Document(), "haproxy") == Some(Clone)
  {
    CandidatesAreEntries();
    EntryIds();
    EntryKinds();
    VipIdFacts();
    HaproxyIdFacts();
  }

  /** `galera` is found in `galera-master`, the third entry: a master. */
  lemma GaleraIsMaster()
    ensures ResourceTypeOf(Document(), "galera") == Some(Master)
  {
    CandidatesAreEntries();
    EntryIds();
    EntryKinds();
    VipIdFacts();
    HaproxyIdFacts();
    GaleraIdFacts();
  }

  /** `openstack-cinder-volume` is the last entry: a primitive. */
  lemma CinderIsPrimitive()
    ensures ResourceTypeOf(Document(), "openstack-cinder-volume") == Some(Primitive)
  {
    CandidatesAreEntries();
    EntryIds();
    EntryKinds();
    VipIdFacts();
    HaproxyIdFacts();
    GaleraIdFacts();
    CinderIdFacts();
  }

  /** `ip-192.168.24.10` is the first entry: a primitive. */
  lemma VipIsPrimitive()
    ensures ResourceTypeOf(Document(), "ip-192.168.24.10") == Some(Primitive)
  {
    CandidatesAreEntries();
    EntryIds();
    EntryKinds();
    VipIdFacts();
  }

  /** No entry's id contains `blhaaa`: no kind. */
  lemma UnknownHasNoKind()
    ensures ResourceTypeOf(Document(), "blhaaa") == None
  {
    CandidatesAreEntries();
    EntryIds();
    VipIdFacts();
    HaproxyIdFacts();
    GaleraIdFacts();
    CinderIdFacts();
  }

  /** The classification the unit tests expect of `haproxy`, `galera`,
      `openstack-cinder-volume`, `ip-192.168.24.10` and the unknown `blhaaa`. */
  lemma ClassifiesLikeTheTests()
    ensures ResourceTypeOf(Document(), "haproxy") == Some(Clone)
    ensures ResourceTypeOf(Document(), "galera") == Some(Master)
    ensures ResourceTypeOf(Document(), "openstack-cinder-volume") == Some(Primitive)
    ensures ResourceTypeOf(Document(), "ip-192.168.24.10") == Some(Primitive)
    ensures ResourceTypeOf(Document(), "blhaaa") == None
  {
    HaproxyIsClone();
    GaleraIsMaster();
    CinderIsPrimitive();
    VipIsPrimitive();
    UnknownHasNoKind();
  }

  /** The `//resource` instances of the example, in document order. */
  function Instances(): seq<Element>
  {
    [Entries()[0]] + Haproxy().children + Galera().children + [Entries()[3]]
  }

  /** An element without children is its own only element. */
  lemma LeafNodes(e: Element)
    requires e.children == []
    ensures Nodes(e) == [e]
  {
  }

  /** The elements of a forest are those of its first subtree, then those of the rest. */
  lemma ConsSubtree(x: Element, rest: seq<Element>)
    ensures NodesOfAll([x] + rest) == Nodes(x) + NodesOfAll(rest)
  {
    assert ([x] + rest)[0] == x;
    assert ([x] + rest)[1..] == rest;
  }

  /** The elements of a one-element forest are those of its subtree. */
  lemma OneSubtree(x: Element)
    ensures NodesOfAll([x]) == Nodes(x)
  {
    ConsSubtree(x, []);
    assert [x] + [] == [x];
  }

  /** The elements of a four-element forest are those of its subtrees, in order. */
  lemma FourSubtrees(a: Element, b: Element, c: Element, d: Element)
    ensures NodesOfAll([a, b, c, d]) == Nodes(a) + Nodes(b) + Nodes(c) + Nodes(d)
  {
    var t2 := [c] + [d];
    var t1 := [b] + t2;
    OneSubtree(d);
    ConsSubtree(c, [d]);
    ConsSubtree(b, t2);
    ConsSubtree(a, t1);
    assert [a] + t1 == [a, b, c, d];
  }

  /** The elements of a root holding a single child: the root, then the child's subtree. */
  lemma SingleChildNodes(root: Element, child: Element)
    requires root.children == [child]
    ensures Nodes(root) == [root] + Nodes(child)
  {
    OneSubtree(child);
  }

  /** The elements of a section of four entries: the section, then each entry's subtree. */
  lemma SectionNodes(section: Element, a: Element, b: Element, c: Element, d: Element)
    requires section.children == [a, b, c, d]
    ensures Nodes(section) == [section] + (Nodes(a) + Nodes(b) + Nodes(c) + Nodes(d))
  {
    FourSubtrees(a, b, c, d);
  }

  /** `//resource` on a root holding one section whose entries are a primitive, two
      wrappers of leaf instances and another primitive: the primitives and the
      wrapped instances, in document order. */
  lemma FlatDocumentInstances(root: Element, section: Element, a: Element, b: Element, c: Element, d: Element)
    requires root.children == [section] && section.children == [a, b, c, d]
    requires root.tag != "resource" && section.tag != "resource"
    requires a.tag == "resource" && a.children == [] && d.tag == "resource" && d.children == []
    requires b.tag != "resource"
    requires forall i :: 0 <= i < |b.children| ==> b.children[i].tag == "resource" && b.children[i].children == []
    requires c.tag != "resource"
    requires forall i :: 0 <= i < |c.children| ==> c.children[i].tag == "resource" && c.children[i].children == []
    ensures Tagged(Nodes(root), "resource") == [a] + b.children + c.children + [d]
  {
    SingleChildNodes(root, section);
    SectionNodes(section, a, b, c, d);
    LeafNodes(a);
    LeafNodes(d);
    GroupOfLeaves(b, "resource");
    GroupOfLeaves(c, "resource");
    var ab := Nodes(a) + Nodes(b);
    var abc := ab + Nodes(c);
    TaggedAppend([root], [section] + (abc + Nodes(d)), "resource");
    TaggedAppend([section], abc + Nodes(d), "resource");
    TaggedAppend(abc, Nodes(d), "resource");
    TaggedAppend(ab, Nodes(c), "resource");
    TaggedAppend(Nodes(a), Nodes(b), "resource");
    assert Tagged([root], "resource") == [];
    assert Tagged([section], "resource") == [];
    assert Tagged([a], "resource") == [a];
    assert Tagged([d], "resource") == [d];
  }

  /** `//resource` selects the two primitives and the six clone instances, in
      document order. */
  lemma InstancesInOrder()
    ensures ResourceElements(Document()) == Instances()
  {
    var es := Entries();
    FlatDocumentInstances(Document(), Element("resources", map[], es), es[0], es[1], es[2], es[3]);
  }

  /** Which instances pass the count predicate for each query. */
  lemma HealthyFacts(i: nat)
    requires i < |Instances()|
    ensures Healthy(Instances()[i], "haproxy", "Started") <==> 1 <= i <= 3
    ensures Healthy(Instances()[i], "galera", "Master") <==> 4 <= i <= 6
    ensures Healthy(Instances()[i], "openstack-cinder-volume", "Started") <==> i == 7
  {
  }

  /** Every current count on the example filters its `//resource` instances. */
  lemma CountsOfExample(kind: Kind, name: string)
    ensures CurrentCount(kind, name, Document()) == CountHealthy(Instances(), name, CountedRole(kind))
  {
    InstancesInOrder();
  }

  /** Exactly three of the example's instances pass the `Started` predicate for `haproxy`. */
  lemma HaproxyCountRun()
    ensures CountHealthy(Instances(), "haproxy", "Started") == 3
  {
    var xs := Instances();
    forall i | 0 <= i < |xs|
      ensures Healthy(xs[i], "haproxy", "Started") <==> 1 <= i < 4
    {
      HealthyFacts(i);
    }
    CountOfRun(xs, "haproxy", "Started", 1, 4);
  }

  /** Three `haproxy` instances are started, as the unit tests expect. */
  lemma HaproxyCount()
    ensures CloneCurrentCount("haproxy", Document()) == 3
  {
    CountsOfExample(Clone, "haproxy");
    HaproxyCountRun();
  }

  /** Exactly three of the example's instances pass the `Master` predicate for `galera`. */
  lemma GaleraCountRun()
    ensures CountHealthy(Instances(), "galera", "Master") == 3
  {
    var xs := Instances();
    forall i | 0 <= i < |xs|
      ensures Healthy(xs[i], "galera", "Master") <==> 4 <= i < 7
    {
      HealthyFacts(i);
    }
    CountOfRun(xs, "galera", "Master", 4, 7);
  }

  /** Three `galera` instances are promoted, as the unit tests expect. */
  lemma GaleraCount()
    ensures MasterCurrentCount("galera", Document()) == 3
  {
    CountsOfExample(Master, "galera");
    GaleraCountRun();
  }

  /** Exactly one of the example's instances pass the `Started` predicate for `openstack-cinder-volume`. */
  lemma CinderCountRun()
    ensures CountHealthy(Instances(), "openstack-cinder-volume", "Started") == 1
  {
    var xs := Instances();
    forall i | 0 <= i < |xs|
      ensures Healthy(xs[i], "openstack-cinder-volume", "Started") <==> 7 <= i < 8
    {
      HealthyFacts(i);
    }
    CountOfRun(xs, "openstack-cinder-volume", "Started", 7, 8);
  }

  /** One `openstack-cinder-volume` instance is started, as the unit tests expect. */
  lemma CinderCount()
    ensures PrimitiveCurrentCount("openstack-cinder-volume", Document()) == 1
  {
    CountsOfExample(Clone, "openstack-cinder-volume");
    CinderCountRun();
  }

  /** A cluster that keeps reporting the example document and sets `clone-max` to 3
      makes a run for `haproxy` active at once, without sleeping. */
  lemma HaproxyRunIsActive(cluster: Cluster, maxWait: int)
    requires forall i :: cluster.status(i) == Document()
    requires cluster.meta("haproxy", "clone-max") == MetaValue(3)
    ensures Reconcile("haproxy", maxWait, cluster) == Report(Active, 0, 1)
  {
    HaproxyIsClone();
    CountsOfExample(Clone, "haproxy");
    HaproxyCountRun();
    assert ExpectedCount(Clone, "haproxy", cluster) == Ok(3);
    SteadyClusterRun("haproxy", maxWait, cluster, Document(), Clone, 3);
  }

  /** Without `master-max`, a master resource expects one promoted instance, so a
      `galera` promoted on all three nodes never matches and the run times out after
      spending its whole budget. */
  lemma GaleraWithoutMasterMaxTimesOut(cluster: Cluster, maxWait: int)
    requires forall i :: cluster.status(i) == Document()
    requires cluster.meta("galera", "master-max") == MetaError(AttributeNotSet)
    ensures Reconcile("galera", maxWait, cluster) == Report(TimedOut, Budget(maxWait) - 1, Budget(maxWait))
  {
    GaleraIsMaster();
    CountsOfExample(Master, "galera");
    GaleraCountRun();
    assert ExpectedCount(Master, "galera", cluster) == Ok(1);
    SteadyClusterRun("galera", maxWait, cluster, Document(), Master, 1);
  }
}
