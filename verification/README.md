# Resource readiness check of ansible-pacemaker

A Dafny model of `modules/pacemaker_is_active.py`. This is the Ansible module that
waits until a Pacemaker resource is fully active. It works in four steps:

- It classifies the resource as a primitive, a clone or a master/slave resource.
- It reads the number of instances the cluster is expected to run.
- It re-reads the number of healthy instances actually running, once per second,
  until the two numbers agree or it has compared max(`max_wait`, 1) of them,
  which means at most max(`max_wait` - 1, 0) sleeps.
- It reports success, a timeout, an unknown resource, or an escaping command failure.

Modules, one per concern of the source:

- `Results` (results.dfy): `Option` and `Result`.
- `Text` (text.dfy): the substring test behind XPath `contains()`.
- `Cib` (cib.dfy): the `crm_mon -r --as-xml` document as a tree of elements, and the two
  XPath selections the module evaluates on it:
  - `//resources/*`: every element whose parent is a `resources` element;
  - `//resource`: every `resource` element.
- `Classifier` (classifier.dfy): `resource_type_of`.
- `Commands` and `Counts` (counts.dfy):
  - `Commands` defines `Cluster`, the external commands as oracles. `meta` is the meta-attribute lookup
    (`crm_resource --meta -g`), with its exit status on failure. `roleCount` is
    `pcs property | grep -c`. `nodeCount` is `crm_node -l | wc -l`. `status(i)` is the
    document of the `i`-th `crm_mon` call.
  - `Counts` holds the expected-count and current-count rules.
- `Readiness` (readiness.dfy): `is_resource_active`. It has a functional reference `Poll` and
  `Reconcile`, and a method `IsResourceActive` that follows the source's loop and is proved
  equal to them.
- `ExampleCib` (examples_cib.dfy): a small cluster document in the shape the unit tests use.
  The classification and the counts the tests expect are proved on it.

Every `crm_mon` call of a run reads the cluster afresh. So the model gives each call its own
document: call 0 serves the classifier, and the current count of try `i` reads call `i + 1`.

## Model

| member | source | states |
|---|---|---|
| Cib.Attr | modules/pacemaker_is_active.py:181-183 | `res.get(attr)` is present exactly when the element carries the attribute, and then holds its value |
| Cib.ChildSubtreesIncluded | modules/pacemaker_is_active.py:268-270 | the walk of an element covers its whole subtree: every element of each child's subtree is in the parent's walk |
| Cib.Tagged | modules/pacemaker_is_active.py:137-157 | selecting by tag keeps exactly the elements carrying that tag and never adds any |
| Cib.ResourceElements | modules/pacemaker_is_active.py:137-157 | `//resource` holds exactly the `resource` elements of the document |
| Cib.TaggedAppend | modules/pacemaker_is_active.py:137-157 | selecting by tag distributes over concatenation, so `//resource` keeps document order |
| Cib.LeavesAreTheirOwnNodes | modules/pacemaker_is_active.py:268-270 | a forest of childless elements is walked as exactly that list of elements |
| Cib.AllTagged | modules/pacemaker_is_active.py:137-157 | selecting by tag keeps a list whose elements all carry that tag unchanged |
| Cib.GroupOfLeaves | modules/pacemaker_is_active.py:137-157 | a wrapper such as a `clone` whose children are leaf `resource` elements contributes exactly those children, in order, to `//resource` |
| Cib.NoSectionSelectsAtMostRoot | modules/pacemaker_is_active.py:171-173 | a subtree without a `resources` element adds nothing to `//resources/*` except possibly its own root |
| Cib.SubtreeNodesIncluded | modules/pacemaker_is_active.py:171-173 | every element of a child's subtree is an element of the enclosing forest |
| Cib.NoSectionForestSelectsNothing | modules/pacemaker_is_active.py:171-173 | siblings without a `resources` element under a non-`resources` parent add nothing to `//resources/*` |
| Cib.SectionSelectsItsChildren | modules/pacemaker_is_active.py:171-173 | the children of a `resources` element are selected exactly and in order |
| Cib.ChildOfSectionSelected | modules/pacemaker_is_active.py:171-173 | every child of a `resources` element is selected from that element's children |
| Cib.UnderResourcesComplete | modules/pacemaker_is_active.py:171-173 | on any subtree, a child of any `resources` element in it is selected |
| Cib.UnderResourcesAllComplete | modules/pacemaker_is_active.py:171-173 | the same completeness over a forest of siblings |
| Cib.UnderResourcesSound | modules/pacemaker_is_active.py:171-173 | a selected element is either the subtree's own root under a `resources` parent or a child of some `resources` element of the subtree |
| Cib.UnderResourcesAllSound | modules/pacemaker_is_active.py:171-173 | the same soundness over a forest of siblings, where the siblings themselves are selected only under a `resources` parent |
| Cib.ResourcesChildrenMembers | modules/pacemaker_is_active.py:171-173 | for any document shape, `//resources/*` holds an element iff it is a child of some `resources` element of the document |
| Cib.FlatSectionCandidates | modules/pacemaker_is_active.py:171-173 | for a root holding one flat `resources` section, the candidates are that section's entries in order |
| Text.ContainedInAnySurrounding | modules/pacemaker_is_active.py:172 | `contains(@id, name)` holds for every id that wraps the name in a prefix and a suffix |
| Text.NotContained | modules/pacemaker_is_active.py:172 | an id shorter than the name, or one lacking the name's first character, does not contain it |
| Text.PrefixContained | modules/pacemaker_is_active.py:172 | an id starting with the name contains it |
| Classifier.KindOf | modules/pacemaker_is_active.py:177-188 | `resource` gives a primitive; `clone` with `multi_state` "false" gives a clone and "true" a master; anything else gives no kind (each as an if-and-only-if) |
| Classifier.FirstMatchFrom | modules/pacemaker_is_active.py:171-177 | scanning from position `k`: absent iff no candidate from `k` on matches; otherwise a matching position with no match between `k` and it |
| Classifier.FirstMatch | modules/pacemaker_is_active.py:171-177 | the result is absent iff no candidate's id contains the name; otherwise it is a matching position with no match before it |
| Classifier.FirstMatchIsUnique | modules/pacemaker_is_active.py:174-177 | only one position can be the first whose candidate matches |
| Classifier.Classify | modules/pacemaker_is_active.py:171-188 | no match gives `None`; otherwise the result is the kind of the first candidate, in document order, whose id contains the name |
| Classifier.ResourceTypeOf | modules/pacemaker_is_active.py:164-188 | on a whole document: `None` when no `//resources/*` element's id contains the name, otherwise the kind of the first one in document order that does |
| Classifier.LaterCandidatesIrrelevant | modules/pacemaker_is_active.py:177 | candidates after the first match never change the classification |
| Classifier.NonMatchingPrefixIrrelevant | modules/pacemaker_is_active.py:171-177 | candidates whose id does not contain the name can be dropped from the front without changing the result |
| Classifier.WrappedIdDecides | modules/pacemaker_is_active.py:172 | a first candidate whose id wraps the name, such as `haproxy-clone` for `haproxy`, decides the kind; this is also how `ip-192.168.24.1` gets classified by `ip-192.168.24.10` |
| Counts.MasterExpectedCount | modules/pacemaker_is_active.py:79-98 | the `master-max` value when the lookup succeeds; 1 when it exits with status 6; the same failure with the same status otherwise |
| Counts.CloneExpectedCount | modules/pacemaker_is_active.py:101-129 | the `clone-max` value when the lookup succeeds; on status 6, the role-property count if it is positive, else the node count; the failure with its status otherwise |
| Counts.ExpectedCount | modules/pacemaker_is_active.py:230-240 | the dispatch: a primitive expects 1; any failure is the failure of the kind's own meta lookup, with its status, never status 6 |
| Counts.PrimitiveExpectedCount | modules/pacemaker_is_active.py:132-133 | the constant 1; `Counts.PrimitiveExpectsOne` and `Counts.ExpectedCount` state it for the dispatch |
| Counts.ExpectedCountReadsOnlyItsAttribute | modules/pacemaker_is_active.py:79-133 | the expected count depends only on the kind's own meta attribute (`master-max` or `clone-max`, none for a primitive), the role-property count and the node count: clusters agreeing on those give the same result |
| Counts.PrimitiveExpectsOne | modules/pacemaker_is_active.py:132-133 | a primitive expects one instance whatever the cluster answers |
| Counts.ExpectedCountFailures | modules/pacemaker_is_active.py:88-129 | status 6 never escapes; the expected count fails iff the kind's meta lookup fails with another status, and then carries that status |
| Counts.CloneFallsBackToAllNodes | modules/pacemaker_is_active.py:119-127 | without `clone-max`, a clone expects the role-property count, or every node when that count is 0, and so never a negative number |
| Counts.CountHealthy | modules/pacemaker_is_active.py:137-157 | the XPath `count()` never exceeds the number of `resource` elements |
| Counts.HealthyPositionsSnoc | modules/pacemaker_is_active.py:137-157 | extending the instances by one adds at most the new last position to the healthy set |
| Counts.CountHealthyCountsPositions | modules/pacemaker_is_active.py:137-157 | the count equals the number of positions holding an instance whose id equals the name and that is not orphaned, not failed, active and in the role |
| Counts.CountOfRun | modules/pacemaker_is_active.py:137-157 | when the healthy instances are exactly those in one run of positions, the count is that run's length |
| Counts.CurrentCount | modules/pacemaker_is_active.py:136-161 | the current count is the number of exact-id, healthy `//resource` instances in the kind's role (`Master` for masters, `Started` otherwise), and is at most the number of `resource` elements |
| Counts.Healthy | modules/pacemaker_is_active.py:138-143 | the predicate of the `count()` XPath: exact `id`, `orphaned` "false", `failed` "false", `active` "true" and the role; `Counts.CountHealthyCountsPositions` and `Counts.CurrentCount` state the count it gives |
| Counts.CountedRole | modules/pacemaker_is_active.py:136-157 | `Master` for a master resource and `Started` for a clone or a primitive; `Counts.MasterCurrentCount` and `Counts.CloneCurrentCount` state the count under each role |
| Counts.CloneCurrentCount | modules/pacemaker_is_active.py:136-145 | the number of `//resource` positions holding a healthy `Started` instance whose id equals the name |
| Counts.MasterCurrentCount | modules/pacemaker_is_active.py:148-157 | the number of `//resource` positions holding a healthy `Master` instance whose id equals the name |
| Counts.PrimitiveCurrentCount | modules/pacemaker_is_active.py:160-161 | the same `Started` count as a clone |
| Counts.PrimitiveCountsLikeClone | modules/pacemaker_is_active.py:160-161 | a primitive's current count is the clone current count |
| Counts.MasterAndStartedDisjoint | modules/pacemaker_is_active.py:136-157 | no instance counts both as `Master` and as `Started`, so the two counts add up to at most the number of instances |
| Readiness.Budget | modules/pacemaker_is_active.py:219-244 | the budget is max(`max_wait`, 1): `max_wait` when it is 1 or more, and exactly 1 otherwise, since `current_try >= max_tries-1` already holds at try 0; `Readiness.PollVerdict` and `Readiness.Reconcile` use it: a run that times out compares exactly that many counts and no run compares more |
| Readiness.Poll | modules/pacemaker_is_active.py:243-254 | the loop ends active exactly on a try whose count equals the expected one, with every earlier try mismatching; it reads one count more than it sleeps; a timeout comes after `Budget(max_wait) - 1` sleeps, that is `max_wait - 1` for a positive `max_wait` and none otherwise |
| Readiness.IsResourceActive | modules/pacemaker_is_active.py:192-254 | the source's control flow (classification, dispatch, loop with the `current_try >= max_tries - 1` test) produces exactly the report of `Reconcile` |
| Readiness.Reconcile | modules/pacemaker_is_active.py:219-254 | the run ends `NotInCib` iff the resource is unclassified; a raised status is never 6; no count is read exactly when it ends unknown or raised, and then it never sleeps; otherwise it reads one count more than it sleeps and at most `Budget(max_wait)` counts |
| Readiness.UnknownShortCircuits | modules/pacemaker_is_active.py:223-228 | an unclassified resource fails at once, with no count read and no sleep |
| Readiness.LookupFailureEscapes | modules/pacemaker_is_active.py:240 | a failing meta lookup escapes before any current count is read, and its status is never 6 |
| Readiness.PollVerdict | modules/pacemaker_is_active.py:243-254 | active iff one of the first `max(max_wait, 1)` counts equals the expected one, sleeping once per earlier mismatch; a timeout after `max(max_wait, 1) - 1` sleeps and `max(max_wait, 1)` reads |
| Readiness.RunVerdict | modules/pacemaker_is_active.py:219-254 | a classified run with an expected count is active iff the current count of some try within the budget equals it; a timeout sleeps `max(max_wait, 1) - 1` times |
| Readiness.SteadyClusterRun | modules/pacemaker_is_active.py:219-254 | on a cluster whose status does not change, the run is active at once when the current count matches, and otherwise times out after its whole budget |
| Readiness.ImmediateMatch | modules/pacemaker_is_active.py:243 | a match on the first read is active with no sleep and one read |
| Readiness.ActiveAtOnceScenario | test/units/module/test_pacemaker_is_active.py:122-143 | expected 3 and current 3 with `max_wait` 5: active, no sleep |
| Readiness.TimeoutScenario | test/units/module/test_pacemaker_is_active.py:189-211 | expected 1 and counts 0, 0, 0 with `max_wait` 3: timed out after two sleeps and three reads |
| ExampleCib.CandidatesAreEntries | modules/pacemaker_is_active.py:171-173 | the example's candidates are its four top-level entries in order, since none of them holds a nested `resources` element |
| ExampleCib.VipIdFacts | modules/pacemaker_is_active.py:172 | which test queries the id `ip-192.168.24.10` contains |
| ExampleCib.HaproxyIdFacts | modules/pacemaker_is_active.py:172 | which test queries the id `haproxy-clone` contains |
| ExampleCib.GaleraIdFacts | modules/pacemaker_is_active.py:172 | which test queries the id `galera-master` contains |
| ExampleCib.CinderIdFacts | modules/pacemaker_is_active.py:172 | which test queries the id `openstack-cinder-volume` contains |
| ExampleCib.EntryIds | modules/pacemaker_is_active.py:172 | the ids of the example's four entries |
| ExampleCib.EntryKinds | modules/pacemaker_is_active.py:177-188 | the example entries are a primitive, a clone, a master and a primitive |
| ExampleCib.HaproxyIsClone | test/units/module/test_pacemaker_is_active.py:16-26 | `haproxy` is classified as a clone through the id `haproxy-clone` |
| ExampleCib.GaleraIsMaster | test/units/module/test_pacemaker_is_active.py:16-26 | `galera` is classified as a master through the id `galera-master` |
| ExampleCib.CinderIsPrimitive | test/units/module/test_pacemaker_is_active.py:16-26 | `openstack-cinder-volume` is classified as a primitive |
| ExampleCib.VipIsPrimitive | test/units/module/test_pacemaker_is_active.py:16-26 | `ip-192.168.24.10` is classified as a primitive |
| ExampleCib.UnknownHasNoKind | tests/units/module/test_pacemaker_is_active.py:26-38 | `blhaaa` matches no entry and has no kind |
| ExampleCib.ClassifiesLikeTheTests | tests/units/module/test_pacemaker_is_active.py:26-38 | `haproxy` is a clone, `galera` a master, `openstack-cinder-volume` and `ip-192.168.24.10` primitives, and `blhaaa` unknown |
| ExampleCib.InstancesInOrder | modules/pacemaker_is_active.py:137-157 | `//resource` on the example is the two primitives and the six clone instances, in document order |
| ExampleCib.FlatDocumentInstances | modules/pacemaker_is_active.py:137-157 | on any root holding one section of a primitive, two wrappers of leaf instances and another primitive, `//resource` is the primitives and the wrapped instances in document order |
| ExampleCib.CountsOfExample | modules/pacemaker_is_active.py:136-161 | every current count on the example filters exactly its eight `//resource` instances |
| ExampleCib.HealthyFacts | modules/pacemaker_is_active.py:137-157 | which example instances pass the count predicate for each queried name and role |
| ExampleCib.HaproxyCountRun | modules/pacemaker_is_active.py:136-145 | three instances pass the `Started` predicate for `haproxy` |
| ExampleCib.HaproxyCount | test/units/module/test_pacemaker_is_active.py:92-100 | the clone current count of `haproxy` on the example is 3 |
| ExampleCib.GaleraCountRun | modules/pacemaker_is_active.py:148-157 | three instances pass the `Master` predicate for `galera` |
| ExampleCib.GaleraCount | test/units/module/test_pacemaker_is_active.py:102-109 | the master current count of `galera` on the example is 3 |
| ExampleCib.CinderCountRun | modules/pacemaker_is_active.py:136-145 | one instance passes the `Started` predicate for `openstack-cinder-volume` |
| ExampleCib.CinderCount | test/units/module/test_pacemaker_is_active.py:111-119 | the primitive current count of `openstack-cinder-volume` on the example is 1 |
| ExampleCib.HaproxyRunIsActive | modules/pacemaker_is_active.py:219-254 | with `clone-max` 3 and a steady example cluster, the `haproxy` run is active at once |
| ExampleCib.GaleraWithoutMasterMaxTimesOut | modules/pacemaker_is_active.py:88-248 | with `master-max` unset, `galera` expects 1, so three promoted instances never match and the run times out after its whole budget |

## Left out

- XPath construction. The source splices the resource name into XPath text with `format`.
  The model assumes a name that keeps the expression well formed. Names containing quotes
  are not modelled: they would change or break the query.
- Process execution and parsing are not modelled. This covers `subprocess`, `_pipe_no_shell`,
  the `lxml` parse of `crm_mon` output and the `int()` conversion of command output. Their
  results are the `Cluster` oracles. A `crm_mon` failure and unparsable output are not modelled.
- `pcs property | grep -c <name>-role=true` counts lines, with `grep` treating the name as a
  regular expression. The model takes the count as given (`roleCount`).
- `sleep(1)` is represented only by the number of sleeps in the `Report`. The wall-clock
  duration is not modelled.
- The Ansible wrapper is not modelled: `AnsibleModule` parameter handling, `main`, and the
  message texts of `exit_json`/`fail_json`. A verdict carries no message.
- `max_wait` is taken as an integer. The `int()` parse of the parameter is not modelled. Nor
  is the difference between the documented default (3) and the declared default (5).
- The class-based API (`Resource`, `Clone`, `Master`, `Primitive`), which one version of the
  unit tests exercises, is not part of this model. The function-based module is modelled.
  The example lemmas reproduce the values those tests expect.
- A bundle kind, a `master` tag and an exact-match switch for the classifier are described
  for the system but are not present in this module's code. The model follows the code:
  only `resource` and `clone` elements are classified.
- The cluster document of the unit tests (`cluster_good.xml`) is not part of this model.
  `ExampleCib` is a smaller document of the same shape.
- `modules/pacemaker_cluster.py` and `modules/pacemaker_resource.py` are not part of this
  model. They are the cluster start/stop and resource management modules.
