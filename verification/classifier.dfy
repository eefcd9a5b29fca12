// `resource_type_of`: infer a resource's kind from the first `//resources/*` element
// whose `id` contains the queried name.
module Classifier {
  import opened Results
  import opened Text
  import opened Cib

  /** The three resource kinds the readiness check knows; "no kind" is `None`. */
  datatype Kind = Primitive | Clone | Master

  /** The element's `id` contains the query (XPath `contains(@id, name)`). Substring
      rather than equality, so that `galera` finds `galera-master`. */
  predicate Matches(e: Element, name: string)
  {
    Contains(IdString(e), name)
  }

  /** The kind a matched element denotes: a `resource` element is a primitive, a
      `clone` element is a clone or a master according to its `multi_state` attribute
      ("false" or "true"); every other tag or `multi_state` value gives no kind. */
  function KindOf(e: Element): (r: Option<Kind>)
    ensures r == Some(Primitive) <==> e.tag == "resource"
    ensures r == Some(Clone) <==> e.tag == "clone" && Attr(e, "multi_state") == Some("false")
    ensures r == Some(Master) <==> e.tag == "clone" && Attr(e, "multi_state") == Some("true")
  {
    if e.tag == "resource" then Some(Primitive)
    else if e.tag == "clone" then
      if Attr(e, "multi_state") == Some("false") then Some(Clone)
      else if Attr(e, "multi_state") == Some("true") then Some(Master)
      else None
    else None
  }

  /** Index of the first candidate at or after position `k` whose `id` contains `name`,
      or `None` when none does. */
  function FirstMatchFrom(candidates: seq<Element>, name: string, k: nat): (r: Option<nat>)
    requires k <= |candidates|
    ensures r.None? <==> forall i :: k <= i < |candidates| ==> !Matches(candidates[i], name)
    ensures r.Some? ==> k <= r.value < |candidates| && Matches(candidates[r.value], name)
    ensures r.Some? ==> forall j :: k <= j < r.value ==> !Matches(candidates[j], name)
    decreases |candidates| - k
  {
    if k == |candidates| then None
    else if Matches(candidates[k], name) then Some(k)
    else FirstMatchFrom(candidates, name, k + 1)
  }

  /** Index of the first candidate whose `id` contains `name`, or `None` when none does. */
  function FirstMatch(candidates: seq<Element>, name: string): (r: Option<nat>)
    ensures r.None? <==> forall i :: 0 <= i < |candidates| ==> !Matches(candidates[i], name)
    ensures r.Some? ==> r.value < |candidates| && Matches(candidates[r.value], name)
    ensures r.Some? ==> forall j :: 0 <= j < r.value ==> !Matches(candidates[j], name)
  {
    FirstMatchFrom(candidates, name, 0)
  }

  /** The classification of an ordered candidate list: the kind of the first candidate
      whose `id` contains `name`, and no kind when no candidate matches. */
  function Classify(candidates: seq<Element>, name: string): (r: Option<Kind>)
    ensures (forall i :: 0 <= i < |candidates| ==> !Matches(candidates[i], name)) ==> r == None
    ensures forall i ::
              (0 <= i < |candidates| && Matches(candidates[i], name) &&
               forall j :: 0 <= j < i ==> !Matches(candidates[j], name)) ==> r == KindOf(candidates[i])
  {
    match FirstMatch(candidates, name)
    case None => None
    case Some(i) =>
      FirstMatchIsUnique(candidates, name, i);
      KindOf(candidates[i])
  }

  /** Only one position can be the first whose candidate matches. */
  lemma FirstMatchIsUnique(candidates: seq<Element>, name: string, i: nat)
    requires i < |candidates| && Matches(candidates[i], name)
    requires forall j :: 0 <= j < i ==> !Matches(candidates[j], name)
    ensures forall k ::
              (0 <= k < |candidates| && Matches(candidates[k], name) &&
               forall j :: 0 <= j < k ==> !Matches(candidates[j], name)) ==> k == i
  {
  }

  /** `resource_type_of(name)` on the document `doc`. */
  function ResourceTypeOf(doc: Element, name: string): (r: Option<Kind>)
    ensures (forall x :: x in ResourcesChildren(doc) ==> !Matches(x, name)) ==> r == None
    ensures forall i ::
              (0 <= i < |ResourcesChildren(doc)| && Matches(ResourcesChildren(doc)[i], name) &&
               forall j :: 0 <= j < i ==> !Matches(ResourcesChildren(doc)[j], name)) ==>
              r == KindOf(ResourcesChildren(doc)[i])
  {
    Classify(ResourcesChildren(doc), name)
  }

  /** Candidates after the first match never influence the classification. */
  lemma {:induction false} LaterCandidatesIrrelevant(front: seq<Element>, back: seq<Element>, name: string)
    requires exists i :: 0 <= i < |front| && Matches(front[i], name)
    ensures Classify(front + back, name) == Classify(front, name)
  {
    var i := FirstMatch(front, name).value;
    var all := front + back;
    assert all[i] == front[i];
    forall j | 0 <= j < i
      ensures !Matches(all[j], name)
    {
      assert all[j] == front[j];
    }
  }

  /** Candidates whose `id` does not contain the query can be dropped from the front
      without changing the classification. */
  lemma {:induction false} NonMatchingPrefixIrrelevant(front: seq<Element>, back: seq<Element>, name: string)
    requires forall i :: 0 <= i < |front| ==> !Matches(front[i], name)
    ensures Classify(front + back, name) == Classify(back, name)
  {
    var all := front + back;
    forall i | 0 <= i < |back|
      ensures all[|front| + i] == back[i]
    {
    }
    match FirstMatch(back, name)
    case None =>
      forall k | 0 <= k < |all|
        ensures !Matches(all[k], name)
      {
        if k >= |front| {
          assert all[k] == back[k - |front|];
        }
      }
    case Some(b) =>
      assert Matches(all[|front| + b], name);
      forall k | 0 <= k < |front| + b
        ensures !Matches(all[k], name)
      {
        if k >= |front| {
          assert all[k] == back[k - |front|];
        }
      }
  }

  /** The substring match is deliberate: when the first candidate's `id` is the query
      wrapped by any prefix and suffix (`haproxy-clone` for `haproxy`), that candidate
      decides the kind. It is also the source of false positives: a query of
      `ip-192.168.24.1` is decided by an earlier `ip-192.168.24.10`. */
  lemma WrappedIdDecides(e: Element, rest: seq<Element>, prefix: string, name: string, suffix: string)
    requires IdString(e) == prefix + name + suffix
    ensures Classify([e] + rest, name) == KindOf(e)
  {
    ContainedInAnySurrounding(prefix, name, suffix);
    assert ([e] + rest)[0] == e;
  }
}
