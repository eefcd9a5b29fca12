// The parsed `crm_mon -r --as-xml` document and the two XPath selections the
// readiness check evaluates on it: `//resources/*` (the classifier's candidates)
// and `//resource` (the instances the current counts filter).
// (Comments that quote `//resources/*` are line comments, because a `/*` inside a
// block comment would open a nested one.)
module Cib {
  import opened Results

  /** An XML element: its tag, its attributes and its child elements in document order. */
  datatype Element = Element(tag: string, attrs: map<string, string>, children: seq<Element>)

  /** `e.get(name)`: the attribute's value, or `None` when it is absent. */
  function Attr(e: Element, name: string): (r: Option<string>)
    ensures r.Some? <==> name in e.attrs
    ensures r.Some? ==> r.value == e.attrs[name]
  {
    if name in e.attrs then Some(e.attrs[name]) else None
  }

  /** The XPath string value of `@id`: the empty string when the attribute is absent. */
  function IdString(e: Element): string
  {
    match Attr(e, "id")
    case Some(v) => v
    case None => ""
  }

  /** `descendant-or-self::*` of `e`, in document (preorder) order. */
  function Nodes(e: Element): (r: seq<Element>)
    ensures |r| >= 1 && r[0] == e
    decreases e, 1
  {
    [e] + NodesOfAll(e.children)
  }

  /** The elements of a forest of siblings, each subtree in document order. */
  function NodesOfAll(es: seq<Element>): seq<Element>
    decreases es, 0
  {
    if es == [] then [] else Nodes(es[0]) + NodesOfAll(es[1..])
  }

  /** Elements of the subtree of `e` whose parent is a `resources` element, in document
      order; `parentIsResources` says whether `e`'s own parent is one. */
  function UnderResources(e: Element, parentIsResources: bool): seq<Element>
    decreases e, 1
  {
    (if parentIsResources then [e] else []) + UnderResourcesAll(e.children, e.tag == "resources")
  }

  /** `UnderResources` over a forest of siblings sharing one parent. */
  function UnderResourcesAll(es: seq<Element>, parentIsResources: bool): seq<Element>
    decreases es, 0
  {
    if es == [] then [] else UnderResources(es[0], parentIsResources) + UnderResourcesAll(es[1..], parentIsResources)
  }

  // XPath `//resources/*` evaluated on the document whose root element is `doc`: every
  // element whose parent is a `resources` element, in document order. The root's parent
  // is the document node, never an element.
  function ResourcesChildren(doc: Element): seq<Element>
  {
    UnderResources(doc, false)
  }

  /** The elements of `xs` carrying tag `tag`, in their original order. */
  function Tagged(xs: seq<Element>, tag: string): (r: seq<Element>)
    ensures |r| <= |xs|
    ensures forall x :: x in r <==> x in xs && x.tag == tag
  {
    if xs == [] then []
    else (if xs[0].tag == tag then [xs[0]] else []) + Tagged(xs[1..], tag)
  }

  /** Selecting by tag distributes over concatenation and so keeps document order. */
  lemma {:induction false} TaggedAppend(xs: seq<Element>, ys: seq<Element>, tag: string)
    ensures Tagged(xs + ys, tag) == Tagged(xs, tag) + Tagged(ys, tag)
    decreases |xs|
  {
    if xs != [] {
      var head := if xs[0].tag == tag then [xs[0]] else [];
      assert (xs + ys)[0] == xs[0];
      assert (xs + ys)[1..] == xs[1..] + ys;
      TaggedAppend(xs[1..], ys, tag);
      assert Tagged(xs + ys, tag) == head + Tagged(xs[1..] + ys, tag);
      assert head + (Tagged(xs[1..], tag) + Tagged(ys, tag)) == (head + Tagged(xs[1..], tag)) + Tagged(ys, tag);
    } else {
      assert xs + ys == ys;
    }
  }

  /** A forest of leaves is its own list of elements. */
  lemma {:induction false} LeavesAreTheirOwnNodes(es: seq<Element>)
    requires forall i :: 0 <= i < |es| ==> es[i].children == []
    ensures NodesOfAll(es) == es
    decreases |es|
  {
    if es != [] {
      LeavesAreTheirOwnNodes(es[1..]);
      assert Nodes(es[0]) == [es[0]] + NodesOfAll([]);
    }
  }

  /** Selecting by tag keeps a list whose elements all carry that tag. */
  lemma {:induction false} AllTagged(es: seq<Element>, tag: string)
    requires forall i :: 0 <= i < |es| ==> es[i].tag == tag
    ensures Tagged(es, tag) == es
    decreases |es|
  {
    if es != [] {
      AllTagged(es[1..], tag);
    }
  }

  /** A wrapper (such as a `clone`) whose children are leaf `tag` elements contributes
      exactly those children, in order, to the selection by `tag`. */
  lemma GroupOfLeaves(c: Element, tag: string)
    requires c.tag != tag
    requires forall i :: 0 <= i < |c.children| ==> c.children[i].tag == tag && c.children[i].children == []
    ensures Tagged(Nodes(c), tag) == c.children
  {
    LeavesAreTheirOwnNodes(c.children);
    AllTagged(c.children, tag);
    TaggedAppend([c], c.children, tag);
  }

  /** XPath `//resource`: every `resource` element of the document, in document order. */
  function ResourceElements(doc: Element): (r: seq<Element>)
    ensures forall x :: x in r <==> x in Nodes(doc) && x.tag == "resource"
  {
    Tagged(Nodes(doc), "resource")
  }

  /** No element of the subtree rooted at `e` is a `resources` element. */
  ghost predicate NoResourcesSection(e: Element)
  {
    forall x :: x in Nodes(e) ==> x.tag != "resources"
  }

  /** Inside a subtree without any `resources` element, nothing lies under a
      `resources` parent except, possibly, the subtree's own root. */
  lemma {:induction false} NoSectionSelectsAtMostRoot(e: Element, parentIsResources: bool)
    requires NoResourcesSection(e)
    ensures UnderResources(e, parentIsResources) == (if parentIsResources then [e] else [])
    decreases e, 1
  {
    assert e in Nodes(e);
    forall i | 0 <= i < |e.children|
      ensures NoResourcesSection(e.children[i])
    {
      SubtreeNodesIncluded(e.children, i);
    }
    NoSectionForestSelectsNothing(e.children);
  }

  /** Every element of a sibling's subtree is an element of the forest. */
  lemma {:induction false} SubtreeNodesIncluded(es: seq<Element>, i: int)
    requires 0 <= i < |es|
    ensures forall x :: x in Nodes(es[i]) ==> x in NodesOfAll(es)
    decreases i
  {
    if i > 0 {
      SubtreeNodesIncluded(es[1..], i - 1);
      assert es[1..][i - 1] == es[i];
    }
  }

  /** The walk of an element covers the whole subtree: every element of each child's
      subtree is an element of the parent's walk. */
  lemma ChildSubtreesIncluded(e: Element, i: int)
    requires 0 <= i < |e.children|
    ensures forall x :: x in Nodes(e.children[i]) ==> x in Nodes(e)
  {
    SubtreeNodesIncluded(e.children, i);
  }

  /** The forest form of `NoSectionSelectsAtMostRoot`, for a non-`resources` parent. */
  lemma {:induction false} NoSectionForestSelectsNothing(es: seq<Element>)
    requires forall i :: 0 <= i < |es| ==> NoResourcesSection(es[i])
    ensures UnderResourcesAll(es, false) == []
    decreases es, 0
  {
    if es != [] {
      NoSectionSelectsAtMostRoot(es[0], false);
      NoSectionForestSelectsNothing(es[1..]);
    }
  }

  /** The children of a `resources` element are selected exactly, when none of them
      holds a nested `resources` element. */
  lemma {:induction false} SectionSelectsItsChildren(es: seq<Element>)
    requires forall i :: 0 <= i < |es| ==> NoResourcesSection(es[i])
    ensures UnderResourcesAll(es, true) == es
    decreases es
  {
    if es != [] {
      NoSectionSelectsAtMostRoot(es[0], true);
      SectionSelectsItsChildren(es[1..]);
    }
  }

  /** Every child of a `resources` parent is selected by that parent's forest. */
  lemma {:induction false} ChildOfSectionSelected(es: seq<Element>, c: Element)
    requires c in es
    ensures c in UnderResourcesAll(es, true)
    decreases |es|
  {
    if es[0] != c {
      assert c in es[1..];
      ChildOfSectionSelected(es[1..], c);
    }
  }

  // Completeness of `//resources/*` on a subtree: a child of any `resources` element of
  // the subtree is selected.
  lemma {:induction false} UnderResourcesComplete(e: Element, parentIsResources: bool, s: Element, c: Element)
    requires s in Nodes(e) && s.tag == "resources" && c in s.children
    ensures c in UnderResources(e, parentIsResources)
    decreases e, 1
  {
    if s == e {
      ChildOfSectionSelected(e.children, c);
    } else {
      UnderResourcesAllComplete(e.children, e.tag == "resources", s, c);
    }
  }

  /** The forest form of `UnderResourcesComplete`. */
  lemma {:induction false} UnderResourcesAllComplete(es: seq<Element>, parentIsResources: bool, s: Element, c: Element)
    requires s in NodesOfAll(es) && s.tag == "resources" && c in s.children
    ensures c in UnderResourcesAll(es, parentIsResources)
    decreases es, 0
  {
    if s in Nodes(es[0]) {
      UnderResourcesComplete(es[0], parentIsResources, s, c);
    } else {
      UnderResourcesAllComplete(es[1..], parentIsResources, s, c);
    }
  }

  // Soundness of `//resources/*` on a subtree: a selected element is the subtree's root
  // under a `resources` parent, or a child of a `resources` element `s` of the subtree.
  lemma {:induction false} UnderResourcesSound(e: Element, parentIsResources: bool, x: Element) returns (s: Element)
    requires x in UnderResources(e, parentIsResources)
    ensures (parentIsResources && x == e) || (s in Nodes(e) && s.tag == "resources" && x in s.children)
    decreases e, 1
  {
    s := e;
    if !(parentIsResources && x == e) {
      var inChildren, t := UnderResourcesAllSound(e.children, e.tag == "resources", x);
      if !inChildren {
        s := t;
      }
    }
  }

  /** The forest form of `UnderResourcesSound`: `inForest` says that `x` is one of the
      siblings themselves, selected because their parent is a `resources` element. */
  lemma {:induction false} UnderResourcesAllSound(es: seq<Element>, parentIsResources: bool, x: Element)
    returns (inForest: bool, s: Element)
    requires x in UnderResourcesAll(es, parentIsResources)
    ensures inForest ==> parentIsResources && x in es
    ensures !inForest ==> s in NodesOfAll(es) && s.tag == "resources" && x in s.children
    decreases es, 0
  {
    SubtreeNodesIncluded(es, 0);
    if x in UnderResources(es[0], parentIsResources) {
      s := UnderResourcesSound(es[0], parentIsResources, x);
      inForest := parentIsResources && x == es[0];
    } else {
      inForest, s := UnderResourcesAllSound(es[1..], parentIsResources, x);
      assert forall y :: y in es[1..] ==> y in es;
      assert NodesOfAll(es) == Nodes(es[0]) + NodesOfAll(es[1..]);
    }
  }

  // `//resources/*` holds exactly the elements whose parent is a `resources` element of
  // the document, for any document shape.
  lemma ResourcesChildrenMembers(doc: Element, x: Element)
    ensures x in ResourcesChildren(doc) <==>
              exists s :: s in Nodes(doc) && s.tag == "resources" && x in s.children
  {
    if x in ResourcesChildren(doc) {
      var s := UnderResourcesSound(doc, false, x);
    }
    forall s | s in Nodes(doc) && s.tag == "resources" && x in s.children
      ensures x in ResourcesChildren(doc)
    {
      UnderResourcesComplete(doc, false, s, x);
    }
  }

  // For the usual `crm_mon` shape, a root holding one `resources` section whose entries
  // contain no further `resources` element, `//resources/*` is exactly the section's
  // entries in order.
  lemma FlatSectionCandidates(rootTag: string, rootAttrs: map<string, string>,
                              sectionAttrs: map<string, string>, entries: seq<Element>)
    requires rootTag != "resources"
    requires forall i :: 0 <= i < |entries| ==> NoResourcesSection(entries[i])
    ensures ResourcesChildren(Element(rootTag, rootAttrs, [Element("resources", sectionAttrs, entries)])) == entries
  {
    var section := Element("resources", sectionAttrs, entries);
    SectionSelectsItsChildren(entries);
    assert UnderResources(section, false) == entries;
    assert UnderResourcesAll([section], false) == entries;
  }
}
