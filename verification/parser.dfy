/**
 Structural extraction: turns an already-read element tree and a platform
 tag into a ParsedWorkflow, with the UiPath, Blue Prism and generic
 branches of the parser.
 */
module Parser {
  import opened Runtime
  import opened Text
  import opened Contracts

  /** One element of the document tree: its tag (possibly namespace-qualified
      as `{uri}Local`), its attributes, and its child elements in document order. */
  datatype Element = Element(tag: string, attrs: map<string, string>, children: seq<Element>)

  /** An element met on a document-order walk, with its number of ancestors. */
  datatype Node = Node(elem: Element, ancestors: nat)

  /** Pre-order walk of a forest whose roots have `d` ancestors. */
  function Walk(forest: seq<Element>, d: nat): (r: seq<Node>)
    ensures forall i :: 0 <= i < |r| ==> r[i].ancestors >= d
    ensures |forest| > 0 ==> |r| > 0 && r[0] == Node(forest[0], d)
    decreases forest
  {
    if |forest| == 0 then []
    else [Node(forest[0], d)] + Walk(forest[0].children, d + 1) + Walk(forest[1..], d)
  }

  /** `root.iter()`: the root and all its descendants in document order. */
  function Iter(root: Element): seq<Node> {
    Walk([root], 0)
  }

  // `root.findall(".//*")`: every descendant of the root, the root excluded.
  function Descendants(root: Element): seq<Node> {
    Walk(root.children, 1)
  }

  /** The walk from the root is the root followed by its descendants. */
  lemma IterSplit(root: Element)
    ensures Iter(root) == [Node(root, 0)] + Descendants(root)
  {
    assert [root][0] == root && [root][1..] == [];
    assert Walk([], 0) == [];
  }

  /** `el.get(key)` where only truthiness or the text matters: a missing
      attribute reads as the empty string, which Python also treats as false. */
  function Attr(e: Element, key: string): (r: string)
    ensures key !in e.attrs ==> r == ""
    ensures key in e.attrs ==> r == e.attrs[key]
  {
    if key in e.attrs then e.attrs[key] else ""
  }

  /** Concatenation of `f` over a walk, in walk order. */
  function FlatMap(nodes: seq<Node>, f: Node -> seq<string>): (r: seq<string>)
    ensures forall i, x :: 0 <= i < |nodes| && x in f(nodes[i]) ==> x in r
    ensures forall x :: x in r ==> exists i :: 0 <= i < |nodes| && x in f(nodes[i])
  {
    if |nodes| == 0 then []
    else
      var rest := FlatMap(nodes[1..], f);
      assert forall i :: 1 <= i < |nodes| ==> nodes[i] == nodes[1..][i - 1];
      f(nodes[0]) + rest
  }

  /** Concatenation commutes with walking the pieces one after the other. */
  lemma {:induction false} FlatMapAppend(a: seq<Node>, b: seq<Node>, f: Node -> seq<string>)
    ensures FlatMap(a + b, f) == FlatMap(a, f) + FlatMap(b, f)
  {
    if |a| == 0 {
      assert a + b == b;
    } else {
      assert (a + b)[0] == a[0];
      assert (a + b)[1..] == a[1..] + b;
      FlatMapAppend(a[1..], b, f);
      calc {
        FlatMap(a + b, f);
        f(a[0]) + FlatMap(a[1..] + b, f);
        f(a[0]) + (FlatMap(a[1..], f) + FlatMap(b, f));
        (f(a[0]) + FlatMap(a[1..], f)) + FlatMap(b, f);
      }
    }
  }

  /** When every node contributes at most one string, the result is no
      longer than the walk. */
  lemma {:induction false} FlatMapLength(nodes: seq<Node>, f: Node -> seq<string>)
    requires forall i :: 0 <= i < |nodes| ==> |f(nodes[i])| <= 1
    ensures |FlatMap(nodes, f)| <= |nodes|
  {
    if |nodes| > 0 {
      assert forall i :: 1 <= i < |nodes| ==> nodes[i] == nodes[1..][i - 1];
      FlatMapLength(nodes[1..], f);
    }
  }

  /** Each node's contribution sits in place: everything contributed by the
      nodes before it, then its own, then everything after it. */
  lemma FlatMapSplit(nodes: seq<Node>, i: nat, f: Node -> seq<string>)
    requires i < |nodes|
    ensures FlatMap(nodes, f) == FlatMap(nodes[..i], f) + f(nodes[i]) + FlatMap(nodes[i + 1..], f)
  {
    var pre, post := nodes[..i], nodes[i + 1..];
    SplitAt(nodes, i);
    FlatMapAppend(pre, [nodes[i]] + post, f);
    FlatMapCons(nodes[i], post, f);
    SeqAssociative(FlatMap(pre, f), f(nodes[i]), FlatMap(post, f));
  }

  lemma FlatMapCons(n: Node, post: seq<Node>, f: Node -> seq<string>)
    ensures FlatMap([n] + post, f) == f(n) + FlatMap(post, f)
  {
    assert ([n] + post)[1..] == post;
  }

  /** Largest ancestor count over the nodes that `counted` selects, 0 if none
      (Python's `max(..., default=0)`). */
  function MaxAncestors(nodes: seq<Node>, counted: Node -> bool): (r: nat)
    ensures forall i :: 0 <= i < |nodes| && counted(nodes[i]) ==> nodes[i].ancestors <= r
    ensures r == 0 || exists i :: 0 <= i < |nodes| && counted(nodes[i]) && nodes[i].ancestors == r
  {
    if |nodes| == 0 then 0
    else
      var rest := MaxAncestors(nodes[1..], counted);
      assert forall i :: 1 <= i < |nodes| ==> nodes[i] == nodes[1..][i - 1];
      var here := if counted(nodes[0]) then nodes[0].ancestors else 0;
      if here > rest then here else rest
  }

  // ---------------------------------------------------------------------
  // UiPath branch
  // ---------------------------------------------------------------------

  /** Infrastructure and metadata element names that never count as
      activities, variables or depth. */
  const IgnoredTags: set<string> := {
    "AssemblyReference",
    "TextExpression.NamespacesForImplementation",
    "TextExpression.ReferencesForImplementation",
    "WorkflowViewStateService.ViewState",
    "VisualBasic.Settings",
    "String",
    "Boolean",
    "Dictionary",
    "Collection",
    "sap2010:WorkflowViewState.IdRef"
  }

  /** Container elements that are walked through but are not activities. */
  const ContainerTags: set<string> := {"Sequence", "Flowchart"}

  /** The tag with any `{namespace}` qualification removed: the text after
      the last '}', or the tag unchanged when it has none. */
  function CleanTag(tag: string): (r: string)
    ensures '}' !in r
    ensures '}' !in tag ==> r == tag
    ensures |r| <= |tag| && r == tag[|tag| - |r|..]
    ensures '}' in tag ==> |r| < |tag| && tag[|tag| - |r| - 1] == '}'
  {
    AfterLast(tag, '}')
  }

  /** Metadata recognised by name pattern rather than by the ignore list. */
  predicate IsNoise(tag: string) {
    StartsWith(tag, "TextExpression") || EndsWith(tag, "Reference") || EndsWith(tag, "ViewState")
  }

  /** A cleaned tag the UiPath branch keeps. */
  predicate IsRetained(tag: string) {
    tag !in IgnoredTags && !IsNoise(tag)
  }

  /** The activity a node contributes: its cleaned tag, unless filtered out
      or a container. */
  function UiPathActivityOf(n: Node): seq<string> {
    var t := CleanTag(n.elem.tag);
    if IsRetained(t) && t !in ContainerTags then [t] else []
  }

  /** The variable a node contributes: its non-empty `Name`, containers included. */
  function UiPathVariableOf(n: Node): seq<string> {
    var t := CleanTag(n.elem.tag);
    if IsRetained(t) && Attr(n.elem, "Name") != "" then [Attr(n.elem, "Name")] else []
  }

  /** Depth counts every node not on the ignore list; name-pattern noise still counts. */
  predicate CountsForUiPathDepth(n: Node) {
    CleanTag(n.elem.tag) !in IgnoredTags
  }

  function ParseUiPath(root: Element): (p: ParsedWorkflow)
    ensures p.platform == "UiPath"
    ensures forall a :: a in p.activities ==> IsRetained(a) && a !in ContainerTags && '}' !in a
    ensures forall v :: v in p.variables ==> v != ""
    ensures |p.activities| <= |Iter(root)| && |p.variables| <= |Iter(root)|
    ensures p.activities == FlatMap(Iter(root), UiPathActivityOf)
    ensures p.variables == FlatMap(Iter(root), UiPathVariableOf)
  {
    var nodes := Iter(root);
    UiPathSound(nodes);
    ParsedWorkflow(
      "UiPath",
      FlatMap(nodes, UiPathActivityOf),
      FlatMap(nodes, UiPathVariableOf),
      MaxAncestors(nodes, CountsForUiPathDepth))
  }

  /** What one node contributes to the UiPath branch. */
  lemma UiPathNodeSound(n: Node)
    ensures |UiPathActivityOf(n)| <= 1 && |UiPathVariableOf(n)| <= 1
    ensures forall a :: a in UiPathActivityOf(n) ==> IsRetained(a) && a !in ContainerTags && '}' !in a
    ensures forall v :: v in UiPathVariableOf(n) ==> v != ""
  {
  }

  /** What the UiPath branch keeps from any walk: cleaned, retained,
      non-container tags and non-empty names, at most one of each per node. */
  lemma UiPathSound(nodes: seq<Node>)
    ensures forall a :: a in FlatMap(nodes, UiPathActivityOf) ==> IsRetained(a) && a !in ContainerTags && '}' !in a
    ensures forall v :: v in FlatMap(nodes, UiPathVariableOf) ==> v != ""
    ensures |FlatMap(nodes, UiPathActivityOf)| <= |nodes| && |FlatMap(nodes, UiPathVariableOf)| <= |nodes|
  {
    forall i | 0 <= i < |nodes|
      ensures |UiPathActivityOf(nodes[i])| <= 1 && |UiPathVariableOf(nodes[i])| <= 1
    {
      UiPathNodeSound(nodes[i]);
    }
    FlatMapLength(nodes, UiPathActivityOf);
    FlatMapLength(nodes, UiPathVariableOf);
    forall a | a in FlatMap(nodes, UiPathActivityOf)
      ensures IsRetained(a) && a !in ContainerTags && '}' !in a
    {
      var i :| 0 <= i < |nodes| && a in UiPathActivityOf(nodes[i]);
      UiPathNodeSound(nodes[i]);
    }
    forall v | v in FlatMap(nodes, UiPathVariableOf)
      ensures v != ""
    {
      var i :| 0 <= i < |nodes| && v in UiPathVariableOf(nodes[i]);
      UiPathNodeSound(nodes[i]);
    }
  }

  /** Every retained non-container element contributes its cleaned tag, and
      every retained element with a non-empty `Name` contributes it as a
      variable, even a Sequence or Flowchart. */
  lemma UiPathComplete(root: Element, i: nat)
    requires i < |Iter(root)|
    ensures var t := CleanTag(Iter(root)[i].elem.tag);
            IsRetained(t) && t !in ContainerTags ==> t in ParseUiPath(root).activities
    ensures var n := Iter(root)[i];
            IsRetained(CleanTag(n.elem.tag)) && Attr(n.elem, "Name") != "" ==>
              Attr(n.elem, "Name") in ParseUiPath(root).variables
  {
    var n := Iter(root)[i];
    assert CleanTag(n.elem.tag) !in ContainerTags && IsRetained(CleanTag(n.elem.tag)) ==>
      CleanTag(n.elem.tag) in UiPathActivityOf(n);
    assert IsRetained(CleanTag(n.elem.tag)) && Attr(n.elem, "Name") != "" ==>
      Attr(n.elem, "Name") in UiPathVariableOf(n);
  }

  /** The UiPath lists follow document order: element `i` of the walk
      contributes in place, after everything the elements before it
      contribute and before everything the elements after it contribute. */
  lemma UiPathInDocumentOrder(root: Element, i: nat)
    requires i < |Iter(root)|
    ensures ParseUiPath(root).activities ==
      FlatMap(Iter(root)[..i], UiPathActivityOf) + UiPathActivityOf(Iter(root)[i])
      + FlatMap(Iter(root)[i + 1..], UiPathActivityOf)
    ensures ParseUiPath(root).variables ==
      FlatMap(Iter(root)[..i], UiPathVariableOf) + UiPathVariableOf(Iter(root)[i])
      + FlatMap(Iter(root)[i + 1..], UiPathVariableOf)
  {
    FlatMapSplit(Iter(root), i, UiPathActivityOf);
    FlatMapSplit(Iter(root), i, UiPathVariableOf);
  }

  /** The UiPath depth is the largest ancestor count among elements whose
      cleaned tag is not on the ignore list. */
  lemma UiPathDepthIsMax(root: Element)
    ensures forall i :: 0 <= i < |Iter(root)| && CleanTag(Iter(root)[i].elem.tag) !in IgnoredTags ==>
      Iter(root)[i].ancestors <= ParseUiPath(root).nestingDepth
    ensures ParseUiPath(root).nestingDepth == 0 ||
      (exists i :: 0 <= i < |Iter(root)| && CleanTag(Iter(root)[i].elem.tag) !in IgnoredTags &&
                   Iter(root)[i].ancestors == ParseUiPath(root).nestingDepth)
  {
    var nodes := Iter(root);
    assert forall i :: 0 <= i < |nodes| ==> (CountsForUiPathDepth(nodes[i]) <==> CleanTag(nodes[i].elem.tag) !in IgnoredTags);
  }

  /** The root comes first: a retained non-container root is the first activity. */
  lemma UiPathRootFirst(root: Element)
    requires IsRetained(CleanTag(root.tag)) && CleanTag(root.tag) !in ContainerTags
    ensures |ParseUiPath(root).activities| > 0
    ensures ParseUiPath(root).activities[0] == CleanTag(root.tag)
  {
    IterSplit(root);
    FlatMapAppend([Node(root, 0)], Descendants(root), UiPathActivityOf);
    assert FlatMap([Node(root, 0)], UiPathActivityOf) == [CleanTag(root.tag)];
  }

  /** A root with no children has depth 0 and is its own only activity (when kept). */
  lemma UiPathLoneRoot(root: Element)
    requires root.children == []
    ensures ParseUiPath(root).nestingDepth == 0
    ensures ParseUiPath(root).activities == UiPathActivityOf(Node(root, 0))
  {
    assert [root][0] == root && [root][1..] == [];
    assert Walk(root.children, 1) == [] && Walk([], 0) == [];
    assert Iter(root) == [Node(root, 0)];
    assert ParseUiPath(root).activities == FlatMap([Node(root, 0)], UiPathActivityOf);
  }

  // ---------------------------------------------------------------------
  // Blue Prism branch
  // ---------------------------------------------------------------------

  /** `el.get("name") or el.tag` */
  function NameOrTag(e: Element): (r: string)
    ensures Attr(e, "name") != "" ==> r == Attr(e, "name")
    ensures Attr(e, "name") == "" ==> r == e.tag
  {
    if Attr(e, "name") != "" then Attr(e, "name") else e.tag
  }

  /** The name of a descendant matched by `findall(".//stage")`. */
  function StageName(n: Node): seq<string> {
    if n.elem.tag == "stage" then [NameOrTag(n.elem)] else []
  }

  /** The name of a descendant matched by `findall(".//action")`. */
  function ActionName(n: Node): seq<string> {
    if n.elem.tag == "action" then [NameOrTag(n.elem)] else []
  }

  /** The non-empty name of a descendant matched by `findall(".//variable")`. */
  function BluePrismVariableOf(n: Node): seq<string> {
    if n.elem.tag == "variable" && Attr(n.elem, "name") != "" then [Attr(n.elem, "name")] else []
  }

  /** Every descendant counts for depth. */
  predicate EveryNode(n: Node) {
    true
  }

  /** Stages first, then actions, grouped rather than interleaved. */
  function ParseBluePrism(root: Element): (p: ParsedWorkflow)
    ensures p.platform == "Blue Prism"
    ensures p.activities == FlatMap(Descendants(root), StageName) + FlatMap(Descendants(root), ActionName)
    ensures p.variables == FlatMap(Descendants(root), BluePrismVariableOf)
    ensures p.nestingDepth == MaxAncestors(Descendants(root), EveryNode)
    ensures forall v :: v in p.variables ==> v != ""
    ensures forall v :: v in p.variables ==> exists i :: (0 <= i < |Descendants(root)| &&
      Descendants(root)[i].elem.tag == "variable" && Attr(Descendants(root)[i].elem, "name") == v)
  {
    var nodes := Descendants(root);
    ParsedWorkflow(
      "Blue Prism",
      FlatMap(nodes, StageName) + FlatMap(nodes, ActionName),
      FlatMap(nodes, BluePrismVariableOf),
      MaxAncestors(nodes, EveryNode))
  }

  /** Every stage or action element below the root yields an activity named
      by its `name`, or by its tag when it has none. */
  lemma BluePrismComplete(root: Element, i: nat)
    requires i < |Descendants(root)|
    requires Descendants(root)[i].elem.tag in {"stage", "action"}
    ensures NameOrTag(Descendants(root)[i].elem) in ParseBluePrism(root).activities
  {
    var n := Descendants(root)[i];
    if n.elem.tag == "stage" {
      assert NameOrTag(n.elem) in StageName(n);
    } else {
      assert NameOrTag(n.elem) in ActionName(n);
    }
  }

  /** Every `variable` element below the root with a non-empty `name`
      yields that name as a variable, in document order. */
  lemma BluePrismVariablesComplete(root: Element, i: nat)
    requires i < |Descendants(root)|
    requires Descendants(root)[i].elem.tag == "variable" && Attr(Descendants(root)[i].elem, "name") != ""
    ensures ParseBluePrism(root).variables ==
      FlatMap(Descendants(root)[..i], BluePrismVariableOf) + [Attr(Descendants(root)[i].elem, "name")]
      + FlatMap(Descendants(root)[i + 1..], BluePrismVariableOf)
  {
    FlatMapSplit(Descendants(root), i, BluePrismVariableOf);
  }

  // ---------------------------------------------------------------------
  // Generic branch
  // ---------------------------------------------------------------------

  /** `el.get("Name") or el.get("name")` */
  function NameAttr(e: Element): string {
    if Attr(e, "Name") != "" then Attr(e, "Name") else Attr(e, "name")
  }

  /** A tag of the activity list: every descendant counts. */
  function TagOf(n: Node): seq<string> {
    [n.elem.tag]
  }

  // Selected by `findall(".//*[@Name]")` and kept when the value is non-empty.
  function WithNameUpper(n: Node): seq<string> {
    if "Name" in n.elem.attrs && NameAttr(n.elem) != "" then [NameAttr(n.elem)] else []
  }

  // Selected by `findall(".//*[@name]")` and kept when the value is non-empty.
  function WithNameLower(n: Node): seq<string> {
    if "name" in n.elem.attrs && NameAttr(n.elem) != "" then [NameAttr(n.elem)] else []
  }

  /** `v` is the non-empty `Name or name` value of a node carrying one of
      the two attributes. */
  predicate NamedBy(n: Node, v: string) {
    ("Name" in n.elem.attrs || "name" in n.elem.attrs) && NameAttr(n.elem) == v && v != ""
  }

  /** Every generic variable is the name of a node carrying `Name` or `name`. */
  lemma GenericVariablesSound(nodes: seq<Node>)
    ensures forall v :: v in FlatMap(nodes, WithNameUpper) + FlatMap(nodes, WithNameLower) ==>
      exists i :: 0 <= i < |nodes| && NamedBy(nodes[i], v)
  {
    forall v | v in FlatMap(nodes, WithNameUpper) + FlatMap(nodes, WithNameLower)
      ensures exists i :: 0 <= i < |nodes| && NamedBy(nodes[i], v)
    {
      if v in FlatMap(nodes, WithNameUpper) {
        var i :| 0 <= i < |nodes| && v in WithNameUpper(nodes[i]);
        assert NamedBy(nodes[i], v);
      } else {
        var i :| 0 <= i < |nodes| && v in WithNameLower(nodes[i]);
        assert NamedBy(nodes[i], v);
      }
    }
  }

  function ParseGeneric(root: Element, platform: string): (p: ParsedWorkflow)
    ensures p.platform == platform
    ensures |p.activities| == |Descendants(root)|
    ensures forall i :: 0 <= i < |p.activities| ==> p.activities[i] == Descendants(root)[i].elem.tag
    ensures p.variables == FlatMap(Descendants(root), WithNameUpper) + FlatMap(Descendants(root), WithNameLower)
    ensures p.nestingDepth == MaxAncestors(Descendants(root), EveryNode)
    ensures forall v :: v in p.variables ==> v != ""
    ensures forall v :: v in p.variables ==> exists i :: 0 <= i < |Descendants(root)| && NamedBy(Descendants(root)[i], v)
  {
    var nodes := Descendants(root);
    var acts := FlatMap(nodes, TagOf);
    GenericTags(nodes);
    GenericVariablesSound(nodes);
    ParsedWorkflow(
      platform,
      acts,
      FlatMap(nodes, WithNameUpper) + FlatMap(nodes, WithNameLower),
      MaxAncestors(nodes, EveryNode))
  }

  /** The tag list of a walk is the walk's tags, position by position. */
  lemma {:induction false} GenericTags(nodes: seq<Node>)
    ensures |FlatMap(nodes, TagOf)| == |nodes|
    ensures forall i :: 0 <= i < |nodes| ==> FlatMap(nodes, TagOf)[i] == nodes[i].elem.tag
  {
    if |nodes| > 0 {
      GenericTags(nodes[1..]);
    }
  }

  /** Every descendant with a `Name` attribute and a non-empty
      `Name or name` value is listed, in place, in the first half of the
      variables; every one with a `name` attribute is listed in the second
      half. An element carrying both attributes is therefore listed twice. */
  lemma GenericVariablesComplete(root: Element, i: nat)
    requires i < |Descendants(root)|
    ensures var n := Descendants(root)[i];
      "Name" in n.elem.attrs && NameAttr(n.elem) != "" ==>
        FlatMap(Descendants(root), WithNameUpper) ==
          FlatMap(Descendants(root)[..i], WithNameUpper) + [NameAttr(n.elem)]
          + FlatMap(Descendants(root)[i + 1..], WithNameUpper)
    ensures var n := Descendants(root)[i];
      "name" in n.elem.attrs && NameAttr(n.elem) != "" ==>
        FlatMap(Descendants(root), WithNameLower) ==
          FlatMap(Descendants(root)[..i], WithNameLower) + [NameAttr(n.elem)]
          + FlatMap(Descendants(root)[i + 1..], WithNameLower)
  {
    FlatMapSplit(Descendants(root), i, WithNameUpper);
    FlatMapSplit(Descendants(root), i, WithNameLower);
  }

  /** A single child carrying both `Name` and `name` is listed twice, both
      times by its `Name`. */
  lemma GenericBothAttributesTwice(root: Element, upper: string, lower: string)
    requires |root.children| == 1
    requires root.children[0].children == []
    requires root.children[0].attrs == map["Name" := upper, "name" := lower]
    requires upper != ""
    ensures ParseGeneric(root, "").variables == [upper, upper]
  {
    var c := root.children[0];
    assert root.children[1..] == [];
    assert Walk(c.children, 2) == [] && Walk([], 1) == [];
    assert Descendants(root) == [Node(c, 1)];
    assert FlatMap([Node(c, 1)], WithNameUpper) == [upper];
    assert FlatMap([Node(c, 1)], WithNameLower) == [upper];
  }

  // ---------------------------------------------------------------------
  // Dispatch
  // ---------------------------------------------------------------------

  /** `parse_workflow` after the document is read: "UiPath" and "Blue Prism"
      select their branches, any other platform string the generic one, and
      the platform string is returned unchanged. */
  function ParseWorkflow(root: Element, platform: string): (p: ParsedWorkflow)
    ensures p.platform == platform
    ensures platform == "UiPath" ==> p == ParseUiPath(root)
    ensures platform == "Blue Prism" ==> p == ParseBluePrism(root)
    ensures platform != "UiPath" && platform != "Blue Prism" ==> p == ParseGeneric(root, platform)
  {
    if platform == "UiPath" then ParseUiPath(root)
    else if platform == "Blue Prism" then ParseBluePrism(root)
    else ParseGeneric(root, platform)
  }

  /** Outside the UiPath branch depth only looks below the root, so an element
      with children has depth at least 1 and a childless one depth 0. */
  lemma DescendantDepth(root: Element, platform: string)
    requires platform != "UiPath"
    ensures root.children == [] ==> ParseWorkflow(root, platform).nestingDepth == 0
    ensures root.children != [] ==> ParseWorkflow(root, platform).nestingDepth >= 1
  {
    var nodes := Descendants(root);
    if root.children != [] {
      assert EveryNode(nodes[0]);
    }
  }

  /** What one walked node contributes to the UiPath branch: nothing when
      its cleaned tag is ignored or noise; its `Name` but no activity when it
      is a Sequence or Flowchart; otherwise its cleaned tag as an activity,
      and its non-empty `Name` as a variable. */
  lemma UiPathNodeFilter(n: Node)
    ensures var t := CleanTag(n.elem.tag);
      (t in IgnoredTags || IsNoise(t)) ==> UiPathActivityOf(n) == [] && UiPathVariableOf(n) == []
    ensures var t := CleanTag(n.elem.tag);
      IsRetained(t) && t in ContainerTags ==> UiPathActivityOf(n) == []
    ensures var t := CleanTag(n.elem.tag);
      IsRetained(t) && t !in ContainerTags ==> UiPathActivityOf(n) == [t]
    ensures var t := CleanTag(n.elem.tag);
      IsRetained(t) && Attr(n.elem, "Name") != "" ==> UiPathVariableOf(n) == [Attr(n.elem, "Name")]
  {
  }

  /** The two containers pass the filters, so their `Name`s are kept;
      assembly references do not. */
  lemma ContainersAreRetained()
    ensures IsRetained("Sequence") && IsRetained("Flowchart") && !IsRetained("AssemblyReference")
  {
  }

  /** The depth filter is looser than the activity filter: a noise node,
      such as a `TextExpression...` element, that is not on the ignored list
      adds nothing to either list but still counts for the depth. */
  lemma NoiseCountsForDepth(n: Node)
    requires CleanTag(n.elem.tag) !in IgnoredTags && IsNoise(CleanTag(n.elem.tag))
    ensures CountsForUiPathDepth(n) && UiPathActivityOf(n) == [] && UiPathVariableOf(n) == []
  {
  }

}
