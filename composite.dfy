/** The Composite command: leaves and composites share one `operation`; a
    composite announces itself and then runs the operation of each child, in
    the order the children were added. */
module Composite {
  import opened LeafCommand

  const LeafLine: string := "Leaf operation."
  const CompositeLine: string := "Composite operation."

  /** A component tree; a composite's children are kept in insertion order. */
  datatype Component = Leaf | CompositeComponent(children: seq<Component>)

  /** `add`: the composite with one more child at the end. */
  function Add(c: Component, child: Component): (r: Component)
    requires c.CompositeComponent?
    ensures r.CompositeComponent? && r.children == c.children + [child]
  {
    CompositeComponent(c.children + [child])
  }

  /** What `operation` prints: the tree in pre-order, one line per node; a
      node's own line comes before everything its children print. */
  function Preorder(c: Component): (lines: seq<string>)
    ensures |lines| >= 1 && lines[0] == (if c.Leaf? then LeafLine else CompositeLine)
    ensures c.Leaf? ==> |lines| == 1
    decreases c, 1
  {
    match c
    case Leaf => [LeafLine]
    case CompositeComponent(children) => [CompositeLine] + PreorderAll(children, c)
  }

  /** The lines of the children, one subtree after the other. */
  function PreorderAll(cs: seq<Component>, ghost parent: Component): seq<string>
    requires forall k :: 0 <= k < |cs| ==> cs[k] < parent
    decreases parent, 0, |cs|
  {
    if |cs| == 0 then [] else PreorderAll(cs[..|cs| - 1], parent) + Preorder(cs[|cs| - 1])
  }

  /** `operation`, as the source runs it: print the own line, then run each
      child's operation. */
  method Operation(c: Component) returns (printed: seq<string>)
    ensures printed == Preorder(c)
    decreases c, 1
  {
    match c
    case Leaf =>
      printed := [LeafLine];
    case CompositeComponent(children) =>
      var rest := OperateChildren(children, c);
      printed := [CompositeLine] + rest;
  }

  /** The composite's loop over its children, each running its operation in turn. */
  method OperateChildren(children: seq<Component>, ghost parent: Component) returns (printed: seq<string>)
    requires forall k :: 0 <= k < |children| ==> children[k] < parent
    ensures printed == PreorderAll(children, parent)
    decreases parent, 0
  {
    printed := [];
    var i := 0;
    while i < |children|
      invariant 0 <= i <= |children|
      invariant printed == PreorderAll(children[..i], parent)
    {
      var lines := Operation(children[i]);
      PreorderAllStep(children, i, parent);
      printed := printed + lines;
      i := i + 1;
    }
    assert children[..i] == children;
  }

  /** The children's lines up to and including child `i`. */
  lemma PreorderAllStep(cs: seq<Component>, i: nat, parent: Component)
    requires forall k :: 0 <= k < |cs| ==> cs[k] < parent
    requires i < |cs|
    ensures PreorderAll(cs[..i + 1], parent) == PreorderAll(cs[..i], parent) + Preorder(cs[i])
  {
    assert cs[..i + 1][..i] == cs[..i];
  }

  /** Number of nodes in the tree. */
  function Size(c: Component): nat
    decreases c, 1
  {
    match c
    case Leaf => 1
    case CompositeComponent(children) => 1 + SizeAll(children, c)
  }

  function SizeAll(cs: seq<Component>, ghost parent: Component): nat
    requires forall k :: 0 <= k < |cs| ==> cs[k] < parent
    decreases parent, 0, |cs|
  {
    if |cs| == 0 then 0 else SizeAll(cs[..|cs| - 1], parent) + Size(cs[|cs| - 1])
  }

  /** Every node prints exactly one line, and the first line is the root's. */
  lemma {:induction false} OneLinePerNode(c: Component)
    ensures |Preorder(c)| == Size(c)
    ensures Preorder(c)[0] == (if c.Leaf? then LeafLine else CompositeLine)
    decreases c, 1
  {
    if c.CompositeComponent? {
      OneLinePerNodeAll(c.children, c);
    }
  }

  lemma {:induction false} OneLinePerNodeAll(cs: seq<Component>, parent: Component)
    requires forall k :: 0 <= k < |cs| ==> cs[k] < parent
    ensures |PreorderAll(cs, parent)| == SizeAll(cs, parent)
    decreases parent, 0, |cs|
  {
    if |cs| > 0 {
      OneLinePerNodeAll(cs[..|cs| - 1], parent);
      OneLinePerNode(cs[|cs| - 1]);
    }
  }

  /** Adding a child appends exactly that child's lines to the composite's output. */
  lemma AddAppendsChildOutput(c: Component, child: Component)
    requires c.CompositeComponent?
    ensures Preorder(Add(c, child)) == Preorder(c) + Preorder(child)
  {
    var d := Add(c, child);
    var cs := d.children;
    assert cs[..|cs| - 1] == c.children;
    PreorderAllParent(c.children, c, d);
  }

  /** The children's lines do not depend on which parent bounds them. */
  lemma {:induction false} PreorderAllParent(cs: seq<Component>, p: Component, q: Component)
    requires forall k :: 0 <= k < |cs| ==> cs[k] < p && cs[k] < q
    ensures PreorderAll(cs, p) == PreorderAll(cs, q)
    decreases |cs|
  {
    if |cs| > 0 {
      PreorderAllParent(cs[..|cs| - 1], p, q);
    }
  }

  /** What `exec` prints: the first leaf alone, then a composite holding both leaves. */
  method Exec() returns (printed: seq<string>)
    ensures printed == [LeafLine, CompositeLine, LeafLine, LeafLine]
  {
    var leaf1 := Leaf;
    var leaf2 := Leaf;
    var composite := CompositeComponent([]);
    composite := Add(composite, leaf1);
    composite := Add(composite, leaf2);
    printed := Operation(leaf1);
    var more := Operation(composite);
    assert composite == CompositeComponent([Leaf, Leaf]);
    TwoLeaves();
    printed := printed + more;
  }

  /** The demonstration's composite: its own line, then one line per leaf. */
  lemma TwoLeaves()
    ensures Preorder(CompositeComponent([Leaf, Leaf])) == [CompositeLine, LeafLine, LeafLine]
  {
    var c := CompositeComponent([Leaf, Leaf]);
    assert c.children[..1] == [Leaf];
    assert [Leaf][..0] == [];
    assert PreorderAll([Leaf], c) == [LeafLine];
    assert PreorderAll([Leaf, Leaf], c) == [LeafLine, LeafLine];
  }

  const DescriptionText: string := "[description] Composite"
  const ExampleCodeText: string := "[example code] Composite"

  /** The flow chart is not written yet: always the empty string. */
  function FlowChart(): string {
    ""
  }

  /** The demonstration's output as a value (established by `Exec`). */
  const DemoLines: seq<string> := [LeafLine, CompositeLine, LeafLine, LeafLine]

  function Texts(): LeafTexts {
    LeafTexts(DescriptionText, FlowChart(), ExampleCodeText, Returns(DemoLines))
  }

  /** `run`: the output-selection loop, running the demonstration's objects. */
  method Run(outputs: seq<OutputChoice>) returns (r: LeafResult)
    ensures r == LeafOutput(outputs, Texts())
  {
    var demo := Exec();
    r := HandleOutputs(outputs, LeafTexts(DescriptionText, FlowChart(), ExampleCodeText, Returns(demo)));
  }
}
