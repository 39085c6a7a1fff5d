/** The Visitor command: elements accept a visitor and call back the visit
    method for their own class (double dispatch); the visitor announces the
    visit and then runs the element's own operation. */
module Visitor {
  import opened LeafCommand

  /** The concrete element classes. */
  datatype Element = ConcreteElementA | ConcreteElementB

  /** The element's class name. */
  function Name(e: Element): string {
    match e
    case ConcreteElementA => "ConcreteElementA"
    case ConcreteElementB => "ConcreteElementB"
  }

  /** `operationA` / `operationB`: the element's own operation. */
  function OwnOperation(e: Element): seq<string> {
    match e
    case ConcreteElementA => ["ConcreteElementA operation"]
    case ConcreteElementB => ["ConcreteElementB operation"]
  }

  /** `visitConcreteElementA`: announce a visit naming element A, then run
      operation A. */
  function VisitConcreteElementA(): (lines: seq<string>)
    ensures |lines| == 2 && lines[0] == "Visiting " + Name(ConcreteElementA)
    ensures lines[1..] == OwnOperation(ConcreteElementA)
  {
    ["Visiting ConcreteElementA"] + OwnOperation(ConcreteElementA)
  }

  /** `visitConcreteElementB`: announce a visit naming element B, then run
      operation B. */
  function VisitConcreteElementB(): (lines: seq<string>)
    ensures |lines| == 2 && lines[0] == "Visiting " + Name(ConcreteElementB)
    ensures lines[1..] == OwnOperation(ConcreteElementB)
  {
    ["Visiting ConcreteElementB"] + OwnOperation(ConcreteElementB)
  }

  /** `accept`: each element calls the visit method meant for its class. */
  function Accept(e: Element): (lines: seq<string>)
    ensures |lines| == 2
    ensures lines[1..] == OwnOperation(e)
  {
    match e
    case ConcreteElementA => VisitConcreteElementA()
    case ConcreteElementB => VisitConcreteElementB()
  }

  /** Double dispatch picks the visit for the element's own class: the
      visit line names the element, and it is followed by exactly that
      element's operation. */
  lemma AcceptDispatchesOnElement(e: Element)
    ensures Accept(e) == ["Visiting " + Name(e)] + OwnOperation(e)
    ensures OwnOperation(e) == [Name(e) + " operation"]
  {
    assert "Visiting " + "ConcreteElementA" == "Visiting ConcreteElementA";
    assert "Visiting " + "ConcreteElementB" == "Visiting ConcreteElementB";
    assert "ConcreteElementA" + " operation" == "ConcreteElementA operation";
    assert "ConcreteElementB" + " operation" == "ConcreteElementB operation";
  }

  /** A client that lets one visitor visit a sequence of elements in turn. */
  function AcceptAll(elements: seq<Element>): seq<string>
    decreases |elements|
  {
    if |elements| == 0 then [] else AcceptAll(elements[..|elements| - 1]) + Accept(elements[|elements| - 1])
  }

  /** Visiting n elements prints 2n lines: for the k-th element its visit
      line at 2k and its own operation at 2k + 1. */
  lemma AcceptAllPairsVisitWithOperation(elements: seq<Element>)
    ensures |AcceptAll(elements)| == 2 * |elements|
    ensures forall k :: 0 <= k < |elements| ==>
      AcceptAll(elements)[2 * k] == "Visiting " + Name(elements[k]) &&
      AcceptAll(elements)[2 * k + 1] == Name(elements[k]) + " operation"
  {
    AcceptAllInTurn(elements);
    forall k | 0 <= k < |elements|
      ensures AcceptAll(elements)[2 * k] == "Visiting " + Name(elements[k])
      ensures AcceptAll(elements)[2 * k + 1] == Name(elements[k]) + " operation"
    {
      AcceptDispatchesOnElement(elements[k]);
    }
  }

  /** Each element's two accept lines, in the order of the elements. */
  lemma {:induction false} AcceptAllInTurn(elements: seq<Element>)
    ensures |AcceptAll(elements)| == 2 * |elements|
    ensures forall k :: 0 <= k < |elements| ==>
      AcceptAll(elements)[2 * k] == Accept(elements[k])[0] &&
      AcceptAll(elements)[2 * k + 1] == Accept(elements[k])[1]
    decreases |elements|
  {
    if |elements| > 0 {
      var init := elements[..|elements| - 1];
      var last := elements[|elements| - 1];
      AcceptAllInTurn(init);
      forall k | 0 <= k < |init|
        ensures elements[k] == init[k]
      {
      }
    }
  }

  /** What `exec` prints: element A, then element B, accept the one visitor. */
  function Exec(): seq<string> {
    AcceptAll([ConcreteElementA, ConcreteElementB])
  }

  lemma ExecPrints()
    ensures Exec() == ["Visiting ConcreteElementA", "ConcreteElementA operation",
                       "Visiting ConcreteElementB", "ConcreteElementB operation"]
  {
    assert [ConcreteElementA, ConcreteElementB][..1] == [ConcreteElementA];
    assert [ConcreteElementA][..0] == [];
  }

  const DescriptionText: string := "[description] Visitor"
  const ExampleCodeText: string := "[example code] Visitor"

  /** The flow chart is not written yet: always the empty string. */
  function FlowChart(): string {
    ""
  }

  function Texts(): LeafTexts {
    LeafTexts(DescriptionText, FlowChart(), ExampleCodeText, Returns(Exec()))
  }

  /** `handler`: the output-selection loop on this command's texts and demonstration. */
  method Run(outputs: seq<OutputChoice>) returns (r: LeafResult)
    ensures r == LeafOutput(outputs, Texts())
  {
    r := HandleOutputs(outputs, Texts());
  }
}
