/** The Decorator command: components whose `operation` wraps the wrapped
    component's result in the decorator's name and a pair of parentheses. */
module Decorator {
  import opened LeafCommand
  import Text

  /** A concrete component wrapped in any number of decorators. */
  datatype Component =
    | ConcreteComponent
    | ConcreteDecoratorA(component: Component)
    | ConcreteDecoratorB(component: Component)

  /** `operation`: each decorator adds its 19-character name with `(` in
      front and one `)` behind, so only the bare component prints its bare
      name. */
  function Operation(c: Component): (r: string)
    ensures |r| == |"ConcreteComponent"| + 20 * Depth(c)
    ensures r == "ConcreteComponent" <==> c.ConcreteComponent?
  {
    match c
    case ConcreteComponent => "ConcreteComponent"
    case ConcreteDecoratorA(inner) => "ConcreteDecoratorA(" + Operation(inner) + ")"
    case ConcreteDecoratorB(inner) => "ConcreteDecoratorB(" + Operation(inner) + ")"
  }

  /** Number of decorators around the concrete component. */
  function Depth(c: Component): nat {
    match c
    case ConcreteComponent => 0
    case ConcreteDecoratorA(inner) => Depth(inner) + 1
    case ConcreteDecoratorB(inner) => Depth(inner) + 1
  }

  /** The decorator names, outermost first, each followed by '('. */
  function Opening(c: Component): string {
    match c
    case ConcreteComponent => ""
    case ConcreteDecoratorA(inner) => "ConcreteDecoratorA(" + Opening(inner)
    case ConcreteDecoratorB(inner) => "ConcreteDecoratorB(" + Opening(inner)
  }

  /** `n` closing parentheses. */
  function Closing(n: nat): (s: string)
    ensures |s| == n && forall k :: 0 <= k < n ==> s[k] == ')'
  {
    if n == 0 then "" else Closing(n - 1) + ")"
  }

  /** Every result is the decorators' names with their opening parentheses,
      the concrete component's name, and one closing parenthesis per decorator. */
  lemma {:induction false} OperationShape(c: Component)
    ensures Operation(c) == Opening(c) + "ConcreteComponent" + Closing(Depth(c))
  {
    match c
    case ConcreteComponent =>
    case ConcreteDecoratorA(inner) =>
      OperationShape(inner);
      Rewrap("ConcreteDecoratorA(", Opening(inner), Closing(Depth(inner)));
    case ConcreteDecoratorB(inner) =>
      OperationShape(inner);
      Rewrap("ConcreteDecoratorB(", Opening(inner), Closing(Depth(inner)));
  }

  /** Regrouping one more decorator around the concrete component. */
  lemma Rewrap(name: string, open: string, close: string)
    ensures name + (open + "ConcreteComponent" + close) + ")" == (name + open) + "ConcreteComponent" + (close + ")")
  {
  }

  /** A string without `c` holds no occurrence of it. */
  lemma {:induction false} NoOccurrence(s: string, c: char)
    requires forall k :: 0 <= k < |s| ==> s[k] != c
    ensures Text.Occurrences(s, c) == 0
    decreases |s|
  {
    if |s| > 0 {
      NoOccurrence(s[..|s| - 1], c);
    }
  }

  /** `n` nested decorators put exactly `n` '(' and `n` ')' around "ConcreteComponent". */
  lemma {:induction false} BalancedParentheses(c: Component)
    ensures Text.Occurrences(Operation(c), '(') == Depth(c)
    ensures Text.Occurrences(Operation(c), ')') == Depth(c)
  {
    match c
    case ConcreteComponent =>
      NoOccurrence("ConcreteComponent", '(');
      NoOccurrence("ConcreteComponent", ')');
    case ConcreteDecoratorA(inner) =>
      BalancedParentheses(inner);
      WrapCountsA(Operation(inner));
    case ConcreteDecoratorB(inner) =>
      BalancedParentheses(inner);
      WrapCountsB(Operation(inner));
  }

  lemma WrapCountsA(s: string)
    ensures Text.Occurrences("ConcreteDecoratorA(" + s + ")", '(') == Text.Occurrences(s, '(') + 1
    ensures Text.Occurrences("ConcreteDecoratorA(" + s + ")", ')') == Text.Occurrences(s, ')') + 1
  {
    WrapCounts("ConcreteDecoratorA", s);
    assert "ConcreteDecoratorA" + "(" == "ConcreteDecoratorA(";
  }

  lemma WrapCountsB(s: string)
    ensures Text.Occurrences("ConcreteDecoratorB(" + s + ")", '(') == Text.Occurrences(s, '(') + 1
    ensures Text.Occurrences("ConcreteDecoratorB(" + s + ")", ')') == Text.Occurrences(s, ')') + 1
  {
    WrapCounts("ConcreteDecoratorB", s);
    assert "ConcreteDecoratorB" + "(" == "ConcreteDecoratorB(";
  }

  /** Wrapping a string as `name(s)` adds one of each parenthesis when the name has none. */
  lemma WrapCounts(name: string, s: string)
    requires forall k :: 0 <= k < |name| ==> name[k] != '(' && name[k] != ')'
    ensures Text.Occurrences(name + "(" + s + ")", '(') == Text.Occurrences(s, '(') + 1
    ensures Text.Occurrences(name + "(" + s + ")", ')') == Text.Occurrences(s, ')') + 1
  {
    NoOccurrence(name, '(');
    NoOccurrence(name, ')');
    Text.OccurrencesAppend(name, "(", '(');
    Text.OccurrencesAppend(name + "(", s, '(');
    Text.OccurrencesAppend(name + "(" + s, ")", '(');
    Text.OccurrencesAppend(name, "(", ')');
    Text.OccurrencesAppend(name + "(", s, ')');
    Text.OccurrencesAppend(name + "(" + s, ")", ')');
    assert Text.Occurrences("(", '(') == 1 by { assert "("[..0] == ""; }
    assert Text.Occurrences(")", ')') == 1 by { assert ")"[..0] == ""; }
    assert Text.Occurrences("(", ')') == 0 by { assert "("[..0] == ""; }
    assert Text.Occurrences(")", '(') == 0 by { assert ")"[..0] == ""; }
  }

  /** What `exec` prints: the plain component, then A around it, then B around that. */
  function Exec(): seq<string> {
    [Operation(ConcreteComponent),
     Operation(ConcreteDecoratorA(ConcreteComponent)),
     Operation(ConcreteDecoratorB(ConcreteDecoratorA(ConcreteComponent)))]
  }

  lemma ExecPrints()
    ensures Exec() == ["ConcreteComponent",
                       "ConcreteDecoratorA(ConcreteComponent)",
                       "ConcreteDecoratorB(ConcreteDecoratorA(ConcreteComponent))"]
  {
    DecoratorALine();
    DecoratorBLine();
  }

  /** The second line: A around the plain component. */
  lemma DecoratorALine()
    ensures Operation(ConcreteDecoratorA(ConcreteComponent)) == "ConcreteDecoratorA(ConcreteComponent)"
  {
  }

  /** The third line: B around the second one. */
  lemma DecoratorBLine()
    ensures Operation(ConcreteDecoratorB(ConcreteDecoratorA(ConcreteComponent)))
         == "ConcreteDecoratorB(ConcreteDecoratorA(ConcreteComponent))"
  {
    DecoratorALine();
    SplitAfterInnerName();
    JoinNames();
    JoinComponent();
    CloseOuter();
    Associative("ConcreteDecoratorB(", "ConcreteDecoratorA(", "ConcreteComponent)");
  }

  // Steps of the third line, each joining a short piece, so that no single
  // comparison of long literals is needed.

  lemma SplitAfterInnerName()
    ensures "ConcreteDecoratorA(ConcreteComponent)" == "ConcreteDecoratorA(" + "ConcreteComponent)"
  {
  }

  lemma JoinNames()
    ensures "ConcreteDecoratorB(" + "ConcreteDecoratorA(" == "ConcreteDecoratorB(ConcreteDecoratorA("
  {
  }

  lemma JoinComponent()
    ensures "ConcreteDecoratorB(ConcreteDecoratorA(" + "ConcreteComponent)"
         == "ConcreteDecoratorB(ConcreteDecoratorA(ConcreteComponent)"
  {
  }

  lemma CloseOuter()
    ensures "ConcreteDecoratorB(ConcreteDecoratorA(ConcreteComponent)" + ")"
         == "ConcreteDecoratorB(ConcreteDecoratorA(ConcreteComponent))"
  {
  }

  const DescriptionText: string := "[description] Decorator"
  const ExampleCodeText: string := "[example code] Decorator"

  /** The flow chart is not written yet: always the empty string. */
  function FlowChart(): string {
    ""
  }

  function Texts(): LeafTexts {
    LeafTexts(DescriptionText, FlowChart(), ExampleCodeText, Returns(Exec()))
  }

  /** `run`: the output-selection loop on this command's texts and demonstration. */
  method Run(outputs: seq<OutputChoice>) returns (r: LeafResult)
    ensures r == LeafOutput(outputs, Texts())
  {
    r := HandleOutputs(outputs, Texts());
  }
}
