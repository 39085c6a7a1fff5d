/** The Interpreter command: arithmetic expressions made of numbers,
    variables and additions, interpreted against a variable context. */
module Interpreter {
  import opened LeafCommand
  import Text

  datatype Expression =
    | TerminalExpression(number: int)
    | AddExpression(left: Expression, right: Expression)
    | VariableExpression(varName: string)

  /** `context.get(name) || 0`: an unbound variable (or one bound to 0) reads as 0. */
  function Lookup(context: map<string, int>, name: string): (v: int)
    ensures name !in context ==> v == 0
    ensures name in context ==> v == context[name]
  {
    if name in context then context[name] else 0
  }

  /** The variables an expression mentions. */
  function FreeVars(e: Expression): set<string> {
    match e
    case TerminalExpression(_) => {}
    case AddExpression(l, r) => FreeVars(l) + FreeVars(r)
    case VariableExpression(name) => {name}
  }

  /** The sum of the numbers written in an expression. */
  function Constants(e: Expression): int {
    match e
    case TerminalExpression(n) => n
    case AddExpression(l, r) => Constants(l) + Constants(r)
    case VariableExpression(_) => 0
  }

  /** `interpret`: when every variable the expression mentions reads as 0,
      its value is the sum of the numbers written in it. */
  function Interpret(e: Expression, context: map<string, int>): (v: int)
    ensures (forall x :: x in FreeVars(e) ==> Lookup(context, x) == 0) ==> v == Constants(e)
  {
    match e
    case TerminalExpression(n) => n
    case AddExpression(l, r) => Interpret(l, context) + Interpret(r, context)
    case VariableExpression(name) => Lookup(context, name)
  }

  /** Only the mentioned variables matter: two contexts that agree on them
      give the same value. */
  lemma {:induction false} InterpretReadsOnlyFreeVars(e: Expression, c1: map<string, int>, c2: map<string, int>)
    requires forall v :: v in FreeVars(e) ==> Lookup(c1, v) == Lookup(c2, v)
    ensures Interpret(e, c1) == Interpret(e, c2)
  {
    match e
    case TerminalExpression(_) =>
    case AddExpression(l, r) =>
      InterpretReadsOnlyFreeVars(l, c1, c2);
      InterpretReadsOnlyFreeVars(r, c1, c2);
    case VariableExpression(name) =>
      assert name in FreeVars(e);
  }

  /** The expression with each variable replaced by the number it reads as. */
  function Close(e: Expression, context: map<string, int>): (c: Expression)
    ensures FreeVars(c) == {}
  {
    match e
    case TerminalExpression(n) => e
    case AddExpression(l, r) => AddExpression(Close(l, context), Close(r, context))
    case VariableExpression(name) => TerminalExpression(Lookup(context, name))
  }

  /** Interpreting in a context is interpreting the closed expression in any
      context at all. */
  lemma {:induction false} ClosingPreservesValue(e: Expression, context: map<string, int>, other: map<string, int>)
    ensures Interpret(Close(e, context), other) == Interpret(e, context)
  {
    match e
    case TerminalExpression(_) =>
    case AddExpression(l, r) =>
      ClosingPreservesValue(l, context, other);
      ClosingPreservesValue(r, context, other);
    case VariableExpression(_) =>
  }

  /** Addition is interpreted commutatively. */
  lemma AddCommutes(l: Expression, r: Expression, context: map<string, int>)
    ensures Interpret(AddExpression(l, r), context) == Interpret(AddExpression(r, l), context)
  {
  }

  /** What `exec` prints: `x + 7` with x bound to 5. */
  function Exec(): seq<string> {
    var context := map["x" := 5];
    var sum := AddExpression(VariableExpression("x"), TerminalExpression(7));
    [Text.IntToString(Interpret(sum, context))]
  }

  lemma ExecPrints()
    ensures Exec() == ["12"]
  {
    var context := map["x" := 5];
    assert Lookup(context, "x") == 5;
    assert Interpret(AddExpression(VariableExpression("x"), TerminalExpression(7)), context) == 12;
    assert Text.NatToString(12) == Text.NatToString(1) + [Text.Digit(2)];
    assert Text.IntToString(12) == "12";
  }

  const DescriptionText: string := "[description] Interpreter"
  const ExampleCodeText: string := "[example code] Interpreter"

  /** The flow chart is not written yet: always the empty string. */
  function FlowChart(): string {
    ""
  }

  function Texts(): LeafTexts {
    LeafTexts(DescriptionText, FlowChart(), ExampleCodeText, Returns(Exec()))
  }

  /** `handler`: the output-selection loop on this command's texts and demonstration. */
  method Run(outputs: seq<OutputChoice>) returns (r: LeafResult)
    ensures r == LeafOutput(outputs, Texts())
  {
    r := HandleOutputs(outputs, Texts());
  }
}
