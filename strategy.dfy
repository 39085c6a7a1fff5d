/** The Strategy command: a payment context delegates `executePayment` to
    its current payment strategy, which can be replaced at any time. */
module Strategy {
  import opened LeafCommand
  import Text

  /** The concrete payment strategies. */
  datatype PaymentStrategy = CreditCardPayment | PayPalPayment

  function MethodName(s: PaymentStrategy): string {
    match s
    case CreditCardPayment => "Credit Card"
    case PayPalPayment => "PayPal"
  }

  /** `pay`: the line a strategy prints for an amount; it opens with the
      amount and ends with the strategy's own method name. */
  function Pay(s: PaymentStrategy, amount: int): (line: string)
    ensures |line| == 12 + |Text.IntToString(amount)| + |MethodName(s)|
    ensures line[..5 + |Text.IntToString(amount)|] == "Paid " + Text.IntToString(amount)
    ensures line[|line| - |MethodName(s)|..] == MethodName(s)
    ensures line[5 + |Text.IntToString(amount)|..|line| - |MethodName(s)|] == " using "
  {
    "Paid " + Text.IntToString(amount) + " using " + MethodName(s)
  }

  /** Two strategies never print the same line for the same amount. */
  lemma StrategiesAreDistinguishable(amount: int)
    ensures Pay(CreditCardPayment, amount) != Pay(PayPalPayment, amount)
  {
    var prefix := "Paid " + Text.IntToString(amount) + " using ";
    assert Pay(CreditCardPayment, amount) == prefix + "Credit Card";
    assert Pay(PayPalPayment, amount) == prefix + "PayPal";
    assert (prefix + "Credit Card")[|prefix|] == 'C';
    assert (prefix + "PayPal")[|prefix|] == 'P';
  }

  class PaymentContext {
    var strategy: PaymentStrategy

    constructor (strategy: PaymentStrategy)
      ensures this.strategy == strategy
    {
      this.strategy := strategy;
    }

    /** `executePayment`: whatever the current strategy prints. */
    method ExecutePayment(amount: int) returns (printed: seq<string>)
      ensures printed == [Pay(strategy, amount)]
    {
      printed := [Pay(strategy, amount)];
    }

    method SetStrategy(s: PaymentStrategy)
      modifies this
      ensures strategy == s
    {
      strategy := s;
    }
  }

  /** Replacing the strategy changes how later payments are made and
      nothing about the context's callers: a payment made before and one made
      after use the old and the new strategy respectively. */
  method SwitchStrategy(context: PaymentContext, s: PaymentStrategy, before: int, after: int)
    returns (printed: seq<string>)
    modifies context
    ensures printed == [Pay(old(context.strategy), before), Pay(s, after)]
  {
    var first := context.ExecutePayment(before);
    context.SetStrategy(s);
    var second := context.ExecutePayment(after);
    printed := first + second;
  }

  /** What `exec` prints: 100 by credit card, then 200 by PayPal. */
  method Exec() returns (printed: seq<string>)
    ensures printed == ["Paid 100 using Credit Card", "Paid 200 using PayPal"]
  {
    var context := new PaymentContext(CreditCardPayment);
    printed := SwitchStrategy(context, PayPalPayment, 100, 200);
    Text.TenAndHundred();
    CreditCardLine();
    PayPalLine();
  }

  lemma CreditCardLine()
    ensures "Paid " + "100" + " using " + "Credit Card" == "Paid 100 using Credit Card"
  {
    assert "Paid " + "100" == "Paid 100";
    assert "Paid 100" + " using " == "Paid 100 using ";
  }

  lemma PayPalLine()
    ensures "Paid " + "200" + " using " + "PayPal" == "Paid 200 using PayPal"
  {
    assert "Paid " + "200" == "Paid 200";
    assert "Paid 200" + " using " == "Paid 200 using ";
  }

  const DescriptionText: string := "[description] Strategy"
  const ExampleCodeText: string := "[example code] Strategy"

  /** The flow chart is not written yet: always the empty string. */
  function FlowChart(): string {
    ""
  }

  /** The demonstration's output as a value (established by `Exec`). */
  const DemoLines: seq<string> := ["Paid 100 using Credit Card", "Paid 200 using PayPal"]

  function Texts(): LeafTexts {
    LeafTexts(DescriptionText, FlowChart(), ExampleCodeText, Returns(DemoLines))
  }

  /** `handler`: the output-selection loop, running the demonstration's objects. */
  method Run(outputs: seq<OutputChoice>) returns (r: LeafResult)
    ensures r == LeafOutput(outputs, Texts())
  {
    var demo := Exec();
    r := HandleOutputs(outputs, LeafTexts(DescriptionText, FlowChart(), ExampleCodeText, Returns(demo)));
  }
}
