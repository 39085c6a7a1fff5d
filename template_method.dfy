/** The TemplateMethod command: `finalProcedure` fixes the order of four
    steps; the two common steps are shared and the other two are supplied by
    each beverage. */
module TemplateMethod {
  import opened LeafCommand

  /** The concrete beverages. */
  datatype Beverage = Coffee | Tea

  const BoilWater: string := "Boiling water"
  const PourInCup: string := "Pouring into cup"

  /** `brew`, supplied by each beverage. */
  function Brew(b: Beverage): string {
    match b
    case Coffee => "Brewing Coffee"
    case Tea => "Brewing Tea"
  }

  /** `addCondiments`, supplied by each beverage. */
  function AddCondiments(b: Beverage): string {
    match b
    case Coffee => "Adding sugar and milk"
    case Tea => "Adding lemon"
  }

  /** `finalProcedure`: the fixed skeleton of four steps. The shared steps,
      boiling and pouring, stand first and third; the beverage supplies the
      second and the fourth. */
  function FinalProcedure(b: Beverage): (steps: seq<string>)
    ensures |steps| == 4 && steps[0] == BoilWater && steps[2] == PourInCup
    ensures steps[1] == Brew(b) && steps[3] == AddCondiments(b)
  {
    [BoilWater, Brew(b), PourInCup, AddCondiments(b)]
  }

  /** The skeleton is the same for every beverage: the common steps stand at
      the same places, and two beverages differ exactly at the steps the
      subclasses supply. */
  lemma SkeletonIsFixed(b1: Beverage, b2: Beverage)
    ensures |FinalProcedure(b1)| == |FinalProcedure(b2)| == 4
    ensures FinalProcedure(b1)[0] == FinalProcedure(b2)[0] == BoilWater
    ensures FinalProcedure(b1)[2] == FinalProcedure(b2)[2] == PourInCup
    ensures b1 != b2 <==> FinalProcedure(b1)[1] != FinalProcedure(b2)[1]
    ensures b1 != b2 <==> FinalProcedure(b1)[3] != FinalProcedure(b2)[3]
  {
    assert Brew(Coffee)[9] != Brew(Tea)[9];
    assert AddCondiments(Coffee)[7] != AddCondiments(Tea)[7];
  }

  /** What `exec` prints: coffee, then tea. */
  function Exec(): seq<string> {
    FinalProcedure(Coffee) + FinalProcedure(Tea)
  }

  lemma ExecPrints()
    ensures Exec() == ["Boiling water", "Brewing Coffee", "Pouring into cup", "Adding sugar and milk",
                       "Boiling water", "Brewing Tea", "Pouring into cup", "Adding lemon"]
  {
  }

  const DescriptionText: string := "[description] TemplateMethod"
  const ExampleCodeText: string := "[example code] TemplateMethod"

  /** The flow chart is not written yet: always the empty string. */
  function FlowChart(): string {
    ""
  }

  function Texts(): LeafTexts {
    LeafTexts(DescriptionText, FlowChart(), ExampleCodeText, Returns(Exec()))
  }

  /** `handler`: the output-selection loop on this command's texts and demonstration. */
  method Run(outputs: seq<OutputChoice>) returns (r: LeafResult)
    ensures r == LeafOutput(outputs, Texts())
  {
    r := HandleOutputs(outputs, Texts());
  }
}
