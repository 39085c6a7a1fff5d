/** The Prototype command: an object that can clone itself into a new,
    independent object with the same data. */
module Prototype {
  import opened LeafCommand

  class ConcretePrototype {
    var data: string

    constructor (data: string)
      ensures this.data == data
    {
      this.data := data;
    }

    method SetData(data: string)
      modifies this
      ensures this.data == data
    {
      this.data := data;
    }

    function GetData(): string
      reads this
    {
      data
    }

    /** `clone`: a new object initialised with this object's data. */
    method Clone() returns (c: ConcretePrototype)
      ensures fresh(c) && c.data == data
    {
      c := new ConcretePrototype(data);
    }
  }

  /** A clone starts equal and stays independent: changing the clone's data
      leaves the original's data as it was. */
  method CloneIsIndependent(original: ConcretePrototype, changed: string) returns (cloned: ConcretePrototype)
    ensures cloned != original
    ensures cloned.GetData() == changed && original.GetData() == old(original.GetData())
  {
    cloned := original.Clone();
    cloned.SetData(changed);
  }

  /** What `exec` prints. */
  method Exec() returns (printed: seq<string>)
    ensures printed == ["Original Object's Data: Initial Data",
                        "Cloned Object's Data: Initial Data",
                        "Cloned Object's New Data: Changed Data",
                        "Original Object's Data (After Clone Modification): Initial Data"]
  {
    var original := new ConcretePrototype("Initial Data");
    printed := ["Original Object's Data: " + original.GetData()];
    var cloned := original.Clone();
    printed := printed + ["Cloned Object's Data: " + cloned.GetData()];
    cloned.SetData("Changed Data");
    printed := printed + ["Cloned Object's New Data: " + cloned.GetData()];
    printed := printed + ["Original Object's Data (After Clone Modification): " + original.GetData()];
    assert "Original Object's Data: " + "Initial Data" == "Original Object's Data: Initial Data";
    assert "Cloned Object's Data: " + "Initial Data" == "Cloned Object's Data: Initial Data";
    assert "Cloned Object's New Data: " + "Changed Data" == "Cloned Object's New Data: Changed Data";
    assert "Original Object's Data (After Clone Modification): " + "Initial Data"
        == "Original Object's Data (After Clone Modification): Initial Data";
  }

  const DescriptionText: string := "[description] Prototype"
  const ExampleCodeText: string := "[example code] Prototype"

  /** The flow chart is not written yet: always the empty string. */
  function FlowChart(): string {
    ""
  }

  /** The demonstration's output as a value (established by `Exec`). */
  const DemoLines: seq<string> := ["Original Object's Data: Initial Data",
                                   "Cloned Object's Data: Initial Data",
                                   "Cloned Object's New Data: Changed Data",
                                   "Original Object's Data (After Clone Modification): Initial Data"]

  function Texts(): LeafTexts {
    LeafTexts(DescriptionText, FlowChart(), ExampleCodeText, Returns(DemoLines))
  }

  /** `run`: the output-selection loop, running the demonstration's objects. */
  method Run(outputs: seq<OutputChoice>) returns (r: LeafResult)
    ensures r == LeafOutput(outputs, Texts())
  {
    var demo := Exec();
    r := HandleOutputs(outputs, LeafTexts(DescriptionText, FlowChart(), ExampleCodeText, Returns(demo)));
  }
}
