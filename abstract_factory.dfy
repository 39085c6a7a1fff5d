/** The AbstractFactory command: its demonstration builds a GUI from a factory
    chosen by a draw of `Math.random()`, which the model takes as an input. */
module AbstractFactory {
  import opened LeafCommand
  import GuiFactory

  const DescriptionText: string := "[description] AbstractFactory"
  const ExampleCodeText: string := "[example code] AbstractFactory"

  /** The flow chart is not written yet: always the empty string. */
  function FlowChart(): string {
    ""
  }

  /** What `exec` prints for the draw `random`. */
  function Exec(random: real): seq<string> {
    GuiFactory.Script(random)
  }

  function Texts(random: real): LeafTexts {
    LeafTexts(DescriptionText, FlowChart(), ExampleCodeText, Returns(Exec(random)))
  }

  /** Choosing `exec` prints the selection line, then the GUI of the drawn
      platform; nothing else depends on the draw. */
  lemma ExecPrintsDrawnPlatform(random: real)
    ensures random < 0.5 ==>
      LeafOutput([OutputChoice.Exec], Texts(random)) == Finished([ExecSelected, "Windows Button clicked", "Windows Window opened"])
    ensures random >= 0.5 ==>
      LeafOutput([OutputChoice.Exec], Texts(random)) == Finished([ExecSelected, "Mac Button clicked", "Mac Window opened"])
  {
    ExecOnlyRunsDemoOnce(Texts(random));
    GuiFactory.ScriptPrints(random);
  }

  /** `run`: the output-selection loop on this command's texts and demonstration. */
  method Run(outputs: seq<OutputChoice>, random: real) returns (r: LeafResult)
    ensures r == LeafOutput(outputs, Texts(random))
  {
    r := HandleOutputs(outputs, Texts(random));
  }
}
