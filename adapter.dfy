/** The Adapter command: a printer adapter offers the new `print` interface
    and forwards each message, unchanged, to the old printer's `printOld`. */
module Adapter {
  import opened LeafCommand

  const OldPrefix: string := "Printing using old method: "

  /** `OldPrinter.printOld`: the line it prints for `msg`, the old prefix
      followed by the message itself. */
  function PrintOld(msg: string): (line: string)
    ensures |line| == |OldPrefix| + |msg|
    ensures line[..|OldPrefix|] == OldPrefix && line[|OldPrefix|..] == msg
  {
    OldPrefix + msg
  }

  /** `PrinterAdapter.print`: forwards to `printOld` once, so it prints one
      line and the message reaches the old printer unchanged. */
  function Print(msg: string): (lines: seq<string>)
    ensures |lines| == 1 && lines[0] == PrintOld(msg)
  {
    [PrintOld(msg)]
  }

  /** The adapter loses nothing: the message is the printed line after the
      old printer's prefix, so different messages print different lines. */
  lemma AdapterKeepsMessage(msg: string)
    ensures |Print(msg)| == 1
    ensures Print(msg)[0][..|OldPrefix|] == OldPrefix
    ensures Print(msg)[0][|OldPrefix|..] == msg
  {
    var line := Print(msg)[0];
    assert line == OldPrefix + msg;
    assert line[..|OldPrefix|] == OldPrefix;
    assert line[|OldPrefix|..] == msg;
  }

  lemma AdapterIsInjective(m1: string, m2: string)
    ensures Print(m1) == Print(m2) <==> m1 == m2
  {
    if Print(m1) == Print(m2) {
      AdapterKeepsMessage(m1);
      AdapterKeepsMessage(m2);
    }
  }

  /** What `exec` prints. */
  function Exec(): seq<string> {
    Print("Hello, World!")
  }

  lemma ExecPrints()
    ensures Exec() == ["Printing using old method: Hello, World!"]
  {
    assert OldPrefix + "Hello, World!" == "Printing using old method: Hello, World!";
  }

  const DescriptionText: string := "[description] Adapter"
  const ExampleCodeText: string := "[example code] Adapter"

  /** The flow chart is not written yet: always the empty string. */
  function FlowChart(): string {
    ""
  }

  function Texts(): LeafTexts {
    LeafTexts(DescriptionText, FlowChart(), ExampleCodeText, Returns(Exec()))
  }

  /** `handler`: the output-selection loop on this command's texts and demonstration. */
  method Run(outputs: seq<OutputChoice>) returns (r: LeafResult)
    ensures r == LeafOutput(outputs, Texts())
  {
    r := HandleOutputs(outputs, Texts());
  }
}
