/** The Command command: a remote control holds one command object and, when
    its button is pressed, executes it; the command forwards to the light. */
module Command {
  import opened LeafCommand

  /** The light's two operations, each printing one line. */
  datatype LightAction = TurnOn | TurnOff

  /** A command object bound to the light. */
  datatype LightCommand = TurnOnLightCommand | TurnOffLightCommand

  /** A remote control configured with one command. */
  datatype RemoteControl = RemoteControl(command: LightCommand)

  function LightLine(a: LightAction): string {
    match a
    case TurnOn => "Light is ON"
    case TurnOff => "Light is OFF"
  }

  /** The receiver operation each command invokes on the light. */
  function Target(c: LightCommand): LightAction {
    match c
    case TurnOnLightCommand => TurnOn
    case TurnOffLightCommand => TurnOff
  }

  /** `execute`: a command prints one line, `Light is ON` exactly for the
      turn-on command and `Light is OFF` exactly for the turn-off one. */
  function Execute(c: LightCommand): (lines: seq<string>)
    ensures |lines| == 1
    ensures lines[0] == "Light is ON" <==> c == TurnOnLightCommand
    ensures lines[0] == "Light is OFF" <==> c == TurnOffLightCommand
  {
    [LightLine(Target(c))]
  }

  /** `pressButton`: the remote runs its stored command and nothing else, so
      what it prints tells which command is stored. */
  function PressButton(r: RemoteControl): (lines: seq<string>)
    ensures forall c: LightCommand :: lines == Execute(c) <==> c == r.command
  {
    Execute(r.command)
  }

  /** Pressing a sequence of remotes prints one line per press, in press order. */
  function PressAll(remotes: seq<RemoteControl>): (lines: seq<string>)
    ensures |lines| == |remotes|
    ensures forall k :: 0 <= k < |remotes| ==> lines[k] == LightLine(Target(remotes[k].command))
  {
    if |remotes| == 0 then [] else PressButton(remotes[0]) + PressAll(remotes[1..])
  }

  /** What `exec` prints: one remote with the on command, then one with the off command. */
  function Exec(): seq<string> {
    PressAll([RemoteControl(TurnOnLightCommand), RemoteControl(TurnOffLightCommand)])
  }

  lemma ExecPrints()
    ensures Exec() == ["Light is ON", "Light is OFF"]
  {
  }

  const DescriptionText: string := "[description] Command"
  const ExampleCodeText: string := "[example code] Command"

  /** The flow chart is not written yet: always the empty string. */
  function FlowChart(): string {
    ""
  }

  function Texts(): LeafTexts {
    LeafTexts(DescriptionText, FlowChart(), ExampleCodeText, Returns(Exec()))
  }

  /** `run`: the output-selection loop on this command's texts and demonstration. */
  method Run(outputs: seq<OutputChoice>) returns (r: LeafResult)
    ensures r == LeafOutput(outputs, Texts())
  {
    r := HandleOutputs(outputs, Texts());
  }
}
