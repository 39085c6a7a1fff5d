/** The Facade command: a music-system facade that turns one request into a
    fixed sequence of calls on its amplifier, tuner, CD player and speakers. */
module Facade {
  import opened LeafCommand
  import Text

  /** One call the facade makes on a subsystem. */
  datatype SubsystemCall =
    | AmplifierOn
    | AmplifierOff
    | SetStation(station: string)
    | Play(cd: string)
    | SetVolume(volume: int)

  /** The line each subsystem call prints. */
  function Line(call: SubsystemCall): string {
    match call
    case AmplifierOn => "Amplifier is turned on"
    case AmplifierOff => "Amplifier is turned off"
    case SetStation(station) => "Tuner is set to station " + station
    case Play(cd) => "CDPlayer is playing " + cd
    case SetVolume(volume) => "Speakers volume is set to " + Text.IntToString(volume)
  }

  /** The lines printed by a sequence of calls, one per call, in order. */
  function Lines(calls: seq<SubsystemCall>): (lines: seq<string>)
    ensures |lines| == |calls|
    ensures forall k :: 0 <= k < |calls| ==> lines[k] == Line(calls[k])
  {
    if |calls| == 0 then [] else [Line(calls[0])] + Lines(calls[1..])
  }

  /** `listenToRadio`: the amplifier goes on first and the volume is set to 5
      last; the tuner gets the station asked for, and the CD player is not
      touched. */
  function ListenToRadio(station: string): (calls: seq<SubsystemCall>)
    ensures |calls| > 0 && calls[0] == AmplifierOn && calls[|calls| - 1] == SetVolume(5)
    ensures SetStation(station) in calls
    ensures forall c :: c in calls ==> !c.Play? && !c.AmplifierOff? && (c.SetStation? ==> c.station == station)
  {
    [AmplifierOn, SetStation(station), SetVolume(5)]
  }

  /** `listenToCD`: the same frame, with the CD player playing the disc asked
      for and the tuner not touched. */
  function ListenToCD(cd: string): (calls: seq<SubsystemCall>)
    ensures |calls| > 0 && calls[0] == AmplifierOn && calls[|calls| - 1] == SetVolume(5)
    ensures Play(cd) in calls
    ensures forall c :: c in calls ==> !c.SetStation? && !c.AmplifierOff? && (c.Play? ==> c.cd == cd)
  {
    [AmplifierOn, Play(cd), SetVolume(5)]
  }

  /** `turnOff`: switches the amplifier off and touches nothing else. */
  function TurnOff(): (calls: seq<SubsystemCall>)
    ensures AmplifierOff in calls
    ensures forall c :: c in calls ==> c == AmplifierOff
  {
    [AmplifierOff]
  }

  /** Both listening requests switch the amplifier on first and set the volume
      to 5 last; they differ only in the source they select in between.
      Switching off touches nothing but the amplifier. */
  lemma ListeningRequestsShareTheirFrame(station: string, cd: string)
    ensures |ListenToRadio(station)| == |ListenToCD(cd)| == 3
    ensures ListenToRadio(station)[0] == ListenToCD(cd)[0] == AmplifierOn
    ensures ListenToRadio(station)[2] == ListenToCD(cd)[2] == SetVolume(5)
    ensures ListenToRadio(station)[1] == SetStation(station) && ListenToCD(cd)[1] == Play(cd)
    ensures TurnOff() == [AmplifierOff]
  {
  }

  /** The calls the demonstration makes: radio, off, CD, off. */
  function DemoCalls(): seq<SubsystemCall> {
    ListenToRadio("80.4 FM") + TurnOff() + ListenToCD("Beatles") + TurnOff()
  }

  /** What `exec` prints. */
  function Exec(): seq<string> {
    Lines(DemoCalls())
  }

  lemma ExecPrints()
    ensures Exec() == [
      "Amplifier is turned on", "Tuner is set to station 80.4 FM", "Speakers volume is set to 5",
      "Amplifier is turned off",
      "Amplifier is turned on", "CDPlayer is playing Beatles", "Speakers volume is set to 5",
      "Amplifier is turned off"]
  {
    LinesOfDemoCalls(DemoCalls());
    StationLine();
    CDLine();
    VolumeLine();
  }

  /** The lines of the demonstration's eight calls, taken one by one. */
  lemma LinesOfDemoCalls(calls: seq<SubsystemCall>)
    requires calls == DemoCalls()
    ensures Lines(calls) == [Line(AmplifierOn), Line(SetStation("80.4 FM")), Line(SetVolume(5)), Line(AmplifierOff),
                             Line(AmplifierOn), Line(Play("Beatles")), Line(SetVolume(5)), Line(AmplifierOff)]
  {
    DemoCallsInOrder();
    var lines := Lines(calls);
    assert |lines| == 8;
    assert lines[0] == Line(calls[0]) && lines[1] == Line(calls[1]) && lines[2] == Line(calls[2]) && lines[3] == Line(calls[3]);
    assert lines[4] == Line(calls[4]) && lines[5] == Line(calls[5]) && lines[6] == Line(calls[6]) && lines[7] == Line(calls[7]);
  }

  lemma DemoCallsInOrder()
    ensures DemoCalls() == [AmplifierOn, SetStation("80.4 FM"), SetVolume(5), AmplifierOff,
                            AmplifierOn, Play("Beatles"), SetVolume(5), AmplifierOff]
  {
  }

  lemma StationLine()
    ensures Line(SetStation("80.4 FM")) == "Tuner is set to station 80.4 FM"
  {
  }

  lemma CDLine()
    ensures Line(Play("Beatles")) == "CDPlayer is playing Beatles"
  {
  }

  lemma VolumeLine()
    ensures Line(SetVolume(5)) == "Speakers volume is set to 5"
  {
    assert Text.IntToString(5) == "5";
  }

  /** The `[description]` block (its prose is represented by this placeholder). */
  const DescriptionText: string := "[description] Facade"
  /** The `[example code]` block (its source listing is represented by this placeholder). */
  const ExampleCodeText: string := "[example code] Facade"

  /** The flow chart is not written yet: always the empty string. */
  function FlowChart(): string {
    ""
  }

  function Texts(): LeafTexts {
    LeafTexts(DescriptionText, FlowChart(), ExampleCodeText, Returns(Exec()))
  }

  /** `run`: the output-selection loop on this command's texts and demonstration. */
  method Run(outputs: seq<OutputChoice>) returns (r: LeafResult)
    ensures r == LeafOutput(outputs, Texts())
  {
    r := HandleOutputs(outputs, Texts());
  }
}
