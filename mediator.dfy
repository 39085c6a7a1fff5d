/** The Mediator command: two colleagues that talk only through a mediator.
    Each colleague's `action` prints its line and notifies the mediator, which
    triggers the other colleague's `action`, so once both are registered the
    two actions call each other until the call stack overflows. */
module Mediator {
  import opened LeafCommand
  import opened Wrappers

  /** The two colleague classes. */
  datatype Side = A | B

  /** The line a colleague's `action` prints. */
  function ActionLine(s: Side): string {
    match s
    case A => "ColleagueA is taking action."
    case B => "ColleagueB is taking action."
  }

  /** The event a colleague's `action` sends to the mediator. */
  function EventOf(s: Side): string {
    match s
    case A => "ActionA"
    case B => "ActionB"
  }

  function Other(s: Side): Side {
    match s
    case A => B
    case B => A
  }

  /** The first lines of a chain of actions: `finished` says the chain ended
      within `fuel` actions, `lines` is what it printed up to then. */
  datatype Trace = Trace(lines: seq<string>, finished: bool)

  /** The mediator; its two colleague slots start empty (`null`) and are
      filled by the setters.  Only whether a slot is filled matters to the
      output, so each slot is modelled by that fact. */
  class ConcreteMediator {
    var colleagueA: bool
    var colleagueB: bool

    constructor ()
      ensures !colleagueA && !colleagueB
    {
      colleagueA := false;
      colleagueB := false;
    }

    method SetColleagueA()
      modifies this
      ensures colleagueA && colleagueB == old(colleagueB)
    {
      colleagueA := true;
    }

    method SetColleagueB()
      modifies this
      ensures colleagueB && colleagueA == old(colleagueA)
    {
      colleagueB := true;
    }

    function Registered(s: Side): bool
      reads this
    {
      match s
      case A => colleagueA
      case B => colleagueB
    }

    /** `notify`: the colleague whose `action` the event triggers, if any:
        `ActionA` reaches B and `ActionB` reaches A, each only when that
        slot is filled; any other event reaches nobody. */
    function Notify(event: string): (r: Option<Side>)
      reads this
      ensures r == Some(B) <==> event == "ActionA" && colleagueB
      ensures r == Some(A) <==> event == "ActionB" && colleagueA
    {
      if event == "ActionA" then (if colleagueB then Some(B) else None)
      else if event == "ActionB" then (if colleagueA then Some(A) else None)
      else None
    }

    /** The first `fuel` actions of the chain started by colleague `s`'s
        `action`: the starter's line comes first, and the chain is cut short
        only by a colleague whose partner's slot is empty. */
    function Action(s: Side, fuel: nat): (t: Trace)
      reads this
      ensures |t.lines| <= fuel
      ensures fuel > 0 ==> |t.lines| > 0 && t.lines[0] == ActionLine(s)
      ensures !t.finished ==> |t.lines| == fuel
      decreases fuel
    {
      if fuel == 0 then Trace([], false)
      else
        match Notify(EventOf(s))
        case None => Trace([ActionLine(s)], true)
        case Some(next) =>
          var rest := Action(next, fuel - 1);
          Trace([ActionLine(s)] + rest.lines, rest.finished)
    }
  }

  /** With the other slot empty, an action prints its own line and ends. */
  lemma ActionEndsWithoutPartner(m: ConcreteMediator, s: Side, fuel: nat)
    requires fuel >= 1 && !m.Registered(Other(s))
    ensures m.Action(s, fuel) == Trace([ActionLine(s)], true)
  {
  }

  /** The colleague who acts `k`-th in a chain started by `s` when nobody stops it. */
  function Turn(s: Side, k: nat): Side {
    if k % 2 == 0 then s else Other(s)
  }

  /** One step later in the chain is one step later for the other starter. */
  lemma TurnShift(s: Side, k: nat)
    requires k > 0
    ensures Turn(s, k) == Turn(Other(s), k - 1)
  {
    assert (k % 2 == 0) == ((k - 1) % 2 != 0);
  }

  /** With both slots filled, no action ends of its own accord and the two
      colleagues take turns: the k-th line belongs to the starter when k is even and to
      the other colleague when k is odd. */
  lemma {:induction false} ActionsAlternate(m: ConcreteMediator, s: Side, fuel: nat)
    requires m.colleagueA && m.colleagueB
    ensures !m.Action(s, fuel).finished
    ensures |m.Action(s, fuel).lines| == fuel
    ensures forall k :: 0 <= k < fuel ==> m.Action(s, fuel).lines[k] == ActionLine(Turn(s, k))
    decreases fuel
  {
    if fuel > 0 {
      ActionStep(m, s, fuel);
      ActionsAlternate(m, Other(s), fuel - 1);
      var lines := m.Action(s, fuel).lines;
      var rest := m.Action(Other(s), fuel - 1).lines;
      assert lines == [ActionLine(s)] + rest;
      forall k | 0 <= k < fuel
        ensures lines[k] == ActionLine(Turn(s, k))
      {
        if k > 0 {
          assert lines[k] == rest[k - 1];
          TurnShift(s, k);
        }
      }
    }
  }

  /** With both slots filled, each colleague's action hands over to the other one. */
  lemma ActionStep(m: ConcreteMediator, s: Side, fuel: nat)
    requires m.colleagueA && m.colleagueB && fuel > 0
    ensures m.Action(s, fuel) ==
      Trace([ActionLine(s)] + m.Action(Other(s), fuel - 1).lines, m.Action(Other(s), fuel - 1).finished)
  {
    assert "ActionA" != "ActionB" by { assert "ActionA"[6] != "ActionB"[6]; }
    assert m.Notify(EventOf(s)) == Some(Other(s));
  }

  /** One period of what the demonstration's first call prints until the
      stack overflows. */
  const Cycle: seq<string> := [ActionLine(A), ActionLine(B)]

  /** `exec`, cut after `fuel` actions: set up the mediator and both
      colleagues, then call `colleagueA.action()`, which recurses until the
      stack overflows. */
  method Exec(fuel: nat) returns (t: Trace)
    ensures !t.finished && |t.lines| == fuel
    ensures forall k :: 0 <= k < fuel ==> t.lines[k] == Cycle[k % 2]
  {
    var mediator := new ConcreteMediator();
    mediator.SetColleagueA();
    mediator.SetColleagueB();
    t := mediator.Action(A, fuel);
    ActionsAlternate(mediator, A, fuel);
    forall k | 0 <= k < fuel
      ensures t.lines[k] == Cycle[k % 2]
    {
      assert t.lines[k] == ActionLine(Turn(A, k));
    }
  }

  const DescriptionText: string := "[description] Mediator"
  const ExampleCodeText: string := "[example code] Mediator"

  /** The flow chart is not written yet: always the empty string. */
  function FlowChart(): string {
    ""
  }

  function Texts(): LeafTexts {
    LeafTexts(DescriptionText, FlowChart(), ExampleCodeText, Recurses(Cycle))
  }

  /** `run`: the output-selection loop; choosing `exec` ends in a stack
      overflow that escapes `run`, so the buffered texts are printed only
      when `exec` is not chosen. */
  method Run(outputs: seq<OutputChoice>) returns (r: LeafResult)
    ensures r == LeafOutput(outputs, Texts())
    ensures r.Finished? <==> OutputChoice.Exec !in outputs
  {
    r := HandleOutputs(outputs, Texts());
  }
}
