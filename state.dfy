/** The State command: a context whose `request` lets the current state
    handle it and then switches to the other state. */
module State {
  import opened LeafCommand

  /** The concrete state classes. */
  datatype StateKind = ConcreteStateA | ConcreteStateB

  /** `handle`: the line each state prints, which ends with the state's
      own letter. */
  function Handle(s: StateKind): (line: string)
    ensures |line| == 19 && line[..18] == "Handling in State "
    ensures line[18] == (if s == ConcreteStateA then 'A' else 'B')
  {
    match s
    case ConcreteStateA => "Handling in State A"
    case ConcreteStateB => "Handling in State B"
  }

  /** The transition `request` makes after handling. */
  function Next(s: StateKind): (t: StateKind)
    ensures t != s
  {
    if s == ConcreteStateA then ConcreteStateB else ConcreteStateA
  }

  /** The state after `n` requests from `s`: back at `s` exactly after an
      even number of requests. */
  function After(s: StateKind, n: nat): (t: StateKind)
    ensures t == s <==> n % 2 == 0
  {
    if n == 0 then s else Next(After(s, n - 1))
  }

  class Context {
    var state: StateKind

    /** A new context starts in state A. */
    constructor ()
      ensures state == ConcreteStateA
    {
      state := ConcreteStateA;
    }

    method SetState(s: StateKind)
      modifies this
      ensures state == s
    {
      state := s;
    }

    /** `request`: the current state handles, then the other state takes over. */
    method Request() returns (printed: string)
      modifies this
      ensures printed == Handle(old(state)) && state == Next(old(state))
    {
      printed := Handle(state);
      if state == ConcreteStateA {
        SetState(ConcreteStateB);
      } else {
        SetState(ConcreteStateA);
      }
    }

    /** `n` requests in a row: the k-th is handled by the state reached
        after k requests, and the context ends in the state after n. */
    method RequestMany(n: nat) returns (printed: seq<string>)
      modifies this
      ensures |printed| == n
      ensures forall k :: 0 <= k < n ==> printed[k] == Handle(After(old(state), k))
      ensures state == After(old(state), n)
    {
      printed := [];
      var i := 0;
      while i < n
        invariant 0 <= i <= n
        invariant |printed| == i
        invariant forall k :: 0 <= k < i ==> printed[k] == Handle(After(old(state), k))
        invariant state == After(old(state), i)
      {
        assert After(old(state), i + 1) == Next(After(old(state), i));
        var line := Request();
        printed := printed + [line];
        i := i + 1;
      }
    }
  }

  /** Requests alternate the two states' lines: consecutive requests are
      never handled by the same state. */
  lemma RequestsAlternate(s: StateKind, k: nat)
    ensures Handle(After(s, k)) != Handle(After(s, k + 1))
  {
    assert After(s, k + 1) == Next(After(s, k));
  }

  /** What `exec` prints: two requests on a new context. */
  method Exec() returns (printed: seq<string>)
    ensures printed == ["Handling in State A", "Handling in State B"]
  {
    var context := new Context();
    printed := context.RequestMany(2);
    assert After(ConcreteStateA, 1) == ConcreteStateB;
  }

  const DescriptionText: string := "[description] State"
  const ExampleCodeText: string := "[example code] State"

  /** The flow chart is not written yet: always the empty string. */
  function FlowChart(): string {
    ""
  }

  /** The demonstration's output as a value (established by `Exec`). */
  const DemoLines: seq<string> := ["Handling in State A", "Handling in State B"]

  function Texts(): LeafTexts {
    LeafTexts(DescriptionText, FlowChart(), ExampleCodeText, Returns(DemoLines))
  }

  /** `handler`: the output-selection loop, running the demonstration's objects. */
  method Run(outputs: seq<OutputChoice>) returns (r: LeafResult)
    ensures r == LeafOutput(outputs, Texts())
  {
    var demo := Exec();
    r := HandleOutputs(outputs, LeafTexts(DescriptionText, FlowChart(), ExampleCodeText, Returns(demo)));
  }
}
