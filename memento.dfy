/** The Memento command: an originator saves its state into mementos, a
    caretaker keeps them in a list, and the originator can be restored from
    one of them. */
module Memento {
  import opened LeafCommand
  import opened Wrappers
  import Text

  /** A saved state. */
  datatype MementoA = MementoA(state: string)

  /** The message of the error `saveToMemento` throws. */
  const NotFoundState: string := "Not found state"

  /** Whether JavaScript treats a `string | null` as false: null or empty. */
  predicate Falsy(s: Option<string>) {
    s.None? || s.value == ""
  }

  class Originator {
    var state: Option<string>

    constructor ()
      ensures state == None
    {
      state := None;
    }

    method SetState(s: string)
      modifies this
      ensures state == Some(s)
    {
      state := Some(s);
    }

    /** `saveToMemento`: fails with "Not found state" when the state is
        null or empty, and otherwise returns a memento holding it. */
    method SaveToMemento() returns (r: Result<MementoA, string>)
      ensures r.Failure? <==> Falsy(state)
      ensures r.Failure? ==> r.error == NotFoundState
      ensures r.Success? ==> Some(r.value.state) == state
    {
      if state.None? || state.value == "" {
        r := Failure(NotFoundState);
      } else {
        r := Success(MementoA(state.value));
      }
    }

    /** `restoreFromMemento`: takes the memento's state; it returns nothing,
        which a caller sees as `undefined` (`None`). */
    method RestoreFromMemento(m: MementoA) returns (r: Option<string>)
      modifies this
      ensures state == Some(m.state)
      ensures r.None?
    {
      state := Some(m.state);
      r := None;
    }
  }

  class Caretaker {
    var mementos: seq<MementoA>

    constructor ()
      ensures mementos == []
    {
      mementos := [];
    }

    method AddMemento(m: MementoA)
      modifies this
      ensures mementos == old(mementos) + [m]
    {
      mementos := mementos + [m];
    }

    /** `getMemento`: the memento at `index`, or `undefined` (None) when the
        index is outside the list. */
    method GetMemento(index: int) returns (r: Option<MementoA>)
      ensures r.Some? <==> 0 <= index < |mementos|
      ensures r.Some? ==> r.value == mementos[index]
    {
      if 0 <= index < |mementos| {
        r := Some(mementos[index]);
      } else {
        r := None;
      }
    }
  }

  /** Saving, changing the state, and restoring gives the saved state back;
      the memento keeps the state it was made from. */
  method SaveChangeRestore(o: Originator, other: string) returns (m: Result<MementoA, string>)
    requires !Falsy(o.state)
    modifies o
    ensures m.Success? && o.state == old(o.state)
  {
    m := o.SaveToMemento();
    o.SetState(other);
    var _ := o.RestoreFromMemento(m.value);
  }

  /** The caretaker is append-only: a memento added at position n is found
      there afterwards, and every earlier memento stays where it was. */
  method AddThenGet(c: Caretaker, m: MementoA, i: int) returns (added: Option<MementoA>, earlier: Option<MementoA>)
    requires 0 <= i < |c.mementos|
    modifies c
    ensures added == Some(m)
    ensures earlier == Some(old(c.mementos)[i])
  {
    var n := |c.mementos|;
    c.AddMemento(m);
    added := c.GetMemento(n);
    earlier := c.GetMemento(i);
  }

  /** `exec`: saves "State1" and "State2", restores from the first memento
      and logs what `restoreFromMemento` returned, which is `undefined`.
      `restored` is the originator's state at the end. */
  method Exec() returns (printed: seq<string>, restored: Option<string>)
    ensures printed == ["undefined"]
    ensures restored == Some("State1")
  {
    var originator := new Originator();
    var caretaker := new Caretaker();
    originator.SetState("State1");
    var first := originator.SaveToMemento();
    caretaker.AddMemento(first.value);
    originator.SetState("State2");
    var second := originator.SaveToMemento();
    caretaker.AddMemento(second.value);
    var m := caretaker.GetMemento(0);
    var returned := originator.RestoreFromMemento(m.value);
    printed := [Text.Render(returned)];
    restored := originator.state;
  }

  const DescriptionText: string := "[description] Memento"
  const ExampleCodeText: string := "[example code] Memento"

  /** The flow chart is not written yet: always the empty string. */
  function FlowChart(): string {
    ""
  }

  /** The demonstration's output as a value (established by `Exec`). */
  const DemoLines: seq<string> := ["undefined"]

  function Texts(): LeafTexts {
    LeafTexts(DescriptionText, FlowChart(), ExampleCodeText, Returns(DemoLines))
  }

  /** `run`: the output-selection loop, running the demonstration's objects. */
  method Run(outputs: seq<OutputChoice>) returns (r: LeafResult)
    ensures r == LeafOutput(outputs, Texts())
  {
    var demo, _ := Exec();
    r := HandleOutputs(outputs, LeafTexts(DescriptionText, FlowChart(), ExampleCodeText, Returns(demo)));
  }
}
