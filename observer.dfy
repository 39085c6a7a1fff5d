/** The Observer command: a subject keeps a list of observers, and setting
    its message notifies every attached observer, in attach order. */
module Observer {
  import opened LeafCommand

  class ConcreteObserver {
    const name: string

    constructor (name: string)
      ensures this.name == name
    {
      this.name := name;
    }

    /** `update`: the line the observer prints for a message, its own name
        first and the message last. */
    function Update(message: string): (line: string)
      ensures |line| == |name| + 19 + |message|
      ensures line[..|name|] == name && line[|line| - |message|..] == message
      ensures line[|name|..|name| + 19] == " received message: "
    {
      name + " received message: " + message
    }
  }

  /** The lines one notification prints: one per observer, in list order. */
  function Broadcast(observers: seq<ConcreteObserver>, message: string): (lines: seq<string>)
    ensures |lines| == |observers|
    ensures forall k :: 0 <= k < |observers| ==> lines[k] == observers[k].Update(message)
    decreases |observers|
  {
    if |observers| == 0 then []
    else Broadcast(observers[..|observers| - 1], message) + [observers[|observers| - 1].Update(message)]
  }

  /** The list after `splice`-ing out the first occurrence of `x`, or the
      list itself when `x` is absent. */
  function RemoveFirst(s: seq<ConcreteObserver>, x: ConcreteObserver): (r: seq<ConcreteObserver>)
    ensures |r| == if x in s then |s| - 1 else |s|
    ensures forall y :: y in r ==> y in s
    decreases |s|
  {
    if |s| == 0 then []
    else if s[0] == x then s[1..]
    else [s[0]] + RemoveFirst(s[1..], x)
  }

  /** Removing the first occurrence takes out exactly one copy of `x` when
      there is one, and changes nothing otherwise. */
  lemma {:induction false} RemoveFirstRemovesOneCopy(s: seq<ConcreteObserver>, x: ConcreteObserver)
    ensures x in s ==> multiset(RemoveFirst(s, x)) == multiset(s) - multiset{x} && |RemoveFirst(s, x)| == |s| - 1
    ensures x !in s ==> RemoveFirst(s, x) == s
    decreases |s|
  {
    if |s| > 0 {
      RemoveFirstRemovesOneCopy(s[1..], x);
      assert s == [s[0]] + s[1..];
      if s[0] != x {
        assert multiset(s) == multiset{s[0]} + multiset(s[1..]);
      }
    }
  }

  /** Splitting at the first occurrence is removing the first occurrence. */
  lemma {:induction false} RemoveFirstAt(s: seq<ConcreteObserver>, x: ConcreteObserver, i: nat)
    requires i < |s| && s[i] == x && x !in s[..i]
    ensures RemoveFirst(s, x) == s[..i] + s[i + 1..]
    decreases i
  {
    if i > 0 {
      assert s[1..][..i - 1] == s[1..i];
      RemoveFirstAt(s[1..], x, i - 1);
      assert s[..i] == [s[0]] + s[1..][..i - 1];
      assert s[1..][i..] == s[i + 1..];
    }
  }

  /** Attaching an observer that was not attached and then detaching it
      leaves the list as it was. */
  lemma {:induction false} DetachUndoesAttach(s: seq<ConcreteObserver>, o: ConcreteObserver)
    requires o !in s
    ensures RemoveFirst(s + [o], o) == s
  {
    RemoveFirstAt(s + [o], o, |s|);
    assert (s + [o])[..|s|] == s;
  }

  /** `indexOf`: the position of the first occurrence of `x`, or -1. */
  method IndexOf(s: seq<ConcreteObserver>, x: ConcreteObserver) returns (index: int)
    ensures -1 <= index < |s|
    ensures index == -1 <==> x !in s
    ensures index >= 0 ==> s[index] == x && x !in s[..index]
  {
    var i := 0;
    while i < |s|
      invariant 0 <= i <= |s|
      invariant x !in s[..i]
    {
      if s[i] == x {
        return i;
      }
      assert s[..i + 1] == s[..i] + [s[i]];
      i := i + 1;
    }
    assert s[..i] == s;
    return -1;
  }

  class ConcreteSubject {
    var observers: seq<ConcreteObserver>
    var message: string

    constructor ()
      ensures observers == [] && message == ""
    {
      observers := [];
      message := "";
    }

    method Attach(o: ConcreteObserver)
      modifies this
      ensures observers == old(observers) + [o] && message == old(message)
    {
      observers := observers + [o];
    }

    /** `detach`: removes the first occurrence of `o`, if any. */
    method Detach(o: ConcreteObserver)
      modifies this
      ensures observers == RemoveFirst(old(observers), o) && message == old(message)
    {
      var index := IndexOf(observers, o);
      if index != -1 {
        RemoveFirstAt(observers, o, index);
        observers := observers[..index] + observers[index + 1..];
      } else {
        RemoveFirstRemovesOneCopy(observers, o);
      }
    }

    /** `notify`: every attached observer, in list order, prints its line
        for the current message. */
    method Notify() returns (printed: seq<string>)
      ensures printed == Broadcast(observers, message)
    {
      printed := [];
      var i := 0;
      while i < |observers|
        invariant 0 <= i <= |observers|
        invariant printed == Broadcast(observers[..i], message)
      {
        assert observers[..i + 1][..i] == observers[..i];
        printed := printed + [observers[i].Update(message)];
        i := i + 1;
      }
      assert observers[..i] == observers;
    }

    /** `setMessage`: store the message, then notify. */
    method SetMessage(m: string) returns (printed: seq<string>)
      modifies this
      ensures message == m && observers == old(observers)
      ensures printed == Broadcast(observers, m)
    {
      message := m;
      printed := Notify();
    }
  }

  /** A detached observer (at position `i`) hears nothing further, while
      every other observer still hears the message, in the same order as
      before. */
  lemma DetachedObserverHearsNothing(s: seq<ConcreteObserver>, o: ConcreteObserver, i: nat, m: string)
    requires i < |s| && s[i] == o && forall k, l :: 0 <= k < l < |s| ==> s[k] != s[l]
    ensures o !in RemoveFirst(s, o)
    ensures |Broadcast(RemoveFirst(s, o), m)| == |s| - 1
    ensures Broadcast(RemoveFirst(s, o), m) == Broadcast(s[..i], m) + Broadcast(s[i + 1..], m)
  {
    assert o !in s[..i];
    RemoveFirstAt(s, o, i);
    RemoveFirstRemovesOneCopy(s, o);
    assert o !in s[i + 1..];
    BroadcastAppend(s[..i], s[i + 1..], m);
  }

  /** Notifying two lists one after the other prints the lines of their
      concatenation. */
  lemma BroadcastAppend(a: seq<ConcreteObserver>, b: seq<ConcreteObserver>, m: string)
    ensures Broadcast(a + b, m) == Broadcast(a, m) + Broadcast(b, m)
  {
    var lhs, rhs := Broadcast(a + b, m), Broadcast(a, m) + Broadcast(b, m);
    forall k | 0 <= k < |lhs|
      ensures lhs[k] == rhs[k]
    {
      if k >= |a| {
        assert (a + b)[k] == b[k - |a|];
      }
    }
  }

  /** What `exec` prints: two observers attached, then one message set. */
  method Exec() returns (printed: seq<string>)
    ensures printed == ["Observer 1 received message: Hello, Observers!",
                        "Observer 2 received message: Hello, Observers!"]
  {
    var subject := new ConcreteSubject();
    var observer1 := new ConcreteObserver("Observer 1");
    var observer2 := new ConcreteObserver("Observer 2");
    subject.Attach(observer1);
    subject.Attach(observer2);
    printed := subject.SetMessage("Hello, Observers!");
    FirstObserverLine();
    SecondObserverLine();
  }

  lemma FirstObserverLine()
    ensures "Observer 1" + " received message: " + "Hello, Observers!" == "Observer 1 received message: Hello, Observers!"
  {
  }

  lemma SecondObserverLine()
    ensures "Observer 2" + " received message: " + "Hello, Observers!" == "Observer 2 received message: Hello, Observers!"
  {
  }

  const DescriptionText: string := "[description] Observer"
  const ExampleCodeText: string := "[example code] Observer"

  /** The flow chart is not written yet: always the empty string. */
  function FlowChart(): string {
    ""
  }

  /** The demonstration's output as a value (established by `Exec`). */
  const DemoLines: seq<string> := ["Observer 1 received message: Hello, Observers!",
                                   "Observer 2 received message: Hello, Observers!"]

  function Texts(): LeafTexts {
    LeafTexts(DescriptionText, FlowChart(), ExampleCodeText, Returns(DemoLines))
  }

  /** `run`: the output-selection loop, running the demonstration's objects. */
  method Run(outputs: seq<OutputChoice>) returns (r: LeafResult)
    ensures r == LeafOutput(outputs, Texts())
  {
    var demo := Exec();
    r := HandleOutputs(outputs, LeafTexts(DescriptionText, FlowChart(), ExampleCodeText, Returns(demo)));
  }
}
