/** The ChainOfResponsibility command: handlers linked by `setNext`; each
    handles the one request it knows and passes any other request on. */
module ChainOfResponsibility {
  import opened LeafCommand
  import opened Wrappers

  /** The concrete handler classes. */
  datatype Kind = ConcreteHandlerA | ConcreteHandlerB

  /** A handler and the chain behind it. */
  datatype Handler = Handler(kind: Kind, nextHandler: Option<Handler>)

  /** Whether a handler of this class handles the request itself. */
  predicate Handles(k: Kind, request: string) {
    match k
    case ConcreteHandlerA => request == "requestA"
    case ConcreteHandlerB => request == "requestB"
  }

  /** The line a handler prints when it handles a request. */
  function HandledLine(k: Kind): string {
    match k
    case ConcreteHandlerA => "ConcreteHandlerA handling requestA"
    case ConcreteHandlerB => "ConcreteHandlerB handling requestB"
  }

  /** `setNext`: links `next` behind `h` and returns `next`. The source
      updates `h` in place; as a value, the linked `h` is returned alongside. */
  function SetNext(h: Handler, next: Handler): (r: (Handler, Handler))
    ensures r.0.kind == h.kind && r.0.nextHandler == Some(next) && r.1 == next
  {
    (Handler(h.kind, Some(next)), next)
  }

  /** `handle`: print the own line when the request is this handler's,
      otherwise pass it to the next handler if there is one. At most one
      line comes out, and none exactly when no class along the chain knows
      the request. */
  function Handle(h: Handler, request: string): (lines: seq<string>)
    ensures |lines| <= 1
    ensures Handles(h.kind, request) ==> lines == [HandledLine(h.kind)]
    ensures lines == [] <==> forall k :: k in Kinds(h) ==> !Handles(k, request)
  {
    if Handles(h.kind, request) then [HandledLine(h.kind)]
    else match h.nextHandler
      case None => []
      case Some(next) => Handle(next, request)
  }

  /** The classes along the chain, from `h` to its end. */
  function Kinds(h: Handler): (ks: seq<Kind>)
    ensures |ks| >= 1 && ks[0] == h.kind
  {
    match h.nextHandler
    case None => [h.kind]
    case Some(next) => [h.kind] + Kinds(next)
  }

  /** The first class in `ks` that handles the request. */
  function FirstHandler(ks: seq<Kind>, request: string): (r: Option<Kind>)
    ensures r.None? <==> forall i :: 0 <= i < |ks| ==> !Handles(ks[i], request)
    ensures r.Some? ==> exists i :: 0 <= i < |ks| && ks[i] == r.value && Handles(ks[i], request) &&
                                    forall j :: 0 <= j < i ==> !Handles(ks[j], request)
  {
    if |ks| == 0 then None
    else if Handles(ks[0], request) then Some(ks[0])
    else
      var r := FirstHandler(ks[1..], request);
      if r.Some? then
        var i :| 0 <= i < |ks[1..]| && ks[1..][i] == r.value && Handles(ks[1..][i], request) &&
                 forall j :: 0 <= j < i ==> !Handles(ks[1..][j], request);
        assert ks[i + 1] == r.value && forall j :: 0 <= j < i + 1 ==> !Handles(ks[j], request);
        r
      else r
  }

  /** A request is handled by the first handler along the chain that knows
      it, which prints its one line; if none knows it, nothing is printed. */
  lemma {:induction false} HandledByFirstMatching(h: Handler, request: string)
    ensures Handle(h, request) ==
      match FirstHandler(Kinds(h), request)
      case None => []
      case Some(k) => [HandledLine(k)]
  {
    match h.nextHandler
    case None =>
    case Some(next) =>
      HandledByFirstMatching(next, request);
      assert Kinds(h)[1..] == Kinds(next);
  }

  /** The chain of the demonstration: A, then B behind it. */
  function DemoChain(): Handler {
    SetNext(Handler(ConcreteHandlerA, None), Handler(ConcreteHandlerB, None)).0
  }

  /** What `exec` prints: requests A, B and C sent to the head of the chain. */
  function Exec(): seq<string> {
    Handle(DemoChain(), "requestA") + Handle(DemoChain(), "requestB") + Handle(DemoChain(), "requestC")
  }

  lemma ExecPrints()
    ensures Exec() == ["ConcreteHandlerA handling requestA", "ConcreteHandlerB handling requestB"]
  {
    assert "requestB" != "requestA" by { assert "requestB"[7] != "requestA"[7]; }
    assert "requestC" != "requestA" by { assert "requestC"[7] != "requestA"[7]; }
    assert "requestC" != "requestB" by { assert "requestC"[7] != "requestB"[7]; }
  }

  const DescriptionText: string := "[description] ChainOfResponsibility"
  const ExampleCodeText: string := "[example code] ChainOfResponsibility"

  /** The flow chart is not written yet: always the empty string. */
  function FlowChart(): string {
    ""
  }

  function Texts(): LeafTexts {
    LeafTexts(DescriptionText, FlowChart(), ExampleCodeText, Returns(Exec()))
  }

  /** `handler`: the output-selection loop on this command's texts and demonstration. */
  method Run(outputs: seq<OutputChoice>) returns (r: LeafResult)
    ensures r == LeafOutput(outputs, Texts())
  {
    r := HandleOutputs(outputs, Texts());
  }
}
