/** The Proxy command: a protection proxy that checks access, forwards the
    request to the real subject, and logs it. */
module Proxy {
  import opened LeafCommand

  const ClientReal: string := "Client: Executing the client code with a real subject:"
  const ClientProxy: string := "Client: Executing the client code with a proxy:"
  const RealHandling: string := "RealSubject: Handling request."
  const ProxyChecking: string := "Proxy: Checking access..."
  const ProxyLogging: string := "Proxy: Logging the time of request."

  /** A subject a client can send `request` to. */
  datatype Subject = RealSubject | ProxySubject(realSubject: Subject)

  /** `checkAccess`: prints its line and always grants access. */
  function CheckAccess(): (r: (seq<string>, bool))
    ensures r.1
    ensures r.0 == [ProxyChecking]
  {
    ([ProxyChecking], true)
  }

  /** `request`: the real subject prints its own line alone; a proxy opens
      with the access check and closes with the log line around at least
      that line. */
  function Request(s: Subject): (out: seq<string>)
    ensures s.RealSubject? ==> out == [RealHandling]
    ensures s.ProxySubject? ==> |out| >= 3 && out[0] == ProxyChecking && out[|out| - 1] == ProxyLogging
    decreases s, 0
  {
    match s
    case RealSubject => [RealHandling]
    case ProxySubject(inner) => ProxyRequest(CheckAccess(), inner)
  }

  /** The proxy's request given the outcome of the access check: the check's
      lines come first; a refused check adds nothing, a granted one adds the
      subject's output and one log line. */
  function ProxyRequest(check: (seq<string>, bool), inner: Subject): (out: seq<string>)
    ensures |check.0| <= |out| && out[..|check.0|] == check.0
    ensures !check.1 ==> out == check.0
    ensures check.1 ==> |out| >= |check.0| + 2 && out[|out| - 1] == ProxyLogging
    decreases inner, 1
  {
    check.0 + (if check.1 then Request(inner) + [ProxyLogging] else [])
  }

  /** Whatever the check decides, its line comes first; a refused check
      prints nothing else, so the real subject is not reached. */
  lemma RefusedAccessNeverReachesSubject(inner: Subject)
    ensures ProxyRequest(([ProxyChecking], false), inner) == [ProxyChecking]
    ensures RealHandling !in ProxyRequest(([ProxyChecking], false), inner)
  {
  }

  /** Through the proxy the subject's own output appears exactly once,
      framed by the access check before it and the log line after it. */
  lemma ProxyFramesRequest(inner: Subject)
    ensures var out := Request(ProxySubject(inner));
            out == [ProxyChecking] + Request(inner) + [ProxyLogging] &&
            out[0] == ProxyChecking && out[|out| - 1] == ProxyLogging &&
            out[1..|out| - 1] == Request(inner)
  {
    RequestThroughProxy(inner);
    Framed(ProxyChecking, Request(inner), ProxyLogging);
  }

  /** A proxy's request, unfolded: the granted check's line, the subject's
      output, the log line. */
  lemma RequestThroughProxy(inner: Subject)
    ensures Request(ProxySubject(inner)) == [ProxyChecking] + (Request(inner) + [ProxyLogging])
  {
    assert ProxyRequest(([ProxyChecking], true), inner) == [ProxyChecking] + (Request(inner) + [ProxyLogging]);
  }

  /** A sequence framed by one element on each side. */
  lemma Framed<T>(first: T, middle: seq<T>, last: T)
    ensures var out := [first] + (middle + [last]);
            out == [first] + middle + [last] &&
            out[0] == first && out[|out| - 1] == last &&
            out[1..|out| - 1] == middle
  {
    var out := [first] + (middle + [last]);
    assert out[1..] == middle + [last];
    assert out[1..|out| - 1] == out[1..][..|middle|];
  }

  /** `n` proxies, each around the next, around the real subject. */
  function Wrap(n: nat): Subject {
    if n == 0 then RealSubject else ProxySubject(Wrap(n - 1))
  }

  /** The proxy's own lines are never the real subject's line. */
  lemma FrameLinesAreNotHandling()
    ensures ProxyChecking != RealHandling && ProxyLogging != RealHandling
  {
    assert ProxyChecking[0] != RealHandling[0];
    assert ProxyLogging[0] != RealHandling[0];
  }

  /** The proxy adds two lines and removes none: n proxies around the real
      subject print 2n + 1 lines, and the subject's line exactly once. */
  lemma {:induction false} NestedProxiesForwardOnce(n: nat)
    ensures |Request(Wrap(n))| == 2 * n + 1
    ensures multiset(Request(Wrap(n)))[RealHandling] == 1
  {
    if n == 0 {
      assert Request(Wrap(0)) == [RealHandling];
    } else {
      NestedProxiesForwardOnce(n - 1);
      var inner := Request(Wrap(n - 1));
      assert Request(Wrap(n)) == [ProxyChecking] + (inner + [ProxyLogging]) by {
        assert Wrap(n) == ProxySubject(Wrap(n - 1));
        RequestThroughProxy(Wrap(n - 1));
      }
      FrameLinesAreNotHandling();
    }
  }

  /** What `exec` prints: the client calls the real subject, then the proxy. */
  function Exec(): seq<string> {
    [ClientReal] + Request(RealSubject) + [ClientProxy] + Request(ProxySubject(RealSubject))
  }

  lemma ExecPrints()
    ensures Exec() == [
      "Client: Executing the client code with a real subject:",
      "RealSubject: Handling request.",
      "Client: Executing the client code with a proxy:",
      "Proxy: Checking access...",
      "RealSubject: Handling request.",
      "Proxy: Logging the time of request."]
  {
  }

  const DescriptionText: string := "[description] Proxy"
  const ExampleCodeText: string := "[example code] Proxy"

  /** The flow chart is not written yet: always the empty string. */
  function FlowChart(): string {
    ""
  }

  function Texts(): LeafTexts {
    LeafTexts(DescriptionText, FlowChart(), ExampleCodeText, Returns(Exec()))
  }

  /** `handler`: the output-selection loop on this command's texts and demonstration. */
  method Run(outputs: seq<OutputChoice>) returns (r: LeafResult)
    ensures r == LeafOutput(outputs, Texts())
  {
    r := HandleOutputs(outputs, Texts());
  }
}
