/** The output-selection loop that every pattern command runs on its checkbox
    answer `outputs`.  `help` and `exec` print at once; `description`,
    `flow-chart` and `example-code` push a string onto the local `outputMsg`
    array, which is printed after the loop, in order.  The loop is written once
    here and instantiated by every pattern module with that pattern's texts and
    demonstration. */
module LeafCommand {

  /** One checkbox choice of a pattern command. */
  datatype OutputChoice = Help | Exec | Description | FlowChart | ExampleCode

  /** Line printed when `help` is met (no help table is consulted). */
  const HelpSelected: string := "helpが選択されました"
  /** Line printed when `exec` is met, just before the demonstration runs. */
  const ExecSelected: string := "execが選択されました"

  /** What a pattern's `exec` demonstration prints: either it returns after
      printing `lines`, or it recurses without bound, printing `cycle` over and
      over until the call stack overflows and a `RangeError` escapes (the
      depth at which that happens is not modelled). */
  datatype Demo = Returns(lines: seq<string>) | Recurses(cycle: seq<string>)

  /** The four things a pattern command contributes to the loop. */
  datatype LeafTexts = LeafTexts(description: string, flowChart: string, exampleCode: string, demo: Demo)

  /** What one run of the loop prints: either everything (the loop and the
      flush completed), or the lines printed before a demonstration that
      recurses without bound, followed by the `cycle` it repeats until the
      stack overflows. */
  datatype LeafResult = Finished(printed: seq<string>) | Diverged(printed: seq<string>, cycle: seq<string>)

  /** The choices that push onto `outputMsg` instead of printing at once. */
  predicate IsBuffered(o: OutputChoice) {
    o == Description || o == FlowChart || o == ExampleCode
  }

  /** The string a buffered choice pushes. */
  function Pushed(o: OutputChoice, t: LeafTexts): string
    requires IsBuffered(o)
  {
    match o
    case Description => t.description
    case FlowChart => t.flowChart
    case ExampleCode => t.exampleCode
  }

  /** What one choice prints during the loop. */
  function Immediate(o: OutputChoice, t: LeafTexts): seq<string> {
    match o
    case Help => [HelpSelected]
    case Exec => [ExecSelected] + (if t.demo.Returns? then t.demo.lines else [])
    case _ => []
  }

  /** What one choice pushes onto `outputMsg`. */
  function Buffer(o: OutputChoice, t: LeafTexts): seq<string> {
    if IsBuffered(o) then [Pushed(o, t)] else []
  }

  /** Lines printed while the loop walks `sel`, in walking order. */
  function ImmediateTrace(sel: seq<OutputChoice>, t: LeafTexts): seq<string>
    decreases |sel|
  {
    if |sel| == 0 then []
    else ImmediateTrace(sel[..|sel| - 1], t) + Immediate(sel[|sel| - 1], t)
  }

  /** The contents of `outputMsg` after the loop has walked `sel`. */
  function BufferOf(sel: seq<OutputChoice>, t: LeafTexts): seq<string>
    decreases |sel|
  {
    if |sel| == 0 then []
    else BufferOf(sel[..|sel| - 1], t) + Buffer(sel[|sel| - 1], t)
  }

  /** Position of the first occurrence of `x` in `s`. */
  function FirstIndex(s: seq<OutputChoice>, x: OutputChoice): (k: nat)
    requires x in s
    ensures k < |s| && s[k] == x && x !in s[..k]
  {
    if s[0] == x then 0
    else
      var k := FirstIndex(s[1..], x);
      assert s[1..][..k] == s[1..k + 1];
      k + 1
  }

  /** Whether walking `sel` reaches a demonstration that recurses without bound. */
  predicate Diverges(sel: seq<OutputChoice>, t: LeafTexts) {
    t.demo.Recurses? && Exec in sel
  }

  /** Everything one run of the loop prints for the answer `sel`. */
  function LeafOutput(sel: seq<OutputChoice>, t: LeafTexts): LeafResult {
    if Diverges(sel, t) then
      var k := FirstIndex(sel, Exec);
      Diverged(ImmediateTrace(sel[..k], t) + [ExecSelected], t.demo.cycle)
    else Finished(ImmediateTrace(sel, t) + BufferOf(sel, t))
  }

  /** The loop itself: walk the choices, print `help`/`exec` at once, push
      the others onto `outputMsg`, then print `outputMsg` in order. */
  method HandleOutputs(selected: seq<OutputChoice>, t: LeafTexts) returns (r: LeafResult)
    ensures r == LeafOutput(selected, t)
  {
    var outputMsg: seq<string> := [];
    var console: seq<string> := [];
    var i := 0;
    while i < |selected|
      invariant 0 <= i <= |selected|
      invariant console == ImmediateTrace(selected[..i], t)
      invariant outputMsg == BufferOf(selected[..i], t)
      invariant t.demo.Recurses? ==> Exec !in selected[..i]
    {
      var option := selected[i];
      WalkOneMore(selected, i, t);
      if option == Help {
        console := console + [HelpSelected];
      } else if option == Exec {
        console := console + [ExecSelected];
        match t.demo
        case Returns(lines) =>
          console := console + lines;
        case Recurses(cycle) =>
          FirstExecAt(selected, i);
          return Diverged(console, cycle);
      } else if option == Description {
        outputMsg := outputMsg + [t.description];
      } else if option == FlowChart {
        outputMsg := outputMsg + [t.flowChart];
      } else {
        outputMsg := outputMsg + [t.exampleCode];
      }
      i := i + 1;
    }
    assert selected[..i] == selected;
    console := Flush(console, outputMsg);
    r := Finished(console);
  }

  /** The flush after the loop: print every entry of `outputMsg`, in order. */
  method Flush(console: seq<string>, outputMsg: seq<string>) returns (printed: seq<string>)
    ensures printed == console + outputMsg
  {
    printed := console;
    var j := 0;
    while j < |outputMsg|
      invariant 0 <= j <= |outputMsg|
      invariant printed == console + outputMsg[..j]
    {
      assert outputMsg[..j + 1] == outputMsg[..j] + [outputMsg[j]];
      printed := printed + [outputMsg[j]];
      j := j + 1;
    }
    assert outputMsg[..j] == outputMsg;
  }

  /** Walking one more choice adds what that choice prints and what it pushes. */
  lemma WalkOneMore(sel: seq<OutputChoice>, i: nat, t: LeafTexts)
    requires i < |sel|
    ensures ImmediateTrace(sel[..i + 1], t) == ImmediateTrace(sel[..i], t) + Immediate(sel[i], t)
    ensures BufferOf(sel[..i + 1], t) == BufferOf(sel[..i], t) + Buffer(sel[i], t)
  {
    assert sel[..i + 1][..i] == sel[..i];
  }

  /** A position holding `Exec` with no `Exec` before it is the first one. */
  lemma FirstExecAt(s: seq<OutputChoice>, i: nat)
    requires i < |s| && s[i] == Exec && Exec !in s[..i]
    ensures Exec in s && FirstIndex(s, Exec) == i
  {
    var k := FirstIndex(s, Exec);
  }

  // ---------------------------------------------------------------------
  // Properties of the loop

  /** Walking one more choice prints what that choice prints, after the rest. */
  lemma ImmediateTraceSnoc(s: seq<OutputChoice>, o: OutputChoice, t: LeafTexts)
    ensures ImmediateTrace(s + [o], t) == ImmediateTrace(s, t) + Immediate(o, t)
  {
    assert (s + [o])[..|s|] == s;
  }

  /** Walking two answers one after the other prints what each prints. */
  lemma {:induction false} ImmediateTraceAppend(a: seq<OutputChoice>, b: seq<OutputChoice>, t: LeafTexts)
    ensures ImmediateTrace(a + b, t) == ImmediateTrace(a, t) + ImmediateTrace(b, t)
    decreases |b|
  {
    if |b| == 0 {
      assert a + b == a;
    } else {
      var init, last := b[..|b| - 1], b[|b| - 1];
      assert b == init + [last];
      Associative(a, init, [last]);
      var x := Immediate(last, t);
      calc {
        ImmediateTrace(a + b, t);
        ImmediateTrace((a + init) + [last], t);
        { ImmediateTraceSnoc(a + init, last, t); }
        ImmediateTrace(a + init, t) + x;
        { ImmediateTraceAppend(a, init, t); }
        (ImmediateTrace(a, t) + ImmediateTrace(init, t)) + x;
        { Associative(ImmediateTrace(a, t), ImmediateTrace(init, t), x); }
        ImmediateTrace(a, t) + (ImmediateTrace(init, t) + x);
        { ImmediateTraceSnoc(init, last, t); }
        ImmediateTrace(a, t) + ImmediateTrace(b, t);
      }
    }
  }

  /** Concatenation regroups freely. */
  lemma Associative<T>(x: seq<T>, y: seq<T>, z: seq<T>)
    ensures x + (y + z) == (x + y) + z
  {
  }

  /** The buffer of two answers one after the other is the two buffers in order. */
  lemma {:induction false} BufferOfAppend(a: seq<OutputChoice>, b: seq<OutputChoice>, t: LeafTexts)
    ensures BufferOf(a + b, t) == BufferOf(a, t) + BufferOf(b, t)
    decreases |b|
  {
    if |b| == 0 {
      assert a + b == a;
    } else {
      var init, last := b[..|b| - 1], b[|b| - 1];
      assert (a + b)[..|a + b| - 1] == a + init;
      assert (a + b)[|a + b| - 1] == last;
      BufferOfAppend(a, init, t);
      calc {
        BufferOf(a + b, t);
        BufferOf(a + init, t) + Buffer(last, t);
        (BufferOf(a, t) + BufferOf(init, t)) + Buffer(last, t);
      }
    }
  }

  /** The buffered choices of `sel`, in selection order. */
  function BufferedChoices(sel: seq<OutputChoice>): (r: seq<OutputChoice>)
    ensures forall k :: 0 <= k < |r| ==> IsBuffered(r[k])
    decreases |sel|
  {
    if |sel| == 0 then []
    else BufferedChoices(sel[..|sel| - 1]) + (if IsBuffered(sel[|sel| - 1]) then [sel[|sel| - 1]] else [])
  }

  /** Selection order is flush order: the k-th buffered entry is the string
      of the k-th buffered choice, and there is one entry per such choice. */
  lemma {:induction false} BufferFollowsSelectionOrder(sel: seq<OutputChoice>, t: LeafTexts)
    ensures |BufferOf(sel, t)| == |BufferedChoices(sel)|
    ensures forall k :: 0 <= k < |BufferOf(sel, t)| ==> BufferOf(sel, t)[k] == Pushed(BufferedChoices(sel)[k], t)
    decreases |sel|
  {
    if |sel| > 0 {
      BufferFollowsSelectionOrder(sel[..|sel| - 1], t);
    }
  }

  /** `help` and `exec` never reach the buffer: dropping them from the answer
      leaves the buffer as it was, and the remaining choices print nothing
      during the loop. */
  lemma {:induction false} HelpAndExecNeverBuffered(sel: seq<OutputChoice>, t: LeafTexts)
    ensures BufferOf(BufferedChoices(sel), t) == BufferOf(sel, t)
    ensures ImmediateTrace(BufferedChoices(sel), t) == []
    decreases |sel|
  {
    if |sel| > 0 {
      var init, last := sel[..|sel| - 1], sel[|sel| - 1];
      HelpAndExecNeverBuffered(init, t);
      var tail := if IsBuffered(last) then [last] else [];
      BufferOfAppend(BufferedChoices(init), tail, t);
      ImmediateTraceAppend(BufferedChoices(init), tail, t);
      if IsBuffered(last) {
        assert [last][..0] == [];
      }
    }
  }

  /** A `help` anywhere in the answer prints its line before every buffered
      entry: the line sits inside the part printed during the loop, and the
      buffer is printed only after that part. */
  lemma HelpPrintedBeforeBuffer(a: seq<OutputChoice>, b: seq<OutputChoice>, t: LeafTexts)
    requires !Diverges(a + [Help] + b, t)
    ensures var sel := a + [Help] + b;
            var p := |ImmediateTrace(a, t)|;
            LeafOutput(sel, t).Finished? &&
            p < |ImmediateTrace(sel, t)| &&
            LeafOutput(sel, t).printed[p] == HelpSelected &&
            LeafOutput(sel, t).printed[|ImmediateTrace(sel, t)|..] == BufferOf(sel, t)
  {
    ImmediateTraceAppend(a + [Help], b, t);
    ImmediateTraceAppend(a, [Help], t);
    assert ImmediateTrace([Help], t) == [HelpSelected] by {
      assert [Help][..0] == [];
    }
  }

  /** An empty answer prints nothing at all. */
  lemma EmptySelectionPrintsNothing(t: LeafTexts)
    ensures LeafOutput([], t) == Finished([])
  {
  }

  /** Choosing only `help` prints the fixed line whatever the pattern's texts:
      no help table is read. */
  lemma HelpOnlyPrintsFixedLine(t: LeafTexts)
    ensures LeafOutput([Help], t) == Finished([HelpSelected])
  {
    assert [Help][..0] == [];
  }

  /** Choosing only `exec` prints the fixed line and the demonstration's
      output exactly once; nothing is buffered. */
  lemma ExecOnlyRunsDemoOnce(t: LeafTexts)
    requires t.demo.Returns?
    ensures LeafOutput([Exec], t) == Finished([ExecSelected] + t.demo.lines)
  {
    assert [Exec][..0] == [];
  }

  /** `description` then `example-code` prints exactly those two strings, in that order. */
  lemma DescriptionThenExampleCode(t: LeafTexts)
    ensures LeafOutput([Description, ExampleCode], t) == Finished([t.description, t.exampleCode])
  {
    assert [Description, ExampleCode][..1] == [Description];
    assert [Description][..0] == [];
  }

  /** When the demonstration recurses without bound, the command stops at
      the first `exec`: what the earlier choices printed, the `exec` line,
      then the repeated cycle. The stack overflow's `RangeError` escapes the
      loop and `run`, so `outputMsg` is never printed. */
  lemma DivergenceDropsBuffer(a: seq<OutputChoice>, b: seq<OutputChoice>, t: LeafTexts)
    requires t.demo.Recurses? && Exec !in a
    ensures LeafOutput(a + [Exec] + b, t) == Diverged(ImmediateTrace(a, t) + [ExecSelected], t.demo.cycle)
  {
    var sel := a + [Exec] + b;
    assert sel[|a|] == Exec;
    assert sel[..|a|] == a;
    FirstExecAt(sel, |a|);
  }
}
