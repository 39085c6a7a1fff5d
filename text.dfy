/** String helpers shared by the demonstrations: decimal rendering of integers
    (what a template literal `${n}` prints for an integral number), joining,
    and what `console.log` prints for a value that may be `undefined`. */
module Text {
  import opened Wrappers

  /** The decimal digit character for `d`. */
  function Digit(d: nat): (c: char)
    requires d < 10
    ensures '0' <= c <= '9'
  {
    "0123456789"[d]
  }

  /** Decimal rendering of a natural number, without leading zeros. */
  function NatToString(n: nat): (s: string)
    ensures |s| >= 1
    ensures forall k :: 0 <= k < |s| ==> '0' <= s[k] <= '9'
    decreases n
  {
    if n < 10 then [Digit(n)] else NatToString(n / 10) + [Digit(n % 10)]
  }

  /** Decimal rendering of an integer, with a leading '-' for negatives. */
  function IntToString(n: int): (s: string)
    ensures |s| >= 1
    ensures (s[0] == '-') <==> n < 0
  {
    if n < 0 then "-" + NatToString(-n) else NatToString(n)
  }

  /** `parts.join(sep)`: the parts with `sep` between neighbours. */
  function Join(parts: seq<string>, sep: string): (s: string)
    decreases |parts|
  {
    if |parts| == 0 then ""
    else if |parts| == 1 then parts[0]
    else Join(parts[..|parts| - 1], sep) + sep + parts[|parts| - 1]
  }

  /** Joining one more part appends the separator and that part. */
  lemma {:induction false} JoinSnoc(parts: seq<string>, p: string, sep: string)
    requires |parts| >= 1
    ensures Join(parts + [p], sep) == Join(parts, sep) + sep + p
  {
    assert (parts + [p])[..|parts|] == parts;
  }

  /** A non-empty joined list starts with its first part and ends with its
      last. */
  lemma {:induction false} JoinEnds(parts: seq<string>, sep: string)
    ensures |parts| > 0 ==> |parts[0]| <= |Join(parts, sep)| && Join(parts, sep)[..|parts[0]|] == parts[0]
    ensures |parts| > 0 ==> |parts[|parts| - 1]| <= |Join(parts, sep)|
    ensures |parts| > 0 ==> Join(parts, sep)[|Join(parts, sep)| - |parts[|parts| - 1]|..] == parts[|parts| - 1]
    decreases |parts|
  {
    if |parts| > 1 {
      var init := parts[..|parts| - 1];
      JoinEnds(init, sep);
      assert init[0] == parts[0];
      var s := Join(parts, sep);
      assert s == Join(init, sep) + sep + parts[|parts| - 1];
      assert s[..|parts[0]|] == Join(init, sep)[..|parts[0]|];
    }
  }

  /** Number of occurrences of `c` in `s`. */
  function Occurrences(s: string, c: char): (n: nat)
    ensures n <= |s|
    decreases |s|
  {
    if |s| == 0 then 0
    else Occurrences(s[..|s| - 1], c) + (if s[|s| - 1] == c then 1 else 0)
  }

  /** Occurrences add up over a concatenation. */
  lemma {:induction false} OccurrencesAppend(a: string, b: string, c: char)
    ensures Occurrences(a + b, c) == Occurrences(a, c) + Occurrences(b, c)
    decreases |b|
  {
    if |b| == 0 {
      assert a + b == a;
    } else {
      assert (a + b)[..|a + b| - 1] == a + b[..|b| - 1];
      OccurrencesAppend(a, b[..|b| - 1], c);
    }
  }

  /** How `console.log` prints a `string | undefined`: a text as it is, and
      `undefined` as the word, so the word comes out exactly for a missing
      text or for a text that is that word. */
  function Render(content: Option<string>): (s: string)
    ensures content.Some? ==> s == content.value
    ensures s == "undefined" <==> content.None? || content == Some("undefined")
  {
    match content
    case Some(s) => s
    case None => "undefined"
  }

  /** Renderings of the numbers the demonstrations print. */
  lemma TenAndHundred()
    ensures IntToString(10) == "10" && IntToString(16) == "16" && IntToString(20) == "20"
    ensures IntToString(100) == "100" && IntToString(200) == "200"
  {
    assert NatToString(10) == NatToString(1) + [Digit(0)];
    assert NatToString(16) == NatToString(1) + [Digit(6)];
    assert NatToString(20) == NatToString(2) + [Digit(0)];
    assert NatToString(100) == NatToString(10) + [Digit(0)];
    assert NatToString(200) == NatToString(20) + [Digit(0)];
  }
}
