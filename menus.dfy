/** What answering one of the menus leads to. */
module Menus {
  import opened Wrappers
  import Text
  import opened Patterns
  import HelpCommand
  import LegacyHelpCommand

  datatype MenuAction =
    /** The main menu runs a category command. */
    | OpenCategory(category: Category)
    /** A category menu dispatches to a pattern command (whether that
        command's constructor accepts the arguments is not modelled). */
    | RunPattern(pattern: Pattern)
    /** `new HelpCommand(logger, 'large', category).show()`. */
    | ShowHelp(category: Category)
    /** The earlier help command's `show` on the large level. */
    | ShowLegacyHelp(category: Category)
    /** A fixed line printed with `console.log`. */
    | PrintLine(line: string)
    /** Nothing printed (at most a debug log). */
    | Nothing

  /** What the action prints itself, before any command it runs: one line
      for a help or a fixed line, nothing when it opens a menu, runs a
      pattern or does nothing. */
  function Printed(a: MenuAction): (lines: seq<string>)
    ensures |lines| <= 1
    ensures lines == [] <==> a.OpenCategory? || a.RunPattern? || a.Nothing?
    ensures a.PrintLine? ==> lines == [a.line]
  {
    match a
    case ShowHelp(c) => [Text.Render(HelpCommand.Lookup(HelpCommand.Large, HelpCommand.CategoryKey(c)))]
    case ShowLegacyHelp(c) => [Text.Render(LegacyHelpCommand.Lookup(LegacyHelpCommand.Large, c))]
    case PrintLine(line) => [line]
    case _ => []
  }

  /** Every help a menu can show has a text: it never prints `undefined`. */
  lemma MenuHelpIsNeverUndefined(c: Category)
    ensures Printed(ShowHelp(c)) != ["undefined"]
    ensures Printed(ShowLegacyHelp(c)) != ["undefined"]
  {
    CurrentHelpIsNeverUndefined(c);
    LegacyHelpIsNeverUndefined(c);
  }

  lemma CurrentHelpIsNeverUndefined(c: Category)
    ensures Printed(ShowHelp(c)) != ["undefined"]
  {
    HelpCommand.ShowPrintsUndefinedIffMissing(HelpCommand.Large, HelpCommand.CategoryKey(c));
  }

  lemma LegacyHelpIsNeverUndefined(c: Category)
    ensures Printed(ShowLegacyHelp(c)) != ["undefined"]
  {
    LegacyHelpCommand.NeverPrintsUndefined(LegacyHelpCommand.Large, c);
  }

  /** The line the main menu and the earlier creational menu print for `help`. */
  const HelpLine: string := "Help: 以下のデザインパターンから選んでください..."

  /** The names of some patterns, in order. */
  function Names(ps: seq<Pattern>): (names: seq<string>)
    ensures |names| == |ps|
    ensures forall k :: 0 <= k < |ps| ==> names[k] == Name(ps[k])
  {
    if |ps| == 0 then [] else [Name(ps[0])] + Names(ps[1..])
  }

  /** A category menu's `switch`: the listed pattern the answer names, if
      any (one `case` per listed pattern). */
  function Dispatch(answer: string, listed: seq<Pattern>): (r: Option<Pattern>)
    ensures r.Some? <==> answer in Names(listed)
    ensures r.Some? ==> r.value in listed && Name(r.value) == answer
  {
    if |listed| == 0 then None
    else if answer == Name(listed[0]) then Some(listed[0])
    else Dispatch(answer, listed[1..])
  }

  /** A listed pattern's own name selects that pattern. */
  lemma DispatchFindsListedPattern(p: Pattern, listed: seq<Pattern>)
    ensures Dispatch(Name(p), listed) == Some(p) <==> p in listed
  {
    if p in listed {
      assert Name(p) in Names(listed) by {
        var k :| 0 <= k < |listed| && listed[k] == p;
        assert Names(listed)[k] == Name(p);
      }
      NameIsInjective(p, Dispatch(Name(p), listed).value);
    }
  }

  /** No pattern is named `help`, so `help` never selects a pattern. */
  lemma NoPatternIsNamedHelp(p: Pattern)
    ensures Name(p) != "help"
  {
    assert FromName(Name(p)) == Some(p);
    assert FromName("help") == None;
  }
}
