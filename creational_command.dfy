/** The creational category menu: each listed pattern runs its command, and
    `help` or anything else shows the large creational help. */
module CreationalCommand {
  import opened Patterns
  import opened Wrappers
  import opened Menus

  /** The patterns the menu lists, in menu order. */
  const Runs: seq<Pattern> := [FactoryMethod, AbstractFactory, Builder, Prototype]

  /** `help` first, then the listed patterns' names. */
  const Choices: seq<string> := ["help"] + Names(Runs)

  const Default: string := "help"

  /** `handler`: the switch on the answer; a `case` for each listed pattern,
      and `help` and `default` both showing the large creational help. */
  function Handler(answer: string): (a: MenuAction)
    ensures a.RunPattern? <==> answer in Choices && answer != "help"
    ensures a.RunPattern? ==> a.pattern in Runs && Name(a.pattern) == answer
    ensures !a.RunPattern? ==> a == ShowHelp(Creational)
  {
    if answer == "help" then ShowHelp(Creational)
    else
      match Dispatch(answer, Runs)
      case Some(p) => RunPattern(p)
      case None => ShowHelp(Creational)
  }

  /** Every listed pattern is run by answering its name, and the default
      answer is offered and shows the help. */
  lemma EveryListedPatternIsReachable(p: Pattern)
    ensures p in Runs <==> Handler(Name(p)) == RunPattern(p)
    ensures Default in Choices && Handler(Default) == ShowHelp(Creational)
  {
    DispatchFindsListedPattern(p, Runs);
    NoPatternIsNamedHelp(p);
  }
}
