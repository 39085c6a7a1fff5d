/** The earlier behavioral menu: only `adapter` runs a command, three further
    choices are accepted and do nothing, and `help` or anything else shows the
    earlier help command's large behavioral text. */
module LegacyBehavioralCommand {
  import opened Patterns
  import opened Menus

  const Choices: seq<string> := ["help", "adapter", "abstract-factory", "builder", "prototype"]

  /** The choices that are listed but have an empty case. */
  const Inert: seq<string> := ["abstract-factory", "builder", "prototype"]

  const Default: string := "help"

  /** `handler`: the switch on the answer. */
  function Handler(answer: string): (a: MenuAction)
    ensures a == RunPattern(Adapter) <==> answer == "adapter"
    ensures a == Nothing <==> answer in Inert
    ensures a == ShowLegacyHelp(Behavioral) <==> answer == "help" || answer !in Choices
    ensures a.RunPattern? || a == Nothing || a == ShowLegacyHelp(Behavioral)
  {
    match answer
    case "adapter" => RunPattern(Adapter)
    case "abstract-factory" => Nothing
    case "builder" => Nothing
    case "prototype" => Nothing
    case "help" => ShowLegacyHelp(Behavioral)
    case _ => ShowLegacyHelp(Behavioral)
  }

  /** The default answer is offered and shows the help, and no choice but
      `adapter` reaches a pattern command. */
  lemma OnlyAdapterRuns(answer: string)
    ensures Default in Choices && Handler(Default) == ShowLegacyHelp(Behavioral)
    ensures Handler(answer).RunPattern? ==> Handler(answer).pattern == Adapter
  {
  }
}
