/** The earlier creational menu: only `factory-method` runs a command, two
    further choices do nothing, `help` prints a fixed line, and an answer
    that is not listed prints nothing (it shows no help). */
module LegacyCreationalCommand {
  import opened Patterns
  import opened Menus

  const Choices: seq<string> := ["help", "factory-method", "abstract-factory", "builder"]

  const Default: string := "help"

  /** `run`: the switch on the answer. */
  function Handler(answer: string): (a: MenuAction)
    ensures a == RunPattern(FactoryMethod) <==> answer == "factory-method"
    ensures a == PrintLine(HelpLine) <==> answer == "help"
    ensures a == Nothing <==> answer != "factory-method" && answer != "help"
    ensures a.RunPattern? || a.PrintLine? || a == Nothing
  {
    match answer
    case "factory-method" => RunPattern(FactoryMethod)
    case "abstract-factory" => Nothing
    case "builder" => Nothing
    case "help" => PrintLine(HelpLine)
    case _ => Nothing
  }

  /** The default answer is offered and prints the fixed help line; every
      other answer either runs the factory method command or prints nothing. */
  lemma HelpIsTheOnlyPrintingAnswer(answer: string)
    ensures Default in Choices && Printed(Handler(Default)) == [HelpLine]
    ensures answer != "help" ==> Printed(Handler(answer)) == []
  {
  }
}
