/** The entry menu: the three categories open their menus, `help` prints a
    fixed line, and an answer that is not listed only reaches the debug log. */
module MainCommand {
  import opened Wrappers
  import opened Patterns
  import opened Menus
  import BaseEnv
  import EnvDecorator

  const Choices: seq<string> := ["creational", "structural", "behavioral", "help"]

  const Default: string := "help"

  /** `handler`: the switch on the answer. */
  function Handler(answer: string): (a: MenuAction)
    ensures a.OpenCategory? <==> answer in Choices && answer != "help"
    ensures a.OpenCategory? ==> CategoryName(a.category) == answer
    ensures a == PrintLine(HelpLine) <==> answer == "help"
    ensures a == Nothing <==> answer !in Choices
  {
    match answer
    case "creational" => OpenCategory(Creational)
    case "structural" => OpenCategory(Structural)
    case "behavioral" => OpenCategory(Behavioral)
    case "help" => PrintLine(HelpLine)
    case _ => Nothing
  }

  /** Every category is opened by answering its name; the default answer is
      offered and prints the fixed line rather than any help table. */
  lemma EveryCategoryIsReachable(c: Category)
    ensures Handler(CategoryName(c)) == OpenCategory(c)
    ensures Default in Choices && Printed(Handler(Default)) == [HelpLine]
  {
  }

  /** What `run` reads before dispatching: the stage and `Environment.VERSION`
      for its debug lines, and the handler's action for the answer. */
  datatype RunResult = RunResult(stage: BaseEnv.ApplicationStage, version: Option<string>, action: MenuAction)

  /** `run` for the answer, once the configuration has loaded with `STAGE`
      and `VERSION` set to `stageEnv` and `versionEnv`: the debug reads of
      the stage and of `VERSION` cannot throw, and the handler follows. */
  function Run(answer: string, stageEnv: Option<string>, versionEnv: Option<string>): (r: RunResult)
    requires EnvDecorator.LoadEnvironment(versionEnv, stageEnv).Success?
    ensures stageEnv == Some(BaseEnv.StageName(r.stage))
    ensures r.version == versionEnv
    ensures r.action == Handler(answer)
  {
    var environment := EnvDecorator.LoadEnvironment(versionEnv, stageEnv).value;
    RunResult(BaseEnv.Stage(stageEnv).value, EnvDecorator.Get(environment), Handler(answer))
  }

  /** The program from its start: importing the configuration loads
      `Environment`, whose decorator throws before any prompt when `STAGE`
      is unset or invalid; otherwise `run` goes ahead. The error is the
      decorator's lower-case one, never the stage getter's. */
  function Program(answer: string, stageEnv: Option<string>, versionEnv: Option<string>): (r: Result<RunResult, string>)
    ensures r.Success? <==> BaseEnv.Stage(stageEnv).Success?
    ensures stageEnv.None? ==> r == Failure(EnvDecorator.UnsetMessage)
    ensures r.Failure? ==> r.error != BaseEnv.Stage(stageEnv).error
    ensures r.Success? ==> r.value.action == Handler(answer) && r.value.version == versionEnv
  {
    match EnvDecorator.LoadEnvironment(versionEnv, stageEnv)
    case Failure(e) => Failure(e)
    case Success(_) => Success(Run(answer, stageEnv, versionEnv))
  }

  /** Whether the program gets as far as the prompt depends only on `STAGE`,
      never on the answer or on `VERSION`. */
  lemma FailureIsIndependentOfAnswer(a1: string, a2: string, stageEnv: Option<string>, v1: Option<string>, v2: Option<string>)
    ensures Program(a1, stageEnv, v1).Failure? == Program(a2, stageEnv, v2).Failure?
    ensures Program(a1, stageEnv, v1).Failure? ==> Program(a1, stageEnv, v1) == Program(a2, stageEnv, v2)
  {
  }
}
