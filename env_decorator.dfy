/** The `EnvVar` property decorator: applying it checks `STAGE` (throwing as
    the stage getter does, with its own messages) and fixes the stage; the
    property it defines reads the option for that stage, else the default,
    else `undefined`, and ignores assignments. */
module EnvDecorator {
  import opened Wrappers
  import opened BaseEnv

  /** One optional value per stage, and an optional default. */
  datatype EnvOptions<T> = EnvOptions(local: Option<T>, dev: Option<T>, prod: Option<T>, defaultValue: Option<T>)

  /** `options[STAGE]`. */
  function ForStage<T>(options: EnvOptions<T>, s: ApplicationStage): Option<T> {
    match s
    case Local => options.local
    case Dev => options.dev
    case Prod => options.prod
  }

  /** The property the decorator defines: its options and the stage fixed when
      the decorator was applied. */
  datatype Property<T> = Property(options: EnvOptions<T>, stage: ApplicationStage)

  const UnsetMessage: string := "process.env.stage undefined"
  const InvalidMessage: string := "process.env.stage is invalid. Set to local, dev, or prod."

  /** `EnvVar(options)` applied with `STAGE` set to `env`. */
  function EnvVar<T>(options: EnvOptions<T>, env: Option<string>): (r: Result<Property<T>, string>)
    ensures r.Success? <==> Stage(env).Success?
    ensures r.Success? ==> r.value.options == options && env == Some(StageName(r.value.stage))
    ensures env.None? <==> r == Failure(UnsetMessage)
    ensures r.Failure? && env.Some? ==> r.error == InvalidMessage
  {
    match env
    case None => Failure(UnsetMessage)
    case Some(v) =>
      if v == "local" then Success(Property(options, Local))
      else if v == "dev" then Success(Property(options, Dev))
      else if v == "prod" then Success(Property(options, Prod))
      else Failure(InvalidMessage)
  }

  /** The decorator accepts exactly the values the stage getter accepts and
      fixes the stage the getter reads; only the wording of the errors
      differs (`stage` where the getter says `STAGE`). */
  lemma EnvVarAgreesWithStage<T>(options: EnvOptions<T>, env: Option<string>)
    ensures EnvVar(options, env).Success? ==> Stage(env) == Success(EnvVar(options, env).value.stage)
    ensures EnvVar(options, env).Failure? ==> Stage(env).Failure? && Stage(env).error != EnvVar(options, env).error
  {
    if env.Some? && EnvVar(options, env).Failure? {
      assert InvalidMessage[12] != BaseEnv.InvalidMessage[12];
    }
    if env.None? {
      assert UnsetMessage[12] != BaseEnv.UnsetMessage[12];
    }
  }

  /** The getter: the option for the fixed stage when it is defined, else the
      default when that is defined, else `undefined` (`None`). */
  function Get<T>(p: Property<T>): (v: Option<T>)
    ensures ForStage(p.options, p.stage).Some? ==> v == ForStage(p.options, p.stage)
    ensures ForStage(p.options, p.stage).None? ==> v == p.options.defaultValue
    ensures v.Some? ==> v == ForStage(p.options, p.stage) || v == p.options.defaultValue
  {
    match ForStage(p.options, p.stage)
    case Some(x) => Some(x)
    case None => p.options.defaultValue
  }

  /** The setter: the assigned value is dropped, so reading afterwards gives
      what reading gave before. */
  function Set<T>(p: Property<T>, value: T): (q: Property<T>)
    ensures Get(q) == Get(p)
  {
    p
  }

  /** Reading after any number of assignments gives what reading gave before. */
  lemma {:induction false} AssignmentsAreIgnored<T>(p: Property<T>, values: seq<T>)
    ensures Get(SetAll(p, values)) == Get(p)
    decreases |values|
  {
    if |values| > 0 {
      AssignmentsAreIgnored(Set(p, values[0]), values[1..]);
    }
  }

  function SetAll<T>(p: Property<T>, values: seq<T>): Property<T>
    decreases |values|
  {
    if |values| == 0 then p else SetAll(Set(p, values[0]), values[1..])
  }

  /** Loading the `Environment` class: its `VERSION` property is decorated
      with only a default, the value `VERSION` has at that moment. Applying
      the decorator throws its own lower-case messages when `STAGE` is unset
      or names no stage, so loading fails where the stage getter would, but
      never with the getter's message. */
  function LoadEnvironment(versionEnv: Option<string>, stageEnv: Option<string>): (r: Result<Property<string>, string>)
    ensures r.Success? <==> Stage(stageEnv).Success?
    ensures r.Failure? ==> r.error in {UnsetMessage, InvalidMessage} && r.error != Stage(stageEnv).error
    ensures r.Success? ==> Stage(stageEnv) == Success(r.value.stage) && Get(r.value) == versionEnv
  {
    var options := EnvOptions(None, None, None, versionEnv);
    EnvVarAgreesWithStage(options, stageEnv);
    EnvVar(options, stageEnv)
  }
}
