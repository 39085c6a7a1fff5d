/** The application stage read from the `STAGE` environment variable: it
    must be set and must be one of `local`, `dev` and `prod`, otherwise
    reading it throws. */
module BaseEnv {
  import opened Wrappers

  datatype ApplicationStage = Local | Dev | Prod

  /** The value of `STAGE` that selects the stage. */
  function StageName(s: ApplicationStage): string {
    match s
    case Local => "local"
    case Dev => "dev"
    case Prod => "prod"
  }

  const UnsetMessage: string := "process.env.STAGE undefined"
  const InvalidMessage: string := "process.env.STAGE is invalid. Set to local, dev, or prod."

  /** The `stage` getter for the value of `STAGE` (`None` when it is unset);
      a thrown error is a `Failure` carrying its message. */
  function Stage(env: Option<string>): (r: Result<ApplicationStage, string>)
    ensures env.None? <==> r == Failure(UnsetMessage)
    ensures r.Success? ==> env == Some(StageName(r.value))
    ensures r.Failure? && env.Some? ==> r.error == InvalidMessage && forall s :: StageName(s) != env.value
  {
    match env
    case None => Failure(UnsetMessage)
    case Some(v) =>
      if v == "local" then Success(Local)
      else if v == "dev" then Success(Dev)
      else if v == "prod" then Success(Prod)
      else Failure(InvalidMessage)
  }

  /** Every stage's name is accepted and read back as that stage. */
  lemma StageRoundTrip(s: ApplicationStage)
    ensures Stage(Some(StageName(s))) == Success(s)
  {
  }

  /** `isProd`, `isDev`, `isLocal`: compare the stage, throwing whatever it throws. */
  function IsStage(env: Option<string>, s: ApplicationStage): Result<bool, string> {
    match Stage(env)
    case Failure(e) => Failure(e)
    case Success(t) => Success(t == s)
  }

  function IsProd(env: Option<string>): (r: Result<bool, string>)
    ensures r.Failure? <==> Stage(env).Failure?
    ensures r.Failure? ==> r.error == Stage(env).error
    ensures r.Success? ==> (r.value <==> env == Some("prod"))
  {
    IsStage(env, Prod)
  }

  function IsDev(env: Option<string>): (r: Result<bool, string>)
    ensures r.Failure? <==> Stage(env).Failure?
    ensures r.Failure? ==> r.error == Stage(env).error
    ensures r.Success? ==> (r.value <==> env == Some("dev"))
  {
    IsStage(env, Dev)
  }

  function IsLocal(env: Option<string>): (r: Result<bool, string>)
    ensures r.Failure? <==> Stage(env).Failure?
    ensures r.Failure? ==> r.error == Stage(env).error
    ensures r.Success? ==> (r.value <==> env == Some("local"))
  {
    IsStage(env, Local)
  }

  /** With a valid `STAGE` exactly one of the three tests holds, and it is the
      one naming the variable's value; otherwise all three throw the
      stage getter's error. */
  lemma ExactlyOneStageTestHolds(env: Option<string>)
    ensures Stage(env).Success? ==>
      IsProd(env).Success? && IsDev(env).Success? && IsLocal(env).Success? &&
      (if IsProd(env).value then 1 else 0) + (if IsDev(env).value then 1 else 0) + (if IsLocal(env).value then 1 else 0) == 1
    ensures Stage(env).Success? ==>
      (IsProd(env).value <==> env == Some("prod")) &&
      (IsDev(env).value <==> env == Some("dev")) &&
      (IsLocal(env).value <==> env == Some("local"))
    ensures Stage(env).Failure? ==>
      IsProd(env) == Failure(Stage(env).error) &&
      IsDev(env) == Failure(Stage(env).error) &&
      IsLocal(env) == Failure(Stage(env).error)
  {
    if Stage(env).Success? {
      assert env.Some?;
      assert "prod" != "dev" && "prod" != "local" && "dev" != "local";
    }
  }
}
