/**
 * The request-level rules of the start endpoint: bounds validation of the
 * three parameters, in a fixed order, then the hand-off to the controller.
 */
module Requests {
  import opened Wrappers
  import opened RunSpec

  const MinDuration := 1
  const MaxDuration := 3600
  const MinIntensity := 1
  const MaxIntensity := 100
  const MinCores := 1

  /** The HTTP status of every refused start. */
  const BadRequest := 400

  datatype Field = Duration | Intensity | Cores

  /** Why a start request was refused. */
  datatype StartError =
    | OutOfRange(field: Field, low: int, high: int)
    | AlreadyRunning

  /** The outcome of a start request: a redirect on success, else a client error. */
  datatype Response = Redirect | ClientError(status: int, error: StartError)

  predicate Between(x: int, low: int, high: int)
  {
    low <= x <= high
  }

  /** The bounds a configuration must meet before a run may start. */
  predicate Acceptable(cfg: Config, cpuCount: int)
  {
    Between(cfg.duration, MinDuration, MaxDuration) &&
    Between(cfg.intensity, MinIntensity, MaxIntensity) &&
    Between(cfg.cores, MinCores, cpuCount)
  }

  /**
   * The three bounds checks, run in the order duration, intensity, cores;
   * the first one that fails is the one reported.
   */
  function Validate(cfg: Config, cpuCount: int): (r: Option<StartError>)
    ensures r.None? <==> Acceptable(cfg, cpuCount)
    ensures r == Some(OutOfRange(Duration, MinDuration, MaxDuration))
        <==> !Between(cfg.duration, MinDuration, MaxDuration)
    ensures r == Some(OutOfRange(Intensity, MinIntensity, MaxIntensity))
        <==> Between(cfg.duration, MinDuration, MaxDuration)
             && !Between(cfg.intensity, MinIntensity, MaxIntensity)
    ensures r == Some(OutOfRange(Cores, MinCores, cpuCount))
        <==> Between(cfg.duration, MinDuration, MaxDuration)
             && Between(cfg.intensity, MinIntensity, MaxIntensity)
             && !Between(cfg.cores, MinCores, cpuCount)
  {
    if !Between(cfg.duration, MinDuration, MaxDuration) then
      Some(OutOfRange(Duration, MinDuration, MaxDuration))
    else if !Between(cfg.intensity, MinIntensity, MaxIntensity) then
      Some(OutOfRange(Intensity, MinIntensity, MaxIntensity))
    else if !Between(cfg.cores, MinCores, cpuCount) then
      Some(OutOfRange(Cores, MinCores, cpuCount))
    else
      None
  }

  /**
   * `start_load` after form parsing: a start reaches the controller only with
   * an acceptable configuration, and every refusal leaves the record as it was.
   */
  function HandleStart(v: RunView, cfg: Config, cpuCount: int, now: int): (r: (Response, RunView))
    ensures r.0.Redirect? <==> Acceptable(cfg, cpuCount) && !v.isRunning
    ensures r.0.ClientError? ==> r.0.status == BadRequest && r.1 == v
    ensures !Acceptable(cfg, cpuCount) ==> r.0 == ClientError(BadRequest, Validate(cfg, cpuCount).value)
    ensures Acceptable(cfg, cpuCount) && v.isRunning ==> r.0 == ClientError(BadRequest, AlreadyRunning)
    ensures r.0.Redirect? ==> r.1 == StartRun(v, cfg, now).view
    ensures Inv(v) ==> Inv(r.1)
  {
    match Validate(cfg, cpuCount)
    case Some(e) => (ClientError(BadRequest, e), v)
    case None =>
      var out := StartRun(v, cfg, now);
      if out.accepted then (Redirect, out.view)
      else (ClientError(BadRequest, AlreadyRunning), v)
  }
}
