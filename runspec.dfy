/** Optional values, standing for Python's `None`. */
module Wrappers {
  datatype Option<+T> = None | Some(value: T)
}

/**
 * The run record of the load generator (`CrunchState` in crunch.py) seen as a
 * value, and the transitions the controller applies to it. The worker handles
 * themselves live in the `Controller` module; here only their number matters.
 * Timestamps are whole seconds supplied by the caller.
 */
module RunSpec {
  import opened Wrappers

  /** The configuration recorded by a start: `duration`, `intensity`, `cores`. */
  datatype Config = Config(duration: int, intensity: int, cores: int)

  /** The `stats` dictionary: CPU and memory usage and the elapsed run time. */
  datatype Stats = Stats(cpuPercent: real, memoryPercent: real, runningTime: int)

  /**
   * Every field of the run record, with `processes` reduced to its length,
   * and the number of runs started so far, by which an auto-stop timer
   * names the run it belongs to.
   */
  datatype RunView = RunView(
    isRunning: bool,
    workerCount: nat,
    startTime: Option<int>,
    config: Config,
    stats: Stats,
    run: nat)

  /** What `start_cpu_load` returns, together with the record it leaves. */
  datatype StartOutcome = StartOutcome(accepted: bool, view: RunView)

  /** The JSON object served for statistics requests. */
  datatype StatsReport = StatsReport(
    isRunning: bool,
    cpuPercent: real,
    memoryPercent: real,
    runningTime: int,
    config: Option<Config>)

  /** The number of iterations of Python's `range(n)`. */
  function RangeCount(n: int): nat
  {
    if n < 0 then 0 else n
  }

  /**
   * The invariant of the run record between two operations: a start time is
   * recorded exactly while a run is active, an active run has one worker per
   * requested core, and an idle record holds no worker.
   */
  predicate Inv(v: RunView)
  {
    (v.isRunning <==> v.startTime.Some?) &&
    (v.isRunning ==> v.workerCount == RangeCount(v.config.cores)) &&
    (!v.isRunning ==> v.workerCount == 0)
  }

  /** The record as the `CrunchState` constructor builds it. */
  function Initial(): RunView
  {
    RunView(false, 0, None, Config(0, 0, 0), Stats(0.0, 0.0, 0), 0)
  }

  /**
   * `start_cpu_load`: refused while a run is active, otherwise records the
   * configuration and the start time and spawns one worker per core. An
   * accepted start begins the next run, whose timer carries its number.
   */
  function StartRun(v: RunView, cfg: Config, now: int): (r: StartOutcome)
    ensures r.accepted <==> !v.isRunning
    ensures !r.accepted ==> r.view == v
    ensures r.accepted ==> r.view.isRunning && r.view.startTime == Some(now)
    ensures r.accepted ==> r.view.config == cfg && r.view.workerCount == RangeCount(cfg.cores)
    ensures r.accepted ==> r.view.run == v.run + 1
    ensures r.view.stats == v.stats
    ensures Inv(v) ==> Inv(r.view)
  {
    if v.isRunning then StartOutcome(false, v)
    else StartOutcome(true, RunView(true, RangeCount(cfg.cores), Some(now), cfg, v.stats, v.run + 1))
  }

  /**
   * `stop_cpu_load`: a no-op on an idle record; otherwise the run ends, its
   * workers are dropped and the start time is cleared, while the last
   * configuration and the statistics stay as they were.
   */
  function StopRun(v: RunView): (r: RunView)
    ensures !r.isRunning
    ensures !v.isRunning ==> r == v
    ensures v.isRunning ==> r.workerCount == 0 && r.startTime == None
    ensures r.config == v.config && r.stats == v.stats && r.run == v.run
    ensures Inv(v) ==> Inv(r)
  {
    if v.isRunning then v.(isRunning := false, workerCount := 0, startTime := None) else v
  }

  /**
   * The auto-stop timer of run `run` firing: it stops that run if it is
   * still the active one, and leaves any later run, or an idle record, alone.
   */
  function TimerStop(v: RunView, run: nat): (r: RunView)
    ensures v.isRunning && v.run == run ==> r == StopRun(v)
    ensures !(v.isRunning && v.run == run) ==> r == v
    ensures r.run == v.run && r.config == v.config && r.stats == v.stats
    ensures Inv(v) ==> Inv(r)
  {
    if v.isRunning && v.run == run then StopRun(v) else v
  }

  /**
   * The `running_time` that `update_stats` records: the time since the start
   * while a run is active, zero otherwise. Under the invariant the check of
   * the start time is redundant.
   */
  function RunningTime(v: RunView, now: int): (t: int)
    ensures !v.isRunning ==> t == 0
    ensures Inv(v) && v.isRunning ==> t == now - v.startTime.value
  {
    if v.isRunning && v.startTime.Some? then now - v.startTime.value else 0
  }

  /**
   * `update_stats` with the metrics source's readings passed in: only the
   * statistics change.
   */
  function UpdateStats(v: RunView, cpu: real, mem: real, now: int): (r: RunView)
    ensures r.(stats := v.stats) == v
    ensures r.stats.cpuPercent == cpu && r.stats.memoryPercent == mem
    ensures !v.isRunning ==> r.stats.runningTime == 0
    ensures Inv(v) && v.isRunning ==> r.stats.runningTime == now - v.startTime.value
    ensures Inv(v) ==> Inv(r)
  {
    v.(stats := Stats(cpu, mem, RunningTime(v, now)))
  }

  /**
   * The statistics view: the configuration is shown exactly while a run is
   * active, although the record keeps the last one after a stop.
   */
  function Report(v: RunView): (r: StatsReport)
    ensures r.config.Some? <==> v.isRunning
    ensures r.config.Some? ==> r.config.value == v.config
    ensures r.isRunning == v.isRunning && r.runningTime == v.stats.runningTime
    ensures r.cpuPercent == v.stats.cpuPercent && r.memoryPercent == v.stats.memoryPercent
  {
    StatsReport(
      v.isRunning,
      v.stats.cpuPercent,
      v.stats.memoryPercent,
      v.stats.runningTime,
      if v.isRunning then Some(v.config) else None)
  }
}
