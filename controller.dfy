/**
 * The process-wide run record and the operations that change it in place:
 * starting a run, stopping it, refreshing the statistics, and the start
 * endpoint's dispatch. Each operation is proved against its counterpart on
 * values in `RunSpec` and `Requests` through `View()`.
 */
module Controller {
  import opened Wrappers
  import opened RunSpec
  import opened Requests
  import opened Handles

  /** One element of `processes`: a worker and the stop event it was given. */
  datatype Entry = Entry(process: WorkerProcess, event: StopEvent)

  /** Seconds `stop_cpu_load` waits for each worker before killing it. */
  const JoinTimeout := 5

  /** All entries carry the same stop event. */
  predicate SharedEvent(ps: seq<Entry>)
  {
    forall k :: 0 <= k < |ps| ==> ps[k].event == ps[0].event
  }

  /** No worker appears twice. */
  predicate DistinctWorkers(ps: seq<Entry>)
  {
    forall j, k :: 0 <= j < k < |ps| ==> ps[j].process != ps[k].process
  }

  class CrunchState {
    var isRunning: bool
    var processes: seq<Entry>
    var startTime: Option<int>
    var duration: int
    var intensity: int
    var cores: int
    var stats: Stats
    /** The number of runs started so far; the auto-stop timer of a run carries it. */
    var runNumber: nat

    /** The record as a value. */
    function View(): RunView
      reads this
    {
      RunView(isRunning, |processes|, startTime, Config(duration, intensity, cores), stats, runNumber)
    }

    ghost predicate Valid()
      reads this
    {
      Inv(View()) && SharedEvent(processes) && DistinctWorkers(processes)
    }

    function Workers(): set<WorkerProcess>
      reads this
    {
      set e | e in processes :: e.process
    }

    function Events(): set<StopEvent>
      reads this
    {
      set e | e in processes :: e.event
    }

    /** A fresh record is idle, holds no worker and no start time, and zero settings. */
    constructor ()
      ensures Valid() && View() == Initial()
      ensures !isRunning && processes == [] && startTime == None
      ensures duration == 0 && intensity == 0 && cores == 0
    {
      isRunning := false;
      processes := [];
      startTime := None;
      duration, intensity, cores := 0, 0, 0;
      stats := Stats(0.0, 0.0, 0);
      runNumber := 0;
    }

    /**
     * `start_cpu_load`. Refused, with nothing changed, while a run is active;
     * otherwise records the run and starts one fresh worker per core, all of
     * them sharing one fresh, unset stop event.
     */
    method Start(d: int, i: int, c: int, now: int) returns (ok: bool)
      requires Valid()
      modifies this
      ensures Valid()
      ensures ok == StartRun(old(View()), Config(d, i, c), now).accepted
      ensures View() == StartRun(old(View()), Config(d, i, c), now).view
      ensures !ok ==> unchanged(this)
      ensures ok ==> |processes| == RangeCount(c)
      ensures ok ==> forall k :: 0 <= k < |processes| ==>
        fresh(processes[k].process) && fresh(processes[k].event) &&
        processes[k].process.alive && processes[k].process.workerId == k + 1 &&
        processes[k].process.intensity == i &&
        processes[k].process.stopEvent == processes[k].event &&
        !processes[k].event.isSet
    {
      if isRunning {
        return false;
      }
      isRunning := true;
      startTime := Some(now);
      duration, intensity, cores := d, i, c;
      runNumber := runNumber + 1;
      processes := [];
      var ev := new StopEvent();
      var k := 0;
      while k < c
        invariant 0 <= k <= RangeCount(c)
        invariant |processes| == k
        invariant isRunning && startTime == Some(now)
        invariant duration == d && intensity == i && cores == c && stats == old(stats)
        invariant runNumber == old(runNumber) + 1
        invariant fresh(ev) && !ev.isSet
        invariant forall j :: 0 <= j < k ==>
          processes[j].event == ev && fresh(processes[j].process) &&
          processes[j].process.alive && processes[j].process.workerId == j + 1 &&
          processes[j].process.intensity == i && processes[j].process.stopEvent == ev
        invariant DistinctWorkers(processes)
      {
        var p := new WorkerProcess(k + 1, i, ev);
        p.Start();
        processes := processes + [Entry(p, ev)];
        k := k + 1;
      }
      ok := true;
    }

    /**
     * `stop_cpu_load`. Nothing happens on an idle record. Otherwise the run
     * is marked over, every stop event is set, live workers are sent SIGTERM,
     * each worker is joined and killed if still alive, and the worker list and
     * start time are cleared; the last configuration stays.
     */
    method Stop()
      requires Valid()
      modifies this, Workers(), Events()
      ensures Valid()
      ensures View() == StopRun(old(View()))
      ensures !old(isRunning) ==> unchanged(this)
      ensures forall k :: 0 <= k < |old(processes)| ==>
        old(processes)[k].event.isSet && !old(processes)[k].process.alive
    {
      if !isRunning {
        return;
      }
      isRunning := false;
      var k := 0;
      while k < |processes|
        invariant 0 <= k <= |processes|
        invariant processes == old(processes) && startTime == old(startTime) && !isRunning
        invariant duration == old(duration) && intensity == old(intensity) && cores == old(cores)
        invariant stats == old(stats) && runNumber == old(runNumber)
        invariant forall j :: 0 <= j < k ==> processes[j].event.isSet
      {
        var e := processes[k];
        e.event.Set();
        var alive := e.process.IsAlive();
        if alive {
          e.process.Terminate();
        }
        k := k + 1;
      }
      k := 0;
      while k < |processes|
        invariant 0 <= k <= |processes|
        invariant processes == old(processes) && startTime == old(startTime) && !isRunning
        invariant duration == old(duration) && intensity == old(intensity) && cores == old(cores)
        invariant stats == old(stats) && runNumber == old(runNumber)
        invariant forall j :: 0 <= j < |processes| ==> processes[j].event.isSet
        invariant forall j :: 0 <= j < k ==> !processes[j].process.alive
      {
        var p := processes[k].process;
        p.Join(JoinTimeout);
        var alive := p.IsAlive();
        if alive {
          p.Kill();
        }
        k := k + 1;
      }
      processes := [];
      startTime := None;
    }

    /** `update_stats`, with the metrics source's readings and the clock passed in. */
    method UpdateStats(cpu: real, mem: real, now: int)
      requires Valid()
      modifies this`stats
      ensures Valid()
      ensures View() == RunSpec.UpdateStats(old(View()), cpu, mem, now)
    {
      stats := Stats(cpu, mem, RunningTime(View(), now));
    }

    /**
     * The auto-stop timer of run `run` firing after the run's duration: it
     * stops the record only if that run is still the active one.
     */
    method AutoStop(run: nat)
      requires Valid()
      modifies this, Workers(), Events()
      ensures Valid()
      ensures View() == TimerStop(old(View()), run)
      ensures !(old(isRunning) && old(runNumber) == run) ==> unchanged(this)
      ensures old(isRunning) && old(runNumber) == run ==> forall k :: 0 <= k < |old(processes)| ==>
        old(processes)[k].event.isSet && !old(processes)[k].process.alive
    {
      if isRunning && runNumber == run {
        Stop();
      }
    }

    /** `api_stats`: refreshes the statistics, then reports them. */
    method ApiStats(cpu: real, mem: real, now: int) returns (r: StatsReport)
      requires Valid()
      modifies this`stats
      ensures Valid()
      ensures View() == RunSpec.UpdateStats(old(View()), cpu, mem, now)
      ensures r == Report(View())
    {
      UpdateStats(cpu, mem, now);
      r := Report(View());
    }
  }

  /**
   * `start_load` after form parsing: validates the configuration against the
   * host's core count and, only if it is acceptable, asks the record to start.
   */
  method StartLoad(state: CrunchState, d: int, i: int, c: int, cpuCount: int, now: int)
    returns (resp: Response)
    requires state.Valid()
    modifies state
    ensures state.Valid()
    ensures (resp, state.View()) == HandleStart(old(state.View()), Config(d, i, c), cpuCount, now)
    ensures resp.ClientError? ==> unchanged(state)
    ensures resp.Redirect? ==> forall k :: 0 <= k < |state.processes| ==>
      fresh(state.processes[k].process) && fresh(state.processes[k].event) &&
      state.processes[k].process.alive && !state.processes[k].event.isSet
  {
    var err := Validate(Config(d, i, c), cpuCount);
    if err.Some? {
      return ClientError(BadRequest, err.value);
    }
    var ok := state.Start(d, i, c, now);
    if ok {
      resp := Redirect;
    } else {
      resp := ClientError(BadRequest, AlreadyRunning);
    }
  }

  /**
   * A client: a second start during a run is refused, the first stop ends
   * the run and kills its workers, and a second stop changes nothing.
   */
  method StartTwiceThenStopTwice(cpuCount: int, now: int)
    requires cpuCount >= 2
  {
    var state := new CrunchState();
    var first := StartLoad(state, 2, 50, 2, cpuCount, now);
    assert first == Redirect;
    assert state.isRunning && |state.processes| == 2;
    var workers := state.processes;
    var second := StartLoad(state, 300, 50, 1, cpuCount, now + 1);
    assert second == ClientError(BadRequest, AlreadyRunning);
    assert state.processes == workers && state.cores == 2;
    state.Stop();
    assert !state.isRunning && state.processes == [] && state.startTime == None;
    assert !workers[0].process.alive && !workers[1].process.alive;
    assert workers[0].event.isSet;
    var before := state.View();
    state.Stop();
    assert state.View() == before;
    var third := StartLoad(state, 300, 80, 1, cpuCount, now + 20);
    assert third == Redirect && state.runNumber == 2;
    state.AutoStop(1);
    assert state.isRunning && state.startTime == Some(now + 20);
    state.AutoStop(2);
    assert !state.isRunning;
    var report := state.ApiStats(12.5, 40.0, now + 3);
    assert report.config == None && report.runningTime == 0;
  }
}
