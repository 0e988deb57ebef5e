# Crunch run controller in Dafny

Crunch is a small web application that loads the CPU so that a Kubernetes
autoscaler has something to react to. It keeps one process-wide run record
(`CrunchState`). A start request validates the duration, intensity and core
count. It then records the run and spawns one worker process per core; all
the workers share one stop event. A stop marks the run over, sets the stop
event, terminates the live workers, joins them and kills any still alive, and
clears the worker list and
start time. The statistics view reports the elapsed time and shows the
configuration only while a run is active.

This project models that run-lifecycle state machine:

- `runspec.dfy`: module `RunSpec` holds the run record as a value (`RunView`)
  and its invariant `Inv`. It also holds the transitions `StartRun`, `StopRun`,
  `TimerStop` and `UpdateStats`, the elapsed-time rule `RunningTime` and the statistics
  view `Report`. Module `Wrappers` holds `Option`, which stands for Python's
  `None`.
- `requests.dfy`: module `Requests` holds the bounds validation (`Validate`)
  and the start endpoint's dispatch (`HandleStart`).
- `lifecycle.dfy`: module `Lifecycle` applies sequences of start, stop, timer and
  statistics requests one at a time. Its inductive lemmas state that:
  - the invariant holds in every reachable state;
  - accepted starts and effective stops alternate, so at most one run is
    active;
  - stopping twice is the same as stopping once.

  With the corrected timer of "## Findings", a run's own timer acts as a stop
  (`OwnTimerStopsRun`) and a stale timer changes nothing (`TimerStop`,
  `StaleTimerIgnored`).
- `handles.dfy`: module `Handles` has a class for the stop event and a class
  for a worker process handle.
- `controller.dfy`: module `Controller` has the class `CrunchState`. Its fields
  are updated in place by `Start`, `Stop`, `AutoStop`, `UpdateStats` and
  `ApiStats`, and
  the method `StartLoad` dispatches start requests. Each method is proved
  against its counterpart on values through `View()`. The methods also state
  what happens to the handles: after a start there are exactly `cores` fresh
  live workers sharing one fresh unset event. After a stop, every event that
  was in the list is set and no worker from the list is alive.

Time is a whole number of seconds passed in as `now`. The CPU and memory
readings are passed in as parameters. The stop endpoint and the signal
handler are callers of `Stop` (`StopRequest` in a trace). The auto-stop timer
of a run is a caller of `AutoStop` with that run's number (`TimerFired` in a
trace). The record counts the runs started so far for this purpose. The code's
timer carries no such number; see "## Findings".

## Behaviour of note

- `stop_cpu_load` clears `is_running` before it reaps the workers, not after.
- Neither `start_cpu_load` nor `stop_cpu_load` takes a lock. The model treats
  every operation as one atomic call and claims nothing about interleavings.
- `start_cpu_load` does not handle a worker that fails to spawn halfway
  through the loop.

## Model

| member | source | states |
|---|---|---|
| `RunSpec.StartRun` | crunch.py:58-93 | accepted exactly when idle; a refused start leaves the record unchanged; an accepted one records the configuration, start time `now` and one worker per iteration of `range(cores)`, and begins the next run number; the invariant is preserved |
| `RunSpec.StopRun` | crunch.py:95-117 | afterwards no run is active; idle is a no-op; a running record loses its workers and start time; configuration and statistics stay; the invariant is preserved |
| `RunSpec.RunningTime` | crunch.py:127-131 | zero when no run is active; under the invariant, the time since the start while one is |
| `RunSpec.TimerStop` | crunch.py:85-87 | the timer of the active run stops it as a stop does; the timer of any other run, or one that finds no run active, changes nothing; the run count, configuration and statistics stay; the invariant is preserved |
| `RunSpec.UpdateStats` | crunch.py:119-131 | only the statistics change; the readings are stored; the running time is zero when idle and, under the invariant, the time since the start while running; the invariant is preserved |
| `RunSpec.Report` | crunch.py:180-190 | `config` is present exactly while a run is active and is then the recorded configuration; the other fields copy the record |
| `Requests.Validate` | crunch.py:152-158 | no error exactly when all three bounds hold; the reported error is the first failing check in the order duration, intensity, cores, with its range |
| `Requests.HandleStart` | crunch.py:145-168 | a redirect exactly when the configuration is acceptable and no run is active; every refusal is status 400 and leaves the record unchanged; validation errors take precedence over "already running"; an accepted request's record is the start transition's |
| `Lifecycle.Step` | crunch.py:144-190 | a start request leaves the start endpoint's record, is accepted exactly when the configuration is acceptable and no run is active, and otherwise is rejected with the endpoint's error; a stop request leaves the stop transition's record and takes effect exactly when a run is active; a timer leaves the timer transition's record and takes effect exactly when its run is the active one; only start requests are accepted or rejected; rejections and idle stops change nothing; an accepted start advances the run number; a statistics request leaves the record of `RunSpec.UpdateStats`, so it changes only the statistics, and reports `Report` of that record, which gives the elapsed time and configuration only for an active run; the invariant is preserved |
| `Lifecycle.RunKeepsInv` | crunch.py:58-117 | every record reachable by any sequence of requests satisfies the invariant |
| `Lifecycle.RunBalance` | crunch.py:62-102 | accepted starts plus "running before" equal effective stops plus "running after", for any sequence of requests |
| `Lifecycle.RunAlternates` | crunch.py:62-102 | along any sequence of requests, a start is accepted only while idle and a stop takes effect only while running |
| `Lifecycle.AtMostOneRun` | crunch.py:62-65 | from a fresh record, accepted starts exceed effective stops by at most one, and by exactly one when a run is active |
| `Lifecycle.StopTwiceIsStopOnce` | crunch.py:95-100 | after any sequence of requests, two stops in a row leave the same record as one stop |
| `Lifecycle.RunCountsStarts` | crunch.py:58-93 | the run number after any sequence of requests is the starting one plus the number of accepted starts, so each run number names one run |
| `Lifecycle.OwnTimerStopsRun` | crunch.py:84-91 | the timer of the run that is still active has the same effect as a stop request |
| `Lifecycle.StaleTimerEndsLaterRun` | crunch.py:85-91 | with the timer as written, a plain stop: start, stop, start again, then the first run's timer gives accepted, stopped, accepted, stopped and ends the second run |
| `Lifecycle.StaleTimerIgnored` | crunch.py:85-91 | with the timer naming its run, the same sequence gives accepted, stopped, accepted, nothing to stop, and the second run stays active |
| `Lifecycle.ReportAcrossRun` | crunch.py:176-190 | after an accepted start the statistics report the time since the start and the configuration; after the following stop they report zero and no configuration |
| `Controller.CrunchState.constructor` | crunch.py:20-32 | the view of a fresh record is `Initial()`: idle, with no workers, no start time, zero settings, zero statistics and no run started |
| `Controller.CrunchState.Start` | crunch.py:58-93 | agrees with `StartRun`; a refusal changes nothing; an accepted start leaves `RangeCount(cores)` fresh, distinct, live workers numbered from 1, all holding the same fresh unset stop event |
| `Controller.CrunchState.Stop` | crunch.py:95-117 | agrees with `StopRun`; idle is a no-op; every stop event in the list is set and every listed worker is no longer alive |
| `Controller.CrunchState.AutoStop` | crunch.py:85-87 | agrees with `TimerStop`; changes nothing unless its run is the active one, and then sets every listed stop event and leaves no listed worker alive |
| `Controller.CrunchState.UpdateStats` | crunch.py:119-131 | agrees with `RunSpec.UpdateStats` and changes only the statistics |
| `Controller.CrunchState.ApiStats` | crunch.py:176-190 | refreshes the statistics, then returns `Report` of the refreshed record |
| `Controller.StartLoad` | crunch.py:144-168 | agrees with `HandleStart`; a refused request changes nothing; an accepted one leaves fresh live workers with an unset event |
| `Handles.StopEvent.constructor` | crunch.py:73 | a new event is not set |
| `Handles.WorkerProcess.constructor` | crunch.py:77-80 | a new handle carries the worker number, intensity and stop event it was given, and is neither started nor alive |
| `Handles.WorkerProcess.Start` | crunch.py:81 | the process is started and alive |
| `Handles.WorkerProcess.IsAlive` | crunch.py:107 | reports whether the process is alive |
| `Handles.StopEvent.Set` | crunch.py:106 | the event is set afterwards, whether or not it was before |
| `Handles.WorkerProcess.Terminate` | crunch.py:107-108 | records that SIGTERM was sent; a process that has exited stays exited |
| `Handles.WorkerProcess.Join` | crunch.py:112 | a process that has exited stays exited; whether it exits within the timeout is not modelled |
| `Handles.WorkerProcess.Kill` | crunch.py:113-114 | the process is no longer alive |

## Left out

- The Flask routes, redirects, `int()` parsing of the form, the form defaults (300, 80, the CPU count), the `/health` endpoint, template rendering and the embedded HTML page are not modelled. They are HTTP and UI plumbing. Only the validation and the accept/reject outcome of the start endpoint are modelled.
- `cpu_worker`, the duty-cycle loop each worker process runs, is not modelled. It is floating-point timing behaviour driven by `time.time()` and `time.sleep`.
- The real semantics of `multiprocessing.Process` and `threading.Event` are not modelled. They are foreign calls; the handles keep only a few flags.
- `Handles.WorkerProcess.Join`: does not model the process exiting within the timeout, because that depends on the operating system. The model only promises that an exited process stays exited, and `Stop`'s guarantee rests on the `Kill` that follows.
- `Handles.WorkerProcess.Terminate`: does not model the process exiting after SIGTERM, for the same reason.
- The stop event is modelled as one memory cell shared by the controller and all workers, which is what the code assumes. Whether a `threading.Event` handed to a separate process really reaches it is outside the model.
- The auto-stop timer thread is not modelled as a thread. Its `time.sleep(duration)` followed by the stop is a later call; the model does not tie that call to the moment `duration` elapses.
- The code's timer, which stops whatever run is active when it fires, appears only in `StaleTimerEndsLaterRun`, as a plain `StopRequest`. The rest of the model uses the corrected timer of "## Findings", which names its run.
- Concurrent interleavings of start, stop and the timer are not modelled. The code takes no lock, so no race-freedom is claimed.
- The `psutil` sampling and the swallowing of its exceptions in `update_stats` are not modelled. The readings are parameters, and the failure path, which leaves the statistics partly updated, is not modelled.
- `RunSpec.RunningTime`: does not model the fractional seconds of `timedelta.total_seconds()`, because time is a whole number of seconds here.
- A failure to spawn a worker in the middle of `start_cpu_load` is not modelled. The code would leave `is_running` set with fewer workers and no timer.
- `signal_handler`, `sys.exit` and the `__main__` block are not modelled. They are process-level I/O.

## Findings

| source | as written | input that shows it | evidently intended | confidence | as-written member | corrected member |
|---|---|---|---|---|---|---|
| crunch.py:85-91 | `auto_stop` sleeps for the run's duration and then calls `stop_cpu_load()`, which stops whatever run is active at that moment | start with duration 300 at t=0, stop at t=10, start with duration 300 at t=20: the first run's timer fires at t=300 and ends the second run after 280 s instead of 300 s | a run's timer stops only the run that scheduled it; a timer that finds a later run, or no run, does nothing | high (not executed) | `Lifecycle.StaleTimerEndsLaterRun` | `Lifecycle.StaleTimerIgnored` (with `RunSpec.TimerStop`, `Controller.CrunchState.AutoStop`) |
