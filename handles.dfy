/**
 * Handles on the two foreign primitives the controller drives: the
 * `threading.Event` shared by the workers of one run, and the
 * `multiprocessing.Process` of each worker. Only what the controller relies
 * on is modelled; when a process actually exits is the operating system's
 * choice, so `Terminate` and `Join` promise only that an exited process
 * stays exited.
 */
module Handles {

  /** A one-shot stop flag; setting it again changes nothing. */
  class StopEvent {
    var isSet: bool

    constructor ()
      ensures !isSet
    {
      isSet := false;
    }

    method Set()
      modifies this
      ensures isSet
    {
      isSet := true;
    }
  }

  /** A worker process running `cpu_worker(workerId, intensity, stopEvent)`. */
  class WorkerProcess {
    const workerId: int
    const intensity: int
    const stopEvent: StopEvent
    var started: bool
    var alive: bool
    var terminateSent: bool

    constructor (workerId: int, intensity: int, stopEvent: StopEvent)
      ensures this.workerId == workerId && this.intensity == intensity
      ensures this.stopEvent == stopEvent
      ensures !started && !alive && !terminateSent
    {
      this.workerId := workerId;
      this.intensity := intensity;
      this.stopEvent := stopEvent;
      started, alive, terminateSent := false, false, false;
    }

    method Start()
      modifies this
      ensures started && alive && terminateSent == old(terminateSent)
    {
      started, alive := true, true;
    }

    method IsAlive() returns (b: bool)
      ensures b == alive
    {
      b := alive;
    }

    /** Sends SIGTERM; the process may exit at once or later. */
    method Terminate()
      modifies this
      ensures terminateSent && started == old(started)
      ensures alive ==> old(alive)
    {
      terminateSent := true;
    }

    /** Waits at most `timeout` seconds for the process to exit. */
    method Join(timeout: int)
      modifies this
      ensures started == old(started) && terminateSent == old(terminateSent)
      ensures alive ==> old(alive)
    {
    }

    /** Sends SIGKILL, which ends the process. */
    method Kill()
      modifies this
      ensures !alive && started == old(started) && terminateSent == old(terminateSent)
    {
      alive := false;
    }
  }
}
