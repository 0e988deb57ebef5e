/**
 * Sequences of requests against the run record, applied one at a time: start
 * requests, stop requests (from the stop endpoint or the signal handler),
 * auto-stop timers firing, and statistics requests. A timer names the run
 * that scheduled it.
 */
module Lifecycle {
  import opened Wrappers
  import opened RunSpec
  import opened Requests

  datatype Op =
    | StartRequest(cfg: Config, cpuCount: int, now: int)
    | StopRequest
    | TimerFired(run: nat)
    | StatsRequest(cpu: real, mem: real, now: int)

  /** What a caller observes of one request. */
  datatype Effect =
    | Accepted
    | Rejected(error: StartError)
    | Stopped
    | NothingToStop
    | Reported(report: StatsReport)

  /** One request: the record it leaves and what its caller observes. */
  function Step(v: RunView, op: Op): (r: (RunView, Effect))
    ensures r.1.Rejected? || r.1.NothingToStop? ==> r.0 == v
    ensures r.1.Accepted? ==> !v.isRunning && r.0.isRunning
    ensures r.1.Stopped? ==> v.isRunning && !r.0.isRunning
    ensures !r.1.Accepted? && !r.1.Stopped? ==> r.0.isRunning == v.isRunning
    ensures op.StartRequest? ==>
      r.0 == HandleStart(v, op.cfg, op.cpuCount, op.now).1 &&
      (r.1.Accepted? <==> Acceptable(op.cfg, op.cpuCount) && !v.isRunning) &&
      (r.1.Accepted? || (r.1.Rejected? &&
        HandleStart(v, op.cfg, op.cpuCount, op.now).0 == ClientError(BadRequest, r.1.error)))
    ensures op.StopRequest? ==>
      r.0 == StopRun(v) && (r.1.Stopped? <==> v.isRunning) && (r.1.Stopped? || r.1.NothingToStop?)
    ensures op.TimerFired? ==>
      r.0 == TimerStop(v, op.run) && (r.1.Stopped? || r.1.NothingToStop?)
    ensures op.TimerFired? ==> (r.1.Stopped? <==> v.isRunning && v.run == op.run)
    ensures !op.StartRequest? ==> !r.1.Accepted? && !r.1.Rejected?
    ensures r.0.run == v.run + (if r.1.Accepted? then 1 else 0)
    ensures op.StatsRequest? ==>
      r.0 == UpdateStats(v, op.cpu, op.mem, op.now) && r.0.(stats := v.stats) == v &&
      r.1 == Reported(Report(r.0))
    ensures op.StatsRequest? && Inv(v) ==>
      r.1 == Reported(StatsReport(
        v.isRunning, op.cpu, op.mem,
        if v.isRunning then op.now - v.startTime.value else 0,
        if v.isRunning then Some(v.config) else None))
    ensures Inv(v) ==> Inv(r.0)
  {
    match op
    case StartRequest(cfg, cpuCount, now) =>
      var (resp, v') := HandleStart(v, cfg, cpuCount, now);
      (v', if resp.Redirect? then Accepted else Rejected(resp.error))
    case StopRequest =>
      (StopRun(v), if v.isRunning then Stopped else NothingToStop)
    case TimerFired(run) =>
      (TimerStop(v, run), if v.isRunning && v.run == run then Stopped else NothingToStop)
    case StatsRequest(cpu, mem, now) =>
      var v' := UpdateStats(v, cpu, mem, now);
      (v', Reported(Report(v')))
  }

  /** The record after a sequence of requests. */
  function Run(v: RunView, ops: seq<Op>): RunView
    decreases |ops|
  {
    if ops == [] then v else Run(Step(v, ops[0]).0, ops[1..])
  }

  /** What the callers of a sequence of requests observe, in order. */
  function Effects(v: RunView, ops: seq<Op>): seq<Effect>
    decreases |ops|
  {
    if ops == [] then []
    else [Step(v, ops[0]).1] + Effects(Step(v, ops[0]).0, ops[1..])
  }

  function CountAccepted(es: seq<Effect>): nat
  {
    if es == [] then 0 else (if es[0].Accepted? then 1 else 0) + CountAccepted(es[1..])
  }

  function CountStopped(es: seq<Effect>): nat
  {
    if es == [] then 0 else (if es[0].Stopped? then 1 else 0) + CountStopped(es[1..])
  }

  function Indicator(b: bool): nat
  {
    if b then 1 else 0
  }

  /**
   * Accepted starts and effective stops alternate: a start is accepted only
   * while idle, a stop takes effect only while a run is active.
   */
  predicate Alternates(es: seq<Effect>, running: bool)
    decreases |es|
  {
    if es == [] then true
    else if es[0].Accepted? then !running && Alternates(es[1..], true)
    else if es[0].Stopped? then running && Alternates(es[1..], false)
    else Alternates(es[1..], running)
  }

  /** Every record reachable by requests satisfies the invariant. */
  lemma {:induction false} RunKeepsInv(v: RunView, ops: seq<Op>)
    requires Inv(v)
    ensures Inv(Run(v, ops))
    decreases |ops|
  {
    if ops != [] {
      RunKeepsInv(Step(v, ops[0]).0, ops[1..]);
    }
  }

  lemma {:induction false} RunAppend(v: RunView, a: seq<Op>, b: seq<Op>)
    ensures Run(v, a + b) == Run(Run(v, a), b)
    decreases |a|
  {
    if a != [] {
      assert (a + b)[0] == a[0];
      assert (a + b)[1..] == a[1..] + b;
      RunAppend(Step(v, a[0]).0, a[1..], b);
    } else {
      assert a + b == b;
    }
  }

  /** Starts and stops balance: no second run begins before the first has ended. */
  lemma {:induction false} RunBalance(v: RunView, ops: seq<Op>)
    ensures CountAccepted(Effects(v, ops)) + Indicator(v.isRunning)
         == CountStopped(Effects(v, ops)) + Indicator(Run(v, ops).isRunning)
    decreases |ops|
  {
    if ops != [] {
      var es := Effects(v, ops);
      assert es[1..] == Effects(Step(v, ops[0]).0, ops[1..]);
      RunBalance(Step(v, ops[0]).0, ops[1..]);
    }
  }

  lemma {:induction false} RunAlternates(v: RunView, ops: seq<Op>)
    ensures Alternates(Effects(v, ops), v.isRunning)
    decreases |ops|
  {
    if ops != [] {
      var es := Effects(v, ops);
      assert es[1..] == Effects(Step(v, ops[0]).0, ops[1..]);
      RunAlternates(Step(v, ops[0]).0, ops[1..]);
    }
  }

  /** From a fresh record, at most one run is active at any time. */
  lemma AtMostOneRun(ops: seq<Op>)
    ensures var es := Effects(Initial(), ops);
      CountStopped(es) <= CountAccepted(es) <= CountStopped(es) + 1
    ensures var es := Effects(Initial(), ops);
      Run(Initial(), ops).isRunning <==> CountAccepted(es) == CountStopped(es) + 1
  {
    RunBalance(Initial(), ops);
  }

  /** Stopping twice leaves the same record as stopping once. */
  lemma StopTwiceIsStopOnce(v: RunView, ops: seq<Op>)
    ensures Run(v, ops + [StopRequest, StopRequest]) == Run(v, ops + [StopRequest])
  {
    RunAppend(v, ops, [StopRequest, StopRequest]);
    RunAppend(v, ops, [StopRequest]);
    var w := Run(v, ops);
    assert Run(w, [StopRequest]) == StopRun(w);
    assert Run(w, [StopRequest, StopRequest]) == Run(StopRun(w), [StopRequest]);
  }

  /**
   * A statistics request after an accepted start reports the time since the
   * start and the configuration; one after the stop that follows reports
   * zero and no configuration.
   */
  lemma ReportAcrossRun(v: RunView, cfg: Config, cpuCount: int, start: int,
                        cpu: real, mem: real, later: int)
    requires Inv(v) && !v.isRunning && Acceptable(cfg, cpuCount)
    ensures Effects(v, [StartRequest(cfg, cpuCount, start), StatsRequest(cpu, mem, later)])
         == [Accepted, Reported(StatsReport(true, cpu, mem, later - start, Some(cfg)))]
    ensures Effects(v, [StartRequest(cfg, cpuCount, start), StopRequest, StatsRequest(cpu, mem, later)])
         == [Accepted, Stopped, Reported(StatsReport(false, cpu, mem, 0, None))]
  {
    var begin, halt, look := StartRequest(cfg, cpuCount, start), StopRequest, StatsRequest(cpu, mem, later);
    var s := Step(v, begin).0;
    assert Step(v, begin).1 == Accepted;
    assert Inv(s) && s.isRunning && s.startTime == Some(start) && s.config == cfg;
    var t := Step(s, halt).0;
    assert Step(s, halt).1 == Stopped;
    assert Inv(t) && !t.isRunning;
    assert Effects(s, [look]) == [Step(s, look).1] + Effects(Step(s, look).0, []);
    assert Effects(t, [look]) == [Step(t, look).1] + Effects(Step(t, look).0, []);
    assert [begin, look][1..] == [look];
    assert Effects(v, [begin, look]) == [Accepted] + Effects(s, [look]);
    assert [halt, look][1..] == [look];
    assert Effects(s, [halt, look]) == [Stopped] + Effects(t, [look]);
    assert [begin, halt, look][1..] == [halt, look];
    assert Effects(v, [begin, halt, look]) == [Accepted] + Effects(s, [halt, look]);
  }

  /** Runs are numbered by the accepted starts, so a run number names one run. */
  lemma {:induction false} RunCountsStarts(v: RunView, ops: seq<Op>)
    ensures Run(v, ops).run == v.run + CountAccepted(Effects(v, ops))
    decreases |ops|
  {
    if ops != [] {
      var es := Effects(v, ops);
      assert es[1..] == Effects(Step(v, ops[0]).0, ops[1..]);
      RunCountsStarts(Step(v, ops[0]).0, ops[1..]);
    }
  }

  /** One request taken off the front of a sequence. */
  lemma Unfold(v: RunView, op: Op, ops: seq<Op>)
    ensures Effects(v, [op] + ops) == [Step(v, op).1] + Effects(Step(v, op).0, ops)
    ensures Run(v, [op] + ops) == Run(Step(v, op).0, ops)
  {
    assert ([op] + ops)[0] == op;
    assert ([op] + ops)[1..] == ops;
  }

  /**
   * As written, `auto_stop` calls `stop_cpu_load()` without naming its run,
   * which is a plain stop request. A run started at 0 for 300 seconds and
   * stopped at 10, then a second run started at 20 for 300 seconds: the first
   * run's timer, firing at 300, ends the second run at 300, 280 seconds after
   * it began, rather than at 320.
   */
  lemma StaleTimerEndsLaterRun()
    ensures var cfg := Config(300, 80, 1);
      var ops := [StartRequest(cfg, 1, 0), StopRequest, StartRequest(cfg, 1, 20), StopRequest];
      Effects(Initial(), ops) == [Accepted, Stopped, Accepted, Stopped]
      && !Run(Initial(), ops).isRunning
  {
    var cfg := Config(300, 80, 1);
    var a, b, c, d := StartRequest(cfg, 1, 0), StopRequest, StartRequest(cfg, 1, 20), StopRequest;
    var s0 := Initial();
    var s1 := Step(s0, a).0;
    var s2 := Step(s1, b).0;
    var s3 := Step(s2, c).0;
    var s4 := Step(s3, d).0;
    assert Step(s0, a).1 == Accepted && s1.isRunning;
    assert Step(s1, b).1 == Stopped && !s2.isRunning;
    assert Step(s2, c).1 == Accepted && s3.isRunning;
    assert Step(s3, d).1 == Stopped && !s4.isRunning;
    Unfold(s3, d, []);
    Unfold(s2, c, [d]);
    Unfold(s1, b, [c, d]);
    Unfold(s0, a, [b, c, d]);
    assert [a] + [b, c, d] == [a, b, c, d];
    assert [b] + [c, d] == [b, c, d];
    assert [c] + [d] == [c, d];
    assert [d] + [] == [d];
  }

  /**
   * With each timer naming its run, the same sequence leaves the second run
   * active: the first run's timer finds a later run and does nothing.
   */
  lemma StaleTimerIgnored()
    ensures var cfg := Config(300, 80, 1);
      var ops := [StartRequest(cfg, 1, 0), StopRequest, StartRequest(cfg, 1, 20), TimerFired(1)];
      Effects(Initial(), ops) == [Accepted, Stopped, Accepted, NothingToStop]
      && Run(Initial(), ops).isRunning && Run(Initial(), ops).startTime == Some(20)
  {
    var cfg := Config(300, 80, 1);
    var a, b, c, d := StartRequest(cfg, 1, 0), StopRequest, StartRequest(cfg, 1, 20), TimerFired(1);
    var s0 := Initial();
    var s1 := Step(s0, a).0;
    var s2 := Step(s1, b).0;
    var s3 := Step(s2, c).0;
    var s4 := Step(s3, d).0;
    assert Step(s0, a).1 == Accepted && s1.isRunning && s1.run == 1;
    assert Step(s1, b).1 == Stopped && !s2.isRunning && s2.run == 1;
    assert Step(s2, c).1 == Accepted && s3.isRunning && s3.run == 2 && s3.startTime == Some(20);
    assert Step(s3, d).1 == NothingToStop && s4 == s3;
    Unfold(s3, d, []);
    Unfold(s2, c, [d]);
    Unfold(s1, b, [c, d]);
    Unfold(s0, a, [b, c, d]);
    assert [a] + [b, c, d] == [a, b, c, d];
    assert [b] + [c, d] == [b, c, d];
    assert [c] + [d] == [c, d];
    assert [d] + [] == [d];
  }

  /** A timer whose run is still active stops it just as a stop request does. */
  lemma OwnTimerStopsRun(v: RunView, ops: seq<Op>)
    ensures var w := Run(v, ops);
      w.isRunning ==> Run(v, ops + [TimerFired(w.run)]) == Run(v, ops + [StopRequest])
  {
    RunAppend(v, ops, [TimerFired(Run(v, ops).run)]);
    RunAppend(v, ops, [StopRequest]);
  }
}
