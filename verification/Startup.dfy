/** Bringing one service back after the daemon has started: the third course in which a candidate is
    launched, swapped in and activated. */
module Startup {
  import opened Options
  import R = RegistrySpec
  import RP = RegistryProofs
  import P = ProcessSpec
  import opened RT = ReplaceProcess
  import X = ProxySpec
  import opened ServiceSpec
  import opened HotSwap

  ghost predicate RestoreOk(w: World, name: string, env: RestoreEnv) {
    && name in w.reg.services && name !in w.mgr.procs
    && FreshPid(w.mgr, env.launch.pid)
    && env.launch.ports.Keys == InternalNames(w.reg.services[name].stablePorts)
  }

  /** A candidate in flight, with nothing detached, over the record of `w0`. */
  ghost predicate Coming(w0: World, w: World, name: string, env: LaunchEnv, events: seq<RP.HistoryOp>) {
    && name in w0.reg.services
    && InFlight(w0.mgr, w0.reg.services[name], w, name, None, env, events)
    && w.mgr.signals == w0.mgr.signals
    && RegElsewhere(w0.reg, w.reg, name)
    && w.drains == w0.drains && w.attempts == w0.attempts
  }

  /** No process under the name, these events of the candidate recorded and the candidate signalled if it
      lives, and everything else where it was. */
  ghost predicate Gone(w0: World, w: World, name: string, env: LaunchEnv, events: seq<RP.HistoryOp>) {
    && name in w0.reg.services
    && ProcsInFlight(w0.mgr, w.mgr, name, None, env) && name !in w.mgr.procs
    && RecordInFlight(w0.reg.services[name], w.reg, name, env, events)
    && RegElsewhere(w0.reg, w.reg, name)
    && w.drains == w0.drains && w.attempts == w0.attempts
    && w.mgr.signals == w0.mgr.signals + Signalled(env, events)
    && (|events| == 1 ==> MarkedWith(w.mgr, env.pid, 1))
  }

  lemma StatusKeepsFlight(s: R.Service, r: R.Registry, name: string, env: LaunchEnv, events: seq<RP.HistoryOp>, status: R.Status, pid: int)
    requires RecordInFlight(s, r, name, env, events)
    ensures var q := R.UpdateStatus(r, name, status, pid, env.now).0;
            RecordInFlight(s, q, name, env, events) && RegElsewhere(r, q, name)
  {
    hide RP.BoundedRun;
  }

  lemma StatusKeepsGone(w0: World, w: World, name: string, env: LaunchEnv, status: R.Status, events: seq<RP.HistoryOp>)
    requires Gone(w0, w, name, env, events)
    ensures Gone(w0, w.(reg := R.UpdateStatus(w.reg, name, status, 0, env.now).0), name, env, events)
  {
    hide ProcsInFlight, RecordInFlight, R.UpdateStatus;
    StatusKeepsFlight(w0.reg.services[name], w.reg, name, env, events, status, 0);
    RegElsewhereTransitive(w0.reg, w.reg, R.UpdateStatus(w.reg, name, status, 0, env.now).0, name);
  }

  lemma StartsComing(w: World, name: string, env: LaunchEnv)
    requires Steady(w.mgr) && FreshPid(w.mgr, env.pid) && name in w.reg.services && name !in w.mgr.procs
    ensures var (v, started) := StartCandidate(w, name, env);
            && v.prx == w.prx
            && (started <==> env.spawn == Spawned)
            && (started ==> Coming(w, v, name, env, Events(env, false)) && name in v.mgr.procs)
            && (!started ==> Gone(w, v, name, env, []))
    ensures Gone(w, w, name, env, [])
  {
    hide ProcsInFlight, CandidateTied, StartCandidate, Steady, SameConfig, RecordInFlight;
    DetachInFlight(w.mgr, name, env);
    assert P.Detach(w.mgr, name) == (w.mgr, None);
    StartKeeps(w.mgr, w, name, None, env);
    StartedRecord(w.reg.services[name], w.reg, name, env);
  }

  lemma ExitsWhileComing(w0: World, w: World, name: string, env: LaunchEnv, moment: Moment, events: seq<RP.HistoryOp>)
    requires Coming(w0, w, name, env, events)
    ensures var v := CandidateMayExit(w, env, moment);
            && Coming(w0, v, name, env, if name in w.mgr.procs && ExitsAt(env, moment) then Events(env, true) else events) && v.prx == w.prx
            && (P.Pid(v.mgr, name) == 0 <==> name !in v.mgr.procs)
            && (name in v.mgr.procs ==> P.Pid(v.mgr, name) == env.pid && v == w)
            && (name in v.mgr.procs <==> name in w.mgr.procs && !ExitsAt(env, moment))
  {
    hide ProcsInFlight, CandidateTied, RecordInFlight, CandidateMayExit, RegElsewhere;
    var v := CandidateMayExit(w, env, moment);
    CandidateExitKeeps(w0.mgr, w0.reg.services[name], w, name, None, env, moment, events);
    var seen := if name in w.mgr.procs && ExitsAt(env, moment) then Events(env, true) else events;
    PidOfCandidate(w0.mgr, v.mgr, name, None, env);
    RegElsewhereTransitive(w0.reg, w.reg, v.reg, name);
    if name in v.mgr.procs {
      CandidatesPid(w0.mgr, v.mgr, name, env);
    }
  }

  lemma CandidatesPid(m0: P.Manager, m: P.Manager, name: string, env: LaunchEnv)
    requires ProcsInFlight(m0, m, name, None, env) && name in m.procs
    ensures P.Pid(m, name) == env.pid
  {
    hide Quiet, Elsewhere;
  }

  lemma StopsComing(w0: World, w: World, name: string, env: LaunchEnv, events: seq<RP.HistoryOp>)
    requires Coming(w0, w, name, env, events) && (|events| == 1 <==> name in w.mgr.procs)
    ensures Gone(w0, StopCandidate(w, name, P.FAILED_CODE), name, env, events)
  {
    hide ProcsInFlight, CandidateTied, RecordInFlight, RegElsewhere;
    StopKeeps(w0.mgr, w0.reg.services[name], w, name, None, P.FAILED_CODE, env, events);
    RegElsewhereTransitive(w0.reg, w.reg, StopCandidate(w, name, P.FAILED_CODE).reg, name);
  }

  lemma RoutesLeaveGone(w0: World, w: World, name: string, env: LaunchEnv, prx: X.Proxy, events: seq<RP.HistoryOp>)
    requires Gone(w0, w, name, env, events)
    ensures Gone(w0, w.(prx := prx), name, env, events)
  {
    hide ProcsInFlight, RecordInFlight, RegElsewhere;
  }

  /** What the registry says of a service that is not up. */
  ghost predicate Called(r: R.Registry, name: string, status: R.Status) {
    name in r.services && r.services[name].status == status && r.services[name].pid == 0
  }

  lemma StatusCalls(r: R.Registry, name: string, status: R.Status, now: int)
    requires name in r.services
    ensures Called(R.UpdateStatus(r, name, status, 0, now).0, name, status)
  {
  }

  lemma GivesUp(w0: World, w: World, name: string, env: LaunchEnv, events: seq<RP.HistoryOp>)
    requires Coming(w0, w, name, env, events) && (|events| == 1 <==> name in w.mgr.procs)
    ensures var v := GivenUp(w, name, env.now);
            Gone(w0, v, name, env, events) && v.prx == X.UnswapPorts(w.prx, name) && Called(v.reg, name, R.Failed)
  {
    hide Coming, X.UnswapPorts, R.UpdateStatus;
    var v := StopCandidate(w, name, P.FAILED_CODE);
    StopsComing(w0, w, name, env, events);
    RoutesLeaveGone(w0, v, name, env, X.UnswapPorts(v.prx, name), events);
    StatusKeepsGone(w0, v.(prx := X.UnswapPorts(v.prx, name)), name, env, R.Failed, events);
    StatusCalls(v.reg, name, R.Failed, env.now);
  }

  /** Up: tracked, active, registered as running with its PID and ports. */
  ghost predicate Up(w0: World, v: World, name: string, env: LaunchEnv) {
    && name in w0.reg.services
    && Steady(v.mgr) && Elsewhere(w0.mgr, v.mgr, name) && RegElsewhere(w0.reg, v.reg, name)
    && name in v.mgr.procs && v.mgr.procs[name] < |v.mgr.heap|
    && v.mgr.heap[v.mgr.procs[name]] == P.RunningProc(env.pid, env.ports, false, false)
    && RecordInFlight(w0.reg.services[name], v.reg, name, env, Events(env, false))
    && v.reg.services[name].status == R.Running && v.reg.services[name].pid == env.pid
    && v.reg.services[name].crashAttempts == 0 && !v.reg.services[name].gaveUp
    && v.drains == w0.drains && v.attempts == w0.attempts - {name} && v.mgr.signals == w0.mgr.signals
  }

  /** From the swap to the activation: the service runs exactly if the candidate is up and outlives both
      looks at it. */
  lemma Revives(w0: World, w: World, name: string, env: LaunchEnv, events: seq<RP.HistoryOp>)
    requires Steady(w0.mgr) && Coming(w0, w, name, env, events) && (|events| == 1 <==> name in w.mgr.procs)
    ensures var (v, outcome) := Revive(w, name, env);
            var seen := if name in w.mgr.procs && (ExitsAt(env, BeforePid) || ExitsAt(env, BeforeActivate)) then Events(env, true) else events;
            && (outcome == RevivedRunning <==> name in v.mgr.procs)
            && (outcome == RevivedRunning <==> name in w.mgr.procs && !ExitsAt(env, BeforePid) && !ExitsAt(env, BeforeActivate))
            && (outcome == RevivedRunning ==> Up(w0, v, name, env) && v.prx == w.prx)
            && (outcome != RevivedRunning ==>
                  outcome == RevivedNot && Gone(w0, v, name, env, seen) && Called(v.reg, name, R.Failed) && v.prx == X.UnswapPorts(w.prx, name))
  {
    hide ProcsInFlight, CandidateTied, CandidateMayExit, RegElsewhere, GivenUp, P.Activate, R.UpdateStatus, R.UpdateCrashState, Steady, RecordInFlight, P.Pid, HotSwap.Activated, Elsewhere, Events;
    EventsCount(env);
    var c := CandidateMayExit(w, env, BeforePid);
    ExitsWhileComing(w0, w, name, env, BeforePid, events);
    if P.Pid(c.mgr, name) == 0 {
      GivesUp(w0, c, name, env, if name in w.mgr.procs && ExitsAt(env, BeforePid) then Events(env, true) else events);
    } else {
      var r := R.UpdateStatus(c.reg, name, R.Running, env.pid, env.now).0;
      StatusKeepsFlight(w0.reg.services[name], c.reg, name, env, events, R.Running, env.pid);
      RegElsewhereTransitive(w0.reg, c.reg, r, name);
      var e := c.(reg := r);
      var d := CandidateMayExit(e, env, BeforeActivate);
      ExitsWhileComing(w0, e, name, env, BeforeActivate, events);
      ActivateKeeps(w0.mgr, d.mgr, name, None, env);
      if name in d.mgr.procs {
        CommitKeeps(w0.mgr, P.Activate(d.mgr, name).0, name, None, env);
        RunningRecord(w0.reg.services[name], c.reg, name, env);
        RegElsewhereTransitive(w0.reg, r, R.UpdateCrashState(r, name, 0, false, env.now).0, name);
      } else {
        GivesUp(w0, d, name, env, if ExitsAt(env, BeforeActivate) then Events(env, true) else events);
      }
    }
  }

  lemma RunningRecord(s: R.Service, r: R.Registry, name: string, env: LaunchEnv)
    requires RecordInFlight(s, r, name, env, Events(env, false))
    ensures var q := R.UpdateStatus(r, name, R.Running, env.pid, env.now).0;
            var t := R.UpdateCrashState(q, name, 0, false, env.now).0;
            && RegElsewhere(q, t, name)
            && RecordInFlight(s, t, name, env, Events(env, false))
            && t.services[name].status == R.Running && t.services[name].pid == env.pid
            && t.services[name].crashAttempts == 0 && !t.services[name].gaveUp
  {
    hide RP.BoundedRun;
  }

  /** Whether the service runs after restoreOne. */
  ghost predicate RevivalWorks(w: World, name: string, env: RestoreEnv)
    requires name in w.reg.services
  {
    && w.reg.services[name].settings.kind == R.Binary && env.binary == Present
    && env.launch.spawn == Spawned && !env.cancelled && env.launch.healthy
    && X.SwapPorts(w.prx, name, env.launch.ports).1
    && !ExitsAt(env.launch, BeforeHealth) && !ExitsAt(env.launch, BeforePid) && !ExitsAt(env.launch, BeforeActivate)
  }

  /** What the history gains by restoreOne: the candidate's start if it was spawned, and its exit if it
      came at a moment that was reached. */
  ghost function RestoreEvents(w: World, name: string, env: RestoreEnv): seq<RP.HistoryOp>
    requires name in w.reg.services
  {
    if w.reg.services[name].settings.kind != R.Binary || env.binary != Present || env.launch.spawn != Spawned then []
    else if env.cancelled then Events(env.launch, false)
    else
      Events(env.launch,
             ExitsAt(env.launch, BeforeHealth)
             || (env.launch.healthy && X.SwapPorts(w.prx, name, env.launch.ports).1
                 && (ExitsAt(env.launch, BeforePid) || ExitsAt(env.launch, BeforeActivate))))
  }

  /** When restoreOne ends in which outcome, and what it leaves in each. */
  lemma RestoreOneEnds(w: World, name: string, env: RestoreEnv)
    requires Steady(w.mgr) && RestoreOk(w, name, env)
    ensures var (v, outcome) := RestoreOne(w, name, env);
            var swapped := X.SwapPorts(w.prx, name, env.launch.ports);
            && (outcome == RevivedRunning <==> RevivalWorks(w, name, env))
            && (outcome == RevivedStatic <==>
                  w.reg.services[name].settings.kind == R.Static && X.SwapStatic(w.prx, name, w.reg.services[name].settings.path).1)
            && (outcome == RevivedOrphaned <==> w.reg.services[name].settings.kind == R.Binary && env.binary == Missing)
            && (outcome == RevivedNot ==> Called(v.reg, name, R.Failed))
            && (outcome == RevivedOrphaned ==> Called(v.reg, name, R.Orphaned))
            && (outcome == RevivedStatic ==> Called(v.reg, name, R.Running))
            && RecordInFlight(w.reg.services[name], v.reg, name, env.launch, RestoreEvents(w, name, env))
            && (outcome == RevivedRunning ==>
                  Up(w, v, name, env.launch) && swapped.1 && v.prx == swapped.0 && w.reg.services[name].settings.kind == R.Binary)
            && (outcome != RevivedRunning ==>
                  && Gone(w, v, name, env.launch, RestoreEvents(w, name, env))
                  && (|| v.prx == w.prx || v.prx == X.UnswapPorts(w.prx, name) || v.prx == X.UnswapPorts(swapped.0, name)
                      || v.prx == X.SwapStatic(w.prx, name, w.reg.services[name].settings.path).0))
  {
    hide Coming, Called, StartCandidate, CandidateMayExit, GivenUp, Revive, StopCandidate, X.SwapPorts, X.SwapStatic, X.UnswapPorts, R.UpdateStatus, Steady, RegElsewhere, RecordInFlight, ProcsInFlight, Elsewhere, Events;
    var launch := env.launch;
    EventsCount(launch);
    StartsComing(w, name, launch);
    StatusKeepsGone(w, w, name, launch, R.Failed, []);
    StatusKeepsGone(w, w, name, launch, R.Orphaned, []);
    StatusCalls(w.reg, name, R.Failed, launch.now);
    StatusCalls(w.reg, name, R.Orphaned, launch.now);
    StatusCalls(w.reg, name, R.Running, launch.now);
    if w.reg.services[name].settings.kind == R.Static {
      var p := X.SwapStatic(w.prx, name, w.reg.services[name].settings.path).0;
      StatusKeepsGone(w, w, name, launch, R.Running, []);
      RoutesLeaveGone(w, w.(reg := R.UpdateStatus(w.reg, name, R.Running, 0, launch.now).0), name, launch, p, []);
    } else if env.binary == Present {
      var (a, started) := StartCandidate(w, name, launch);
      if !started {
        StatusKeepsGone(w, a, name, launch, R.Failed, []);
        GoneIsCalled(w, a, name, launch, []);
      } else if env.cancelled {
        StopsComing(w, a, name, launch, Events(launch, false));
        StoppedRoutes(a, name);
        StatusKeepsGone(w, StopCandidate(a, name, P.FAILED_CODE), name, launch, R.Failed, Events(launch, false));
        GoneIsCalled(w, StopCandidate(a, name, P.FAILED_CODE), name, launch, Events(launch, false));
      } else {
        RestoreRuns(w, a, name, env);
      }
    }
  }

  /** restoreOne from the start of the candidate on. */
  lemma RestoreRuns(w: World, a: World, name: string, env: RestoreEnv)
    requires Steady(w.mgr) && RestoreOk(w, name, env) && w.reg.services[name].settings.kind == R.Binary && env.binary == Present && !env.cancelled
    requires env.launch.spawn == Spawned && StartCandidate(w, name, env.launch) == (a, true)
    requires Coming(w, a, name, env.launch, Events(env.launch, false)) && name in a.mgr.procs && a.prx == w.prx
    ensures var (v, outcome) := RestoreOne(w, name, env);
            var swapped := X.SwapPorts(w.prx, name, env.launch.ports);
            && (outcome == RevivedRunning <==> RevivalWorks(w, name, env))
            && (outcome == RevivedRunning ==> Up(w, v, name, env.launch) && swapped.1 && v.prx == swapped.0)
            && (outcome == RevivedRunning ==> RestoreEvents(w, name, env) == Events(env.launch, false))
            && (outcome != RevivedRunning ==>
                  && outcome == RevivedNot && Called(v.reg, name, R.Failed)
                  && Gone(w, v, name, env.launch, RestoreEvents(w, name, env))
                  && (v.prx == X.UnswapPorts(w.prx, name) || v.prx == X.UnswapPorts(swapped.0, name)))
  {
    hide Coming, Gone, Called, Up, StartCandidate, CandidateMayExit, GivenUp, Revive, StopCandidate, X.SwapPorts, X.SwapStatic, X.UnswapPorts, R.UpdateStatus, Steady, Events;
    var launch := env.launch;
    EventsCount(launch);
    var b := CandidateMayExit(a, launch, BeforeHealth);
    ExitsWhileComing(w, a, name, launch, BeforeHealth, Events(launch, false));
    var seen := Events(launch, ExitsAt(launch, BeforeHealth));
    GivesUp(w, b, name, launch, seen);
    var (p, swapped) := X.SwapPorts(b.prx, name, launch.ports);
    if launch.healthy && swapped {
      RoutesLeaveComing(w, b, name, launch, p, seen);
      Revives(w, b.(prx := p), name, launch, seen);
    }
  }

  lemma GoneIsCalled(w0: World, w: World, name: string, env: LaunchEnv, events: seq<RP.HistoryOp>)
    requires Gone(w0, w, name, env, events)
    ensures Called(R.UpdateStatus(w.reg, name, R.Failed, 0, env.now).0, name, R.Failed)
  {
    StatusCalls(w.reg, name, R.Failed, env.now);
  }

  lemma StoppedRoutes(w: World, name: string)
    ensures StopCandidate(w, name, P.FAILED_CODE).prx == w.prx
  {
  }

  lemma RoutesLeaveComing(w0: World, w: World, name: string, env: LaunchEnv, prx: X.Proxy, events: seq<RP.HistoryOp>)
    requires Coming(w0, w, name, env, events)
    ensures Coming(w0, w.(prx := prx), name, env, events)
  {
    hide ProcsInFlight, CandidateTied, RecordInFlight, RegElsewhere;
  }

  lemma GoneIsSteady(w0: World, v: World, name: string, env: LaunchEnv, events: seq<RP.HistoryOp>)
    requires Steady(w0.mgr) && Gone(w0, v, name, env, events)
    ensures Steady(v.mgr) && Elsewhere(w0.mgr, v.mgr, name)
  {
    hide RecordInFlight;
    SteadyAgain(w0.mgr, v.mgr, name);
  }
}
