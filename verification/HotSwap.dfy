/** The hot swap: what Replace - the common course of Deploy and Restart - does to the joint state on
    success and on each of its failures. */
module HotSwap {
  import opened Options
  import opened Names
  import R = RegistrySpec
  import RP = RegistryProofs
  import P = ProcessSpec
  import PP = ProcessProofs
  import opened RT = ReplaceProcess
  import X = ProxySpec
  import XP = ProxyProofs
  import opened ServiceSpec

  // ---- Frames ----

  ghost predicate RegElsewhere(r: R.Registry, q: R.Registry, name: string) {
    && r.tombstones - {name} == q.tombstones - {name}
    && forall n | n != name :: (n in r.services <==> n in q.services) && (n in r.services ==> q.services[n] == r.services[n])
  }

  ghost predicate PrxElsewhere(p: X.Proxy, q: X.Proxy, name: string) {
    forall n | n != name :: XP.SameService(p, q, n)
  }

  /** No other service is touched, in any component. */
  ghost predicate WorldElsewhere(w: World, v: World, name: string) {
    && RegElsewhere(w.reg, v.reg, name)
    && Elsewhere(w.mgr, v.mgr, name)
    && PrxElsewhere(w.prx, v.prx, name)
    && (forall n | n != name :: (n in w.attempts <==> n in v.attempts) && (n in w.attempts ==> v.attempts[n] == w.attempts[n]))
  }

  /** Everything in a record that neither starting nor running a process changes. */
  ghost predicate SameConfig(s: R.Service, t: R.Service) {
    && s.name == t.name && s.settings == t.settings && s.bind == t.bind && s.stablePorts == t.stablePorts
    && s.deployedAt == t.deployedAt && s.lastDeployedAt == t.lastDeployedAt && s.previous == t.previous
    && s.archivedAt == t.archivedAt && s.archivedFrom == t.archivedFrom
  }

  /** What is recorded of a candidate that was spawned: its start, and its exit if that was seen. */
  function Events(env: LaunchEnv, exited: bool): seq<RP.HistoryOp> {
    if exited && env.exit.Some?
    then [RP.Started(env.startedAt), RP.Ended(env.startedAt, env.exit.value.code, env.exit.value.duration)]
    else [RP.Started(env.startedAt)]
  }

  /** The exit of the process, when it comes, will be recorded with this code. */
  ghost predicate MarkedWith(m: P.Manager, pid: int, code: int) {
    pid in m.draining && m.draining[pid] == code
  }

  /** A candidate that is stopped will be recorded as failed, except that Deploy calls one that does not own
      its ports stopped. */
  function FailureCode(env: LaunchEnv, verifyCode: int): int {
    if env.healthy && !env.owned then verifyCode else 1
  }

  lemma EventsCount(env: LaunchEnv)
    ensures |Events(env, false)| == 1 && (env.exit.Some? ==> |Events(env, true)| == 2)
  {
  }

  lemma EventsRun(h: seq<R.StartEvent>, env: LaunchEnv)
    ensures RP.BoundedRun(h, []) == h
    ensures RP.BoundedRun(h, Events(env, false)) == RP.Bounded(h, RP.Started(env.startedAt))
    ensures env.exit.Some? ==>
              RP.BoundedRun(h, Events(env, true))
                == RP.Bounded(RP.Bounded(h, RP.Started(env.startedAt)), RP.Ended(env.startedAt, env.exit.value.code, env.exit.value.duration))
  {
    hide RP.Bounded;
    var started := RP.Bounded(h, RP.Started(env.startedAt));
    assert Events(env, false)[1..] == [];
    if env.exit.Some? {
      var ended := RP.Ended(env.startedAt, env.exit.value.code, env.exit.value.duration);
      assert Events(env, true)[1..] == [ended] && [ended][1..] == [];
      assert RP.BoundedRun(started, [ended]) == RP.BoundedRun(RP.Bounded(started, ended), []);
    }
  }

  // ---- A replacement in flight ----

  ghost predicate ProcsInFlight(m0: P.Manager, m: P.Manager, name: string, prior: Option<P.Detached>, env: LaunchEnv) {
    && Quiet(m) && Accounted(m, prior) && Elsewhere(m0, m, name) && Waiting(m, prior)
    && OnlyCandidate(m, name, env.pid, env.ports, true)
    && (prior.Some? ==> prior.value.pid != env.pid && prior.value.name == name)
  }

  /** A candidate that does not become the service's process is sent SIGTERM, exactly if it was started and
      has not been seen to exit. */
  function Signalled(env: LaunchEnv, events: seq<RP.HistoryOp>): seq<int> {
    if |events| == 1 then [env.pid] else []
  }

  /** While the candidate lives it is tracked, through the runningProc its watcher holds. */
  ghost predicate CandidateTied(m: P.Manager, name: string, env: LaunchEnv) {
    && (name in m.procs ==> env.pid in m.watchers && m.watchers[env.pid].phase == P.Alive)
    && (env.pid in m.watchers ==>
          && m.watchers[env.pid].name == name && m.watchers[env.pid].startedAt == env.startedAt
          && (m.watchers[env.pid].phase == P.Alive ==> name in m.procs && m.watchers[env.pid].rp == m.procs[name]))
    && m.draining.Keys !! {env.pid}
  }

  /** The record `s` after these events of the candidate. */
  ghost predicate RecordInFlight(s: R.Service, r: R.Registry, name: string, env: LaunchEnv, events: seq<RP.HistoryOp>) {
    && name in r.services
    && SameConfig(s, r.services[name])
    && r.services[name].startHistory == RP.BoundedRun(s.startHistory, events)
    && r.services[name].lastStartedAt == LastStarted(s, env, events)
    && (events != [] ==> r.services[name].internalPorts == env.ports)
  }

  function LastStarted(s: R.Service, env: LaunchEnv, events: seq<RP.HistoryOp>): int {
    if events == [] then s.lastStartedAt else env.startedAt
  }

  /** A replacement under way that began with process table `m0` and record `s`. */
  ghost predicate InFlight(m0: P.Manager, s: R.Service, w: World, name: string, prior: Option<P.Detached>, env: LaunchEnv, events: seq<RP.HistoryOp>) {
    && ProcsInFlight(m0, w.mgr, name, prior, env)
    && CandidateTied(w.mgr, name, env)
    && RecordInFlight(s, w.reg, name, env, events)
    && (name in w.mgr.procs ==> events == Events(env, false))
  }

  ghost predicate OnlyProcsAndRecord(w: World, v: World, name: string) {
    v.prx == w.prx && v.attempts == w.attempts && v.drains == w.drains && RegElsewhere(w.reg, v.reg, name)
  }

  lemma PidOfCandidate(m0: P.Manager, m: P.Manager, name: string, prior: Option<P.Detached>, env: LaunchEnv)
    requires ProcsInFlight(m0, m, name, prior, env) && CandidateTied(m, name, env)
    ensures P.Pid(m, name) > 0 <==> name in m.procs
    ensures P.Pid(m, name) == 0 <==> name !in m.procs
  {
    assert PP.WatchersSound(m);
  }

  ghost predicate ExitsAt(env: LaunchEnv, moment: Moment) {
    env.exit.Some? && env.exit.value.moment == moment
  }

  lemma ExitInFlight(m0: P.Manager, m: P.Manager, name: string, prior: Option<P.Detached>, env: LaunchEnv, code: int)
    requires ProcsInFlight(m0, m, name, prior, env) && CandidateTied(m, name, env)
    requires env.pid in m.watchers && m.watchers[env.pid].phase == P.Alive
    ensures var q := ExitNow(m, env.pid, code);
            && ProcsInFlight(m0, q, name, prior, env) && CandidateTied(q, name, env) && name !in q.procs
            && q.signals == m.signals
    ensures P.Classify(m, env.pid, code) == P.Exit(P.CandidateExit, code)
  {
    hide PP.Inv, Quiet, ExitNow, Waiting, Accounted, Elsewhere;
    CandidateClassified(m0, m, name, prior, env, code);
    ExitWaits(m, name, env.pid, env.ports, code, prior);
    ExitNowExact(m, name, env.pid, code);
    ExitAccounted(m, env.pid, code, prior);
    ElsewhereTransitive(m0, m, ExitNow(m, env.pid, code), name);
    QuietIsSound(m);
    ExitTied(m, name, env, code);
  }

  lemma QuietIsSound(m: P.Manager)
    requires Quiet(m)
    ensures PP.WatchersSound(m)
  {
    hide PP.WatchersSound;
  }

  lemma ExitTied(m: P.Manager, name: string, env: LaunchEnv, code: int)
    requires PP.WatchersSound(m) && CandidateTied(m, name, env)
    requires env.pid in m.watchers && m.watchers[env.pid].phase == P.Alive
    requires name !in ExitNow(m, env.pid, code).procs
    ensures CandidateTied(ExitNow(m, env.pid, code), name, env)
  {
    hide ExitNow, PP.WatchersSound;
    ExitNowShape(m, env.pid, code);
  }

  lemma CandidateClassified(m0: P.Manager, m: P.Manager, name: string, prior: Option<P.Detached>, env: LaunchEnv, code: int)
    requires ProcsInFlight(m0, m, name, prior, env) && CandidateTied(m, name, env)
    requires env.pid in m.watchers && m.watchers[env.pid].phase == P.Alive
    ensures P.Classify(m, env.pid, code) == P.Exit(P.CandidateExit, code)
    ensures Quiet(m) && Waiting(m, prior) && OnlyCandidate(m, name, env.pid, env.ports, true)
  {
    hide Quiet, Waiting, Accounted, Elsewhere;
  }

  lemma CompletedIsEnded(h: seq<R.StartEvent>, startedAt: int, code: int, duration: int)
    ensures RP.Bounded(h, RP.Ended(startedAt, code, duration)) == R.Completed(h, startedAt, code, duration)
    ensures R.LastStart(h, startedAt) < 0 ==> R.Completed(h, startedAt, code, duration) == h
  {
  }

  lemma CompletionInFlight(s: R.Service, r: R.Registry, name: string, env: LaunchEnv)
    requires RecordInFlight(s, r, name, env, Events(env, false)) && env.exit.Some?
    ensures var q := R.CompleteStart(r, name, env.startedAt, env.exit.value.code, env.exit.value.duration, env.now).0;
            RecordInFlight(s, q, name, env, Events(env, true)) && RegElsewhere(r, q, name)
  {
    hide R.Appended;
    EventsRun(s.startHistory, env);
    CompletedIsEnded(r.services[name].startHistory, env.startedAt, env.exit.value.code, env.exit.value.duration);
  }

  /** The candidate's own exit, seen by the process table and the registry. */
  lemma CandidateExitKeeps(m0: P.Manager, s: R.Service, w: World, name: string, prior: Option<P.Detached>, env: LaunchEnv, moment: Moment, events: seq<RP.HistoryOp>)
    requires InFlight(m0, s, w, name, prior, env, events)
    ensures var v := CandidateMayExit(w, env, moment);
            && InFlight(m0, s, v, name, prior, env, if name in w.mgr.procs && ExitsAt(env, moment) then Events(env, true) else events)
            && OnlyProcsAndRecord(w, v, name)
            && v.mgr.signals == w.mgr.signals
            && (name in v.mgr.procs <==> name in w.mgr.procs && !ExitsAt(env, moment))
            && (name in v.mgr.procs ==> v == w)
  {
    hide ProcsInFlight, RecordInFlight, P.Close, P.Observe, P.Die, P.Classify, RegElsewhere, R.CompleteStart;
    var v := CandidateMayExit(w, env, moment);
    RegElsewhereSelf(w.reg, name);
    if env.exit.Some? && env.exit.value.moment == moment && env.pid in w.mgr.watchers && w.mgr.watchers[env.pid].phase == P.Alive {
      ExitInFlight(m0, w.mgr, name, prior, env, env.exit.value.code);
      CompletionInFlight(s, w.reg, name, env);
      assert v.mgr == ExitNow(w.mgr, env.pid, env.exit.value.code);
    }
  }

  lemma RegElsewhereSelf(r: R.Registry, name: string)
    ensures RegElsewhere(r, r, name)
  {
  }

  lemma StartInFlight(m0: P.Manager, m: P.Manager, name: string, prior: Option<P.Detached>, env: LaunchEnv)
    requires ProcsInFlight(m0, m, name, prior, env) && name !in m.procs && FreshPid(m, env.pid)
    ensures var q := P.Start(m, name, true, env.pid, env.ports, env.startedAt).0;
            && ProcsInFlight(m0, q, name, prior, env) && CandidateTied(q, name, env) && name in q.procs
            && q.signals == m.signals
    ensures CandidateTied(m, name, env)
  {
    StartWaits(m, name, env.pid, env.ports, env.startedAt, prior);
    StartAccounted(m, name, env.pid, env.ports, env.startedAt, prior);
    assert PP.DrainingSound(m);
    ElsewhereTransitive(m0, m, P.Start(m, name, true, env.pid, env.ports, env.startedAt).0, name);
    hide Quiet, Elsewhere, Waiting;
  }

  lemma StartedRecord(s: R.Service, r: R.Registry, name: string, env: LaunchEnv)
    requires name in r.services && r.services[name] == s
    ensures var q := R.UpdateProcessStarted(r, name, env.ports, env.startedAt, env.now).0;
            RecordInFlight(s, q, name, env, Events(env, false)) && RegElsewhere(r, q, name)
    ensures var q := R.UpdateStatus(r, name, R.Failed, 0, env.now).0;
            RecordInFlight(s, q, name, env, []) && RegElsewhere(r, q, name)
    ensures RecordInFlight(s, r, name, env, [])
  {
    EventsRun(s.startHistory, env);
  }

  lemma StartKeeps(m0: P.Manager, w: World, name: string, prior: Option<P.Detached>, env: LaunchEnv)
    requires ProcsInFlight(m0, w.mgr, name, prior, env) && name !in w.mgr.procs
    requires FreshPid(w.mgr, env.pid) && name in w.reg.services
    ensures var (v, started) := StartCandidate(w, name, env);
            && InFlight(m0, w.reg.services[name], v, name, prior, env, if started then Events(env, false) else [])
            && OnlyProcsAndRecord(w, v, name)
            && v.mgr.signals == w.mgr.signals
            && (started <==> name in v.mgr.procs)
            && (started <==> env.spawn == Spawned)
  {
    hide ProcsInFlight, CandidateTied, RecordInFlight, R.UpdateProcessStarted, R.UpdateStatus, P.Start;
    StartInFlight(m0, w.mgr, name, prior, env);
    StartedRecord(w.reg.services[name], w.reg, name, env);
  }

  lemma StopKeeps(m0: P.Manager, s: R.Service, w: World, name: string, prior: Option<P.Detached>, code: int, env: LaunchEnv, events: seq<RP.HistoryOp>)
    requires InFlight(m0, s, w, name, prior, env, events) && w.mgr.signals == m0.signals
    requires code == P.STOPPED_CODE || code == P.FAILED_CODE
    ensures var v := StopCandidate(w, name, code);
            && ProcsInFlight(m0, v.mgr, name, prior, env) && name !in v.mgr.procs
            && RecordInFlight(s, v.reg, name, env, events)
            && OnlyProcsAndRecord(w, v, name)
            && v.mgr.signals == w.mgr.signals + (if name in w.mgr.procs then [env.pid] else [])
            && (name in w.mgr.procs ==> MarkedWith(v.mgr, env.pid, code))
  {
    StopWaits(w.mgr, name, env.pid, env.ports, code, prior);
    StopAccounted(w.mgr, name, code, prior);
    ElsewhereTransitive(m0, w.mgr, P.StopWith(w.mgr, name, code).0, name);
    hide Quiet, Elsewhere, Waiting, Accounted;
  }

  /** The candidate starts, turns healthy, owns its ports, and lives until then. */
  ghost predicate LaunchWorks(env: LaunchEnv) {
    && env.spawn == Spawned && env.healthy && env.owned
    && !ExitsAt(env, BeforeHealth) && !ExitsAt(env, BeforeOwnership)
  }

  /** What the history gains during Launch. */
  ghost function LaunchEvents(env: LaunchEnv): seq<RP.HistoryOp> {
    if env.spawn != Spawned then []
    else Events(env, ExitsAt(env, BeforeHealth) || (env.healthy && ExitsAt(env, BeforeOwnership)))
  }

  /** After Launch the candidate is up and tracked, or it has been stopped or has exited; the routes
      have not been touched. */
  lemma LaunchKeeps(m0: P.Manager, w: World, name: string, prior: Option<P.Detached>, verifyCode: int, env: LaunchEnv)
    requires ProcsInFlight(m0, w.mgr, name, prior, env) && w.mgr.signals == m0.signals && name !in w.mgr.procs
    requires FreshPid(w.mgr, env.pid) && name in w.reg.services
    requires verifyCode == P.STOPPED_CODE || verifyCode == P.FAILED_CODE
    ensures var (v, ready) := Launch(w, name, verifyCode, env);
            && ProcsInFlight(m0, v.mgr, name, prior, env)
            && RecordInFlight(w.reg.services[name], v.reg, name, env, LaunchEvents(env))
            && OnlyProcsAndRecord(w, v, name)
            && (ready ==> InFlight(m0, w.reg.services[name], v, name, prior, env, Events(env, false)) && v.mgr.signals == m0.signals)
            && (ready <==> name in v.mgr.procs)
            && (ready <==> LaunchWorks(env))
            && (!ready ==> v.mgr.signals == m0.signals + Signalled(env, LaunchEvents(env)))
            && (!ready && |LaunchEvents(env)| == 1 ==> MarkedWith(v.mgr, env.pid, FailureCode(env, verifyCode)))
  {
    hide ProcsInFlight, CandidateTied, RecordInFlight, StartCandidate, CandidateMayExit, StopCandidate, Events;
    EventsCount(env);
    var s := w.reg.services[name];
    var (v, started) := StartCandidate(w, name, env);
    StartKeeps(m0, w, name, prior, env);
    if started {
      var a := CandidateMayExit(v, env, BeforeHealth);
      CandidateExitKeeps(m0, s, v, name, prior, env, BeforeHealth, Events(env, false));
      var seen := Events(env, ExitsAt(env, BeforeHealth));
      if env.healthy {
        var b := CandidateMayExit(a, env, BeforeOwnership);
        CandidateExitKeeps(m0, s, a, name, prior, env, BeforeOwnership, seen);
        PidOfCandidate(m0, b.mgr, name, prior, env);
        StopKeeps(m0, s, b, name, prior, verifyCode, env, LaunchEvents(env));
      } else {
        StopKeeps(m0, s, a, name, prior, P.FAILED_CODE, env, seen);
      }
    }
  }

  // ---- Routes ----

  function NewRoutesBound(p: X.Proxy, name: string, listeners: Listeners, env: LaunchEnv): (X.Proxy, bool)
    requires listeners.Reregister? ==> X.IsOrderOf(env.bind.order, listeners.ports)
  {
    match listeners
    case Keep => (p, true)
    case Reregister(ports, bind) => X.Register(p, name, ports, bind, env.bind)
  }

  lemma FailedSwapIsNone(p: X.Proxy, name: string, ports: map<string, int>)
    ensures !X.SwapPorts(p, name, ports).1 ==> X.SwapPorts(p, name, ports).0 == p
  {
  }

  /** What TakeOver does to the proxy; the flag says that the new routes were published. */
  function NewRoutes(p: X.Proxy, name: string, listeners: Listeners, env: LaunchEnv): (X.Proxy, bool)
    requires listeners.Reregister? ==> X.IsOrderOf(env.bind.order, listeners.ports)
  {
    var (q, bound) := NewRoutesBound(p, name, listeners, env);
    if bound then X.SwapPorts(q, name, env.ports) else (q, false)
  }

  ghost predicate TakeOverWorks(p: X.Proxy, name: string, listeners: Listeners, env: LaunchEnv)
    requires listeners.Reregister? ==> X.IsOrderOf(env.bind.order, listeners.ports)
  {
    NewRoutes(p, name, listeners, env).1 && !ExitsAt(env, BeforePid) && !ExitsAt(env, BeforeActivate)
  }

  /** The candidate is active under the name. */
  ghost predicate Activated(m0: P.Manager, m: P.Manager, name: string, prior: Option<P.Detached>, env: LaunchEnv) {
    && Quiet(m) && Accounted(m, prior) && Elsewhere(m0, m, name) && Waiting(m, prior)
    && name in m.procs && OnlyCandidate(m, name, env.pid, env.ports, false)
    && (prior.Some? ==> prior.value.pid != env.pid && prior.value.name == name)
    && m.signals == m0.signals
  }

  lemma ActivateKeeps(m0: P.Manager, m: P.Manager, name: string, prior: Option<P.Detached>, env: LaunchEnv)
    requires ProcsInFlight(m0, m, name, prior, env)
    ensures var (q, ok) := P.Activate(m, name);
            && (ok <==> name in m.procs)
            && (!ok ==> q == m) && q.signals == m.signals
            && (ok && m.signals == m0.signals ==> Activated(m0, q, name, prior, env))
  {
    ActivateWaits(m, name, env.pid, env.ports, prior);
    ActivateAccounted(m, name, prior);
    ElsewhereTransitive(m0, m, P.Activate(m, name).0, name);
    hide Quiet, Elsewhere, Waiting;
  }

  /** The two looks at the candidate between the swap and its activation. */
  lemma ActivatedKeeps(m0: P.Manager, s: R.Service, w: World, name: string, prior: Option<P.Detached>, env: LaunchEnv)
    requires InFlight(m0, s, w, name, prior, env, Events(env, false)) && w.mgr.signals == m0.signals && name in w.mgr.procs
    ensures var (v, live) := ServiceSpec.Activated(w, name, env);
            && (live ==> Activated(m0, v.mgr, name, prior, env))
            && (!live ==> ProcsInFlight(m0, v.mgr, name, prior, env) && name !in v.mgr.procs)
            && RecordInFlight(s, v.reg, name, env, Events(env, ExitsAt(env, BeforePid) || ExitsAt(env, BeforeActivate)))
            && OnlyProcsAndRecord(w, v, name)
            && (live <==> !ExitsAt(env, BeforePid) && !ExitsAt(env, BeforeActivate))
            && v.mgr.signals == m0.signals
  {
    hide ProcsInFlight, CandidateTied, RecordInFlight, CandidateMayExit, Activated, P.Activate, P.Pid, RegElsewhere, Events;
    var b := CandidateMayExit(w, env, BeforePid);
    CandidateExitKeeps(m0, s, w, name, prior, env, BeforePid, Events(env, false));
    PidOfCandidate(m0, b.mgr, name, prior, env);
    if name in b.mgr.procs {
      var c := CandidateMayExit(b, env, BeforeActivate);
      CandidateExitKeeps(m0, s, b, name, prior, env, BeforeActivate, Events(env, false));
      ActivateKeeps(m0, c.mgr, name, prior, env);
      RegElsewhereTransitive(w.reg, b.reg, c.reg, name);
    }
  }

  /** What the history has gained of the candidate when TakeOver ends. */
  ghost function TakeOverEvents(p: X.Proxy, name: string, listeners: Listeners, env: LaunchEnv): seq<RP.HistoryOp>
    requires listeners.Reregister? ==> X.IsOrderOf(env.bind.order, listeners.ports)
  {
    Events(env, NewRoutes(p, name, listeners, env).1 && (ExitsAt(env, BeforePid) || ExitsAt(env, BeforeActivate)))
  }

  lemma TakeOverKeeps(m0: P.Manager, s: R.Service, w: World, name: string, prior: Option<P.Detached>, listeners: Listeners, env: LaunchEnv)
    requires InFlight(m0, s, w, name, prior, env, Events(env, false)) && w.mgr.signals == m0.signals && name in w.mgr.procs
    requires listeners.Reregister? ==> X.IsOrderOf(env.bind.order, listeners.ports)
    ensures var (v, live) := TakeOver(w, name, listeners, env);
            && (live ==> Activated(m0, v.mgr, name, prior, env))
            && (!live ==> ProcsInFlight(m0, v.mgr, name, prior, env) && name !in v.mgr.procs)
            && RecordInFlight(s, v.reg, name, env, TakeOverEvents(w.prx, name, listeners, env))
            && OnlyProcsAndRecord(w.(prx := v.prx), v, name)
            && v.prx == NewRoutes(w.prx, name, listeners, env).0
            && (live <==> TakeOverWorks(w.prx, name, listeners, env))
            && (!live ==> v.mgr.signals == m0.signals + Signalled(env, TakeOverEvents(w.prx, name, listeners, env)))
            && (!live && |TakeOverEvents(w.prx, name, listeners, env)| == 1 ==> MarkedWith(v.mgr, env.pid, 1))
  {
    hide ProcsInFlight, CandidateTied, RecordInFlight, StopCandidate, Activated, ServiceSpec.Activated, X.Register, X.SwapPorts, RegElsewhere, Events;
    EventsCount(env);
    var (q, swapped) := NewRoutes(w.prx, name, listeners, env);
    var a := w.(prx := q);
    FailedSwapIsNone(NewRoutesBound(w.prx, name, listeners, env).0, name, env.ports);
    if !swapped {
      StopKeeps(m0, s, a, name, prior, P.FAILED_CODE, env, Events(env, false));
      StopKeepsRoutes(w, a, name, P.FAILED_CODE);
    } else {
      ActivatedKeeps(m0, s, a, name, prior, env);
    }
  }

  lemma StopKeepsRoutes(w: World, a: World, name: string, code: int)
    requires a == w.(prx := a.prx)
    ensures StopCandidate(a, name, code) == StopCandidate(w, name, code).(prx := a.prx)
  {
  }

  /** Every named port is answered by this process. */
  ghost predicate WholeRoute(h: X.Handlers, ports: map<string, int>) {
    forall k | k in ports :: k in h && h[k] == X.Upstream(ports[k])
  }

  ghost predicate AllListening(p: X.Proxy, name: string, ports: set<string>) {
    forall k | k in ports :: EntryKey(name, k) in p.entries
  }

  ghost predicate RoutesOk(p: X.Proxy) {
    XP.Sound(p) && XP.Held(p)
  }

  ghost predicate PublishesFor(p: X.Proxy, q: X.Proxy, name: string) {
    p.published <= q.published && forall i | |p.published| <= i < |q.published| :: q.published[i].service == name
  }

  /** The proxy after a change to the routes of `name` alone. */
  ghost predicate RouteStep(p: X.Proxy, q: X.Proxy, name: string) {
    RoutesOk(q) && PrxElsewhere(p, q, name) && PublishesFor(p, q, name)
  }

  lemma RegisterStep(p: X.Proxy, name: string, ports: map<string, int>, bind: string, env: X.BindEnv)
    requires RoutesOk(p) && ColonFree(name) && X.IsOrderOf(env.order, ports)
    ensures var (q, ok) := X.Register(p, name, ports, bind, env);
            && RouteStep(p, q, name)
            && p.entries.Keys <= q.entries.Keys
            && (ok ==> AllListening(q, name, ports.Keys))
            && (AllListening(p, name, ports.Keys) ==> q.published == p.published)
            && (!ok || AllListening(p, name, ports.Keys) ==> X.CurrentHandlers(q, name) == X.CurrentHandlers(p, name))
            && (forall k | k in X.CurrentHandlers(q, name) && X.CurrentHandlers(q, name)[k] != X.Starting ::
                  k in X.CurrentHandlers(p, name) && X.CurrentHandlers(p, name)[k] == X.CurrentHandlers(q, name)[k])
  {
    hide XP.Sound, XP.Held, X.Register, X.CurrentHandlers, EntryKey, XP.SameService;
    var (q, ok) := X.Register(p, name, ports, bind, env);
    XP.RegisterKeeps(p, name, ports, bind, env);
    XP.RegisterGrows(p, name, ports, bind, env);
    XP.RegisterOutcome(p, name, ports, bind, env);
    forall n | n != name ensures XP.SameService(p, q, n) {
      XP.RegisterIsolated(p, name, ports, bind, env, n);
    }
    forall k | ok && k in ports ensures EntryKey(name, k) in q.entries {
      assert XP.Registered(q, name, k, ports[k], X.NormalBind(bind));
    }
    if AllListening(p, name, ports.Keys) {
      assert XP.Fresh(p, name, ports) == {};
      assert XP.AllStarting({}) == map[];
    }
  }

  lemma SwapStep(p: X.Proxy, name: string, ports: map<string, int>)
    requires RoutesOk(p)
    ensures var (q, ok) := X.SwapPorts(p, name, ports);
            && RouteStep(p, q, name)
            && q.entries == p.entries
            && (ok <==> name in p.routes && AllListening(p, name, ports.Keys))
            && q.published == p.published + (if ok then [X.Generation(name, X.CurrentHandlers(q, name))] else [])
            && X.CurrentHandlers(q, name) == X.CurrentHandlers(p, name) + (if ok then X.Upstreams(ports) else map[])
  {
    hide XP.Sound, XP.Held, X.CurrentHandlers, EntryKey, XP.SameService;
    XP.SwapPortsExact(p, name, ports);
  }

  lemma RouteStepTransitive(p: X.Proxy, q: X.Proxy, r: X.Proxy, name: string)
    requires RouteStep(p, q, name) && RouteStep(q, r, name)
    ensures RouteStep(p, r, name)
  {
    hide XP.Sound, XP.Held, X.CurrentHandlers;
    forall n | n != name ensures XP.SameService(p, r, n) {
      assert XP.SameService(p, q, n) && XP.SameService(q, r, n);
    }
  }

  /** The route is re-pointed as a whole, in one publication, or not at all. */
  lemma NewRoutesKeeps(p: X.Proxy, name: string, listeners: Listeners, env: LaunchEnv)
    requires RoutesOk(p) && ColonFree(name)
    requires listeners.Reregister? ==> X.IsOrderOf(env.bind.order, listeners.ports) && listeners.ports.Keys == env.ports.Keys
    ensures var (q, swapped) := NewRoutes(p, name, listeners, env);
            && RouteStep(p, q, name)
            && p.entries.Keys <= q.entries.Keys
            && (swapped ==> AllListening(q, name, env.ports.Keys) && WholeRoute(X.CurrentHandlers(q, name), env.ports))
            && (listeners.Keep? || AllListening(p, name, env.ports.Keys) ==>
                  && q.published == p.published + (if swapped then [X.Generation(name, X.CurrentHandlers(q, name))] else [])
                  && X.CurrentHandlers(q, name) == X.CurrentHandlers(p, name) + (if swapped then X.Upstreams(env.ports) else map[]))
  {
    hide XP.Sound, XP.Held, X.CurrentHandlers, EntryKey, XP.SameService, X.Register, X.SwapPorts, PrxElsewhere;
    var (m, bound) := match listeners
      case Keep => (p, true)
      case Reregister(ports, bind) => X.Register(p, name, ports, bind, env.bind);
    if listeners.Reregister? {
      RegisterStep(p, name, listeners.ports, listeners.bind, env.bind);
    } else {
      RouteStepReflexive(p, name);
    }
    if bound {
      SwapStep(m, name, env.ports);
      RouteStepTransitive(p, m, X.SwapPorts(m, name, env.ports).0, name);
    }
  }

  lemma RouteStepReflexive(p: X.Proxy, name: string)
    requires RoutesOk(p)
    ensures RouteStep(p, p, name)
  {
  }

  // ---- Undoing and committing ----

  /** The undo puts the recorded ports back exactly when its own listen calls succeed. */
  lemma UndoKeeps(p: X.Proxy, name: string, rec: R.Service, undo: X.BindEnv)
    requires RoutesOk(p) && ColonFree(name) && X.IsOrderOf(undo.order, rec.stablePorts)
    requires rec.settings.kind == R.Binary
    ensures var q := UndoRoutes(p, name, rec, undo);
            var bound := X.Register(p, name, rec.stablePorts, rec.bind, undo).1;
            && RouteStep(p, q, name)
            && p.entries.Keys <= q.entries.Keys
            && (AllListening(p, name, rec.stablePorts.Keys) ==>
                  var back := bound && rec.internalPorts != map[] && AllListening(p, name, rec.internalPorts.Keys);
                  && X.CurrentHandlers(q, name) == X.CurrentHandlers(p, name) + (if back then X.Upstreams(rec.internalPorts) else map[])
                  && q.published == p.published + (if back then [X.Generation(name, X.CurrentHandlers(q, name))] else []))
  {
    hide XP.Sound, XP.Held, X.CurrentHandlers, EntryKey, XP.SameService, X.Register, X.SwapPorts, PrxElsewhere;
    var (m, bound) := X.Register(p, name, rec.stablePorts, rec.bind, undo);
    RegisterStep(p, name, rec.stablePorts, rec.bind, undo);
    if AllListening(p, name, rec.stablePorts.Keys) {
      RegisterAddsNone(p, name, rec.stablePorts, rec.bind, undo, rec.internalPorts.Keys);
    }
    if bound && rec.internalPorts != map[] {
      SwapStep(m, name, rec.internalPorts);
      RouteStepTransitive(p, m, X.SwapPorts(m, name, rec.internalPorts).0, name);
      if AllListening(m, name, rec.internalPorts.Keys) {
        ListeningHasRoute(m, name, rec.internalPorts.Keys);
      }
    }
  }

  lemma ListeningHasRoute(p: X.Proxy, name: string, ports: set<string>)
    requires RoutesOk(p) && ColonFree(name) && AllListening(p, name, ports) && ports != {}
    ensures name in p.routes
  {
    var k :| k in ports;
    assert Owner(EntryKey(name, k)) in p.routes;
  }

  /** Registering ports that all listen already adds no listener. */
  lemma RegisterAddsNone(p: X.Proxy, name: string, ports: map<string, int>, bind: string, env: X.BindEnv, names: set<string>)
    requires RoutesOk(p) && ColonFree(name) && X.IsOrderOf(env.order, ports) && AllListening(p, name, ports.Keys)
    ensures AllListening(X.Register(p, name, ports, bind, env).0, name, names) <==> AllListening(p, name, names)
  {
    hide XP.Sound, XP.Held, X.Register, EntryKey;
    XP.RegisterGrows(p, name, ports, bind, env);
    forall k | EntryKey(name, k) in X.Register(p, name, ports, bind, env).0.entries ensures EntryKey(name, k) in p.entries {
      if EntryKey(name, k) !in p.entries {
        XP.RegisterAdds(p, name, ports, bind, env, k);
      }
    }
  }

  lemma ReattachKeeps(m0: P.Manager, m: P.Manager, name: string, prior: Option<P.Detached>, env: LaunchEnv)
    requires Steady(m0) && ProcsInFlight(m0, m, name, prior, env) && name !in m.procs
    ensures var q := Reattached(m, name, prior);
            && Steady(q) && Elsewhere(m0, q, name)
            && (name in q.procs <==> prior.Some?)
            && (prior.Some? ==> q.procs[name] < |q.heap| && q.heap[q.procs[name]] == P.RunningProc(prior.value.pid, prior.value.ports, false, false))
            && q.signals == m.signals && q.draining == m.draining
  {
    if prior.Some? {
      RestoreSucceeds(m, name, prior.value);
      RestoreAccounted(m, name, prior.value);
    }
    hide Quiet, Waiting, Accounted;
    ElsewhereTransitive(m0, m, Reattached(m, name, prior), name);
    assert Quiet(Reattached(m, name, prior));
    SteadyAgain(m0, Reattached(m, name, prior), name);
  }

  lemma CommitKeeps(m0: P.Manager, m: P.Manager, name: string, prior: Option<P.Detached>, env: LaunchEnv)
    requires Steady(m0) && Activated(m0, m, name, prior, env)
    ensures var q := if prior.Some? then P.MarkDraining(m, prior.value.pid) else m;
            && Steady(q) && Elsewhere(m0, q, name)
            && name in q.procs && q.procs[name] < |q.heap| && q.heap[q.procs[name]] == P.RunningProc(env.pid, env.ports, false, false)
            && (prior.Some? ==> PP.Intended(q, prior.value.pid))
            && q.signals == m0.signals
  {
    assert PP.WatchersSound(m);
    MarkWaits(m, name, prior, env.pid, env.ports);
    if prior.Some? {
      MarkAccounted(m, prior.value);
    }
    var q := if prior.Some? then P.MarkDraining(m, prior.value.pid) else m;
    hide Quiet, Waiting;
    ElsewhereTransitive(m0, m, q, name);
    SteadyAgain(m0, q, name);
  }

  // ---- Replace ----

  /** The proxy at the moment Replace decides to undo: untouched if the launch failed. */
  function RoutesAtFailure(p: X.Proxy, name: string, listeners: Listeners, env: LaunchEnv): X.Proxy
    requires listeners.Reregister? ==> X.IsOrderOf(env.bind.order, listeners.ports)
  {
    if env.spawn == Spawned && env.healthy && env.owned
       && !(env.exit.Some? && env.exit.value.moment in {BeforeHealth, BeforeOwnership})
    then NewRoutes(p, name, listeners, env).0
    else p
  }

  ghost predicate ReplaceReady(w: World, name: string, previous: Option<R.Service>, listeners: Listeners, verifyCode: int, env: LaunchEnv) {
    && (listeners.Reregister? ==> X.IsOrderOf(env.bind.order, listeners.ports))
    && (previous.Some? ==> X.IsOrderOf(env.undo.order, previous.value.stablePorts))
    && (verifyCode == P.STOPPED_CODE || verifyCode == P.FAILED_CODE)
    && Steady(w.mgr) && FreshPid(w.mgr, env.pid)
    && name in w.reg.services
  }

  lemma DetachInFlight(m: P.Manager, name: string, env: LaunchEnv)
    requires Steady(m) && FreshPid(m, env.pid)
    ensures var (q, prior) := P.Detach(m, name);
            && ProcsInFlight(m, q, name, prior, env) && name !in q.procs && q.signals == m.signals && FreshPid(q, env.pid)
            && (prior.Some? <==> name in m.procs)
            && (name in m.procs ==> m.procs[name] < |m.heap|)
            && (prior.Some? ==> prior.value.pid == m.heap[m.procs[name]].pid && prior.value.ports == m.heap[m.procs[name]].ports)
  {
    DetachWaits(m, name);
    assert PP.TableLive(m);
  }

  /** What was detached, as the table had it. */
  ghost predicate DetachedFrom(m: P.Manager, name: string, prior: Option<P.Detached>) {
    && (prior.Some? <==> name in m.procs)
    && (name in m.procs ==> m.procs[name] < |m.heap|)
    && (prior.Some? ==> prior.value.pid == m.heap[m.procs[name]].pid && prior.value.ports == m.heap[m.procs[name]].ports)
  }

  /** A replacement that fails with the candidate gone: the old process, the old record, the old routes. */
  lemma UndoneProcesses(w: World, a: World, name: string, previous: Option<R.Service>, prior: Option<P.Detached>, env: LaunchEnv, events: seq<RP.HistoryOp>)
    requires Steady(w.mgr) && DetachedFrom(w.mgr, name, prior) && name in w.reg.services
    requires ProcsInFlight(w.mgr, a.mgr, name, prior, env) && name !in a.mgr.procs
    requires RecordInFlight(w.reg.services[name], a.reg, name, env, events) && RegElsewhere(w.reg, a.reg, name)
    requires a.drains == w.drains && a.attempts == w.attempts && a.mgr.signals == w.mgr.signals + Signalled(env, events)
    requires previous.Some? ==> X.IsOrderOf(env.undo.order, previous.value.stablePorts)
    ensures var v := RestoreFailedDeploy(a, name, previous, prior, env.undo);
            && Steady(v.mgr) && Elsewhere(w.mgr, v.mgr, name) && RegElsewhere(w.reg, v.reg, name)
            && PutBack(w, v, name, Signalled(env, events)) && RecordBack(w.reg.services[name], previous, v.reg, name, env, events)
            && v.mgr.draining == a.mgr.draining
            && v.prx == if previous.Some? then UndoRoutes(a.prx, name, previous.value, env.undo) else X.RemovePorts(a.prx, name)
  {
    hide Steady, Elsewhere, ProcsInFlight, RecordInFlight, Reattached, UndoRoutes, X.RemovePorts, RegElsewhere, RecordBack, RestoreFailedDeploy;
    ReattachKeeps(w.mgr, a.mgr, name, prior, env);
    RestoredRecord(w.reg.services[name], w, a, name, previous, prior, env, events);
  }

  /** A replacement that goes through. */
  lemma DoneProcesses(w: World, b: World, name: string, prior: Option<P.Detached>, deployedAt: int, env: LaunchEnv)
    requires Steady(w.mgr) && DetachedFrom(w.mgr, name, prior) && name in w.reg.services
    requires Activated(w.mgr, b.mgr, name, prior, env)
    requires RecordInFlight(w.reg.services[name], b.reg, name, env, Events(env, false)) && RegElsewhere(w.reg, b.reg, name)
    requires b.drains == w.drains && b.attempts == w.attempts
    ensures var v := Committed(b, name, prior, deployedAt, env);
            && Steady(v.mgr) && Elsewhere(w.mgr, v.mgr, name) && RegElsewhere(w.reg, v.reg, name)
            && Replaced(w, v, name, deployedAt, env) && v.prx == b.prx
  {
    hide Steady, Elsewhere, RecordInFlight, Activated, RegElsewhere, RecordRunning, P.MarkDraining, PP.Intended, R.MarkRunning, R.UpdateCrashState;
    CommitKeeps(w.mgr, b.mgr, name, prior, env);
    CommittedRecord(w.reg.services[name], w, b, name, prior, deployedAt, env);
  }

  /** What the history gains by a replacement: the candidate's start if it was spawned, and its exit if it
      came at a moment that was reached. */
  ghost function ReplaceEvents(p: X.Proxy, name: string, listeners: Listeners, env: LaunchEnv): seq<RP.HistoryOp>
    requires listeners.Reregister? ==> X.IsOrderOf(env.bind.order, listeners.ports)
  {
    if LaunchWorks(env) then TakeOverEvents(p, name, listeners, env) else LaunchEvents(env)
  }

  /** Replace succeeds exactly when the candidate launches, its routes are published, and it lives until
      it is activated. Otherwise the process table is as before - the old process is tracked again, and
      it has not been signalled, but the candidate has, if it was started and lives - and the record is the previous one but for its start history, which has
      exactly the candidate's start and exit more. */
  lemma ReplaceProcesses(w: World, name: string, previous: Option<R.Service>, listeners: Listeners, verifyCode: int, deployedAt: int, env: LaunchEnv)
    requires ReplaceReady(w, name, previous, listeners, verifyCode, env)
    ensures var (v, ok) := Replace(w, name, previous, listeners, verifyCode, deployedAt, env);
            && Steady(v.mgr) && Elsewhere(w.mgr, v.mgr, name) && RegElsewhere(w.reg, v.reg, name)
            && (ok <==> LaunchWorks(env) && TakeOverWorks(w.prx, name, listeners, env))
            && (ok ==> Replaced(w, v, name, deployedAt, env))
            && (!ok ==>
                  var events := ReplaceEvents(w.prx, name, listeners, env);
                  PutBack(w, v, name, Signalled(env, events)) && RecordBack(w.reg.services[name], previous, v.reg, name, env, events))
            && (ok ==> ReplaceEvents(w.prx, name, listeners, env) == Events(env, false))
            && (!ok && |ReplaceEvents(w.prx, name, listeners, env)| == 1 ==> MarkedWith(v.mgr, env.pid, FailureCode(env, verifyCode)))
            && v.prx == (if ok then NewRoutes(w.prx, name, listeners, env).0
                         else var p := RoutesAtFailure(w.prx, name, listeners, env);
                              if previous.Some? then UndoRoutes(p, name, previous.value, env.undo) else X.RemovePorts(p, name))
  {
    hide Steady, Elsewhere, ProcsInFlight, RecordInFlight, InFlight, Launch, TakeOver, Reattached, NewRoutes, UndoRoutes, X.RemovePorts, P.Detach, P.MarkDraining, Activated, RegElsewhere, FreshPid, SameConfig, Events, PP.Intended, RestoreFailedDeploy, PutBack, RecordBack, Replaced, Committed;
    var s := w.reg.services[name];
    var (m, prior) := P.Detach(w.mgr, name);
    DetachInFlight(w.mgr, name, env);
    var (a, ready) := Launch(w.(mgr := m), name, verifyCode, env);
    LaunchKeeps(w.mgr, w.(mgr := m), name, prior, verifyCode, env);
    if !ready {
      UndoneProcesses(w, a, name, previous, prior, env, LaunchEvents(env));
    } else {
      var (b, live) := TakeOver(a, name, listeners, env);
      TakeOverKeeps(w.mgr, s, a, name, prior, listeners, env);
      RegElsewhereTransitive(w.reg, a.reg, b.reg, name);
      if !live {
        UndoneProcesses(w, b, name, previous, prior, env, TakeOverEvents(w.prx, name, listeners, env));
      } else {
        DoneProcesses(w, b, name, prior, deployedAt, env);
      }
    }
  }

  /** The candidate runs in place of whatever was tracked; the old process is marked and scheduled for
      its drain, but nothing has been signalled yet. */
  ghost predicate Replaced(w: World, v: World, name: string, deployedAt: int, env: LaunchEnv) {
    && name in v.mgr.procs && v.mgr.procs[name] < |v.mgr.heap|
    && v.mgr.heap[v.mgr.procs[name]] == P.RunningProc(env.pid, env.ports, false, false)
    && v.mgr.signals == w.mgr.signals
    && (if name in w.mgr.procs && w.mgr.procs[name] < |w.mgr.heap| then
          var prior := w.mgr.heap[w.mgr.procs[name]].pid;
          && PP.Intended(v.mgr, prior)
          && v.drains == w.drains + [prior]
        else v.drains == w.drains)
    && v.attempts == w.attempts - {name}
    && RecordRunning(w.reg.services, v.reg, name, deployedAt, env)
  }

  /** Running with the candidate's PID and ports, its start recorded, the crash state reset, and the deploy
      time set by a deployment and kept by a restart. */
  ghost predicate RecordRunning(before: map<string, R.Service>, r: R.Registry, name: string, deployedAt: int, env: LaunchEnv) {
    && name in before && name in r.services
    && var s, t := before[name], r.services[name];
       && t.status == R.Running && t.pid == env.pid && t.internalPorts == env.ports
       && t.crashAttempts == 0 && !t.gaveUp
       && t.startHistory == RP.Bounded(s.startHistory, RP.Started(env.startedAt))
       && t.lastStartedAt == env.startedAt
       && SameConfig(s.(lastDeployedAt := if deployedAt == 0 then s.lastDeployedAt else deployedAt), t)
  }

  /** The process table is as before; besides, these have been signalled. */
  ghost predicate PutBack(w: World, v: World, name: string, signalled: seq<int>) {
    && (name in v.mgr.procs <==> name in w.mgr.procs)
    && (name in w.mgr.procs && w.mgr.procs[name] < |w.mgr.heap| ==>
          && v.mgr.procs[name] < |v.mgr.heap|
          && v.mgr.heap[v.mgr.procs[name]] == P.RunningProc(w.mgr.heap[w.mgr.procs[name]].pid, w.mgr.heap[w.mgr.procs[name]].ports, false, false))
    && v.mgr.signals == w.mgr.signals + signalled
    && v.drains == w.drains && v.attempts == w.attempts
  }

  /** The record is the previous one, except for the events of the failed attempt, which its start history
      has more than the staged record, and the last start time; without a previous record there is none. */
  ghost predicate RecordBack(staged: R.Service, previous: Option<R.Service>, r: R.Registry, name: string, env: LaunchEnv, events: seq<RP.HistoryOp>) {
    match previous
    case None => name !in r.services
    case Some(rec) =>
      && name in r.services
      && r.services[name] == rec.(name := name,
                                  lastStartedAt := LastStarted(staged, env, events),
                                  startHistory := RP.BoundedRun(staged.startHistory, events))
  }

  lemma RegElsewhereTransitive(a: R.Registry, b: R.Registry, c: R.Registry, name: string)
    requires RegElsewhere(a, b, name) && RegElsewhere(b, c, name)
    ensures RegElsewhere(a, c, name)
  {
  }

  lemma RestoredRecord(s: R.Service, w: World, a: World, name: string, previous: Option<R.Service>, prior: Option<P.Detached>, env: LaunchEnv, events: seq<RP.HistoryOp>)
    requires RecordInFlight(s, a.reg, name, env, events) && RegElsewhere(w.reg, a.reg, name)
    requires previous.Some? ==> X.IsOrderOf(env.undo.order, previous.value.stablePorts)
    ensures var v := RestoreFailedDeploy(a, name, previous, prior, env.undo);
            && RegElsewhere(w.reg, v.reg, name) && RecordBack(s, previous, v.reg, name, env, events)
            && v.mgr == Reattached(a.mgr, name, prior) && v.attempts == a.attempts && v.drains == a.drains
            && v.prx == if previous.Some? then UndoRoutes(a.prx, name, previous.value, env.undo) else X.RemovePorts(a.prx, name)
  {
    hide Reattached, UndoRoutes, X.RemovePorts, SameConfig, RP.BoundedRun;
  }

  lemma CommittedRecord(s: R.Service, w: World, b: World, name: string, prior: Option<P.Detached>, deployedAt: int, env: LaunchEnv)
    requires name in w.reg.services && w.reg.services[name] == s
    requires RecordInFlight(s, b.reg, name, env, Events(env, false)) && RegElsewhere(w.reg, b.reg, name)
    ensures var v := Committed(b, name, prior, deployedAt, env);
            RegElsewhere(w.reg, v.reg, name) && RecordRunning(w.reg.services, v.reg, name, deployedAt, env)
  {
    hide R.Appended;
    EventsRun(s.startHistory, env);
  }
}
