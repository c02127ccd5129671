/** The service object over its registry, process manager and proxy manager. Deploy and RestartLocked
    are written out step by step, as the source has them; both turn out to be the one transition
    Replace. Between their steps the environment may let the candidate exit. */
module Service {
  import opened Options
  import opened Names
  import R = RegistrySpec
  import P = ProcessSpec
  import X = ProxySpec
  import opened ServiceSpec
  import opened Registry
  import opened ProcessManager
  import ProxyManager

  class Daemon {
    const reg: Store
    const mgr: Supervisor
    const prx: ProxyManager.Manager
    var crashAttempts: map<string, int>
    var drains: seq<int>

    constructor ()
      ensures Valid() && fresh(reg) && fresh(mgr) && fresh(prx) && Now() == EMPTY
    {
      reg := new Store();
      mgr := new Supervisor();
      prx := new ProxyManager.Manager();
      crashAttempts, drains := map[], [];
    }

    function Now(): World
      reads this, reg, mgr, prx
    {
      World(reg.State(), mgr.State(), prx.State(), crashAttempts, drains)
    }

    ghost predicate Valid()
      reads mgr
    {
      mgr.Valid()
    }

    // ---- Exits ----

    /** The watcher goroutine of a process, up to what follows a crash. */
    method Reap(pid: int, code: int, duration: int, now: int) returns (exit: P.Exit)
      requires Valid() && pid in mgr.watchers && mgr.watchers[pid].phase == P.Alive
      modifies mgr, reg
      ensures Valid() && Now() == ServiceSpec.Reap(old(Now()), pid, code, duration, now)
      ensures exit == P.Classify(old(mgr.State()), pid, code)
      ensures forall n :: P.Pid(mgr.State(), n) == old(P.Pid(mgr.State(), n)) || P.Pid(mgr.State(), n) == 0
    {
      hide P.Classify, P.Observe, R.CompleteStart, P.Pid;
      var w := mgr.watchers[pid];
      mgr.ProcessDies(pid);
      ClassifyAfterDeath(old(mgr.State()), pid, code);
      exit := mgr.WatcherObserves(pid, code);
      var _ := reg.CompleteStart(w.name, w.startedAt, exit.code, duration, now);
      mgr.WatcherCloses(pid);
      PidsAfterExit(old(mgr.State()), pid, code);
    }

    /** An exit frees a name or leaves it with the process it had. */
    static lemma PidsAfterExit(m: P.Manager, pid: int, code: int)
      requires pid in m.watchers && m.watchers[pid].phase == P.Alive
      ensures var q := P.Close(P.Observe(P.Die(m, pid), pid, code), pid);
              forall n :: P.Pid(q, n) == P.Pid(m, n) || P.Pid(q, n) == 0
    {
    }

    static lemma ClassifyAfterDeath(m: P.Manager, pid: int, code: int)
      requires pid in m.watchers && m.watchers[pid].phase == P.Alive
      ensures var q := P.Die(m, pid);
              pid in q.watchers && q.watchers[pid].phase == P.Reaped && P.Classify(q, pid, code) == P.Classify(m, pid, code)
    {
    }

    method CandidateMayExit(env: LaunchEnv, moment: Moment)
      requires Valid()
      modifies mgr, reg
      ensures Valid() && Now() == ServiceSpec.CandidateMayExit(old(Now()), env, moment)
      ensures forall n :: P.Pid(mgr.State(), n) == old(P.Pid(mgr.State(), n)) || P.Pid(mgr.State(), n) == 0
    {
      hide ServiceSpec.Reap, P.Pid;
      if env.exit.Some? && env.exit.value.moment == moment && env.pid in mgr.watchers && mgr.watchers[env.pid].phase == P.Alive {
        var _ := Reap(env.pid, env.exit.value.code, env.exit.value.duration, env.now);
      }
    }

    method HandleCrash(name: string, now: int)
      requires Valid()
      modifies this, reg, prx
      ensures Valid() && Now() == ServiceSpec.HandleCrash(old(Now()), name, now)
    {
      hide X.UnswapPorts, R.UpdateStatus, R.UpdateCrashState;
      var found := reg.Get(name);
      if found.None? { return; }
      var svc := found.value;
      if svc.status == R.Stopped { return; }
      prx.UnswapPorts(name);
      var policy := svc.settings.restartPolicy;
      if policy == "" { policy := "on-watch"; }
      if policy == "never" { return; }
      if policy == "on-watch" && svc.settings.watchPaths == [] { return; }
      var attempt := 0;
      if name in crashAttempts { attempt := crashAttempts[name]; }
      if attempt >= MAX_CRASH_RESTARTS {
        var _ := reg.UpdateCrashState(name, attempt, true, now);
        var _ := reg.UpdateStatus(name, R.Failed, 0, now);
        return;
      }
      crashAttempts := crashAttempts[name := attempt + 1];
      var _ := reg.UpdateCrashState(name, attempt + 1, false, now);
    }

    method ProcessExits(pid: int, code: int, duration: int, now: int)
      requires Valid()
      modifies this, reg, mgr, prx
      ensures Valid() && Now() == ServiceSpec.ProcessExits(old(Now()), pid, code, duration, now)
    {
      hide ServiceSpec.Reap, ServiceSpec.HandleCrash, P.Classify, R.UpdateStatus;
      if pid !in mgr.watchers || mgr.watchers[pid].phase != P.Alive { return; }
      var name := mgr.watchers[pid].name;
      var exit := Reap(pid, code, duration, now);
      if exit.verdict == P.Crash {
        var _ := reg.UpdateStatus(name, R.Failed, 0, now);
        HandleCrash(name, now);
      }
    }

    // ---- Replacing the running process ----

    method StartCandidate(name: string, env: LaunchEnv) returns (ok: bool)
      requires Valid()
      modifies mgr, reg
      ensures Valid() && (Now(), ok) == ServiceSpec.StartCandidate(old(Now()), name, env)
      ensures ok ==> P.Pid(mgr.State(), name) == env.pid
    {
      hide R.UpdateProcessStarted, R.UpdateStatus;
      if name in mgr.procs { return false; }
      match env.spawn
      case NoResources => return false;
      case ExecFailed =>
        var _ := reg.UpdateStatus(name, R.Failed, 0, env.now);
        return false;
      case Spawned =>
        var _ := mgr.Start(name, true, env.pid, env.ports, env.startedAt);
        var _ := reg.UpdateProcessStarted(name, env.ports, env.startedAt, env.now);
        return true;
    }

    /** Start history plays no part in the routes. */
    static lemma SameRoutesUndone(p: X.Proxy, name: string, previous: Option<R.Service>, undo: X.BindEnv)
      requires previous.Some? ==> X.IsOrderOf(undo.order, previous.value.stablePorts)
      ensures previous.Some? ==> forall t, h ::
                ServiceSpec.UndoRoutes(p, name, previous.value.(lastStartedAt := t, startHistory := h), undo) == ServiceSpec.UndoRoutes(p, name, previous.value, undo)
    {
      hide X.Register, X.SwapPorts, X.SwapStatic;
    }

    method UndoRoutes(name: string, record: R.Service, undo: X.BindEnv)
      requires X.IsOrderOf(undo.order, record.stablePorts)
      modifies prx
      ensures prx.State() == ServiceSpec.UndoRoutes(old(prx.State()), name, record, undo)
    {
      hide X.Register, X.SwapPorts, X.SwapStatic;
      var bound := prx.RegisterPorts(name, record.stablePorts, record.bind, undo);
      if !bound { return; }
      if record.settings.kind == R.Static {
        var _ := prx.SwapStatic(name, record.settings.path);
      } else if record.internalPorts != map[] {
        var _ := prx.SwapPorts(name, record.internalPorts);
      }
    }

    method RestoreFailedDeploy(name: string, previous: Option<R.Service>, oldProc: Option<P.Detached>, undo: X.BindEnv)
      requires Valid()
      requires previous.Some? ==> X.IsOrderOf(undo.order, previous.value.stablePorts)
      modifies reg, mgr, prx
      ensures Valid() && Now() == ServiceSpec.RestoreFailedDeploy(old(Now()), name, previous, oldProc, undo)
    {
      hide ServiceSpec.UndoRoutes, X.Register, X.SwapPorts, X.SwapStatic, X.RemovePorts, P.RestoreAttach, P.RestoreCheck;
      SameRoutesUndone(prx.State(), name, previous, undo);
      if oldProc.Some? {
        var _ := mgr.Restore(name, oldProc.value);
      }
      if previous.Some? {
        var record := previous.value;
        var current := reg.Get(name);
        if current.Some? {
          record := record.(lastStartedAt := current.value.lastStartedAt, startHistory := current.value.startHistory);
        }
        reg.Restore(record.(name := name));
        UndoRoutes(name, record, undo);
        return;
      }
      reg.Remove(name);
      prx.RemovePorts(name);
    }

    /** After activation: running, crash state reset, old process marked and left to its drain window. */
    method Commit(name: string, oldProc: Option<P.Detached>, newPid: int, deployedAt: int, now: int)
      requires Valid()
      modifies this, reg, mgr
      ensures Valid()
      ensures forall env: LaunchEnv | env.pid == newPid && env.now == now :: Now() == Committed(old(Now()), name, oldProc, deployedAt, env)
    {
      hide R.MarkRunning, R.UpdateCrashState, P.MarkDraining;
      var _ := reg.MarkRunning(name, newPid, deployedAt, now);
      var _ := reg.UpdateCrashState(name, 0, false, now);
      crashAttempts := crashAttempts - {name};
      if oldProc.Some? {
        mgr.MarkDraining(oldProc.value.pid);
        drains := drains + [oldProc.value.pid];
      }
    }

    /** Start, health check and ownership check; on failure the candidate, if still there, is stopped -
        with code `verifyCode` if it was the ownership check that failed. */
    method LaunchCandidate(name: string, verifyCode: int, env: LaunchEnv) returns (ready: bool)
      requires Valid()
      modifies mgr, reg
      ensures Valid() && (Now(), ready) == Launch(old(Now()), name, verifyCode, env)
      ensures ready ==> P.Pid(mgr.State(), name) == env.pid
    {
      hide P.StopWith, P.Pid, ServiceSpec.StartCandidate, ServiceSpec.CandidateMayExit;
      var started := StartCandidate(name, env);
      if !started { return false; }
      CandidateMayExit(env, BeforeHealth);
      if !env.healthy {
        var _ := mgr.Stop(name, P.FAILED_CODE);
        return false;
      }
      CandidateMayExit(env, BeforeOwnership);
      var pid := mgr.Pid(name);
      if pid <= 0 || !env.owned {
        var _ := mgr.Stop(name, verifyCode);
        return false;
      }
      return true;
    }

    /** The candidate becomes the active process, unless it has exited since the swap. */
    method ActivateCandidate(name: string, env: LaunchEnv) returns (active: bool, newPid: int)
      requires Valid() && P.Pid(mgr.State(), name) == env.pid
      modifies mgr, reg
      ensures Valid() && (Now(), active) == Activated(old(Now()), name, env)
      ensures active ==> newPid == env.pid
    {
      hide P.Activate, P.Pid, ServiceSpec.CandidateMayExit;
      CandidateMayExit(env, BeforePid);
      newPid := mgr.Pid(name);
      if newPid == 0 { return false, newPid; }
      CandidateMayExit(env, BeforeActivate);
      active := mgr.Activate(name);
    }

    /** Listeners, if they are to be registered, then the swap, then the activation. */
    method TakeOver(name: string, listeners: Listeners, env: LaunchEnv) returns (live: bool, newPid: int)
      requires Valid() && P.Pid(mgr.State(), name) == env.pid
      requires listeners.Reregister? ==> X.IsOrderOf(env.bind.order, listeners.ports)
      modifies mgr, reg, prx
      ensures Valid() && (Now(), live) == ServiceSpec.TakeOver(old(Now()), name, listeners, env)
      ensures live ==> newPid == env.pid
    {
      hide P.StopWith, P.Pid, X.Register, X.SwapPorts, Activated;
      var swapped := true;
      if listeners.Reregister? {
        swapped := prx.RegisterPorts(name, listeners.ports, listeners.bind, env.bind);
      }
      if swapped {
        swapped := prx.SwapPorts(name, env.ports);
      }
      if !swapped {
        var _ := mgr.Stop(name, P.FAILED_CODE);
        return false, 0;
      }
      live, newPid := ActivateCandidate(name, env);
    }

    /** Deploy from the detachment of the old process on: every failure puts process, record and routes
        back. */
    method DeployBinary(name: string, svc: R.Service, previous: Option<R.Service>, deployedAt: int, env: LaunchEnv) returns (ok: bool)
      requires Valid()
      requires X.IsOrderOf(env.bind.order, svc.stablePorts)
      requires previous.Some? ==> X.IsOrderOf(env.undo.order, previous.value.stablePorts)
      modifies this, reg, mgr, prx
      ensures Valid()
      ensures (Now(), ok) == Replace(old(Now()), name, previous, Reregister(svc.stablePorts, svc.bind), P.STOPPED_CODE, deployedAt, env)
    {
      hide P.Detach, P.Pid, Committed, Launch, ServiceSpec.TakeOver, ServiceSpec.RestoreFailedDeploy;
      var oldProc := mgr.Detach(name);
      var ready := LaunchCandidate(name, P.STOPPED_CODE, env);
      if !ready {
        RestoreFailedDeploy(name, previous, oldProc, env.undo);
        return false;
      }
      var live, newPid := TakeOver(name, Reregister(svc.stablePorts, svc.bind), env);
      if !live {
        RestoreFailedDeploy(name, previous, oldProc, env.undo);
        return false;
      }
      Commit(name, oldProc, newPid, deployedAt, env.now);
      return true;
    }

    /** Like Deploy, with the listeners and the record left as they are. */
    method RestartLocked(name: string, env: LaunchEnv) returns (ok: bool)
      requires Valid()
      requires name in reg.services ==> X.IsOrderOf(env.undo.order, reg.services[name].stablePorts)
      modifies this, reg, mgr, prx
      ensures Valid() && (Now(), ok) == ServiceSpec.RestartLocked(old(Now()), name, env)
    {
      hide P.Detach, P.Pid, Committed, Launch, ServiceSpec.TakeOver, ServiceSpec.RestoreFailedDeploy;
      var found := reg.Get(name);
      if found.None? { return false; }
      var previous := found.value;
      if previous.settings.kind != R.Binary { return true; }
      var oldProc := mgr.Detach(name);
      var ready := LaunchCandidate(name, P.FAILED_CODE, env);
      if !ready {
        RestoreFailedDeploy(name, Some(previous), oldProc, env.undo);
        return false;
      }
      var live, newPid := TakeOver(name, Keep, env);
      if !live {
        RestoreFailedDeploy(name, Some(previous), oldProc, env.undo);
        return false;
      }
      Commit(name, oldProc, newPid, 0, env.now);
      return true;
    }

    // ---- Stable ports ----

    method TryBind(name: string, portName: string, port: int, bind: string, env: AllocEnv) returns (ok: bool)
      modifies prx
      ensures (prx.State(), ok) == ServiceSpec.TryBind(old(prx.State()), name, portName, port, bind, env)
    {
      hide X.Register;
      var refused: set<string> := if (portName, port) in env.refused then {portName} else {};
      ok := prx.RegisterPorts(name, map[portName := port], bind, X.BindEnv(env.addressOk, [portName], refused));
    }

    /** The preferred port if it is free, else the first port of the range that can be bound. */
    method AllocateOnePort(name: string, portName: string, preferred: int, used: set<int>, bind: string, env: AllocEnv) returns (one: OnePort)
      modifies prx
      ensures (prx.State(), one) == AllocateOne(old(prx.State()), name, portName, preferred, used, bind, env)
    {
      hide ServiceSpec.TryBind;
      if preferred != 0 {
        if preferred in RESERVED_PORTS { return Refused(PortReserved); }
        if preferred !in used {
          var ok := TryBind(name, portName, preferred, bind, env);
          if ok { return Port(preferred); }
        }
      }
      var port := RANGE_START;
      ghost var start := prx.State();
      while port <= RANGE_END
        invariant port <= RANGE_END + 1
        invariant FirstFree(start, name, portName, RANGE_START, used, bind, env) == FirstFree(prx.State(), name, portName, port, used, bind, env)
      {
        if port !in used {
          var ok := TryBind(name, portName, port, bind, env);
          if ok { return Port(port); }
        }
        port := port + 1;
      }
      return Refused(NoneFree);
    }

    method AllocatePorts(name: string, preferred: map<string, int>, bind: string, env: AllocEnv) returns (got: Allocated)
      requires AllocOrders(reg.State(), name, preferred, env)
      modifies prx
      ensures (prx.State(), got) == ServiceSpec.AllocatePorts(old(Now()), name, preferred, bind, env)
    {
      hide AllocateOne, X.Register, X.RemovePorts, R.UsedPorts;
      var existing := reg.Get(name);
      if existing.Some? && existing.value.stablePorts != map[] {
        var _ := prx.RegisterPorts(name, existing.value.stablePorts, existing.value.bind, env.existing);
        return Ports(existing.value.stablePorts);
      }
      var result: map<string, int> := map[];
      var used := reg.UsedPorts();
      ghost var start, taken := prx.State(), used;
      for i := 0 to |env.order|
        invariant AllocateLoop(start, name, preferred, taken, bind, env, 0, map[]) == AllocateLoop(prx.State(), name, preferred, used, bind, env, i, result)
      {
        var portName := env.order[i];
        var one := AllocateOnePort(name, portName, preferred[portName], used, bind, env);
        if one.Refused? {
          prx.RemovePorts(name);
          return Short(one.why);
        }
        result := result[portName := one.port];
        used := used + {one.port};
      }
      return Ports(result);
    }

    // ---- Operations ----

    method RestorePrevious(name: string, previous: Option<R.Service>, now: int)
      requires Valid()
      modifies reg, prx
      ensures Valid() && Now() == ServiceSpec.RestorePrevious(old(Now()), name, previous, now)
    {
      hide X.UnswapPorts, R.UpdateStatus;
      if previous.None? {
        prx.UnswapPorts(name);
        var _ := reg.UpdateStatus(name, R.Failed, 0, now);
        return;
      }
      var record := previous.value;
      var current := reg.Get(name);
      if current.Some? {
        record := record.(lastStartedAt := current.value.lastStartedAt, startHistory := current.value.startHistory);
      }
      reg.Restore(record.(name := name));
      if record.status == R.Running && name !in mgr.procs && record.settings.kind == R.Binary {
        prx.UnswapPorts(name);
        var _ := reg.UpdateStatus(name, R.Failed, 0, now);
      }
    }

    method Deploy(req: Request, env: DeployEnv) returns (ok: bool)
      requires Valid() && DeployOrders(Now(), req, env)
      modifies this, reg, mgr, prx
      ensures Valid()
      ensures req.settings.kind == R.Binary ==> (Now(), ok) == ServiceSpec.Deploy(old(Now()), req, env)
      ensures req.settings.kind == R.Static ==> (Now(), ok) == ServiceSpec.DeployStatic(old(Now()), req, env)
    {
      hide AllocateLoop, Replace, X.Register, X.SwapStatic, ServiceSpec.RestorePrevious, ServiceSpec.RestoreFailedDeploy, R.UpdateStatus, R.UpdateLastDeployed;
      if !ValidServiceName(req.name) || !env.accepted { return false; }
      var previous := reg.Get(req.name);
      var got := AllocatePorts(req.name, Preferred(req), req.bind, env.alloc);
      if !got.Ports? { return false; }
      reg.Register(NewRecord(req, got.ports), env.launch.now);
      var svc := reg.services[req.name];
      assert svc.stablePorts == got.ports;
      if req.settings.kind == R.Binary {
        ok := DeployBinary(req.name, svc, previous, env.deployedAt, env.launch);
        return;
      }
      var bound := prx.RegisterPorts(req.name, svc.stablePorts, svc.bind, env.launch.bind);
      if !bound {
        RestorePrevious(req.name, previous, env.launch.now);
        return false;
      }
      var swapped := prx.SwapStatic(req.name, req.settings.path);
      if !swapped {
        RestoreFailedDeploy(req.name, previous, None, env.launch.undo);
        return false;
      }
      var _ := reg.UpdateStatus(req.name, R.Running, 0, env.launch.now);
      var _ := reg.UpdateLastDeployed(req.name, env.deployedAt, env.launch.now);
      return true;
    }

    method Restart(name: string, env: LaunchEnv) returns (ok: bool)
      requires Valid()
      requires name in reg.services ==> X.IsOrderOf(env.undo.order, reg.services[name].stablePorts)
      modifies this, reg, mgr, prx
      ensures Valid() && (Now(), ok) == ServiceSpec.Restart(old(Now()), name, env)
    {
      hide ServiceSpec.RestartLocked;
      if !ValidServiceName(name) { return false; }
      ok := RestartLocked(name, env);
    }

    method Rollback(name: string, env: LaunchEnv, deployedAt: int) returns (ok: bool)
      requires Valid() && RollbackOrders(Now(), name, env)
      modifies this, reg, mgr, prx
      ensures Valid() && (Now(), ok) == ServiceSpec.Rollback(old(Now()), name, env, deployedAt)
    {
      hide ServiceSpec.RestartLocked, X.Register, X.SwapStatic, R.UpdateStatus, R.UpdateLastDeployed, R.Register;
      var found := reg.Get(name);
      if found.None? || found.value.previous.None? { return false; }
      var current, prev := found.value, found.value.previous.value;
      var restored := R.Service(name, prev.settings, if prev.bind != "" then prev.bind else current.bind,
                                current.stablePorts, map[], R.Stopped, 0, current.deployedAt, 0, 0, 0, 0, false, [],
                                Some(R.TakeSnapshot(current)), 0, None);
      reg.Register(restored, env.now);
      assert reg.State() == StagedRollback(old(Now()), name, env.now);
      RolledBackPorts(old(Now()), name, env.now);
      var svc := reg.services[name];
      var bound := prx.RegisterPorts(name, svc.stablePorts, svc.bind, env.bind);
      if !bound { return false; }
      if svc.settings.kind == R.Static {
        var swapped := prx.SwapStatic(name, svc.settings.path);
        if !swapped { return false; }
        var _ := reg.UpdateStatus(name, R.Running, 0, env.now);
        var _ := reg.UpdateLastDeployed(name, deployedAt, env.now);
        return true;
      }
      var restarted := RestartLocked(name, env);
      if !restarted { return false; }
      var _ := reg.UpdateLastDeployed(name, deployedAt, env.now);
      return true;
    }

    static lemma RolledBackPorts(w: World, name: string, now: int)
      requires name in w.reg.services && w.reg.services[name].previous.Some?
      ensures var reg := StagedRollback(w, name, now);
              name in reg.services && reg.services[name].stablePorts == w.reg.services[name].stablePorts
    {
    }

    /** `stuck` is a process that survives SIGKILL. */
    method Stop(name: string, stuck: bool, now: int) returns (ok: bool)
      requires Valid()
      modifies reg, mgr, prx
      ensures Valid() && (Now(), ok) == ServiceSpec.Stop(old(Now()), name, stuck, now)
    {
      hide P.StopWith, X.UnswapPorts, R.UpdateStatus;
      var found := reg.Get(name);
      if found.None? { return false; }
      var stopped := mgr.Stop(name, P.STOPPED_CODE);
      if stopped && !stuck {
        var _ := reg.UpdateStatus(name, R.Stopped, 0, now);
      }
      prx.UnswapPorts(name);
      return stopped && !stuck;
    }

    method Remove(name: string)
      requires Valid()
      modifies reg, mgr, prx
      ensures Valid() && Now() == ServiceSpec.Remove(old(Now()), name)
    {
      hide P.StopWith, X.RemovePorts;
      var _ := mgr.Stop(name, P.STOPPED_CODE);
      prx.RemovePorts(name);
      reg.Remove(name);
    }

    method ReservePorts(name: string, preferred: map<string, int>, env: AllocEnv, now: int) returns (got: Allocated)
      requires Valid() && AllocOrders(reg.State(), name, preferred, env)
      modifies reg, prx
      ensures Valid() && (Now(), got) == Reserve(old(Now()), name, preferred, env, now)
    {
      hide ServiceSpec.AllocatePorts, R.Register;
      if !ValidServiceName(name) { return Short(NameRejected); }
      got := AllocatePorts(name, preferred, R.DEFAULT_BIND, env);
      if !got.Ports? { return; }
      var existing := reg.Get(name);
      if existing.None? {
        var settings := R.Settings("", R.Binary, "", "", [], "", "/health", "", [], 0, 0, "");
        reg.Register(NewRecord(Request(name, settings, "", 0, map[]), got.ports), now);
      }
    }

    method Archive(name: string, now: int) returns (ok: bool)
      requires Valid()
      modifies reg
      ensures Valid() && (Now(), ok) == ServiceSpec.Archive(old(Now()), name, now)
    {
      ok := reg.Archive(name, now);
    }

    method RestoreArchived(name: string, now: int) returns (ok: bool)
      requires Valid()
      modifies reg
      ensures Valid() && (Now(), ok) == ServiceSpec.RestoreArchived(old(Now()), name, now)
    {
      ok := reg.RestoreArchived(name, now);
    }

    method Prune(name: string, now: int) returns (ok: bool)
      requires Valid()
      modifies reg, prx
      ensures Valid() && (Now(), ok) == ServiceSpec.Prune(old(Now()), name, now)
    {
      hide X.RemovePorts;
      var found := reg.Get(name);
      if found.None? || found.value.status != R.Archived { return false; }
      prx.RemovePorts(name);
      var tomb := reg.Prune(name, now);
      return tomb.Some?;
    }

    /** The candidate is stopped and the routes answer "unavailable". */
    method GiveUp(name: string, now: int)
      requires Valid()
      modifies reg, mgr, prx
      ensures Valid() && Now() == GivenUp(old(Now()), name, now)
    {
      hide P.StopWith, X.UnswapPorts, R.UpdateStatus;
      var _ := mgr.Stop(name, P.FAILED_CODE);
      prx.UnswapPorts(name);
      var _ := reg.UpdateStatus(name, R.Failed, 0, now);
    }

    method ReviveCandidate(name: string, env: LaunchEnv) returns (outcome: Revived)
      requires Valid()
      modifies this, reg, mgr, prx
      ensures Valid() && (Now(), outcome) == Revive(old(Now()), name, env)
    {
      hide P.Activate, P.Pid, GivenUp, ServiceSpec.CandidateMayExit, R.UpdateStatus, R.UpdateCrashState;
      CandidateMayExit(env, BeforePid);
      var pid := mgr.Pid(name);
      if pid == 0 {
        GiveUp(name, env.now);
        return RevivedNot;
      }
      var _ := reg.UpdateStatus(name, R.Running, pid, env.now);
      CandidateMayExit(env, BeforeActivate);
      var active := mgr.Activate(name);
      if !active {
        GiveUp(name, env.now);
        return RevivedNot;
      }
      crashAttempts := crashAttempts - {name};
      var _ := reg.UpdateCrashState(name, 0, false, env.now);
      return RevivedRunning;
    }

    /** The bind loop's turn for one service. */
    method BindListeners(name: string, env: X.BindEnv, now: int) returns (ok: bool)
      requires Valid() && name in reg.services && X.IsOrderOf(env.order, reg.services[name].stablePorts)
      modifies reg, prx
      ensures Valid() && (Now(), ok) == ServiceSpec.BindListeners(old(Now()), name, env, now)
    {
      hide X.Register, R.UpdateStatus;
      var svc := reg.services[name];
      if svc.stablePorts == map[] { return true; }
      ok := prx.RegisterPorts(name, svc.stablePorts, svc.bind, env);
      if !ok {
        var _ := reg.UpdateStatus(name, R.Failed, 0, now);
      }
    }

    /** restoreOne: what a worker of RestoreAll does with one service. */
    method RestoreOne(name: string, env: RestoreEnv) returns (outcome: Revived)
      requires Valid() && name in reg.services
      modifies this, reg, mgr, prx
      ensures Valid() && (Now(), outcome) == ServiceSpec.RestoreOne(old(Now()), name, env)
    {
      hide P.StopWith, X.SwapPorts, X.SwapStatic, GivenUp, Revive, ServiceSpec.StartCandidate, ServiceSpec.CandidateMayExit, R.UpdateStatus;
      var svc, now := reg.services[name], env.launch.now;
      if svc.settings.kind == R.Static {
        var swapped := prx.SwapStatic(name, svc.settings.path);
        if !swapped {
          var _ := reg.UpdateStatus(name, R.Failed, 0, now);
          return RevivedNot;
        }
        var _ := reg.UpdateStatus(name, R.Running, 0, now);
        return RevivedStatic;
      }
      if env.binary == Missing {
        var _ := reg.UpdateStatus(name, R.Orphaned, 0, now);
        return RevivedOrphaned;
      }
      if env.binary == Unreadable {
        var _ := reg.UpdateStatus(name, R.Failed, 0, now);
        return RevivedNot;
      }
      var started := StartCandidate(name, env.launch);
      if !started {
        var _ := reg.UpdateStatus(name, R.Failed, 0, now);
        return RevivedNot;
      }
      if env.cancelled {
        var _ := mgr.Stop(name, P.FAILED_CODE);
        var _ := reg.UpdateStatus(name, R.Failed, 0, now);
        return RevivedNot;
      }
      CandidateMayExit(env.launch, BeforeHealth);
      if !env.launch.healthy {
        GiveUp(name, now);
        return RevivedNot;
      }
      var swapped := prx.SwapPorts(name, env.launch.ports);
      if !swapped {
        GiveUp(name, now);
        return RevivedNot;
      }
      outcome := ReviveCandidate(name, env.launch);
    }

    /** The goroutine that waited out the drain window of a replaced process. */
    method FinishDrain(i: nat)
      requires Valid()
      modifies this, mgr
      ensures Valid() && Now() == ServiceSpec.FinishDrain(old(Now()), i)
    {
      if i < |drains| {
        mgr.Drain(drains[i]);
        drains := drains[..i] + drains[i + 1..];
      }
    }
  }
}
