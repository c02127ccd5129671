/** The start history of every service over every run: the last ten entries of the log of exactly the
    starts and exits of its processes, a log that is never trimmed. */
module Histories {
  import opened Options
  import R = RegistrySpec
  import opened RP = RegistryProofs
  import P = ProcessSpec
  import opened RT = ReplaceProcess
  import X = ProxySpec
  import opened ServiceSpec
  import opened HotSwap
  import opened Coupling
  import opened Operations
  import opened Routes
  import opened StablePorts
  import opened Startup
  import opened Names

  function Hist(r: R.Registry, n: string): seq<R.StartEvent> {
    if n in r.services then r.services[n].startHistory else []
  }

  // ---- What happens to the processes of a service ----

  ghost function RestartEvents(w: World, name: string, env: LaunchEnv): seq<HistoryOp>
    requires name in w.reg.services ==> X.IsOrderOf(env.undo.order, w.reg.services[name].stablePorts)
  {
    if name in w.reg.services && w.reg.services[name].settings.kind == R.Binary then ReplaceEvents(w.prx, name, Keep, env) else []
  }

  ghost function RollbackEvents(w: World, name: string, env: LaunchEnv): seq<HistoryOp>
    requires RollbackOk(w, name, env)
  {
    if RollbackRestarting(w, name, env) then RestartEvents(RolledWorld(w, name, env), name, env) else []
  }

  /** An exit is recorded for the service its watcher was started for, with the code the watcher settles
      on. */
  ghost function ExitEvents(w: World, pid: int, code: int, duration: int, n: string): seq<HistoryOp> {
    if pid in w.mgr.watchers && w.mgr.watchers[pid].phase == P.Alive && w.mgr.watchers[pid].name == n
    then [Ended(w.mgr.watchers[pid].startedAt, P.Classify(w.mgr, pid, code).code, duration)]
    else []
  }

  /** The starts and exits of processes of `n` that happen in one operation: the start of a candidate
      exactly if it is spawned, and an exit exactly if a watcher observes it. */
  ghost function EventsOf(w: World, op: Op, n: string): seq<HistoryOp>
    requires OpOk(w, op)
  {
    match op
    case OpDeploy(req, env) => if req.name == n then DeployEvents(w, req, env) else []
    case OpRestart(name, env) => if name == n && ValidServiceName(n) then RestartEvents(w, n, env) else []
    case OpRollback(name, env, _) => if name == n then RollbackEvents(w, n, env) else []
    case OpRestoreOne(name, env) => if name == n then RestoreEvents(w, n, env) else []
    case OpExit(pid, code, duration, _) => ExitEvents(w, pid, code, duration, n)
    case _ => []
  }

  // ---- Operations ----

  lemma ReplaceRecords(w: World, name: string, previous: Option<R.Service>, listeners: Listeners, verifyCode: int, deployedAt: int, env: LaunchEnv)
    requires ReplaceReady(w, name, previous, listeners, verifyCode, env)
    ensures var v := Replace(w, name, previous, listeners, verifyCode, deployedAt, env).0;
            name in v.reg.services ==>
              v.reg.services[name].startHistory == BoundedRun(w.reg.services[name].startHistory, ReplaceEvents(w.prx, name, listeners, env))
  {
    hide Replace, Steady, Elsewhere, RegElsewhere, FreshPid, LaunchWorks, TakeOverWorks, PutBack, Bounded, BoundedRun, SameConfig, Events, ReplaceEvents;
    ReplaceProcesses(w, name, previous, listeners, verifyCode, deployedAt, env);
    EventsRun(w.reg.services[name].startHistory, env);
  }

  lemma StagedHistory(w: World, req: Request, env: DeployEnv)
    requires WorldOk(w) && DeployOrders(w, req, env) && ValidServiceName(req.name)
    requires AllocatePorts(w, req.name, Preferred(req), req.bind, env.alloc).1.Ports?
    ensures StagedRecord(w, req, env).startHistory == Hist(w.reg, req.name)
  {
    hide WorldOk, AllocatePorts;
  }

  lemma DeployRecords(w: World, req: Request, env: DeployEnv)
    requires WorldOk(w) && DeployOk(w, req, env)
    ensures var v := Deploy(w, req, env).0;
            req.name in v.reg.services ==> Hist(v.reg, req.name) == BoundedRun(Hist(w.reg, req.name), DeployEvents(w, req, env))
  {
    hide WorldOk, Replace, AllocatePorts, WorldElsewhere, ReplaceReady, ReplaceCoupled, FreshPid, StagedRecord, ReplaceEvents;
    if ValidServiceName(req.name) && env.accepted && AllocatePorts(w, req.name, Preferred(req), req.bind, env.alloc).1.Ports? {
      DeployUnfolds(w, req, env);
      DeployReady(w, req, env);
      StagedHistory(w, req, env);
      var s := StagedRecord(w, req, env);
      ReplaceRecords(AtReplace(w, req, env), req.name, R.Get(w.reg, req.name), Reregister(s.stablePorts, s.bind), P.STOPPED_CODE, env.deployedAt, env.launch);
    }
  }

  lemma StaticEndHistory(u: World, req: Request, env: DeployEnv, previous: Option<R.Service>, bound: bool)
    requires req.name in u.reg.services
    requires previous.Some? ==> X.IsOrderOf(env.launch.undo.order, previous.value.stablePorts)
    ensures var v := StaticEnd(u, req, env, previous, bound);
            req.name in v.reg.services ==> v.reg.services[req.name].startHistory == u.reg.services[req.name].startHistory
  {
    hide X.SwapStatic, X.UnswapPorts, X.RemovePorts, UndoRoutes;
  }

  lemma DeployStaticRecords(w: World, req: Request, env: DeployEnv)
    requires WorldOk(w) && DeployStaticOk(w, req, env)
    ensures var v := DeployStatic(w, req, env).0;
            req.name in v.reg.services ==> Hist(v.reg, req.name) == Hist(w.reg, req.name)
  {
    hide WorldOk, AllocatePorts, StagedRecord, X.Register, X.SwapStatic, StaticEnd, RestorePrevious, RestoreFailedDeploy;
    if ValidServiceName(req.name) && env.accepted && AllocatePorts(w, req.name, Preferred(req), req.bind, env.alloc).1.Ports? {
      StaticUnfolds(w, req, env);
      StagedHistory(w, req, env);
      var s := StagedRecord(w, req, env);
      StaticRecord(w, req, env);
      StaticEndHistory(StaticAtBind(w, req, env), req, env, R.Get(w.reg, req.name), X.Register(AtReplace(w, req, env).prx, req.name, s.stablePorts, s.bind, env.launch.bind).1);
    }
  }

  lemma RestartRecords(w: World, name: string, env: LaunchEnv)
    requires WorldOk(w) && RestartOk(w, name, env)
    ensures var v := RestartLocked(w, name, env).0;
            name in v.reg.services ==> Hist(v.reg, name) == BoundedRun(Hist(w.reg, name), RestartEvents(w, name, env))
  {
    hide WorldOk, Replace, ReplaceReady, ReplaceCoupled, FreshPid, PortsDiffer, ReplaceEvents;
    if name in w.reg.services && w.reg.services[name].settings.kind == R.Binary {
      RestartReady(w, name, env);
      ReplaceRecords(w, name, Some(w.reg.services[name]), Keep, P.FAILED_CODE, 0, env);
    }
  }

  lemma RollbackRecords(w: World, name: string, env: LaunchEnv, deployedAt: int)
    requires WorldOk(w) && RollbackOk(w, name, env)
    ensures var v := Rollback(w, name, env, deployedAt).0;
            name in v.reg.services ==> Hist(v.reg, name) == BoundedRun(Hist(w.reg, name), RollbackEvents(w, name, env))
  {
    hide WorldOk, X.Register, StagedRollback, RestartLocked, X.SwapStatic, FreshPid, Settles, PortsDiffer, ReplaceEvents, RestartEvents, Bounded, BoundedRun, R.UpdateStatus, R.UpdateLastDeployed, RecordSane, InternalNames, Hist;
    assert BoundedRun(Hist(w.reg, name), []) == Hist(w.reg, name) by { NoEvent(Hist(w.reg, name)); }
    if name in w.reg.services && w.reg.services[name].previous.Some? {
      var u := RolledWorld(w, name, env);
      RolledSettles(w, name, env);
      RollbackStages(w, name, env);
      SettledIsOk(w, u, name);
      if u.reg.services[name].settings.kind == R.Binary {
        RestartRecords(u, name, env);
        DeployedHist(RestartLocked(u, name, env).0.reg, name, deployedAt, env.now);
      }
      SameHist(w.reg, u.reg, name);
      StatusHist(u.reg, name, R.Running, 0, 0, false, env.now, name);
      DeployedHist(R.UpdateStatus(u.reg, name, R.Running, 0, env.now).0, name, deployedAt, env.now);
    }
  }

  lemma NoEvent(h: seq<R.StartEvent>)
    ensures BoundedRun(h, []) == h
  {
  }

  lemma SameHist(r: R.Registry, q: R.Registry, n: string)
    requires n in r.services && n in q.services && q.services[n].startHistory == r.services[n].startHistory
    ensures Hist(r, n) == Hist(q, n)
  {
  }

  lemma DeployedHist(r: R.Registry, name: string, deployedAt: int, now: int)
    ensures Hist(R.UpdateLastDeployed(r, name, deployedAt, now).0, name) == Hist(r, name)
    ensures name in R.UpdateLastDeployed(r, name, deployedAt, now).0.services <==> name in r.services
  {
  }

  lemma RestoreOneRecords(w: World, name: string, env: RestoreEnv)
    requires WorldOk(w) && RestoreOk(w, name, env)
    ensures Hist(RestoreOne(w, name, env).0.reg, name) == BoundedRun(Hist(w.reg, name), RestoreEvents(w, name, env))
  {
    hide RestoreOne, X.SwapPorts, X.SwapStatic, X.UnswapPorts, FreshPid, Called, RevivalWorks, BoundedRun, RestoreEvents, Steady, RoutesOk, Gone, Up, SameConfig;
    RestoreOneEnds(w, name, env);
  }

  lemma CompletionRecords(r: R.Registry, name: string, startedAt: int, code: int, duration: int, now: int, n: string)
    requires n in r.services
    ensures Hist(R.CompleteStart(r, name, startedAt, code, duration, now).0, n)
         == if n == name then Bounded(Hist(r, n), Ended(startedAt, code, duration)) else Hist(r, n)
  {
    if n == name {
      CompletedIsEnded(r.services[n].startHistory, startedAt, code, duration);
    }
  }

  lemma StatusHist(r: R.Registry, name: string, status: R.Status, pid: int, attempts: int, gaveUp: bool, now: int, n: string)
    ensures Hist(R.UpdateStatus(r, name, status, pid, now).0, n) == Hist(r, n)
    ensures Hist(R.UpdateCrashState(r, name, attempts, gaveUp, now).0, n) == Hist(r, n)
  {
  }

  lemma CrashHist(w: World, name: string, now: int, n: string)
    ensures Hist(HandleCrash(w, name, now).reg, n) == Hist(w.reg, n)
  {
    hide X.UnswapPorts, R.UpdateStatus, R.UpdateCrashState, Hist;
    var attempt := if name in w.attempts then w.attempts[name] else 0;
    StatusHist(w.reg, name, R.Failed, 0, attempt, true, now, n);
    StatusHist(R.UpdateCrashState(w.reg, name, attempt, true, now).0, name, R.Failed, 0, attempt, true, now, n);
    StatusHist(w.reg, name, R.Failed, 0, attempt + 1, false, now, n);
  }

  lemma ExitRecords(w: World, pid: int, code: int, duration: int, now: int, n: string)
    requires n in w.reg.services
    ensures Hist(ProcessExits(w, pid, code, duration, now).reg, n) == BoundedRun(Hist(w.reg, n), ExitEvents(w, pid, code, duration, n))
  {
    hide P.Observe, P.Die, P.Close, P.Classify, HandleCrash, R.UpdateStatus, R.CompleteStart, Hist, Bounded;
    if pid in w.mgr.watchers && w.mgr.watchers[pid].phase == P.Alive {
      var watcher := w.mgr.watchers[pid];
      var exit := P.Classify(w.mgr, pid, code).code;
      CompletionRecords(w.reg, watcher.name, watcher.startedAt, exit, duration, now, n);
      OneEvent(Hist(w.reg, n), Ended(watcher.startedAt, exit, duration));
      var v := Reap(w, pid, code, duration, now);
      StatusHist(v.reg, watcher.name, R.Failed, 0, 0, false, now, n);
      CrashHist(v.(reg := R.UpdateStatus(v.reg, watcher.name, R.Failed, 0, now).0), watcher.name, now, n);
    }
  }

  lemma OneEvent(h: seq<R.StartEvent>, e: HistoryOp)
    ensures BoundedRun(h, [e]) == Bounded(h, e)
  {
    hide Bounded;
    assert [e][1..] == [];
    assert BoundedRun(Bounded(h, e), []) == Bounded(h, e);
  }

  lemma SimpleHist(w: World, op: Op, n: string)
    requires WorldOk(w) && OpOk(w, op)
    requires op.OpStop? || op.OpRemove? || op.OpReserve? || op.OpArchive? || op.OpRestoreArchived? || op.OpPrune? || op.OpBind? || op.OpDrain?
    ensures n in Apply(w, op).reg.services ==> Hist(Apply(w, op).reg, n) == Hist(w.reg, n)
  {
    hide WorldOk, P.StopWith, P.Signal, X.UnswapPorts, X.RemovePorts, X.Register, AllocatePorts, ReserveOk;
  }

  lemma NoEvents(w: World, op: Op, n: string)
    requires OpOk(w, op) && n != Subject(w, op)
    ensures EventsOf(w, op, n) == []
  {
    hide DeployEvents, RestartEvents, RollbackEvents, RestoreEvents, OpOk;
  }

  /** One operation, any outcome, any service: its history records exactly the starts and exits of its own
      processes that happen in it, with their times and codes. */
  lemma ApplyRecords(w: World, op: Op, n: string)
    requires WorldOk(w) && OpOk(w, op) && n in Apply(w, op).reg.services
    ensures Hist(Apply(w, op).reg, n) == BoundedRun(Hist(w.reg, n), EventsOf(w, op, n))
  {
    hide WorldOk, Deploy, DeployStatic, RestartLocked, Rollback, Reserve, RestoreOne, ProcessExits, DeployOk, RestartOk, RollbackOk, ReserveOk, RestoreOk, RemoveOk, BindOk, DeployStaticOk, BindListeners, Settles, DeployEvents, RestartEvents, RollbackEvents, RestoreEvents, ExitEvents, Bounded;
    if n != Subject(w, op) {
      ApplyKeeps(w, op);
      OthersSame(w, Apply(w, op), Subject(w, op), n);
      NoEvents(w, op, n);
    } else {
      match op
      case OpDeploy(req, env) => DeployRecords(w, req, env);
      case OpDeployStatic(req, env) => DeployStaticRecords(w, req, env);
      case OpRestart(name, env) =>
        if ValidServiceName(name) {
          RestartRecords(w, name, env);
        }
      case OpRollback(name, env, t) => RollbackRecords(w, name, env, t);
      case OpRestoreOne(name, env) => RestoreOneRecords(w, name, env);
      case OpExit(pid, code, duration, now) =>
        ExitPorts(w, pid, code, duration, now, n);
        ExitRecords(w, pid, code, duration, now, n);
      case _ => SimpleHist(w, op, n);
    }
  }

  // ---- Runs ----

  /** The log of all starts and exits of a service since it was last registered. */
  ghost function LogAfter(w: World, ops: seq<Op>, n: string, log: seq<R.StartEvent>): seq<R.StartEvent>
    requires RunOk(w, ops)
    decreases |ops|
  {
    if ops == [] then log
    else LogAfter(Apply(w, ops[0]), ops[1..], n, LogNow(w, ops[0], n, log))
  }

  ghost function LogNow(w: World, op: Op, n: string, log: seq<R.StartEvent>): seq<R.StartEvent>
    requires OpOk(w, op)
  {
    if n in Apply(w, op).reg.services then UnboundedRun(log, EventsOf(w, op, n)) else []
  }

  /** Over every run of all operations: the stored history of a service is the last ten entries of the log
      of exactly the starts and exits of its processes since it was registered - however often
      configurations were staged, failed deployments undone, and rollbacks made in between. */
  lemma {:induction false} HistoriesAreWindows(w: World, ops: seq<Op>, n: string, log: seq<R.StartEvent>)
    requires WorldOk(w) && RunOk(w, ops) && Hist(w.reg, n) == LastTen(log)
    ensures Hist(RunAll(w, ops).reg, n) == LastTen(LogAfter(w, ops, n, log))
    decreases |ops|
  {
    hide WorldOk, OpOk, Apply, Settles, Subject, EventsOf, Bounded, Unbounded, BoundedRun, UnboundedRun;
    if ops != [] {
      var v := Apply(w, ops[0]);
      ApplyKeeps(w, ops[0]);
      SettledIsOk(w, v, Subject(w, ops[0]));
      if n in v.reg.services {
        ApplyRecords(w, ops[0], n);
        HistoryIsWindow(log, EventsOf(w, ops[0], n));
      }
      HistoriesAreWindows(v, ops[1..], n, LogNow(w, ops[0], n, log));
    }
  }

  ghost function EventsAll(w: World, ops: seq<Op>, n: string): seq<HistoryOp>
    requires RunOk(w, ops)
    decreases |ops|
  {
    if ops == [] then [] else EventsOf(w, ops[0], n) + EventsAll(Apply(w, ops[0]), ops[1..], n)
  }

  lemma {:induction false} UnboundedRunJoins(log: seq<R.StartEvent>, a: seq<HistoryOp>, b: seq<HistoryOp>)
    ensures UnboundedRun(log, a + b) == UnboundedRun(UnboundedRun(log, a), b)
    decreases |a|
  {
    if a == [] {
      assert a + b == b;
    } else {
      assert (a + b)[1..] == a[1..] + b;
      UnboundedRunJoins(Unbounded(log, a[0]), a[1..], b);
    }
  }

  /** A service that is neither removed nor pruned in the run is registered throughout. */
  lemma {:induction false} WholeLog(w: World, ops: seq<Op>, n: string, log: seq<R.StartEvent>)
    requires WorldOk(w) && RunOk(w, ops) && n in w.reg.services
    requires forall i | 0 <= i < |ops| :: !Releases(ops[i], n)
    ensures n in RunAll(w, ops).reg.services
    ensures LogAfter(w, ops, n, log) == UnboundedRun(log, EventsAll(w, ops, n))
    decreases |ops|
  {
    hide WorldOk, OpOk, Apply, Settles, Subject, EventsOf, Unbounded, Releases, PortsStep;
    if ops != [] {
      var v := Apply(w, ops[0]);
      ApplyKeeps(w, ops[0]);
      SettledIsOk(w, v, Subject(w, ops[0]));
      ApplyPorts(w, ops[0], n);
      assert forall i | 0 <= i < |ops| - 1 :: ops[1..][i] == ops[i + 1];
      WholeLog(v, ops[1..], n, UnboundedRun(log, EventsOf(w, ops[0], n)));
      UnboundedRunJoins(log, EventsOf(w, ops[0], n), EventsAll(v, ops[1..], n));
    }
  }

  /** So as long as a service is not released, its history is the last ten entries of the log that every
      start and exit of its processes went into. */
  lemma HistoryOfRun(w: World, ops: seq<Op>, n: string, log: seq<R.StartEvent>)
    requires WorldOk(w) && RunOk(w, ops) && n in w.reg.services && Hist(w.reg, n) == LastTen(log)
    requires forall i | 0 <= i < |ops| :: !Releases(ops[i], n)
    ensures Hist(RunAll(w, ops).reg, n) == LastTen(UnboundedRun(log, EventsAll(w, ops, n)))
  {
    hide WorldOk, RunOk, RunAll, LogAfter, UnboundedRun, EventsAll, Hist, Releases;
    HistoriesAreWindows(w, ops, n, log);
    WholeLog(w, ops, n, log);
  }
}
