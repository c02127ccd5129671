/** What a caller of Deploy, Restart and Rollback can rely on. */
module Deployments {
  import opened Options
  import opened Names
  import R = RegistrySpec
  import RP = RegistryProofs
  import P = ProcessSpec
  import PP = ProcessProofs
  import opened RT = ReplaceProcess
  import X = ProxySpec
  import XP = ProxyProofs
  import opened ServiceSpec
  import opened HotSwap
  import opened Coupling
  import opened Operations
  import opened Routes

  lemma PutBackSelf(w: World, name: string)
    requires Steady(w.mgr)
    ensures PutBack(w, w, name, [])
  {
    assert PP.TableLive(w.mgr);
  }

  lemma RecordBackSelf(w: World, name: string, env: LaunchEnv)
    requires name in w.reg.services && w.reg.services[name].name == name
    ensures RecordBack(w.reg.services[name], Some(w.reg.services[name]), w.reg, name, env, [])
  {
  }

  /** A failed deployment of a registered service: the record is the old one but for the candidate's start
      and exit in its history and the last start time; the old process, if there was one, is tracked again with its PID and ports
      and has not been signalled; nothing is scheduled to be drained. */
  lemma FailedDeployRestores(w: World, req: Request, env: DeployEnv)
    requires WorldOk(w) && DeployOk(w, req, env) && req.name in w.reg.services
    requires !Deploy(w, req, env).1
    ensures var v := Deploy(w, req, env).0;
            && PutBack(w, v, req.name, Signalled(env.launch, DeployEvents(w, req, env)))
            && RecordBack(w.reg.services[req.name], Some(w.reg.services[req.name]), v.reg, req.name, env.launch, DeployEvents(w, req, env))
            && RegElsewhere(w.reg, v.reg, req.name) && Elsewhere(w.mgr, v.mgr, req.name)
  {
    hide RoutesOk, Steady, Replace, AllocatePorts, AtReplace, ReplaceReady, RegElsewhere, Elsewhere, PutBack, PP.Intended, RecordSane, AllListening, FreshPid, RP.BoundedRun;
    var rec := w.reg.services[req.name];
    RecordIsColonFree(w.reg, req.name);
    if ValidServiceName(req.name) && env.accepted {
      if !AllocatePorts(w, req.name, Preferred(req), req.bind, env.alloc).1.Ports? {
        UnallocatedRestores(w, req, env);
        return;
      }
      DeployUnfolds(w, req, env);
      DeployReady(w, req, env);
      StagedFacts(w, req, env);
      var u, s := AtReplace(w, req, env), StagedRecord(w, req, env);
      AtReplaceParts(w, req, env);
      ReplaceProcesses(u, req.name, Some(rec), Reregister(s.stablePorts, s.bind), P.STOPPED_CODE, env.deployedAt, env.launch);
      var v := Deploy(w, req, env).0;
      RegElsewhereTransitive(w.reg, u.reg, v.reg, req.name);
      PutBackFrom(w, u, v, req.name, Signalled(env.launch, DeployEvents(w, req, env)));
    } else {
      PutBackSelf(w, req.name);
      RecordBackSelf(w, req.name, env.launch);
      ElsewhereReflexive(w.mgr, req.name);
      RegElsewhereReflexive(w.reg, req.name);
    }
  }

  lemma PutBackFrom(w: World, u: World, v: World, name: string, signalled: seq<int>)
    requires u.mgr == w.mgr && u.drains == w.drains && u.attempts == w.attempts
    ensures PutBack(u, v, name, signalled) <==> PutBack(w, v, name, signalled)
  {
  }

  /** No port could be allocated: only routes have been touched. */
  lemma UnallocatedRestores(w: World, req: Request, env: DeployEnv)
    requires WorldOk(w) && DeployOk(w, req, env) && req.name in w.reg.services
    requires ValidServiceName(req.name) && env.accepted && !AllocatePorts(w, req.name, Preferred(req), req.bind, env.alloc).1.Ports?
    ensures var v := Deploy(w, req, env).0;
            && PutBack(w, v, req.name, [])
            && RecordBack(w.reg.services[req.name], Some(w.reg.services[req.name]), v.reg, req.name, env.launch, [])
            && RegElsewhere(w.reg, v.reg, req.name) && Elsewhere(w.mgr, v.mgr, req.name)
  {
    hide RoutesOk, Steady, AllocatePorts, RegElsewhere, Elsewhere, PutBack, RecordBack, PP.Intended;
    RecordIsColonFree(w.reg, req.name);
    PutBackSelf(w, req.name);
    PutBackRoutes(w, w, w.(prx := AllocatePorts(w, req.name, Preferred(req), req.bind, env.alloc).0), req.name);
    RecordBackSelf(w, req.name, env.launch);
    ElsewhereReflexive(w.mgr, req.name);
    RegElsewhereReflexive(w.reg, req.name);
  }

  lemma PutBackRoutes(w: World, u: World, v: World, name: string)
    requires PutBack(w, u, name, []) && v.mgr == u.mgr && v.drains == u.drains && v.attempts == u.attempts
    ensures PutBack(w, v, name, [])
  {
  }

  /** The route after such a failure, if the old process was running and served: restored, unless the
      candidate had been swapped in, exited before it was activated, and the listeners could then not be
      registered as before - or the service has no stable ports and could not be given any. Every generation on the way was whole. */
  lemma FailedDeployRoutes(w: World, req: Request, env: DeployEnv)
    requires WorldOk(w) && DeployOk(w, req, env) && Running(w, req.name) && Routed(w, req.name)
    requires !Deploy(w, req, env).1
    ensures var v := Deploy(w, req, env).0;
            var ports := w.mgr.heap[w.mgr.procs[req.name]].ports;
            && OnlyWhole(w.prx, v.prx, req.name, ports, env.launch.ports)
            && (Serves(v.prx, req.name, ports) <==> !DeployLoses(w, req, env))
  {
    hide RoutesOk, Steady, Deploy, DeployLoses, PP.Intended, RecordSane, AllListening, FreshPid, WholeRoute, OnlyWhole, RecordBack, X.CurrentHandlers, DeployOk;
    assert Registered(w, req.name);
    FailedDeployRestores(w, req, env);
    DeployRoutes(w, req, env);
  }

  /** A failed deployment under a new name leaves nothing: no record, no process, no route, no listener. */
  lemma FailedDeployOfNewName(w: World, req: Request, env: DeployEnv)
    requires WorldOk(w) && DeployOk(w, req, env) && req.name !in w.reg.services
    requires ValidServiceName(req.name) && env.accepted && !Deploy(w, req, env).1
    ensures var v := Deploy(w, req, env).0;
            && req.name !in v.reg.services && req.name !in v.mgr.procs && req.name !in v.prx.routes
            && (forall k | k in v.prx.entries :: Owner(k) != req.name)
            && v.drains == w.drains
  {
    hide RoutesOk, Steady, Replace, AllocatePorts, AtReplace, ReplaceReady, RegElsewhere, Elsewhere, PP.Intended, RecordSane, AllListening, FreshPid, RP.BoundedRun, RoutesAtFailure, X.RemovePorts, UndoRoutes, NewRoutes, ReplaceCoupled, StagedRecord;
    assert req.name !in w.mgr.procs by {
      assert req.name in w.mgr.procs ==> Registered(w, req.name);
    }
    ValidNamesAreColonFree(req.name);
    AllocateStep(w, req.name, Preferred(req), req.bind, env.alloc);
    if AllocatePorts(w, req.name, Preferred(req), req.bind, env.alloc).1.Ports? {
      DeployUnfolds(w, req, env);
      DeployReady(w, req, env);
      AtReplaceParts(w, req, env);
      var u, s := AtReplace(w, req, env), StagedRecord(w, req, env);
      ReplaceProcesses(u, req.name, None, Reregister(s.stablePorts, s.bind), P.STOPPED_CODE, env.deployedAt, env.launch);
      FailedRouteStep(u, req.name, None, Reregister(s.stablePorts, s.bind), P.STOPPED_CODE, env.launch);
    }
  }

  /** A successful deployment: the candidate is tracked, registered and wholly routed, with the requested
      settings on the unchanged ports; the process it replaced is marked and scheduled for its drain, but
      has not been signalled; the configuration it replaced is what a rollback would restore. */
  lemma DeploySucceeds(w: World, req: Request, env: DeployEnv)
    requires WorldOk(w) && DeployOk(w, req, env) && Deploy(w, req, env).1
    ensures var v := Deploy(w, req, env).0;
            && req.name in v.reg.services && req.name in v.mgr.procs && v.mgr.procs[req.name] < |v.mgr.heap|
            && v.mgr.heap[v.mgr.procs[req.name]] == P.RunningProc(env.launch.pid, env.launch.ports, false, false)
            && v.mgr.signals == w.mgr.signals
            && (Running(w, req.name) ==>
                  var prior := w.mgr.heap[w.mgr.procs[req.name]].pid;
                  v.drains == w.drains + [prior] && PP.Intended(v.mgr, prior))
            && (var t := v.reg.services[req.name];
                && t.status == R.Running && t.pid == env.launch.pid && t.internalPorts == env.launch.ports
                && t.settings == req.settings && t.bind == X.NormalBind(req.bind)
                && t.lastStartedAt == env.launch.startedAt && t.crashAttempts == 0 && !t.gaveUp
                && (env.deployedAt != 0 ==> t.lastDeployedAt == env.deployedAt)
                && (req.name in w.reg.services ==>
                      && (w.reg.services[req.name].stablePorts != map[] ==> t.stablePorts == w.reg.services[req.name].stablePorts)
                      && t.previous == Some(R.TakeSnapshot(w.reg.services[req.name]))))
            && WholeRoute(X.CurrentHandlers(v.prx, req.name), env.launch.ports)
  {
    hide RoutesOk, Steady, Replace, AllocatePorts, AtReplace, ReplaceReady, RegElsewhere, Elsewhere, PP.Intended, RecordSane, AllListening, FreshPid, RP.BoundedRun, NewRoutes, ReplaceCoupled, StagedRecord, WholeRoute, X.CurrentHandlers, UndoRoutes, RoutesAtFailure, PutBack, RecordBack;
    DeployUnfolds(w, req, env);
    DeployReady(w, req, env);
    AtReplaceParts(w, req, env);
    StagedPrevious(w, req, env);
    var u, s := AtReplace(w, req, env), StagedRecord(w, req, env);
    ReplaceProcesses(u, req.name, R.Get(w.reg, req.name), Reregister(s.stablePorts, s.bind), P.STOPPED_CODE, env.deployedAt, env.launch);
    DeployKeeps(w, req, env);
  }

  lemma StagedPrevious(w: World, req: Request, env: DeployEnv)
    requires WorldOk(w) && DeployOk(w, req, env) && ValidServiceName(req.name)
    requires AllocatePorts(w, req.name, Preferred(req), req.bind, env.alloc).1.Ports?
    ensures var s := StagedRecord(w, req, env);
            && s.bind == X.NormalBind(req.bind)
            && s.settings == req.settings
            && (req.name in w.reg.services ==>
                  && (w.reg.services[req.name].stablePorts != map[] ==> s.stablePorts == w.reg.services[req.name].stablePorts)
                  && s.previous == Some(R.TakeSnapshot(w.reg.services[req.name])))
  {
    StagedFacts(w, req, env);
    hide RoutesOk, Steady, AllocatePorts, PP.Intended;
  }

  // ---- Rollback ----

  /** The snapshot fields of the record that Rollback stages. */
  lemma RolledRecord(w: World, name: string, env: LaunchEnv)
    requires WorldOk(w) && RollbackOrders(w, name, env) && name in w.reg.services && w.reg.services[name].previous.Some?
    ensures var s := w.reg.services[name];
            var reg := StagedRollback(w, name, env.now);
            var prev := s.previous.value;
            && name in reg.services
            && R.TakeSnapshot(reg.services[name]) == R.Snapshot(prev.settings, if prev.bind != "" then prev.bind else s.bind, s.stablePorts, s.deployedAt)
            && reg.services[name].previous == Some(R.TakeSnapshot(s))
  {
    hide Steady, RoutesOk, PP.Intended;
    assert RecordSane(w.reg.services[name], name);
  }

  /** A restart changes nothing a snapshot captures, whether it succeeds or not. */
  lemma RestartKeepsConfig(w: World, name: string, env: LaunchEnv)
    requires WorldOk(w) && RestartOk(w, name, env) && name in w.reg.services
    ensures var v := RestartLocked(w, name, env).0;
            && name in v.reg.services
            && R.TakeSnapshot(v.reg.services[name]) == R.TakeSnapshot(w.reg.services[name])
            && v.reg.services[name].previous == w.reg.services[name].previous
  {
    hide WorldOk, Replace, ReplaceReady, Steady, RoutesOk, FreshPid, PP.Intended, NewRoutes, RoutesAtFailure, UndoRoutes, PutBack, RP.BoundedRun, RP.Bounded;
    if w.reg.services[name].settings.kind == R.Binary {
      RestartReady(w, name, env);
      ReplaceProcesses(w, name, Some(w.reg.services[name]), Keep, P.FAILED_CODE, 0, env);
    }
  }

  /** A rollback that goes through puts the previous configuration in force, on the same ports, and keeps
      what it replaced for the next one. */
  lemma RollbackRestores(w: World, name: string, env: LaunchEnv, deployedAt: int)
    requires WorldOk(w) && RollbackOk(w, name, env) && Rollback(w, name, env, deployedAt).1
    ensures var v := Rollback(w, name, env, deployedAt).0;
            && name in w.reg.services && w.reg.services[name].previous.Some? && name in v.reg.services
            && var s, t, prev := w.reg.services[name], v.reg.services[name], w.reg.services[name].previous.value;
               && t.previous == Some(R.TakeSnapshot(s))
               && R.TakeSnapshot(t) == R.Snapshot(prev.settings, if prev.bind != "" then prev.bind else s.bind, s.stablePorts, s.deployedAt)
  {
    hide WorldOk, Steady, RoutesOk, X.Register, StagedRollback, RestartLocked, X.SwapStatic, FreshPid, PP.Intended, Settles, RestartOk;
    var u := RolledWorld(w, name, env);
    RolledRecord(w, name, env);
    RolledSettles(w, name, env);
    SettledIsOk(w, u, name);
    if u.reg.services[name].settings.kind == R.Binary {
      RestartKeepsConfig(u, name, env);
    }
  }

  /** Rolling back twice is the identity on everything a snapshot captures; the previous deployment comes
      back too, exactly if the snapshot named an address and agreed with the record on ports and deploy
      time. */
  lemma RollbackTwiceRestores(w: World, name: string, env1: LaunchEnv, t1: int, env2: LaunchEnv, t2: int)
    requires WorldOk(w) && RollbackOk(w, name, env1) && Rollback(w, name, env1, t1).1
    requires RollbackOk(Rollback(w, name, env1, t1).0, name, env2)
    requires Rollback(Rollback(w, name, env1, t1).0, name, env2, t2).1
    ensures var x := Rollback(Rollback(w, name, env1, t1).0, name, env2, t2).0;
            && name in w.reg.services && name in x.reg.services
            && R.TakeSnapshot(x.reg.services[name]) == R.TakeSnapshot(w.reg.services[name])
            && (x.reg.services[name].previous == w.reg.services[name].previous <==> RP.SnapshotCurrent(w.reg.services[name]))
  {
    hide Steady, RoutesOk, PP.Intended, Rollback, Settles;
    var v := Rollback(w, name, env1, t1).0;
    RollbackRestores(w, name, env1, t1);
    RollbackKeeps(w, name, env1, t1);
    SettledIsOk(w, v, name);
    assert RecordSane(w.reg.services[name], name);
    RollbackRestores(v, name, env2, t2);
  }

  /** Deploy over a registered service, then roll back: the configuration from before the deployment. */
  lemma DeployThenRollback(w: World, req: Request, env: DeployEnv, undo: LaunchEnv, t: int)
    requires WorldOk(w) && DeployOk(w, req, env) && Deploy(w, req, env).1 && req.name in w.reg.services
    requires RollbackOk(Deploy(w, req, env).0, req.name, undo)
    requires Rollback(Deploy(w, req, env).0, req.name, undo, t).1
    ensures var s, x := w.reg.services[req.name], Rollback(Deploy(w, req, env).0, req.name, undo, t).0;
            && req.name in x.reg.services
            && x.reg.services[req.name].settings == s.settings
            && x.reg.services[req.name].bind == s.bind
            && (s.stablePorts != map[] ==> x.reg.services[req.name].stablePorts == s.stablePorts)
  {
    hide Steady, RoutesOk, PP.Intended, Rollback, Deploy, Settles, WholeRoute;
    var v := Deploy(w, req, env).0;
    DeploySucceeds(w, req, env);
    DeployKeeps(w, req, env);
    SettledIsOk(w, v, req.name);
    assert RecordSane(w.reg.services[req.name], req.name);
    RollbackRestores(v, req.name, undo, t);
  }

  /** A rollback that fails half way is not undone in the registry: once its restart has failed, the
      record holds the rolled-back configuration, and the snapshot to return from it. */
  lemma FailedRollbackStaysStaged(w: World, name: string, env: LaunchEnv, deployedAt: int)
    requires WorldOk(w) && RollbackOk(w, name, env) && !Rollback(w, name, env, deployedAt).1
    requires name in w.reg.services && w.reg.services[name].previous.Some?
    ensures var s, v := w.reg.services[name], Rollback(w, name, env, deployedAt).0;
            && name in v.reg.services
            && v.reg.services[name].settings == s.previous.value.settings
            && v.reg.services[name].stablePorts == s.stablePorts
            && v.reg.services[name].previous == Some(R.TakeSnapshot(s))
  {
    hide WorldOk, Steady, RoutesOk, X.Register, StagedRollback, RestartLocked, X.SwapStatic, FreshPid, PP.Intended, Settles, RestartOk;
    var u := RolledWorld(w, name, env);
    RolledRecord(w, name, env);
    RolledSettles(w, name, env);
    SettledIsOk(w, u, name);
    if u.reg.services[name].settings.kind == R.Binary {
      RestartKeepsConfig(u, name, env);
    }
  }

  // ---- Static services ----

  /** A directory that is deployed is served on the default port; other ports keep their handlers, and no
      process table entry changes. */
  lemma StaticDeploySucceeds(w: World, req: Request, env: DeployEnv)
    requires WorldOk(w) && DeployOrders(w, req, env) && DeployStatic(w, req, env).1
    ensures var v := DeployStatic(w, req, env).0;
            && v.mgr == w.mgr
            && req.name in v.reg.services
            && v.reg.services[req.name].status == R.Running && v.reg.services[req.name].pid == 0
            && v.reg.services[req.name].settings == req.settings
            && "default" in X.CurrentHandlers(v.prx, req.name)
            && X.CurrentHandlers(v.prx, req.name)["default"] == X.Files(req.settings.path)
  {
    hide WorldOk, AllocatePorts, X.Register, X.SwapStatic, StagedRecord, RestorePrevious, RestoreFailedDeploy, X.CurrentHandlers;
    assert ValidServiceName(req.name) && env.accepted && AllocatePorts(w, req.name, Preferred(req), req.bind, env.alloc).1.Ports?;
    StaticUnfolds(w, req, env);
    StagedFacts(w, req, env);
    ValidNamesAreColonFree(req.name);
    var u := StaticAtBind(w, req, env);
    StaticRoutesOk(w, req, env);
    XP.SwapStaticKeeps(u.prx, req.name, req.settings.path);
  }

  lemma StaticRoutesOk(w: World, req: Request, env: DeployEnv)
    requires WorldOk(w) && DeployOrders(w, req, env) && ValidServiceName(req.name)
    requires AllocatePorts(w, req.name, Preferred(req), req.bind, env.alloc).1.Ports?
    requires X.IsOrderOf(env.launch.bind.order, StagedRecord(w, req, env).stablePorts)
    ensures RoutesOk(StaticAtBind(w, req, env).prx)
  {
    hide RoutesOk, X.Register, AllocatePorts, R.Staged, Steady, PrxElsewhere, X.CurrentHandlers, AllListening;
    ValidNamesAreColonFree(req.name);
    AllocateStep(w, req.name, Preferred(req), req.bind, env.alloc);
    var s, u := StagedRecord(w, req, env), AtReplace(w, req, env);
    RegisterStep(u.prx, req.name, s.stablePorts, s.bind, env.launch.bind);
  }

  /** Deploying a directory over a service whose process runs leaves that process tracked, while the
      registry says "running" without its PID: why the invariant is about services without one. */
  lemma StaticDeployBreaks(w: World, req: Request, env: DeployEnv)
    requires WorldOk(w) && DeployOrders(w, req, env) && req.settings.kind == R.Static && req.name in w.mgr.procs
    requires DeployStatic(w, req, env).1
    ensures req.name in DeployStatic(w, req, env).0.mgr.procs && !Registered(DeployStatic(w, req, env).0, req.name)
  {
    hide WorldOk, AllocatePorts, DeployStatic;
    StaticDeploySucceeds(w, req, env);
  }

  /** A static deployment keeps the invariant, if and only if it is not one that succeeds over a process
      that runs; one that fails there leaves the process, its record and its listeners agreeing. */
  lemma DeployStaticKeepsExactly(w: World, req: Request, env: DeployEnv)
    requires WorldOk(w) && DeployOrders(w, req, env) && req.settings.kind == R.Static
    ensures Settles(w, DeployStatic(w, req, env).0, req.name) <==> !(req.name in w.mgr.procs && DeployStatic(w, req, env).1)
  {
    hide WorldOk, Settles, DeployStatic, DeployOrders;
    if req.name in w.mgr.procs && DeployStatic(w, req, env).1 {
      StaticDeployBreaks(w, req, env);
      UnregisteredIsUnsettled(w, DeployStatic(w, req, env).0, req.name);
    } else {
      DeployStaticKeeps(w, req, env);
    }
  }

  lemma UnregisteredIsUnsettled(w: World, v: World, name: string)
    requires name in v.mgr.procs && !Registered(v, name)
    ensures !Settles(w, v, name)
  {
    hide Steady, RoutesOk, PP.Intended;
  }

  /** A static deployment under a new name that fails takes its record back, unless what failed was the
      second registration of its listeners: then the record stays, marked failed, with its ports. */
  lemma FailedStaticDeployOfNewName(w: World, req: Request, env: DeployEnv)
    requires WorldOk(w) && DeployOrders(w, req, env) && req.name !in w.reg.services
    requires ValidServiceName(req.name) && env.accepted && !DeployStatic(w, req, env).1
    requires AllocatePorts(w, req.name, Preferred(req), req.bind, env.alloc).1.Ports?
    ensures var v := DeployStatic(w, req, env).0;
            var s := StagedRecord(w, req, env);
            && X.IsOrderOf(env.launch.bind.order, s.stablePorts)
            && (req.name in v.reg.services <==> !X.Register(AtReplace(w, req, env).prx, req.name, s.stablePorts, s.bind, env.launch.bind).1)
            && (req.name in v.reg.services ==>
                  v.reg.services[req.name].status == R.Failed && v.reg.services[req.name].stablePorts == s.stablePorts)
  {
    hide WorldOk, AllocatePorts, X.Register, X.SwapStatic, R.UsedPorts, StagedRecord, RestorePrevious, RestoreFailedDeploy, X.RemovePorts;
    StaticUnfolds(w, req, env);
    StaticNewNameEnds(w, req, env);
  }

  lemma StaticNewNameEnds(w: World, req: Request, env: DeployEnv)
    requires WorldOk(w) && DeployOrders(w, req, env) && req.name !in w.reg.services && ValidServiceName(req.name)
    requires AllocatePorts(w, req.name, Preferred(req), req.bind, env.alloc).1.Ports?
    requires X.IsOrderOf(env.launch.bind.order, StagedRecord(w, req, env).stablePorts)
    ensures var u := StaticAtBind(w, req, env);
            && (var v := StaticEnd(u, req, env, None, false);
                && req.name in v.reg.services
                && v.reg.services[req.name].status == R.Failed
                && v.reg.services[req.name].stablePorts == StagedRecord(w, req, env).stablePorts)
            && (!X.SwapStatic(u.prx, req.name, req.settings.path).1 ==> req.name !in StaticEnd(u, req, env, None, true).reg.services)
  {
    hide WorldOk, AllocatePorts, X.Register, X.SwapStatic, StagedRecord, X.RemovePorts, X.UnswapPorts;
    StagedFacts(w, req, env);
  }

  /** Rolling back to a static configuration while a process runs does not stop it: the registry then
      says "running" without its PID. This is why the invariant asks for the old kind to be binary. */
  lemma StaticRollbackBreaks(w: World, name: string, env: LaunchEnv, deployedAt: int)
    requires WorldOk(w) && RollbackOrders(w, name, env) && name in w.mgr.procs
    requires name in w.reg.services && w.reg.services[name].previous.Some? && w.reg.services[name].previous.value.settings.kind == R.Static
    requires Rollback(w, name, env, deployedAt).1
    ensures var v := Rollback(w, name, env, deployedAt).0;
            && !Registered(v, name)
            && name in v.mgr.procs && P.Pid(v.mgr, name) == w.reg.services[name].pid > 0
            && name in v.reg.services && v.reg.services[name].status == R.Running && v.reg.services[name].pid == 0
  {
    hide WorldOk, X.Register, X.SwapStatic, AllListening, StagedRollback, R.UpdateStatus, R.UpdateLastDeployed, RestartLocked;
    RolledRecord(w, name, env);
    TrackedHasPid(w, name);
    UpdatesKeepKind(StagedRollback(w, name, env.now), name, deployedAt, env.now);
  }

  /** Rollback keeps the invariant, whatever its outcome, if and only if it is not one to a directory over
      a process that runs. */
  lemma RollbackKeepsExactly(w: World, name: string, env: LaunchEnv, deployedAt: int)
    requires WorldOk(w) && RestartOk(w, name, env) && RollbackOrders(w, name, env)
    ensures Settles(w, Rollback(w, name, env, deployedAt).0, name) <==> RollbackOk(w, name, env)
  {
    hide WorldOk, Settles, Rollback, RestartOk;
    if RollbackOk(w, name, env) {
      RollbackKeeps(w, name, env, deployedAt);
    } else {
      StaticRollbackUnsettles(w, name, env, deployedAt);
    }
  }

  lemma StaticRollbackUnsettles(w: World, name: string, env: LaunchEnv, deployedAt: int)
    requires WorldOk(w) && RollbackOrders(w, name, env) && name in w.mgr.procs
    requires name in w.reg.services && w.reg.services[name].previous.Some? && w.reg.services[name].previous.value.settings.kind == R.Static
    ensures !Settles(w, Rollback(w, name, env, deployedAt).0, name)
  {
    hide Steady, RoutesOk, PP.Intended, X.Register, X.SwapStatic, AllListening, StagedRollback, R.UpdateStatus, R.UpdateLastDeployed, RestartLocked, WorldElsewhere;
    RolledRecord(w, name, env);
    UpdatesKeepKind(StagedRollback(w, name, env.now), name, deployedAt, env.now);
    var v := Rollback(w, name, env, deployedAt).0;
    assert name in v.mgr.procs && v.reg.services[name].settings.kind == R.Static;
    assert !Registered(v, name);
  }

  lemma UpdatesKeepKind(r: R.Registry, name: string, deployedAt: int, now: int)
    requires name in r.services
    ensures var q := R.UpdateLastDeployed(R.UpdateStatus(r, name, R.Running, 0, now).0, name, deployedAt, now).0;
            && name in q.services && q.services[name].settings == r.services[name].settings
            && q.services[name].status == R.Running && q.services[name].pid == 0
  {
  }

  // ---- Exactly which operations, and which runs, keep the invariant ----

  /** As long as the environment does its part, an operation keeps the invariant and leaves other services
      alone, if and only if it is not a Remove that matches other listeners or a directory over a running
      process. */
  lemma ApplyKeepsExactly(w: World, op: Op)
    requires WorldOk(w) && OpEnv(w, op)
    ensures Settles(w, Apply(w, op), Subject(w, op)) <==> OpOk(w, op)
  {
    hide WorldOk, Settles, DeployStatic, Rollback, Remove, RestartOk, DeployOk, RemoveOk;
    if OpOk(w, op) {
      ApplyKeeps(w, op);
    } else {
      match op
      case OpDeployStatic(req, env) => DeployStaticKeepsExactly(w, req, env);
      case OpRollback(name, env, t) => RollbackKeepsExactly(w, name, env, t);
      case OpRemove(name) => RemoveKeeps(w, name);
    }
  }

  ghost predicate RunEnv(w: World, ops: seq<Op>): (ok: bool)
    ensures ok ==> RunOrders(w, ops)
    decreases |ops|
  {
    ops == [] || (OpEnv(w, ops[0]) && RunEnv(Apply(w, ops[0]), ops[1..]))
  }

  /** Each operation of the run keeps the invariant and leaves other services alone. */
  ghost predicate RunSettles(w: World, ops: seq<Op>)
    requires RunOrders(w, ops)
    decreases |ops|
  {
    ops == [] || (Settles(w, Apply(w, ops[0]), Subject(w, ops[0])) && RunSettles(Apply(w, ops[0]), ops[1..]))
  }

  /** So the runs that keep the invariant at each step are exactly those without such an operation: what is
      proved about runs leaves out none that could be kept in. */
  lemma {:induction false} RunsSettleExactly(w: World, ops: seq<Op>)
    requires WorldOk(w) && RunEnv(w, ops)
    ensures RunSettles(w, ops) <==> RunOk(w, ops)
    decreases |ops|
  {
    hide WorldOk, OpEnv, OpOk, Apply, Settles, Subject;
    if ops != [] {
      ApplyKeepsExactly(w, ops[0]);
      if OpOk(w, ops[0]) {
        SettledIsOk(w, Apply(w, ops[0]), Subject(w, ops[0]));
        RunsSettleExactly(Apply(w, ops[0]), ops[1..]);
      }
    }
  }

  // ---- Services without a process ----

  /** The undo of a failed replacement sends the ports in the registry to the process they were last
      assigned to. */
  ghost predicate UndoPoints(p: X.Proxy, name: string, rec: R.Service, env: LaunchEnv)
    requires X.IsOrderOf(env.undo.order, rec.stablePorts)
  {
    rec.internalPorts != map[] && UndoServes(p, name, rec, Keep, env)
  }

  /** A failed restart of a service that is not running: what its ports answer afterwards. */
  lemma FailedRestartOfIdle(w: World, name: string, env: LaunchEnv)
    requires WorldOk(w) && RestartOk(w, name, env) && name in w.reg.services && name !in w.mgr.procs
    requires w.reg.services[name].settings.kind == R.Binary && !RestartLocked(w, name, env).1
    requires AllListening(w.prx, name, w.reg.services[name].stablePorts.Keys)
    ensures var rec, v := w.reg.services[name], RestartLocked(w, name, env).0;
            X.CurrentHandlers(v.prx, name)
              == X.CurrentHandlers(w.prx, name)
                 + (if Swapped(w.prx, name, Keep, env) then X.Upstreams(env.ports) else map[])
                 + (if UndoPoints(w.prx, name, rec, env) then X.Upstreams(rec.internalPorts) else map[])
  {
    hide WorldOk, Replace, ReplaceReady, ReplaceCoupled, Steady, RoutesOk, FreshPid, PP.Intended, NewRoutes, RoutesAtFailure, UndoRoutes, PutBack, RecordBack, X.CurrentHandlers, X.Register, AllListening, PrxElsewhere, TakeOverWorks, Swapped;
    var rec := w.reg.services[name];
    RestartReady(w, name, env);
    RecordOk(w, name);
    ReplaceProcesses(w, name, Some(rec), Keep, P.FAILED_CODE, 0, env);
    BeforeUndo(w.prx, name, rec, Keep, env);
    UndoKeeps(RoutesAtFailure(w.prx, name, Keep, env), name, rec, env.undo);
  }

  lemma RecordOk(w: World, name: string)
    requires WorldOk(w) && name in w.reg.services
    ensures ColonFree(name) && RoutesOk(w.prx)
  {
    hide Steady, RoutesOk, PP.Intended;
    assert RecordSane(w.reg.services[name], name);
  }

  /** Whatever listener the service has answers "unavailable", as after Stop. */
  ghost predicate AllUnavailable(p: X.Proxy, name: string) {
    forall k | EntryKey(name, k) in p.entries :: k in X.CurrentHandlers(p, name) && X.CurrentHandlers(p, name)[k] == X.Unavailable
  }

  /** So a stopped service, whose ports answered "unavailable", answers the same after a failed restart,
      exactly if the candidate was never swapped in and the registry holds no ports of an earlier process
      that still have listeners and can be registered again; otherwise it is pointed at a process that is
      gone. */
  lemma FailedRestartOfStopped(w: World, name: string, env: LaunchEnv)
    requires WorldOk(w) && RestartOk(w, name, env) && name in w.reg.services && name !in w.mgr.procs
    requires w.reg.services[name].settings.kind == R.Binary && !RestartLocked(w, name, env).1
    requires AllListening(w.prx, name, w.reg.services[name].stablePorts.Keys) && AllUnavailable(w.prx, name)
    ensures var rec, v := w.reg.services[name], RestartLocked(w, name, env).0;
            X.CurrentHandlers(v.prx, name) == X.CurrentHandlers(w.prx, name) <==>
              !Swapped(w.prx, name, Keep, env) && !UndoPoints(w.prx, name, rec, env)
  {
    hide WorldOk, RestartLocked, RoutesAtFailure, X.CurrentHandlers, X.Register, PortsDiffer, Swapped, FreshPid, UndoPoints, AllListening;
    FailedRestartOfIdle(w, name, env);
    RecordOk(w, name);
    var rec := w.reg.services[name];
    SwappedListens(w.prx, name, env);
    PointedListens(w.prx, name, rec, env);
    UnavailableOnes(w.prx, name, env.ports);
    UnavailableOnes(w.prx, name, rec.internalPorts);
    MovedByPorts(X.CurrentHandlers(w.prx, name), Swapped(w.prx, name, Keep, env), env.ports, UndoPoints(w.prx, name, rec, env), rec.internalPorts);
  }

  lemma SwappedListens(p: X.Proxy, name: string, env: LaunchEnv)
    requires RoutesOk(p)
    ensures Swapped(p, name, Keep, env) ==> AllListening(p, name, env.ports.Keys)
  {
    hide RoutesOk, X.SwapPorts, X.CurrentHandlers;
    SwapStep(p, name, env.ports);
  }

  lemma PointedListens(p: X.Proxy, name: string, rec: R.Service, env: LaunchEnv)
    requires X.IsOrderOf(env.undo.order, rec.stablePorts)
    ensures UndoPoints(p, name, rec, env) ==> AllListening(p, name, rec.internalPorts.Keys) && rec.internalPorts.Keys != {}
  {
    hide X.Register, RoutesAtFailure;
    assert rec.internalPorts.Keys == {} ==> rec.internalPorts == map[];
  }

  lemma UnavailableOnes(p: X.Proxy, name: string, ports: map<string, int>)
    requires AllUnavailable(p, name)
    ensures AllListening(p, name, ports.Keys) ==> Unreachable(X.CurrentHandlers(p, name), ports.Keys)
  {
    hide X.CurrentHandlers;
  }

  ghost predicate Unreachable(h: X.Handlers, names: set<string>) {
    forall k | k in names :: k in h && h[k] == X.Unavailable
  }

  /** Pointing an unavailable port at a process changes its handler, whatever came before. */
  lemma MovedByPorts(h: X.Handlers, first: bool, a: map<string, int>, second: bool, b: map<string, int>)
    requires first ==> a.Keys != {} && Unreachable(h, a.Keys)
    requires second ==> b.Keys != {} && Unreachable(h, b.Keys)
    ensures var g := h + (if first then X.Upstreams(a) else map[]) + (if second then X.Upstreams(b) else map[]);
            g == h <==> !first && !second
  {
    var g := h + (if first then X.Upstreams(a) else map[]) + (if second then X.Upstreams(b) else map[]);
    if second {
      var k :| k in b.Keys;
      assert g[k] == X.Upstream(b[k]);
    } else if first {
      var k :| k in a.Keys;
      assert g[k] == X.Upstream(a[k]);
    }
  }

  // ---- Services without stable ports ----

  /** A record without stable ports is one whose reservation asked for none. Its process gets a port
      "default" nevertheless, so that its restart succeeds exactly if the candidate lives and the service
      has a listener of that name: at the swap it fails exactly if there is none. */
  lemma RestartOfPortless(w: World, name: string, env: LaunchEnv)
    requires WorldOk(w) && RestartOk(w, name, env) && name in w.reg.services
    requires w.reg.services[name].settings.kind == R.Binary && w.reg.services[name].stablePorts == map[]
    ensures NewRoutes(w.prx, name, Keep, env).1 <==> EntryKey(name, "default") in w.prx.entries
    ensures RestartLocked(w, name, env).1 <==>
              LaunchWorks(env) && EntryKey(name, "default") in w.prx.entries && !ExitsAt(env, BeforePid) && !ExitsAt(env, BeforeActivate)
  {
    hide WorldOk, Replace, ReplaceReady, ReplaceCoupled, Steady, RoutesOk, FreshPid, X.SwapPorts, RoutesAtFailure, UndoRoutes, PutBack, RecordBack, X.CurrentHandlers, AllListening, PrxElsewhere, EntryKey, LaunchWorks;
    RestartReady(w, name, env);
    RecordOk(w, name);
    ReplaceProcesses(w, name, Some(w.reg.services[name]), Keep, P.FAILED_CODE, 0, env);
    SwapStep(w.prx, name, env.ports);
    OnlyDefault(w.prx, name, env.ports);
    if EntryKey(name, "default") in w.prx.entries {
      ListeningHasRoute(w.prx, name, env.ports.Keys);
    }
  }

  lemma OnlyDefault(p: X.Proxy, name: string, ports: map<string, int>)
    requires ports.Keys == {"default"}
    ensures AllListening(p, name, ports.Keys) <==> EntryKey(name, "default") in p.entries
  {
  }
}
