/** Where a service's traffic goes: through every replacement, and over whole runs. */
module Routes {
  import opened Options
  import opened Names
  import R = RegistrySpec
  import P = ProcessSpec
  import PP = ProcessProofs
  import opened RT = ReplaceProcess
  import X = ProxySpec
  import opened ServiceSpec
  import opened HotSwap
  import opened Coupling
  import opened Operations

  ghost predicate Running(w: World, name: string) {
    name in w.mgr.procs && w.mgr.procs[name] < |w.mgr.heap|
  }

  /** Replacing a running process: each generation published on the way answers the named ports wholly by
      the old process or wholly by the new one. Afterwards they lead to whichever is tracked, exactly if the
      replacement succeeds, or its undo serves the old process, or the old process was routed before and
      its route was not lost. */
  lemma ReplaceRoutes(w: World, name: string, rec: R.Service, listeners: Listeners, verifyCode: int, deployedAt: int, env: LaunchEnv)
    requires ReplaceReady(w, name, Some(rec), listeners, verifyCode, env) && ReplaceCoupled(w, name, Some(rec), listeners, env)
    requires Running(w, name) && PortsDiffer(rec, env)
    requires listeners.Reregister? ==> AllListening(w.prx, name, env.ports.Keys)
    ensures var (v, ok) := Replace(w, name, Some(rec), listeners, verifyCode, deployedAt, env);
            && OnlyWhole(w.prx, v.prx, name, rec.internalPorts, env.ports)
            && Running(v, name)
            && (Routed(v, name) <==>
                  ok || UndoServes(w.prx, name, rec, listeners, env) || (Routed(w, name) && !RouteLost(w.prx, name, rec, listeners, env)))
            && (RouteLost(w.prx, name, rec, listeners, env) ==> !ok && !UndoServes(w.prx, name, rec, listeners, env))
  {
    hide Replace, NewRoutes, UndoRoutes, RoutesAtFailure, Steady, Elsewhere, RegElsewhere, X.CurrentHandlers, SameConfig, PP.Intended, FreshPid, PrxElsewhere, WholeRoute, AllListening, RecordBack, X.Register, RoutesOk, PortsDiffer, Swapped, UndoServes, OnlyWhole, Serves, RouteLost;
    LostIsNotServed(w.prx, name, rec, listeners, env);
    var (v, ok) := Replace(w, name, Some(rec), listeners, verifyCode, deployedAt, env);
    ReplaceProcesses(w, name, Some(rec), listeners, verifyCode, deployedAt, env);
    TrackedHasPorts(w, name, rec);
    if ok {
      PublishedAtOnce(w.prx, name, rec, listeners, env);
    } else {
      FailureHandlers(w.prx, name, rec, listeners, env);
      FailureServes(w.prx, name, rec, listeners, env);
      if Routed(w, name) {
        FailureRoutes(w.prx, name, rec, listeners, env);
      } else {
      }
    }
  }

  lemma LostIsNotServed(p: X.Proxy, name: string, rec: R.Service, listeners: Listeners, env: LaunchEnv)
    requires listeners.Reregister? ==> X.IsOrderOf(env.bind.order, listeners.ports)
    requires X.IsOrderOf(env.undo.order, rec.stablePorts)
    ensures RouteLost(p, name, rec, listeners, env) ==>
              !TakeOverWorks(p, name, listeners, env) && !UndoServes(p, name, rec, listeners, env)
  {
    hide X.Register, NewRoutes;
  }

  lemma TrackedHasPorts(w: World, name: string, rec: R.Service)
    requires Running(w, name) && Agrees(rec, w.mgr.heap[w.mgr.procs[name]], w.prx, name)
    ensures rec.internalPorts != map[] && w.mgr.heap[w.mgr.procs[name]].ports == rec.internalPorts && rec.settings.kind == R.Binary
    ensures AllListening(w.prx, name, rec.stablePorts.Keys)
  {
    assert rec.internalPorts.Keys != {};
  }

  lemma PublishedAtOnce(p: X.Proxy, name: string, rec: R.Service, listeners: Listeners, env: LaunchEnv)
    requires RoutesOk(p) && ColonFree(name)
    requires listeners.Reregister? ==> X.IsOrderOf(env.bind.order, listeners.ports) && listeners.ports.Keys == env.ports.Keys && AllListening(p, name, env.ports.Keys)
    requires NewRoutes(p, name, listeners, env).1
    ensures var q := NewRoutes(p, name, listeners, env).0;
            Serves(q, name, env.ports) && OnlyWhole(p, q, name, rec.internalPorts, env.ports)
  {
    hide NewRoutes, X.CurrentHandlers, PrxElsewhere, WholeRoute, AllListening, RoutesOk;
    NewRoutesKeeps(p, name, listeners, env);
  }

  /** A deployment takes the route from the process that runs: lost in the replacement, or - only for a
      service without stable ports - closed because no ports could be allocated. */
  ghost predicate DeployLoses(w: World, req: Request, env: DeployEnv)
    requires DeployOrders(w, req, env)
  {
    && ValidServiceName(req.name) && env.accepted
    && req.name in w.reg.services && Running(w, req.name)
    && (AllocatePorts(w, req.name, Preferred(req), req.bind, env.alloc).1.Ports? ==>
          var s := StagedRecord(w, req, env);
          && X.IsOrderOf(env.launch.bind.order, s.stablePorts)
          && RouteLost(AtReplace(w, req, env).prx, req.name, w.reg.services[req.name], Reregister(s.stablePorts, s.bind), env.launch))
  }

  /** The undo of a failed deployment points the ports of the old process at it. */
  ghost predicate DeployUndoServes(w: World, req: Request, env: DeployEnv)
    requires DeployOrders(w, req, env)
  {
    && ValidServiceName(req.name) && env.accepted
    && req.name in w.reg.services && Running(w, req.name)
    && AllocatePorts(w, req.name, Preferred(req), req.bind, env.alloc).1.Ports?
    && var s := StagedRecord(w, req, env);
       && X.IsOrderOf(env.launch.bind.order, s.stablePorts)
       && UndoServes(AtReplace(w, req, env).prx, req.name, w.reg.services[req.name], Reregister(s.stablePorts, s.bind), env.launch)
  }

  /** Up to the replacement, a deployment touches neither the running process nor what it serves. */
  lemma DeployStages(w: World, req: Request, env: DeployEnv)
    requires WorldOk(w) && DeployOk(w, req, env) && ValidServiceName(req.name)
    requires Running(w, req.name)
    requires AllocatePorts(w, req.name, Preferred(req), req.bind, env.alloc).1.Ports?
    ensures var u := AtReplace(w, req, env);
            && req.name in w.reg.services && PortsDiffer(w.reg.services[req.name], env.launch)
            && var ports := w.reg.services[req.name].internalPorts;
            && Running(u, req.name) && (Routed(u, req.name) <==> Routed(w, req.name))
            && (Routed(w, req.name) ==> OnlyWhole(w.prx, u.prx, req.name, ports, ports))
            && AllListening(u.prx, req.name, env.launch.ports.Keys)
  {
    hide RoutesOk, Steady, AllocatePorts, StagedRecord, X.CurrentHandlers, WholeRoute, PP.Intended, AllListening, PortsDiffer, PrxElsewhere, RecordSane, OnlyWhole, Serves;
    ValidNamesAreColonFree(req.name);
    assert Registered(w, req.name);
    AllocateStep(w, req.name, Preferred(req), req.bind, env.alloc);
    AllocateServes(w, req.name, Preferred(req), req.bind, env.alloc, w.reg.services[req.name].internalPorts);
  }

  /** Redeploying a running service. */
  lemma DeployRoutes(w: World, req: Request, env: DeployEnv)
    requires WorldOk(w) && DeployOk(w, req, env) && Running(w, req.name)
    ensures var (v, ok) := Deploy(w, req, env);
            && Running(v, req.name) && req.name in w.reg.services
            && (Routed(w, req.name) ==> OnlyWhole(w.prx, v.prx, req.name, w.reg.services[req.name].internalPorts, env.launch.ports))
            && (Routed(v, req.name) <==>
                  ok || DeployUndoServes(w, req, env) || (Routed(w, req.name) && !DeployLoses(w, req, env)))
            && (DeployLoses(w, req, env) ==> !ok && !DeployUndoServes(w, req, env))
  {
    hide WorldOk, Steady, RoutesOk, Replace, AllocatePorts, WorldElsewhere, ReplaceReady, ReplaceCoupled, AllListening, RecordSane, PP.Intended, FreshPid, RouteLost, WholeRoute, PortsDiffer, X.CurrentHandlers, Routed, AtReplace, StagedRecord, UndoServes, OnlyWhole;
    TrackedIsRegistered(w, req.name);
    var rec := w.reg.services[req.name];
    NothingPublished(w.prx, req.name, rec.internalPorts, env.launch.ports);
    if ValidServiceName(req.name) && env.accepted {
      if AllocatePorts(w, req.name, Preferred(req), req.bind, env.alloc).1.Ports? {
        DeployUnfolds(w, req, env);
        DeployReady(w, req, env);
        DeployStages(w, req, env);
        var u, s := AtReplace(w, req, env), StagedRecord(w, req, env);
        ReplaceRoutes(u, req.name, rec, Reregister(s.stablePorts, s.bind), P.STOPPED_CODE, env.deployedAt, env.launch);
        WholeJoins(w.prx, u.prx, Deploy(w, req, env).0.prx, req.name, rec.internalPorts, env.launch.ports);
      } else {
        DeployUnallocated(w, req, env);
      }
    }
  }

  lemma WholeJoins(p: X.Proxy, q: X.Proxy, r: X.Proxy, name: string, before: map<string, int>, after: map<string, int>)
    ensures OnlyWhole(p, q, name, before, before) && OnlyWhole(q, r, name, before, after) ==> OnlyWhole(p, r, name, before, after)
    ensures OnlyWhole(p, q, name, before, before) ==> OnlyWhole(p, q, name, before, after)
  {
    hide WholeRoute;
  }

  /** No port could be allocated: the process goes on, but its listener has been closed. */
  lemma DeployUnallocated(w: World, req: Request, env: DeployEnv)
    requires WorldOk(w) && DeployOk(w, req, env) && Running(w, req.name)
    requires ValidServiceName(req.name) && env.accepted && !AllocatePorts(w, req.name, Preferred(req), req.bind, env.alloc).1.Ports?
    ensures var (v, ok) := Deploy(w, req, env);
            && !ok && Running(v, req.name) && !Routed(v, req.name) && req.name in w.reg.services
            && (Routed(w, req.name) ==> OnlyWhole(w.prx, v.prx, req.name, w.reg.services[req.name].internalPorts, env.launch.ports))
  {
    hide RoutesOk, Steady, AllocatePorts, X.CurrentHandlers, WholeRoute, PP.Intended, AllListening, PortsDiffer, PrxElsewhere, OnlyWhole, Serves;
    assert Registered(w, req.name);
    ValidNamesAreColonFree(req.name);
    AllocFailureSettles(w, req.name, Preferred(req), req.bind, env.alloc);
    var ports := w.reg.services[req.name].internalPorts;
    AllocateServes(w, req.name, Preferred(req), req.bind, env.alloc, ports);
    WholeJoins(w.prx, Deploy(w, req, env).0.prx, w.prx, req.name, ports, env.launch.ports);
  }

  ghost predicate RestartLoses(w: World, name: string, env: LaunchEnv)
    requires name in w.reg.services ==> X.IsOrderOf(env.undo.order, w.reg.services[name].stablePorts)
  {
    && name in w.reg.services && Running(w, name)
    && RouteLost(w.prx, name, w.reg.services[name], Keep, env)
  }

  ghost predicate RestartUndoServes(w: World, name: string, env: LaunchEnv)
    requires name in w.reg.services ==> X.IsOrderOf(env.undo.order, w.reg.services[name].stablePorts)
  {
    && name in w.reg.services && Running(w, name)
    && UndoServes(w.prx, name, w.reg.services[name], Keep, env)
  }

  lemma RestartRoutes(w: World, name: string, env: LaunchEnv)
    requires WorldOk(w) && RestartOk(w, name, env) && Running(w, name)
    ensures var (v, ok) := RestartLocked(w, name, env);
            && Running(v, name) && name in w.reg.services
            && OnlyWhole(w.prx, v.prx, name, w.reg.services[name].internalPorts, env.ports)
            && (Routed(v, name) <==>
                  ok || RestartUndoServes(w, name, env) || (Routed(w, name) && !RestartLoses(w, name, env)))
            && (RestartLoses(w, name, env) ==> !ok && !RestartUndoServes(w, name, env))
  {
    hide Replace, ReplaceReady, ReplaceCoupled, Steady, RoutesOk, FreshPid, RouteLost, WholeRoute, PortsDiffer, X.CurrentHandlers, AllListening, PP.Intended, Routed, RecordSane, UndoServes, OnlyWhole;
    assert Registered(w, name);
    RestartReady(w, name, env);
    ReplaceRoutes(w, name, w.reg.services[name], Keep, P.FAILED_CODE, 0, env);
  }

  /** The restart that Rollback comes to, if its listeners can be registered. */
  ghost predicate RollbackRestarting(w: World, name: string, env: LaunchEnv)
    requires RollbackOrders(w, name, env)
  {
    && RollbackOk(w, name, env)
    && name in w.reg.services && w.reg.services[name].previous.Some?
    && var u := RolledWorld(w, name, env);
       && name in u.reg.services && X.IsOrderOf(env.undo.order, u.reg.services[name].stablePorts)
       && X.Register(w.prx, name, u.reg.services[name].stablePorts, u.reg.services[name].bind, env.bind).1
       && u.reg.services[name].settings.kind == R.Binary
  }

  ghost predicate RollbackLoses(w: World, name: string, env: LaunchEnv)
    requires RollbackOrders(w, name, env)
  {
    RollbackRestarting(w, name, env) && RestartLoses(RolledWorld(w, name, env), name, env)
  }

  ghost predicate RollbackUndoServes(w: World, name: string, env: LaunchEnv)
    requires RollbackOrders(w, name, env)
  {
    RollbackRestarting(w, name, env) && RestartUndoServes(RolledWorld(w, name, env), name, env)
  }

  lemma RollbackRoutes(w: World, name: string, env: LaunchEnv, deployedAt: int)
    requires WorldOk(w) && RollbackOk(w, name, env) && Running(w, name)
    ensures var (v, ok) := Rollback(w, name, env, deployedAt);
            && Running(v, name) && name in w.reg.services
            && OnlyWhole(w.prx, v.prx, name, w.reg.services[name].internalPorts, env.ports)
            && (Routed(v, name) <==>
                  ok || RollbackUndoServes(w, name, env) || (Routed(w, name) && !RollbackLoses(w, name, env)))
            && (RollbackLoses(w, name, env) ==> !ok && !RollbackUndoServes(w, name, env))
  {
    hide OnlyWhole, WorldOk, Steady, RoutesOk, WorldElsewhere, X.Register, StagedRollback, RestartLocked, FreshPid, PP.Intended, Settles, RouteLost, Routed, RestartLoses, RestartUndoServes, PortsDiffer;
    TrackedIsRegistered(w, name);
    NothingPublished(w.prx, name, w.reg.services[name].internalPorts, env.ports);
    if w.reg.services[name].previous.Some? {
      var u := RolledWorld(w, name, env);
      RolledSettles(w, name, env);
      RollbackStages(w, name, env);
      RollbackPublishesNothing(w, name, env);
      NothingPublished(u.prx, name, w.reg.services[name].internalPorts, env.ports);
      OnlyWholeFrom(w.prx, u.prx, u.prx, name, w.reg.services[name].internalPorts, env.ports);
      SettledIsOk(w, u, name);
      var t := u.reg.services[name];
      if X.Register(w.prx, name, t.stablePorts, t.bind, env.bind).1 && t.settings.kind == R.Binary {
        RestartRoutes(u, name, env);
        RestartKeeps(u, name, env);
        var (v, ok) := RestartLocked(u, name, env);
        OnlyWholeFrom(w.prx, u.prx, v.prx, name, w.reg.services[name].internalPorts, env.ports);
        SettledIsOk(u, v, name);
        if ok {
          TouchRoutes(v, name, R.UpdateLastDeployed(v.reg, name, deployedAt, env.now).0);
        }
      }
    }
  }

  // ---- A directory over a process that runs ----

  ghost predicate StaticLoses(w: World, req: Request, env: DeployEnv)
    requires DeployOrders(w, req, env)
  {
    && ValidServiceName(req.name) && env.accepted && req.name in w.mgr.procs
    && !AllocatePorts(w, req.name, Preferred(req), req.bind, env.alloc).1.Ports?
  }

  /** The undo of a static deployment whose swap failed points the ports of the process at it. */
  ghost predicate StaticUndoServes(w: World, req: Request, env: DeployEnv)
    requires DeployOrders(w, req, env)
  {
    && ValidServiceName(req.name) && env.accepted
    && req.name in w.reg.services && req.name in w.mgr.procs
    && AllocatePorts(w, req.name, Preferred(req), req.bind, env.alloc).1.Ports?
    && var s, rec := StagedRecord(w, req, env), w.reg.services[req.name];
       && X.IsOrderOf(env.launch.bind.order, s.stablePorts)
       && X.Register(AtReplace(w, req, env).prx, req.name, s.stablePorts, s.bind, env.launch.bind).1
       && var p := StaticAtBind(w, req, env).prx;
          X.Register(p, req.name, rec.stablePorts, rec.bind, env.launch.undo).1 && AllListening(p, req.name, rec.internalPorts.Keys)
  }

  /** A static deployment that fails over a running process. */
  lemma StaticRoutes(w: World, req: Request, env: DeployEnv)
    requires WorldOk(w) && DeployStaticOk(w, req, env) && Running(w, req.name)
    ensures var v := DeployStatic(w, req, env).0;
            Routed(v, req.name) <==> StaticUndoServes(w, req, env) || (Routed(w, req.name) && !StaticLoses(w, req, env))
  {
    hide WorldOk, AllocatePorts, X.Register, X.SwapStatic, UndoRoutes, StagedRecord, Serves, RestorePrevious, RestoreFailedDeploy, StaticAtBind, X.UnswapPorts, R.UpdateStatus, StaticEnd, DeployStatic, AtReplace, Settles, AllListening;
    StaticKeepsProcs(w, req, env);
    if ValidServiceName(req.name) && env.accepted {
      if AllocatePorts(w, req.name, Preferred(req), req.bind, env.alloc).1.Ports? {
        StaticUnfolds(w, req, env);
        StaticServes(w, req, env);
      } else {
        AllocFailureSettles(w, req.name, Preferred(req), req.bind, env.alloc);
        UnallocatedStatic(w, req, env);
      }
    } else {
      RefusedStatic(w, req, env);
    }
  }

  lemma UnallocatedStatic(w: World, req: Request, env: DeployEnv)
    requires DeployOrders(w, req, env) && ValidServiceName(req.name) && env.accepted
    requires !AllocatePorts(w, req.name, Preferred(req), req.bind, env.alloc).1.Ports?
    ensures DeployStatic(w, req, env).0 == w.(prx := AllocatePorts(w, req.name, Preferred(req), req.bind, env.alloc).0)
  {
    hide AllocatePorts;
  }

  lemma RefusedStatic(w: World, req: Request, env: DeployEnv)
    requires DeployOrders(w, req, env) && !(ValidServiceName(req.name) && env.accepted)
    ensures DeployStatic(w, req, env) == (w, false)
  {
    hide AllocatePorts;
  }

  lemma StaticServes(w: World, req: Request, env: DeployEnv)
    requires WorldOk(w) && DeployStaticOk(w, req, env) && Running(w, req.name) && ValidServiceName(req.name) && env.accepted
    requires AllocatePorts(w, req.name, Preferred(req), req.bind, env.alloc).1.Ports?
    requires X.IsOrderOf(env.launch.bind.order, StagedRecord(w, req, env).stablePorts)
    ensures Routed(DeployStatic(w, req, env).0, req.name) <==> StaticUndoServes(w, req, env) || Routed(w, req.name)
  {
    hide RoutesOk, Steady, PP.Intended, AllocatePorts, X.Register, X.SwapStatic, UndoRoutes, StagedRecord, Serves, RestorePrevious, RestoreFailedDeploy, StaticAtBind, X.UnswapPorts, R.UpdateStatus, StaticEnd, DeployStatic, AtReplace, AllListening, PrxElsewhere, X.CurrentHandlers, OnlyWhole;
    var name := req.name;
    assert Registered(w, name);
    var rec, s := w.reg.services[name], StagedRecord(w, req, env);
    var bound := X.Register(AtReplace(w, req, env).prx, name, s.stablePorts, s.bind, env.launch.bind).1;
    StaticUnfolds(w, req, env);
    StaticKeepsProcs(w, req, env);
    StaticServesBefore(w, req, env);
    StaticRegElsewhere(w, req, env);
    StaticOverEnds(StaticAtBind(w, req, env), req, env, rec, bound);
    if bound {
      UndoServing(StaticAtBind(w, req, env).prx, name, rec, env.launch.undo);
    }
  }

  lemma StaticOverEnds(u: World, req: Request, env: DeployEnv, rec: R.Service, bound: bool)
    requires req.name in u.mgr.procs && X.IsOrderOf(env.launch.undo.order, rec.stablePorts)
    requires !(bound && X.SwapStatic(u.prx, req.name, req.settings.path).1)
    ensures StaticEnd(u, req, env, Some(rec), bound).prx == if bound then UndoRoutes(u.prx, req.name, rec, env.launch.undo) else u.prx
  {
    hide X.SwapStatic, UndoRoutes, X.UnswapPorts, R.UpdateStatus, R.UpdateLastDeployed;
  }

  /** Up to the swap nothing has changed for the process. */
  lemma StaticServesBefore(w: World, req: Request, env: DeployEnv)
    requires WorldOk(w) && DeployOrders(w, req, env) && ValidServiceName(req.name) && Registered(w, req.name) && Running(w, req.name)
    requires AllocatePorts(w, req.name, Preferred(req), req.bind, env.alloc).1.Ports?
    requires X.IsOrderOf(env.launch.bind.order, StagedRecord(w, req, env).stablePorts)
    ensures var rec, p := w.reg.services[req.name], StaticAtBind(w, req, env).prx;
            && RoutesOk(p) && ColonFree(req.name) && AllListening(p, req.name, rec.stablePorts.Keys)
            && (Serves(p, req.name, rec.internalPorts) <==> Serves(w.prx, req.name, rec.internalPorts))
  {
    hide RoutesOk, Steady, PP.Intended, AllocatePorts, X.Register, StagedRecord, Serves, AllListening, PrxElsewhere, X.CurrentHandlers, OnlyWhole, RecordSane;
    var name, rec, s, q := req.name, w.reg.services[req.name], StagedRecord(w, req, env), AtReplace(w, req, env).prx;
    ValidNamesAreColonFree(name);
    AllocateStep(w, name, Preferred(req), req.bind, env.alloc);
    AllocateServes(w, name, Preferred(req), req.bind, env.alloc, rec.internalPorts);
    RegisterStep(q, name, s.stablePorts, s.bind, env.launch.bind);
    RegisterServes(q, name, s.stablePorts, s.bind, env.launch.bind, rec.internalPorts);
    StaysListening(w.prx, StaticAtBind(w, req, env).prx, name, rec);
  }

  /** The undo of a failed swap serves the old process, or leaves it as it was. */
  lemma UndoServing(p: X.Proxy, name: string, rec: R.Service, undo: X.BindEnv)
    requires RoutesOk(p) && ColonFree(name) && X.IsOrderOf(undo.order, rec.stablePorts) && rec.settings.kind == R.Binary
    requires AllListening(p, name, rec.stablePorts.Keys) && rec.internalPorts != map[]
    ensures var back := X.Register(p, name, rec.stablePorts, rec.bind, undo).1 && AllListening(p, name, rec.internalPorts.Keys);
            Serves(UndoRoutes(p, name, rec, undo), name, rec.internalPorts) <==> back || Serves(p, name, rec.internalPorts)
  {
    hide RoutesOk, X.Register, UndoRoutes, AllListening, PrxElsewhere, X.CurrentHandlers;
    UndoKeeps(p, name, rec, undo);
    UndoListens(p, name, rec, undo);
    NothingAdded(X.CurrentHandlers(p, name), X.CurrentHandlers(UndoRoutes(p, name, rec, undo), name));
  }

  lemma TrackedIsRegistered(w: World, name: string)
    requires WorldOk(w) && Running(w, name)
    ensures name in w.reg.services && w.mgr.heap[w.mgr.procs[name]].ports == w.reg.services[name].internalPorts
  {
    hide Steady, RoutesOk, PP.Intended;
    assert Registered(w, name);
  }

  lemma NothingPublished(p: X.Proxy, name: string, before: map<string, int>, after: map<string, int>)
    ensures OnlyWhole(p, p, name, before, after)
  {
  }

  lemma OnlyWholeFrom(p: X.Proxy, q: X.Proxy, r: X.Proxy, name: string, before: map<string, int>, after: map<string, int>)
    requires q.published == p.published && OnlyWhole(q, r, name, before, after)
    ensures OnlyWhole(p, r, name, before, after)
  {
  }

  /** Registering the ports of a running service again publishes nothing. */
  lemma RollbackPublishesNothing(w: World, name: string, env: LaunchEnv)
    requires WorldOk(w) && RollbackOk(w, name, env) && Running(w, name)
    requires name in w.reg.services && w.reg.services[name].previous.Some?
    ensures RolledWorld(w, name, env).prx.published == w.prx.published
  {
    hide Steady, RoutesOk, X.Register, FreshPid, PP.Intended, PrxElsewhere, RecordSane, X.CurrentHandlers, StagedRollback;
    assert Registered(w, name);
    RecordIsColonFree(w.reg, name);
    RollbackStages(w, name, env);
    var t := StagedRollback(w, name, env.now).services[name];
    RegisterStep(w.prx, name, t.stablePorts, t.bind, env.bind);
  }

  lemma TouchRoutes(w: World, name: string, reg: R.Registry)
    ensures Routed(w.(reg := reg), name) <==> Routed(w, name)
  {
  }

  /** Exactly the operations after which traffic no longer reaches the tracked process. */
  ghost predicate Loses(w: World, op: Op)
    requires OpOk(w, op)
  {
    match op
    case OpDeploy(req, env) => DeployLoses(w, req, env)
    case OpDeployStatic(req, env) => StaticLoses(w, req, env)
    case OpRestart(name, env) => ValidServiceName(name) && RestartLoses(w, name, env)
    case OpRollback(name, env, _) => RollbackLoses(w, name, env)
    case OpReserve(name, preferred, env, _) => ReserveLoses(w, name, preferred, env)
    case _ => false
  }

  /** Exactly the operations after which traffic reaches it, lost before or not: a replacement that went
      through, or whose undo serves the old process, and bringing a service back after a start. */
  ghost predicate Renews(w: World, op: Op)
    requires OpOk(w, op)
  {
    match op
    case OpDeploy(req, env) => Deploy(w, req, env).1 || DeployUndoServes(w, req, env)
    case OpDeployStatic(req, env) => StaticUndoServes(w, req, env)
    case OpRestart(name, env) => ValidServiceName(name) && (RestartsProcess(w, name, env) || RestartUndoServes(w, name, env))
    case OpRollback(name, env, t) => Rollback(w, name, env, t).1 || RollbackUndoServes(w, name, env)
    case OpRestoreOne(_, _) => true
    case _ => false
  }

  ghost predicate RestartsProcess(w: World, name: string, env: LaunchEnv)
    requires name in w.reg.services ==> X.IsOrderOf(env.undo.order, w.reg.services[name].stablePorts)
  {
    RestartLocked(w, name, env).1 && name in w.reg.services && w.reg.services[name].settings.kind == R.Binary
  }

  /** One operation, any outcome: if a process is tracked for its service afterwards, it is routed exactly
      if the operation renews the route, or it was routed before and the operation does not lose it; and
      whatever is newly tracked is routed. */
  lemma ApplyRoutes(w: World, op: Op)
    requires WorldOk(w) && OpOk(w, op) && Subject(w, op) in Apply(w, op).mgr.procs
    ensures var (v, subject) := (Apply(w, op), Subject(w, op));
            && (Routed(v, subject) <==> Renews(w, op) || (Routed(w, subject) && !Loses(w, op)))
            && (subject !in w.mgr.procs ==> Renews(w, op))
  {
    hide WorldOk, Settles, Deploy, DeployStatic, RestartLocked, Rollback, Reserve, Archive, RestoreArchived, RestoreOne, ProcessExits, FinishDrain, DeployOk, RestartOk, RollbackOk, ReserveOk, DeployLoses, RestartLoses, RollbackLoses, ReserveLoses, DeployUndoServes, RestartUndoServes, RollbackUndoServes, StaticLoses, StaticUndoServes, RestartsProcess, WholeRoute, Routed, BindListeners, BindOk;
    match op
    case OpDeploy(req, env) => DeployRenews(w, req, env);
    case OpDeployStatic(req, env) =>
      StaticKeepsProcs(w, req, env);
      TrackedIsRunning(w, req.name);
      StaticRoutes(w, req, env);
    case OpRestart(name, env) =>
      if ValidServiceName(name) {
        RestartRenews(w, name, env);
      }
    case OpRollback(name, env, t) => RollbackRenews(w, name, env, t);
    case OpStop(name, stuck, now) => StopUntracks(w, name, stuck, now);
    case OpRemove(name) => RemoveUntracks(w, name);
    case OpReserve(name, preferred, env, now) => ReserveKeeps(w, name, preferred, env, now);
    case OpArchive(name, now) => ArchiveKeeps(w, name, now); OnlyRecords(w, op);
    case OpRestoreArchived(name, now) => ArchiveKeeps(w, name, now); OnlyRecords(w, op);
    case OpPrune(name, now) => PrunedIsRouted(w, name, now);
    case OpBind(name, env, now) => BindUntracked(w, name, env, now);
    case OpRestoreOne(name, env) => RestoreOneKeeps(w, name, env);
    case OpExit(pid, code, duration, now) => ExitKeeps(w, pid, code, duration, now); ExitTracks(w, pid, code, duration, now);
    case OpDrain(i) => DrainKeeps(w, i, ""); OnlyRecords(w, op);
  }

  lemma DeployRenews(w: World, req: Request, env: DeployEnv)
    requires WorldOk(w) && DeployOk(w, req, env) && req.name in Deploy(w, req, env).0.mgr.procs
    ensures var (v, ok) := Deploy(w, req, env);
            && (Routed(v, req.name) <==> ok || DeployUndoServes(w, req, env) || (Routed(w, req.name) && !DeployLoses(w, req, env)))
            && (req.name !in w.mgr.procs ==> ok)
  {
    hide WorldOk, Settles, Deploy, DeployOk, DeployLoses, AllocatePorts, UndoServes, Routed;
    DeployKeeps(w, req, env);
    if req.name in w.mgr.procs {
      TrackedIsRunning(w, req.name);
      DeployRoutes(w, req, env);
    } else {
      DeployTracks(w, req, env);
    }
  }

  lemma DeployTracks(w: World, req: Request, env: DeployEnv)
    requires WorldOk(w) && DeployOk(w, req, env)
    ensures var (v, ok) := Deploy(w, req, env);
            req.name in v.mgr.procs && req.name !in w.mgr.procs ==> ok
  {
    hide WorldOk, Steady, RoutesOk, Replace, AllocatePorts, ReplaceReady, ReplaceCoupled, PP.Intended, FreshPid, PortsDiffer, StagedRecord;
    if ValidServiceName(req.name) && env.accepted && AllocatePorts(w, req.name, Preferred(req), req.bind, env.alloc).1.Ports? {
      DeployUnfolds(w, req, env);
      DeployReady(w, req, env);
      var s := StagedRecord(w, req, env);
      ReplaceTracks(AtReplace(w, req, env), req.name, R.Get(w.reg, req.name), Reregister(s.stablePorts, s.bind), P.STOPPED_CODE, env.deployedAt, env.launch);
    }
  }

  lemma ReplaceTracks(w: World, name: string, previous: Option<R.Service>, listeners: Listeners, verifyCode: int, deployedAt: int, env: LaunchEnv)
    requires ReplaceReady(w, name, previous, listeners, verifyCode, env)
    ensures var (v, ok) := Replace(w, name, previous, listeners, verifyCode, deployedAt, env);
            !ok ==> (name in v.mgr.procs <==> name in w.mgr.procs)
  {
    hide Replace, Steady, Elsewhere, RegElsewhere, FreshPid, LaunchWorks, TakeOverWorks, RecordBack, NewRoutes, RoutesAtFailure, UndoRoutes, X.RemovePorts;
    ReplaceProcesses(w, name, previous, listeners, verifyCode, deployedAt, env);
  }

  lemma RestartTracks(w: World, name: string, env: LaunchEnv)
    requires WorldOk(w) && RestartOk(w, name, env)
    ensures name in RestartLocked(w, name, env).0.mgr.procs && name !in w.mgr.procs ==> RestartsProcess(w, name, env)
  {
    hide WorldOk, Replace, ReplaceReady, ReplaceCoupled, FreshPid, PortsDiffer;
    if name in w.reg.services && w.reg.services[name].settings.kind == R.Binary {
      RestartReady(w, name, env);
      ReplaceTracks(w, name, Some(w.reg.services[name]), Keep, P.FAILED_CODE, 0, env);
    }
  }

  lemma RestartRenews(w: World, name: string, env: LaunchEnv)
    requires WorldOk(w) && RestartOk(w, name, env) && name in RestartLocked(w, name, env).0.mgr.procs
    ensures var v := RestartLocked(w, name, env).0;
            && (Routed(v, name) <==>
                  RestartsProcess(w, name, env) || RestartUndoServes(w, name, env) || (Routed(w, name) && !RestartLoses(w, name, env)))
            && (name !in w.mgr.procs ==> RestartsProcess(w, name, env))
  {
    hide WorldOk, Settles, RestartLocked, RestartOk, RestartLoses, UndoServes, Routed;
    RestartKeeps(w, name, env);
    if name in w.mgr.procs {
      TrackedIsRunning(w, name);
      RestartRoutes(w, name, env);
      TrackedHasPid(w, name);
    } else {
      RestartTracks(w, name, env);
    }
  }

  lemma RollbackRenews(w: World, name: string, env: LaunchEnv, deployedAt: int)
    requires WorldOk(w) && RollbackOk(w, name, env) && name in Rollback(w, name, env, deployedAt).0.mgr.procs
    ensures var (v, ok) := Rollback(w, name, env, deployedAt);
            && (Routed(v, name) <==> ok || RollbackUndoServes(w, name, env) || (Routed(w, name) && !RollbackLoses(w, name, env)))
            && (name !in w.mgr.procs ==> ok)
  {
    hide WorldOk, Settles, Rollback, RollbackOk, RollbackLoses, UndoServes, Routed, RollbackRestarting, RolledWorld;
    RollbackKeeps(w, name, env, deployedAt);
    if name in w.mgr.procs {
      TrackedIsRunning(w, name);
      RollbackRoutes(w, name, env, deployedAt);
    } else {
      RollbackTracks(w, name, env, deployedAt);
    }
  }

  lemma RollbackTracks(w: World, name: string, env: LaunchEnv, deployedAt: int)
    requires WorldOk(w) && RollbackOk(w, name, env) && name !in w.mgr.procs
    ensures var (v, ok) := Rollback(w, name, env, deployedAt);
            name in v.mgr.procs ==> ok
  {
    hide WorldOk, X.Register, StagedRollback, RestartLocked, X.SwapStatic, Settles, RestartOk;
    if name in w.reg.services && w.reg.services[name].previous.Some? {
      var u := RolledWorld(w, name, env);
      RolledSettles(w, name, env);
      SettledIsOk(w, u, name);
      RestartTracks(u, name, env);
    }
  }

  lemma StopUntracks(w: World, name: string, stuck: bool, now: int)
    requires WorldOk(w)
    ensures name !in Stop(w, name, stuck, now).0.mgr.procs
  {
    hide RoutesOk, PP.Intended, X.CurrentHandlers, WholeRoute, X.UnswapPorts, R.UpdateStatus;
    assert name in w.mgr.procs ==> Registered(w, name);
  }

  lemma BindUntracked(w: World, name: string, env: X.BindEnv, now: int)
    requires BindOk(w, name, env)
    ensures name !in BindListeners(w, name, env, now).0.mgr.procs
  {
    hide X.Register;
  }

  lemma RemoveUntracks(w: World, name: string)
    requires WorldOk(w)
    ensures name !in Remove(w, name).mgr.procs
  {
    hide RoutesOk, PP.Intended, X.CurrentHandlers, WholeRoute, X.RemovePorts;
    assert name in w.mgr.procs ==> Registered(w, name);
  }

  /** An archived service has no process, so pruning it takes no route from one. */
  lemma PrunedIsRouted(w: World, name: string, now: int)
    requires WorldOk(w)
    ensures Prune(w, name, now).0.mgr == w.mgr
    ensures name in w.mgr.procs ==> Prune(w, name, now).0 == w
  {
    hide RoutesOk, Steady, PP.Intended, X.CurrentHandlers, WholeRoute, X.RemovePorts;
    assert name in w.mgr.procs ==> Registered(w, name);
  }

  lemma OnlyRecords(w: World, op: Op)
    requires OpOk(w, op) && (op.OpArchive? || op.OpRestoreArchived? || op.OpDrain?)
    ensures Apply(w, op).mgr.procs == w.mgr.procs
  {
  }

  /** An exit tracks nothing that was not tracked before. */
  lemma ExitTracks(w: World, pid: int, code: int, duration: int, now: int)
    ensures ProcessExits(w, pid, code, duration, now).mgr.procs.Keys <= w.mgr.procs.Keys
    ensures pid !in w.mgr.watchers ==> ProcessExits(w, pid, code, duration, now) == w
  {
    hide R.UpdateStatus, R.CompleteStart, R.UpdateCrashState, X.UnswapPorts;
  }

  lemma TrackedIsRunning(w: World, name: string)
    requires WorldOk(w) && name in w.mgr.procs
    ensures Running(w, name)
  {
    hide Steady, RoutesOk, PP.Intended;
    assert Registered(w, name);
  }

  // ---- Whole runs ----

  ghost predicate RunOrders(w: World, ops: seq<Op>)
    decreases |ops|
  {
    ops == [] || (OpOrders(w, ops[0]) && RunOrders(Apply(w, ops[0]), ops[1..]))
  }

  ghost predicate RunOk(w: World, ops: seq<Op>): (ok: bool)
    ensures ok ==> RunOrders(w, ops)
    decreases |ops|
  {
    ops == [] || (OpOk(w, ops[0]) && RunOk(Apply(w, ops[0]), ops[1..]))
  }

  function RunAll(w: World, ops: seq<Op>): World
    requires RunOrders(w, ops)
    decreases |ops|
  {
    if ops == [] then w else RunAll(Apply(w, ops[0]), ops[1..])
  }

  /** The services whose route has been lost and not renewed since. */
  ghost function LostAfter(w: World, ops: seq<Op>, lost: set<string>): set<string>
    requires RunOk(w, ops)
    decreases |ops|
  {
    if ops == [] then lost
    else LostAfter(Apply(w, ops[0]), ops[1..], LostNow(w, ops[0], lost))
  }

  ghost function LostNow(w: World, op: Op, lost: set<string>): set<string>
    requires OpOk(w, op)
  {
    if Renews(w, op) then lost - {Subject(w, op)}
    else if Loses(w, op) then lost + {Subject(w, op)}
    else lost
  }

  /** The coupling invariant, over every run of operations, exits and drains, with every outcome: a
      tracked process is the one the registry calls running, with its PID and ports, its listeners are
      held - and every named port leads to it, if and only if its route was not lost, or was renewed
      since. */
  lemma {:induction false} RunsStayCoupled(w: World, ops: seq<Op>, lost: set<string>)
    requires WorldOk(w) && RunOk(w, ops)
    requires forall n | n in w.mgr.procs :: Routed(w, n) <==> n !in lost
    ensures var v := RunAll(w, ops);
            && WorldOk(v)
            && forall n | n in v.mgr.procs :: Routed(v, n) <==> n !in LostAfter(w, ops, lost)
    decreases |ops|
  {
    hide WorldOk, OpOk, Apply, Routed, LostNow, Subject;
    if ops != [] {
      var op, v := ops[0], Apply(w, ops[0]);
      ApplyKeeps(w, op);
      SettledIsOk(w, v, Subject(w, op));
      forall n | n in v.mgr.procs ensures Routed(v, n) <==> n !in LostNow(w, op, lost) {
        LostStep(w, op, n, lost);
      }
      RunsStayCoupled(v, ops[1..], LostNow(w, op, lost));
    }
  }

  /** One operation, any service: what has been lost afterwards. */
  lemma LostStep(w: World, op: Op, n: string, lost: set<string>)
    requires WorldOk(w) && OpOk(w, op) && n in Apply(w, op).mgr.procs
    requires n in w.mgr.procs ==> (Routed(w, n) <==> n !in lost)
    ensures Routed(Apply(w, op), n) <==> n !in LostNow(w, op, lost)
  {
    hide WorldOk, OpOk, Apply, Routed, Subject, Loses, Renews;
    var v, subject := Apply(w, op), Subject(w, op);
    if n == subject {
      ApplyRoutes(w, op);
    } else {
      ApplyKeeps(w, op);
      OtherRoutes(w, v, subject, n);
    }
  }

  lemma OtherRoutes(w: World, v: World, subject: string, n: string)
    requires Settles(w, v, subject) && n != subject && n in v.mgr.procs
    ensures n in w.mgr.procs && (Routed(v, n) <==> Routed(w, n))
  {
    hide WorldOk, Routed;
    OthersTracked(w, v, subject);
  }

  /** A daemon that has just started holds the invariant, whatever is in its registry: it runs nothing
      yet. */
  lemma StartedIsOk(reg: R.Registry)
    requires RecordsSane(reg)
    ensures WorldOk(World(reg, P.EMPTY, X.EMPTY, map[], []))
  {
  }
}
