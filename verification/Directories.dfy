/** Services that are directories: what a deployment of one leaves, whether it succeeds or not, and how one is
    served again after a failed replacement. What a restart and a rollback bring into force, and what the bind
    pass at startup leaves. */
module Directories {
  import opened Options
  import opened Names
  import R = RegistrySpec
  import RP = RegistryProofs
  import P = ProcessSpec
  import PP = ProcessProofs
  import opened RT = ReplaceProcess
  import X = ProxySpec
  import XP = ProxyProofs
  import opened ServiceSpec
  import opened HotSwap
  import opened Coupling
  import opened Operations
  import opened Deployments
  import opened Endings

  /** A request to the default port is answered from the directory. */
  ghost predicate ServesFiles(p: X.Proxy, name: string, dir: string) {
    EntryKey(name, "default") in p.entries && X.Serve(p, EntryKey(name, "default")) == Some(X.Files(dir))
  }

  lemma SwapServesFiles(p: X.Proxy, name: string, dir: string)
    requires RoutesOk(p) && ColonFree(name)
    ensures var (q, ok) := X.SwapStatic(p, name, dir);
            && (ok <==> EntryKey(name, "default") in p.entries)
            && (ok ==> ServesFiles(q, name, dir))
  {
    hide X.CurrentHandlers, EntryKey, X.Serve, XP.Held, XP.RoutesSound;
    var (q, ok) := X.SwapStatic(p, name, dir);
    XP.SwapStaticKeeps(p, name, dir);
    var key := EntryKey(name, "default");
    if ok {
      assert Owner(key) == name;
      DefaultEntry(p, name);
      XP.SoundServes(q, key);
    }
  }

  lemma DefaultEntry(p: X.Proxy, name: string)
    requires RoutesOk(p) && ColonFree(name) && EntryKey(name, "default") in p.entries
    ensures p.entries[EntryKey(name, "default")].portName == "default" && Owner(EntryKey(name, "default")) == name
  {
    hide X.CurrentHandlers, EntryKey, XP.Held, XP.RoutesSound;
    EntryKeyInjective(name, p.entries[EntryKey(name, "default")].portName, name, "default");
  }

  // ---- Deploying a directory ----

  ghost predicate Fresh(t: R.Service, now: int) {
    && t.internalPorts == map[] && t.startHistory == [] && t.lastStartedAt == 0 && t.crashAttempts == 0 && !t.gaveUp
    && t.deployedAt == now && t.previous == None
  }

  /** A directory that is deployed: it is served on the default port, and the record is the requested
      configuration, running without a process, over the running state it had; nothing else changes but
      listeners. */
  lemma StaticDeployExact(w: World, req: Request, env: DeployEnv)
    requires WorldOk(w) && DeployOrders(w, req, env) && DeployStatic(w, req, env).1
    ensures var v := DeployStatic(w, req, env).0;
            && v.mgr == w.mgr && v.attempts == w.attempts && v.drains == w.drains
            && ServesFiles(v.prx, req.name, req.settings.path)
            && v.reg.tombstones == w.reg.tombstones && v.reg.services.Keys == w.reg.services.Keys + {req.name}
            && (forall n | n in w.reg.services && n != req.name :: v.reg.services[n] == w.reg.services[n])
            && var t := v.reg.services[req.name];
               && t.settings == req.settings && RP.BoundTo(t.bind, req.bind, "")
               && t.status == R.Running && t.pid == 0 && t.lastDeployedAt == env.deployedAt
               && (if req.name in w.reg.services then
                     var e := w.reg.services[req.name];
                     && RP.SameRunningState(e.(status := R.Running, pid := 0, lastDeployedAt := env.deployedAt), t)
                     && (e.stablePorts != map[] ==> t.stablePorts == e.stablePorts)
                     && t.previous == Some(R.Snapshot(e.settings, e.bind, e.stablePorts, e.deployedAt))
                   else Fresh(t, env.launch.now))
  {
    hide WorldOk, AllocatePorts, X.Register, X.SwapStatic, StagedRecord, RestorePrevious, RestoreFailedDeploy, X.CurrentHandlers, ServesFiles, RP.SameRunningState;
    assert ValidServiceName(req.name) && env.accepted && AllocatePorts(w, req.name, Preferred(req), req.bind, env.alloc).1.Ports?;
    StaticUnfolds(w, req, env);
    ValidNamesAreColonFree(req.name);
    StaticRoutesOk(w, req, env);
    SwapServesFiles(StaticAtBind(w, req, env).prx, req.name, req.settings.path);
    StagedExact(w, req, env);
    StaticEnds(StaticAtBind(w, req, env), req, env);
    StaysRunning(w, req, StagedRecord(w, req, env), DeployStatic(w, req, env).0.reg.services[req.name], env.deployedAt);
  }

  /** What Deploy registers. */
  lemma StagedExact(w: World, req: Request, env: DeployEnv)
    requires WorldOk(w) && DeployOrders(w, req, env) && AllocatePorts(w, req.name, Preferred(req), req.bind, env.alloc).1.Ports?
    ensures var s := StagedRecord(w, req, env);
            && s.name == req.name && s.settings == req.settings && RP.BoundTo(s.bind, req.bind, "")
            && (if req.name in w.reg.services then
                  var e := w.reg.services[req.name];
                  && RP.SameRunningState(e, s)
                  && (e.stablePorts != map[] ==> s.stablePorts == e.stablePorts)
                  && s.previous == Some(R.Snapshot(e.settings, e.bind, e.stablePorts, e.deployedAt))
                else Fresh(s, env.launch.now))
  {
    hide WorldOk, AllocatePorts, Preferred;
    RP.RegisterExact(w.reg, NewRecord(req, AllocatePorts(w, req.name, Preferred(req), req.bind, env.alloc).1.ports), env.launch.now);
  }

  lemma StaticEnds(u: World, req: Request, env: DeployEnv)
    requires req.name in u.reg.services
    ensures var q := R.UpdateLastDeployed(R.UpdateStatus(u.reg, req.name, R.Running, 0, env.launch.now).0, req.name, env.deployedAt, env.launch.now).0;
            && q.tombstones == u.reg.tombstones && q.services.Keys == u.reg.services.Keys
            && (forall n | n in u.reg.services && n != req.name :: q.services[n] == u.reg.services[n])
            && q.services[req.name] == u.reg.services[req.name].(status := R.Running, pid := 0, lastDeployedAt := env.deployedAt, updatedAt := env.launch.now)
  {
  }

  lemma StaysRunning(w: World, req: Request, s: R.Service, t: R.Service, deployedAt: int)
    requires t == s.(status := R.Running, pid := 0, lastDeployedAt := deployedAt, updatedAt := t.updatedAt)
    ensures req.name in w.reg.services && RP.SameRunningState(w.reg.services[req.name], s) ==>
              RP.SameRunningState(w.reg.services[req.name].(status := R.Running, pid := 0, lastDeployedAt := deployedAt), t)
  {
  }

  /** The listeners of a directory's stable ports could be had. */
  ghost predicate StaticBinds(w: World, req: Request, env: DeployEnv)
    requires DeployOrders(w, req, env) && AllocatePorts(w, req.name, Preferred(req), req.bind, env.alloc).1.Ports?
    requires X.IsOrderOf(env.launch.bind.order, StagedRecord(w, req, env).stablePorts)
  {
    X.Register(AtReplace(w, req, env).prx, req.name, StagedRecord(w, req, env).stablePorts, StagedRecord(w, req, env).bind, env.launch.bind).1
  }

  /** A static deployment that fails over a service puts its record back; only if its listeners are refused,
      and the record says that a binary runs where no process is tracked, the service is called failed and
      taken down. */
  lemma FailedStaticDeployRestores(w: World, req: Request, env: DeployEnv)
    requires WorldOk(w) && DeployOrders(w, req, env) && req.name in w.reg.services && !DeployStatic(w, req, env).1
    ensures var v, e := DeployStatic(w, req, env).0, w.reg.services[req.name];
            && v.mgr == w.mgr && v.attempts == w.attempts && v.drains == w.drains
            && v.reg.tombstones == w.reg.tombstones && v.reg.services.Keys == w.reg.services.Keys
            && (forall n | n in w.reg.services && n != req.name :: v.reg.services[n] == w.reg.services[n])
            && (if ValidServiceName(req.name) && env.accepted && AllocatePorts(w, req.name, Preferred(req), req.bind, env.alloc).1.Ports?
                   && X.IsOrderOf(env.launch.bind.order, StagedRecord(w, req, env).stablePorts)
                   && !StaticBinds(w, req, env) && e.status == R.Running && e.settings.kind == R.Binary && req.name !in w.mgr.procs
                then v.reg.services[req.name] == e.(status := R.Failed, pid := 0, updatedAt := v.reg.services[req.name].updatedAt) && Down(v.prx, req.name)
                else v.reg.services[req.name] == e)
  {
    hide WorldOk, AllocatePorts, X.Register, X.SwapStatic, StagedRecord, RestorePrevious, RestoreFailedDeploy, X.CurrentHandlers, Down, RP.SameRunningState;
    SameName(w, req.name);
    if ValidServiceName(req.name) && env.accepted && AllocatePorts(w, req.name, Preferred(req), req.bind, env.alloc).1.Ports? {
      StaticUnfolds(w, req, env);
      ValidNamesAreColonFree(req.name);
      StaticRoutesOk(w, req, env);
      StagedExact(w, req, env);
      PreviousBack(StaticAtBind(w, req, env), w.reg, req.name, env.launch.now);
      FailedBack(StaticAtBind(w, req, env), w.reg, req.name, env.launch.undo);
    } else {
      StaticRefused(w, req, env);
    }
  }

  lemma SameName(w: World, name: string)
    requires WorldOk(w) && name in w.reg.services
    ensures w.reg.services[name].name == name
  {
    hide Steady, RoutesOk;
  }

  lemma StaticRefused(w: World, req: Request, env: DeployEnv)
    requires DeployOrders(w, req, env)
    requires !(ValidServiceName(req.name) && env.accepted && AllocatePorts(w, req.name, Preferred(req), req.bind, env.alloc).1.Ports?)
    ensures DeployStatic(w, req, env).0 == w.(prx := DeployStatic(w, req, env).0.prx)
  {
    hide AllocatePorts, X.Register, X.SwapStatic, RestorePrevious, RestoreFailedDeploy, ValidServiceName;
  }

  /** `u` is after staging over the record of `r`. */
  lemma PreviousBack(u: World, r: R.Registry, name: string, now: int)
    requires RoutesOk(u.prx) && ColonFree(name) && name in r.services && r.services[name].name == name
    requires u.reg.tombstones == r.tombstones && name in u.reg.services && u.reg.services == r.services[name := u.reg.services[name]]
    requires RP.SameRunningState(r.services[name], u.reg.services[name])
    ensures var v, e := RestorePrevious(u, name, Some(r.services[name]), now), r.services[name];
            && v.mgr == u.mgr && v.attempts == u.attempts && v.drains == u.drains
            && v.reg.tombstones == r.tombstones && v.reg.services.Keys == r.services.Keys
            && (forall n | n in r.services && n != name :: v.reg.services[n] == r.services[n])
            && (if e.status == R.Running && e.settings.kind == R.Binary && name !in u.mgr.procs
                then v.reg.services[name] == e.(status := R.Failed, pid := 0, updatedAt := v.reg.services[name].updatedAt) && Down(v.prx, name)
                else v.reg.services[name] == e)
  {
    hide RoutesOk, Down, X.UnswapPorts;
    UnswapDowns(u.prx, name);
  }

  lemma FailedBack(u: World, r: R.Registry, name: string, undo: X.BindEnv)
    requires name in r.services && r.services[name].name == name && X.IsOrderOf(undo.order, r.services[name].stablePorts)
    requires u.reg.tombstones == r.tombstones && name in u.reg.services && u.reg.services == r.services[name := u.reg.services[name]]
    requires RP.SameRunningState(r.services[name], u.reg.services[name])
    ensures var v := RestoreFailedDeploy(u, name, Some(r.services[name]), None, undo);
            && v.mgr == u.mgr && v.attempts == u.attempts && v.drains == u.drains
            && v.reg.tombstones == r.tombstones && v.reg.services.Keys == r.services.Keys
            && (forall n | n in r.services :: v.reg.services[n] == r.services[n])
  {
    hide UndoRoutes;
  }

  // ---- A directory that is replaced, and one that comes back ----

  /** The undo of a replacement serves a directory again, exactly if its listeners can be registered again
      and it has a default one. */
  lemma UndoServesFiles(p: X.Proxy, name: string, rec: R.Service, undo: X.BindEnv)
    requires RoutesOk(p) && ColonFree(name) && X.IsOrderOf(undo.order, rec.stablePorts) && rec.settings.kind == R.Static
    ensures var (bound, ok) := X.Register(p, name, rec.stablePorts, rec.bind, undo);
            var q := UndoRoutes(p, name, rec, undo);
            && q.entries == bound.entries
            && (ok && EntryKey(name, "default") in q.entries ==> ServesFiles(q, name, rec.settings.path))
            && (!(ok && EntryKey(name, "default") in q.entries) ==> q == bound)
  {
    hide RoutesOk, X.Register, ServesFiles, EntryKey;
    RegisterStep(p, name, rec.stablePorts, rec.bind, undo);
    SwapServesFiles(X.Register(p, name, rec.stablePorts, rec.bind, undo).0, name, rec.settings.path);
    SwapStaticKeepsEntries(X.Register(p, name, rec.stablePorts, rec.bind, undo).0, name, rec.settings.path);
  }

  lemma SwapStaticKeepsEntries(p: X.Proxy, name: string, dir: string)
    ensures X.SwapStatic(p, name, dir).0.entries == p.entries
    ensures !X.SwapStatic(p, name, dir).1 ==> X.SwapStatic(p, name, dir).0 == p
  {
  }

  /** A binary deployed over a directory that fails to come up: the directory is served again, if its
      listeners can be had again. */
  lemma FailedDeployServesFiles(w: World, req: Request, env: DeployEnv)
    requires WorldOk(w) && DeployOk(w, req, env) && !Deploy(w, req, env).1
    requires ValidServiceName(req.name) && env.accepted && AllocatePorts(w, req.name, Preferred(req), req.bind, env.alloc).1.Ports?
    requires req.name in w.reg.services && w.reg.services[req.name].settings.kind == R.Static && "default" in w.reg.services[req.name].stablePorts
    requires env.launch.undo.addressOk && env.launch.undo.refused == {}
    ensures ServesFiles(Deploy(w, req, env).0.prx, req.name, w.reg.services[req.name].settings.path)
  {
    hide RoutesOk, Steady, Replace, AllocatePorts, AtReplace, ReplaceReady, RegElsewhere, Elsewhere, PutBack, PP.Intended, RecordSane, AllListening, FreshPid, RP.BoundedRun, ServesFiles, UndoRoutes, RoutesAtFailure, ReplaceCoupled, StagedRecord, Replaced, RecordBack;
    var rec := w.reg.services[req.name];
    RecordIsColonFree(w.reg, req.name);
    DeployUnfolds(w, req, env);
    DeployReady(w, req, env);
    var u, s := AtReplace(w, req, env), StagedRecord(w, req, env);
    ReplaceProcesses(u, req.name, Some(rec), Reregister(s.stablePorts, s.bind), P.STOPPED_CODE, env.deployedAt, env.launch);
    CoupledParts(u, req.name, Some(rec), Reregister(s.stablePorts, s.bind), env.launch);
    UndoneServesFiles(u.prx, req.name, rec, Reregister(s.stablePorts, s.bind), env.launch);
  }

  lemma CoupledParts(u: World, name: string, previous: Option<R.Service>, listeners: Listeners, env: LaunchEnv)
    requires ReplaceCoupled(u, name, previous, listeners, env)
    ensures RoutesOk(u.prx) && (listeners.Reregister? ==> listeners.ports.Keys == env.ports.Keys)
  {
    hide RoutesOk, RecordSane, Agrees;
  }

  lemma UndoneServesFiles(p: X.Proxy, name: string, rec: R.Service, listeners: Listeners, env: LaunchEnv)
    requires RoutesOk(p) && ColonFree(name) && X.IsOrderOf(env.undo.order, rec.stablePorts) && rec.settings.kind == R.Static
    requires listeners.Reregister? ==> X.IsOrderOf(env.bind.order, listeners.ports) && listeners.ports.Keys == env.ports.Keys
    requires "default" in rec.stablePorts && env.undo.addressOk && env.undo.refused == {}
    ensures ServesFiles(UndoRoutes(RoutesAtFailure(p, name, listeners, env), name, rec, env.undo), name, rec.settings.path)
  {
    hide RoutesOk, X.Register, ServesFiles, UndoRoutes, NewRoutes, EntryKey;
    NewRoutesKeeps(p, name, listeners, env);
    var a := RoutesAtFailure(p, name, listeners, env);
    RegistersAll(a, name, rec.stablePorts, rec.bind, env.undo);
    UndoServesFiles(a, name, rec, env.undo);
  }

  lemma RegistersAll(p: X.Proxy, name: string, ports: map<string, int>, bind: string, env: X.BindEnv)
    requires RoutesOk(p) && ColonFree(name) && X.IsOrderOf(env.order, ports) && env.addressOk && env.refused == {}
    ensures X.Register(p, name, ports, bind, env).1 && AllListening(X.Register(p, name, ports, bind, env).0, name, ports.Keys)
  {
    hide X.Register, XP.Sound, XP.Held, EntryKey;
    XP.RegisterOutcome(p, name, ports, bind, env);
    RegisterStep(p, name, ports, bind, env);
  }

  // ---- Restart and Rollback ----

  /** A restart that succeeds, or a rollback to a binary: the candidate is tracked, active and recorded. */
  ghost predicate RunsCandidate(v: World, name: string, env: LaunchEnv) {
    && name in v.mgr.procs && v.mgr.procs[name] < |v.mgr.heap|
    && v.mgr.heap[v.mgr.procs[name]] == P.RunningProc(env.pid, env.ports, false, false)
    && name in v.reg.services
    && var t := v.reg.services[name];
       && t.status == R.Running && t.pid == env.pid && t.internalPorts == env.ports && t.lastStartedAt == env.startedAt
       && t.crashAttempts == 0 && !t.gaveUp
  }

  lemma RestartRuns(w: World, name: string, env: LaunchEnv)
    requires WorldOk(w) && RestartOk(w, name, env) && name in w.reg.services && w.reg.services[name].settings.kind == R.Binary
    requires RestartLocked(w, name, env).1
    ensures var v := RestartLocked(w, name, env).0;
            RunsCandidate(v, name, env) && v.reg.services[name].lastDeployedAt == w.reg.services[name].lastDeployedAt
  {
    hide WorldOk, Replace, ReplaceReady, ReplaceCoupled, Steady, RoutesOk, FreshPid, PP.Intended, NewRoutes, RoutesAtFailure, UndoRoutes, PutBack, RecordBack, RP.BoundedRun, RP.Bounded, Elsewhere, RegElsewhere;
    RestartReady(w, name, env);
    ReplaceProcesses(w, name, Some(w.reg.services[name]), Keep, P.FAILED_CODE, 0, env);
  }

  /** Restart otherwise: an invalid or unknown name is refused, a directory has nothing to restart. */
  lemma RestartOfOthers(w: World, name: string, env: LaunchEnv)
    requires name in w.reg.services ==> X.IsOrderOf(env.undo.order, w.reg.services[name].stablePorts)
    ensures (!ValidServiceName(name) || name !in w.reg.services) ==> Restart(w, name, env) == (w, false)
    ensures ValidServiceName(name) && name in w.reg.services && w.reg.services[name].settings.kind == R.Static ==> Restart(w, name, env) == (w, true)
  {
    hide ValidServiceName, Replace;
  }

  /** A rollback that goes through brings the previous deployment into force: a binary runs as a new process,
      a directory is served and called running; and the time of the rollback is the last deploy time. */
  lemma RollbackRuns(w: World, name: string, env: LaunchEnv, deployedAt: int)
    requires WorldOk(w) && RollbackOk(w, name, env) && Rollback(w, name, env, deployedAt).1
    ensures var v := Rollback(w, name, env, deployedAt).0;
            && name in w.reg.services && w.reg.services[name].previous.Some? && name in v.reg.services
            && v.reg.services[name].lastDeployedAt == deployedAt
            && var settings := w.reg.services[name].previous.value.settings;
               if settings.kind == R.Binary then RunsCandidate(v, name, env)
               else
                 && v.mgr == w.mgr && v.reg.services[name].status == R.Running && v.reg.services[name].pid == 0
                 && ServesFiles(v.prx, name, settings.path)
  {
    hide WorldOk, Steady, RoutesOk, X.Register, StagedRollback, RestartLocked, X.SwapStatic, FreshPid, PP.Intended, Settles, RestartOk, ServesFiles;
    var u := RolledWorld(w, name, env);
    RollbackStages(w, name, env);
    RolledSettles(w, name, env);
    SettledIsOk(w, u, name);
    if u.reg.services[name].settings.kind == R.Binary {
      RestartRuns(u, name, env);
    } else {
      WorldParts(u, name);
      SwapServesFiles(u.prx, name, u.reg.services[name].settings.path);
    }
  }

  lemma WorldParts(w: World, name: string)
    requires WorldOk(w) && name in w.reg.services
    ensures RoutesOk(w.prx) && ColonFree(name)
  {
    hide RoutesOk, Steady;
  }

  // ---- The bind pass ----

  /** Listening on this port of the service would be refused: it is not listened on as requested already. */
  ghost predicate PortRefused(p: X.Proxy, s: R.Service, k: string, env: X.BindEnv)
    requires k in s.stablePorts
  {
    k in env.refused && !Listens(p, s, k)
  }

  /** The service has a listener on the stable port of that name, at the address of the record. */
  ghost predicate Listens(p: X.Proxy, s: R.Service, k: string)
    requires k in s.stablePorts
  {
    && EntryKey(s.name, k) in p.entries
    && p.entries[EntryKey(s.name, k)].stablePort == s.stablePorts[k]
    && p.entries[EntryKey(s.name, k)].bind == if s.bind != "" then s.bind else "localhost"
  }

  /** One turn of the bind pass: it succeeds exactly if no port of the service is refused; then each has its
      listener and the record is as before, and otherwise the service is called failed. */
  lemma BindExact(w: World, name: string, env: X.BindEnv, now: int)
    requires WorldOk(w) && name in w.reg.services && X.IsOrderOf(env.order, w.reg.services[name].stablePorts)
    ensures var (v, ok) := BindListeners(w, name, env, now);
            var s := w.reg.services[name];
            && v.mgr == w.mgr && v.attempts == w.attempts && v.drains == w.drains && v.reg.tombstones == w.reg.tombstones
            && (ok <==> s.stablePorts == map[] || (env.addressOk && forall k | k in s.stablePorts :: !PortRefused(w.prx, s, k, env)))
            && (ok ==> v.reg == w.reg && forall k | k in s.stablePorts :: Listens(v.prx, s, k))
            && (!ok ==> v.reg.services == w.reg.services[name := s.(status := R.Failed, pid := 0, updatedAt := v.reg.services[name].updatedAt)])
  {
    hide RoutesOk, X.Register, EntryKey, Steady, R.UpdateStatus;
    WorldParts(w, name);
    SameName(w, name);
    var s := w.reg.services[name];
    BindRegisters(w.prx, s, env);
    CalledFailedExact(w.reg, name, now);
    if s.stablePorts == map[] {
      assert forall k :: k !in s.stablePorts;
    }
  }

  lemma CalledFailedExact(r: R.Registry, name: string, now: int)
    requires name in r.services
    ensures var q := R.UpdateStatus(r, name, R.Failed, 0, now).0;
            && q.tombstones == r.tombstones
            && name in q.services
            && q.services == r.services[name := r.services[name].(status := R.Failed, pid := 0, updatedAt := q.services[name].updatedAt)]
  {
  }

  lemma BindRegisters(p: X.Proxy, s: R.Service, env: X.BindEnv)
    requires RoutesOk(p) && ColonFree(s.name) && X.IsOrderOf(env.order, s.stablePorts)
    ensures var (q, ok) := X.Register(p, s.name, s.stablePorts, s.bind, env);
            && (ok <==> env.addressOk && forall k | k in s.stablePorts :: !PortRefused(p, s, k, env))
            && (ok ==> forall k | k in s.stablePorts :: Listens(q, s, k))
  {
    hide X.Register, XP.Sound, XP.Held, EntryKey;
    XP.RegisterOutcome(p, s.name, s.stablePorts, s.bind, env);
    var f := XP.FirstBlocked(p, s.name, s.stablePorts, X.NormalBind(s.bind), env, 0);
    forall j | 0 <= j < |env.order|
      ensures XP.Blocked(p, s.name, s.stablePorts, X.NormalBind(s.bind), env, j) <==> PortRefused(p, s, env.order[j], env)
    {
    }
    if f < |env.order| {
      assert PortRefused(p, s, env.order[f], env);
    } else {
      forall k | k in s.stablePorts ensures !PortRefused(p, s, k, env) {
        var j :| 0 <= j < |env.order| && env.order[j] == k;
        assert !XP.Blocked(p, s.name, s.stablePorts, X.NormalBind(s.bind), env, j);
      }
    }
    forall k | X.Register(p, s.name, s.stablePorts, s.bind, env).1 && k in s.stablePorts
      ensures Listens(X.Register(p, s.name, s.stablePorts, s.bind, env).0, s, k)
    {
      assert XP.Registered(X.Register(p, s.name, s.stablePorts, s.bind, env).0, s.name, k, s.stablePorts[k], X.NormalBind(s.bind));
    }
  }
}
