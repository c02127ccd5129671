/** How processes and services end: crashes, stops, removals and drains, who is signalled for them, and
    how crashes are counted, over every run. */
module Endings {
  import opened Options
  import opened Names
  import R = RegistrySpec
  import RP = RegistryProofs
  import P = ProcessSpec
  import PP = ProcessProofs
  import opened RT = ReplaceProcess
  import X = ProxySpec
  import XP = ProxyProofs
  import opened ServiceSpec
  import opened HotSwap
  import opened Coupling
  import opened Operations
  import opened Routes
  import opened Startup
  import opened Histories

  /** Every listener of the service answers "unavailable". */
  ghost predicate Down(p: X.Proxy, name: string) {
    forall k | k in p.entries && Owner(k) == name :: X.Serve(p, k) == Some(X.Unavailable)
  }

  lemma UnswapDowns(p: X.Proxy, name: string)
    requires RoutesOk(p) && ColonFree(name)
    ensures var q := X.UnswapPorts(p, name);
            Down(q, name) && q.entries == p.entries && q.open == p.open
  {
    XP.UnswapPortsExact(p, name);
    hide XP.Sound, XP.Held, X.CurrentHandlers, X.Serve, X.PlaceholderHandlers;
  }

  // ---- Crashes ----

  /** Whether a crash leads to a restart. */
  predicate Restarts(settings: R.Settings) {
    match settings.restartPolicy
    case "never" => false
    case "" => settings.watchPaths != []
    case "on-watch" => settings.watchPaths != []
    case _ => true
  }

  /** Crashes counted since the service last came up. */
  function Counted(w: World, name: string): int {
    if name in w.attempts then w.attempts[name] else 0
  }

  ghost predicate CrashCounted(w: World, v: World, name: string, s: R.Service, t: R.Service) {
    if !Restarts(s.settings) then
      v.attempts == w.attempts && t.crashAttempts == s.crashAttempts && t.gaveUp == s.gaveUp
    else if Counted(w, name) < 5 then
      v.attempts == w.attempts[name := Counted(w, name) + 1] && t.crashAttempts == Counted(w, name) + 1 && !t.gaveUp
    else
      v.attempts == w.attempts && t.crashAttempts == Counted(w, name) && t.gaveUp
  }

  /** The exit of a process that nobody marked: its service is down at once and called failed, and the
      restart policy and the crashes counted before decide whether this one is counted, or the service
      given up; a process whose service is gone is forgotten. */
  lemma CrashExact(w: World, pid: int, code: int, duration: int, now: int)
    requires WorldOk(w) && pid in w.mgr.watchers && w.mgr.watchers[pid].phase == P.Alive
    requires P.Classify(w.mgr, pid, code).verdict == P.Crash
    ensures var name, v := w.mgr.watchers[pid].name, ProcessExits(w, pid, code, duration, now);
            && name !in v.mgr.procs && v.mgr.crashes == w.mgr.crashes + [pid] && v.mgr.signals == w.mgr.signals
            && v.drains == w.drains && v.prx.entries == w.prx.entries && v.prx.open == w.prx.open
            && (name in v.reg.services <==> name in w.reg.services)
            && (name in w.reg.services ==>
                  var s, t := w.reg.services[name], v.reg.services[name];
                  && Down(v.prx, name)
                  && t == s.(status := R.Failed, pid := 0, crashAttempts := t.crashAttempts, gaveUp := t.gaveUp,
                             startHistory := R.Completed(s.startHistory, w.mgr.watchers[pid].startedAt, code, duration), updatedAt := t.updatedAt)
                  && CrashCounted(w, v, name, s, t))
            && (name !in w.reg.services ==> v.prx == w.prx && v.attempts == w.attempts)
  {
    hide Steady, RoutesOk, PP.Intended, X.CurrentHandlers, P.Close, P.Observe, P.Die, HandleCrash, R.CompleteStart, R.UpdateStatus, Reap, CrashCounted, Down;
    var name := w.mgr.watchers[pid].name;
    ReapShape(w, pid, code, duration, now);
    CrashReaped(w, pid, code, duration, now);
    ExitSteady(w.mgr, pid, code);
    CrashLogged(w.mgr, pid, code);
    var u := Reap(w, pid, code, duration, now);
    CrashStatus(u.reg, name, now);
    if name in w.reg.services {
      RecordIsColonFree(w.reg, name);
      var f := u.(reg := R.UpdateStatus(u.reg, name, R.Failed, 0, now).0);
      HandledExactly(f, name, now);
      var v := HandleCrash(f, name, now);
      CountsAlike(w, f, v, name, w.reg.services[name], f.reg.services[name], v.reg.services[name]);
    } else {
      UnknownCrash(u.(reg := R.UpdateStatus(u.reg, name, R.Failed, 0, now).0), name, now);
    }
  }

  lemma CountsAlike(w: World, u: World, v: World, name: string, s: R.Service, r: R.Service, t: R.Service)
    requires u.attempts == w.attempts && r.settings == s.settings && r.crashAttempts == s.crashAttempts && r.gaveUp == s.gaveUp
    ensures CrashCounted(u, v, name, r, t) <==> CrashCounted(w, v, name, s, t)
  {
  }

  lemma CrashReaped(w: World, pid: int, code: int, duration: int, now: int)
    requires pid in w.mgr.watchers && w.mgr.watchers[pid].phase == P.Alive && P.Classify(w.mgr, pid, code).verdict == P.Crash
    ensures var name, u := w.mgr.watchers[pid].name, Reap(w, pid, code, duration, now);
            && (name in u.reg.services <==> name in w.reg.services)
            && (name in w.reg.services ==>
                  var s, t := w.reg.services[name], u.reg.services[name];
                  t == s.(startHistory := R.Completed(s.startHistory, w.mgr.watchers[pid].startedAt, code, duration), updatedAt := t.updatedAt))
  {
    hide P.Close, P.Observe, P.Die;
  }

  lemma CrashLogged(m: P.Manager, pid: int, code: int)
    requires Steady(m) && pid in m.watchers && m.watchers[pid].phase == P.Alive && P.Classify(m, pid, code).verdict == P.Crash
    ensures ExitNow(m, pid, code).crashes == m.crashes + [pid] && ExitNow(m, pid, code).signals == m.signals
  {
  }

  lemma CrashStatus(r: R.Registry, name: string, now: int)
    ensures var q := R.UpdateStatus(r, name, R.Failed, 0, now).0;
            && (name in q.services <==> name in r.services)
            && (name in r.services ==> q.services[name] == r.services[name].(status := R.Failed, pid := 0, updatedAt := q.services[name].updatedAt))
  {
  }

  lemma HandledExactly(w: World, name: string, now: int)
    requires name in w.reg.services && w.reg.services[name].status == R.Failed && w.reg.services[name].pid == 0
    requires RoutesOk(w.prx) && ColonFree(name)
    ensures var v := HandleCrash(w, name, now);
            && v.mgr == w.mgr && v.drains == w.drains
            && Down(v.prx, name) && v.prx.entries == w.prx.entries && v.prx.open == w.prx.open
            && name in v.reg.services
            && var s, t := w.reg.services[name], v.reg.services[name];
               && t == s.(crashAttempts := t.crashAttempts, gaveUp := t.gaveUp, updatedAt := t.updatedAt)
               && CrashCounted(w, v, name, s, t)
  {
    hide RoutesOk, X.UnswapPorts, Down;
    UnswapDowns(w.prx, name);
  }

  lemma UnknownCrash(w: World, name: string, now: int)
    requires name !in w.reg.services
    ensures HandleCrash(w, name, now) == w
  {
  }

  // ---- Stop, Remove and the archive ----

  /** Stop of a registered service: its process, if there is one, is untracked, marked to be recorded with
      code 0 and signalled; the record says stopped if and only if the process was there and ended in
      time; the service is down in every case, with its listeners open. */
  lemma StopExact(w: World, name: string, stuck: bool, now: int)
    requires WorldOk(w)
    ensures var (v, ok) := Stop(w, name, stuck, now);
            if name !in w.reg.services then v == w && !ok
            else
              && (ok <==> name in w.mgr.procs && !stuck)
              && Ended(w.mgr, v.mgr, name)
              && name in v.reg.services
              && (if ok then v.reg.services[name] == w.reg.services[name].(status := R.Stopped, pid := 0, updatedAt := v.reg.services[name].updatedAt)
                  else v.reg == w.reg)
              && Down(v.prx, name) && v.prx.entries == w.prx.entries && v.prx.open == w.prx.open
              && v.attempts == w.attempts && v.drains == w.drains
  {
    hide Steady, RoutesOk, PP.Intended, X.CurrentHandlers, X.UnswapPorts, P.StopWith, Down, Ended;
    if name in w.reg.services {
      RecordIsColonFree(w.reg, name);
      UnswapDowns(w.prx, name);
      StopEnds(w.mgr, name);
    }
  }

  /** The process that was tracked under the name, and no other, is untracked, marked and signalled. */
  ghost predicate Ended(m: P.Manager, q: P.Manager, name: string) {
    && q.procs == m.procs - {name} && q.heap == m.heap && q.watchers == m.watchers && q.crashes == m.crashes
    && (if name in m.procs then q.signals == m.signals + [P.Pid(m, name)] && q.draining == m.draining[P.Pid(m, name) := 0]
        else q.signals == m.signals && q.draining == m.draining)
  }

  lemma StopEnds(m: P.Manager, name: string)
    requires Steady(m)
    ensures var (q, ok) := P.StopWith(m, name, P.STOPPED_CODE);
            Ended(m, q, name) && (ok <==> name in m.procs)
  {
    assert PP.TableLive(m);
    assert name !in m.procs ==> m.procs - {name} == m.procs;
  }

  /** Remove: the process ends as with Stop, the record is gone and leaves no tombstone, and - for a name
      without a colon - so are the listeners, closed, and the route. */
  lemma RemoveExact(w: World, name: string)
    requires WorldOk(w)
    ensures var v := Remove(w, name);
            && Ended(w.mgr, v.mgr, name)
            && v.reg.services == w.reg.services - {name} && v.reg.tombstones == w.reg.tombstones
            && v.attempts == w.attempts && v.drains == w.drains
            && (ColonFree(name) ==> Closed(w.prx, v.prx, name))
  {
    hide Steady, RoutesOk, PP.Intended, X.CurrentHandlers, X.RemovePorts, P.StopWith, Ended, Closed;
    StopEnds(w.mgr, name);
    if ColonFree(name) {
      RemoveCloses(w.prx, name);
    }
  }

  /** The service's entries and route are gone, the listeners of those entries are closed, all others stay
      open. */
  ghost predicate Closed(p: X.Proxy, q: X.Proxy, name: string) {
    && (forall k :: k in q.entries <==> k in p.entries && Owner(k) != name)
    && name !in q.routes
    && (forall k | k in p.entries && Owner(k) == name :: p.entries[k].listener !in q.open)
    && (forall k | k in q.entries :: q.entries[k] == p.entries[k] && q.entries[k].listener in q.open)
  }

  lemma RemoveCloses(p: X.Proxy, name: string)
    requires RoutesOk(p) && ColonFree(name)
    ensures Closed(p, X.RemovePorts(p, name), name)
  {
    XP.RemovePortsExact(p, name);
    hide XP.Sound, X.CurrentHandlers, X.Matching, X.ListenersOf;
  }

  /** Archiving is refused for a missing, running or archived service; else the record remembers what it
      was, and its listeners and stable ports stay. */
  lemma ArchiveExact(w: World, name: string, now: int)
    ensures var (v, ok) := Archive(w, name, now);
            && v.mgr == w.mgr && v.prx == w.prx && v.attempts == w.attempts && v.drains == w.drains
            && (ok <==> name in w.reg.services && w.reg.services[name].status != R.Running && w.reg.services[name].status != R.Archived)
            && v.reg == if !ok then w.reg else w.reg.(services := w.reg.services[name := w.reg.services[name].(
                 status := R.Archived, pid := 0, archivedAt := now, archivedFrom := Some(w.reg.services[name].status), updatedAt := now)])
    ensures var (v, ok) := RestoreArchived(w, name, now);
            && v.mgr == w.mgr && v.prx == w.prx && v.attempts == w.attempts && v.drains == w.drains
            && (ok <==> name in w.reg.services && w.reg.services[name].status == R.Archived)
            && v.reg == if !ok then w.reg else w.reg.(services := w.reg.services[name := w.reg.services[name].(
                 status := R.Stopped, archivedAt := 0, archivedFrom := None, updatedAt := now)])
  {
  }

  /** Pruning an archived service, and no other: record and listeners go, and a tombstone keeps when it was
      archived and pruned, and on which ports it was. */
  lemma PruneExact(w: World, name: string, now: int)
    requires WorldOk(w)
    ensures var (v, ok) := Prune(w, name, now);
            && (ok <==> name in w.reg.services && w.reg.services[name].status == R.Archived)
            && (!ok ==> v == w)
            && (ok ==>
                  && v.mgr == w.mgr && v.attempts == w.attempts && v.drains == w.drains
                  && v.reg.services == w.reg.services - {name}
                  && v.reg.tombstones == w.reg.tombstones[name := R.Tombstone(name, w.reg.services[name].archivedAt, now, w.reg.services[name].stablePorts)]
                  && Closed(w.prx, v.prx, name))
  {
    hide Steady, RoutesOk, PP.Intended, X.CurrentHandlers, X.RemovePorts, Closed;
    if name in w.reg.services {
      RecordIsColonFree(w.reg, name);
      RemoveCloses(w.prx, name);
    }
  }

  // ---- Who is signalled, who waits for a drain, and what is counted ----

  /** A replacement: a candidate that fails is signalled if it lives; the process it replaces is scheduled
      for its drain, and the count of crashes starts again. */
  ghost predicate Booked(w: World, v: World, name: string, ok: bool, events: seq<RP.HistoryOp>, env: LaunchEnv) {
    && v.mgr.signals == w.mgr.signals + (if ok then [] else Signalled(env, events))
    && v.drains == w.drains + (if ok then PP.TrackedUnder(w.mgr, name) else [])
    && v.attempts == (if ok then w.attempts - {name} else w.attempts)
  }

  lemma ReplaceBooks(w: World, name: string, previous: Option<R.Service>, listeners: Listeners, verifyCode: int, deployedAt: int, env: LaunchEnv)
    requires ReplaceReady(w, name, previous, listeners, verifyCode, env)
    ensures var (v, ok) := Replace(w, name, previous, listeners, verifyCode, deployedAt, env);
            Booked(w, v, name, ok, ReplaceEvents(w.prx, name, listeners, env), env)
  {
    hide Replace, Elsewhere, RegElsewhere, FreshPid, LaunchWorks, TakeOverWorks, RecordBack, RecordRunning, SameConfig, Events, ReplaceEvents, RoutesAtFailure, NewRoutes, UndoRoutes, X.RemovePorts, Quiet, Accounted;
    ReplaceProcesses(w, name, previous, listeners, verifyCode, deployedAt, env);
    SteadyTracks(w.mgr);
  }

  lemma DeployBooks(w: World, req: Request, env: DeployEnv)
    requires WorldOk(w) && DeployOk(w, req, env)
    ensures var (v, ok) := Deploy(w, req, env);
            Booked(w, v, req.name, ok, DeployEvents(w, req, env), env.launch)
  {
    hide WorldOk, Replace, AllocatePorts, WorldElsewhere, ReplaceReady, ReplaceCoupled, FreshPid, StagedRecord, ReplaceEvents, PortsDiffer;
    if ValidServiceName(req.name) && env.accepted && AllocatePorts(w, req.name, Preferred(req), req.bind, env.alloc).1.Ports? {
      DeployUnfolds(w, req, env);
      DeployReady(w, req, env);
      var s := StagedRecord(w, req, env);
      ReplaceBooks(AtReplace(w, req, env), req.name, R.Get(w.reg, req.name), Reregister(s.stablePorts, s.bind), P.STOPPED_CODE, env.deployedAt, env.launch);
    }
  }

  lemma RestartBooks(w: World, name: string, env: LaunchEnv)
    requires WorldOk(w) && RestartOk(w, name, env)
    ensures Booked(w, RestartLocked(w, name, env).0, name, RestartsProcess(w, name, env), RestartEvents(w, name, env), env)
  {
    hide WorldOk, Replace, ReplaceReady, ReplaceCoupled, FreshPid, PortsDiffer, ReplaceEvents;
    if name in w.reg.services && w.reg.services[name].settings.kind == R.Binary {
      RestartReady(w, name, env);
      ReplaceBooks(w, name, Some(w.reg.services[name]), Keep, P.FAILED_CODE, 0, env);
    }
  }

  /** A rollback that has come to its restart and goes through. */
  ghost predicate RollsBack(w: World, name: string, env: LaunchEnv, deployedAt: int)
    requires RollbackOk(w, name, env)
  {
    RollbackRestarting(w, name, env) && Rollback(w, name, env, deployedAt).1
  }

  lemma RollbackBooks(w: World, name: string, env: LaunchEnv, deployedAt: int)
    requires WorldOk(w) && RollbackOk(w, name, env)
    ensures Booked(w, Rollback(w, name, env, deployedAt).0, name, RollsBack(w, name, env, deployedAt), RollbackEvents(w, name, env), env)
  {
    hide WorldOk, X.Register, StagedRollback, RestartLocked, X.SwapStatic, FreshPid, Settles, PortsDiffer, ReplaceEvents, RestartEvents, Signalled;
    if name in w.reg.services && w.reg.services[name].previous.Some? {
      var u := RolledWorld(w, name, env);
      RolledSettles(w, name, env);
      RollbackStages(w, name, env);
      SettledIsOk(w, u, name);
      if u.reg.services[name].settings.kind == R.Binary {
        RestartBooks(u, name, env);
        SignalledNone(env);
      }
    }
    SignalledNone(env);
  }

  lemma SignalledNone(env: LaunchEnv)
    ensures Signalled(env, []) == []
  {
  }

  lemma RestoreOneBooks(w: World, name: string, env: RestoreEnv)
    requires WorldOk(w) && RestoreOk(w, name, env)
    ensures var (v, outcome) := RestoreOne(w, name, env);
            Booked(w, v, name, outcome == RevivedRunning, RestoreEvents(w, name, env), env.launch)
  {
    hide RestoreOne, X.SwapPorts, X.SwapStatic, X.UnswapPorts, FreshPid, Called, RevivalWorks, RestoreEvents, Steady, RoutesOk, RecordInFlight, Elsewhere, RegElsewhere, ProcsInFlight, Signalled;
    RestoreOneEnds(w, name, env);
  }

  lemma StaticBooks(w: World, req: Request, env: DeployEnv)
    requires WorldOk(w) && DeployStaticOk(w, req, env)
    ensures var v := DeployStatic(w, req, env).0;
            v.mgr == w.mgr && v.drains == w.drains && v.attempts == w.attempts
  {
    hide WorldOk, AllocatePorts, X.Register, X.SwapStatic, RestorePrevious, RestoreFailedDeploy, StagedRecord, StaticEnd;
    StaticKeepsProcs(w, req, env);
    if ValidServiceName(req.name) && env.accepted && AllocatePorts(w, req.name, Preferred(req), req.bind, env.alloc).1.Ports? {
      StaticUnfolds(w, req, env);
      var s := StagedRecord(w, req, env);
      StaticEndBooks(StaticAtBind(w, req, env), req, env, R.Get(w.reg, req.name), X.Register(AtReplace(w, req, env).prx, req.name, s.stablePorts, s.bind, env.launch.bind).1);
    }
  }

  lemma StaticEndBooks(u: World, req: Request, env: DeployEnv, previous: Option<R.Service>, bound: bool)
    requires previous.Some? ==> X.IsOrderOf(env.launch.undo.order, previous.value.stablePorts)
    ensures var v := StaticEnd(u, req, env, previous, bound);
            v.drains == u.drains && v.attempts == u.attempts
  {
    hide X.SwapStatic, X.UnswapPorts, X.RemovePorts, UndoRoutes, R.UpdateStatus, R.UpdateLastDeployed;
  }

  /** Who is signalled in one operation: the process of a service that is stopped or removed, a replaced one
      whose drain ends, and a failed candidate that lives. */
  ghost function OpSignals(w: World, op: Op): seq<int>
    requires OpOk(w, op)
  {
    match op
    case OpStop(name, _, _) => PP.TrackedUnder(w.mgr, name)
    case OpRemove(name) => PP.TrackedUnder(w.mgr, name)
    case OpDrain(i) => if i < |w.drains| then [w.drains[i]] else []
    case OpDeploy(req, env) => if Deploy(w, req, env).1 then [] else Signalled(env.launch, DeployEvents(w, req, env))
    case OpRestart(name, env) =>
      if !ValidServiceName(name) || RestartsProcess(w, name, env) then [] else Signalled(env, RestartEvents(w, name, env))
    case OpRollback(name, env, t) => if RollsBack(w, name, env, t) then [] else Signalled(env, RollbackEvents(w, name, env))
    case OpRestoreOne(name, env) => if RestoreOne(w, name, env).1 == RevivedRunning then [] else Signalled(env.launch, RestoreEvents(w, name, env))
    case _ => []
  }

  /** The operations after which another process runs for the service. */
  ghost predicate BringsUp(w: World, op: Op)
    requires OpOk(w, op)
  {
    match op
    case OpDeploy(req, env) => Deploy(w, req, env).1
    case OpRestart(name, env) => ValidServiceName(name) && RestartsProcess(w, name, env)
    case OpRollback(name, env, t) => RollsBack(w, name, env, t)
    case OpRestoreOne(name, env) => RestoreOne(w, name, env).1 == RevivedRunning
    case _ => false
  }

  /** The replaced process, which is to be drained. */
  ghost function OpScheduled(w: World, op: Op): seq<int>
    requires OpOk(w, op)
  {
    if BringsUp(w, op) then PP.TrackedUnder(w.mgr, Subject(w, op)) else []
  }

  /** A crash that is followed by a restart. */
  ghost predicate CountsCrash(w: World, op: Op) {
    && op.OpExit? && op.pid in w.mgr.watchers && w.mgr.watchers[op.pid].phase == P.Alive
    && P.Classify(w.mgr, op.pid, op.code).verdict == P.Crash
    && w.mgr.watchers[op.pid].name in w.reg.services
    && Restarts(w.reg.services[w.mgr.watchers[op.pid].name].settings)
    && Counted(w, w.mgr.watchers[op.pid].name) < 5
  }

  /** One operation, any outcome: exactly these are signalled, exactly these wait for their drain afterwards,
      and crashes are counted or forgotten for its own service only. */
  lemma ApplyBooks(w: World, op: Op)
    requires WorldOk(w) && OpOk(w, op)
    ensures var v, subject := Apply(w, op), Subject(w, op);
            && v.mgr.signals == w.mgr.signals + OpSignals(w, op)
            && (if op.OpDrain? && op.i < |w.drains| then v.drains == w.drains[..op.i] + w.drains[op.i + 1..]
                else v.drains == w.drains + OpScheduled(w, op))
            && v.attempts == (if BringsUp(w, op) then w.attempts - {subject}
                              else if CountsCrash(w, op) then w.attempts[subject := Counted(w, subject) + 1]
                              else w.attempts)
  {
    hide WorldOk, Deploy, DeployStatic, RestartLocked, Rollback, Stop, Remove, Reserve, Archive, RestoreArchived, Prune, RestoreOne, ProcessExits, DeployOk, RestartOk, RollbackOk, ReserveOk, RestoreOk, RemoveOk, BindOk, DeployStaticOk, BindListeners, DeployEvents, RestartEvents, RollbackEvents, RestoreEvents, RollsBack, RestartsProcess, Signalled, CountsCrash, Counted;
    OnlyExitsCount(w, op);
    match op
    case OpDeploy(req, env) => DeployBooks(w, req, env);
    case OpDeployStatic(req, env) => StaticBooks(w, req, env);
    case OpRestart(name, env) =>
      if ValidServiceName(name) {
        RestartBooks(w, name, env);
      }
    case OpRollback(name, env, t) => RollbackBooks(w, name, env, t);
    case OpRestoreOne(name, env) =>
      RestoreOneBooks(w, name, env);
      NotTracked(w, name, env);
    case OpStop(name, stuck, now) => StopBooks(w, name, stuck, now);
    case OpRemove(name) => RemoveBooks(w, name);
    case OpExit(pid, code, duration, now) => ExitBooks(w, pid, code, duration, now);
    case _ => RecordBooks(w, op);
  }

  lemma OnlyExitsCount(w: World, op: Op)
    ensures CountsCrash(w, op) ==> op.OpExit? && op.pid in w.mgr.watchers
  {
  }

  lemma NotTracked(w: World, name: string, env: RestoreEnv)
    requires RestoreOk(w, name, env)
    ensures PP.TrackedUnder(w.mgr, name) == []
  {
  }

  lemma StopBooks(w: World, name: string, stuck: bool, now: int)
    requires WorldOk(w)
    ensures var v := Stop(w, name, stuck, now).0;
            v.mgr.signals == w.mgr.signals + PP.TrackedUnder(w.mgr, name) && v.drains == w.drains && v.attempts == w.attempts
  {
    hide RoutesOk, PP.Intended, X.CurrentHandlers, Down, Steady;
    StopExact(w, name, stuck, now);
    TrackedOne(w, name);
  }

  lemma RemoveBooks(w: World, name: string)
    requires WorldOk(w)
    ensures var v := Remove(w, name);
            v.mgr.signals == w.mgr.signals + PP.TrackedUnder(w.mgr, name) && v.drains == w.drains && v.attempts == w.attempts
  {
    hide RoutesOk, PP.Intended, X.CurrentHandlers, Closed, Steady, Remove;
    RemoveExact(w, name);
    TrackedOne(w, name);
  }

  lemma TrackedOne(w: World, name: string)
    requires WorldOk(w)
    ensures PP.TrackedUnder(w.mgr, name) == if name in w.mgr.procs then [P.Pid(w.mgr, name)] else []
    ensures name in w.mgr.procs ==> name in w.reg.services
  {
    hide RoutesOk, PP.Intended, X.CurrentHandlers, Steady;
    assert name in w.mgr.procs ==> Registered(w, name);
  }

  lemma ExitBooks(w: World, pid: int, code: int, duration: int, now: int)
    requires WorldOk(w)
    ensures var v := ProcessExits(w, pid, code, duration, now);
            && v.mgr.signals == w.mgr.signals && v.drains == w.drains
            && v.attempts == (if CountsCrash(w, OpExit(pid, code, duration, now)) then w.attempts[w.mgr.watchers[pid].name := Counted(w, w.mgr.watchers[pid].name) + 1]
                              else w.attempts)
  {
    hide WorldOk, Down, P.Classify, HandleCrash, Reap, R.UpdateStatus, R.Completed, Restarts;
    if pid in w.mgr.watchers && w.mgr.watchers[pid].phase == P.Alive {
      if P.Classify(w.mgr, pid, code).verdict == P.Crash {
        CrashExact(w, pid, code, duration, now);
      } else {
        QuietExit(w, pid, code, duration, now);
      }
    }
  }

  lemma QuietExit(w: World, pid: int, code: int, duration: int, now: int)
    requires pid in w.mgr.watchers && w.mgr.watchers[pid].phase == P.Alive
    ensures var u := Reap(w, pid, code, duration, now);
            u.mgr.signals == w.mgr.signals && u.drains == w.drains && u.attempts == w.attempts
  {
    hide R.CompleteStart;
  }

  lemma RecordBooks(w: World, op: Op)
    requires OpOk(w, op) && (op.OpReserve? || op.OpArchive? || op.OpRestoreArchived? || op.OpPrune? || op.OpBind? || op.OpDrain?)
    ensures var v := Apply(w, op);
            && v.mgr.signals == w.mgr.signals + OpSignals(w, op) && v.attempts == w.attempts
            && (if op.OpDrain? && op.i < |w.drains| then v.drains == w.drains[..op.i] + w.drains[op.i + 1..] else v.drains == w.drains)
  {
    hide AllocatePorts, X.Register, X.RemovePorts, ReserveOk, BindOk, R.Register, R.Prune, R.Archive, R.RestoreArchived, R.UpdateStatus;
  }

  // ---- Runs ----

  ghost function RunSignals(w: World, ops: seq<Op>): seq<int>
    requires RunOk(w, ops)
    decreases |ops|
  {
    if ops == [] then [] else OpSignals(w, ops[0]) + RunSignals(Apply(w, ops[0]), ops[1..])
  }

  ghost function RunScheduled(w: World, ops: seq<Op>): seq<int>
    requires RunOk(w, ops)
    decreases |ops|
  {
    if ops == [] then [] else OpScheduled(w, ops[0]) + RunScheduled(Apply(w, ops[0]), ops[1..])
  }

  /** Who has been drained: signalled because a drain window ended. */
  ghost function RunDrained(w: World, ops: seq<Op>): seq<int>
    requires RunOk(w, ops)
    decreases |ops|
  {
    if ops == [] then [] else (if ops[0].OpDrain? then OpSignals(w, ops[0]) else []) + RunDrained(Apply(w, ops[0]), ops[1..])
  }

  /** Over every run: exactly these are signalled, in this order; and each process that was waiting for its
      drain, or was replaced since, either still waits or has been drained, exactly once, and is among
      those signalled. */
  lemma {:induction false} RunsSignal(w: World, ops: seq<Op>)
    requires WorldOk(w) && RunOk(w, ops)
    ensures var v := RunAll(w, ops);
            && v.mgr.signals == w.mgr.signals + RunSignals(w, ops)
            && multiset(v.drains) + multiset(RunDrained(w, ops)) == multiset(w.drains) + multiset(RunScheduled(w, ops))
            && multiset(RunDrained(w, ops)) <= multiset(RunSignals(w, ops))
    decreases |ops|
  {
    hide WorldOk, OpOk, Apply, Settles, Subject, OpSignals, OpScheduled;
    if ops == [] {
      assert w.mgr.signals + [] == w.mgr.signals;
    } else {
      var op, v := ops[0], Apply(w, ops[0]);
      ApplyKeeps(w, op);
      SettledIsOk(w, v, Subject(w, op));
      RunsSignal(v, ops[1..]);
      SignalStep(w, op);
      var drained := if op.OpDrain? then OpSignals(w, op) else [];
      JoinedBooks(w.drains, v.drains, RunAll(w, ops).drains, drained, RunDrained(v, ops[1..]), OpScheduled(w, op), RunScheduled(v, ops[1..]));
      JoinedSignals(w.mgr.signals, drained, RunDrained(v, ops[1..]), OpSignals(w, op), RunSignals(v, ops[1..]));
    }
  }

  lemma JoinedBooks(a: seq<int>, b: seq<int>, c: seq<int>, drained1: seq<int>, drained2: seq<int>, scheduled1: seq<int>, scheduled2: seq<int>)
    requires multiset(b) + multiset(drained1) == multiset(a) + multiset(scheduled1)
    requires multiset(c) + multiset(drained2) == multiset(b) + multiset(scheduled2)
    ensures multiset(c) + multiset(drained1 + drained2) == multiset(a) + multiset(scheduled1 + scheduled2)
  {
    assert multiset(drained1 + drained2) == multiset(drained1) + multiset(drained2);
    assert multiset(scheduled1 + scheduled2) == multiset(scheduled1) + multiset(scheduled2);
    var all, whole := multiset(c) + multiset(drained1 + drained2), multiset(a) + multiset(scheduled1 + scheduled2);
    forall pid ensures all[pid] == whole[pid] {
      assert (multiset(b) + multiset(drained1))[pid] == (multiset(a) + multiset(scheduled1))[pid];
      assert (multiset(c) + multiset(drained2))[pid] == (multiset(b) + multiset(scheduled2))[pid];
    }
  }

  lemma JoinedSignals(before: seq<int>, drained1: seq<int>, drained2: seq<int>, signals1: seq<int>, signals2: seq<int>)
    requires multiset(drained1) <= multiset(signals1) && multiset(drained2) <= multiset(signals2)
    ensures multiset(drained1 + drained2) <= multiset(signals1 + signals2)
    ensures before + (signals1 + signals2) == before + signals1 + signals2
  {
  }

  lemma SignalStep(w: World, op: Op)
    requires WorldOk(w) && OpOk(w, op)
    ensures var v, drained := Apply(w, op), if op.OpDrain? then OpSignals(w, op) else [];
            && v.mgr.signals == w.mgr.signals + OpSignals(w, op)
            && multiset(v.drains) + multiset(drained) == multiset(w.drains) + multiset(OpScheduled(w, op))
            && multiset(drained) <= multiset(OpSignals(w, op))
  {
    hide WorldOk, OpOk, Apply, Subject;
    ApplyBooks(w, op);
    if op.OpDrain? && op.i < |w.drains| {
      assert w.drains == w.drains[..op.i] + [w.drains[op.i]] + w.drains[op.i + 1..];
    }
  }

  /** So every replaced process that no longer waits for its drain has been signalled. */
  lemma DrainedIsSignalled(w: World, ops: seq<Op>, pid: int)
    requires WorldOk(w) && RunOk(w, ops) && (pid in w.drains || pid in RunScheduled(w, ops))
    ensures var v := RunAll(w, ops);
            pid in v.drains || pid in v.mgr.signals
  {
    hide WorldOk, RunOk, RunAll, RunDrained, RunScheduled, RunSignals;
    RunsSignal(w, ops);
    assert pid in multiset(w.drains) + multiset(RunScheduled(w, ops));
    assert pid in multiset(RunAll(w, ops).drains) || pid in multiset(RunDrained(w, ops));
  }

  /** The crashes counted for a service after one operation. */
  ghost function CountNow(w: World, op: Op, n: string, count: int): int
    requires OpOk(w, op)
  {
    if n != Subject(w, op) then count
    else if BringsUp(w, op) then 0
    else if CountsCrash(w, op) then count + 1
    else count
  }

  ghost function CountAfter(w: World, ops: seq<Op>, n: string, count: int): int
    requires RunOk(w, ops)
    decreases |ops|
  {
    if ops == [] then count else CountAfter(Apply(w, ops[0]), ops[1..], n, CountNow(w, ops[0], n, count))
  }

  /** Over every run: the count of a service is the number of its crashes that led to a restart since it
      last came up, and never more than five. */
  lemma {:induction false} RunsCount(w: World, ops: seq<Op>, n: string)
    requires WorldOk(w) && RunOk(w, ops) && 0 <= Counted(w, n) <= 5
    ensures Counted(RunAll(w, ops), n) == CountAfter(w, ops, n, Counted(w, n))
    ensures 0 <= Counted(RunAll(w, ops), n) <= 5
    decreases |ops|
  {
    hide WorldOk, OpOk, Apply, Settles, Subject, Counted, CountNow;
    if ops != [] {
      var v := Apply(w, ops[0]);
      ApplyKeeps(w, ops[0]);
      SettledIsOk(w, v, Subject(w, ops[0]));
      CountStep(w, ops[0], n);
      RunsCount(v, ops[1..], n);
    }
  }

  lemma CountStep(w: World, op: Op, n: string)
    requires WorldOk(w) && OpOk(w, op) && 0 <= Counted(w, n) <= 5
    ensures Counted(Apply(w, op), n) == CountNow(w, op, n, Counted(w, n))
    ensures 0 <= Counted(Apply(w, op), n) <= 5
  {
    hide WorldOk, OpOk, Apply, BringsUp, OpSignals, OpScheduled, Restarts, P.Classify;
    ApplyBooks(w, op);
  }
}
