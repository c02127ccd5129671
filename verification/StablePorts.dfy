/** Stable ports: how a new service gets them, and that nothing changes or shares them afterwards. */
module StablePorts {
  import opened Options
  import opened Names
  import R = RegistrySpec
  import P = ProcessSpec
  import PP = ProcessProofs
  import opened RT = ReplaceProcess
  import X = ProxySpec
  import opened ServiceSpec
  import opened HotSwap
  import opened Coupling
  import opened Operations
  import opened Startup
  import opened Routes
  import opened Deployments

  // ---- Allocation ----

  /** The address can be used, and the port can be bound, or the name has its listener there already. */
  predicate Bindable(p: X.Proxy, name: string, portName: string, port: int, bind: string, env: AllocEnv) {
    && env.addressOk
    && ((portName, port) !in env.refused
        || (EntryKey(name, portName) in p.entries
            && p.entries[EntryKey(name, portName)].stablePort == port && p.entries[EntryKey(name, portName)].bind == X.NormalBind(bind)))
  }

  predicate Free(p: X.Proxy, name: string, portName: string, port: int, used: set<int>, bind: string, env: AllocEnv) {
    port !in used && Bindable(p, name, portName, port, bind, env)
  }

  lemma TryBindExact(p: X.Proxy, name: string, portName: string, port: int, bind: string, env: AllocEnv)
    ensures var (q, ok) := TryBind(p, name, portName, port, bind, env);
            && (ok <==> Bindable(p, name, portName, port, bind, env))
            && (!ok ==> q.entries == p.entries)
  {
    hide EntryKey, X.Commit;
    var refused: set<string> := if (portName, port) in env.refused then {portName} else {};
    var b := X.BindEnv(env.addressOk, [portName], refused);
    assert X.IsOrderOf(b.order, map[portName := port]);
    if env.addressOk {
      var turn := X.RegisterTurn(p, name, portName, port, X.NormalBind(bind), portName in refused, []);
      if turn.Next? {
        assert X.RegisterLoop(p, name, map[portName := port], X.NormalBind(bind), b, 0, []) == (turn.p, Some(turn.pending));
      }
    }
  }

  lemma FreeDependsOn(p: X.Proxy, q: X.Proxy, name: string, portName: string, used: set<int>, bind: string, env: AllocEnv)
    requires q.entries == p.entries
    ensures forall port :: Free(p, name, portName, port, used, bind, env) <==> Free(q, name, portName, port, used, bind, env)
  {
  }

  /** The scan finds the lowest free port of the range, if there is one. */
  lemma {:induction false} FirstFreeExact(p: X.Proxy, name: string, portName: string, port: int, used: set<int>, bind: string, env: AllocEnv)
    ensures var found := FirstFree(p, name, portName, port, used, bind, env).1;
            match found
            case Some(q) => port <= q <= 8200 && Free(p, name, portName, q, used, bind, env) && forall r | port <= r < q :: !Free(p, name, portName, r, used, bind, env)
            case None => forall r | port <= r <= 8200 :: !Free(p, name, portName, r, used, bind, env)
    decreases RANGE_END + 1 - port
  {
    hide TryBind, EntryKey, Bindable;
    if port <= RANGE_END {
      TryBindExact(p, name, portName, port, bind, env);
      if port in used {
        FirstFreeExact(p, name, portName, port + 1, used, bind, env);
      } else if !Free(p, name, portName, port, used, bind, env) {
        var q := TryBind(p, name, portName, port, bind, env).0;
        FirstFreeExact(q, name, portName, port + 1, used, bind, env);
        FreeDependsOn(p, q, name, portName, used, bind, env);
      }
    }
  }

  /** The port a name is given: the preferred one if it is set and free, else the lowest free one of the
      range. */
  ghost predicate Given(p: X.Proxy, name: string, portName: string, preferred: int, used: set<int>, bind: string, env: AllocEnv, port: int) {
    && preferred !in {7700, 7701}
    && Free(p, name, portName, port, used, bind, env)
    && (if preferred != 0 && Free(p, name, portName, preferred, used, bind, env) then port == preferred
        else 8100 <= port <= 8200 && forall r | 8100 <= r < port :: !Free(p, name, portName, r, used, bind, env))
  }

  /** No port can be given: the preferred one is reserved, or nothing is free. */
  ghost predicate Denied(p: X.Proxy, name: string, portName: string, preferred: int, used: set<int>, bind: string, env: AllocEnv, why: Shortage) {
    if preferred in {7700, 7701} then why == PortReserved
    else
      && why == NoneFree
      && (preferred == 0 || !Free(p, name, portName, preferred, used, bind, env))
      && (forall r | 8100 <= r <= 8200 :: !Free(p, name, portName, r, used, bind, env))
  }

  /** One new port: the preferred one if it is set and free, else the lowest free one of the range; it
      fails exactly for a reserved preference or an exhausted range. */
  lemma AllocateOneExact(p: X.Proxy, name: string, portName: string, preferred: int, used: set<int>, bind: string, env: AllocEnv)
    ensures match AllocateOne(p, name, portName, preferred, used, bind, env).1
            case Port(q) => Given(p, name, portName, preferred, used, bind, env, q)
            case Refused(why) => Denied(p, name, portName, preferred, used, bind, env, why)
  {
    hide TryBind, EntryKey, FirstFree, Bindable;
    TryBindExact(p, name, portName, preferred, bind, env);
    var q := if preferred != 0 && preferred !in used then TryBind(p, name, portName, preferred, bind, env).0 else p;
    FirstFreeExact(q, name, portName, RANGE_START, used, bind, env);
    if q.entries == p.entries {
      FreeDependsOn(p, q, name, portName, used, bind, env);
    }
  }

  lemma {:induction false} FirstFreeUnused(p: X.Proxy, name: string, portName: string, port: int, used: set<int>, bind: string, env: AllocEnv)
    ensures var found := FirstFree(p, name, portName, port, used, bind, env).1;
            found.Some? ==> port <= found.value <= RANGE_END && found.value !in used
    decreases RANGE_END + 1 - port
  {
    hide TryBind;
    if port <= RANGE_END {
      FirstFreeUnused(TryBind(p, name, portName, port, bind, env).0, name, portName, port + 1, used, bind, env);
      FirstFreeUnused(p, name, portName, port + 1, used, bind, env);
    }
  }

  /** Ports handed to a new service: none of them taken, reserved or zero, no two of them equal. */
  ghost predicate Fresh(ports: map<string, int>, taken: set<int>) {
    && (forall k | k in ports :: ports[k] != 0 && ports[k] !in {7700, 7701} && ports[k] !in taken)
    && (forall j, k | j in ports && k in ports && j != k :: ports[j] != ports[k])
  }

  lemma AllocateOneFresh(p: X.Proxy, name: string, portName: string, preferred: int, used: set<int>, bind: string, env: AllocEnv)
    ensures var one := AllocateOne(p, name, portName, preferred, used, bind, env).1;
            one.Port? ==> one.port != 0 && one.port !in RESERVED_PORTS && one.port !in used
                          && (one.port == preferred || RANGE_START <= one.port <= RANGE_END)
  {
    hide TryBind, FirstFree;
    var q := if preferred != 0 && preferred !in used then TryBind(p, name, portName, preferred, bind, env).0 else p;
    FirstFreeUnused(q, name, portName, RANGE_START, used, bind, env);
  }

  /** Every port of the result is the preferred one or one of the range. */
  ghost predicate FromRange(ports: map<string, int>, preferred: map<string, int>) {
    forall k | k in ports :: k in preferred && (ports[k] == preferred[k] || RANGE_START <= ports[k] <= RANGE_END)
  }

  lemma {:induction false} AllocateLoopFresh(p: X.Proxy, name: string, preferred: map<string, int>, taken: set<int>, used: set<int>, bind: string, env: AllocEnv, i: nat, result: map<string, int>)
    requires i <= |env.order| && forall k | k in env.order :: k in preferred
    requires Fresh(result, taken) && FromRange(result, preferred)
    requires taken <= used && forall k | k in result :: result[k] in used
    ensures var got := AllocateLoop(p, name, preferred, used, bind, env, i, result).1;
            got.Ports? ==> Fresh(got.ports, taken) && FromRange(got.ports, preferred)
    decreases |env.order| - i
  {
    hide AllocateOne, X.RemovePorts;
    if i < |env.order| {
      var portName := env.order[i];
      AllocateOneFresh(p, name, portName, preferred[portName], used, bind, env);
      var (q, one) := AllocateOne(p, name, portName, preferred[portName], used, bind, env);
      if one.Port? {
        AllocateLoopFresh(q, name, preferred, taken, used + {one.port}, bind, env, i + 1, result[portName := one.port]);
      }
    }
  }

  /** A registered service gets the ports it has; a new one gets fresh ones under the requested names. */
  lemma AllocatedPorts(w: World, name: string, preferred: map<string, int>, bind: string, env: AllocEnv)
    requires AllocOrders(w.reg, name, preferred, env)
    ensures var got := AllocatePorts(w, name, preferred, bind, env).1;
            if name in w.reg.services && w.reg.services[name].stablePorts != map[] then got == Ports(w.reg.services[name].stablePorts)
            else got.Ports? ==> got.ports.Keys == preferred.Keys && Fresh(got.ports, R.UsedPorts(w.reg)) && FromRange(got.ports, preferred)
  {
    hide AllocateLoop, X.Register;
    if !(name in w.reg.services && w.reg.services[name].stablePorts != map[]) {
      AllocateLoopFresh(w.prx, name, preferred, R.UsedPorts(w.reg), R.UsedPorts(w.reg), bind, env, 0, map[]);
      AllocatedNames(w.prx, name, preferred, R.UsedPorts(w.reg), bind, env, 0, map[]);
    }
  }

  // ---- Over operations and runs ----

  /** No port is zero, reserved, or assigned twice - within a service or across services, archived ones
      included. */
  ghost predicate PortsDistinct(r: R.Registry) {
    && (forall n | n in r.services :: Fresh(r.services[n].stablePorts, {}))
    && (forall m, n | m in r.services && n in r.services && m != n ::
          r.services[m].stablePorts.Values !! r.services[n].stablePorts.Values)
  }

  predicate Releases(op: Op, n: string) {
    (op.OpRemove? || op.OpPrune?) && op.name == n
  }

  /** What one operation does to the record of its service, as far as ports go. */
  ghost predicate PortsStep(r: R.Registry, q: R.Registry, n: string) {
    && (n in r.services && n in q.services ==>
          || q.services[n].stablePorts == r.services[n].stablePorts
          || (r.services[n].stablePorts == map[] && Fresh(q.services[n].stablePorts, R.UsedPorts(r))))
    && (n !in r.services && n in q.services ==> Fresh(q.services[n].stablePorts, R.UsedPorts(r)))
  }

  lemma DeployPorts(w: World, req: Request, env: DeployEnv)
    requires WorldOk(w) && DeployOk(w, req, env)
    ensures PortsStep(w.reg, Deploy(w, req, env).0.reg, req.name)
    ensures req.name in w.reg.services ==> req.name in Deploy(w, req, env).0.reg.services
  {
    hide WorldOk, PutBack, RegElsewhere, Elsewhere, WholeRoute, AllocateLoop, X.Register, Replace, R.Staged, X.CurrentHandlers, Fresh, Deploy;
    if ValidServiceName(req.name) && env.accepted {
      if req.name in w.reg.services && (w.reg.services[req.name].stablePorts != map[] || !Deploy(w, req, env).1) {
        if Deploy(w, req, env).1 {
          DeploySucceeds(w, req, env);
        } else {
          FailedDeployRestores(w, req, env);
        }
      } else if Deploy(w, req, env).1 {
        NewNamePorts(w, req, env);
      } else {
        FailedDeployOfNewName(w, req, env);
      }
    } else {
      UnacceptedDeploy(w, req, env);
    }
  }

  lemma UnacceptedDeploy(w: World, req: Request, env: DeployEnv)
    requires DeployOk(w, req, env) && !(ValidServiceName(req.name) && env.accepted)
    ensures Deploy(w, req, env) == (w, false)
  {
  }

  lemma NewNamePorts(w: World, req: Request, env: DeployEnv)
    requires WorldOk(w) && DeployOk(w, req, env) && Deploy(w, req, env).1
    requires req.name in w.reg.services ==> w.reg.services[req.name].stablePorts == map[]
    ensures var v := Deploy(w, req, env).0;
            req.name in v.reg.services && Fresh(v.reg.services[req.name].stablePorts, R.UsedPorts(w.reg))
  {
    hide RoutesOk, Steady, Replace, AllocatePorts, AtReplace, ReplaceReady, RegElsewhere, Elsewhere, PP.Intended, RecordSane, AllListening, FreshPid, NewRoutes, ReplaceCoupled, StagedRecord, X.CurrentHandlers, UndoRoutes, RoutesAtFailure, PutBack, RecordBack, Fresh, FromRange;
    AllocateFailsDeploy(w, req, env);
    DeployUnfolds(w, req, env);
    DeployReady(w, req, env);
    AtReplaceParts(w, req, env);
    StagedFacts(w, req, env);
    AllocatedPorts(w, req.name, Preferred(req), req.bind, env.alloc);
    var u, s := AtReplace(w, req, env), StagedRecord(w, req, env);
    ReplaceProcesses(u, req.name, R.Get(w.reg, req.name), Reregister(s.stablePorts, s.bind), P.STOPPED_CODE, env.deployedAt, env.launch);
  }

  lemma AllocateFailsDeploy(w: World, req: Request, env: DeployEnv)
    requires DeployOrders(w, req, env) && Deploy(w, req, env).1
    ensures ValidServiceName(req.name) && env.accepted
    ensures AllocatePorts(w, req.name, Preferred(req), req.bind, env.alloc).1.Ports?
  {
    hide AllocatePorts, Replace;
  }

  /** Whichever way a static deployment ends, the record it leaves has the staged or the previous ports. */
  lemma StaticEndPorts(u: World, req: Request, env: DeployEnv, previous: Option<R.Service>, bound: bool)
    requires req.name in u.reg.services
    requires previous.Some? ==>
               && X.IsOrderOf(env.launch.undo.order, previous.value.stablePorts)
               && (previous.value.stablePorts == map[] || previous.value.stablePorts == u.reg.services[req.name].stablePorts)
    ensures var v := StaticEnd(u, req, env, previous, bound);
            && (req.name in v.reg.services ==>
                  || v.reg.services[req.name].stablePorts == u.reg.services[req.name].stablePorts
                  || (previous.Some? && v.reg.services[req.name].stablePorts == previous.value.stablePorts))
            && (req.name !in v.reg.services <==> previous.None? && bound && !X.SwapStatic(u.prx, req.name, req.settings.path).1)
  {
    hide X.SwapStatic, X.UnswapPorts, X.RemovePorts, UndoRoutes, RestorePrevious;
    RestoredPorts(u, req.name, previous, env.launch.now);
  }

  lemma RestoredPorts(u: World, name: string, previous: Option<R.Service>, now: int)
    requires name in u.reg.services
    ensures var v := RestorePrevious(u, name, previous, now);
            && name in v.reg.services
            && v.reg.services[name].stablePorts == if previous.Some? then previous.value.stablePorts else u.reg.services[name].stablePorts
  {
    hide X.UnswapPorts;
  }

  lemma DeployStaticPorts(w: World, req: Request, env: DeployEnv)
    requires WorldOk(w) && DeployOrders(w, req, env)
    ensures PortsStep(w.reg, DeployStatic(w, req, env).0.reg, req.name)
    ensures req.name in w.reg.services ==> req.name in DeployStatic(w, req, env).0.reg.services
  {
    hide WorldOk, AllocatePorts, Fresh, FromRange, X.Register, X.SwapStatic, R.UsedPorts, StagedRecord, StaticEnd, RestorePrevious, RestoreFailedDeploy;
    if ValidServiceName(req.name) && env.accepted && AllocatePorts(w, req.name, Preferred(req), req.bind, env.alloc).1.Ports? {
      StaticUnfolds(w, req, env);
      StagedFacts(w, req, env);
      AllocatedPorts(w, req.name, Preferred(req), req.bind, env.alloc);
      var s := StagedRecord(w, req, env);
      var bound := X.Register(AtReplace(w, req, env).prx, req.name, s.stablePorts, s.bind, env.launch.bind).1;
      StaticEndPorts(StaticAtBind(w, req, env), req, env, R.Get(w.reg, req.name), bound);
    }
  }

  lemma RestartPorts(w: World, name: string, env: LaunchEnv)
    requires WorldOk(w) && RestartOk(w, name, env)
    ensures SamePorts(w.reg, RestartLocked(w, name, env).0.reg, name)
  {
    hide WorldOk, Replace, ReplaceReady, Steady, RoutesOk, FreshPid, PP.Intended, NewRoutes, RoutesAtFailure, UndoRoutes, PutBack, ReplaceCoupled, R.UsedPorts;
    if name in w.reg.services && w.reg.services[name].settings.kind == R.Binary {
      RestartReady(w, name, env);
      ReplaceProcesses(w, name, Some(w.reg.services[name]), Keep, P.FAILED_CODE, 0, env);
    }
  }

  lemma RollbackPorts(w: World, name: string, env: LaunchEnv, deployedAt: int)
    requires WorldOk(w) && RollbackOk(w, name, env)
    ensures SamePorts(w.reg, Rollback(w, name, env, deployedAt).0.reg, name)
  {
    hide WorldOk, Steady, RoutesOk, X.Register, StagedRollback, RestartLocked, X.SwapStatic, FreshPid, PP.Intended, Settles, RestartOk, R.UsedPorts, Fresh;
    if name in w.reg.services && w.reg.services[name].previous.Some? {
      var u := RolledWorld(w, name, env);
      RolledRecord(w, name, env);
      RolledSettles(w, name, env);
      SettledIsOk(w, u, name);
      RestartPorts(u, name, env);
    }
  }

  lemma ReservePorts(w: World, name: string, preferred: map<string, int>, env: AllocEnv, now: int)
    requires WorldOk(w) && ReserveOk(w, name, preferred, env)
    ensures PortsStep(w.reg, Reserve(w, name, preferred, env, now).0.reg, name)
    ensures name in w.reg.services ==> name in Reserve(w, name, preferred, env, now).0.reg.services
  {
    hide WorldOk, AllocatePorts, Fresh, FromRange, R.UsedPorts;
    AllocatedPorts(w, name, preferred, R.DEFAULT_BIND, env);
  }

  lemma RestoreOnePorts(w: World, name: string, env: RestoreEnv)
    requires WorldOk(w) && RestoreOk(w, name, env)
    ensures var v := RestoreOne(w, name, env).0;
            name in v.reg.services && v.reg.services[name].stablePorts == w.reg.services[name].stablePorts
  {
    hide RoutesOk, Steady, RestoreOne, X.SwapPorts, X.SwapStatic, X.UnswapPorts, ProcsInFlight, FreshPid, Elsewhere, RegElsewhere;
    RestoreOneEnds(w, name, env);
  }

  lemma BindPorts(w: World, name: string, env: X.BindEnv, now: int)
    requires BindOk(w, name, env)
    ensures SamePorts(w.reg, BindListeners(w, name, env, now).0.reg, name)
  {
    hide X.Register;
  }

  ghost predicate SamePorts(r: R.Registry, q: R.Registry, n: string) {
    && (n in r.services <==> n in q.services)
    && (n in r.services ==> q.services[n].stablePorts == r.services[n].stablePorts)
  }

  lemma UpdatesKeepPorts(r: R.Registry, name: string, n: string, status: R.Status, pid: int, attempts: int, gaveUp: bool, now: int)
    ensures SamePorts(r, R.UpdateStatus(r, name, status, pid, now).0, n)
    ensures SamePorts(r, R.UpdateCrashState(r, name, attempts, gaveUp, now).0, n)
  {
  }

  lemma CrashPorts(w: World, name: string, now: int, n: string)
    ensures SamePorts(w.reg, HandleCrash(w, name, now).reg, n)
  {
    hide X.UnswapPorts, R.UpdateStatus, R.UpdateCrashState;
    var attempt := if name in w.attempts then w.attempts[name] else 0;
    UpdatesKeepPorts(w.reg, name, n, R.Failed, 0, attempt, true, now);
    UpdatesKeepPorts(R.UpdateCrashState(w.reg, name, attempt, true, now).0, name, n, R.Failed, 0, attempt, true, now);
    UpdatesKeepPorts(w.reg, name, n, R.Failed, 0, attempt + 1, false, now);
  }

  /** An exit changes no ports. */
  lemma ExitPorts(w: World, pid: int, code: int, duration: int, now: int, n: string)
    ensures SamePorts(w.reg, ProcessExits(w, pid, code, duration, now).reg, n)
  {
    hide P.Observe, P.Die, P.Close, P.Classify, Reap, HandleCrash, R.UpdateStatus;
    if pid in w.mgr.watchers && w.mgr.watchers[pid].phase == P.Alive {
      var name := w.mgr.watchers[pid].name;
      ReapPorts(w, pid, code, duration, now, n);
      var v := Reap(w, pid, code, duration, now);
      UpdatesKeepPorts(v.reg, name, n, R.Failed, 0, 0, false, now);
      CrashPorts(v.(reg := R.UpdateStatus(v.reg, name, R.Failed, 0, now).0), name, now, n);
    }
  }

  lemma ReapPorts(w: World, pid: int, code: int, duration: int, now: int, n: string)
    requires pid in w.mgr.watchers && w.mgr.watchers[pid].phase == P.Alive
    ensures SamePorts(w.reg, Reap(w, pid, code, duration, now).reg, n)
  {
    hide P.Observe, P.Die, P.Close, P.Classify;
  }

  /** One operation, any outcome: a service that is there before and after has the same ports, except that
      one without any may get fresh ones; it is
      gone exactly after Remove, or Prune of an archived service; and one that appears has fresh ports. */
  lemma ApplyPorts(w: World, op: Op, n: string)
    requires WorldOk(w) && OpOk(w, op)
    ensures PortsStep(w.reg, Apply(w, op).reg, n)
    ensures n in w.reg.services ==>
              (n !in Apply(w, op).reg.services <==> Releases(op, n) && (op.OpPrune? ==> w.reg.services[n].status == R.Archived))
  {
    hide WorldOk, Deploy, DeployStatic, RestartLocked, Rollback, Reserve, RestoreOne, ProcessExits, DeployOk, RestartOk, RollbackOk, ReserveOk, R.UsedPorts, Fresh;
    ApplyKeeps(w, op);
    if n != Subject(w, op) {
      OthersSame(w, Apply(w, op), Subject(w, op), n);
    } else {
      hide Settles;
      match op
      case OpDeploy(req, env) => DeployPorts(w, req, env);
      case OpDeployStatic(req, env) => DeployStaticPorts(w, req, env);
      case OpRestart(name, env) => RestartPorts(w, name, env);
      case OpRollback(name, env, t) => RollbackPorts(w, name, env, t);
      case OpReserve(name, preferred, env, now) => ReservePorts(w, name, preferred, env, now);
      case OpBind(name, env, now) => BindPorts(w, name, env, now);
      case OpRestoreOne(name, env) => RestoreOnePorts(w, name, env);
      case OpExit(pid, code, duration, now) => ExitPorts(w, pid, code, duration, now, n);
      case OpStop(name, stuck, now) => hide P.StopWith, X.UnswapPorts;
      case OpRemove(name) => hide P.StopWith, X.RemovePorts;
      case OpPrune(name, now) => hide X.RemovePorts;
      case OpArchive(_, _) =>
      case OpRestoreArchived(_, _) =>
      case OpDrain(_) =>
    }
  }

  lemma OthersSame(w: World, v: World, name: string, n: string)
    requires Settles(w, v, name) && n != name
    ensures (n in w.reg.services <==> n in v.reg.services) && (n in w.reg.services ==> v.reg.services[n] == w.reg.services[n])
  {
    hide WorldOk, Elsewhere, PrxElsewhere;
  }

  lemma ApplyDistinct(w: World, op: Op)
    requires WorldOk(w) && OpOk(w, op) && PortsDistinct(w.reg)
    ensures PortsDistinct(Apply(w, op).reg)
  {
    hide WorldOk, OpOk, Apply, Settles, R.UsedPorts, Subject;
    var v, subject := Apply(w, op), Subject(w, op);
    ApplyKeeps(w, op);
    forall n | n in v.reg.services
      ensures (n in w.reg.services && v.reg.services[n].stablePorts == w.reg.services[n].stablePorts)
              || (n == subject && Fresh(v.reg.services[n].stablePorts, R.UsedPorts(w.reg)))
    {
      ApplyPorts(w, op, n);
      if n != subject {
        OthersSame(w, v, subject, n);
      }
    }
    hide Fresh;
    FreshIsFresh(v.reg.services, R.UsedPorts(w.reg));
    forall m, n | m in v.reg.services && n in v.reg.services && m != n
      ensures v.reg.services[m].stablePorts.Values !! v.reg.services[n].stablePorts.Values
    {
      if m == subject && Fresh(v.reg.services[m].stablePorts, R.UsedPorts(w.reg)) {
        FreshIsDisjoint(w.reg, n, v.reg.services[m].stablePorts);
      } else if n == subject && Fresh(v.reg.services[n].stablePorts, R.UsedPorts(w.reg)) {
        FreshIsDisjoint(w.reg, m, v.reg.services[n].stablePorts);
      }
    }
  }

  lemma FreshIsFresh(services: map<string, R.Service>, used: set<int>)
    ensures forall n | n in services && Fresh(services[n].stablePorts, used) :: Fresh(services[n].stablePorts, {})
  {
  }

  lemma FreshIsDisjoint(r: R.Registry, n: string, ports: map<string, int>)
    requires PortsDistinct(r) && n in r.services && Fresh(ports, R.UsedPorts(r))
    ensures ports.Values !! r.services[n].stablePorts.Values
  {
    forall k | k in r.services[n].stablePorts ensures r.services[n].stablePorts[k] in R.UsedPorts(r) {
      assert Fresh(r.services[n].stablePorts, {});
    }
  }

  /** Over every run: ports stay distinct and unreserved, and a service keeps its ports, once it has any,
      for as long as nobody removes or prunes it. */
  lemma {:induction false} PortsNeverChange(w: World, ops: seq<Op>, n: string)
    requires WorldOk(w) && PortsDistinct(w.reg) && RunOk(w, ops)
    ensures var v := RunAll(w, ops);
            && PortsDistinct(v.reg)
            && (n in w.reg.services && (forall i | 0 <= i < |ops| :: !Releases(ops[i], n)) ==>
                  && n in v.reg.services
                  && (w.reg.services[n].stablePorts != map[] ==> v.reg.services[n].stablePorts == w.reg.services[n].stablePorts))
    decreases |ops|
  {
    hide WorldOk, OpOk, Apply, Settles, PortsDistinct, Subject;
    if ops != [] {
      var v := Apply(w, ops[0]);
      ApplyKeeps(w, ops[0]);
      SettledIsOk(w, v, Subject(w, ops[0]));
      ApplyDistinct(w, ops[0]);
      ApplyPorts(w, ops[0], n);
      PortsNeverChange(v, ops[1..], n);
      assert forall i | 0 <= i < |ops| - 1 :: ops[1..][i] == ops[i + 1];
    }
  }
}
