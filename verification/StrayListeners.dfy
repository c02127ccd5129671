/** Which listeners a service has: those of its stable ports - and exactly when others are left behind. */
module StrayListeners {
  import opened Options
  import opened Names
  import R = RegistrySpec
  import P = ProcessSpec
  import opened RT = ReplaceProcess
  import X = ProxySpec
  import XP = ProxyProofs
  import opened ServiceSpec
  import opened HotSwap
  import opened Coupling
  import opened Operations
  import opened Routes
  import opened Deployments
  import opened StablePorts
  import opened Startup
  import opened ListenerPorts

  function StableNames(r: R.Registry, n: string): set<string> {
    if n in r.services then r.services[n].stablePorts.Keys else {}
  }

  ghost predicate Among(p: X.Proxy, n: string, names: set<string>) {
    forall k | EntryKey(n, k) in p.entries :: k in names
  }

  /** A service has listeners for its stable ports only, and none if it is not registered. */
  ghost predicate Tidy(w: World, n: string) {
    ColonFree(n) ==> Among(w.prx, n, StableNames(w.reg, n))
  }

  // ---- Listeners are only added, and only under these names ----

  ghost predicate Extends(p: X.Proxy, q: X.Proxy, n: string, names: set<string>) {
    && (forall k | EntryKey(n, k) in p.entries :: EntryKey(n, k) in q.entries)
    && (forall k | EntryKey(n, k) in q.entries :: EntryKey(n, k) in p.entries || k in names)
  }

  lemma SameExtends(p: X.Proxy, q: X.Proxy, n: string, names: set<string>)
    requires q.entries == p.entries
    ensures Extends(p, q, n, names)
  {
  }

  lemma ExtendsJoin(p: X.Proxy, q: X.Proxy, r: X.Proxy, n: string, names: set<string>)
    ensures Extends(p, q, n, names) && Extends(q, r, n, names) ==> Extends(p, r, n, names)
  {
    hide EntryKey;
  }

  /** What is added under these names is no matter of what else there is. */
  lemma ExtendsAmong(p: X.Proxy, q: X.Proxy, n: string, names: set<string>, all: set<string>)
    requires Extends(p, q, n, names) && names <= all
    ensures Among(p, n, all) <==> Among(q, n, all)
  {
    hide EntryKey;
  }

  lemma NoneAmong(p: X.Proxy, n: string, names: set<string>)
    requires ColonFree(n) && forall k | k in p.entries :: Owner(k) != n
    ensures Among(p, n, names)
  {
    forall k ensures EntryKey(n, k) !in p.entries {
      assert Owner(EntryKey(n, k)) == n;
    }
  }

  /** A listener under a name that is not among these. */
  lemma StraysShow(p: X.Proxy, n: string, added: set<string>, names: set<string>, k: string)
    requires AllListening(p, n, added) && k in added && k !in names
    ensures !Among(p, n, names)
  {
    assert EntryKey(n, k) in p.entries;
  }

  lemma RegisterExtends(p: X.Proxy, name: string, asked: map<string, int>, bind: string, env: X.BindEnv, names: set<string>)
    requires RoutesOk(p) && ColonFree(name) && X.IsOrderOf(env.order, asked) && asked.Keys <= names
    ensures Extends(p, X.Register(p, name, asked, bind, env).0, name, names)
  {
    hide XP.Sound, XP.Held, X.Register, EntryKey;
    XP.RegisterGrows(p, name, asked, bind, env);
    forall k | EntryKey(name, k) in X.Register(p, name, asked, bind, env).0.entries ensures EntryKey(name, k) in p.entries || k in names {
      if EntryKey(name, k) !in p.entries {
        XP.RegisterAdds(p, name, asked, bind, env, k);
      }
    }
  }

  lemma TryBindExtends(p: X.Proxy, name: string, portName: string, port: int, bind: string, env: AllocEnv, names: set<string>)
    requires RoutesOk(p) && ColonFree(name) && portName in names
    ensures Extends(p, TryBind(p, name, portName, port, bind, env).0, name, names)
  {
    hide RoutesOk, X.Register, Extends;
    var refused: set<string> := if (portName, port) in env.refused then {portName} else {};
    RegisterExtends(p, name, map[portName := port], bind, X.BindEnv(env.addressOk, [portName], refused), names);
  }

  lemma {:induction false} FirstFreeExtends(p: X.Proxy, name: string, portName: string, port: int, used: set<int>, bind: string, env: AllocEnv, names: set<string>)
    requires RoutesOk(p) && ColonFree(name) && portName in names
    ensures Extends(p, FirstFree(p, name, portName, port, used, bind, env).0, name, names)
    decreases RANGE_END + 1 - port
  {
    hide RoutesOk, TryBind, Extends;
    SameExtends(p, p, name, names);
    if port <= RANGE_END {
      if port in used {
        FirstFreeExtends(p, name, portName, port + 1, used, bind, env, names);
      } else {
        TryBindExtends(p, name, portName, port, bind, env, names);
        TryBindStep(p, name, portName, port, bind, env);
        var (q, ok) := TryBind(p, name, portName, port, bind, env);
        if !ok {
          FirstFreeExtends(q, name, portName, port + 1, used, bind, env, names);
          ExtendsJoin(p, q, FirstFree(q, name, portName, port + 1, used, bind, env).0, name, names);
        }
      }
    }
  }

  lemma AllocateOneExtends(p: X.Proxy, name: string, portName: string, preferred: int, used: set<int>, bind: string, env: AllocEnv, names: set<string>)
    requires RoutesOk(p) && ColonFree(name) && portName in names
    ensures Extends(p, AllocateOne(p, name, portName, preferred, used, bind, env).0, name, names)
  {
    hide RoutesOk, TryBind, FirstFree, Extends;
    SameExtends(p, p, name, names);
    TryBindExtends(p, name, portName, preferred, bind, env, names);
    TryBindStep(p, name, portName, preferred, bind, env);
    var (q, ok) := if preferred != 0 && preferred !in used then TryBind(p, name, portName, preferred, bind, env) else (p, false);
    if !ok {
      FirstFreeExtends(q, name, portName, RANGE_START, used, bind, env, names);
      ExtendsJoin(p, q, FirstFree(q, name, portName, RANGE_START, used, bind, env).0, name, names);
    }
  }

  lemma {:induction false} AllocateLoopExtends(p: X.Proxy, name: string, preferred: map<string, int>, used: set<int>, bind: string, env: AllocEnv, i: nat, result: map<string, int>)
    requires RoutesOk(p) && ColonFree(name) && i <= |env.order| && forall k | k in env.order :: k in preferred
    ensures var (q, got) := AllocateLoop(p, name, preferred, used, bind, env, i, result);
            got.Ports? ==> Extends(p, q, name, preferred.Keys)
    decreases |env.order| - i
  {
    hide RoutesOk, AllocateOne, X.RemovePorts, Extends;
    SameExtends(p, p, name, preferred.Keys);
    if i < |env.order| {
      var portName := env.order[i];
      AllocateOneExtends(p, name, portName, preferred[portName], used, bind, env, preferred.Keys);
      AllocateOneStep(p, name, portName, preferred[portName], used, bind, env);
      var (q, one) := AllocateOne(p, name, portName, preferred[portName], used, bind, env);
      if one.Port? {
        var more := result[portName := one.port];
        AllocateLoopExtends(q, name, preferred, used + {one.port}, bind, env, i + 1, more);
        ExtendsJoin(p, q, AllocateLoop(q, name, preferred, used + {one.port}, bind, env, i + 1, more).0, name, preferred.Keys);
      }
    }
  }

  /** An allocation that succeeds adds listeners for the allocated ports only; a refused one leaves none. */
  lemma AllocateExtends(w: World, name: string, preferred: map<string, int>, bind: string, env: AllocEnv)
    requires RoutesOk(w.prx) && ColonFree(name) && AllocOrders(w.reg, name, preferred, env)
    ensures var (q, got) := AllocatePorts(w, name, preferred, bind, env);
            && RoutesOk(q)
            && (got.Ports? ==> Extends(w.prx, q, name, got.ports.Keys))
            && (!got.Ports? ==> forall k | k in q.entries :: Owner(k) != name)
            && (got.Ports? && StableNames(w.reg, name) == {} ==> got.ports.Keys == preferred.Keys && AllListening(q, name, got.ports.Keys))
            && (got.Ports? && StableNames(w.reg, name) != {} ==> got.ports == w.reg.services[name].stablePorts)
  {
    hide RoutesOk, AllocateLoop, X.Register, Extends, AllListening;
    AllocateStep(w, name, preferred, bind, env);
    if name in w.reg.services && w.reg.services[name].stablePorts != map[] {
      var s := w.reg.services[name];
      RegisterExtends(w.prx, name, s.stablePorts, s.bind, env.existing, s.stablePorts.Keys);
      NamesOfSome(s.stablePorts);
    } else {
      AllocatedNames(w.prx, name, preferred, R.UsedPorts(w.reg), bind, env, 0, map[]);
      AllocateLoopExtends(w.prx, name, preferred, R.UsedPorts(w.reg), bind, env, 0, map[]);
      NoneListening(w.prx, name);
      assert StableNames(w.reg, name) == {};
    }
  }

  lemma NewRoutesExtends(p: X.Proxy, name: string, listeners: Listeners, env: LaunchEnv, names: set<string>)
    requires RoutesOk(p) && ColonFree(name)
    requires listeners.Reregister? ==> X.IsOrderOf(env.bind.order, listeners.ports) && listeners.ports.Keys <= names
    ensures Extends(p, NewRoutes(p, name, listeners, env).0, name, names)
    ensures Extends(p, RoutesAtFailure(p, name, listeners, env), name, names)
  {
    hide RoutesOk, X.Register, X.SwapPorts, Extends;
    var q := NewRoutesBound(p, name, listeners, env).0;
    SameExtends(p, p, name, names);
    if listeners.Reregister? {
      RegisterExtends(p, name, listeners.ports, listeners.bind, env.bind, names);
      RegisterStep(p, name, listeners.ports, listeners.bind, env.bind);
    }
    SwapStep(q, name, env.ports);
    SameExtends(q, X.SwapPorts(q, name, env.ports).0, name, names);
    ExtendsJoin(p, q, X.SwapPorts(q, name, env.ports).0, name, names);
  }

  lemma UndoExtends(p: X.Proxy, name: string, rec: R.Service, undo: X.BindEnv, names: set<string>)
    requires RoutesOk(p) && ColonFree(name) && X.IsOrderOf(undo.order, rec.stablePorts) && rec.stablePorts.Keys <= names
    ensures Extends(p, UndoRoutes(p, name, rec, undo), name, names)
  {
    hide RoutesOk, X.Register, X.SwapPorts, X.SwapStatic, Extends;
    var m := X.Register(p, name, rec.stablePorts, rec.bind, undo).0;
    RegisterExtends(p, name, rec.stablePorts, rec.bind, undo, names);
    RegisterStep(p, name, rec.stablePorts, rec.bind, undo);
    SwapStep(m, name, rec.internalPorts);
    StaticStep(m, name, rec.settings.path);
    SameExtends(m, X.SwapPorts(m, name, rec.internalPorts).0, name, names);
    SameExtends(m, X.SwapStatic(m, name, rec.settings.path).0, name, names);
    ExtendsJoin(p, m, X.SwapPorts(m, name, rec.internalPorts).0, name, names);
    ExtendsJoin(p, m, X.SwapStatic(m, name, rec.settings.path).0, name, names);
  }

  // ---- Operations ----

  /** A replacement leaves the listeners it found, and adds those it registers. */
  lemma ReplaceExtends(w: World, name: string, previous: Option<R.Service>, listeners: Listeners, verifyCode: int, deployedAt: int, env: LaunchEnv, names: set<string>)
    requires ReplaceReady(w, name, previous, listeners, verifyCode, env) && ReplaceCoupled(w, name, previous, listeners, env)
    requires listeners.Reregister? ==> listeners.ports.Keys <= names
    requires previous.Some? ==> previous.value.stablePorts.Keys <= names
    ensures var (v, ok) := Replace(w, name, previous, listeners, verifyCode, deployedAt, env);
            && (ok || previous.Some? ==> Extends(w.prx, v.prx, name, names))
            && (!ok && previous.None? ==> name !in v.reg.services && forall k | k in v.prx.entries :: Owner(k) != name)
            && (ok ==> name in v.reg.services && v.reg.services[name].stablePorts == w.reg.services[name].stablePorts)
            && (!ok && previous.Some? ==> name in v.reg.services && v.reg.services[name].stablePorts == previous.value.stablePorts)
  {
    hide Replace, NewRoutes, UndoRoutes, RoutesAtFailure, X.RemovePorts, RoutesOk, Steady, Elsewhere, RegElsewhere, FreshPid, LaunchWorks, TakeOverWorks, PutBack, Extends, ReplaceEvents, X.CurrentHandlers, PrxElsewhere, AllListening;
    ReplaceProcesses(w, name, previous, listeners, verifyCode, deployedAt, env);
    NewRoutesExtends(w.prx, name, listeners, env, names);
    FailedRouteStep(w, name, previous, listeners, verifyCode, env);
    if previous.Some? {
      var r := RoutesAtFailure(w.prx, name, listeners, env);
      FailureIsSound(w.prx, name, listeners, env);
      UndoExtends(r, name, previous.value, env.undo, names);
      ExtendsJoin(w.prx, r, UndoRoutes(r, name, previous.value, env.undo), name, names);
    }
  }

  lemma FailureIsSound(p: X.Proxy, name: string, listeners: Listeners, env: LaunchEnv)
    requires RoutesOk(p) && ColonFree(name)
    requires listeners.Reregister? ==> X.IsOrderOf(env.bind.order, listeners.ports) && listeners.ports.Keys == env.ports.Keys
    ensures RoutesOk(RoutesAtFailure(p, name, listeners, env))
  {
    hide RoutesOk, NewRoutes;
    NewRoutesKeeps(p, name, listeners, env);
  }

  ghost predicate Portless(r: R.Registry, n: string) {
    n in r.services && r.services[n].stablePorts == map[]
  }

  ghost predicate DeployAllocates(w: World, req: Request, env: DeployEnv)
    requires DeployOrders(w, req, env)
  {
    ValidServiceName(req.name) && env.accepted && AllocatePorts(w, req.name, Preferred(req), req.bind, env.alloc).1.Ports?
  }

  /** What a deployment leaves of the listeners of its service. */
  ghost predicate DeployLeaves(w: World, req: Request, env: DeployEnv, v: World, stays: bool) {
    && DeployOrders(w, req, env)
    && (!(ValidServiceName(req.name) && env.accepted) ==> v == w)
    && (ValidServiceName(req.name) && env.accepted && !DeployAllocates(w, req, env) ==>
          v.reg == w.reg && forall k | k in v.prx.entries :: Owner(k) != req.name)
    && (DeployAllocates(w, req, env) ==>
          var ports := AllocatePorts(w, req.name, Preferred(req), req.bind, env.alloc).1.ports;
          && (stays ==>
                && Extends(w.prx, v.prx, req.name, ports.Keys)
                && req.name in v.reg.services && v.reg.services[req.name].stablePorts == ports)
          && (!stays && req.name in w.reg.services ==>
                && Extends(w.prx, v.prx, req.name, ports.Keys)
                && req.name in v.reg.services && v.reg.services[req.name].stablePorts == w.reg.services[req.name].stablePorts)
          && (!stays && req.name !in w.reg.services ==>
                req.name !in v.reg.services && forall k | k in v.prx.entries :: Owner(k) != req.name)
          && (StableNames(w.reg, req.name) == {} ==> ports.Keys == Preferred(req).Keys)
          && (StableNames(w.reg, req.name) == {} && (stays || req.name in w.reg.services) ==> AllListening(v.prx, req.name, ports.Keys)))
  }

  lemma DeployLeaving(w: World, req: Request, env: DeployEnv)
    requires WorldOk(w) && DeployOk(w, req, env)
    ensures DeployLeaves(w, req, env, Deploy(w, req, env).0, Deploy(w, req, env).1)
  {
    hide WorldOk, Steady, RoutesOk, Replace, AllocatePorts, WorldElsewhere, ReplaceReady, ReplaceCoupled, RecordSane, FreshPid, StagedRecord, Extends, AllListening, PortsDiffer;
    if ValidServiceName(req.name) && env.accepted {
      ValidNamesAreColonFree(req.name);
      WorldRoutes(w);
      AllocateExtends(w, req.name, Preferred(req), req.bind, env.alloc);
      if DeployAllocates(w, req, env) {
        DeployUnfolds(w, req, env);
        DeployReady(w, req, env);
        StagedFacts(w, req, env);
        var u, s, v := AtReplace(w, req, env), StagedRecord(w, req, env), Deploy(w, req, env).0;
        ReplaceExtends(u, req.name, R.Get(w.reg, req.name), Reregister(s.stablePorts, s.bind), P.STOPPED_CODE, env.deployedAt, env.launch, s.stablePorts.Keys);
        ExtendsJoin(w.prx, u.prx, v.prx, req.name, s.stablePorts.Keys);
        ExtendsListens(u.prx, v.prx, req.name, s.stablePorts.Keys);
      }
    }
  }

  lemma ExtendsListens(p: X.Proxy, q: X.Proxy, n: string, names: set<string>)
    ensures Extends(p, q, n, names) && AllListening(p, n, names) ==> AllListening(q, n, names)
  {
    hide EntryKey;
  }

  /** Whether the record of a static deployment has the allocated ports afterwards: it does if the directory
      is served, and also if the listeners of a new name could not be registered. */
  ghost predicate StaticStays(w: World, req: Request, env: DeployEnv)
    requires DeployOrders(w, req, env)
  {
    DeployStatic(w, req, env).1 || (req.name !in w.reg.services && req.name in DeployStatic(w, req, env).0.reg.services)
  }

  lemma StaticLeaving(w: World, req: Request, env: DeployEnv)
    requires WorldOk(w) && DeployStaticOk(w, req, env)
    ensures DeployLeaves(w, req, env, DeployStatic(w, req, env).0, StaticStays(w, req, env))
  {
    hide WorldOk, Steady, RoutesOk, AllocatePorts, RecordSane, StagedRecord, Extends, AllListening, StaticEnd, X.Register, X.SwapStatic, RestorePrevious, RestoreFailedDeploy;
    if ValidServiceName(req.name) && env.accepted {
      ValidNamesAreColonFree(req.name);
      WorldRoutes(w);
      AllocateExtends(w, req.name, Preferred(req), req.bind, env.alloc);
      if DeployAllocates(w, req, env) {
        StaticUnfolds(w, req, env);
        StagedFacts(w, req, env);
        StaticRecord(w, req, env);
        var u, s, v := StaticAtBind(w, req, env), StagedRecord(w, req, env), DeployStatic(w, req, env).0;
        StaticBindExtends(w, req, env);
        StaticEndExtends(u, req, env, R.Get(w.reg, req.name), X.Register(AtReplace(w, req, env).prx, req.name, s.stablePorts, s.bind, env.launch.bind).1);
        ExtendsJoin(w.prx, u.prx, v.prx, req.name, s.stablePorts.Keys);
        ExtendsListens(AllocatePorts(w, req.name, Preferred(req), req.bind, env.alloc).0, u.prx, req.name, s.stablePorts.Keys);
        ExtendsListens(u.prx, v.prx, req.name, s.stablePorts.Keys);
      }
    }
  }

  lemma StaticBindExtends(w: World, req: Request, env: DeployEnv)
    requires WorldOk(w) && DeployOrders(w, req, env) && ValidServiceName(req.name)
    requires AllocatePorts(w, req.name, Preferred(req), req.bind, env.alloc).1.Ports?
    requires X.IsOrderOf(env.launch.bind.order, StagedRecord(w, req, env).stablePorts)
    ensures var p, q, ports := w.prx, StaticAtBind(w, req, env).prx, StagedRecord(w, req, env).stablePorts.Keys;
            && RoutesOk(q) && Extends(p, q, req.name, ports)
            && Extends(AllocatePorts(w, req.name, Preferred(req), req.bind, env.alloc).0, q, req.name, ports)
  {
    hide WorldOk, RoutesOk, AllocatePorts, RecordSane, Extends, X.Register, R.Staged;
    ValidNamesAreColonFree(req.name);
    StagedFacts(w, req, env);
    WorldRoutes(w);
    AllocateExtends(w, req.name, Preferred(req), req.bind, env.alloc);
    StaticRoutesOk(w, req, env);
    var s, u := StagedRecord(w, req, env), AtReplace(w, req, env);
    RegisterExtends(u.prx, req.name, s.stablePorts, s.bind, env.launch.bind, s.stablePorts.Keys);
    ExtendsJoin(w.prx, u.prx, StaticAtBind(w, req, env).prx, req.name, s.stablePorts.Keys);
  }

  lemma StaticEndExtends(u: World, req: Request, env: DeployEnv, previous: Option<R.Service>, bound: bool)
    requires RoutesOk(u.prx) && ColonFree(req.name) && req.name in u.reg.services && RecordSane(u.reg.services[req.name], req.name)
    requires previous.Some? ==>
               && X.IsOrderOf(env.launch.undo.order, previous.value.stablePorts) && RecordSane(previous.value, req.name)
               && previous.value.stablePorts.Keys <= u.reg.services[req.name].stablePorts.Keys
    ensures var (v, ports) := (StaticEnd(u, req, env, previous, bound), u.reg.services[req.name].stablePorts);
            var ok := bound && X.SwapStatic(u.prx, req.name, req.settings.path).1;
            && (ok || previous.Some? || req.name in v.reg.services ==> Extends(u.prx, v.prx, req.name, ports.Keys))
            && (req.name !in v.reg.services ==> forall k | k in v.prx.entries :: Owner(k) != req.name)
            && (previous.Some? || ok ==> req.name in v.reg.services)
            && (req.name in v.reg.services ==>
                  v.reg.services[req.name].stablePorts == if !ok && previous.Some? then previous.value.stablePorts else ports)
  {
    hide RoutesOk, RecordSane, Extends, X.SwapStatic, X.UnswapPorts, X.RemovePorts, UndoRoutes, R.UpdateStatus, R.UpdateLastDeployed;
    var name, ports := req.name, u.reg.services[req.name].stablePorts;
    UnswapStep(u.prx, name);
    RemoveStep(u.prx, name);
    StaticStep(u.prx, name, req.settings.path);
    SameExtends(u.prx, u.prx, name, ports.Keys);
    SameExtends(u.prx, X.UnswapPorts(u.prx, name), name, ports.Keys);
    SameExtends(u.prx, X.SwapStatic(u.prx, name, req.settings.path).0, name, ports.Keys);
    StatusPorts(u.reg, name, R.Running, env.deployedAt, env.launch.now);
    StatusPorts(u.reg, name, R.Failed, env.deployedAt, env.launch.now);
    if previous.Some? {
      UndoExtends(u.prx, name, previous.value, env.launch.undo, ports.Keys);
      StatusPorts(R.Restore(u.reg, PreviousRecord(u.reg, name, previous.value).(name := name)), name, R.Failed, env.deployedAt, env.launch.now);
    }
  }

  lemma StatusPorts(r: R.Registry, name: string, status: R.Status, deployedAt: int, now: int)
    requires name in r.services
    ensures var q := R.UpdateStatus(r, name, status, 0, now).0;
            && name in q.services && q.services[name].stablePorts == r.services[name].stablePorts
            && var t := R.UpdateLastDeployed(q, name, deployedAt, now).0;
               name in t.services && t.services[name].stablePorts == r.services[name].stablePorts
  {
  }

  /** A deployment takes away all stray listeners of its service: it makes them stable ports, or it is refused
      ports altogether, or it leaves no record. */
  ghost predicate DeployTidies(w: World, req: Request, env: DeployEnv, stays: bool)
    requires DeployOrders(w, req, env)
  {
    && ValidServiceName(req.name) && env.accepted
    && (DeployAllocates(w, req, env) ==>
          if stays then Among(w.prx, req.name, AllocatePorts(w, req.name, Preferred(req), req.bind, env.alloc).1.ports.Keys)
          else req.name !in w.reg.services)
  }

  /** A deployment that fails after ports were allocated for a record without any leaves their listeners
      behind. */
  ghost predicate DeployLitters(w: World, req: Request, env: DeployEnv, stays: bool)
    requires DeployOrders(w, req, env)
  {
    DeployAllocates(w, req, env) && !stays && Portless(w.reg, req.name)
  }

  lemma LeavesTidy(w: World, req: Request, env: DeployEnv, v: World, stays: bool)
    requires WorldOk(w) && DeployLeaves(w, req, env, v, stays)
    ensures Tidy(v, req.name) <==> DeployTidies(w, req, env, stays) || (Tidy(w, req.name) && !DeployLitters(w, req, env, stays))
  {
    hide WorldOk, AllocatePorts, Extends, Among, AllListening;
    if ValidServiceName(req.name) && env.accepted {
      ValidNamesAreColonFree(req.name);
      var name := req.name;
      var (q, got) := AllocatePorts(w, name, Preferred(req), req.bind, env.alloc);
      if !got.Ports? {
        NoneAmong(v.prx, name, StableNames(v.reg, name));
      } else {
        WorldRoutes(w);
        AllocateExtends(w, name, Preferred(req), req.bind, env.alloc);
        KnownAmong(w.prx, name, StableNames(w.reg, name), got.ports.Keys);
        if !stays && name !in w.reg.services {
          NoneAmong(v.prx, name, StableNames(v.reg, name));
        } else if stays {
          ExtendsAmong(w.prx, v.prx, name, got.ports.Keys, got.ports.Keys);
        } else if Portless(w.reg, name) {
          var k :| k in Preferred(req);
          StraysShow(v.prx, name, got.ports.Keys, {}, k);
        } else {
          assert StableNames(w.reg, name) != {} by { NamesOfSome(w.reg.services[name].stablePorts); }
          ExtendsAmong(w.prx, v.prx, name, got.ports.Keys, got.ports.Keys);
        }
      }
    }
  }

  lemma DeployTidy(w: World, req: Request, env: DeployEnv)
    requires WorldOk(w) && DeployOk(w, req, env)
    ensures var (v, ok) := Deploy(w, req, env);
            Tidy(v, req.name) <==> DeployTidies(w, req, env, ok) || (Tidy(w, req.name) && !DeployLitters(w, req, env, ok))
  {
    hide WorldOk, Deploy, DeployLeaves, DeployTidies, DeployLitters, Tidy;
    DeployLeaving(w, req, env);
    LeavesTidy(w, req, env, Deploy(w, req, env).0, Deploy(w, req, env).1);
  }

  lemma StaticTidy(w: World, req: Request, env: DeployEnv)
    requires WorldOk(w) && DeployStaticOk(w, req, env)
    ensures var (v, stays) := (DeployStatic(w, req, env).0, StaticStays(w, req, env));
            Tidy(v, req.name) <==> DeployTidies(w, req, env, stays) || (Tidy(w, req.name) && !DeployLitters(w, req, env, stays))
  {
    hide WorldOk, DeployStatic, DeployLeaves, DeployTidies, DeployLitters, Tidy, StaticStays;
    StaticLeaving(w, req, env);
    LeavesTidy(w, req, env, DeployStatic(w, req, env).0, StaticStays(w, req, env));
  }

  lemma KnownAmong(p: X.Proxy, n: string, names: set<string>, more: set<string>)
    ensures names <= more && Among(p, n, names) ==> Among(p, n, more)
  {
    hide EntryKey;
  }

  /** No operation but these changes which names a service has listeners for, or which ports it has. */
  lemma SameTidy(w: World, v: World, n: string)
    requires SamePorts(w.reg, v.reg, n) && Extends(w.prx, v.prx, n, StableNames(w.reg, n))
    ensures Tidy(w, n) <==> Tidy(v, n)
  {
    hide Extends, Among;
    ExtendsAmong(w.prx, v.prx, n, StableNames(w.reg, n), StableNames(w.reg, n));
  }

  lemma RestartTidy(w: World, name: string, env: LaunchEnv)
    requires WorldOk(w) && RestartOk(w, name, env)
    ensures SamePorts(w.reg, RestartLocked(w, name, env).0.reg, name)
    ensures Extends(w.prx, RestartLocked(w, name, env).0.prx, name, StableNames(w.reg, name))
    ensures Tidy(w, name) <==> Tidy(RestartLocked(w, name, env).0, name)
  {
    hide WorldOk, Replace, ReplaceReady, ReplaceCoupled, FreshPid, Extends, PortsDiffer, Tidy, SamePorts;
    RestartPorts(w, name, env);
    SameExtends(w.prx, w.prx, name, StableNames(w.reg, name));
    if name in w.reg.services && w.reg.services[name].settings.kind == R.Binary {
      RestartReady(w, name, env);
      ReplaceExtends(w, name, Some(w.reg.services[name]), Keep, P.FAILED_CODE, 0, env, StableNames(w.reg, name));
    }
    SameTidy(w, RestartLocked(w, name, env).0, name);
  }

  lemma RollbackTidy(w: World, name: string, env: LaunchEnv, deployedAt: int)
    requires WorldOk(w) && RollbackOk(w, name, env)
    ensures Tidy(w, name) <==> Tidy(Rollback(w, name, env, deployedAt).0, name)
  {
    hide WorldOk, Steady, RoutesOk, X.Register, StagedRollback, RestartLocked, X.SwapStatic, FreshPid, Settles, Extends, PortsDiffer, R.UpdateStatus, R.UpdateLastDeployed, Tidy, SamePorts;
    RollbackPorts(w, name, env, deployedAt);
    var v, names := Rollback(w, name, env, deployedAt).0, StableNames(w.reg, name);
    SameExtends(w.prx, w.prx, name, names);
    if name in w.reg.services && w.reg.services[name].previous.Some? {
      var u := RolledWorld(w, name, env);
      RolledSettles(w, name, env);
      RollbackStages(w, name, env);
      SettledIsOk(w, u, name);
      WorldRoutes(w);
      RecordIsColonFree(w.reg, name);
      var t := u.reg.services[name];
      RegisterExtends(w.prx, name, t.stablePorts, t.bind, env.bind, names);
      WorldRoutes(u);
      StaticStep(u.prx, name, t.settings.path);
      SameExtends(u.prx, X.SwapStatic(u.prx, name, t.settings.path).0, name, names);
      RestartTidy(u, name, env);
      ExtendsJoin(w.prx, u.prx, v.prx, name, names);
    }
    SameTidy(w, v, name);
  }

  lemma BindTidy(w: World, name: string, env: X.BindEnv, now: int)
    requires WorldOk(w) && BindOk(w, name, env)
    ensures Tidy(w, name) <==> Tidy(BindListeners(w, name, env, now).0, name)
  {
    hide WorldOk, RoutesOk, X.Register, Extends, Tidy, SamePorts;
    WorldRoutes(w);
    RecordIsColonFree(w.reg, name);
    var s := w.reg.services[name];
    BindPorts(w, name, env, now);
    SameExtends(w.prx, w.prx, name, StableNames(w.reg, name));
    RegisterExtends(w.prx, name, s.stablePorts, s.bind, env, StableNames(w.reg, name));
    SameTidy(w, BindListeners(w, name, env, now).0, name);
  }

  lemma RestoreOneTidy(w: World, name: string, env: RestoreEnv)
    requires WorldOk(w) && RestoreOk(w, name, env)
    ensures Tidy(w, name) <==> Tidy(RestoreOne(w, name, env).0, name)
  {
    hide WorldOk, RoutesOk, RestoreOne, X.SwapPorts, X.SwapStatic, X.UnswapPorts, FreshPid, Gone, Up, Called, RevivalWorks, RestoreEvents, RecordInFlight, Tidy, Extends;
    WorldRoutes(w);
    RecordIsColonFree(w.reg, name);
    SteadyWorld(w);
    RestoreOneEnds(w, name, env);
    RestoreOnePorts(w, name, env);
    var v, swapped := RestoreOne(w, name, env).0, X.SwapPorts(w.prx, name, env.launch.ports).0;
    SwapStep(w.prx, name, env.launch.ports);
    UnswapStep(w.prx, name);
    UnswapStep(swapped, name);
    StaticStep(w.prx, name, w.reg.services[name].settings.path);
    SameExtends(w.prx, v.prx, name, StableNames(w.reg, name));
    SameTidy(w, v, name);
  }

  ghost predicate ReserveTidies(w: World, name: string, preferred: map<string, int>, env: AllocEnv)
    requires AllocOrders(w.reg, name, preferred, env)
  {
    var got := AllocatePorts(w, name, preferred, R.DEFAULT_BIND, env).1;
    ValidServiceName(name) && (got.Ports? ==> name !in w.reg.services && Among(w.prx, name, got.ports.Keys))
  }

  ghost predicate ReserveLitters(w: World, name: string, preferred: map<string, int>, env: AllocEnv)
    requires AllocOrders(w.reg, name, preferred, env)
  {
    && ValidServiceName(name) && Portless(w.reg, name)
    && preferred.Keys != {} && AllocatePorts(w, name, preferred, R.DEFAULT_BIND, env).1.Ports?
  }

  lemma ReserveTidy(w: World, name: string, preferred: map<string, int>, env: AllocEnv, now: int)
    requires WorldOk(w) && ReserveOk(w, name, preferred, env)
    ensures Tidy(Reserve(w, name, preferred, env, now).0, name) <==>
              ReserveTidies(w, name, preferred, env) || (Tidy(w, name) && !ReserveLitters(w, name, preferred, env))
  {
    hide WorldOk, AllocatePorts, Extends, Among, AllListening, R.Staged;
    if ValidServiceName(name) {
      ValidNamesAreColonFree(name);
      WorldRoutes(w);
      AllocateExtends(w, name, preferred, R.DEFAULT_BIND, env);
      var (q, got) := AllocatePorts(w, name, preferred, R.DEFAULT_BIND, env);
      var v := Reserve(w, name, preferred, env, now).0;
      if !got.Ports? {
        NoneAmong(q, name, StableNames(v.reg, name));
      } else if name !in w.reg.services {
        ReservedPorts(w, name, preferred, env, now);
        ExtendsAmong(w.prx, q, name, got.ports.Keys, got.ports.Keys);
        KnownAmong(w.prx, name, {}, got.ports.Keys);
      } else if Portless(w.reg, name) && preferred.Keys != {} {
        var k :| k in preferred.Keys;
        StraysShow(q, name, got.ports.Keys, {}, k);
      } else {
        assert Portless(w.reg, name) || StableNames(w.reg, name) != {} by { NamesOfSome(w.reg.services[name].stablePorts); }
        ExtendsAmong(w.prx, q, name, got.ports.Keys, StableNames(w.reg, name));
      }
    }
  }

  lemma ReservedPorts(w: World, name: string, preferred: map<string, int>, env: AllocEnv, now: int)
    requires AllocOrders(w.reg, name, preferred, env) && ValidServiceName(name) && name !in w.reg.services
    requires AllocatePorts(w, name, preferred, R.DEFAULT_BIND, env).1.Ports?
    ensures StableNames(Reserve(w, name, preferred, env, now).0.reg, name) == AllocatePorts(w, name, preferred, R.DEFAULT_BIND, env).1.ports.Keys
  {
    hide AllocatePorts;
  }

  lemma RemoveTidy(w: World, name: string, now: int)
    requires WorldOk(w)
    ensures Tidy(Remove(w, name), name)
    ensures var v := Prune(w, name, now).0;
            if name in w.reg.services && w.reg.services[name].status == R.Archived then Tidy(v, name) else v == w
  {
    hide WorldOk, RoutesOk, X.RemovePorts, P.StopWith, Among, PrxElsewhere;
    WorldRoutes(w);
    if ColonFree(name) {
      RemoveStep(w.prx, name);
      NoneAmong(X.RemovePorts(w.prx, name), name, {});
    }
  }

  lemma SimpleTidy(w: World, op: Op)
    requires WorldOk(w) && OpOk(w, op)
    requires op.OpStop? || op.OpArchive? || op.OpRestoreArchived? || op.OpExit? || op.OpDrain?
    ensures Tidy(w, Subject(w, op)) <==> Tidy(Apply(w, op), Subject(w, op))
  {
    hide WorldOk, OpOk, Apply, Tidy, Extends, SamePorts;
    SimpleSame(w, op);
    SameExtends(w.prx, Apply(w, op).prx, Subject(w, op), StableNames(w.reg, Subject(w, op)));
    SameTidy(w, Apply(w, op), Subject(w, op));
  }

  lemma SimpleSame(w: World, op: Op)
    requires WorldOk(w) && OpOk(w, op)
    requires op.OpStop? || op.OpArchive? || op.OpRestoreArchived? || op.OpExit? || op.OpDrain?
    ensures SamePorts(w.reg, Apply(w, op).reg, Subject(w, op)) && Apply(w, op).prx.entries == w.prx.entries
  {
    hide WorldOk, P.StopWith, P.Signal, X.UnswapPorts, ProcessExits, R.UpdateStatus, Stop, Archive, RestoreArchived, FinishDrain;
    match op
    case OpStop(name, stuck, now) => StopSame(w, name, stuck, now);
    case OpArchive(name, now) => ArchiveSame(w, name, now);
    case OpRestoreArchived(name, now) => ArchiveSame(w, name, now);
    case OpDrain(i) => DrainSame(w, i);
    case OpExit(pid, code, duration, now) =>
      ExitPorts(w, pid, code, duration, now, Subject(w, op));
      ExitEntries(w, pid, code, duration, now);
  }

  lemma StopSame(w: World, name: string, stuck: bool, now: int)
    ensures SamePorts(w.reg, Stop(w, name, stuck, now).0.reg, name) && Stop(w, name, stuck, now).0.prx.entries == w.prx.entries
  {
    hide P.StopWith, X.UnswapPorts, R.UpdateStatus;
    UnswapEntries(w.prx, name);
    UpdatesKeepPorts(w.reg, name, name, R.Stopped, 0, 0, false, now);
  }

  lemma ArchiveSame(w: World, name: string, now: int)
    ensures SamePorts(w.reg, Archive(w, name, now).0.reg, name) && Archive(w, name, now).0.prx == w.prx
    ensures SamePorts(w.reg, RestoreArchived(w, name, now).0.reg, name) && RestoreArchived(w, name, now).0.prx == w.prx
  {
  }

  lemma DrainSame(w: World, i: nat)
    ensures FinishDrain(w, i).reg == w.reg && FinishDrain(w, i).prx == w.prx
  {
  }

  lemma UnswapEntries(p: X.Proxy, name: string)
    ensures X.UnswapPorts(p, name).entries == p.entries
  {
    hide X.CurrentHandlers, X.PlaceholderHandlers;
  }

  lemma ExitEntries(w: World, pid: int, code: int, duration: int, now: int)
    ensures ProcessExits(w, pid, code, duration, now).prx.entries == w.prx.entries
  {
    hide P.Observe, P.Die, P.Close, P.Classify, R.UpdateStatus, R.CompleteStart, R.UpdateCrashState, X.UnswapPorts;
    if pid in w.mgr.watchers {
      UnswapEntries(w.prx, w.mgr.watchers[pid].name);
    }
  }

  // ---- One operation, and runs ----

  /** Exactly the operations that leave a service listeners it has no stable ports for: allocating ports for
      a record without any, without giving them to it. */
  ghost predicate Litters(w: World, op: Op)
    requires OpOk(w, op)
  {
    match op
    case OpDeploy(req, env) => DeployLitters(w, req, env, Deploy(w, req, env).1)
    case OpDeployStatic(req, env) => DeployLitters(w, req, env, StaticStays(w, req, env))
    case OpReserve(name, preferred, env, _) => ReserveLitters(w, name, preferred, env)
    case _ => false
  }

  /** Exactly the operations after which a service has no stray listeners, whatever it had before. */
  ghost predicate Tidies(w: World, op: Op)
    requires OpOk(w, op)
  {
    match op
    case OpDeploy(req, env) => DeployTidies(w, req, env, Deploy(w, req, env).1)
    case OpDeployStatic(req, env) => DeployTidies(w, req, env, StaticStays(w, req, env))
    case OpReserve(name, preferred, env, _) => ReserveTidies(w, name, preferred, env)
    case OpRemove(_) => true
    case OpPrune(name, _) => name in w.reg.services && w.reg.services[name].status == R.Archived
    case _ => false
  }

  /** One operation, any outcome: its service has listeners for its stable ports only, exactly if the
      operation tidies up, or it had no others before and the operation leaves none. */
  lemma ApplyTidy(w: World, op: Op)
    requires WorldOk(w) && OpOk(w, op)
    ensures Tidy(Apply(w, op), Subject(w, op)) <==> Tidies(w, op) || (Tidy(w, Subject(w, op)) && !Litters(w, op))
  {
    hide WorldOk, Deploy, DeployStatic, RestartLocked, Rollback, Reserve, RestoreOne, ProcessExits, DeployOk, RestartOk, RollbackOk, ReserveOk, RestoreOk, RemoveOk, BindOk, DeployStaticOk, BindListeners, Tidy, DeployLeaves, DeployTidies, DeployLitters, ReserveTidies, ReserveLitters, StaticStays, Remove, Prune;
    match op
    case OpDeploy(req, env) => DeployTidy(w, req, env);
    case OpDeployStatic(req, env) => StaticTidy(w, req, env);
    case OpRestart(name, env) => RestartTidy(w, name, env);
    case OpRollback(name, env, t) => RollbackTidy(w, name, env, t);
    case OpReserve(name, preferred, env, now) => ReserveTidy(w, name, preferred, env, now);
    case OpBind(name, env, now) => BindTidy(w, name, env, now);
    case OpRestoreOne(name, env) => RestoreOneTidy(w, name, env);
    case OpRemove(name) => RemoveTidy(w, name, 0);
    case OpPrune(name, now) => RemoveTidy(w, name, now);
    case _ => SimpleTidy(w, op);
  }

  /** The services that have been left stray listeners and not been rid of them since. */
  ghost function StrayAfter(w: World, ops: seq<Op>, stray: set<string>): set<string>
    requires RunOk(w, ops)
    decreases |ops|
  {
    if ops == [] then stray else StrayAfter(Apply(w, ops[0]), ops[1..], StrayNow(w, ops[0], stray))
  }

  ghost function StrayNow(w: World, op: Op, stray: set<string>): set<string>
    requires OpOk(w, op)
  {
    if Tidies(w, op) then stray - {Subject(w, op)}
    else if Litters(w, op) then stray + {Subject(w, op)}
    else stray
  }

  lemma StrayStep(w: World, op: Op, n: string, stray: set<string>)
    requires WorldOk(w) && OpOk(w, op) && (Tidy(w, n) <==> n !in stray)
    ensures Tidy(Apply(w, op), n) <==> n !in StrayNow(w, op, stray)
  {
    hide WorldOk, OpOk, Apply, Subject, Tidies, Litters, Tidy, Settles;
    if n == Subject(w, op) {
      ApplyTidy(w, op);
    } else {
      ApplyKeeps(w, op);
      OthersTidy(w, Apply(w, op), Subject(w, op), n);
    }
  }

  lemma OthersTidy(w: World, v: World, name: string, n: string)
    requires Settles(w, v, name) && n != name
    ensures Tidy(w, n) <==> Tidy(v, n)
  {
    hide WorldOk, X.CurrentHandlers, Elsewhere;
    OthersSame(w, v, name, n);
    assert XP.SameService(w.prx, v.prx, n);
    if ColonFree(n) {
      forall k ensures EntryKey(n, k) in w.prx.entries <==> EntryKey(n, k) in v.prx.entries {
        assert Owner(EntryKey(n, k)) == n;
      }
    }
  }

  /** Over every run: a service has listeners for its stable ports only, and none if it is not registered -
      if and only if it has not been left others, or has been rid of them since. */
  lemma {:induction false} RunsStayTidy(w: World, ops: seq<Op>, stray: set<string>)
    requires WorldOk(w) && RunOk(w, ops)
    requires forall n :: Tidy(w, n) <==> n !in stray
    ensures var v := RunAll(w, ops);
            forall n :: Tidy(v, n) <==> n !in StrayAfter(w, ops, stray)
    decreases |ops|
  {
    hide WorldOk, OpOk, Apply, Subject, StrayNow, Tidy, Settles;
    if ops != [] {
      var v := Apply(w, ops[0]);
      ApplyKeeps(w, ops[0]);
      SettledIsOk(w, v, Subject(w, ops[0]));
      forall n ensures Tidy(v, n) <==> n !in StrayNow(w, ops[0], stray) {
        StrayStep(w, ops[0], n, stray);
      }
      RunsStayTidy(v, ops[1..], StrayNow(w, ops[0], stray));
    }
  }

  // ---- What a failed deployment leaves behind ----

  /** A failed deployment over a record without stable ports: exactly which listeners the service has then.
      A restart of it succeeds only through one that is called "default". */
  lemma FailedDeployOfPortless(w: World, req: Request, env: DeployEnv)
    requires WorldOk(w) && DeployOk(w, req, env) && Portless(w.reg, req.name) && !Deploy(w, req, env).1
    ensures var v := Deploy(w, req, env).0;
            forall k :: EntryKey(req.name, k) in v.prx.entries <==>
              if ValidServiceName(req.name) && env.accepted
              then DeployAllocates(w, req, env) && (EntryKey(req.name, k) in w.prx.entries || k in Preferred(req))
              else EntryKey(req.name, k) in w.prx.entries
  {
    hide WorldOk, Deploy, DeployOk, EntryKey, AllocatePorts;
    DeployLeaving(w, req, env);
    WorldRoutes(w);
    RecordIsColonFree(w.reg, req.name);
    if ValidServiceName(req.name) && env.accepted && !DeployAllocates(w, req, env) {
      NoneAmong(Deploy(w, req, env).0.prx, req.name, {});
    }
  }
}
