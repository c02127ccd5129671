/** Where the listeners listen: on the stable ports the registry holds, over every run. */
module ListenerPorts {
  import opened Options
  import opened Names
  import R = RegistrySpec
  import P = ProcessSpec
  import PP = ProcessProofs
  import opened RT = ReplaceProcess
  import X = ProxySpec
  import XP = ProxyProofs
  import opened ServiceSpec
  import opened HotSwap
  import opened Coupling
  import opened Operations
  import opened Routes
  import opened Deployments
  import opened StablePorts
  import opened Startup

  /** Those of these ports that have a listener have it on this number. */
  ghost predicate Follows(p: X.Proxy, name: string, ports: map<string, int>) {
    forall k | k in ports && EntryKey(name, k) in p.entries :: p.entries[EntryKey(name, k)].stablePort == ports[k]
  }

  /** The listeners of a registered service are on its stable ports. */
  ghost predicate Listed(w: World, n: string) {
    n in w.reg.services ==> Follows(w.prx, n, w.reg.services[n].stablePorts)
  }

  // ---- The proxy's operations ----

  /** What is asked for agrees with these ports. */
  ghost predicate Asks(asked: map<string, int>, ports: map<string, int>) {
    forall k | k in asked && k in ports :: asked[k] == ports[k]
  }

  lemma RegisterFollows(p: X.Proxy, name: string, asked: map<string, int>, bind: string, env: X.BindEnv, ports: map<string, int>)
    requires RoutesOk(p) && ColonFree(name) && X.IsOrderOf(env.order, asked)
    requires Follows(p, name, ports) && Asks(asked, ports)
    ensures Follows(X.Register(p, name, asked, bind, env).0, name, ports)
  {
    hide RoutesOk, X.Register, EntryKey;
    forall k | k in ports ensures var (q, key) := (X.Register(p, name, asked, bind, env).0, EntryKey(name, k));
                                  key in q.entries ==> q.entries[key].stablePort == ports[k]
    {
      RegisteredEntry(p, name, asked, bind, env, k);
    }
  }

  lemma RegisteredEntry(p: X.Proxy, name: string, ports: map<string, int>, bind: string, env: X.BindEnv, portName: string)
    requires RoutesOk(p) && ColonFree(name) && X.IsOrderOf(env.order, ports)
    ensures var (q, key) := (X.Register(p, name, ports, bind, env).0, EntryKey(name, portName));
            key in q.entries ==>
              || (key in p.entries && q.entries[key] == p.entries[key])
              || (portName in ports && q.entries[key].stablePort == ports[portName])
  {
    XP.RegisterEntry(p, name, ports, bind, env, portName);
  }

  lemma SameEntries(p: X.Proxy, q: X.Proxy, name: string, ports: map<string, int>)
    requires q.entries == p.entries
    ensures Follows(p, name, ports) <==> Follows(q, name, ports)
  {
  }

  lemma NoneFollow(p: X.Proxy, name: string, ports: map<string, int>)
    requires ColonFree(name) && forall k | k in p.entries :: Owner(k) != name
    ensures Follows(p, name, ports)
  {
  }

  lemma NewRoutesFollow(p: X.Proxy, name: string, listeners: Listeners, env: LaunchEnv, ports: map<string, int>)
    requires RoutesOk(p) && ColonFree(name) && Follows(p, name, ports)
    requires listeners.Reregister? ==> X.IsOrderOf(env.bind.order, listeners.ports) && listeners.ports == ports
    ensures Follows(NewRoutes(p, name, listeners, env).0, name, ports)
  {
    hide RoutesOk, X.Register, X.SwapPorts, Follows;
    var (m, bound) := match listeners
      case Keep => (p, true)
      case Reregister(asked, bind) => X.Register(p, name, asked, bind, env.bind);
    if listeners.Reregister? {
      RegisterFollows(p, name, listeners.ports, listeners.bind, env.bind, ports);
      RegisterStep(p, name, listeners.ports, listeners.bind, env.bind);
    }
    if bound {
      SwapStep(m, name, env.ports);
      SameEntries(m, X.SwapPorts(m, name, env.ports).0, name, ports);
    }
  }

  lemma FailureFollows(p: X.Proxy, name: string, listeners: Listeners, env: LaunchEnv, ports: map<string, int>)
    requires RoutesOk(p) && ColonFree(name) && Follows(p, name, ports)
    requires listeners.Reregister? ==> X.IsOrderOf(env.bind.order, listeners.ports) && listeners.ports == ports && ports.Keys == env.ports.Keys
    ensures Follows(RoutesAtFailure(p, name, listeners, env), name, ports) && RoutesOk(RoutesAtFailure(p, name, listeners, env))
  {
    hide RoutesOk, NewRoutes, Follows;
    NewRoutesFollow(p, name, listeners, env, ports);
    NewRoutesKeeps(p, name, listeners, env);
  }

  lemma UndoFollows(p: X.Proxy, name: string, rec: R.Service, undo: X.BindEnv)
    requires RoutesOk(p) && ColonFree(name) && X.IsOrderOf(undo.order, rec.stablePorts) && Follows(p, name, rec.stablePorts)
    ensures Follows(UndoRoutes(p, name, rec, undo), name, rec.stablePorts)
  {
    hide RoutesOk, X.Register, X.SwapPorts, X.SwapStatic, Follows;
    var (m, bound) := X.Register(p, name, rec.stablePorts, rec.bind, undo);
    RegisterFollows(p, name, rec.stablePorts, rec.bind, undo, rec.stablePorts);
    RegisterStep(p, name, rec.stablePorts, rec.bind, undo);
    SwapStep(m, name, rec.internalPorts);
    StaticStep(m, name, rec.settings.path);
    SameEntries(m, X.SwapPorts(m, name, rec.internalPorts).0, name, rec.stablePorts);
    SameEntries(m, X.SwapStatic(m, name, rec.settings.path).0, name, rec.stablePorts);
  }

  // ---- Allocation ----

  lemma TryBindFollows(p: X.Proxy, name: string, portName: string, port: int, bind: string, env: AllocEnv, ports: map<string, int>)
    requires RoutesOk(p) && ColonFree(name) && Follows(p, name, ports) && portName !in ports
    ensures var (q, ok) := TryBind(p, name, portName, port, bind, env);
            Follows(q, name, ports) && (ok ==> Follows(q, name, ports[portName := port]))
  {
    hide RoutesOk, X.Register, EntryKey, Follows;
    var asked, refused: set<string> := map[portName := port], if (portName, port) in env.refused then {portName} else {};
    var bindEnv := X.BindEnv(env.addressOk, [portName], refused);
    RegisterFollows(p, name, asked, bind, bindEnv, ports);
    OnePort(p, name, portName, port, bind, bindEnv, ports);
  }

  lemma OnePort(p: X.Proxy, name: string, portName: string, port: int, bind: string, env: X.BindEnv, ports: map<string, int>)
    requires RoutesOk(p) && ColonFree(name) && env.order == [portName]
    requires Follows(X.Register(p, name, map[portName := port], bind, env).0, name, ports)
    ensures var (q, ok) := X.Register(p, name, map[portName := port], bind, env);
            ok ==> Follows(q, name, ports[portName := port])
  {
    hide X.Register, EntryKey, XP.Sound, XP.Held;
    XP.RegisterOutcome(p, name, map[portName := port], bind, env);
    var (q, ok) := X.Register(p, name, map[portName := port], bind, env);
    assert portName in map[portName := port];
    assert ok ==> XP.Registered(q, name, portName, map[portName := port][portName], X.NormalBind(bind));
  }

  lemma {:induction false} FirstFreeFollows(p: X.Proxy, name: string, portName: string, port: int, used: set<int>, bind: string, env: AllocEnv, ports: map<string, int>)
    requires RoutesOk(p) && ColonFree(name) && Follows(p, name, ports) && portName !in ports
    ensures var (q, found) := FirstFree(p, name, portName, port, used, bind, env);
            Follows(q, name, ports) && (found.Some? ==> Follows(q, name, ports[portName := found.value]))
    decreases RANGE_END + 1 - port
  {
    hide RoutesOk, TryBind, Follows;
    if port <= RANGE_END {
      if port in used {
        FirstFreeFollows(p, name, portName, port + 1, used, bind, env, ports);
      } else {
        TryBindFollows(p, name, portName, port, bind, env, ports);
        TryBindStep(p, name, portName, port, bind, env);
        var (q, ok) := TryBind(p, name, portName, port, bind, env);
        if !ok {
          FirstFreeFollows(q, name, portName, port + 1, used, bind, env, ports);
        }
      }
    }
  }

  lemma AllocateOneFollows(p: X.Proxy, name: string, portName: string, preferred: int, used: set<int>, bind: string, env: AllocEnv, ports: map<string, int>)
    requires RoutesOk(p) && ColonFree(name) && Follows(p, name, ports) && portName !in ports
    ensures var (q, one) := AllocateOne(p, name, portName, preferred, used, bind, env);
            Follows(q, name, ports) && (one.Port? ==> Follows(q, name, ports[portName := one.port]))
  {
    hide RoutesOk, TryBind, FirstFree, Follows;
    TryBindFollows(p, name, portName, preferred, bind, env, ports);
    TryBindStep(p, name, portName, preferred, bind, env);
    var (q, ok) := if preferred != 0 && preferred !in used then TryBind(p, name, portName, preferred, bind, env) else (p, false);
    if !ok {
      FirstFreeFollows(q, name, portName, RANGE_START, used, bind, env, ports);
    }
  }

  lemma {:induction false} AllocateLoopFollows(p: X.Proxy, name: string, preferred: map<string, int>, used: set<int>, bind: string, env: AllocEnv, i: nat, result: map<string, int>)
    requires RoutesOk(p) && ColonFree(name) && X.IsOrderOf(env.order, preferred) && i <= |env.order|
    requires Follows(p, name, result) && forall k | k in result :: k in env.order[..i]
    ensures var (q, got) := AllocateLoop(p, name, preferred, used, bind, env, i, result);
            got.Ports? ==> Follows(q, name, got.ports)
    decreases |env.order| - i
  {
    hide RoutesOk, AllocateOne, X.RemovePorts, Follows;
    if i < |env.order| {
      var portName := env.order[i];
      assert env.order[..i + 1] == env.order[..i] + [portName];
      assert portName !in env.order[..i];
      AllocateOneFollows(p, name, portName, preferred[portName], used, bind, env, result);
      AllocateOneStep(p, name, portName, preferred[portName], used, bind, env);
      var (q, one) := AllocateOne(p, name, portName, preferred[portName], used, bind, env);
      if one.Port? {
        AllocateLoopFollows(q, name, preferred, used + {one.port}, bind, env, i + 1, result[portName := one.port]);
      }
    }
  }

  lemma AllocateFollows(w: World, name: string, preferred: map<string, int>, bind: string, env: AllocEnv)
    requires RoutesOk(w.prx) && ColonFree(name) && AllocOrders(w.reg, name, preferred, env) && Listed(w, name)
    ensures var (q, got) := AllocatePorts(w, name, preferred, bind, env);
            got.Ports? ==> Follows(q, name, got.ports)
  {
    hide RoutesOk, AllocateLoop, X.Register;
    if name in w.reg.services && w.reg.services[name].stablePorts != map[] {
      var s := w.reg.services[name];
      RegisterFollows(w.prx, name, s.stablePorts, s.bind, env.existing, s.stablePorts);
    } else {
      AllocateLoopFollows(w.prx, name, preferred, R.UsedPorts(w.reg), bind, env, 0, map[]);
    }
  }

  // ---- Operations ----

  lemma ReplaceListed(w: World, name: string, previous: Option<R.Service>, listeners: Listeners, verifyCode: int, deployedAt: int, env: LaunchEnv)
    requires ReplaceReady(w, name, previous, listeners, verifyCode, env) && ReplaceCoupled(w, name, previous, listeners, env)
    requires Listed(w, name)
    requires previous.Some? ==> previous.value.stablePorts == map[] || previous.value.stablePorts == w.reg.services[name].stablePorts
    ensures Listed(Replace(w, name, previous, listeners, verifyCode, deployedAt, env).0, name)
  {
    hide Replace, NewRoutes, UndoRoutes, RoutesAtFailure, X.RemovePorts, RoutesOk, Steady, Elsewhere, RegElsewhere, FreshPid, Follows, LaunchWorks, TakeOverWorks, PutBack;
    ReplaceProcesses(w, name, previous, listeners, verifyCode, deployedAt, env);
    var ports, r := w.reg.services[name].stablePorts, RoutesAtFailure(w.prx, name, listeners, env);
    NewRoutesFollow(w.prx, name, listeners, env, ports);
    FailureFollows(w.prx, name, listeners, env, ports);
    if previous.Some? {
      NothingToFollow(r, name);
      UndoFollows(r, name, previous.value, env.undo);
    }
  }

  lemma NothingToFollow(p: X.Proxy, name: string)
    ensures Follows(p, name, map[])
  {
  }

  lemma DeployListed(w: World, req: Request, env: DeployEnv)
    requires WorldOk(w) && DeployOk(w, req, env) && Listed(w, req.name)
    ensures Listed(Deploy(w, req, env).0, req.name)
  {
    hide WorldOk, Steady, RoutesOk, Replace, AllocatePorts, WorldElsewhere, ReplaceReady, ReplaceCoupled, RecordSane, PP.Intended, FreshPid, Follows, StagedRecord;
    if ValidServiceName(req.name) && env.accepted {
      ValidNamesAreColonFree(req.name);
      AllocateListed(w, req.name, Preferred(req), req.bind, env.alloc);
      if AllocatePorts(w, req.name, Preferred(req), req.bind, env.alloc).1.Ports? {
        DeployUnfolds(w, req, env);
        DeployReady(w, req, env);
        StagedFacts(w, req, env);
        var s := StagedRecord(w, req, env);
        ReplaceListed(AtReplace(w, req, env), req.name, R.Get(w.reg, req.name), Reregister(s.stablePorts, s.bind), P.STOPPED_CODE, env.deployedAt, env.launch);
      }
    }
  }

  /** After the allocation the listeners are on the allocated ports, or there was nothing to allocate for. */
  lemma AllocateListed(w: World, name: string, preferred: map<string, int>, bind: string, env: AllocEnv)
    requires WorldOk(w) && ColonFree(name) && AllocOrders(w.reg, name, preferred, env) && Listed(w, name)
    ensures var (q, got) := AllocatePorts(w, name, preferred, bind, env);
            if got.Ports? then Follows(q, name, got.ports) else Listed(w.(prx := q), name)
  {
    hide Steady, RoutesOk, AllocatePorts, PP.Intended, Follows;
    AllocateFollows(w, name, preferred, bind, env);
    AllocateStep(w, name, preferred, bind, env);
    NothingToFollow(AllocatePorts(w, name, preferred, bind, env).0, name);
  }

  lemma DeployStaticListed(w: World, req: Request, env: DeployEnv)
    requires WorldOk(w) && DeployStaticOk(w, req, env) && Listed(w, req.name)
    ensures Listed(DeployStatic(w, req, env).0, req.name)
  {
    hide WorldOk, Steady, RoutesOk, AllocatePorts, RecordSane, PP.Intended, Follows, StagedRecord, X.Register, X.SwapStatic, StaticEnd, RestorePrevious, RestoreFailedDeploy;
    if ValidServiceName(req.name) && env.accepted {
      ValidNamesAreColonFree(req.name);
      AllocateListed(w, req.name, Preferred(req), req.bind, env.alloc);
      if AllocatePorts(w, req.name, Preferred(req), req.bind, env.alloc).1.Ports? {
        StaticUnfolds(w, req, env);
        StagedFacts(w, req, env);
        StaticRecord(w, req, env);
        var u, s, bound := StaticAtBind(w, req, env), StagedRecord(w, req, env), X.Register(AtReplace(w, req, env).prx, req.name, StagedRecord(w, req, env).stablePorts, StagedRecord(w, req, env).bind, env.launch.bind).1;
        StaticBindFollows(w, req, env);
        StaticEndListed(u, req, env, R.Get(w.reg, req.name), bound);
      }
    }
  }

  lemma StaticBindFollows(w: World, req: Request, env: DeployEnv)
    requires WorldOk(w) && DeployOrders(w, req, env) && ValidServiceName(req.name)
    requires AllocatePorts(w, req.name, Preferred(req), req.bind, env.alloc).1.Ports?
    requires Follows(AllocatePorts(w, req.name, Preferred(req), req.bind, env.alloc).0, req.name, AllocatePorts(w, req.name, Preferred(req), req.bind, env.alloc).1.ports)
    requires X.IsOrderOf(env.launch.bind.order, StagedRecord(w, req, env).stablePorts)
    ensures Follows(StaticAtBind(w, req, env).prx, req.name, StagedRecord(w, req, env).stablePorts)
    ensures RoutesOk(StaticAtBind(w, req, env).prx)
  {
    hide WorldOk, RoutesOk, AllocatePorts, RecordSane, Follows, X.Register, R.Staged;
    ValidNamesAreColonFree(req.name);
    StagedFacts(w, req, env);
    WorldRoutes(w);
    AllocateStep(w, req.name, Preferred(req), req.bind, env.alloc);
    StaticRoutesOk(w, req, env);
    var s, u := StagedRecord(w, req, env), AtReplace(w, req, env);
    RegisterFollows(u.prx, req.name, s.stablePorts, s.bind, env.launch.bind, s.stablePorts);
  }

  lemma WorldRoutes(w: World)
    requires WorldOk(w)
    ensures RoutesOk(w.prx) && RecordsSane(w.reg)
  {
  }

  lemma StaticEndListed(u: World, req: Request, env: DeployEnv, previous: Option<R.Service>, bound: bool)
    requires RoutesOk(u.prx) && ColonFree(req.name) && req.name in u.reg.services && RecordSane(u.reg.services[req.name], req.name)
    requires Listed(u, req.name)
    requires previous.Some? ==>
               && X.IsOrderOf(env.launch.undo.order, previous.value.stablePorts) && RecordSane(previous.value, req.name)
               && (previous.value.stablePorts == map[] || previous.value.stablePorts == u.reg.services[req.name].stablePorts)
    ensures Listed(StaticEnd(u, req, env, previous, bound), req.name)
  {
    hide RoutesOk, RecordSane, Follows, X.SwapStatic, X.UnswapPorts, X.RemovePorts, UndoRoutes, StaticEnd, RegElsewhere;
    var name, ports := req.name, u.reg.services[req.name].stablePorts;
    var v := StaticEnd(u, req, env, previous, bound);
    StaticEndParts(u, req, env, previous, bound);
    StaticEndPorts(u, req, env, previous, bound);
    NothingToFollow(v.prx, name);
    UnswapStep(u.prx, name);
    RemoveStep(u.prx, name);
    StaticStep(u.prx, name, req.settings.path);
    NoneFollow(X.RemovePorts(u.prx, name), name, ports);
    SameEntries(u.prx, X.UnswapPorts(u.prx, name), name, ports);
    SameEntries(u.prx, X.SwapStatic(u.prx, name, req.settings.path).0, name, ports);
    if previous.Some? {
      NothingToFollow(u.prx, name);
      UndoFollows(u.prx, name, previous.value, env.launch.undo);
      UndoneFollows(u.prx, name, previous.value, env.launch.undo, ports);
    }
  }

  lemma UndoneFollows(p: X.Proxy, name: string, rec: R.Service, undo: X.BindEnv, ports: map<string, int>)
    requires RoutesOk(p) && ColonFree(name) && X.IsOrderOf(undo.order, rec.stablePorts) && Follows(p, name, ports)
    requires rec.stablePorts == map[] || rec.stablePorts == ports
    ensures Follows(UndoRoutes(p, name, rec, undo), name, ports)
  {
    hide RoutesOk, X.Register, X.SwapPorts, X.SwapStatic, Follows;
    var (m, bound) := X.Register(p, name, rec.stablePorts, rec.bind, undo);
    RegisterFollows(p, name, rec.stablePorts, rec.bind, undo, ports);
    RegisterStep(p, name, rec.stablePorts, rec.bind, undo);
    SwapStep(m, name, rec.internalPorts);
    StaticStep(m, name, rec.settings.path);
    SameEntries(m, X.SwapPorts(m, name, rec.internalPorts).0, name, ports);
    SameEntries(m, X.SwapStatic(m, name, rec.settings.path).0, name, ports);
  }

  lemma RestartListed(w: World, name: string, env: LaunchEnv)
    requires WorldOk(w) && RestartOk(w, name, env) && Listed(w, name)
    ensures Listed(RestartLocked(w, name, env).0, name)
  {
    hide WorldOk, Replace, ReplaceReady, ReplaceCoupled, FreshPid, Listed;
    if name in w.reg.services && w.reg.services[name].settings.kind == R.Binary {
      RestartReady(w, name, env);
      ReplaceListed(w, name, Some(w.reg.services[name]), Keep, P.FAILED_CODE, 0, env);
    }
  }

  lemma RollbackListed(w: World, name: string, env: LaunchEnv, deployedAt: int)
    requires WorldOk(w) && RollbackOk(w, name, env) && Listed(w, name)
    ensures Listed(Rollback(w, name, env, deployedAt).0, name)
  {
    hide WorldOk, Steady, RoutesOk, X.Register, StagedRollback, RestartLocked, X.SwapStatic, FreshPid, Settles, Follows, PortsDiffer;
    if name in w.reg.services && w.reg.services[name].previous.Some? {
      var u := RolledWorld(w, name, env);
      RolledSettles(w, name, env);
      RollbackStages(w, name, env);
      SettledIsOk(w, u, name);
      WorldRoutes(w);
      RecordIsColonFree(w.reg, name);
      var t := u.reg.services[name];
      RegisterFollows(w.prx, name, t.stablePorts, t.bind, env.bind, t.stablePorts);
      if X.Register(w.prx, name, t.stablePorts, t.bind, env.bind).1 {
        if t.settings.kind == R.Static {
          WorldRoutes(u);
          StaticStep(u.prx, name, t.settings.path);
          SameEntries(u.prx, X.SwapStatic(u.prx, name, t.settings.path).0, name, t.stablePorts);
        } else {
          RestartListed(u, name, env);
        }
      }
    }
  }

  lemma ReserveListed(w: World, name: string, preferred: map<string, int>, env: AllocEnv, now: int)
    requires WorldOk(w) && ReserveOk(w, name, preferred, env) && Listed(w, name)
    ensures Listed(Reserve(w, name, preferred, env, now).0, name)
  {
    hide WorldOk, AllocatePorts, Follows, RecordSane, Fresh, FromRange;
    if ValidServiceName(name) {
      ValidNamesAreColonFree(name);
      AllocatedPorts(w, name, preferred, R.DEFAULT_BIND, env);
      NothingToFollow(AllocatePorts(w, name, preferred, R.DEFAULT_BIND, env).0, name);
      AllocateListed(w, name, preferred, R.DEFAULT_BIND, env);
    }
  }

  lemma BindListed(w: World, name: string, env: X.BindEnv, now: int)
    requires WorldOk(w) && BindOk(w, name, env) && Listed(w, name)
    ensures Listed(BindListeners(w, name, env, now).0, name)
  {
    hide WorldOk, RoutesOk, X.Register, Follows;
    WorldRoutes(w);
    RecordIsColonFree(w.reg, name);
    var s := w.reg.services[name];
    RegisterFollows(w.prx, name, s.stablePorts, s.bind, env, s.stablePorts);
  }

  lemma RestoreOneListed(w: World, name: string, env: RestoreEnv)
    requires WorldOk(w) && RestoreOk(w, name, env) && Listed(w, name)
    ensures Listed(RestoreOne(w, name, env).0, name)
  {
    hide WorldOk, RoutesOk, RestoreOne, X.SwapPorts, X.SwapStatic, X.UnswapPorts, Follows, FreshPid, Gone, Up, Called, RevivalWorks;
    WorldRoutes(w);
    RecordIsColonFree(w.reg, name);
    SteadyWorld(w);
    RestoreOneEnds(w, name, env);
    RestoreOnePorts(w, name, env);
    var s, swapped := w.reg.services[name], X.SwapPorts(w.prx, name, env.launch.ports).0;
    SwapStep(w.prx, name, env.launch.ports);
    UnswapStep(w.prx, name);
    UnswapStep(swapped, name);
    StaticStep(w.prx, name, s.settings.path);
    SameEntries(w.prx, RestoreOne(w, name, env).0.prx, name, s.stablePorts);
  }

  lemma SteadyWorld(w: World)
    requires WorldOk(w)
    ensures Steady(w.mgr)
  {
  }

  /** An exit, and each operation that does not register, keeps every listener where it is or closes it. */
  ghost predicate OnlyCloses(p: X.Proxy, q: X.Proxy) {
    forall k | k in q.entries :: k in p.entries && q.entries[k] == p.entries[k]
  }

  lemma ClosingKeepsListed(w: World, v: World, n: string)
    requires Listed(w, n) && OnlyCloses(w.prx, v.prx)
    requires n in v.reg.services ==> n in w.reg.services && v.reg.services[n].stablePorts == w.reg.services[n].stablePorts
    ensures Listed(v, n)
  {
    hide EntryKey;
  }

  lemma SimpleOpsClose(w: World, op: Op)
    requires WorldOk(w) && OpOk(w, op)
    requires op.OpStop? || op.OpRemove? || op.OpArchive? || op.OpRestoreArchived? || op.OpPrune? || op.OpExit? || op.OpDrain?
    ensures OnlyCloses(w.prx, Apply(w, op).prx)
  {
    hide WorldOk, P.StopWith, R.UpdateStatus, X.UnswapPorts, X.RemovePorts, ProcessExits, R.Prune, R.Archive, R.RestoreArchived;
    match op
    case OpStop(name, _, _) =>
      if name in w.reg.services {
        UnswapCloses(w, name);
      }
    case OpRemove(name) => RemoveCloses(w.prx, name);
    case OpPrune(name, _) => RemoveCloses(w.prx, name);
    case OpExit(pid, code, duration, now) => ExitCloses(w, pid, code, duration, now);
    case _ =>
  }

  lemma UnswapCloses(w: World, name: string)
    requires WorldOk(w) && name in w.reg.services
    ensures OnlyCloses(w.prx, X.UnswapPorts(w.prx, name))
  {
    hide WorldOk, RoutesOk, X.UnswapPorts;
    WorldRoutes(w);
    RecordIsColonFree(w.reg, name);
    UnswapStep(w.prx, name);
  }

  lemma RemoveCloses(p: X.Proxy, name: string)
    ensures OnlyCloses(p, X.RemovePorts(p, name))
  {
    hide X.Matching;
  }

  lemma ExitCloses(w: World, pid: int, code: int, duration: int, now: int)
    requires WorldOk(w)
    ensures OnlyCloses(w.prx, ProcessExits(w, pid, code, duration, now).prx)
  {
    hide WorldOk, P.Observe, P.Die, P.Close, P.Classify, R.UpdateStatus, R.CompleteStart, R.UpdateCrashState, X.UnswapPorts, Reap;
    if pid in w.mgr.watchers && w.mgr.watchers[pid].phase == P.Alive {
      var name := w.mgr.watchers[pid].name;
      ReapShape(w, pid, code, duration, now);
      ReapRecord(w, pid, code, duration, now);
      if name in w.reg.services {
        UnswapCloses(w, name);
      }
      StatusKeepsNames(Reap(w, pid, code, duration, now).reg, name, now);
    }
  }

  lemma StatusKeepsNames(r: R.Registry, name: string, now: int)
    ensures R.UpdateStatus(r, name, R.Failed, 0, now).0.services.Keys == r.services.Keys
  {
  }

  /** One operation, any outcome, any service. */
  lemma ApplyListed(w: World, op: Op, n: string)
    requires WorldOk(w) && OpOk(w, op) && Listed(w, n)
    ensures Listed(Apply(w, op), n)
  {
    hide WorldOk, Deploy, DeployStatic, RestartLocked, Rollback, Reserve, RestoreOne, ProcessExits, DeployOk, RestartOk, RollbackOk, ReserveOk, RestoreOk, RemoveOk, BindOk, DeployStaticOk, BindListeners, Follows, Settles;
    if n != Subject(w, op) {
      OthersListed(w, op, n);
    } else {
      match op
      case OpDeploy(req, env) => DeployListed(w, req, env);
      case OpDeployStatic(req, env) => DeployStaticListed(w, req, env);
      case OpRestart(name, env) => RestartListed(w, name, env);
      case OpRollback(name, env, t) => RollbackListed(w, name, env, t);
      case OpReserve(name, preferred, env, now) => ReserveListed(w, name, preferred, env, now);
      case OpBind(name, env, now) => BindListed(w, name, env, now);
      case OpRestoreOne(name, env) => RestoreOneListed(w, name, env);
      case _ => SimpleListed(w, op, n);
    }
  }

  lemma SimpleListed(w: World, op: Op, n: string)
    requires WorldOk(w) && OpOk(w, op) && Listed(w, n)
    requires op.OpStop? || op.OpRemove? || op.OpArchive? || op.OpRestoreArchived? || op.OpPrune? || op.OpExit? || op.OpDrain?
    ensures Listed(Apply(w, op), n)
  {
    hide WorldOk, OpOk, Apply, Listed, OnlyCloses, Fresh;
    SimpleOpsClose(w, op);
    SimplePorts(w, op, n);
    ClosingKeepsListed(w, Apply(w, op), n);
  }

  lemma SimplePorts(w: World, op: Op, n: string)
    requires WorldOk(w) && OpOk(w, op)
    requires op.OpStop? || op.OpRemove? || op.OpArchive? || op.OpRestoreArchived? || op.OpPrune? || op.OpExit? || op.OpDrain?
    ensures n in Apply(w, op).reg.services ==> n in w.reg.services && Apply(w, op).reg.services[n].stablePorts == w.reg.services[n].stablePorts
  {
    hide WorldOk, P.StopWith, P.Signal, X.UnswapPorts, X.RemovePorts, ProcessExits;
    match op
    case OpExit(pid, code, duration, now) => ExitPorts(w, pid, code, duration, now, n);
    case _ =>
  }

  lemma OthersListed(w: World, op: Op, n: string)
    requires WorldOk(w) && OpOk(w, op) && Listed(w, n) && n != Subject(w, op)
    ensures Listed(Apply(w, op), n)
  {
    hide WorldOk, OpOk, Apply, Subject;
    var v := Apply(w, op);
    ApplyKeeps(w, op);
    OthersSame(w, v, Subject(w, op), n);
    if n in w.reg.services {
      WorldRoutes(w);
      RecordIsColonFree(w.reg, n);
      SameServiceFollows(w.prx, v.prx, n, w.reg.services[n].stablePorts);
    }
  }

  lemma SameServiceFollows(p: X.Proxy, q: X.Proxy, n: string, ports: map<string, int>)
    requires ColonFree(n) && XP.SameService(p, q, n) && Follows(p, n, ports)
    ensures Follows(q, n, ports)
  {
    hide X.CurrentHandlers;
  }

  /** Over every run: the listeners of every registered service are on its stable ports - whatever was
      allocated, re-bound, undone, rolled back or restored in between. */
  lemma {:induction false} RunsStayListed(w: World, ops: seq<Op>)
    requires WorldOk(w) && RunOk(w, ops) && forall n | n in w.reg.services :: Listed(w, n)
    ensures var v := RunAll(w, ops);
            forall n, k | n in v.reg.services && k in v.reg.services[n].stablePorts && EntryKey(n, k) in v.prx.entries ::
              v.prx.entries[EntryKey(n, k)].stablePort == v.reg.services[n].stablePorts[k]
    decreases |ops|
  {
    hide WorldOk, OpOk, Apply, Settles, Subject;
    if ops != [] {
      var v := Apply(w, ops[0]);
      ApplyKeeps(w, ops[0]);
      SettledIsOk(w, v, Subject(w, ops[0]));
      forall n | n in v.reg.services ensures Listed(v, n) {
        ApplyListed(w, ops[0], n);
      }
      RunsStayListed(v, ops[1..]);
    }
  }
}
