/** Every operation of the service keeps the coupling invariant, over whole runs. */
module Operations {
  import opened Options
  import opened Names
  import R = RegistrySpec
  import RP = RegistryProofs
  import P = ProcessSpec
  import PP = ProcessProofs
  import opened RT = ReplaceProcess
  import X = ProxySpec
  import XP = ProxyProofs
  import opened ServiceSpec
  import opened HotSwap
  import opened Coupling
  import opened Startup

  // ---- Port allocation and the routes ----

  lemma TryBindStep(p: X.Proxy, name: string, portName: string, port: int, bind: string, env: AllocEnv)
    requires RoutesOk(p) && ColonFree(name)
    ensures RouteStep(p, TryBind(p, name, portName, port, bind, env).0, name)
    ensures p.entries.Keys <= TryBind(p, name, portName, port, bind, env).0.entries.Keys
    ensures TryBind(p, name, portName, port, bind, env).1 ==> EntryKey(name, portName) in TryBind(p, name, portName, port, bind, env).0.entries
  {
    hide RoutesOk, PrxElsewhere, X.CurrentHandlers, X.Register, EntryKey;
    var refused: set<string> := if (portName, port) in env.refused then {portName} else {};
    RegisterStep(p, name, map[portName := port], bind, X.BindEnv(env.addressOk, [portName], refused));
    assert portName in map[portName := port].Keys;
  }

  lemma {:induction false} FirstFreeStep(p: X.Proxy, name: string, portName: string, port: int, used: set<int>, bind: string, env: AllocEnv)
    requires RoutesOk(p) && ColonFree(name)
    ensures var (q, found) := FirstFree(p, name, portName, port, used, bind, env);
            && RouteStep(p, q, name) && p.entries.Keys <= q.entries.Keys
            && (found.Some? ==> EntryKey(name, portName) in q.entries)
    decreases RANGE_END + 1 - port
  {
    hide RoutesOk, PrxElsewhere, TryBind, EntryKey;
    RouteStepReflexive(p, name);
    if port <= RANGE_END {
      if port in used {
        FirstFreeStep(p, name, portName, port + 1, used, bind, env);
      } else {
        TryBindStep(p, name, portName, port, bind, env);
        var (q, ok) := TryBind(p, name, portName, port, bind, env);
        if !ok {
          FirstFreeStep(q, name, portName, port + 1, used, bind, env);
          RouteStepTransitive(p, q, FirstFree(q, name, portName, port + 1, used, bind, env).0, name);
        }
      }
    }
  }

  lemma AllocateOneStep(p: X.Proxy, name: string, portName: string, preferred: int, used: set<int>, bind: string, env: AllocEnv)
    requires RoutesOk(p) && ColonFree(name)
    ensures var (q, one) := AllocateOne(p, name, portName, preferred, used, bind, env);
            && RouteStep(p, q, name) && p.entries.Keys <= q.entries.Keys
            && (one.Port? ==> EntryKey(name, portName) in q.entries)
  {
    hide RoutesOk, PrxElsewhere, TryBind, EntryKey, FirstFree;
    RouteStepReflexive(p, name);
    TryBindStep(p, name, portName, preferred, bind, env);
    var (q, ok) := if preferred != 0 && preferred !in used then TryBind(p, name, portName, preferred, bind, env) else (p, false);
    if !ok {
      FirstFreeStep(q, name, portName, RANGE_START, used, bind, env);
      RouteStepTransitive(p, q, FirstFree(q, name, portName, RANGE_START, used, bind, env).0, name);
    }
  }

  /** A successful allocation listens on every requested name; a failed one leaves the service without
      any listener. */
  lemma {:induction false} AllocateLoopStep(p: X.Proxy, name: string, preferred: map<string, int>, used: set<int>, bind: string, env: AllocEnv, i: nat, result: map<string, int>)
    requires RoutesOk(p) && ColonFree(name)
    requires i <= |env.order| && forall k | k in env.order :: k in preferred
    requires AllListening(p, name, result.Keys)
    ensures var (q, got) := AllocateLoop(p, name, preferred, used, bind, env, i, result);
            && RouteStep(p, q, name)
            && (got.Ports? ==> AllListening(q, name, got.ports.Keys) && p.entries.Keys <= q.entries.Keys)
            && (!got.Ports? ==> name !in q.routes && forall k | k in q.entries :: Owner(k) != name)
    decreases |env.order| - i
  {
    hide RoutesOk, PrxElsewhere, AllocateOne, EntryKey, X.RemovePorts;
    RouteStepReflexive(p, name);
    if i < |env.order| {
      var portName := env.order[i];
      AllocateOneStep(p, name, portName, preferred[portName], used, bind, env);
      var (q, one) := AllocateOne(p, name, portName, preferred[portName], used, bind, env);
      match one
      case Refused(why) =>
        RemoveStep(q, name);
        RouteStepTransitive(p, q, X.RemovePorts(q, name), name);
      case Port(port) =>
        var more := result[portName := port];
        assert AllListening(q, name, more.Keys);
        AllocateLoopStep(q, name, preferred, used + {port}, bind, env, i + 1, more);
        RouteStepTransitive(p, q, AllocateLoop(q, name, preferred, used + {port}, bind, env, i + 1, more).0, name);
    }
  }

  /** Allocation only touches the service's own routes, and none of them if it already has ports. */
  lemma AllocateStep(w: World, name: string, preferred: map<string, int>, bind: string, env: AllocEnv)
    requires RoutesOk(w.prx) && ColonFree(name) && AllocOrders(w.reg, name, preferred, env)
    ensures var (q, got) := AllocatePorts(w, name, preferred, bind, env);
            && RouteStep(w.prx, q, name)
            && (name in w.reg.services && w.reg.services[name].stablePorts != map[] ==>
                  && got == Ports(w.reg.services[name].stablePorts)
                  && w.prx.entries.Keys <= q.entries.Keys
                  && (AllListening(w.prx, name, got.ports.Keys) ==>
                        q.published == w.prx.published && X.CurrentHandlers(q, name) == X.CurrentHandlers(w.prx, name)))
            && (got.Ports? && (name in w.reg.services ==> AllListening(w.prx, name, w.reg.services[name].stablePorts.Keys)) ==>
                  AllListening(q, name, got.ports.Keys))
            && (!got.Ports? ==> name !in q.routes && forall k | k in q.entries :: Owner(k) != name)
  {
    hide RoutesOk, PrxElsewhere, AllocateLoop, EntryKey, X.Register, X.CurrentHandlers;
    if name in w.reg.services && w.reg.services[name].stablePorts != map[] {
      RegisterStep(w.prx, name, w.reg.services[name].stablePorts, w.reg.services[name].bind, env.existing);
    } else {
      AllocateLoopStep(w.prx, name, preferred, R.UsedPorts(w.reg), bind, env, 0, map[]);
    }
  }

  /** The allocated names are the requested ones. */
  lemma {:induction false} AllocatedNames(p: X.Proxy, name: string, preferred: map<string, int>, used: set<int>, bind: string, env: AllocEnv, i: nat, result: map<string, int>)
    requires X.IsOrderOf(env.order, preferred) && i <= |env.order|
    requires forall k :: k in result <==> k in env.order[..i]
    ensures var got := AllocateLoop(p, name, preferred, used, bind, env, i, result).1;
            got.Ports? ==> got.ports.Keys == preferred.Keys
    decreases |env.order| - i
  {
    hide AllocateOne, X.RemovePorts;
    if i == |env.order| {
      assert env.order[..i] == env.order;
    } else {
      var portName := env.order[i];
      var (q, one) := AllocateOne(p, name, portName, preferred[portName], used, bind, env);
      if one.Port? {
        assert env.order[..i + 1] == env.order[..i] + [portName];
        AllocatedNames(q, name, preferred, used + {one.port}, bind, env, i + 1, result[portName := one.port]);
      }
    }
  }

  lemma AllocatedSome(w: World, name: string, preferred: map<string, int>, bind: string, env: AllocEnv)
    requires AllocOrders(w.reg, name, preferred, env) && preferred != map[]
    ensures var got := AllocatePorts(w, name, preferred, bind, env).1;
            got.Ports? ==> got.ports != map[]
  {
    if !(name in w.reg.services && w.reg.services[name].stablePorts != map[]) {
      AllocatedNames(w.prx, name, preferred, R.UsedPorts(w.reg), bind, env, 0, map[]);
    }
  }

  // ---- What is served meanwhile ----

  /** These ports are served afterwards exactly if they were before, and then also by every generation in
      between. */
  ghost predicate KeepsServing(p: X.Proxy, q: X.Proxy, name: string, ports: map<string, int>) {
    && (Serves(p, name, ports) <==> Serves(q, name, ports))
    && (Serves(p, name, ports) ==> OnlyWhole(p, q, name, ports, ports))
  }

  lemma ServingReflexive(p: X.Proxy, name: string, ports: map<string, int>)
    ensures KeepsServing(p, p, name, ports)
  {
  }

  lemma ServingTransitive(p: X.Proxy, q: X.Proxy, r: X.Proxy, name: string, ports: map<string, int>)
    requires KeepsServing(p, q, name, ports) && KeepsServing(q, r, name, ports)
    ensures KeepsServing(p, r, name, ports)
  {
    hide WholeRoute, AllListening, X.CurrentHandlers;
  }

  /** Registering ports, whether it succeeds or not, does not touch what is served. */
  lemma RegisterServes(p: X.Proxy, name: string, asked: map<string, int>, bind: string, env: X.BindEnv, ports: map<string, int>)
    requires RoutesOk(p) && ColonFree(name) && X.IsOrderOf(env.order, asked)
    ensures KeepsServing(p, X.Register(p, name, asked, bind, env).0, name, ports)
  {
    hide XP.Sound, XP.Held, X.Register, EntryKey, X.CurrentHandlers;
    XP.RegisterKeeps(p, name, asked, bind, env);
    XP.RegisterGrows(p, name, asked, bind, env);
    var (q, ok) := X.Register(p, name, asked, bind, env);
    forall k | EntryKey(name, k) in q.entries && EntryKey(name, k) !in p.entries ensures ok && k in XP.Fresh(p, name, asked) {
      XP.RegisterAdds(p, name, asked, bind, env, k);
    }
  }

  lemma TryBindServes(p: X.Proxy, name: string, portName: string, port: int, bind: string, env: AllocEnv, ports: map<string, int>)
    requires RoutesOk(p) && ColonFree(name)
    ensures KeepsServing(p, TryBind(p, name, portName, port, bind, env).0, name, ports)
  {
    hide RoutesOk, X.Register, KeepsServing;
    var refused: set<string> := if (portName, port) in env.refused then {portName} else {};
    RegisterServes(p, name, map[portName := port], bind, X.BindEnv(env.addressOk, [portName], refused), ports);
  }

  lemma {:induction false} FirstFreeServes(p: X.Proxy, name: string, portName: string, port: int, used: set<int>, bind: string, env: AllocEnv, ports: map<string, int>)
    requires RoutesOk(p) && ColonFree(name)
    ensures KeepsServing(p, FirstFree(p, name, portName, port, used, bind, env).0, name, ports)
    decreases RANGE_END + 1 - port
  {
    hide RoutesOk, TryBind, KeepsServing;
    ServingReflexive(p, name, ports);
    if port <= RANGE_END {
      if port in used {
        FirstFreeServes(p, name, portName, port + 1, used, bind, env, ports);
      } else {
        TryBindServes(p, name, portName, port, bind, env, ports);
        TryBindStep(p, name, portName, port, bind, env);
        var (q, ok) := TryBind(p, name, portName, port, bind, env);
        if !ok {
          FirstFreeServes(q, name, portName, port + 1, used, bind, env, ports);
          ServingTransitive(p, q, FirstFree(q, name, portName, port + 1, used, bind, env).0, name, ports);
        }
      }
    }
  }

  lemma AllocateOneServes(p: X.Proxy, name: string, portName: string, preferred: int, used: set<int>, bind: string, env: AllocEnv, ports: map<string, int>)
    requires RoutesOk(p) && ColonFree(name)
    ensures KeepsServing(p, AllocateOne(p, name, portName, preferred, used, bind, env).0, name, ports)
  {
    hide RoutesOk, TryBind, FirstFree, KeepsServing;
    ServingReflexive(p, name, ports);
    TryBindServes(p, name, portName, preferred, bind, env, ports);
    TryBindStep(p, name, portName, preferred, bind, env);
    var (q, ok) := if preferred != 0 && preferred !in used then TryBind(p, name, portName, preferred, bind, env) else (p, false);
    if !ok {
      FirstFreeServes(q, name, portName, RANGE_START, used, bind, env, ports);
      ServingTransitive(p, q, FirstFree(q, name, portName, RANGE_START, used, bind, env).0, name, ports);
    }
  }

  lemma {:induction false} AllocateLoopServes(p: X.Proxy, name: string, preferred: map<string, int>, used: set<int>, bind: string, env: AllocEnv, i: nat, result: map<string, int>, ports: map<string, int>)
    requires RoutesOk(p) && ColonFree(name)
    requires i <= |env.order| && forall k | k in env.order :: k in preferred
    ensures var (q, got) := AllocateLoop(p, name, preferred, used, bind, env, i, result);
            && (got.Ports? ==> KeepsServing(p, q, name, ports))
            && (Serves(p, name, ports) ==> OnlyWhole(p, q, name, ports, ports))
    decreases |env.order| - i
  {
    hide RoutesOk, AllocateOne, X.RemovePorts, Serves, OnlyWhole;
    ServingReflexive(p, name, ports);
    if i < |env.order| {
      var portName := env.order[i];
      AllocateOneServes(p, name, portName, preferred[portName], used, bind, env, ports);
      AllocateOneStep(p, name, portName, preferred[portName], used, bind, env);
      var (q, one) := AllocateOne(p, name, portName, preferred[portName], used, bind, env);
      match one
      case Refused(_) =>
        WholeTransitive(p, q, X.RemovePorts(q, name), name, ports);
      case Port(port) =>
        var r := AllocateLoop(q, name, preferred, used + {port}, bind, env, i + 1, result[portName := port]);
        AllocateLoopServes(q, name, preferred, used + {port}, bind, env, i + 1, result[portName := port], ports);
        if r.1.Ports? {
          ServingTransitive(p, q, r.0, name, ports);
        } else if Serves(p, name, ports) {
          WholeTransitive(p, q, r.0, name, ports);
        }
    }
  }

  /** Removing listeners publishes nothing. */
  lemma WholeTransitive(p: X.Proxy, q: X.Proxy, r: X.Proxy, name: string, ports: map<string, int>)
    ensures OnlyWhole(p, q, name, ports, ports) && OnlyWhole(q, r, name, ports, ports) ==> OnlyWhole(p, r, name, ports, ports)
    ensures OnlyWhole(p, q, name, ports, ports) ==> OnlyWhole(p, X.RemovePorts(q, name), name, ports, ports)
  {
    hide WholeRoute;
  }

  /** Allocation does not touch what the service serves, unless it is refused: then nothing is left. */
  lemma AllocateServes(w: World, name: string, preferred: map<string, int>, bind: string, env: AllocEnv, ports: map<string, int>)
    requires RoutesOk(w.prx) && ColonFree(name) && AllocOrders(w.reg, name, preferred, env)
    ensures var (q, got) := AllocatePorts(w, name, preferred, bind, env);
            && (got.Ports? ==> KeepsServing(w.prx, q, name, ports))
            && (Serves(w.prx, name, ports) ==> OnlyWhole(w.prx, q, name, ports, ports))
            && (!got.Ports? && ports != map[] ==> !Serves(q, name, ports))
  {
    hide RoutesOk, AllocateLoop, X.Register, Serves, OnlyWhole;
    AllocateStep(w, name, preferred, bind, env);
    if name in w.reg.services && w.reg.services[name].stablePorts != map[] {
      RegisterServes(w.prx, name, w.reg.services[name].stablePorts, w.reg.services[name].bind, env.existing, ports);
    } else {
      AllocateLoopServes(w.prx, name, preferred, R.UsedPorts(w.reg), bind, env, 0, map[], ports);
      NothingServed(AllocatePorts(w, name, preferred, bind, env).0, name, ports);
    }
  }

  lemma NothingServed(p: X.Proxy, name: string, ports: map<string, int>)
    requires ColonFree(name)
    ensures (forall k | k in p.entries :: Owner(k) != name) && ports != map[] ==> !Serves(p, name, ports)
  {
    if (forall k | k in p.entries :: Owner(k) != name) && ports != map[] {
      var k :| k in ports;
      assert Owner(EntryKey(name, k)) == name;
    }
  }

  // ---- Steps and their composition ----

  lemma ElsewhereReflexive(m: P.Manager, name: string)
    requires Steady(m)
    ensures Elsewhere(m, m, name)
  {
    assert PP.TableLive(m);
  }

  lemma WorldElsewhereTransitive(a: World, b: World, c: World, name: string)
    requires WorldElsewhere(a, b, name) && WorldElsewhere(b, c, name)
    ensures WorldElsewhere(a, c, name)
  {
    hide PP.Intended, X.CurrentHandlers;
    ElsewhereTransitive(a.mgr, b.mgr, c.mgr, name);
    RegElsewhereTransitive(a.reg, b.reg, c.reg, name);
    forall n | n != name ensures XP.SameService(a.prx, c.prx, n) {
      assert XP.SameService(a.prx, b.prx, n) && XP.SameService(b.prx, c.prx, n);
    }
  }

  /** A change to the routes of one service and its record. */
  lemma RouteAndRecordStep(w: World, v: World, name: string)
    requires Steady(w.mgr) && v.mgr == w.mgr && v.attempts == w.attempts
    requires RegElsewhere(w.reg, v.reg, name) && RouteStep(w.prx, v.prx, name)
    ensures WorldElsewhere(w, v, name)
  {
    ElsewhereReflexive(w.mgr, name);
  }

  // ---- Deploy ----

  /** The record Deploy stages. */
  function StagedRecord(w: World, req: Request, env: DeployEnv): R.Service
    requires DeployOrders(w, req, env) && AllocatePorts(w, req.name, Preferred(req), req.bind, env.alloc).1.Ports?
  {
    R.Staged(R.Get(w.reg, req.name), NewRecord(req, AllocatePorts(w, req.name, Preferred(req), req.bind, env.alloc).1.ports), env.launch.now)
  }

  /** What the environment owes a Deploy: a new PID, one new ephemeral port per stable port. */
  ghost predicate DeployOk(w: World, req: Request, env: DeployEnv) {
    && DeployOrders(w, req, env)
    && req.settings.kind == R.Binary
    && FreshPid(w.mgr, env.launch.pid)
    && (var got := AllocatePorts(w, req.name, Preferred(req), req.bind, env.alloc).1;
        got.Ports? ==> env.launch.ports.Keys == got.ports.Keys)
    && (req.name in w.reg.services && req.name in w.mgr.procs ==> PortsDiffer(w.reg.services[req.name], env.launch))
  }

  function AtReplace(w: World, req: Request, env: DeployEnv): World
    requires DeployOrders(w, req, env) && AllocatePorts(w, req.name, Preferred(req), req.bind, env.alloc).1.Ports?
  {
    w.(prx := AllocatePorts(w, req.name, Preferred(req), req.bind, env.alloc).0,
       reg := R.Put(w.reg, StagedRecord(w, req, env)))
  }

  lemma StagedFacts(w: World, req: Request, env: DeployEnv)
    requires WorldOk(w) && DeployOrders(w, req, env) && ValidServiceName(req.name)
    requires AllocatePorts(w, req.name, Preferred(req), req.bind, env.alloc).1.Ports?
    ensures var s := StagedRecord(w, req, env);
            && RecordSane(s, req.name) && s.settings == req.settings && s.stablePorts != map[]
            && s.stablePorts == AllocatePorts(w, req.name, Preferred(req), req.bind, env.alloc).1.ports
            && (req.name in w.reg.services ==>
                  var rec := w.reg.services[req.name];
                  (rec.stablePorts != map[] ==> s.stablePorts == rec.stablePorts) && s.startHistory == rec.startHistory && RecordSane(rec, req.name))
  {
    hide Steady, RoutesOk, X.Register, AllocateLoop;
    ValidNamesAreColonFree(req.name);
    AllocatedSome(w, req.name, Preferred(req), req.bind, env.alloc);
  }

  lemma DeployUnfolds(w: World, req: Request, env: DeployEnv)
    requires DeployOrders(w, req, env) && ValidServiceName(req.name) && env.accepted
    requires AllocatePorts(w, req.name, Preferred(req), req.bind, env.alloc).1.Ports?
    ensures var u := AtReplace(w, req, env);
            var s := StagedRecord(w, req, env);
            && s.name == req.name
            && X.IsOrderOf(env.launch.bind.order, s.stablePorts)
            && Deploy(w, req, env) == Replace(u, req.name, R.Get(w.reg, req.name), Reregister(s.stablePorts, s.bind), P.STOPPED_CODE, env.deployedAt, env.launch)
  {
    hide AllocateLoop, X.Register, Replace;
    var got := AllocatePorts(w, req.name, Preferred(req), req.bind, env.alloc).1;
    assert StagedRecord(w, req, env).stablePorts == got.ports;
  }

  /** What the history of the service gains by a deployment. */
  ghost function DeployEvents(w: World, req: Request, env: DeployEnv): seq<RP.HistoryOp>
    requires DeployOrders(w, req, env)
  {
    if ValidServiceName(req.name) && env.accepted && AllocatePorts(w, req.name, Preferred(req), req.bind, env.alloc).1.Ports? then
      DeployUnfolds(w, req, env);
      var s := StagedRecord(w, req, env);
      ReplaceEvents(AtReplace(w, req, env).prx, req.name, Reregister(s.stablePorts, s.bind), env.launch)
    else []
  }

  /** At the point where Deploy detaches the old process, everything Replace relies on holds. */
  lemma DeployReady(w: World, req: Request, env: DeployEnv)
    requires WorldOk(w) && DeployOk(w, req, env) && ValidServiceName(req.name)
    requires AllocatePorts(w, req.name, Preferred(req), req.bind, env.alloc).1.Ports?
    ensures var u := AtReplace(w, req, env);
            var s := StagedRecord(w, req, env);
            && X.IsOrderOf(env.launch.bind.order, s.stablePorts)
            && ReplaceReady(u, req.name, R.Get(w.reg, req.name), Reregister(s.stablePorts, s.bind), P.STOPPED_CODE, env.launch)
            && ReplaceCoupled(u, req.name, R.Get(w.reg, req.name), Reregister(s.stablePorts, s.bind), env.launch)
            && WorldElsewhere(w, u, req.name)
  {
    hide RoutesOk, X.Register, AllocateLoop, AllocatePorts, R.Staged, Steady, PrxElsewhere, FreshPid, RecordSane, AllListening, WorldElsewhere, XP.SameService, X.CurrentHandlers;
    var name := req.name;
    StagedFacts(w, req, env);
    SaneIsColonFree(StagedRecord(w, req, env), name);
    AllocateStep(w, name, Preferred(req), req.bind, env.alloc);
    var u := AtReplace(w, req, env);
    RouteAndRecordStep(w, u, name);
    if name in w.mgr.procs {
      assert Registered(w, name);
      StaysListening(w.prx, u.prx, name, w.reg.services[name]);
    }
    NamesOfSome(StagedRecord(w, req, env).stablePorts);
  }

  lemma NamesOfSome(stable: map<string, int>)
    ensures stable != map[] ==> InternalNames(stable) == stable.Keys
  {
  }

  lemma SaneIsColonFree(s: R.Service, name: string)
    requires RecordSane(s, name)
    ensures ColonFree(name) && s.name == name
  {
  }

  lemma StaysListening(p: X.Proxy, q: X.Proxy, name: string, s: R.Service)
    requires AllListening(p, name, s.stablePorts.Keys)
    requires s.stablePorts != map[] ==> p.entries.Keys <= q.entries.Keys
    ensures AllListening(q, name, s.stablePorts.Keys)
  {
    assert s.stablePorts == map[] ==> s.stablePorts.Keys == {};
  }

  /** What a finished operation on one service leaves: its own parts agree, the others are untouched. */
  ghost predicate Settles(w: World, v: World, name: string) {
    && WorldOk(v)
    && WorldElsewhere(w, v, name)
    && (forall n | n != name && n in v.mgr.procs :: Routed(w, n) <==> Routed(v, n))
  }

  lemma ReplaceSettles(w: World, u: World, name: string, previous: Option<R.Service>, listeners: Listeners, verifyCode: int, deployedAt: int, env: LaunchEnv)
    requires WorldOk(w) && WorldElsewhere(w, u, name) && u.drains == w.drains && u.mgr == w.mgr
    requires ReplaceReady(u, name, previous, listeners, verifyCode, env) && ReplaceCoupled(u, name, previous, listeners, env)
    ensures var (v, ok) := Replace(u, name, previous, listeners, verifyCode, deployedAt, env);
            Settles(w, v, name) && (ok || name !in w.mgr.procs ==> Routed(v, name))
  {
    hide Replace, ReplaceCoupled, WorldElsewhere, Registered, Routed, RoutesOk, Steady, RecordSane, PP.Intended;
    var v := Replace(u, name, previous, listeners, verifyCode, deployedAt, env).0;
    ReplaceKeepsWorld(u, name, previous, listeners, verifyCode, deployedAt, env);
    WorldElsewhereTransitive(w, u, v, name);
    StepKeepsWorld(w, v, name);
  }

  lemma SameIsElsewhere(w: World, name: string)
    requires WorldOk(w)
    ensures Settles(w, w, name)
  {
    hide RoutesOk, X.CurrentHandlers, PP.Intended;
    ElsewhereReflexive(w.mgr, name);
  }

  /** Deploy keeps the invariant, whatever its outcome. */
  lemma DeployKeeps(w: World, req: Request, env: DeployEnv)
    requires WorldOk(w) && DeployOk(w, req, env)
    ensures Settles(w, Deploy(w, req, env).0, req.name)
    ensures Deploy(w, req, env).1 || req.name !in w.mgr.procs ==> Routed(Deploy(w, req, env).0, req.name)
  {
    hide Steady, RoutesOk, Replace, AllocatePorts, WorldElsewhere, Settles, Registered, ReplaceReady, ReplaceCoupled, AllListening, RecordSane, PP.Intended, FreshPid;
    if ValidServiceName(req.name) && env.accepted {
      if AllocatePorts(w, req.name, Preferred(req), req.bind, env.alloc).1.Ports? {
        DeployUnfolds(w, req, env);
        DeployReady(w, req, env);
        var s := StagedRecord(w, req, env);
        ReplaceSettles(w, AtReplace(w, req, env), req.name, R.Get(w.reg, req.name), Reregister(s.stablePorts, s.bind), P.STOPPED_CODE, env.deployedAt, env.launch);
      } else {
        AllocFailureSettles(w, req.name, Preferred(req), req.bind, env.alloc);
      }
    } else {
      SameIsElsewhere(w, req.name);
    }
  }

  /** No directory is deployed over a process that runs: Deploy would not stop it. */
  ghost predicate DeployStaticOk(w: World, req: Request, env: DeployEnv) {
    && DeployOrders(w, req, env) && req.settings.kind == R.Static
    && !(req.name in w.mgr.procs && DeployStatic(w, req, env).1)
  }

  lemma DeployStaticKeeps(w: World, req: Request, env: DeployEnv)
    requires WorldOk(w) && DeployStaticOk(w, req, env)
    ensures Settles(w, DeployStatic(w, req, env).0, req.name)
    ensures DeployStatic(w, req, env).0.mgr == w.mgr
  {
    hide WorldOk, DeployStatic, Settles, DeployOrders;
    StaticKeepsProcs(w, req, env);
    if req.name in w.mgr.procs {
      StaticFailsOverRunning(w, req, env);
    } else {
      StaticOverIdle(w, req, env);
    }
  }

  lemma StaticKeepsProcs(w: World, req: Request, env: DeployEnv)
    requires DeployOrders(w, req, env)
    ensures DeployStatic(w, req, env).0.mgr == w.mgr
  {
    hide AllocatePorts, X.Register, X.SwapStatic, X.UnswapPorts, X.RemovePorts, UndoRoutes, R.Register, R.UpdateStatus, R.UpdateLastDeployed;
  }

  lemma StaticOverIdle(w: World, req: Request, env: DeployEnv)
    requires WorldOk(w) && DeployOrders(w, req, env) && req.settings.kind == R.Static && req.name !in w.mgr.procs
    ensures Settles(w, DeployStatic(w, req, env).0, req.name)
  {
    hide WorldOk, Steady, RoutesOk, AllocatePorts, Settles, PP.Intended, RestorePrevious, X.Register, X.SwapStatic, RestoreFailedDeploy;
    SameIsElsewhere(w, req.name);
    if ValidServiceName(req.name) && env.accepted {
      if AllocatePorts(w, req.name, Preferred(req), req.bind, env.alloc).1.Ports? {
        StaticUnfolds(w, req, env);
        StaticStaged(w, req, env);
        var u := StaticAtBind(w, req, env);
        SettledIsOk(w, u, req.name);
        StagedFacts(w, req, env);
        var v := DeployStatic(w, req, env).0;
        StaticEnds(u, req, env, R.Get(w.reg, req.name));
        SettlesTransitive(w, u, v, req.name);
      } else {
        AllocFailureSettles(w, req.name, Preferred(req), req.bind, env.alloc);
      }
    }
  }

  /** Staged record, listeners registered. */
  function StaticAtBind(w: World, req: Request, env: DeployEnv): World
    requires DeployOrders(w, req, env) && AllocatePorts(w, req.name, Preferred(req), req.bind, env.alloc).1.Ports?
    requires X.IsOrderOf(env.launch.bind.order, StagedRecord(w, req, env).stablePorts)
  {
    var s := StagedRecord(w, req, env);
    var u := AtReplace(w, req, env);
    u.(prx := X.Register(u.prx, req.name, s.stablePorts, s.bind, env.launch.bind).0)
  }

  function StaticEnd(u: World, req: Request, env: DeployEnv, previous: Option<R.Service>, bound: bool): World
    requires previous.Some? ==> X.IsOrderOf(env.launch.undo.order, previous.value.stablePorts)
  {
    if !bound then RestorePrevious(u, req.name, previous, env.launch.now)
    else
      var (r, swapped) := X.SwapStatic(u.prx, req.name, req.settings.path);
      if !swapped then RestoreFailedDeploy(u, req.name, previous, None, env.launch.undo)
      else
        u.(prx := r, reg := R.UpdateLastDeployed(R.UpdateStatus(u.reg, req.name, R.Running, 0, env.launch.now).0,
                                                 req.name, env.deployedAt, env.launch.now).0)
  }

  lemma StaticUnfolds(w: World, req: Request, env: DeployEnv)
    requires DeployOrders(w, req, env) && ValidServiceName(req.name) && env.accepted
    requires AllocatePorts(w, req.name, Preferred(req), req.bind, env.alloc).1.Ports?
    ensures var s := StagedRecord(w, req, env);
            && X.IsOrderOf(env.launch.bind.order, s.stablePorts)
            && var (v, ok) := DeployStatic(w, req, env);
               var bound := X.Register(AtReplace(w, req, env).prx, req.name, s.stablePorts, s.bind, env.launch.bind).1;
               && v == StaticEnd(StaticAtBind(w, req, env), req, env, R.Get(w.reg, req.name), bound)
               && (ok <==> bound && X.SwapStatic(StaticAtBind(w, req, env).prx, req.name, req.settings.path).1)
  {
    hide AllocateLoop, X.Register, RestorePrevious, RestoreFailedDeploy, X.SwapStatic;
    var got := AllocatePorts(w, req.name, Preferred(req), req.bind, env.alloc).1;
    assert StagedRecord(w, req, env).stablePorts == got.ports;
  }

  lemma StaticStaged(w: World, req: Request, env: DeployEnv)
    requires WorldOk(w) && DeployOrders(w, req, env) && ValidServiceName(req.name) && req.name !in w.mgr.procs
    requires AllocatePorts(w, req.name, Preferred(req), req.bind, env.alloc).1.Ports?
    requires X.IsOrderOf(env.launch.bind.order, StagedRecord(w, req, env).stablePorts)
    ensures var u := StaticAtBind(w, req, env);
            && Settles(w, u, req.name) && u.mgr == w.mgr
            && req.name in u.reg.services && u.reg.services[req.name] == StagedRecord(w, req, env)
  {
    hide RoutesOk, X.Register, AllocateLoop, AllocatePorts, R.Staged, Steady, PrxElsewhere, FreshPid, RecordSane, AllListening, XP.SameService, X.CurrentHandlers, WorldElsewhere, PP.Intended;
    var name := req.name;
    StagedFacts(w, req, env);
    SaneIsColonFree(StagedRecord(w, req, env), name);
    AllocateStep(w, name, Preferred(req), req.bind, env.alloc);
    var s, u, v := StagedRecord(w, req, env), AtReplace(w, req, env), StaticAtBind(w, req, env);
    RegisterStep(u.prx, name, s.stablePorts, s.bind, env.launch.bind);
    RouteStepTransitive(w.prx, u.prx, v.prx, name);
    RouteAndRecordStep(w, v, name);
    StepKeepsWorld(w, v, name);
  }

  /** However the static deployment ends, it ends in a state that keeps the invariant. */
  lemma StaticEnds(u: World, req: Request, env: DeployEnv, previous: Option<R.Service>)
    requires WorldOk(u) && req.name !in u.mgr.procs && req.name in u.reg.services
    requires previous.Some? ==> X.IsOrderOf(env.launch.undo.order, previous.value.stablePorts) && RecordSane(previous.value, req.name)
    ensures forall bound :: Settles(u, StaticEnd(u, req, env, previous, bound), req.name)
    ensures forall bound :: StaticEnd(u, req, env, previous, bound).mgr == u.mgr
  {
    hide RoutesOk, Steady, PP.Intended, X.CurrentHandlers, X.SwapStatic, X.UnswapPorts, X.RemovePorts, UndoRoutes, PrxElsewhere, WorldElsewhere, Settles;
    var name := req.name;
    RecordIsColonFree(u.reg, name);
    UnswapStep(u.prx, name);
    RemoveStep(u.prx, name);
    StaticStep(u.prx, name, req.settings.path);
    RouteStepReflexive(u.prx, name);
    if previous.Some? {
      UndoStep(u.prx, name, previous.value, env.launch.undo);
    }
    forall bound ensures Settles(u, StaticEnd(u, req, env, previous, bound), name) {
      var v := StaticEnd(u, req, env, previous, bound);
      StaticEndParts(u, req, env, previous, bound);
      RouteAndRecordStep(u, v, name);
      StepKeepsWorld(u, v, name);
      MakesSettled(u, v, name);
    }
  }

  lemma StaticEndParts(u: World, req: Request, env: DeployEnv, previous: Option<R.Service>, bound: bool)
    requires req.name in u.reg.services && RecordSane(u.reg.services[req.name], req.name)
    requires previous.Some? ==> X.IsOrderOf(env.launch.undo.order, previous.value.stablePorts) && RecordSane(previous.value, req.name)
    ensures var v := StaticEnd(u, req, env, previous, bound);
            && v.mgr == u.mgr && v.attempts == u.attempts && v.drains == u.drains
            && RegElsewhere(u.reg, v.reg, req.name)
            && (req.name in v.reg.services ==> RecordSane(v.reg.services[req.name], req.name))
            && (|| v.prx == u.prx
                || v.prx == X.UnswapPorts(u.prx, req.name)
                || v.prx == X.RemovePorts(u.prx, req.name)
                || v.prx == X.SwapStatic(u.prx, req.name, req.settings.path).0
                || (previous.Some? && v.prx == UndoRoutes(u.prx, req.name, previous.value, env.launch.undo)))
  {
    hide X.SwapStatic, X.UnswapPorts, X.RemovePorts, UndoRoutes, RegElsewhere, RestorePrevious, R.UpdateStatus, R.UpdateLastDeployed;
    RestoredRecordStep(u, req.name, previous, env.launch.now);
    RemovedRecordStep(u.reg, req.name);
    RunningRecordStep(u.reg, req.name, env.deployedAt, env.launch.now);
  }

  lemma RemovedRecordStep(r: R.Registry, name: string)
    ensures RegElsewhere(r, R.Remove(r, name), name) && name !in R.Remove(r, name).services
  {
  }

  lemma RunningRecordStep(r: R.Registry, name: string, deployedAt: int, now: int)
    requires name in r.services && RecordSane(r.services[name], name)
    ensures var q := R.UpdateLastDeployed(R.UpdateStatus(r, name, R.Running, 0, now).0, name, deployedAt, now).0;
            RegElsewhere(r, q, name) && name in q.services && RecordSane(q.services[name], name)
  {
  }

  lemma FailedRecordStep(r: R.Registry, name: string, now: int)
    requires name in r.services && RecordSane(r.services[name], name)
    ensures var q := R.UpdateStatus(r, name, R.Failed, 0, now).0;
            RegElsewhere(r, q, name) && name in q.services && RecordSane(q.services[name], name)
  {
  }

  lemma PutRecordStep(r: R.Registry, name: string, record: R.Service)
    requires RecordSane(record, name)
    ensures var q := R.Restore(r, PreviousRecord(r, name, record).(name := name));
            RegElsewhere(r, q, name) && name in q.services && RecordSane(q.services[name], name)
  {
  }

  lemma RestoredRecordStep(u: World, name: string, previous: Option<R.Service>, now: int)
    requires name in u.reg.services && RecordSane(u.reg.services[name], name)
    requires previous.Some? ==> RecordSane(previous.value, name)
    ensures var v := RestorePrevious(u, name, previous, now);
            && v.mgr == u.mgr && v.attempts == u.attempts && v.drains == u.drains
            && (v.prx == u.prx || v.prx == X.UnswapPorts(u.prx, name))
            && RegElsewhere(u.reg, v.reg, name) && name in v.reg.services && RecordSane(v.reg.services[name], name)
    ensures previous.Some? ==>
              var q := R.Restore(u.reg, PreviousRecord(u.reg, name, previous.value).(name := name));
              RegElsewhere(u.reg, q, name) && RecordSane(q.services[name], name)
  {
    hide X.UnswapPorts, RegElsewhere, RecordSane, R.UpdateStatus;
    FailedRecordStep(u.reg, name, now);
    if previous.Some? {
      var q := R.Restore(u.reg, PreviousRecord(u.reg, name, previous.value).(name := name));
      PutRecordStep(u.reg, name, previous.value);
      FailedRecordStep(q, name, now);
      RegElsewhereTransitive(u.reg, q, R.UpdateStatus(q, name, R.Failed, 0, now).0, name);
    }
  }

  /** Only a service without stable ports can be refused an allocation; it is left without a route. */
  lemma AllocFailureSettles(w: World, name: string, preferred: map<string, int>, bind: string, env: AllocEnv)
    requires WorldOk(w) && ValidServiceName(name) && AllocOrders(w.reg, name, preferred, env)
    requires !AllocatePorts(w, name, preferred, bind, env).1.Ports?
    ensures Settles(w, w.(prx := AllocatePorts(w, name, preferred, bind, env).0), name)
    ensures name in w.reg.services ==> w.reg.services[name].stablePorts == map[]
    ensures name in w.mgr.procs ==> !Routed(w.(prx := AllocatePorts(w, name, preferred, bind, env).0), name)
  {
    hide RoutesOk, Steady, AllocateLoop, X.Register, PP.Intended, X.CurrentHandlers, PrxElsewhere, Elsewhere;
    ValidNamesAreColonFree(name);
    AllocateStep(w, name, preferred, bind, env);
    var v := w.(prx := AllocatePorts(w, name, preferred, bind, env).0);
    RouteAndRecordStep(w, v, name);
    StepKeepsWorld(w, v, name);
  }

  // ---- A static deployment that fails over a process that runs ----

  lemma AtReplaceParts(w: World, req: Request, env: DeployEnv)
    requires DeployOrders(w, req, env) && AllocatePorts(w, req.name, Preferred(req), req.bind, env.alloc).1.Ports?
    ensures var u := AtReplace(w, req, env);
            && u.mgr == w.mgr && u.drains == w.drains && u.attempts == w.attempts
            && RegElsewhere(w.reg, u.reg, req.name)
            && req.name in u.reg.services && u.reg.services[req.name] == StagedRecord(w, req, env)
  {
    hide AllocatePorts;
  }

  lemma TrackedHasPid(w: World, name: string)
    requires WorldOk(w) && name in w.mgr.procs
    ensures name in w.reg.services && w.reg.services[name].settings.kind == R.Binary
    ensures P.Pid(w.mgr, name) == w.reg.services[name].pid > 0
  {
    hide RoutesOk, PP.Intended, X.CurrentHandlers;
    assert Registered(w, name);
    assert PP.TableLive(w.mgr) && PP.WatchersSound(w.mgr);
  }

  lemma StaticFailsOverRunning(w: World, req: Request, env: DeployEnv)
    requires WorldOk(w) && DeployOrders(w, req, env) && req.settings.kind == R.Static
    requires req.name in w.mgr.procs && !DeployStatic(w, req, env).1
    ensures Settles(w, DeployStatic(w, req, env).0, req.name)
  {
    hide WorldOk, Steady, RoutesOk, AllocatePorts, Settles, PP.Intended, RestorePrevious, X.Register, X.SwapStatic, RestoreFailedDeploy, StagedRecord, StaticEnd;
    SameIsElsewhere(w, req.name);
    TrackedHasPid(w, req.name);
    if ValidServiceName(req.name) && env.accepted {
      if AllocatePorts(w, req.name, Preferred(req), req.bind, env.alloc).1.Ports? {
        StaticUnfolds(w, req, env);
        var s := StagedRecord(w, req, env);
        StaticUndone(w, req, env, X.Register(AtReplace(w, req, env).prx, req.name, s.stablePorts, s.bind, env.launch.bind).1);
      } else {
        AllocFailureSettles(w, req.name, Preferred(req), req.bind, env.alloc);
      }
    }
  }

  lemma StaticUndone(w: World, req: Request, env: DeployEnv, bound: bool)
    requires WorldOk(w) && DeployOrders(w, req, env) && ValidServiceName(req.name) && req.name in w.mgr.procs && req.name in w.reg.services
    requires AllocatePorts(w, req.name, Preferred(req), req.bind, env.alloc).1.Ports?
    requires X.IsOrderOf(env.launch.bind.order, StagedRecord(w, req, env).stablePorts)
    requires !(bound && X.SwapStatic(StaticAtBind(w, req, env).prx, req.name, req.settings.path).1)
    ensures Settles(w, StaticEnd(StaticAtBind(w, req, env), req, env, Some(w.reg.services[req.name]), bound), req.name)
  {
    hide RoutesOk, Steady, AllocatePorts, PP.Intended, X.Register, X.SwapStatic, X.UnswapPorts, UndoRoutes, StagedRecord, PrxElsewhere, AllListening, RecordSane, WorldElsewhere, X.CurrentHandlers, R.Restore, PreviousRecord, StaticEnd, Routed, Settles, RegElsewhere, R.Put, Agrees, StaticAtBind;
    var name, rec := req.name, w.reg.services[req.name];
    var u := StaticAtBind(w, req, env);
    var v := StaticEnd(u, req, env, Some(rec), bound);
    assert Registered(w, name);
    StaticRegElsewhere(w, req, env);
    StaticUndoneRecord(u, req, env, rec, bound);
    StaticUndoneRoutes(w, req, env);
    StillAgrees(w, v, name);
    RegElsewhereTransitive(w.reg, u.reg, v.reg, name);
    RouteAndRecordStep(w, v, name);
    StepKeepsWorld(w, v, name);
    MakesSettled(w, v, name);
  }

  lemma StillAgrees(w: World, v: World, name: string)
    requires Registered(w, name) && name in w.mgr.procs && v.mgr == w.mgr && name in v.reg.services
    requires var s, t := w.reg.services[name], v.reg.services[name];
             && t.status == s.status && t.pid == s.pid && t.internalPorts == s.internalPorts && t.stablePorts == s.stablePorts && t.settings == s.settings
             && (s.stablePorts != map[] ==> w.prx.entries.Keys <= v.prx.entries.Keys)
    ensures Registered(v, name)
  {
    StaysListening(w.prx, v.prx, name, w.reg.services[name]);
  }

  lemma StaticUndoneRecord(u: World, req: Request, env: DeployEnv, rec: R.Service, bound: bool)
    requires req.name in u.mgr.procs && RecordSane(rec, req.name) && X.IsOrderOf(env.launch.undo.order, rec.stablePorts)
    requires !(bound && X.SwapStatic(u.prx, req.name, req.settings.path).1)
    ensures var v := StaticEnd(u, req, env, Some(rec), bound);
            && v.mgr == u.mgr && v.attempts == u.attempts && v.drains == u.drains
            && (v.prx == u.prx || v.prx == UndoRoutes(u.prx, req.name, rec, env.launch.undo))
            && RegElsewhere(u.reg, v.reg, req.name)
            && req.name in v.reg.services && RecordSane(v.reg.services[req.name], req.name)
            && v.reg.services[req.name].status == rec.status && v.reg.services[req.name].pid == rec.pid
            && v.reg.services[req.name].internalPorts == rec.internalPorts && v.reg.services[req.name].stablePorts == rec.stablePorts
            && v.reg.services[req.name].settings == rec.settings
  {
    hide X.SwapStatic, UndoRoutes, X.UnswapPorts, R.UpdateStatus, R.UpdateLastDeployed;
    PutRecordStep(u.reg, req.name, rec);
  }

  lemma StaticUndoneRoutes(w: World, req: Request, env: DeployEnv)
    requires WorldOk(w) && DeployOrders(w, req, env) && ValidServiceName(req.name) && req.name in w.reg.services
    requires AllocatePorts(w, req.name, Preferred(req), req.bind, env.alloc).1.Ports?
    requires X.IsOrderOf(env.launch.bind.order, StagedRecord(w, req, env).stablePorts)
    ensures var rec, p := w.reg.services[req.name], StaticAtBind(w, req, env).prx;
            && RouteStep(w.prx, p, req.name) && RouteStep(w.prx, UndoRoutes(p, req.name, rec, env.launch.undo), req.name)
            && (rec.stablePorts != map[] ==>
                  w.prx.entries.Keys <= p.entries.Keys && w.prx.entries.Keys <= UndoRoutes(p, req.name, rec, env.launch.undo).entries.Keys)
  {
    hide RoutesOk, Steady, AllocatePorts, PP.Intended, X.Register, UndoRoutes, StagedRecord, PrxElsewhere, AllListening, X.CurrentHandlers;
    var name, rec := req.name, w.reg.services[req.name];
    ValidNamesAreColonFree(name);
    AllocateStep(w, name, Preferred(req), req.bind, env.alloc);
    var s, q, p := StagedRecord(w, req, env), AtReplace(w, req, env).prx, StaticAtBind(w, req, env).prx;
    RegisterStep(q, name, s.stablePorts, s.bind, env.launch.bind);
    RouteStepTransitive(w.prx, q, p, name);
    UndoStep(p, name, rec, env.launch.undo);
    RouteStepTransitive(w.prx, p, UndoRoutes(p, name, rec, env.launch.undo), name);
  }

  lemma StaticRecord(w: World, req: Request, env: DeployEnv)
    requires DeployOrders(w, req, env) && AllocatePorts(w, req.name, Preferred(req), req.bind, env.alloc).1.Ports?
    requires X.IsOrderOf(env.launch.bind.order, StagedRecord(w, req, env).stablePorts)
    ensures var u := StaticAtBind(w, req, env);
            req.name in u.reg.services && u.reg.services[req.name] == StagedRecord(w, req, env)
  {
    hide AllocatePorts, X.Register;
  }

  lemma StaticRegElsewhere(w: World, req: Request, env: DeployEnv)
    requires DeployOrders(w, req, env) && AllocatePorts(w, req.name, Preferred(req), req.bind, env.alloc).1.Ports?
    requires X.IsOrderOf(env.launch.bind.order, StagedRecord(w, req, env).stablePorts)
    ensures var u := StaticAtBind(w, req, env);
            RegElsewhere(w.reg, u.reg, req.name) && u.mgr == w.mgr && u.drains == w.drains && u.attempts == w.attempts
  {
    hide AllocatePorts, X.Register;
    AtReplaceParts(w, req, env);
  }

  // ---- Restart and Rollback ----

  ghost predicate RestartOk(w: World, name: string, env: LaunchEnv) {
    && FreshPid(w.mgr, env.pid)
    && (name in w.reg.services ==>
          && X.IsOrderOf(env.undo.order, w.reg.services[name].stablePorts)
          && env.ports.Keys == InternalNames(w.reg.services[name].stablePorts)
          && (name in w.mgr.procs ==> PortsDiffer(w.reg.services[name], env)))
  }

  lemma RestartReady(w: World, name: string, env: LaunchEnv)
    requires WorldOk(w) && RestartOk(w, name, env) && name in w.reg.services && w.reg.services[name].settings.kind == R.Binary
    ensures ReplaceReady(w, name, Some(w.reg.services[name]), Keep, P.FAILED_CODE, env)
    ensures ReplaceCoupled(w, name, Some(w.reg.services[name]), Keep, env)
  {
    hide RoutesOk, Steady, AllListening, PP.Intended;
  }

  lemma RestartKeeps(w: World, name: string, env: LaunchEnv)
    requires WorldOk(w) && RestartOk(w, name, env)
    ensures var (v, ok) := RestartLocked(w, name, env);
            && Settles(w, v, name)
            && ((ok && name in w.reg.services && w.reg.services[name].settings.kind == R.Binary) || name !in w.mgr.procs ==> Routed(v, name))
  {
    hide Replace, WorldOk, ReplaceReady, ReplaceCoupled, WorldElsewhere, Settles, FreshPid;
    SameIsElsewhere(w, name);
    if name in w.reg.services && w.reg.services[name].settings.kind == R.Binary {
      RestartReady(w, name, env);
      SelfElsewhere(w, name);
      ReplaceSettles(w, w, name, Some(w.reg.services[name]), Keep, P.FAILED_CODE, 0, env);
    }
  }

  lemma SelfElsewhere(w: World, name: string)
    requires WorldOk(w)
    ensures WorldElsewhere(w, w, name)
  {
    hide RoutesOk, PP.Intended, X.CurrentHandlers;
    ElsewhereReflexive(w.mgr, name);
  }

  ghost predicate RollbackOk(w: World, name: string, env: LaunchEnv) {
    && RestartOk(w, name, env) && RollbackOrders(w, name, env)
    && (name in w.reg.services && w.reg.services[name].previous.Some? && w.reg.services[name].previous.value.settings.kind == R.Static ==>
          name !in w.mgr.procs)
  }

  /** The state in which Rollback restarts: the old configuration staged, its address registered. */
  function RolledWorld(w: World, name: string, env: LaunchEnv): World
    requires RollbackOrders(w, name, env) && name in w.reg.services && w.reg.services[name].previous.Some?
  {
    var reg := StagedRollback(w, name, env.now);
    var svc := reg.services[name];
    assert svc.stablePorts == w.reg.services[name].stablePorts;
    w.(reg := reg, prx := X.Register(w.prx, name, svc.stablePorts, svc.bind, env.bind).0)
  }

  lemma RollbackStages(w: World, name: string, env: LaunchEnv)
    requires WorldOk(w) && RollbackOk(w, name, env)
    requires name in w.reg.services && w.reg.services[name].previous.Some?
    ensures var u := RolledWorld(w, name, env);
            && name in u.reg.services
            && var s, t := w.reg.services[name], u.reg.services[name];
            && RegElsewhere(w.reg, u.reg, name) && RecordSane(t, name)
            && t.stablePorts == s.stablePorts && t.internalPorts == s.internalPorts && t.status == s.status && t.pid == s.pid
            && t.settings == s.previous.value.settings && t.startHistory == s.startHistory
  {
    hide Steady, RoutesOk, X.Register, FreshPid, PP.Intended, AllListening;
    assert RecordSane(w.reg.services[name], name);
  }

  lemma RolledSettles(w: World, name: string, env: LaunchEnv)
    requires WorldOk(w) && RollbackOk(w, name, env)
    requires name in w.reg.services && w.reg.services[name].previous.Some?
    ensures var u := RolledWorld(w, name, env);
            && Settles(w, u, name)
            && (Routed(w, name) <==> Routed(u, name))
            && (name in w.mgr.procs ==> u.prx.published == w.prx.published)
            && RestartOk(u, name, env)
  {
    hide Steady, RoutesOk, X.Register, FreshPid, PP.Intended, PrxElsewhere, RecordSane, WorldElsewhere, X.CurrentHandlers, StagedRollback, AllListening, Serves;
    RollbackStages(w, name, env);
    RecordIsColonFree(w.reg, name);
    var u := RolledWorld(w, name, env);
    var t := u.reg.services[name];
    RegisterStep(w.prx, name, t.stablePorts, t.bind, env.bind);
    RouteAndRecordStep(w, u, name);
    if name in w.mgr.procs {
      assert Registered(w, name);
      ListeningGrows(w.prx, u.prx, name, t.stablePorts.Keys);
      RegisterServes(w.prx, name, t.stablePorts, t.bind, env.bind, t.internalPorts);
    }
    StepKeepsWorld(w, u, name);
  }

  /** The part of Rollback after the restart. */
  lemma RollbackRestarts(w: World, u: World, name: string, env: LaunchEnv, deployedAt: int)
    requires WorldOk(w) && Settles(w, u, name) && RestartOk(u, name, env)
    requires name in u.reg.services && u.reg.services[name].settings.kind == R.Binary && (name in u.mgr.procs <==> name in w.mgr.procs)
    ensures var (v, ok) := RestartLocked(u, name, env);
            var touched := v.(reg := R.UpdateLastDeployed(v.reg, name, deployedAt, env.now).0);
            && Settles(w, v, name) && Settles(w, touched, name)
            && (ok || name !in w.mgr.procs ==> Routed(v, name) && Routed(touched, name))
  {
    hide WorldOk, RestartLocked, Settles, Routed, FreshPid, PortsDiffer;
    SettledIsOk(w, u, name);
    RestartKeeps(u, name, env);
    var (v, ok) := RestartLocked(u, name, env);
    SettlesTransitive(w, u, v, name);
    SettledIsOk(w, v, name);
    TouchSettles(v, name, R.UpdateLastDeployed(v.reg, name, deployedAt, env.now).0);
    SettlesTransitive(w, v, v.(reg := R.UpdateLastDeployed(v.reg, name, deployedAt, env.now).0), name);
  }

  lemma RollbackKeeps(w: World, name: string, env: LaunchEnv, deployedAt: int)
    requires WorldOk(w) && RollbackOk(w, name, env)
    ensures Settles(w, Rollback(w, name, env, deployedAt).0, name)
    ensures Rollback(w, name, env, deployedAt).1 || name !in w.mgr.procs ==> Routed(Rollback(w, name, env, deployedAt).0, name)
  {
    hide WorldOk, Steady, RoutesOk, WorldElsewhere, X.Register, StagedRollback, RestartLocked, X.SwapStatic, FreshPid, PP.Intended, Settles, RestartOk, WholeRoute, X.CurrentHandlers, R.UpdateLastDeployed, R.UpdateStatus;
    SameIsElsewhere(w, name);
    if name in w.reg.services && w.reg.services[name].previous.Some? {
      var u := RolledWorld(w, name, env);
      RolledSettles(w, name, env);
      RollbackStages(w, name, env);
      var t := u.reg.services[name];
      if X.Register(w.prx, name, t.stablePorts, t.bind, env.bind).1 {
        if t.settings.kind == R.Static {
          StaticRollbackSettles(w, u, name, env, deployedAt);
        } else {
          RollbackRestarts(w, u, name, env, deployedAt);
        }
      }
    }
  }

  lemma SettledIsOk(w: World, v: World, name: string)
    requires Settles(w, v, name)
    ensures WorldOk(v)
  {
  }

  lemma SettlesTransitive(a: World, b: World, c: World, name: string)
    requires Settles(a, b, name) && Settles(b, c, name)
    ensures Settles(a, c, name)
  {
    hide WorldOk, Routed;
    WorldElsewhereTransitive(a, b, c, name);
    OthersTracked(b, c, name);
    hide WorldElsewhere;
  }

  lemma OthersTracked(w: World, v: World, name: string)
    requires WorldElsewhere(w, v, name)
    ensures forall n | n != name :: n in v.mgr.procs <==> n in w.mgr.procs
  {
    hide PP.Intended, X.CurrentHandlers;
  }

  /** Rewriting fields of a record that the invariant does not speak about. */
  lemma TouchSettles(w: World, name: string, reg: R.Registry)
    requires WorldOk(w) && RegElsewhere(w.reg, reg, name)
    requires name in reg.services <==> name in w.reg.services
    requires name in reg.services ==>
               var s, t := w.reg.services[name], reg.services[name];
               && t.name == s.name && t.bind == s.bind && t.stablePorts == s.stablePorts && t.settings == s.settings
               && (name in w.mgr.procs ==> t.internalPorts == s.internalPorts && t.status == s.status && t.pid == s.pid)
    ensures Settles(w, w.(reg := reg), name)
    ensures Routed(w, name) <==> Routed(w.(reg := reg), name)
  {
    hide RoutesOk, Steady, PP.Intended, X.CurrentHandlers, PrxElsewhere, AllListening;
    var v := w.(reg := reg);
    PrxElsewhereReflexive(w.prx, name);
    ElsewhereReflexive(w.mgr, name);
    if name in w.mgr.procs {
      assert Registered(w, name);
    }
    if name in w.reg.services {
      assert RecordSane(w.reg.services[name], name);
    }
    StepKeepsWorld(w, v, name);
  }

  lemma PrxElsewhereReflexive(p: X.Proxy, name: string)
    ensures PrxElsewhere(p, p, name)
  {
  }

  lemma StaticRollbackSettles(w: World, u: World, name: string, env: LaunchEnv, deployedAt: int)
    requires WorldOk(w) && RollbackOk(w, name, env) && name !in w.mgr.procs && name in w.reg.services
    requires Settles(w, u, name) && u.mgr == w.mgr && name in u.reg.services
    ensures var (q, swapped) := X.SwapStatic(u.prx, name, u.reg.services[name].settings.path);
            swapped ==>
              Settles(w, u.(prx := q, reg := R.UpdateLastDeployed(R.UpdateStatus(u.reg, name, R.Running, 0, env.now).0, name, deployedAt, env.now).0), name)
  {
    hide RoutesOk, Steady, PP.Intended, X.CurrentHandlers, X.SwapStatic, PrxElsewhere, FreshPid, WorldElsewhere, RollbackOk;
    RecordIsColonFree(w.reg, name);
    var (q, swapped) := X.SwapStatic(u.prx, name, u.reg.services[name].settings.path);
    if swapped {
      var reg := R.UpdateLastDeployed(R.UpdateStatus(u.reg, name, R.Running, 0, env.now).0, name, deployedAt, env.now).0;
      StaticStep(u.prx, name, u.reg.services[name].settings.path);
      var v := u.(prx := q, reg := reg);
      RouteAndRecordStep(u, v, name);
      assert RecordSane(u.reg.services[name], name);
      assert RecordSane(v.reg.services[name], name);
      StepKeepsWorld(u, v, name);
      SettlesTransitive(w, u, v, name);
    }
  }

  // ---- Stop, Remove and the archive ----

  lemma StatusStep(r: R.Registry, name: string, status: R.Status, pid: int, now: int)
    requires RecordsSane(r)
    ensures var q := R.UpdateStatus(r, name, status, pid, now).0;
            RegElsewhere(r, q, name) && RecordsSane(q)
  {
  }

  lemma StopKeeps(w: World, name: string, stuck: bool, now: int)
    requires WorldOk(w)
    ensures Settles(w, Stop(w, name, stuck, now).0, name)
  {
    hide Steady, RoutesOk, Elsewhere, PP.Intended, X.CurrentHandlers, X.UnswapPorts, P.StopWith, PrxElsewhere, RecordSane, R.UpdateStatus, Settles;
    SameIsElsewhere(w, name);
    if name in w.reg.services {
      RecordIsColonFree(w.reg, name);
      StopSteady(w.mgr, name);
      UnswapStep(w.prx, name);
      StatusStep(w.reg, name, R.Stopped, 0, now);
      var v := Stop(w, name, stuck, now).0;
      assert WorldElsewhere(w, v, name);
      hide WorldElsewhere;
      StepKeepsWorld(w, v, name);
      MakesSettled(w, v, name);
    }
  }

  lemma MakesSettled(w: World, v: World, name: string)
    requires WorldOk(v) && WorldElsewhere(w, v, name)
    requires forall n | n != name && n in v.mgr.procs :: Routed(w, n) <==> Routed(v, n)
    ensures Settles(w, v, name)
  {
  }

  /** Remove does not validate its argument: with a colon in it, it may match keys of other services. */
  ghost predicate RemoveOk(w: World, name: string) {
    ColonFree(name) || X.Matching(w.prx, name) == {}
  }

  /** Remove keeps the invariant and leaves the other services alone, if and only if its argument has no
      colon or matches no listener. */
  lemma RemoveKeeps(w: World, name: string)
    requires WorldOk(w)
    ensures Settles(w, Remove(w, name), name) <==> RemoveOk(w, name)
  {
    hide Settles, Remove, WorldOk, X.Matching;
    if ColonFree(name) {
      RemoveColonFree(w, name);
    } else if X.Matching(w.prx, name) == {} {
      RemoveNothing(w, name);
    } else {
      RemoveReaches(w, name);
    }
  }

  lemma RemoveNothing(w: World, name: string)
    requires WorldOk(w) && !ColonFree(name) && X.Matching(w.prx, name) == {}
    ensures Settles(w, Remove(w, name), name)
  {
    hide Steady, XP.Sound, XP.Held, Elsewhere, PP.Intended, X.CurrentHandlers, X.RemovePorts, P.StopWith, PrxElsewhere, WholeRoute, AllListening;
    StopSteady(w.mgr, name);
    XP.RemoveNothing(w.prx, name);
    PrxElsewhereReflexive(w.prx, name);
    StepKeepsWorld(w, Remove(w, name), name);
  }

  lemma RemoveReaches(w: World, name: string)
    requires WorldOk(w) && !ColonFree(name) && X.Matching(w.prx, name) != {}
    ensures !Settles(w, Remove(w, name), name)
  {
    hide Steady, RoutesOk, Elsewhere, PP.Intended, X.CurrentHandlers, P.StopWith;
    var k :| k in X.Matching(w.prx, name);
    assert k !in Remove(w, name).prx.entries && Owner(k) != name;
    assert !XP.SameService(w.prx, Remove(w, name).prx, Owner(k));
  }

  lemma RemoveColonFree(w: World, name: string)
    requires WorldOk(w) && ColonFree(name)
    ensures Settles(w, Remove(w, name), name)
  {
    hide Steady, RoutesOk, Elsewhere, PP.Intended, X.CurrentHandlers, X.RemovePorts, P.StopWith, PrxElsewhere, WholeRoute, AllListening, RecordSane;
    StopSteady(w.mgr, name);
    RemoveStep(w.prx, name);
    StepKeepsWorld(w, Remove(w, name), name);
  }

  lemma ArchiveKeeps(w: World, name: string, now: int)
    requires WorldOk(w)
    ensures Settles(w, Archive(w, name, now).0, name)
    ensures Settles(w, RestoreArchived(w, name, now).0, name)
    ensures Routed(w, name) <==> Routed(Archive(w, name, now).0, name)
    ensures Routed(w, name) <==> Routed(RestoreArchived(w, name, now).0, name)
  {
    hide Steady, RoutesOk, PP.Intended, X.CurrentHandlers, WholeRoute, AllListening, Settles, Routed;
    if name in w.mgr.procs {
      assert Registered(w, name);
    }
    hide WorldOk, Registered;
    TouchSettles(w, name, R.Archive(w.reg, name, now).0);
    TouchSettles(w, name, R.RestoreArchived(w.reg, name, now).0);
  }

  lemma PruneKeeps(w: World, name: string, now: int)
    requires WorldOk(w)
    ensures Settles(w, Prune(w, name, now).0, name)
  {
    hide Steady, RoutesOk, Elsewhere, PP.Intended, X.CurrentHandlers, X.RemovePorts, PrxElsewhere, WholeRoute, AllListening, RecordSane, Settles;
    SameIsElsewhere(w, name);
    if name in w.reg.services && w.reg.services[name].status == R.Archived {
      RecordIsColonFree(w.reg, name);
      RemoveStep(w.prx, name);
      ElsewhereReflexive(w.mgr, name);
      var v := Prune(w, name, now).0;
      StepKeepsWorld(w, v, name);
      MakesSettled(w, v, name);
    }
  }

  ghost predicate ReserveOk(w: World, name: string, preferred: map<string, int>, env: AllocEnv) {
    AllocOrders(w.reg, name, preferred, env)
  }

  /** A process of a service without stable ports keeps running, but a refused allocation under its name
      closes the listener it is reached on. */
  ghost predicate ReserveLoses(w: World, name: string, preferred: map<string, int>, env: AllocEnv)
    requires AllocOrders(w.reg, name, preferred, env)
  {
    ValidServiceName(name) && name in w.mgr.procs && !AllocatePorts(w, name, preferred, R.DEFAULT_BIND, env).1.Ports?
  }

  /** Reserving ports keeps the invariant, and the service routed exactly unless its allocation is
      refused: then its ports are taken from a process that has none of its own. */
  lemma ReserveKeeps(w: World, name: string, preferred: map<string, int>, env: AllocEnv, now: int)
    requires WorldOk(w) && ReserveOk(w, name, preferred, env)
    ensures var v := Reserve(w, name, preferred, env, now).0;
            && Settles(w, v, name) && v.mgr == w.mgr
            && (Routed(v, name) <==> Routed(w, name) && !ReserveLoses(w, name, preferred, env))
  {
    hide Steady, RoutesOk, PP.Intended, X.CurrentHandlers, AllocatePorts, PrxElsewhere, AllListening, Settles, WorldElsewhere, RecordSane, Serves, OnlyWhole;
    SameIsElsewhere(w, name);
    if ValidServiceName(name) {
      ValidNamesAreColonFree(name);
      AllocateStep(w, name, preferred, R.DEFAULT_BIND, env);
      var (p, got) := AllocatePorts(w, name, preferred, R.DEFAULT_BIND, env);
      if !got.Ports? {
        AllocFailureSettles(w, name, preferred, R.DEFAULT_BIND, env);
      } else {
        var v := Reserve(w, name, preferred, env, now).0;
        RouteAndRecordStep(w, v, name);
        if name in w.reg.services {
          if name in w.mgr.procs {
            assert Registered(w, name);
            StaysListening(w.prx, p, name, w.reg.services[name]);
            AllocateServes(w, name, preferred, R.DEFAULT_BIND, env, w.reg.services[name].internalPorts);
          }
        } else {
          ReservedIsSane(v.reg.services[name], name);
          assert name in w.mgr.procs ==> Registered(w, name);
        }
        StepKeepsWorld(w, v, name);
        MakesSettled(w, v, name);
      }
    }
  }

  lemma ReservedIsSane(s: R.Service, name: string)
    requires s.name == name && ColonFree(name) && s.bind != ""
    ensures RecordSane(s, name)
  {
  }

  lemma DrainKeeps(w: World, i: nat, name: string)
    requires WorldOk(w)
    ensures Settles(w, FinishDrain(w, i), name)
    ensures Routed(w, name) <==> Routed(FinishDrain(w, i), name)
    ensures i < |w.drains| ==> PP.Intended(w.mgr, w.drains[i])
  {
    hide Steady, RoutesOk, PP.Intended, X.CurrentHandlers, PrxElsewhere, AllListening, Settles, RecordSane;
    SameIsElsewhere(w, name);
    if i < |w.drains| {
      SignalSteady(w.mgr, w.drains[i], name);
      PrxElsewhereReflexive(w.prx, name);
      var v := FinishDrain(w, i);
      assert name in w.mgr.procs ==> Registered(w, name);
      assert name in w.reg.services ==> RecordSane(w.reg.services[name], name);
      StepKeepsWorld(w, v, name);
      MakesSettled(w, v, name);
    }
  }

  // ---- Startup ----

  /** The proxy step of restoreOne, whichever it is. */
  lemma RestoreRoutes(p: X.Proxy, name: string, dir: string, ports: map<string, int>)
    requires RoutesOk(p) && ColonFree(name)
    ensures RouteStep(p, p, name) && RouteStep(p, X.UnswapPorts(p, name), name) && RouteStep(p, X.SwapStatic(p, name, dir).0, name)
    ensures var (q, ok) := X.SwapPorts(p, name, ports);
            && RouteStep(p, q, name) && RouteStep(p, X.UnswapPorts(q, name), name)
            && (ok ==> AllListening(q, name, ports.Keys) && WholeRoute(X.CurrentHandlers(q, name), ports))
  {
    hide RoutesOk, PrxElsewhere, X.UnswapPorts, X.SwapStatic, X.SwapPorts, X.CurrentHandlers, WholeRoute, AllListening;
    var (q, ok) := X.SwapPorts(p, name, ports);
    RouteStepReflexive(p, name);
    UnswapStep(p, name);
    StaticStep(p, name, dir);
    SwapStep(p, name, ports);
    UnswapStep(q, name);
    RouteStepTransitive(p, q, X.UnswapPorts(q, name), name);
    SwappedIn(p, name, ports);
  }

  lemma SwappedIn(p: X.Proxy, name: string, ports: map<string, int>)
    requires RoutesOk(p)
    ensures var (q, ok) := X.SwapPorts(p, name, ports);
            ok ==> AllListening(q, name, ports.Keys) && WholeRoute(X.CurrentHandlers(q, name), ports)
  {
    XP.SwapPortsExact(p, name, ports);
    hide XP.Sound, XP.Held, EntryKey;
  }

  ghost predicate BindOk(w: World, name: string, env: X.BindEnv) {
    name in w.reg.services && name !in w.mgr.procs && X.IsOrderOf(env.order, w.reg.services[name].stablePorts)
  }

  /** Binding the listeners of a service that does not run yet keeps the invariant; if it fails, the service
      is called failed, and otherwise all its ports are listened on. */
  lemma BindKeeps(w: World, name: string, env: X.BindEnv, now: int)
    requires WorldOk(w) && BindOk(w, name, env)
    ensures var (v, ok) := BindListeners(w, name, env, now);
            && Settles(w, v, name) && Routed(v, name) && v.mgr == w.mgr
            && (ok ==> AllListening(v.prx, name, w.reg.services[name].stablePorts.Keys))
            && (!ok ==> Called(v.reg, name, R.Failed))
  {
    hide Steady, RoutesOk, PP.Intended, X.CurrentHandlers, X.Register, PrxElsewhere, AllListening, Settles, RecordSane, R.UpdateStatus, Called;
    SameIsElsewhere(w, name);
    RecordIsColonFree(w.reg, name);
    var svc, v := w.reg.services[name], BindListeners(w, name, env, now).0;
    RegisterStep(w.prx, name, svc.stablePorts, svc.bind, env);
    StatusStep(w.reg, name, R.Failed, 0, now);
    StatusCalls(w.reg, name, R.Failed, now);
    if svc.stablePorts == map[] {
      assert svc.stablePorts.Keys == {};
      NoneListening(w.prx, name);
    } else {
      RegElsewhereReflexive(w.reg, name);
      RouteAndRecordStep(w, v, name);
      StepKeepsWorld(w, v, name);
      MakesSettled(w, v, name);
    }
  }

  lemma NoneListening(p: X.Proxy, name: string)
    ensures AllListening(p, name, {})
  {
  }

  lemma RegElsewhereReflexive(r: R.Registry, name: string)
    ensures RegElsewhere(r, r, name)
  {
  }

  /** Bringing a service back keeps the invariant; if it runs afterwards it is routed, and otherwise
      nothing is tracked under its name. */
  lemma RestoreOneKeeps(w: World, name: string, env: RestoreEnv)
    requires WorldOk(w) && RestoreOk(w, name, env)
    ensures var (v, outcome) := RestoreOne(w, name, env);
            && Settles(w, v, name) && Routed(v, name)
            && (outcome == RevivedRunning <==> name in v.mgr.procs)
  {
    hide Steady, RoutesOk, PP.Intended, X.UnswapPorts, X.SwapStatic, X.SwapPorts, X.CurrentHandlers, WholeRoute, PrxElsewhere, Settles, RestoreOne, Elsewhere, AllListening, RecordSane, FreshPid, ProcsInFlight;
    var (v, outcome) := RestoreOne(w, name, env);
    RecordIsColonFree(w.reg, name);
    RestoreOneEnds(w, name, env);
    RestoreRoutes(w.prx, name, w.reg.services[name].settings.path, env.launch.ports);
    StableAmongInternal(v.prx, name, w.reg.services[name].stablePorts);
    if outcome != RevivedRunning {
      GoneIsSteady(w, v, name, env.launch, RestoreEvents(w, name, env));
    }
    assert RecordSane(w.reg.services[name], name);
    SaneDependsOn(w, v, name);
    StepKeepsWorld(w, v, name);
    MakesSettled(w, v, name);
  }

  lemma StableAmongInternal(p: X.Proxy, name: string, stable: map<string, int>)
    ensures AllListening(p, name, InternalNames(stable)) ==> AllListening(p, name, stable.Keys)
  {
  }

  // ---- Exits ----

  lemma ReapShape(w: World, pid: int, code: int, duration: int, now: int)
    requires pid in w.mgr.watchers && w.mgr.watchers[pid].phase == P.Alive
    ensures var v := Reap(w, pid, code, duration, now);
            && v.mgr == ExitNow(w.mgr, pid, code)
            && v.prx == w.prx && v.attempts == w.attempts && v.drains == w.drains
            && RegElsewhere(w.reg, v.reg, w.mgr.watchers[pid].name)
  {
    hide P.Close, P.Observe, P.Die, P.Classify;
  }

  lemma CompletionTouches(r: R.Registry, name: string, startedAt: int, code: int, duration: int, now: int)
    ensures var q := R.CompleteStart(r, name, startedAt, code, duration, now).0;
            && (name in r.services <==> name in q.services)
            && (name in r.services ==> q.services[name] == r.services[name].(startHistory := q.services[name].startHistory, updatedAt := q.services[name].updatedAt))
  {
  }

  lemma CrashRecord(w: World, name: string, now: int)
    ensures var v := HandleCrash(w, name, now);
            && RegElsewhere(w.reg, v.reg, name)
            && (name in v.reg.services <==> name in w.reg.services)
            && (name in w.reg.services ==>
                  var s, t := w.reg.services[name], v.reg.services[name];
                  t.name == s.name && t.bind == s.bind && t.stablePorts == s.stablePorts)
  {
    hide X.UnswapPorts;
  }

  lemma CrashShape(w: World, name: string, now: int)
    requires RoutesOk(w.prx) && (name in w.reg.services ==> ColonFree(name))
    ensures var v := HandleCrash(w, name, now);
            && v.mgr == w.mgr && v.drains == w.drains
            && RegElsewhere(w.reg, v.reg, name)
            && RouteStep(w.prx, v.prx, name)
            && (forall n | n != name :: (n in w.attempts <==> n in v.attempts) && (n in w.attempts ==> v.attempts[n] == w.attempts[n]))
            && (name in v.reg.services <==> name in w.reg.services)
            && (name in w.reg.services ==>
                  var s, t := w.reg.services[name], v.reg.services[name];
                  t.name == s.name && t.bind == s.bind && t.stablePorts == s.stablePorts)
  {
    hide RoutesOk, PrxElsewhere, X.UnswapPorts, R.UpdateCrashState, R.UpdateStatus, RouteStep, RegElsewhere;
    CrashRecord(w, name, now);
    RouteStepReflexive(w.prx, name);
    if name in w.reg.services {
      UnswapStep(w.prx, name);
    }
  }

  /** The first part of an exit, common to drains, candidates and crashes. */
  lemma ReapSettles(w: World, pid: int, code: int, duration: int, now: int)
    requires WorldOk(w) && pid in w.mgr.watchers && w.mgr.watchers[pid].phase == P.Alive
    ensures var v := Reap(w, pid, code, duration, now);
            var name := w.mgr.watchers[pid].name;
            && Settles(w, v, name) && v.prx == w.prx
            && (name in v.mgr.procs ==> (Routed(v, name) <==> Routed(w, name)))
            && (P.Classify(w.mgr, pid, code).verdict == P.Crash ==> name !in v.mgr.procs)
            && (name in v.reg.services <==> name in w.reg.services)
  {
    hide Steady, RoutesOk, PP.Intended, X.CurrentHandlers, PrxElsewhere, AllListening, Settles, RecordSane, ExitNow, P.Classify, Reap, R.CompleteStart, Elsewhere, RegElsewhere, WholeRoute;
    var name := w.mgr.watchers[pid].name;
    var v := Reap(w, pid, code, duration, now);
    ReapShape(w, pid, code, duration, now);
    ReapRecord(w, pid, code, duration, now);
    ExitSteady(w.mgr, pid, code);
    PrxElsewhereReflexive(w.prx, name);
    assert name in v.mgr.procs ==> Registered(w, name);
    assert name in w.reg.services ==> RecordSane(w.reg.services[name], name);
    SaneDependsOn(w, v, name);
    StepKeepsWorld(w, v, name);
    MakesSettled(w, v, name);
  }

  lemma ReapRecord(w: World, pid: int, code: int, duration: int, now: int)
    requires pid in w.mgr.watchers && w.mgr.watchers[pid].phase == P.Alive
    ensures var v := Reap(w, pid, code, duration, now);
            var name := w.mgr.watchers[pid].name;
            && (name in w.reg.services <==> name in v.reg.services)
            && (name in w.reg.services ==>
                  v.reg.services[name] == w.reg.services[name].(startHistory := v.reg.services[name].startHistory, updatedAt := v.reg.services[name].updatedAt))
  {
    hide P.Close, P.Observe, P.Die, P.Classify, R.CompleteStart;
    var watcher := w.mgr.watchers[pid];
    CompletionTouches(w.reg, watcher.name, watcher.startedAt, P.Classify(w.mgr, pid, code).code, duration, now);
  }

  lemma SaneDependsOn(w: World, v: World, name: string)
    requires name in w.reg.services && name in v.reg.services ==>
               var s, t := w.reg.services[name], v.reg.services[name];
               t.name == s.name && t.bind == s.bind && t.stablePorts == s.stablePorts
    ensures name in w.reg.services && name in v.reg.services && RecordSane(w.reg.services[name], name) ==> RecordSane(v.reg.services[name], name)
  {
  }

  lemma CrashSettles(w: World, name: string, now: int)
    requires WorldOk(w) && name !in w.mgr.procs
    ensures Settles(w, HandleCrash(w.(reg := R.UpdateStatus(w.reg, name, R.Failed, 0, now).0), name, now), name)
  {
    hide Steady, RoutesOk, PP.Intended, X.CurrentHandlers, PrxElsewhere, AllListening, Settles, RecordSane, HandleCrash, R.UpdateStatus, Elsewhere, RegElsewhere, WholeRoute;
    var u := w.(reg := R.UpdateStatus(w.reg, name, R.Failed, 0, now).0);
    StatusStep(w.reg, name, R.Failed, 0, now);
    if name in u.reg.services {
      RecordIsColonFree(u.reg, name);
    }
    CrashShape(u, name, now);
    var v := HandleCrash(u, name, now);
    RegElsewhereTransitive(w.reg, u.reg, v.reg, name);
    ElsewhereReflexive(w.mgr, name);
    SaneDependsOn(u, v, name);
    StepKeepsWorld(w, v, name);
    MakesSettled(w, v, name);
  }

  /** An exit at any time, of any process: only a crash of the tracked process affects its service, and
      nothing else is affected at all. */
  lemma ExitKeeps(w: World, pid: int, code: int, duration: int, now: int)
    requires WorldOk(w)
    ensures var v := ProcessExits(w, pid, code, duration, now);
            pid in w.mgr.watchers ==>
              var name := w.mgr.watchers[pid].name;
              Settles(w, v, name) && (name in v.mgr.procs ==> (Routed(v, name) <==> Routed(w, name)))
  {
    hide WorldOk, Settles, HandleCrash, Reap, P.Classify, R.UpdateStatus, Routed;
    if pid in w.mgr.watchers {
      var name := w.mgr.watchers[pid].name;
      SameIsElsewhere(w, name);
      if w.mgr.watchers[pid].phase == P.Alive {
        ReapSettles(w, pid, code, duration, now);
        var v := Reap(w, pid, code, duration, now);
        if P.Classify(w.mgr, pid, code).verdict == P.Crash {
          SettledIsOk(w, v, name);
          CrashSettles(v, name, now);
          SettlesTransitive(w, v, ProcessExits(w, pid, code, duration, now), name);
          CrashKeepsProcs(v, name, now);
        }
      }
    }
  }

  lemma CrashKeepsProcs(v: World, name: string, now: int)
    ensures HandleCrash(v.(reg := R.UpdateStatus(v.reg, name, R.Failed, 0, now).0), name, now).mgr == v.mgr
  {
  }

  // ---- Whole runs ----

  datatype Op =
    | OpDeploy(req: Request, env: DeployEnv)
    | OpDeployStatic(req: Request, env: DeployEnv)
    | OpRestart(name: string, launch: LaunchEnv)
    | OpRollback(name: string, launch: LaunchEnv, deployedAt: int)
    | OpStop(name: string, stuck: bool, now: int)
    | OpRemove(name: string)
    | OpReserve(name: string, preferred: map<string, int>, alloc: AllocEnv, now: int)
    | OpArchive(name: string, now: int)
    | OpRestoreArchived(name: string, now: int)
    | OpPrune(name: string, now: int)
    | OpBind(name: string, bind: X.BindEnv, now: int)
    | OpRestoreOne(name: string, restore: RestoreEnv)
    | OpExit(pid: int, code: int, duration: int, now: int)
    | OpDrain(i: nat)

  /** Each order the environment chooses is one of the map it is used for, and Deploy of a binary and of a
      directory are told apart. */
  ghost predicate OpOrders(w: World, op: Op) {
    match op
    case OpDeploy(req, env) => DeployOrders(w, req, env) && req.settings.kind == R.Binary
    case OpDeployStatic(req, env) => DeployOrders(w, req, env) && req.settings.kind == R.Static
    case OpRestart(name, env) => name in w.reg.services ==> X.IsOrderOf(env.undo.order, w.reg.services[name].stablePorts)
    case OpRollback(name, env, _) => RollbackOrders(w, name, env)
    case OpReserve(name, preferred, env, _) => AllocOrders(w.reg, name, preferred, env)
    case OpBind(name, env, _) => name in w.reg.services && X.IsOrderOf(env.order, w.reg.services[name].stablePorts)
    case OpRestoreOne(name, _) => name in w.reg.services
    case _ => true
  }

  /** What the environment owes an operation: a new PID, and a port of its own for each name; and the
      daemon's start-up code binds and brings back only services that do not run yet. */
  ghost predicate OpEnv(w: World, op: Op): (ok: bool)
    ensures ok ==> OpOrders(w, op)
  {
    match op
    case OpDeploy(req, env) => DeployOk(w, req, env)
    case OpDeployStatic(req, env) => DeployOrders(w, req, env) && req.settings.kind == R.Static
    case OpRestart(name, env) => RestartOk(w, name, env)
    case OpRollback(name, env, _) => RestartOk(w, name, env) && RollbackOrders(w, name, env)
    case OpReserve(name, preferred, env, _) => ReserveOk(w, name, preferred, env)
    case OpBind(name, env, _) => BindOk(w, name, env)
    case OpRestoreOne(name, env) => RestoreOk(w, name, env)
    case _ => true
  }

  /** What the environment owes, and the two things a caller must not do: give Remove a name that matches
      another service's listeners, and deploy or roll back to a directory over a process that runs. */
  ghost predicate OpOk(w: World, op: Op): (ok: bool)
    ensures ok ==> OpOrders(w, op) && OpEnv(w, op)
  {
    match op
    case OpDeploy(req, env) => DeployOk(w, req, env)
    case OpDeployStatic(req, env) => DeployStaticOk(w, req, env)
    case OpRestart(name, env) => RestartOk(w, name, env)
    case OpRollback(name, env, _) => RollbackOk(w, name, env)
    case OpRemove(name) => RemoveOk(w, name)
    case OpReserve(name, preferred, env, _) => ReserveOk(w, name, preferred, env)
    case OpBind(name, env, _) => BindOk(w, name, env)
    case OpRestoreOne(name, env) => RestoreOk(w, name, env)
    case _ => true
  }

  function Apply(w: World, op: Op): World
    requires OpOrders(w, op)
  {
    match op
    case OpDeploy(req, env) => Deploy(w, req, env).0
    case OpDeployStatic(req, env) => DeployStatic(w, req, env).0
    case OpRestart(name, env) => Restart(w, name, env).0
    case OpRollback(name, env, t) => Rollback(w, name, env, t).0
    case OpStop(name, stuck, now) => Stop(w, name, stuck, now).0
    case OpRemove(name) => Remove(w, name)
    case OpReserve(name, preferred, env, now) => Reserve(w, name, preferred, env, now).0
    case OpArchive(name, now) => Archive(w, name, now).0
    case OpRestoreArchived(name, now) => RestoreArchived(w, name, now).0
    case OpPrune(name, now) => Prune(w, name, now).0
    case OpBind(name, env, now) => BindListeners(w, name, env, now).0
    case OpRestoreOne(name, env) => RestoreOne(w, name, env).0
    case OpExit(pid, code, duration, now) => ProcessExits(w, pid, code, duration, now)
    case OpDrain(i) => FinishDrain(w, i)
  }

  /** The service an operation is about. */
  function Subject(w: World, op: Op): string {
    match op
    case OpDeploy(req, _) => req.name
    case OpDeployStatic(req, _) => req.name
    case OpExit(pid, _, _, _) => if pid in w.mgr.watchers then w.mgr.watchers[pid].name else ""
    case OpDrain(_) => ""
    case _ => op.name
  }

  /** One operation, any outcome: the invariant holds again and every other service keeps its record,
      process, listeners and routes. */
  lemma ApplyKeeps(w: World, op: Op)
    requires WorldOk(w) && OpOk(w, op)
    ensures Settles(w, Apply(w, op), Subject(w, op))
  {
    hide WorldOk, Settles, Deploy, DeployStatic, DeployStaticOk, RestartLocked, Rollback, Stop, Remove, Reserve, Archive, RestoreArchived, Prune, RestoreOne, ProcessExits, FinishDrain, DeployOk, RestartOk, RollbackOk, ReserveOk, RestoreOk, RemoveOk, BindListeners, BindOk;
    SameIsElsewhere(w, Subject(w, op));
    match op
    case OpDeploy(req, env) => DeployKeeps(w, req, env);
    case OpDeployStatic(req, env) => DeployStaticKeeps(w, req, env);
    case OpRestart(name, env) => RestartKeeps(w, name, env);
    case OpRollback(name, env, t) => RollbackKeeps(w, name, env, t);
    case OpStop(name, stuck, now) => StopKeeps(w, name, stuck, now);
    case OpRemove(name) => RemoveKeeps(w, name);
    case OpReserve(name, preferred, env, now) => ReserveKeeps(w, name, preferred, env, now);
    case OpArchive(name, now) => ArchiveKeeps(w, name, now);
    case OpRestoreArchived(name, now) => ArchiveKeeps(w, name, now);
    case OpPrune(name, now) => PruneKeeps(w, name, now);
    case OpBind(name, env, now) => BindKeeps(w, name, env, now);
    case OpRestoreOne(name, env) => RestoreOneKeeps(w, name, env);
    case OpExit(pid, code, duration, now) => ExitKeeps(w, pid, code, duration, now); ExitUnknown(w, pid, code, duration, now);
    case OpDrain(i) => DrainKeeps(w, i, "");
  }

  lemma ExitUnknown(w: World, pid: int, code: int, duration: int, now: int)
    ensures pid !in w.mgr.watchers ==> ProcessExits(w, pid, code, duration, now) == w
  {
  }
}
