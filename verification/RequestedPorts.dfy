/** Which ports a service is given that has none: those that were asked for, as far as they are free, under
    the names they were asked for. */
module RequestedPorts {
  import opened Options
  import opened Names
  import R = RegistrySpec
  import X = ProxySpec
  import XP = ProxyProofs
  import opened ServiceSpec
  import opened HotSwap
  import opened Coupling
  import opened Operations
  import opened StablePorts
  import opened ListenerPorts
  import opened StrayListeners

  // ---- Allocation of several ports ----

  /** Taken when it is the turn of the i-th name. */
  function TakenBefore(used: set<int>, order: seq<string>, i: nat, ports: map<string, int>): set<int>
    requires i <= |order| && forall j | 0 <= j < i :: order[j] in ports
  {
    used + set j | 0 <= j < i :: ports[order[j]]
  }

  /** The i-th name got its port as if it were alone, with the earlier ones taken. */
  ghost predicate GivenAt(p: X.Proxy, name: string, preferred: map<string, int>, used: set<int>, bind: string, env: AllocEnv, i: nat, ports: map<string, int>) {
    && i < |env.order| && (forall j | 0 <= j <= i :: env.order[j] in ports) && env.order[i] in preferred
    && Given(p, name, env.order[i], preferred[env.order[i]], TakenBefore(used, env.order, i, ports), bind, env, ports[env.order[i]])
  }

  ghost predicate DeniedAt(p: X.Proxy, name: string, preferred: map<string, int>, used: set<int>, bind: string, env: AllocEnv, i: nat, ports: map<string, int>, why: Shortage) {
    && i < |env.order| && (forall j | 0 <= j < i :: env.order[j] in ports) && env.order[i] in preferred
    && (forall j: nat | j < i :: GivenAt(p, name, preferred, used, bind, env, j, ports))
    && Denied(p, name, env.order[i], preferred[env.order[i]], TakenBefore(used, env.order, i, ports), bind, env, why)
  }

  lemma GivenDependsOn(p: X.Proxy, name: string, preferred: map<string, int>, used: set<int>, bind: string, env: AllocEnv, i: nat, a: map<string, int>, b: map<string, int>)
    requires forall j | 0 <= j <= i && j < |env.order| && env.order[j] in a :: env.order[j] in b && b[env.order[j]] == a[env.order[j]]
    ensures GivenAt(p, name, preferred, used, bind, env, i, a) ==> GivenAt(p, name, preferred, used, bind, env, i, b)
  {
    hide Given;
    if GivenAt(p, name, preferred, used, bind, env, i, a) {
      assert TakenBefore(used, env.order, i, a) == TakenBefore(used, env.order, i, b);
    }
  }

  /** The listener under a name, or that there is none. */
  ghost predicate SameEntry(p: X.Proxy, q: X.Proxy, name: string, portName: string) {
    && (EntryKey(name, portName) in p.entries <==> EntryKey(name, portName) in q.entries)
    && (EntryKey(name, portName) in p.entries ==> q.entries[EntryKey(name, portName)] == p.entries[EntryKey(name, portName)])
  }

  lemma GivenSame(p: X.Proxy, q: X.Proxy, name: string, portName: string, preferred: int, used: set<int>, bind: string, env: AllocEnv)
    requires SameEntry(p, q, name, portName)
    ensures forall port :: Given(p, name, portName, preferred, used, bind, env, port) <==> Given(q, name, portName, preferred, used, bind, env, port)
    ensures forall why :: Denied(p, name, portName, preferred, used, bind, env, why) <==> Denied(q, name, portName, preferred, used, bind, env, why)
  {
    hide EntryKey, Free;
    forall port ensures Free(p, name, portName, port, used, bind, env) <==> Free(q, name, portName, port, used, bind, env) {
      FreeSame(p, q, name, portName, port, used, bind, env);
    }
  }

  lemma FreeSame(p: X.Proxy, q: X.Proxy, name: string, portName: string, port: int, used: set<int>, bind: string, env: AllocEnv)
    requires SameEntry(p, q, name, portName)
    ensures Free(p, name, portName, port, used, bind, env) <==> Free(q, name, portName, port, used, bind, env)
  {
  }

  /** Trying to bind one name leaves the other names alone. */
  lemma TryBindOthers(p: X.Proxy, name: string, portName: string, port: int, bind: string, env: AllocEnv, other: string)
    requires RoutesOk(p) && ColonFree(name) && other != portName
    ensures SameEntry(p, TryBind(p, name, portName, port, bind, env).0, name, other)
  {
    hide RoutesOk, X.Register, EntryKey;
    var refused: set<string> := if (portName, port) in env.refused then {portName} else {};
    RegisterOthers(p, name, map[portName := port], bind, X.BindEnv(env.addressOk, [portName], refused), other);
  }

  lemma RegisterOthers(p: X.Proxy, name: string, asked: map<string, int>, bind: string, env: X.BindEnv, other: string)
    requires RoutesOk(p) && ColonFree(name) && X.IsOrderOf(env.order, asked) && other !in asked
    ensures SameEntry(p, X.Register(p, name, asked, bind, env).0, name, other)
  {
    hide XP.Sound, XP.Held, X.Register, EntryKey;
    XP.RegisterGrows(p, name, asked, bind, env);
    XP.RegisterEntry(p, name, asked, bind, env, other);
  }

  lemma {:induction false} FirstFreeOthers(p: X.Proxy, name: string, portName: string, port: int, used: set<int>, bind: string, env: AllocEnv, other: string)
    requires RoutesOk(p) && ColonFree(name) && other != portName
    ensures SameEntry(p, FirstFree(p, name, portName, port, used, bind, env).0, name, other)
    decreases RANGE_END + 1 - port
  {
    hide RoutesOk, TryBind, EntryKey;
    if port <= RANGE_END {
      if port in used {
        FirstFreeOthers(p, name, portName, port + 1, used, bind, env, other);
      } else {
        TryBindOthers(p, name, portName, port, bind, env, other);
        TryBindStep(p, name, portName, port, bind, env);
        var (q, ok) := TryBind(p, name, portName, port, bind, env);
        if !ok {
          FirstFreeOthers(q, name, portName, port + 1, used, bind, env, other);
        }
      }
    }
  }

  lemma AllocateOneOthers(p: X.Proxy, name: string, portName: string, preferred: int, used: set<int>, bind: string, env: AllocEnv, other: string)
    requires RoutesOk(p) && ColonFree(name) && other != portName
    ensures SameEntry(p, AllocateOne(p, name, portName, preferred, used, bind, env).0, name, other)
  {
    hide RoutesOk, TryBind, FirstFree, EntryKey;
    TryBindOthers(p, name, portName, preferred, bind, env, other);
    TryBindStep(p, name, portName, preferred, bind, env);
    var (q, ok) := if preferred != 0 && preferred !in used then TryBind(p, name, portName, preferred, bind, env) else (p, false);
    if !ok {
      FirstFreeOthers(q, name, portName, RANGE_START, used, bind, env, other);
    }
  }

  /** Where the loop stands at the i-th name. */
  ghost predicate Under(p0: X.Proxy, p: X.Proxy, name: string, preferred: map<string, int>, used0: set<int>, used: set<int>, bind: string, env: AllocEnv, i: nat, result: map<string, int>) {
    && RoutesOk(p) && ColonFree(name) && X.IsOrderOf(env.order, preferred) && i <= |env.order|
    && (forall k :: k in result <==> k in env.order[..i])
    && (forall j | 0 <= j < i :: env.order[j] in result)
    && used == TakenBefore(used0, env.order, i, result)
    && (forall j: nat | j < i :: GivenAt(p0, name, preferred, used0, bind, env, j, result))
    && (forall j | i <= j < |env.order| :: SameEntry(p0, p, name, env.order[j]))
  }

  lemma UnderNext(p0: X.Proxy, p: X.Proxy, name: string, preferred: map<string, int>, used0: set<int>, used: set<int>, bind: string, env: AllocEnv, i: nat, result: map<string, int>)
    requires Under(p0, p, name, preferred, used0, used, bind, env, i, result) && i < |env.order|
    ensures var (q, one) := AllocateOne(p, name, env.order[i], preferred[env.order[i]], used, bind, env);
            match one
            case Port(port) => Under(p0, q, name, preferred, used0, used + {port}, bind, env, i + 1, result[env.order[i] := port])
            case Refused(why) => DeniedAt(p0, name, preferred, used0, bind, env, i, result, why)
  {
    hide RoutesOk, AllocateOne, Given, Denied, SameEntry, EntryKey, GivenAt, TakenBefore;
    var k := env.order[i];
    var (q, one) := AllocateOne(p, name, k, preferred[k], used, bind, env);
    AllocateOneStep(p, name, k, preferred[k], used, bind, env);
    AllocateOneExact(p, name, k, preferred[k], used, bind, env);
    GivenSame(p0, p, name, k, preferred[k], used, bind, env);
    if one.Port? {
      var more := result[k := one.port];
      NamesNext(env.order, i, result, one.port, used0);
      EarlierGiven(p0, name, preferred, used0, bind, env, i, result, more);
      LaterSame(p0, p, name, preferred, used, bind, env, i);
      assert GivenAt(p0, name, preferred, used0, bind, env, i, more) by { NowGiven(p0, name, preferred, used0, bind, env, i, more); }
    }
  }

  lemma NowGiven(p0: X.Proxy, name: string, preferred: map<string, int>, used0: set<int>, bind: string, env: AllocEnv, i: nat, more: map<string, int>)
    requires i < |env.order| && (forall j | 0 <= j <= i :: env.order[j] in more) && env.order[i] in preferred
    requires Given(p0, name, env.order[i], preferred[env.order[i]], TakenBefore(used0, env.order, i, more), bind, env, more[env.order[i]])
    ensures GivenAt(p0, name, preferred, used0, bind, env, i, more)
  {
  }

  /** One name more has its port. */
  lemma NamesNext(order: seq<string>, i: nat, result: map<string, int>, port: int, used: set<int>)
    requires i < |order| && (forall a, b | 0 <= a < b < |order| :: order[a] != order[b])
    requires (forall k :: k in result <==> k in order[..i]) && (forall j | 0 <= j < i :: order[j] in result)
    ensures var more := result[order[i] := port];
            && (forall k :: k in more <==> k in order[..i + 1]) && (forall j | 0 <= j < i + 1 :: order[j] in more)
            && TakenBefore(used, order, i, more) == TakenBefore(used, order, i, result)
            && TakenBefore(used, order, i + 1, more) == TakenBefore(used, order, i, result) + {port}
  {
    var more := result[order[i] := port];
    assert order[..i + 1] == order[..i] + [order[i]];
    assert forall j | 0 <= j < i :: more[order[j]] == result[order[j]];
    assert (set j | 0 <= j < i + 1 :: more[order[j]]) == (set j | 0 <= j < i :: more[order[j]]) + {more[order[i]]};
  }

  lemma EarlierGiven(p0: X.Proxy, name: string, preferred: map<string, int>, used0: set<int>, bind: string, env: AllocEnv, i: nat, result: map<string, int>, more: map<string, int>)
    requires i < |env.order| && (forall a, b | 0 <= a < b < |env.order| :: env.order[a] != env.order[b])
    requires more.Keys == result.Keys + {env.order[i]} && forall k | k in result && k != env.order[i] :: more[k] == result[k]
    requires forall j: nat | j < i :: GivenAt(p0, name, preferred, used0, bind, env, j, result)
    ensures forall j: nat | j < i :: GivenAt(p0, name, preferred, used0, bind, env, j, more)
  {
    hide GivenAt;
    forall j: nat | j < i ensures GivenAt(p0, name, preferred, used0, bind, env, j, more) {
      GivenDependsOn(p0, name, preferred, used0, bind, env, j, result, more);
    }
  }

  lemma LaterSame(p0: X.Proxy, p: X.Proxy, name: string, preferred: map<string, int>, used: set<int>, bind: string, env: AllocEnv, i: nat)
    requires RoutesOk(p) && ColonFree(name) && X.IsOrderOf(env.order, preferred) && i < |env.order|
    requires forall j | i <= j < |env.order| :: SameEntry(p0, p, name, env.order[j])
    ensures var q := AllocateOne(p, name, env.order[i], preferred[env.order[i]], used, bind, env).0;
            forall j | i + 1 <= j < |env.order| :: SameEntry(p0, q, name, env.order[j])
  {
    hide RoutesOk, AllocateOne, SameEntry;
    var q := AllocateOne(p, name, env.order[i], preferred[env.order[i]], used, bind, env).0;
    forall j | i + 1 <= j < |env.order| ensures SameEntry(p0, q, name, env.order[j]) {
      AllocateOneOthers(p, name, env.order[i], preferred[env.order[i]], used, bind, env, env.order[j]);
      SameEntries2(p0, p, q, name, env.order[j]);
    }
  }

  lemma SameEntries2(p: X.Proxy, q: X.Proxy, r: X.Proxy, name: string, k: string)
    requires SameEntry(p, q, name, k) && SameEntry(q, r, name, k)
    ensures SameEntry(p, r, name, k)
  {
  }

  /** All names have been given their ports, or it was the turn of one that can have none. */
  ghost predicate Allotted(p: X.Proxy, name: string, preferred: map<string, int>, used: set<int>, bind: string, env: AllocEnv, got: Allocated) {
    match got
    case Ports(ports) => ports.Keys == preferred.Keys && forall j: nat | j < |env.order| :: GivenAt(p, name, preferred, used, bind, env, j, ports)
    case Short(why) => exists j, ports :: DeniedAt(p, name, preferred, used, bind, env, j, ports, why)
  }

  lemma IsDenied(p: X.Proxy, name: string, preferred: map<string, int>, used: set<int>, bind: string, env: AllocEnv, i: nat, ports: map<string, int>, why: Shortage)
    requires DeniedAt(p, name, preferred, used, bind, env, i, ports, why)
    ensures Allotted(p, name, preferred, used, bind, env, Short(why))
  {
    hide DeniedAt;
  }

  lemma UnderKnows(p0: X.Proxy, p: X.Proxy, name: string, preferred: map<string, int>, used0: set<int>, used: set<int>, bind: string, env: AllocEnv, i: nat, result: map<string, int>)
    requires Under(p0, p, name, preferred, used0, used, bind, env, i, result)
    ensures i <= |env.order| && forall k | k in env.order :: k in preferred
    ensures i == |env.order| ==> Allotted(p0, name, preferred, used0, bind, env, Ports(result))
  {
    hide RoutesOk, GivenAt, SameEntry, TakenBefore;
    assert i == |env.order| ==> env.order[..i] == env.order;
  }

  lemma {:induction false} AllocateLoopExact(p0: X.Proxy, p: X.Proxy, name: string, preferred: map<string, int>, used0: set<int>, used: set<int>, bind: string, env: AllocEnv, i: nat, result: map<string, int>)
    requires Under(p0, p, name, preferred, used0, used, bind, env, i, result)
    ensures Allotted(p0, name, preferred, used0, bind, env, AllocateLoop(p, name, preferred, used, bind, env, i, result).1)
    decreases |env.order| - i
  {
    hide RoutesOk, AllocateOne, X.RemovePorts, Under, DeniedAt, Allotted;
    UnderKnows(p0, p, name, preferred, used0, used, bind, env, i, result);
    if i < |env.order| {
      UnderNext(p0, p, name, preferred, used0, used, bind, env, i, result);
      var (q, one) := AllocateOne(p, name, env.order[i], preferred[env.order[i]], used, bind, env);
      if one.Port? {
        AllocateLoopExact(p0, q, name, preferred, used0, used + {one.port}, bind, env, i + 1, result[env.order[i] := one.port]);
      } else {
        IsDenied(p0, name, preferred, used0, bind, env, i, result, one.why);
      }
    }
  }

  /** A service without ports is given, name by name in the order of the walk, the port asked for if it is
      free and else the lowest free one; all is refused exactly if some name in turn can have none. */
  lemma AllocationExact(w: World, name: string, preferred: map<string, int>, bind: string, env: AllocEnv)
    requires RoutesOk(w.prx) && ColonFree(name) && AllocOrders(w.reg, name, preferred, env) && StableNames(w.reg, name) == {}
    ensures Allotted(w.prx, name, preferred, R.UsedPorts(w.reg), bind, env, AllocatePorts(w, name, preferred, bind, env).1)
  {
    hide RoutesOk, AllocateLoop, Allotted, R.UsedPorts;
    var used := R.UsedPorts(w.reg);
    assert TakenBefore(used, env.order, 0, map[]) == used;
    forall k | k in env.order ensures SameEntry(w.prx, w.prx, name, k) {
    }
    AllocateLoopExact(w.prx, w.prx, name, preferred, used, used, bind, env, 0, map[]);
    assert name in w.reg.services ==> w.reg.services[name].stablePorts == map[] by { NamesOfSome(if name in w.reg.services then w.reg.services[name].stablePorts else map[]); }
  }

  // ---- Deploy ----

  /** The request asks for this number under this name; 0 leaves the number open. */
  predicate Asks(req: Request, portName: string, port: int) {
    if req.stablePorts == map[] then portName == "default" && port == req.stablePort
    else portName in req.stablePorts && port == req.stablePorts[portName]
  }

  /** The names asked for are those of the record, and each has a listener, on the port the request asks for
      if that is set, free and not given to an earlier name, and else on the lowest free port. */
  ghost predicate GivenAsAsked(w: World, v: World, req: Request, env: AllocEnv) {
    && req.name in v.reg.services
    && var ports := v.reg.services[req.name].stablePorts;
       && (forall k :: k in ports <==> exists n :: Asks(req, k, n))
       && (forall i | 0 <= i < |env.order| :: env.order[i] in ports) && (forall k | k in ports :: k in env.order)
       && (forall i: nat, n | i < |env.order| && Asks(req, env.order[i], n) ::
             Given(w.prx, req.name, env.order[i], n, TakenBefore(R.UsedPorts(w.reg), env.order, i, ports), req.bind, env, ports[env.order[i]]))
       && (forall k | k in ports ::
             EntryKey(req.name, k) in v.prx.entries && v.prx.entries[EntryKey(req.name, k)].stablePort == ports[k])
  }

  lemma PreferredAsked(req: Request, k: string)
    ensures k in Preferred(req) <==> exists n :: Asks(req, k, n)
    ensures k in Preferred(req) ==> Asks(req, k, Preferred(req)[k])
    ensures forall n | Asks(req, k, n) :: k in Preferred(req) && n == Preferred(req)[k]
  {
    assert k in Preferred(req) ==> Asks(req, k, Preferred(req)[k]);
  }

  /** From the allocation and the listeners at the end to the statement about the request. */
  lemma AskedAndGiven(w: World, v: World, req: Request, env: AllocEnv)
    requires WorldOk(w) && ColonFree(req.name) && AllocOrders(w.reg, req.name, Preferred(req), env) && StableNames(w.reg, req.name) == {}
    requires req.name in v.reg.services && AllocatePorts(w, req.name, Preferred(req), req.bind, env).1 == Ports(v.reg.services[req.name].stablePorts)
    requires AllListening(v.prx, req.name, v.reg.services[req.name].stablePorts.Keys)
    requires Follows(v.prx, req.name, v.reg.services[req.name].stablePorts)
    ensures GivenAsAsked(w, v, req, env)
  {
    hide WorldOk, AllocatePorts, Preferred, Given, Asks, R.UsedPorts, EntryKey;
    WorldRoutes(w);
    AllocationExact(w, req.name, Preferred(req), req.bind, env);
    var ports := v.reg.services[req.name].stablePorts;
    forall k ensures k in ports <==> exists n :: Asks(req, k, n) {
      PreferredAsked(req, k);
    }
    forall i: nat, n | i < |env.order| && Asks(req, env.order[i], n)
      ensures Given(w.prx, req.name, env.order[i], n, TakenBefore(R.UsedPorts(w.reg), env.order, i, ports), req.bind, env, ports[env.order[i]])
    {
      PreferredAsked(req, env.order[i]);
      assert GivenAt(w.prx, req.name, Preferred(req), R.UsedPorts(w.reg), req.bind, env, i, ports);
    }
  }

  /** A deployment that succeeds for a service without ports. */
  lemma DeployGives(w: World, req: Request, env: DeployEnv)
    requires WorldOk(w) && DeployOk(w, req, env) && StableNames(w.reg, req.name) == {} && Deploy(w, req, env).1
    ensures GivenAsAsked(w, Deploy(w, req, env).0, req, env.alloc)
  {
    hide WorldOk, Deploy, GivenAsAsked, Follows, AllListening, Extends, AllocatePorts, PortsDiffer;
    AllocateFailsDeploy(w, req, env);
    ValidNamesAreColonFree(req.name);
    DeployLeaving(w, req, env);
    NothingListed(w, req.name);
    DeployListed(w, req, env);
    AskedAndGiven(w, Deploy(w, req, env).0, req, env.alloc);
  }

  lemma NothingListed(w: World, n: string)
    requires StableNames(w.reg, n) == {}
    ensures Listed(w, n)
  {
    hide EntryKey;
  }

  /** And one of a directory. */
  lemma DeployStaticGives(w: World, req: Request, env: DeployEnv)
    requires WorldOk(w) && DeployStaticOk(w, req, env) && StableNames(w.reg, req.name) == {} && DeployStatic(w, req, env).1
    ensures GivenAsAsked(w, DeployStatic(w, req, env).0, req, env.alloc)
  {
    hide WorldOk, DeployStatic, DeployStaticOk, GivenAsAsked, Follows, AllListening, Extends, AllocatePorts;
    StaticAccepted(w, req, env);
    ValidNamesAreColonFree(req.name);
    StaticLeaving(w, req, env);
    NothingListed(w, req.name);
    DeployStaticListed(w, req, env);
    AskedAndGiven(w, DeployStatic(w, req, env).0, req, env.alloc);
  }

  lemma StaticAccepted(w: World, req: Request, env: DeployEnv)
    requires DeployStaticOk(w, req, env) && DeployStatic(w, req, env).1
    ensures DeployOrders(w, req, env) && DeployAllocates(w, req, env)
  {
    hide AllocatePorts, X.Register, X.SwapStatic, RestorePrevious, RestoreFailedDeploy;
  }

  // ---- Reservations ----

  /** Reserving for a name that is not registered: a record of a stopped binary with defaults, on the ports
      given as above, each with a listener - or, if some port cannot be had, no record and no listener. */
  lemma ReserveExact(w: World, name: string, preferred: map<string, int>, env: AllocEnv, now: int)
    requires WorldOk(w) && AllocOrders(w.reg, name, preferred, env)
    ensures var (v, got) := Reserve(w, name, preferred, env, now);
            && v.mgr == w.mgr && v.attempts == w.attempts && v.drains == w.drains
            && (!ValidServiceName(name) ==> v == w && got == Short(NameRejected))
            && (ValidServiceName(name) && name in w.reg.services ==> v.reg == w.reg)
            && (ValidServiceName(name) && name !in w.reg.services ==>
                  && Allotted(w.prx, name, preferred, R.UsedPorts(w.reg), "localhost", env, got)
                  && match got
                  case Short(why) => v.reg == w.reg && (forall k | k in v.prx.entries :: Owner(k) != name)
                  case Ports(ports) =>
                    && AllListening(v.prx, name, ports.Keys)
                    && v.reg.tombstones == w.reg.tombstones
                    && v.reg.services == w.reg.services[name := Reserved(name, ports, now)])
  {
    hide WorldOk, AllocatePorts, Allotted, R.UsedPorts, AllListening, Extends, RoutesOk;
    if ValidServiceName(name) {
      ValidNamesAreColonFree(name);
      WorldRoutes(w);
      AllocateExtends(w, name, preferred, R.DEFAULT_BIND, env);
      if name !in w.reg.services {
        AllocationExact(w, name, preferred, R.DEFAULT_BIND, env);
      }
    }
  }

  function Reserved(name: string, ports: map<string, int>, now: int): R.Service {
    R.Service(name, R.Settings("", R.Binary, "", "", [], "", "/health", "", [], 0, 0, ""), "localhost",
              ports, map[], R.Stopped, 0, now, now, 0, 0, 0, false, [], None, 0, None)
  }

  /** Reserving for a service that has ports: it keeps them, and has its listeners again if none of them is
      refused. */
  lemma ReserveAgain(w: World, name: string, preferred: map<string, int>, env: AllocEnv, now: int)
    requires WorldOk(w) && AllocOrders(w.reg, name, preferred, env) && ValidServiceName(name)
    requires name in w.reg.services && w.reg.services[name].stablePorts != map[]
    ensures var (v, got) := Reserve(w, name, preferred, env, now);
            && got == Ports(w.reg.services[name].stablePorts)
            && (env.existing.addressOk && env.existing.refused == {} ==> AllListening(v.prx, name, w.reg.services[name].stablePorts.Keys))
  {
    hide WorldOk, RoutesOk, X.Register, AllListening, EntryKey, XP.Sound, XP.Held;
    WorldRoutes(w);
    RecordIsColonFree(w.reg, name);
    var s := w.reg.services[name];
    RegisterStep(w.prx, name, s.stablePorts, s.bind, env.existing);
    XP.RegisterOutcome(w.prx, name, s.stablePorts, s.bind, env.existing);
  }
}
