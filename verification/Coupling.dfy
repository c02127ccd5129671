/** The invariant that ties registry, process table and proxy together, and the operations that keep
    it. */
module Coupling {
  import opened Options
  import opened Names
  import R = RegistrySpec
  import P = ProcessSpec
  import PP = ProcessProofs
  import opened RT = ReplaceProcess
  import X = ProxySpec
  import XP = ProxyProofs
  import opened ServiceSpec
  import opened HotSwap

  // ---- The invariant ----

  /** The record, the process and the listeners of a service agree. */
  ghost predicate Agrees(s: R.Service, rp: P.RunningProc, p: X.Proxy, name: string) {
    && s.status == R.Running
    && s.pid == rp.pid
    && s.internalPorts == rp.ports
    && rp.ports.Keys == InternalNames(s.stablePorts)
    && s.settings.kind == R.Binary
    && AllListening(p, name, s.stablePorts.Keys)
  }

  /** Whenever a process is tracked, the registry says so. */
  ghost predicate Registered(w: World, n: string) {
    n in w.mgr.procs ==>
      && w.mgr.procs[n] < |w.mgr.heap|
      && n in w.reg.services
      && Agrees(w.reg.services[n], w.mgr.heap[w.mgr.procs[n]], w.prx, n)
  }

  /** Each of these ports has a listener, and leads to this number. */
  ghost predicate Serves(p: X.Proxy, name: string, ports: map<string, int>) {
    AllListening(p, name, ports.Keys) && WholeRoute(X.CurrentHandlers(p, name), ports)
  }

  /** Whenever a process is tracked, every named port leads to it. */
  ghost predicate Routed(w: World, n: string) {
    n in w.mgr.procs && w.mgr.procs[n] < |w.mgr.heap| ==> Serves(w.prx, n, w.mgr.heap[w.mgr.procs[n]].ports)
  }

  ghost predicate RecordSane(s: R.Service, n: string) {
    s.name == n && ColonFree(n) && s.bind != ""
  }

  ghost predicate RecordsSane(r: R.Registry) {
    forall n | n in r.services :: RecordSane(r.services[n], n)
  }

  /** Processes waiting to be drained were marked first, so their exit will not be a crash. */
  ghost predicate DrainsMarked(w: World) {
    forall i | 0 <= i < |w.drains| :: PP.Intended(w.mgr, w.drains[i])
  }

  ghost predicate WorldOk(w: World) {
    && Steady(w.mgr)
    && RoutesOk(w.prx)
    && RecordsSane(w.reg)
    && DrainsMarked(w)
    && forall n | n in w.mgr.procs :: Registered(w, n)
  }

  // ---- Other services ----

  lemma ListeningStays(p: X.Proxy, q: X.Proxy, n: string, ports: set<string>)
    requires ColonFree(n) && XP.SameService(p, q, n)
    ensures AllListening(p, n, ports) <==> AllListening(q, n, ports)
  {
  }

  lemma OthersKeep(w: World, v: World, name: string, n: string)
    requires n != name && WorldElsewhere(w, v, name) && RecordsSane(w.reg)
    ensures n in v.mgr.procs ==> n in w.mgr.procs
    ensures n in w.mgr.procs && Registered(w, n) ==> Registered(v, n)
    ensures n in w.mgr.procs && Registered(w, n) ==> (Routed(w, n) <==> Routed(v, n))
  {
    hide PP.Intended, RecordSane, X.CurrentHandlers, AllListening;
    if n in w.mgr.procs && Registered(w, n) {
      assert XP.SameService(w.prx, v.prx, n);
      RecordIsColonFree(w.reg, n);
      ListeningStays(w.prx, v.prx, n, w.mgr.heap[w.mgr.procs[n]].ports.Keys);
      ListeningStays(w.prx, v.prx, n, w.reg.services[n].stablePorts.Keys);
    }
  }

  lemma RecordIsColonFree(r: R.Registry, n: string)
    requires RecordsSane(r) && n in r.services
    ensures ColonFree(n) && r.services[n].name == n
  {
  }

  /** A step that leaves other services alone keeps the invariant if it does so for its own. */
  lemma StepKeepsWorld(w: World, v: World, name: string)
    requires WorldOk(w) && WorldElsewhere(w, v, name)
    requires Steady(v.mgr) && RoutesOk(v.prx)
    requires name in v.reg.services ==> RecordSane(v.reg.services[name], name)
    requires Registered(v, name)
    requires forall i | 0 <= i < |v.drains| :: v.drains[i] in w.drains || PP.Intended(v.mgr, v.drains[i])
    ensures WorldOk(v)
    ensures forall n | n != name && n in v.mgr.procs :: Routed(w, n) <==> Routed(v, n)
  {
    hide Steady, RoutesOk, RecordSane, Agrees, PrxElsewhere, PP.Intended, X.CurrentHandlers, Routed;
    forall n | n in v.mgr.procs ensures Registered(v, n) && (n != name ==> (Routed(w, n) <==> Routed(v, n))) {
      if n != name {
        OthersKeep(w, v, name, n);
      }
    }
    forall n | n in v.reg.services ensures RecordSane(v.reg.services[n], n) {
      if n != name {
        assert v.reg.services[n] == w.reg.services[n];
      }
    }
    forall i | 0 <= i < |v.drains| ensures PP.Intended(v.mgr, v.drains[i]) {
      if v.drains[i] in w.drains {
        var j :| 0 <= j < |w.drains| && w.drains[j] == v.drains[i];
        assert PP.Intended(w.mgr, w.drains[j]);
      }
    }
  }

  // ---- Routes across a replacement ----

  /** Each generation published in between answers the named ports wholly by the one process or wholly
      by the other. */
  ghost predicate OnlyWhole(p: X.Proxy, q: X.Proxy, name: string, before: map<string, int>, after: map<string, int>) {
    && p.published <= q.published
    && forall i | |p.published| <= i < |q.published| ::
         && q.published[i].service == name
         && (WholeRoute(q.published[i].handlers, before) || WholeRoute(q.published[i].handlers, after))
  }

  /** The new process and the old one have a port name in common. Only for a service without stable ports,
      whose process is given the name "default", can they have none. */
  ghost predicate SharesPort(rec: R.Service, env: LaunchEnv) {
    exists k :: k in rec.internalPorts && k in env.ports
  }

  ghost predicate Swapped(p: X.Proxy, name: string, listeners: Listeners, env: LaunchEnv)
    requires listeners.Reregister? ==> X.IsOrderOf(env.bind.order, listeners.ports)
  {
    LaunchWorks(env) && NewRoutes(p, name, listeners, env).1
  }

  /** The undo of a failed replacement points the old process's ports at it again. */
  ghost predicate UndoServes(p: X.Proxy, name: string, rec: R.Service, listeners: Listeners, env: LaunchEnv)
    requires listeners.Reregister? ==> X.IsOrderOf(env.bind.order, listeners.ports)
    requires X.IsOrderOf(env.undo.order, rec.stablePorts)
  {
    && X.Register(RoutesAtFailure(p, name, listeners, env), name, rec.stablePorts, rec.bind, env.undo).1
    && AllListening(p, name, rec.internalPorts.Keys)
  }

  /** The one way to lose the old route: it was replaced, the candidate then exited before activation,
      and the listeners could not be registered the way they were. */
  ghost predicate RouteLost(p: X.Proxy, name: string, rec: R.Service, listeners: Listeners, env: LaunchEnv)
    requires listeners.Reregister? ==> X.IsOrderOf(env.bind.order, listeners.ports)
    requires X.IsOrderOf(env.undo.order, rec.stablePorts)
  {
    && Swapped(p, name, listeners, env) && SharesPort(rec, env)
    && (ExitsAt(env, BeforePid) || ExitsAt(env, BeforeActivate))
    && !X.Register(NewRoutes(p, name, listeners, env).0, name, rec.stablePorts, rec.bind, env.undo).1
  }

  /** The operating system does not hand out a port the old process still listens on. */
  ghost predicate PortsDiffer(rec: R.Service, env: LaunchEnv) {
    forall k | k in rec.internalPorts && k in env.ports :: rec.internalPorts[k] != env.ports[k]
  }

  /** The listeners a replacement relies on are there. */
  ghost predicate ListenersReady(p: X.Proxy, name: string, rec: R.Service, listeners: Listeners, env: LaunchEnv) {
    && AllListening(p, name, rec.stablePorts.Keys)
    && (listeners.Reregister? ==> listeners.ports.Keys == env.ports.Keys && AllListening(p, name, env.ports.Keys))
  }

  /** Two maps over another: where each of them is whole afterwards. */
  lemma WholeAfter(h: X.Handlers, first: bool, a: map<string, int>, second: bool, b: map<string, int>)
    requires forall k | k in a && k in b :: a[k] != b[k]
    ensures var g := h + (if first then X.Upstreams(a) else map[]);
            && (first ==> WholeRoute(g, a))
            && (second ==> WholeRoute(g + X.Upstreams(b), b))
            && (WholeRoute(g, b) <==> WholeRoute(h, b) && !(first && exists k :: k in b && k in a))
  {
    var g := h + (if first then X.Upstreams(a) else map[]);
    if first && exists k :: k in b && k in a {
      var k :| k in b && k in a;
      assert g[k] == X.Upstream(a[k]) != X.Upstream(b[k]);
    }
  }

  /** What the candidate's launch and swap did to the routes of a replacement that failed. */
  lemma BeforeUndo(p: X.Proxy, name: string, rec: R.Service, listeners: Listeners, env: LaunchEnv)
    requires RoutesOk(p) && ColonFree(name)
    requires listeners.Reregister? ==> X.IsOrderOf(env.bind.order, listeners.ports)
    requires ListenersReady(p, name, rec, listeners, env)
    ensures var r := RoutesAtFailure(p, name, listeners, env);
            var swapped := Swapped(p, name, listeners, env);
            && RouteStep(p, r, name) && AllListening(r, name, rec.stablePorts.Keys)
            && (AllListening(r, name, rec.internalPorts.Keys) <==> AllListening(p, name, rec.internalPorts.Keys))
            && r.published == p.published + (if swapped then [X.Generation(name, X.CurrentHandlers(r, name))] else [])
            && X.CurrentHandlers(r, name) == X.CurrentHandlers(p, name) + (if swapped then X.Upstreams(env.ports) else map[])
  {
    hide RoutesOk, AllListening, X.CurrentHandlers, NewRoutes, PrxElsewhere, WholeRoute;
    var r := RoutesAtFailure(p, name, listeners, env);
    if LaunchWorks(env) {
      NewRoutesKeeps(p, name, listeners, env);
      NewRoutesListen(p, name, listeners, env, rec.internalPorts.Keys);
      NothingAdded(X.CurrentHandlers(p, name), X.CurrentHandlers(r, name));
      ListeningGrows(p, r, name, rec.stablePorts.Keys);
    } else {
      RouteStepReflexive(p, name);
    }
  }

  lemma NewRoutesListen(p: X.Proxy, name: string, listeners: Listeners, env: LaunchEnv, names: set<string>)
    requires RoutesOk(p) && ColonFree(name)
    requires listeners.Reregister? ==> X.IsOrderOf(env.bind.order, listeners.ports) && AllListening(p, name, listeners.ports.Keys)
    ensures AllListening(NewRoutes(p, name, listeners, env).0, name, names) <==> AllListening(p, name, names)
  {
    hide RoutesOk, X.Register, X.SwapPorts;
    if listeners.Reregister? {
      RegisterAddsNone(p, name, listeners.ports, listeners.bind, env.bind, names);
      RegisterStep(p, name, listeners.ports, listeners.bind, env.bind);
    }
    SwapStep(NewRoutesBound(p, name, listeners, env).0, name, env.ports);
  }

  /** The routes after a failed replacement, whatever they were before: the handlers, and the generations
      on the way - each wholly the new process's or wholly the old one's. */
  lemma FailureHandlers(p: X.Proxy, name: string, rec: R.Service, listeners: Listeners, env: LaunchEnv)
    requires RoutesOk(p) && ColonFree(name) && rec.settings.kind == R.Binary && rec.internalPorts != map[]
    requires listeners.Reregister? ==> X.IsOrderOf(env.bind.order, listeners.ports)
    requires X.IsOrderOf(env.undo.order, rec.stablePorts)
    requires ListenersReady(p, name, rec, listeners, env) && PortsDiffer(rec, env)
    ensures var q := UndoRoutes(RoutesAtFailure(p, name, listeners, env), name, rec, env.undo);
            && (AllListening(q, name, rec.internalPorts.Keys) <==> AllListening(p, name, rec.internalPorts.Keys))
            && X.CurrentHandlers(q, name)
                 == X.CurrentHandlers(p, name)
                    + (if Swapped(p, name, listeners, env) then X.Upstreams(env.ports) else map[])
                    + (if UndoServes(p, name, rec, listeners, env) then X.Upstreams(rec.internalPorts) else map[])
            && OnlyWhole(p, q, name, rec.internalPorts, env.ports)
  {
    hide RoutesOk, AllListening, X.CurrentHandlers, X.Register, NewRoutes, UndoRoutes, PrxElsewhere, WholeRoute, PortsDiffer, RoutesAtFailure, Swapped;
    BeforeUndo(p, name, rec, listeners, env);
    var r := RoutesAtFailure(p, name, listeners, env);
    UndoKeeps(r, name, rec, env.undo);
    UndoListens(r, name, rec, env.undo);
    WholeGenerations(X.CurrentHandlers(p, name), Swapped(p, name, listeners, env), env.ports, rec.internalPorts);
    var h := X.CurrentHandlers(UndoRoutes(r, name, rec, env.undo), name);
    NothingAdded(X.CurrentHandlers(r, name), h);
  }

  lemma UndoListens(p: X.Proxy, name: string, rec: R.Service, undo: X.BindEnv)
    requires RoutesOk(p) && ColonFree(name) && X.IsOrderOf(undo.order, rec.stablePorts) && rec.settings.kind == R.Binary
    requires AllListening(p, name, rec.stablePorts.Keys)
    ensures AllListening(UndoRoutes(p, name, rec, undo), name, rec.internalPorts.Keys) <==> AllListening(p, name, rec.internalPorts.Keys)
  {
    hide RoutesOk, X.Register, X.SwapPorts;
    RegisterAddsNone(p, name, rec.stablePorts, rec.bind, undo, rec.internalPorts.Keys);
    RegisterStep(p, name, rec.stablePorts, rec.bind, undo);
    SwapStep(X.Register(p, name, rec.stablePorts, rec.bind, undo).0, name, rec.internalPorts);
  }

  lemma WholeGenerations(h: X.Handlers, swapped: bool, a: map<string, int>, b: map<string, int>)
    ensures var g := h + (if swapped then X.Upstreams(a) else map[]);
            (swapped ==> WholeRoute(g, a)) && WholeRoute(g + X.Upstreams(b), b)
  {
  }

  /** When the old process is wholly served after a failed replacement. */
  lemma FailureServes(p: X.Proxy, name: string, rec: R.Service, listeners: Listeners, env: LaunchEnv)
    requires RoutesOk(p) && ColonFree(name) && rec.settings.kind == R.Binary && rec.internalPorts != map[]
    requires listeners.Reregister? ==> X.IsOrderOf(env.bind.order, listeners.ports)
    requires X.IsOrderOf(env.undo.order, rec.stablePorts)
    requires ListenersReady(p, name, rec, listeners, env) && PortsDiffer(rec, env)
    ensures var q := UndoRoutes(RoutesAtFailure(p, name, listeners, env), name, rec, env.undo);
            var kept := Serves(p, name, rec.internalPorts) && !(Swapped(p, name, listeners, env) && SharesPort(rec, env));
            Serves(q, name, rec.internalPorts) <==> UndoServes(p, name, rec, listeners, env) || kept
  {
    hide RoutesOk, AllListening, X.CurrentHandlers, X.Register, NewRoutes, UndoRoutes, PrxElsewhere, WholeRoute, RoutesAtFailure, Swapped, OnlyWhole, ListenersReady;
    FailureHandlers(p, name, rec, listeners, env);
    WholeAfter(X.CurrentHandlers(p, name), Swapped(p, name, listeners, env), env.ports, UndoServes(p, name, rec, listeners, env), rec.internalPorts);
    var h := X.CurrentHandlers(p, name) + (if Swapped(p, name, listeners, env) then X.Upstreams(env.ports) else map[]);
    NothingAdded(h, X.CurrentHandlers(UndoRoutes(RoutesAtFailure(p, name, listeners, env), name, rec, env.undo), name));
  }

  /** The routes after a failed replacement of a process that was served: every generation on the way was
      whole, and the old route is back exactly unless it was lost. */
  lemma FailureRoutes(p: X.Proxy, name: string, rec: R.Service, listeners: Listeners, env: LaunchEnv)
    requires RoutesOk(p) && ColonFree(name) && rec.settings.kind == R.Binary && rec.internalPorts != map[]
    requires listeners.Reregister? ==> X.IsOrderOf(env.bind.order, listeners.ports)
    requires X.IsOrderOf(env.undo.order, rec.stablePorts)
    requires ListenersReady(p, name, rec, listeners, env) && PortsDiffer(rec, env) && Serves(p, name, rec.internalPorts)
    requires !(LaunchWorks(env) && TakeOverWorks(p, name, listeners, env))
    ensures var q := UndoRoutes(RoutesAtFailure(p, name, listeners, env), name, rec, env.undo);
            && OnlyWhole(p, q, name, rec.internalPorts, env.ports)
            && (Serves(q, name, rec.internalPorts) <==> !RouteLost(p, name, rec, listeners, env))
  {
    hide RoutesOk, AllListening, X.CurrentHandlers, X.Register, NewRoutes, UndoRoutes, PrxElsewhere, WholeRoute, OnlyWhole, ListenersReady, PortsDiffer;
    FailureHandlers(p, name, rec, listeners, env);
    FailureServes(p, name, rec, listeners, env);
  }

  lemma NothingAdded(h: X.Handlers, g: X.Handlers)
    ensures g == h + map[] ==> g == h
  {
  }

  lemma ListeningGrows(p: X.Proxy, q: X.Proxy, name: string, ports: set<string>)
    requires p.entries.Keys <= q.entries.Keys
    ensures AllListening(p, name, ports) ==> AllListening(q, name, ports)
  {
  }

  lemma UndoStep(p: X.Proxy, name: string, rec: R.Service, undo: X.BindEnv)
    requires RoutesOk(p) && ColonFree(name) && X.IsOrderOf(undo.order, rec.stablePorts)
    ensures RouteStep(p, UndoRoutes(p, name, rec, undo), name)
    ensures p.entries.Keys <= UndoRoutes(p, name, rec, undo).entries.Keys
  {
    hide XP.Sound, XP.Held, X.CurrentHandlers, EntryKey, XP.SameService, X.Register, X.SwapPorts, X.SwapStatic, PrxElsewhere;
    if rec.settings.kind == R.Static {
      var (m, bound) := X.Register(p, name, rec.stablePorts, rec.bind, undo);
      RegisterStep(p, name, rec.stablePorts, rec.bind, undo);
      StaticStep(m, name, rec.settings.path);
      RouteStepTransitive(p, m, X.SwapStatic(m, name, rec.settings.path).0, name);
    } else {
      UndoKeeps(p, name, rec, undo);
    }
  }

  lemma StaticStep(p: X.Proxy, name: string, dir: string)
    requires RoutesOk(p) && ColonFree(name)
    ensures RouteStep(p, X.SwapStatic(p, name, dir).0, name)
    ensures p.entries == X.SwapStatic(p, name, dir).0.entries
  {
    XP.SwapStaticKeeps(p, name, dir);
  }

  lemma RemoveStep(p: X.Proxy, name: string)
    requires RoutesOk(p) && ColonFree(name)
    ensures RouteStep(p, X.RemovePorts(p, name), name)
    ensures var q := X.RemovePorts(p, name);
            name !in q.routes && forall k | k in q.entries :: Owner(k) != name
  {
    XP.RemovePortsExact(p, name);
    hide XP.Sound, XP.Held, X.CurrentHandlers, EntryKey, XP.SameService;
  }

  lemma UnswapStep(p: X.Proxy, name: string)
    requires RoutesOk(p) && ColonFree(name)
    ensures RouteStep(p, X.UnswapPorts(p, name), name)
    ensures p.entries == X.UnswapPorts(p, name).entries
  {
    XP.UnswapPortsExact(p, name);
    hide XP.Sound, XP.Held, X.CurrentHandlers, EntryKey, XP.SameService;
  }

  // ---- Replace keeps the invariant ----

  /** The state in which Deploy and Restart call Replace: a staged record, and - if a process runs under
      the name - a previous record that agrees with it. */
  ghost predicate ReplaceCoupled(w: World, name: string, previous: Option<R.Service>, listeners: Listeners, env: LaunchEnv) {
    && RoutesOk(w.prx) && ColonFree(name)
    && name in w.reg.services
    && RecordSane(w.reg.services[name], name)
    && w.reg.services[name].settings.kind == R.Binary
    && env.ports.Keys == InternalNames(w.reg.services[name].stablePorts)
    && (listeners.Reregister? ==> listeners.ports == w.reg.services[name].stablePorts && listeners.ports != map[])
    && (previous.Some? ==> RecordSane(previous.value, name))
    && (name in w.mgr.procs ==>
          && w.mgr.procs[name] < |w.mgr.heap|
          && previous.Some? && (previous.value.stablePorts == map[] || previous.value.stablePorts == w.reg.services[name].stablePorts)
          && Agrees(previous.value, w.mgr.heap[w.mgr.procs[name]], w.prx, name))
  }

  lemma FailedRouteStep(w: World, name: string, previous: Option<R.Service>, listeners: Listeners, verifyCode: int, env: LaunchEnv)
    requires ReplaceReady(w, name, previous, listeners, verifyCode, env) && ReplaceCoupled(w, name, previous, listeners, env)
    ensures var p := RoutesAtFailure(w.prx, name, listeners, env);
            var q := if previous.Some? then UndoRoutes(p, name, previous.value, env.undo) else X.RemovePorts(p, name);
            && RouteStep(w.prx, q, name)
            && (previous.Some? ==> w.prx.entries.Keys <= q.entries.Keys)
            && (previous.None? ==> name !in q.routes && forall k | k in q.entries :: Owner(k) != name)
  {
    hide Steady, FreshPid, NewRoutes, UndoRoutes, X.RemovePorts, XP.Sound, XP.Held, PrxElsewhere, Agrees;
    var p := RoutesAtFailure(w.prx, name, listeners, env);
    RouteStepReflexive(w.prx, name);
    NewRoutesKeeps(w.prx, name, listeners, env);
    if previous.Some? {
      UndoStep(p, name, previous.value, env.undo);
      RouteStepTransitive(w.prx, p, UndoRoutes(p, name, previous.value, env.undo), name);
    } else {
      RemoveStep(p, name);
      RouteStepTransitive(w.prx, p, X.RemovePorts(p, name), name);
    }
  }

  lemma ReplaceSucceeds(w: World, name: string, previous: Option<R.Service>, listeners: Listeners, verifyCode: int, deployedAt: int, env: LaunchEnv)
    requires ReplaceReady(w, name, previous, listeners, verifyCode, env) && ReplaceCoupled(w, name, previous, listeners, env)
    requires Replace(w, name, previous, listeners, verifyCode, deployedAt, env).1
    ensures var v := Replace(w, name, previous, listeners, verifyCode, deployedAt, env).0;
            && RouteStep(w.prx, v.prx, name)
            && name in v.reg.services && RecordSane(v.reg.services[name], name)
            && Registered(v, name) && Routed(v, name)
  {
    hide Replace, NewRoutes, UndoRoutes, RoutesAtFailure, X.RemovePorts, Steady, Elsewhere, RegElsewhere, X.CurrentHandlers, PP.Intended, FreshPid, PrxElsewhere, WholeRoute, AllListening, RecordBack, PutBack;
    var v := Replace(w, name, previous, listeners, verifyCode, deployedAt, env).0;
    ReplaceProcesses(w, name, previous, listeners, verifyCode, deployedAt, env);
    NewRoutesKeeps(w.prx, name, listeners, env);
    RunningAgrees(w, v, name, deployedAt, env);
  }

  lemma ReplaceFails(w: World, name: string, previous: Option<R.Service>, listeners: Listeners, verifyCode: int, deployedAt: int, env: LaunchEnv)
    requires ReplaceReady(w, name, previous, listeners, verifyCode, env) && ReplaceCoupled(w, name, previous, listeners, env)
    requires !Replace(w, name, previous, listeners, verifyCode, deployedAt, env).1
    ensures var v := Replace(w, name, previous, listeners, verifyCode, deployedAt, env).0;
            && RouteStep(w.prx, v.prx, name)
            && (name in v.reg.services ==> RecordSane(v.reg.services[name], name))
            && Registered(v, name)
  {
    hide Replace, NewRoutes, UndoRoutes, RoutesAtFailure, X.RemovePorts, Steady, Elsewhere, RegElsewhere, X.CurrentHandlers, PP.Intended, FreshPid, PrxElsewhere, WholeRoute, Replaced, AllListening;
    var v := Replace(w, name, previous, listeners, verifyCode, deployedAt, env).0;
    ReplaceProcesses(w, name, previous, listeners, verifyCode, deployedAt, env);
    FailedRouteStep(w, name, previous, listeners, verifyCode, env);
    if name in w.mgr.procs {
      ListeningGrows(w.prx, v.prx, name, previous.value.stablePorts.Keys);
    }
  }

  /** Whatever happens during a replacement, the process, the record and the listeners of the service
      agree afterwards, and no other service is touched. */
  lemma ReplaceKeepsWorld(w: World, name: string, previous: Option<R.Service>, listeners: Listeners, verifyCode: int, deployedAt: int, env: LaunchEnv)
    requires ReplaceReady(w, name, previous, listeners, verifyCode, env) && ReplaceCoupled(w, name, previous, listeners, env)
    ensures var (v, ok) := Replace(w, name, previous, listeners, verifyCode, deployedAt, env);
            && WorldElsewhere(w, v, name)
            && Steady(v.mgr) && RoutesOk(v.prx)
            && (name in v.reg.services ==> RecordSane(v.reg.services[name], name))
            && Registered(v, name)
            && (ok || name !in w.mgr.procs ==> Routed(v, name))
            && (v.drains == w.drains || exists pid :: v.drains == w.drains + [pid] && PP.Intended(v.mgr, pid))
  {
    hide Replace, NewRoutes, UndoRoutes, RoutesAtFailure, X.RemovePorts, Steady, Elsewhere, RegElsewhere, X.CurrentHandlers, PP.Intended, FreshPid, PrxElsewhere, WholeRoute, AllListening, RecordBack, Agrees, RecordSane, RecordRunning;
    ReplaceProcesses(w, name, previous, listeners, verifyCode, deployedAt, env);
    if Replace(w, name, previous, listeners, verifyCode, deployedAt, env).1 {
      ReplaceSucceeds(w, name, previous, listeners, verifyCode, deployedAt, env);
    } else {
      ReplaceFails(w, name, previous, listeners, verifyCode, deployedAt, env);
    }
  }

  lemma RunningAgrees(w: World, v: World, name: string, deployedAt: int, env: LaunchEnv)
    requires Replaced(w, v, name, deployedAt, env) && name in w.reg.services && RecordSane(w.reg.services[name], name)
    requires w.reg.services[name].settings.kind == R.Binary && env.ports.Keys == InternalNames(w.reg.services[name].stablePorts)
    requires AllListening(v.prx, name, env.ports.Keys)
    ensures Registered(v, name) && RecordSane(v.reg.services[name], name)
  {
  }
}
