/** Concrete states in which a failed restart does not leave the routes as they were. */
module Counterexamples {
  import opened Options
  import opened Names
  import R = RegistrySpec
  import P = ProcessSpec
  import opened RT = ReplaceProcess
  import X = ProxySpec
  import opened ServiceSpec
  import opened HotSwap
  import opened Coupling
  import opened Operations
  import opened Routes
  import opened Deployments

  const TAILNET := "100.64.0.1"
  const STABLE: map<string, int> := map["default" := 8100]
  const OLD: map<string, int> := map["default" := 50001]
  const NEW: map<string, int> := map["default" := 50002]

  function Record(status: R.Status, pid: int): R.Service {
    R.Service("web", R.Settings("1", R.Binary, "", "/bin/web", [], "", "/health", "", [], 30, 10, "never"),
              TAILNET, STABLE, OLD, status, pid, 1, 1, 1, 1, 0, false, [], None, 0, None)
  }

  function Routing(handler: X.Handler): X.Proxy {
    X.Proxy(map[EntryKey("web", "default") := X.Entry(8100, TAILNET, "default", 0, 0)],
            map["web" := 0], map[0 := 0], [X.Generation("web", map["default" := handler])],
            map[0 := EntryKey("web", "default")], 1, 1)
  }

  /** "web" runs as process 7 and is reached on port 8100. */
  const RUNNING := World(
    R.Registry(map["web" := Record(R.Running, 7)], map[]),
    P.Manager(map["web" := 0], [P.RunningProc(7, OLD, false, false)], map[],
              map[7 := P.Watcher("web", 1, 0, P.Alive, None)], [], []),
    Routing(X.Upstream(50001)), map[], [])

  /** "web" has been stopped: port 8100 answers "unavailable", the record still holds the old ports. */
  const STOPPED := World(
    R.Registry(map["web" := Record(R.Stopped, 0)], map[]),
    P.EMPTY,
    Routing(X.Unavailable), map[], [])

  function Env(healthy: bool, exit: Option<CandidateExit>, undoAddressOk: bool): LaunchEnv {
    LaunchEnv(Spawned, 8, NEW, 2, healthy, true, exit,
              X.BindEnv(true, [], {}), X.BindEnv(undoAddressOk, ["default"], {}), 2)
  }

  lemma RoutingOk(handler: X.Handler)
    ensures RoutesOk(Routing(handler))
    ensures X.CurrentHandlers(Routing(handler), "web") == map["default" := handler]
    ensures AllListening(Routing(handler), "web", {"default"})
  {
    hide EntryKey;
  }

  lemma RecordOfWeb(status: R.Status, pid: int)
    ensures RecordSane(Record(status, pid), "web")
  {
    assert "default" in STABLE;
  }

  lemma ProcessesOk()
    ensures Steady(RUNNING.mgr) && Steady(STOPPED.mgr)
  {
  }

  lemma StatesAreOk()
    ensures WorldOk(RUNNING) && Running(RUNNING, "web") && Routed(RUNNING, "web")
    ensures WorldOk(STOPPED)
  {
    hide RoutesOk, AllListening, X.CurrentHandlers, EntryKey, Steady, RecordSane;
    RoutingOk(X.Upstream(50001));
    RoutingOk(X.Unavailable);
    ProcessesOk();
    RecordOfWeb(R.Running, 7);
    RecordOfWeb(R.Stopped, 0);
    assert OLD.Keys == STABLE.Keys == {"default"};
  }

  lemma EnvOk(healthy: bool, exit: Option<CandidateExit>, undoAddressOk: bool)
    ensures RestartOk(RUNNING, "web", Env(healthy, exit, undoAddressOk))
    ensures RestartOk(STOPPED, "web", Env(healthy, exit, undoAddressOk))
  {
    assert NEW.Keys == STABLE.Keys == {"default"};
  }

  /** The candidate is swapped in, dies before it is activated, and the host's Tailscale address is
      then no longer assigned to it: the restart fails, the old process is tracked again - and port 8100 still leads to the
      dead candidate. */
  lemma RouteIsLost()
    ensures var env := Env(true, Some(CandidateExit(BeforeActivate, 1, 0)), false);
            && RestartOk(RUNNING, "web", env)
            && var (v, ok) := RestartLocked(RUNNING, "web", env);
               !ok && Running(v, "web") && WorldOk(v) && !Routed(v, "web")
  {
    var env := Env(true, Some(CandidateExit(BeforeActivate, 1, 0)), false);
    StatesAreOk();
    EnvOk(true, Some(CandidateExit(BeforeActivate, 1, 0)), false);
    hide WorldOk, RestartOk, RestartLocked, Routed, Settles, RestartLoses;
    LosesTheRoute();
    RestartRoutes(RUNNING, "web", env);
    RestartKeeps(RUNNING, "web", env);
    SettledIsOk(RUNNING, RestartLocked(RUNNING, "web", env).0, "web");
    FailsWhenLost(env);
  }

  lemma LosesTheRoute()
    ensures RestartLoses(RUNNING, "web", Env(true, Some(CandidateExit(BeforeActivate, 1, 0)), false))
  {
    hide EntryKey;
    assert "default" in STABLE;
    assert X.SwapPorts(Routing(X.Upstream(50001)), "web", NEW).1;
  }

  lemma FailsWhenLost(env: LaunchEnv)
    requires WorldOk(RUNNING) && RestartOk(RUNNING, "web", env) && RestartLoses(RUNNING, "web", env)
    ensures !RestartLocked(RUNNING, "web", env).1
  {
    hide WorldOk, Replace, NewRoutes, UndoRoutes, RoutesAtFailure, X.Register;
    RestartReady(RUNNING, "web", env);
    ReplaceProcesses(RUNNING, "web", Some(Record(R.Running, 7)), Keep, P.FAILED_CODE, 0, env);
  }

  /** Restarting the stopped service fails its health check: the port that answered "unavailable" now
      leads to the ports of a process that ended long ago. */
  lemma StoppedServiceIsMisrouted()
    ensures var env := Env(false, None, true);
            && RestartOk(STOPPED, "web", env)
            && var (v, ok) := RestartLocked(STOPPED, "web", env);
               && !ok && "web" !in v.mgr.procs
               && X.CurrentHandlers(STOPPED.prx, "web") == map["default" := X.Unavailable]
               && X.CurrentHandlers(v.prx, "web") == map["default" := X.Upstream(50001)]
  {
    hide WorldOk, RestartOk, RestartLocked, RoutesOk, X.Register, X.CurrentHandlers, Routing, AllListening, EntryKey;
    var env := Env(false, None, true);
    StatesAreOk();
    EnvOk(false, None, true);
    RoutingOk(X.Unavailable);
    UndoRegisters();
    assert STABLE.Keys == OLD.Keys == {"default"};
    RestartFails(env);
    FailedRestartOfIdle(STOPPED, "web", env);
  }

  /** The listener is already there, on the same port and address. */
  lemma UndoRegisters()
    ensures X.Register(Routing(X.Unavailable), "web", STABLE, TAILNET, X.BindEnv(true, ["default"], {})).1
  {
    hide EntryKey, X.Commit;
    var p, env := Routing(X.Unavailable), X.BindEnv(true, ["default"], {});
    assert X.RegisterTurn(p, "web", "default", 8100, TAILNET, false, []) == X.Next(p, []);
    assert X.RegisterLoop(p, "web", STABLE, TAILNET, env, 1, []) == (p, Some([]));
  }

  lemma RestartFails(env: LaunchEnv)
    requires WorldOk(STOPPED) && RestartOk(STOPPED, "web", env) && !env.healthy
    ensures !RestartLocked(STOPPED, "web", env).1 && "web" !in RestartLocked(STOPPED, "web", env).0.mgr.procs
  {
    hide WorldOk, Replace, NewRoutes, UndoRoutes, RoutesAtFailure;
    RestartReady(STOPPED, "web", env);
    ReplaceProcesses(STOPPED, "web", Some(Record(R.Stopped, 0)), Keep, P.FAILED_CODE, 0, env);
  }
}
