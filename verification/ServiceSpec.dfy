/** The service layer over registry, process manager and proxy, as functions on their joint state.
    Whole operations are atomic here; what the environment decides while one runs - whether binds,
    starts and health checks succeed, which PID and ephemeral ports come back, and when the candidate
    exits - is an argument. */
module ServiceSpec {
  import opened Options
  import opened Names
  import R = RegistrySpec
  import P = ProcessSpec
  import X = ProxySpec

  const RANGE_START := 8100
  const RANGE_END := 8200
  const RESERVED_PORTS: set<int> := {7700, 7701}
  const MAX_CRASH_RESTARTS := 5

  /** `attempts` is crashAttempts; `drains` holds the replaced processes whose drain window runs. */
  datatype World = World(reg: R.Registry, mgr: P.Manager, prx: X.Proxy, attempts: map<string, int>, drains: seq<int>)

  const EMPTY := World(R.Registry(map[], map[]), P.EMPTY, X.EMPTY, map[], [])

  datatype Spawn = Spawned | NoResources | ExecFailed

  /** The points at which Deploy and Restart can notice that the candidate has exited. */
  datatype Moment = BeforeHealth | BeforeOwnership | BeforePid | BeforeActivate

  datatype CandidateExit = CandidateExit(moment: Moment, code: int, duration: int)

  datatype LaunchEnv = LaunchEnv(
    spawn: Spawn,
    pid: int,
    ports: map<string, int>,
    startedAt: int,
    healthy: bool,
    owned: bool,
    exit: Option<CandidateExit>,
    bind: X.BindEnv,
    undo: X.BindEnv,
    now: int)

  /** The names under which a process gets internal ports: those of the stable ports, or "default" if
      there are none. */
  function InternalNames(stable: map<string, int>): (names: set<string>)
    ensures names != {}
  {
    if stable == map[] then {"default"}
    else
      assert stable.Keys != {} by { assert exists k :: k in stable; }
      stable.Keys
  }

  // ---- Exits ----

  /** The watcher of `pid` from cmd.Wait to the end, without what follows a crash verdict. */
  function Reap(w: World, pid: int, code: int, duration: int, now: int): World
    requires pid in w.mgr.watchers && w.mgr.watchers[pid].phase == P.Alive
  {
    var seen := P.Observe(P.Die(w.mgr, pid), pid, code);
    var watcher := w.mgr.watchers[pid];
    var exit := P.Classify(w.mgr, pid, code);
    w.(mgr := P.Close(seen, pid),
       reg := R.CompleteStart(w.reg, watcher.name, watcher.startedAt, exit.code, duration, now).0)
  }

  /** handleCrash up to the backoff sleep; the Restart after it is an operation of its own. */
  function HandleCrash(w: World, name: string, now: int): World {
    if name !in w.reg.services || w.reg.services[name].status == R.Stopped then w
    else
      var svc := w.reg.services[name];
      var v := w.(prx := X.UnswapPorts(w.prx, name));
      var policy := if svc.settings.restartPolicy == "" then "on-watch" else svc.settings.restartPolicy;
      if policy == "never" || (policy == "on-watch" && svc.settings.watchPaths == []) then v
      else
        var attempt := if name in v.attempts then v.attempts[name] else 0;
        if attempt >= MAX_CRASH_RESTARTS then
          v.(reg := R.UpdateStatus(R.UpdateCrashState(v.reg, name, attempt, true, now).0, name, R.Failed, 0, now).0)
        else
          v.(attempts := v.attempts[name := attempt + 1],
             reg := R.UpdateCrashState(v.reg, name, attempt + 1, false, now).0)
  }

  function ProcessExits(w: World, pid: int, code: int, duration: int, now: int): World {
    if pid !in w.mgr.watchers || w.mgr.watchers[pid].phase != P.Alive then w
    else
      var name := w.mgr.watchers[pid].name;
      var v := Reap(w, pid, code, duration, now);
      if P.Classify(w.mgr, pid, code).verdict != P.Crash then v
      else HandleCrash(v.(reg := R.UpdateStatus(v.reg, name, R.Failed, 0, now).0), name, now)
  }

  // ---- Replacing the running process ----

  /** The candidate exits at this moment, if that is what the environment does. */
  function CandidateMayExit(w: World, env: LaunchEnv, moment: Moment): World {
    if env.exit.Some? && env.exit.value.moment == moment
       && env.pid in w.mgr.watchers && w.mgr.watchers[env.pid].phase == P.Alive
    then Reap(w, env.pid, env.exit.value.code, env.exit.value.duration, env.now)
    else w
  }

  /** StartCandidate: the table entry, then ports, start time and history in the registry. */
  function StartCandidate(w: World, name: string, env: LaunchEnv): (World, bool) {
    if name in w.mgr.procs then (w, false)
    else match env.spawn
      case NoResources => (w, false)
      case ExecFailed => (w.(reg := R.UpdateStatus(w.reg, name, R.Failed, 0, env.now).0), false)
      case Spawned =>
        (w.(mgr := P.Start(w.mgr, name, true, env.pid, env.ports, env.startedAt).0,
            reg := R.UpdateProcessStarted(w.reg, name, env.ports, env.startedAt, env.now).0), true)
  }

  function StopCandidate(w: World, name: string, code: int): World {
    w.(mgr := P.StopWith(w.mgr, name, code).0)
  }

  /** Start, health check, ownership check. On failure the candidate has been stopped. */
  function Launch(w: World, name: string, verifyCode: int, env: LaunchEnv): (World, bool) {
    var (v, started) := StartCandidate(w, name, env);
    if !started then (v, false)
    else
      var a := CandidateMayExit(v, env, BeforeHealth);
      if !env.healthy then (StopCandidate(a, name, P.FAILED_CODE), false)
      else
        var b := CandidateMayExit(a, env, BeforeOwnership);
        if P.Pid(b.mgr, name) <= 0 || !env.owned then (StopCandidate(b, name, verifyCode), false)
        else (b, true)
  }

  /** Deploy re-registers the listeners before the swap, Restart does not. */
  datatype Listeners = Keep | Reregister(ports: map<string, int>, bind: string)

  function Reregistered(w: World, name: string, listeners: Listeners, env: LaunchEnv): (World, bool)
    requires listeners.Reregister? ==> X.IsOrderOf(env.bind.order, listeners.ports)
  {
    match listeners
    case Keep => (w, true)
    case Reregister(ports, bind) =>
      var (p, ok) := X.Register(w.prx, name, ports, bind, env.bind);
      (w.(prx := p), ok)
  }

  /** Bind, swap the routes, activate. */
  function TakeOver(w: World, name: string, listeners: Listeners, env: LaunchEnv): (World, bool)
    requires listeners.Reregister? ==> X.IsOrderOf(env.bind.order, listeners.ports)
  {
    var (a, bound) := Reregistered(w, name, listeners, env);
    if !bound then (StopCandidate(a, name, P.FAILED_CODE), false)
    else
      var (p, swapped) := X.SwapPorts(a.prx, name, env.ports);
      if !swapped then (StopCandidate(a, name, P.FAILED_CODE), false)
      else Activated(a.(prx := p), name, env)
  }

  function Activated(w: World, name: string, env: LaunchEnv): (World, bool) {
    var b := CandidateMayExit(w, env, BeforePid);
    if P.Pid(b.mgr, name) == 0 then (b, false)
    else
      var c := CandidateMayExit(b, env, BeforeActivate);
      var (m, active) := P.Activate(c.mgr, name);
      (c.(mgr := m), active)
  }

  /** After activation: the registry says running, crash state is reset, the old process is marked and
      handed to the drain goroutine. */
  function Committed(w: World, name: string, prior: Option<P.Detached>, deployedAt: int, env: LaunchEnv): World {
    var running := R.MarkRunning(w.reg, name, env.pid, deployedAt, env.now).0;
    w.(reg := R.UpdateCrashState(running, name, 0, false, env.now).0,
       attempts := w.attempts - {name},
       mgr := if prior.Some? then P.MarkDraining(w.mgr, prior.value.pid) else w.mgr,
       drains := if prior.Some? then w.drains + [prior.value.pid] else w.drains)
  }

  function Reattached(m: P.Manager, name: string, prior: Option<P.Detached>): P.Manager {
    if prior.Some? && P.RestoreCheck(m, prior.value) then P.RestoreAttach(m, name, prior.value).0 else m
  }

  /** The previous record, with the start history of the failed attempt kept. */
  function PreviousRecord(r: R.Registry, name: string, previous: R.Service): R.Service {
    if name in r.services then
      previous.(lastStartedAt := r.services[name].lastStartedAt, startHistory := r.services[name].startHistory)
    else previous
  }

  function UndoRoutes(p: X.Proxy, name: string, previous: R.Service, undo: X.BindEnv): X.Proxy
    requires X.IsOrderOf(undo.order, previous.stablePorts)
  {
    var (q, ok) := X.Register(p, name, previous.stablePorts, previous.bind, undo);
    if !ok then q
    else if previous.settings.kind == R.Static then X.SwapStatic(q, name, previous.settings.path).0
    else if previous.internalPorts != map[] then X.SwapPorts(q, name, previous.internalPorts).0
    else q
  }

  function RestoreFailedDeploy(w: World, name: string, previous: Option<R.Service>, prior: Option<P.Detached>, undo: X.BindEnv): World
    requires previous.Some? ==> X.IsOrderOf(undo.order, previous.value.stablePorts)
  {
    var v := w.(mgr := Reattached(w.mgr, name, prior));
    match previous
    case Some(record) =>
      v.(reg := R.Restore(v.reg, PreviousRecord(v.reg, name, record).(name := name)),
         prx := UndoRoutes(v.prx, name, record, undo))
    case None =>
      v.(reg := R.Remove(v.reg, name), prx := X.RemovePorts(v.prx, name))
  }

  /** The common course of Deploy and Restart from Detach on. */
  function Replace(w: World, name: string, previous: Option<R.Service>, listeners: Listeners, verifyCode: int, deployedAt: int, env: LaunchEnv): (World, bool)
    requires listeners.Reregister? ==> X.IsOrderOf(env.bind.order, listeners.ports)
    requires previous.Some? ==> X.IsOrderOf(env.undo.order, previous.value.stablePorts)
  {
    var (m, prior) := P.Detach(w.mgr, name);
    var (a, ready) := Launch(w.(mgr := m), name, verifyCode, env);
    if !ready then (RestoreFailedDeploy(a, name, previous, prior, env.undo), false)
    else
      var (b, live) := TakeOver(a, name, listeners, env);
      if !live then (RestoreFailedDeploy(b, name, previous, prior, env.undo), false)
      else (Committed(b, name, prior, deployedAt, env), true)
  }

  // ---- Stable ports ----

  datatype AllocEnv = AllocEnv(addressOk: bool, order: seq<string>, refused: set<(string, int)>, existing: X.BindEnv)

  datatype Shortage = PortReserved | NoneFree | NameRejected

  datatype Allocated = Ports(ports: map<string, int>) | Short(why: Shortage)

  function TryBind(p: X.Proxy, name: string, portName: string, port: int, bind: string, env: AllocEnv): (X.Proxy, bool) {
    var refused: set<string> := if (portName, port) in env.refused then {portName} else {};
    X.Register(p, name, map[portName := port], bind, X.BindEnv(env.addressOk, [portName], refused))
  }

  function FirstFree(p: X.Proxy, name: string, portName: string, port: int, used: set<int>, bind: string, env: AllocEnv): (X.Proxy, Option<int>)
    decreases RANGE_END + 1 - port
  {
    if port > RANGE_END then (p, None)
    else if port in used then FirstFree(p, name, portName, port + 1, used, bind, env)
    else
      var (q, ok) := TryBind(p, name, portName, port, bind, env);
      if ok then (q, Some(port)) else FirstFree(q, name, portName, port + 1, used, bind, env)
  }

  datatype OnePort = Port(port: int) | Refused(why: Shortage)

  function AllocateOne(p: X.Proxy, name: string, portName: string, preferred: int, used: set<int>, bind: string, env: AllocEnv): (X.Proxy, OnePort) {
    if preferred in RESERVED_PORTS then (p, Refused(PortReserved))
    else
      var (q, ok) := if preferred != 0 && preferred !in used then TryBind(p, name, portName, preferred, bind, env) else (p, false);
      if ok then (q, Port(preferred))
      else
        var (r, found) := FirstFree(q, name, portName, RANGE_START, used, bind, env);
        (r, if found.Some? then Port(found.value) else Refused(NoneFree))
  }

  function AllocateLoop(p: X.Proxy, name: string, preferred: map<string, int>, used: set<int>, bind: string, env: AllocEnv,
                        i: nat, result: map<string, int>): (X.Proxy, Allocated)
    requires i <= |env.order| && forall k | k in env.order :: k in preferred
    decreases |env.order| - i
  {
    if i == |env.order| then (p, Ports(result))
    else
      var portName := env.order[i];
      var (q, one) := AllocateOne(p, name, portName, preferred[portName], used, bind, env);
      match one
      case Refused(why) => (X.RemovePorts(q, name), Short(why))
      case Port(port) => AllocateLoop(q, name, preferred, used + {port}, bind, env, i + 1, result[portName := port])
  }

  ghost predicate AllocOrders(r: R.Registry, name: string, preferred: map<string, int>, env: AllocEnv) {
    && X.IsOrderOf(env.order, preferred)
    && (name in r.services ==> X.IsOrderOf(env.existing.order, r.services[name].stablePorts))
  }

  /** Existing services keep their ports; new ones get their preference or the first free port. */
  function AllocatePorts(w: World, name: string, preferred: map<string, int>, bind: string, env: AllocEnv): (X.Proxy, Allocated)
    requires AllocOrders(w.reg, name, preferred, env)
  {
    if name in w.reg.services && w.reg.services[name].stablePorts != map[] then
      var existing := w.reg.services[name];
      (X.Register(w.prx, name, existing.stablePorts, existing.bind, env.existing).0, Ports(existing.stablePorts))
    else AllocateLoop(w.prx, name, preferred, R.UsedPorts(w.reg), bind, env, 0, map[])
  }

  // ---- Operations ----

  /** A request as Deploy sees it after validation and defaulting. */
  datatype Request = Request(name: string, settings: R.Settings, bind: string, stablePort: int, stablePorts: map<string, int>)

  function Preferred(req: Request): (ports: map<string, int>)
    ensures ports != map[]
  {
    assert "default" in map["default" := req.stablePort];
    if req.stablePorts == map[] then map["default" := req.stablePort] else req.stablePorts
  }

  function NewRecord(req: Request, ports: map<string, int>): R.Service {
    R.Service(req.name, req.settings, R.NormalBind(req.bind), ports, map[], R.Stopped, 0, 0, 0, 0, 0, 0, false, [], None, 0, None)
  }

  datatype DeployEnv = DeployEnv(accepted: bool, alloc: AllocEnv, launch: LaunchEnv, deployedAt: int)

  /** The environment's port orders are orders of the maps they are used for. */
  ghost predicate DeployOrders(w: World, req: Request, env: DeployEnv) {
    && AllocOrders(w.reg, req.name, Preferred(req), env.alloc)
    && (req.name in w.reg.services ==> X.IsOrderOf(env.launch.undo.order, w.reg.services[req.name].stablePorts))
    && (var (p, got) := AllocatePorts(w, req.name, Preferred(req), req.bind, env.alloc);
        got.Ports? ==> X.IsOrderOf(env.launch.bind.order, got.ports))
  }

  /** Deploy of a binary service. */
  function Deploy(w: World, req: Request, env: DeployEnv): (World, bool)
    requires DeployOrders(w, req, env)
  {
    if !ValidServiceName(req.name) || !env.accepted then (w, false)
    else
      var previous := R.Get(w.reg, req.name);
      var (p, got) := AllocatePorts(w, req.name, Preferred(req), req.bind, env.alloc);
      if !got.Ports? then (w.(prx := p), false)
      else
        var reg := R.Register(w.reg, NewRecord(req, got.ports), env.launch.now);
        var svc := reg.services[req.name];
        assert svc.stablePorts == got.ports;
        Replace(w.(prx := p, reg := reg), req.name, previous, Reregister(svc.stablePorts, svc.bind),
                P.STOPPED_CODE, env.deployedAt, env.launch)
  }

  /** restorePrevious without a detached process: the record is put back, the listeners stay as they
      are, and a service that was called running but has no process is marked failed. */
  function RestorePrevious(w: World, name: string, previous: Option<R.Service>, now: int): World {
    match previous
    case None =>
      w.(prx := X.UnswapPorts(w.prx, name), reg := R.UpdateStatus(w.reg, name, R.Failed, 0, now).0)
    case Some(record) =>
      var v := w.(reg := R.Restore(w.reg, PreviousRecord(w.reg, name, record).(name := name)));
      if record.status == R.Running && name !in w.mgr.procs && record.settings.kind == R.Binary then
        v.(prx := X.UnswapPorts(v.prx, name), reg := R.UpdateStatus(v.reg, name, R.Failed, 0, now).0)
      else v
  }

  /** Deploy of a directory: no process is started, and none is stopped. */
  function DeployStatic(w: World, req: Request, env: DeployEnv): (World, bool)
    requires DeployOrders(w, req, env)
  {
    if !ValidServiceName(req.name) || !env.accepted then (w, false)
    else
      var previous := R.Get(w.reg, req.name);
      var (p, got) := AllocatePorts(w, req.name, Preferred(req), req.bind, env.alloc);
      if !got.Ports? then (w.(prx := p), false)
      else
        var reg := R.Register(w.reg, NewRecord(req, got.ports), env.launch.now);
        var svc := reg.services[req.name];
        assert svc.stablePorts == got.ports;
        var (q, bound) := X.Register(p, req.name, svc.stablePorts, svc.bind, env.launch.bind);
        var v := w.(prx := q, reg := reg);
        if !bound then (RestorePrevious(v, req.name, previous, env.launch.now), false)
        else
          var (r, swapped) := X.SwapStatic(q, req.name, req.settings.path);
          if !swapped then (RestoreFailedDeploy(v, req.name, previous, None, env.launch.undo), false)
          else
            (v.(prx := r, reg := R.UpdateLastDeployed(R.UpdateStatus(reg, req.name, R.Running, 0, env.launch.now).0,
                                                      req.name, env.deployedAt, env.launch.now).0), true)
  }

  /** restartLocked. */
  function RestartLocked(w: World, name: string, env: LaunchEnv): (World, bool)
    requires name in w.reg.services ==> X.IsOrderOf(env.undo.order, w.reg.services[name].stablePorts)
  {
    if name !in w.reg.services then (w, false)
    else if w.reg.services[name].settings.kind != R.Binary then (w, true)
    else Replace(w, name, Some(w.reg.services[name]), Keep, P.FAILED_CODE, 0, env)
  }

  function Restart(w: World, name: string, env: LaunchEnv): (World, bool)
    requires name in w.reg.services ==> X.IsOrderOf(env.undo.order, w.reg.services[name].stablePorts)
  {
    if !ValidServiceName(name) then (w, false) else RestartLocked(w, name, env)
  }

  ghost predicate RollbackOrders(w: World, name: string, env: LaunchEnv) {
    name in w.reg.services ==>
      X.IsOrderOf(env.undo.order, w.reg.services[name].stablePorts) && X.IsOrderOf(env.bind.order, w.reg.services[name].stablePorts)
  }

  function StagedRollback(w: World, name: string, now: int): R.Registry
    requires name in w.reg.services && w.reg.services[name].previous.Some?
  {
    R.Register(w.reg, R.RolledBack(w.reg.services[name], w.reg.services[name].previous.value).(name := name), now)
  }

  /** Rollback; on failure the rolled-back configuration stays in the registry. */
  function Rollback(w: World, name: string, env: LaunchEnv, deployedAt: int): (World, bool)
    requires RollbackOrders(w, name, env)
  {
    if name !in w.reg.services || w.reg.services[name].previous.None? then (w, false)
    else
      var reg := StagedRollback(w, name, env.now);
      var svc := reg.services[name];
      assert svc.stablePorts == w.reg.services[name].stablePorts;
      var (p, ok) := X.Register(w.prx, name, svc.stablePorts, svc.bind, env.bind);
      var v := w.(reg := reg, prx := p);
      if !ok then (v, false)
      else if svc.settings.kind == R.Static then
        var (q, swapped) := X.SwapStatic(p, name, svc.settings.path);
        if !swapped then (v, false)
        else (v.(prx := q, reg := R.UpdateLastDeployed(R.UpdateStatus(reg, name, R.Running, 0, env.now).0, name, deployedAt, env.now).0), true)
      else
        var (u, restarted) := RestartLocked(v, name, env);
        if !restarted then (u, false)
        else (u.(reg := R.UpdateLastDeployed(u.reg, name, deployedAt, env.now).0), true)
  }

  // ---- Startup ----

  datatype Binary = Present | Missing | Unreadable

  /** `cancelled` is the context when the worker looks at it, between start and health check. */
  datatype RestoreEnv = RestoreEnv(binary: Binary, cancelled: bool, launch: LaunchEnv)

  datatype Revived = RevivedRunning | RevivedStatic | RevivedNot | RevivedOrphaned

  function CalledFailed(w: World, name: string, now: int): World {
    w.(reg := R.UpdateStatus(w.reg, name, R.Failed, 0, now).0)
  }

  /** The candidate, if it is still there, is stopped, the routes answer "unavailable". */
  function GivenUp(w: World, name: string, now: int): World {
    var v := StopCandidate(w, name, P.FAILED_CODE);
    CalledFailed(v.(prx := X.UnswapPorts(v.prx, name)), name, now)
  }

  /** One turn of RestoreAll's bind loop, before any service is brought back; the flag is "no error". */
  function BindListeners(w: World, name: string, env: X.BindEnv, now: int): (World, bool)
    requires name in w.reg.services && X.IsOrderOf(env.order, w.reg.services[name].stablePorts)
  {
    var svc := w.reg.services[name];
    if svc.stablePorts == map[] then (w, true)
    else
      var (p, ok) := X.Register(w.prx, name, svc.stablePorts, svc.bind, env);
      if ok then (w.(prx := p), true) else (CalledFailed(w.(prx := p), name, now), false)
  }

  /** restoreOne, for a service whose listeners have been bound. There is no ownership check here, and the
      registry says "running" before the candidate is activated. */
  function RestoreOne(w: World, name: string, env: RestoreEnv): (World, Revived)
    requires name in w.reg.services
  {
    var svc, now := w.reg.services[name], env.launch.now;
    if svc.settings.kind == R.Static then
      var (p, ok) := X.SwapStatic(w.prx, name, svc.settings.path);
      if !ok then (CalledFailed(w, name, now), RevivedNot)
      else (w.(prx := p, reg := R.UpdateStatus(w.reg, name, R.Running, 0, now).0), RevivedStatic)
    else if env.binary == Missing then
      (w.(reg := R.UpdateStatus(w.reg, name, R.Orphaned, 0, now).0), RevivedOrphaned)
    else if env.binary == Unreadable then (CalledFailed(w, name, now), RevivedNot)
    else
      var (a, started) := StartCandidate(w, name, env.launch);
      if !started then (CalledFailed(a, name, now), RevivedNot)
      else if env.cancelled then (CalledFailed(StopCandidate(a, name, P.FAILED_CODE), name, now), RevivedNot)
      else
        var b := CandidateMayExit(a, env.launch, BeforeHealth);
        if !env.launch.healthy then (GivenUp(b, name, now), RevivedNot)
        else
          var (p, swapped) := X.SwapPorts(b.prx, name, env.launch.ports);
          if !swapped then (GivenUp(b, name, now), RevivedNot)
          else Revive(b.(prx := p), name, env.launch)
  }

  function Revive(w: World, name: string, env: LaunchEnv): (World, Revived) {
    var c := CandidateMayExit(w, env, BeforePid);
    var pid := P.Pid(c.mgr, name);
    if pid == 0 then (GivenUp(c, name, env.now), RevivedNot)
    else
      var d := CandidateMayExit(c.(reg := R.UpdateStatus(c.reg, name, R.Running, pid, env.now).0), env, BeforeActivate);
      var (m, active) := P.Activate(d.mgr, name);
      if !active then (GivenUp(d, name, env.now), RevivedNot)
      else
        (d.(mgr := m, attempts := d.attempts - {name}, reg := R.UpdateCrashState(d.reg, name, 0, false, env.now).0), RevivedRunning)
  }

  /** Stop; `stuck` is a process that survives SIGKILL. */
  function Stop(w: World, name: string, stuck: bool, now: int): (World, bool) {
    if name !in w.reg.services then (w, false)
    else
      var (m, ok) := P.StopWith(w.mgr, name, P.STOPPED_CODE);
      var done := ok && !stuck;
      (w.(mgr := m,
          reg := if done then R.UpdateStatus(w.reg, name, R.Stopped, 0, now).0 else w.reg,
          prx := X.UnswapPorts(w.prx, name)), done)
  }

  function Remove(w: World, name: string): World {
    w.(mgr := P.StopWith(w.mgr, name, P.STOPPED_CODE).0,
       prx := X.RemovePorts(w.prx, name),
       reg := R.Remove(w.reg, name))
  }

  /** ReservePorts; Reserve is the case of the one port name "default". */
  function Reserve(w: World, name: string, preferred: map<string, int>, env: AllocEnv, now: int): (World, Allocated)
    requires AllocOrders(w.reg, name, preferred, env)
  {
    if !ValidServiceName(name) then (w, Short(NameRejected))
    else
      var (p, got) := AllocatePorts(w, name, preferred, R.DEFAULT_BIND, env);
      var v := w.(prx := p);
      if !got.Ports? || name in w.reg.services then (v, got)
      else
        var settings := R.Settings("", R.Binary, "", "", [], "", "/health", "", [], 0, 0, "");
        (v.(reg := R.Register(w.reg, NewRecord(Request(name, settings, "", 0, map[]), got.ports), now)), got)
  }

  function Archive(w: World, name: string, now: int): (World, bool) {
    var (r, ok) := R.Archive(w.reg, name, now);
    (w.(reg := r), ok)
  }

  function RestoreArchived(w: World, name: string, now: int): (World, bool) {
    var (r, ok) := R.RestoreArchived(w.reg, name, now);
    (w.(reg := r), ok)
  }

  function Prune(w: World, name: string, now: int): (World, bool) {
    if name !in w.reg.services || w.reg.services[name].status != R.Archived then (w, false)
    else
      var (r, tomb) := R.Prune(w.reg, name, now);
      (w.(prx := X.RemovePorts(w.prx, name), reg := r), tomb.Some?)
  }

  /** The drain goroutine of a replaced process wakes up and signals it. */
  function FinishDrain(w: World, i: nat): World {
    if i >= |w.drains| then w
    else w.(mgr := P.Signal(w.mgr, w.drains[i]), drains := w.drains[..i] + w.drains[i + 1..])
  }
}
