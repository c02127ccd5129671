/** The service registry as functions on its table. Records never alias (Get and Register clone), so
    they are values; time stamps are integers and 0 is the zero time. */
module RegistrySpec {
  import opened Options

  datatype ServiceType = Binary | Static

  datatype Status = Running | Stopped | Failed | Orphaned | Archived

  /** exitCode is -1 while the process runs. */
  datatype StartEvent = StartEvent(startedAt: int, exitCode: int, duration: int)

  /** The fields only a deployment sets, which Snapshot and Rollback copy as they are. */
  datatype Settings = Settings(
    version: string,
    kind: ServiceType,
    configPath: string,
    path: string,
    args: seq<string>,
    envFile: string,
    healthCheck: string,
    healthCheckPort: string,
    watchPaths: seq<string>,
    drainWindow: int,
    healthCheckTimeout: int,
    restartPolicy: string)

  datatype Snapshot = Snapshot(settings: Settings, bind: string, stablePorts: map<string, int>, deployedAt: int)

  datatype Service = Service(
    name: string,
    settings: Settings,
    bind: string,
    stablePorts: map<string, int>,
    internalPorts: map<string, int>,
    status: Status,
    pid: int,
    deployedAt: int,
    updatedAt: int,
    lastDeployedAt: int,
    lastStartedAt: int,
    crashAttempts: int,
    gaveUp: bool,
    startHistory: seq<StartEvent>,
    previous: Option<Snapshot>,
    archivedAt: int,
    archivedFrom: Option<Status>)

  datatype Tombstone = Tombstone(name: string, archivedAt: int, prunedAt: int, stablePorts: map<string, int>)

  datatype Registry = Registry(services: map<string, Service>, tombstones: map<string, Tombstone>)

  const DEFAULT_BIND := "localhost"
  const MAX_HISTORY := 10
  const STILL_RUNNING := -1

  function Get(r: Registry, name: string): Option<Service> {
    if name in r.services then Some(r.services[name]) else None
  }

  function Put(r: Registry, s: Service): Registry {
    r.(services := r.services[s.name := s])
  }

  function TakeSnapshot(s: Service): Snapshot {
    Snapshot(s.settings, s.bind, s.stablePorts, s.deployedAt)
  }

  function NormalBind(bind: string): string {
    if bind == "" then DEFAULT_BIND else bind
  }

  /** What Register stores: a new configuration on top of the running state of the existing record. */
  function Staged(existing: Option<Service>, s: Service, now: int): Service {
    match existing
    case None => s.(deployedAt := now, bind := NormalBind(s.bind), updatedAt := now)
    case Some(e) =>
      s.(stablePorts := if e.stablePorts != map[] then e.stablePorts else s.stablePorts,
         internalPorts := e.internalPorts,
         status := e.status,
         pid := e.pid,
         lastStartedAt := e.lastStartedAt,
         startHistory := e.startHistory,
         crashAttempts := e.crashAttempts,
         gaveUp := e.gaveUp,
         lastDeployedAt := e.lastDeployedAt,
         bind := NormalBind(if s.bind == "" then e.bind else s.bind),
         deployedAt := e.deployedAt,
         previous := if s.previous.None? then Some(TakeSnapshot(e)) else s.previous,
         updatedAt := now)
  }

  function Register(r: Registry, s: Service, now: int): Registry {
    Put(r, Staged(Get(r, s.name), s, now))
  }

  /** Replaces the record as a whole. */
  function Restore(r: Registry, s: Service): Registry {
    Put(r, s)
  }

  function UpdateStatus(r: Registry, name: string, status: Status, pid: int, now: int): (Registry, bool) {
    if name !in r.services then (r, false)
    else if r.services[name].status == status && r.services[name].pid == pid then (r, true)
    else (r.(services := r.services[name := r.services[name].(status := status, pid := pid, updatedAt := now)]), true)
  }

  function UpdateLastDeployed(r: Registry, name: string, t: int, now: int): (Registry, bool) {
    if name !in r.services then (r, false)
    else (r.(services := r.services[name := r.services[name].(lastDeployedAt := t, updatedAt := now)]), true)
  }

  function UpdateCrashState(r: Registry, name: string, attempts: int, gaveUp: bool, now: int): (Registry, bool) {
    if name !in r.services then (r, false)
    else (r.(services := r.services[name := r.services[name].(crashAttempts := attempts, gaveUp := gaveUp, updatedAt := now)]), true)
  }

  /** append, then keep the last ten. */
  function Appended(history: seq<StartEvent>, e: StartEvent): seq<StartEvent> {
    var all := history + [e];
    if |all| > MAX_HISTORY then all[|all| - MAX_HISTORY..] else all
  }

  function UpdateProcessStarted(r: Registry, name: string, ports: map<string, int>, startedAt: int, now: int): (Registry, bool) {
    if name !in r.services then (r, false)
    else
      var s := r.services[name];
      (r.(services := r.services[name := s.(
         internalPorts := ports,
         lastStartedAt := startedAt,
         startHistory := Appended(s.startHistory, StartEvent(startedAt, STILL_RUNNING, 0)),
         updatedAt := now)]), true)
  }

  function MarkRunning(r: Registry, name: string, pid: int, lastDeployedAt: int, now: int): (Registry, bool) {
    if name !in r.services then (r, false)
    else
      var s := r.services[name];
      (r.(services := r.services[name := s.(
         status := Running,
         pid := pid,
         lastDeployedAt := if lastDeployedAt != 0 then lastDeployedAt else s.lastDeployedAt,
         crashAttempts := 0,
         gaveUp := false,
         updatedAt := now)]), true)
  }

  /** Index of the last entry with that start time, or -1: the scan runs backwards. */
  function LastStart(history: seq<StartEvent>, startedAt: int): (i: int)
    ensures -1 <= i < |history|
    ensures i >= 0 ==> history[i].startedAt == startedAt
    ensures forall j | i < j < |history| :: history[j].startedAt != startedAt
  {
    if history == [] then -1
    else if history[|history| - 1].startedAt == startedAt then |history| - 1
    else LastStart(history[..|history| - 1], startedAt)
  }

  function Completed(history: seq<StartEvent>, startedAt: int, exitCode: int, duration: int): seq<StartEvent> {
    var i := LastStart(history, startedAt);
    if i < 0 then history else history[i := StartEvent(startedAt, exitCode, duration)]
  }

  function CompleteStart(r: Registry, name: string, startedAt: int, exitCode: int, duration: int, now: int): (Registry, bool) {
    if name !in r.services || LastStart(r.services[name].startHistory, startedAt) < 0 then (r, false)
    else
      var s := r.services[name];
      (r.(services := r.services[name := s.(
         startHistory := Completed(s.startHistory, startedAt, exitCode, duration), updatedAt := now)]), true)
  }

  function Archive(r: Registry, name: string, now: int): (Registry, bool) {
    if name !in r.services || r.services[name].status in {Archived, Running} then (r, false)
    else
      var s := r.services[name];
      (r.(services := r.services[name := s.(
         archivedFrom := Some(s.status), status := Archived, archivedAt := now, pid := 0, updatedAt := now)]), true)
  }

  function RestoreArchived(r: Registry, name: string, now: int): (Registry, bool) {
    if name !in r.services || r.services[name].status != Archived then (r, false)
    else
      (r.(services := r.services[name := r.services[name].(
         status := Stopped, archivedFrom := None, archivedAt := 0, updatedAt := now)]), true)
  }

  function Prune(r: Registry, name: string, now: int): (Registry, Option<Tombstone>) {
    if name !in r.services || r.services[name].status != Archived then (r, None)
    else
      var s := r.services[name];
      var tomb := Tombstone(name, s.archivedAt, now, s.stablePorts);
      (Registry(r.services - {name}, r.tombstones[name := tomb]), Some(tomb))
  }

  function Remove(r: Registry, name: string): Registry {
    r.(services := r.services - {name})
  }

  /** Every non-zero stable port of every record, archived ones included. */
  function UsedPorts(r: Registry): set<int> {
    set n, k | n in r.services && k in r.services[n].stablePorts && r.services[n].stablePorts[k] != 0 :: r.services[n].stablePorts[k]
  }

  /** The record Rollback registers: the snapshot's configuration, the current ports, and a snapshot of
      what it replaces. */
  function RolledBack(current: Service, prev: Snapshot): Service {
    Service(current.name, prev.settings,
            if prev.bind != "" then prev.bind else current.bind,
            current.stablePorts, map[], Stopped, 0, current.deployedAt, 0, 0, 0, 0, false, [],
            Some(TakeSnapshot(current)), 0, None)
  }
}
