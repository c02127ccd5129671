/** The process manager as a state machine: one function per region the source runs under its mutex.
    `runningProc` objects live in an arena (`heap`), so that the watcher of a process, the table and a
    detached handle can share one or hold different ones. */
module ProcessSpec {
  import opened Options

  /** Life of a process and of the goroutine waiting for it: running; waited for, with the goroutine
      about to take the lock; past the locked region; finished, `done` closed. */
  datatype Phase = Alive | Reaped | Observed | Closed

  datatype Verdict = Drained | CandidateExit | Crash

  datatype Exit = Exit(verdict: Verdict, code: int)

  datatype RunningProc = RunningProc(pid: int, ports: map<string, int>, candidate: bool, exited: bool)

  /** The watcher goroutine's captured variables and what it recorded. */
  datatype Watcher = Watcher(name: string, startedAt: int, rp: nat, phase: Phase, exit: Option<Exit>)

  datatype Detached = Detached(name: string, rp: nat, pid: int, ports: map<string, int>)

  /** `signals` lists the processes sent SIGTERM, `crashes` the calls of OnCrash, both oldest first. */
  datatype Manager = Manager(
    procs: map<string, nat>,
    heap: seq<RunningProc>,
    draining: map<int, int>,
    watchers: map<int, Watcher>,
    signals: seq<int>,
    crashes: seq<int>)

  const EMPTY := Manager(map[], [], map[], map[], [], [])

  const STOPPED_CODE := 0
  const FAILED_CODE := 1

  function Start(m: Manager, name: string, candidate: bool, pid: int, ports: map<string, int>, startedAt: int): (Manager, bool) {
    if name in m.procs then (m, false)
    else
      (m.(heap := m.heap + [RunningProc(pid, ports, candidate, false)],
          procs := m.procs[name := |m.heap|],
          watchers := m.watchers[pid := Watcher(name, startedAt, |m.heap|, Alive, None)]), true)
  }

  function Activate(m: Manager, name: string): (Manager, bool) {
    if name !in m.procs || m.procs[name] >= |m.heap| then (m, false)
    else (m.(heap := m.heap[m.procs[name] := m.heap[m.procs[name]].(candidate := false)]), true)
  }

  function Pid(m: Manager, name: string): int {
    if name in m.procs && m.procs[name] < |m.heap| then m.heap[m.procs[name]].pid else 0
  }

  /** Stop (code 0) and StopFailed (code 1): forget the process, mark it, send SIGTERM. */
  function StopWith(m: Manager, name: string, code: int): (Manager, bool) {
    if name !in m.procs || m.procs[name] >= |m.heap| then (m, false)
    else
      var pid := m.heap[m.procs[name]].pid;
      (m.(procs := m.procs - {name}, draining := m.draining[pid := code], signals := m.signals + [pid]), true)
  }

  function Detach(m: Manager, name: string): (Manager, Option<Detached>) {
    if name !in m.procs || m.procs[name] >= |m.heap| then (m, None)
    else
      var rp := m.heap[m.procs[name]];
      (m.(procs := m.procs - {name}), Some(Detached(name, m.procs[name], rp.pid, rp.ports)))
  }

  /** The part of Restore before the lock: `done` still open and the PID alive. */
  predicate RestoreCheck(m: Manager, dp: Detached) {
    dp.pid in m.watchers && m.watchers[dp.pid].phase == Alive
  }

  datatype Restored = Attached | AlreadyExited | NameTaken

  /** The part of Restore under the lock. The table gets a new runningProc, while the watcher keeps
      setting `exited` on the one it was started with. */
  function RestoreAttach(m: Manager, name: string, dp: Detached): (Manager, Restored) {
    if dp.rp < |m.heap| && m.heap[dp.rp].exited then (m, AlreadyExited)
    else if dp.pid !in m.watchers || m.watchers[dp.pid].phase == Closed then (m, AlreadyExited)
    else if name in m.procs then (m, NameTaken)
    else (m.(heap := m.heap + [RunningProc(dp.pid, dp.ports, false, false)], procs := m.procs[name := |m.heap|]), Attached)
  }

  function MarkDraining(m: Manager, pid: int): Manager {
    if pid <= 0 then m else m.(draining := m.draining[pid := STOPPED_CODE])
  }

  /** DrainProc: SIGTERM to a process that is no longer tracked. */
  function Signal(m: Manager, pid: int): Manager {
    m.(signals := m.signals + [pid])
  }

  function WithPhase(m: Manager, pid: int, phase: Phase): Manager
    requires pid in m.watchers
  {
    m.(watchers := m.watchers[pid := m.watchers[pid].(phase := phase)])
  }

  /** cmd.Wait returns. */
  function Die(m: Manager, pid: int): Manager {
    if pid in m.watchers && m.watchers[pid].phase == Alive then WithPhase(m, pid, Reaped) else m
  }

  function Classify(m: Manager, pid: int, code: int): Exit
    requires pid in m.watchers
  {
    var rp := m.watchers[pid].rp;
    if pid in m.draining then Exit(Drained, m.draining[pid])
    else Exit(if rp < |m.heap| && m.heap[rp].candidate then CandidateExit else Crash, code)
  }

  /** The watcher's locked region and the verdict it acts on afterwards. */
  function Observe(m: Manager, pid: int, code: int): Manager {
    if pid in m.watchers && m.watchers[pid].phase == Reaped then
      var w := m.watchers[pid];
      var exit := Classify(m, pid, code);
      m.(heap := if w.rp < |m.heap| then m.heap[w.rp := m.heap[w.rp].(exited := true)] else m.heap,
         procs := if Pid(m, w.name) == pid then m.procs - {w.name} else m.procs,
         draining := m.draining - {pid},
         watchers := m.watchers[pid := w.(phase := Observed, exit := Some(exit))],
         crashes := if exit.verdict == Crash then m.crashes + [pid] else m.crashes)
    else m
  }

  function Close(m: Manager, pid: int): Manager {
    if pid in m.watchers && m.watchers[pid].phase == Observed then WithPhase(m, pid, Closed) else m
  }

  datatype Step =
    | DoStart(name: string, candidate: bool, pid: int, ports: map<string, int>, startedAt: int)
    | DoActivate(name: string)
    | DoStop(name: string)
    | DoStopFailed(name: string)
    | DoDetach(name: string)
    | DoRestore(name: string, dp: Detached)
    | DoMarkDraining(pid: int)
    | DoSignal(pid: int)
    | DoDie(pid: int)
    | DoObserve(pid: int, code: int)
    | DoClose(pid: int)

  function Next(m: Manager, s: Step): Manager {
    match s
    case DoStart(name, candidate, pid, ports, t) => Start(m, name, candidate, pid, ports, t).0
    case DoActivate(name) => Activate(m, name).0
    case DoStop(name) => StopWith(m, name, STOPPED_CODE).0
    case DoStopFailed(name) => StopWith(m, name, FAILED_CODE).0
    case DoDetach(name) => Detach(m, name).0
    case DoRestore(name, dp) => RestoreAttach(m, name, dp).0
    case DoMarkDraining(pid) => MarkDraining(m, pid)
    case DoSignal(pid) => Signal(m, pid)
    case DoDie(pid) => Die(m, pid)
    case DoObserve(pid, code) => Observe(m, pid, code)
    case DoClose(pid) => Close(m, pid)
  }

  function Run(m: Manager, steps: seq<Step>): Manager
    decreases |steps|
  {
    if steps == [] then m else Run(Next(m, steps[0]), steps[1..])
  }
}
