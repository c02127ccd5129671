/** The process manager object. Each method is one region under its mutex; the watcher goroutine of a
    process is the three methods ProcessDies, WatcherObserves and WatcherCloses. */
module ProcessManager {
  import opened Options
  import opened ProcessSpec

  class Supervisor {
    var procs: map<string, nat>
    var heap: seq<RunningProc>
    var draining: map<int, int>
    var watchers: map<int, Watcher>
    var signals: seq<int>
    var crashes: seq<int>

    constructor ()
      ensures State() == EMPTY && Valid()
    {
      procs, heap, draining := map[], [], map[];
      watchers, signals, crashes := map[], [], [];
    }

    function State(): Manager
      reads this
    {
      Manager(procs, heap, draining, watchers, signals, crashes)
    }

    /** Table entries and watchers point at runningProcs that exist. */
    ghost predicate Valid()
      reads this
    {
      && (forall n | n in procs :: procs[n] < |heap|)
      && (forall pid | pid in watchers :: watchers[pid].rp < |heap|)
    }

    method Start(name: string, candidate: bool, pid: int, ports: map<string, int>, startedAt: int) returns (ok: bool)
      requires Valid()
      modifies this
      ensures Valid() && (State(), ok) == ProcessSpec.Start(old(State()), name, candidate, pid, ports, startedAt)
    {
      if name in procs { return false; }
      var rp := |heap|;
      heap := heap + [RunningProc(pid, ports, candidate, false)];
      procs := procs[name := rp];
      watchers := watchers[pid := Watcher(name, startedAt, rp, Alive, None)];
      return true;
    }

    method Activate(name: string) returns (ok: bool)
      requires Valid()
      modifies `heap
      ensures Valid() && (State(), ok) == ProcessSpec.Activate(old(State()), name)
      ensures !ok ==> State() == old(State())
    {
      if name !in procs { return false; }
      heap := heap[procs[name] := heap[procs[name]].(candidate := false)];
      return true;
    }

    method Pid(name: string) returns (pid: int)
      requires Valid()
      ensures pid == ProcessSpec.Pid(State(), name)
    {
      if name in procs { pid := heap[procs[name]].pid; } else { pid := 0; }
    }

    /** Stop with code 0, StopFailed with code 1. */
    method Stop(name: string, code: int) returns (ok: bool)
      requires Valid()
      modifies `procs, `draining, `signals
      ensures Valid() && (State(), ok) == StopWith(old(State()), name, code)
    {
      if name !in procs { return false; }
      var pid := heap[procs[name]].pid;
      procs := procs - {name};
      draining := draining[pid := code];
      signals := signals + [pid];
      return true;
    }

    method Detach(name: string) returns (dp: Option<Detached>)
      requires Valid()
      modifies `procs
      ensures Valid() && (State(), dp) == ProcessSpec.Detach(old(State()), name)
    {
      if name !in procs { return None; }
      var rp := procs[name];
      procs := procs - {name};
      return Some(Detached(name, rp, heap[rp].pid, heap[rp].ports));
    }

    /** Both checks for a closed `done`, the one for the exited flag between them, and the re-attachment
        through a new runningProc. Without the lock only the first check runs. */
    method Restore(name: string, dp: Detached) returns (ok: bool)
      requires Valid()
      modifies `procs, `heap
      ensures Valid()
      ensures State() == if RestoreCheck(old(State()), dp) then RestoreAttach(old(State()), name, dp).0 else old(State())
      ensures ok <==> RestoreCheck(old(State()), dp) && RestoreAttach(old(State()), name, dp).1 == Attached
    {
      if dp.pid !in watchers || watchers[dp.pid].phase != Alive { return false; }
      if dp.rp < |heap| && heap[dp.rp].exited { return false; }
      if watchers[dp.pid].phase == Closed { return false; }
      if name in procs { return false; }
      procs := procs[name := |heap|];
      heap := heap + [RunningProc(dp.pid, dp.ports, false, false)];
      return true;
    }

    method MarkDraining(pid: int)
      requires Valid()
      modifies `draining
      ensures Valid() && State() == ProcessSpec.MarkDraining(old(State()), pid)
    {
      if pid <= 0 { return; }
      draining := draining[pid := STOPPED_CODE];
    }

    method Drain(pid: int)
      requires Valid()
      modifies `signals
      ensures Valid() && State() == Signal(old(State()), pid)
    {
      signals := signals + [pid];
    }

    method ProcessDies(pid: int)
      requires Valid()
      modifies `watchers
      ensures Valid() && State() == Die(old(State()), pid)
    {
      if pid in watchers && watchers[pid].phase == Alive {
        watchers := watchers[pid := watchers[pid].(phase := Reaped)];
      }
    }

    /** The locked region: flag the runningProc, free the table entry if it is still this process's, use
        up the mark, and decide what the exit was. */
    method WatcherObserves(pid: int, code: int) returns (exit: Exit)
      requires Valid() && pid in watchers && watchers[pid].phase == Reaped
      modifies this
      ensures Valid() && State() == Observe(old(State()), pid, code)
      ensures exit == Classify(old(State()), pid, code)
    {
      var w := watchers[pid];
      heap := heap[w.rp := heap[w.rp].(exited := true)];
      if w.name in procs && heap[procs[w.name]].pid == pid {
        procs := procs - {w.name};
      }
      var exitCode := code;
      var isDraining := pid in draining;
      if isDraining { exitCode := draining[pid]; }
      var isCandidate := heap[w.rp].candidate;
      draining := draining - {pid};
      if isDraining {
        exit := Exit(Drained, exitCode);
      } else if isCandidate {
        exit := Exit(CandidateExit, exitCode);
      } else {
        exit := Exit(Crash, exitCode);
        crashes := crashes + [pid];
      }
      watchers := watchers[pid := w.(phase := Observed, exit := Some(exit))];
    }

    method WatcherCloses(pid: int)
      requires Valid()
      modifies `watchers
      ensures Valid() && State() == Close(old(State()), pid)
    {
      if pid in watchers && watchers[pid].phase == Observed {
        watchers := watchers[pid := watchers[pid].(phase := Closed)];
      }
    }
  }
}
