/** Start history of the registry, and what its snapshots hold. */
module RegistryProofs {
  import opened Options
  import opened RegistrySpec

  // ---- Bounded start history ----

  datatype HistoryOp = Started(startedAt: int) | Ended(startedAt: int, exitCode: int, duration: int)

  function Bounded(history: seq<StartEvent>, op: HistoryOp): seq<StartEvent> {
    match op
    case Started(t) => Appended(history, StartEvent(t, STILL_RUNNING, 0))
    case Ended(t, code, d) => Completed(history, t, code, d)
  }

  /** The log the bounded history is a window of. */
  function Unbounded(log: seq<StartEvent>, op: HistoryOp): seq<StartEvent> {
    match op
    case Started(t) => log + [StartEvent(t, STILL_RUNNING, 0)]
    case Ended(t, code, d) => Completed(log, t, code, d)
  }

  function BoundedRun(history: seq<StartEvent>, ops: seq<HistoryOp>): seq<StartEvent>
    decreases |ops|
  {
    if ops == [] then history else BoundedRun(Bounded(history, ops[0]), ops[1..])
  }

  function UnboundedRun(log: seq<StartEvent>, ops: seq<HistoryOp>): seq<StartEvent>
    decreases |ops|
  {
    if ops == [] then log else UnboundedRun(Unbounded(log, ops[0]), ops[1..])
  }

  function LastTen(log: seq<StartEvent>): seq<StartEvent> {
    if |log| > 10 then log[|log| - 10..] else log
  }

  lemma LastStartOfSuffix(log: seq<StartEvent>, k: nat, t: int)
    requires k <= |log|
    ensures LastStart(log[k..], t) == if LastStart(log, t) >= k then LastStart(log, t) - k else -1
  {
    var i, j := LastStart(log, t), LastStart(log[k..], t);
    if j >= 0 {
      assert log[k..][j] == log[k + j];
    }
    if i >= k {
      assert log[k..][i - k] == log[i];
    }
  }

  lemma AppendKeepsWindow(log: seq<StartEvent>, e: StartEvent)
    ensures Appended(LastTen(log), e) == LastTen(log + [e])
  {
    if |log| >= MAX_HISTORY {
      var w, all := LastTen(log) + [e], log + [e];
      assert w[|w| - MAX_HISTORY..] == all[|all| - MAX_HISTORY..];
    }
  }

  lemma WindowStep(log: seq<StartEvent>, op: HistoryOp)
    ensures Bounded(LastTen(log), op) == LastTen(Unbounded(log, op))
  {
    match op
    case Started(t) => AppendKeepsWindow(log, StartEvent(t, STILL_RUNNING, 0));
    case Ended(t, code, d) => CompleteKeepsWindow(log, t, code, d);
  }

  lemma CompleteKeepsWindow(log: seq<StartEvent>, t: int, code: int, d: int)
    ensures Completed(LastTen(log), t, code, d) == LastTen(Completed(log, t, code, d))
  {
    hide LastStart;
    if |log| > MAX_HISTORY {
      var k := |log| - MAX_HISTORY;
      LastStartOfSuffix(log, k, t);
      var i := LastStart(log, t);
      if i >= 0 {
        UpdatedSuffix(log, k, i, StartEvent(t, code, d));
      }
    }
  }

  lemma UpdatedSuffix(log: seq<StartEvent>, k: nat, i: nat, e: StartEvent)
    requires k <= |log| && i < |log|
    ensures log[i := e][k..] == if i >= k then log[k..][i - k := e] else log[k..]
  {
  }

  /** Whatever starts and exits are recorded, in whatever order, the stored history is the last ten
      entries (or all, if fewer) of the log that is never trimmed. */
  lemma {:induction false} HistoryIsWindow(log: seq<StartEvent>, ops: seq<HistoryOp>)
    ensures BoundedRun(LastTen(log), ops) == LastTen(UnboundedRun(log, ops))
    ensures |BoundedRun(LastTen(log), ops)| <= 10
    decreases |ops|
  {
    if ops != [] {
      WindowStep(log, ops[0]);
      HistoryIsWindow(Unbounded(log, ops[0]), ops[1..]);
    }
  }

  ghost predicate DistinctStarts(history: seq<StartEvent>) {
    forall i, j | 0 <= i < j < |history| :: history[i].startedAt != history[j].startedAt
  }

  /** With distinct start times an exit fills in its own entry and no other. */
  lemma CompletionTouchesOwn(history: seq<StartEvent>, k: nat, exitCode: int, duration: int)
    requires DistinctStarts(history) && k < |history|
    ensures Completed(history, history[k].startedAt, exitCode, duration)
         == history[k := StartEvent(history[k].startedAt, exitCode, duration)]
    ensures DistinctStarts(Completed(history, history[k].startedAt, exitCode, duration))
  {
    assert LastStart(history, history[k].startedAt) == k;
  }

  // ---- Register ----

  /** What the registry knows of a service as it runs, as opposed to how it was deployed. */
  ghost predicate SameRunningState(s: Service, t: Service) {
    && t.status == s.status && t.pid == s.pid && t.internalPorts == s.internalPorts
    && t.lastStartedAt == s.lastStartedAt && t.startHistory == s.startHistory
    && t.crashAttempts == s.crashAttempts && t.gaveUp == s.gaveUp
    && t.deployedAt == s.deployedAt && t.lastDeployedAt == s.lastDeployedAt
  }

  /** The first address given. */
  ghost predicate BoundTo(bind: string, asked: string, before: string) {
    bind == if asked != "" then asked else if before != "" then before else "localhost"
  }

  /** Registering over a record changes how the service is deployed and not how it runs; its ports stay once
      it has any, and what was deployed before can be rolled back to. No other record is touched. */
  lemma RegisterExact(r: Registry, s: Service, now: int)
    ensures var q := Register(r, s, now);
            && q.tombstones == r.tombstones && q.services.Keys == r.services.Keys + {s.name}
            && (forall n | n in r.services && n != s.name :: q.services[n] == r.services[n])
            && var t := q.services[s.name];
               && t.settings == s.settings && t.updatedAt == now
               && t.archivedAt == s.archivedAt && t.archivedFrom == s.archivedFrom
               && (if s.name in r.services then
                     var e := r.services[s.name];
                     && SameRunningState(e, t)
                     && t.stablePorts == (if e.stablePorts != map[] then e.stablePorts else s.stablePorts)
                     && BoundTo(t.bind, s.bind, e.bind)
                     && t.previous == (if s.previous.Some? then s.previous else Some(Snapshot(e.settings, e.bind, e.stablePorts, e.deployedAt)))
                   else
                     && SameRunningState(s.(deployedAt := now), t)
                     && t.stablePorts == s.stablePorts && BoundTo(t.bind, s.bind, "") && t.previous == s.previous)
  {
  }

  // ---- Rollback ----

  /** A snapshot taken by Register from a record whose ports were assigned. */
  ghost predicate SnapshotCurrent(s: Service) {
    && s.bind != ""
    && s.previous.Some?
    && s.previous.value.bind != ""
    && s.previous.value.stablePorts == s.stablePorts
    && s.previous.value.deployedAt == s.deployedAt
  }

  /** The records Register writes over a deployed one keep their snapshot current. */
  lemma RegisterKeepsSnapshotCurrent(r: Registry, s: Service, now: int)
    requires s.name in r.services && r.services[s.name].bind != "" && r.services[s.name].stablePorts != map[]
    requires s.previous.None?
    ensures SnapshotCurrent(Register(r, s, now).services[s.name])
  {
  }

  // ---- What the setters leave alone ----

  /** The same services, each with the same deployment: configuration, ports, deploy time and snapshot. */
  ghost predicate SameDeployments(r: Registry, q: Registry) {
    && r.tombstones == q.tombstones && r.services.Keys == q.services.Keys
    && forall n | n in r.services ::
         TakeSnapshot(q.services[n]) == TakeSnapshot(r.services[n]) && q.services[n].previous == r.services[n].previous
  }

  /** Starting, running, crashing and exiting are recorded without touching any deployment. */
  lemma RunningStateKeepsDeployments(r: Registry, name: string, status: Status, pid: int, ports: map<string, int>, startedAt: int, code: int, duration: int, attempts: int, gaveUp: bool, t: int, now: int)
    ensures SameDeployments(r, UpdateStatus(r, name, status, pid, now).0)
    ensures SameDeployments(r, UpdateProcessStarted(r, name, ports, startedAt, now).0)
    ensures SameDeployments(r, MarkRunning(r, name, pid, t, now).0)
    ensures SameDeployments(r, CompleteStart(r, name, startedAt, code, duration, now).0)
    ensures SameDeployments(r, UpdateCrashState(r, name, attempts, gaveUp, now).0)
    ensures SameDeployments(r, UpdateLastDeployed(r, name, t, now).0)
  {
    hide Completed, Appended, SameDeployments;
    NothingKeepsDeployments(r);
    if name in r.services {
      var s := r.services[name];
      PutKeepsDeployments(r, name, s.(status := status, pid := pid, updatedAt := now));
      PutKeepsDeployments(r, name, UpdateProcessStarted(r, name, ports, startedAt, now).0.services[name]);
      PutKeepsDeployments(r, name, MarkRunning(r, name, pid, t, now).0.services[name]);
      PutKeepsDeployments(r, name, CompleteStart(r, name, startedAt, code, duration, now).0.services[name]);
      PutKeepsDeployments(r, name, s.(crashAttempts := attempts, gaveUp := gaveUp, updatedAt := now));
      PutKeepsDeployments(r, name, s.(lastDeployedAt := t, updatedAt := now));
    }
  }

  lemma NothingKeepsDeployments(r: Registry)
    ensures SameDeployments(r, r)
  {
  }

  lemma PutKeepsDeployments(r: Registry, name: string, s: Service)
    requires name in r.services && TakeSnapshot(s) == TakeSnapshot(r.services[name]) && s.previous == r.services[name].previous
    ensures SameDeployments(r, r.(services := r.services[name := s]))
  {
  }

  /** Archiving and bringing back: the record is as it was, but stopped and without a PID. */
  lemma ArchiveRoundTrip(r: Registry, name: string, now: int, later: int)
    requires name in r.services && r.services[name].status != Archived && r.services[name].status != Running
    ensures Archive(r, name, now).1 && RestoreArchived(Archive(r, name, now).0, name, later).1
    ensures RestoreArchived(Archive(r, name, now).0, name, later).0
         == r.(services := r.services[name := r.services[name].(status := Stopped, pid := 0, archivedFrom := None, archivedAt := 0, updatedAt := later)])
  {
    var s := r.services[name];
    var a := s.(archivedFrom := Some(s.status), status := Archived, archivedAt := now, pid := 0, updatedAt := now);
    assert Archive(r, name, now).0.services == r.services[name := a];
    assert r.services[name := a][name := a.(status := Stopped, archivedFrom := None, archivedAt := 0, updatedAt := later)]
        == r.services[name := s.(status := Stopped, pid := 0, archivedFrom := None, archivedAt := 0, updatedAt := later)];
  }

  /** Restoring a record puts back the deployment that Register staged over. */
  lemma RestoreUndoesRegister(r: Registry, s: Service, now: int)
    requires s.name in r.services && r.services[s.name].name == s.name
    ensures Restore(Register(r, s, now), r.services[s.name]) == r
  {
    assert Restore(Register(r, s, now), r.services[s.name]).services == r.services;
  }

  /** A removed service is gone without a trace, a pruned one leaves its ports in a tombstone. */
  lemma RemoveAndPruneExact(r: Registry, name: string, now: int)
    requires name in r.services && r.services[name].status == Archived
    ensures Remove(r, name).services == Prune(r, name, now).0.services && name !in Remove(r, name).services
    ensures Remove(r, name).tombstones == r.tombstones
    ensures Prune(r, name, now).1.Some? && name in Prune(r, name, now).0.tombstones
    ensures Prune(r, name, now).0.tombstones[name].stablePorts == r.services[name].stablePorts
  {
  }
}
