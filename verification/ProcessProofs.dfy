/** Exits under every interleaving: each is classified once, stops are never crashes, and an exited
    process is not tracked again. */
module ProcessProofs {
  import opened Options
  import opened ProcessSpec

  /** A handle that Detach can have produced. */
  ghost predicate Genuine(m: Manager, dp: Detached) {
    && dp.rp < |m.heap| && m.heap[dp.rp].pid == dp.pid
    && dp.pid in m.watchers && m.watchers[dp.pid].name == dp.name
  }

  /** The handle holds the very runningProc the watcher was started with. */
  ghost predicate Original(m: Manager, dp: Detached) {
    Genuine(m, dp) && m.watchers[dp.pid].rp == dp.rp
  }

  /** What the environment guarantees (a started process has a PID of its own) and what the service
      layer does (it restores only handles from Detach, under the name they came from). */
  ghost predicate Legal(m: Manager, s: Step) {
    match s
    case DoStart(name, candidate, pid, ports, t) => pid > 0 && pid !in m.watchers && pid !in m.draining
    case DoRestore(name, dp) => Genuine(m, dp) && name == dp.name
    case DoMarkDraining(pid) => pid in m.watchers
    case _ => true
  }

  ghost predicate LegalRun(m: Manager, steps: seq<Step>)
    decreases |steps|
  {
    steps == [] || (Legal(m, steps[0]) && LegalRun(Next(m, steps[0]), steps[1..]))
  }

  ghost predicate Exited(w: Watcher) {
    w.phase == Observed || w.phase == Closed
  }

  ghost predicate Tracks(m: Manager, name: string, pid: int) {
    name in m.procs && m.procs[name] < |m.heap| && m.heap[m.procs[name]].pid == pid
  }

  /** Tracked processes are started and carry the right name. */
  ghost predicate TableKnown(m: Manager) {
    forall n | n in m.procs ::
      && m.procs[n] < |m.heap|
      && m.heap[m.procs[n]].pid in m.watchers
      && m.watchers[m.heap[m.procs[n]].pid].name == n
  }

  /** And they have not been observed to exit. */
  ghost predicate TableLive(m: Manager) {
    forall n | n in m.procs ::
      && m.procs[n] < |m.heap|
      && m.heap[m.procs[n]].pid in m.watchers
      && m.watchers[m.heap[m.procs[n]].pid].name == n
      && !Exited(m.watchers[m.heap[m.procs[n]].pid])
  }

  ghost predicate WatchersSound(m: Manager) {
    forall pid | pid in m.watchers ::
      && pid > 0
      && m.watchers[pid].rp < |m.heap|
      && m.heap[m.watchers[pid].rp].pid == pid
      && (m.heap[m.watchers[pid].rp].exited <==> Exited(m.watchers[pid]))
      && (m.watchers[pid].exit.Some? <==> Exited(m.watchers[pid]))
  }

  ghost predicate DrainingSound(m: Manager) {
    forall pid | pid in m.draining :: pid in m.watchers && (m.draining[pid] == STOPPED_CODE || m.draining[pid] == FAILED_CODE)
  }

  /** OnCrash has been called once for each crash verdict, and for nothing else. */
  ghost predicate CrashesExact(m: Manager) {
    && (forall i, j | 0 <= i < j < |m.crashes| :: m.crashes[i] != m.crashes[j])
    && (forall pid :: pid in m.crashes <==> pid in m.watchers && m.watchers[pid].exit.Some? && m.watchers[pid].exit.value.verdict == Crash)
  }

  /** What every interleaving keeps. */
  ghost predicate Sound(m: Manager) {
    TableKnown(m) && WatchersSound(m) && DrainingSound(m) && CrashesExact(m)
  }

  /** And what holds besides as long as no process is re-attached after its exit. */
  ghost predicate Inv(m: Manager) {
    TableLive(m) && WatchersSound(m) && DrainingSound(m) && CrashesExact(m)
  }

  lemma InvIsSound(m: Manager)
    requires Inv(m)
    ensures Sound(m)
  {
  }

  /** The locked part of Restore re-attaches a process whose exit has been observed. */
  ghost predicate Revives(m: Manager, s: Step) {
    && s.DoRestore?
    && s.dp.rp < |m.heap| && !m.heap[s.dp.rp].exited
    && s.dp.pid in m.watchers && m.watchers[s.dp.pid].phase == Observed
    && s.name !in m.procs
  }

  lemma NextKeepsKnown(m: Manager, s: Step)
    requires TableKnown(m) && Legal(m, s)
    ensures TableKnown(Next(m, s))
  {
    if s.DoObserve? {
      ObserveKeepsKnown(m, s.pid, s.code);
    }
  }

  lemma ObserveKeepsKnown(m: Manager, pid: int, code: int)
    requires TableKnown(m)
    ensures TableKnown(Observe(m, pid, code))
  {
  }

  lemma NextKeepsWatchers(m: Manager, s: Step)
    requires WatchersSound(m) && TableKnown(m) && Legal(m, s)
    ensures WatchersSound(Next(m, s))
  {
  }

  lemma NextKeepsDraining(m: Manager, s: Step)
    requires DrainingSound(m) && TableKnown(m) && Legal(m, s)
    ensures DrainingSound(Next(m, s))
  {
  }

  lemma NextKeepsCrashes(m: Manager, s: Step)
    requires Sound(m) && Legal(m, s)
    ensures CrashesExact(Next(m, s))
  {
    hide TableKnown, DrainingSound;
  }

  lemma NextKeepsSound(m: Manager, s: Step)
    requires Sound(m) && Legal(m, s)
    ensures Sound(Next(m, s))
  {
    NextKeepsKnown(m, s);
    NextKeepsWatchers(m, s);
    NextKeepsDraining(m, s);
    NextKeepsCrashes(m, s);
  }

  /** A step leaves a process tracked that has been seen to exit, if and only if it is such a restore. */
  lemma LiveExactly(m: Manager, s: Step)
    requires Inv(m) && Legal(m, s)
    ensures TableLive(Next(m, s)) <==> !Revives(m, s)
  {
    hide CrashesExact, DrainingSound;
    match s
    case DoRestore(name, dp) => RestoreLiveExactly(m, dp);
    case DoObserve(pid, code) => ObserveKeepsLive(m, pid, code);
    case DoStart(_, _, _, _, _) => StartKeepsLive(m, s);
    case _ => OthersKeepLive(m, s);
  }

  lemma RestoreLiveExactly(m: Manager, dp: Detached)
    requires TableLive(m) && Genuine(m, dp)
    ensures TableLive(RestoreAttach(m, dp.name, dp).0) <==> !Revives(m, DoRestore(dp.name, dp))
  {
    var q := RestoreAttach(m, dp.name, dp).0;
    if Revives(m, DoRestore(dp.name, dp)) {
      assert dp.name in q.procs && Exited(q.watchers[q.heap[q.procs[dp.name]].pid]);
    }
  }

  lemma ObserveKeepsLive(m: Manager, pid: int, code: int)
    requires TableLive(m) && WatchersSound(m)
    ensures TableLive(Observe(m, pid, code))
  {
  }

  lemma StartKeepsLive(m: Manager, s: Step)
    requires TableLive(m) && WatchersSound(m) && s.DoStart? && Legal(m, s)
    ensures TableLive(Next(m, s))
  {
  }

  lemma OthersKeepLive(m: Manager, s: Step)
    requires TableLive(m) && WatchersSound(m) && !s.DoRestore? && !s.DoObserve? && !s.DoStart?
    ensures TableLive(Next(m, s))
  {
  }

  lemma NextKeepsInv(m: Manager, s: Step)
    requires Inv(m) && Legal(m, s) && !Revives(m, s)
    ensures Inv(Next(m, s))
  {
    LiveExactly(m, s);
    NextKeepsSound(m, s);
  }

  /** Over every interleaving: tracked processes are known under their names, each exit has one verdict,
      and OnCrash was called exactly once for each exit classified as a crash. */
  lemma {:induction false} RunKeepsSound(m: Manager, steps: seq<Step>)
    requires Sound(m) && LegalRun(m, steps)
    ensures Sound(Run(m, steps))
    decreases |steps|
  {
    if steps != [] {
      NextKeepsSound(m, steps[0]);
      hide Sound, Legal, Next;
      RunKeepsSound(Next(m, steps[0]), steps[1..]);
    }
  }

  ghost predicate LiveThroughout(m: Manager, steps: seq<Step>)
    decreases |steps|
  {
    TableLive(m) && (steps == [] || LiveThroughout(Next(m, steps[0]), steps[1..]))
  }

  ghost predicate NoRevival(m: Manager, steps: seq<Step>)
    decreases |steps|
  {
    steps == [] || (!Revives(m, steps[0]) && NoRevival(Next(m, steps[0]), steps[1..]))
  }

  /** Nothing tracked has been seen to exit, at any point of the run, if and only if no step of it is a
      restore that revives. */
  lemma {:induction false} RunIsLiveExactly(m: Manager, steps: seq<Step>)
    requires Inv(m) && LegalRun(m, steps)
    ensures LiveThroughout(m, steps) <==> NoRevival(m, steps)
    ensures NoRevival(m, steps) ==> Inv(Run(m, steps))
    decreases |steps|
  {
    if steps != [] {
      InvIsSound(m);
      LiveExactly(m, steps[0]);
      if Revives(m, steps[0]) {
        assert !LiveThroughout(Next(m, steps[0]), steps[1..]);
      } else {
        NextKeepsInv(m, steps[0]);
        hide Legal, Next, Revives;
        RunIsLiveExactly(Next(m, steps[0]), steps[1..]);
      }
    }
  }

  /** What one exit does: it is a drain exactly when the process was marked, otherwise a candidate exit
      or a crash; it frees the table entry of this process only, so a successor under the same name
      stays, and it uses up the mark. */
  lemma ObserveExact(m: Manager, pid: int, code: int)
    requires Sound(m) && pid in m.watchers && m.watchers[pid].phase == Reaped
    ensures var q := Observe(m, pid, code);
            var w := m.watchers[pid];
            && q.watchers[pid].exit == Some(
                 if pid in m.draining then Exit(Drained, m.draining[pid])
                 else if m.heap[w.rp].candidate then Exit(CandidateExit, code)
                 else Exit(Crash, code))
            && q.crashes == m.crashes + (if pid !in m.draining && !m.heap[w.rp].candidate then [pid] else [])
            && (forall n, other | other != pid :: Tracks(q, n, other) <==> Tracks(m, n, other))
            && (forall n :: !Tracks(q, n, pid))
            && q.draining == m.draining - {pid}
  {
    hide CrashesExact, DrainingSound;
    var q := Observe(m, pid, code);
    forall n, other | other != pid ensures Tracks(q, n, other) <==> Tracks(m, n, other) {
      if n == m.watchers[pid].name && Tracks(m, n, other) {
        assert n in q.procs;
      }
    }
  }

  /** A recorded exit never changes. */
  lemma {:induction false} ExitRecordedOnce(m: Manager, steps: seq<Step>, pid: int)
    requires Sound(m) && LegalRun(m, steps)
    requires pid in m.watchers && m.watchers[pid].exit.Some?
    ensures pid in Run(m, steps).watchers && Run(m, steps).watchers[pid].exit == m.watchers[pid].exit
    decreases |steps|
  {
    if steps != [] {
      NextKeepsSound(m, steps[0]);
      ExitKept(m, steps[0], pid);
      hide Sound, Legal, Next;
      ExitRecordedOnce(Next(m, steps[0]), steps[1..], pid);
    }
  }

  lemma ExitKept(m: Manager, s: Step, pid: int)
    requires Sound(m) && Legal(m, s)
    requires pid in m.watchers && m.watchers[pid].exit.Some?
    ensures pid in Next(m, s).watchers && Next(m, s).watchers[pid].exit == m.watchers[pid].exit
  {
    hide TableKnown, DrainingSound, CrashesExact;
  }

  /** Marked as an intended exit, or already recorded as one with code 0 or 1. */
  ghost predicate Intended(m: Manager, pid: int) {
    && pid in m.watchers
    && (match m.watchers[pid].exit
        case None => pid in m.draining
        case Some(e) => e.verdict == Drained && (e.code == STOPPED_CODE || e.code == FAILED_CODE))
  }

  lemma IntendedKept(m: Manager, s: Step, pid: int)
    requires Sound(m) && Legal(m, s) && Intended(m, pid)
    ensures Intended(Next(m, s), pid)
  {
    hide TableKnown, CrashesExact;
  }

  lemma {:induction false} IntendedForever(m: Manager, steps: seq<Step>, pid: int)
    requires Sound(m) && LegalRun(m, steps) && Intended(m, pid)
    ensures Intended(Run(m, steps), pid) && Sound(Run(m, steps))
    decreases |steps|
  {
    if steps != [] {
      NextKeepsSound(m, steps[0]);
      IntendedKept(m, steps[0], pid);
      hide Sound, Legal, Next, Intended;
      IntendedForever(Next(m, steps[0]), steps[1..], pid);
    }
  }

  /** Stop and StopFailed never make a crash, however the exit, further stops, restores and restarts
      interleave afterwards: a process not yet seen to exit is never reported as one and its exit is
      recorded as 0 or 1; one re-attached after its exit keeps the record it has. */
  lemma StoppedNeverCrashes(m: Manager, name: string, code: int, steps: seq<Step>)
    requires Sound(m) && name in m.procs && (code == STOPPED_CODE || code == FAILED_CODE)
    requires LegalRun(StopWith(m, name, code).0, steps)
    ensures var pid := Pid(m, name);
            var q := Run(StopWith(m, name, code).0, steps);
            && pid in m.watchers && pid in q.watchers
            && (pid in q.crashes <==> pid in m.crashes)
            && (!Exited(m.watchers[pid]) ==>
                  && pid !in q.crashes
                  && (q.watchers[pid].exit.Some? ==> q.watchers[pid].exit.value in {Exit(Drained, STOPPED_CODE), Exit(Drained, FAILED_CODE)}))
            && (Exited(m.watchers[pid]) ==> q.watchers[pid].exit == m.watchers[pid].exit)
  {
    var s := if code == STOPPED_CODE then DoStop(name) else DoStopFailed(name);
    var pid := Pid(m, name);
    NextKeepsSound(m, s);
    RunKeepsSound(Next(m, s), steps);
    if Exited(m.watchers[pid]) {
      ExitRecordedOnce(Next(m, s), steps, pid);
    } else {
      IntendedForever(Next(m, s), steps, pid);
    }
  }

  /** With StopFailed the recorded code is 1 unless the process is marked again before it exits. */
  lemma StopFailedRecordsOne(m: Manager, name: string, code: int)
    requires Sound(m) && name in m.procs && !Exited(m.watchers[Pid(m, name)])
    ensures var pid := Pid(m, name);
            var q := Observe(Die(StopWith(m, name, FAILED_CODE).0, pid), pid, code);
            q.watchers[pid].exit == Some(Exit(Drained, FAILED_CODE))
  {
  }

  /** What is recorded when a marked process exits, if it is not marked again before: 0 after Stop and after
      MarkDraining, 1 after StopFailed - whatever code it exits with. */
  lemma MarkRecords(m: Manager, name: string, pid: int, code: int)
    requires Sound(m)
    requires pid in m.watchers && !Exited(m.watchers[pid])
    ensures Observe(Die(MarkDraining(m, pid), pid), pid, code).watchers[pid].exit == Some(Exit(Drained, 0))
    ensures name in m.procs && Pid(m, name) == pid ==>
              && Observe(Die(Next(m, DoStop(name)), pid), pid, code).watchers[pid].exit == Some(Exit(Drained, 0))
              && Observe(Die(Next(m, DoStopFailed(name)), pid), pid, code).watchers[pid].exit == Some(Exit(Drained, 1))
  {
    hide CrashesExact, DrainingSound;
    MarkedExit(MarkDraining(m, pid), pid, code);
    MarkedExit(Next(m, DoStop(name)), pid, code);
    MarkedExit(Next(m, DoStopFailed(name)), pid, code);
  }

  lemma MarkedExit(m: Manager, pid: int, code: int)
    ensures pid in m.watchers && !Exited(m.watchers[pid]) && pid in m.draining ==>
              Observe(Die(m, pid), pid, code).watchers[pid].exit == Some(Exit(Drained, m.draining[pid]))
  {
  }

  // ---- Signals ----

  /** Who is sent SIGTERM in a step: what Stop and StopFailed find under the name, and who is drained. */
  function SignalsOf(m: Manager, s: Step): seq<int> {
    match s
    case DoStop(name) => TrackedUnder(m, name)
    case DoStopFailed(name) => TrackedUnder(m, name)
    case DoSignal(pid) => [pid]
    case _ => []
  }

  function TrackedUnder(m: Manager, name: string): seq<int> {
    if name in m.procs && m.procs[name] < |m.heap| then [m.heap[m.procs[name]].pid] else []
  }

  function AllSignals(m: Manager, steps: seq<Step>): seq<int>
    decreases |steps|
  {
    if steps == [] then [] else SignalsOf(m, steps[0]) + AllSignals(Next(m, steps[0]), steps[1..])
  }

  /** Over every interleaving: exactly these are signalled, in this order, and none twice for one step. */
  lemma {:induction false} RunSignals(m: Manager, steps: seq<Step>)
    ensures Run(m, steps).signals == m.signals + AllSignals(m, steps)
    decreases |steps|
  {
    if steps != [] {
      RunSignals(Next(m, steps[0]), steps[1..]);
      assert m.signals + (SignalsOf(m, steps[0]) + AllSignals(Next(m, steps[0]), steps[1..]))
          == m.signals + SignalsOf(m, steps[0]) + AllSignals(Next(m, steps[0]), steps[1..]);
    } else {
      assert m.signals + [] == m.signals;
    }
  }

  /** Whatever interleaves: every process that Stop or StopFailed was called for has been signalled. */
  lemma {:induction false} StoppedIsSignalled(m: Manager, steps: seq<Step>, i: nat)
    requires Sound(m) && LegalRun(m, steps) && i < |steps| && (steps[i].DoStop? || steps[i].DoStopFailed?)
    ensures var before := Run(m, steps[..i]);
            steps[i].name in before.procs ==> Pid(before, steps[i].name) > 0 && Pid(before, steps[i].name) in Run(m, steps).signals
    decreases |steps|
  {
    hide WatchersSound, DrainingSound, CrashesExact, Next;
    RunSignals(m, steps);
    if i == 0 {
      assert steps[..0] == [];
      StopSignals(m, steps[0]);
    } else {
      NextKeepsSound(m, steps[0]);
      StoppedIsSignalled(Next(m, steps[0]), steps[1..], i - 1);
      assert steps[1..][..i - 1] == steps[..i][1..] && steps[1..][i - 1] == steps[i];
    }
  }

  lemma StopSignals(m: Manager, s: Step)
    requires Sound(m) && (s.DoStop? || s.DoStopFailed?)
    ensures s.name in m.procs ==> Pid(m, s.name) > 0 && SignalsOf(m, s) == [Pid(m, s.name)]
  {
    hide DrainingSound, CrashesExact;
  }

  // ---- Detach and Restore ----

  /** Handles stay genuine and original while the world moves on. */
  lemma HandleKept(m: Manager, s: Step, dp: Detached)
    requires Sound(m) && Legal(m, s) && Genuine(m, dp)
    ensures Genuine(Next(m, s), dp) && (Original(m, dp) ==> Original(Next(m, s), dp))
  {
    hide TableKnown, DrainingSound, CrashesExact;
  }

  lemma {:induction false} OriginalKept(m: Manager, steps: seq<Step>, dp: Detached)
    requires Sound(m) && LegalRun(m, steps) && Original(m, dp)
    ensures Original(Run(m, steps), dp) && Sound(Run(m, steps))
    decreases |steps|
  {
    if steps != [] {
      NextKeepsSound(m, steps[0]);
      HandleKept(m, steps[0], dp);
      hide Sound, Legal, Next, Original, Genuine;
      OriginalKept(Next(m, steps[0]), steps[1..], dp);
    }
  }

  /** Detach on the entry a process was started with, anything at all, then Restore: the process is
      re-attached only if its exit has not been observed. The check before the lock is not needed. */
  lemma RestoreNeverRevives(m: Manager, name: string, steps: seq<Step>)
    requires Sound(m) && Detach(m, name).1.Some? && Original(m, Detach(m, name).1.value)
    requires LegalRun(Detach(m, name).0, steps)
    ensures var dp := Detach(m, name).1.value;
            var q := Run(Detach(m, name).0, steps);
            var (r, outcome) := RestoreAttach(q, name, dp);
            && Sound(r) && !Revives(q, DoRestore(name, dp))
            && (outcome == Attached ==> !Exited(q.watchers[dp.pid]) && Tracks(r, name, dp.pid))
            && (outcome != Attached ==> r == q)
            && (outcome == NameTaken ==> name in q.procs)
  {
    var dp := Detach(m, name).1.value;
    NextKeepsSound(m, DoDetach(name));
    HandleKept(m, DoDetach(name), dp);
    OriginalKept(Next(m, DoDetach(name)), steps, dp);
    NextKeepsSound(Run(Detach(m, name).0, steps), DoRestore(name, dp));
  }

  /** For any handle: exactly when the locked part re-attaches a process already seen to exit. */
  lemma RestoreRevivesExactly(m: Manager, dp: Detached)
    requires Sound(m) && Genuine(m, dp)
    ensures RestoreAttach(m, dp.name, dp).1 == Attached && Exited(m.watchers[dp.pid]) <==> Revives(m, DoRestore(dp.name, dp))
    ensures RestoreAttach(m, dp.name, dp).1 == Attached && Exited(m.watchers[dp.pid]) ==> !Original(m, dp)
  {
  }

  /** A service that survived one failed replacement (its process was detached and restored) and is
      detached again for the next one. */
  function SecondDetach(): (Manager, Option<Detached>) {
    var one := Detach(Start(EMPTY, "web", false, 7, map["default" := 5000], 1).0, "web");
    if one.1.None? then one
    else Detach(RestoreAttach(one.0, "web", one.1.value).0, "web")
  }

  /** Such a handle exists: the second detach goes through a runningProc whose flag no watcher sets.
      The check before the lock passes, the process dies in between, and it is re-attached although its
      crash has been reported; nothing removes that entry again. Once `done` is closed it is refused. */
  lemma RestoreCanRevive()
    ensures var (m, handle) := SecondDetach();
            && handle.Some? && RestoreCheck(m, handle.value)
            && (var seen := Observe(Die(m, 7), 7, 1);
                var (q, outcome) := RestoreAttach(seen, "web", handle.value);
                && seen.crashes == [7]
                && Genuine(seen, handle.value) && Revives(seen, DoRestore("web", handle.value))
                && outcome == Attached && Exited(q.watchers[7]) && Tracks(Close(q, 7), "web", 7)
                && RestoreAttach(Close(seen, 7), "web", handle.value).1 == AlreadyExited)
  {
  }

  /** Steps that do not intend the end of `pid`. */
  ghost predicate Spares(m: Manager, s: Step, pid: int) {
    match s
    case DoStop(name) => !Tracks(m, name, pid)
    case DoStopFailed(name) => !Tracks(m, name, pid)
    case DoMarkDraining(p) => p != pid
    case _ => true
  }

  ghost predicate SparingRun(m: Manager, steps: seq<Step>, pid: int)
    decreases |steps|
  {
    steps == [] || (Spares(m, steps[0], pid) && SparingRun(Next(m, steps[0]), steps[1..], pid))
  }

  /** Not marked and active: if it exits now, that is a crash. */
  ghost predicate Active(m: Manager, pid: int) {
    && pid in m.watchers && m.watchers[pid].rp < |m.heap|
    && (match m.watchers[pid].exit
        case None => pid !in m.draining && !m.heap[m.watchers[pid].rp].candidate
        case Some(e) => e.verdict == Crash)
  }

  lemma ActiveKept(m: Manager, s: Step, pid: int)
    requires Sound(m) && Legal(m, s) && Spares(m, s, pid) && Active(m, pid)
    ensures Active(Next(m, s), pid)
  {
    hide DrainingSound, CrashesExact;
  }

  /** An active process - in particular one re-attached by Restore - that nobody stops or drains ends
      in a crash report, however its exit interleaves with everything else; and it has left the table
      then, unless a restore revives. */
  lemma {:induction false} ActiveExitIsCrash(m: Manager, steps: seq<Step>, pid: int)
    requires Sound(m) && LegalRun(m, steps) && SparingRun(m, steps, pid) && Active(m, pid)
    ensures var q := Run(m, steps);
            && Sound(q) && Active(q, pid)
            && (Exited(q.watchers[pid]) ==> pid in q.crashes)
            && (Inv(m) && NoRevival(m, steps) && Exited(q.watchers[pid]) ==> forall n :: !Tracks(q, n, pid))
    decreases |steps|
  {
    if steps != [] {
      NextKeepsSound(m, steps[0]);
      ActiveKept(m, steps[0], pid);
      if Inv(m) && !Revives(m, steps[0]) {
        NextKeepsInv(m, steps[0]);
      }
      hide Inv, Sound, Legal, Next, Active, Spares, Exited, Tracks, Revives;
      ActiveExitIsCrash(Next(m, steps[0]), steps[1..], pid);
    }
  }

  lemma RestoredStaysActive(m: Manager, dp: Detached)
    requires Sound(m) && Original(m, dp) && !m.heap[dp.rp].candidate && dp.pid !in m.draining
    requires RestoreAttach(m, dp.name, dp).1 == Attached
    ensures var q := RestoreAttach(m, dp.name, dp).0;
            Sound(q) && (Inv(m) ==> Inv(q)) && Active(q, dp.pid) && Tracks(q, dp.name, dp.pid)
  {
    NextKeepsSound(m, DoRestore(dp.name, dp));
    if Inv(m) {
      NextKeepsInv(m, DoRestore(dp.name, dp));
    }
  }
}
