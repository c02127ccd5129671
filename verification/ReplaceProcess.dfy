/** The process table while a replacement is under way: the detached process stays restorable, the
    candidate is the only thing under the name, and no other service notices. */
module ReplaceProcess {
  import opened Options
  import opened ProcessSpec
  import opened ProcessProofs

  /** No exit is half way through its watcher. */
  ghost predicate Quiet(m: Manager) {
    && Inv(m)
    && (forall pid | pid in m.watchers :: m.watchers[pid].phase == Alive || m.watchers[pid].phase == Closed)
    && (forall n | n in m.procs :: !m.heap[m.procs[n]].exited)
  }

  /** Between operations: whatever is tracked is active and not marked. */
  ghost predicate Steady(m: Manager) {
    && Quiet(m) && Accounted(m, None)
    && (forall n | n in m.procs :: !m.heap[m.procs[n]].candidate && m.heap[m.procs[n]].pid !in m.draining)
  }

  /** Other names keep their processes, and exits that were intended stay intended. */
  ghost predicate Elsewhere(m: Manager, q: Manager, name: string) {
    && (forall n | n != name && (n in m.procs || n in q.procs) ::
          && n in m.procs && n in q.procs && q.procs[n] == m.procs[n]
          && m.procs[n] < |m.heap| && m.procs[n] < |q.heap| && q.heap[m.procs[n]] == m.heap[m.procs[n]]
          && (m.heap[m.procs[n]].pid in q.draining <==> m.heap[m.procs[n]].pid in m.draining))
    && (forall pid | Intended(m, pid) :: Intended(q, pid))
  }

  /** Every live process is tracked under its name, or marked, or the one being replaced. */
  ghost predicate Accounted(m: Manager, prior: Option<Detached>) {
    forall pid | pid in m.watchers && m.watchers[pid].phase == Alive ::
      Tracks(m, m.watchers[pid].name, pid) || pid in m.draining || (prior.Some? && pid == prior.value.pid)
  }

  lemma IntendedKeptAll(m: Manager, s: Step)
    requires Inv(m) && Legal(m, s)
    ensures forall pid | Intended(m, pid) :: Intended(Next(m, s), pid)
  {
    hide Inv, Sound, Legal, Next, Intended;
    InvIsSound(m);
    forall pid | Intended(m, pid) ensures Intended(Next(m, s), pid) {
      IntendedKept(m, s, pid);
    }
  }

  /** The detached process can still be put back. */
  ghost predicate Waiting(m: Manager, prior: Option<Detached>) {
    prior.Some? ==>
      && Genuine(m, prior.value)
      && m.watchers[prior.value.pid].phase == Alive
      && !m.heap[prior.value.rp].exited
      && prior.value.pid !in m.draining
  }

  /** Whatever is tracked under the name is the candidate. */
  ghost predicate OnlyCandidate(m: Manager, name: string, pid: int, ports: map<string, int>, candidate: bool) {
    name in m.procs ==> m.procs[name] < |m.heap| && m.heap[m.procs[name]] == RunningProc(pid, ports, candidate, false) && pid !in m.draining
  }

  ghost predicate FreshPid(m: Manager, pid: int) {
    pid > 0 && pid !in m.watchers
  }

  function ExitNow(m: Manager, pid: int, code: int): Manager {
    Close(Observe(Die(m, pid), pid, code), pid)
  }

  lemma DetachWaits(m: Manager, name: string)
    requires Steady(m)
    ensures var (q, prior) := Detach(m, name);
            && Quiet(q) && Accounted(q, prior) && Elsewhere(m, q, name) && Waiting(q, prior)
            && name !in q.procs && q.signals == m.signals && q.watchers == m.watchers
            && (prior.Some? <==> name in m.procs)
            && (prior.Some? ==> prior.value == Detached(name, m.procs[name], m.heap[m.procs[name]].pid, m.heap[m.procs[name]].ports))
  {
    hide CrashesExact, DrainingSound, Intended;
    NextKeepsInv(m, DoDetach(name));
    IntendedKeptAll(m, DoDetach(name));
  }

  lemma StartWaits(m: Manager, name: string, pid: int, ports: map<string, int>, t: int, prior: Option<Detached>)
    requires Quiet(m) && Waiting(m, prior) && name !in m.procs && FreshPid(m, pid)
    ensures var q := Start(m, name, true, pid, ports, t).0;
            && Quiet(q) && Elsewhere(m, q, name) && Waiting(q, prior)
            && name in q.procs && OnlyCandidate(q, name, pid, ports, true)
            && pid in q.watchers && q.watchers[pid] == Watcher(name, t, |m.heap|, Alive, None)
            && q.signals == m.signals
  {
    StartQuiet(m, name, pid, ports, t);
    StartElsewhere(m, name, pid, ports, t);
    hide CrashesExact, Quiet, Elsewhere;
  }

  lemma StartQuiet(m: Manager, name: string, pid: int, ports: map<string, int>, t: int)
    requires Quiet(m) && name !in m.procs && FreshPid(m, pid)
    ensures Quiet(Start(m, name, true, pid, ports, t).0)
  {
    NextKeepsInv(m, DoStart(name, true, pid, ports, t));
    hide CrashesExact, DrainingSound, WatchersSound;
  }

  lemma StartElsewhere(m: Manager, name: string, pid: int, ports: map<string, int>, t: int)
    requires Inv(m) && name !in m.procs && FreshPid(m, pid)
    ensures Elsewhere(m, Start(m, name, true, pid, ports, t).0, name)
  {
    IntendedKeptAll(m, DoStart(name, true, pid, ports, t));
    hide CrashesExact, WatchersSound, Intended, DrainingSound;
  }

  lemma ExitNowInv(m: Manager, pid: int, code: int)
    requires Inv(m)
    ensures Inv(ExitNow(m, pid, code))
  {
    NextKeepsInv(m, DoDie(pid));
    NextKeepsInv(Next(m, DoDie(pid)), DoObserve(pid, code));
    NextKeepsInv(Next(Next(m, DoDie(pid)), DoObserve(pid, code)), DoClose(pid));
  }

  lemma ExitNowShape(m: Manager, pid: int, code: int)
    requires WatchersSound(m) && pid in m.watchers && m.watchers[pid].phase == Alive
    ensures var q := ExitNow(m, pid, code);
            var w := m.watchers[pid];
            && q.procs == (if Pid(m, w.name) == pid then m.procs - {w.name} else m.procs)
            && q.signals == m.signals
            && q.heap == m.heap[w.rp := m.heap[w.rp].(exited := true)]
            && q.draining == m.draining - {pid}
            && q.watchers == m.watchers[pid := w.(phase := Closed, exit := Some(Classify(m, pid, code)))]
  {
  }

  lemma ExitNowQuiet(m: Manager, pid: int, code: int)
    requires Quiet(m) && pid in m.watchers && m.watchers[pid].phase == Alive
    ensures Quiet(ExitNow(m, pid, code))
  {
    ExitNowInv(m, pid, code);
    ExitNowShape(m, pid, code);
    hide ExitNow, CrashesExact, DrainingSound, Classify;
  }

  lemma ExitNowElsewhere(m: Manager, pid: int, code: int)
    requires Quiet(m) && pid in m.watchers && m.watchers[pid].phase == Alive
    ensures Elsewhere(m, ExitNow(m, pid, code), m.watchers[pid].name)
  {
    ExitNowShape(m, pid, code);
    ExitNowIntended(m, pid, code);
    hide ExitNow, CrashesExact, DrainingSound, Classify, Intended;
  }

  lemma ExitNowIntended(m: Manager, pid: int, code: int)
    requires Inv(m)
    ensures forall p | Intended(m, p) :: Intended(ExitNow(m, pid, code), p)
  {
    hide Inv, Intended, Die, Observe, Close;
    NextKeepsInv(m, DoDie(pid));
    NextKeepsInv(Next(m, DoDie(pid)), DoObserve(pid, code));
    IntendedKeptAll(m, DoDie(pid));
    IntendedKeptAll(Next(m, DoDie(pid)), DoObserve(pid, code));
    IntendedKeptAll(Next(Next(m, DoDie(pid)), DoObserve(pid, code)), DoClose(pid));
  }

  /** An exit frees the entry under the process's name if that entry holds the process. */
  lemma ExitNowExact(m: Manager, name: string, pid: int, code: int)
    requires Quiet(m) && pid in m.watchers && m.watchers[pid].phase == Alive && m.watchers[pid].name == name
    ensures var q := ExitNow(m, pid, code);
            && Quiet(q) && Elsewhere(m, q, name)
            && q.procs == (if Pid(m, name) == pid then m.procs - {name} else m.procs)
            && q.signals == m.signals && |q.heap| == |m.heap|
            && (forall i | 0 <= i < |m.heap| :: q.heap[i].pid == m.heap[i].pid && q.heap[i].ports == m.heap[i].ports && q.heap[i].candidate == m.heap[i].candidate
                  && (m.heap[i].pid != pid ==> q.heap[i] == m.heap[i]))
            && q.draining == m.draining - {pid}
            && q.watchers.Keys == m.watchers.Keys
            && q.watchers[pid].phase == Closed
            && (forall other | other in m.watchers && other != pid :: q.watchers[other] == m.watchers[other])
  {
    hide ExitNow, CrashesExact, DrainingSound, TableLive, Elsewhere, Classify;
    ExitNowQuiet(m, pid, code);
    ExitNowElsewhere(m, pid, code);
    ExitNowShape(m, pid, code);
    hide Quiet, WatchersSound;
  }

  lemma ExitWaits(m: Manager, name: string, pid: int, ports: map<string, int>, code: int, prior: Option<Detached>)
    requires Quiet(m) && Waiting(m, prior) && OnlyCandidate(m, name, pid, ports, true)
    requires pid in m.watchers && m.watchers[pid].phase == Alive && m.watchers[pid].name == name
    requires prior.Some? ==> prior.value.pid != pid
    ensures var q := ExitNow(m, pid, code);
            Quiet(q) && Elsewhere(m, q, name) && Waiting(q, prior) && name !in q.procs && q.signals == m.signals
  {
    ExitNowExact(m, name, pid, code);
    hide Inv, Quiet, ExitNow, Elsewhere;
  }

  lemma StopWaits(m: Manager, name: string, pid: int, ports: map<string, int>, code: int, prior: Option<Detached>)
    requires Quiet(m) && Waiting(m, prior) && OnlyCandidate(m, name, pid, ports, true)
    requires code == STOPPED_CODE || code == FAILED_CODE
    requires prior.Some? ==> prior.value.pid != pid
    ensures var q := StopWith(m, name, code).0;
            && Quiet(q) && Elsewhere(m, q, name) && Waiting(q, prior) && name !in q.procs
            && q.signals == m.signals + (if name in m.procs then [pid] else [])
  {
    StopQuiet(m, name, code);
    QuietIsInv(m);
    StopElsewhere(m, name, code);
    hide Inv, Quiet, Elsewhere;
  }

  lemma StopQuiet(m: Manager, name: string, code: int)
    requires Quiet(m) && (code == STOPPED_CODE || code == FAILED_CODE)
    ensures Quiet(StopWith(m, name, code).0)
  {
    NextKeepsInv(m, if code == STOPPED_CODE then DoStop(name) else DoStopFailed(name));
    hide CrashesExact, DrainingSound, WatchersSound;
  }

  lemma StopElsewhere(m: Manager, name: string, code: int)
    requires Inv(m) && (code == STOPPED_CODE || code == FAILED_CODE)
    ensures Elsewhere(m, StopWith(m, name, code).0, name)
  {
    StopIntended(m, name, code);
    StopTable(m, name, code);
    hide Inv, Intended, StopWith;
  }

  lemma StopIntended(m: Manager, name: string, code: int)
    requires Inv(m) && (code == STOPPED_CODE || code == FAILED_CODE)
    ensures forall pid | Intended(m, pid) :: Intended(StopWith(m, name, code).0, pid)
  {
    IntendedKeptAll(m, if code == STOPPED_CODE then DoStop(name) else DoStopFailed(name));
    hide Inv, Intended, StopWith;
  }

  lemma StopTable(m: Manager, name: string, code: int)
    requires Inv(m)
    ensures var q := StopWith(m, name, code).0;
            forall n | n != name && (n in m.procs || n in q.procs) ::
              && n in m.procs && n in q.procs && q.procs[n] == m.procs[n]
              && m.procs[n] < |m.heap| && m.procs[n] < |q.heap| && q.heap[m.procs[n]] == m.heap[m.procs[n]]
              && (m.heap[m.procs[n]].pid in q.draining <==> m.heap[m.procs[n]].pid in m.draining)
  {
    hide CrashesExact, WatchersSound, DrainingSound;
  }

  lemma ActivateWaits(m: Manager, name: string, pid: int, ports: map<string, int>, prior: Option<Detached>)
    requires Quiet(m) && Waiting(m, prior) && OnlyCandidate(m, name, pid, ports, true)
    requires prior.Some? ==> prior.value.pid != pid
    ensures var (q, ok) := Activate(m, name);
            && Quiet(q) && Elsewhere(m, q, name) && Waiting(q, prior) && OnlyCandidate(q, name, pid, ports, false)
            && (ok <==> name in m.procs) && q.procs == m.procs && (!ok ==> q == m) && q.signals == m.signals
  {
    ActivateQuiet(m, name);
    QuietIsInv(m);
    ActivateElsewhere(m, name);
    hide Inv, Quiet, Elsewhere;
  }

  lemma QuietIsInv(m: Manager)
    requires Quiet(m)
    ensures Inv(m)
  {
    hide Inv;
  }

  lemma ActivateQuiet(m: Manager, name: string)
    requires Quiet(m)
    ensures Quiet(Activate(m, name).0)
  {
    NextKeepsInv(m, DoActivate(name));
    hide CrashesExact, DrainingSound, WatchersSound;
  }

  lemma ActivateElsewhere(m: Manager, name: string)
    requires Inv(m)
    ensures Elsewhere(m, Activate(m, name).0, name)
  {
    IntendedKeptAll(m, DoActivate(name));
    hide CrashesExact, WatchersSound, Intended, DrainingSound;
  }

  /** Putting the detached process back always works while the name is free. */
  lemma RestoreSucceeds(m: Manager, name: string, prior: Detached)
    requires Quiet(m) && Waiting(m, Some(prior)) && name !in m.procs && prior.name == name
    ensures RestoreCheck(m, prior)
    ensures var (q, outcome) := RestoreAttach(m, name, prior);
            && outcome == Attached && Quiet(q) && Elsewhere(m, q, name)
            && name in q.procs && q.procs[name] < |q.heap|
            && q.heap[q.procs[name]] == RunningProc(prior.pid, prior.ports, false, false)
            && prior.pid !in q.draining
            && q.watchers == m.watchers && q.signals == m.signals
  {
    hide CrashesExact, DrainingSound, Intended, Elsewhere;
    NextKeepsInv(m, DoRestore(name, prior));
    RestoreElsewhere(m, name, prior);
  }

  lemma RestoreElsewhere(m: Manager, name: string, prior: Detached)
    requires Inv(m) && Genuine(m, prior) && prior.name == name
    ensures Elsewhere(m, RestoreAttach(m, name, prior).0, name)
  {
    IntendedKeptAll(m, DoRestore(name, prior));
    hide CrashesExact, DrainingSound, WatchersSound, Intended;
  }

  lemma MarkWaits(m: Manager, name: string, prior: Option<Detached>, pid: int, ports: map<string, int>)
    requires Quiet(m) && Waiting(m, prior) && OnlyCandidate(m, name, pid, ports, false)
    requires prior.Some? ==> prior.value.pid != pid && prior.value.name == name
    ensures var q := if prior.Some? then MarkDraining(m, prior.value.pid) else m;
            && Quiet(q) && Elsewhere(m, q, name) && OnlyCandidate(q, name, pid, ports, false)
            && q.procs == m.procs && q.heap == m.heap && q.signals == m.signals
            && (prior.Some? ==> prior.value.pid in q.draining)
  {
    if prior.Some? {
      NextKeepsInv(m, DoMarkDraining(prior.value.pid));
      IntendedKeptAll(m, DoMarkDraining(prior.value.pid));
    }
    hide CrashesExact;
  }

  lemma ElsewhereTransitive(a: Manager, b: Manager, c: Manager, name: string)
    requires Elsewhere(a, b, name) && Elsewhere(b, c, name)
    ensures Elsewhere(a, c, name)
  {
    hide Intended;
  }

  /** With nothing but active, unmarked processes under the name, the table is steady again. */
  lemma SteadyAgain(m: Manager, q: Manager, name: string)
    requires Steady(m) && Quiet(q) && Accounted(q, None) && Elsewhere(m, q, name)
    requires name in q.procs ==> !q.heap[q.procs[name]].candidate && q.heap[q.procs[name]].pid !in q.draining
    ensures Steady(q)
  {
    hide Inv, Intended;
  }

  // ---- Who is accounted for ----

  lemma StartAccounted(m: Manager, name: string, pid: int, ports: map<string, int>, t: int, prior: Option<Detached>)
    requires Inv(m) && Accounted(m, prior) && name !in m.procs && FreshPid(m, pid)
    ensures Accounted(Start(m, name, true, pid, ports, t).0, prior)
  {
    hide CrashesExact, DrainingSound;
  }

  lemma ExitAccounted(m: Manager, pid: int, code: int, prior: Option<Detached>)
    requires Quiet(m) && Accounted(m, prior) && pid in m.watchers && m.watchers[pid].phase == Alive
    ensures Accounted(ExitNow(m, pid, code), prior)
  {
    ExitNowShape(m, pid, code);
    hide ExitNow, Classify, CrashesExact, DrainingSound;
  }

  lemma StopAccounted(m: Manager, name: string, code: int, prior: Option<Detached>)
    requires Inv(m) && Accounted(m, prior)
    ensures Accounted(StopWith(m, name, code).0, prior)
  {
    hide CrashesExact, DrainingSound;
  }

  lemma ActivateAccounted(m: Manager, name: string, prior: Option<Detached>)
    requires Inv(m) && Accounted(m, prior)
    ensures Accounted(Activate(m, name).0, prior)
  {
    hide CrashesExact, DrainingSound;
  }

  lemma RestoreAccounted(m: Manager, name: string, prior: Detached)
    requires Quiet(m) && Accounted(m, Some(prior)) && Waiting(m, Some(prior)) && name !in m.procs && prior.name == name
    ensures Accounted(RestoreAttach(m, name, prior).0, None)
  {
    hide CrashesExact, DrainingSound;
  }

  lemma MarkAccounted(m: Manager, prior: Detached)
    requires Inv(m) && Accounted(m, Some(prior)) && Waiting(m, Some(prior))
    ensures Accounted(MarkDraining(m, prior.pid), None)
  {
    hide CrashesExact, DrainingSound;
  }

  // ---- Operations that do not replace ----

  lemma StopSteady(m: Manager, name: string)
    requires Steady(m)
    ensures var (q, ok) := StopWith(m, name, STOPPED_CODE);
            && Steady(q) && Elsewhere(m, q, name) && name !in q.procs
            && (ok <==> name in m.procs) && (!ok ==> q == m)
  {
    NextKeepsInv(m, DoStop(name));
    StopElsewhere(m, name, STOPPED_CODE);
    StopAccounted(m, name, STOPPED_CODE, None);
    hide CrashesExact, DrainingSound, Elsewhere, Accounted;
  }

  lemma SignalSteady(m: Manager, pid: int, name: string)
    requires Steady(m)
    ensures Steady(Signal(m, pid)) && Elsewhere(m, Signal(m, pid), name)
  {
    NextKeepsInv(m, DoSignal(pid));
    IntendedKeptAll(m, DoSignal(pid));
    hide CrashesExact, Intended;
  }

  /** Between operations an exit is a crash only for the process that is tracked under its name. */
  lemma ExitSteady(m: Manager, pid: int, code: int)
    requires Steady(m) && pid in m.watchers && m.watchers[pid].phase == Alive
    ensures var q := ExitNow(m, pid, code);
            var name := m.watchers[pid].name;
            && Steady(q) && Elsewhere(m, q, name)
            && (name in q.procs ==>
                  && name in m.procs && m.procs[name] == q.procs[name]
                  && m.procs[name] < |m.heap| && q.procs[name] < |q.heap| && q.heap[q.procs[name]] == m.heap[m.procs[name]])
            && (Classify(m, pid, code).verdict == Crash ==> name !in q.procs)
  {
    hide Inv, Quiet, ExitNow, Elsewhere, Accounted;
    ExitNowExact(m, m.watchers[pid].name, pid, code);
    ExitAccounted(m, pid, code, None);
    ExitVerdict(m, pid, code);
    SteadyTracks(m);
  }

  lemma SteadyTracks(m: Manager)
    requires Steady(m)
    ensures forall n | n in m.procs :: m.procs[n] < |m.heap| && m.heap[m.procs[n]].pid in m.watchers && m.watchers[m.heap[m.procs[n]].pid].name == n
  {
  }

  /** A crash is the exit of the process tracked under its name: any other has been marked. */
  lemma ExitVerdict(m: Manager, pid: int, code: int)
    requires Steady(m) && pid in m.watchers && m.watchers[pid].phase == Alive
    ensures Classify(m, pid, code).verdict == Crash ==> Pid(m, m.watchers[pid].name) == pid
  {
    hide Inv, Quiet;
  }
}
