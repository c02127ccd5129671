/** RestoreAll as it runs: counters, results and channels updated in place, one method call per step of a
    goroutine. */
module RestoreAll {
  import opened RestoreSpec
  import P = RestoreProofs

  /** The gate that refuses mutators while the daemon starts up. */
  class StartupTracker {
    var phase: Phase
    var total: nat
    var completed: nat

    constructor ()
      ensures !MutationsBlocked(Now()) && total == completed == 0
    {
      phase, total, completed := Ready, 0, 0;
    }

    function Now(): Tracker
      reads this
    {
      Tracker(phase, total, completed)
    }

    method Begin(n: nat)
      modifies this
      ensures Now() == Tracker(BindingListeners, n, 0)
    {
      phase := BindingListeners;
      total := n;
      completed := 0;
    }

    method SetPhase(p: Phase)
      modifies `phase
      ensures phase == p
    {
      phase := p;
    }

    method IncrementCompleted()
      modifies `completed
      ensures completed == old(completed) + 1
    {
      completed := completed + 1;
    }

    method Finish()
      modifies this
      ensures Now() == Tracker(Ready, old(total), old(total))
    {
      phase := Ready;
      completed := total;
    }

    method EnsureMutable() returns (ok: bool)
      ensures ok <==> !MutationsBlocked(Now())
    {
      ok := phase != BindingListeners && phase != Reconciling;
    }
  }

  class Reconciler {
    const all: seq<Entry>
    const maxParallel: nat
    const startup: StartupTracker
    var stage: Stage
    var bound: nat
    var targets: seq<nat>
    var workers: seq<Worker>
    var next: nat
    var jobsClosed: bool
    var cancelled: bool
    var buffer: seq<Result>
    var resultsClosed: bool
    var services: seq<Result>
    var counts: Counts
    var marked: set<nat>
    var dropped: set<nat>

    constructor (all: seq<Entry>, option: int, startup: StartupTracker)
      modifies startup
      ensures Now() == Begin(all, option) && this.startup == startup
    {
      this.all := all;
      this.maxParallel := if option <= 0 then DEFAULT_MAX_PARALLEL else option;
      this.startup := startup;
      stage, bound, targets, workers, next := Binding, 0, [], [], 0;
      jobsClosed, cancelled, buffer, resultsClosed := false, false, [], false;
      services, counts, marked, dropped := [], Counts(0, 0, 0, 0, 0), {}, {};
      new;
      startup.Begin(|all|);
    }

    function Now(): Run
      reads this, startup
    {
      Run(all, stage, bound, targets, maxParallel, workers, next, jobsClosed, cancelled, buffer, resultsClosed,
          services, counts, startup.Now(), marked, dropped)
    }

    /** Counts the outcome, adds the result and sorts it into place. */
    method RecordRestoreResult(res: Result)
      modifies `services, `counts, startup`completed
      ensures Now() == Record(old(Now()), res)
    {
      match res.outcome {
        case Running => counts := counts.(restored := counts.restored + 1);
        case Static => counts := counts.(restored := counts.restored + 1);
        case Failed => counts := counts.(failed := counts.failed + 1);
        case Orphaned => counts := counts.(orphaned := counts.orphaned + 1);
        case Skipped => counts := counts.(skipped := counts.skipped + 1);
        case BindFail => counts := counts.(bindFailed := counts.bindFailed + 1);
      }
      services := Inserted(services, res);
      startup.IncrementCompleted();
    }

    static method Inserted(sorted: seq<Result>, res: Result) returns (more: seq<Result>)
      ensures more == Insert(sorted, res)
    {
      var i := |sorted|;
      assert sorted[..i] == sorted && sorted[i..] == [];
      while i > 0 && sorted[i - 1].service > res.service
        invariant 0 <= i <= |sorted|
        invariant Insert(sorted, res) == Insert(sorted[..i], res) + sorted[i..]
      {
        assert sorted[..i][..i - 1] == sorted[..i - 1];
        assert sorted[i - 1..] == [sorted[i - 1]] + sorted[i..];
        i := i - 1;
      }
      assert Insert(sorted[..i], res) == sorted[..i] + [res];
      more := sorted[..i] + [res] + sorted[i..];
    }

    /** One turn of the bind loop. */
    method BindService(ok: bool)
      requires stage == Binding && bound < |all|
      modifies this, startup
      ensures Now() == Bind(old(Now()), ok)
    {
      var svc, e := bound, all[bound];
      bound := bound + 1;
      if !e.hasPorts {
        RecordRestoreResult(Result(svc, Skipped));
        return;
      }
      if !ok {
        marked := marked + {svc};
        RecordRestoreResult(Result(svc, BindFail));
        return;
      }
      if !e.wasRunning {
        RecordRestoreResult(Result(svc, Skipped));
        return;
      }
      targets := targets + [svc];
    }

    method StartWorkers()
      requires stage == Binding && bound >= |all|
      modifies this, startup
      ensures Now() == RestoreSpec.Next(old(Now()), StartPool)
    {
      if targets == [] {
        stage := Finished;
        startup.Finish();
        return;
      }
      var parallel := maxParallel;
      if parallel > |targets| { parallel := |targets|; }
      startup.SetPhase(Reconciling);
      workers := seq(parallel, _ => Idle);
      stage := Pooling;
    }

    /** The targets the cancellation left without a result are recorded as failed. */
    method RecordCancelled()
      modifies this, startup
      ensures Now() == RecordUnseen(old(Now()), old(services), 0)
    {
      var seen: set<nat> := {};
      for i := 0 to |services|
        invariant forall x :: x in seen <==> exists j :: 0 <= j < i && services[j].service == x
      {
        seen := seen + {services[i].service};
      }
      ghost var results := services;
      for i := 0 to |targets|
        invariant targets == old(targets)
        invariant RecordUnseen(old(Now()), results, 0) == RecordUnseen(Now(), results, i)
      {
        if targets[i] !in seen {
          marked := marked + {targets[i]};
          RecordRestoreResult(Result(targets[i], Failed));
        }
      }
    }

    /** A worker sends the outcome of its service. */
    method ReportResult(w: nat, outcome: Outcome)
      requires Enabled(Now(), Report(w, outcome))
      modifies this
      ensures Now() == RestoreSpec.Next(old(Now()), Report(w, outcome))
    {
      var service := workers[w].service;
      if outcome == Failed { marked := marked + {service}; }
      buffer := buffer + [Result(service, outcome)];
      workers := workers[w := Idle];
    }

    /** A worker that sees the context cancelled reports a failure, and tells the registry nothing. */
    method DropJob(w: nat)
      requires Enabled(Now(), Drop(w))
      modifies this
      ensures Now() == RestoreSpec.Next(old(Now()), Drop(w))
    {
      var service := workers[w].service;
      dropped := dropped + {service};
      buffer := buffer + [Result(service, Failed)];
      workers := workers[w := Idle];
    }

    /** Any one step of any goroutine, or the cancellation of the context. */
    method Take(s: Step)
      requires Enabled(Now(), s)
      modifies this, startup
      ensures Now() == RestoreSpec.Next(old(Now()), s)
    {
      hide Bind, Record, RecordUnseen;
      match s {
        case BindNext(ok) => BindService(ok);
        case StartPool => StartWorkers();
        case Cancel => cancelled := true;
        case Hand(w) =>
          workers := workers[w := Busy(targets[next])];
          next := next + 1;
        case StopFeeding => jobsClosed := true;
        case FinishFeeding => jobsClosed := true;
        case Report(w, outcome) => ReportResult(w, outcome);
        case Drop(w) => DropJob(w);
        case Leave(w) => workers := workers[w := Exited];
        case CloseResults => resultsClosed := true;
        case Collect =>
          var res := buffer[0];
          buffer := buffer[1..];
          RecordRestoreResult(res);
        case Conclude =>
          if cancelled { RecordCancelled(); }
          stage := Finished;
          startup.Finish();
      }
    }

    /** The invariant of the run, kept by every step. */
    method TakeSoundly(s: Step)
      requires P.Inv(Now()) && Enabled(Now(), s)
      modifies this, startup
      ensures P.Inv(Now()) && Now() == RestoreSpec.Next(old(Now()), s)
      ensures P.Measure(Now()) < P.Measure(old(Now()))
    {
      hide P.Inv, P.Measure, RestoreSpec.Next;
      P.StepKeeps(Now(), s);
      P.StepsCount(Now(), s);
      Take(s);
    }
  }
}
