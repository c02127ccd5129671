/** RestoreAll: the bind pass, then the worker pool, as a state machine over the goroutines' steps.
    Services are numbered in the order of their names, in which the source sorts both its input and its
    results; what binding and restoring one of them gives is up to the environment. */
module RestoreSpec {

  datatype Outcome = Skipped | Running | Static | Failed | Orphaned | BindFail

  datatype Result = Result(service: nat, outcome: Outcome)

  datatype Entry = Entry(hasPorts: bool, wasRunning: bool)

  datatype Counts = Counts(restored: nat, failed: nat, orphaned: nat, skipped: nat, bindFailed: nat)

  datatype Worker = Idle | Busy(service: nat) | Exited

  datatype Stage = Binding | Pooling | Finished

  /** The source also declares "idle" and never sets it. */
  datatype Phase = BindingListeners | Reconciling | Ready

  datatype Tracker = Tracker(phase: Phase, total: nat, completed: nat)

  /** `marked` are the services the registry calls failed because of this run, `dropped` those whose
      worker found the context cancelled before it did anything. */
  datatype Run = Run(
    all: seq<Entry>,
    stage: Stage,
    bound: nat,
    targets: seq<nat>,
    maxParallel: nat,
    workers: seq<Worker>,
    next: nat,
    jobsClosed: bool,
    cancelled: bool,
    buffer: seq<Result>,
    resultsClosed: bool,
    services: seq<Result>,
    counts: Counts,
    tracker: Tracker,
    marked: set<nat>,
    dropped: set<nat>)

  predicate MutationsBlocked(t: Tracker) {
    t.phase == BindingListeners || t.phase == Reconciling
  }

  const DEFAULT_MAX_PARALLEL := 4

  function Parallelism(option: int): (n: nat)
    ensures n > 0
  {
    if option <= 0 then DEFAULT_MAX_PARALLEL else option
  }

  function Begin(all: seq<Entry>, option: int): Run {
    Run(all, Binding, 0, [], Parallelism(option), [], 0, false, false, [], false, [], Counts(0, 0, 0, 0, 0),
        Tracker(BindingListeners, |all|, 0), {}, {})
  }

  // ---- Recording ----

  function Tally(c: Counts, o: Outcome): Counts {
    match o
    case Running => c.(restored := c.restored + 1)
    case Static => c.(restored := c.restored + 1)
    case Failed => c.(failed := c.failed + 1)
    case Orphaned => c.(orphaned := c.orphaned + 1)
    case Skipped => c.(skipped := c.skipped + 1)
    case BindFail => c.(bindFailed := c.bindFailed + 1)
  }

  /** Append, then sort by service. */
  function Insert(s: seq<Result>, r: Result): seq<Result> {
    if s == [] || s[|s| - 1].service <= r.service then s + [r]
    else Insert(s[..|s| - 1], r) + [s[|s| - 1]]
  }

  function Record(r: Run, res: Result): Run {
    r.(services := Insert(r.services, res),
       counts := Tally(r.counts, res.outcome),
       tracker := r.tracker.(completed := r.tracker.completed + 1))
  }

  predicate Seen(s: seq<Result>, service: nat) {
    exists i :: 0 <= i < |s| && s[i].service == service
  }

  /** After a cancellation: a failure for each target without a result. */
  function RecordUnseen(r: Run, seen: seq<Result>, i: nat): Run
    requires i <= |r.targets|
    decreases |r.targets| - i
  {
    if i == |r.targets| then r
    else if Seen(seen, r.targets[i]) then RecordUnseen(r, seen, i + 1)
    else RecordUnseen(Record(r.(marked := r.marked + {r.targets[i]}), Result(r.targets[i], Failed)), seen, i + 1)
  }

  function Finish(r: Run): Run {
    r.(stage := Finished, tracker := r.tracker.(phase := Ready, completed := r.tracker.total))
  }

  // ---- Steps ----

  datatype Step =
    | BindNext(ok: bool)
    | StartPool
    | Cancel
    | Hand(w: nat)
    | StopFeeding
    | FinishFeeding
    | Report(w: nat, outcome: Outcome)
    | Drop(w: nat)
    | Leave(w: nat)
    | CloseResults
    | Collect
    | Conclude

  predicate IsBusy(r: Run, w: nat) {
    w < |r.workers| && r.workers[w].Busy?
  }

  predicate IsIdle(r: Run, w: nat) {
    w < |r.workers| && r.workers[w].Idle?
  }

  predicate AllExited(workers: seq<Worker>) {
    forall w | 0 <= w < |workers| :: workers[w].Exited?
  }

  /** A result can be sent while the channel, with one slot per target, is not full. */
  predicate Enabled(r: Run, s: Step) {
    match s
    case BindNext(_) => r.stage == Binding && r.bound < |r.all|
    case StartPool => r.stage == Binding && r.bound >= |r.all|
    case Cancel => !r.cancelled && r.stage != Finished
    case Hand(w) => r.stage == Pooling && !r.jobsClosed && r.next < |r.targets| && IsIdle(r, w)
    case StopFeeding => r.stage == Pooling && !r.jobsClosed && r.next < |r.targets| && r.cancelled
    case FinishFeeding => r.stage == Pooling && !r.jobsClosed && r.next >= |r.targets|
    case Report(w, outcome) =>
      r.stage == Pooling && IsBusy(r, w) && outcome in {Running, Static, Failed, Orphaned} && |r.buffer| < |r.targets|
    case Drop(w) => r.stage == Pooling && IsBusy(r, w) && r.cancelled && |r.buffer| < |r.targets|
    case Leave(w) => r.stage == Pooling && IsIdle(r, w) && r.jobsClosed
    case CloseResults => r.stage == Pooling && !r.resultsClosed && AllExited(r.workers)
    case Collect => r.stage == Pooling && r.buffer != []
    case Conclude => r.stage == Pooling && r.resultsClosed && r.buffer == []
  }

  function Bind(r: Run, ok: bool): Run
    requires r.bound < |r.all|
  {
    var e, q := r.all[r.bound], r.(bound := r.bound + 1);
    if !e.hasPorts then Record(q, Result(r.bound, Skipped))
    else if !ok then Record(q.(marked := q.marked + {r.bound}), Result(r.bound, BindFail))
    else if !e.wasRunning then Record(q, Result(r.bound, Skipped))
    else q.(targets := q.targets + [r.bound])
  }

  function Parallel(r: Run): nat {
    if r.maxParallel > |r.targets| then |r.targets| else r.maxParallel
  }

  function Next(r: Run, s: Step): Run
    requires Enabled(r, s)
  {
    match s
    case BindNext(ok) => Bind(r, ok)
    case StartPool =>
      if r.targets == [] then Finish(r)
      else r.(stage := Pooling, workers := seq(Parallel(r), _ => Idle), tracker := r.tracker.(phase := Reconciling))
    case Cancel => r.(cancelled := true)
    case Hand(w) => r.(workers := r.workers[w := Busy(r.targets[r.next])], next := r.next + 1)
    case StopFeeding => r.(jobsClosed := true)
    case FinishFeeding => r.(jobsClosed := true)
    case Report(w, outcome) =>
      var service := r.workers[w].service;
      r.(workers := r.workers[w := Idle], buffer := r.buffer + [Result(service, outcome)],
         marked := if outcome == Failed then r.marked + {service} else r.marked)
    case Drop(w) =>
      var service := r.workers[w].service;
      r.(workers := r.workers[w := Idle], buffer := r.buffer + [Result(service, Failed)], dropped := r.dropped + {service})
    case Leave(w) => r.(workers := r.workers[w := Exited])
    case CloseResults => r.(resultsClosed := true)
    case Collect => Record(r.(buffer := r.buffer[1..]), r.buffer[0])
    case Conclude => Finish(if r.cancelled then RecordUnseen(r, r.services, 0) else r)
  }

  ghost predicate RunOk(r: Run, steps: seq<Step>)
    decreases |steps|
  {
    steps == [] || (Enabled(r, steps[0]) && RunOk(Next(r, steps[0]), steps[1..]))
  }

  function RunAll(r: Run, steps: seq<Step>): Run
    requires RunOk(r, steps)
    decreases |steps|
  {
    if steps == [] then r else RunAll(Next(r, steps[0]), steps[1..])
  }
}
