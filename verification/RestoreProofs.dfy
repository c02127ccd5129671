/** RestoreAll under every schedule of its workers and every point of cancellation: one result per
    service, bounded parallelism, binds first, mutators gated, no deadlock, and an end. */
module RestoreProofs {
  import opened RestoreSpec

  // ---- Where a service is ----

  function Results(s: seq<Result>, x: nat): nat {
    if s == [] then 0 else Results(s[..|s| - 1], x) + (if s[|s| - 1].service == x then 1 else 0)
  }

  function JobOf(w: Worker, x: nat): nat {
    if w.Busy? && w.service == x then 1 else 0
  }

  function Held(workers: seq<Worker>, x: nat): nat {
    if workers == [] then 0 else Held(workers[..|workers| - 1], x) + JobOf(workers[|workers| - 1], x)
  }

  function Waiting(targets: seq<nat>, next: nat, x: nat): nat
    decreases |targets| - next
  {
    if next >= |targets| then 0 else (if targets[next] == x then 1 else 0) + Waiting(targets, next + 1, x)
  }

  /** In how many places the service is: recorded, in the results channel, with a worker, or not handed
      out yet. */
  function Places(r: Run, x: nat): nat {
    Results(r.services, x) + Results(r.buffer, x) + Held(r.workers, x) + Waiting(r.targets, r.next, x)
  }

  lemma ResultsAppend(s: seq<Result>, res: Result, x: nat)
    ensures Results(s + [res], x) == Results(s, x) + (if res.service == x then 1 else 0)
  {
    assert (s + [res])[..|s|] == s;
  }

  lemma {:induction false} ResultsDropFirst(s: seq<Result>, x: nat)
    requires s != []
    ensures Results(s, x) == Results(s[1..], x) + (if s[0].service == x then 1 else 0)
  {
    var n := |s| - 1;
    if n > 0 {
      ResultsDropFirst(s[..n], x);
      assert s[..n][1..] == s[1..][..n - 1];
    }
  }

  lemma {:induction false} ResultsSeen(s: seq<Result>, x: nat)
    ensures Results(s, x) > 0 <==> Seen(s, x)
  {
    if s != [] {
      var n := |s| - 1;
      ResultsSeen(s[..n], x);
      if Results(s[..n], x) > 0 {
        var i :| 0 <= i < n && s[..n][i].service == x;
        assert s[i].service == x;
      }
      if Seen(s, x) && s[n].service != x {
        var i :| 0 <= i < |s| && s[i].service == x;
        assert s[..n][i].service == x;
      }
    }
  }

  lemma {:induction false} HeldUpdate(workers: seq<Worker>, w: nat, v: Worker, x: nat)
    requires w < |workers|
    ensures Held(workers[w := v], x) + JobOf(workers[w], x) == Held(workers, x) + JobOf(v, x)
  {
    var n := |workers| - 1;
    if w < n {
      HeldUpdate(workers[..n], w, v, x);
      assert workers[w := v][..n] == workers[..n][w := v];
    } else {
      assert workers[w := v][..n] == workers[..n];
    }
  }

  lemma {:induction false} NobodyHolds(workers: seq<Worker>, x: nat)
    requires forall w | 0 <= w < |workers| :: !workers[w].Busy?
    ensures Held(workers, x) == 0
  {
    if workers != [] {
      NobodyHolds(workers[..|workers| - 1], x);
    }
  }

  lemma {:induction false} WaitingAppend(targets: seq<nat>, next: nat, t: nat, x: nat)
    requires next <= |targets|
    ensures Waiting(targets + [t], next, x) == Waiting(targets, next, x) + (if t == x then 1 else 0)
    decreases |targets| - next
  {
    if next < |targets| {
      WaitingAppend(targets, next + 1, t, x);
    }
  }

  function BusyWorkers(workers: seq<Worker>): nat {
    if workers == [] then 0 else BusyWorkers(workers[..|workers| - 1]) + (if workers[|workers| - 1].Busy? then 1 else 0)
  }

  lemma {:induction false} BusyUpdate(workers: seq<Worker>, w: nat, v: Worker)
    requires w < |workers|
    ensures BusyWorkers(workers[w := v]) + (if workers[w].Busy? then 1 else 0) == BusyWorkers(workers) + (if v.Busy? then 1 else 0)
  {
    var n := |workers| - 1;
    if w < n {
      BusyUpdate(workers[..n], w, v);
      assert workers[w := v][..n] == workers[..n][w := v];
    } else {
      assert workers[w := v][..n] == workers[..n];
    }
  }

  lemma {:induction false} NobodyBusy(workers: seq<Worker>)
    requires forall w | 0 <= w < |workers| :: !workers[w].Busy?
    ensures BusyWorkers(workers) == 0
  {
    if workers != [] {
      NobodyBusy(workers[..|workers| - 1]);
    }
  }

  // ---- Sorted results ----

  ghost predicate Sorted(s: seq<Result>) {
    forall i, j | 0 <= i < j < |s| :: s[i].service <= s[j].service
  }

  lemma {:induction false} InsertCounts(s: seq<Result>, r: Result, x: nat)
    ensures Results(Insert(s, r), x) == Results(s, x) + (if r.service == x then 1 else 0)
  {
    if s == [] || s[|s| - 1].service <= r.service {
      ResultsAppend(s, r, x);
    } else {
      InsertCounts(s[..|s| - 1], r, x);
      ResultsAppend(Insert(s[..|s| - 1], r), s[|s| - 1], x);
    }
  }

  lemma {:induction false} InsertHolds(s: seq<Result>, r: Result)
    ensures |Insert(s, r)| == |s| + 1
    ensures forall x :: x in Insert(s, r) <==> x in s || x == r
  {
    if s != [] && s[|s| - 1].service > r.service {
      InsertHolds(s[..|s| - 1], r);
      assert s == s[..|s| - 1] + [s[|s| - 1]];
    }
  }

  lemma {:induction false} InsertSorts(s: seq<Result>, r: Result)
    requires Sorted(s)
    ensures Sorted(Insert(s, r))
  {
    if s != [] && s[|s| - 1].service > r.service {
      var n := |s| - 1;
      var q := Insert(s[..n], r);
      InsertSorts(s[..n], r);
      InsertHolds(s[..n], r);
      forall i | 0 <= i < |q| ensures q[i].service <= s[n].service {
        assert q[i] in q;
      }
    }
  }

  ghost predicate OncePer(s: seq<Result>, n: nat) {
    forall x: nat :: Results(s, x) == if x < n then 1 else 0
  }

  /** Sorted results for 0..n-1, each once, are the results of 0..n-1 in order. */
  lemma {:induction false} SortedIsExact(s: seq<Result>, n: nat)
    requires Sorted(s) && OncePer(s, n)
    ensures |s| == n && forall i | 0 <= i < n :: s[i].service == i
  {
    if s == [] {
      assert n > 0 ==> Results(s, 0) == 1;
    } else {
      var m := |s| - 1;
      var last := s[m].service;
      assert Results(s, last) > 0;
      assert n > 0 && last <= n - 1;
      ResultsSeen(s, n - 1);
      var k :| 0 <= k < |s| && s[k].service == n - 1;
      assert last == n - 1;
      assert OncePer(s[..m], n - 1) by {
        forall x: nat ensures Results(s[..m], x) == if x < n - 1 then 1 else 0 {
          assert Results(s, x) == Results(s[..m], x) + (if last == x then 1 else 0);
        }
      }
      SortedIsExact(s[..m], n - 1);
    }
  }

  // ---- The invariant ----

  function Sum(c: Counts): nat {
    c.restored + c.failed + c.orphaned + c.skipped + c.bindFailed
  }

  ghost predicate Increasing(targets: seq<nat>, bound: nat) {
    && (forall i, j | 0 <= i < j < |targets| :: targets[i] < targets[j])
    && (forall i | 0 <= i < |targets| :: targets[i] < bound)
  }

  /** Every service bound so far is in exactly one place. */
  ghost predicate Placed(r: Run) {
    forall x: nat :: Places(r, x) == if x < r.bound then 1 else 0
  }

  ghost predicate Shape(r: Run) {
    && r.bound <= |r.all| && r.next <= |r.targets|
    && (r.stage == Binding ==> r.workers == [] && r.buffer == [] && r.next == 0 && !r.jobsClosed && !r.resultsClosed)
    && (r.stage != Binding ==> r.bound == |r.all|)
    && (r.stage == Pooling ==> |r.targets| > 0 && |r.workers| > 0)
    && r.maxParallel > 0 && |r.workers| <= r.maxParallel
    && (!r.jobsClosed ==> forall w | 0 <= w < |r.workers| :: !r.workers[w].Exited?)
    && (r.jobsClosed ==> r.next == |r.targets| || r.cancelled)
    && (r.resultsClosed ==> AllExited(r.workers))
    && |r.buffer| + BusyWorkers(r.workers) <= r.next
  }

  ghost predicate Counted(r: Run) {
    && Sum(r.counts) == |r.services|
    && r.tracker.total == |r.all|
    && r.tracker.completed == (if r.stage == Finished then |r.all| else |r.services|)
    && (match r.stage
        case Binding => r.tracker.phase == BindingListeners
        case Pooling => r.tracker.phase == Reconciling
        case Finished => r.tracker.phase == Ready)
  }

  predicate Failure(res: Result) {
    res.outcome == Failed || res.outcome == BindFail
  }

  predicate MarkedOrDropped(r: Run, x: nat) {
    x in r.marked || x in r.dropped
  }

  /** A service with a failed result is one the registry calls failed, or one that was dropped. */
  ghost predicate Marks(r: Run) {
    && r.marked !! r.dropped
    && (forall x | MarkedOrDropped(r, x) :: Results(r.services, x) + Results(r.buffer, x) > 0)
    && (forall res | res in r.services && Failure(res) :: MarkedOrDropped(r, res.service))
    && (forall res | res in r.buffer && Failure(res) :: MarkedOrDropped(r, res.service))
  }

  ghost predicate Inv(r: Run) {
    && Shape(r) && Counted(r) && Marks(r)
    && Sorted(r.services) && Increasing(r.targets, r.bound)
    && (if r.stage == Finished then OncePer(r.services, |r.all|) else Placed(r))
  }

  lemma BeginsSound(all: seq<Entry>, option: int)
    ensures Inv(Begin(all, option))
    ensures Begin(all, option).all == all && Begin(all, option).maxParallel == Parallelism(option)
    ensures !Begin(all, option).cancelled && Begin(all, option).dropped == {}
  {
    var r := Begin(all, option);
    BeginsInShape(all, option);
    BeginsPlaced(all, option);
    BeginsUnmarked(all, option);
    hide Shape, Counted, Marks, Placed, OncePer;
  }

  lemma BeginsInShape(all: seq<Entry>, option: int)
    ensures Shape(Begin(all, option)) && Counted(Begin(all, option))
  {
    NobodyBusy([]);
  }

  lemma BeginsPlaced(all: seq<Entry>, option: int)
    ensures Placed(Begin(all, option))
  {
    var r := Begin(all, option);
    forall x: nat ensures Places(r, x) == 0 {
      NowhereYet(r, x);
    }
  }

  lemma BeginsUnmarked(all: seq<Entry>, option: int)
    ensures Marks(Begin(all, option))
  {
    var r := Begin(all, option);
    forall x: nat ensures !MarkedOrDropped(r, x) {
      NowhereYet(r, x);
    }
  }

  lemma NowhereYet(r: Run, x: nat)
    requires r.services == [] && r.buffer == [] && r.workers == [] && r.targets == [] && r.marked == {} && r.dropped == {}
    ensures Places(r, x) == 0 && !MarkedOrDropped(r, x)
  {
  }

  // ---- Recording ----

  lemma RecordShape(r: Run, res: Result)
    ensures var q := Record(r, res);
            && q == r.(services := q.services, counts := q.counts, tracker := q.tracker)
            && q.services == Insert(r.services, res)
  {
  }

  lemma RecordCounts(r: Run, res: Result)
    requires Sorted(r.services) && Counted(r) && r.stage != Finished
    ensures Sorted(Record(r, res).services) && Counted(Record(r, res))
  {
    InsertSorts(r.services, res);
    InsertHolds(r.services, res);
  }

  lemma RecordPlaces(r: Run, res: Result, x: nat)
    ensures Places(Record(r, res), x) == Places(r, x) + (if res.service == x then 1 else 0)
    ensures Results(Record(r, res).services, x) == Results(r.services, x) + (if res.service == x then 1 else 0)
  {
    InsertCounts(r.services, res, x);
  }

  lemma RecordMarks(r: Run, res: Result)
    requires Marks(r) && (Failure(res) ==> MarkedOrDropped(r, res.service))
    ensures Marks(Record(r, res))
  {
    var q := Record(r, res);
    hide Failure, Insert;
    InsertHolds(r.services, res);
    forall x | MarkedOrDropped(q, x) ensures Results(q.services, x) + Results(q.buffer, x) > 0 {
      assert MarkedOrDropped(r, x);
      RecordPlaces(r, res, x);
    }
    forall y | y in q.services && Failure(y) ensures MarkedOrDropped(q, y.service) {
      assert y in r.services || y == res;
      assert MarkedOrDropped(r, y.service);
    }
    forall y | y in q.buffer && Failure(y) ensures MarkedOrDropped(q, y.service) {
      assert MarkedOrDropped(r, y.service);
    }
  }

  lemma CountedIgnores(r: Run, v: Run)
    requires Counted(r) && v.counts == r.counts && v.services == r.services && v.all == r.all && v.tracker == r.tracker && v.stage == r.stage
    ensures Counted(v)
  {
  }

  lemma MarksIgnores(r: Run, v: Run)
    requires Marks(r) && v.services == r.services && v.buffer == r.buffer && v.marked == r.marked && v.dropped == r.dropped
    ensures Marks(v)
  {
    forall x | MarkedOrDropped(v, x) ensures Results(v.services, x) + Results(v.buffer, x) > 0 {
      assert MarkedOrDropped(r, x);
    }
    forall res | res in v.services && Failure(res) ensures MarkedOrDropped(v, res.service) {
      assert MarkedOrDropped(r, res.service);
    }
    forall res | res in v.buffer && Failure(res) ensures MarkedOrDropped(v, res.service) {
      assert MarkedOrDropped(r, res.service);
    }
  }

  /** A failure that is marked together with its result. */
  lemma MarkAndRecord(r: Run, x: nat, outcome: Outcome)
    requires Marks(r) && x !in r.dropped
    ensures Marks(Record(r.(marked := r.marked + {x}), Result(x, outcome)))
  {
    hide Failure, Insert;
    var q := r.(marked := r.marked + {x});
    var v := Record(q, Result(x, outcome));
    InsertHolds(r.services, Result(x, outcome));
    forall y | MarkedOrDropped(v, y) ensures Results(v.services, y) + Results(v.buffer, y) > 0 {
      RecordPlaces(q, Result(x, outcome), y);
      assert y == x || MarkedOrDropped(r, y);
    }
    forall res | res in v.services && Failure(res) ensures MarkedOrDropped(v, res.service) {
      assert res in r.services || res == Result(x, outcome);
      assert res in r.services ==> MarkedOrDropped(r, res.service);
    }
    forall res | res in v.buffer && Failure(res) ensures MarkedOrDropped(v, res.service) {
      assert MarkedOrDropped(r, res.service);
    }
  }

  /** A service that is elsewhere has no result yet, so it is not marked. */
  lemma Unmarked(r: Run, x: nat)
    requires Marks(r) && Places(r, x) <= 1 && Held(r.workers, x) + Waiting(r.targets, r.next, x) > 0
    ensures !MarkedOrDropped(r, x)
  {
    assert MarkedOrDropped(r, x) ==> Results(r.services, x) + Results(r.buffer, x) > 0;
  }

  // ---- Binding ----

  lemma BindPlaces(r: Run, ok: bool, x: nat)
    requires r.bound < |r.all| && r.next <= |r.targets|
    ensures Places(Bind(r, ok), x) == Places(r, x) + (if x == r.bound then 1 else 0)
  {
    hide Record;
    var q := r.(bound := r.bound + 1);
    var m := q.(marked := q.marked + {r.bound});
    RecordPlaces(q, Result(r.bound, Skipped), x);
    RecordPlaces(m, Result(r.bound, BindFail), x);
    WaitingAppend(r.targets, r.next, r.bound, x);
    assert Places(q, x) == Places(r, x) && Places(m, x) == Places(r, x);
  }

  lemma BindMarks(r: Run, ok: bool)
    requires Marks(r) && r.bound < |r.all| && !MarkedOrDropped(r, r.bound)
    ensures Marks(Bind(r, ok))
  {
    hide Record, Marks;
    var q := r.(bound := r.bound + 1);
    MarksIgnores(r, q);
    MarksIgnores(r, q.(targets := q.targets + [r.bound]));
    RecordMarks(q, Result(r.bound, Skipped));
    MarkAndRecord(q, r.bound, BindFail);
  }

  lemma BindKeeps(r: Run, ok: bool)
    requires Inv(r) && r.stage == Binding && r.bound < |r.all|
    ensures Inv(Bind(r, ok))
  {
    hide Sorted, Counted, Marks, Record, Results, Places, Waiting, MarkedOrDropped;
    var b, q, v := r.bound, r.(bound := r.bound + 1), Bind(r, ok);
    var m := q.(marked := q.marked + {b});
    CountedIgnores(r, q);
    CountedIgnores(r, m);
    CountedIgnores(r, q.(targets := q.targets + [b]));
    RecordCounts(q, Result(b, Skipped));
    RecordCounts(m, Result(b, BindFail));
    RecordShape(q, Result(b, Skipped));
    RecordShape(m, Result(b, BindFail));
    NotMarkedYet(r);
    BindMarks(r, ok);
    forall x: nat ensures Places(v, x) == if x < v.bound then 1 else 0 {
      BindPlaces(r, ok, x);
      assert Places(r, x) == if x < b then 1 else 0;
    }
  }

  lemma NotMarkedYet(r: Run)
    requires Marks(r) && Placed(r)
    ensures !MarkedOrDropped(r, r.bound)
  {
    assert Places(r, r.bound) == 0;
    assert MarkedOrDropped(r, r.bound) ==> Results(r.services, r.bound) + Results(r.buffer, r.bound) > 0;
  }

  // ---- The pool ----

  lemma NothingAbout(x: nat)
    ensures Results([], x) == 0 && Held([], x) == 0
  {
  }

  lemma StartKeeps(r: Run)
    requires Inv(r) && Enabled(r, StartPool)
    ensures Inv(Next(r, StartPool))
  {
    hide Sorted, Marks, Results, Waiting;
    var v := Next(r, StartPool);
    MarksIgnores(r, v);
    NobodyBusy(v.workers);
    forall x: nat ensures Places(v, x) == Places(r, x) {
      NobodyHolds(v.workers, x);
    }
    forall x: nat ensures Results(r.services, x) + Waiting(r.targets, 0, x) == if x < |r.all| then 1 else 0 {
      NothingAbout(x);
      assert Places(r, x) == if x < r.bound then 1 else 0;
    }
    if r.targets == [] {
      forall x: nat ensures Results(v.services, x) == if x < |r.all| then 1 else 0 {
        NotWaiting(r.targets, 0, x);
      }
    }
  }

  lemma HandKeeps(r: Run, w: nat)
    requires Inv(r) && Enabled(r, Hand(w))
    ensures Inv(Next(r, Hand(w)))
  {
    hide Sorted, Marks, Results, Counted, Increasing;
    var v := Next(r, Hand(w));
    MarksIgnores(r, v);
    CountedIgnores(r, v);
    BusyUpdate(r.workers, w, Busy(r.targets[r.next]));
    forall x: nat ensures Places(v, x) == if x < v.bound then 1 else 0 {
      HeldUpdate(r.workers, w, Busy(r.targets[r.next]), x);
      assert Places(r, x) == if x < r.bound then 1 else 0;
    }
  }

  /** A worker sends a result and is idle again. */
  function Sent(r: Run, w: nat, outcome: Outcome, marked: set<nat>, dropped: set<nat>): Run
    requires IsBusy(r, w)
  {
    r.(workers := r.workers[w := Idle], buffer := r.buffer + [Result(r.workers[w].service, outcome)], marked := marked, dropped := dropped)
  }

  lemma SentPlaces(r: Run, w: nat, outcome: Outcome, marked: set<nat>, dropped: set<nat>, x: nat)
    requires IsBusy(r, w)
    ensures Places(Sent(r, w, outcome, marked, dropped), x) == Places(r, x)
    ensures Held(r.workers, r.workers[w].service) > 0
  {
    hide Results, Held, Waiting;
    HeldUpdate(r.workers, w, Idle, x);
    HeldUpdate(r.workers, w, Idle, r.workers[w].service);
    ResultsAppend(r.buffer, Result(r.workers[w].service, outcome), x);
  }

  lemma SentMarks(r: Run, w: nat, outcome: Outcome, marked: set<nat>, dropped: set<nat>)
    requires IsBusy(r, w) && Marks(r) && !MarkedOrDropped(r, r.workers[w].service)
    requires var x := r.workers[w].service;
             || (outcome == Failed && marked == r.marked + {x} && dropped == r.dropped)
             || (outcome == Failed && marked == r.marked && dropped == r.dropped + {x})
             || (outcome != Failed && outcome != BindFail && marked == r.marked && dropped == r.dropped)
    ensures Marks(Sent(r, w, outcome, marked, dropped))
  {
    var x, v := r.workers[w].service, Sent(r, w, outcome, marked, dropped);
    forall y | MarkedOrDropped(v, y) ensures Results(v.services, y) + Results(v.buffer, y) > 0 {
      ResultsAppend(r.buffer, Result(x, outcome), y);
      assert y == x || MarkedOrDropped(r, y);
    }
    forall res | res in v.services && Failure(res) ensures MarkedOrDropped(v, res.service) {
      assert MarkedOrDropped(r, res.service);
    }
    forall res | res in v.buffer && Failure(res) ensures MarkedOrDropped(v, res.service) {
      assert res in r.buffer || res == Result(x, outcome);
      assert res in r.buffer ==> MarkedOrDropped(r, res.service);
    }
  }

  lemma SentKeeps(r: Run, w: nat, outcome: Outcome, marked: set<nat>, dropped: set<nat>)
    requires Inv(r) && r.stage == Pooling && IsBusy(r, w)
    requires var x := r.workers[w].service;
             || (outcome == Failed && marked == r.marked + {x} && dropped == r.dropped)
             || (outcome == Failed && marked == r.marked && dropped == r.dropped + {x})
             || (outcome != Failed && outcome != BindFail && marked == r.marked && dropped == r.dropped)
    ensures Inv(Sent(r, w, outcome, marked, dropped))
  {
    hide Sorted, Marks, Results, Held, Waiting, Places, Counted, Increasing, MarkedOrDropped;
    var x, v := r.workers[w].service, Sent(r, w, outcome, marked, dropped);
    CountedIgnores(r, v);
    BusyUpdate(r.workers, w, Idle);
    SentPlaces(r, w, outcome, marked, dropped, x);
    assert Places(r, x) <= 1;
    Unmarked(r, x);
    SentMarks(r, w, outcome, marked, dropped);
    forall y: nat ensures Places(v, y) == if y < v.bound then 1 else 0 {
      SentPlaces(r, w, outcome, marked, dropped, y);
      assert Places(r, y) == if y < r.bound then 1 else 0;
    }
  }

  lemma LeaveKeeps(r: Run, w: nat)
    requires Inv(r) && Enabled(r, Leave(w))
    ensures Inv(Next(r, Leave(w)))
  {
    hide Sorted, Marks, Results, Waiting, Counted, Increasing;
    var v := Next(r, Leave(w));
    MarksIgnores(r, v);
    CountedIgnores(r, v);
    BusyUpdate(r.workers, w, Exited);
    forall x: nat ensures Places(v, x) == if x < v.bound then 1 else 0 {
      HeldUpdate(r.workers, w, Exited, x);
      assert Places(r, x) == if x < r.bound then 1 else 0;
    }
  }

  /** Cancel, closing the jobs and closing the results move no service. */
  lemma FlagKeeps(r: Run, s: Step)
    requires Inv(r) && Enabled(r, s) && (s.Cancel? || s.StopFeeding? || s.FinishFeeding? || s.CloseResults?)
    ensures Inv(Next(r, s))
  {
    hide Sorted, Marks, Results, Waiting, Held, Counted, Increasing;
    var v := Next(r, s);
    MarksIgnores(r, v);
    CountedIgnores(r, v);
    forall x: nat ensures Places(v, x) == if x < v.bound then 1 else 0 {
      assert Places(r, x) == if x < r.bound then 1 else 0;
    }
  }

  lemma TakeMarks(r: Run)
    requires Marks(r) && r.buffer != []
    ensures Marks(Record(r.(buffer := r.buffer[1..]), r.buffer[0]))
  {
    hide Failure, Insert;
    var q, res := r.(buffer := r.buffer[1..]), r.buffer[0];
    var v := Record(q, res);
    InsertHolds(r.services, res);
    forall y | MarkedOrDropped(v, y) ensures Results(v.services, y) + Results(v.buffer, y) > 0 {
      assert MarkedOrDropped(r, y);
      RecordPlaces(q, res, y);
      ResultsDropFirst(r.buffer, y);
    }
    forall y | y in v.services && Failure(y) ensures MarkedOrDropped(v, y.service) {
      assert y in r.services || y == res;
      assert MarkedOrDropped(r, y.service);
    }
    forall y | y in v.buffer && Failure(y) ensures MarkedOrDropped(v, y.service) {
      assert y in r.buffer;
      assert MarkedOrDropped(r, y.service);
    }
  }

  lemma CollectKeeps(r: Run)
    requires Inv(r) && Enabled(r, Collect)
    ensures Inv(Next(r, Collect))
  {
    hide Sorted, Marks, Results, Waiting, Held, Counted, Increasing, Record;
    var q, v := r.(buffer := r.buffer[1..]), Next(r, Collect);
    TakeMarks(r);
    CountedIgnores(r, q);
    RecordCounts(q, r.buffer[0]);
    RecordShape(q, r.buffer[0]);
    forall x: nat ensures Places(v, x) == if x < v.bound then 1 else 0 {
      RecordPlaces(q, r.buffer[0], x);
      ResultsDropFirst(r.buffer, x);
      assert Places(r, x) == if x < r.bound then 1 else 0;
    }
  }

  // ---- The end ----

  /** How often `x` is among the targets from `i` on that have no result. */
  function Unseen(targets: seq<nat>, seen: seq<Result>, i: nat, x: nat): nat
    decreases |targets| - i
  {
    if i >= |targets| then 0
    else (if !Seen(seen, targets[i]) && targets[i] == x then 1 else 0) + Unseen(targets, seen, i + 1, x)
  }

  lemma {:induction false} RecordUnseenShape(r: Run, seen: seq<Result>, i: nat)
    requires i <= |r.targets| && r.stage != Finished
    requires Sorted(r.services) && Counted(r)
    ensures var v := RecordUnseen(r, seen, i);
            && v == r.(services := v.services, counts := v.counts, tracker := v.tracker, marked := v.marked)
            && Sorted(v.services) && Counted(v)
    decreases |r.targets| - i
  {
    hide Sorted, Counted, Record, Seen;
    if i < |r.targets| {
      if Seen(seen, r.targets[i]) {
        RecordUnseenShape(r, seen, i + 1);
      } else {
        var q, res := r.(marked := r.marked + {r.targets[i]}), Result(r.targets[i], Failed);
        CountedIgnores(r, q);
        RecordCounts(q, res);
        RecordShape(q, res);
        RecordUnseenShape(Record(q, res), seen, i + 1);
      }
    }
  }

  lemma {:induction false} RecordUnseenMarks(r: Run, seen: seq<Result>, i: nat)
    requires i <= |r.targets| && Marks(r)
    requires forall j | i <= j < |r.targets| && !Seen(seen, r.targets[j]) :: r.targets[j] !in r.dropped
    ensures Marks(RecordUnseen(r, seen, i))
    decreases |r.targets| - i
  {
    hide Marks, Record, Seen;
    if i < |r.targets| {
      if Seen(seen, r.targets[i]) {
        RecordUnseenMarks(r, seen, i + 1);
      } else {
        var q, res := r.(marked := r.marked + {r.targets[i]}), Result(r.targets[i], Failed);
        MarkAndRecord(r, r.targets[i], Failed);
        RecordShape(q, res);
        RecordUnseenMarks(Record(q, res), seen, i + 1);
      }
    }
  }

  lemma {:induction false} RecordUnseenCounts(r: Run, seen: seq<Result>, i: nat, x: nat)
    requires i <= |r.targets|
    ensures Results(RecordUnseen(r, seen, i).services, x) == Results(r.services, x) + Unseen(r.targets, seen, i, x)
    decreases |r.targets| - i
  {
    hide Record, Seen, Results;
    if i < |r.targets| {
      if Seen(seen, r.targets[i]) {
        RecordUnseenCounts(r, seen, i + 1, x);
      } else {
        var q, res := r.(marked := r.marked + {r.targets[i]}), Result(r.targets[i], Failed);
        RecordShape(q, res);
        RecordPlaces(q, res, x);
        RecordUnseenCounts(Record(q, res), seen, i + 1, x);
      }
    }
  }

  lemma {:induction false} WaitingHolds(targets: seq<nat>, next: nat, i: nat)
    requires next <= i < |targets|
    ensures Waiting(targets, next, targets[i]) > 0
    decreases i - next
  {
    if next < i {
      WaitingHolds(targets, next + 1, i);
    }
  }

  lemma {:induction false} NotWaiting(targets: seq<nat>, next: nat, x: nat)
    requires forall j | next <= j < |targets| :: targets[j] != x
    ensures Waiting(targets, next, x) == 0
    decreases |targets| - next
  {
    if next < |targets| {
      NotWaiting(targets, next + 1, x);
    }
  }

  /** Once all workers are gone, what was never handed out is exactly what has no result. */
  lemma {:induction false} UnseenIsUnsent(r: Run, i: nat, x: nat)
    requires Placed(r) && r.buffer == [] && AllExited(r.workers) && Increasing(r.targets, r.bound)
    requires i <= |r.targets|
    ensures Unseen(r.targets, r.services, i, x) == Waiting(r.targets, if i < r.next then r.next else i, x)
    decreases |r.targets| - i
  {
    if i < |r.targets| {
      hide Seen;
      UnseenIsUnsent(r, i + 1, x);
      var t := r.targets[i];
      ResultsSeen(r.services, t);
      NobodyHolds(r.workers, t);
      assert Places(r, t) == 1;
      if i < r.next {
        NotWaiting(r.targets, r.next, t);
      } else {
        WaitingHolds(r.targets, r.next, i);
      }
    }
  }

  lemma ConcludePlaces(r: Run, x: nat)
    requires Inv(r) && Enabled(r, Conclude)
    ensures Results(Next(r, Conclude).services, x) == if x < |r.all| then 1 else 0
  {
    hide Sorted, Marks, Counted, Results, Waiting, Unseen;
    NobodyHolds(r.workers, x);
    NothingAbout(x);
    assert Places(r, x) == if x < r.bound then 1 else 0;
    if r.cancelled {
      RecordUnseenCounts(r, r.services, 0, x);
      UnseenIsUnsent(r, 0, x);
    } else {
      assert r.workers[0].Exited?;
      NotWaiting(r.targets, r.next, x);
    }
  }

  lemma UnseenNotDropped(r: Run)
    requires Marks(r) && r.buffer == []
    ensures forall x | !Seen(r.services, x) :: x !in r.dropped
  {
    forall x | x in r.dropped ensures Seen(r.services, x) {
      assert MarkedOrDropped(r, x);
      assert Results(r.buffer, x) == 0;
      ResultsSeen(r.services, x);
    }
  }

  lemma FinishCounts(r: Run)
    requires Counted(r) && r.stage != Finished
    ensures Counted(Finish(r))
  {
  }

  lemma ConcludeKeeps(r: Run)
    requires Inv(r) && Enabled(r, Conclude)
    ensures Inv(Next(r, Conclude))
  {
    hide Sorted, Marks, Counted, Results, RecordUnseen, Increasing, Placed, Seen;
    var e, v := if r.cancelled then RecordUnseen(r, r.services, 0) else r, Next(r, Conclude);
    RecordUnseenShape(r, r.services, 0);
    UnseenNotDropped(r);
    RecordUnseenMarks(r, r.services, 0);
    FinishCounts(e);
    MarksIgnores(e, v);
    forall x: nat ensures Results(v.services, x) == if x < |r.all| then 1 else 0 {
      ConcludePlaces(r, x);
    }
  }

  lemma StepKeeps(r: Run, s: Step)
    requires Inv(r) && Enabled(r, s)
    ensures Inv(Next(r, s))
  {
    hide Inv, Bind, Record, RecordUnseen, Finish;
    match s
    case BindNext(ok) => BindKeeps(r, ok);
    case StartPool => StartKeeps(r);
    case Hand(w) => HandKeeps(r, w);
    case Report(w, outcome) =>
      var x := r.workers[w].service;
      SentKeeps(r, w, outcome, if outcome == Failed then r.marked + {x} else r.marked, r.dropped);
    case Drop(w) => SentKeeps(r, w, Failed, r.marked, r.dropped + {r.workers[w].service});
    case Leave(w) => LeaveKeeps(r, w);
    case Collect => CollectKeeps(r);
    case Conclude => ConcludeKeeps(r);
    case _ => FlagKeeps(r, s);
  }

  lemma {:induction false} RunKeeps(r: Run, steps: seq<Step>)
    requires Inv(r) && RunOk(r, steps)
    ensures Inv(RunAll(r, steps))
    decreases |steps|
  {
    if steps != [] {
      StepKeeps(r, steps[0]);
      hide Inv, Enabled, Next;
      RunKeeps(Next(r, steps[0]), steps[1..]);
    }
  }

  // ---- What holds at every point, and at the end ----

  /** While the run is not over mutators are refused, no more than maxParallel services are being restored,
      none before every listener has been bound, and sending a result never blocks. */
  lemma AtEveryPoint(all: seq<Entry>, option: int, steps: seq<Step>)
    requires RunOk(Begin(all, option), steps)
    ensures var r := RunAll(Begin(all, option), steps);
            && (MutationsBlocked(r.tracker) <==> r.stage != Finished)
            && BusyWorkers(r.workers) <= |r.workers| <= Parallelism(option)
            && (BusyWorkers(r.workers) > 0 ==> r.bound == |all|)
            && (BusyWorkers(r.workers) > 0 ==> |r.buffer| < |r.targets|)
            && Sum(r.counts) == |r.services|
  {
    hide Begin, Parallelism, Marks, Placed, OncePer, Increasing, Sorted;
    BeginsSound(all, option);
    RunKeeps(Begin(all, option), steps);
    SameInput(Begin(all, option), steps);
    var r := RunAll(Begin(all, option), steps);
    BusyAtMost(r.workers);
  }

  lemma {:induction false} BusyAtMost(workers: seq<Worker>)
    ensures BusyWorkers(workers) <= |workers|
  {
    if workers != [] {
      BusyAtMost(workers[..|workers| - 1]);
    }
  }

  lemma {:induction false} SameInput(r: Run, steps: seq<Step>)
    requires Inv(r) && RunOk(r, steps)
    ensures RunAll(r, steps).all == r.all && RunAll(r, steps).maxParallel == r.maxParallel
    decreases |steps|
  {
    if steps != [] {
      StepKeeps(r, steps[0]);
      NextSameInput(r, steps[0]);
      hide Inv, Enabled, Next;
      SameInput(Next(r, steps[0]), steps[1..]);
    }
  }

  lemma NextSameInput(r: Run, s: Step)
    requires Inv(r) && Enabled(r, s)
    ensures Next(r, s).all == r.all && Next(r, s).maxParallel == r.maxParallel
  {
    hide Sorted, Marks, Counted, Placed, OncePer, Increasing, RecordUnseen;
    if s.Conclude? {
      RecordUnseenShape(r, r.services, 0);
    }
  }

  /** However the workers were scheduled and whenever the context was cancelled: at the end the results are
      those of all services, one each, in order; the counters add up to their number; and a service with a
      failure is one the registry calls failed, exactly unless its worker dropped it - which takes a
      cancellation. */
  lemma AtTheEnd(all: seq<Entry>, option: int, steps: seq<Step>)
    requires RunOk(Begin(all, option), steps)
    requires RunAll(Begin(all, option), steps).stage == Finished
    ensures var r := RunAll(Begin(all, option), steps);
            && |r.services| == |all| == Sum(r.counts) == r.tracker.completed == r.tracker.total
            && (forall i | 0 <= i < |all| :: r.services[i].service == i)
            && (forall i | 0 <= i < |all| && Failure(r.services[i]) :: i in r.marked <==> i !in r.dropped)
            && (!r.cancelled ==> r.dropped == {})
  {
    hide Begin, Placed, OncePer, Increasing, Shape;
    var r := RunAll(Begin(all, option), steps);
    BeginsSound(all, option);
    RunKeeps(Begin(all, option), steps);
    SameInput(Begin(all, option), steps);
    DropsNeedCancel(Begin(all, option), steps);
    SortedIsExact(r.services, |all|);
    forall i | 0 <= i < |all| && Failure(r.services[i]) ensures i in r.marked <==> i !in r.dropped {
      assert r.services[i] in r.services;
      assert MarkedOrDropped(r, i);
    }
  }

  /** Only a cancellation drops anything. */
  lemma {:induction false} DropsNeedCancel(r: Run, steps: seq<Step>)
    requires Inv(r) && RunOk(r, steps) && (!r.cancelled ==> r.dropped == {})
    ensures !RunAll(r, steps).cancelled ==> RunAll(r, steps).dropped == {}
    decreases |steps|
  {
    if steps != [] {
      StepKeeps(r, steps[0]);
      NextDropped(r, steps[0]);
      hide Inv, Enabled, Next;
      DropsNeedCancel(Next(r, steps[0]), steps[1..]);
    }
  }

  lemma NextDropped(r: Run, s: Step)
    requires Inv(r) && Enabled(r, s) && (!r.cancelled ==> r.dropped == {})
    ensures !Next(r, s).cancelled ==> Next(r, s).dropped == {}
  {
    hide Sorted, Marks, Counted, Placed, OncePer, Increasing, RecordUnseen;
    if s.Conclude? {
      RecordUnseenShape(r, r.services, 0);
    }
  }

  // ---- No deadlock, and an end ----

  function SomeWorker(workers: seq<Worker>): nat
    requires workers != []
    ensures SomeWorker(workers) < |workers|
    ensures (exists w :: 0 <= w < |workers| && !workers[w].Exited?) ==> !workers[SomeWorker(workers)].Exited?
  {
    if !workers[|workers| - 1].Exited? || |workers| == 1 then |workers| - 1
    else SomeWorker(workers[..|workers| - 1])
  }

  /** A step that is always possible while the run is not over, without any cancellation. */
  function SomeStep(r: Run): Step {
    if r.stage == Binding then if r.bound < |r.all| then BindNext(true) else StartPool
    else if r.buffer != [] then Collect
    else if r.resultsClosed then Conclude
    else if AllExited(r.workers) || r.workers == [] then CloseResults
    else
      var w := SomeWorker(r.workers);
      if r.workers[w].Busy? then Report(w, Failed)
      else if r.jobsClosed then Leave(w)
      else if r.next < |r.targets| then Hand(w)
      else FinishFeeding
  }

  lemma NeverStuck(r: Run)
    requires Inv(r) && r.stage != Finished
    ensures Enabled(r, SomeStep(r)) && !SomeStep(r).Cancel?
  {
    hide Sorted, Marks, Counted, Placed, Increasing;
    if r.stage == Pooling && r.buffer == [] && !AllExited(r.workers) {
      var w := SomeWorker(r.workers);
      if r.workers[w].Busy? {
        BusyUpdate(r.workers, w, Idle);
      }
    }
  }

  function Standing(workers: seq<Worker>): nat {
    if workers == [] then 0
    else Standing(workers[..|workers| - 1]) + (if workers[|workers| - 1].Exited? then 0 else 1)
  }

  lemma {:induction false} StandingUpdate(workers: seq<Worker>, w: nat, v: Worker)
    requires w < |workers|
    ensures Standing(workers[w := v]) + (if workers[w].Exited? then 0 else 1) == Standing(workers) + (if v.Exited? then 0 else 1)
  {
    var n := |workers| - 1;
    if w < n {
      StandingUpdate(workers[..n], w, v);
      assert workers[w := v][..n] == workers[..n][w := v];
    } else {
      assert workers[w := v][..n] == workers[..n];
    }
  }

  lemma {:induction false} StandingAtMost(workers: seq<Worker>)
    ensures Standing(workers) <= |workers|
  {
    if workers != [] {
      StandingAtMost(workers[..|workers| - 1]);
    }
  }

  /** What is left to do. */
  function Measure(r: Run): int {
    (if r.cancelled then 0 else 1) +
    (match r.stage
     case Finished => 0
     case Binding => 5 * (|r.all| - r.bound) + 4 * |r.targets| + 4
     case Pooling =>
       3 * (|r.targets| - r.next) + 2 * BusyWorkers(r.workers) + |r.buffer| + Standing(r.workers)
       + (if r.jobsClosed then 0 else 1) + (if r.resultsClosed then 0 else 1) + 1)
  }

  lemma BindShape(r: Run, ok: bool)
    requires r.bound < |r.all|
    ensures var v := Bind(r, ok);
            && v.stage == r.stage && v.bound == r.bound + 1 && v.all == r.all && v.cancelled == r.cancelled
            && |v.targets| <= |r.targets| + 1
  {
  }

  lemma StepsCount(r: Run, s: Step)
    requires Inv(r) && Enabled(r, s)
    ensures 0 <= Measure(Next(r, s)) < Measure(r)
  {
    hide Sorted, Marks, Counted, Placed, OncePer, Increasing, RecordUnseen, Record, BusyWorkers, Standing;
    match s
    case BindNext(ok) => BindShape(r, ok);
    case Collect => RecordShape(r.(buffer := r.buffer[1..]), r.buffer[0]);
    case StartPool =>
      var v := Next(r, StartPool);
      NobodyBusy(v.workers);
      StandingAtMost(v.workers);
    case Conclude => RecordUnseenShape(r, r.services, 0);
    case Hand(w) => WorkerStepsCount(r, s, w, Busy(r.targets[r.next]));
    case Report(w, _) => WorkerStepsCount(r, s, w, Idle);
    case Drop(w) => WorkerStepsCount(r, s, w, Idle);
    case Leave(w) => WorkerStepsCount(r, s, w, Exited);
    case _ =>
  }

  lemma WorkerStepsCount(r: Run, s: Step, w: nat, v: Worker)
    requires Shape(r) && Enabled(r, s) && w < |r.workers|
    requires s == Hand(w) || (s.Report? && s.w == w) || s == Drop(w) || s == Leave(w)
    requires v == if s.Hand? then Busy(r.targets[r.next]) else if s.Leave? then Exited else Idle
    ensures 0 <= Measure(Next(r, s)) < Measure(r)
  {
    hide BusyWorkers, Standing;
    BusyUpdate(r.workers, w, v);
    StandingUpdate(r.workers, w, v);
  }

  /** No schedule goes on for more than five steps per service and five more, and none stops before the run
      is finished. */
  lemma {:induction false} RunsEnd(r: Run, steps: seq<Step>)
    requires Inv(r) && RunOk(r, steps)
    ensures |steps| <= Measure(r)
    ensures (forall s :: !Enabled(RunAll(r, steps), s)) ==> RunAll(r, steps).stage == Finished
    decreases |steps|
  {
    if steps == [] {
      if r.stage != Finished {
        NeverStuck(r);
      }
      hide Sorted, Marks, Counted, Placed, OncePer, Increasing;
      assert Measure(r) >= 0;
    } else {
      StepKeeps(r, steps[0]);
      StepsCount(r, steps[0]);
      NextSameInput(r, steps[0]);
      hide Inv, Enabled, Next, Measure;
      RunsEnd(Next(r, steps[0]), steps[1..]);
    }
  }
}
