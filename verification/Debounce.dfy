/** The file watcher's debounce: events restart a timer, a timer that ran out reports all events since
    the last report - and its callback may come late, after newer events have replaced it. */
module Debounce {
  import opened Options

  datatype Kind = Write | Create | Rename | Removed | Chmod

  datatype FileEvent = FileEvent(kinds: set<Kind>, base: string, path: string)

  datatype Report = Report(count: nat, trigger: string)

  /** `timers` are the generations whose callback has not run yet, `armed` the one in `debounce`;
      `seen` and `reports` are the histories of counted events and of trigger calls. */
  datatype State = State(
    generation: nat,
    eventCount: nat,
    lastTrigger: string,
    armed: Option<nat>,
    timers: set<nat>,
    closed: bool,
    seen: seq<string>,
    reports: seq<Report>)

  const INITIAL := State(0, 0, "", None, {}, false, [], [])

  predicate Relevant(e: FileEvent) {
    && (Write in e.kinds || Create in e.kinds || Rename in e.kinds)
    && !(|e.base| > 0 && (e.base[0] == '.' || e.base[0] == '#'))
  }

  /** An event of the loop, which may still take one after `done` is closed. A timer that was armed may
      fire all the same. */
  function Event(s: State, e: FileEvent): State {
    if !Relevant(e) then s
    else
      s.(lastTrigger := e.path,
         eventCount := s.eventCount + 1,
         generation := s.generation + 1,
         armed := Some(s.generation + 1),
         timers := s.timers + {s.generation + 1},
         seen := s.seen + [e.path])
  }

  /** The callback of one timer runs, once, at any time after the timer was created. */
  function Callback(s: State, timer: nat): State {
    if timer !in s.timers then s
    else
      var t := s.(timers := s.timers - {timer});
      if s.closed || s.generation != timer then t
      else t.(eventCount := 0, armed := None, reports := s.reports + [Report(s.eventCount, s.lastTrigger)])
  }

  function Close(s: State): State {
    s.(closed := true)
  }

  datatype Step = OnEvent(e: FileEvent) | OnCallback(timer: nat) | OnClose

  function Next(s: State, step: Step): State {
    match step
    case OnEvent(e) => Event(s, e)
    case OnCallback(timer) => Callback(s, timer)
    case OnClose => Close(s)
  }

  function Run(s: State, steps: seq<Step>): State
    decreases |steps|
  {
    if steps == [] then s else Run(Next(s, steps[0]), steps[1..])
  }

  function Counted(reports: seq<Report>): nat {
    if reports == [] then 0 else Counted(reports[..|reports| - 1]) + reports[|reports| - 1].count
  }

  /** The k-th report covers the events after the ones before it: at least one, and its path is that of
      the last. */
  ghost predicate Covers(seen: seq<string>, reports: seq<Report>, k: nat)
    requires k < |reports|
  {
    var upTo := Counted(reports[..k]) + reports[k].count;
    reports[k].count > 0 && upTo <= |seen| && reports[k].trigger == seen[upTo - 1]
  }

  ghost predicate Inv(s: State) {
    && Counted(s.reports) + s.eventCount == |s.seen|
    && (forall k | 0 <= k < |s.reports| :: Covers(s.seen, s.reports, k))
    && (s.eventCount > 0 ==> s.lastTrigger == s.seen[|s.seen| - 1])
    && (forall t | t in s.timers :: t <= s.generation)
    && (s.generation in s.timers ==> s.eventCount > 0)
    && (s.eventCount > 0 && !s.closed ==> s.generation in s.timers && s.armed == Some(s.generation))
  }

  lemma EventKeeps(s: State, e: FileEvent)
    requires Inv(s)
    ensures Inv(Event(s, e))
  {
    var t := Event(s, e);
    forall k | 0 <= k < |t.reports| ensures Covers(t.seen, t.reports, k) {
      assert Covers(s.seen, s.reports, k);
    }
  }

  lemma CallbackKeeps(s: State, timer: nat)
    requires Inv(s)
    ensures Inv(Callback(s, timer))
  {
    var t := Callback(s, timer);
    if t.reports != s.reports {
      assert t.reports[..|s.reports|] == s.reports;
      forall k | 0 <= k < |t.reports| ensures Covers(t.seen, t.reports, k) {
        if k < |s.reports| {
          assert t.reports[..k] == s.reports[..k];
          assert Covers(s.seen, s.reports, k);
        }
      }
    }
  }

  /** However events and late callbacks interleave: reported plus pending events are the events seen, and
      the reports split them into consecutive blocks, none of them empty, each named after its last. */
  lemma {:induction false} RunConserves(s: State, steps: seq<Step>)
    requires Inv(s)
    ensures Inv(Run(s, steps))
    ensures s.reports <= Run(s, steps).reports && s.seen <= Run(s, steps).seen
    decreases |steps|
  {
    if steps != [] {
      match steps[0] {
        case OnEvent(e) => EventKeeps(s, e);
        case OnCallback(timer) => CallbackKeeps(s, timer);
        case OnClose =>
      }
      hide Inv;
      RunConserves(Next(s, steps[0]), steps[1..]);
    }
  }

  /** Events that do not count: those of hidden files and of editors' lock files, and those that neither write,
      create nor rename. */
  predicate Ignored(e: FileEvent) {
    e.kinds <= {Removed, Chmod} || "." <= e.base || "#" <= e.base
  }

  /** The paths of the events that count, in order. */
  function Paths(steps: seq<Step>): seq<string> {
    if steps == [] then []
    else (if steps[0].OnEvent? && !Ignored(steps[0].e) then [steps[0].e.path] else []) + Paths(steps[1..])
  }

  lemma IgnoredExactly(e: FileEvent)
    ensures Ignored(e) <==> !Relevant(e)
  {
    if !(e.kinds <= {Removed, Chmod}) {
      var k :| k in e.kinds && k !in {Removed, Chmod};
      assert k == Write || k == Create || k == Rename;
    }
    assert "." <= e.base <==> e.base != "" && e.base[0] == '.';
    assert "#" <= e.base <==> e.base != "" && e.base[0] == '#';
  }

  /** The events seen are exactly those that count. */
  lemma {:induction false} RunSees(s: State, steps: seq<Step>)
    ensures Run(s, steps).seen == s.seen + Paths(steps)
    decreases |steps|
  {
    if steps != [] {
      RunSees(Next(s, steps[0]), steps[1..]);
      if steps[0].OnEvent? {
        IgnoredExactly(steps[0].e);
      }
      assert s.seen + Paths(steps) == Next(s, steps[0]).seen + Paths(steps[1..]);
    }
  }

  lemma StartsSound()
    ensures Inv(INITIAL)
  {
  }

  lemma {:induction false} GenerationGrows(s: State, steps: seq<Step>)
    ensures s.generation <= Run(s, steps).generation
    ensures s.closed ==> Run(s, steps).reports == s.reports && Run(s, steps).closed
    decreases |steps|
  {
    if steps != [] {
      GenerationGrows(Next(s, steps[0]), steps[1..]);
    }
  }

  /** A timer superseded by a newer event never fires the trigger, however late its callback; nor does any
      timer once the watcher is closed. */
  lemma SupersededIsSilent(s: State, e: FileEvent, steps: seq<Step>, timer: nat)
    requires Inv(s) && timer <= s.generation
    requires Relevant(e) || s.closed
    ensures var q := Run(Event(s, e), steps);
            Callback(q, timer).reports == q.reports
  {
    GenerationGrows(Event(s, e), steps);
  }

  /** The newest timer, when it fires, reports every event that has not been reported, and leaves none
      pending. */
  lemma NewestReportsAll(s: State)
    requires Inv(s) && !s.closed && s.eventCount > 0
    ensures var q := Callback(s, s.generation);
            && q.eventCount == 0 && Counted(q.reports) == |q.seen|
            && q.reports == s.reports + [Report(|s.seen| - Counted(s.reports), s.seen[|s.seen| - 1])]
  {
    CallbackKeeps(s, s.generation);
  }

  /** The closure variables of runWatcher, updated in place. */
  class Watcher {
    var generation: nat
    var eventCount: nat
    var lastTrigger: string
    var debounce: Option<nat>
    var timers: set<nat>
    var done: bool
    ghost var seen: seq<string>
    ghost var reports: seq<Report>

    constructor ()
      ensures Now() == INITIAL
    {
      generation, eventCount, lastTrigger, debounce, timers, done := 0, 0, "", None, {}, false;
      seen, reports := [], [];
    }

    ghost function Now(): State
      reads this
    {
      State(generation, eventCount, lastTrigger, debounce, timers, done, seen, reports)
    }

    /** resetDebounce, for the events that count. */
    method OnFileEvent(e: FileEvent)
      modifies this
      ensures Now() == Event(old(Now()), e)
    {
      if !Relevant(e) { return; }
      lastTrigger := e.path;
      eventCount := eventCount + 1;
      generation := generation + 1;
      debounce := Some(generation);
      timers := timers + {generation};
      seen := seen + [e.path];
    }

    /** The callback; the result is the call of onTrigger, if it makes one. */
    method TimerFires(currentGeneration: nat) returns (report: Option<Report>)
      requires currentGeneration in timers
      modifies this
      ensures Now() == Callback(old(Now()), currentGeneration)
      ensures reports == old(reports) + if report.Some? then [report.value] else []
    {
      timers := timers - {currentGeneration};
      if done { return None; }
      if generation != currentGeneration { return None; }
      var count, trigger := eventCount, lastTrigger;
      eventCount := 0;
      debounce := None;
      reports := reports + [Report(count, trigger)];
      return Some(Report(count, trigger));
    }

    method CloseDone()
      modifies this
      ensures Now() == Close(old(Now()))
    {
      done := true;
    }
  }
}
