/** What RestoreAll reports for each service, from what the listeners and the workers answered. */
module RestoreOutcomes {
  import opened RestoreSpec
  import opened RestoreProofs

  /** What the last step of a service's worker was: a result, or leaving the job because of the
      cancellation. */
  datatype Word = Reported(outcome: Outcome) | Gone

  function Answer(s: Step): seq<bool> {
    if s.BindNext? then [s.ok] else []
  }

  /** The answers of the bind pass, in the order of the services. */
  function Answers(steps: seq<Step>): seq<bool> {
    if steps == [] then [] else Answer(steps[0]) + Answers(steps[1..])
  }

  function Heard(r: Run, s: Step, told: map<nat, Word>): map<nat, Word>
    requires Enabled(r, s)
  {
    match s
    case Report(w, outcome) => told[r.workers[w].service := Reported(outcome)]
    case Drop(w) => told[r.workers[w].service := Gone]
    case _ => told
  }

  /** What the workers said about the services they were busy with. */
  function HeardAll(r: Run, steps: seq<Step>, told: map<nat, Word>): map<nat, Word>
    requires RunOk(r, steps)
    decreases |steps|
  {
    if steps == [] then told else HeardAll(Next(r, steps[0]), steps[1..], Heard(r, steps[0], told))
  }

  function Says(word: Word): Outcome {
    match word
    case Reported(outcome) => outcome
    case Gone => Failed
  }

  /** A service to bring back: it has ports, they could be bound, and it was running before. */
  predicate Due(all: seq<Entry>, answers: seq<bool>, x: nat) {
    x < |all| && x < |answers| && all[x].hasPorts && answers[x] && all[x].wasRunning
  }

  predicate Unbound(all: seq<Entry>, answers: seq<bool>, x: nat) {
    x < |all| && x < |answers| && all[x].hasPorts && !answers[x]
  }

  /** The result follows from the answers and from what was said so far. */
  predicate Right(all: seq<Entry>, answers: seq<bool>, told: map<nat, Word>, res: Result) {
    if Due(all, answers, res.service) then res.service in told && res.outcome == Says(told[res.service])
    else res.outcome == if Unbound(all, answers, res.service) then BindFail else Skipped
  }

  ghost predicate AllRight(all: seq<Entry>, answers: seq<bool>, told: map<nat, Word>, s: seq<Result>) {
    forall res | res in s :: res.service < |answers| && Right(all, answers, told, res)
  }

  /** Services called failed are those whose ports were refused and those reported failed. */
  ghost predicate MarksTold(r: Run, answers: seq<bool>, told: map<nat, Word>) {
    && (forall x | x in told :: Due(r.all, answers, x))
    && (forall x :: x in r.marked <==> Unbound(r.all, answers, x) || (x in told && told[x] == Reported(Failed)))
    && (forall x :: x in r.dropped <==> x in told && told[x] == Gone)
  }

  ghost predicate AllDue(r: Run, answers: seq<bool>) {
    && (forall t | t in r.targets :: Due(r.all, answers, t))
    && (forall w | 0 <= w < |r.workers| && r.workers[w].Busy? :: Due(r.all, answers, r.workers[w].service))
  }

  ghost predicate Sent(r: Run, told: map<nat, Word>) {
    forall x | x in told :: Results(r.services, x) + Results(r.buffer, x) > 0
  }

  ghost predicate Tells(r: Run, answers: seq<bool>, told: map<nat, Word>) {
    && |answers| == r.bound
    && AllDue(r, answers)
    && AllRight(r.all, answers, told, r.services) && AllRight(r.all, answers, told, r.buffer)
    && Sent(r, told) && MarksTold(r, answers, told)
  }

  // ---- The steps ----

  lemma RightLonger(all: seq<Entry>, answers: seq<bool>, ok: bool, told: map<nat, Word>, s: seq<Result>)
    requires AllRight(all, answers, told, s)
    ensures AllRight(all, answers + [ok], told, s)
  {
    forall res | res in s ensures Right(all, answers + [ok], told, res) {
      assert Right(all, answers, told, res);
    }
  }

  lemma RightInserted(all: seq<Entry>, answers: seq<bool>, told: map<nat, Word>, s: seq<Result>, res: Result)
    requires AllRight(all, answers, told, s) && res.service < |answers| && Right(all, answers, told, res)
    ensures AllRight(all, answers, told, Insert(s, res))
  {
    hide Right, Insert;
    InsertHolds(s, res);
  }

  lemma BindTells(r: Run, ok: bool, answers: seq<bool>, told: map<nat, Word>)
    requires Inv(r) && Tells(r, answers, told) && Enabled(r, BindNext(ok))
    ensures Tells(Bind(r, ok), answers + [ok], told)
  {
    hide Inv, Insert, Right, Sent, Due;
    var x, more := r.bound, answers + [ok];
    BindsInShape(r);
    RightLonger(r.all, answers, ok, told, r.services);
    RightLonger(r.all, answers, ok, told, r.buffer);
    var res := Result(x, if !r.all[x].hasPorts then Skipped else if !ok then BindFail else Skipped);
    BindsRight(r, ok, answers, told, res);
    if !Due(r.all, more, x) {
      RightInserted(r.all, more, told, r.services, res);
    }
    BindsSent(r, Bind(r, ok), told, res);
    BindsMarks(r, Bind(r, ok), answers, ok, told);
  }

  lemma BindsInShape(r: Run)
    requires Inv(r) && r.stage == Binding
    ensures r.workers == [] && r.buffer == []
  {
    hide Sorted, Marks, Counted, Placed, OncePer, Increasing;
  }

  lemma BindsRight(r: Run, ok: bool, answers: seq<bool>, told: map<nat, Word>, res: Result)
    requires |answers| == r.bound < |r.all|
    requires res == Result(r.bound, if !r.all[r.bound].hasPorts then Skipped else if !ok then BindFail else Skipped)
    ensures var more := answers + [ok];
            && (Due(r.all, more, r.bound) <==> r.all[r.bound].hasPorts && ok && r.all[r.bound].wasRunning)
            && (!Due(r.all, more, r.bound) ==> Right(r.all, more, told, res))
            && (forall t | Due(r.all, answers, t) :: Due(r.all, more, t))
  {
  }

  lemma BindsSent(r: Run, v: Run, told: map<nat, Word>, res: Result)
    requires Sent(r, told) && r.buffer == v.buffer
    requires v.services == r.services || v.services == Insert(r.services, res)
    ensures Sent(v, told)
  {
    hide Insert;
    if v.services != r.services {
      forall x | x in told ensures Results(v.services, x) + Results(v.buffer, x) > 0 {
        InsertCounts(r.services, res, x);
      }
    }
  }

  lemma BindsMarks(r: Run, v: Run, answers: seq<bool>, ok: bool, told: map<nat, Word>)
    requires MarksTold(r, answers, told) && |answers| == r.bound < |r.all|
    requires v.all == r.all && v.dropped == r.dropped
    requires v.marked == if r.all[r.bound].hasPorts && !ok then r.marked + {r.bound} else r.marked
    ensures MarksTold(v, answers + [ok], told)
  {
    var more := answers + [ok];
    assert forall x | x != r.bound :: Unbound(r.all, more, x) <==> Unbound(r.all, answers, x);
    assert Unbound(r.all, more, r.bound) <==> r.all[r.bound].hasPorts && !ok;
  }

  /** A busy worker's service has no result yet, and nothing was said about it. */
  lemma BusyIsUntold(r: Run, w: nat, answers: seq<bool>, told: map<nat, Word>)
    requires Inv(r) && Tells(r, answers, told) && IsBusy(r, w) && r.stage == Pooling
    ensures var x := r.workers[w].service;
            x !in told && Results(r.services, x) == 0 == Results(r.buffer, x) && Due(r.all, answers, x)
  {
    hide Shape, Counted, Marks, Sorted, Increasing, AllRight, MarksTold, Due;
    var x := r.workers[w].service;
    HeldUpdate(r.workers, w, Idle, x);
    assert Places(r, x) <= 1;
  }

  lemma NoResult(s: seq<Result>, x: nat)
    requires Results(s, x) == 0
    ensures forall res | res in s :: res.service != x
  {
    ResultsSeen(s, x);
    forall res | res in s ensures res.service != x {
      var i :| 0 <= i < |s| && s[i] == res;
    }
  }

  lemma RightTold(all: seq<Entry>, answers: seq<bool>, told: map<nat, Word>, s: seq<Result>, x: nat, word: Word)
    requires AllRight(all, answers, told, s) && Results(s, x) == 0
    ensures AllRight(all, answers, told[x := word], s)
  {
    NoResult(s, x);
  }

  lemma SpokenTells(r: Run, s: Step, w: nat, answers: seq<bool>, told: map<nat, Word>)
    requires Inv(r) && Tells(r, answers, told) && Enabled(r, s)
    requires s == Drop(w) || (s.Report? && s.w == w)
    ensures Tells(Next(r, s), answers, Heard(r, s, told))
  {
    BusyIsUntold(r, w, answers, told);
    hide Inv, Insert, Due, Unbound, AllRight, Sent, MarksTold, AllDue;
    var x, q, more := r.workers[w].service, Next(r, s), Heard(r, s, told);
    var word := more[x];
    assert more == told[x := word];
    RightTold(r.all, answers, told, r.services, x, word);
    RightTold(r.all, answers, told, r.buffer, x, word);
    BufferRight(r.all, answers, more, r.buffer, Result(x, Says(word)));
    SpokenDue(r, q, w, answers);
    SpokenSent(r, q, told, x, word);
    SpokenMarks(r, q, answers, told, x, word);
  }

  lemma BufferRight(all: seq<Entry>, answers: seq<bool>, told: map<nat, Word>, s: seq<Result>, res: Result)
    requires AllRight(all, answers, told, s) && Due(all, answers, res.service) && res.service in told && res.outcome == Says(told[res.service])
    ensures AllRight(all, answers, told, s + [res])
  {
  }

  lemma SpokenDue(r: Run, q: Run, w: nat, answers: seq<bool>)
    requires AllDue(r, answers) && w < |r.workers|
    requires q.all == r.all && q.targets == r.targets && q.workers == r.workers[w := Idle]
    ensures AllDue(q, answers)
  {
    hide Due;
  }

  lemma SpokenSent(r: Run, q: Run, told: map<nat, Word>, x: nat, word: Word)
    requires Sent(r, told) && q.services == r.services && q.buffer == r.buffer + [Result(x, Says(word))]
    ensures Sent(q, told[x := word])
  {
    forall y | y in told[x := word] ensures Results(q.services, y) + Results(q.buffer, y) > 0 {
      ResultsAppend(r.buffer, Result(x, Says(word)), y);
    }
  }

  lemma SpokenMarks(r: Run, q: Run, answers: seq<bool>, told: map<nat, Word>, x: nat, word: Word)
    requires MarksTold(r, answers, told) && x !in told && Due(r.all, answers, x) && q.all == r.all
    requires q.marked == if word == Reported(Failed) then r.marked + {x} else r.marked
    requires q.dropped == if word == Gone then r.dropped + {x} else r.dropped
    ensures MarksTold(q, answers, told[x := word])
  {
  }

  lemma CollectTells(r: Run, answers: seq<bool>, told: map<nat, Word>)
    requires Tells(r, answers, told) && Enabled(r, Collect)
    ensures Tells(Next(r, Collect), answers, told)
  {
    hide Insert, Due, Unbound, Right;
    var res := r.buffer[0];
    assert res in r.buffer;
    RightInserted(r.all, answers, told, r.services, res);
    forall x | x in told ensures Results(Next(r, Collect).services, x) + Results(r.buffer[1..], x) > 0 {
      InsertCounts(r.services, res, x);
      ResultsDropFirst(r.buffer, x);
    }
  }

  lemma OtherTells(r: Run, s: Step, answers: seq<bool>, told: map<nat, Word>)
    requires Tells(r, answers, told) && Enabled(r, s)
    requires s.StartPool? || s.Hand? || s.Leave? || s.Cancel? || s.StopFeeding? || s.FinishFeeding? || s.CloseResults?
    ensures Tells(Next(r, s), answers, told)
  {
    hide Due, AllRight, Right, Unbound;
  }

  lemma StepTells(r: Run, s: Step, answers: seq<bool>, told: map<nat, Word>)
    requires Inv(r) && Tells(r, answers, told) && Enabled(r, s) && !s.Conclude?
    ensures Tells(Next(r, s), answers + Answer(s), Heard(r, s, told))
  {
    hide Inv, Tells, Record, Finish;
    assert answers + [] == answers;
    match s
    case BindNext(ok) => BindTells(r, ok, answers, told);
    case Report(w, _) => SpokenTells(r, s, w, answers, told);
    case Drop(w) => SpokenTells(r, s, w, answers, told);
    case Collect => CollectTells(r, answers, told);
    case _ => OtherTells(r, s, answers, told);
  }

  // ---- The end ----

  /** The outcome of a service: nothing to bring back is skipped, refused ports are a bind failure, and
      otherwise it is what the worker said, or a failure if no worker said anything. */
  function Expected(all: seq<Entry>, answers: seq<bool>, told: map<nat, Word>, x: nat): Outcome
    requires x < |all| && x < |answers|
  {
    if !all[x].hasPorts then Skipped
    else if !answers[x] then BindFail
    else if !all[x].wasRunning then Skipped
    else if x !in told then Failed
    else match told[x]
      case Reported(outcome) => outcome
      case Gone => Failed
  }

  /** What the finished run says about every service. */
  ghost predicate Told(r: Run, answers: seq<bool>, told: map<nat, Word>) {
    && |answers| == |r.all|
    && (forall res | res in r.services :: res.service < |r.all| && res.outcome == Expected(r.all, answers, told, res.service))
    && (forall x :: x in r.marked <==> Unbound(r.all, answers, x) || (Due(r.all, answers, x) && (x !in told || told[x] == Reported(Failed))))
    && (forall x :: x in r.dropped <==> x in told && told[x] == Gone)
    && (!r.cancelled ==> forall x | Due(r.all, answers, x) :: x in told)
  }

  /** Every service that is due and was not heard of is a target without a result. */
  ghost predicate Left(r: Run, seen: seq<Result>, i: nat, answers: seq<bool>, told: map<nat, Word>) {
    && i <= |r.targets| && |answers| == |r.all|
    && (forall t | t in r.targets :: Due(r.all, answers, t))
    && (forall j | i <= j < |r.targets| && !Seen(seen, r.targets[j]) :: r.targets[j] !in told)
    && (forall res | res in r.services :: res.service < |r.all| && res.outcome == Expected(r.all, answers, told, res.service))
    && (forall x :: x in r.marked <==> Unbound(r.all, answers, x) || (x in told && told[x] == Reported(Failed)) || UnseenBefore(r.targets, seen, i, x))
  }

  predicate UnseenBefore(targets: seq<nat>, seen: seq<Result>, i: nat, x: nat)
    requires i <= |targets|
  {
    exists j :: 0 <= j < i && targets[j] == x && !Seen(seen, targets[j])
  }

  lemma LeftNext(r: Run, seen: seq<Result>, i: nat, answers: seq<bool>, told: map<nat, Word>)
    requires Left(r, seen, i, answers, told) && i < |r.targets|
    ensures Seen(seen, r.targets[i]) ==> Left(r, seen, i + 1, answers, told)
    ensures !Seen(seen, r.targets[i]) ==>
              Left(Record(r.(marked := r.marked + {r.targets[i]}), RestoreSpec.Result(r.targets[i], Failed)), seen, i + 1, answers, told)
  {
    hide Seen, Insert;
    var t := r.targets[i];
    assert t in r.targets;
    InsertHolds(r.services, Result(t, Failed));
    forall x ensures UnseenBefore(r.targets, seen, i + 1, x) <==> UnseenBefore(r.targets, seen, i, x) || (x == t && !Seen(seen, t)) {
      if x == t && !Seen(seen, t) {
        assert r.targets[i] == x;
      }
    }
  }

  lemma {:induction false} RecordUnseenTells(r: Run, seen: seq<Result>, i: nat, answers: seq<bool>, told: map<nat, Word>)
    requires Left(r, seen, i, answers, told)
    ensures var v := RecordUnseen(r, seen, i);
            v.all == r.all && v.targets == r.targets && v.dropped == r.dropped && v.cancelled == r.cancelled
            && Left(v, seen, |r.targets|, answers, told)
    decreases |r.targets| - i
  {
    hide Left, Seen, Insert;
    LeftBound(r, seen, i, answers, told);
    if i < |r.targets| {
      LeftNext(r, seen, i, answers, told);
      if Seen(seen, r.targets[i]) {
        RecordUnseenTells(r, seen, i + 1, answers, told);
      } else {
        RecordUnseenTells(Record(r.(marked := r.marked + {r.targets[i]}), RestoreSpec.Result(r.targets[i], Failed)), seen, i + 1, answers, told);
      }
    }
  }

  lemma LeftBound(r: Run, seen: seq<Result>, i: nat, answers: seq<bool>, told: map<nat, Word>)
    requires Left(r, seen, i, answers, told)
    ensures i <= |r.targets|
  {
  }

  lemma UntoldUnseen(all: seq<Entry>, answers: seq<bool>, told: map<nat, Word>, s: seq<Result>, x: nat)
    requires AllRight(all, answers, told, s) && Due(all, answers, x) && x !in told
    ensures !Seen(s, x) && Results(s, x) == 0
  {
    hide Due;
    ResultsSeen(s, x);
    forall i | 0 <= i < |s| ensures s[i].service != x {
      assert s[i] in s;
    }
  }

  /** With the channel empty and no worker busy, a due service that nobody spoke about was never handed out. */
  lemma UntoldIsWaiting(r: Run, answers: seq<bool>, told: map<nat, Word>, x: nat)
    requires Inv(r) && Tells(r, answers, told) && r.stage != Finished && r.buffer == []
    requires forall w | 0 <= w < |r.workers| :: !r.workers[w].Busy?
    requires Due(r.all, answers, x) && x !in told
    ensures exists j :: r.next <= j < |r.targets| && r.targets[j] == x
  {
    hide Shape, Counted, Marks, Sorted, Increasing, MarksTold, AllDue;
    NobodyHolds(r.workers, x);
    UntoldUnseen(r.all, answers, told, r.services, x);
    assert Places(r, x) == 1;
    if !exists j :: r.next <= j < |r.targets| && r.targets[j] == x {
      NotWaiting(r.targets, r.next, x);
    }
  }

  lemma RightExpected(r: Run, answers: seq<bool>, told: map<nat, Word>)
    requires AllRight(r.all, answers, told, r.services) && |answers| == |r.all|
    ensures forall res | res in r.services :: res.service < |r.all| && res.outcome == Expected(r.all, answers, told, res.service)
  {
    forall res | res in r.services ensures res.service < |r.all| && res.outcome == Expected(r.all, answers, told, res.service) {
      assert Right(r.all, answers, told, res);
    }
  }

  lemma UnseenIsUntold(r: Run, told: map<nat, Word>)
    requires Sent(r, told) && r.buffer == []
    ensures forall x | x in told :: Seen(r.services, x)
  {
    hide Seen;
    forall x | x in told ensures Seen(r.services, x) {
      ResultsSeen(r.services, x);
      assert Results(r.services, x) + Results(r.buffer, x) > 0;
    }
  }

  lemma LeftAtConclude(r: Run, answers: seq<bool>, told: map<nat, Word>)
    requires Inv(r) && Tells(r, answers, told) && Enabled(r, Conclude)
    ensures Left(r, r.services, 0, answers, told)
    ensures forall x | Due(r.all, answers, x) && x !in told ::
              (exists j :: 0 <= j < |r.targets| && r.targets[j] == x && !Seen(r.services, x)) && r.cancelled
  {
    hide Counted, Marks, Sorted, Increasing, Placed, OncePer, Right, Due, Unbound;
    assert AllExited(r.workers) && r.jobsClosed && |answers| == |r.all|;
    RightExpected(r, answers, told);
    UnseenIsUntold(r, told);
    forall x | Due(r.all, answers, x) && x !in told
      ensures (exists j :: 0 <= j < |r.targets| && r.targets[j] == x && !Seen(r.services, x)) && r.cancelled
    {
      UntoldIsWaiting(r, answers, told, x);
      UntoldUnseen(r.all, answers, told, r.services, x);
    }
  }

  lemma ConcludeTold(r: Run, answers: seq<bool>, told: map<nat, Word>)
    requires Inv(r) && Tells(r, answers, told) && Enabled(r, Conclude)
    ensures Told(Next(r, Conclude), answers, told)
  {
    LeftAtConclude(r, answers, told);
    hide Inv, Left, Seen, Due, Unbound, Expected, RecordUnseen, AllRight, Sent, UnseenBefore, AllDue;
    UnseenAtEnd(r, answers, told);
    if r.cancelled {
      RecordUnseenTells(r, r.services, 0, answers, told);
      LeftTold(RecordUnseen(r, r.services, 0), r.services, answers, told);
    } else {
      LeftTold(r, r.services, answers, told);
    }
  }

  /** The targets without a result are the due services nobody spoke about. */
  lemma UnseenAtEnd(r: Run, answers: seq<bool>, told: map<nat, Word>)
    requires Left(r, r.services, 0, answers, told)
    requires forall x | Due(r.all, answers, x) && x !in told :: exists j :: 0 <= j < |r.targets| && r.targets[j] == x && !Seen(r.services, x)
    ensures forall x :: UnseenBefore(r.targets, r.services, |r.targets|, x) <==> Due(r.all, answers, x) && x !in told
    ensures (forall x | Due(r.all, answers, x) :: x in told) ==> Left(r, r.services, |r.targets|, answers, told)
  {
    hide Seen, Due, Unbound, Expected;
    forall x ensures UnseenBefore(r.targets, r.services, |r.targets|, x) <==> Due(r.all, answers, x) && x !in told {
      if UnseenBefore(r.targets, r.services, |r.targets|, x) {
        var j :| 0 <= j < |r.targets| && r.targets[j] == x && !Seen(r.services, x);
        assert r.targets[j] in r.targets;
      }
    }
  }

  lemma LeftTold(r: Run, seen: seq<Result>, answers: seq<bool>, told: map<nat, Word>)
    requires Left(r, seen, |r.targets|, answers, told)
    requires forall x :: UnseenBefore(r.targets, seen, |r.targets|, x) <==> Due(r.all, answers, x) && x !in told
    requires forall x | x in told :: Due(r.all, answers, x)
    requires forall x :: x in r.dropped <==> x in told && told[x] == Gone
    requires !r.cancelled ==> forall x | Due(r.all, answers, x) :: x in told
    ensures Told(Finish(r), answers, told)
  {
    hide Seen, Due, Unbound, Expected, UnseenBefore;
  }

  lemma StartTold(r: Run, answers: seq<bool>, told: map<nat, Word>)
    requires Inv(r) && Tells(r, answers, told) && Enabled(r, StartPool) && r.targets == []
    ensures Told(Next(r, StartPool), answers, told)
  {
    hide Counted, Marks, Sorted, Increasing, Placed, OncePer, Right, Due, Unbound, Expected;
    RightExpected(r, answers, told);
    forall x | Due(r.all, answers, x) ensures x in told {
      if x !in told {
        UntoldIsWaiting(r, answers, told, x);
      }
    }
  }

  /** Tells while the run goes on, Told once it is over. */
  ghost predicate Telling(r: Run, answers: seq<bool>, told: map<nat, Word>) {
    if r.stage == Finished then Told(r, answers, told) else Tells(r, answers, told)
  }

  lemma {:induction false} RunTells(r: Run, steps: seq<Step>, answers: seq<bool>, told: map<nat, Word>)
    requires Inv(r) && RunOk(r, steps) && Telling(r, answers, told)
    ensures Telling(RunAll(r, steps), answers + Answers(steps), HeardAll(r, steps, told))
    decreases |steps|
  {
    hide Inv, Telling, Enabled, Next, Heard, Answers;
    AnswersSplit(steps, answers);
    if steps != [] {
      NextTells(r, steps[0], answers, told);
      StepKeeps(r, steps[0]);
      RunTells(Next(r, steps[0]), steps[1..], answers + Answer(steps[0]), Heard(r, steps[0], told));
    }
  }

  lemma AnswersSplit(steps: seq<Step>, answers: seq<bool>)
    ensures steps == [] ==> answers + Answers(steps) == answers
    ensures steps != [] ==> answers + Answers(steps) == (answers + Answer(steps[0])) + Answers(steps[1..])
  {
    hide Answer;
    if steps != [] {
      var rest := Answers(steps[1..]);
      assert Answers(steps) == Answer(steps[0]) + rest;
      assert answers + (Answer(steps[0]) + rest) == (answers + Answer(steps[0])) + rest;
    }
  }

  lemma NextTells(r: Run, s: Step, answers: seq<bool>, told: map<nat, Word>)
    requires Inv(r) && Enabled(r, s) && Telling(r, answers, told)
    ensures Telling(Next(r, s), answers + Answer(s), Heard(r, s, told))
  {
    hide Inv, Tells, Told, RecordUnseen;
    assert answers + [] == answers;
    if s.Conclude? {
      ConcludeTold(r, answers, told);
    } else if s.StartPool? && r.targets == [] {
      StartTold(r, answers, told);
    } else {
      StepTells(r, s, answers, told);
      StaysUnfinished(r, s);
    }
  }

  lemma StaysUnfinished(r: Run, s: Step)
    requires Enabled(r, s) && !s.Conclude? && !(s.StartPool? && r.targets == [])
    ensures r.stage != Finished && Next(r, s).stage != Finished
  {
    hide Insert, Tally;
  }

  // ---- The counters ----

  /** How many services had one of these outcomes. */
  function HowMany(s: seq<Result>, outcomes: set<Outcome>): nat {
    if s == [] then 0 else HowMany(s[..|s| - 1], outcomes) + (if s[|s| - 1].outcome in outcomes then 1 else 0)
  }

  lemma HowManyAppend(s: seq<Result>, res: Result, outcomes: set<Outcome>)
    ensures HowMany(s + [res], outcomes) == HowMany(s, outcomes) + (if res.outcome in outcomes then 1 else 0)
  {
    assert (s + [res])[..|s|] == s;
  }

  lemma {:induction false} HowManyInserted(s: seq<Result>, res: Result, outcomes: set<Outcome>)
    ensures HowMany(Insert(s, res), outcomes) == HowMany(s, outcomes) + (if res.outcome in outcomes then 1 else 0)
  {
    if s == [] || s[|s| - 1].service <= res.service {
      HowManyAppend(s, res, outcomes);
    } else {
      HowManyInserted(s[..|s| - 1], res, outcomes);
      HowManyAppend(Insert(s[..|s| - 1], res), s[|s| - 1], outcomes);
    }
  }

  /** Each counter is the number of results of its kind; a directory that is served again counts as
      restored. */
  ghost predicate Tallied(r: Run) {
    r.counts == Counts(HowMany(r.services, {Running, Static}), HowMany(r.services, {Failed}), HowMany(r.services, {Orphaned}),
                       HowMany(r.services, {Skipped}), HowMany(r.services, {BindFail}))
  }

  lemma RecordTallies(r: Run, res: Result)
    requires Tallied(r)
    ensures Tallied(Record(r, res))
  {
    hide HowMany, Insert;
    HowManyInserted(r.services, res, {Running, Static});
    HowManyInserted(r.services, res, {Failed});
    HowManyInserted(r.services, res, {Orphaned});
    HowManyInserted(r.services, res, {Skipped});
    HowManyInserted(r.services, res, {BindFail});
  }

  lemma {:induction false} RecordUnseenTallies(r: Run, seen: seq<Result>, i: nat)
    requires i <= |r.targets| && Tallied(r)
    ensures Tallied(RecordUnseen(r, seen, i))
    decreases |r.targets| - i
  {
    hide HowMany, Record, Seen;
    if i < |r.targets| {
      if Seen(seen, r.targets[i]) {
        RecordUnseenTallies(r, seen, i + 1);
      } else {
        var marked := r.(marked := r.marked + {r.targets[i]});
        RecordTallies(marked, Result(r.targets[i], Failed));
        RecordShape(marked, Result(r.targets[i], Failed));
        RecordUnseenTallies(Record(marked, Result(r.targets[i], Failed)), seen, i + 1);
      }
    }
  }

  lemma StepTallies(r: Run, s: Step)
    requires Tallied(r) && Enabled(r, s)
    ensures Tallied(Next(r, s))
  {
    hide HowMany, Record, RecordUnseen, Insert;
    match s
    case BindNext(ok) =>
      var e, q := r.all[r.bound], r.(bound := r.bound + 1);
      var m := q.(marked := q.marked + {r.bound});
      RecordTallies(q, Result(r.bound, Skipped));
      RecordTallies(m, Result(r.bound, BindFail));
    case Collect => RecordTallies(r.(buffer := r.buffer[1..]), r.buffer[0]);
    case Conclude => RecordUnseenTallies(r, r.services, 0);
    case _ =>
  }

  lemma {:induction false} RunTallies(r: Run, steps: seq<Step>)
    requires Tallied(r) && RunOk(r, steps)
    ensures Tallied(RunAll(r, steps))
    decreases |steps|
  {
    if steps != [] {
      StepTallies(r, steps[0]);
      hide Tallied, Enabled, Next;
      RunTallies(Next(r, steps[0]), steps[1..]);
    }
  }

  // ---- The report ----

  /** However the workers were scheduled and whenever the context was cancelled: the result of each service
      is the one its ports, its state before and its worker call for; the registry calls failed exactly
      those whose ports were refused, those reported failed and those nobody got to, which takes a
      cancellation; and each counter is the number of results of its kind. */
  lemma OutcomesExact(all: seq<Entry>, option: int, steps: seq<Step>)
    requires RunOk(Begin(all, option), steps)
    requires RunAll(Begin(all, option), steps).stage == Finished
    ensures var r, answers, told := RunAll(Begin(all, option), steps), Answers(steps), HeardAll(Begin(all, option), steps, map[]);
            && |r.services| == |all| == |answers|
            && (forall i | 0 <= i < |all| :: r.services[i] == Result(i, Expected(all, answers, told, i)))
            && Told(r, answers, told) && Tallied(r)
  {
    hide Enabled, Next, Told, Expected, Tally, Inv;
    var b := Begin(all, option);
    BeginsTelling(all, option);
    hide Begin;
    BeginsSound(all, option);
    RunTells(b, steps, [], map[]);
    RunTallies(b, steps);
    AtTheEnd(all, option, steps);
    SameInput(b, steps);
    assert [] + Answers(steps) == Answers(steps);
    ToldEach(RunAll(b, steps), Answers(steps), HeardAll(b, steps, map[]));
  }

  lemma BeginsTelling(all: seq<Entry>, option: int)
    ensures Telling(Begin(all, option), [], map[]) && Tallied(Begin(all, option))
  {
  }

  lemma ToldEach(r: Run, answers: seq<bool>, told: map<nat, Word>)
    requires Told(r, answers, told)
    ensures |answers| == |r.all|
    ensures forall i | 0 <= i < |r.services| :: r.services[i].service < |r.all| && r.services[i].outcome == Expected(r.all, answers, told, r.services[i].service)
  {
    hide Expected;
    forall i | 0 <= i < |r.services| ensures r.services[i].service < |r.all| && r.services[i].outcome == Expected(r.all, answers, told, r.services[i].service) {
      assert r.services[i] in r.services;
    }
  }

  /** Services are brought back by as many workers as there are services to bring back, but no more than the
      given limit, or 4 if none is given. */
  ghost predicate Manned(r: Run, option: int) {
    && r.maxParallel == (if option > 0 then option else 4)
    && (r.stage == Binding ==> r.workers == [])
    && (r.stage == Pooling ==> |r.workers| == if |r.targets| < r.maxParallel then |r.targets| else r.maxParallel)
  }

  lemma {:induction false} RunMans(r: Run, option: int, steps: seq<Step>)
    requires Inv(r) && RunOk(r, steps) && Manned(r, option)
    ensures Manned(RunAll(r, steps), option)
    decreases |steps|
  {
    if steps != [] {
      StepMans(r, option, steps[0]);
      StepKeeps(r, steps[0]);
      hide Inv, Manned, Enabled, Next;
      RunMans(Next(r, steps[0]), option, steps[1..]);
    }
  }

  lemma StepMans(r: Run, option: int, s: Step)
    requires Inv(r) && Manned(r, option) && Enabled(r, s)
    ensures Manned(Next(r, s), option)
  {
    NextSameInput(r, s);
    hide Inv, Insert, Tally, RecordUnseen;
  }

  lemma BeginsManned(all: seq<Entry>, option: int)
    ensures Manned(Begin(all, option), option)
  {
  }

  /** At every point of every schedule. */
  lemma WorkersExact(all: seq<Entry>, option: int, steps: seq<Step>)
    requires RunOk(Begin(all, option), steps)
    ensures Manned(RunAll(Begin(all, option), steps), option)
  {
    hide Inv, Manned;
    BeginsSound(all, option);
    BeginsManned(all, option);
    RunMans(Begin(all, option), option, steps);
  }
}
