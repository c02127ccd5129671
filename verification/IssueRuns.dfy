/** Runs of the issue store: what each call does to each issue, and what becomes of an issue over any
    number of calls. Saving sorts, and which of two issues with equal keys comes first is left open, so a
    step relates the issues before and after up to their order. */
module IssueRuns {
  import opened Options
  import opened IssueSpec
  import opened IssueProofs

  /** The calls that write; the occurrence of an Append is the normalised one. */
  datatype Op =
    | OpAppend(occ: Occurrence, now: int)
    | OpAcknowledge(id: string, actor: string, now: int)
    | OpResolve(id: string, actor: string, trackerUrl: string, now: int)
    | OpReopen(id: string, actor: string, now: int)

  function Transition(op: Op, life: Lifecycle): Option<Lifecycle> {
    match op
    case OpAppend(_, _) => None
    case OpAcknowledge(_, actor, now) => Acknowledge(life, actor, now)
    case OpResolve(_, actor, url, now) => Resolve(life, actor, url, now)
    case OpReopen(_, actor, now) => Reopen(life, actor, now)
  }

  predicate FirstWithId(issues: seq<Issue>, i: nat, id: string) {
    i < |issues| && issues[i].latest.id == id && forall j | 0 <= j < i :: issues[j].latest.id != id
  }

  ghost predicate Appended(fp: Fingerprints, before: seq<Issue>, occ: Occurrence, now: int, after: seq<Issue>) {
    exists mid :: Reordered(before, mid) && Reordered(Merge(fp, mid, occ, now), after)
  }

  /** The first issue with the ID takes the transition and becomes `issue`; the others stay. */
  ghost predicate Moved(before: seq<Issue>, op: Op, after: seq<Issue>, issue: Issue)
    requires !op.OpAppend?
  {
    exists mid, i :: MovedAt(before, op, mid, i, issue, after)
  }

  ghost predicate MovedAt(before: seq<Issue>, op: Op, mid: seq<Issue>, i: nat, issue: Issue, after: seq<Issue>)
    requires !op.OpAppend?
  {
    && Reordered(before, mid) && FirstWithId(mid, i, op.id)
    && Transition(op, mid[i].life) == Some(issue.life) && issue == mid[i].(life := issue.life)
    && Reordered(mid[i := issue], after)
  }

  /** There is no issue with the ID, or the first one does not allow the transition. */
  ghost predicate Refused(before: seq<Issue>, op: Op, after: seq<Issue>)
    requires !op.OpAppend?
  {
    && after == before
    && exists mid :: RefusedAt(before, op, mid)
  }

  ghost predicate RefusedAt(before: seq<Issue>, op: Op, mid: seq<Issue>)
    requires !op.OpAppend?
  {
    Reordered(before, mid) && forall i: nat | FirstWithId(mid, i, op.id) :: Transition(op, mid[i].life) == None
  }

  ghost predicate Took(fp: Fingerprints, before: seq<Issue>, op: Op, after: seq<Issue>) {
    if op.OpAppend? then Appended(fp, before, op.occ, op.now, after)
    else Refused(before, op, after) || exists issue :: Moved(before, op, after, issue)
  }

  function LogAfter(log: seq<Occurrence>, op: Op): seq<Occurrence> {
    if op.OpAppend? then log + [op.occ] else log
  }

  /** Sound lifecycles, and the log grouped by fingerprint. */
  ghost predicate StoreOk(fp: Fingerprints, issues: seq<Issue>, log: seq<Occurrence>) {
    Groups(fp, issues, log) && forall i | 0 <= i < |issues| :: LifecycleOk(issues[i].life)
  }

  // ---- One step ----

  lemma SameMembers(a: seq<Issue>, b: seq<Issue>)
    requires Reordered(a, b)
    ensures |a| == |b| && forall x :: x in a <==> x in b
  {
    var perm :| ReorderedBy(perm, a, b);
    forall i | 0 <= i < |a| ensures a[i] in b {
      assert i in perm;
      var j :| 0 <= j < |perm| && perm[j] == i;
      assert b[j] == a[i];
    }
  }

  lemma ReorderedOk(fp: Fingerprints, a: seq<Issue>, b: seq<Issue>, log: seq<Occurrence>)
    requires StoreOk(fp, a, log) && Reordered(a, b)
    ensures StoreOk(fp, b, log)
  {
    hide Groups, LifecycleOk, Reordered;
    ReorderedGroups(fp, a, b, log);
    SameMembers(a, b);
    forall i | 0 <= i < |b| ensures LifecycleOk(b[i].life) {
      assert b[i] in a;
    }
  }

  lemma FreshIsOk()
    ensures LifecycleOk(FRESH)
  {
  }

  lemma RebuiltIsFresh(fp: Fingerprints, id: string, occs: seq<Occurrence>)
    requires occs != []
    ensures Rebuild(fp, id, occs).life == FRESH
  {
  }

  lemma MergeLifecycles(fp: Fingerprints, issues: seq<Issue>, occ: Occurrence, now: int)
    requires forall i | 0 <= i < |issues| :: LifecycleOk(issues[i].life)
    ensures var q := Merge(fp, issues, occ, now);
            forall i | 0 <= i < |q| :: LifecycleOk(q[i].life)
  {
    hide Rebuild, LifecycleOk, Reoccurred;
    var i := FindIssue(issues, fp(KeyOf(occ)));
    FreshIsOk();
    if i < |issues| {
      ReoccurredExact(issues[i].life, now);
    }
    RebuiltIsFresh(fp, occ.id, [occ]);
    if i < |issues| {
      RebuiltIsFresh(fp, issues[i].latest.id, issues[i].occurrences + [occ]);
    }
  }

  lemma LifecycleIsApart(fp: Fingerprints, issues: seq<Issue>, i: nat, life: Lifecycle, log: seq<Occurrence>)
    requires Groups(fp, issues, log) && i < |issues|
    ensures Groups(fp, issues[i := issues[i].(life := life)], log)
  {
    hide Represents, Normal;
    var q := issues[i := issues[i].(life := life)];
    LifeIsApart(fp, issues[i], life, log);
    forall k | 0 <= k < |log| ensures Covered(q, fp(KeyOf(log[k]))) {
      assert Covered(issues, fp(KeyOf(log[k])));
      var j :| 0 <= j < |issues| && issues[j].fingerprint == fp(KeyOf(log[k]));
      assert q[j].fingerprint == issues[j].fingerprint;
    }
  }

  lemma LifeIsApart(fp: Fingerprints, issue: Issue, life: Lifecycle, log: seq<Occurrence>)
    requires Represents(fp, issue, log)
    ensures Represents(fp, issue.(life := life), log)
  {
  }

  lemma TransitionKeepsOk(op: Op, life: Lifecycle)
    requires LifecycleOk(life)
    ensures Transition(op, life).Some? ==> LifecycleOk(Transition(op, life).value)
    ensures Transition(op, life).Some? ==> |Transition(op, life).value.history| == |life.history| + 1 && life.history <= Transition(op, life).value.history
  {
    hide LifecycleOk, TrimSpace;
    match op
    case OpAppend(_, _) =>
    case OpAcknowledge(_, actor, now) => TransitionsExact(life, actor, "", now);
    case OpResolve(_, actor, url, now) => TransitionsExact(life, actor, url, now);
    case OpReopen(_, actor, now) => TransitionsExact(life, actor, "", now);
  }

  lemma StepKeepsOk(fp: Fingerprints, before: seq<Issue>, log: seq<Occurrence>, op: Op, after: seq<Issue>)
    requires StoreOk(fp, before, log) && Took(fp, before, op, after)
    requires op.OpAppend? ==> Normal(op.occ)
    ensures StoreOk(fp, after, LogAfter(log, op))
  {
    hide Groups, LifecycleOk, Reordered, Merge, Transition, Normal, StoreOk;
    if op.OpAppend? {
      var mid :| Reordered(before, mid) && Reordered(Merge(fp, mid, op.occ, op.now), after);
      ReorderedOk(fp, before, mid, log);
      MergeKeepsOk(fp, mid, log, op.occ, op.now);
      ReorderedOk(fp, Merge(fp, mid, op.occ, op.now), after, log + [op.occ]);
    } else if !Refused(before, op, after) {
      var issue :| Moved(before, op, after, issue);
      var mid: seq<Issue>, i: nat :| MovedAt(before, op, mid, i, issue, after);
      ReorderedOk(fp, before, mid, log);
      MoveKeepsOk(fp, mid, log, op, i, issue);
      ReorderedOk(fp, mid[i := issue], after, log);
    }
  }

  lemma MergeKeepsOk(fp: Fingerprints, issues: seq<Issue>, log: seq<Occurrence>, occ: Occurrence, now: int)
    requires StoreOk(fp, issues, log) && Normal(occ)
    ensures StoreOk(fp, Merge(fp, issues, occ, now), log + [occ])
  {
    hide Groups, LifecycleOk, Merge, Normal;
    MergeGroups(fp, issues, log, occ, now);
    MergeLifecycles(fp, issues, occ, now);
  }

  lemma MoveKeepsOk(fp: Fingerprints, issues: seq<Issue>, log: seq<Occurrence>, op: Op, i: nat, issue: Issue)
    requires StoreOk(fp, issues, log) && i < |issues|
    requires Transition(op, issues[i].life) == Some(issue.life) && issue == issues[i].(life := issue.life)
    ensures StoreOk(fp, issues[i := issue], log)
  {
    hide Groups, LifecycleOk, Transition;
    TransitionKeepsOk(op, issues[i].life);
    LifecycleIsApart(fp, issues, i, issue.life, log);
  }

  /** What a call makes of one issue: an occurrence of its class is merged into it, which reopens it if it
      is resolved; a transition under its ID changes its lifecycle if its state allows it; nothing else
      touches it. */
  function Evolve(fp: Fingerprints, x: Issue, op: Op): Issue {
    if op.OpAppend? then
      if fp(KeyOf(op.occ)) == x.fingerprint then Merged(fp, x, op.occ, op.now) else x
    else if op.id == x.latest.id && Transition(op, x.life).Some? then x.(life := Transition(op, x.life).value)
    else x
  }

  ghost predicate DistinctIds(issues: seq<Issue>) {
    forall i, j | 0 <= i < j < |issues| :: issues[i].latest.id != issues[j].latest.id
  }

  lemma ReorderedDistinct(a: seq<Issue>, b: seq<Issue>)
    requires Reordered(a, b)
    ensures Unique(a) ==> Unique(b)
    ensures DistinctIds(a) ==> DistinctIds(b)
  {
  }

  /** The class is in the store already. */
  ghost predicate Held(issues: seq<Issue>, f: string) {
    exists x :: x in issues && x.fingerprint == f
  }

  /** An Append, issue by issue: each one evolves, and one is added exactly if its class is new. */
  lemma AppendExact(fp: Fingerprints, before: seq<Issue>, op: Op, after: seq<Issue>)
    requires Unique(before) && op.OpAppend? && Took(fp, before, op, after)
    ensures forall x | x in before :: Evolve(fp, x, op) in after
    ensures forall y | y in after :: (exists x :: x in before && y == Evolve(fp, x, op))
                                     || (y == Rebuild(fp, op.occ.id, [op.occ]) && !Held(before, fp(KeyOf(op.occ))))
    ensures |after| == if Held(before, fp(KeyOf(op.occ))) then |before| else |before| + 1
  {
    hide Reordered, Merged, Rebuild, Unique;
    var mid :| Reordered(before, mid) && Reordered(Merge(fp, mid, op.occ, op.now), after);
    var q, f := Merge(fp, mid, op.occ, op.now), fp(KeyOf(op.occ));
    ReorderedDistinct(before, mid);
    SameMembers(before, mid);
    SameMembers(q, after);
    MergeEvolves(fp, mid, op.occ, op.now);
    assert Held(before, f) <==> Held(mid, f);
    forall y | y in after ensures (exists x :: x in before && y == Evolve(fp, x, op)) || (y == Rebuild(fp, op.occ.id, [op.occ]) && !Held(before, f)) {
      assert y in q;
      var k :| 0 <= k < |q| && q[k] == y;
      if k < |mid| {
        assert mid[k] in before && y == Evolve(fp, mid[k], op);
      }
    }
  }

  /** What an Append makes of the issue that holds the class already: it keeps its ID and its occurrences, has
      the new one last, and is active again if it had been resolved. */
  lemma AppendJoins(fp: Fingerprints, before: seq<Issue>, op: Op, after: seq<Issue>, x: Issue)
    requires Unique(before) && op.OpAppend? && Took(fp, before, op, after)
    requires x in before && x.fingerprint == fp(KeyOf(op.occ)) && x.latest.id != ""
    ensures exists y :: && y in after && y.latest.id == x.latest.id && y.occurrences == x.occurrences + [op.occ]
                        && y.life == if x.life.state == Resolved then
                             x.life.(state := Active, resolvedAt := None, resolvedBy := "",
                                     history := x.life.history + [LifecycleEvent(Active, op.now, "system", "reopened by new occurrence")])
                           else x.life.(state := if x.life.state == Unset then Active else x.life.state)
  {
    hide Took, Unique;
    AppendExact(fp, before, op, after);
    var y := Evolve(fp, x, op);
    assert y in after;
  }

  lemma MergeEvolves(fp: Fingerprints, issues: seq<Issue>, occ: Occurrence, now: int)
    requires Unique(issues)
    ensures var q := Merge(fp, issues, occ, now);
            && |q| >= |issues|
            && (forall k | 0 <= k < |issues| :: q[k] == Evolve(fp, issues[k], OpAppend(occ, now)))
            && (if Held(issues, fp(KeyOf(occ))) then |q| == |issues| else q == issues + [Rebuild(fp, occ.id, [occ])])
  {
    hide Merged, Rebuild;
    var i := FindIssue(issues, fp(KeyOf(occ)));
    if i < |issues| {
      assert issues[i] in issues;
    } else {
      forall x | x in issues ensures x.fingerprint != fp(KeyOf(occ)) {
        var j :| 0 <= j < |issues| && issues[j] == x;
      }
    }
  }

  /** A transition, issue by issue: with IDs of their own every issue evolves, and none is added. */
  lemma MoveExact(fp: Fingerprints, before: seq<Issue>, op: Op, after: seq<Issue>)
    requires DistinctIds(before) && !op.OpAppend? && Took(fp, before, op, after)
    ensures forall x | x in before :: Evolve(fp, x, op) in after
    ensures |after| == |before|
  {
    hide Reordered, Transition, DistinctIds;
    if Refused(before, op, after) {
      var mid :| RefusedAt(before, op, mid);
      ReorderedDistinct(before, mid);
      SameMembers(before, mid);
      forall x | x in before ensures Evolve(fp, x, op) == x {
        var k :| 0 <= k < |mid| && mid[k] == x;
        OnlyOneIsFirst(mid, k, op.id);
      }
    } else {
      var issue :| Moved(before, op, after, issue);
      var mid: seq<Issue>, i: nat :| MovedAt(before, op, mid, i, issue, after);
      ReorderedDistinct(before, mid);
      SameMembers(before, mid);
      SameMembers(mid[i := issue], after);
      forall x | x in before ensures Evolve(fp, x, op) in after {
        var k :| 0 <= k < |mid| && mid[k] == x;
        OnlyOneIsFirst(mid, k, op.id);
        assert mid[i := issue][k] == Evolve(fp, x, op);
      }
    }
  }

  lemma OnlyOneIsFirst(issues: seq<Issue>, k: nat, id: string)
    requires DistinctIds(issues) && k < |issues|
    ensures FirstWithId(issues, k, id) <==> issues[k].latest.id == id
    ensures forall i | FirstWithId(issues, i, id) :: issues[k].latest.id == id <==> i == k
  {
  }

  /** Whatever the IDs: no issue is lost, keeps its fingerprint and its ID, and its occurrences and
      history only grow. */
  ghost predicate Outlives(x: Issue, y: Issue) {
    && y.fingerprint == x.fingerprint && y.latest.id == x.latest.id
    && x.occurrences <= y.occurrences && x.life.history <= y.life.history
  }

  ghost predicate AllOutlived(before: seq<Issue>, after: seq<Issue>) {
    forall x | x in before :: exists y :: y in after && Outlives(x, y)
  }

  lemma StepOutlives(fp: Fingerprints, before: seq<Issue>, log: seq<Occurrence>, op: Op, after: seq<Issue>)
    requires StoreOk(fp, before, log) && Took(fp, before, op, after)
    ensures AllOutlived(before, after)
  {
    hide Reordered, Transition, LifecycleOk, Represents, Outlives, Took;
    if op.OpAppend? {
      AppendExact(fp, before, op, after);
      forall x | x in before ensures exists y :: y in after && Outlives(x, y) {
        var i :| 0 <= i < |before| && before[i] == x;
        MergedOutlives(fp, x, log, op.occ, op.now);
        assert Evolve(fp, x, op) in after;
        ItselfOutlives(x);
      }
    } else {
      MoveOutlives(fp, before, op, after);
    }
  }

  lemma ItselfOutlives(x: Issue)
    ensures Outlives(x, x)
  {
  }

  lemma MergedOutlives(fp: Fingerprints, x: Issue, log: seq<Occurrence>, occ: Occurrence, now: int)
    requires AllNormal(log) && Represents(fp, x, log)
    ensures fp(KeyOf(occ)) == x.fingerprint ==> Outlives(x, Merged(fp, x, occ, now))
  {
    if fp(KeyOf(occ)) == x.fingerprint {
      ClassIsNormal(fp, log, x.fingerprint);
      RebuildKeepsFingerprint(fp, x.latest.id, x.occurrences + [occ], x.fingerprint);
    }
  }

  lemma TransitionGrows(op: Op, life: Lifecycle)
    ensures Transition(op, life).Some? ==> life.history <= Transition(op, life).value.history
  {
    hide TrimSpace;
  }

  lemma MoveOutlives(fp: Fingerprints, before: seq<Issue>, op: Op, after: seq<Issue>)
    requires !op.OpAppend? && Took(fp, before, op, after)
    ensures AllOutlived(before, after)
  {
    hide Reordered, Transition;
    if !Refused(before, op, after) {
      var issue :| Moved(before, op, after, issue);
      var mid: seq<Issue>, i: nat :| MovedAt(before, op, mid, i, issue, after);
      SameMembers(before, mid);
      SameMembers(mid[i := issue], after);
      TransitionGrows(op, mid[i].life);
      forall x | x in before ensures exists y :: y in after && Outlives(x, y) {
        var k :| 0 <= k < |mid| && mid[k] == x;
        assert mid[i := issue][k] in after && Outlives(x, mid[i := issue][k]);
      }
    } else {
      forall x | x in before ensures exists y :: y in after && Outlives(x, y) {
        assert Outlives(x, x);
      }
    }
  }

  // ---- Runs ----

  ghost predicate RunOf(fp: Fingerprints, states: seq<seq<Issue>>, ops: seq<Op>) {
    && |states| == |ops| + 1
    && forall k | 0 <= k < |ops| :: Took(fp, states[k], ops[k], states[k + 1])
  }

  function LogOf(log: seq<Occurrence>, ops: seq<Op>): seq<Occurrence> {
    if ops == [] then log else LogAfter(LogOf(log, ops[..|ops| - 1]), ops[|ops| - 1])
  }

  function EvolveAll(fp: Fingerprints, x: Issue, ops: seq<Op>): Issue {
    if ops == [] then x else Evolve(fp, EvolveAll(fp, x, ops[..|ops| - 1]), ops[|ops| - 1])
  }

  ghost predicate AllNormalOps(ops: seq<Op>) {
    forall k | 0 <= k < |ops| && ops[k].OpAppend? :: Normal(ops[k].occ)
  }

  lemma ShorterRun(fp: Fingerprints, states: seq<seq<Issue>>, ops: seq<Op>)
    requires RunOf(fp, states, ops) && ops != []
    ensures RunOf(fp, states[..|ops|], ops[..|ops| - 1]) && Took(fp, states[|ops| - 1], ops[|ops| - 1], states[|ops|])
  {
    hide Took;
  }

  /** Over every run the store groups the log by fingerprint, with sound lifecycles; no issue is lost or
      changes its ID, and no occurrence or event of one is lost or rewritten. */
  lemma {:induction false} RunsKeepIssues(fp: Fingerprints, states: seq<seq<Issue>>, ops: seq<Op>, log: seq<Occurrence>)
    requires RunOf(fp, states, ops) && StoreOk(fp, states[0], log) && AllNormalOps(ops)
    ensures StoreOk(fp, states[|ops|], LogOf(log, ops)) && AllOutlived(states[0], states[|ops|])
    decreases |ops|
  {
    hide StoreOk, Took, Normal, Outlives;
    if ops == [] {
      forall x | x in states[0] ensures Outlives(x, x) {
        ItselfOutlives(x);
      }
    } else {
      var n := |ops| - 1;
      ShorterRun(fp, states, ops);
      RunsKeepIssues(fp, states[..n + 1], ops[..n], log);
      StepKeepsOk(fp, states[n], LogOf(log, ops[..n]), ops[n], states[n + 1]);
      StepOutlives(fp, states[n], LogOf(log, ops[..n]), ops[n], states[n + 1]);
      OutlivedTransitive(states[0], states[n], states[n + 1]);
    }
  }

  lemma OutlivedTransitive(a: seq<Issue>, b: seq<Issue>, c: seq<Issue>)
    requires AllOutlived(a, b) && AllOutlived(b, c)
    ensures AllOutlived(a, c)
  {
    forall x | x in a ensures exists z :: z in c && Outlives(x, z) {
      var y :| y in b && Outlives(x, y);
      var z :| z in c && Outlives(y, z);
      assert Outlives(x, z);
    }
  }

  /** While no two issues share an ID, each issue is after the run exactly what the calls make of it, one
      after the other - however often the file was sorted, saved and loaded in between. */
  lemma {:induction false} RunsEvolve(fp: Fingerprints, states: seq<seq<Issue>>, ops: seq<Op>, log: seq<Occurrence>)
    requires RunOf(fp, states, ops) && StoreOk(fp, states[0], log) && AllNormalOps(ops)
    requires forall k | 0 <= k < |ops| :: DistinctIds(states[k])
    ensures forall x | x in states[0] :: EvolveAll(fp, x, ops) in states[|ops|]
    decreases |ops|
  {
    hide StoreOk, Took, Normal, Evolve, DistinctIds;
    if ops != [] {
      var n := |ops| - 1;
      ShorterRun(fp, states, ops);
      RunsEvolve(fp, states[..n + 1], ops[..n], log);
      RunsKeepIssues(fp, states[..n + 1], ops[..n], log);
      OkIsUnique(fp, states[n], LogOf(log, ops[..n]));
      if ops[n].OpAppend? {
        AppendExact(fp, states[n], ops[n], states[n + 1]);
      } else {
        MoveExact(fp, states[n], ops[n], states[n + 1]);
      }
    }
  }

  lemma OkIsUnique(fp: Fingerprints, issues: seq<Issue>, log: seq<Occurrence>)
    requires StoreOk(fp, issues, log)
    ensures Unique(issues)
  {
  }
}
