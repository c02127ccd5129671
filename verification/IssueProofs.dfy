/** The issue store refines "group the log of occurrences by fingerprint", and each issue's lifecycle is
    a path of the allowed transitions. */
module IssueProofs {
  import opened Options
  import opened IssueSpec

  // ---- Refinement ----

  /** The occurrences of one fingerprint, in the order in which they were appended. */
  function ClassOf(fp: Fingerprints, log: seq<Occurrence>, f: string): seq<Occurrence> {
    if log == [] then []
    else
      var n := |log| - 1;
      ClassOf(fp, log[..n], f) + (if fp(KeyOf(log[n])) == f then [log[n]] else [])
  }

  ghost predicate Covered(issues: seq<Issue>, f: string) {
    exists i :: 0 <= i < |issues| && issues[i].fingerprint == f
  }

  /** The issue is exactly what its class of occurrences and its lifecycle determine. */
  ghost predicate Represents(fp: Fingerprints, issue: Issue, log: seq<Occurrence>) {
    && issue.latest.id != ""
    && issue.occurrences == ClassOf(fp, log, issue.fingerprint)
    && issue.occurrences != []
    && issue == Rebuild(fp, issue.latest.id, issue.occurrences).(life := issue.life)
  }

  ghost predicate Unique(issues: seq<Issue>) {
    forall i, j | 0 <= i < |issues| && 0 <= j < |issues| && i != j :: issues[i].fingerprint != issues[j].fingerprint
  }

  /** The stored issues are the fingerprint classes of the log: each class once, nothing lost, nothing
      twice. */
  ghost predicate Groups(fp: Fingerprints, issues: seq<Issue>, log: seq<Occurrence>) {
    && AllNormal(log)
    && Unique(issues)
    && (forall i | 0 <= i < |issues| :: Represents(fp, issues[i], log))
    && (forall k | 0 <= k < |log| :: Covered(issues, fp(KeyOf(log[k]))))
  }

  lemma {:induction false} ClassIsNormal(fp: Fingerprints, log: seq<Occurrence>, f: string)
    requires AllNormal(log)
    ensures AllNormal(ClassOf(fp, log, f))
    ensures forall i | 0 <= i < |ClassOf(fp, log, f)| :: fp(KeyOf(ClassOf(fp, log, f)[i])) == f && ClassOf(fp, log, f)[i] in log
  {
    if log != [] {
      ClassIsNormal(fp, log[..|log| - 1], f);
    }
  }

  lemma {:induction false} UncoveredIsEmpty(fp: Fingerprints, log: seq<Occurrence>, f: string)
    requires forall k | 0 <= k < |log| :: fp(KeyOf(log[k])) != f
    ensures ClassOf(fp, log, f) == []
  {
    if log != [] {
      UncoveredIsEmpty(fp, log[..|log| - 1], f);
    }
  }

  lemma ClassStep(fp: Fingerprints, log: seq<Occurrence>, occ: Occurrence, f: string)
    ensures ClassOf(fp, log + [occ], f) == ClassOf(fp, log, f) + (if fp(KeyOf(occ)) == f then [occ] else [])
  {
    assert (log + [occ])[..|log|] == log;
  }

  /** The fingerprint that a rebuilt class gets is the class's own. */
  lemma RebuildKeepsFingerprint(fp: Fingerprints, id: string, occs: seq<Occurrence>, f: string)
    requires occs != [] && forall i | 0 <= i < |occs| :: fp(KeyOf(occs[i])) == f
    ensures Rebuild(fp, id, occs).fingerprint == f
  {
  }

  lemma MergedRepresents(fp: Fingerprints, prior: Issue, log: seq<Occurrence>, occ: Occurrence, now: int)
    requires AllNormal(log) && Represents(fp, prior, log) && prior.fingerprint == fp(KeyOf(occ))
    ensures var q := Merged(fp, prior, occ, now);
            Represents(fp, q, log + [occ]) && q.fingerprint == prior.fingerprint
  {
    var f := prior.fingerprint;
    ClassStep(fp, log, occ, f);
    ClassIsNormal(fp, log, f);
    RebuildKeepsFingerprint(fp, prior.latest.id, prior.occurrences + [occ], f);
  }

  lemma CreatedRepresents(fp: Fingerprints, issues: seq<Issue>, log: seq<Occurrence>, occ: Occurrence)
    requires Groups(fp, issues, log) && Normal(occ) && !Covered(issues, fp(KeyOf(occ)))
    ensures var q := Rebuild(fp, occ.id, [occ]);
            Represents(fp, q, log + [occ]) && q.fingerprint == fp(KeyOf(occ))
  {
    var f := fp(KeyOf(occ));
    UncoveredIsEmpty(fp, log, f);
    ClassStep(fp, log, occ, f);
  }

  lemma OtherRepresents(fp: Fingerprints, issue: Issue, log: seq<Occurrence>, occ: Occurrence)
    requires Represents(fp, issue, log) && issue.fingerprint != fp(KeyOf(occ))
    ensures Represents(fp, issue, log + [occ])
  {
    ClassStep(fp, log, occ, issue.fingerprint);
  }

  /** Merging one occurrence into the groups of a log gives the groups of the longer log. */
  lemma MergeGroups(fp: Fingerprints, issues: seq<Issue>, log: seq<Occurrence>, occ: Occurrence, now: int)
    requires Groups(fp, issues, log) && Normal(occ)
    ensures Groups(fp, Merge(fp, issues, occ, now), log + [occ])
  {
    hide Represents, Merged, Rebuild, Normal;
    var f := fp(KeyOf(occ));
    var k, q, longer := FindIssue(issues, f), Merge(fp, issues, occ, now), log + [occ];
    if k < |issues| {
      MergedRepresents(fp, issues[k], log, occ, now);
    } else {
      CreatedRepresents(fp, issues, log, occ);
    }
    forall i | 0 <= i < |q| ensures Represents(fp, q[i], longer) {
      if i < |issues| && i != k {
        OtherRepresents(fp, issues[i], log, occ);
      }
    }
    forall j | 0 <= j < |longer| ensures Covered(q, fp(KeyOf(longer[j]))) {
      if j < |log| {
        assert Covered(issues, fp(KeyOf(log[j])));
        var i :| 0 <= i < |issues| && issues[i].fingerprint == fp(KeyOf(log[j]));
        assert q[i].fingerprint == issues[i].fingerprint;
      } else {
        assert q[k].fingerprint == f;
      }
    }
  }

  lemma {:induction false} ClassHolds(fp: Fingerprints, log: seq<Occurrence>, k: nat)
    requires k < |log|
    ensures log[k] in ClassOf(fp, log, fp(KeyOf(log[k])))
  {
    var n := |log| - 1;
    if k < n {
      ClassHolds(fp, log[..n], k);
    }
  }

  predicate SameTexts(a: Occurrence, b: Occurrence) {
    a.source == b.source && a.tool == b.tool && a.input == b.input && a.error == b.error
  }

  /** The issue holds both occurrences. */
  ghost predicate Together(issues: seq<Issue>, a: Occurrence, b: Occurrence) {
    exists i :: 0 <= i < |issues| && a in issues[i].occurrences && b in issues[i].occurrences
  }

  /** Occurrences with the same source, tool, input and error are held by one issue, whatever else they say -
      and by two different ones otherwise, if fingerprints do not collide. */
  lemma TogetherExactly(fp: Fingerprints, issues: seq<Issue>, log: seq<Occurrence>, j: nat, k: nat)
    requires Groups(fp, issues, log) && j < |log| && k < |log|
    ensures SameTexts(log[j], log[k]) ==> Together(issues, log[j], log[k])
    ensures (forall a: Key, b: Key :: fp(a) == fp(b) ==> a == b) ==> (Together(issues, log[j], log[k]) <==> SameTexts(log[j], log[k]))
  {
    hide Groups, Together;
    if fp(KeyOf(log[j])) == fp(KeyOf(log[k])) {
      KeptTogether(fp, issues, log, j, k);
    }
    if Together(issues, log[j], log[k]) {
      SameFingerprint(fp, issues, log, log[j], log[k]);
    }
  }

  lemma KeptTogether(fp: Fingerprints, issues: seq<Issue>, log: seq<Occurrence>, j: nat, k: nat)
    requires Groups(fp, issues, log) && j < |log| && k < |log| && fp(KeyOf(log[j])) == fp(KeyOf(log[k]))
    ensures Together(issues, log[j], log[k])
  {
    hide Rebuild, KeyOf, AllNormal, Unique;
    ClassHolds(fp, log, j);
    ClassHolds(fp, log, k);
    assert Covered(issues, fp(KeyOf(log[j])));
  }

  lemma SameFingerprint(fp: Fingerprints, issues: seq<Issue>, log: seq<Occurrence>, a: Occurrence, b: Occurrence)
    requires Groups(fp, issues, log) && Together(issues, a, b)
    ensures fp(KeyOf(a)) == fp(KeyOf(b))
  {
    hide Rebuild, KeyOf, Unique, Covered;
    var i :| 0 <= i < |issues| && a in issues[i].occurrences && b in issues[i].occurrences;
    ClassIsNormal(fp, log, issues[i].fingerprint);
  }

  // ---- Saving and loading ----

  ghost predicate IsPermutation(perm: seq<nat>, n: nat) {
    && |perm| == n
    && (forall i | 0 <= i < n :: perm[i] < n)
    && (forall i, j | 0 <= i < j < n :: perm[i] != perm[j])
    && (forall v | 0 <= v < n :: v in perm)
  }

  ghost predicate ReorderedBy(perm: seq<nat>, a: seq<Issue>, b: seq<Issue>) {
    && IsPermutation(perm, |a|) && |b| == |a|
    && forall i | 0 <= i < |b| :: b[i] == a[perm[i]]
  }

  /** The same issues in another order. */
  ghost predicate Reordered(a: seq<Issue>, b: seq<Issue>) {
    exists perm :: ReorderedBy(perm, a, b)
  }

  lemma ReorderedGroups(fp: Fingerprints, a: seq<Issue>, b: seq<Issue>, log: seq<Occurrence>)
    requires Groups(fp, a, log) && Reordered(a, b)
    ensures Groups(fp, b, log)
  {
    hide Represents, Normal;
    var perm :| ReorderedBy(perm, a, b);
    forall k | 0 <= k < |log| ensures Covered(b, fp(KeyOf(log[k]))) {
      assert Covered(a, fp(KeyOf(log[k])));
      var i :| 0 <= i < |a| && a[i].fingerprint == fp(KeyOf(log[k]));
      assert i in perm;
      var j :| 0 <= j < |perm| && perm[j] == i;
      assert b[j] == a[i];
    }
  }

  /** Loading what was saved changes nothing: normal occurrences stay as they are, and the aggregate is
      rebuilt to what it was. */
  lemma LoadIsIdentity(fp: Fingerprints, stored: Issue, log: seq<Occurrence>, stamp: nat -> Stamp)
    requires AllNormal(log) && Represents(fp, stored, log) && stored.life.state != Unset
    ensures Loaded(fp, stored, stamp) == stored
  {
    ClassIsNormal(fp, log, stored.fingerprint);
    forall i | 0 <= i < |stored.occurrences| ensures Normalize(stored.occurrences[i], stamp(i)) == stored.occurrences[i] {
      assert Normal(stored.occurrences[i]);
    }
    assert NormalizeAll(stored.occurrences, stamp) == stored.occurrences;
  }

  // ---- Legacy files ----

  /** An issue nobody has touched: created from its class, with the ID of its first occurrence. */
  ghost predicate Untouched(fp: Fingerprints, issue: Issue, log: seq<Occurrence>) {
    Represents(fp, issue, log) && issue.life == FRESH && issue.latest.id == issue.occurrences[0].id
  }

  ghost predicate AllUntouched(fp: Fingerprints, issues: seq<Issue>, log: seq<Occurrence>) {
    forall i | 0 <= i < |issues| :: Untouched(fp, issues[i], log)
  }

  lemma MergeStaysUntouched(fp: Fingerprints, issues: seq<Issue>, log: seq<Occurrence>, occ: Occurrence, now: int)
    requires Groups(fp, issues, log) && Normal(occ) && AllUntouched(fp, issues, log)
    ensures AllUntouched(fp, Merge(fp, issues, occ, now), log + [occ])
  {
    hide Represents, Normal;
    MergeGroups(fp, issues, log, occ, now);
    assert forall i | 0 <= i < |issues| :: Untouched(fp, issues[i], log);
    UntouchedShape(fp, issues, log);
  }

  lemma UntouchedShape(fp: Fingerprints, issues: seq<Issue>, log: seq<Occurrence>)
    requires AllUntouched(fp, issues, log)
    ensures forall i | 0 <= i < |issues| ::
              issues[i].occurrences != [] && issues[i].life == FRESH && issues[i].latest.id == issues[i].occurrences[0].id && issues[i].latest.id != ""
  {
    forall i | 0 <= i < |issues| ensures issues[i].occurrences != [] && issues[i].latest.id != "" {
      assert Untouched(fp, issues[i], log);
    }
  }

  /** Replaying a log line by line, with no save or load in between, groups that same log. */
  lemma {:induction false} ReplayGroups(fp: Fingerprints, lines: seq<Occurrence>, clock: nat -> Stamp)
    ensures var log := NormalizeAll(lines, clock);
            Groups(fp, Replay(fp, [], lines, clock), log) && AllUntouched(fp, Replay(fp, [], lines, clock), log)
    decreases |lines|
  {
    hide Represents, Merge, Normalize, Normal, Untouched;
    if lines != [] {
      var n := |lines| - 1;
      ReplayGroups(fp, lines[..n], clock);
      NormalizeSettles(lines[n], clock(n));
      assert NormalizeAll(lines, clock) == NormalizeAll(lines[..n], clock) + [Normalize(lines[n], clock(n))];
      MergeGroups(fp, Replay(fp, [], lines[..n], clock), NormalizeAll(lines[..n], clock), Normalize(lines[n], clock(n)), clock(n).now);
      MergeStaysUntouched(fp, Replay(fp, [], lines[..n], clock), NormalizeAll(lines[..n], clock), Normalize(lines[n], clock(n)), clock(n).now);
    }
  }

  /** The log and the fingerprint determine an untouched issue, so two groupings of one log hold the same
      issues - whatever saving, sorting and loading went on in between for the one of them. */
  lemma SameGroups(fp: Fingerprints, a: seq<Issue>, b: seq<Issue>, log: seq<Occurrence>)
    requires Groups(fp, a, log) && AllUntouched(fp, a, log)
    requires Groups(fp, b, log) && AllUntouched(fp, b, log)
    ensures forall x :: x in a <==> x in b
  {
    forall x | x in a || x in b ensures x in a && x in b {
      if x in a {
        SubGroups(fp, a, b, log, x);
      }
      if x in b {
        SubGroups(fp, b, a, log, x);
      }
    }
  }

  /** A store filled by appending, and a legacy log of the same occurrences, hold the same issues. */
  lemma LegacyAgrees(fp: Fingerprints, issues: seq<Issue>, lines: seq<Occurrence>, clock: nat -> Stamp)
    requires Groups(fp, issues, NormalizeAll(lines, clock)) && AllUntouched(fp, issues, NormalizeAll(lines, clock))
    ensures forall x :: x in issues <==> x in Replay(fp, [], lines, clock)
  {
    hide Groups, AllUntouched, NormalizeAll, Replay;
    ReplayGroups(fp, lines, clock);
    SameGroups(fp, issues, Replay(fp, [], lines, clock), NormalizeAll(lines, clock));
  }

  lemma SubGroups(fp: Fingerprints, a: seq<Issue>, b: seq<Issue>, log: seq<Occurrence>, x: Issue)
    requires Groups(fp, a, log) && AllUntouched(fp, a, log) && x in a
    requires Groups(fp, b, log) && AllUntouched(fp, b, log)
    ensures x in b
  {
    var i :| 0 <= i < |a| && a[i] == x;
    assert Untouched(fp, a[i], log);
    var f := x.fingerprint;
    ClassIsNormal(fp, log, f);
    assert fp(KeyOf(x.occurrences[0])) == f && x.occurrences[0] in log;
    var k :| 0 <= k < |log| && log[k] == x.occurrences[0];
    assert Covered(b, fp(KeyOf(log[k])));
    var j :| 0 <= j < |b| && b[j].fingerprint == f;
    assert Untouched(fp, b[j], log);
    assert b[j] == x;
  }

  /** First and last sight of an issue are the extremes of its occurrences, and its top-level fields are
      those of the latest, ties going to the one appended last. */
  lemma AggregatesExact(fp: Fingerprints, issue: Issue, log: seq<Occurrence>)
    requires Represents(fp, issue, log)
    ensures var occs := ClassOf(fp, log, issue.fingerprint);
            && issue.count == |occs| > 0
            && (forall i | 0 <= i < |occs| :: issue.firstSeen <= occs[i].timestamp <= issue.lastSeen)
            && (exists i :: 0 <= i < |occs| && occs[i].timestamp == issue.firstSeen)
            && (exists i :: 0 <= i < |occs| && occs[i].timestamp == issue.lastSeen && issue.latest == occs[i].(id := issue.latest.id)
                  && forall j | i < j < |occs| :: occs[j].timestamp < issue.lastSeen)
  {
    var occs := issue.occurrences;
    assert Earliest(occs) == issue.firstSeen;
    assert occs[LatestIndex(occs)].timestamp == issue.lastSeen;
  }

  /** Loading a record that has no occurrences: its own fields, cleaned, are its one occurrence. */
  lemma LoadedAlone(fp: Fingerprints, stored: Issue, clock: nat -> Stamp)
    requires stored.occurrences == []
    ensures var x := Loaded(fp, stored, clock);
            && x.count == 1 && |x.occurrences| == 1 && Cleaned(stored.latest, clock(0), x.occurrences[0])
            && x.latest == x.occurrences[0].(id := if stored.latest.id != "" then stored.latest.id else clock(0).id)
            && x.firstSeen == x.lastSeen == x.occurrences[0].timestamp && x.fingerprint == fp(KeyOf(x.occurrences[0]))
            && x.life == stored.life.(state := if stored.life.state == Unset then Active else stored.life.state)
  {
    hide Cleaned;
    NormalizeExact(stored.latest, clock(0), Normalize(stored.latest, clock(0)));
  }

  // ---- Lifecycle ----

  predicate Allowed(from: State, to: State) {
    match from
    case Active => to == Acknowledged || to == Resolved
    case Acknowledged => to == Resolved
    case Resolved => to == Active
    case Unset => false
  }

  function StateBefore(history: seq<LifecycleEvent>, k: nat): State
    requires k <= |history|
  {
    if k == 0 then Active else history[k - 1].state
  }

  /** The history is a path of allowed transitions from "active" to the current state, and the issue has a
      resolution exactly while it is resolved. */
  ghost predicate LifecycleOk(life: Lifecycle) {
    && life.state == StateBefore(life.history, |life.history|)
    && (forall k | 0 <= k < |life.history| :: Allowed(StateBefore(life.history, k), life.history[k].state))
    && (life.resolvedAt.Some? <==> life.state == Resolved)
    && (life.resolvedBy != "" ==> life.state == Resolved)
    && (life.acknowledgedAt.Some? <==> exists k :: 0 <= k < |life.history| && life.history[k].state == Acknowledged)
  }

  lemma RecordedPath(life: Lifecycle, e: LifecycleEvent)
    requires LifecycleOk(life) && Allowed(life.state, e.state)
    ensures var h := life.history + [e];
            && e.state == StateBefore(h, |h|)
            && (forall k | 0 <= k < |h| :: Allowed(StateBefore(h, k), h[k].state))
            && (e.state == Acknowledged || life.acknowledgedAt.Some? <==> exists k :: 0 <= k < |h| && h[k].state == Acknowledged)
  {
    var h := life.history + [e];
    forall k | 0 <= k < |h| ensures Allowed(StateBefore(h, k), h[k].state) {
      if k < |life.history| {
        assert StateBefore(h, k) == StateBefore(life.history, k);
      }
    }
    if life.acknowledgedAt.Some? {
      var k :| 0 <= k < |life.history| && life.history[k].state == Acknowledged;
      assert h[k].state == Acknowledged;
    }
    if e.state == Acknowledged {
      assert h[|life.history|].state == Acknowledged;
    }
  }

  /** Each transition succeeds exactly in the states it is meant for, and keeps the lifecycle sound. */
  lemma TransitionsExact(life: Lifecycle, actor: string, trackerUrl: string, now: int)
    requires LifecycleOk(life)
    ensures Acknowledge(life, actor, now).Some? <==> life.state == Active
    ensures Resolve(life, actor, trackerUrl, now).Some? <==> life.state != Resolved
    ensures Reopen(life, actor, now).Some? <==> life.state == Resolved
    ensures Acknowledge(life, actor, now).Some? ==>
              LifecycleOk(Acknowledge(life, actor, now).value) && Acknowledge(life, actor, now).value.state == Acknowledged
    ensures Resolve(life, actor, trackerUrl, now).Some? ==>
              LifecycleOk(Resolve(life, actor, trackerUrl, now).value) && Resolve(life, actor, trackerUrl, now).value.state == Resolved
    ensures Reopen(life, actor, now).Some? ==>
              LifecycleOk(Reopen(life, actor, now).value) && Reopen(life, actor, now).value.state == Active
  {
    hide TrimSpace;
    StateIsSet(life);
    if life.state == Active {
      RecordedPath(life, LifecycleEvent(Acknowledged, now, actor, "acknowledged"));
    }
    if life.state == Resolved {
      RecordedPath(life, LifecycleEvent(Active, now, actor, "reopened"));
    } else {
      RecordedPath(life, LifecycleEvent(Resolved, now, actor, ""));
    }
  }

  /** The lifecycle after a transition: one event more, with the time, the actor and the note, and what is
      remembered of who did it when; everything else is kept. */
  ghost predicate Advanced(life: Lifecycle, q: Lifecycle, state: State, actor: string, note: string, now: int) {
    q.state == state && q.history == life.history + [LifecycleEvent(state, now, actor, note)]
  }

  /** What each transition records. */
  lemma TransitionRecords(life: Lifecycle, actor: string, url: string, now: int)
    ensures Acknowledge(life, actor, now).Some? ==>
              var q := Acknowledge(life, actor, now).value;
              && Advanced(life, q, Acknowledged, actor, "acknowledged", now)
              && q.acknowledgedAt == Some(now) && TrimmedOut(actor, q.acknowledgedBy)
              && q.resolvedAt == life.resolvedAt && q.resolvedBy == life.resolvedBy && q.trackerUrl == life.trackerUrl
    ensures Resolve(life, actor, url, now).Some? ==>
              var q := Resolve(life, actor, url, now).value;
              && Advanced(life, q, Resolved, actor, "", now)
              && q.resolvedAt == Some(now) && TrimmedOut(actor, q.resolvedBy)
              && (if TrimmedOut(url, "") then q.trackerUrl == life.trackerUrl else TrimmedOut(url, q.trackerUrl))
              && q.acknowledgedAt == life.acknowledgedAt && q.acknowledgedBy == life.acknowledgedBy
    ensures Reopen(life, actor, now).Some? ==>
              var q := Reopen(life, actor, now).value;
              && Advanced(life, q, Active, actor, "reopened", now)
              && q.resolvedAt == None && q.resolvedBy == "" && q.trackerUrl == life.trackerUrl
              && q.acknowledgedAt == life.acknowledgedAt && q.acknowledgedBy == life.acknowledgedBy
    ensures life.state == Resolved ==>
              var q := Reoccurred(life, now);
              && Advanced(life, q, Active, "system", "reopened by new occurrence", now)
              && q.resolvedAt == None && q.resolvedBy == "" && q.trackerUrl == life.trackerUrl
              && q.acknowledgedAt == life.acknowledgedAt && q.acknowledgedBy == life.acknowledgedBy
  {
    hide TrimmedOut, TrimSpace;
    TrimExact(actor, TrimSpace(actor));
    TrimExact(url, TrimSpace(url));
    TrimExact(url, "");
  }

  lemma StateIsSet(life: Lifecycle)
    requires LifecycleOk(life)
    ensures life.state != Unset
  {
    var n := |life.history|;
    if n > 0 {
      assert Allowed(StateBefore(life.history, n - 1), life.history[n - 1].state);
    }
  }

  /** A new occurrence reopens a resolved issue and changes no other state. */
  lemma ReoccurredExact(life: Lifecycle, now: int)
    requires LifecycleOk(life)
    ensures var q := Reoccurred(life, now);
            && LifecycleOk(q)
            && (life.state == Resolved ==> q.state == Active && |q.history| == |life.history| + 1)
            && (life.state != Resolved ==> q == life)
  {
    StateIsSet(life);
    if life.state == Resolved {
      RecordedPath(life, LifecycleEvent(Active, now, "system", "reopened by new occurrence"));
    }
  }
}
