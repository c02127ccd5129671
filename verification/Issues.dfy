/** The issue store object. `issues` is the content of its file; every operation loads, changes and saves
    it, and `log` keeps what has been appended. */
module Issues {
  import opened Options
  import opened IssueSpec
  import opened IssueProofs
  import opened IssueRuns
  import opened StringOrder

  // ---- Order ----

  predicate Before(a: Issue, b: Issue) {
    a.lastSeen < b.lastSeen || (a.lastSeen == b.lastSeen && StringLess(a.latest.id, b.latest.id))
  }

  /** `a` may stand before `b`. */
  predicate MayPrecede(a: Issue, b: Issue) {
    !Before(b, a)
  }

  lemma MayPrecedeTransitive(a: Issue, b: Issue, c: Issue)
    requires MayPrecede(a, b) && MayPrecede(b, c)
    ensures MayPrecede(a, c)
  {
    StringLessTotal(a.latest.id, b.latest.id);
    StringLessTotal(b.latest.id, c.latest.id);
    if Before(c, a) {
      if StringLess(a.latest.id, b.latest.id) && StringLess(c.latest.id, a.latest.id) {
        StringLessTransitive(c.latest.id, a.latest.id, b.latest.id);
      }
    }
  }

  predicate Sorted(issues: seq<Issue>) {
    forall i, j | 0 <= i < j < |issues| :: MayPrecede(issues[i], issues[j])
  }

  lemma InsertKeepsSorted(s: seq<Issue>, k: nat, x: Issue)
    requires Sorted(s) && k <= |s|
    requires k > 0 ==> MayPrecede(s[k - 1], x)
    requires k < |s| ==> MayPrecede(x, s[k])
    ensures Sorted(s[..k] + [x] + s[k..])
  {
    hide MayPrecede;
    forall i | 0 <= i < k ensures MayPrecede(s[i], x) {
      if i < k - 1 {
        MayPrecedeTransitive(s[i], s[k - 1], x);
      }
    }
    forall i | k <= i < |s| ensures MayPrecede(x, s[i]) {
      if i > k {
        MayPrecedeTransitive(x, s[k], s[i]);
      }
    }
  }

  lemma InsertPermutes(perm: seq<nat>, k: nat)
    requires IsPermutation(perm, |perm|) && k <= |perm|
    ensures IsPermutation(perm[..k] + [|perm|] + perm[k..], |perm| + 1)
  {
    var more := perm[..k] + [|perm|] + perm[k..];
    forall v | 0 <= v < |more| ensures v in more {
      if v < |perm| {
        assert v in perm;
        var i :| 0 <= i < |perm| && perm[i] == v;
        assert more[if i < k then i else i + 1] == v;
      } else {
        assert more[k] == v;
      }
    }
  }

  /** Some sorted order of the issues; which one, when keys are equal, is not said. */
  method SortIssues(issues: seq<Issue>) returns (sorted: seq<Issue>)
    ensures Sorted(sorted) && Reordered(issues, sorted)
  {
    hide Before, MayPrecede, Sorted, IsPermutation;
    sorted := [];
    ghost var perm: seq<nat> := [];
    NothingSorted(issues);
    for n := 0 to |issues|
      invariant Sorted(sorted) && ReorderedBy(perm, issues[..n], sorted) && |perm| == |sorted|
    {
      var k := |sorted|;
      while k > 0 && Before(issues[n], sorted[k - 1])
        invariant 0 <= k <= |sorted|
        invariant k < |sorted| ==> MayPrecede(issues[n], sorted[k])
      {
        BeforeIsStrict(issues[n], sorted[k - 1]);
        k := k - 1;
      }
      if k > 0 {
        NotBefore(issues[n], sorted[k - 1]);
      }
      InsertKeepsSorted(sorted, k, issues[n]);
      InsertReorders(issues, n, perm, sorted, k);
      sorted := sorted[..k] + [issues[n]] + sorted[k..];
      perm := perm[..k] + [n] + perm[k..];
    }
    assert issues[..|issues|] == issues;
  }

  lemma NothingSorted(issues: seq<Issue>)
    ensures Sorted([]) && ReorderedBy([], issues[..0], [])
  {
  }

  lemma NotBefore(a: Issue, b: Issue)
    requires !Before(a, b)
    ensures MayPrecede(b, a)
  {
  }

  lemma InsertReorders(issues: seq<Issue>, n: nat, perm: seq<nat>, sorted: seq<Issue>, k: nat)
    requires n < |issues| && ReorderedBy(perm, issues[..n], sorted) && k <= |sorted|
    requires |perm| == |sorted|
    ensures ReorderedBy(perm[..k] + [n] + perm[k..], issues[..n + 1], sorted[..k] + [issues[n]] + sorted[k..])
  {
    hide IsPermutation;
    PermutationLength(perm, n);
    InsertPermutes(perm, k);
  }

  lemma PermutationLength(perm: seq<nat>, n: nat)
    requires IsPermutation(perm, n)
    ensures |perm| == n && forall i | 0 <= i < n :: perm[i] < n
  {
  }

  lemma BeforeIsStrict(a: Issue, b: Issue)
    requires Before(a, b)
    ensures MayPrecede(a, b)
  {
    StringLessTotal(a.latest.id, b.latest.id);
  }

  // ---- The aggregate ----

  lemma FirstOne(occs: seq<Occurrence>)
    requires occs != []
    ensures Earliest(occs[..1]) == occs[0].timestamp && LatestIndex(occs[..1]) == 0
  {
  }

  lemma OneMore(occs: seq<Occurrence>, i: nat)
    requires 1 <= i < |occs|
    ensures Earliest(occs[..i + 1]) == (if occs[i].timestamp < Earliest(occs[..i]) then occs[i].timestamp else Earliest(occs[..i]))
    ensures LatestIndex(occs[..i + 1]) == (if occs[i].timestamp >= occs[LatestIndex(occs[..i])].timestamp then i else LatestIndex(occs[..i]))
  {
    assert occs[..i + 1][..i] == occs[..i];
  }

  /** One pass for the first and the last sight. */
  method RebuildIssue(fp: Fingerprints, id: string, occs: seq<Occurrence>) returns (issue: Issue)
    requires occs != []
    ensures issue == Rebuild(fp, id, occs)
  {
    var firstSeen, lastIdx := occs[0].timestamp, 0;
    FirstOne(occs);
    hide Earliest, LatestIndex;
    for i := 1 to |occs|
      invariant lastIdx < i && firstSeen == Earliest(occs[..i]) && lastIdx == LatestIndex(occs[..i])
    {
      OneMore(occs, i);
      if occs[i].timestamp < firstSeen {
        firstSeen := occs[i].timestamp;
      }
      if occs[i].timestamp > occs[lastIdx].timestamp || occs[i].timestamp == occs[lastIdx].timestamp {
        lastIdx := i;
      }
    }
    assert occs[..|occs|] == occs;
    var latest := occs[lastIdx];
    var issueId := if id == "" then occs[0].id else id;
    issue := Issue(latest.(id := issueId), fp(KeyOf(latest)), firstSeen, latest.timestamp, |occs|, occs, FRESH);
  }

  lemma AsManyNormalized(occs: seq<Occurrence>, clock: nat -> Stamp)
    ensures |NormalizeAll(occs, clock)| == |occs|
  {
  }

  class Store {
    const fp: Fingerprints
    var issues: seq<Issue>
    ghost var log: seq<Occurrence>

    /** The file holds the fingerprint classes of the log, sorted, with sound lifecycles. */
    ghost predicate Valid()
      reads this
    {
      && Groups(fp, issues, log)
      && Sorted(issues)
      && forall i | 0 <= i < |issues| :: LifecycleOk(issues[i].life)
    }

    constructor (fp: Fingerprints)
      ensures Valid() && this.fp == fp && issues == [] && log == []
    {
      this.fp := fp;
      issues, log := [], [];
    }

    /** A record without occurrences counts as one: its top-level fields. */
    method LoadIssue(stored: Issue, clock: nat -> Stamp) returns (issue: Issue)
      ensures issue == Loaded(fp, stored, clock)
    {
      hide Rebuild, NormalizeAll;
      var occs := if stored.occurrences == [] then [Normalize(stored.latest, clock(0))] else NormalizeAll(stored.occurrences, clock);
      AsManyNormalized(stored.occurrences, clock);
      issue := RebuildIssue(fp, stored.latest.id, occs);
      issue := issue.(life := stored.life.(state := Current(stored.life)));
    }

    /** normalizeStoreFile over the file: record by record, then sorted. */
    method Load(stamp: (nat, nat) -> Stamp) returns (loaded: seq<Issue>)
      requires Valid()
      ensures Reordered(issues, loaded) && Sorted(loaded)
    {
      hide Represents, Loaded, Sorted, LifecycleOk, Reordered;
      loaded := [];
      for i := 0 to |issues|
        invariant loaded == issues[..i]
      {
        var clock := (k: nat) => stamp(i, k);
        var one := LoadIssue(issues[i], clock);
        StateIsSet(issues[i].life);
        LoadIsIdentity(fp, issues[i], log, clock);
        loaded := loaded + [one];
      }
      assert loaded == issues;
      loaded := SortIssues(loaded);
    }

    method Save(changed: seq<Issue>)
      modifies `issues
      ensures Reordered(changed, issues) && Sorted(issues)
    {
      issues := SortIssues(changed);
    }

    /** Updates the first issue with the fingerprint, or adds one. */
    method MergeOccurrence(from: seq<Issue>, occ: Occurrence, now: int) returns (merged: seq<Issue>)
      ensures merged == Merge(fp, from, occ, now)
    {
      var fingerprint := fp(KeyOf(occ));
      var i := 0;
      while i < |from| && from[i].fingerprint != fingerprint
        invariant i <= |from| && forall j | 0 <= j < i :: from[j].fingerprint != fingerprint
      {
        i := i + 1;
      }
      if i < |from| {
        var prior := from[i];
        var updated := RebuildIssue(fp, prior.latest.id, prior.occurrences + [occ]);
        var life := prior.life.(state := Current(prior.life));
        if prior.life.state == Resolved {
          var reopened := LifecycleEvent(Active, now, "system", "reopened by new occurrence");
          life := life.(state := Active, resolvedAt := None, resolvedBy := "", history := life.history + [reopened]);
        }
        return from[i := updated.(life := life)];
      }
      var created := RebuildIssue(fp, occ.id, [occ]);
      return from + [created];
    }

    /** Whatever is appended, the store stays the grouping of everything appended so far. */
    method Append(occ: Occurrence, stamp: Stamp, stamps: (nat, nat) -> Stamp, now: int)
      requires Valid()
      modifies this
      ensures Valid() && log == old(log) + [Normalize(occ, stamp)] && Cleaned(occ, stamp, log[|old(log)|])
      ensures Appended(fp, old(issues), log[|old(log)|], now, issues)
      ensures exists x :: x in issues && log[|old(log)|] in x.occurrences && x.fingerprint == fp(KeyOf(log[|old(log)|]))
      ensures old(AllUntouched(fp, issues, log)) ==> AllUntouched(fp, issues, log)
    {
      hide Groups, Normal, Sorted, LifecycleOk, Cleaned, Merge, Reordered, AllUntouched, Normalize, KeyOf;
      var loaded := Load(stamps);
      var normal := Normalize(occ, stamp);
      NormalizeSettles(occ, stamp);
      NormalizeExact(occ, stamp, normal);
      var merged := MergeOccurrence(loaded, normal, now);
      log := log + [normal];
      Save(merged);
      AppendStays(fp, old(issues), loaded, issues, old(log), normal, now);
      LastIsHeld(fp, issues, log);
    }

    /** decodeLegacyJSONL: merges the lines one after the other into an empty store. */
    method ReplayLegacy(lines: seq<Occurrence>, clock: nat -> Stamp) returns (replayed: seq<Issue>)
      ensures replayed == Replay(fp, [], lines, clock)
    {
      hide Merge, Normalize;
      replayed := [];
      for n := 0 to |lines|
        invariant replayed == Replay(fp, [], lines[..n], clock)
      {
        assert lines[..n + 1][..n] == lines[..n];
        replayed := MergeOccurrence(replayed, Normalize(lines[n], clock(n)), clock(n).now);
      }
      assert lines[..|lines|] == lines;
    }

    /** The n most recently seen issues whose source starts with `source`; all of them for n <= 0. */
    method Recent(n: int, source: string, stamps: (nat, nat) -> Stamp) returns (recent: seq<Issue>)
      requires Valid()
      ensures Sorted(recent) && forall x | x in recent :: x in issues && source <= x.latest.source
      ensures forall x, y | x in issues && source <= x.latest.source && x !in recent && y in recent :: MayPrecede(x, y)
      ensures |recent| < n || n <= 0 ==> forall x | x in issues && source <= x.latest.source :: x in recent
      ensures n > 0 ==> |recent| <= n
    {
      hide Groups, LifecycleOk, MayPrecede, Reordered;
      var loaded := Load(stamps);
      SameMembers(issues, loaded);
      var filtered: seq<Issue> := [];
      for i := 0 to |loaded|
        invariant Sorted(filtered)
        invariant forall x :: x in filtered <==> x in loaded[..i] && source <= x.latest.source
      {
        assert loaded[..i + 1] == loaded[..i] + [loaded[i]];
        if source <= loaded[i].latest.source {
          KeptInOrder(filtered, loaded[i]);
          filtered := filtered + [loaded[i]];
        }
      }
      assert loaded[..|loaded|] == loaded;
      if n <= 0 || n >= |filtered| { return filtered; }
      recent := filtered[|filtered| - n..];
      assert filtered == filtered[..|filtered| - n] + recent;
    }

    method Clear()
      modifies this
      ensures Valid() && issues == [] && log == []
    {
      issues, log := [], [];
    }

    /** Index of the first issue with the ID, or the length. */
    method Find(loaded: seq<Issue>, id: string) returns (i: nat)
      ensures i <= |loaded|
      ensures i < |loaded| ==> loaded[i].latest.id == id
      ensures forall j | 0 <= j < i :: loaded[j].latest.id != id
    {
      i := 0;
      while i < |loaded| && loaded[i].latest.id != id
        invariant i <= |loaded| && forall j | 0 <= j < i :: loaded[j].latest.id != id
      {
        i := i + 1;
      }
    }

    /** Puts a new lifecycle on one issue; the grouping does not notice. */
    method SaveLifecycle(loaded: seq<Issue>, i: nat, life: Lifecycle)
      requires Valid() && Reordered(issues, loaded) && i < |loaded| && LifecycleOk(life)
      modifies `issues
      ensures Valid() && Reordered(loaded[i := loaded[i].(life := life)], issues)
    {
      hide Represents, Sorted, LifecycleOk;
      ReorderedGroups(fp, issues, loaded, log);
      var changed := loaded[i := loaded[i].(life := life)];
      LifecycleIsApart(fp, loaded, i, life, log);
      Save(changed);
      ReorderedGroups(fp, changed, issues, log);
    }

    /** Succeeds exactly if the first issue with the ID is active. */
    method Acknowledge(id: string, actor: string, stamps: (nat, nat) -> Stamp, now: int) returns (r: Option<Issue>)
      requires Valid()
      modifies `issues
      ensures Valid()
      ensures r.None? ==> issues == old(issues)
      ensures r.None? ==> (forall x | x in issues :: x.latest.id != id) || (exists x :: x in issues && x.latest.id == id && x.life.state != Active)
      ensures r.Some? ==> Moved(old(issues), OpAcknowledge(id, actor, now), issues, r.value) && r.value.life.state == Acknowledged
      ensures r.None? ==> Refused(old(issues), OpAcknowledge(id, actor, now), issues)
    {
      hide Represents, Sorted, LifecycleOk, Reordered, IssueSpec.Acknowledge;
      ghost var op := OpAcknowledge(id, actor, now);
      var loaded := Load(stamps);
      SameMembers(issues, loaded);
      var i := Find(loaded, id);
      if i == |loaded| { assert RefusedAt(issues, op, loaded); return None; }
      OnlyFirst(loaded, i, id);
      assert loaded[i] in issues;
      TransitionsExact(loaded[i].life, actor, "", now);
      var next := IssueSpec.Acknowledge(loaded[i].life, actor, now);
      if next.None? { assert RefusedAt(issues, op, loaded); return None; }
      SaveLifecycle(loaded, i, next.value);
      r := Some(loaded[i].(life := next.value));
      assert MovedAt(old(issues), op, loaded, i, r.value, issues);
    }

    method Resolve(id: string, actor: string, trackerUrl: string, stamps: (nat, nat) -> Stamp, now: int) returns (r: Option<Issue>)
      requires Valid()
      modifies `issues
      ensures Valid()
      ensures r.None? ==> issues == old(issues)
      ensures r.None? ==> (forall x | x in issues :: x.latest.id != id) || (exists x :: x in issues && x.latest.id == id && x.life.state == Resolved)
      ensures r.Some? ==> Moved(old(issues), OpResolve(id, actor, trackerUrl, now), issues, r.value) && r.value.life.state == Resolved
      ensures r.None? ==> Refused(old(issues), OpResolve(id, actor, trackerUrl, now), issues)
    {
      hide Represents, Sorted, LifecycleOk, Reordered, IssueSpec.Resolve;
      ghost var op := OpResolve(id, actor, trackerUrl, now);
      var loaded := Load(stamps);
      SameMembers(issues, loaded);
      var i := Find(loaded, id);
      if i == |loaded| { assert RefusedAt(issues, op, loaded); return None; }
      OnlyFirst(loaded, i, id);
      assert loaded[i] in issues;
      TransitionsExact(loaded[i].life, actor, trackerUrl, now);
      var next := IssueSpec.Resolve(loaded[i].life, actor, trackerUrl, now);
      if next.None? { assert RefusedAt(issues, op, loaded); return None; }
      SaveLifecycle(loaded, i, next.value);
      r := Some(loaded[i].(life := next.value));
      assert MovedAt(old(issues), op, loaded, i, r.value, issues);
    }

    method Reopen(id: string, actor: string, stamps: (nat, nat) -> Stamp, now: int) returns (r: Option<Issue>)
      requires Valid()
      modifies `issues
      ensures Valid()
      ensures r.None? ==> issues == old(issues)
      ensures r.None? ==> (forall x | x in issues :: x.latest.id != id) || (exists x :: x in issues && x.latest.id == id && x.life.state != Resolved)
      ensures r.Some? ==> Moved(old(issues), OpReopen(id, actor, now), issues, r.value) && r.value.life.state == Active
      ensures r.None? ==> Refused(old(issues), OpReopen(id, actor, now), issues)
    {
      hide Represents, Sorted, LifecycleOk, Reordered, IssueSpec.Reopen;
      ghost var op := OpReopen(id, actor, now);
      var loaded := Load(stamps);
      SameMembers(issues, loaded);
      var i := Find(loaded, id);
      if i == |loaded| { assert RefusedAt(issues, op, loaded); return None; }
      OnlyFirst(loaded, i, id);
      assert loaded[i] in issues;
      TransitionsExact(loaded[i].life, actor, "", now);
      var next := IssueSpec.Reopen(loaded[i].life, actor, now);
      if next.None? { assert RefusedAt(issues, op, loaded); return None; }
      SaveLifecycle(loaded, i, next.value);
      r := Some(loaded[i].(life := next.value));
      assert MovedAt(old(issues), op, loaded, i, r.value, issues);
    }
  }

  /** Loading, merging one occurrence and saving. */
  lemma AppendStays(fp: Fingerprints, before: seq<Issue>, loaded: seq<Issue>, after: seq<Issue>, log: seq<Occurrence>, occ: Occurrence, now: int)
    requires StoreOk(fp, before, log) && Normal(occ)
    requires Reordered(before, loaded) && Reordered(Merge(fp, loaded, occ, now), after)
    ensures StoreOk(fp, after, log + [occ]) && Appended(fp, before, occ, now, after)
    ensures AllUntouched(fp, before, log) ==> AllUntouched(fp, after, log + [occ])
  {
    hide StoreOk, Normal, Merge, Reordered, AllUntouched;
    ReorderedOk(fp, before, loaded, log);
    MergeKeepsOk(fp, loaded, log, occ, now);
    ReorderedOk(fp, Merge(fp, loaded, occ, now), after, log + [occ]);
    if AllUntouched(fp, before, log) {
      ReorderedUntouched(fp, before, loaded, log);
      OkGroups(fp, loaded, log);
      MergeStaysUntouched(fp, loaded, log, occ, now);
      ReorderedUntouched(fp, Merge(fp, loaded, occ, now), after, log + [occ]);
    }
  }

  lemma OkGroups(fp: Fingerprints, issues: seq<Issue>, log: seq<Occurrence>)
    requires StoreOk(fp, issues, log)
    ensures Groups(fp, issues, log)
  {
  }

  lemma ReorderedUntouched(fp: Fingerprints, a: seq<Issue>, b: seq<Issue>, log: seq<Occurrence>)
    requires Reordered(a, b) && AllUntouched(fp, a, log)
    ensures AllUntouched(fp, b, log)
  {
    hide Untouched;
  }

  /** The occurrence appended last is in the issue of its class. */
  lemma LastIsHeld(fp: Fingerprints, issues: seq<Issue>, log: seq<Occurrence>)
    requires Groups(fp, issues, log) && log != []
    ensures exists x :: x in issues && log[|log| - 1] in x.occurrences && x.fingerprint == fp(KeyOf(log[|log| - 1]))
  {
    hide KeyOf, Rebuild, AllNormal, Unique, ClassOf;
    var occ := log[|log| - 1];
    ClassHolds(fp, log, |log| - 1);
    assert Covered(issues, fp(KeyOf(occ)));
    var j :| 0 <= j < |issues| && issues[j].fingerprint == fp(KeyOf(occ));
    assert Represents(fp, issues[j], log) && issues[j] in issues;
  }

  lemma OnlyFirst(issues: seq<Issue>, i: nat, id: string)
    requires FirstWithId(issues, i, id)
    ensures forall j: nat | FirstWithId(issues, j, id) :: j == i
  {
  }

  /** The issues of one source, least recently seen first. */
  lemma KeptInOrder(kept: seq<Issue>, x: Issue)
    requires Sorted(kept) && forall y | y in kept :: MayPrecede(y, x)
    ensures Sorted(kept + [x])
  {
    hide MayPrecede;
  }

  // ---- Runs ----

  /** A call with the clock readings it may use. */
  datatype Call =
    | CallAppend(occ: Occurrence, stamp: Stamp, stamps: (nat, nat) -> Stamp, now: int)
    | CallAcknowledge(id: string, actor: string, stamps: (nat, nat) -> Stamp, now: int)
    | CallResolve(id: string, actor: string, trackerUrl: string, stamps: (nat, nat) -> Stamp, now: int)
    | CallReopen(id: string, actor: string, stamps: (nat, nat) -> Stamp, now: int)

  function OpOf(call: Call): Op {
    match call
    case CallAppend(occ, stamp, _, now) => OpAppend(Normalize(occ, stamp), now)
    case CallAcknowledge(id, actor, _, now) => OpAcknowledge(id, actor, now)
    case CallResolve(id, actor, url, _, now) => OpResolve(id, actor, url, now)
    case CallReopen(id, actor, _, now) => OpReopen(id, actor, now)
  }

  function OpsOf(calls: seq<Call>): seq<Op> {
    seq(|calls|, i requires 0 <= i < |calls| => OpOf(calls[i]))
  }

  /** Each call on the store object is one step of the specification. */
  method Perform(store: Store, call: Call)
    requires store.Valid()
    modifies store
    ensures store.Valid() && Took(store.fp, old(store.issues), OpOf(call), store.issues)
    ensures store.log == LogAfter(old(store.log), OpOf(call))
  {
    hide Moved, Refused, Appended, Normalize;
    match call {
      case CallAppend(occ, stamp, stamps, now) => store.Append(occ, stamp, stamps, now);
      case CallAcknowledge(id, actor, stamps, now) => var _ := store.Acknowledge(id, actor, stamps, now);
      case CallResolve(id, actor, url, stamps, now) => var _ := store.Resolve(id, actor, url, stamps, now);
      case CallReopen(id, actor, stamps, now) => var _ := store.Reopen(id, actor, stamps, now);
    }
  }

  /** Any sequence of calls is a run; so no issue is lost or changes its ID, nothing recorded about one is
      lost, and while no two share an ID each becomes what the calls make of it. */
  method PerformAll(store: Store, calls: seq<Call>) returns (ghost states: seq<seq<Issue>>)
    requires store.Valid()
    modifies store
    ensures store.Valid() && RunOf(store.fp, states, OpsOf(calls))
    ensures states[0] == old(store.issues) && states[|calls|] == store.issues
    ensures store.log == LogOf(old(store.log), OpsOf(calls))
    ensures AllOutlived(old(store.issues), store.issues)
    ensures (forall k | 0 <= k < |calls| :: DistinctIds(states[k])) ==>
              forall x | x in old(store.issues) :: EvolveAll(store.fp, x, OpsOf(calls)) in store.issues
  {
    hide Took, StoreOk, LogAfter, AllOutlived, EvolveAll, DistinctIds, OpOf, Sorted;
    states := [store.issues];
    for n := 0 to |calls|
      invariant store.Valid() && RunOf(store.fp, states, OpsOf(calls[..n]))
      invariant states[0] == old(store.issues) && states[n] == store.issues
      invariant store.log == LogOf(old(store.log), OpsOf(calls[..n]))
    {
      ghost var ops := OpsOf(calls[..n]);
      Perform(store, calls[n]);
      assert calls[..n + 1][..n] == calls[..n];
      assert OpsOf(calls[..n + 1]) == ops + [OpOf(calls[n])];
      LongerRun(store.fp, states, ops, OpOf(calls[n]), store.issues);
      states := states + [store.issues];
    }
    assert calls[..|calls|] == calls;
    NormalOps(calls);
    ValidIsOk(store.fp, old(store.issues), old(store.log));
    RunsKeepIssues(store.fp, states, OpsOf(calls), old(store.log));
    if forall k | 0 <= k < |calls| :: DistinctIds(states[k]) {
      RunsEvolve(store.fp, states, OpsOf(calls), old(store.log));
    }
  }

  lemma LongerRun(fp: Fingerprints, states: seq<seq<Issue>>, ops: seq<Op>, op: Op, issues: seq<Issue>)
    requires RunOf(fp, states, ops) && Took(fp, states[|ops|], op, issues)
    ensures RunOf(fp, states + [issues], ops + [op])
    ensures forall log :: LogOf(log, ops + [op]) == LogAfter(LogOf(log, ops), op)
  {
    hide Took;
    assert (ops + [op])[..|ops|] == ops;
  }

  lemma NormalOps(calls: seq<Call>)
    ensures AllNormalOps(OpsOf(calls))
  {
    hide Normal, Normalize;
    forall k | 0 <= k < |calls| && OpsOf(calls)[k].OpAppend? ensures Normal(OpsOf(calls)[k].occ) {
      NormalizeSettles(calls[k].occ, calls[k].stamp);
    }
  }

  lemma ValidIsOk(fp: Fingerprints, issues: seq<Issue>, log: seq<Occurrence>)
    requires Groups(fp, issues, log) && forall i | 0 <= i < |issues| :: LifecycleOk(issues[i].life)
    ensures StoreOk(fp, issues, log)
  {
  }
}
