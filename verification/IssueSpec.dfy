/** Issue records: normalised occurrences, the aggregate built from them, and the lifecycle. Time stamps
    are integers with 0 for the zero time. The fingerprint is a given function of the fields the source
    computes it from. */
module IssueSpec {
  import opened Options

  datatype Occurrence = Occurrence(
    id: string,
    timestamp: int,
    source: string,
    tool: string,
    input: string,
    error: string,
    context: string,
    repoPath: string,
    severity: string)

  datatype State = Unset | Active | Acknowledged | Resolved

  datatype LifecycleEvent = LifecycleEvent(state: State, timestamp: int, actor: string, note: string)

  datatype Lifecycle = Lifecycle(
    state: State,
    acknowledgedAt: Option<int>,
    acknowledgedBy: string,
    resolvedAt: Option<int>,
    resolvedBy: string,
    trackerUrl: string,
    history: seq<LifecycleEvent>)

  /** `latest` stands for the top-level fields that mirror one occurrence; its `id` is the issue's. */
  datatype Issue = Issue(
    latest: Occurrence,
    fingerprint: string,
    firstSeen: int,
    lastSeen: int,
    count: nat,
    occurrences: seq<Occurrence>,
    life: Lifecycle)

  /** What a fingerprint is computed from. */
  datatype Key = Key(source: string, tool: string, input: string, error: string)

  type Fingerprints = Key -> string

  function KeyOf(occ: Occurrence): Key {
    Key(occ.source, occ.tool, occ.input, occ.error)
  }

  const FRESH := Lifecycle(Active, None, "", None, "", "", [])

  // ---- Normalisation ----

  /** unicode.IsSpace. */
  predicate IsSpace(c: char) {
    || '\t' <= c <= '\r' || c == ' ' || c == '\U{0085}' || c == '\U{00A0}' || c == '\U{1680}'
    || '\U{2000}' <= c <= '\U{200A}' || c == '\U{2028}' || c == '\U{2029}' || c == '\U{202F}' || c == '\U{205F}' || c == '\U{3000}'
  }

  /** Exactly the 25 characters Unicode calls white space. */
  lemma SpacesExact(c: char)
    ensures IsSpace(c) <==>
              c in ['\t', '\n', '\U{000B}', '\U{000C}', '\r', ' ', '\U{0085}', '\U{00A0}', '\U{1680}',
                    '\U{2000}', '\U{2001}', '\U{2002}', '\U{2003}', '\U{2004}', '\U{2005}', '\U{2006}', '\U{2007}',
                    '\U{2008}', '\U{2009}', '\U{200A}', '\U{2028}', '\U{2029}', '\U{202F}', '\U{205F}', '\U{3000}']
  {
  }

  predicate Trimmed(s: string) {
    s == "" || (!IsSpace(s[0]) && !IsSpace(s[|s| - 1]))
  }

  function TrimSpace(s: string): (t: string)
    ensures Trimmed(t)
    ensures Trimmed(s) ==> t == s
  {
    if s == "" then s
    else if IsSpace(s[0]) then TrimSpace(s[1..])
    else if IsSpace(s[|s| - 1]) then TrimSpace(s[..|s| - 1])
    else s
  }

  /** `t` is what is left of `s` without the white space at either end. */
  ghost predicate TrimmedOut(s: string, t: string) {
    exists i, j :: CutOut(s, i, j, t)
  }

  ghost predicate CutOut(s: string, i: int, j: int, t: string) {
    && 0 <= i <= j <= |s| && t == s[i..j] && Trimmed(t)
    && (forall k | 0 <= k < i :: IsSpace(s[k])) && (forall k | j <= k < |s| :: IsSpace(s[k]))
  }

  /** Trimming takes the white space off both ends and nothing else. */
  lemma TrimExact(s: string, t: string)
    ensures TrimmedOut(s, t) <==> t == TrimSpace(s)
  {
    TrimCuts(s);
    if TrimmedOut(s, t) {
      CutOnce(s, t, TrimSpace(s));
    }
  }

  lemma {:induction false} TrimCuts(s: string)
    ensures TrimmedOut(s, TrimSpace(s))
  {
    if s == "" {
      assert CutOut(s, 0, 0, s);
    } else if IsSpace(s[0]) {
      TrimCuts(s[1..]);
      var i, j :| CutOut(s[1..], i, j, TrimSpace(s[1..]));
      assert forall k | 1 <= k < |s| :: s[k] == s[1..][k - 1];
      assert CutOut(s, i + 1, j + 1, TrimSpace(s));
    } else if IsSpace(s[|s| - 1]) {
      var rest := s[..|s| - 1];
      TrimCuts(rest);
      var i, j :| CutOut(rest, i, j, TrimSpace(rest));
      assert forall k | 0 <= k < |rest| :: s[k] == rest[k];
      assert CutOut(s, i, j, TrimSpace(s));
    } else {
      assert CutOut(s, 0, |s|, s);
    }
  }

  lemma CutOnce(s: string, t: string, u: string)
    requires TrimmedOut(s, t) && TrimmedOut(s, u)
    ensures t == u
  {
    var i, j :| CutOut(s, i, j, t);
    var a, b :| CutOut(s, a, b, u);
    if t != "" {
      assert !IsSpace(s[i]) && !IsSpace(s[j - 1]) by { assert t[0] == s[i] && t[|t| - 1] == s[j - 1]; }
    }
    if u != "" {
      assert !IsSpace(s[a]) && !IsSpace(s[b - 1]) by { assert u[0] == s[a] && u[|u| - 1] == s[b - 1]; }
    }
  }

  /** The clock reading and the generated ID one call of normalizeOccurrence may use. */
  datatype RawStamp = RawStamp(now: int, id: string)

  type Stamp = s: RawStamp | s.now != 0 && s.id != "" witness RawStamp(1, "0")

  function Normalize(occ: Occurrence, stamp: Stamp): Occurrence {
    Occurrence(
      if occ.id == "" then stamp.id else occ.id,
      if occ.timestamp == 0 then stamp.now else occ.timestamp,
      TrimSpace(occ.source), TrimSpace(occ.tool), TrimSpace(occ.input), TrimSpace(occ.error),
      TrimSpace(occ.context), TrimSpace(occ.repoPath),
      if occ.severity == "" then "error" else occ.severity)
  }

  /** Field by field: what is given is kept, texts without the white space around them, and what is missing
      becomes the generated ID, the clock reading and the severity "error". */
  ghost predicate Cleaned(occ: Occurrence, stamp: Stamp, n: Occurrence) {
    && n.id == (if occ.id != "" then occ.id else stamp.id)
    && n.timestamp == (if occ.timestamp != 0 then occ.timestamp else stamp.now)
    && n.severity == (if occ.severity != "" then occ.severity else "error")
    && TrimmedOut(occ.source, n.source) && TrimmedOut(occ.tool, n.tool)
    && TrimmedOut(occ.input, n.input) && TrimmedOut(occ.error, n.error)
    && TrimmedOut(occ.context, n.context) && TrimmedOut(occ.repoPath, n.repoPath)
  }

  /** Normalising an occurrence is exactly that. */
  lemma NormalizeExact(occ: Occurrence, stamp: Stamp, n: Occurrence)
    ensures Cleaned(occ, stamp, n) <==> n == Normalize(occ, stamp)
  {
    hide TrimmedOut, TrimSpace;
    TrimExact(occ.source, n.source);
    TrimExact(occ.tool, n.tool);
    TrimExact(occ.input, n.input);
    TrimExact(occ.error, n.error);
    TrimExact(occ.context, n.context);
    TrimExact(occ.repoPath, n.repoPath);
  }

  predicate Normal(occ: Occurrence) {
    && occ.id != "" && occ.timestamp != 0 && occ.severity != ""
    && Trimmed(occ.source) && Trimmed(occ.tool) && Trimmed(occ.input) && Trimmed(occ.error)
    && Trimmed(occ.context) && Trimmed(occ.repoPath)
  }

  predicate AllNormal(occs: seq<Occurrence>) {
    forall i | 0 <= i < |occs| :: Normal(occs[i])
  }

  /** Normalising makes normal, and leaves what is normal alone whatever the clock says. */
  lemma NormalizeSettles(occ: Occurrence, stamp: Stamp)
    ensures Normal(Normalize(occ, stamp))
    ensures Normal(occ) <==> forall s: Stamp :: Normalize(occ, s) == occ
  {
    if forall s: Stamp :: Normalize(occ, s) == occ {
      var one: Stamp, two: Stamp := RawStamp(1, "1"), RawStamp(2, "2");
      assert Normalize(occ, one) == occ == Normalize(occ, two);
    }
  }

  function NormalizeAll(occs: seq<Occurrence>, stamp: nat -> Stamp): seq<Occurrence> {
    seq(|occs|, i requires 0 <= i < |occs| => Normalize(occs[i], stamp(i)))
  }

  // ---- The aggregate ----

  function Earliest(occs: seq<Occurrence>): (t: int)
    requires occs != []
    ensures forall i | 0 <= i < |occs| :: t <= occs[i].timestamp
    ensures exists i :: 0 <= i < |occs| && t == occs[i].timestamp
  {
    var n := |occs| - 1;
    if n == 0 then occs[0].timestamp
    else
      var t := Earliest(occs[..n]);
      if occs[n].timestamp < t then occs[n].timestamp else t
  }

  /** The latest occurrence; among several the one appended last. */
  function LatestIndex(occs: seq<Occurrence>): (k: nat)
    requires occs != []
    ensures k < |occs|
    ensures forall i | 0 <= i < |occs| :: occs[i].timestamp <= occs[k].timestamp
    ensures forall i | k < i < |occs| :: occs[i].timestamp < occs[k].timestamp
  {
    var n := |occs| - 1;
    if n == 0 then 0
    else
      var k := LatestIndex(occs[..n]);
      if occs[n].timestamp >= occs[k].timestamp then n else k
  }

  function Rebuild(fp: Fingerprints, id: string, occs: seq<Occurrence>): Issue
    requires occs != []
  {
    var latest := occs[LatestIndex(occs)];
    Issue(latest.(id := if id == "" then occs[0].id else id), fp(KeyOf(latest)),
          Earliest(occs), latest.timestamp, |occs|, occs, FRESH)
  }

  // ---- Lifecycle ----

  function Current(life: Lifecycle): State {
    if life.state == Unset then Active else life.state
  }

  function Recorded(life: Lifecycle, state: State, actor: string, note: string, now: int): Lifecycle {
    life.(state := state, history := life.history + [LifecycleEvent(state, now, actor, note)])
  }

  function Acknowledge(life: Lifecycle, actor: string, now: int): Option<Lifecycle> {
    if Current(life) != Active then None
    else Some(Recorded(life, Acknowledged, actor, "acknowledged", now)
              .(acknowledgedAt := Some(now), acknowledgedBy := TrimSpace(actor)))
  }

  function Reopen(life: Lifecycle, actor: string, now: int): Option<Lifecycle> {
    if Current(life) != Resolved then None
    else Some(Recorded(life, Active, actor, "reopened", now).(resolvedAt := None, resolvedBy := ""))
  }

  function Resolve(life: Lifecycle, actor: string, trackerUrl: string, now: int): Option<Lifecycle> {
    if life.state == Resolved then None
    else
      var url := TrimSpace(trackerUrl);
      Some(Recorded(life, Resolved, actor, "", now)
           .(resolvedAt := Some(now), resolvedBy := TrimSpace(actor), trackerUrl := if url != "" then url else life.trackerUrl))
  }

  /** A new occurrence reopens a resolved issue. */
  function Reoccurred(life: Lifecycle, now: int): Lifecycle {
    if life.state == Resolved then
      Recorded(life, Active, "system", "reopened by new occurrence", now).(resolvedAt := None, resolvedBy := "")
    else life.(state := Current(life))
  }

  // ---- The store ----

  /** Index of the first issue with that fingerprint, or the length. */
  function FindIssue(issues: seq<Issue>, fingerprint: string): (i: nat)
    ensures i <= |issues|
    ensures i < |issues| ==> issues[i].fingerprint == fingerprint
    ensures forall j | 0 <= j < i :: issues[j].fingerprint != fingerprint
  {
    if issues == [] then 0
    else if issues[0].fingerprint == fingerprint then 0
    else 1 + FindIssue(issues[1..], fingerprint)
  }

  function Merged(fp: Fingerprints, prior: Issue, occ: Occurrence, now: int): Issue {
    Rebuild(fp, prior.latest.id, prior.occurrences + [occ]).(life := Reoccurred(prior.life, now))
  }

  function Merge(fp: Fingerprints, issues: seq<Issue>, occ: Occurrence, now: int): seq<Issue> {
    var i := FindIssue(issues, fp(KeyOf(occ)));
    if i < |issues| then issues[i := Merged(fp, issues[i], occ, now)]
    else issues + [Rebuild(fp, occ.id, [occ])]
  }

  /** decodeLegacyJSONL, after the JSON: one occurrence per line, in order. */
  function Replay(fp: Fingerprints, issues: seq<Issue>, lines: seq<Occurrence>, clock: nat -> Stamp): seq<Issue>
    decreases |lines|
  {
    if lines == [] then issues
    else
      var n := |lines| - 1;
      Merge(fp, Replay(fp, issues, lines[..n], clock), Normalize(lines[n], clock(n)), clock(n).now)
  }

  /** One record of normalizeStoreFile. */
  function Loaded(fp: Fingerprints, stored: Issue, stamp: nat -> Stamp): Issue {
    var occs := if stored.occurrences == [] then [Normalize(stored.latest, stamp(0))] else NormalizeAll(stored.occurrences, stamp);
    Rebuild(fp, stored.latest.id, occs).(life := stored.life.(state := Current(stored.life)))
  }
}
