/** When a setup is applied and what it then leaves, in terms of its plan and of what the system answers. */
module SetupOutcomes {
  import opened Options
  import opened SetupSpec
  import opened SetupProofs
  import B = ManagedBlock

  // ---- Paths ----

  /** Every path lies below the root, and no two are the same file. */
  ghost predicate PathsOk(resolve: Resolver, rels: seq<string>) {
    && (forall i | 0 <= i < |rels| :: resolve(rels[i]).Some?)
    && (forall i, j | 0 <= i < j < |rels| :: resolve(rels[i]) != resolve(rels[j]))
  }

  lemma {:induction false} ValidPathsExact(resolve: Resolver, rels: seq<string>, seen: set<string>)
    ensures ValidPaths(resolve, rels, seen) <==>
              PathsOk(resolve, rels) && forall i | 0 <= i < |rels| && resolve(rels[i]).Some? :: resolve(rels[i]).value !in seen
  {
    if rels != [] && resolve(rels[0]).Some? {
      var rest, more := rels[1..], seen + {resolve(rels[0]).value};
      ValidPathsExact(resolve, rest, more);
      assert forall i | 0 <= i < |rels| && i > 0 :: rels[i] == rest[i - 1];
      assert forall i | 0 <= i < |rest| :: rest[i] == rels[i + 1];
    }
  }

  // ---- Reservations ----

  /** A service that has a port keeps it; a new one gets what the reserver answers. */
  function Granted(r: Reserver, answers: string -> Option<int>, name: string): Option<int> {
    if name in r.ports then Some(r.ports[name]) else answers(name)
  }

  /** Each name gets a port, and the planned one if that is set. */
  ghost predicate Reservable(r: Reserver, names: seq<string>, planned: map<string, int>, answers: string -> Option<int>)
    requires forall i | 0 <= i < |names| :: names[i] in planned
  {
    forall i | 0 <= i < |names| ::
      && Granted(r, answers, names[i]).Some?
      && (planned[names[i]] == 0 || Granted(r, answers, names[i]) == Some(planned[names[i]]))
  }

  /** Reserving goes through exactly if every name gets its port, and then every name has it. */
  lemma {:induction false} ReserveAllOutcome(r: Reserver, names: seq<string>, planned: map<string, int>, answers: string -> Option<int>, done: seq<string>)
    requires forall i | 0 <= i < |names| :: names[i] in planned
    requires forall i, j | 0 <= i < j < |names| :: names[i] != names[j]
    ensures var q := ReserveAll(r, names, planned, answers, done);
            && (q.ok <==> Reservable(r, names, planned, answers))
            && (q.ok ==> forall n | n in planned :: Some(q.allocations[n]) == if n in names then Granted(r, answers, n) else Some(planned[n]))
            && (q.ok ==> forall n :: n in q.r.ports <==> n in r.ports || n in names)
            && (q.ok ==> forall n | n in q.r.ports :: Some(q.r.ports[n]) == Granted(r, answers, n))
    decreases |names|
  {
    if names != [] {
      var name, rest := names[0], names[1..];
      var (q, port) := Reserve(r, name, answers(name));
      GrantedAfter(r, q, answers, name, port);
      hide Granted, Reserve;
      if port.Some? && (planned[name] == 0 || port.value == planned[name]) {
        var now := planned[name := port.value];
        ReserveAllOutcome(q, rest, now, answers, if Exists(r, name) then done else done + [name]);
        assert forall i | 0 <= i < |rest| :: rest[i] == names[i + 1] && rest[i] != name;
        assert forall n :: n in names <==> n == name || n in rest;
        RestReservable(r, q, names, planned, now, answers);
      } else {
        assert !Reservable(r, names, planned, answers);
      }
    }
  }

  /** Granting one name its port changes nothing for the others. */
  lemma GrantedAfter(r: Reserver, q: Reserver, answers: string -> Option<int>, name: string, port: Option<int>)
    requires (q, port) == Reserve(r, name, answers(name))
    ensures port == Granted(r, answers, name)
    ensures forall n | n != name || port.Some? :: Granted(q, answers, n) == Granted(r, answers, n)
    ensures port.Some? ==> forall n :: n in q.ports <==> n in r.ports || n == name
  {
  }

  lemma RestReservable(r: Reserver, q: Reserver, names: seq<string>, planned: map<string, int>, now: map<string, int>, answers: string -> Option<int>)
    requires names != [] && (forall i | 0 <= i < |names| :: names[i] in planned) && planned.Keys <= now.Keys
    requires Granted(r, answers, names[0]).Some? && (planned[names[0]] == 0 || Granted(r, answers, names[0]) == Some(planned[names[0]]))
    requires forall i | 0 <= i < |names[1..]| :: Granted(q, answers, names[1..][i]) == Granted(r, answers, names[1..][i]) && now[names[1..][i]] == planned[names[1..][i]]
    ensures Reservable(r, names, planned, answers) <==> Reservable(q, names[1..], now, answers)
  {
    hide Granted;
    var rest := names[1..];
    assert forall i | 0 <= i < |rest| :: rest[i] == names[i + 1];
    if Reservable(q, rest, now, answers) {
      forall i | 0 <= i < |names| ensures Granted(r, answers, names[i]).Some? && (planned[names[i]] == 0 || Granted(r, answers, names[i]) == Some(planned[names[i]])) {
        assert i > 0 ==> names[i] == rest[i - 1];
      }
    }
  }

  /** A single-service plan without ports reserves one for its service, if it names one and there is a
      reserver; a composite plan reserves for all of its allocations. */
  predicate ReservesOne(plan: Plan, reserver: Option<Reserver>) {
    plan.single && plan.allocations == map[] && reserver.Some? && plan.serviceName != ""
  }

  ghost predicate ReserveWorks(plan: Plan, reserver: Option<Reserver>, env: ApplyEnv)
    requires forall i | 0 <= i < |env.names| :: env.names[i] in plan.allocations
  {
    if ReservesOne(plan, reserver) then Granted(reserver.value, env.answers, plan.serviceName).Some?
    else if !plan.single && plan.allocations != map[] then
      reserver.Some? && Reservable(reserver.value, env.names, plan.allocations, env.answers)
    else true
  }

  /** The port has been filled in in the first config file, and nowhere else. */
  ghost predicate Filled(files: seq<GeneratedFile>, fill: (string, int) -> string, port: int, filled: seq<GeneratedFile>) {
    && |filled| == |files|
    && forall i | 0 <= i < |files| ::
         filled[i] == if files[i].rel == ".anito/config.yaml" && NoConfig(files, i) then GeneratedFile(files[i].rel, fill(files[i].content, port))
                      else files[i]
  }

  ghost predicate NoConfig(files: seq<GeneratedFile>, n: int)
    requires n <= |files|
  {
    forall j | 0 <= j < n :: files[j].rel != ".anito/config.yaml"
  }

  lemma {:induction false} FillExact(files: seq<GeneratedFile>, fill: (string, int) -> string, port: int)
    ensures Filled(files, fill, port, FillPort(files, fill, port))
  {
    if files != [] && files[0].rel != CONFIG {
      var rest := files[1..];
      FillExact(rest, fill, port);
      forall i | 0 < i <= |rest| ensures NoConfig(files, i) <==> NoConfig(rest, i - 1) {
        assert forall j | 0 <= j < i - 1 :: rest[j] == files[j + 1];
        assert forall j | 0 < j < i :: files[j] == rest[j - 1];
      }
    } else if files != [] {
      assert forall i | 0 < i < |files| :: !NoConfig(files, i) by { assert files[0].rel == ".anito/config.yaml"; }
    }
  }

  /** What a plan comes to once its ports have been reserved. */
  ghost predicate Effective(plan: Plan, reserver: Option<Reserver>, env: ApplyEnv, allocations: map<string, int>, files: seq<GeneratedFile>) {
    if ReservesOne(plan, reserver) then
      && allocations.Keys == {plan.serviceName}
      && Granted(reserver.value, env.answers, plan.serviceName) == Some(allocations[plan.serviceName])
      && Filled(plan.files, env.fill, allocations[plan.serviceName], files)
    else if !plan.single && plan.allocations != map[] then
      && reserver.Some? && allocations.Keys == plan.allocations.Keys && files == plan.files
      && forall n | n in allocations :: Granted(reserver.value, env.answers, n) == Some(allocations[n])
    else allocations == plan.allocations && files == plan.files
  }

  /** The reserver has the ports of the plan, and those it had. */
  ghost predicate Reserved(reserver: Option<Reserver>, after: Option<Reserver>, allocations: map<string, int>, reserves: bool) {
    if reserver.None? || !reserves then after == reserver
    else
      && after.Some? && after.value.knowsPorts == reserver.value.knowsPorts && after.value.canRemove == reserver.value.canRemove
      && (forall n :: n in after.value.ports <==> n in reserver.value.ports || n in allocations)
      && (forall n | n in after.value.ports ::
            after.value.ports[n] == if n in reserver.value.ports then reserver.value.ports[n] else allocations[n])
  }

  predicate Reserves(plan: Plan, reserver: Option<Reserver>) {
    ReservesOne(plan, reserver) || (!plan.single && plan.allocations != map[])
  }

  lemma {:induction false} ReserveAllKeeps(r: Reserver, names: seq<string>, planned: map<string, int>, answers: string -> Option<int>, done: seq<string>)
    requires forall i | 0 <= i < |names| :: names[i] in planned
    ensures var q := ReserveAll(r, names, planned, answers, done).r;
            q.knowsPorts == r.knowsPorts && q.canRemove == r.canRemove
    decreases |names|
  {
    if names != [] {
      var name := names[0];
      var (q, port) := Reserve(r, name, answers(name));
      if port.Some? {
        ReserveAllKeeps(q, names[1..], planned[name := port.value], answers, if Exists(r, name) then done else done + [name]);
      }
    }
  }

  ghost predicate NamesOf(plan: Plan, env: ApplyEnv) {
    && (forall i, j | 0 <= i < j < |env.names| :: env.names[i] != env.names[j])
    && (forall n :: n in plan.allocations <==> n in env.names)
  }

  lemma ReserveOutcome(plan: Plan, reserver: Option<Reserver>, env: ApplyEnv)
    requires NamesOf(plan, env)
    ensures var (effective, after, _, ok) := ReservePlan(plan, reserver, env);
            && (ok <==> ReserveWorks(plan, reserver, env))
            && effective.patches == plan.patches && effective.single == plan.single
            && (ok ==> Effective(plan, reserver, env, effective.allocations, effective.files))
            && (ok ==> Reserved(reserver, after, effective.allocations, Reserves(plan, reserver)))
  {
    hide Filled, FillPort, Reservable, ReserveAll, Granted;
    if ReservesOne(plan, reserver) {
      ReserveOneOutcome(reserver.value, plan.serviceName, env.answers);
      var done := ReserveAll(reserver.value, [plan.serviceName], map[plan.serviceName := 0], env.answers, []);
      FillExact(plan.files, env.fill, done.allocations[plan.serviceName]);
    } else if !plan.single && plan.allocations != map[] && reserver.Some? {
      ReserveTold(reserver.value, env.names, plan.allocations, env.answers);
    }
  }

  lemma ReserveTold(r: Reserver, names: seq<string>, planned: map<string, int>, answers: string -> Option<int>)
    requires forall i, j | 0 <= i < j < |names| :: names[i] != names[j]
    requires forall n :: n in planned <==> n in names
    ensures var q := ReserveAll(r, names, planned, answers, []);
            && (q.ok <==> Reservable(r, names, planned, answers))
            && (q.ok ==> forall n | n in q.allocations :: Granted(r, answers, n) == Some(q.allocations[n]))
            && (q.ok ==> Reserved(Some(r), Some(q.r), q.allocations, true))
  {
    hide Reservable, Granted;
    ReserveAllOutcome(r, names, planned, answers, []);
    ReserveAllKeeps(r, names, planned, answers, []);
    forall n ensures n in r.ports ==> Granted(r, answers, n) == Some(r.ports[n]) {
      GrantedKept(r, answers, n);
    }
  }

  lemma GrantedKept(r: Reserver, answers: string -> Option<int>, n: string)
    ensures n in r.ports ==> Granted(r, answers, n) == Some(r.ports[n])
  {
  }

  lemma ReserveOneOutcome(r: Reserver, name: string, answers: string -> Option<int>)
    ensures var q := ReserveAll(r, [name], map[name := 0], answers, []);
            && (q.ok <==> Granted(r, answers, name).Some?)
            && q.allocations.Keys == {name}
            && (q.ok ==> Granted(r, answers, name) == Some(q.allocations[name]))
            && (q.ok ==> Reserved(Some(r), Some(q.r), q.allocations, true))
  {
    hide Granted, ReserveAll, Reserved;
    var planned := map[name := 0];
    assert [name][0] in planned;
    ReserveTold(r, [name], planned, answers);
    assert Reservable(r, [name], planned, answers) <==> Granted(r, answers, [name][0]).Some?;
  }

  // ---- Preparing ----

  /** The target is no file that cannot be read. */
  predicate Readable(base: Disk, resolve: Resolver, rel: string, env: Env) {
    resolve(rel).Some? && (resolve(rel).value in base ==> resolve(rel).value !in env.unreadable)
  }

  /** The target exists and has a managed block. */
  predicate Applies(base: Disk, resolve: Resolver, patch: SourcePatch) {
    var path := resolve(patch.rel);
    path.Some? && path.value in base && B.Replace(base[path.value].content, patch.block).Some?
  }

  function Applicable(base: Disk, resolve: Resolver, patches: seq<SourcePatch>): seq<SourcePatch> {
    if patches == [] then []
    else (if Applies(base, resolve, patches[0]) then [patches[0]] else []) + Applicable(base, resolve, patches[1..])
  }

  function Others(base: Disk, resolve: Resolver, patches: seq<SourcePatch>): seq<SourcePatch> {
    if patches == [] then []
    else (if Applies(base, resolve, patches[0]) then [] else [patches[0]]) + Others(base, resolve, patches[1..])
  }

  ghost predicate NoneFails(fails: nat -> bool, from: nat, n: nat) {
    forall i: nat | from <= i < from + n :: !fails(i)
  }

  lemma FirstFails(fails: nat -> bool, from: nat, n: nat)
    ensures NoneFails(fails, from, n + 1) <==> !fails(from) && NoneFails(fails, from + 1, n)
  {
  }

  ghost predicate AllReadable(base: Disk, resolve: Resolver, rels: seq<string>, env: Env) {
    forall i | 0 <= i < |rels| :: Readable(base, resolve, rels[i], env)
  }

  lemma FirstReadable(base: Disk, resolve: Resolver, rels: seq<string>, env: Env)
    requires rels != []
    ensures AllReadable(base, resolve, rels, env) <==> Readable(base, resolve, rels[0], env) && AllReadable(base, resolve, rels[1..], env)
  {
    hide Readable;
    assert forall i | 0 < i < |rels| :: rels[i] == rels[1..][i - 1];
    assert forall i | 0 <= i < |rels[1..]| :: rels[1..][i] == rels[i + 1];
  }

  lemma {:induction false} FilesReady(base: Disk, p: Prepared, resolve: Resolver, files: seq<GeneratedFile>, more: seq<string>, env: Env, seen: set<string>)
    requires FreshTmps(base, env) && WellStaged(base, p.disk, p.ops) && Numbered(p.ops, env, seen) && SeenApart(seen, env)
    requires ValidPaths(resolve, FileRels(files) + more, seen) && PathsApart(resolve, FileRels(files) + more, env)
    ensures PrepareFiles(p, resolve, files, env).Ready? <==>
              AllReadable(base, resolve, FileRels(files), env) && NoneFails(env.stageFails, |p.ops|, |files|)
    decreases |files|
  {
    hide WellStaged, Staged, Stage, Cleanup, FreshTmps, AllReadable, NoneFails;
    if files == [] {
      NothingToRead(base, resolve, env, |p.ops|);
    } else {
      var rels := FileRels(files) + more;
      assert rels[1..] == FileRels(files[1..]) + more && FileRels(files)[1..] == FileRels(files[1..]);
      FirstApart(resolve, rels, env);
      StagedCleans(base, p);
      TargetUntouched(base, p.disk, p.ops, resolve, files[0].rel, env);
      FirstReadable(base, resolve, FileRels(files), env);
      FirstFails(env.stageFails, |p.ops|, |files| - 1);
      var q := PrepareFile(p, resolve, files[0], env);
      if q.Some? {
        var path := resolve(files[0].rel).value;
        var op := q.value.ops[|p.ops|];
        StagedShape(p.disk, files[0].rel, path, files[0].content, ModeForGenerated(files[0].rel), env.tmp(|p.ops|));
        StageKeeps(base, p, op, resolve, files[0].rel, env, seen);
        FilesReady(base, q.value, resolve, files[1..], more, env, seen + {path});
      }
    }
  }

  lemma NothingToRead(base: Disk, resolve: Resolver, env: Env, from: nat)
    ensures AllReadable(base, resolve, [], env) && NoneFails(env.stageFails, from, 0)
  {
  }

  lemma {:induction false} PatchesReady(base: Disk, p: Prepared, resolve: Resolver, patches: seq<SourcePatch>, env: Env, seen: set<string>)
    requires FreshTmps(base, env) && WellStaged(base, p.disk, p.ops) && Numbered(p.ops, env, seen) && SeenApart(seen, env)
    requires ValidPaths(resolve, PatchRels(patches), seen) && PathsApart(resolve, PatchRels(patches), env)
    ensures PreparePatches(p, resolve, patches, env).Ready? <==>
              AllReadable(base, resolve, PatchRels(patches), env) && NoneFails(env.stageFails, |p.ops|, |Applicable(base, resolve, patches)|)
    decreases |patches|
  {
    hide WellStaged, Staged, Stage, Cleanup, FreshTmps, B.Replace, AllReadable, NoneFails;
    if patches == [] {
      NothingToRead(base, resolve, env, |p.ops|);
    } else {
      StagedCleans(base, p);
      var patch := patches[0];
      assert PatchRels(patches)[1..] == PatchRels(patches[1..]);
      FirstApart(resolve, PatchRels(patches), env);
      TargetUntouched(base, p.disk, p.ops, resolve, patch.rel, env);
      FirstReadable(base, resolve, PatchRels(patches), env);
      if Applies(base, resolve, patch) {
        FirstFails(env.stageFails, |p.ops|, |Applicable(base, resolve, patches[1..])|);
      }
      var q := PreparePatch(p, resolve, patch, env);
      if q.Some? {
        var path := resolve(patch.rel).value;
        if q.value.ops != p.ops {
          var next := B.Replace(p.disk[path].content, patch.block);
          StagedShape(p.disk, patch.rel, path, next.value, p.disk[path].mode, env.tmp(|p.ops|));
          StageKeeps(base, p, q.value.ops[|p.ops|], resolve, patch.rel, env, seen);
        }
        PatchesReady(base, q.value, resolve, patches[1..], env, seen + {path});
      }
    }
  }

  lemma ReadableSplit(base: Disk, resolve: Resolver, a: seq<string>, b: seq<string>, env: Env)
    ensures AllReadable(base, resolve, a + b, env) <==> AllReadable(base, resolve, a, env) && AllReadable(base, resolve, b, env)
  {
    hide Readable;
    var all := a + b;
    assert forall i | 0 <= i < |a| :: all[i] == a[i];
    assert forall i | 0 <= i < |b| :: all[|a| + i] == b[i];
    assert forall i | |a| <= i < |all| :: all[i] == b[i - |a|];
  }

  lemma FailsSplit(fails: nat -> bool, m: nat, n: nat)
    ensures NoneFails(fails, 0, m + n) <==> NoneFails(fails, 0, m) && NoneFails(fails, m, n)
  {
  }

  /** How many files are written. */
  function Writes(base: Disk, resolve: Resolver, files: seq<GeneratedFile>, patches: seq<SourcePatch>): nat {
    |files| + |Applicable(base, resolve, patches)|
  }

  /** Preparing goes through exactly if no target is unreadable and no file fails to be staged. */
  lemma PrepareReady(base: Disk, resolve: Resolver, files: seq<GeneratedFile>, patches: seq<SourcePatch>, env: Env)
    requires FreshTmps(base, env) && ValidPaths(resolve, FileRels(files) + PatchRels(patches), {})
    requires PathsApart(resolve, FileRels(files) + PatchRels(patches), env)
    ensures Prepare(base, resolve, files, patches, env).Ready? <==>
              && AllReadable(base, resolve, FileRels(files) + PatchRels(patches), env)
              && NoneFails(env.stageFails, 0, Writes(base, resolve, files, patches))
  {
    hide FreshTmps, ValidPaths, PrepareFiles, PreparePatches, PathsApart, SeenApart, AllReadable, NoneFails, Applicable;
    var start := Prepared(base, [], []);
    assert Cleanup(base, []) == base;
    NothingSeen(env);
    FilesReady(base, start, resolve, files, PatchRels(patches), env, {});
    FilesStage(base, start, resolve, files, PatchRels(patches), env, {});
    ReadableSplit(base, resolve, FileRels(files), PatchRels(patches), env);
    FailsSplit(env.stageFails, |files|, |Applicable(base, resolve, patches)|);
    if PrepareFiles(start, resolve, files, env).Ready? {
      FilesPlanned(start, resolve, files, env);
      var first := PrepareFiles(start, resolve, files, env).p;
      var all :| Numbered(first.ops, env, all) && SeenApart(all, env) && ValidPaths(resolve, PatchRels(patches), all);
      RestApart(resolve, FileRels(files), PatchRels(patches), env);
      PatchesReady(base, first, resolve, patches, env, all);
    }
  }

  // ---- The lists ----

  lemma {:induction false} SortsExact(base: Disk, resolve: Resolver, patches: seq<SourcePatch>, ops: seq<FileOp>, unapplied: seq<string>)
    requires Sorts(base, resolve, patches, ops, unapplied)
    ensures var applied := Applicable(base, resolve, patches);
            && |ops| == |applied| && RelsOf(ops) == PatchRels(applied)
            && forall i | 0 <= i < |ops| :: PatchFor(base, ops[i], resolve, applied[i])
    decreases |patches|
  {
    if patches != [] {
      hide B.Replace, RelsOf, PatchRels;
      if Applies(base, resolve, patches[0]) {
        SortsExact(base, resolve, patches[1..], ops[1..], unapplied);
        ConsOps(ops, Applicable(base, resolve, patches[1..]), patches[0], base, resolve);
        ConsRels(ops, Applicable(base, resolve, patches[1..]), patches[0]);
        assert Applicable(base, resolve, patches) == [patches[0]] + Applicable(base, resolve, patches[1..]);
      } else {
        SortsExact(base, resolve, patches[1..], ops, unapplied[1..]);
        assert Applicable(base, resolve, patches) == Applicable(base, resolve, patches[1..]);
      }
    }
  }

  lemma {:induction false} SortsOthers(base: Disk, resolve: Resolver, patches: seq<SourcePatch>, ops: seq<FileOp>, unapplied: seq<string>)
    requires Sorts(base, resolve, patches, ops, unapplied)
    ensures unapplied == PatchRels(Others(base, resolve, patches))
    decreases |patches|
  {
    if patches != [] {
      hide B.Replace, PatchFor;
      if Applies(base, resolve, patches[0]) {
        SortsOthers(base, resolve, patches[1..], ops[1..], unapplied);
        assert Others(base, resolve, patches) == Others(base, resolve, patches[1..]);
      } else {
        SortsOthers(base, resolve, patches[1..], ops, unapplied[1..]);
        var others := Others(base, resolve, patches);
        assert others == [patches[0]] + Others(base, resolve, patches[1..]) && others[1..] == Others(base, resolve, patches[1..]);
        assert unapplied == [unapplied[0]] + unapplied[1..];
      }
    }
  }

  lemma ConsOps(ops: seq<FileOp>, rest: seq<SourcePatch>, patch: SourcePatch, base: Disk, resolve: Resolver)
    requires ops != [] && PatchFor(base, ops[0], resolve, patch) && |ops[1..]| == |rest|
    requires forall i | 0 <= i < |rest| :: PatchFor(base, ops[1..][i], resolve, rest[i])
    ensures forall i | 0 <= i < |ops| :: PatchFor(base, ops[i], resolve, ([patch] + rest)[i])
  {
    hide PatchFor;
    var tail := ops[1..];
    assert forall i | 0 < i < |ops| :: ops[i] == tail[i - 1];
  }

  lemma ConsRels(ops: seq<FileOp>, rest: seq<SourcePatch>, patch: SourcePatch)
    requires ops != [] && ops[0].rel == patch.rel && RelsOf(ops[1..]) == PatchRels(rest)
    ensures RelsOf(ops) == PatchRels([patch] + rest)
  {
    assert ([patch] + rest)[1..] == rest;
    assert RelsOf(ops) == [ops[0].rel] + RelsOf(ops[1..]);
  }

  // ---- The whole ----

  lemma {:induction false} CommitReady(disk: Disk, ops: seq<FileOp>, i: nat, env: Env)
    requires i <= |ops|
    ensures Commit(disk, ops, i, env).1 <==> NoneFails(env.renameFails, i, |ops| - i)
    decreases |ops| - i
  {
    hide NoneFails;
    if i < |ops| {
      FirstFails(env.renameFails, i, |ops| - i - 1);
      CommitReady(Rename(disk, ops[i].tmp, ops[i].path), ops, i + 1, env);
    } else {
      assert NoneFails(env.renameFails, i, 0) by { NothingToRead(map[], (r: string) => None, env.(stageFails := env.renameFails), i); }
    }
  }

  /** A setup is applied exactly if a single-service repository has no configuration yet, the root is a
      directory, every path lies below it and is written once, every port is granted, no target is
      unreadable, and none of the writes fails at staging or at renaming. */
  lemma ApplyExact(s: Setup, plan: Plan, env: ApplyEnv)
    requires EnvOk(s, plan, env)
    ensures var n := Writes(s.disk, env.resolve, plan.files, plan.patches);
            Apply(s, plan, env).1.Applied? <==>
              && !(plan.single && plan.hasConfig) && env.rootOk
              && PathsOk(env.resolve, Rels(plan))
              && ReserveWorks(plan, s.reserver, env)
              && AllReadable(s.disk, env.resolve, Rels(plan), env.io)
              && NoneFails(env.io.stageFails, 0, n) && NoneFails(env.io.renameFails, 0, n)
  {
    hide EnvOk, Apply, ReservePlan, ValidPaths, PathsOk, ReserveWorks, AllReadable, NoneFails, Writes, Effective, Reserved, Rels;
    EnvParts(s, plan, env);
    ApplyUnfolds(s, plan, env);
    ValidPathsExact(env.resolve, Rels(plan), {});
    if ValidPaths(env.resolve, Rels(plan), {}) {
      ReserveOutcome(plan, s.reserver, env);
      ReservedRels(plan, s.reserver, env);
      WritesWork(s, plan, ReservePlan(plan, s.reserver, env).0, env);
    }
  }

  lemma EnvParts(s: Setup, plan: Plan, env: ApplyEnv)
    requires EnvOk(s, plan, env)
    ensures NamesOf(plan, env) && FreshTmps(s.disk, env.io) && PathsApart(env.resolve, Rels(plan), env.io)
    ensures forall i | 0 <= i < |env.names| :: env.names[i] in plan.allocations
  {
  }

  ghost predicate Goes(s: Setup, effective: Plan, env: ApplyEnv) {
    match Prepare(s.disk, env.resolve, effective.files, effective.patches, env.io)
    case Aborted(_) => false
    case Ready(p) => Commit(p.disk, p.ops, 0, env.io).1
  }

  lemma ApplyUnfolds(s: Setup, plan: Plan, env: ApplyEnv)
    requires forall i | 0 <= i < |env.names| :: env.names[i] in plan.allocations
    ensures Apply(s, plan, env).1.Applied? <==>
              && !(plan.single && plan.hasConfig) && env.rootOk && ValidPaths(env.resolve, Rels(plan), {})
              && ReservePlan(plan, s.reserver, env).3 && Goes(s, ReservePlan(plan, s.reserver, env).0, env)
  {
    hide ReservePlan, Prepare, Commit, ValidPaths, AppliedRels, Released, Rels;
  }

  /** The writes go through exactly if none of them fails. */
  lemma WritesWork(s: Setup, plan: Plan, effective: Plan, env: ApplyEnv)
    requires ValidPaths(env.resolve, Rels(plan), {}) && FreshTmps(s.disk, env.io) && PathsApart(env.resolve, Rels(plan), env.io)
    requires Rels(effective) == Rels(plan) && effective.patches == plan.patches
    ensures var n := Writes(s.disk, env.resolve, plan.files, plan.patches);
            Goes(s, effective, env) <==>
              AllReadable(s.disk, env.resolve, Rels(plan), env.io) && NoneFails(env.io.stageFails, 0, n) && NoneFails(env.io.renameFails, 0, n)
  {
    hide Prepare, Commit, FreshTmps, PathsApart, ValidPaths, AllReadable, NoneFails, Applicable, FileRels, PatchRels;
    SameLengths(plan, effective);
    PrepareReady(s.disk, env.resolve, effective.files, effective.patches, env.io);
    if Prepare(s.disk, env.resolve, effective.files, effective.patches, env.io).Ready? {
      var p := Prepare(s.disk, env.resolve, effective.files, effective.patches, env.io).p;
      PreparedWrites(s.disk, env.resolve, effective.files, effective.patches, env.io);
      CommitReady(p.disk, p.ops, 0, env.io);
    }
  }

  lemma PreparedWrites(base: Disk, resolve: Resolver, files: seq<GeneratedFile>, patches: seq<SourcePatch>, env: Env)
    requires FreshTmps(base, env) && ValidPaths(resolve, FileRels(files) + PatchRels(patches), {})
    requires PathsApart(resolve, FileRels(files) + PatchRels(patches), env)
    requires Prepare(base, resolve, files, patches, env).Ready?
    ensures |Prepare(base, resolve, files, patches, env).p.ops| == Writes(base, resolve, files, patches)
  {
    hide Prepare, FreshTmps, PathsApart, ValidPaths, Sorts, OpFor, PatchFor, RelsOf, WellStaged, Applicable, FileRels, PatchRels;
    PrepareSucceeds(base, resolve, files, patches, env);
    var p := Prepare(base, resolve, files, patches, env).p;
    SortsExact(base, resolve, patches, p.ops[|files|..], p.unapplied);
  }

  lemma SameLengths(plan: Plan, effective: Plan)
    requires Rels(effective) == Rels(plan) && effective.patches == plan.patches
    ensures |effective.files| == |plan.files| && FileRels(effective.files) == FileRels(plan.files)
  {
    FileRelsHold(plan.files);
    FileRelsHold(effective.files);
    var a, b, rest := FileRels(plan.files), FileRels(effective.files), PatchRels(plan.patches);
    assert |a + rest| == |b + rest|;
    assert a == (a + rest)[..|a|] && b == (b + rest)[..|a|];
  }

  /** Each file that is written has its new content - a script with mode 0755, any other generated file with
      0644, a patched file with the mode it had - and every other path is as before. */
  ghost predicate Written(base: Disk, disk: Disk, resolve: Resolver, files: seq<GeneratedFile>, patches: seq<SourcePatch>) {
    && (forall i | 0 <= i < |files| ::
          resolve(files[i].rel).Some? &&
          At(disk, resolve(files[i].rel).value) == Some(File(files[i].content, if EndsWith(files[i].rel, ".sh") then 0x1ED else 0x1A4)))
    && (forall i | 0 <= i < |patches| :: Patched(base, disk, resolve, patches[i]))
    && (forall path | (forall i | 0 <= i < |files| :: resolve(files[i].rel) != Some(path))
                      && (forall i | 0 <= i < |patches| :: resolve(patches[i].rel) != Some(path)) ::
          At(disk, path) == At(base, path))
  }

  ghost predicate Patched(base: Disk, disk: Disk, resolve: Resolver, patch: SourcePatch) {
    var path := resolve(patch.rel);
    && path.Some? && path.value in base
    && (var (next, mode) := (B.Replace(base[path.value].content, patch.block), base[path.value].mode);
        next.Some? && At(disk, path.value) == Some(File(next.value, if mode == 0 then 0x1A4 else mode)))
  }

  lemma InPlaceWrites(base: Disk, disk: Disk, resolve: Resolver, files: seq<GeneratedFile>, patches: seq<SourcePatch>, ops: seq<FileOp>)
    requires InPlace(base, disk, ops) && |ops| == |files| + |patches|
    requires forall i | 0 <= i < |ops| :: ops[i].tmp !in base
    requires forall i | 0 <= i < |files| :: OpFor(ops[i], resolve, files[i])
    requires forall i | 0 <= i < |patches| :: PatchFor(base, ops[|files|..][i], resolve, patches[i])
    ensures Written(base, disk, resolve, files, patches)
  {
    hide B.Replace, EndsWith;
    forall i | 0 <= i < |patches| ensures Patched(base, disk, resolve, patches[i]) {
      assert ops[|files|..][i] == ops[|files| + i];
    }
    forall path | (forall i | 0 <= i < |files| :: resolve(files[i].rel) != Some(path)) && (forall i | 0 <= i < |patches| :: resolve(patches[i].rel) != Some(path))
      ensures At(disk, path) == At(base, path)
    {
      forall i | 0 <= i < |ops| ensures ops[i].path != path {
        assert i >= |files| ==> ops[i] == ops[|files|..][i - |files|];
      }
    }
  }

  /** What an applied setup leaves: the reserved ports, each file of the plan in place, the patches that apply
      applied and the others named, and nothing else changed. */
  lemma AppliedExact(s: Setup, plan: Plan, env: ApplyEnv)
    requires EnvOk(s, plan, env) && Apply(s, plan, env).1.Applied?
    ensures var (t, result) := Apply(s, plan, env);
            && (exists files :: Effective(plan, s.reserver, env, result.allocations, files)
                                && Written(s.disk, t.disk, env.resolve, files, Applicable(s.disk, env.resolve, plan.patches)))
            && Reserved(s.reserver, t.reserver, result.allocations, Reserves(plan, s.reserver))
            && result.files == FileRels(plan.files)
            && result.patches == PatchRels(Applicable(s.disk, env.resolve, plan.patches))
            && result.unapplied == PatchRels(Others(s.disk, env.resolve, plan.patches))
  {
    hide ReservePlan, Prepare, Commit, FreshTmps, PathsApart, ValidPaths, Sorts, OpFor, PatchFor, AppliedRels, RelsOf, InPlace, Effective, Reserved, Applicable, Others, ReserveWorks, Written;
    var effective := ReservePlan(plan, s.reserver, env).0;
    ReserveOutcome(plan, s.reserver, env);
    ReservedRels(plan, s.reserver, env);
    SameLengths(plan, effective);
    PrepareSucceeds(s.disk, env.resolve, effective.files, effective.patches, env.io);
    var p := Prepare(s.disk, env.resolve, effective.files, effective.patches, env.io).p;
    CommitSucceeds(s.disk, p, env.io);
    ListsSplit(s.disk, env.resolve, effective, p.ops, p.unapplied);
    var patched := p.ops[|effective.files|..];
    SortsExact(s.disk, env.resolve, plan.patches, patched, p.unapplied);
    SortsOthers(s.disk, env.resolve, plan.patches, patched, p.unapplied);
    var t := Apply(s, plan, env).0;
    assert forall i | 0 <= i < |p.ops| :: p.ops[i].tmp !in s.disk;
    InPlaceWrites(s.disk, t.disk, env.resolve, effective.files, Applicable(s.disk, env.resolve, plan.patches), p.ops);
  }
}
