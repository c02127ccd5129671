/** Applying a setup plan is all or nothing. */
module SetupProofs {
  import opened Options
  import opened SetupSpec
  import B = ManagedBlock

  /** Temporary names are new: not files, not used twice. */
  ghost predicate FreshTmps(disk: Disk, env: Env) {
    && (forall i: nat :: env.tmp(i) !in disk)
    && (forall i: nat, j: nat | i != j :: env.tmp(i) != env.tmp(j))
  }

  /** None of these paths is the name of a temporary file. */
  ghost predicate PathsApart(resolve: Resolver, rels: seq<string>, env: Env) {
    forall k, i: nat | 0 <= k < |rels| :: resolve(rels[k]) != Some(env.tmp(i))
  }

  lemma FirstApart(resolve: Resolver, rels: seq<string>, env: Env)
    requires rels != [] && PathsApart(resolve, rels, env)
    ensures PathsApart(resolve, [rels[0]], env) && PathsApart(resolve, rels[1..], env)
  {
    assert rels == rels[..1] + rels[1..];
    RestApart(resolve, rels[..1], rels[1..], env);
  }

  ghost predicate SeenApart(seen: set<string>, env: Env) {
    forall i: nat :: env.tmp(i) !in seen
  }

  lemma RestApart(resolve: Resolver, first: seq<string>, more: seq<string>, env: Env)
    requires PathsApart(resolve, first + more, env)
    ensures PathsApart(resolve, more, env)
  {
    forall k, i: nat | 0 <= k < |more| ensures resolve(more[k]) != Some(env.tmp(i)) {
      assert (first + more)[|first| + k] == more[k];
    }
  }

  // ---- Staging ----

  /** What an operation remembers of its target. */
  ghost predicate Remembers(base: Disk, op: FileOp) {
    && (op.existed <==> op.path in base)
    && (op.existed ==> base[op.path] == File(op.before, op.beforeMode))
  }

  ghost predicate DistinctOps(ops: seq<FileOp>) {
    && (forall i, j | 0 <= i < j < |ops| :: ops[i].path != ops[j].path && ops[i].tmp != ops[j].tmp)
    && (forall i, j | 0 <= i < |ops| && 0 <= j < |ops| :: ops[i].path != ops[j].tmp)
  }

  /** Beside the old files there are the temporary ones, and nothing else. */
  ghost predicate WellStaged(base: Disk, disk: Disk, ops: seq<FileOp>) {
    && DistinctOps(ops)
    && (forall i | 0 <= i < |ops| :: Remembers(base, ops[i]) && ops[i].tmp !in base)
    && (forall i | 0 <= i < |ops| :: ops[i].tmp in disk && disk[ops[i].tmp] == File(ops[i].next, ops[i].mode))
    && Cleanup(disk, ops) == base
  }

  ghost predicate Numbered(ops: seq<FileOp>, env: Env, seen: set<string>) {
    && (forall i | 0 <= i < |ops| :: ops[i].tmp == env.tmp(i))
    && (forall i | 0 <= i < |ops| :: ops[i].path in seen)
  }

  lemma TmpsAppend(ops: seq<FileOp>, op: FileOp)
    ensures Tmps(ops + [op]) == Tmps(ops) + {op.tmp}
  {
    var more := ops + [op];
    assert more[|ops|] == op;
    assert forall i | 0 <= i < |ops| :: more[i] == ops[i];
  }

  lemma StageKeeps(base: Disk, p: Prepared, op: FileOp, resolve: Resolver, rel: string, env: Env, seen: set<string>)
    requires FreshTmps(base, env) && WellStaged(base, p.disk, p.ops) && Numbered(p.ops, env, seen) && SeenApart(seen, env)
    requires PathsApart(resolve, [rel], env) && resolve(rel) == Some(op.path) && op.path !in seen && op.tmp == env.tmp(|p.ops|)
    requires (op.existed <==> op.path in p.disk) && (op.existed ==> p.disk[op.path] == File(op.before, op.beforeMode))
    ensures WellStaged(base, Stage(p.disk, op), p.ops + [op])
    ensures Numbered(p.ops + [op], env, seen + {op.path}) && SeenApart(seen + {op.path}, env)
  {
    var more, d := p.ops + [op], Stage(p.disk, op);
    TmpsAppend(p.ops, op);
    TargetUntouched(base, p.disk, p.ops, resolve, rel, env);
    assert resolve([rel][0]) == Some(op.path);
    forall i | 0 <= i < |p.ops| ensures p.ops[i].path != op.tmp && op.path != p.ops[i].tmp && p.ops[i].tmp != op.tmp && p.ops[i].path != op.path {
      assert p.ops[i].path in seen;
    }
    assert op.path != op.tmp;
    assert op.tmp !in p.disk by {
      assert op.tmp in p.disk ==> op.tmp in Cleanup(p.disk, p.ops);
    }
    assert Cleanup(d, more) == base;
    StagedParts(base, p, op);
  }

  lemma StagedParts(base: Disk, p: Prepared, op: FileOp)
    requires DistinctOps(p.ops) && (forall i | 0 <= i < |p.ops| :: Remembers(base, p.ops[i]) && p.ops[i].tmp !in base)
    requires forall i | 0 <= i < |p.ops| :: p.ops[i].tmp in p.disk && p.disk[p.ops[i].tmp] == File(p.ops[i].next, p.ops[i].mode)
    requires forall i | 0 <= i < |p.ops| :: p.ops[i].path != op.tmp && op.path != p.ops[i].tmp && p.ops[i].tmp != op.tmp && p.ops[i].path != op.path
    requires op.path != op.tmp && op.tmp !in base && Remembers(base, op)
    ensures var more, d := p.ops + [op], Stage(p.disk, op);
            && DistinctOps(more)
            && (forall i | 0 <= i < |more| :: Remembers(base, more[i]) && more[i].tmp !in base)
            && (forall i | 0 <= i < |more| :: more[i].tmp in d && d[more[i].tmp] == File(more[i].next, more[i].mode))
  {
  }

  /** A target is never a temporary file, so staging has not changed it. */
  lemma TargetUntouched(base: Disk, disk: Disk, ops: seq<FileOp>, resolve: Resolver, rel: string, env: Env)
    requires PathsApart(resolve, [rel], env) && Cleanup(disk, ops) == base && resolve(rel).Some?
    requires forall i | 0 <= i < |ops| :: ops[i].tmp == env.tmp(i)
    ensures var path := resolve(rel).value;
            (path in disk <==> path in base) && (path in base ==> disk[path] == base[path])
  {
    var path := resolve([rel][0]).value;
    assert path !in Tmps(ops);
    assert path in disk ==> path in Cleanup(disk, ops);
    assert path in base ==> Cleanup(disk, ops)[path] == disk[path];
  }

  lemma {:induction false} FilesStage(base: Disk, p: Prepared, resolve: Resolver, files: seq<GeneratedFile>, more: seq<string>, env: Env, seen: set<string>)
    requires FreshTmps(base, env) && WellStaged(base, p.disk, p.ops) && Numbered(p.ops, env, seen) && SeenApart(seen, env)
    requires ValidPaths(resolve, FileRels(files) + more, seen) && PathsApart(resolve, FileRels(files) + more, env)
    ensures match PrepareFiles(p, resolve, files, env)
            case Aborted(disk) => disk == base
            case Ready(q) =>
              && WellStaged(base, q.disk, q.ops)
              && exists all :: Numbered(q.ops, env, all) && SeenApart(all, env) && ValidPaths(resolve, more, all)
    decreases |files|
  {
    hide WellStaged, Staged, Stage, Cleanup, FreshTmps;
    if files == [] {
      assert FileRels(files) + more == more;
      assert Cleanup(p.disk, p.ops) == base by { StagedCleans(base, p); }
    } else {
      var rels := FileRels(files) + more;
      assert rels[1..] == FileRels(files[1..]) + more;
      FirstApart(resolve, rels, env);
      StagedCleans(base, p);
      var q := PrepareFile(p, resolve, files[0], env);
      if q.Some? {
        var path := resolve(files[0].rel).value;
        var op := q.value.ops[|p.ops|];
        StagedShape(p.disk, files[0].rel, path, files[0].content, ModeForGenerated(files[0].rel), env.tmp(|p.ops|));
        StageKeeps(base, p, op, resolve, files[0].rel, env, seen);
        FilesStage(base, q.value, resolve, files[1..], more, env, seen + {path});
      }
    }
  }

  lemma StagedCleans(base: Disk, p: Prepared)
    requires WellStaged(base, p.disk, p.ops)
    ensures Cleanup(p.disk, p.ops) == base
  {
  }

  lemma StagedShape(disk: Disk, rel: string, path: string, content: string, mode: int, tmp: string)
    ensures var op := Staged(disk, rel, path, content, mode, tmp);
            && op.rel == rel && op.path == path && op.tmp == tmp && op.next == content
            && (op.existed <==> path in disk) && (op.existed ==> disk[path] == File(op.before, op.beforeMode))
            && (mode != 0 ==> op.mode == mode)
            && (path in disk && mode == disk[path].mode ==> op.mode == if mode == 0 then 0x1A4 else mode)
  {
  }

  lemma {:induction false} PatchesStage(base: Disk, p: Prepared, resolve: Resolver, patches: seq<SourcePatch>, env: Env, seen: set<string>)
    requires FreshTmps(base, env) && WellStaged(base, p.disk, p.ops) && Numbered(p.ops, env, seen) && SeenApart(seen, env)
    requires ValidPaths(resolve, PatchRels(patches), seen) && PathsApart(resolve, PatchRels(patches), env)
    ensures match PreparePatches(p, resolve, patches, env)
            case Aborted(disk) => disk == base
            case Ready(q) => WellStaged(base, q.disk, q.ops) && forall i | 0 <= i < |q.ops| :: q.ops[i].tmp == env.tmp(i)
    decreases |patches|
  {
    hide WellStaged, Staged, Stage, Cleanup, FreshTmps, B.Replace;
    if patches != [] {
      StagedCleans(base, p);
      var patch := patches[0];
      assert PatchRels(patches)[1..] == PatchRels(patches[1..]);
      FirstApart(resolve, PatchRels(patches), env);
      var q := PreparePatch(p, resolve, patch, env);
      if q.Some? {
        var path := resolve(patch.rel).value;
        if q.value.ops != p.ops {
          var next := B.Replace(p.disk[path].content, patch.block);
          StagedShape(p.disk, patch.rel, path, next.value, p.disk[path].mode, env.tmp(|p.ops|));
          StageKeeps(base, p, q.value.ops[|p.ops|], resolve, patch.rel, env, seen);
        }
        PatchesStage(base, q.value, resolve, patches[1..], env, seen + {path});
      }
    }
  }

  /** Preparing either leaves the disk as it was, or adds the temporary files and nothing else. */
  lemma PrepareStages(base: Disk, resolve: Resolver, files: seq<GeneratedFile>, patches: seq<SourcePatch>, env: Env)
    requires FreshTmps(base, env) && ValidPaths(resolve, FileRels(files) + PatchRels(patches), {})
    requires PathsApart(resolve, FileRels(files) + PatchRels(patches), env)
    ensures match Prepare(base, resolve, files, patches, env)
            case Aborted(disk) => disk == base
            case Ready(p) => WellStaged(base, p.disk, p.ops)
  {
    hide PrepareFiles, PreparePatches, FreshTmps, ValidPaths;
    var start := Prepared(base, [], []);
    assert Cleanup(base, []) == base;
    FilesStage(base, start, resolve, files, PatchRels(patches), env, {});
    var first := PrepareFiles(start, resolve, files, env);
    if first.Ready? {
      var all :| Numbered(first.p.ops, env, all) && SeenApart(all, env) && ValidPaths(resolve, PatchRels(patches), all);
      RestApart(resolve, FileRels(files), PatchRels(patches), env);
      PatchesStage(base, first.p, resolve, patches, env, all);
    }
  }

  // ---- Committing ----

  ghost predicate IsTmp(ops: seq<FileOp>, path: string) {
    exists j :: 0 <= j < |ops| && ops[j].tmp == path
  }

  ghost predicate IsTarget(ops: seq<FileOp>, n: nat, path: string)
    requires n <= |ops|
  {
    exists j :: 0 <= j < n && ops[j].path == path
  }

  function At(disk: Disk, path: string): Option<File> {
    if path in disk then Some(disk[path]) else None
  }

  /** What is at the target of an operation that was undone. */
  function Undone(op: FileOp): Option<File> {
    if op.existed then Some(File(op.before, op.mode)) else None
  }

  /** The first `k` targets hold the new files, those from `k` to `n` what an undo leaves; temporary files
      from `n` on wait; everything else is as before. */
  ghost predicate PartWay(base: Disk, disk: Disk, ops: seq<FileOp>, k: nat, n: nat)
    requires k <= n <= |ops|
  {
    && (forall j | 0 <= j < k :: At(disk, ops[j].path) == Some(File(ops[j].next, ops[j].mode)))
    && (forall j | k <= j < n :: At(disk, ops[j].path) == Undone(ops[j]))
    && (forall j | n <= j < |ops| :: At(disk, ops[j].tmp) == Some(File(ops[j].next, ops[j].mode)))
    && (forall j | 0 <= j < n :: ops[j].tmp !in disk)
    && (forall q | !IsTmp(ops, q) && !IsTarget(ops, n, q) :: At(disk, q) == At(base, q))
  }

  lemma StartsPartWay(base: Disk, disk: Disk, ops: seq<FileOp>)
    requires WellStaged(base, disk, ops)
    ensures PartWay(base, disk, ops, 0, 0)
  {
    forall q | !IsTmp(ops, q) ensures At(disk, q) == At(base, q) {
      assert q !in Tmps(ops);
      assert At(Cleanup(disk, ops), q) == At(disk, q);
    }
  }

  lemma RenameAt(disk: Disk, from: string, to: string, q: string)
    requires from in disk && from != to
    ensures At(Rename(disk, from, to), q) == if q == to then At(disk, from) else if q == from then None else At(disk, q)
  {
  }

  lemma RenameStep(base: Disk, disk: Disk, ops: seq<FileOp>, k: nat)
    requires DistinctOps(ops) && k < |ops| && PartWay(base, disk, ops, k, k)
    ensures PartWay(base, Rename(disk, ops[k].tmp, ops[k].path), ops, k + 1, k + 1)
  {
    hide Rename;
    var d := Rename(disk, ops[k].tmp, ops[k].path);
    assert At(disk, ops[k].tmp) == Some(File(ops[k].next, ops[k].mode));
    forall q ensures At(d, q) == if q == ops[k].path then At(disk, ops[k].tmp) else if q == ops[k].tmp then None else At(disk, q) {
      RenameAt(disk, ops[k].tmp, ops[k].path, q);
    }
    forall j | 0 <= j < k ensures At(d, ops[j].path) == Some(File(ops[j].next, ops[j].mode)) {
      assert At(disk, ops[j].path) == Some(File(ops[j].next, ops[j].mode));
    }
    forall j | k + 1 <= j < |ops| ensures At(d, ops[j].tmp) == Some(File(ops[j].next, ops[j].mode)) {
      assert At(disk, ops[j].tmp) == Some(File(ops[j].next, ops[j].mode));
    }
    forall j | 0 <= j < k + 1 ensures ops[j].tmp !in d {
      assert At(d, ops[j].tmp) == None;
    }
    forall q | !IsTmp(ops, q) && !IsTarget(ops, k + 1, q) ensures At(d, q) == At(base, q) {
      assert q != ops[k].path && q != ops[k].tmp;
      assert !IsTarget(ops, k, q);
    }
  }

  lemma UndoStep(base: Disk, disk: Disk, ops: seq<FileOp>, k: nat, n: nat)
    requires DistinctOps(ops) && 0 < k <= n <= |ops| && PartWay(base, disk, ops, k, n)
    ensures PartWay(base, Undo(disk, ops[k - 1]), ops, k - 1, n)
  {
    var op := ops[k - 1];
    var d := Undo(disk, op);
    assert At(disk, op.path) == Some(File(op.next, op.mode));
    forall q ensures At(d, q) == if q == op.path then Undone(op) else At(disk, q) {
    }
    forall q | !IsTmp(ops, q) && !IsTarget(ops, n, q) ensures At(d, q) == At(base, q) {
      assert q != op.path;
    }
  }

  lemma {:induction false} RollbackPartWay(base: Disk, disk: Disk, ops: seq<FileOp>, k: nat, n: nat)
    requires DistinctOps(ops) && k <= n <= |ops| && PartWay(base, disk, ops, k, n)
    ensures PartWay(base, Rollback(disk, ops[..k]), ops, 0, n)
    decreases k
  {
    if k > 0 {
      hide PartWay, DistinctOps, Undo;
      UndoStep(base, disk, ops, k, n);
      assert ops[..k][..k - 1] == ops[..k - 1];
      RollbackPartWay(base, Undo(disk, ops[k - 1]), ops, k - 1, n);
    }
  }

  /** A commit either puts every new file in place, or - after `n` renames - fails and undoes those. */
  lemma {:induction false} CommitEnds(base: Disk, disk: Disk, ops: seq<FileOp>, i: nat, env: Env)
    requires DistinctOps(ops) && i <= |ops| && PartWay(base, disk, ops, i, i)
    ensures var (d, ok) := Commit(disk, ops, i, env);
            && (ok ==> PartWay(base, d, ops, |ops|, |ops|))
            && (!ok ==> exists r, n: nat :: n <= |ops| && PartWay(base, r, ops, 0, n) && d == Cleanup(r, ops))
    decreases |ops| - i
  {
    hide PartWay, DistinctOps, Cleanup, Rename, Rollback;
    if i < |ops| {
      if env.renameFails(i) {
        RollbackPartWay(base, disk, ops, i, i);
        assert PartWay(base, Rollback(disk, ops[..i]), ops, 0, i);
      } else {
        RenameStep(base, disk, ops, i);
        CommitEnds(base, Rename(disk, ops[i].tmp, ops[i].path), ops, i + 1, env);
      }
    }
  }

  /** The same files with the same content. */
  ghost predicate SameContents(a: Disk, b: Disk) {
    a.Keys == b.Keys && forall q | q in a :: a[q].content == b[q].content
  }

  ghost predicate ModesAlike(ops: seq<FileOp>, n: nat)
    requires n <= |ops|
  {
    forall j | 0 <= j < n && ops[j].existed :: ops[j].mode == ops[j].beforeMode
  }

  /** What a failed commit leaves: all contents as they were and no temporary file; the mode of a file it
      had replaced is that of the replacement. */
  lemma FailedCommitRestores(base: Disk, r: Disk, ops: seq<FileOp>, n: nat)
    requires n <= |ops| && PartWay(base, r, ops, 0, n) && DistinctOps(ops)
    requires forall i | 0 <= i < |ops| :: Remembers(base, ops[i]) && ops[i].tmp !in base
    ensures var d := Cleanup(r, ops);
            && SameContents(base, d)
            && (d == base <==> ModesAlike(ops, n))
  {
    var d := Cleanup(r, ops);
    forall q ensures At(d, q) == if IsTmp(ops, q) then None else At(r, q) {
      assert q in Tmps(ops) <==> IsTmp(ops, q);
    }
    forall q ensures (q in base <==> q in d) && (q in base ==> d[q].content == base[q].content) {
      RestoredAt(base, r, ops, n, q);
    }
    if ModesAlike(ops, n) {
      forall q | q in base ensures d[q] == base[q] {
        RestoredAt(base, r, ops, n, q);
      }
    } else {
      var j :| 0 <= j < n && ops[j].existed && ops[j].mode != ops[j].beforeMode;
      assert At(r, ops[j].path) == Undone(ops[j]);
      assert !IsTmp(ops, ops[j].path);
    }
  }

  lemma RestoredAt(base: Disk, r: Disk, ops: seq<FileOp>, n: nat, q: string)
    requires n <= |ops| && PartWay(base, r, ops, 0, n) && DistinctOps(ops)
    requires forall i | 0 <= i < |ops| :: Remembers(base, ops[i]) && ops[i].tmp !in base
    ensures IsTmp(ops, q) ==> q !in base
    ensures !IsTmp(ops, q) ==>
              (q in base <==> q in r) && (q in base ==> r[q].content == base[q].content)
    ensures !IsTmp(ops, q) && q in base ==>
              r[q] == base[q] || exists j :: 0 <= j < n && ops[j].path == q && ops[j].existed && ops[j].mode != ops[j].beforeMode
  {
    if !IsTmp(ops, q) {
      if IsTarget(ops, n, q) {
        var j :| 0 <= j < n && ops[j].path == q;
        assert At(r, ops[j].path) == Undone(ops[j]);
        assert Remembers(base, ops[j]);
      } else {
        assert At(r, q) == At(base, q);
      }
    }
  }

  // ---- Reservations ----

  function ToSet(names: seq<string>): set<string> {
    set i | 0 <= i < |names| :: names[i]
  }

  /** The reserver gained ports under `added`, and kept those it had. */
  ghost predicate Gained(r: Reserver, q: Reserver, added: set<string>) {
    && q.knowsPorts == r.knowsPorts && q.canRemove == r.canRemove
    && added !! r.ports.Keys && q.ports.Keys == r.ports.Keys + added
    && forall n | n in r.ports :: q.ports[n] == r.ports[n]
  }

  lemma ToSetAppend(names: seq<string>, name: string)
    ensures ToSet(names + [name]) == ToSet(names) + {name}
  {
    var more := names + [name];
    assert more[|names|] == name;
    assert forall i | 0 <= i < |names| :: more[i] == names[i];
  }

  /** The names to be released later are exactly the ones that are new, if the reserver can say so; otherwise
      they are all that were reserved. */
  lemma {:induction false} ReserveAllExact(r0: Reserver, r: Reserver, names: seq<string>, planned: map<string, int>, answers: string -> Option<int>, done: seq<string>, added: set<string>)
    requires forall i | 0 <= i < |names| :: names[i] in planned
    requires forall i, j | 0 <= i < j < |names| :: names[i] != names[j]
    requires forall i | 0 <= i < |names| :: names[i] !in added && names[i] !in done
    requires Gained(r0, r, added) && added <= ToSet(done) && (r0.knowsPorts ==> ToSet(done) == added)
    ensures var q := ReserveAll(r, names, planned, answers, done);
            exists more :: Gained(r0, q.r, more) && more <= ToSet(q.names) && (r0.knowsPorts ==> ToSet(q.names) == more)
    decreases |names|
  {
    if names == [] {
      assert ReserveAll(r, names, planned, answers, done) == Reserved(r, done, planned, true);
      assert Gained(r0, r, added);
    } else {
      var name := names[0];
      var (q, port) := Reserve(r, name, answers(name));
      if port.None? {
        assert ReserveAll(r, names, planned, answers, done) == Reserved(r, done, planned, false);
        assert Gained(r0, r, added);
      } else {
        var more := if Exists(r, name) then done else done + [name];
        var now := if name in r.ports then added else added + {name};
        ToSetAppend(done, name);
        assert Gained(r0, q, now);
        if planned[name] != 0 && port.value != planned[name] {
          assert ReserveAll(r, names, planned, answers, done) == Reserved(q, more, planned, false);
        } else {
          ReserveAllExact(r0, q, names[1..], planned[name := port.value], answers, more, now);
          assert ReserveAll(r, names, planned, answers, done) == ReserveAll(q, names[1..], planned[name := port.value], answers, more);
        }
      }
    }
  }

  lemma {:induction false} ReleaseExact(r: Reserver, names: seq<string>)
    requires r.canRemove
    ensures Release(r, names) == r.(ports := r.ports - ToSet(names))
    decreases |names|
  {
    if names == [] {
      assert r.ports - ToSet(names) == r.ports;
    } else {
      var n := |names| - 1;
      ReleaseExact(r.(ports := r.ports - {names[n]}), names[..n]);
      ToSetAppend(names[..n], names[n]);
      assert names[..n] + [names[n]] == names;
      assert r.ports - {names[n]} - ToSet(names[..n]) == r.ports - ToSet(names);
    }
  }

  /** Reserving and then releasing: nothing has changed, if the reserver knows its services and can remove
      them; if it does not know them, services it had before are lost. */
  lemma ReleaseUndoes(r: Reserver, names: seq<string>, planned: map<string, int>, answers: string -> Option<int>)
    requires forall i | 0 <= i < |names| :: names[i] in planned
    requires forall i, j | 0 <= i < j < |names| :: names[i] != names[j]
    requires r.canRemove
    ensures var q := ReserveAll(r, names, planned, answers, []);
            && (r.knowsPorts ==> Release(q.r, q.names) == r)
            && Release(q.r, q.names) == r.(ports := r.ports - ToSet(q.names))
  {
    assert r.ports.Keys == r.ports.Keys + {};
    ReserveAllExact(r, r, names, planned, answers, [], {});
    var q := ReserveAll(r, names, planned, answers, []);
    var more :| Gained(r, q.r, more) && more <= ToSet(q.names) && (r.knowsPorts ==> ToSet(q.names) == more);
    ReleaseExact(q.r, q.names);
    assert q.r.ports - ToSet(q.names) == r.ports - ToSet(q.names);
    if r.knowsPorts {
      assert r.ports - ToSet(q.names) == r.ports;
    }
  }

  // ---- The whole ----

  /** The environment of a run: new temporary names, and the allocations in some order. */
  ghost predicate EnvOk(s: Setup, plan: Plan, env: ApplyEnv) {
    && FreshTmps(s.disk, env.io) && PathsApart(env.resolve, Rels(plan), env.io)
    && (forall i, j | 0 <= i < j < |env.names| :: env.names[i] != env.names[j])
    && (forall n :: n in plan.allocations <==> n in env.names)
  }

  lemma {:induction false} FillKeepsRels(files: seq<GeneratedFile>, fill: (string, int) -> string, port: int)
    ensures FileRels(FillPort(files, fill, port)) == FileRels(files)
  {
    if files != [] && files[0].rel != CONFIG {
      FillKeepsRels(files[1..], fill, port);
    }
  }

  lemma ReservedRels(plan: Plan, reserver: Option<Reserver>, env: ApplyEnv)
    requires forall i | 0 <= i < |env.names| :: env.names[i] in plan.allocations
    ensures Rels(ReservePlan(plan, reserver, env).0) == Rels(plan)
  {
    if plan.single && plan.allocations == map[] && reserver.Some? && plan.serviceName != "" {
      var done := ReserveAll(reserver.value, [plan.serviceName], map[plan.serviceName := 0], env.answers, []);
      if done.ok {
        FillKeepsRels(plan.files, env.fill, done.allocations[plan.serviceName]);
      }
    }
  }

  lemma ReservationsRestored(plan: Plan, reserver: Option<Reserver>, env: ApplyEnv)
    requires forall i | 0 <= i < |env.names| :: env.names[i] in plan.allocations
    requires forall i, j | 0 <= i < j < |env.names| :: env.names[i] != env.names[j]
    requires reserver.Some? ==> reserver.value.knowsPorts && reserver.value.canRemove
    ensures var (_, after, names, _) := ReservePlan(plan, reserver, env);
            Released(after, names) == reserver
  {
    if reserver.Some? {
      if plan.single {
        ReleaseUndoes(reserver.value, [plan.serviceName], map[plan.serviceName := 0], env.answers);
      } else {
        ReleaseUndoes(reserver.value, env.names, plan.allocations, env.answers);
      }
      ReleaseExact(reserver.value, []);
      assert reserver.value.ports - ToSet([]) == reserver.value.ports;
    }
  }

  /** All or nothing: whatever fails - a reservation, a file that cannot be staged, a rename - every file has
      its old content or is absent as before, no temporary file remains, and exactly the reservations this
      call made are gone. */
  lemma ApplyIsAtomic(s: Setup, plan: Plan, env: ApplyEnv)
    requires EnvOk(s, plan, env) && Apply(s, plan, env).1.Refused?
    ensures var t := Apply(s, plan, env).0;
            && SameContents(s.disk, t.disk)
            && ((s.reserver.Some? ==> s.reserver.value.knowsPorts && s.reserver.value.canRemove) ==> t.reserver == s.reserver)
  {
    hide ReservePlan, Prepare, Commit, Released, FreshTmps, WellStaged, ValidPaths, PartWay;
    var (effective, reserver, names, ok) := ReservePlan(plan, s.reserver, env);
    ReservedRels(plan, s.reserver, env);
    if s.reserver.Some? ==> s.reserver.value.knowsPorts && s.reserver.value.canRemove {
      ReservationsRestored(plan, s.reserver, env);
    }
    if ok && ValidPaths(env.resolve, Rels(plan), {}) && env.rootOk && !(plan.single && plan.hasConfig) {
      PrepareStages(s.disk, env.resolve, effective.files, effective.patches, env.io);
      match Prepare(s.disk, env.resolve, effective.files, effective.patches, env.io)
      case Aborted(_) =>
      case Ready(p) => FailedCommit(s.disk, p, env.io);
    }
  }

  lemma FailedCommit(base: Disk, p: Prepared, env: Env)
    requires WellStaged(base, p.disk, p.ops) && !Commit(p.disk, p.ops, 0, env).1
    ensures SameContents(base, Commit(p.disk, p.ops, 0, env).0)
  {
    hide Commit, PartWay, Cleanup, DistinctOps, Remembers;
    StartsPartWay(base, p.disk, p.ops);
    CommitEnds(base, p.disk, p.ops, 0, env);
    var r, n: nat :| n <= |p.ops| && PartWay(base, r, p.ops, 0, n) && Commit(p.disk, p.ops, 0, env).0 == Cleanup(r, p.ops);
    FailedCommitRestores(base, r, p.ops, n);
  }

  /** Exactly when a failed commit also leaves every file mode as it was: if no file that had been replaced
      had another mode than its replacement. A patch never has, a generated file may. */
  lemma FailedCommitModes(base: Disk, p: Prepared, env: Env)
    requires WellStaged(base, p.disk, p.ops) && !Commit(p.disk, p.ops, 0, env).1
    ensures exists n: nat :: n < |p.ops| && env.renameFails(n) && (forall i: nat | i < n :: !env.renameFails(i))
                             && (Commit(p.disk, p.ops, 0, env).0 == base <==> ModesAlike(p.ops, n))
  {
    hide Commit, PartWay, Cleanup, DistinctOps, Remembers;
    StartsPartWay(base, p.disk, p.ops);
    FailsAt(base, p.disk, p.ops, 0, env);
    var n: nat, r :| n < |p.ops| && env.renameFails(n) && (forall i: nat | i < n :: !env.renameFails(i))
                     && PartWay(base, r, p.ops, 0, n) && Commit(p.disk, p.ops, 0, env).0 == Cleanup(r, p.ops);
    FailedCommitRestores(base, r, p.ops, n);
  }

  lemma {:induction false} FailsAt(base: Disk, disk: Disk, ops: seq<FileOp>, i: nat, env: Env)
    requires DistinctOps(ops) && i <= |ops| && PartWay(base, disk, ops, i, i) && !Commit(disk, ops, i, env).1
    requires forall j: nat | j < i :: !env.renameFails(j)
    ensures exists n: nat, r :: && n < |ops| && env.renameFails(n) && (forall j: nat | j < n :: !env.renameFails(j))
                                && PartWay(base, r, ops, 0, n) && Commit(disk, ops, i, env).0 == Cleanup(r, ops)
    decreases |ops| - i
  {
    hide PartWay, DistinctOps, Cleanup, Rename, Rollback;
    if env.renameFails(i) {
      RollbackPartWay(base, disk, ops, i, i);
      assert PartWay(base, Rollback(disk, ops[..i]), ops, 0, i);
    } else {
      RenameStep(base, disk, ops, i);
      FailsAt(base, Rename(disk, ops[i].tmp, ops[i].path), ops, i + 1, env);
    }
  }

  // ---- Success ----

  /** Each target holds its new file, no temporary file is left, and no other file has changed. */
  ghost predicate InPlace(base: Disk, disk: Disk, ops: seq<FileOp>) {
    && (forall j | 0 <= j < |ops| :: At(disk, ops[j].path) == Some(File(ops[j].next, ops[j].mode)))
    && (forall j | 0 <= j < |ops| :: ops[j].tmp !in disk)
    && (forall q | !IsTmp(ops, q) && !IsTarget(ops, |ops|, q) :: At(disk, q) == At(base, q))
  }

  predicate EndsWith(s: string, suffix: string) {
    |suffix| <= |s| && s[|s| - |suffix|..] == suffix
  }

  /** What the operations are, file by file and patch by patch; scripts get mode 0755, other generated files
      0644, and a patched file keeps its mode. */
  ghost predicate OpFor(op: FileOp, resolve: Resolver, file: GeneratedFile) {
    && op.rel == file.rel && resolve(file.rel) == Some(op.path) && op.next == file.content
    && op.mode == if EndsWith(file.rel, ".sh") then 0x1ED else 0x1A4
  }

  ghost predicate PatchFor(base: Disk, op: FileOp, resolve: Resolver, patch: SourcePatch) {
    && op.rel == patch.rel && resolve(patch.rel) == Some(op.path) && op.path in base
    && B.Replace(base[op.path].content, patch.block) == Some(op.next)
    && op.mode == if base[op.path].mode == 0 then 0x1A4 else base[op.path].mode
  }

  lemma {:induction false} FilesPlanned(p: Prepared, resolve: Resolver, files: seq<GeneratedFile>, env: Env)
    requires PrepareFiles(p, resolve, files, env).Ready?
    ensures var q := PrepareFiles(p, resolve, files, env).p;
            && |q.ops| == |p.ops| + |files| && q.ops[..|p.ops|] == p.ops && q.unapplied == p.unapplied
            && forall i | 0 <= i < |files| :: OpFor(q.ops[|p.ops| + i], resolve, files[i])
    decreases |files|
  {
    if files != [] {
      hide Staged, Stage;
      var q := PrepareFile(p, resolve, files[0], env).value;
      var path := resolve(files[0].rel).value;
      StagedShape(p.disk, files[0].rel, path, files[0].content, ModeForGenerated(files[0].rel), env.tmp(|p.ops|));
      FilesPlanned(q, resolve, files[1..], env);
      var all := PrepareFiles(q, resolve, files[1..], env).p.ops;
      assert all[..|p.ops|] == all[..|q.ops|][..|p.ops|];
      assert all[|p.ops|] == all[..|q.ops|][|p.ops|];
      forall i | 0 <= i < |files| ensures OpFor(all[|p.ops| + i], resolve, files[i]) {
        if i > 0 {
          assert OpFor(all[|q.ops| + (i - 1)], resolve, files[1..][i - 1]);
        }
      }
    }
  }

  /** Of the patches, the ones with an operation are applied, the others are listed as unapplied, each in
      the order of the plan; which ones is decided by the target's own content. */
  lemma {:induction false} PatchesPlanned(base: Disk, p: Prepared, resolve: Resolver, patches: seq<SourcePatch>, env: Env, seen: set<string>)
    requires FreshTmps(base, env) && WellStaged(base, p.disk, p.ops) && Numbered(p.ops, env, seen) && SeenApart(seen, env)
    requires PathsApart(resolve, PatchRels(patches), env)
    requires ValidPaths(resolve, PatchRels(patches), seen) && PreparePatches(p, resolve, patches, env).Ready?
    ensures var q := PreparePatches(p, resolve, patches, env).p;
            && |q.ops| >= |p.ops| && q.ops[..|p.ops|] == p.ops
            && |q.unapplied| >= |p.unapplied| && q.unapplied[..|p.unapplied|] == p.unapplied
            && Sorts(base, resolve, patches, q.ops[|p.ops|..], q.unapplied[|p.unapplied|..])
    decreases |patches|
  {
    hide WellStaged, Staged, Stage, Cleanup, FreshTmps, B.Replace;
    if patches != [] {
      StagedCleans(base, p);
      var patch := patches[0];
      assert PatchRels(patches)[1..] == PatchRels(patches[1..]);
      FirstApart(resolve, PatchRels(patches), env);
      var q := PreparePatch(p, resolve, patch, env).value;
      var path := resolve(patch.rel).value;
      TargetUntouched(base, p.disk, p.ops, resolve, patch.rel, env);
      if q.ops != p.ops {
        var next := B.Replace(p.disk[path].content, patch.block);
        StagedShape(p.disk, patch.rel, path, next.value, p.disk[path].mode, env.tmp(|p.ops|));
        StageKeeps(base, p, q.ops[|p.ops|], resolve, patch.rel, env, seen);
      }
      PatchesPlanned(base, q, resolve, patches[1..], env, seen + {path});
      var r := PreparePatches(q, resolve, patches[1..], env).p;
      assert r.ops[..|p.ops|] == r.ops[..|q.ops|][..|p.ops|];
      assert r.unapplied[..|p.unapplied|] == r.unapplied[..|q.unapplied|][..|p.unapplied|];
      if q.ops != p.ops {
        assert r.ops[|p.ops|] == r.ops[..|q.ops|][|p.ops|];
        assert r.ops[|p.ops|..][1..] == r.ops[|q.ops|..];
      } else {
        assert r.unapplied[|p.unapplied|] == r.unapplied[..|q.unapplied|][|p.unapplied|];
        assert r.unapplied[|p.unapplied|..][1..] == r.unapplied[|q.unapplied|..];
      }
    }
  }

  /** `ops` and `unapplied` split the patches: an operation for each whose target exists and has a managed
      block, the rest by name. */
  ghost predicate Sorts(base: Disk, resolve: Resolver, patches: seq<SourcePatch>, ops: seq<FileOp>, unapplied: seq<string>)
    decreases |patches|
  {
    if patches == [] then ops == [] && unapplied == []
    else
      var path := resolve(patches[0].rel);
      if path.Some? && path.value in base && B.Replace(base[path.value].content, patches[0].block).Some? then
        ops != [] && PatchFor(base, ops[0], resolve, patches[0]) && Sorts(base, resolve, patches[1..], ops[1..], unapplied)
      else
        unapplied != [] && unapplied[0] == patches[0].rel && Sorts(base, resolve, patches[1..], ops, unapplied[1..])
  }

  function RelsOf(ops: seq<FileOp>): seq<string> {
    seq(|ops|, i requires 0 <= i < |ops| => ops[i].rel)
  }

  lemma RelsAppend(ops: seq<FileOp>, op: FileOp)
    ensures RelsOf(ops + [op]) == RelsOf(ops) + [op.rel]
  {
  }

  /** No path is both a generated file's and a patch's. */
  lemma {:induction false} RelsApart(resolve: Resolver, a: seq<string>, b: seq<string>, seen: set<string>)
    requires ValidPaths(resolve, a + b, seen)
    ensures forall x, y | x in a && y in b :: x != y
    ensures forall y | y in b :: resolve(y).Some? && resolve(y).value !in seen
    decreases |a| + |b|
  {
    if a != [] {
      assert (a + b)[1..] == a[1..] + b;
      RelsApart(resolve, a[1..], b, seen + {resolve(a[0]).value});
      forall x, y | x in a && y in b ensures x != y {
        if x == a[0] {
          assert resolve(y).value !in seen + {resolve(a[0]).value};
        } else {
          assert x in a[1..];
        }
      }
    } else if b != [] {
      assert a + b == b;
      assert (a + b)[1..] == a + b[1..];
      RelsApart(resolve, a, b[1..], seen + {resolve(b[0]).value});
    }
  }

  /** The two lists of the result split the operations. */
  lemma {:induction false} AppliedExactly(plan: Plan, ops: seq<FileOp>, n: nat)
    requires n <= |ops|
    requires forall i | 0 <= i < |ops| :: IsPatch(plan, ops[i].rel) <==> i >= n
    ensures AppliedRels(plan, ops, false) == RelsOf(ops[..n])
    ensures AppliedRels(plan, ops, true) == RelsOf(ops[n..])
    decreases |ops|
  {
    if ops != [] {
      hide IsPatch, RelsOf;
      var m := |ops| - 1;
      RelsAppend([], ops[m]);
      if n == |ops| {
        AppliedExactly(plan, ops[..m], m);
        RelsAppend(ops[..m], ops[m]);
        assert ops[..n] == ops[..m] + [ops[m]] && ops[..m][..m] == ops[..m];
        assert ops[..m][m..] == [] == ops[n..];
      } else {
        AppliedExactly(plan, ops[..m], n);
        RelsAppend(ops[n..m], ops[m]);
        assert ops[..m][..n] == ops[..n] && ops[..m][n..] == ops[n..m];
        assert ops[n..] == ops[n..m] + [ops[m]];
      }
    }
  }

  lemma {:induction false} PatchRelsHold(patches: seq<SourcePatch>)
    ensures forall i | 0 <= i < |patches| :: patches[i].rel in PatchRels(patches)
  {
    if patches != [] {
      PatchRelsHold(patches[1..]);
      forall i | 0 <= i < |patches| ensures patches[i].rel in PatchRels(patches) {
        if i > 0 {
          assert patches[i] == patches[1..][i - 1];
        }
      }
    }
  }

  lemma {:induction false} FileRelsHold(files: seq<GeneratedFile>)
    ensures |FileRels(files)| == |files| && forall i | 0 <= i < |files| :: FileRels(files)[i] == files[i].rel
  {
    if files != [] {
      FileRelsHold(files[1..]);
    }
  }

  lemma {:induction false} SortedAre(base: Disk, resolve: Resolver, patches: seq<SourcePatch>, ops: seq<FileOp>, unapplied: seq<string>)
    requires Sorts(base, resolve, patches, ops, unapplied)
    ensures forall i | 0 <= i < |ops| :: exists k :: 0 <= k < |patches| && patches[k].rel == ops[i].rel
    ensures |ops| + |unapplied| == |patches|
    decreases |patches|
  {
    if patches != [] {
      if ops != [] && Sorts(base, resolve, patches[1..], ops[1..], unapplied) && PatchFor(base, ops[0], resolve, patches[0]) {
        SortedAre(base, resolve, patches[1..], ops[1..], unapplied);
        forall i | 0 <= i < |ops| ensures exists k :: 0 <= k < |patches| && patches[k].rel == ops[i].rel {
          if i > 0 {
            assert ops[i] == ops[1..][i - 1];
            var k :| 0 <= k < |patches[1..]| && patches[1..][k].rel == ops[1..][i - 1].rel;
            assert patches[k + 1].rel == ops[i].rel;
          } else {
            assert patches[0].rel == ops[0].rel;
          }
        }
      } else {
        SortedAre(base, resolve, patches[1..], ops, unapplied[1..]);
        forall i | 0 <= i < |ops| ensures exists k :: 0 <= k < |patches| && patches[k].rel == ops[i].rel {
          var k :| 0 <= k < |patches[1..]| && patches[1..][k].rel == ops[i].rel;
          assert patches[k + 1].rel == ops[i].rel;
        }
      }
    }
  }

  /** The lists of the result: all generated files; the patches with an operation; and the others - each
      path of the plan in one of the three, in order. */
  lemma ListsSplit(base: Disk, resolve: Resolver, plan: Plan, ops: seq<FileOp>, unapplied: seq<string>)
    requires ValidPaths(resolve, Rels(plan), {}) && |ops| >= |plan.files|
    requires forall i | 0 <= i < |plan.files| :: OpFor(ops[i], resolve, plan.files[i])
    requires Sorts(base, resolve, plan.patches, ops[|plan.files|..], unapplied)
    ensures AppliedRels(plan, ops, false) == FileRels(plan.files)
    ensures AppliedRels(plan, ops, true) == RelsOf(ops[|plan.files|..])
    ensures |ops[|plan.files|..]| + |unapplied| == |plan.patches|
  {
    hide ValidPaths, Sorts;
    var n := |plan.files|;
    RelsApart(resolve, FileRels(plan.files), PatchRels(plan.patches), {});
    FileRelsHold(plan.files);
    PatchRelsHold(plan.patches);
    SortedAre(base, resolve, plan.patches, ops[n..], unapplied);
    forall i | 0 <= i < |ops| ensures IsPatch(plan, ops[i].rel) <==> i >= n {
      if i < n {
        assert OpFor(ops[i], resolve, plan.files[i]);
        assert FileRels(plan.files)[i] in FileRels(plan.files);
      } else {
        assert ops[i] == ops[n..][i - n];
      }
    }
    AppliedExactly(plan, ops, n);
  }

  lemma NothingSeen(env: Env)
    ensures SeenApart({}, env)
  {
  }

  /** The operations a successful preparation leaves: numbered temporary files, one operation for each
      generated file, and the patches sorted. */
  lemma PrepareSucceeds(base: Disk, resolve: Resolver, files: seq<GeneratedFile>, patches: seq<SourcePatch>, env: Env)
    requires FreshTmps(base, env) && ValidPaths(resolve, FileRels(files) + PatchRels(patches), {})
    requires PathsApart(resolve, FileRels(files) + PatchRels(patches), env)
    requires Prepare(base, resolve, files, patches, env).Ready?
    ensures var p := Prepare(base, resolve, files, patches, env).p;
            && WellStaged(base, p.disk, p.ops) && (forall j | 0 <= j < |p.ops| :: p.ops[j].tmp == env.tmp(j))
            && |p.ops| >= |files|
            && (forall i | 0 <= i < |files| :: OpFor(p.ops[i], resolve, files[i]))
            && Sorts(base, resolve, patches, p.ops[|files|..], p.unapplied)
  {
    hide FreshTmps, ValidPaths, PrepareFiles, PreparePatches, Sorts, OpFor, PathsApart, SeenApart;
    var start := Prepared(base, [], []);
    assert Cleanup(base, []) == base;
    NothingSeen(env);
    FilesStage(base, start, resolve, files, PatchRels(patches), env, {});
    FilesPlanned(start, resolve, files, env);
    var first := PrepareFiles(start, resolve, files, env).p;
    var all :| Numbered(first.ops, env, all) && SeenApart(all, env) && ValidPaths(resolve, PatchRels(patches), all);
    RestApart(resolve, FileRels(files), PatchRels(patches), env);
    PatchesStage(base, first, resolve, patches, env, all);
    PatchesPlanned(base, first, resolve, patches, env, all);
    var p := PreparePatches(first, resolve, patches, env).p;
    forall i | 0 <= i < |files| ensures OpFor(p.ops[i], resolve, files[i]) {
      assert p.ops[i] == p.ops[..|first.ops|][i] == first.ops[0 + i];
    }
  }

  lemma CommitSucceeds(base: Disk, p: Prepared, env: Env)
    requires WellStaged(base, p.disk, p.ops) && Commit(p.disk, p.ops, 0, env).1
    ensures InPlace(base, Commit(p.disk, p.ops, 0, env).0, p.ops)
  {
    hide Commit, PartWay, Cleanup, Remembers, InPlace;
    StartsPartWay(base, p.disk, p.ops);
    CommitEnds(base, p.disk, p.ops, 0, env);
    InPlaceAtLast(base, Commit(p.disk, p.ops, 0, env).0, p.ops);
  }

  /** The temporary files of a run: as the environment names them, and none of them a file from before. */
  ghost predicate TmpsOf(ops: seq<FileOp>, env: Env, base: Disk) {
    forall j | 0 <= j < |ops| :: ops[j].tmp == env.tmp(j) && ops[j].tmp !in base
  }

  /** A setup that goes through: every generated file is in place with its content and mode, every patch
      whose target has a managed block is applied and the others are reported, and nothing else changed. */
  lemma ApplySucceeds(s: Setup, plan: Plan, env: ApplyEnv)
    requires EnvOk(s, plan, env) && Apply(s, plan, env).1.Applied?
    ensures var t := Apply(s, plan, env).0;
            var effective := ReservePlan(plan, s.reserver, env).0;
            exists ops :: && InPlace(s.disk, t.disk, ops) && TmpsOf(ops, env.io, s.disk)
                          && |ops| >= |effective.files|
                          && (forall i | 0 <= i < |effective.files| :: OpFor(ops[i], env.resolve, effective.files[i]))
                          && Sorts(s.disk, env.resolve, effective.patches, ops[|effective.files|..], Apply(s, plan, env).1.unapplied)
                          && Apply(s, plan, env).1.files == FileRels(effective.files)
                          && Apply(s, plan, env).1.patches == RelsOf(ops[|effective.files|..])
  {
    hide ReservePlan, Prepare, Commit, FreshTmps, PathsApart, ValidPaths, Sorts, OpFor, AppliedRels, RelsOf, InPlace;
    var effective := ReservePlan(plan, s.reserver, env).0;
    ReservedRels(plan, s.reserver, env);
    PrepareSucceeds(s.disk, env.resolve, effective.files, effective.patches, env.io);
    var p := Prepare(s.disk, env.resolve, effective.files, effective.patches, env.io).p;
    CommitSucceeds(s.disk, p, env.io);
    ListsSplit(s.disk, env.resolve, effective, p.ops, p.unapplied);
    assert TmpsOf(p.ops, env.io, s.disk);
  }

  lemma InPlaceAtLast(base: Disk, disk: Disk, ops: seq<FileOp>)
    requires PartWay(base, disk, ops, |ops|, |ops|)
    ensures InPlace(base, disk, ops)
  {
  }

  // ---- Temporary names ----

  const TMP_PREFIX := ".anito-setup-"

  /** Joining a relative path with the root, below which the temporary files are as well. */
  function Joined(root: string, rel: string): Option<string> {
    if rel == "" || rel[0] == '/' then None else Some(root + "/" + rel)
  }

  function TmpRel(i: nat): string {
    TMP_PREFIX + seq(i, _ => '0')
  }

  lemma {:induction false} LengthsBounded(paths: set<string>) returns (n: nat)
    ensures forall q | q in paths :: |q| <= n
    decreases paths
  {
    if paths == {} {
      n := 0;
    } else {
      var q :| q in paths;
      var m := LengthsBounded(paths - {q});
      n := if m < |q| then |q| else m;
    }
  }

  function TmpName(root: string, i: nat): string {
    root + "/" + TmpRel(i)
  }

  /** The same environment, with temporary files below the root from the given number on. */
  function NamedFrom(env: ApplyEnv, root: string, first: nat): ApplyEnv {
    env.(io := env.io.(tmp := (i: nat) => TmpName(root, first + i)))
  }

  /** No setup is shut out: with a resolver that joins every path to a root, and temporary files that lie
      below that root and resolve like any other path, every disk and every plan leaves room for new names. */
  lemma TmpsExist(s: Setup, plan: Plan, env: ApplyEnv, root: string)
    requires env.resolve == (rel => Joined(root, rel))
    requires forall i, j | 0 <= i < j < |env.names| :: env.names[i] != env.names[j]
    requires forall n :: n in plan.allocations <==> n in env.names
    ensures forall i: nat :: env.resolve(TmpRel(i)) == Some(TmpName(root, i))
    ensures exists first: nat :: EnvOk(s, plan, NamedFrom(env, root, first))
  {
    var rels := set k | 0 <= k < |Rels(plan)| :: root + "/" + Rels(plan)[k];
    var n := LengthsBounded(s.disk.Keys + rels);
    var named := NamedFrom(env, root, n);
    forall i: nat ensures named.io.tmp(i) !in s.disk && |named.io.tmp(i)| == |root| + 1 + |TMP_PREFIX| + n + i {
      assert named.io.tmp(i) == TmpName(root, n + i);
    }
    forall k, i: nat | 0 <= k < |Rels(plan)| ensures env.resolve(Rels(plan)[k]) != Some(named.io.tmp(i)) {
      assert root + "/" + Rels(plan)[k] in rels;
    }
    forall i: nat, j: nat | i != j ensures named.io.tmp(i) != named.io.tmp(j) {
      assert |named.io.tmp(i)| != |named.io.tmp(j)|;
    }
    assert EnvOk(s, plan, named);
  }
}
