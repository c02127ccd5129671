/** Apply with its loops, on a disk and a port reserver that it updates in place. */
module SetupApply {
  import opened Options
  import opened SetupSpec
  import opened SetupProofs
  import B = ManagedBlock

  class Workspace {
    var disk: Disk
    var reserver: Option<Reserver>

    constructor (disk: Disk, reserver: Option<Reserver>)
      ensures Now() == Setup(disk, reserver)
    {
      this.disk, this.reserver := disk, reserver;
    }

    function Now(): Setup
      reads this
    {
      Setup(disk, reserver)
    }

    // ---- Reservations ----

    /** Reserves name after name; `done` collects what is to be released on failure. */
    method ReserveNames(names: seq<string>, planned: map<string, int>, answers: string -> Option<int>)
      returns (done: seq<string>, allocations: map<string, int>, ok: bool)
      requires reserver.Some? && forall i | 0 <= i < |names| :: names[i] in planned
      modifies `reserver
      ensures var all := ReserveAll(old(reserver).value, names, planned, answers, []);
              reserver == Some(all.r) && done == all.names && allocations == all.allocations && ok == all.ok
    {
      done, allocations := [], planned;
      for i := 0 to |names|
        invariant reserver.Some? && allocations.Keys == planned.Keys
        invariant ReserveAll(old(reserver).value, names, planned, answers, []) == ReserveAll(reserver.value, names[i..], allocations, answers, done)
      {
        var name := names[i];
        assert names[i..][0] == name && names[i..][1..] == names[i + 1..];
        var existed := Exists(reserver.value, name);
        var (r, port) := Reserve(reserver.value, name, answers(name));
        reserver := Some(r);
        if port.None? { return done, allocations, false; }
        if !existed { done := done + [name]; }
        if allocations[name] != 0 && port.value != allocations[name] { return done, allocations, false; }
        allocations := allocations[name := port.value];
      }
      return done, allocations, true;
    }

    method ReservePlanPorts(plan: Plan, env: ApplyEnv) returns (effective: Plan, done: seq<string>, ok: bool)
      requires forall i | 0 <= i < |env.names| :: env.names[i] in plan.allocations
      modifies `reserver
      ensures (effective, reserver, done, ok) == ReservePlan(plan, old(reserver), env)
    {
      effective, done := plan, [];
      if plan.single {
        if plan.allocations != map[] || reserver.None? || plan.serviceName == "" { return effective, done, true; }
        var allocations;
        done, allocations, ok := ReserveNames([plan.serviceName], map[plan.serviceName := 0], env.answers);
        if !ok { return; }
        effective := plan.(allocations := allocations, files := FillPort(plan.files, env.fill, allocations[plan.serviceName]));
        return;
      }
      if plan.allocations == map[] { return effective, done, true; }
      if reserver.None? { return effective, done, false; }
      var allocations;
      done, allocations, ok := ReserveNames(env.names, plan.allocations, env.answers);
      effective := plan.(allocations := allocations);
    }

    /** Last reserved, first released. */
    method RollbackReservations(names: seq<string>)
      modifies `reserver
      ensures reserver == Released(old(reserver), names)
    {
      if reserver.None? || !reserver.value.canRemove { return; }
      var i := |names|;
      assert names[..i] == names;
      while i > 0
        invariant 0 <= i <= |names| && reserver.Some? && reserver.value.canRemove
        invariant Release(old(reserver).value, names) == Release(reserver.value, names[..i])
      {
        i := i - 1;
        assert names[..i + 1][..i] == names[..i];
        reserver := Some(reserver.value.(ports := reserver.value.ports - {names[i]}));
      }
    }

    // ---- Staging ----

    method CleanUp(ops: seq<FileOp>)
      modifies `disk
      ensures disk == Cleanup(old(disk), ops)
    {
      for i := 0 to |ops|
        invariant disk == Cleanup(old(disk), ops[..i])
      {
        assert ops[..i + 1] == ops[..i] + [ops[i]];
        TmpsAppend(ops[..i], ops[i]);
        disk := disk - {ops[i].tmp};
      }
      assert ops[..|ops|] == ops;
    }

    /** Remembers the target and writes the temporary file. */
    method StageFile(rel: string, path: string, content: string, mode: int, tmp: string) returns (op: FileOp)
      modifies `disk
      ensures op == Staged(old(disk), rel, path, content, mode, tmp) && disk == Stage(old(disk), op)
    {
      op := FileOp(rel, path, tmp, mode, false, "", 0, content);
      if path in disk {
        op := op.(existed := true, before := disk[path].content, beforeMode := disk[path].mode);
        if mode == 0 { op := op.(mode := op.beforeMode); }
      }
      if op.mode == 0 { op := op.(mode := DEFAULT_MODE); }
      disk := disk[tmp := File(content, op.mode)];
    }

    method PrepareApplication(resolve: Resolver, files: seq<GeneratedFile>, patches: seq<SourcePatch>, env: Env)
      returns (ok: bool, ops: seq<FileOp>, unapplied: seq<string>)
      modifies `disk
      ensures match Prepare(old(disk), resolve, files, patches, env)
              case Aborted(d) => !ok && disk == d
              case Ready(p) => ok && Prepared(disk, ops, unapplied) == p
    {
      hide Staged, Stage, Cleanup, B.Replace;
      ops, unapplied := [], [];
      ghost var start := Prepared(disk, [], []);
      for i := 0 to |files|
        invariant unapplied == []
        invariant PrepareFiles(start, resolve, files, env) == PrepareFiles(Prepared(disk, ops, unapplied), resolve, files[i..], env)
      {
        assert files[i..][0] == files[i] && files[i..][1..] == files[i + 1..];
        var path := resolve(files[i].rel);
        if path.None? || (path.value in disk && path.value in env.unreadable) || env.stageFails(|ops|) {
          CleanUp(ops);
          return false, ops, unapplied;
        }
        var op := StageFile(files[i].rel, path.value, files[i].content, ModeForGenerated(files[i].rel), env.tmp(|ops|));
        ops := ops + [op];
      }
      ghost var middle := Prepared(disk, ops, unapplied);
      for i := 0 to |patches|
        invariant PreparePatches(middle, resolve, patches, env) == PreparePatches(Prepared(disk, ops, unapplied), resolve, patches[i..], env)
      {
        assert patches[i..][0] == patches[i] && patches[i..][1..] == patches[i + 1..];
        var path := resolve(patches[i].rel);
        if path.None? {
          CleanUp(ops);
          return false, ops, unapplied;
        }
        if path.value !in disk {
          unapplied := unapplied + [patches[i].rel];
          continue;
        }
        if path.value in env.unreadable {
          CleanUp(ops);
          return false, ops, unapplied;
        }
        var next := B.Replace(disk[path.value].content, patches[i].block);
        if next.None? {
          unapplied := unapplied + [patches[i].rel];
          continue;
        }
        if env.stageFails(|ops|) {
          CleanUp(ops);
          return false, ops, unapplied;
        }
        var op := StageFile(patches[i].rel, path.value, next.value, disk[path.value].mode, env.tmp(|ops|));
        ops := ops + [op];
      }
      return true, ops, unapplied;
    }

    // ---- Committing ----

    /** Writes the old content back, or removes the file, target by target from the last. */
    method RollBack(committed: seq<FileOp>)
      modifies `disk
      ensures disk == Rollback(old(disk), committed)
    {
      var i := |committed|;
      assert committed[..i] == committed;
      while i > 0
        invariant 0 <= i <= |committed|
        invariant Rollback(old(disk), committed) == Rollback(disk, committed[..i])
      {
        i := i - 1;
        assert committed[..i + 1][..i] == committed[..i];
        var op := committed[i];
        if op.existed {
          var mode := op.beforeMode;
          if mode == 0 { mode := op.mode; }
          disk := WriteFile(disk, op.path, op.before, mode);
        } else {
          disk := disk - {op.path};
        }
      }
    }

    method CommitAll(plan: Plan, ops: seq<FileOp>, env: Env) returns (ok: bool, files: seq<string>, patches: seq<string>)
      modifies `disk
      ensures (disk, ok) == Commit(old(disk), ops, 0, env)
      ensures ok ==> files == AppliedRels(plan, ops, false) && patches == AppliedRels(plan, ops, true)
    {
      hide Rename, Cleanup, Rollback;
      files, patches := [], [];
      for i := 0 to |ops|
        invariant Commit(old(disk), ops, 0, env) == Commit(disk, ops, i, env)
        invariant files == AppliedRels(plan, ops[..i], false) && patches == AppliedRels(plan, ops[..i], true)
      {
        assert ops[..i + 1][..i] == ops[..i];
        if env.renameFails(i) {
          RollBack(ops[..i]);
          CleanUp(ops);
          return false, files, patches;
        }
        disk := Rename(disk, ops[i].tmp, ops[i].path);
        if IsPatchPath(plan.patches, ops[i].rel) {
          patches := patches + [ops[i].rel];
        } else {
          files := files + [ops[i].rel];
        }
        assert IsPatchPath(plan.patches, ops[i].rel) == IsPatch(plan, ops[i].rel);
      }
      assert ops[..|ops|] == ops;
      return true, files, patches;
    }

    static function IsPatchPath(patches: seq<SourcePatch>, rel: string): (found: bool)
      ensures found <==> exists i :: 0 <= i < |patches| && patches[i].rel == rel
    {
      patches != [] && (patches[0].rel == rel || IsPatchPath(patches[1..], rel))
    }

    /** Either the whole plan, or nothing: see ApplyIsAtomic and ApplySucceeds. */
    method Run(plan: Plan, env: ApplyEnv) returns (result: Result)
      requires forall i | 0 <= i < |env.names| :: env.names[i] in plan.allocations
      modifies this
      ensures (Now(), result) == Apply(old(Now()), plan, env)
    {
      hide ReservePlan, Prepare, Commit, Released, ValidPaths, AppliedRels;
      if plan.single && plan.hasConfig { return Refused; }
      if !env.rootOk || !ValidPaths(env.resolve, Rels(plan), {}) { return Refused; }
      var effective, done, ok := ReservePlanPorts(plan, env);
      if !ok {
        RollbackReservations(done);
        return Refused;
      }
      var prepared, ops, unapplied := PrepareApplication(env.resolve, effective.files, effective.patches, env.io);
      if !prepared {
        RollbackReservations(done);
        return Refused;
      }
      var committed, files, patches := CommitAll(effective, ops, env.io);
      if !committed {
        RollbackReservations(done);
        return Refused;
      }
      return Applied(effective.allocations, files, patches, unapplied);
    }
  }
}
