/** Applying a setup plan: stage every file beside its target, rename them into place one after the other,
    undo everything if one step fails. The file system is a map from paths; directories are not part of
    it. What the operating system answers is in the environment. */
module SetupSpec {
  import opened Options
  import B = ManagedBlock

  datatype File = File(content: string, mode: int)

  type Disk = map<string, File>

  /** `rel` is the plan's spelling of the path, `path` the cleaned absolute one. */
  datatype FileOp = FileOp(rel: string, path: string, tmp: string, mode: int, existed: bool, before: string, beforeMode: int, next: string)

  datatype GeneratedFile = GeneratedFile(rel: string, content: string)

  datatype SourcePatch = SourcePatch(rel: string, block: string)

  const DEFAULT_MODE := 0x1A4 // 0644
  const SCRIPT_MODE := 0x1ED // 0755

  /** Who resolves a plan's relative paths; None for one that is empty, absolute or leaves the root. */
  type Resolver = string -> Option<string>

  /** Attempt `i` creates the temporary file `tmp(i)`, unless it fails; `unreadable` are existing files
      that cannot be read; rename `i` may fail. */
  datatype Env = Env(tmp: nat -> string, stageFails: nat -> bool, unreadable: set<string>, renameFails: nat -> bool)

  function ModeForGenerated(rel: string): int {
    if |rel| >= 3 && rel[|rel| - 3..] == ".sh" then SCRIPT_MODE else DEFAULT_MODE
  }

  // ---- Path validation ----

  /** validatePlanPaths: every path resolves, and no two to the same file. */
  function ValidPaths(resolve: Resolver, rels: seq<string>, seen: set<string>): bool {
    if rels == [] then true
    else
      var path := resolve(rels[0]);
      path.Some? && path.value !in seen && ValidPaths(resolve, rels[1..], seen + {path.value})
  }

  // ---- Staging ----

  /** stageFile when it succeeds: what was there is remembered, the new content waits in a temporary file. */
  function Staged(disk: Disk, rel: string, path: string, content: string, mode: int, tmp: string): FileOp {
    var existed := path in disk;
    var wanted := if mode == 0 && existed then disk[path].mode else mode;
    FileOp(rel, path, tmp, if wanted == 0 then DEFAULT_MODE else wanted, existed,
           if existed then disk[path].content else "", if existed then disk[path].mode else 0, content)
  }

  function Stage(disk: Disk, op: FileOp): Disk {
    disk[op.tmp := File(op.next, op.mode)]
  }

  datatype Prepared = Prepared(disk: Disk, ops: seq<FileOp>, unapplied: seq<string>)

  /** One generated file; None is an error return, before the cleanup. */
  function PrepareFile(p: Prepared, resolve: Resolver, file: GeneratedFile, env: Env): Option<Prepared> {
    var path := resolve(file.rel);
    if path.None? || (path.value in p.disk && path.value in env.unreadable) || env.stageFails(|p.ops|) then None
    else
      var op := Staged(p.disk, file.rel, path.value, file.content, ModeForGenerated(file.rel), env.tmp(|p.ops|));
      Some(Prepared(Stage(p.disk, op), p.ops + [op], p.unapplied))
  }

  /** One patch: it does not apply if its target is missing or has no managed block. */
  function PreparePatch(p: Prepared, resolve: Resolver, patch: SourcePatch, env: Env): Option<Prepared> {
    var path := resolve(patch.rel);
    if path.None? then None
    else if path.value !in p.disk then Some(p.(unapplied := p.unapplied + [patch.rel]))
    else if path.value in env.unreadable then None
    else
      var next := B.Replace(p.disk[path.value].content, patch.block);
      if next.None? then Some(p.(unapplied := p.unapplied + [patch.rel]))
      else if env.stageFails(|p.ops|) then None
      else
        var op := Staged(p.disk, patch.rel, path.value, next.value, p.disk[path.value].mode, env.tmp(|p.ops|));
        Some(Prepared(Stage(p.disk, op), p.ops + [op], p.unapplied))
  }

  function Tmps(ops: seq<FileOp>): set<string> {
    set i | 0 <= i < |ops| :: ops[i].tmp
  }

  function Cleanup(disk: Disk, ops: seq<FileOp>): Disk {
    disk - Tmps(ops)
  }

  datatype Outcome = Ready(p: Prepared) | Aborted(disk: Disk)

  function PrepareFiles(p: Prepared, resolve: Resolver, files: seq<GeneratedFile>, env: Env): Outcome
    decreases |files|
  {
    if files == [] then Ready(p)
    else
      match PrepareFile(p, resolve, files[0], env)
      case None => Aborted(Cleanup(p.disk, p.ops))
      case Some(q) => PrepareFiles(q, resolve, files[1..], env)
  }

  function PreparePatches(p: Prepared, resolve: Resolver, patches: seq<SourcePatch>, env: Env): Outcome
    decreases |patches|
  {
    if patches == [] then Ready(p)
    else
      match PreparePatch(p, resolve, patches[0], env)
      case None => Aborted(Cleanup(p.disk, p.ops))
      case Some(q) => PreparePatches(q, resolve, patches[1..], env)
  }

  function Prepare(disk: Disk, resolve: Resolver, files: seq<GeneratedFile>, patches: seq<SourcePatch>, env: Env): Outcome {
    match PrepareFiles(Prepared(disk, [], []), resolve, files, env)
    case Aborted(d) => Aborted(d)
    case Ready(p) => PreparePatches(p, resolve, patches, env)
  }

  // ---- Committing ----

  /** os.Rename of a temporary file that exists. */
  function Rename(disk: Disk, from: string, to: string): Disk {
    if from in disk then (disk - {from})[to := disk[from]] else disk
  }

  /** os.WriteFile keeps the mode of a file that exists. */
  function WriteFile(disk: Disk, path: string, content: string, mode: int): Disk {
    disk[path := File(content, if path in disk then disk[path].mode else mode)]
  }

  function Undo(disk: Disk, op: FileOp): Disk {
    if op.existed then WriteFile(disk, op.path, op.before, if op.beforeMode == 0 then op.mode else op.beforeMode)
    else disk - {op.path}
  }

  /** The last one committed is undone first. */
  function Rollback(disk: Disk, committed: seq<FileOp>): Disk
    decreases |committed|
  {
    if committed == [] then disk
    else Rollback(Undo(disk, committed[|committed| - 1]), committed[..|committed| - 1])
  }

  /** The renames from the i-th on; the flag is "no error". */
  function Commit(disk: Disk, ops: seq<FileOp>, i: nat, env: Env): (Disk, bool)
    requires i <= |ops|
    decreases |ops| - i
  {
    if i == |ops| then (disk, true)
    else if env.renameFails(i) then (Cleanup(Rollback(disk, ops[..i]), ops), false)
    else Commit(Rename(disk, ops[i].tmp, ops[i].path), ops, i + 1, env)
  }

  // ---- Reservations ----

  /** What the port reserver does: it may know which services have a port, and be able to remove one. */
  datatype Reserver = Reserver(ports: map<string, int>, knowsPorts: bool, canRemove: bool)

  /** Reserve(name, preferred): an existing service keeps its port; `answer` is what a new one gets, None
      for an error. */
  function Reserve(r: Reserver, name: string, answer: Option<int>): (Reserver, Option<int>) {
    if name in r.ports then (r, Some(r.ports[name]))
    else if answer.None? then (r, None)
    else (r.(ports := r.ports[name := answer.value]), answer)
  }

  function Exists(r: Reserver, name: string): bool {
    r.knowsPorts && name in r.ports
  }

  datatype Reserved = Reserved(r: Reserver, names: seq<string>, allocations: map<string, int>, ok: bool)

  /** The loop over the plan's allocations in the order `names`; stops at the first error. */
  function ReserveAll(r: Reserver, names: seq<string>, planned: map<string, int>, answers: string -> Option<int>, done: seq<string>): (result: Reserved)
    requires forall i | 0 <= i < |names| :: names[i] in planned
    ensures result.allocations.Keys == planned.Keys
    decreases |names|
  {
    if names == [] then Reserved(r, done, planned, true)
    else
      var name := names[0];
      var (q, port) := Reserve(r, name, answers(name));
      if port.None? then Reserved(r, done, planned, false)
      else
        var more := if Exists(r, name) then done else done + [name];
        if planned[name] != 0 && port.value != planned[name] then Reserved(q, more, planned, false)
        else ReserveAll(q, names[1..], planned[name := port.value], answers, more)
  }

  /** rollbackReservations. */
  function Release(r: Reserver, names: seq<string>): Reserver
    decreases |names|
  {
    if names == [] || !r.canRemove then r
    else Release(r.(ports := r.ports - {names[|names| - 1]}), names[..|names| - 1])
  }

  // ---- The whole ----

  datatype Plan = Plan(single: bool, hasConfig: bool, serviceName: string, allocations: map<string, int>,
                       files: seq<GeneratedFile>, patches: seq<SourcePatch>)

  function FileRels(files: seq<GeneratedFile>): seq<string> {
    if files == [] then [] else [files[0].rel] + FileRels(files[1..])
  }

  function PatchRels(patches: seq<SourcePatch>): seq<string> {
    if patches == [] then [] else [patches[0].rel] + PatchRels(patches[1..])
  }

  function Rels(plan: Plan): seq<string> {
    FileRels(plan.files) + PatchRels(plan.patches)
  }

  datatype Setup = Setup(disk: Disk, reserver: Option<Reserver>)

  datatype Result = Applied(allocations: map<string, int>, files: seq<string>, patches: seq<string>, unapplied: seq<string>) | Refused

  datatype ApplyEnv = ApplyEnv(rootOk: bool, names: seq<string>, answers: string -> Option<int>,
                               fill: (string, int) -> string, resolve: Resolver, io: Env)

  const CONFIG := ".anito/config.yaml"

  /** The reserved port goes into the first generated config file. */
  function FillPort(files: seq<GeneratedFile>, fill: (string, int) -> string, port: int): seq<GeneratedFile> {
    if files == [] then []
    else if files[0].rel == CONFIG then [files[0].(content := fill(files[0].content, port))] + files[1..]
    else [files[0]] + FillPort(files[1..], fill, port)
  }

  /** reservePlanPorts; a composite plan with allocations needs a reserver. */
  function ReservePlan(plan: Plan, reserver: Option<Reserver>, env: ApplyEnv): (Plan, Option<Reserver>, seq<string>, bool)
    requires forall i | 0 <= i < |env.names| :: env.names[i] in plan.allocations
  {
    if plan.single then
      if plan.allocations != map[] || reserver.None? || plan.serviceName == "" then (plan, reserver, [], true)
      else
        var done := ReserveAll(reserver.value, [plan.serviceName], map[plan.serviceName := 0], env.answers, []);
        (if done.ok then plan.(allocations := done.allocations, files := FillPort(plan.files, env.fill, done.allocations[plan.serviceName])) else plan,
         Some(done.r), done.names, done.ok)
    else if plan.allocations == map[] then (plan, reserver, [], true)
    else if reserver.None? then (plan, reserver, [], false)
    else
      var done := ReserveAll(reserver.value, env.names, plan.allocations, env.answers, []);
      (plan.(allocations := done.allocations), Some(done.r), done.names, done.ok)
  }

  function Released(reserver: Option<Reserver>, names: seq<string>): Option<Reserver> {
    if reserver.None? then None else Some(Release(reserver.value, names))
  }

  function AppliedRels(plan: Plan, ops: seq<FileOp>, patches: bool): seq<string> {
    if ops == [] then []
    else
      var rel := ops[|ops| - 1].rel;
      AppliedRels(plan, ops[..|ops| - 1], patches) + (if IsPatch(plan, rel) == patches then [rel] else [])
  }

  predicate IsPatch(plan: Plan, rel: string) {
    exists i :: 0 <= i < |plan.patches| && plan.patches[i].rel == rel
  }

  function Apply(s: Setup, plan: Plan, env: ApplyEnv): (Setup, Result)
    requires forall i | 0 <= i < |env.names| :: env.names[i] in plan.allocations
  {
    if plan.single && plan.hasConfig then (s, Refused)
    else if !env.rootOk || !ValidPaths(env.resolve, Rels(plan), {}) then (s, Refused)
    else
      var (effective, reserver, names, ok) := ReservePlan(plan, s.reserver, env);
      if !ok then (Setup(s.disk, Released(reserver, names)), Refused)
      else
        match Prepare(s.disk, env.resolve, effective.files, effective.patches, env.io)
        case Aborted(disk) => (Setup(disk, Released(reserver, names)), Refused)
        case Ready(p) =>
          var (disk, committed) := Commit(p.disk, p.ops, 0, env.io);
          if !committed then (Setup(disk, Released(reserver, names)), Refused)
          else
            (Setup(disk, reserver),
             Applied(effective.allocations, AppliedRels(effective, p.ops, false), AppliedRels(effective, p.ops, true), p.unapplied))
  }
}
