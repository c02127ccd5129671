/** Runs of the daemon object are runs of the specification, so what is proved about those holds of it. */
module DaemonRuns {
  import opened ServiceSpec
  import opened Service
  import opened Coupling
  import opened Operations
  import opened Routes
  import opened StablePorts

  method Perform(d: Daemon, op: Op)
    requires d.Valid() && OpOrders(d.Now(), op)
    modifies d, d.reg, d.mgr, d.prx
    ensures d.Valid() && d.Now() == Apply(old(d.Now()), op)
  {
    hide ServiceSpec.Deploy, DeployStatic, ServiceSpec.Restart, ServiceSpec.Rollback, ServiceSpec.Stop, ServiceSpec.Remove, Reserve;
    hide ServiceSpec.BindListeners, ServiceSpec.Archive, ServiceSpec.RestoreArchived, ServiceSpec.Prune, ServiceSpec.RestoreOne, ServiceSpec.ProcessExits, ServiceSpec.FinishDrain, PortsDiffer;
    match op {
      case OpDeploy(req, env) => var _ := d.Deploy(req, env);
      case OpDeployStatic(req, env) => var _ := d.Deploy(req, env);
      case OpRestart(name, env) => var _ := d.Restart(name, env);
      case OpRollback(name, env, deployedAt) => var _ := d.Rollback(name, env, deployedAt);
      case OpStop(name, stuck, now) => var _ := d.Stop(name, stuck, now);
      case OpRemove(name) => d.Remove(name);
      case OpReserve(name, preferred, env, now) => var _ := d.ReservePorts(name, preferred, env, now);
      case OpArchive(name, now) => var _ := d.Archive(name, now);
      case OpRestoreArchived(name, now) => var _ := d.RestoreArchived(name, now);
      case OpPrune(name, now) => var _ := d.Prune(name, now);
      case OpBind(name, env, now) => var _ := d.BindListeners(name, env, now);
      case OpRestoreOne(name, env) => var _ := d.RestoreOne(name, env);
      case OpExit(pid, code, duration, now) => d.ProcessExits(pid, code, duration, now);
      case OpDrain(i) => d.FinishDrain(i);
    }
  }

  /** Whatever the daemon is asked to do, and whatever its processes do in between: it goes through the run
      of the specification - so that, if the run is one that keeps the invariant, registry, process table and
      routes still agree afterwards, and no port has been given out twice. */
  method PerformAll(d: Daemon, ops: seq<Op>)
    requires d.Valid() && RunOrders(d.Now(), ops)
    modifies d, d.reg, d.mgr, d.prx
    ensures d.Valid() && d.Now() == RunAll(old(d.Now()), ops)
    ensures old(WorldOk(d.Now()) && PortsDistinct(d.Now().reg) && RunOk(d.Now(), ops)) ==> WorldOk(d.Now()) && PortsDistinct(d.Now().reg)
  {
    hide WorldOk, OpOrders, OpOk, Apply, PortsDistinct, Subject;
    ghost var start := d.Now();
    for i := 0 to |ops|
      invariant d.Valid() && RunOrders(d.Now(), ops[i..]) && RunAll(d.Now(), ops[i..]) == RunAll(start, ops)
    {
      assert ops[i..][0] == ops[i] && ops[i..][1..] == ops[i + 1..];
      Perform(d, ops[i]);
    }
    if WorldOk(start) && PortsDistinct(start.reg) && RunOk(start, ops) {
      PortsNeverChange(start, ops, "");
      RunKeepsWorld(start, ops);
    }
  }

  lemma {:induction false} RunKeepsWorld(w: World, ops: seq<Op>)
    requires WorldOk(w) && RunOk(w, ops)
    ensures WorldOk(RunAll(w, ops))
    decreases |ops|
  {
    hide WorldOk, OpOk, Apply, Settles, Subject;
    if ops != [] {
      ApplyKeeps(w, ops[0]);
      SettledIsOk(w, Apply(w, ops[0]), Subject(w, ops[0]));
      RunKeepsWorld(Apply(w, ops[0]), ops[1..]);
    }
  }
}
