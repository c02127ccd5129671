/** Listeners and generations over whole runs of the proxy manager. */
module ProxyRuns {
  import opened Names
  import opened ProxySpec
  import opened ProxyProofs

  datatype Op =
    | OpRegister(name: string, ports: map<string, int>, bind: string, env: BindEnv)
    | OpSwap(name: string, targets: map<string, int>)
    | OpSwapStatic(name: string, dir: string)
    | OpUnswap(name: string)
    | OpRemove(name: string)

  ghost predicate OpOk(op: Op) {
    ColonFree(op.name) && (op.OpRegister? ==> IsOrderOf(op.env.order, op.ports))
  }

  function Apply(p: Proxy, op: Op): Proxy
    requires OpOk(op)
  {
    match op
    case OpRegister(name, ports, bind, env) => Register(p, name, ports, bind, env).0
    case OpSwap(name, targets) => SwapPorts(p, name, targets).0
    case OpSwapStatic(name, dir) => SwapStatic(p, name, dir).0
    case OpUnswap(name) => UnswapPorts(p, name)
    case OpRemove(name) => RemovePorts(p, name)
  }

  /** The calls that lose track of a listener. */
  ghost predicate Leaks(p: Proxy, op: Op)
    requires OpOk(op)
  {
    op.OpRegister? && op.env.addressOk && StopsAtRebind(p, op.name, op.ports, NormalBind(op.bind), op.env, 0, [])
  }

  ghost predicate Intact(p: Proxy) {
    Sound(p) && Held(p)
  }

  // ---- A listener that has been lost track of stays lost ----

  /** An open listener that no entry, and nothing about to become one, knows of. */
  ghost predicate Orphan(p: Proxy, pending: seq<Pending>, id: nat) {
    && id in p.open && id < p.nextListener
    && (forall k | k in p.entries :: p.entries[k].listener != id)
    && (forall i | 0 <= i < |pending| :: pending[i].entry.listener != id)
  }

  lemma LeaksAreOrphans(p: Proxy)
    requires Held(p)
    ensures NoLeak(p, []) <==> forall id | id in p.open :: !Orphan(p, [], id)
  {
    assert PendingListeners([]) == {};
  }

  lemma TurnKeepsOrphan(p: Proxy, name: string, portName: string, stablePort: int, bind: string, refused: bool, pending: seq<Pending>, id: nat)
    requires Orphan(p, pending, id)
    ensures var t := RegisterTurn(p, name, portName, stablePort, bind, refused, pending);
            Orphan(t.p, if t.Next? then t.pending else [], id)
  {
    hide EntryKey;
  }

  lemma {:induction false} LoopKeepsOrphan(p: Proxy, name: string, ports: map<string, int>, bind: string, env: BindEnv, i: nat, pending: seq<Pending>, id: nat)
    requires i <= |env.order| && forall k | k in env.order :: k in ports
    requires Orphan(p, pending, id)
    ensures var (q, r) := RegisterLoop(p, name, ports, bind, env, i, pending);
            Orphan(q, if r.Some? then r.value else [], id)
    decreases |env.order| - i
  {
    hide RegisterTurn, Orphan;
    if i < |env.order| {
      TurnKeepsOrphan(p, name, env.order[i], ports[env.order[i]], bind, env.order[i] in env.refused, pending, id);
      var t := RegisterTurn(p, name, env.order[i], ports[env.order[i]], bind, env.order[i] in env.refused, pending);
      if t.Next? {
        LoopKeepsOrphan(t.p, name, ports, bind, env, i + 1, t.pending, id);
      }
    }
  }

  lemma {:induction false} AddedListeners(entries: map<string, Entry>, name: string, route: nat, pending: seq<Pending>, id: nat)
    requires forall k | k in entries :: entries[k].listener != id
    requires forall i | 0 <= i < |pending| :: pending[i].entry.listener != id
    ensures forall k | k in AddPending(entries, name, route, pending) :: AddPending(entries, name, route, pending)[k].listener != id
    decreases |pending|
  {
    hide EntryKey;
    if pending != [] {
      var last := pending[|pending| - 1];
      assert last.entry.listener != id;
      AddedListeners(entries, name, route, pending[..|pending| - 1], id);
      var rest := AddPending(entries, name, route, pending[..|pending| - 1]);
      var added := AddPending(entries, name, route, pending);
      assert added == rest[EntryKey(name, last.portName) := last.entry.(route := route)];
      forall k | k in added ensures added[k].listener != id {
        assert k == EntryKey(name, last.portName) || (k in rest && added[k] == rest[k]);
      }
    }
  }

  lemma CommitEntries(p: Proxy, name: string, pending: seq<Pending>)
    ensures var q := Commit(p, name, pending);
            && q.open == p.open && q.nextListener == p.nextListener
            && q.entries == AddPending(p.entries, name, if name in p.routes then p.routes[name] else p.nextRoute, pending)
  {
    hide CurrentHandlers, AddPending;
  }

  lemma RegisterKeepsOrphan(p: Proxy, name: string, ports: map<string, int>, bind: string, env: BindEnv, id: nat)
    requires IsOrderOf(env.order, ports) && Orphan(p, [], id)
    ensures Orphan(Register(p, name, ports, bind, env).0, [], id)
  {
    hide RegisterLoop, CurrentHandlers, Commit, AddPending;
    if env.addressOk {
      LoopKeepsOrphan(p, name, ports, NormalBind(bind), env, 0, [], id);
      var (q, pending) := RegisterLoop(p, name, ports, NormalBind(bind), env, 0, []);
      if pending.Some? {
        AddedListeners(q.entries, name, if name in q.routes then q.routes[name] else q.nextRoute, pending.value, id);
        CommitEntries(q, name, pending.value);
      }
    }
  }

  /** No call closes or adopts a listener that has been lost track of. */
  lemma ApplyKeepsOrphan(p: Proxy, op: Op, id: nat)
    requires OpOk(op) && Orphan(p, [], id)
    ensures Orphan(Apply(p, op), [], id)
  {
    hide CurrentHandlers, Matching, Register;
    match op
    case OpRegister(name, ports, bind, env) => RegisterKeepsOrphan(p, name, ports, bind, env, id);
    case _ =>
  }

  lemma LeaksStay(p: Proxy, op: Op)
    requires Intact(p) && OpOk(op) && Held(Apply(p, op)) && !NoLeak(p, [])
    ensures !NoLeak(Apply(p, op), [])
  {
    hide Sound, Held, NoLeak, Apply, OpOk;
    LeaksAreOrphans(p);
    LeaksAreOrphans(Apply(p, op));
    var id :| id in p.open && Orphan(p, [], id);
    ApplyKeepsOrphan(p, op, id);
  }

  lemma ApplyKeeps(p: Proxy, op: Op)
    requires Intact(p) && OpOk(op)
    ensures var q := Apply(p, op);
            && Intact(q)
            && p.published <= q.published
            && (NoLeak(q, []) <==> NoLeak(p, []) && !Leaks(p, op))
            && (forall n | n != op.name :: SameService(p, q, n))
  {
    hide Sound, Held, Register, SwapPorts, SwapStatic, UnswapPorts, RemovePorts, NoLeak, SameService, StopsAtRebind, CurrentHandlers, EntryKey;
    if !NoLeak(p, []) && Held(Apply(p, op)) {
      LeaksStay(p, op);
    }
    match op
    case OpRegister(name, ports, bind, env) =>
      RegisterKeeps(p, name, ports, bind, env);
      if NoLeak(p, []) {
        RegisterConserves(p, name, ports, bind, env);
      }
      forall n | n != name ensures SameService(p, Register(p, name, ports, bind, env).0, n) {
        RegisterIsolated(p, name, ports, bind, env, n);
      }
    case OpSwap(name, targets) => SwapPortsExact(p, name, targets);
    case OpSwapStatic(name, dir) => SwapStaticKeeps(p, name, dir);
    case OpUnswap(name) => UnswapOnce(p, name);
    case OpRemove(name) => RemovePortsExact(p, name);
  }

  lemma UnswapOnce(p: Proxy, name: string)
    requires Sound(p) && ColonFree(name)
    ensures var q := UnswapPorts(p, name);
            && Sound(q) && (Held(p) ==> Held(q)) && (NoLeak(p, []) ==> NoLeak(q, []))
            && p.published <= q.published && (forall n | n != name :: SameService(p, q, n))
  {
    UnswapPortsExact(p, name);
    hide Sound, Held, NoLeak, SameService, CurrentHandlers, EntryKey;
  }

  ghost predicate RunOk(ops: seq<Op>) {
    forall i | 0 <= i < |ops| :: OpOk(ops[i])
  }

  function Run(p: Proxy, ops: seq<Op>): Proxy
    requires RunOk(ops)
    decreases |ops|
  {
    if ops == [] then p else Run(Apply(p, ops[0]), ops[1..])
  }

  ghost predicate RunLeaks(p: Proxy, ops: seq<Op>)
    requires RunOk(ops)
    decreases |ops|
  {
    ops != [] && (Leaks(p, ops[0]) || RunLeaks(Apply(p, ops[0]), ops[1..]))
  }

  /** Whatever is registered, re-bound, swapped and removed, with whatever bind failures: every entry's
      listener stays open and its own; no generation once published is changed; a service that none of
      the calls names keeps its entries, route and handlers; and the open listeners are exactly those of
      the entries, if and only if no call stopped at a refused re-bind behind a new port - a listener that
      was lost track of there is never closed again. */
  lemma {:induction false} RunsConserve(p: Proxy, ops: seq<Op>, bystander: string)
    requires Intact(p) && RunOk(ops)
    ensures var q := Run(p, ops);
            && Intact(q)
            && p.published <= q.published
            && (NoLeak(q, []) <==> NoLeak(p, []) && !RunLeaks(p, ops))
            && ((forall i | 0 <= i < |ops| :: ops[i].name != bystander) ==> SameService(p, q, bystander))
    decreases |ops|
  {
    hide Intact, NoLeak, SameService, Leaks, Apply;
    if ops == [] {
      SameServiceReflexive(p, bystander);
    } else {
      var q := Apply(p, ops[0]);
      ApplyKeeps(p, ops[0]);
      RunsConserve(q, ops[1..], bystander);
      SameServiceTransitive(p, q, Run(q, ops[1..]), bystander);
      assert forall i | 0 <= i < |ops| - 1 :: ops[1..][i] == ops[i + 1];
    }
  }

  lemma SameServiceReflexive(p: Proxy, n: string)
    ensures SameService(p, p, n)
  {
  }

  lemma SameServiceTransitive(p: Proxy, q: Proxy, r: Proxy, n: string)
    ensures SameService(p, q, n) && SameService(q, r, n) ==> SameService(p, r, n)
  {
    hide CurrentHandlers, Owner;
  }
}
