/** Which processes descend from a service's process, and whether they own its ports. The operating
    system's answers are a finite table: `Failed` is a query that could not be run, and a PID outside
    the table has no children. */
module ProcessTree {
  import opened Options

  datatype Answer = Pids(pids: seq<int>) | Failed

  type Table = map<int, Answer>

  function Children(t: Table, pid: int): Answer {
    if pid in t then t[pid] else Pids([])
  }

  predicate Edge(t: Table, parent: int, child: int) {
    Children(t, parent).Pids? && child in Children(t, parent).pids
  }

  ghost predicate Path(t: Table, path: seq<int>) {
    |path| > 0 && forall i | 0 < i < |path| :: Edge(t, path[i - 1], path[i])
  }

  /** A chain of successful child queries leads from one process to the other. */
  ghost predicate Reaches(t: Table, root: int, pid: int) {
    exists path :: Path(t, path) && path[0] == root && path[|path| - 1] == pid
  }

  /** Every PID that is anybody's child. */
  function Mentioned(t: Table): set<int> {
    set p, i | p in t && t[p].Pids? && 0 <= i < |t[p].pids| :: t[p].pids[i]
  }

  lemma ReachesItself(t: Table, root: int)
    ensures Reaches(t, root, root)
  {
    assert Path(t, [root]) && [root][0] == root;
  }

  lemma ReachesChild(t: Table, root: int, parent: int, child: int)
    requires Reaches(t, root, parent) && Edge(t, parent, child)
    ensures Reaches(t, root, child)
  {
    var path :| Path(t, path) && path[0] == root && path[|path| - 1] == parent;
    var longer := path + [child];
    assert Path(t, longer) && longer[0] == root && longer[|longer| - 1] == child;
  }

  /** A set that holds the root and all children of its members holds everything reachable. */
  lemma {:induction false} ClosedHoldsPath(t: Table, closed: set<int>, path: seq<int>)
    requires Path(t, path) && path[0] in closed
    requires forall p, c | p in closed && Edge(t, p, c) :: c in closed
    ensures path[|path| - 1] in closed
    decreases |path|
  {
    if |path| > 1 {
      assert Edge(t, path[0], path[1]);
      var rest := path[1..];
      assert forall i | 0 < i < |rest| :: rest[i - 1] == path[i] && rest[i] == path[i + 1];
      ClosedHoldsPath(t, closed, rest);
    }
  }

  lemma ClosedHoldsReachable(t: Table, root: int, closed: set<int>)
    requires root in closed
    requires forall p, c | p in closed && Edge(t, p, c) :: c in closed
    ensures forall pid | Reaches(t, root, pid) :: pid in closed
  {
    forall pid | Reaches(t, root, pid) ensures pid in closed {
      var path :| Path(t, path) && path[0] == root && path[|path| - 1] == pid;
      ClosedHoldsPath(t, closed, path);
    }
  }

  /** Visited processes that have left the queue were queried successfully, and all their children are
      visited. */
  ghost predicate Expanded(t: Table, allowed: set<int>, queue: seq<int>) {
    && (forall p | p in queue :: p in allowed)
    && (forall p | p in allowed && p !in queue :: Children(t, p).Pids?)
    && (forall p, c | p in allowed && p !in queue && Edge(t, p, c) :: c in allowed)
  }

  ghost predicate AllReachable(t: Table, root: int, pids: set<int>) {
    forall p | p in pids :: Reaches(t, root, p)
  }

  /** Some process in the tree could not be queried. */
  ghost predicate QueryFails(t: Table, root: int) {
    exists pid :: Reaches(t, root, pid) && Children(t, pid).Failed?
  }

  /** Adds the children not visited yet, in order. */
  method Visit(t: Table, root: int, pid: int, children: seq<int>, allowed: set<int>, queue: seq<int>)
    returns (visited: set<int>, waiting: seq<int>)
    requires Children(t, pid) == Pids(children)
    requires Reaches(t, root, pid) && AllReachable(t, root, allowed) && allowed <= {root} + Mentioned(t)
    requires forall p | p in queue :: p in allowed
    ensures allowed <= visited <= {root} + Mentioned(t)
    ensures AllReachable(t, root, visited)
    ensures forall c | c in children :: c in visited
    ensures forall p :: p in waiting <==> p in queue || (p in visited && p !in allowed)
    ensures visited == allowed ==> waiting == queue
  {
    visited, waiting := allowed, queue;
    for i := 0 to |children|
      invariant allowed <= visited <= {root} + Mentioned(t)
      invariant AllReachable(t, root, visited)
      invariant forall j | 0 <= j < i :: children[j] in visited
      invariant forall p :: p in waiting <==> p in queue || (p in visited && p !in allowed)
      invariant visited == allowed ==> waiting == queue
    {
      var child := children[i];
      if child !in visited {
        ReachesChild(t, root, pid, child);
        assert child in Mentioned(t);
        visited := visited + {child};
        waiting := waiting + [child];
      }
    }
  }

  /** The breadth-first search ends on every finite table, cycles included, with exactly the processes
      that are reachable - or without a result, exactly if a query in the tree fails. */
  method ProcessTreePids(t: Table, root: int) returns (tree: Option<set<int>>)
    ensures tree.None? <==> QueryFails(t, root)
    ensures tree.Some? ==> forall pid :: pid in tree.value <==> Reaches(t, root, pid)
  {
    var allowed, queue := {root}, [root];
    ReachesItself(t, root);
    while queue != []
      invariant root in allowed && allowed <= {root} + Mentioned(t)
      invariant AllReachable(t, root, allowed)
      invariant Expanded(t, allowed, queue)
      decreases {root} + Mentioned(t) - allowed, |queue|
    {
      var pid := queue[0];
      assert pid in queue;
      var answer := Children(t, pid);
      if answer.Failed? { return None; }
      var rest := queue[1..];
      ghost var before := allowed;
      assert forall p | p in before && p !in queue[1..] :: p == pid || p !in queue;
      allowed, queue := Visit(t, root, pid, answer.pids, allowed, rest);
      ExpandedOne(t, pid, before, [pid] + rest, allowed, queue);
    }
    ClosedHoldsReachable(t, root, allowed);
    return Some(allowed);
  }

  lemma ExpandedOne(t: Table, pid: int, allowed: set<int>, queue: seq<int>, visited: set<int>, waiting: seq<int>)
    requires |queue| > 0 && queue[0] == pid && Children(t, pid).Pids?
    requires Expanded(t, allowed, queue) && allowed <= visited
    requires forall c | c in Children(t, pid).pids :: c in visited
    requires forall p :: p in waiting <==> p in queue[1..] || (p in visited && p !in allowed)
    ensures Expanded(t, visited, waiting)
  {
    assert forall p | p in queue :: p == pid || p in queue[1..];
    assert forall p | p in queue[1..] :: p in queue;
  }

  // ---- Port ownership ----

  /** Some listener of the port belongs to the tree. */
  ghost predicate Owned(t: Table, root: int, listeners: Answer) {
    listeners.Pids? && exists pid :: pid in listeners.pids && Reaches(t, root, pid)
  }

  function Listeners(listening: Table, port: int): Answer {
    Children(listening, port)
  }

  /** The ownership check passes exactly when the root is a process, its whole tree can be queried, and
      every port has a listener in that tree. */
  method VerifyPortsOwned(t: Table, listening: Table, ports: map<string, int>, root: int) returns (ok: bool)
    ensures ok <==>
              && root > 0
              && !QueryFails(t, root)
              && forall k | k in ports :: Owned(t, root, Listeners(listening, ports[k]))
  {
    if root <= 0 { return false; }
    var tree := ProcessTreePids(t, root);
    if tree.None? { return false; }
    var todo := ports.Keys;
    while todo != {}
      invariant todo <= ports.Keys
      invariant forall k | k in ports && k !in todo :: Owned(t, root, Listeners(listening, ports[k]))
      decreases todo
    {
      var k :| k in todo;
      var answer := Listeners(listening, ports[k]);
      if answer.Failed? { return false; }
      var owned := false;
      for i := 0 to |answer.pids|
        invariant !owned && forall j | 0 <= j < i :: answer.pids[j] !in tree.value
      {
        if answer.pids[i] in tree.value {
          assert Reaches(t, root, answer.pids[i]);
          owned := true;
          break;
        }
      }
      assert owned <==> Owned(t, root, answer);
      if !owned { return false; }
      todo := todo - {k};
    }
    return true;
  }
}
