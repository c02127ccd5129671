/** The proxy manager object, with the loops of the source over its port maps. */
module ProxyManager {
  import opened Names
  import opened Options
  import opened ProxySpec

  lemma {:induction false} AddPendingAppend(entries: map<string, Entry>, name: string, route: nat, pending: seq<Pending>, i: nat)
    requires i < |pending|
    ensures AddPending(entries, name, route, pending[..i + 1])
         == AddPending(entries, name, route, pending[..i])[EntryKey(name, pending[i].portName) := pending[i].entry.(route := route)]
  {
    assert pending[..i + 1][..i] == pending[..i];
  }

  lemma StartingAppend(pending: seq<Pending>, i: nat)
    requires i < |pending|
    ensures StartingHandlers(pending[..i + 1]) == StartingHandlers(pending[..i])[pending[i].portName := Starting]
  {
    assert pending[..i + 1][i] == pending[i];
    assert forall j | 0 <= j < i :: pending[..i + 1][j] == pending[..i][j];
  }

  lemma NothingStarting()
    ensures StartingHandlers([]) == map[]
  {
  }

  lemma OverlayOne(now: Handlers, more: Handlers, portName: string, h: Handler)
    ensures now + more[portName := h] == (now + more)[portName := h]
  {
  }

  lemma ListenersAppend(pending: seq<Pending>, i: nat)
    requires i < |pending|
    ensures PendingListeners(pending[..i + 1]) == PendingListeners(pending[..i]) + {pending[i].entry.listener}
  {
    assert pending[..i + 1][i] == pending[i];
    assert forall j | 0 <= j < i :: pending[..i + 1][j] == pending[..i][j];
  }

  class Manager {
    var entries: map<string, Entry>
    var routes: map<string, nat>
    var current: map<nat, nat>
    var published: seq<Generation>
    var listeners: map<nat, string>
    var nextListener: nat
    var nextRoute: nat

    constructor ()
      ensures State() == EMPTY
    {
      entries, routes, current, published := map[], map[], map[], [];
      listeners, nextListener, nextRoute := map[], 0, 0;
    }

    function State(): Proxy
      reads this
    {
      Proxy(entries, routes, current, published, listeners, nextListener, nextRoute)
    }

    /** publishRouteGeneration: one store of the generation pointer. */
    method Publish(name: string, route: nat, handlers: Handlers)
      modifies `published, `current
      ensures State() == ProxySpec.Publish(old(State()), name, route, handlers)
    {
      current := current[route := |published|];
      published := published + [Generation(name, handlers)];
    }

    /** currentHandlers of a route. */
    method HandlersOf(route: nat) returns (handlers: Handlers)
      ensures handlers == if route in current && current[route] < |published| then published[current[route]].handlers else map[]
    {
      if route in current && current[route] < |published| {
        handlers := published[current[route]].handlers;
      } else {
        handlers := map[];
      }
    }

    method Listen(key: string) returns (l: nat)
      modifies `listeners, `nextListener
      ensures l == old(nextListener) && State() == ProxySpec.Listen(old(State()), key)
    {
      l := nextListener;
      listeners := listeners[l := key];
      nextListener := nextListener + 1;
    }

    method CloseAll(pending: seq<Pending>)
      modifies `listeners
      ensures State() == old(State()).(open := old(listeners) - PendingListeners(pending))
    {
      for i := 0 to |pending|
        invariant listeners == old(listeners) - PendingListeners(pending[..i])
      {
        ListenersAppend(pending, i);
        listeners := listeners - {pending[i].entry.listener};
      }
      assert pending[..|pending|] == pending;
    }

    /** The listeners of the ports, kept, re-bound or created; new ones show up with the one generation
        that is published at the end. */
    method RegisterPorts(name: string, ports: map<string, int>, bind: string, env: BindEnv) returns (ok: bool)
      requires IsOrderOf(env.order, ports)
      modifies this
      ensures (State(), ok) == Register(old(State()), name, ports, bind, env)
    {
      var address := if bind == "" then DEFAULT_BIND else bind;
      if !env.addressOk { return false; }
      var pending: seq<Pending> := [];
      for i := 0 to |env.order|
        invariant RegisterLoop(old(State()), name, ports, address, env, 0, []) == RegisterLoop(State(), name, ports, address, env, i, pending)
      {
        var portName := env.order[i];
        var turn := Turn(name, portName, ports[portName], address, portName in env.refused, pending);
        if turn.None? { return false; }
        pending := turn.value;
      }
      if pending == [] { return true; }
      CommitPending(name, pending);
      return true;
    }

    /** One port of the loop; None is one of its error returns. */
    method Turn(name: string, portName: string, stablePort: int, address: string, refused: bool, pending: seq<Pending>)
      returns (more: Option<seq<Pending>>)
      modifies this
      ensures var turn := RegisterTurn(old(State()), name, portName, stablePort, address, refused, pending);
              State() == turn.p && more == if turn.Next? then Some(turn.pending) else None
    {
      var key := EntryKey(name, portName);
      if key in entries {
        var e := entries[key];
        if e.stablePort == stablePort && e.bind == address { return Some(pending); }
        if refused { return None; }
        var l := Listen(key);
        listeners := listeners - {e.listener};
        entries := entries[key := e.(stablePort := stablePort, bind := address, listener := l)];
        return Some(pending);
      }
      if refused {
        CloseAll(pending);
        return None;
      }
      var l := Listen(key);
      return Some(pending + [Pending(portName, Entry(stablePort, address, portName, l, 0))]);
    }

    method CommitPending(name: string, pending: seq<Pending>)
      modifies this
      ensures State() == Commit(old(State()), name, pending)
    {
      var route, now := nextRoute, map[];
      if name in routes {
        route := routes[name];
        now := HandlersOf(route);
      } else {
        nextRoute := nextRoute + 1;
        routes := routes[name := route];
      }
      assert now == CurrentHandlers(old(State()), name);
      var next := WithStarting(now, pending);
      Publish(name, route, next);
      AddEntries(name, route, pending);
    }

    static method WithStarting(now: Handlers, pending: seq<Pending>) returns (next: Handlers)
      ensures next == now + StartingHandlers(pending)
    {
      hide StartingHandlers;
      next := now;
      NothingStarting();
      for i := 0 to |pending|
        invariant next == now + StartingHandlers(pending[..i])
      {
        StartingAppend(pending, i);
        OverlayOne(now, StartingHandlers(pending[..i]), pending[i].portName, Starting);
        next := next[pending[i].portName := Starting];
      }
      assert pending[..|pending|] == pending;
    }

    method AddEntries(name: string, route: nat, pending: seq<Pending>)
      modifies `entries
      ensures entries == AddPending(old(entries), name, route, pending)
    {
      for i := 0 to |pending|
        invariant entries == AddPending(old(entries), name, route, pending[..i])
      {
        AddPendingAppend(old(entries), name, route, pending, i);
        entries := entries[EntryKey(name, pending[i].portName) := pending[i].entry.(route := route)];
      }
      assert pending[..|pending|] == pending;
    }

    /** All named ports at once, or - if one is not registered - none. */
    method SwapPorts(name: string, ports: map<string, int>) returns (ok: bool)
      modifies `published, `current
      ensures (State(), ok) == ProxySpec.SwapPorts(old(State()), name, ports)
      ensures !ok ==> State() == old(State())
    {
      if name !in routes { return false; }
      var registered := AllRegistered(name, ports);
      if !registered { return false; }
      var now := HandlersOf(routes[name]);
      var next := PointedAt(now, ports);
      Publish(name, routes[name], next);
      return true;
    }

    method AllRegistered(name: string, ports: map<string, int>) returns (ok: bool)
      ensures ok <==> forall k | k in ports :: EntryKey(name, k) in entries
    {
      var todo := ports.Keys;
      while todo != {}
        invariant todo <= ports.Keys
        invariant forall k | k in ports && k !in todo :: EntryKey(name, k) in entries
        decreases todo
      {
        var portName :| portName in todo;
        if EntryKey(name, portName) !in entries { return false; }
        todo := todo - {portName};
      }
      return true;
    }

    static method PointedAt(now: Handlers, ports: map<string, int>) returns (next: Handlers)
      ensures next == now + Upstreams(ports)
    {
      next := now;
      var todo := ports.Keys;
      while todo != {}
        invariant todo <= ports.Keys
        invariant next == now + map k | k in ports.Keys - todo :: Upstream(ports[k])
        decreases todo
      {
        var portName :| portName in todo;
        next := next[portName := Upstream(ports[portName])];
        todo := todo - {portName};
      }
    }

    method SwapStatic(name: string, dir: string) returns (ok: bool)
      modifies `published, `current
      ensures (State(), ok) == ProxySpec.SwapStatic(old(State()), name, dir)
      ensures !ok ==> State() == old(State())
    {
      var key := EntryKey(name, "default");
      if key !in entries { return false; }
      var next := HandlersOf(entries[key].route);
      next := next["default" := Files(dir)];
      Publish(name, entries[key].route, next);
      return true;
    }

    /** The placeholder for every entry whose key starts with the service's prefix. */
    method UnswapPorts(name: string)
      modifies `published, `current
      ensures State() == ProxySpec.UnswapPorts(old(State()), name)
    {
      if name !in routes { return; }
      var next := HandlersOf(routes[name]);
      ghost var now := next;
      var prefix := ServicePrefix(name);
      var todo := entries.Keys;
      while todo != {}
        invariant todo <= entries.Keys
        invariant next.Keys == now.Keys + PortNames(State(), Matching(State(), name) - todo)
        invariant forall n | n in next :: next[n] == if n in PortNames(State(), Matching(State(), name) - todo) then Unavailable else now[n]
        decreases todo
      {
        var key :| key in todo;
        if HasPrefix(key, prefix) {
          assert Matching(State(), name) - (todo - {key}) == (Matching(State(), name) - todo) + {key};
          next := next[entries[key].portName := Unavailable];
        } else {
          assert Matching(State(), name) - (todo - {key}) == Matching(State(), name) - todo;
        }
        todo := todo - {key};
      }
      assert Matching(State(), name) - todo == Matching(State(), name);
      assert next == now + PlaceholderHandlers(State(), Matching(State(), name));
      Publish(name, routes[name], next);
    }

    /** Closes and forgets every entry whose key starts with the service's prefix. */
    method RemovePorts(name: string)
      modifies this
      ensures State() == ProxySpec.RemovePorts(old(State()), name)
    {
      var prefix := ServicePrefix(name);
      ghost var keys := Matching(State(), name);
      var todo := entries.Keys;
      while todo != {}
        invariant todo <= old(entries).Keys
        invariant entries == old(entries) - (keys - todo)
        invariant listeners == old(listeners) - ListenersOf(old(State()), keys - todo)
        invariant unchanged(`routes, `current, `published, `nextListener, `nextRoute)
        decreases todo
      {
        var key :| key in todo;
        if HasPrefix(key, prefix) {
          assert keys - (todo - {key}) == (keys - todo) + {key};
          listeners := listeners - {entries[key].listener};
          entries := entries - {key};
        } else {
          assert keys - (todo - {key}) == keys - todo;
        }
        todo := todo - {key};
      }
      assert keys - todo == keys;
      routes := routes - {name};
    }
  }
}
