/** What every operation of the proxy manager keeps, and what it changes. */
module ProxyProofs {
  import opened Options
  import opened Names
  import opened ProxySpec

  /** All entries of a service hang on its one route, whose handlers know their port names. */
  ghost predicate EntriesSound(p: Proxy) {
    forall k | k in p.entries ::
      && k == EntryKey(Owner(k), p.entries[k].portName)
      && Owner(k) in p.routes
      && p.entries[k].route == p.routes[Owner(k)]
      && p.entries[k].portName in CurrentHandlers(p, Owner(k))
  }

  /** Each service's route is its own and points at a generation of that service. */
  ghost predicate RoutesSound(p: Proxy) {
    && (forall n | n in p.routes ::
          && ColonFree(n)
          && p.routes[n] < p.nextRoute
          && p.routes[n] in p.current
          && p.current[p.routes[n]] < |p.published|
          && p.published[p.current[p.routes[n]]].service == n)
    && (forall m, n | m in p.routes && n in p.routes :: p.routes[m] == p.routes[n] ==> m == n)
  }

  ghost predicate Sound(p: Proxy) {
    EntriesSound(p) && RoutesSound(p)
  }

  /** Each entry's listener is open and is its own. */
  ghost predicate Held(p: Proxy) {
    && (forall k | k in p.entries :: p.entries[k].listener in p.open && p.open[p.entries[k].listener] == k)
    && (forall id | id in p.open :: id < p.nextListener)
  }

  ghost predicate PendingHeld(p: Proxy, name: string, pending: seq<Pending>) {
    && (forall i | 0 <= i < |pending| ::
          && pending[i].entry.portName == pending[i].portName
          && EntryKey(name, pending[i].portName) !in p.entries
          && pending[i].entry.listener in p.open
          && p.open[pending[i].entry.listener] == EntryKey(name, pending[i].portName))
    && (forall i, j | 0 <= i < j < |pending| :: pending[i].portName != pending[j].portName)
  }

  ghost predicate HeldByEntry(p: Proxy, id: nat) {
    id in p.open && p.open[id] in p.entries && p.entries[p.open[id]].listener == id
  }

  /** Every open listener belongs to an entry (or to one about to become an entry). */
  ghost predicate NoLeak(p: Proxy, pending: seq<Pending>) {
    forall id | id in p.open :: HeldByEntry(p, id) || id in PendingListeners(pending)
  }

  ghost predicate SameRoutes(p: Proxy, q: Proxy) {
    p.routes == q.routes && p.current == q.current && p.published == q.published && p.nextRoute == q.nextRoute
  }

  ghost predicate SameOutside(p: Proxy, q: Proxy, name: string) {
    forall k | Owner(k) != name :: (k in p.entries <==> k in q.entries) && (k in p.entries ==> p.entries[k] == q.entries[k])
  }

  /** Nothing of service `n` differs between the two states: entries, route and handlers. */
  ghost predicate SameService(p: Proxy, q: Proxy, n: string) {
    && (forall k | Owner(k) == n :: (k in p.entries <==> k in q.entries) && (k in p.entries ==> p.entries[k] == q.entries[k]))
    && (n in p.routes <==> n in q.routes)
    && (n in p.routes ==> p.routes[n] == q.routes[n])
    && CurrentHandlers(p, n) == CurrentHandlers(q, n)
  }

  // ---- Registering: the loop ----

  /** The listen call for the j-th port is both made and refused. */
  ghost predicate Blocked(p: Proxy, name: string, ports: map<string, int>, bind: string, env: BindEnv, j: nat)
    requires j < |env.order| && env.order[j] in ports
  {
    var key := EntryKey(name, env.order[j]);
    && env.order[j] in env.refused
    && !(key in p.entries && p.entries[key].stablePort == ports[env.order[j]] && p.entries[key].bind == bind)
  }

  ghost function FirstBlocked(p: Proxy, name: string, ports: map<string, int>, bind: string, env: BindEnv, i: nat): (f: nat)
    requires i <= |env.order| && forall k | k in env.order :: k in ports
    ensures i <= f <= |env.order|
    ensures f < |env.order| ==> Blocked(p, name, ports, bind, env, f)
    ensures forall j | i <= j < f :: !Blocked(p, name, ports, bind, env, j)
    decreases |env.order| - i
  {
    if i == |env.order| || Blocked(p, name, ports, bind, env, i) then i
    else FirstBlocked(p, name, ports, bind, env, i + 1)
  }

  /** The one way to lose a listener: the refused bind is a re-bind, after a new port was opened. */
  ghost predicate StopsAtRebind(p: Proxy, name: string, ports: map<string, int>, bind: string, env: BindEnv, i: nat, pending: seq<Pending>)
    requires i <= |env.order| && forall k | k in env.order :: k in ports
  {
    var f := FirstBlocked(p, name, ports, bind, env, i);
    && f < |env.order|
    && EntryKey(name, env.order[f]) in p.entries
    && (pending != [] || exists x | i <= x < f :: EntryKey(name, env.order[x]) !in p.entries)
  }

  ghost predicate AgreeFrom(p0: Proxy, p: Proxy, name: string, env: BindEnv, i: nat)
  {
    && p0.entries.Keys == p.entries.Keys
    && forall j | i <= j < |env.order| && EntryKey(name, env.order[j]) in p0.entries ::
         p.entries[EntryKey(name, env.order[j])] == p0.entries[EntryKey(name, env.order[j])]
  }

  ghost predicate PendingFrom(env: BindEnv, i: nat, pending: seq<Pending>)
    requires i <= |env.order|
  {
    forall x | 0 <= x < |pending| :: pending[x].portName in env.order[..i]
  }

  /** Soundness only looks at routes, generations, and the port names and routes of entries. */
  lemma SoundCarries(p: Proxy, q: Proxy)
    requires Sound(p) && SameRoutes(p, q) && p.entries.Keys == q.entries.Keys
    requires forall k | k in p.entries :: q.entries[k].portName == p.entries[k].portName && q.entries[k].route == p.entries[k].route
    ensures Sound(q) && forall n :: CurrentHandlers(q, n) == CurrentHandlers(p, n)
  {
    assert forall n :: CurrentHandlers(q, n) == CurrentHandlers(p, n);
  }

  lemma RebindHeld(p: Proxy, key: string, stablePort: int, bind: string, name: string, pending: seq<Pending>)
    requires Held(p) && PendingHeld(p, name, pending) && key in p.entries
    ensures Held(Rebind(p, key, stablePort, bind)) && PendingHeld(Rebind(p, key, stablePort, bind), name, pending)
  {
  }

  lemma RebindLeaks(p: Proxy, key: string, stablePort: int, bind: string, pending: seq<Pending>)
    requires Held(p) && key in p.entries
    ensures NoLeak(p, pending) ==> NoLeak(Rebind(p, key, stablePort, bind), pending)
    ensures NoLeak(Rebind(p, key, stablePort, bind), []) ==> NoLeak(p, [])
  {
    var q := Rebind(p, key, stablePort, bind);
    assert forall id | id in q.open :: id == p.nextListener || (id in p.open && (HeldByEntry(p, id) ==> HeldByEntry(q, id)));
    assert forall id | id in p.open :: id == p.entries[key].listener || (id in q.open && (HeldByEntry(q, id) ==> HeldByEntry(p, id)));
    assert HeldByEntry(p, p.entries[key].listener) && HeldByEntry(q, p.nextListener);
  }

  lemma ListenHeld(p: Proxy, name: string, portName: string, stablePort: int, bind: string, pending: seq<Pending>)
    requires Held(p) && PendingHeld(p, name, pending)
    requires EntryKey(name, portName) !in p.entries
    requires forall x | 0 <= x < |pending| :: pending[x].portName != portName
    ensures var q := Listen(p, EntryKey(name, portName));
            Held(q) && PendingHeld(q, name, pending + [Pending(portName, Entry(stablePort, bind, portName, p.nextListener, 0))])
  {
  }

  /** What the loop leaves alone: routes, generations, other services' entries, and of this service's
      entries everything but where they listen. */
  ghost predicate LoopFrame(p: Proxy, q: Proxy, name: string) {
    && SameRoutes(p, q) && p.entries.Keys == q.entries.Keys && SameOutside(p, q, name)
    && (forall k | k in p.entries :: q.entries[k].portName == p.entries[k].portName && q.entries[k].route == p.entries[k].route)
  }

  ghost predicate PendingSound(p: Proxy, name: string, env: BindEnv, i: nat, pending: seq<Pending>)
    requires i <= |env.order|
  {
    Held(p) && PendingHeld(p, name, pending) && PendingFrom(env, i, pending)
  }

  lemma TurnHeld(p: Proxy, name: string, ports: map<string, int>, bind: string, env: BindEnv, i: nat, pending: seq<Pending>)
    requires ColonFree(name) && IsOrderOf(env.order, ports) && i < |env.order|
    requires PendingSound(p, name, env, i, pending)
    ensures var t := RegisterTurn(p, name, env.order[i], ports[env.order[i]], bind, env.order[i] in env.refused, pending);
            && Held(t.p) && LoopFrame(p, t.p, name)
            && (t.Next? ==> PendingSound(t.p, name, env, i + 1, t.pending))
  {
    var portName := env.order[i];
    var key := EntryKey(name, portName);
    assert env.order[..i + 1] == env.order[..i] + [portName];
    if key in p.entries {
      RebindHeld(p, key, ports[portName], bind, name, pending);
    } else if portName !in env.refused {
      ListenHeld(p, name, portName, ports[portName], bind, pending);
    }
  }

  lemma {:induction false} LoopKeeps(p: Proxy, name: string, ports: map<string, int>, bind: string, env: BindEnv, i: nat, pending: seq<Pending>)
    requires ColonFree(name) && IsOrderOf(env.order, ports) && i <= |env.order|
    requires PendingSound(p, name, env, i, pending)
    ensures var (q, r) := RegisterLoop(p, name, ports, bind, env, i, pending);
            && Held(q) && LoopFrame(p, q, name)
            && (r.Some? ==> PendingSound(q, name, env, |env.order|, r.value))
    decreases |env.order| - i
  {
    if i < |env.order| {
      TurnHeld(p, name, ports, bind, env, i, pending);
      var t := RegisterTurn(p, name, env.order[i], ports[env.order[i]], bind, env.order[i] in env.refused, pending);
      if t.Next? {
        LoopKeeps(t.p, name, ports, bind, env, i + 1, t.pending);
      }
    }
  }

  lemma DistinctKeys(name: string, a: string, b: string)
    requires ColonFree(name)
    ensures a != b ==> EntryKey(name, a) != EntryKey(name, b)
  {
    if EntryKey(name, a) == EntryKey(name, b) {
      EntryKeyInjective(name, a, name, b);
    }
  }

  ghost predicate IsPending(portName: string, stablePort: int, bind: string, pending: seq<Pending>) {
    exists x | 0 <= x < |pending| :: pending[x].portName == portName && pending[x].entry.stablePort == stablePort && pending[x].entry.bind == bind
  }

  ghost predicate Settled(p: Proxy, name: string, portName: string, stablePort: int, bind: string, pending: seq<Pending>)
  {
    var key := EntryKey(name, portName);
    if key in p.entries then p.entries[key].stablePort == stablePort && p.entries[key].bind == bind
    else IsPending(portName, stablePort, bind, pending)
  }

  /** A turn settles its own port and does not disturb the others. */
  lemma TurnSettles(p: Proxy, name: string, portName: string, stablePort: int, bind: string, refused: bool, pending: seq<Pending>)
    requires ColonFree(name)
    ensures var t := RegisterTurn(p, name, portName, stablePort, bind, refused, pending);
            t.Next? ==>
              && p.entries.Keys == t.p.entries.Keys && pending <= t.pending
              && Settled(t.p, name, portName, stablePort, bind, t.pending)
              && forall k | k in p.entries && k != EntryKey(name, portName) :: t.p.entries[k] == p.entries[k]
  {
    var t := RegisterTurn(p, name, portName, stablePort, bind, refused, pending);
    if EntryKey(name, portName) !in p.entries && t.Next? {
      assert t.pending[|pending|].portName == portName;
    }
  }

  lemma SettledStays(p: Proxy, m: Proxy, name: string, portName: string, stablePort: int, bind: string, pending: seq<Pending>, more: seq<Pending>)
    requires Settled(p, name, portName, stablePort, bind, pending)
    requires pending <= more && p.entries.Keys == m.entries.Keys
    requires EntryKey(name, portName) in p.entries ==> m.entries[EntryKey(name, portName)] == p.entries[EntryKey(name, portName)]
    ensures Settled(m, name, portName, stablePort, bind, more)
  {
    if EntryKey(name, portName) !in p.entries {
      var x :| 0 <= x < |pending| && pending[x].portName == portName && pending[x].entry.stablePort == stablePort && pending[x].entry.bind == bind;
      assert more[x] == pending[x];
    }
  }

  lemma TurnAgrees(p0: Proxy, p: Proxy, name: string, ports: map<string, int>, bind: string, env: BindEnv, i: nat, pending: seq<Pending>)
    requires ColonFree(name) && IsOrderOf(env.order, ports) && i < |env.order|
    requires AgreeFrom(p0, p, name, env, i)
    ensures var t := RegisterTurn(p, name, env.order[i], ports[env.order[i]], bind, env.order[i] in env.refused, pending);
            && (t.Next? <==> !Blocked(p0, name, ports, bind, env, i))
            && (t.Next? ==> AgreeFrom(p0, t.p, name, env, i + 1))
  {
    TurnSettles(p, name, env.order[i], ports[env.order[i]], bind, env.order[i] in env.refused, pending);
    forall j | i + 1 <= j < |env.order| ensures EntryKey(name, env.order[j]) != EntryKey(name, env.order[i]) {
      DistinctKeys(name, env.order[j], env.order[i]);
    }
  }

  /** The call succeeds exactly when no listen it has to make is refused, and then every requested
      port is either an entry as requested or pending. */
  lemma {:induction false} LoopOutcome(p0: Proxy, p: Proxy, name: string, ports: map<string, int>, bind: string, env: BindEnv, i: nat, pending: seq<Pending>)
    requires ColonFree(name) && IsOrderOf(env.order, ports) && i <= |env.order|
    requires AgreeFrom(p0, p, name, env, i)
    requires forall x | 0 <= x < i :: Settled(p, name, env.order[x], ports[env.order[x]], bind, pending)
    ensures var (q, r) := RegisterLoop(p, name, ports, bind, env, i, pending);
            && (r.Some? <==> FirstBlocked(p0, name, ports, bind, env, i) == |env.order|)
            && (r.Some? ==> forall x | 0 <= x < |env.order| :: Settled(q, name, env.order[x], ports[env.order[x]], bind, r.value))
    decreases |env.order| - i
  {
    if i < |env.order| {
      var portName := env.order[i];
      TurnAgrees(p0, p, name, ports, bind, env, i, pending);
      TurnSettles(p, name, portName, ports[portName], bind, portName in env.refused, pending);
      var t := RegisterTurn(p, name, portName, ports[portName], bind, portName in env.refused, pending);
      if t.Next? {
        forall x | 0 <= x < i + 1 ensures Settled(t.p, name, env.order[x], ports[env.order[x]], bind, t.pending) {
          if x < i {
            DistinctKeys(name, env.order[x], portName);
            SettledStays(p, t.p, name, env.order[x], ports[env.order[x]], bind, pending, t.pending);
          }
        }
        LoopOutcome(p0, t.p, name, ports, bind, env, i + 1, t.pending);
      }
    }
  }

  lemma ListenLeaks(p: Proxy, key: string, pending: seq<Pending>, portName: string, e: Entry)
    requires Held(p) && e.listener == p.nextListener
    ensures NoLeak(p, pending) ==> NoLeak(Listen(p, key), pending + [Pending(portName, e)])
  {
    var q, more := Listen(p, key), pending + [Pending(portName, e)];
    assert more[|pending|].entry.listener in PendingListeners(more);
    assert forall x | 0 <= x < |pending| :: more[x] == pending[x];
    assert forall id | id in PendingListeners(pending) :: id in PendingListeners(more);
    assert forall id | id in q.open && id != p.nextListener :: id in p.open && (HeldByEntry(p, id) ==> HeldByEntry(q, id));
  }

  lemma CloseLeaks(p: Proxy, pending: seq<Pending>)
    requires NoLeak(p, pending)
    ensures NoLeak(p.(open := p.open - PendingListeners(pending)), [])
  {
    var q := p.(open := p.open - PendingListeners(pending));
    assert forall id | id in q.open :: id in p.open && (HeldByEntry(p, id) ==> HeldByEntry(q, id));
  }

  lemma TurnLeaks(p: Proxy, name: string, portName: string, stablePort: int, bind: string, refused: bool, pending: seq<Pending>)
    requires Held(p) && PendingHeld(p, name, pending) && NoLeak(p, pending)
    ensures var t := RegisterTurn(p, name, portName, stablePort, bind, refused, pending);
            && (t.Next? ==> NoLeak(t.p, t.pending))
            && (t.Next? ==> (t.pending != [] <==> pending != [] || EntryKey(name, portName) !in p.entries))
            && (t.Refused? ==> (NoLeak(t.p, []) <==> !(EntryKey(name, portName) in p.entries && pending != [])))
  {
    var key := EntryKey(name, portName);
    if key in p.entries {
      RebindLeaks(p, key, stablePort, bind, pending);
      if pending != [] {
        assert !HeldByEntry(p, pending[0].entry.listener);
      } else {
        assert PendingListeners(pending) == {};
      }
    } else if refused {
      CloseLeaks(p, pending);
    } else {
      ListenLeaks(p, key, pending, portName, Entry(stablePort, bind, portName, p.nextListener, 0));
    }
  }

  lemma StopsShift(p: Proxy, name: string, ports: map<string, int>, bind: string, env: BindEnv, i: nat, pending: seq<Pending>, more: seq<Pending>)
    requires i < |env.order| && forall k | k in env.order :: k in ports
    requires !Blocked(p, name, ports, bind, env, i)
    requires more != [] <==> pending != [] || EntryKey(name, env.order[i]) !in p.entries
    ensures StopsAtRebind(p, name, ports, bind, env, i, pending) <==> StopsAtRebind(p, name, ports, bind, env, i + 1, more)
  {
  }

  /** A failing call releases what it opened, except when it stops at a re-bind with ports pending. */
  lemma {:induction false} LoopLeaks(p0: Proxy, p: Proxy, name: string, ports: map<string, int>, bind: string, env: BindEnv, i: nat, pending: seq<Pending>)
    requires ColonFree(name) && IsOrderOf(env.order, ports) && i <= |env.order|
    requires AgreeFrom(p0, p, name, env, i)
    requires PendingSound(p, name, env, i, pending) && NoLeak(p, pending)
    ensures var (q, r) := RegisterLoop(p, name, ports, bind, env, i, pending);
            && (r.Some? ==> NoLeak(q, r.value))
            && (r.None? ==> (NoLeak(q, []) <==> !StopsAtRebind(p0, name, ports, bind, env, i, pending)))
    decreases |env.order| - i
  {
    if i < |env.order| {
      var portName := env.order[i];
      TurnHeld(p, name, ports, bind, env, i, pending);
      TurnAgrees(p0, p, name, ports, bind, env, i, pending);
      TurnLeaks(p, name, portName, ports[portName], bind, portName in env.refused, pending);
      var t := RegisterTurn(p, name, portName, ports[portName], bind, portName in env.refused, pending);
      if t.Next? {
        LoopLeaks(p0, t.p, name, ports, bind, env, i + 1, t.pending);
        StopsShift(p0, name, ports, bind, env, i, pending, t.pending);
      }
    }
  }

  /** The entry of the j-th port is there already and listens as requested. */
  ghost predicate AsRequested(p: Proxy, name: string, ports: map<string, int>, bind: string, env: BindEnv, j: nat)
    requires j < |env.order| && env.order[j] in ports
  {
    var key := EntryKey(name, env.order[j]);
    key in p.entries && p.entries[key].stablePort == ports[env.order[j]] && p.entries[key].bind == bind
  }

  /** The entry of the j-th port has to listen somewhere else. */
  ghost predicate Moves(p: Proxy, name: string, ports: map<string, int>, bind: string, env: BindEnv, j: nat)
    requires j < |env.order| && env.order[j] in ports
  {
    EntryKey(name, env.order[j]) in p.entries && !AsRequested(p, name, ports, bind, env, j)
  }

  /** So has one before the first refused listen call. */
  ghost predicate MovesAny(p: Proxy, name: string, ports: map<string, int>, bind: string, env: BindEnv)
    requires IsOrderOf(env.order, ports)
  {
    exists j :: 0 <= j < FirstBlocked(p, name, ports, bind, env, 0) && Moves(p, name, ports, bind, env, j)
  }

  /** The existing entries of the first `n` ports listen as requested, those that did so already are
      untouched, and so are all others. */
  ghost predicate MovedUpTo(p: Proxy, q: Proxy, name: string, ports: map<string, int>, bind: string, env: BindEnv, n: nat)
    requires n <= |env.order| && forall k | k in env.order :: k in ports
  {
    && p.entries.Keys <= q.entries.Keys
    && (forall x | 0 <= x < n && EntryKey(name, env.order[x]) in p.entries ::
          AsRequested(q, name, ports, bind, env, x) && (AsRequested(p, name, ports, bind, env, x) ==> q.entries[EntryKey(name, env.order[x])] == p.entries[EntryKey(name, env.order[x])]))
    && (forall k | k in p.entries && k !in Handled(name, env, n) :: q.entries[k] == p.entries[k])
  }

  /** The keys of the first `n` ports. */
  ghost function Handled(name: string, env: BindEnv, n: nat): set<string>
    requires n <= |env.order|
  {
    set x | 0 <= x < n :: EntryKey(name, env.order[x])
  }

  lemma HandledNext(name: string, env: BindEnv, i: nat)
    requires i < |env.order|
    ensures Handled(name, env, i + 1) == Handled(name, env, i) + {EntryKey(name, env.order[i])}
  {
    hide EntryKey;
  }

  lemma TurnShape(p: Proxy, name: string, ports: map<string, int>, bind: string, env: BindEnv, i: nat, pending: seq<Pending>)
    requires IsOrderOf(env.order, ports) && i < |env.order|
    ensures var t := RegisterTurn(p, name, env.order[i], ports[env.order[i]], bind, env.order[i] in env.refused, pending);
            var key := EntryKey(name, env.order[i]);
            && t.p.entries.Keys == p.entries.Keys
            && (forall k | k in p.entries && k != key :: t.p.entries[k] == p.entries[k])
            && (t.Refused? ==> t.p.entries == p.entries)
            && (t.Next? && key in p.entries ==> AsRequested(t.p, name, ports, bind, env, i))
            && (AsRequested(p, name, ports, bind, env, i) ==> t.p.entries == p.entries)
  {
    hide EntryKey;
  }

  lemma RequestedSame(p: Proxy, q: Proxy, name: string, ports: map<string, int>, bind: string, env: BindEnv, x: nat)
    requires IsOrderOf(env.order, ports) && x < |env.order| && EntryKey(name, env.order[x]) in p.entries
    requires EntryKey(name, env.order[x]) in q.entries && q.entries[EntryKey(name, env.order[x])] == p.entries[EntryKey(name, env.order[x])]
    ensures AsRequested(q, name, ports, bind, env, x) <==> AsRequested(p, name, ports, bind, env, x)
  {
  }

  lemma TurnMoves(p0: Proxy, p: Proxy, name: string, ports: map<string, int>, bind: string, env: BindEnv, i: nat, pending: seq<Pending>)
    requires ColonFree(name) && IsOrderOf(env.order, ports) && i < |env.order|
    requires p0.entries.Keys == p.entries.Keys && MovedUpTo(p0, p, name, ports, bind, env, i)
    ensures var t := RegisterTurn(p, name, env.order[i], ports[env.order[i]], bind, env.order[i] in env.refused, pending);
            && t.p.entries.Keys == p.entries.Keys
            && (t.Next? ==> MovedUpTo(p0, t.p, name, ports, bind, env, i + 1))
            && (t.Refused? ==> t.p.entries == p.entries)
  {
    hide EntryKey, RegisterTurn, AsRequested, Handled;
    HandledNext(name, env, i);
    var t := RegisterTurn(p, name, env.order[i], ports[env.order[i]], bind, env.order[i] in env.refused, pending);
    TurnShape(p, name, ports, bind, env, i, pending);
    var key := EntryKey(name, env.order[i]);
    if t.Next? {
      EarlierStay(p0, p, t.p, name, ports, bind, env, i);
      if key in p.entries {
        KeyUntouched(p0, p, name, ports, bind, env, i);
        RequestedSame(p0, p, name, ports, bind, env, i);
      }
    }
  }

  lemma EarlierStay(p0: Proxy, p: Proxy, q: Proxy, name: string, ports: map<string, int>, bind: string, env: BindEnv, i: nat)
    requires ColonFree(name) && IsOrderOf(env.order, ports) && i < |env.order|
    requires p0.entries.Keys == p.entries.Keys == q.entries.Keys && MovedUpTo(p0, p, name, ports, bind, env, i)
    requires forall k | k in p.entries && k != EntryKey(name, env.order[i]) :: q.entries[k] == p.entries[k]
    ensures forall x | 0 <= x < i && EntryKey(name, env.order[x]) in p.entries ::
              && AsRequested(q, name, ports, bind, env, x)
              && EntryKey(name, env.order[x]) != EntryKey(name, env.order[i])
              && (AsRequested(p0, name, ports, bind, env, x) ==> q.entries[EntryKey(name, env.order[x])] == p0.entries[EntryKey(name, env.order[x])])
  {
    hide EntryKey, AsRequested;
    forall x | 0 <= x < i && EntryKey(name, env.order[x]) in p.entries
      ensures EntryKey(name, env.order[x]) != EntryKey(name, env.order[i]) && AsRequested(q, name, ports, bind, env, x)
    {
      DistinctKeys(name, env.order[x], env.order[i]);
      RequestedSame(p, q, name, ports, bind, env, x);
    }
  }

  lemma KeyUntouched(p0: Proxy, p: Proxy, name: string, ports: map<string, int>, bind: string, env: BindEnv, i: nat)
    requires ColonFree(name) && IsOrderOf(env.order, ports) && i < |env.order|
    requires MovedUpTo(p0, p, name, ports, bind, env, i) && EntryKey(name, env.order[i]) in p0.entries
    ensures p.entries[EntryKey(name, env.order[i])] == p0.entries[EntryKey(name, env.order[i])]
  {
    hide EntryKey, AsRequested;
    forall x | 0 <= x < i ensures EntryKey(name, env.order[x]) != EntryKey(name, env.order[i]) {
      DistinctKeys(name, env.order[x], env.order[i]);
    }
  }

  lemma {:induction false} LoopMoves(p0: Proxy, p: Proxy, name: string, ports: map<string, int>, bind: string, env: BindEnv, i: nat, pending: seq<Pending>)
    requires ColonFree(name) && IsOrderOf(env.order, ports) && i <= |env.order|
    requires AgreeFrom(p0, p, name, env, i) && MovedUpTo(p0, p, name, ports, bind, env, i)
    ensures var (q, r) := RegisterLoop(p, name, ports, bind, env, i, pending);
            && q.entries.Keys == p0.entries.Keys
            && MovedUpTo(p0, q, name, ports, bind, env, FirstBlocked(p0, name, ports, bind, env, i))
    decreases |env.order| - i
  {
    hide MovedUpTo, RegisterTurn, EntryKey;
    if i < |env.order| {
      TurnAgrees(p0, p, name, ports, bind, env, i, pending);
      TurnMoves(p0, p, name, ports, bind, env, i, pending);
      var t := RegisterTurn(p, name, env.order[i], ports[env.order[i]], bind, env.order[i] in env.refused, pending);
      if t.Next? {
        LoopMoves(p0, t.p, name, ports, bind, env, i + 1, t.pending);
      } else {
        MovedSame(p0, p, t.p, name, ports, bind, env, i);
      }
    }
  }

  lemma MovedSame(p0: Proxy, p: Proxy, q: Proxy, name: string, ports: map<string, int>, bind: string, env: BindEnv, n: nat)
    requires n <= |env.order| && forall k | k in env.order :: k in ports
    requires MovedUpTo(p0, p, name, ports, bind, env, n) && q.entries == p.entries
    ensures MovedUpTo(p0, q, name, ports, bind, env, n)
  {
  }

  // ---- Registering: the commit ----

  ghost predicate IsPendingKey(name: string, pending: seq<Pending>, k: string) {
    exists i | 0 <= i < |pending| :: k == EntryKey(name, pending[i].portName)
  }

  lemma {:induction false} AddPendingAt(entries: map<string, Entry>, name: string, route: nat, pending: seq<Pending>)
    requires ColonFree(name)
    requires forall i, j | 0 <= i < j < |pending| :: pending[i].portName != pending[j].portName
    ensures var q := AddPending(entries, name, route, pending);
            && (forall i | 0 <= i < |pending| :: EntryKey(name, pending[i].portName) in q
                  && q[EntryKey(name, pending[i].portName)] == pending[i].entry.(route := route))
            && (forall k | !IsPendingKey(name, pending, k) :: (k in q <==> k in entries) && (k in q ==> q[k] == entries[k]))
  {
    if pending != [] {
      hide EntryKey, IsPendingKey;
      var front, last := pending[..|pending| - 1], pending[|pending| - 1];
      AddPendingAt(entries, name, route, front);
      var before, q := AddPending(entries, name, route, front), AddPending(entries, name, route, pending);
      assert q == before[EntryKey(name, last.portName) := last.entry.(route := route)];
      forall i | 0 <= i < |pending|
        ensures EntryKey(name, pending[i].portName) in q && q[EntryKey(name, pending[i].portName)] == pending[i].entry.(route := route)
      {
        if i < |front| {
          assert front[i] == pending[i];
          DistinctKeys(name, front[i].portName, last.portName);
        }
      }
      forall k | !IsPendingKey(name, pending, k) ensures (k in q <==> k in entries) && (k in q ==> q[k] == entries[k]) {
        NotPendingBefore(name, pending, k);
      }
    }
  }

  lemma NotPendingBefore(name: string, pending: seq<Pending>, k: string)
    requires pending != [] && !IsPendingKey(name, pending, k)
    ensures !IsPendingKey(name, pending[..|pending| - 1], k) && k != EntryKey(name, pending[|pending| - 1].portName)
  {
    hide EntryKey;
    assert forall i | 0 <= i < |pending| - 1 :: pending[..|pending| - 1][i] == pending[i];
  }

  ghost predicate ReadyToCommit(p: Proxy, name: string, pending: seq<Pending>) {
    ColonFree(name) && Sound(p) && PendingHeld(p, name, pending)
  }

  lemma CommitEntries(p: Proxy, name: string, pending: seq<Pending>)
    requires ReadyToCommit(p, name, pending)
    ensures var q := Commit(p, name, pending);
            && name in q.routes
            && (forall i | 0 <= i < |pending| :: EntryKey(name, pending[i].portName) in q.entries
                  && q.entries[EntryKey(name, pending[i].portName)] == pending[i].entry.(route := q.routes[name]))
            && (forall k | k in p.entries :: k in q.entries && q.entries[k] == p.entries[k])
            && (forall k | k in q.entries :: k in p.entries || IsPendingKey(name, pending, k))
  {
    var route := if name in p.routes then p.routes[name] else p.nextRoute;
    AddPendingAt(p.entries, name, route, pending);
  }

  lemma CommitRoutes(p: Proxy, name: string, pending: seq<Pending>)
    requires RoutesSound(p)
    ensures var q := Commit(p, name, pending);
            && q.published == p.published + [Generation(name, CurrentHandlers(p, name) + StartingHandlers(pending))]
            && CurrentHandlers(q, name) == CurrentHandlers(p, name) + StartingHandlers(pending)
            && q.routes.Keys == p.routes.Keys + {name}
            && (forall n | n in p.routes :: q.routes[n] == p.routes[n])
            && (forall n | n != name :: CurrentHandlers(q, n) == CurrentHandlers(p, n))
  {
    hide AddPending, StartingHandlers;
    var q := Commit(p, name, pending);
    assert q.current[q.routes[name]] == |p.published|;
    forall n | n != name ensures CurrentHandlers(q, n) == CurrentHandlers(p, n) {
      if n in p.routes {
        assert q.routes[n] == p.routes[n] != q.routes[name];
        assert q.published[p.current[p.routes[n]]] == p.published[p.current[p.routes[n]]];
      }
    }
  }

  lemma CommitRoutesOfSound(p: Proxy, name: string, pending: seq<Pending>)
    requires Sound(p)
    ensures forall n | n in p.routes :: n in Commit(p, name, pending).routes && Commit(p, name, pending).routes[n] == p.routes[n]
  {
  }

  lemma CommitSound(p: Proxy, name: string, pending: seq<Pending>)
    requires ReadyToCommit(p, name, pending)
    ensures Sound(Commit(p, name, pending))
  {
    var q := Commit(p, name, pending);
    CommitEntries(p, name, pending);
    CommitRoutes(p, name, pending);
    forall k | k in q.entries
      ensures k == EntryKey(Owner(k), q.entries[k].portName) && Owner(k) in q.routes
           && q.entries[k].route == q.routes[Owner(k)] && q.entries[k].portName in CurrentHandlers(q, Owner(k))
    {
      if k !in p.entries {
        var i :| 0 <= i < |pending| && k == EntryKey(name, pending[i].portName);
        assert pending[i].portName in StartingHandlers(pending);
      }
    }
    CommitRouteTable(p, name, pending);
  }

  lemma CommitRouteTable(p: Proxy, name: string, pending: seq<Pending>)
    requires ColonFree(name) && RoutesSound(p)
    ensures RoutesSound(Commit(p, name, pending))
  {
    hide AddPending, StartingHandlers, CurrentHandlers;
    var q := Commit(p, name, pending);
    CommitShape(p, name, pending);
    hide Commit;
    assert forall n | n in q.routes && n != name :: n in p.routes && q.routes[n] == p.routes[n] && q.routes[n] != q.routes[name];
  }

  lemma CommitShape(p: Proxy, name: string, pending: seq<Pending>)
    ensures var q := Commit(p, name, pending);
            var route := if name in p.routes then p.routes[name] else p.nextRoute;
            && q.routes == p.routes[name := route]
            && q.nextRoute == (if name in p.routes then p.nextRoute else p.nextRoute + 1)
            && q.current == p.current[route := |p.published|]
            && |q.published| == |p.published| + 1 && q.published[..|p.published|] == p.published && q.published[|p.published|].service == name
  {
    hide AddPending, StartingHandlers, CurrentHandlers;
    assert name in p.routes ==> p.routes == p.routes[name := p.routes[name]];
  }

  lemma CommitHeld(p: Proxy, name: string, pending: seq<Pending>)
    requires ReadyToCommit(p, name, pending) && Held(p)
    ensures Held(Commit(p, name, pending))
    ensures NoLeak(p, pending) ==> NoLeak(Commit(p, name, pending), [])
  {
    hide Commit, Sound, EntryKey, IsPendingKey;
    var q := Commit(p, name, pending);
    CommitEntries(p, name, pending);
    CommitListeners(p, name, pending);
    forall k | k in q.entries ensures q.entries[k].listener in q.open && q.open[q.entries[k].listener] == k {
      if k !in p.entries {
        assert IsPendingKey(name, pending, k);
        var i := PendingIndex(name, pending, k);
        assert q.entries[k] == pending[i].entry.(route := q.routes[name]);
      }
    }
    if NoLeak(p, pending) {
      CommitNoLeak(p, name, pending);
    }
  }

  ghost function PendingIndex(name: string, pending: seq<Pending>, k: string): (i: nat)
    requires IsPendingKey(name, pending, k)
    ensures i < |pending| && k == EntryKey(name, pending[i].portName)
  {
    var i :| 0 <= i < |pending| && k == EntryKey(name, pending[i].portName);
    i
  }

  lemma CommitListeners(p: Proxy, name: string, pending: seq<Pending>)
    ensures var q := Commit(p, name, pending);
            q.open == p.open && q.nextListener == p.nextListener
  {
  }

  lemma CommitNoLeak(p: Proxy, name: string, pending: seq<Pending>)
    requires ReadyToCommit(p, name, pending) && NoLeak(p, pending)
    ensures NoLeak(Commit(p, name, pending), [])
  {
    hide Commit, Sound, EntryKey, IsPendingKey;
    var q := Commit(p, name, pending);
    CommitEntries(p, name, pending);
    CommitListeners(p, name, pending);
    forall id | id in q.open ensures HeldByEntry(q, id) {
      if !HeldByEntry(p, id) {
        var i :| 0 <= i < |pending| && pending[i].entry.listener == id;
        assert q.open[id] == EntryKey(name, pending[i].portName);
        assert q.entries[EntryKey(name, pending[i].portName)] == pending[i].entry.(route := q.routes[name]);
      }
    }
  }

  // ---- The operations ----

  /** The requested port names that have no listener yet. */
  ghost function Fresh(p: Proxy, name: string, ports: map<string, int>): set<string> {
    set k | k in ports && EntryKey(name, k) !in p.entries
  }

  function AllStarting(names: set<string>): Handlers {
    map k | k in names :: Starting
  }

  lemma PendingNames(p: Proxy, q: Proxy, name: string, ports: map<string, int>, bind: string, env: BindEnv, pending: seq<Pending>)
    requires ColonFree(name) && IsOrderOf(env.order, ports)
    requires p.entries.Keys == q.entries.Keys && PendingSound(q, name, env, |env.order|, pending)
    requires forall x | 0 <= x < |env.order| :: Settled(q, name, env.order[x], ports[env.order[x]], bind, pending)
    ensures StartingHandlers(pending) == AllStarting(Fresh(p, name, ports))
    ensures pending == [] <==> Fresh(p, name, ports) == {}
  {
    assert env.order[..|env.order|] == env.order;
    forall k | k in Fresh(p, name, ports) ensures exists i | 0 <= i < |pending| :: pending[i].portName == k {
      var x :| 0 <= x < |env.order| && env.order[x] == k;
      assert Settled(q, name, env.order[x], ports[env.order[x]], bind, pending);
    }
    forall i | 0 <= i < |pending| ensures pending[i].portName in Fresh(p, name, ports) {
      assert pending[i].portName in env.order;
    }
    if pending != [] {
      assert pending[0].portName in Fresh(p, name, ports);
    }
  }

  /** The state between the loop and the commit. */
  lemma AfterLoop(p: Proxy, name: string, ports: map<string, int>, bind: string, env: BindEnv)
    requires ColonFree(name) && IsOrderOf(env.order, ports)
    requires Sound(p) && Held(p)
    ensures var (m, r) := RegisterLoop(p, name, ports, bind, env, 0, []);
            && Sound(m) && Held(m) && LoopFrame(p, m, name)
            && (forall n :: CurrentHandlers(m, n) == CurrentHandlers(p, n))
            && (r.Some? ==>
                  && ReadyToCommit(m, name, r.value)
                  && StartingHandlers(r.value) == AllStarting(Fresh(p, name, ports))
                  && (r.value == [] <==> Fresh(p, name, ports) == {}))
  {
    var (m, r) := RegisterLoop(p, name, ports, bind, env, 0, []);
    LoopKeeps(p, name, ports, bind, env, 0, []);
    SoundCarries(p, m);
    if r.Some? {
      LoopOutcome(p, p, name, ports, bind, env, 0, []);
      PendingNames(p, m, name, ports, bind, env, r.value);
    }
  }

  /** Registering keeps the table sound and publishes at most one generation, in which new ports get
      the "starting" answer and every existing port its old one; a failing call publishes nothing. */
  lemma RegisterKeeps(p: Proxy, name: string, ports: map<string, int>, bind: string, env: BindEnv)
    requires ColonFree(name) && IsOrderOf(env.order, ports)
    requires Sound(p) && Held(p)
    ensures var (q, ok) := Register(p, name, ports, bind, env);
            var next := CurrentHandlers(p, name) + AllStarting(Fresh(p, name, ports));
            && Sound(q) && Held(q)
            && (!ok ==> SameRoutes(p, q) && q.entries.Keys == p.entries.Keys)
            && q.published == p.published + (if ok && Fresh(p, name, ports) != {} then [Generation(name, next)] else [])
            && CurrentHandlers(q, name) == (if ok then next else CurrentHandlers(p, name))
  {
    hide Sound, Held, RegisterLoop, RegisterTurn, Commit, PendingHeld, SameOutside, StartingHandlers, Fresh, CurrentHandlers;
    if env.addressOk {
      AfterLoop(p, name, ports, NormalBind(bind), env);
      var (m, r) := RegisterLoop(p, name, ports, NormalBind(bind), env, 0, []);
      if r.Some? && r.value != [] {
        CommitSound(m, name, r.value);
        CommitHeld(m, name, r.value);
        CommitRoutes(m, name, r.value);
      } else if r.Some? {
        assert AllStarting({}) == map[];
      }
    }
  }

  /** Success means every requested port listens as requested; it happens exactly when the address is
      acceptable and no listen that has to be made is refused. */
  lemma RegisterOutcome(p: Proxy, name: string, ports: map<string, int>, bind: string, env: BindEnv)
    requires ColonFree(name) && IsOrderOf(env.order, ports)
    requires Sound(p) && Held(p)
    ensures var (q, ok) := Register(p, name, ports, bind, env);
            && (ok <==> env.addressOk && FirstBlocked(p, name, ports, NormalBind(bind), env, 0) == |env.order|)
            && (ok ==> forall k | k in ports :: Registered(q, name, k, ports[k], NormalBind(bind)))
  {
    hide Sound, Held, RegisterTurn, RegisterLoop, Commit, PendingHeld, LoopFrame;
    if env.addressOk {
      var b := NormalBind(bind);
      var (m, r) := RegisterLoop(p, name, ports, b, env, 0, []);
      AfterLoop(p, name, ports, b, env);
      LoopOutcome(p, p, name, ports, b, env, 0, []);
      if r.Some? {
        forall k | k in ports
          ensures Registered(if r.value == [] then m else Commit(m, name, r.value), name, k, ports[k], b)
        {
          var x :| 0 <= x < |env.order| && env.order[x] == k;
          assert Settled(m, name, env.order[x], ports[env.order[x]], b, r.value);
          CommitRegisters(m, name, r.value, k, ports[k], b);
        }
      }
    }
  }

  /** What becomes of the existing entries: those of the ports before the first refused listen call end up
      as requested, all others are untouched. */
  lemma RegisterMoves(p: Proxy, name: string, ports: map<string, int>, bind: string, env: BindEnv)
    requires ColonFree(name) && IsOrderOf(env.order, ports)
    requires Sound(p) && Held(p) && env.addressOk
    ensures var b := NormalBind(bind);
            var (q, ok) := Register(p, name, ports, bind, env);
            && MovedUpTo(p, q, name, ports, b, env, FirstBlocked(p, name, ports, b, env, 0))
            && (!ok ==> q.entries.Keys == p.entries.Keys)
  {
    hide Sound, Held, RegisterTurn, RegisterLoop, Commit, PendingHeld, LoopFrame, EntryKey, FirstBlocked, MovedUpTo;
    var b := NormalBind(bind);
    var (m, r) := RegisterLoop(p, name, ports, b, env, 0, []);
    AfterLoop(p, name, ports, b, env);
    NothingMoved(p, name, ports, b, env);
    LoopMoves(p, p, name, ports, b, env, 0, []);
    if r.Some? && r.value != [] {
      CommitEntries(m, name, r.value);
      MovedGrows(p, m, Commit(m, name, r.value), name, ports, b, env, FirstBlocked(p, name, ports, b, env, 0));
    }
  }

  lemma NothingMoved(p: Proxy, name: string, ports: map<string, int>, bind: string, env: BindEnv)
    requires IsOrderOf(env.order, ports)
    ensures MovedUpTo(p, p, name, ports, bind, env, 0) && AgreeFrom(p, p, name, env, 0)
  {
  }

  lemma MovedGrows(p: Proxy, m: Proxy, q: Proxy, name: string, ports: map<string, int>, bind: string, env: BindEnv, n: nat)
    requires IsOrderOf(env.order, ports) && n <= |env.order| && p.entries.Keys == m.entries.Keys
    requires MovedUpTo(p, m, name, ports, bind, env, n)
    requires forall k | k in m.entries :: k in q.entries && q.entries[k] == m.entries[k]
    ensures MovedUpTo(p, q, name, ports, bind, env, n)
  {
    hide EntryKey, AsRequested;
    forall x | 0 <= x < n && EntryKey(name, env.order[x]) in p.entries ensures AsRequested(q, name, ports, bind, env, x) {
      RequestedSame(m, q, name, ports, bind, env, x);
    }
  }

  /** A failed call is undone only in part: the re-binds before the refused one stay. So it leaves the
      entries as they were, if and only if no port before that one had to move. */
  lemma FailedRegisterExact(p: Proxy, name: string, ports: map<string, int>, bind: string, env: BindEnv)
    requires ColonFree(name) && IsOrderOf(env.order, ports)
    requires Sound(p) && Held(p) && !Register(p, name, ports, bind, env).1
    ensures Register(p, name, ports, bind, env).0.entries == p.entries <==> !(env.addressOk && MovesAny(p, name, ports, NormalBind(bind), env))
  {
    hide Sound, Held, Register, EntryKey, FirstBlocked;
    if env.addressOk {
      RegisterMoves(p, name, ports, bind, env);
      var b := NormalBind(bind);
      var f, q := FirstBlocked(p, name, ports, b, env, 0), Register(p, name, ports, bind, env).0;
      if MovesAny(p, name, ports, b, env) {
        var j :| 0 <= j < f && Moves(p, name, ports, b, env, j);
        assert AsRequested(q, name, ports, b, env, j);
      } else {
        forall k | k in p.entries ensures q.entries[k] == p.entries[k] {
          Unmoved(p, q, name, ports, b, env, f, k);
        }
      }
    } else {
      BadAddress(p, name, ports, bind, env);
    }
  }

  lemma Unmoved(p: Proxy, q: Proxy, name: string, ports: map<string, int>, bind: string, env: BindEnv, n: nat, k: string)
    requires IsOrderOf(env.order, ports) && n <= |env.order| && MovedUpTo(p, q, name, ports, bind, env, n) && k in p.entries
    requires forall j | 0 <= j < n :: !Moves(p, name, ports, bind, env, j)
    ensures q.entries[k] == p.entries[k]
  {
    hide EntryKey, AsRequested;
    if k in Handled(name, env, n) {
      var x :| 0 <= x < n && k == EntryKey(name, env.order[x]);
      assert !Moves(p, name, ports, bind, env, x);
    }
  }

  /** Where a port of the service listens after the call: where it did before, or as requested. */
  lemma RegisterEntry(p: Proxy, name: string, ports: map<string, int>, bind: string, env: BindEnv, portName: string)
    requires ColonFree(name) && IsOrderOf(env.order, ports)
    requires Sound(p) && Held(p)
    ensures var (q, key) := (Register(p, name, ports, bind, env).0, EntryKey(name, portName));
            key in q.entries ==>
              || (key in p.entries && q.entries[key] == p.entries[key])
              || (portName in ports && q.entries[key].stablePort == ports[portName])
  {
    hide Sound, Held, Register, EntryKey, FirstBlocked;
    var b := NormalBind(bind);
    var (q, key) := (Register(p, name, ports, bind, env).0, EntryKey(name, portName));
    if !env.addressOk {
      BadAddress(p, name, ports, bind, env);
    } else if key in p.entries {
      RegisterMoves(p, name, ports, bind, env);
      var f := FirstBlocked(p, name, ports, b, env, 0);
      if key in Handled(name, env, f) {
        var x :| 0 <= x < f && key == EntryKey(name, env.order[x]);
        DistinctKeys(name, portName, env.order[x]);
        assert AsRequested(q, name, ports, b, env, x);
      }
    } else if key in q.entries {
      RegisterMoves(p, name, ports, bind, env);
      RegisterOutcome(p, name, ports, bind, env);
      RegisterAdds(p, name, ports, bind, env, portName);
      assert Registered(q, name, portName, ports[portName], b);
    }
  }

  lemma RegisterAdds(p: Proxy, name: string, ports: map<string, int>, bind: string, env: BindEnv, portName: string)
    requires ColonFree(name) && IsOrderOf(env.order, ports) && Sound(p) && Held(p)
    requires EntryKey(name, portName) !in p.entries && EntryKey(name, portName) in Register(p, name, ports, bind, env).0.entries
    ensures portName in ports
  {
    hide Sound, Held, RegisterTurn, RegisterLoop, Commit, PendingHeld, LoopFrame, EntryKey;
    var b := NormalBind(bind);
    var (m, r) := RegisterLoop(p, name, ports, b, env, 0, []);
    AfterLoop(p, name, ports, b, env);
    assert PendingSound(p, name, env, 0, []) by { NothingPending(p, name, env); }
    LoopKeeps(p, name, ports, b, env, 0, []);
    SameKeys(p, m, name);
    CommitEntries(m, name, r.value);
    var i :| 0 <= i < |r.value| && EntryKey(name, portName) == EntryKey(name, r.value[i].portName);
    DistinctKeys(name, portName, r.value[i].portName);
    assert r.value[i].portName in env.order[..|env.order|];
  }

  lemma NothingPending(p: Proxy, name: string, env: BindEnv)
    requires Held(p)
    ensures PendingSound(p, name, env, 0, [])
  {
  }

  lemma SameKeys(p: Proxy, q: Proxy, name: string)
    requires LoopFrame(p, q, name)
    ensures p.entries.Keys == q.entries.Keys
  {
  }

  lemma BadAddress(p: Proxy, name: string, ports: map<string, int>, bind: string, env: BindEnv)
    requires IsOrderOf(env.order, ports) && !env.addressOk
    ensures Register(p, name, ports, bind, env) == (p, false)
  {
  }

  lemma CommitRegisters(p: Proxy, name: string, pending: seq<Pending>, portName: string, stablePort: int, bind: string)
    requires ReadyToCommit(p, name, pending) && Settled(p, name, portName, stablePort, bind, pending)
    ensures Registered(if pending == [] then p else Commit(p, name, pending), name, portName, stablePort, bind)
  {
    CommitEntries(p, name, pending);
  }

  ghost predicate Registered(p: Proxy, name: string, portName: string, stablePort: int, bind: string) {
    var key := EntryKey(name, portName);
    key in p.entries && p.entries[key].stablePort == stablePort && p.entries[key].bind == bind
  }

  /** No call takes an entry away; a failing one adds none either. */
  lemma RegisterGrows(p: Proxy, name: string, ports: map<string, int>, bind: string, env: BindEnv)
    requires ColonFree(name) && IsOrderOf(env.order, ports)
    requires Sound(p) && Held(p)
    ensures var (q, ok) := Register(p, name, ports, bind, env);
            && p.entries.Keys <= q.entries.Keys
            && (forall k | k in p.routes :: k in q.routes && q.routes[k] == p.routes[k])
  {
    hide Sound, Held, RegisterTurn, RegisterLoop, Commit, PendingHeld, EntryKey;
    if env.addressOk {
      AfterLoop(p, name, ports, NormalBind(bind), env);
      var (m, r) := RegisterLoop(p, name, ports, NormalBind(bind), env, 0, []);
      if r.Some? {
        CommitEntries(m, name, r.value);
        CommitRoutesOfSound(m, name, r.value);
      }
    }
  }

  /** Listener conservation: if nothing was leaked before the call, nothing is leaked after it, with
      one exception that can be read off before the call - a refused re-bind behind a new port. */
  lemma RegisterConserves(p: Proxy, name: string, ports: map<string, int>, bind: string, env: BindEnv)
    requires ColonFree(name) && IsOrderOf(env.order, ports)
    requires Sound(p) && Held(p) && NoLeak(p, [])
    ensures var (q, ok) := Register(p, name, ports, bind, env);
            NoLeak(q, []) <==> !(env.addressOk && StopsAtRebind(p, name, ports, NormalBind(bind), env, 0, []))
  {
    if env.addressOk {
      var b := NormalBind(bind);
      var (m, r) := RegisterLoop(p, name, ports, b, env, 0, []);
      LoopKeeps(p, name, ports, b, env, 0, []);
      LoopOutcome(p, p, name, ports, b, env, 0, []);
      LoopLeaks(p, p, name, ports, b, env, 0, []);
      SoundCarries(p, m);
      if r.Some? && r.value != [] {
        CommitHeld(m, name, r.value);
      }
    }
  }

  /** Other services keep their entries, their route and their handlers. */
  lemma RegisterIsolated(p: Proxy, name: string, ports: map<string, int>, bind: string, env: BindEnv, other: string)
    requires ColonFree(name) && IsOrderOf(env.order, ports) && other != name
    requires Sound(p) && Held(p)
    ensures SameService(p, Register(p, name, ports, bind, env).0, other)
  {
    hide Sound, Held, RegisterLoop, Commit, CurrentHandlers, EntryKey, PendingSound;
    if env.addressOk {
      var b := NormalBind(bind);
      var (m, r) := RegisterLoop(p, name, ports, b, env, 0, []);
      AfterLoop(p, name, ports, b, env);
      LoopIsolated(p, name, ports, b, env, other);
      if r.Some? && r.value != [] {
        CommitIsolated(m, name, r.value, other);
      }
    }
  }

  lemma LoopIsolated(p: Proxy, name: string, ports: map<string, int>, bind: string, env: BindEnv, other: string)
    requires ColonFree(name) && IsOrderOf(env.order, ports) && other != name
    requires Sound(p) && Held(p)
    ensures SameService(p, RegisterLoop(p, name, ports, bind, env, 0, []).0, other)
  {
    hide Sound, Held, RegisterLoop, CurrentHandlers, EntryKey, Owner, PendingHeld, PendingListeners;
    var m := RegisterLoop(p, name, ports, bind, env, 0, []).0;
    NothingPending(p, name, env);
    LoopKeeps(p, name, ports, bind, env, 0, []);
    SoundCarries(p, m);
  }

  lemma CommitIsolated(m: Proxy, name: string, pending: seq<Pending>, other: string)
    requires ReadyToCommit(m, name, pending) && other != name
    ensures SameService(m, Commit(m, name, pending), other)
  {
    hide Commit, CurrentHandlers, EntryKey, EntriesSound, PendingHeld;
    CommitEntries(m, name, pending);
    CommitRoutes(m, name, pending);
    hide RoutesSound;
  }

  // ---- Swapping and removing ----

  lemma PublishRoutes(p: Proxy, name: string, handlers: Handlers)
    requires RoutesSound(p) && name in p.routes
    ensures var q := Publish(p, name, p.routes[name], handlers);
            && RoutesSound(q)
            && CurrentHandlers(q, name) == handlers
            && (forall n | n != name :: CurrentHandlers(q, n) == CurrentHandlers(p, n))
  {
    var q := Publish(p, name, p.routes[name], handlers);
    forall n | n != name ensures CurrentHandlers(q, n) == CurrentHandlers(p, n) {
      if n in p.routes {
        assert q.published[p.current[p.routes[n]]] == p.published[p.current[p.routes[n]]];
      }
    }
  }

  lemma PublishListeners(p: Proxy, name: string, handlers: Handlers)
    requires name in p.routes
    ensures var q := Publish(p, name, p.routes[name], handlers);
            (Held(p) ==> Held(q)) && (NoLeak(p, []) ==> NoLeak(q, []))
  {
    var q := Publish(p, name, p.routes[name], handlers);
    assert forall id | id in q.open :: HeldByEntry(p, id) ==> HeldByEntry(q, id);
  }

  /** A generation published for `name` becomes its handlers and nobody else's. */
  lemma PublishKeeps(p: Proxy, name: string, handlers: Handlers)
    requires Sound(p) && name in p.routes
    requires forall k | k in p.entries && Owner(k) == name :: p.entries[k].portName in handlers
    ensures var q := Publish(p, name, p.routes[name], handlers);
            && Sound(q) && (Held(p) ==> Held(q)) && (NoLeak(p, []) ==> NoLeak(q, []))
            && CurrentHandlers(q, name) == handlers
            && (forall n | n != name :: CurrentHandlers(q, n) == CurrentHandlers(p, n))
            && (forall n | n != name :: SameService(p, q, n))
  {
    PublishRoutes(p, name, handlers);
    var q := Publish(p, name, p.routes[name], handlers);
    hide RoutesSound, CurrentHandlers, Owner, EntryKey;
    PublishListeners(p, name, handlers);
    hide Held, NoLeak;
    assert EntriesSound(q) by {
      forall k | k in q.entries ensures q.entries[k].portName in CurrentHandlers(q, Owner(k)) {
        assert k in p.entries;
      }
    }
  }

  /** SwapPorts succeeds exactly when the service has a route and a listener for every named port; then
      one generation is published and it re-points the named ports and nothing else. Otherwise nothing
      is published at all. */
  lemma SwapPortsExact(p: Proxy, name: string, ports: map<string, int>)
    requires Sound(p)
    ensures var (q, ok) := SwapPorts(p, name, ports);
            && (ok <==> name in p.routes && forall k | k in ports :: EntryKey(name, k) in p.entries)
            && (!ok ==> q == p)
            && (ok ==>
                  && Sound(q) && (Held(p) ==> Held(q)) && (NoLeak(p, []) ==> NoLeak(q, []))
                  && q.published == p.published + [Generation(name, CurrentHandlers(p, name) + Upstreams(ports))]
                  && CurrentHandlers(q, name) == CurrentHandlers(p, name) + Upstreams(ports)
                  && q.entries == p.entries && q.open == p.open && q.routes == p.routes)
            && (forall n | n != name :: SameService(p, q, n))
  {
    if SwapPorts(p, name, ports).1 {
      PublishKeeps(p, name, CurrentHandlers(p, name) + Upstreams(ports));
    }
  }

  /** The same, as a client sees it: which entries answer differently after a successful swap. */
  lemma SwapServes(p: Proxy, name: string, ports: map<string, int>, key: string)
    requires Sound(p) && SwapPorts(p, name, ports).1 && key in p.entries
    ensures var q := SwapPorts(p, name, ports).0;
            && key in q.entries
            && Serve(q, key) == if Owner(key) == name && p.entries[key].portName in ports
                                then Some(Upstream(ports[p.entries[key].portName]))
                                else Serve(p, key)
  {
    hide RoutesSound, SwapPorts, Serve, CurrentHandlers, EntryKey;
    SwapPortsExact(p, name, ports);
    assert Owner(key) != name ==> SameService(p, SwapPorts(p, name, ports).0, Owner(key));
    SoundServes(p, key);
    SoundServes(SwapPorts(p, name, ports).0, key);
  }

  /** In a sound table every entry answers with its own service's current handlers. */
  lemma SoundServes(p: Proxy, key: string)
    requires Sound(p) && key in p.entries
    ensures Serve(p, key) == Some(CurrentHandlers(p, Owner(key))[p.entries[key].portName])
  {
  }

  /** Right after registering a service's ports, swapping the same port names can only fail if there
      are none and the service has no route yet. */
  lemma SwapAfterRegister(p: Proxy, name: string, ports: map<string, int>, bind: string, env: BindEnv, internalPorts: map<string, int>)
    requires ColonFree(name) && IsOrderOf(env.order, ports) && Sound(p) && Held(p)
    requires Register(p, name, ports, bind, env).1 && internalPorts.Keys == ports.Keys
    ensures var q := Register(p, name, ports, bind, env).0;
            SwapPorts(q, name, internalPorts).1 <==> ports != map[] || name in p.routes
  {
    var q := Register(p, name, ports, bind, env).0;
    RegisterKeeps(p, name, ports, bind, env);
    RegisterOutcome(p, name, ports, bind, env);
    SwapPortsExact(q, name, internalPorts);
    if k :| k in ports {
      assert Registered(q, name, k, ports[k], NormalBind(bind));
      assert Owner(EntryKey(name, k)) in q.routes;
    } else {
      OrderOfSome(env.order, ports);
    }
  }

  lemma OrderOfSome<T>(order: seq<string>, m: map<string, T>)
    requires IsOrderOf(order, m)
    ensures order != [] ==> exists k :: k in m
  {
    if order != [] {
      assert order[0] in m;
    }
  }

  lemma SwapStaticKeeps(p: Proxy, name: string, dir: string)
    requires Sound(p) && ColonFree(name)
    ensures var (q, ok) := SwapStatic(p, name, dir);
            && (ok <==> EntryKey(name, "default") in p.entries)
            && (!ok ==> q == p)
            && (ok ==>
                  && Sound(q) && (Held(p) ==> Held(q)) && (NoLeak(p, []) ==> NoLeak(q, []))
                  && q.published == p.published + [Generation(name, CurrentHandlers(q, name))]
                  && CurrentHandlers(q, name) == CurrentHandlers(p, name)["default" := Files(dir)])
            && (forall n | n != name :: SameService(p, q, n))
  {
    if EntryKey(name, "default") in p.entries {
      PublishKeeps(p, name, CurrentHandlers(p, name)["default" := Files(dir)]);
    }
  }

  /** All ports of the service answer "unavailable"; an unknown service is left alone. */
  lemma UnswapPortsExact(p: Proxy, name: string)
    requires Sound(p) && ColonFree(name)
    ensures var q := UnswapPorts(p, name);
            && Sound(q) && (Held(p) ==> Held(q)) && (NoLeak(p, []) ==> NoLeak(q, []))
            && q.entries == p.entries && q.routes == p.routes
            && (forall k | k in p.entries && Owner(k) == name :: Serve(q, k) == Some(Unavailable))
            && (name in p.routes ==> CurrentHandlers(q, name).Keys == CurrentHandlers(p, name).Keys)
            && (forall m | m in CurrentHandlers(q, name) :: CurrentHandlers(q, name)[m] == Unavailable || (m in CurrentHandlers(p, name) && CurrentHandlers(q, name)[m] == CurrentHandlers(p, name)[m] && EntryKey(name, m) !in p.entries))
            && (forall n | n != name :: SameService(p, q, n))
  {
    hide EntryKey, Matching, PortNames, CurrentHandlers, Serve, EntriesSound, RoutesSound, SameService, Held, NoLeak;
    if name in p.routes {
      var names, q := PortNames(p, Matching(p, name)), UnswapPorts(p, name);
      var handlers := CurrentHandlers(p, name) + PlaceholderHandlers(p, Matching(p, name));
      UnswappedNames(p, name);
      PublishKeeps(p, name, handlers);
      forall k | k in p.entries && Owner(k) == name ensures Serve(q, k) == Some(Unavailable) {
        SoundServes(q, k);
      }
    } else {
      NoneOwned(p, name);
      SameAsItself(p);
    }
  }

  lemma UnswappedNames(p: Proxy, name: string)
    requires Sound(p) && ColonFree(name)
    ensures var names := PortNames(p, Matching(p, name));
            && (forall k | k in p.entries && Owner(k) == name :: p.entries[k].portName in names)
            && (forall m | EntryKey(name, m) in p.entries :: m in names)
            && (name in p.routes ==> names <= CurrentHandlers(p, name).Keys)
  {
    hide EntryKey, Matching, CurrentHandlers;
    var names := PortNames(p, Matching(p, name));
    MatchingIsOwned(p, name);
    forall m | EntryKey(name, m) in p.entries ensures m in names {
      EntryKeyInjective(name, m, name, p.entries[EntryKey(name, m)].portName);
      assert EntryKey(name, m) in Matching(p, name);
    }
  }

  lemma NoneOwned(p: Proxy, name: string)
    requires Sound(p) && name !in p.routes
    ensures forall k | k in p.entries :: Owner(k) != name
    ensures CurrentHandlers(p, name) == map[]
  {
  }

  lemma SameAsItself(p: Proxy)
    ensures forall n :: SameService(p, p, n)
  {
  }

  lemma MatchingIsOwned(p: Proxy, name: string)
    requires Sound(p) && ColonFree(name)
    ensures forall k | k in p.entries :: k in Matching(p, name) <==> Owner(k) == name
  {
    forall k | k in p.entries ensures HasPrefix(k, ServicePrefix(name)) <==> Owner(k) == name {
      PrefixMatchIsolated(Owner(k), p.entries[k].portName, name);
    }
  }

  lemma RemoveSound(p: Proxy, name: string)
    requires Sound(p) && ColonFree(name)
    ensures var q := RemovePorts(p, name);
            && Sound(q)
            && (forall k :: k in q.entries <==> k in p.entries && Owner(k) != name)
            && (forall k | k in q.entries :: q.entries[k] == p.entries[k])
            && name !in q.routes && CurrentHandlers(q, name) == map[]
            && (forall n | n != name :: CurrentHandlers(q, n) == CurrentHandlers(p, n))
  {
    hide Matching, EntryKey, RoutesSound, CurrentHandlers;
    MatchingIsOwned(p, name);
    RemoveRoutes(p, name);
  }

  lemma RemoveRoutes(p: Proxy, name: string)
    requires RoutesSound(p)
    ensures var q := RemovePorts(p, name);
            && RoutesSound(q) && CurrentHandlers(q, name) == map[]
            && (forall n | n != name :: CurrentHandlers(q, n) == CurrentHandlers(p, n))
  {
    hide Matching;
    var q := RemovePorts(p, name);
    assert forall n | n != name :: CurrentHandlers(q, n) == CurrentHandlers(p, n);
  }

  lemma RemoveHeld(p: Proxy, name: string)
    requires Sound(p) && Held(p) && ColonFree(name)
    ensures var q := RemovePorts(p, name);
            && Held(q) && (NoLeak(p, []) ==> NoLeak(q, []))
            && (forall id | id in p.open :: id in q.open <==> !(HeldByEntry(p, id) && Owner(p.open[id]) == name))
  {
    hide Sound, CurrentHandlers, EntryKey, Owner, Matching;
    var q, keys := RemovePorts(p, name), Matching(p, name);
    MatchingIsOwned(p, name);
    forall id | id in p.open ensures id in ListenersOf(p, keys) <==> HeldByEntry(p, id) && Owner(p.open[id]) == name {
      if id in ListenersOf(p, keys) {
        var k :| k in keys && p.entries[k].listener == id;
        assert p.open[id] == k;
      }
    }
    if NoLeak(p, []) {
      forall id | id in q.open ensures HeldByEntry(q, id) {
        assert HeldByEntry(p, id);
      }
    }
  }

  /** Removing a colon-free service closes exactly its listeners and forgets its route. */
  lemma RemovePortsExact(p: Proxy, name: string)
    requires Sound(p) && Held(p) && ColonFree(name)
    ensures var q := RemovePorts(p, name);
            && Sound(q) && Held(q) && (NoLeak(p, []) ==> NoLeak(q, []))
            && (forall k :: k in q.entries <==> k in p.entries && Owner(k) != name)
            && name !in q.routes && CurrentHandlers(q, name) == map[]
            && q.published == p.published
            && (forall n | n != name :: SameService(p, q, n))
            && (forall id | id in p.open :: id in q.open <==> !(HeldByEntry(p, id) && Owner(p.open[id]) == name))
  {
    hide Sound, Held, HeldByEntry, NoLeak, CurrentHandlers, EntryKey, Owner, Matching;
    RemoveSound(p, name);
    RemoveHeld(p, name);
  }

  /** A name that is no service's and matches no key changes nothing. */
  lemma RemoveNothing(p: Proxy, name: string)
    requires Sound(p) && !ColonFree(name) && Matching(p, name) == {}
    ensures RemovePorts(p, name) == p
  {
    hide EntriesSound, Matching;
    assert name !in p.routes;
    assert p.entries - {} == p.entries && p.routes - {name} == p.routes;
    assert ListenersOf(p, {}) == {};
    assert p.open - {} == p.open;
  }

  /** For any name at all: the entries a removal takes, read off the name and the port names. */
  lemma RemovePortsReaches(p: Proxy, name: string, key: string)
    requires Sound(p) && key in p.entries
    ensures key !in RemovePorts(p, name).entries
       <==> || Owner(key) == name
            || (&& HasPrefix(name, ServicePrefix(Owner(key)))
                && HasPrefix(p.entries[key].portName, ServicePrefix(name[|Owner(key)| + 1..])))
  {
    PrefixMatchExact(Owner(key), p.entries[key].portName, name);
  }
}
