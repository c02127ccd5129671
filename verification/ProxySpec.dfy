/** Value-level specification of the proxy manager: one function per lock-protected operation.
    `serviceRoute` and `routingGeneration` objects are indices, so sharing a route or holding on to
    an old generation is visible. The outcome of every bind and the order in which Go walks the
    port map come in as a BindEnv. */
module ProxySpec {
  import opened Options
  import opened Names

  const DEFAULT_BIND := "localhost"

  datatype Handler = Starting | Unavailable | Upstream(port: int) | Files(dir: string)

  type Handlers = map<string, Handler>

  /** `listener` is the handle of one `listen` call: the IPv4 listener together with the optional
      IPv6 one, which are opened and closed as a pair. */
  datatype Entry = Entry(stablePort: int, bind: string, portName: string, listener: nat, route: nat)

  datatype Generation = Generation(service: string, handlers: Handlers)

  /** `published` is the arena of all generations ever stored, `current` the atomic pointer of each
      route, `open` the listeners the operating system holds for this process, by key. */
  datatype Proxy = Proxy(
    entries: map<string, Entry>,
    routes: map<string, nat>,
    current: map<nat, nat>,
    published: seq<Generation>,
    open: map<nat, string>,
    nextListener: nat,
    nextRoute: nat)

  datatype BindEnv = BindEnv(addressOk: bool, order: seq<string>, refused: set<string>)

  datatype Pending = Pending(portName: string, entry: Entry)

  const EMPTY := Proxy(map[], map[], map[], [], map[], 0, 0)

  /** `order` is one of the orders in which Go may range over `m`. */
  ghost predicate IsOrderOf<T>(order: seq<string>, m: map<string, T>) {
    && (forall k :: k in m <==> k in order)
    && (forall i, j | 0 <= i < j < |order| :: order[i] != order[j])
  }

  function PendingListeners(pending: seq<Pending>): set<nat> {
    set i | 0 <= i < |pending| :: pending[i].entry.listener
  }

  function NormalBind(bind: string): string {
    if bind == "" then DEFAULT_BIND else bind
  }

  /** currentHandlers of the service's route. */
  function CurrentHandlers(p: Proxy, name: string): Handlers {
    if name in p.routes && p.routes[name] in p.current && p.current[p.routes[name]] < |p.published|
    then p.published[p.current[p.routes[name]]].handlers
    else map[]
  }

  /** What a request arriving at the entry under `key` is answered with; None is a plain 503. */
  function Serve(p: Proxy, key: string): Option<Handler>
    requires key in p.entries
  {
    var e := p.entries[key];
    if e.route in p.current && p.current[e.route] < |p.published|
       && e.portName in p.published[p.current[e.route]].handlers
    then Some(p.published[p.current[e.route]].handlers[e.portName])
    else None
  }

  function Publish(p: Proxy, name: string, route: nat, handlers: Handlers): Proxy {
    p.(published := p.published + [Generation(name, handlers)],
       current := p.current[route := |p.published|])
  }

  /** A successful bind; the new handle is the old `nextListener`. */
  function Listen(p: Proxy, key: string): Proxy {
    p.(open := p.open[p.nextListener := key], nextListener := p.nextListener + 1)
  }

  datatype Turn = Next(p: Proxy, pending: seq<Pending>) | Refused(p: Proxy)

  /** One turn of the loop over the requested ports: an existing entry is kept or re-bound in place,
      a new one is collected. Of the two error returns only the second closes what was collected. */
  function RegisterTurn(p: Proxy, name: string, portName: string, stablePort: int, bind: string, refused: bool,
                        pending: seq<Pending>): Turn
  {
    var key := EntryKey(name, portName);
    if key in p.entries then
      var e := p.entries[key];
      if e.stablePort == stablePort && e.bind == bind then Next(p, pending)
      else if refused then Refused(p)
      else Next(Rebind(p, key, stablePort, bind), pending)
    else if refused then Refused(p.(open := p.open - PendingListeners(pending)))
    else Next(Listen(p, key), pending + [Pending(portName, Entry(stablePort, bind, portName, p.nextListener, 0))])
  }

  /** The loop; None is an error return. */
  function RegisterLoop(p: Proxy, name: string, ports: map<string, int>, bind: string, env: BindEnv,
                        i: nat, pending: seq<Pending>): (Proxy, Option<seq<Pending>>)
    requires i <= |env.order| && forall k | k in env.order :: k in ports
    decreases |env.order| - i
  {
    if i == |env.order| then (p, Some(pending))
    else
      match RegisterTurn(p, name, env.order[i], ports[env.order[i]], bind, env.order[i] in env.refused, pending)
      case Refused(q) => (q, None)
      case Next(q, more) => RegisterLoop(q, name, ports, bind, env, i + 1, more)
  }

  function Rebind(p: Proxy, key: string, stablePort: int, bind: string): Proxy
    requires key in p.entries
  {
    var e := p.entries[key];
    var q := Listen(p, key);
    q.(open := q.open - {e.listener},
       entries := q.entries[key := e.(stablePort := stablePort, bind := bind, listener := p.nextListener)])
  }

  function StartingHandlers(pending: seq<Pending>): Handlers {
    map i | 0 <= i < |pending| :: pending[i].portName := Starting
  }

  function AddPending(entries: map<string, Entry>, name: string, route: nat, pending: seq<Pending>): map<string, Entry> {
    if pending == [] then entries
    else
      var last := pending[|pending| - 1];
      AddPending(entries, name, route, pending[..|pending| - 1])[EntryKey(name, last.portName) := last.entry.(route := route)]
  }

  function Commit(p: Proxy, name: string, pending: seq<Pending>): Proxy {
    var route := if name in p.routes then p.routes[name] else p.nextRoute;
    var q := if name in p.routes then p
             else p.(routes := p.routes[name := route], nextRoute := p.nextRoute + 1);
    var r := Publish(q, name, route, CurrentHandlers(p, name) + StartingHandlers(pending));
    r.(entries := AddPending(r.entries, name, route, pending))
  }

  /** RegisterPortsWithBind; the flag is "no error". */
  function Register(p: Proxy, name: string, ports: map<string, int>, bind: string, env: BindEnv): (Proxy, bool)
    requires IsOrderOf(env.order, ports)
  {
    if !env.addressOk then (p, false)
    else
      var (q, pending) := RegisterLoop(p, name, ports, NormalBind(bind), env, 0, []);
      if pending.None? then (q, false)
      else if pending.value == [] then (q, true)
      else (Commit(q, name, pending.value), true)
  }

  function Upstreams(ports: map<string, int>): Handlers {
    map k | k in ports :: Upstream(ports[k])
  }

  function SwapPorts(p: Proxy, name: string, ports: map<string, int>): (Proxy, bool) {
    if name !in p.routes then (p, false)
    else if exists k :: k in ports && EntryKey(name, k) !in p.entries then (p, false)
    else (Publish(p, name, p.routes[name], CurrentHandlers(p, name) + Upstreams(ports)), true)
  }

  function SwapStatic(p: Proxy, name: string, dir: string): (Proxy, bool) {
    var key := EntryKey(name, "default");
    if key !in p.entries then (p, false)
    else
      var route := p.entries[key].route;
      var now := if route in p.current && p.current[route] < |p.published|
                 then p.published[p.current[route]].handlers else map[];
      (Publish(p, name, route, now["default" := Files(dir)]), true)
  }

  function Matching(p: Proxy, name: string): (keys: set<string>)
    ensures keys <= p.entries.Keys
  {
    set k | k in p.entries && HasPrefix(k, ServicePrefix(name))
  }

  function PortNames(p: Proxy, keys: set<string>): set<string>
    requires keys <= p.entries.Keys
  {
    set k | k in keys :: p.entries[k].portName
  }

  function PlaceholderHandlers(p: Proxy, keys: set<string>): Handlers
    requires keys <= p.entries.Keys
  {
    map k | k in PortNames(p, keys) :: Unavailable
  }

  function UnswapPorts(p: Proxy, name: string): Proxy {
    if name !in p.routes then p
    else Publish(p, name, p.routes[name],
                 CurrentHandlers(p, name) + PlaceholderHandlers(p, Matching(p, name)))
  }

  function ListenersOf(p: Proxy, keys: set<string>): set<nat>
    requires keys <= p.entries.Keys
  {
    set k | k in keys :: p.entries[k].listener
  }

  function RemovePorts(p: Proxy, name: string): Proxy {
    var keys := Matching(p, name);
    p.(entries := p.entries - keys,
       open := p.open - ListenersOf(p, keys),
       routes := p.routes - {name})
  }
}
