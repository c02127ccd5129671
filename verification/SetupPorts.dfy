/** Port allocation of a setup plan, before anything is reserved. */
module SetupPorts {
  import opened Options

  const PORT_RANGE_MIN := 8100
  const PORT_RANGE_MAX := 8200
  const OWN_PORTS: set<int> := {7700, 7701}

  /** preferred 0 asks for any port. */
  datatype ServiceSpec = ServiceSpec(name: string, preferred: int)

  function Names(services: seq<ServiceSpec>): set<string> {
    set i | 0 <= i < |services| :: services[i].name
  }

  /** The first service that asks for a port nobody uses. */
  predicate Claims(services: seq<ServiceSpec>, taken: set<int>, i: nat)
    requires i < |services|
  {
    && services[i].preferred != 0
    && services[i].preferred !in taken
    && forall j | 0 <= j < i :: services[j].preferred != services[i].preferred
  }

  function ClaimedNames(services: seq<ServiceSpec>, taken: set<int>, n: nat): set<string>
    requires n <= |services|
  {
    set i | 0 <= i < n && Claims(services, taken, i) :: services[i].name
  }

  function ClaimedPorts(services: seq<ServiceSpec>, taken: set<int>, n: nat): set<int>
    requires n <= |services|
  {
    set i | 0 <= i < n && Claims(services, taken, i) :: services[i].preferred
  }

  predicate InRange(p: int) {
    PORT_RANGE_MIN <= p <= PORT_RANGE_MAX
  }

  /** Services left for the range, and the ports left for them. */
  function Unclaimed(services: seq<ServiceSpec>, taken: set<int>): set<string> {
    Names(services) - ClaimedNames(services, taken, |services|)
  }

  function FreePorts(services: seq<ServiceSpec>, taken: set<int>): set<int> {
    (set p | PORT_RANGE_MIN <= p <= PORT_RANGE_MAX && InRange(p)) - taken - ClaimedPorts(services, taken, |services|)
  }

  /** The free ports are those from 8100 to 8200 that are neither taken nor claimed by some service. */
  lemma FreePortsExact(services: seq<ServiceSpec>, taken: set<int>, p: int)
    ensures p in FreePorts(services, taken) <==>
              8100 <= p <= 8200 && p !in taken && forall i | 0 <= i < |services| :: services[i].preferred != p
  {
    if p !in taken && p != 0 && exists i :: 0 <= i < |services| && services[i].preferred == p {
      var i :| 0 <= i < |services| && services[i].preferred == p;
      AskedIsClaimed(services, taken, i);
      assert p in ClaimedPorts(services, taken, |services|) by {
        if !Claims(services, taken, i) {
          assert p in ClaimedPorts(services, taken, i);
          var j :| 0 <= j < i && Claims(services, taken, j) && services[j].preferred == p;
        }
      }
    }
  }

  /** A free preference that was asked for before has been claimed before. */
  lemma {:induction false} AskedIsClaimed(services: seq<ServiceSpec>, taken: set<int>, i: nat)
    requires i < |services| && services[i].preferred != 0 && services[i].preferred !in taken
    ensures Claims(services, taken, i) <==> services[i].preferred !in ClaimedPorts(services, taken, i)
  {
    if !Claims(services, taken, i) {
      var j :| 0 <= j < i && services[j].preferred == services[i].preferred;
      AskedIsClaimed(services, taken, j);
      if Claims(services, taken, j) {
        assert services[j].preferred in ClaimedPorts(services, taken, i);
      } else {
        assert ClaimedPorts(services, taken, j) <= ClaimedPorts(services, taken, i);
      }
    }
  }

  lemma ClaimedStep(services: seq<ServiceSpec>, taken: set<int>, i: nat)
    requires i < |services|
    ensures var here := Claims(services, taken, i);
            && ClaimedNames(services, taken, i + 1) == ClaimedNames(services, taken, i) + (if here then {services[i].name} else {})
            && ClaimedPorts(services, taken, i + 1) == ClaimedPorts(services, taken, i) + (if here then {services[i].preferred} else {})
  {
    hide Claims;
  }

  /** What the first pass settles: a claim holds its port, unless a later one under the same name
      replaced it. */
  ghost predicate Honoured(services: seq<ServiceSpec>, taken: set<int>, n: nat, alloc: map<string, int>)
    requires n <= |services|
  {
    forall i | 0 <= i < n && LastClaim(services, taken, n, i) ::
      services[i].name in alloc && alloc[services[i].name] == services[i].preferred
  }

  predicate LastClaim(services: seq<ServiceSpec>, taken: set<int>, n: nat, i: nat)
    requires i < n <= |services|
  {
    && Claims(services, taken, i)
    && forall j | i < j < n && services[j].name == services[i].name :: !Claims(services, taken, j)
  }

  ghost predicate Distinct(alloc: map<string, int>) {
    forall m, n | m in alloc && n in alloc && m != n :: alloc[m] != alloc[n]
  }

  ghost predicate WithPortsIn(alloc: map<string, int>, ports: set<int>) {
    forall n | n in alloc :: alloc[n] in ports
  }

  lemma HonouredStep(services: seq<ServiceSpec>, taken: set<int>, i: nat, alloc: map<string, int>)
    requires i < |services| && Honoured(services, taken, i, alloc)
    ensures Claims(services, taken, i) ==> Honoured(services, taken, i + 1, alloc[services[i].name := services[i].preferred])
    ensures !Claims(services, taken, i) ==> Honoured(services, taken, i + 1, alloc)
  {
    hide Claims;
    forall k | 0 <= k < i && LastClaim(services, taken, i + 1, k) ensures LastClaim(services, taken, i, k) {
    }
  }

  method HonourPreferences(services: seq<ServiceSpec>, base: set<int>) returns (alloc: map<string, int>, taken: set<int>)
    ensures alloc.Keys == ClaimedNames(services, base, |services|)
    ensures taken == base + ClaimedPorts(services, base, |services|)
    ensures Honoured(services, base, |services|, alloc)
    ensures WithPortsIn(alloc, ClaimedPorts(services, base, |services|)) && Distinct(alloc)
  {
    hide Claims, ClaimedNames, ClaimedPorts, Honoured;
    alloc, taken := map[], base;
    NothingClaimed(services, base);
    for i := 0 to |services|
      invariant alloc.Keys == ClaimedNames(services, base, i)
      invariant taken == base + ClaimedPorts(services, base, i)
      invariant Honoured(services, base, i, alloc)
      invariant WithPortsIn(alloc, ClaimedPorts(services, base, i)) && Distinct(alloc)
    {
      var svc := services[i];
      ClaimsExactly(services, base, i);
      ClaimedStep(services, base, i);
      HonouredStep(services, base, i, alloc);
      if svc.preferred != 0 && svc.preferred !in taken {
        alloc := alloc[svc.name := svc.preferred];
        taken := taken + {svc.preferred};
      }
    }
  }

  lemma NothingClaimed(services: seq<ServiceSpec>, base: set<int>)
    ensures ClaimedNames(services, base, 0) == {} && ClaimedPorts(services, base, 0) == {}
    ensures Honoured(services, base, 0, map[])
  {
  }

  lemma ClaimsExactly(services: seq<ServiceSpec>, base: set<int>, i: nat)
    requires i < |services|
    ensures Claims(services, base, i) <==> services[i].preferred != 0 && services[i].preferred !in base + ClaimedPorts(services, base, i)
  {
    if services[i].preferred != 0 && services[i].preferred !in base {
      AskedIsClaimed(services, base, i);
    }
  }

  // ---- The range ----

  lemma SmallerSet<T>(a: set<T>, b: set<T>)
    requires a <= b
    ensures |a| <= |b|
    ensures a != b ==> |a| < |b|
  {
    var rest := b - a;
    assert b == a + rest;
  }

  /** Unclaimed services get range ports in the order in which they are first listed. */
  ghost predicate InOrder(services: seq<ServiceSpec>, auto: map<string, int>) {
    forall i, j | 0 <= i < j < |services| && services[i].name in auto && services[j].name in auto
                  && services[j].name !in Names(services[..j]) ::
      auto[services[i].name] < auto[services[j].name]
  }

  /** `auto` holds the range ports given to the unclaimed among the services so far; they are the free
      ones below `next`. */
  ghost predicate Filled(services: seq<ServiceSpec>, claimed: set<string>, free: set<int>, auto: map<string, int>, next: int) {
    && auto.Keys == Names(services) - claimed
    && Distinct(auto)
    && InOrder(services, auto)
    && WithPortsIn(auto, Below(free, next))
    && Onto(auto, Below(free, next))
    && |Below(free, next)| == |auto.Keys|
  }

  function Below(ports: set<int>, next: int): set<int> {
    set p | p in ports && p < next
  }

  ghost predicate Onto(alloc: map<string, int>, ports: set<int>) {
    forall p | p in ports :: Given(alloc, p)
  }

  ghost predicate Given(alloc: map<string, int>, port: int) {
    exists n :: n in alloc && alloc[n] == port
  }

  lemma NamesStep(services: seq<ServiceSpec>, svc: ServiceSpec)
    ensures Names(services + [svc]) == Names(services) + {svc.name}
  {
    var more := services + [svc];
    assert forall i | 0 <= i < |services| :: more[i] == services[i];
    assert more[|services|] == svc;
  }

  lemma BelowStep(free: set<int>, next: int, port: int)
    requires next <= port && port in free && forall p | next <= p < port :: p !in free
    ensures Below(free, port + 1) == Below(free, next) + {port} && port !in Below(free, next)
  {
  }

  lemma GiveStep(auto: map<string, int>, free: set<int>, name: string, next: int, port: int)
    requires name !in auto && Distinct(auto) && WithPortsIn(auto, Below(free, next)) && Onto(auto, Below(free, next))
    requires next <= port && port in free && forall p | next <= p < port :: p !in free
    requires |Below(free, next)| == |auto.Keys|
    ensures var more := auto[name := port];
            && Below(free, port + 1) == Below(free, next) + {port}
            && Distinct(more) && WithPortsIn(more, Below(free, port + 1)) && Onto(more, Below(free, port + 1))
            && more.Keys == auto.Keys + {name}
            && |Below(free, port + 1)| == |more.Keys|
  {
    hide Onto, Distinct, WithPortsIn, Below;
    BelowStep(free, next, port);
    assert auto[name := port].Keys == auto.Keys + {name};
    OntoStep(auto, Below(free, next), name, port);
    DistinctStep(auto, Below(free, next), name, port);
  }

  lemma DistinctStep(auto: map<string, int>, ports: set<int>, name: string, port: int)
    requires name !in auto && Distinct(auto) && WithPortsIn(auto, ports) && port !in ports
    ensures Distinct(auto[name := port]) && WithPortsIn(auto[name := port], ports + {port})
  {
    var more := auto[name := port];
    assert forall n | n in more :: more[n] == if n == name then port else auto[n];
  }

  lemma OntoStep(auto: map<string, int>, ports: set<int>, name: string, port: int)
    requires name !in auto && Onto(auto, ports)
    ensures Onto(auto[name := port], ports + {port})
  {
    var more := auto[name := port];
    forall p | p in ports + {port} ensures Given(more, p) {
      if p == port {
        assert more[name] == p;
      } else {
        assert Given(auto, p);
        var n :| n in auto && auto[n] == p;
        assert more[n] == p;
      }
    }
  }

  lemma InOrderStep(services: seq<ServiceSpec>, auto: map<string, int>, svc: ServiceSpec, port: int)
    requires InOrder(services, auto) && svc.name !in auto && svc.name !in Names(services)
    requires forall n | n in auto :: auto[n] < port
    ensures InOrder(services + [svc], auto[svc.name := port])
  {
    var more := services + [svc];
    assert forall i | 0 <= i < |services| :: more[i] == services[i] && more[..i] == services[..i];
  }

  lemma InOrderSkip(services: seq<ServiceSpec>, auto: map<string, int>, svc: ServiceSpec)
    requires InOrder(services, auto) && (svc.name in Names(services) || svc.name !in auto)
    ensures InOrder(services + [svc], auto)
  {
    var more := services + [svc];
    assert more[..|services|] == services;
    assert forall i | 0 <= i < |services| :: more[i] == services[i] && more[..i] == services[..i];
  }

  lemma FillStep(services: seq<ServiceSpec>, claimed: set<string>, free: set<int>, auto: map<string, int>, svc: ServiceSpec, next: int, port: int)
    requires Filled(services, claimed, free, auto, next) && svc.name !in auto && svc.name !in claimed
    requires next <= port && port in free && forall p | next <= p < port :: p !in free
    ensures Filled(services + [svc], claimed, free, auto[svc.name := port], port + 1)
  {
    hide InOrder, Names, Distinct, Onto;
    NamesStep(services, svc);
    GiveStep(auto, free, svc.name, next, port);
    InOrderStep(services, auto, svc, port);
  }

  lemma FillSkip(services: seq<ServiceSpec>, claimed: set<string>, free: set<int>, auto: map<string, int>, svc: ServiceSpec, next: int)
    requires Filled(services, claimed, free, auto, next) && (svc.name in auto || svc.name in claimed)
    ensures Filled(services + [svc], claimed, free, auto, next)
  {
    hide InOrder, Names, Distinct, Onto, WithPortsIn;
    NamesStep(services, svc);
    InOrderSkip(services, auto, svc);
  }

  /** A whole plan, split by who claimed a port. */
  ghost predicate Plan(services: seq<ServiceSpec>, base: set<int>, alloc: map<string, int>) {
    && alloc.Keys == Names(services)
    && Distinct(alloc)
    && (forall n | n in alloc :: alloc[n] !in base && alloc[n] != 0)
    && Honoured(services, base, |services|, alloc)
    && LowestInOrder(services, FreePorts(services, base), map n | n in Unclaimed(services, base) && n in alloc :: alloc[n])
  }

  ghost predicate LowestInOrder(services: seq<ServiceSpec>, free: set<int>, auto: map<string, int>) {
    && WithPortsIn(auto, free)
    && InOrder(services, auto)
    && (forall n | n in auto :: Onto(auto, Below(free, auto[n])))
  }

  lemma FillNothing(services: seq<ServiceSpec>, base: set<int>, claimed: set<string>)
    ensures var free := FreePorts(services, base);
            Filled([], claimed, free, map[], PORT_RANGE_MIN) && Below(free, PORT_RANGE_MIN) == {}
  {
    hide ClaimedPorts;
    assert forall p | p in FreePorts(services, base) :: InRange(p);
    assert Below(FreePorts(services, base), PORT_RANGE_MIN) == {};
  }

  lemma NamesOfPrefix(services: seq<ServiceSpec>, i: nat)
    requires i <= |services|
    ensures Names(services[..i]) <= Names(services)
    ensures forall j | 0 <= j < |services| :: services[j].name in Names(services)
  {
    assert forall j | 0 <= j < i :: services[..i][j] == services[j];
  }

  /** With every free port given away there are more services than ports. */
  lemma Exhausted(services: seq<ServiceSpec>, base: set<int>, i: nat, auto: map<string, int>, next: int)
    requires i < |services| && services[i].name !in ClaimedNames(services, base, |services|) && services[i].name !in auto
    requires Filled(services[..i], ClaimedNames(services, base, |services|), FreePorts(services, base), auto, next)
    requires forall p | p in FreePorts(services, base) :: p < next
    ensures |Unclaimed(services, base)| > |FreePorts(services, base)|
  {
    hide ClaimedNames, ClaimedPorts, Distinct, InOrder, Names, FreePorts;
    NamesOfPrefix(services, i);
    assert services[i].name in Unclaimed(services, base);
    assert Below(FreePorts(services, base), next) == FreePorts(services, base);
    SmallerSet(auto.Keys, Unclaimed(services, base));
  }

  lemma Enough(services: seq<ServiceSpec>, base: set<int>, auto: map<string, int>, next: int)
    requires Filled(services, ClaimedNames(services, base, |services|), FreePorts(services, base), auto, next)
    ensures |Unclaimed(services, base)| <= |FreePorts(services, base)|
  {
    hide ClaimedNames, ClaimedPorts, Distinct, InOrder, Names, FreePorts;
    SmallerSet(Below(FreePorts(services, base), next), FreePorts(services, base));
    assert auto.Keys == Unclaimed(services, base);
  }

  lemma JoinedPlan(services: seq<ServiceSpec>, base: set<int>, claimed: map<string, int>, auto: map<string, int>, next: int)
    requires claimed.Keys == ClaimedNames(services, base, |services|)
    requires Honoured(services, base, |services|, claimed) && Distinct(claimed)
    requires WithPortsIn(claimed, ClaimedPorts(services, base, |services|))
    requires Filled(services, claimed.Keys, FreePorts(services, base), auto, next)
    ensures Plan(services, base, claimed + auto)
  {
    hide InRange, ClaimedNames, ClaimedPorts, Names, LastClaim, Honoured, Distinct, LowestInOrder, FreePorts, Filled, WithPortsIn;
    FilledParts(services, base, claimed, auto, next);
    AutoPart(Unclaimed(services, base), claimed, auto);
    JoinedPorts(services, base, claimed, auto);
    JoinedHonours(services, base, claimed, auto);
  }

  lemma FilledParts(services: seq<ServiceSpec>, base: set<int>, claimed: map<string, int>, auto: map<string, int>, next: int)
    requires claimed.Keys == ClaimedNames(services, base, |services|)
    requires Filled(services, claimed.Keys, FreePorts(services, base), auto, next)
    ensures auto.Keys == Unclaimed(services, base) && claimed.Keys !! auto.Keys && claimed.Keys + auto.Keys == Names(services)
    ensures WithPortsIn(auto, FreePorts(services, base)) && Distinct(auto)
    ensures LowestInOrder(services, FreePorts(services, base), auto)
  {
    hide InOrder, ClaimedNames, Names, Distinct, FreePorts, WithPortsIn, Onto;
    JoinedNames(services, base);
    BelowIsIn(auto, FreePorts(services, base), next);
    JoinedOrder(services, FreePorts(services, base), auto, next);
  }

  lemma AutoPart(unclaimed: set<string>, claimed: map<string, int>, auto: map<string, int>)
    requires auto.Keys == unclaimed && claimed.Keys !! unclaimed
    ensures (map n | n in unclaimed && n in claimed + auto :: (claimed + auto)[n]) == auto
  {
  }

  lemma BelowIsIn(auto: map<string, int>, free: set<int>, next: int)
    requires WithPortsIn(auto, Below(free, next))
    ensures WithPortsIn(auto, free)
  {
  }

  lemma JoinedOrder(services: seq<ServiceSpec>, free: set<int>, auto: map<string, int>, next: int)
    requires InOrder(services, auto) && WithPortsIn(auto, Below(free, next)) && Onto(auto, Below(free, next))
    ensures LowestInOrder(services, free, auto)
  {
    hide InOrder;
    forall n | n in auto ensures Onto(auto, Below(free, auto[n])) {
      assert forall p | p in Below(free, auto[n]) :: p in Below(free, next);
    }
  }

  lemma JoinedHonours(services: seq<ServiceSpec>, base: set<int>, claimed: map<string, int>, auto: map<string, int>)
    requires claimed.Keys !! auto.Keys && Honoured(services, base, |services|, claimed)
    ensures Honoured(services, base, |services|, claimed + auto)
  {
    hide LastClaim;
  }

  lemma JoinedNames(services: seq<ServiceSpec>, base: set<int>)
    ensures ClaimedNames(services, base, |services|) <= Names(services)
  {
  }

  lemma JoinedPorts(services: seq<ServiceSpec>, base: set<int>, claimed: map<string, int>, auto: map<string, int>)
    requires Distinct(claimed) && Distinct(auto) && claimed.Keys !! auto.Keys
    requires WithPortsIn(claimed, ClaimedPorts(services, base, |services|)) && WithPortsIn(auto, FreePorts(services, base))
    ensures Distinct(claimed + auto)
    ensures forall n | n in claimed + auto :: (claimed + auto)[n] !in base && (claimed + auto)[n] != 0
  {
    var alloc := claimed + auto;
    assert forall n | n in alloc :: alloc[n] == if n in auto then auto[n] else claimed[n];
  }

  function Above(ports: set<int>, start: int): set<int> {
    set p | p in ports && p >= start
  }

  method NextUntaken(taken: set<int>, start: int) returns (port: int)
    ensures start <= port && port !in taken && forall p | start <= p < port :: p in taken
  {
    port := start;
    while port in taken
      invariant start <= port && forall p | start <= p < port :: p in taken
      decreases Above(taken, port)
    {
      assert port in Above(taken, port) && port !in Above(taken, port + 1);
      port := port + 1;
    }
  }

  /** The scan over taken ports is a scan for the next free one. */
  lemma UntakenIsFree(services: seq<ServiceSpec>, base: set<int>, next: int, port: int)
    requires var free := FreePorts(services, base);
             var taken := base + ClaimedPorts(services, base, |services|) + Below(free, next);
             port !in taken && forall p | next <= p < port :: p in taken
    requires PORT_RANGE_MIN <= next <= port
    ensures var free := FreePorts(services, base);
            && (forall p | next <= p < port :: p !in free)
            && (port <= PORT_RANGE_MAX ==> port in free && Below(free, port + 1) == Below(free, next) + {port})
            && (port > PORT_RANGE_MAX ==> forall p | p in free :: p < next)
  {
    hide ClaimedPorts;
    assert forall p | p in FreePorts(services, base) :: InRange(p);
    assert port <= PORT_RANGE_MAX ==> InRange(port);
    forall p | next <= p < port ensures p !in FreePorts(services, base) {
      assert p in base + ClaimedPorts(services, base, |services|) + Below(FreePorts(services, base), next);
    }
  }

  /** The plan. Services that claimed a port have it; the others have the lowest free ports of the range,
      in the order in which they are listed. There is a plan exactly if the range has as many free ports
      as there are services that claimed none. */
  method AllocatePorts(services: seq<ServiceSpec>, used: set<int>) returns (r: Option<map<string, int>>)
    ensures var base := {7700, 7701} + used;
            && (r.None? <==> |Unclaimed(services, base)| > |FreePorts(services, base)|)
            && (r.Some? ==> Plan(services, base, r.value))
  {
    hide ClaimedNames, ClaimedPorts, Honoured, Distinct, WithPortsIn, Names, Plan, FreePorts, Below, Filled, Unclaimed;
    var base := OWN_PORTS + used;
    var claimed, taken := HonourPreferences(services, base);
    ghost var free := FreePorts(services, base);
    var auto: map<string, int>, next := map[], PORT_RANGE_MIN;
    FillNothing(services, base, claimed.Keys);
    for i := 0 to |services|
      invariant Filled(services[..i], claimed.Keys, free, auto, next)
      invariant taken == base + ClaimedPorts(services, base, |services|) + Below(free, next)
      invariant next >= PORT_RANGE_MIN
    {
      var svc := services[i];
      assert services[..i + 1] == services[..i] + [svc];
      if svc.name !in claimed && svc.name !in auto {
        assert svc.name !in ClaimedNames(services, base, |services|);
        var port := NextUntaken(taken, next);
        UntakenIsFree(services, base, next, port);
        if port > PORT_RANGE_MAX {
          Exhausted(services, base, i, auto, next);
          return None;
        }
        FillStep(services[..i], claimed.Keys, free, auto, svc, next, port);
        auto := auto[svc.name := port];
        taken := taken + {port};
        next := port + 1;
      } else {
        FillSkip(services[..i], claimed.Keys, free, auto, svc, next);
      }
    }
    assert services[..|services|] == services;
    Enough(services, base, auto, next);
    JoinedPlan(services, base, claimed, auto, next);
    return Some(claimed + auto);
  }

  /** With distinct names, the first service to ask for a free port gets it. */
  lemma FirstClaimantGets(services: seq<ServiceSpec>, base: set<int>, alloc: map<string, int>, i: nat)
    requires Plan(services, base, alloc) && i < |services| && Claims(services, base, i)
    requires forall j, k | 0 <= j < k < |services| :: services[j].name != services[k].name
    ensures services[i].name in alloc && alloc[services[i].name] == services[i].preferred
  {
    hide InOrder, FreePorts, Distinct, LowestInOrder;
    assert LastClaim(services, base, |services|, i);
  }
}
