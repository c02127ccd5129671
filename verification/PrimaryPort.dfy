/** The port that stands for a service where only one can be named. */
module PrimaryPort {
  import opened StringOrder
  import X = ProxySpec

  /** One turn of the loop over the port names; "" doubles as "none yet". */
  function Better(first: string, k: string): string {
    if first == "" || StringLess(k, first) then k else first
  }

  function FirstOf(order: seq<string>): string {
    if order == [] then "" else Better(FirstOf(order[..|order| - 1]), order[|order| - 1])
  }

  /** PickPort, when the map is walked in that order. */
  method PickPort(ports: map<string, int>, healthCheckPort: string, order: seq<string>) returns (port: int)
    requires X.IsOrderOf(order, ports)
    ensures port == Picked(ports, healthCheckPort, order)
  {
    if ports == map[] { return 0; }
    if healthCheckPort != "" && healthCheckPort in ports { return ports[healthCheckPort]; }
    if "default" in ports { return ports["default"]; }
    var first := "";
    for i := 0 to |order|
      invariant first == FirstOf(order[..i])
    {
      assert order[..i + 1][..i] == order[..i];
      if first == "" || StringLess(order[i], first) {
        first := order[i];
      }
    }
    assert order[..|order|] == order;
    FirstIsKey(order);
    SomeKey(ports);
    port := ports[first];
  }

  lemma SomeKey(ports: map<string, int>)
    requires ports != map[]
    ensures exists k :: k in ports
  {
  }

  ghost function Picked(ports: map<string, int>, healthCheckPort: string, order: seq<string>): int
    requires X.IsOrderOf(order, ports)
  {
    if ports == map[] then 0
    else if healthCheckPort != "" && healthCheckPort in ports then ports[healthCheckPort]
    else if "default" in ports then ports["default"]
    else
      var first := FirstOf(order);
      FirstIsKey(order);
      SomeKey(ports);
      ports[first]
  }

  lemma {:induction false} FirstIsKey(order: seq<string>)
    ensures order != [] ==> FirstOf(order) in order
  {
    if |order| > 1 {
      FirstIsKey(order[..|order| - 1]);
    }
  }

  /** Without an empty name the walk ends at the least name, whatever the order. */
  lemma {:induction false} FirstIsLeast(order: seq<string>)
    requires order != [] && "" !in order
    ensures FirstOf(order) in order && forall k | k in order :: k == FirstOf(order) || StringLess(FirstOf(order), k)
  {
    var n := |order| - 1;
    assert order == order[..n] + [order[n]];
    if n > 0 {
      FirstIsLeast(order[..n]);
      var before := FirstOf(order[..n]);
      StringLessTotal(order[n], before);
      forall k | k in order ensures k == FirstOf(order) || StringLess(FirstOf(order), k) {
        if StringLess(order[n], before) && k in order[..n] && k != before {
          StringLessTransitive(order[n], before, k);
        }
      }
    }
  }

  /** The port of the name that the health check asks for, or else of "default", or else of the least name,
      wherever it stands in the walk. */
  ghost predicate Chosen(ports: map<string, int>, healthCheckPort: string, name: string) {
    && name in ports
    && (healthCheckPort != "" && healthCheckPort in ports ==> name == healthCheckPort)
    && ((healthCheckPort == "" || healthCheckPort !in ports) && "default" in ports ==> name == "default")
    && ((healthCheckPort == "" || healthCheckPort !in ports) && "default" !in ports ==> forall k | k in ports :: k == name || StringLess(name, k))
  }

  /** Without an empty port name that is what is picked; without any port it is 0. */
  lemma PickExact(ports: map<string, int>, healthCheckPort: string, order: seq<string>)
    requires X.IsOrderOf(order, ports) && "" !in ports
    ensures if ports == map[] then Picked(ports, healthCheckPort, order) == 0
            else exists name :: Chosen(ports, healthCheckPort, name) && Picked(ports, healthCheckPort, order) == ports[name]
    ensures forall a, b | Chosen(ports, healthCheckPort, a) && Chosen(ports, healthCheckPort, b) :: a == b
  {
    if ports != map[] {
      SomeKey(ports);
      FirstIsLeast(order);
      var name := if healthCheckPort != "" && healthCheckPort in ports then healthCheckPort
                  else if "default" in ports then "default" else FirstOf(order);
      assert Chosen(ports, healthCheckPort, name);
    }
    forall a, b | Chosen(ports, healthCheckPort, a) && Chosen(ports, healthCheckPort, b) ensures a == b {
      StringLessTotal(a, b);
    }
  }

  /** With an empty name the walk ends at it exactly if it comes last. */
  lemma EmptyNameWins(order: seq<string>)
    requires order != [] && forall i, j | 0 <= i < j < |order| :: order[i] != order[j]
    ensures FirstOf(order) == "" <==> order[|order| - 1] == ""
  {
    var n := |order| - 1;
    FirstIsKey(order[..n]);
  }

  /** So the port does not depend on the order, unless it comes to the walk and some name is empty. */
  lemma PickIsDeterministic(ports: map<string, int>, healthCheckPort: string, a: seq<string>, b: seq<string>)
    requires X.IsOrderOf(a, ports) && X.IsOrderOf(b, ports)
    requires "" !in ports
    ensures Picked(ports, healthCheckPort, a) == Picked(ports, healthCheckPort, b)
  {
    if a != [] {
      assert a[0] in ports;
      FirstIsLeast(a);
      FirstIsLeast(b);
      StringLessTotal(FirstOf(a), FirstOf(b));
    } else {
      assert forall k :: k !in ports;
    }
  }

  lemma PickDependsOnOrder()
    ensures var ports := map["" := 1, "a" := 2];
            && X.IsOrderOf(["", "a"], ports) && X.IsOrderOf(["a", ""], ports)
            && Picked(ports, "", ["", "a"]) == 2 && Picked(ports, "", ["a", ""]) == 1
  {
    var ports := map["" := 1, "a" := 2];
    assert |"default"| == 7 && "default" !in ports;
    assert ["", "a"][..1] == [""] && [""][..0] == [] && FirstOf([""]) == Better("", "") == "";
    assert FirstOf(["", "a"]) == Better("", "a") == "a";
    EmptyNameWins(["a", ""]);
    assert ports["a"] == 2 && ports[""] == 1;
  }
}
