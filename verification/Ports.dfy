/** From a Service's ports and the cluster's nodes to listeners and a firewall rule. */
module Ports {
  import opened Wrappers

  const LB_TCP := "LOAD_BALANCER_PROTOCOL_TCP"
  const LB_UDP := "LOAD_BALANCER_PROTOCOL_UDP"

  /** protocol is "", "TCP", "UDP" or "SCTP"; nodePort is 0 when none is assigned. */
  datatype Port = Port(port: nat, nodePort: nat, protocol: string)
  datatype Condition = Condition(kind: string, status: string)
  datatype Address = Address(kind: string, address: string)
  datatype Node = Node(name: string, labels: map<string, string>, conditions: seq<Condition>, addresses: seq<Address>)
  datatype Backend = Backend(ip: string, port: nat)
  datatype Listener = Listener(listenPort: nat, backends: seq<Backend>)
  datatype Source = Source(cidr: string, resourceId: string)
  datatype RuleArgs = RuleArgs(name: string, vpc: string, ports: seq<string>, protocols: seq<string>,
                               sources: seq<Source>)

  /* ---- Protocols ---- */

  function Effective(p: Port): string {
    if p.protocol == "" then "TCP" else p.protocol
  }

  datatype Derived = Serves(lbProtocol: string) | MixedProtocols | UnsupportedProtocol

  predicate AnyPort(ports: seq<Port>, protocol: string) {
    exists p | p in ports :: Effective(p) == protocol
  }

  predicate AllSupported(ports: seq<Port>) {
    forall p | p in ports :: Effective(p) == "TCP" || Effective(p) == "UDP"
  }

  function Derive(ports: seq<Port>): Derived {
    if !AllSupported(ports) then UnsupportedProtocol
    else if AnyPort(ports, "TCP") && AnyPort(ports, "UDP") then MixedProtocols
    else Serves(if AnyPort(ports, "UDP") then LB_UDP else LB_TCP)
  }

  method DeriveLoadBalancerProtocol(ports: seq<Port>) returns (r: Derived)
    ensures r == Derive(ports)
  {
    var hasTCP, hasUDP := false, false;
    for i := 0 to |ports|
      invariant hasTCP == AnyPort(ports[..i], "TCP")
      invariant hasUDP == AnyPort(ports[..i], "UDP")
      invariant AllSupported(ports[..i])
    {
      assert ports[..i + 1] == ports[..i] + [ports[i]];
      if Effective(ports[i]) == "TCP" {
        hasTCP := true;
      } else if Effective(ports[i]) == "UDP" {
        hasUDP := true;
      } else {
        assert ports[i] in ports;
        return UnsupportedProtocol;
      }
    }
    assert ports[..|ports|] == ports;
    if hasTCP && hasUDP {
      return MixedProtocols;
    }
    r := Serves(if hasUDP then LB_UDP else LB_TCP);
  }

  predicate Known(lbProtocol: string) { lbProtocol == LB_TCP || lbProtocol == LB_UDP }

  /** The port protocol a load balancer of the given protocol takes: anything but UDP means TCP. */
  function Wanted(lbProtocol: string): string {
    if lbProtocol == LB_UDP then "UDP" else "TCP"
  }

  function PortsFor(ports: seq<Port>, lbProtocol: string): (r: seq<Port>)
    ensures forall p :: p in r <==> p in ports && Effective(p) == Wanted(lbProtocol)
  {
    if |ports| == 0 then []
    else (if Effective(ports[0]) == Wanted(lbProtocol) then [ports[0]] else []) + PortsFor(ports[1..], lbProtocol)
  }

  lemma {:induction false} PortsForSnoc(ports: seq<Port>, p: Port, lbProtocol: string)
    ensures PortsFor(ports + [p], lbProtocol) ==
            PortsFor(ports, lbProtocol) + (if Effective(p) == Wanted(lbProtocol) then [p] else [])
  {
    if |ports| > 0 {
      PortsForSnoc(ports[1..], p, lbProtocol);
      assert (ports + [p])[1..] == ports[1..] + [p];
    }
  }

  method ServicePortsForProtocol(ports: seq<Port>, lbProtocol: string) returns (matching: seq<Port>)
    ensures matching == PortsFor(ports, lbProtocol)
  {
    matching := [];
    for i := 0 to |ports|
      invariant matching == PortsFor(ports[..i], lbProtocol)
    {
      assert ports[..i + 1] == ports[..i] + [ports[i]];
      PortsForSnoc(ports[..i], ports[i], lbProtocol);
      if Effective(ports[i]) == Wanted(lbProtocol) {
        matching := matching + [ports[i]];
      }
    }
    assert ports[..|ports|] == ports;
  }

  /** At creation the filter changes nothing: it is the identity on every accepted port list. */
  lemma {:induction false} FilterIdentity(ports: seq<Port>, lbProtocol: string)
    requires Derive(ports) == Serves(lbProtocol)
    ensures PortsFor(ports, lbProtocol) == ports
  {
    forall p | p in ports ensures Effective(p) == Wanted(lbProtocol) {
      if Effective(p) == "TCP" { assert AnyPort(ports, "TCP"); } else { assert AnyPort(ports, "UDP"); }
    }
    FilterAll(ports, lbProtocol);
  }

  lemma {:induction false} FilterAll(ports: seq<Port>, lbProtocol: string)
    requires forall p | p in ports :: Effective(p) == Wanted(lbProtocol)
    ensures PortsFor(ports, lbProtocol) == ports
  {
    if |ports| > 0 {
      FilterAll(ports[1..], lbProtocol);
      assert ports == [ports[0]] + ports[1..];
    }
  }

  /** The ports offered to a load balancer whose recorded protocol is recorded ("" when none). */
  function OfferedPorts(ports: seq<Port>, recorded: string): seq<Port> {
    if Known(recorded) then PortsFor(ports, recorded) else ports
  }

  /** With a protocol recorded those of it, in their order; without one all of them. */
  lemma OfferedExact(a: seq<Port>, p: Port, recorded: string)
    ensures OfferedPorts([], recorded) == []
    ensures OfferedPorts(a + [p], recorded) ==
            OfferedPorts(a, recorded) +
            (if recorded == "LOAD_BALANCER_PROTOCOL_TCP" && p.protocol !in {"", "TCP"} then []
             else if recorded == "LOAD_BALANCER_PROTOCOL_UDP" && p.protocol != "UDP" then []
             else [p])
  {
    PortsForSnoc(a, p, recorded);
  }

  /** Every port was edited away from the load balancer's protocol: leave things as they are. */
  predicate DriftSkip(ports: seq<Port>, recorded: string) {
    Known(recorded) && |PortsFor(ports, recorded)| == 0 && |ports| > 0
  }

  /* ---- Nodes ---- */

  predicate IsNodeReady(n: Node) {
    exists c | c in n.conditions :: c.kind == "Ready" && c.status == "True"
  }

  /** strconv.ParseBool: None when the text is neither spelling of a truth value. */
  function ParseBool(s: string): Option<bool> {
    if s in ["1", "t", "T", "true", "TRUE", "True"] then Some(true)
    else if s in ["0", "f", "F", "false", "FALSE", "False"] then Some(false)
    else None
  }

  const EXCLUDE_LABEL := "node.kubernetes.io/exclude-from-external-load-balancers"

  predicate IsNodeIncluded(n: Node) {
    EXCLUDE_LABEL in n.labels ==> ParseBool(n.labels[EXCLUDE_LABEL]) == Some(false)
  }

  predicate Usable(n: Node) { IsNodeReady(n) && IsNodeIncluded(n) }

  function InternalIps(addresses: seq<Address>): seq<string> {
    if |addresses| == 0 then []
    else (if addresses[0].kind == "InternalIP" then [addresses[0].address] else []) + InternalIps(addresses[1..])
  }

  function BackendIps(nodes: seq<Node>): seq<string> {
    if |nodes| == 0 then []
    else (if Usable(nodes[0]) then InternalIps(nodes[0].addresses) else []) + BackendIps(nodes[1..])
  }

  lemma {:induction false} InternalIpsSnoc(addresses: seq<Address>, a: Address)
    ensures InternalIps(addresses + [a]) == InternalIps(addresses) + (if a.kind == "InternalIP" then [a.address] else [])
  {
    if |addresses| > 0 {
      InternalIpsSnoc(addresses[1..], a);
      assert (addresses + [a])[1..] == addresses[1..] + [a];
    }
  }

  lemma {:induction false} BackendIpsSnoc(nodes: seq<Node>, n: Node)
    ensures BackendIps(nodes + [n]) == BackendIps(nodes) + (if Usable(n) then InternalIps(n.addresses) else [])
  {
    var all := nodes + [n];
    if |nodes| == 0 {
      assert all == [n] && all[1..] == [];
    } else {
      BackendIpsSnoc(nodes[1..], n);
      assert all[0] == nodes[0] && all[1..] == nodes[1..] + [n];
    }
  }

  /* ---- Listeners ---- */

  function BackendsAt(ips: seq<string>, port: nat): seq<Backend> {
    seq(|ips|, i requires 0 <= i < |ips| => Backend(ips[i], port))
  }

  function Listeners(ports: seq<Port>, ips: seq<string>): seq<Listener> {
    if |ports| == 0 then []
    else (if ports[0].nodePort == 0 then [] else [Listener(ports[0].port, BackendsAt(ips, ports[0].nodePort))])
         + Listeners(ports[1..], ips)
  }

  /** The payload: empty when the nodes could not be listed. */
  function Payload(ports: seq<Port>, nodes: Option<seq<Node>>): seq<Listener> {
    if nodes.None? then [] else Listeners(ports, BackendIps(nodes.value))
  }

  lemma {:induction false} ListenersSnoc(ports: seq<Port>, p: Port, ips: seq<string>)
    ensures Listeners(ports + [p], ips) ==
            Listeners(ports, ips) + (if p.nodePort == 0 then [] else [Listener(p.port, BackendsAt(ips, p.nodePort))])
  {
    if |ports| > 0 {
      ListenersSnoc(ports[1..], p, ips);
      assert (ports + [p])[1..] == ports[1..] + [p];
    }
  }

  method CollectBackendIps(nodes: seq<Node>) returns (internalIps: seq<string>)
    ensures internalIps == BackendIps(nodes)
  {
    internalIps := [];
    for i := 0 to |nodes|
      invariant internalIps == BackendIps(nodes[..i])
    {
      assert nodes[..i + 1] == nodes[..i] + [nodes[i]];
      BackendIpsSnoc(nodes[..i], nodes[i]);
      if Usable(nodes[i]) {
        var addresses := nodes[i].addresses;
        ghost var before := internalIps;
        for j := 0 to |addresses|
          invariant internalIps == before + InternalIps(addresses[..j])
        {
          assert addresses[..j + 1] == addresses[..j] + [addresses[j]];
          InternalIpsSnoc(addresses[..j], addresses[j]);
          if addresses[j].kind == "InternalIP" {
            internalIps := internalIps + [addresses[j].address];
          }
        }
        assert addresses[..|addresses|] == addresses;
      }
    }
    assert nodes[..|nodes|] == nodes;
  }

  method ParseListenPortsAndBackends(ports: seq<Port>, nodes: Option<seq<Node>>) returns (listeners: seq<Listener>)
    ensures listeners == Payload(ports, nodes)
  {
    listeners := [];
    if nodes.None? {
      return;
    }
    var internalIps := CollectBackendIps(nodes.value);
    for i := 0 to |ports|
      invariant listeners == Listeners(ports[..i], internalIps)
    {
      assert ports[..i + 1] == ports[..i] + [ports[i]];
      ListenersSnoc(ports[..i], ports[i], internalIps);
      if ports[i].nodePort == 0 {
        continue;
      }
      var backends: seq<Backend> := [];
      for j := 0 to |internalIps|
        invariant backends == BackendsAt(internalIps, ports[i].nodePort)[..j]
      {
        backends := backends + [Backend(internalIps[j], ports[i].nodePort)];
      }
      assert backends == BackendsAt(internalIps, ports[i].nodePort);
      listeners := listeners + [Listener(ports[i].port, backends)];
    }
    assert ports[..|ports|] == ports;
  }

  /* ---- The payload, said outright ---- */

  /** The node is ready and nobody excluded it from load balancing. */
  ghost predicate Serving(n: Node) {
    && (exists c | c in n.conditions :: c.kind == "Ready" && c.status == "True")
    && var key := "node.kubernetes.io/exclude-from-external-load-balancers";
       key !in n.labels || n.labels[key] in {"0", "f", "F", "false", "FALSE", "False"}
  }

  lemma {:induction false} InternalIpsExact(addresses: seq<Address>, ip: string)
    ensures ip in InternalIps(addresses) <==> exists a | a in addresses :: a.kind == "InternalIP" && a.address == ip
  {
    if |addresses| > 0 {
      InternalIpsExact(addresses[1..], ip);
      if a :| a in addresses && a.kind == "InternalIP" && a.address == ip {
        if a != addresses[0] { assert a in addresses[1..]; }
      }
    }
  }

  /** Backends are the internal addresses of the serving nodes, and no others. */
  lemma {:induction false} BackendIpsExact(nodes: seq<Node>, ip: string)
    ensures ip in BackendIps(nodes) <==> exists n | n in nodes :: ServingAt(n, ip)
  {
    if |nodes| > 0 {
      BackendIpsExact(nodes[1..], ip);
      InternalIpsExact(nodes[0].addresses, ip);
      assert ip in BackendIps(nodes) <==> ServingAt(nodes[0], ip) || ip in BackendIps(nodes[1..]);
      assert forall n :: n in nodes <==> n == nodes[0] || n in nodes[1..];
    }
  }

  /** The node serves and ip is one of its internal addresses. */
  ghost predicate ServingAt(n: Node, ip: string) {
    Serving(n) && exists a | a in n.addresses :: a.kind == "InternalIP" && a.address == ip
  }

  /** l takes port p and spreads it over these addresses at p's node port. */
  ghost predicate Spreads(l: Listener, p: Port, ips: seq<string>) {
    && l.listenPort == p.port && |l.backends| == |ips|
    && forall i | 0 <= i < |ips| :: l.backends[i].ip == ips[i] && l.backends[i].port == p.nodePort
  }

  /** One listener for each port with a node port, over all the backends, and no other. */
  lemma {:induction false} ListenersExact(ports: seq<Port>, ips: seq<string>, l: Listener)
    ensures l in Listeners(ports, ips) <==> exists p | p in ports :: p.nodePort != 0 && Spreads(l, p, ips)
  {
    if |ports| > 0 {
      ListenersExact(ports[1..], ips, l);
      var p := ports[0];
      var first := Listener(p.port, BackendsAt(ips, p.nodePort));
      if Spreads(l, p, ips) { assert l.backends == first.backends; }
      if q :| q in ports && q.nodePort != 0 && Spreads(l, q, ips) {
        if q != p { assert q in ports[1..]; }
      }
      if l in Listeners(ports[1..], ips) {
        var q :| q in ports[1..] && q.nodePort != 0 && Spreads(l, q, ips);
        assert q in ports;
      }
      if l == first && p.nodePort != 0 { assert Spreads(first, p, ips); }
    }
  }
}
