/** The firewall rule a Service should have, and its agreement with the listeners sent to the
    load balancer. */
module FirewallArgs {
  import opened Wrappers
  import opened Ports

  /* ---- Text ---- */

  function Digit(n: nat): (c: char)
    requires n < 10
  {
    ('0' as int + n) as char
  }

  /** fmt.Sprintf("%d"). */
  function Itoa(n: nat): (s: string)
    ensures |s| > 0
  {
    if n < 10 then [Digit(n)] else Itoa(n / 10) + [Digit(n % 10)]
  }

  lemma {:induction false} ItoaInjective(a: nat, b: nat)
    requires Itoa(a) == Itoa(b)
    ensures a == b
  {
    var s := Itoa(a);
    assert s[|s| - 1] == Digit(a % 10) == Digit(b % 10);
    if a >= 10 && b >= 10 {
      assert s[..|s| - 1] == Itoa(a / 10) == Itoa(b / 10);
      ItoaInjective(a / 10, b / 10);
    }
  }

  function ToLower(s: string): string {
    if |s| == 0 then []
    else [if 'A' <= s[0] <= 'Z' then (s[0] as int + 32) as char else s[0]] + ToLower(s[1..])
  }

  /* ---- Collecting without repetition ---- */

  function AddNew(acc: seq<string>, x: string): seq<string> {
    if x in acc then acc else acc + [x]
  }

  ghost predicate NoRepeats(s: seq<string>) {
    forall i, j | 0 <= i < j < |s| :: s[i] != s[j]
  }

  function Distinct(s: seq<string>): (r: seq<string>)
    ensures NoRepeats(r)
    ensures forall x :: x in r <==> x in s
  {
    if |s| == 0 then [] else
      assert s == s[..|s| - 1] + [s[|s| - 1]];
      AddNew(Distinct(s[..|s| - 1]), s[|s| - 1])
  }

  lemma DistinctSnoc(s: seq<string>, x: string)
    ensures Distinct(s + [x]) == AddNew(Distinct(s), x)
  {
    assert (s + [x])[..|s|] == s;
  }

  function ProtocolTexts(ports: seq<Port>): seq<string> {
    seq(|ports|, i requires 0 <= i < |ports| => ToLower(Effective(ports[i])))
  }

  function PortTexts(listeners: seq<Listener>): seq<string> {
    if |listeners| == 0 then []
    else BackendTexts(listeners[0].backends) + PortTexts(listeners[1..])
  }

  function BackendTexts(backends: seq<Backend>): seq<string> {
    seq(|backends|, i requires 0 <= i < |backends| => Itoa(backends[i].port))
  }

  lemma {:induction false} PortTextsSnoc(listeners: seq<Listener>, l: Listener)
    ensures PortTexts(listeners + [l]) == PortTexts(listeners) + BackendTexts(l.backends)
  {
    if |listeners| > 0 {
      PortTextsSnoc(listeners[1..], l);
      assert (listeners + [l])[1..] == listeners[1..] + [l];
    }
  }

  lemma {:induction false} PortTextsMembers(listeners: seq<Listener>, s: string)
    ensures s in PortTexts(listeners) <==> exists l, b | l in listeners && b in l.backends :: s == Itoa(b.port)
  {
    if |listeners| > 0 {
      PortTextsMembers(listeners[1..], s);
      var texts := BackendTexts(listeners[0].backends);
      if s in texts {
        var i :| 0 <= i < |texts| && texts[i] == s;
        assert listeners[0].backends[i] in listeners[0].backends && listeners[0] in listeners;
      }
      if l, b :| l in listeners && b in l.backends && s == Itoa(b.port) {
        if l == listeners[0] {
          var i :| 0 <= i < |l.backends| && l.backends[i] == b;
          assert texts[i] == s;
        } else {
          assert l in listeners[1..];
        }
      }
    }
  }

  /* ---- The arguments ---- */

  /** Unknown is "could not find out", Skip is "nothing to do". */
  datatype ArgsResult = Unknown | Skip | Needs(args: RuleArgs)

  function SourcesOf(ranges: seq<string>): seq<Source> {
    if |ranges| == 0 then [Source("0.0.0.0/0", "")]
    else seq(|ranges|, i requires 0 <= i < |ranges| => Source(ranges[i], ""))
  }

  function DestinationPorts(offered: seq<Port>, nodes: Option<seq<Node>>): seq<string> {
    Distinct(PortTexts(Payload(offered, nodes)))
  }

  /** project: a project id is configured. vpc: the VPC lookup's answer, None when it failed.
      nodes: the node list, None when it could not be read. */
  function ArgsFor(project: bool, vpc: Option<string>, name: Option<string>, ports: seq<Port>, recorded: string,
                   ranges: seq<string>, nodes: Option<seq<Node>>): ArgsResult
  {
    var offered := OfferedPorts(ports, recorded);
    if !project then Skip
    else if vpc.None? then Unknown
    else if name.None? then Skip
    else if DriftSkip(ports, recorded) then Skip
    else if |DestinationPorts(offered, nodes)| == 0 then Skip
    else Needs(RuleArgs(name.value, vpc.value, DestinationPorts(offered, nodes),
                         Distinct(ProtocolTexts(offered)), SourcesOf(ranges)))
  }

  method CollectProtocols(ports: seq<Port>) returns (protocols: seq<string>)
    ensures protocols == Distinct(ProtocolTexts(ports))
  {
    protocols := [];
    for i := 0 to |ports|
      invariant protocols == Distinct(ProtocolTexts(ports)[..i])
    {
      var protocol := ToLower(Effective(ports[i]));
      DistinctSnoc(ProtocolTexts(ports)[..i], protocol);
      assert ProtocolTexts(ports)[..i + 1] == ProtocolTexts(ports)[..i] + [protocol];
      if protocol !in protocols {
        protocols := protocols + [protocol];
      }
    }
    assert ProtocolTexts(ports)[..|ports|] == ProtocolTexts(ports);
  }

  method CollectDestinationPorts(listeners: seq<Listener>) returns (ports: seq<string>)
    ensures ports == Distinct(PortTexts(listeners))
  {
    ports := [];
    for i := 0 to |listeners|
      invariant ports == Distinct(PortTexts(listeners[..i]))
    {
      ports := AddBackendPorts(ports, listeners[i].backends, PortTexts(listeners[..i]));
      PortTextsSnoc(listeners[..i], listeners[i]);
      assert listeners[..i + 1] == listeners[..i] + [listeners[i]];
    }
    assert listeners[..|listeners|] == listeners;
  }

  /** The inner loop: one listener's backend ports, each added unless already there. */
  method AddBackendPorts(ports0: seq<string>, backends: seq<Backend>, ghost seen: seq<string>)
    returns (ports: seq<string>)
    requires ports0 == Distinct(seen)
    ensures ports == Distinct(seen + BackendTexts(backends))
  {
    ports := ports0;
    assert seen + BackendTexts(backends)[..0] == seen;
    for j := 0 to |backends|
      invariant ports == Distinct(seen + BackendTexts(backends)[..j])
    {
      var text := Itoa(backends[j].port);
      ghost var sofar := seen + BackendTexts(backends)[..j];
      DistinctSnoc(sofar, text);
      assert seen + BackendTexts(backends)[..j + 1] == sofar + [text];
      if text !in ports {
        ports := ports + [text];
      }
    }
    assert BackendTexts(backends)[..|backends|] == BackendTexts(backends);
  }

  /* ---- Agreement ---- */

  ghost predicate HasBackend(nodes: Option<seq<Node>>) {
    nodes.Some? && |BackendIps(nodes.value)| > 0
  }

  /** The node ports a payload sends traffic to. */
  ghost predicate SendsTo(listeners: seq<Listener>, port: nat) {
    exists l, b | l in listeners && b in l.backends :: b.port == port
  }

  lemma {:induction false} ListenersSendTo(ports: seq<Port>, ips: seq<string>, port: nat)
    requires |ips| > 0
    ensures SendsTo(Listeners(ports, ips), port) <==> port != 0 && exists p | p in ports :: p.nodePort == port
  {
    if |ports| > 0 {
      var p, rest := ports[0], Listeners(ports[1..], ips);
      ListenersSendTo(ports[1..], ips, port);
      var l := Listener(p.port, BackendsAt(ips, p.nodePort));
      if p.nodePort != 0 && p.nodePort == port {
        assert l in Listeners(ports, ips) && l.backends[0] in l.backends;
      }
      if SendsTo(Listeners(ports, ips), port) {
        var m, b :| m in Listeners(ports, ips) && b in m.backends && b.port == port;
        if m !in rest { assert m == l; } else { assert SendsTo(rest, port); }
      }
      if SendsTo(rest, port) {
        var m, b :| m in rest && b in m.backends && b.port == port;
        assert m in Listeners(ports, ips);
      }
      if q :| q in ports && q.nodePort == port {
        if q != p { assert q in ports[1..]; }
      }
    }
  }

  /** The rule's destination ports are exactly the payload's backend ports, without repetition,
      even when the two were computed from different node reads. */
  lemma RuleAgreesWithListeners(project: bool, vpc: Option<string>, name: Option<string>, ports: seq<Port>,
                                recorded: string, ranges: seq<string>,
                                nodesForRule: Option<seq<Node>>, nodesForUpdate: Option<seq<Node>>, port: nat)
    requires HasBackend(nodesForRule) && HasBackend(nodesForUpdate)
    requires ArgsFor(project, vpc, name, ports, recorded, ranges, nodesForRule).Needs?
    ensures var args := ArgsFor(project, vpc, name, ports, recorded, ranges, nodesForRule).args;
            && NoRepeats(args.ports)
            && (Itoa(port) in args.ports <==> SendsTo(Payload(OfferedPorts(ports, recorded), nodesForUpdate), port))
            && (Known(recorded) ==> args.protocols == [ToLower(Wanted(recorded))])
            && !DriftSkip(ports, recorded)
  {
    var offered := OfferedPorts(ports, recorded);
    var listeners := Payload(offered, nodesForRule);
    PortTextsMembers(listeners, Itoa(port));
    if l, b :| l in listeners && b in l.backends && Itoa(port) == Itoa(b.port) {
      ItoaInjective(port, b.port);
    }
    ListenersSendTo(offered, BackendIps(nodesForRule.value), port);
    ListenersSendTo(offered, BackendIps(nodesForUpdate.value), port);
    if Known(recorded) {
      SingleProtocol(offered, ToLower(Wanted(recorded)));
    }
  }

  lemma SingleProtocol(ports: seq<Port>, protocol: string)
    requires |ports| > 0 && forall p | p in ports :: ToLower(Effective(p)) == protocol
    ensures Distinct(ProtocolTexts(ports)) == [protocol]
  {
    forall t | t in ProtocolTexts(ports) ensures t == protocol {
      var i :| 0 <= i < |ports| && ProtocolTexts(ports)[i] == t;
      assert ports[i] in ports;
    }
    DistinctOfOne(ProtocolTexts(ports), protocol);
  }

  lemma {:induction false} DistinctOfOne(s: seq<string>, x: string)
    requires |s| > 0 && forall t | t in s :: t == x
    ensures Distinct(s) == [x]
  {
    var rest := s[..|s| - 1];
    assert s[|s| - 1] in s;
    if |rest| > 0 {
      forall t | t in rest ensures t == x { assert t in s; }
      DistinctOfOne(rest, x);
    }
  }

  /** With backends in sight the rule is skipped exactly when no offered port has a node port, and
      then no payload, from whichever node read, carries a backend either. */
  lemma SkipAgreesWithListeners(vpc: string, name: string, ports: seq<Port>, recorded: string, ranges: seq<string>,
                                nodesForRule: Option<seq<Node>>, nodesForUpdate: Option<seq<Node>>)
    requires HasBackend(nodesForRule) && HasBackend(nodesForUpdate) && !DriftSkip(ports, recorded)
    ensures ArgsFor(true, Some(vpc), Some(name), ports, recorded, ranges, nodesForRule).Skip? <==>
            forall port: nat :: !SendsTo(Payload(OfferedPorts(ports, recorded), nodesForUpdate), port)
  {
    var offered := OfferedPorts(ports, recorded);
    NoPortsNoBackends(Payload(offered, nodesForRule));
    forall port: nat
      ensures SendsTo(Payload(offered, nodesForRule), port) <==> SendsTo(Payload(offered, nodesForUpdate), port)
    {
      ListenersSendTo(offered, BackendIps(nodesForRule.value), port);
      ListenersSendTo(offered, BackendIps(nodesForUpdate.value), port);
    }
  }

  lemma NoPortsNoBackends(listeners: seq<Listener>)
    ensures |Distinct(PortTexts(listeners))| == 0 <==> forall port: nat :: !SendsTo(listeners, port)
  {
    var d := Distinct(PortTexts(listeners));
    if |d| > 0 {
      PortTextsMembers(listeners, d[0]);
      var l, b :| l in listeners && b in l.backends && d[0] == Itoa(b.port);
      assert SendsTo(listeners, b.port);
    } else {
      forall port: nat ensures !SendsTo(listeners, port) {
        PortTextsMembers(listeners, Itoa(port));
        assert Itoa(port) !in d;
      }
    }
  }

  /* ---- The other fields ---- */

  /** The number a decimal text stands for. */
  function ValueOf(s: string): int {
    if |s| == 0 then 0 else 10 * ValueOf(s[..|s| - 1]) + (s[|s| - 1] as int - '0' as int)
  }

  /** Ports are written in decimal, without leading zeros. */
  lemma {:induction false} PortsAreDecimal(n: nat)
    ensures ValueOf(Itoa(n)) == n && (forall c | c in Itoa(n) :: '0' <= c <= '9') && (n > 0 ==> Itoa(n)[0] != '0')
  {
    if n >= 10 {
      PortsAreDecimal(n / 10);
      assert Itoa(n)[..|Itoa(n)| - 1] == Itoa(n / 10);
    }
  }

  /** Name and VPC are those looked up; the sources are the ranges in order, or everywhere when there are none;
      for a recorded protocol it is the one in lower case. */
  lemma ArgsExact(project: bool, vpc: Option<string>, name: Option<string>, ports: seq<Port>, recorded: string,
                  ranges: seq<string>, nodes: Option<seq<Node>>)
    requires ArgsFor(project, vpc, name, ports, recorded, ranges, nodes).Needs?
    ensures var args := ArgsFor(project, vpc, name, ports, recorded, ranges, nodes).args;
            && name == Some(args.name) && vpc == Some(args.vpc)
            && (if |ranges| == 0 then args.sources == [Source("0.0.0.0/0", "")]
                else |args.sources| == |ranges| &&
                     forall i | 0 <= i < |ranges| :: args.sources[i].cidr == ranges[i] && args.sources[i].resourceId == "")
            && (recorded == "LOAD_BALANCER_PROTOCOL_TCP" ==> args.protocols == ["tcp"])
            && (recorded == "LOAD_BALANCER_PROTOCOL_UDP" ==> args.protocols == ["udp"])
  {
    if Known(recorded) { SingleProtocol(OfferedPorts(ports, recorded), ToLower(Wanted(recorded))); }
    Lowered();
  }

  lemma Lowered()
    ensures ToLower("TCP") == "tcp" && ToLower("UDP") == "udp"
  {
    assert ToLower("P") == "p" && ToLower("CP") == "cp" && ToLower("DP") == "dp";
    assert "TCP"[1..] == "CP" && "CP"[1..] == "P" && "UDP"[1..] == "DP" && "DP"[1..] == "P";
  }

  /** The CIDRs of a rule's sources. */
  function Cidrs(sources: seq<Source>): seq<string> {
    seq(|sources|, i requires 0 <= i < |sources| => sources[i].cidr)
  }

  /** They admit just these ranges, or everywhere when there are none. */
  ghost predicate Admits(sources: seq<Source>, ranges: seq<string>) {
    && multiset(Cidrs(sources)) == multiset(if |ranges| == 0 then ["0.0.0.0/0"] else ranges)
    && forall x | x in sources :: x.resourceId == ""
  }

  lemma RemoveAt<T>(b: seq<T>, i: nat)
    requires i < |b|
    ensures multiset(b[..i] + b[i + 1..]) == multiset(b) - multiset{b[i]}
  {
    assert b == b[..i] + [b[i]] + b[i + 1..];
  }

  lemma CidrsWithout(b: seq<Source>, i: nat)
    requires i < |b|
    ensures multiset(Cidrs(b)) == multiset(Cidrs(b[..i] + b[i + 1..])) + multiset{b[i].cidr}
  {
    assert Cidrs(b[..i] + b[i + 1..]) == Cidrs(b)[..i] + Cidrs(b)[i + 1..];
    RemoveAt(Cidrs(b), i);
  }

  lemma {:induction false} CidrsOfEqual(a: seq<Source>, b: seq<Source>)
    requires multiset(a) == multiset(b)
    ensures multiset(Cidrs(a)) == multiset(Cidrs(b))
    decreases |a|
  {
    if |a| == 0 {
      assert |multiset(b)| == 0;
    } else {
      assert a[0] in multiset(b);
      var i :| 0 <= i < |b| && b[i] == a[0];
      RemoveAt(a, 0);
      RemoveAt(b, i);
      CidrsWithout(a, 0);
      CidrsWithout(b, i);
      CidrsOfEqual(a[..0] + a[1..], b[..i] + b[i + 1..]);
    }
  }

  /** So do the sources of the wanted rule, in any order. */
  lemma ArgsAdmit(project: bool, vpc: Option<string>, name: Option<string>, ports: seq<Port>, recorded: string,
                  ranges: seq<string>, nodes: Option<seq<Node>>, sources: seq<Source>)
    requires var r := ArgsFor(project, vpc, name, ports, recorded, ranges, nodes);
             r.Needs? && multiset(sources) == multiset(r.args.sources)
    ensures Admits(sources, ranges)
  {
    var wanted := ArgsFor(project, vpc, name, ports, recorded, ranges, nodes).args.sources;
    ArgsExact(project, vpc, name, ports, recorded, ranges, nodes);
    CidrsOfEqual(sources, wanted);
    assert Cidrs(wanted) == if |ranges| == 0 then ["0.0.0.0/0"] else ranges;
    forall x | x in sources ensures x.resourceId == "" { assert x in multiset(wanted); }
  }
}
