/** What a pass over a Service that is not being deleted does, told by its calls and the answers alone. */
module PassAnswers {
  import opened Wrappers
  import opened MergePatch
  import opened Ports
  import opened FirewallArgs
  import opened Polling
  import opened Model
  import opened Protocol
  import opened FirewallPass
  import opened PassSpec

  /* ---- Answers ---- */

  /** Every port is TCP or UDP, an empty protocol being TCP, and not both occur. */
  ghost predicate OneProtocol(ports: seq<Port>) {
    && (forall p | p in ports :: p.protocol in {"", "TCP", "UDP"})
    && !((exists p | p in ports :: p.protocol in {"", "TCP"}) && exists p | p in ports :: p.protocol == "UDP")
  }

  /** The load balancer protocol those ports ask for. */
  ghost function ProtocolFor(ports: seq<Port>): string {
    if exists p | p in ports :: p.protocol == "UDP" then "LOAD_BALANCER_PROTOCOL_UDP" else "LOAD_BALANCER_PROTOCOL_TCP"
  }

  /** The direct read shows a Service without a load balancer that is not being deleted, or is not permitted. */
  predicate AllowsCreate(reply: Reply) {
    || (reply.Found? && LbId !in reply.copy.obj.ann && reply.copy.obj.deletedAt.None?)
    || (reply.Refused? && reply.status == Some(403))
  }

  /** It shows one that has a load balancer, is being deleted, or is gone. */
  predicate ForbidsCreate(reply: Reply) {
    || (reply.Found? && (LbId in reply.copy.obj.ann || reply.copy.obj.deletedAt.Some?))
    || (reply.Refused? && reply.status == Some(404))
  }

  /** v is the first listed of that name. */
  ghost predicate FirstOf(items: seq<LbView>, name: string, v: LbView) {
    exists i: nat :: i < |items| && items[i] == v && v.name == name && forall j | 0 <= j < i :: items[j].name != name
  }

  /** The wait for an operation ends with its success and a readable result. */
  ghost predicate WaitMade(first: LbOperation, script: seq<Poll<LbOperation>>, id: Id, vip: string) {
    exists n: nat ::
      && Polled(StateOf, first, script, n) && Heard(first, script, n).Some?
      && var op := Heard(first, script, n).value;
         op.state == "SUCCEEDED" && op.result == LbResult.Decoded(id, vip)
  }

  /* ---- Recording ---- */

  /** From n on: id and protocol are stored, then the VIP if there is one, then the firewall rule is seen to.
      The first write that is not stored ends the pass with an error, a missing VIP asks for a pass in ten
      seconds. */
  ghost predicate RecordsFrom(cfg: Config, k: Id, ann: Annotations, t: Transcript, n: nat, id: Id, vip: string,
                              protocol: string, requeueAfter: int, err: bool) {
    && n < |t| && t[n].0 == PatchAnn(Diff(ann, ann[LbId := id][LbProtocol := protocol]))
    && if !t[n].1.Stored? then |t| == n + 1 && err
       else if vip == "" then |t| == n + 1 && !err && requeueAfter == 10_000_000_000
       else
         && n + 1 < |t| && t[n + 1].0 == PatchStatus(vip)
         && if !t[n + 1].1.Stored? then |t| == n + 2 && err
            else !err && SeesToRule(cfg, k, t[n + 1].1.copy.obj, t[n + 2..], requeueAfter)
  }

  /** The firewall step on o; its errors ask for a pass in ten seconds. */
  ghost predicate SeesToRule(cfg: Config, k: Id, o: Object, t: Transcript, requeueAfter: int) {
    exists wait, err :: EnsuresRule(cfg, k, o, t, wait, err) && requeueAfter == if err then 10_000_000_000 else wait
  }

  /* ---- Creation ---- */

  /** What a pass over a Service without a load balancer makes of the list, and of an empty one. */
  ghost predicate Resolves(cfg: Config, k: Id, o: Object, name: string, t: Transcript, requeueAfter: int, err: bool) {
    && |t| > 3 && t[3].0.LookupLb?
    && if !t[3].1.Lbs? then |t| == 4 && err
       else if exists v | v in t[3].1.items :: v.name == name then
         exists v :: FirstOf(t[3].1.items, name, v) &&
           RecordsFrom(cfg, k, o.ann, t, 4, v.id, v.vip,
                       if v.protocol in {"LOAD_BALANCER_PROTOCOL_TCP", "LOAD_BALANCER_PROTOCOL_UDP"} then v.protocol
                       else ProtocolFor(o.spec.ports), requeueAfter, err)
       else SubmitsCreate(cfg, k, o, t, requeueAfter, err)
  }

  /** One create with the protocol of the ports and the listeners for the nodes just listed, then the wait. A
      refusal is an error unless it is the client's. */
  ghost predicate SubmitsCreate(cfg: Config, k: Id, o: Object, t: Transcript, requeueAfter: int, err: bool) {
    && |t| > 4 && t[4].0.CreateLb? && t[4].0.protocol == ProtocolFor(o.spec.ports)
    && t[1].1.NodeList? && t[4].0.listeners == Payload(o.spec.ports, t[1].1.nodes)
    && if !t[4].1.LbOp? then
         |t| == 5 && requeueAfter == 0 && (err <==> !(t[4].1.Refused? && 400 <= t[4].1.status.GetOr(0) < 500))
       else
         && |t| > 5 && t[5].0 == AwaitLb(t[4].1.op.id) && t[5].1.Polls?
         && ((exists id, vip :: WaitMade(t[4].1.op, t[5].1.script, id, vip) &&
                RecordsFrom(cfg, k, o.ann, t, 6, id, vip, ProtocolFor(o.spec.ports), requeueAfter, err))
             || (|t| == 6 && err && forall id, vip :: !WaitMade(t[4].1.op, t[5].1.script, id, vip)))
  }

  /** A pass over a Service with the finalizer and without a load balancer. */
  ghost predicate CreationSaid(cfg: Config, k: Id, o: Object, t: Transcript, requeueAfter: int, err: bool) {
    if !OneProtocol(o.spec.ports) then t == [] && !err && requeueAfter == 0
    else
      && |t| > 0 && t[0].0.FreshGet?
      && if ForbidsCreate(t[0].1) then |t| == 1 && !err && requeueAfter == 1_000_000_000
         else if !AllowsCreate(t[0].1) then |t| == 1 && err
         else
           && |t| > 2 && t[1].0.ListNodes? && t[2].0.VpcInfo?
           && if !t[2].1.Vpc? || NameOf(cfg, k).None? then |t| == 3 && err
              else Resolves(cfg, k, o, NameOf(cfg, k).value, t, requeueAfter, err)
  }

  /* ---- Why ---- */

  lemma DerivesSaid(ports: seq<Port>)
    ensures OneProtocol(ports) <==> Derive(ports).Serves?
    ensures Derive(ports).Serves? ==> Derive(ports).lbProtocol == ProtocolFor(ports)
  {
    assert (exists p | p in ports :: p.protocol in {"", "TCP"}) <==> AnyPort(ports, "TCP");
    assert (exists p | p in ports :: p.protocol == "UDP") <==> AnyPort(ports, "UDP");
  }

  lemma ReadSaid(reply: Reply)
    ensures StalenessOf(reply).Stale? <==> ForbidsCreate(reply)
    ensures StalenessOf(reply).UpToDate? <==> AllowsCreate(reply)
  {
  }

  lemma {:induction false} MatchesSaid(items: seq<LbView>, name: string)
    ensures |ExactMatches(items, name)| == 0 <==> forall v | v in items :: v.name != name
    ensures |ExactMatches(items, name)| > 0 ==> FirstOf(items, name, ExactMatches(items, name)[0])
  {
    if |items| > 0 {
      if items[0].name == name {
        assert ExactMatches(items, name)[0] == items[0];
      } else {
        MatchesSaid(items[1..], name);
        if |ExactMatches(items[1..], name)| > 0 {
          var v := ExactMatches(items[1..], name)[0];
          var i: nat :| i < |items[1..]| && items[1..][i] == v && forall j | 0 <= j < i :: items[1..][j].name != name;
          assert items[i + 1] == v;
          forall j | 0 <= j < i + 1 ensures items[j].name != name { if j > 0 { assert items[j] == items[1..][j - 1]; } }
        }
      }
    }
    assert forall v :: v in ExactMatches(items, name) <==> v in items && v.name == name;
    if |ExactMatches(items, name)| > 0 { assert ExactMatches(items, name)[0] in ExactMatches(items, name); }
  }

  lemma WaitSaid(first: LbOperation, script: seq<Poll<LbOperation>>)
    ensures CreatedBy(first, script).Some? ==>
              WaitMade(first, script, CreatedBy(first, script).value.0, CreatedBy(first, script).value.1)
    ensures forall id, vip :: WaitMade(first, script, id, vip) ==> CreatedBy(first, script) == Some((id, vip))
  {
    var n := OutcomeExact(StateOf, first, script);
    forall id, vip | WaitMade(first, script, id, vip) ensures CreatedBy(first, script) == Some((id, vip)) {
      var m: nat :| Polled(StateOf, first, script, m) && Heard(first, script, m).Some? &&
                    Heard(first, script, m).value.state == "SUCCEEDED" &&
                    Heard(first, script, m).value.result == LbResult.Decoded(id, vip);
      OneEnd(first, script, n, m);
    }
  }

  /** A wait that has ended has no later end. */
  lemma OneEnd(first: LbOperation, script: seq<Poll<LbOperation>>, n: nat, m: nat)
    requires Polled(StateOf, first, script, n) && Polled(StateOf, first, script, m)
    requires Heard(first, script, n).Some? && Heard(first, script, m).Some?
    requires StateOf(Heard(first, script, m).value) != "IN_PROGRESS"
    requires StateOf(Heard(first, script, n).value) != "IN_PROGRESS" ||
             n == |script| || !(script[n].Answer? && script[n].status == 200)
    ensures n == m
  {
  }

  lemma RecordsSaid(cfg: Config, k: Id, ann: Annotations, id: Id, vip: string, protocol: string, t: Transcript, n: nat,
                    requeueAfter: int, err: bool)
    requires n <= |t| && Records(cfg, k, ann, id, vip, protocol, t[n..], requeueAfter, err)
    ensures RecordsFrom(cfg, k, ann, t, n, id, vip, protocol, requeueAfter, err)
  {
    var r := t[n..];
    assert r[0] == t[n];
    if r[0].1.Stored? && vip != "" {
      assert r[1] == t[n + 1];
      if r[1].1.Stored? {
        assert r[2..] == t[n + 2..];
        var o := r[1].1.copy.obj;
        if EnsuresRule(cfg, k, o, t[n + 2..], requeueAfter, false) {
          assert SeesToRule(cfg, k, o, t[n + 2..], requeueAfter);
        } else {
          var wait :| EnsuresRule(cfg, k, o, t[n + 2..], wait, true);
          assert SeesToRule(cfg, k, o, t[n + 2..], requeueAfter);
        }
      }
    }
  }

  lemma CreatesSaid(cfg: Config, k: Id, o: Object, protocol: string, listeners: seq<Listener>, t: Transcript,
                    requeueAfter: int, err: bool)
    requires |t| >= 4 && CreatesAndRecords(cfg, k, o.ann, protocol, listeners, t[4..], requeueAfter, err)
    requires protocol == ProtocolFor(o.spec.ports) && t[1].1.NodeList? && listeners == Payload(o.spec.ports, t[1].1.nodes)
    ensures SubmitsCreate(cfg, k, o, t, requeueAfter, err)
  {
    var r := t[4..];
    assert r[0] == t[4];
    if r[0].1.LbOp? {
      assert r[1] == t[5] && r[2..] == t[6..];
      var first, script := t[4].1.op, t[5].1.script;
      WaitSaid(first, script);
      var created := CreatedBy(first, script);
      if created.Some? {
        RecordsSaid(cfg, k, o.ann, created.value.0, created.value.1, protocol, t, 6, requeueAfter, err);
      }
    }
  }

  lemma ResolvesSaid(cfg: Config, k: Id, o: Object, name: string, t: Transcript, requeueAfter: int, err: bool)
    requires |t| >= 3 && t[1].1.NodeList? && Derive(o.spec.ports).Serves?
    requires AdoptsOrCreates(cfg, k, o.ann, name, ProtocolFor(o.spec.ports), Payload(o.spec.ports, t[1].1.nodes), t[3..],
                             requeueAfter, err)
    ensures Resolves(cfg, k, o, name, t, requeueAfter, err)
  {
    var r := t[3..];
    assert r[0] == t[3] && r[1..] == t[4..];
    if t[3].1.Lbs? {
      MatchesSaid(t[3].1.items, name);
      var matches := ExactMatches(t[3].1.items, name);
      if |matches| > 0 {
        var v := matches[0];
        RecordsSaid(cfg, k, o.ann, v.id, v.vip, ActualProtocol(v.protocol, ProtocolFor(o.spec.ports)), t, 4, requeueAfter, err);
        assert v in matches;
      } else {
        CreatesSaid(cfg, k, o, ProtocolFor(o.spec.ports), Payload(o.spec.ports, t[1].1.nodes), t, requeueAfter, err);
      }
    }
  }

  lemma CreationByAnswers(cfg: Config, k: Id, o: Object, t: Transcript, requeueAfter: int, err: bool)
    requires HandlesCreate(cfg, k, o, t, requeueAfter, err)
    ensures CreationSaid(cfg, k, o, t, requeueAfter, err)
  {
    DerivesSaid(o.spec.ports);
    if Derive(o.spec.ports).Serves? {
      ReadSaid(t[0].1);
      if AllowsCreate(t[0].1) {
        var protocol := ProtocolFor(o.spec.ports);
        assert Prepares(cfg, k, o, protocol, t[1..], requeueAfter, err);
        assert t[1..][0] == t[1] && t[1..][1] == t[2] && t[1..][2..] == t[3..];
        FilterIdentity(o.spec.ports, protocol);
        if t[2].1.Vpc? && NameOf(cfg, k).Some? {
          ResolvesSaid(cfg, k, o, NameOf(cfg, k).value, t, requeueAfter, err);
        }
      }
    }
  }

  /* ---- The firewall step ---- */

  /** The load balancer serves one protocol and every port was edited away from it. */
  ghost predicate AllPortsElsewhere(o: Object) {
    && |o.spec.ports| > 0
    && ((Recorded(o) == "LOAD_BALANCER_PROTOCOL_TCP" && forall p | p in o.spec.ports :: p.protocol !in {"", "TCP"}) ||
        (Recorded(o) == "LOAD_BALANCER_PROTOCOL_UDP" && forall p | p in o.spec.ports :: p.protocol != "UDP"))
  }

  lemma ElsewhereSaid(o: Object)
    ensures DriftSkip(o.spec.ports, Recorded(o)) <==> AllPortsElsewhere(o)
  {
    var r := PortsFor(o.spec.ports, Recorded(o));
    if |r| > 0 { assert r[0] in r; }
  }

  /** The rule wanted: of that name and in that VPC, on the node ports of the listeners. */
  predicate WantedRule(cfg: Config, k: Id, o: Object, vpc: string, nodes: Option<seq<Node>>, args: RuleArgs) {
    ArgsFor(true, Some(vpc), NameOf(cfg, k), o.spec.ports, Recorded(o), o.spec.ranges, nodes) == Needs(args)
  }

  /** Nothing without the annotation or a project. Else the VPC is looked up, an error ends the step; then, with
      a name and ports left, the nodes; then, with a destination, the step for the wanted rule. */
  ghost predicate RuleStepSaid(cfg: Config, k: Id, o: Object, t: Transcript, wait: int, err: bool) {
    if Text(o.ann, Manage) != "true" || !cfg.project then t == [] && !err && wait == 0
    else
      && |t| > 0 && t[0].0.VpcInfo?
      && if !t[0].1.Vpc? then |t| == 1 && err
         else if NameOf(cfg, k).None? || AllPortsElsewhere(o) then |t| == 1 && !err && wait == 0
         else
           && |t| > 1 && t[1].0.ListNodes?
           && var nodes := if t[1].1.NodeList? then t[1].1.nodes else None;
              if |DestinationPorts(OfferedPorts(o.spec.ports, Recorded(o)), nodes)| == 0 then |t| == 2 && !err && wait == 0
              else exists args ::
                     WantedRule(cfg, k, o, t[0].1.vpc, nodes, args) && After(o.ann, args, t[2..]) == Some(Ended(wait, err))
  }

  lemma RuleStepByAnswers(cfg: Config, k: Id, o: Object, t: Transcript, wait: int, err: bool)
    requires EnsuresRule(cfg, k, o, t, wait, err)
    ensures RuleStepSaid(cfg, k, o, t, wait, err)
  {
    ElsewhereSaid(o);
    if Managed(o) {
      var n: nat, r :| EnsuresRuleAfter(cfg, k, o, t, n, r, wait, err);
      assert n <= |t| && t == t[..n] + t[n..];
      if cfg.project {
        LookupsSaid(cfg, k, o, t, n, r, wait, err);
      }
    }
  }

  lemma LookupsSaid(cfg: Config, k: Id, o: Object, t: Transcript, n: nat, r: ArgsResult, wait: int, err: bool)
    requires Managed(o) && cfg.project && EnsuresRuleAfter(cfg, k, o, t, n, r, wait, err)
    ensures RuleStepSaid(cfg, k, o, t, wait, err)
  {
    ElsewhereSaid(o);
    var u := t[..n];
    assert u[0] == t[0];
    if n == 2 {
      assert u[1] == t[1];
      var nodes := if t[1].1.NodeList? then t[1].1.nodes else None;
      if r.Needs? { assert WantedRule(cfg, k, o, t[0].1.vpc, nodes, r.args); }
    }
  }

  /* ---- Updating ---- */

  /** The first n calls see to the external IP: none when there is one, else the recorded load balancer is read
      and the VIP it answers published. */
  predicate IngressSaid(o: Object, t: Transcript, n: nat, ingressRequeue: int) {
    if |o.ingress| > 0 then n == 0 && ingressRequeue == 0
    else
      && LbId in o.ann && |t| >= n > 0 && t[0].0 == GetLb(o.ann[LbId])
      && if !t[0].1.LbSeen? || t[0].1.vip == "" then n == 1 && ingressRequeue == 10_000_000_000
         else n == 2 && t[1].0 == PatchStatus(t[0].1.vip) && ingressRequeue == if t[1].1.Stored? then 0 else 10_000_000_000
  }

  /** The Service as the server last reported it. */
  function Then(o: Object, t: Transcript, n: nat): Object
    requires n <= |t|
  {
    if n == 2 && t[1].1.Stored? then t[1].1.copy.obj else if n > 0 && t[0].1.Stored? then t[0].1.copy.obj else o
  }

  /** The calls from n to m send the listeners of the ports the load balancer serves, for the nodes just listed;
      none if every port is elsewhere. */
  ghost predicate ListenersSaid(o: Object, t: Transcript, n: nat, m: nat, failed: bool) {
    if AllPortsElsewhere(o) then m == n && !failed
    else
      && m == n + 2 <= |t| && LbId in o.ann && t[n].0.ListNodes? && t[n].1.NodeList?
      && t[n + 1].0 == UpdateLb(o.ann[LbId], Payload(OfferedPorts(o.spec.ports, Recorded(o)), t[n].1.nodes))
      && failed == !t[n + 1].1.Done?
  }

  lemma IngressByAnswers(o: Object, t: Transcript, n: nat, ingressRequeue: int)
    requires n <= |t| && RestoresIngress(o, t[..n], ingressRequeue)
    ensures IngressSaid(o, t, n, ingressRequeue) && Reported(o, t[..n]) == Then(o, t, n)
  {
    var u := t[..n];
    if n == 1 {
      ReportedOne(o, u, u[0]);
    } else if n == 2 {
      assert u == [u[0], u[1]];
      ReportedTwo(o, u, u[0], u[1]);
    }
  }

  lemma ListenersByAnswers(o: Object, t: Transcript, n: nat, m: nat, failed: bool)
    requires n <= m <= |t| && SendsListeners(o, t[n..m], failed)
    ensures ListenersSaid(o, t, n, m, failed)
  {
    ElsewhereSaid(o);
    var u := t[n..m];
    if |u| == 2 { assert u[0] == t[n] && u[1] == t[n + 1]; }
  }

  /** The rest of a pass over a Service with a load balancer, from n on: listeners, then rule; a failed update
      of the listeners asks for a pass in ten seconds, otherwise the sooner of the two delays counts. */
  ghost predicate RestSaid(cfg: Config, k: Id, o: Object, t: Transcript, n: nat, m: nat, ingressRequeue: int, failed: bool,
                           requeueAfter: int, err: bool) {
    && n <= m <= |t| && ListenersSaid(o, t, n, m, failed)
    && if failed then |t| == m && !err && requeueAfter == 10_000_000_000
       else exists wait ::
              && RuleStepSaid(cfg, k, o, t[m..], wait, err)
              && (!err ==> requeueAfter == if wait == 0 then ingressRequeue
                                           else if ingressRequeue == 0 || wait < ingressRequeue then wait else ingressRequeue)
  }

  lemma RestByAnswers(cfg: Config, k: Id, o: Object, t: Transcript, n: nat, ingressRequeue: int, requeueAfter: int, err: bool)
    returns (m: nat, failed: bool)
    requires n <= |t| && UpdatesRest(cfg, k, o, t[n..], ingressRequeue, requeueAfter, err)
    ensures RestSaid(cfg, k, o, t, n, m, ingressRequeue, failed, requeueAfter, err)
  {
    var rest := t[n..];
    var i: nat :| i <= |rest| && UpdatesRestAfter(cfg, k, o, rest, i, ingressRequeue, requeueAfter, err);
    m := n + i;
    assert rest[..i] == t[n..m] && rest[i..] == t[m..];
    if UpdatesRule(cfg, k, o, rest[i..], ingressRequeue, requeueAfter, err) && SendsListeners(o, rest[..i], false) {
      failed := false;
      var wait :| EnsuresRule(cfg, k, o, t[m..], wait, err) && (!err ==> requeueAfter == Sooner(wait, ingressRequeue));
      RuleStepByAnswers(cfg, k, o, t[m..], wait, err);
    } else {
      failed := true;
    }
    ListenersByAnswers(o, t, n, m, failed);
  }

  lemma UpdateByAnswers(cfg: Config, k: Id, o: Object, t: Transcript, requeueAfter: int, err: bool)
    returns (n: nat, m: nat, ingressRequeue: int, failed: bool)
    requires HandlesUpdate(cfg, k, o, t, requeueAfter, err)
    ensures n <= |t| && IngressSaid(o, t, n, ingressRequeue)
    ensures RestSaid(cfg, k, Then(o, t, n), t, n, m, ingressRequeue, failed, requeueAfter, err)
  {
    n, ingressRequeue :|
      && n <= |t| && RestoresIngress(o, t[..n], ingressRequeue)
      && UpdatesRest(cfg, k, Reported(o, t[..n]), t[n..], ingressRequeue, requeueAfter, err);
    IngressByAnswers(o, t, n, ingressRequeue);
    m, failed := RestByAnswers(cfg, k, Then(o, t, n), t, n, ingressRequeue, requeueAfter, err);
  }

  /* ---- A whole pass ---- */

  /** With the finalizer on: created for without a recorded load balancer, updated with one. */
  ghost predicate OperationSaid(cfg: Config, k: Id, o: Object, t: Transcript, requeueAfter: int, err: bool) {
    if LbId !in o.ann then CreationSaid(cfg, k, o, t, requeueAfter, err)
    else exists n: nat, m: nat, ingressRequeue: int, failed: bool ::
           n <= |t| && IngressSaid(o, t, n, ingressRequeue) &&
           RestSaid(cfg, k, Then(o, t, n), t, n, m, ingressRequeue, failed, requeueAfter, err)
  }

  /** The finalizer is stored before anything else. */
  ghost predicate PassSaid(cfg: Config, k: Id, o: Object, t: Transcript, requeueAfter: int, err: bool) {
    if o.finalizer then OperationSaid(cfg, k, o, t, requeueAfter, err)
    else
      && |t| > 0 && t[0].0 == Update(o.(finalizer := true))
      && if !t[0].1.Stored? then |t| == 1 && err
         else OperationSaid(cfg, k, t[0].1.copy.obj, t[1..], requeueAfter, err)
  }

  lemma OperationByAnswers(cfg: Config, k: Id, o: Object, t: Transcript, requeueAfter: int, err: bool)
    requires Operates(cfg, k, o, t, requeueAfter, err)
    ensures OperationSaid(cfg, k, o, t, requeueAfter, err)
  {
    if LbId in o.ann {
      var n, m, ingressRequeue, failed := UpdateByAnswers(cfg, k, o, t, requeueAfter, err);
    } else {
      CreationByAnswers(cfg, k, o, t, requeueAfter, err);
    }
  }

  /** Every pass over a Service that is not being deleted is as said. */
  lemma PassByAnswers(cfg: Config, k: Id, o: Object, t: Transcript, requeueAfter: int, err: bool)
    requires Reconciles(cfg, k, o, t, requeueAfter, err)
    ensures PassSaid(cfg, k, o, t, requeueAfter, err)
  {
    if o.finalizer {
      OperationByAnswers(cfg, k, o, t, requeueAfter, err);
    } else if t[0].1.Stored? {
      OperationByAnswers(cfg, k, t[0].1.copy.obj, t[1..], requeueAfter, err);
    }
  }

  /** A create is sent: with a protocol to serve, after a direct read that allows it, a VPC, and a list without
      the name. */
  lemma CreatesWhenClear(cfg: Config, k: Id, o: Object, t: Transcript, requeueAfter: int, err: bool)
    requires Reconciles(cfg, k, o, t, requeueAfter, err) && o.finalizer && LbId !in o.ann
    requires OneProtocol(o.spec.ports) && NameOf(cfg, k).Some?
    requires |t| > 0 && AllowsCreate(t[0].1)
    requires |t| > 2 && t[2].1.Vpc?
    requires |t| > 3 && t[3].1.Lbs? && forall v | v in t[3].1.items :: v.name != NameOf(cfg, k).value
    ensures |t| > 4 && t[4].0.CreateLb? && t[4].0.protocol == ProtocolFor(o.spec.ports)
  {
    PassByAnswers(cfg, k, o, t, requeueAfter, err);
  }

  /* ---- What the firewall step leaves alone ---- */

  /** Neither a load balancer nor what is recorded and published of it is touched. */
  predicate Quiet(call: Call) {
    || call.VpcInfo? || call.ListNodes? || call.Clock?
    || call.GetRule? || call.PatchRule? || call.GetOp? || call.ListRules? || call.CreateRule?
    || (call.PatchAnn? && LbId !in call.diff && LbProtocol !in call.diff)
  }

  predicate AllQuiet(t: Transcript) { forall x | x in t :: Quiet(x.0) }

  predicate SameLb(ann: Annotations, ann': Annotations) {
    Get(ann, LbId) == Get(ann', LbId) && Get(ann, LbProtocol) == Get(ann', LbProtocol)
  }

  predicate KeepsLb(ann: Annotations, p: Ensuring) {
    match p
    case Make(dropped) => SameLb(ann, dropped)
    case Write(ann', _) => SameLb(ann, ann')
    case _ => true
  }

  lemma StepKeepsLb(ann: Annotations, args: RuleArgs, p: Ensuring, reply: Reply)
    requires KeepsLb(ann, p)
    ensures KeepsLb(ann, EnsureLearn(ann, args, p, reply))
    ensures EnsureNext(ann, args, p).Some? ==> Quiet(EnsureNext(ann, args, p).value)
  {
  }

  lemma {:induction false} StepsQuiet(ann: Annotations, args: RuleArgs, t: Transcript)
    requires After(ann, args, t).Some?
    ensures KeepsLb(ann, After(ann, args, t).value) && AllQuiet(t)
    decreases |t|
  {
    if |t| > 0 {
      var n := |t| - 1;
      StepsQuiet(ann, args, t[..n]);
      StepKeepsLb(ann, args, After(ann, args, t[..n]).value, t[n].1);
      assert t == t[..n] + [t[n]];
    }
  }

  lemma LookedThenQuiet(ann: Annotations, args: RuleArgs, t: Transcript)
    requires |t| > 2 && t[0].0.VpcInfo? && t[1].0.ListNodes? && After(ann, args, t[2..]).Some?
    ensures AllQuiet(t)
  {
    StepsQuiet(ann, args, t[2..]);
    assert t == [t[0], t[1]] + t[2..];
  }

  lemma RuleQuiet(cfg: Config, k: Id, o: Object, t: Transcript, wait: int, err: bool)
    requires RuleStepSaid(cfg, k, o, t, wait, err)
    ensures AllQuiet(t)
  {
    if |t| > 2 {
      var nodes := if t[1].1.NodeList? then t[1].1.nodes else None;
      var args :| WantedRule(cfg, k, o, t[0].1.vpc, nodes, args) && After(o.ann, args, t[2..]) == Some(Ended(wait, err));
      LookedThenQuiet(o.ann, args, t);
    }
  }

  lemma SeenToQuiet(cfg: Config, k: Id, o: Object, t: Transcript, requeueAfter: int)
    requires SeesToRule(cfg, k, o, t, requeueAfter)
    ensures AllQuiet(t)
  {
    var wait, err :| EnsuresRule(cfg, k, o, t, wait, err);
    RuleStepByAnswers(cfg, k, o, t, wait, err);
    RuleQuiet(cfg, k, o, t, wait, err);
  }

  /* ---- Which address is published ---- */

  lemma QuietFrom(t: Transcript, n: nat, i: nat)
    requires n <= |t| && i < |t|
    ensures AllQuiet(t[n..]) && i >= n ==> Quiet(t[i].0)
  {
    if i >= n { assert t[n..][i - n] == t[i]; }
  }

  /** Right before, the VIP was read from the recorded load balancer. */
  predicate ReadFrom(o: Object, t: Transcript, i: nat, vip: string)
    requires i < |t|
  {
    i > 0 && LbId in o.ann && t[i - 1] == (GetLb(o.ann[LbId]), LbSeen(vip))
  }

  /** Right before, a load balancer was recorded that an answer of the pass showed with that VIP: the list, under
      the Service's name, or the create operation. */
  ghost predicate RecordedWith(name: Option<string>, o: Object, t: Transcript, i: nat, vip: string)
    requires i < |t|
  {
    exists id, protocol :: JustRecorded(o, t, i, id, protocol) && ShownWith(name, t[..i], id, vip)
  }

  predicate JustRecorded(o: Object, t: Transcript, i: nat, id: Id, protocol: string)
    requires i < |t|
  {
    i > 0 && t[i - 1].0 == PatchAnn(Diff(o.ann, o.ann[LbId := id][LbProtocol := protocol])) && t[i - 1].1.Stored?
  }

  ghost predicate ShownWith(name: Option<string>, t: Transcript, id: Id, vip: string) {
    || (exists x, v | x in t && x.0.LookupLb? && x.1.Lbs? && v in x.1.items :: v.id == id && v.vip == vip && Some(v.name) == name)
    || (exists j: nat :: j + 1 < |t| && CreateMade(t[j], t[j + 1], id, vip))
  }

  ghost predicate CreateMade(x: (Call, Reply), y: (Call, Reply), id: Id, vip: string) {
    x.0.CreateLb? && x.1.LbOp? && y.0 == AwaitLb(x.1.op.id) && y.1.Polls? && WaitMade(x.1.op, y.1.script, id, vip)
  }

  lemma RecordPublishes(cfg: Config, k: Id, o: Object, t: Transcript, n: nat, id: Id, vip: string, protocol: string,
                        requeueAfter: int, err: bool, i: nat)
    requires RecordsFrom(cfg, k, o.ann, t, n, id, vip, protocol, requeueAfter, err)
    requires n <= i < |t| && t[i].0.PatchStatus?
    ensures i == n + 1 && t[i].0.vip == vip && vip != "" && t[n].1.Stored?
  {
    if i >= n + 2 {
      QuietFrom(t, n + 2, i);
      SeenToQuiet(cfg, k, t[n + 1].1.copy.obj, t[n + 2..], requeueAfter);
    }
  }

  lemma CreationPublishes(cfg: Config, k: Id, o: Object, t: Transcript, requeueAfter: int, err: bool, i: nat)
    requires CreationSaid(cfg, k, o, t, requeueAfter, err) && i < |t| && t[i].0.PatchStatus?
    ensures t[i].0.vip != "" && RecordedWith(NameOf(cfg, k), o, t, i, t[i].0.vip)
  {
    var name := NameOf(cfg, k).value;
    if exists v | v in t[3].1.items :: v.name == name {
      var v :| FirstOf(t[3].1.items, name, v) &&
        RecordsFrom(cfg, k, o.ann, t, 4, v.id, v.vip,
                    if v.protocol in {"LOAD_BALANCER_PROTOCOL_TCP", "LOAD_BALANCER_PROTOCOL_UDP"} then v.protocol
                    else ProtocolFor(o.spec.ports), requeueAfter, err);
      AdoptedPublishes(cfg, k, o, t, v, if v.protocol in {"LOAD_BALANCER_PROTOCOL_TCP", "LOAD_BALANCER_PROTOCOL_UDP"}
                                        then v.protocol else ProtocolFor(o.spec.ports), requeueAfter, err, i);
    } else {
      CreatedPublishes(cfg, k, o, t, requeueAfter, err, i);
    }
  }

  lemma AdoptedPublishes(cfg: Config, k: Id, o: Object, t: Transcript, v: LbView, protocol: string, requeueAfter: int,
                         err: bool, i: nat)
    requires RecordsFrom(cfg, k, o.ann, t, 4, v.id, v.vip, protocol, requeueAfter, err)
    requires 4 <= i < |t| && t[i].0.PatchStatus?
    requires t[3].0.LookupLb? && t[3].1.Lbs? && v in t[3].1.items && Some(v.name) == NameOf(cfg, k)
    ensures t[i].0.vip != "" && RecordedWith(NameOf(cfg, k), o, t, i, t[i].0.vip)
  {
    RecordPublishes(cfg, k, o, t, 4, v.id, v.vip, protocol, requeueAfter, err, i);
    assert JustRecorded(o, t, i, v.id, protocol);
    assert t[..i][3] == t[3] && t[3] in t[..i];
    assert ShownWith(NameOf(cfg, k), t[..i], v.id, v.vip);
  }

  lemma CreatedPublishes(cfg: Config, k: Id, o: Object, t: Transcript, requeueAfter: int, err: bool, i: nat)
    requires SubmitsCreate(cfg, k, o, t, requeueAfter, err) && 4 <= i < |t| && t[i].0.PatchStatus?
    ensures t[i].0.vip != "" && RecordedWith(NameOf(cfg, k), o, t, i, t[i].0.vip)
  {
    var id, vip :| WaitMade(t[4].1.op, t[5].1.script, id, vip) &&
                   RecordsFrom(cfg, k, o.ann, t, 6, id, vip, ProtocolFor(o.spec.ports), requeueAfter, err);
    MadePublishes(cfg, k, o, t, id, vip, ProtocolFor(o.spec.ports), requeueAfter, err, i);
  }

  lemma MadePublishes(cfg: Config, k: Id, o: Object, t: Transcript, id: Id, vip: string, protocol: string,
                      requeueAfter: int, err: bool, i: nat)
    requires RecordsFrom(cfg, k, o.ann, t, 6, id, vip, protocol, requeueAfter, err)
    requires 6 <= i < |t| && t[i].0.PatchStatus? && CreateMade(t[4], t[5], id, vip)
    ensures t[i].0.vip != "" && RecordedWith(NameOf(cfg, k), o, t, i, t[i].0.vip)
  {
    RecordPublishes(cfg, k, o, t, 6, id, vip, protocol, requeueAfter, err, i);
    assert JustRecorded(o, t, i, id, protocol);
    assert t[..i][4] == t[4] && t[..i][5] == t[5];
    assert CreateMade(t[..i][4], t[..i][5], id, vip);
    assert ShownWith(NameOf(cfg, k), t[..i], id, vip);
  }

  /** Each address a pass publishes is, by an answer before it, the VIP of the load balancer the Service
      records. */
  lemma PublishesOnlyVips(cfg: Config, k: Id, o: Object, t: Transcript, requeueAfter: int, err: bool, i: nat)
    requires Operates(cfg, k, o, t, requeueAfter, err) && i < |t| && t[i].0.PatchStatus?
    ensures t[i].0.vip != "" && (ReadFrom(o, t, i, t[i].0.vip) || RecordedWith(NameOf(cfg, k), o, t, i, t[i].0.vip))
  {
    if LbId !in o.ann {
      CreationByAnswers(cfg, k, o, t, requeueAfter, err);
      CreationPublishes(cfg, k, o, t, requeueAfter, err, i);
    } else {
      var n, m, ingressRequeue, failed := UpdateByAnswers(cfg, k, o, t, requeueAfter, err);
      if i >= m && !failed {
        var wait :| RuleStepSaid(cfg, k, Then(o, t, n), t[m..], wait, err);
        QuietFrom(t, m, i);
        RuleQuiet(cfg, k, Then(o, t, n), t[m..], wait, err);
      }
    }
  }
}
