/** What a pass over a Service does: which calls it makes and what it asks for, given the answers.
    t is always the part of the transcript a step is responsible for. */
module PassSpec {
  import opened Wrappers
  import opened MergePatch
  import opened Timing
  import opened Ports
  import opened FirewallArgs
  import opened Polling
  import opened Model
  import opened Protocol
  import opened FirewallPass

  function LastCall(log: Transcript): Call
    requires |log| > 0
  {
    log[|log| - 1].0
  }

  function LastReply(log: Transcript): Reply
    requires |log| > 0
  {
    log[|log| - 1].1
  }

  /** What was added since. */
  function Since(before: Transcript, log: Transcript): Transcript
    requires before <= log
  {
    log[|before|..]
  }

  /* ---- The external IP and the listeners ---- */

  /** A missing external IP is restored from the load balancer, or tried again in ten seconds. */
  predicate RestoresIngress(o: Object, t: Transcript, requeueAfter: int) {
    if |o.ingress| > 0 then t == [] && requeueAfter == 0
    else
      && |t| >= 1 && LbId in o.ann && t[0].0 == GetLb(o.ann[LbId])
      && if !t[0].1.LbSeen? || t[0].1.vip == "" then |t| == 1 && requeueAfter == INGRESS_REQUEUE
         else |t| == 2 && t[1].0 == PatchStatus(t[0].1.vip) && requeueAfter == if t[1].1.Stored? then 0 else INGRESS_REQUEUE
  }

  /** The listeners for the ports the load balancer can serve are sent; none, if every port was edited
      away from its protocol. */
  predicate SendsListeners(o: Object, t: Transcript, err: bool) {
    if DriftSkip(o.spec.ports, Recorded(o)) then t == [] && !err
    else
      && |t| == 2 && t[0].0.ListNodes? && t[0].1.NodeList? && LbId in o.ann
      && t[1].0 == UpdateLb(o.ann[LbId], Payload(OfferedPorts(o.spec.ports, Recorded(o)), t[0].1.nodes))
      && err == !t[1].1.Done?
  }

  /* ---- The firewall rule ---- */

  /** The answer of a VPC lookup made first, and of a node list made last, None without one. */
  function VpcHeard(t: Transcript): Option<string> {
    if |t| > 0 && t[0].0.VpcInfo? && t[0].1.Vpc? then Some(t[0].1.vpc) else None
  }

  function NodesHeard(t: Transcript): Option<seq<Node>> {
    if |t| > 0 && LastCall(t).ListNodes? && LastReply(t).NodeList? then LastReply(t).nodes else None
  }

  /** The rule wanted, as far as the lookups in t tell: the VPC, then the nodes, each only when still needed. */
  predicate LooksUpArgs(cfg: Config, k: Id, o: Object, t: Transcript, r: ArgsResult) {
    && r == ArgsFor(cfg.project, VpcHeard(t), NameOf(cfg, k), o.spec.ports, Recorded(o), o.spec.ranges, NodesHeard(t))
    && if !cfg.project then t == []
       else
         && |t| >= 1 && t[0].0.VpcInfo?
         && if VpcHeard(t).None? || NameOf(cfg, k).None? || DriftSkip(o.spec.ports, Recorded(o)) then |t| == 1
            else |t| == 2 && t[1].0.ListNodes?
  }

  lemma LookedUpVpc(cfg: Config, k: Id, o: Object, a: Transcript, b: Transcript, vpc: Reply, r: ArgsResult)
    requires b == a + [(VpcInfo, vpc)] && cfg.project
    requires if vpc.Vpc? then NameOf(cfg, k).None? && r == Skip else r == Unknown
    ensures a <= b && LooksUpArgs(cfg, k, o, Since(a, b), r)
  {
    assert Since(a, b)[0] == (VpcInfo, vpc);
  }

  lemma LookedUp(cfg: Config, k: Id, o: Object, a: Transcript, b: Transcript, c: Transcript, vpc: string, r: ArgsResult)
    requires b == a + [(VpcInfo, Vpc(vpc))] && cfg.project && NameOf(cfg, k).Some?
    requires r == ArgsFor(true, Some(vpc), NameOf(cfg, k), o.spec.ports, Recorded(o), o.spec.ranges, NodesHeard(c))
    requires if DriftSkip(o.spec.ports, Recorded(o)) then c == b
             else |c| == |b| + 1 && b <= c && LastCall(c).ListNodes?
    ensures a <= c && LooksUpArgs(cfg, k, o, Since(a, c), r)
  {
    var t := Since(a, c);
    assert t[0] == (VpcInfo, Vpc(vpc)) && VpcHeard(t) == Some(vpc) && LastCall(t) == LastCall(c) && LastReply(t) == LastReply(c);
  }

  /** The lookups, then the firewall step they ask for. */
  ghost predicate EnsuresRuleAfter(cfg: Config, k: Id, o: Object, t: Transcript, n: nat, r: ArgsResult, wait: int,
                                   err: bool) {
    && n <= |t| && LooksUpArgs(cfg, k, o, t[..n], r)
    && match r
       case Unknown => |t| == n && err
       case Skip => |t| == n && !err && wait == 0
       case Needs(args) => After(o.ann, args, t[n..]) == Some(Ended(wait, err))
  }

  ghost predicate EnsuresRule(cfg: Config, k: Id, o: Object, t: Transcript, wait: int, err: bool) {
    if !Managed(o) then t == [] && !err && wait == 0
    else exists n: nat, r: ArgsResult :: EnsuresRuleAfter(cfg, k, o, t, n, r, wait, err)
  }

  /** The firewall step deliberately asks for no rule: no project, no name, every port edited away, or
      no backend on the nodes just listed. */
  predicate RuleSkipped(cfg: Config, k: Id, o: Object, log: Transcript) {
    || !cfg.project
    || NameOf(cfg, k).None?
    || DriftSkip(o.spec.ports, Recorded(o))
    || (|log| > 0 && LastCall(log).ListNodes? && LastReply(log).NodeList? &&
        |DestinationPorts(OfferedPorts(o.spec.ports, Recorded(o)), LastReply(log).nodes)| == 0)
  }

  predicate RuleSettled(cfg: Config, k: Id, o: Object, log: Transcript) {
    !Managed(o) || RuleId in o.ann || RuleSkipped(cfg, k, o, log)
  }

  /* ---- Creating ---- */

  /** What the direct read says: stale (recorded, deleted or gone), or an error. Forbidden is neither. */
  datatype Staleness = UpToDate | Stale | ReadFailed

  function StalenessOf(reply: Reply): Staleness {
    if reply.Found? then (if LbId in reply.copy.obj.ann || reply.copy.obj.deletedAt.Some? then Stale else UpToDate)
    else if reply.Refused? && reply.status == Some(404) then Stale
    else if reply.Refused? && reply.status == Some(403) then UpToDate
    else ReadFailed
  }

  /** The exactly matching items, in order. */
  function ExactMatches(items: seq<LbView>, name: string): (r: seq<LbView>)
    ensures forall v :: v in r <==> v in items && v.name == name
  {
    if |items| == 0 then [] else (if items[0].name == name then [items[0]] else []) + ExactMatches(items[1..], name)
  }

  function StateOf(op: LbOperation): string { op.state }

  /** The load balancer a create operation ends with, None unless it succeeds with a readable result. */
  function CreatedBy(first: LbOperation, script: seq<Poll<LbOperation>>): Option<(Id, string)> {
    var result := Outcome(StateOf, first, script);
    if result.Settled? && result.op.state == "SUCCEEDED" && result.op.result.Decoded? then
      Some((result.op.result.id, result.op.result.vip))
    else None
  }

  /** A client error, which is not retried. */
  predicate ClientError(reply: Reply) { reply.Refused? && 400 <= reply.status.GetOr(0) < 500 }

  predicate RejectedCreate(log: Transcript) {
    |log| > 0 && LastCall(log).CreateLb? && ClientError(LastReply(log))
  }

  /** Submits the create and waits for it. */
  predicate Creates(protocol: string, listeners: seq<Listener>, t: Transcript, created: Option<(Id, string)>,
                    rejected: bool) {
    && |t| >= 1 && t[0].0 == CreateLb(protocol, listeners)
    && if t[0].1.LbOp? then
         && |t| == 2 && t[1].0 == AwaitLb(t[0].1.op.id) && t[1].1.Polls? && !rejected
         && created == CreatedBy(t[0].1.op, t[1].1.script)
       else |t| == 1 && created.None? && rejected == ClientError(t[0].1)
  }

  /** Records id and protocol before anything else, then publishes the VIP, then sees to the rule, whose
      errors are retried after ten seconds. */
  ghost predicate Records(cfg: Config, k: Id, ann: Annotations, id: Id, vip: string, protocol: string,
                          t: Transcript, requeueAfter: int, err: bool) {
    && |t| >= 1 && t[0].0 == PatchAnn(Diff(ann, ann[LbId := id][LbProtocol := protocol]))
    && if !t[0].1.Stored? then |t| == 1 && err
       else if vip == "" then |t| == 1 && !err && requeueAfter == INGRESS_REQUEUE
       else
         && |t| >= 2 && t[1].0 == PatchStatus(vip)
         && if !t[1].1.Stored? then |t| == 2 && err
            else !err && BringsUpRule(cfg, k, t[1].1.copy.obj, t[2..], requeueAfter)
  }

  ghost predicate BringsUpRule(cfg: Config, k: Id, o: Object, t: Transcript, requeueAfter: int) {
    EnsuresRule(cfg, k, o, t, requeueAfter, false) ||
    (requeueAfter == RULE_REQUEUE && exists wait :: EnsuresRule(cfg, k, o, t, wait, true))
  }

  /** The protocol to record for an adopted load balancer: its own where reported. */
  function ActualProtocol(reported: string, derived: string): string {
    if Known(reported) then reported else derived
  }

  /** Adopts the first load balancer of exactly that name, or creates one. */
  ghost predicate AdoptsOrCreates(cfg: Config, k: Id, ann: Annotations, name: string, protocol: string,
                                  listeners: seq<Listener>,
                                  t: Transcript, requeueAfter: int, err: bool) {
    && |t| >= 1 && t[0].0.LookupLb?
    && if !t[0].1.Lbs? then |t| == 1 && err
       else
         var matches := ExactMatches(t[0].1.items, name);
         if |matches| > 0 then
           Records(cfg, k, ann, matches[0].id, matches[0].vip, ActualProtocol(matches[0].protocol, protocol), t[1..],
                   requeueAfter, err)
         else CreatesAndRecords(cfg, k, ann, protocol, listeners, t[1..], requeueAfter, err)
  }

  ghost predicate CreatesAndRecords(cfg: Config, k: Id, ann: Annotations, protocol: string, listeners: seq<Listener>,
                                    t: Transcript, requeueAfter: int, err: bool) {
    && |t| >= 1 && t[0].0 == CreateLb(protocol, listeners)
    && if !t[0].1.LbOp? then |t| == 1 && requeueAfter == 0 && err == !ClientError(t[0].1)
       else
         && |t| >= 2 && t[1].0 == AwaitLb(t[0].1.op.id) && t[1].1.Polls?
         && var created := CreatedBy(t[0].1.op, t[1].1.script);
            if created.None? then |t| == 2 && err
            else Records(cfg, k, ann, created.value.0, created.value.1, protocol, t[2..], requeueAfter, err)
  }

  /** Nodes and VPC are looked up first; without a VPC or a name the pass fails. */
  ghost predicate Prepares(cfg: Config, k: Id, o: Object, protocol: string, t: Transcript, requeueAfter: int, err: bool) {
    && |t| >= 2 && t[0].0.ListNodes? && t[0].1.NodeList? && t[1].0.VpcInfo?
    && if !t[1].1.Vpc? || NameOf(cfg, k).None? then |t| == 2 && err
       else AdoptsOrCreates(cfg, k, o.ann, NameOf(cfg, k).value, protocol,
                            Payload(PortsFor(o.spec.ports, protocol), t[0].1.nodes), t[2..], requeueAfter, err)
  }

  /** handleCreate. */
  ghost predicate HandlesCreate(cfg: Config, k: Id, o: Object, t: Transcript, requeueAfter: int, err: bool) {
    if !Derive(o.spec.ports).Serves? then t == [] && !err && requeueAfter == 0
    else
      && |t| >= 1 && t[0].0.FreshGet?
      && match StalenessOf(t[0].1)
         case Stale => |t| == 1 && !err && requeueAfter == STALE_CACHE_REQUEUE
         case ReadFailed => |t| == 1 && err
         case UpToDate => Prepares(cfg, k, o, Derive(o.spec.ports).lbProtocol, t[1..], requeueAfter, err)
  }

  /* ---- Updating ---- */

  /** The Service as reported by the last write that was stored. */
  function Reported(o: Object, t: Transcript): Object
    decreases |t|
  {
    if |t| == 0 then o
    else if LastReply(t).Stored? then LastReply(t).copy.obj
    else Reported(o, t[..|t| - 1])
  }

  /** What is left to do once the external IP is seen to: the listeners, then the rule; the sooner of the
      delays asked for counts. */
  ghost predicate UpdatesRest(cfg: Config, k: Id, o: Object, t: Transcript, ingressRequeue: int, requeueAfter: int,
                              err: bool) {
    exists n: nat ::
      n <= |t| && UpdatesRestAfter(cfg, k, o, t, n, ingressRequeue, requeueAfter, err)
  }

  ghost predicate UpdatesRestAfter(cfg: Config, k: Id, o: Object, t: Transcript, n: nat, ingressRequeue: int,
                                   requeueAfter: int, err: bool)
    requires n <= |t|
  {
    || (SendsListeners(o, t[..n], true) && n == |t| && !err && requeueAfter == UPDATE_REQUEUE)
    || (SendsListeners(o, t[..n], false) && UpdatesRule(cfg, k, o, t[n..], ingressRequeue, requeueAfter, err))
  }

  /** Zero asks for nothing. */
  function Sooner(a: int, b: int): int {
    if a == 0 then b else if b == 0 || a < b then a else b
  }

  ghost predicate UpdatesRule(cfg: Config, k: Id, o: Object, t: Transcript, ingressRequeue: int, requeueAfter: int,
                              err: bool) {
    exists wait ::
      && EnsuresRule(cfg, k, o, t, wait, err)
      && (!err ==> requeueAfter == Sooner(wait, ingressRequeue))
  }

  /** handleUpdate. */
  ghost predicate HandlesUpdate(cfg: Config, k: Id, o: Object, t: Transcript, requeueAfter: int, err: bool) {
    exists n: nat, ingressRequeue: int ::
      && n <= |t| && RestoresIngress(o, t[..n], ingressRequeue)
      && UpdatesRest(cfg, k, Reported(o, t[..n]), t[n..], ingressRequeue, requeueAfter, err)
  }

  /* ---- A whole pass over a Service that is not being deleted ---- */

  /** The finalizer comes first; then a Service without a recorded load balancer is created for, any other
      updated. */
  ghost predicate Reconciles(cfg: Config, k: Id, o: Object, t: Transcript, requeueAfter: int, err: bool) {
    if o.finalizer then Operates(cfg, k, o, t, requeueAfter, err)
    else
      && |t| >= 1 && t[0].0 == Update(o.(finalizer := true))
      && if !t[0].1.Stored? then |t| == 1 && err else Operates(cfg, k, t[0].1.copy.obj, t[1..], requeueAfter, err)
  }

  ghost predicate Operates(cfg: Config, k: Id, o: Object, t: Transcript, requeueAfter: int, err: bool) {
    if LbId in o.ann then HandlesUpdate(cfg, k, o, t, requeueAfter, err) else HandlesCreate(cfg, k, o, t, requeueAfter, err)
  }

  /* ---- Putting parts together ---- */

  lemma SinceCons(a: Transcript, b: Transcript, c: Transcript, x: (Call, Reply))
    requires b == a + [x] && b <= c
    ensures a <= c && |Since(a, c)| >= 1 && Since(a, c)[0] == x && Since(a, c)[1..] == Since(b, c)
  {
  }

  lemma SinceTwoCalls(a: Transcript, c: Transcript, x: (Call, Reply), y: (Call, Reply))
    requires c == a + [x] + [y]
    ensures a <= c && |c| == |a| + 2 && Since(a, c)[0] == x && Since(a, c)[1] == y
  {
  }

  lemma RecordsAll(cfg: Config, k: Id, ann: Annotations, id: Id, vip: string, protocol: string,
                   a: Transcript, b: Transcript, c: Transcript, d: Transcript, x: Reply, y: Reply, wait: int, ruleErr: bool)
    requires b == a + [(PatchAnn(Diff(ann, ann[LbId := id][LbProtocol := protocol])), x)] && x.Stored? && vip != ""
    requires c == b + [(PatchStatus(vip), y)] && y.Stored? && c <= d
    requires EnsuresRule(cfg, k, y.copy.obj, Since(c, d), wait, ruleErr)
    ensures a <= d && Records(cfg, k, ann, id, vip, protocol, Since(a, d), if ruleErr then RULE_REQUEUE else wait, false)
  {
    SinceCons(a, b, d, b[|a|]);
    SinceCons(b, c, d, c[|b|]);
    assert Since(a, d)[2..] == Since(a, d)[1..][1..];
    assert BringsUpRule(cfg, k, y.copy.obj, Since(c, d), if ruleErr then RULE_REQUEUE else wait);
  }

  lemma UpdatesFailed(cfg: Config, k: Id, o: Object, a: Transcript, b: Transcript, c: Transcript, ingressRequeue: int)
    requires a <= b <= c && RestoresIngress(o, Since(a, b), ingressRequeue)
    requires SendsListeners(Reported(o, Since(a, b)), Since(b, c), true)
    ensures a <= c && HandlesUpdate(cfg, k, o, Since(a, c), UPDATE_REQUEUE, false)
  {
    SinceTwice(a, b, c);
    var o', n := Reported(o, Since(a, b)), |Since(b, c)|;
    assert Since(b, c)[..n] == Since(b, c);
    assert UpdatesRestAfter(cfg, k, o', Since(b, c), n, ingressRequeue, UPDATE_REQUEUE, false);
    assert UpdatesRest(cfg, k, o', Since(b, c), ingressRequeue, UPDATE_REQUEUE, false);
  }

  lemma UpdatesAll(cfg: Config, k: Id, o: Object, a: Transcript, b: Transcript, c: Transcript, d: Transcript,
                   ingressRequeue: int, requeueAfter: int, err: bool)
    requires a <= b <= c <= d && RestoresIngress(o, Since(a, b), ingressRequeue)
    requires SendsListeners(Reported(o, Since(a, b)), Since(b, c), false)
    requires UpdatesRule(cfg, k, Reported(o, Since(a, b)), Since(c, d), ingressRequeue, requeueAfter, err)
    ensures a <= d && HandlesUpdate(cfg, k, o, Since(a, d), requeueAfter, err)
  {
    SinceTwice(a, b, d);
    SinceTwice(b, c, d);
    var o', n := Reported(o, Since(a, b)), |Since(b, c)|;
    assert UpdatesRestAfter(cfg, k, o', Since(b, d), n, ingressRequeue, requeueAfter, err);
    assert UpdatesRest(cfg, k, o', Since(b, d), ingressRequeue, requeueAfter, err);
  }

  lemma PreparesThen(cfg: Config, k: Id, o: Object, protocol: string, a: Transcript, b: Transcript, c: Transcript,
                     d: Transcript,
                     x: Reply, y: (Call, Reply), requeueAfter: int, err: bool)
    requires b == a + [(ListNodes, x)] && x.NodeList? && c == b + [y] && y.0.VpcInfo? && c <= d
    requires if !y.1.Vpc? || NameOf(cfg, k).None? then c == d && err
             else AdoptsOrCreates(cfg, k, o.ann, NameOf(cfg, k).value, protocol,
                                  Payload(PortsFor(o.spec.ports, protocol), x.nodes),
                                  Since(c, d), requeueAfter, err)
    ensures a <= d && Prepares(cfg, k, o, protocol, Since(a, d), requeueAfter, err)
  {
    SinceCons(a, b, d, b[|a|]);
    SinceCons(b, c, d, y);
    assert Since(a, d)[2..] == Since(a, d)[1..][1..];
  }

  lemma CreateWaits(protocol: string, listeners: seq<Listener>, a: Transcript, b: Transcript, c: Transcript, x: Reply,
                    y: Reply)
    requires x.LbOp? && b == a + [(CreateLb(protocol, listeners), x)] && c == b + [(AwaitLb(x.op.id), y)] && y.Polls?
    ensures a <= c && Creates(protocol, listeners, Since(a, c), CreatedBy(x.op, y.script), false)
  {
  }

  lemma CreateRefused(protocol: string, listeners: seq<Listener>, a: Transcript, b: Transcript, x: Reply)
    requires !x.LbOp? && b == a + [(CreateLb(protocol, listeners), x)]
    ensures a <= b && Creates(protocol, listeners, Since(a, b), None, ClientError(x))
    ensures ClientError(x) == RejectedCreate(b)
  {
  }

  lemma CreatesThenRecords(cfg: Config, k: Id, ann: Annotations, protocol: string, listeners: seq<Listener>,
                           a: Transcript, b: Transcript, c: Transcript, created: Option<(Id, string)>, rejected: bool,
                           requeueAfter: int, err: bool)
    requires a <= b <= c && Creates(protocol, listeners, Since(a, b), created, rejected)
    requires if created.None? then b == c && requeueAfter == 0 && err == !rejected
             else Records(cfg, k, ann, created.value.0, created.value.1, protocol, Since(b, c), requeueAfter, err)
    ensures CreatesAndRecords(cfg, k, ann, protocol, listeners, Since(a, c), requeueAfter, err)
  {
    SinceTwice(a, b, c);
  }

  lemma ReportedOne(o: Object, t: Transcript, a: (Call, Reply))
    requires t == [a]
    ensures Reported(o, t) == if a.1.Stored? then a.1.copy.obj else o
  {
    assert t[..|t| - 1] == [];
  }

  lemma ReportedTwo(o: Object, t: Transcript, a: (Call, Reply), b: (Call, Reply))
    requires t == [a, b] && !a.1.Stored?
    ensures Reported(o, t) == if b.1.Stored? then b.1.copy.obj else o
  {
    ReportedOne(o, [a], a);
    assert t[..|t| - 1] == [a];
  }

  lemma SinceTwice(a: Transcript, b: Transcript, c: Transcript)
    requires a <= b <= c
    ensures a <= c && Since(a, c) == Since(a, b) + Since(b, c)
    ensures Since(a, c)[..|Since(a, b)|] == Since(a, b) && Since(a, c)[|Since(a, b)|..] == Since(b, c)
  {
  }

  lemma RuleEnsured(cfg: Config, k: Id, o: Object, a: Transcript, b: Transcript, c: Transcript, r: ArgsResult,
                    wait: int, err: bool)
    requires a <= b <= c && Managed(o) && LooksUpArgs(cfg, k, o, Since(a, b), r)
    requires match r
             case Unknown => b == c && err
             case Skip => b == c && !err && wait == 0
             case Needs(args) => After(o.ann, args, Since(b, c)) == Some(Ended(wait, err))
    ensures EnsuresRule(cfg, k, o, Since(a, c), wait, err)
  {
    SinceTwice(a, b, c);
    assert EnsuresRuleAfter(cfg, k, o, Since(a, c), |Since(a, b)|, r, wait, err);
  }
}
