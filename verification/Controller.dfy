/** The Service reconciler: what one pass over a Service does. */
module Controller {
  import opened Wrappers
  import opened MergePatch
  import opened Timing
  import opened Ports
  import opened FirewallArgs
  import opened RuleCompare
  import opened Polling
  import opened Model
  import opened Protocol
  import opened FirewallPass
  import opened DeletionPass
  import opened PassSpec
  import opened Apis
  import opened Permits

  /** The Service a pass works on, as it holds it in memory. */
  class Service {
    var version: nat
    var deletedAt: Option<Time>
    var finalizer: bool
    var ann: Annotations
    var ingress: seq<string>
    var spec: Spec

    constructor (c: Copy)
      ensures AsCopy() == c
    {
      version, deletedAt, finalizer := c.version, c.obj.deletedAt, c.obj.finalizer;
      ann, ingress, spec := c.obj.ann, c.obj.ingress, c.obj.spec;
    }

    function Value(): Object
      reads this
    {
      Object(deletedAt, finalizer, ann, ingress, spec)
    }

    function AsCopy(): Copy
      reads this
    {
      Copy(version, Value())
    }

    /** The server's reply is written back. */
    method Load(c: Copy)
      modifies this
      ensures AsCopy() == c
    {
      version, deletedAt, finalizer := c.version, c.obj.deletedAt, c.obj.finalizer;
      ann, ingress, spec := c.obj.ann, c.obj.ingress, c.obj.spec;
    }
  }

  /* ---- Where a pass can come to rest ---- */

  datatype Rest = Absent | Foreign | Unservable | Rejected | AtRest | Restless

  /** What a pass that began with snapshot and ended as p has come to. */
  ghost function RestOf(cfg: Config, k: Id, snapshot: Option<Object>, p: Pass, log: Transcript): Rest {
    if snapshot.None? then Absent
    else if snapshot.value.spec.lbClass.Some? then Foreign
    else if !p.Working? then Restless
    else
      var o := p.work.mem.obj;
      if LbId !in o.ann then
        if !Derive(o.spec.ports).Serves? then Unservable else if RejectedCreate(log) then Rejected else Restless
      else if |o.ingress| > 0 && RuleSettled(cfg, k, o, log) then AtRest
      else Restless
  }

  /** How the firewall step of a deletion ends. */
  datatype Deletion = Deleted | StillInFlight | DeletionFailed

  lemma {:induction false} ExactMatchesSnoc(items: seq<LbView>, v: LbView, name: string)
    ensures ExactMatches(items + [v], name) == ExactMatches(items, name) + (if v.name == name then [v] else [])
  {
    if |items| > 0 {
      ExactMatchesSnoc(items[1..], v, name);
      assert (items + [v])[1..] == items[1..] + [v];
    }
  }

  lemma NoneMatch(items: seq<LbView>, name: string)
    requires |ExactMatches(items, name)| == 0
    ensures forall v | v in items :: v.name != name
  {
    forall v | v in items ensures v.name != name { assert v !in ExactMatches(items, name); }
  }

  method FilterByName(items: seq<LbView>, name: string) returns (matches: seq<LbView>)
    ensures matches == ExactMatches(items, name)
  {
    matches := [];
    for i := 0 to |items|
      invariant matches == ExactMatches(items[..i], name)
    {
      ExactMatchesSnoc(items[..i], items[i], name);
      assert items[..i + 1] == items[..i] + [items[i]];
      if items[i].name == name {
        matches := matches + [items[i]];
      }
    }
    assert items[..|items|] == items;
  }

  /** What a list teaches the pass about load balancers of the name. */
  lemma ListTeaches(w: Work, name: string, items: seq<LbView>)
    requires Consistent(items)
    ensures var w', matches := LearnWorking(w, name, LookupLb, Lbs(items)), ExactMatches(items, name);
            && w'.mem == w.mem && w'.read == w.read
            && if |matches| == 0 then w'.looked
               else Get(w'.mine, matches[0].id) == Some(Claim(matches[0].protocol)) && matches[0].vip in w'.vips
  {
    var matches := ExactMatches(items, name);
    if |matches| == 0 {
      NoneMatch(items, name);
    } else {
      assert matches[0] in matches;
      ViewLearned(w.mine, items, name, matches[0]);
    }
  }

  method FirstNamed(rules: seq<(Id, string)>, name: string) returns (found: Option<Id>)
    ensures found == FindByName(rules, name)
  {
    for i := 0 to |rules|
      invariant FindByName(rules[i..], name) == FindByName(rules, name)
    {
      assert rules[i..][1..] == rules[i + 1..];
      if rules[i].1 == name {
        return Some(rules[i].0);
      }
    }
    found := None;
  }

  /** Exactly that call was made since. */
  predicate Made(before: Transcript, log: Transcript, call: Call) {
    |log| > 0 && log == before + [(call, LastReply(log))]
  }

  /** The ports a load balancer of that protocol is offered; skip: every port was edited away. */
  method PortsToOffer(ports: seq<Port>, lbProtocol: string) returns (offered: seq<Port>, skip: bool)
    ensures offered == OfferedPorts(ports, lbProtocol) && skip == DriftSkip(ports, lbProtocol)
  {
    offered, skip := ports, false;
    if Known(lbProtocol) {
      offered := ServicePortsForProtocol(ports, lbProtocol);
      skip := |offered| == 0 && |ports| > 0;
    }
  }

  /** The rule for those ports once the lookups have answered, Skip without a backend. */
  method RuleFor(name: string, vpc: string, offered: seq<Port>, ranges: seq<string>, nodes: Option<seq<Node>>)
    returns (r: ArgsResult)
    ensures r == if |DestinationPorts(offered, nodes)| == 0 then Skip
                 else Needs(RuleArgs(name, vpc, DestinationPorts(offered, nodes), Distinct(ProtocolTexts(offered)),
                                     SourcesOf(ranges)))
  {
    var protocols := CollectProtocols(offered);
    var listeners := ParseListenPortsAndBackends(offered, nodes);
    var destinationPorts := CollectDestinationPorts(listeners);
    if |destinationPorts| == 0 {
      return Skip;
    }
    r := Needs(RuleArgs(name, vpc, destinationPorts, protocols, SourcesOf(ranges)));
  }

  /** The comparison sorts the arguments in place; what is sent afterwards is sorted. */
  method Compare(rule: RuleArgs, args: RuleArgs) returns (matches: bool, sorted: RuleArgs)
    requires CidrOnly(args.sources)
    ensures matches <==> Matches(rule, args)
    ensures sorted == Sorted(args)
  {
    var reported := new RuleObject(rule);
    var wanted := new RuleObject(args);
    matches := CompareFirewallRule(reported, wanted);
    sorted := wanted.Value();
  }

  lemma AdoptedIsNew(ann: Annotations, id: Id)
    requires RuleId !in ann
    ensures RuleId in ann[RuleId := id] - {OpId}
  {
  }

  class ServiceReconciler {
    const w: World

    constructor (w: World)
      ensures this.w == w
    {
      this.w := w;
    }

    ghost predicate Live()
      reads w
    {
      w.Valid() && w.Current().Working?
    }

    /** What the pass knows; the Service as the server last reported it. */
    function Now(): Work
      requires w.Current().Working?
      reads w
    {
      w.Current().work
    }

    /** svc is that Service, except perhaps for an external IP that could not be stored. */
    ghost predicate Holds(svc: Service)
      reads w, svc
    {
      Live() && Now().mem.version == svc.version && svc.Value().(ingress := Now().mem.obj.ingress) == Now().mem.obj
    }

    /* ---- The external IP and the listeners ---- */

    method SetLoadBalancerIngress(svc: Service, vip: string) returns (err: bool)
      requires Holds(svc) && LbId in svc.ann && vip in Now().vips && vip != ""
      modifies w, svc
      ensures Holds(svc) && Carries(old(Now().mem.obj), Now().mem.obj)
      ensures Made(old(w.log), w.log, PatchStatus(vip)) && (err <==> !LastReply(w.log).Stored?)
      ensures !err ==> Now().mem == LastReply(w.log).copy && Now().mem.obj.ingress == [vip]
      ensures err ==> Now().mem == old(Now().mem)
    {
      svc.ingress := [vip];
      var reply := w.Send(PatchStatus(vip));
      if reply.Stored? {
        svc.Load(reply.copy);
      }
      err := !reply.Stored?;
    }

    method EnsureLoadBalancerIngress(svc: Service) returns (requeueAfter: int)
      requires Holds(svc) && svc.AsCopy() == Now().mem && LbId in svc.ann
      modifies w, svc
      ensures Holds(svc) && Carries(old(Now().mem.obj), Now().mem.obj)
      ensures requeueAfter == 0 || requeueAfter == INGRESS_REQUEUE
      ensures requeueAfter == 0 ==> |Now().mem.obj.ingress| > 0
      ensures old(w.log) <= w.log && RestoresIngress(old(Now().mem.obj), Since(old(w.log), w.log), requeueAfter)
      ensures Now().mem.obj == Reported(old(Now().mem.obj), Since(old(w.log), w.log))
    {
      if |svc.ingress| > 0 {
        return 0;
      }
      var reply := w.Send(GetLb(svc.ann[LbId]));
      ghost var o, read := old(Now().mem.obj), (GetLb(svc.ann[LbId]), reply);
      ReportedOne(o, [read], read);
      assert Since(old(w.log), w.log) == [read];
      if !reply.LbSeen? || reply.vip == "" {
        return INGRESS_REQUEUE;
      }
      var err := SetLoadBalancerIngress(svc, reply.vip);
      requeueAfter := if err then INGRESS_REQUEUE else 0;
      ReportedTwo(o, [read, (PatchStatus(reply.vip), LastReply(w.log))], read,
                  (PatchStatus(reply.vip), LastReply(w.log)));
      assert Since(old(w.log), w.log) == [read, (PatchStatus(reply.vip), LastReply(w.log))];
    }

    /** Sends the listeners for the ports the load balancer can serve, or nothing when none is left. */
    method UpdateLoadBalancer(svc: Service) returns (err: bool)
      requires Holds(svc) && LbId in svc.ann
      modifies w
      ensures Holds(svc) && Now().mem == old(Now().mem)
      ensures old(w.log) <= w.log && SendsListeners(Now().mem.obj, Since(old(w.log), w.log), err)
    {
      var ports, skip := PortsToOffer(svc.spec.ports, Text(svc.ann, LbProtocol));
      if skip {
        return false;
      }
      var nodes := w.Send(ListNodes);
      var listeners := ParseListenPortsAndBackends(ports, nodes.nodes);
      MayUpdateLb(w.cfg, w.k, Now(), nodes.nodes);
      var reply := w.Send(UpdateLb(svc.ann[LbId], listeners));
      err := !reply.Done?;
    }

    /* ---- The firewall rule ---- */

    /** The second half: the ports, the nodes, the rule. */
    method ArgsInVpc(svc: Service, name: string, vpc: string) returns (r: ArgsResult)
      requires Holds(svc) && w.cfg.project && NameOf(w.cfg, w.k) == Some(name)
      modifies w
      ensures Holds(svc) && Now().mem == old(Now().mem)
      ensures var o := Now().mem.obj;
              && r == ArgsFor(true, Some(vpc), Some(name), o.spec.ports, Recorded(o), o.spec.ranges, NodesHeard(w.log))
              && if DriftSkip(o.spec.ports, Recorded(o)) then w.log == old(w.log) else Made(old(w.log), w.log, ListNodes)
      ensures r.Skip? ==> RuleSkipped(w.cfg, w.k, Now().mem.obj, w.log)
    {
      var offered, skip := PortsToOffer(svc.spec.ports, Text(svc.ann, LbProtocol));
      if skip {
        return Skip;
      }
      var listed := w.Send(ListNodes);
      r := RuleFor(name, vpc, offered, svc.spec.ranges, listed.nodes);
    }

    /** Unknown stands for an error. */
    method GetFirewallRuleArgs(svc: Service) returns (r: ArgsResult)
      requires Holds(svc)
      modifies w
      ensures Holds(svc) && Now().mem == old(Now().mem)
      ensures old(w.log) <= w.log && LooksUpArgs(w.cfg, w.k, Now().mem.obj, Since(old(w.log), w.log), r)
      ensures r.Skip? ==> RuleSkipped(w.cfg, w.k, Now().mem.obj, w.log)
    {
      if !w.cfg.project {
        return Skip;
      }
      var answer := w.Send(VpcInfo);
      ghost var asked := w.log;
      if !answer.Vpc? {
        LookedUpVpc(w.cfg, w.k, Now().mem.obj, old(w.log), asked, answer, Unknown);
        return Unknown;
      }
      var name := NameOf(w.cfg, w.k);
      if name.None? {
        LookedUpVpc(w.cfg, w.k, Now().mem.obj, old(w.log), asked, answer, Skip);
        return Skip;
      }
      r := ArgsInVpc(svc, name.value, answer.vpc);
      LookedUp(w.cfg, w.k, Now().mem.obj, old(w.log), asked, w.log, answer.vpc, r);
    }

    ghost predicate Follows(args: RuleArgs, before: Object, from: Transcript, p: Ensuring)
      reads w
    {
      Live() && FollowsAt(w.cfg, w.k, args, before, Now(), w.log, from, p)
    }

    /** The next call of the firewall step. */
    method Follow(args: RuleArgs, call: Call, ghost before: Object, ghost from: Transcript, ghost p: Ensuring)
      returns (reply: Reply, ghost q: Ensuring)
      requires Follows(args, before, from, p) && EnsureNext(before.ann, args, p) == Some(call)
      modifies w
      ensures q == EnsureLearn(before.ann, args, p, reply) && Follows(args, before, from, q)
      ensures call.Clock? ==> reply.At?
      ensures call.PatchAnn? && reply.Stored? ==> forall key | key in call.diff :: Get(reply.copy.obj.ann, key) == call.diff[key]
      ensures Now().mem == if call.PatchAnn? && reply.Stored? then reply.copy else old(Now().mem)
    {
      MayEnsure(w.cfg, w.k, Now(), args, p, call);
      ghost var was, log := Now(), w.log;
      reply := w.Send(call);
      q := EnsureLearn(before.ann, args, p, reply);
      FollowsOn(w.cfg, w.k, args, before, was, log, from, p, call, reply);
      assert Now() == LearnWorking(was, args.name, call, reply) && w.log == log + [(call, reply)];
    }

    method FindFirewallRuleByName(args: RuleArgs, ghost before: Object, ghost from: Transcript, ghost p: Ensuring)
      returns (found: Option<Id>, err: bool, ghost q: Ensuring)
      requires Follows(args, before, from, p) && p.Adopt?
      modifies w
      ensures Follows(args, before, from, q)
      ensures if err then q == Ended(0, true)
              else q == if found.Some? then Write(before.ann[RuleId := found.value] - {OpId}, 0)
                        else if p.clash.Some? then Cool(p.clash.value) else Make(before.ann - {OpId})
    {
      var reply;
      reply, q := Follow(args, ListRules, before, from, p);
      ListLeads(before.ann, args, p, reply);
      if !reply.RuleList? {
        return None, true, q;
      }
      found := FirstNamed(reply.rules, args.name);
      err := false;
    }

    /** Sends the changed annotations; stored is the server's reply, None on an error. */
    method PatchTracking(svcCopy: Annotations, ann: Annotations, args: RuleArgs, ghost before: Object,
                         ghost from: Transcript, ghost p: Ensuring)
      returns (stored: Option<Copy>, ghost q: Ensuring)
      requires Follows(args, before, from, p) && p.Write? && ann == p.ann && svcCopy == before.ann
      modifies w
      ensures Follows(args, before, from, q) && q == Ended(p.after, stored.None?)
      ensures stored.Some? ==> Now().mem == stored.value
      ensures stored.Some? && RuleId !in before.ann && RuleId in p.ann ==> RuleId in Now().mem.obj.ann
    {
      var call, reply := PatchAnn(Diff(svcCopy, ann)), Reply.Done;
      WriteNext(before.ann, args, p, svcCopy, ann);
      reply, q := Follow(args, call, before, from, p);
      if !reply.Stored? {
        return None, q;
      }
      stored := Some(reply.copy);
      if RuleId !in before.ann && RuleId in p.ann { RuleRecorded(before.ann, p.ann, reply.copy.obj.ann); }
    }

    /** Records a rule of the Service's name, if there is one. */
    method AdoptFirewallRuleByName(svcCopy: Annotations, args: RuleArgs, ghost before: Object, ghost from: Transcript,
                                   ghost p: Ensuring)
      returns (adopted: bool, stored: Option<Copy>, err: bool, ghost q: Ensuring)
      requires Follows(args, before, from, p) && p.Adopt? && svcCopy == before.ann
      modifies w
      ensures Follows(args, before, from, q) && (stored.Some? ==> Now().mem == stored.value)
      ensures err ==> q == Ended(0, true)
      ensures !err && adopted ==> q == Ended(0, false) && RuleId in Now().mem.obj.ann
      ensures !err && !adopted ==> q == if p.clash.Some? then Cool(p.clash.value) else Make(before.ann - {OpId})
    {
      var found;
      found, err, q := FindFirewallRuleByName(args, before, from, p);
      if err || found.None? {
        return false, None, err, q;
      }
      var ann := svcCopy[RuleId := found.value];
      ann := ann - {OpId};
      AdoptedIsNew(before.ann, found.value);
      stored, q := PatchTracking(svcCopy, ann, args, before, from, q);
      adopted, err := true, stored.None?;
    }

    /** The rule on record: as it should be, patched, or gone. */
    method CheckRecordedRule(svcCopy: Annotations, args: RuleArgs, ghost before: Object, ghost from: Transcript,
                             ghost p: Ensuring)
      returns (gone: bool, err: bool, ghost q: Ensuring)
      requires Follows(args, before, from, p) && p.Look? && svcCopy == before.ann && CidrOnly(args.sources)
      modifies w
      ensures Follows(args, before, from, q) && RuleId in before.ann && Now().mem == old(Now().mem)
      ensures gone ==> !err && q == Make(before.ann - {RuleId, OpId})
      ensures !gone ==> q == Ended(0, err)
    {
      var reply;
      reply, q := Follow(args, GetRule(svcCopy[RuleId]), before, from, p);
      if !reply.RuleSeen? {
        gone := reply == Refused(true, Some(404));
        return gone, !gone, q;
      }
      var matches, sorted := Compare(reply.rule, args);
      if matches {
        return false, false, q;
      }
      reply, q := Follow(args, PatchRule(svcCopy[RuleId], sorted), before, from, q);
      gone, err := false, !reply.Done?;
    }

    method GetFirewallRuleOperationResult(op: Id, args: RuleArgs, ghost before: Object, ghost from: Transcript,
                                          ghost p: Ensuring)
      returns (outcome: OpOutcome, ghost q: Ensuring)
      requires Follows(args, before, from, p) && p == Ask(op)
      modifies w
      ensures Follows(args, before, from, q)
      ensures q == match outcome
                   case Yielded(id) => Write(before.ann[RuleId := id], 0)
                   case Pending => Ended(RULE_REQUEUE, false)
                   case FailedCreate(exists', completedAt, startedAt) =>
                     if exists' then Adopt(Some(Stamps(completedAt, startedAt))) else Cool(Stamps(completedAt, startedAt))
                   case Unresolvable => Adopt(None)
                   case Transient => Ended(0, true)
    {
      var reply;
      reply, q := Follow(args, GetOp(op), before, from, p);
      outcome := OutcomeOf(reply);
    }

    /** What is left of the cooldown of a failed create. */
    method RetryWaitOf(stamps: Stamps, args: RuleArgs, ghost before: Object, ghost from: Transcript, ghost p: Ensuring)
      returns (wait: int, ghost q: Ensuring)
      requires Follows(args, before, from, p) && p == Cool(stamps)
      modifies w
      ensures Follows(args, before, from, q) && wait >= 0
      ensures q == if wait > 0 then Ended(wait, false) else Make(before.ann - {OpId})
    {
      var reply;
      reply, q := Follow(args, Clock, before, from, p);
      wait := FirewallRuleRetryWait([stamps.completedAt, stamps.startedAt], reply.now);
    }

    /** Submits the create and records its operation. */
    method CreateFirewallRule(svcCopy: Annotations, dropped: Annotations, args: RuleArgs,
                              ghost before: Object, ghost from: Transcript, ghost p: Ensuring)
      returns (stored: Option<Copy>, wait: int, ghost q: Ensuring)
      requires Follows(args, before, from, p) && p == Make(dropped) && svcCopy == before.ann
      modifies w
      ensures Follows(args, before, from, q) && q == Ended(wait, stored.None?)
      ensures stored.Some? ==> Now().mem == stored.value
      ensures wait == RULE_REQUEUE || (wait == 0 && stored.None?)
    {
      var reply;
      reply, q := Follow(args, CreateRule(args), before, from, p);
      if !reply.RuleOp? {
        return None, 0, q;
      }
      stored, q := PatchTracking(svcCopy, dropped[OpId := reply.opId], args, before, from, q);
      wait := RULE_REQUEUE;
    }

    /** Follows a recorded operation to its rule; retry: there is none, a create is due. */
    method ResolveOperation(svcCopy: Annotations, args: RuleArgs, ghost before: Object, ghost from: Transcript,
                            ghost p: Ensuring)
      returns (retry: bool, stored: Option<Copy>, wait: int, err: bool, ghost q: Ensuring)
      requires Follows(args, before, from, p) && svcCopy == before.ann && OpId in svcCopy && p == Ask(svcCopy[OpId])
      modifies w
      ensures Follows(args, before, from, q) && wait >= 0
      ensures if retry then q == Make(before.ann - {OpId}) else q == Ended(wait, err)
      ensures !retry && !err && wait == 0 ==> RuleId in Now().mem.obj.ann
    {
      var outcome;
      outcome, q := GetFirewallRuleOperationResult(svcCopy[OpId], args, before, from, p);
      retry, stored, wait, err := false, None, 0, false;
      match outcome
      case Yielded(id) =>
        stored, q := PatchTracking(svcCopy, svcCopy[RuleId := id], args, before, from, q);
        err := stored.None?;
      case Pending => wait := RULE_REQUEUE;
      case Transient => err := true;
      case Unresolvable =>
        var adopted;
        adopted, stored, err, q := AdoptFirewallRuleByName(svcCopy, args, before, from, q);
        retry := !err && !adopted;
      case FailedCreate(exists', completedAt, startedAt) =>
        retry, stored, wait, err, q := AfterFailure(svcCopy, exists', Stamps(completedAt, startedAt), args, before,
                                                    from, q);
    }

    /** A failed create: adopt what it clashed with, or wait out the cooldown. */
    method AfterFailure(svcCopy: Annotations, exists': bool, stamps: Stamps, args: RuleArgs,
                        ghost before: Object, ghost from: Transcript, ghost p: Ensuring)
      returns (retry: bool, stored: Option<Copy>, wait: int, err: bool, ghost q: Ensuring)
      requires Follows(args, before, from, p) && svcCopy == before.ann
      requires p == if exists' then Adopt(Some(stamps)) else Cool(stamps)
      modifies w
      ensures Follows(args, before, from, q) && wait >= 0
      ensures if retry then q == Make(before.ann - {OpId}) else q == Ended(wait, err)
      ensures !retry && !err && wait == 0 ==> RuleId in Now().mem.obj.ann
    {
      q, stored := p, None;
      if exists' {
        var adopted;
        adopted, stored, err, q := AdoptFirewallRuleByName(svcCopy, args, before, from, p);
        if err || adopted {
          return false, stored, 0, err, q;
        }
      }
      wait, q := RetryWaitOf(stamps, args, before, from, q);
      retry, err := wait == 0, false;
    }

    /** The firewall step once the wanted rule is known; ann and stored are what the Service is left
        with in memory. */
    method EnsureRule(svcCopy: Annotations, args: RuleArgs, ghost before: Object, ghost from: Transcript)
      returns (stored: Option<Copy>, wait: int, err: bool)
      requires svcCopy == before.ann && CidrOnly(args.sources) && Follows(args, before, from, EnsureStart(before.ann))
      modifies w
      ensures Follows(args, before, from, Ended(wait, err)) && wait >= 0
      ensures !err && wait == 0 ==> RuleId in Now().mem.obj.ann
    {
      var ann := svcCopy;
      ghost var q := EnsureStart(svcCopy);
      if RuleId in svcCopy {
        var gone;
        gone, err, q := CheckRecordedRule(svcCopy, args, before, from, q);
        if !gone {
          return None, 0, err;
        }
        ann := ann - {RuleId, OpId};
      } else if OpId in svcCopy {
        var retry;
        retry, stored, wait, err, q := ResolveOperation(svcCopy, args, before, from, q);
        if !retry {
          return;
        }
        ann := ann - {OpId};
      }
      stored, wait, q := CreateFirewallRule(svcCopy, ann, args, before, from, q);
      err := stored.None?;
    }

    /** Reconciles the rule behind a Service with a load balancer. wait asks for another pass; no error and
        no wait mean the step is settled. */
    method EnsureFirewallRule(svc: Service) returns (wait: int, err: bool)
      requires Holds(svc) && LbId in svc.ann
      modifies w, svc
      ensures Live() && Carries(old(Now().mem.obj), Now().mem.obj) && wait >= 0
      ensures old(w.log) <= w.log && EnsuresRule(w.cfg, w.k, old(Now().mem.obj), Since(old(w.log), w.log), wait, err)
      ensures !err && wait == 0 ==> RuleSettled(w.cfg, w.k, Now().mem.obj, w.log)
    {
      if Text(svc.ann, Manage) != "true" {
        return 0, false;
      }
      ghost var o := Now().mem.obj;
      var wanted := GetFirewallRuleArgs(svc);
      ghost var from := w.log;
      if !wanted.Needs? {
        wait, err := 0, wanted.Unknown?;
        RuleEnsured(w.cfg, w.k, o, old(w.log), from, w.log, wanted, wait, err);
        return;
      }
      var stored;
      stored, wait, err := EnsureWanted(svc, wanted.args, Since(old(w.log), from));
      RuleEnsured(w.cfg, w.k, o, old(w.log), from, w.log, wanted, wait, err);
      if stored.Some? {
        svc.Load(stored.value);
      }
    }

    method EnsureWanted(svc: Service, args: RuleArgs, ghost heard: Transcript)
      returns (stored: Option<Copy>, wait: int, err: bool)
      requires Holds(svc) && Managed(Now().mem.obj) && LbId in svc.ann
      requires LooksUpArgs(w.cfg, w.k, Now().mem.obj, heard, Needs(args))
      modifies w
      ensures Live() && Carries(old(Now().mem.obj), Now().mem.obj) && wait >= 0 && old(w.log) <= w.log
      ensures After(old(Now().mem.obj.ann), args, Since(old(w.log), w.log)) == Some(Ended(wait, err))
      ensures !err && wait == 0 ==> RuleId in Now().mem.obj.ann
    {
      SortedWanted(w.cfg, w.k, Now().mem.obj, args, VpcHeard(heard), NodesHeard(heard));
      StageBegins(Now());
      stored, wait, err := EnsureRule(svc.ann, args, Now().mem.obj, w.log);
    }

    /* ---- Creating ---- */

    /** The pass may go on to create: the stored Service was read, or must not be. */
    ghost predicate MayGoOn()
      requires w.Current().Working?
      reads w
    {
      Now().read.Confirmed? || Now().read.Forbidden?
    }

    method CachedServiceIsStale(svc: Service) returns (stale: bool, err: bool)
      requires Holds(svc) && svc.finalizer && Now().read.Unread?
      modifies w
      ensures Holds(svc) && Now().mem == old(Now().mem)
      ensures Made(old(w.log), w.log, FreshGet)
      ensures stale <==> StalenessOf(LastReply(w.log)).Stale?
      ensures err <==> StalenessOf(LastReply(w.log)).ReadFailed?
      ensures !err && !stale ==> MayGoOn()
    {
      var reply := w.Send(FreshGet);
      if reply.Found? {
        return LbId in reply.copy.obj.ann || reply.copy.obj.deletedAt.Some?, false;
      }
      if !reply.Refused? {
        return false, true;
      }
      stale := reply.status == Some(404);
      err := !stale && reply.status != Some(403);
    }

    /** The first load balancer listed under exactly that name; an unreadable list is an error. */
    method FindExistingLoadBalancer(svc: Service, name: string) returns (existing: Option<LbView>, err: bool)
      requires Holds(svc) && MayGoOn() && NameOf(w.cfg, w.k) == Some(name)
      modifies w
      ensures Holds(svc) && Now().mem == old(Now().mem) && MayGoOn()
      ensures !err && existing.None? ==> Now().looked
      ensures !err && existing.Some? ==> Get(Now().mine, existing.value.id) == Some(Claim(existing.value.protocol))
      ensures !err && existing.Some? ==> existing.value.vip in Now().vips
      ensures Made(old(w.log), w.log, LookupLb) && (err <==> !LastReply(w.log).Lbs?)
      ensures existing == if err || |ExactMatches(LastReply(w.log).items, name)| == 0 then None
                          else Some(ExactMatches(LastReply(w.log).items, name)[0])
    {
      MayLook(w.cfg, w.k, Now());
      ghost var was := Now();
      var reply := w.Send(LookupLb);
      if !reply.Lbs? {
        return None, true;
      }
      ListTeaches(was, name, reply.items);
      var matches := FilterByName(reply.items, name);
      if |matches| == 0 {
        return None, false;
      }
      existing, err := Some(matches[0]), false;
    }

    /** Records a load balancer known to be the Service's; nothing else happens before that. */
    method RecordAnnotations(svc: Service, id: Id, protocol: string) returns (err: bool)
      requires Holds(svc) && svc.AsCopy() == Now().mem && LbId !in svc.ann && Known(protocol)
      requires id in Now().mine
      requires if Now().mine[id].Some? then protocol == Now().mine[id].value else Derive(svc.spec.ports) == Serves(protocol)
      modifies w, svc
      ensures Made(old(w.log), w.log, PatchAnn(Diff(old(svc.ann), old(svc.ann)[LbId := id][LbProtocol := protocol])))
      ensures err <==> !LastReply(w.log).Stored?
      ensures !err ==> Holds(svc) && svc.AsCopy() == Now().mem && LbId in svc.ann && Now().vips == old(Now().vips)
      ensures err ==> Live()
    {
      var ann := svc.ann[LbId := id];
      ann := ann[LbProtocol := protocol];
      MayRecord(w.cfg, w.k, Now(), id, protocol);
      ghost var before := Now().mem.obj;
      var reply := w.Send(PatchAnn(Diff(svc.ann, ann)));
      err := !reply.Stored?;
      if !err {
        LbRecorded(before, id, protocol, reply);
        svc.Load(reply.copy);
      } else {
        svc.ann := ann;
      }
    }

    /** Then publishes its VIP and brings up the firewall rule. */
    method RecordLoadBalancer(svc: Service, id: Id, vip: string, protocol: string) returns (requeueAfter: int, err: bool)
      requires Holds(svc) && svc.AsCopy() == Now().mem && LbId !in svc.ann && Known(protocol)
      requires id in Now().mine && vip in Now().vips
      requires if Now().mine[id].Some? then protocol == Now().mine[id].value else Derive(svc.spec.ports) == Serves(protocol)
      modifies w, svc
      ensures Live() && requeueAfter >= 0
      ensures old(w.log) <= w.log &&
        Records(w.cfg, w.k, old(svc.ann), id, vip, protocol, Since(old(w.log), w.log), requeueAfter, err)
      ensures !err && requeueAfter == 0 ==>
        LbId in Now().mem.obj.ann && |Now().mem.obj.ingress| > 0 && RuleSettled(w.cfg, w.k, Now().mem.obj, w.log)
    {
      ghost var ann, before := svc.ann, w.log;
      err := RecordAnnotations(svc, id, protocol);
      if err || vip == "" {
        return if err then 0 else INGRESS_REQUEUE, err;
      }
      requeueAfter, err := PublishAndProtect(svc, vip, ann, before, id, protocol);
    }

    /** The rest of it, once the load balancer is recorded. */
    method PublishAndProtect(svc: Service, vip: string, ghost ann: Annotations, ghost before: Transcript,
                             ghost id: Id, ghost protocol: string)
      returns (requeueAfter: int, err: bool)
      requires Holds(svc) && LbId in svc.ann && vip in Now().vips && vip != ""
      requires |w.log| > 0 && LastReply(w.log).Stored?
      requires w.log == before + [(PatchAnn(Diff(ann, ann[LbId := id][LbProtocol := protocol])), LastReply(w.log))]
      modifies w, svc
      ensures Live() && requeueAfter >= 0
      ensures before <= w.log && Records(w.cfg, w.k, ann, id, vip, protocol, Since(before, w.log), requeueAfter, err)
      ensures !err && requeueAfter == 0 ==>
        LbId in Now().mem.obj.ann && |Now().mem.obj.ingress| > 0 && RuleSettled(w.cfg, w.k, Now().mem.obj, w.log)
    {
      ghost var recorded := w.log;
      err := SetLoadBalancerIngress(svc, vip);
      if err {
        return 0, true;
      }
      ghost var published := w.log;
      requeueAfter, err := EnsureFirewallRule(svc);
      RecordsAll(w.cfg, w.k, ann, id, vip, protocol, before, recorded, published, w.log,
                 LastReply(recorded), LastReply(published), requeueAfter, err);
      if err {
        return RULE_REQUEUE, false;
      }
    }

    /** Submits the create and waits for it; created is its load balancer. Rejected: a client error,
        which is not retried. */
    method CreateLoadBalancer(svc: Service, protocol: string, ghost nodes: Option<seq<Node>>, listeners: seq<Listener>)
      returns (created: Option<(Id, string)>, rejected: bool)
      requires Holds(svc) && Now().looked && LbId !in svc.ann && svc.finalizer && MayGoOn()
      requires Derive(svc.spec.ports) == Serves(protocol) && listeners == Payload(PortsFor(svc.spec.ports, protocol), nodes)
      modifies w
      ensures Holds(svc) && Now().mem == old(Now().mem)
      ensures old(w.log) <= w.log && Creates(protocol, listeners, Since(old(w.log), w.log), created, rejected)
      ensures rejected ==> created.None? && RejectedCreate(w.log)
      ensures created.Some? ==> Get(Now().mine, created.value.0) == Some(Some(protocol)) && created.value.1 in Now().vips
    {
      created, rejected := None, false;
      MayCreate(w.cfg, w.k, Now(), protocol, nodes);
      ghost var before, was := w.log, Now();
      var reply := w.Send(CreateLb(protocol, listeners));
      ghost var submitted := w.log;
      if !reply.LbOp? {
        rejected := ClientError(reply);
        CreateRefused(protocol, listeners, before, submitted, reply);
        return;
      }
      CreateLearned(w.cfg, w.k, was, protocol, listeners, reply.op);
      created := AwaitLoadBalancer(reply.op, protocol);
      CreateWaits(protocol, listeners, before, submitted, w.log, reply, LastReply(w.log));
    }

    /** None unless the operation succeeds with a readable result. */
    method AwaitLoadBalancer(op: LbOperation, ghost protocol: string) returns (created: Option<(Id, string)>)
      requires Live() && Now().asked == Some(Asked(op.id, protocol)) && Now().mine == LearnOp(Now().mine, op, protocol)
      requires OpVips(op) <= Now().vips
      modifies w
      ensures Live() && Now().mem == old(Now().mem)
      ensures Made(old(w.log), w.log, AwaitLb(op.id)) && LastReply(w.log).Polls?
      ensures created == CreatedBy(op, LastReply(w.log).script)
      ensures created.Some? ==> Get(Now().mine, created.value.0) == Some(Some(protocol)) && created.value.1 in Now().vips
    {
      ghost var mine := Now().mine;
      var answers := w.Send(AwaitLb(op.id));
      var result, polls, slept := WaitForOperation(StateOf, op, answers.script, w.jitter);
      created := None;
      if result.Settled? && result.op.state == "SUCCEEDED" && result.op.result.Decoded? {
        created := Some((result.op.result.id, result.op.result.vip));
        SettledFrom(StateOf, op, answers.script, result.op);
        PollLearned(mine, answers.script, protocol, result.op.result.id);
        if result.op != op { PollVipLearned(answers.script, Answer(200, result.op)); }
      }
    }

    /** Adopts the load balancer of the Service's name, or creates it. */
    method AdoptOrCreate(svc: Service, protocol: string, ghost nodes: Option<seq<Node>>, listeners: seq<Listener>,
                         name: string)
      returns (requeueAfter: int, err: bool)
      requires Holds(svc) && svc.AsCopy() == Now().mem && LbId !in svc.ann && svc.finalizer && MayGoOn()
      requires NameOf(w.cfg, w.k) == Some(name)
      requires Derive(svc.spec.ports) == Serves(protocol) && listeners == Payload(PortsFor(svc.spec.ports, protocol), nodes)
      modifies w, svc
      ensures Live() && requeueAfter >= 0
      ensures old(w.log) <= w.log &&
        AdoptsOrCreates(w.cfg, w.k, old(svc.ann), name, protocol, listeners, Since(old(w.log), w.log), requeueAfter, err)
      ensures !err && requeueAfter == 0 ==> CreationRests()
    {
      var existing;
      existing, err := FindExistingLoadBalancer(svc, name);
      if err {
        return 0, true;
      }
      ghost var looked := w.log;
      if existing.Some? {
        var actual := ActualProtocol(existing.value.protocol, protocol);
        requeueAfter, err := RecordLoadBalancer(svc, existing.value.id, existing.value.vip, actual);
      } else {
        requeueAfter, err := CreateAndRecord(svc, protocol, nodes, listeners);
      }
      SinceCons(old(w.log), looked, w.log, looked[|old(w.log)|]);
    }

    method CreateAndRecord(svc: Service, protocol: string, ghost nodes: Option<seq<Node>>, listeners: seq<Listener>)
      returns (requeueAfter: int, err: bool)
      requires Holds(svc) && svc.AsCopy() == Now().mem && Now().looked && LbId !in svc.ann && svc.finalizer && MayGoOn()
      requires Derive(svc.spec.ports) == Serves(protocol) && listeners == Payload(PortsFor(svc.spec.ports, protocol), nodes)
      modifies w, svc
      ensures Live() && requeueAfter >= 0
      ensures old(w.log) <= w.log &&
        CreatesAndRecords(w.cfg, w.k, old(svc.ann), protocol, listeners, Since(old(w.log), w.log), requeueAfter, err)
      ensures !err && requeueAfter == 0 ==> CreationRests()
    {
      ghost var before, ann := w.log, svc.ann;
      var created, rejected := CreateLoadBalancer(svc, protocol, nodes, listeners);
      ghost var submitted := w.log;
      if created.None? {
        requeueAfter, err := 0, !rejected;
      } else {
        requeueAfter, err := RecordLoadBalancer(svc, created.value.0, created.value.1, protocol);
      }
      CreatesThenRecords(w.cfg, w.k, ann, protocol, listeners, before, submitted, w.log, created, rejected,
                         requeueAfter, err);
    }

    /** How a pass that came to create can end without an error or a requeue. */
    ghost predicate CreationRests()
      requires w.Current().Working?
      reads w
    {
      var o := Now().mem.obj;
      if LbId in o.ann then |o.ingress| > 0 && RuleSettled(w.cfg, w.k, o, w.log)
      else !Derive(o.spec.ports).Serves? || RejectedCreate(w.log)
    }

    method HandleCreate(svc: Service) returns (requeueAfter: int, err: bool)
      requires Holds(svc) && svc.AsCopy() == Now().mem && LbId !in svc.ann && svc.finalizer && Now().read.Unread?
      modifies w, svc
      ensures Live() && requeueAfter >= 0
      ensures old(w.log) <= w.log && HandlesCreate(w.cfg, w.k, old(Now().mem.obj), Since(old(w.log), w.log),
                                                   requeueAfter, err)
      ensures !err && requeueAfter == 0 ==> CreationRests()
    {
      requeueAfter := 0;
      var derived := DeriveLoadBalancerProtocol(svc.spec.ports);
      if !derived.Serves? {
        return 0, false;
      }
      var stale;
      stale, err := CachedServiceIsStale(svc);
      if err {
        return;
      }
      if stale {
        return STALE_CACHE_REQUEUE, false;
      }
      ghost var read := w.log;
      requeueAfter, err := CreateFor(svc, derived.lbProtocol);
      SinceCons(old(w.log), read, w.log, read[|old(w.log)|]);
    }

    method CreateFor(svc: Service, protocol: string) returns (requeueAfter: int, err: bool)
      requires Holds(svc) && svc.AsCopy() == Now().mem && LbId !in svc.ann && svc.finalizer && MayGoOn()
      requires Derive(svc.spec.ports) == Serves(protocol)
      modifies w, svc
      ensures Live() && requeueAfter >= 0
      ensures old(w.log) <= w.log && Prepares(w.cfg, w.k, old(Now().mem.obj), protocol, Since(old(w.log), w.log),
                                              requeueAfter, err)
      ensures !err && requeueAfter == 0 ==> CreationRests()
    {
      ghost var before, o := w.log, Now().mem.obj;
      var listeners;
      ghost var nodes;
      listeners, nodes := ListenersFor(svc, protocol);
      ghost var listed := w.log;
      var vpc := w.Send(VpcInfo);
      ghost var looked := w.log;
      var name := NameOf(w.cfg, w.k);
      if !vpc.Vpc? || name.None? {
        requeueAfter, err := 0, true;
      } else {
        requeueAfter, err := AdoptOrCreate(svc, protocol, nodes, listeners, name.value);
      }
      PreparesThen(w.cfg, w.k, o, protocol, before, listed, looked, w.log, LastReply(listed), (VpcInfo, vpc),
                   requeueAfter, err);
    }

    method ListenersFor(svc: Service, protocol: string) returns (listeners: seq<Listener>, ghost nodes: Option<seq<Node>>)
      requires Holds(svc)
      modifies w
      ensures Holds(svc) && Now() == old(Now()) && listeners == Payload(PortsFor(svc.spec.ports, protocol), nodes)
      ensures w.log == old(w.log) + [(ListNodes, NodeList(nodes))]
    {
      var ports := ServicePortsForProtocol(svc.spec.ports, protocol);
      var listed := w.Send(ListNodes);
      nodes := listed.nodes;
      listeners := ParseListenPortsAndBackends(ports, listed.nodes);
    }

    /* ---- Updating ---- */

    method HandleUpdate(svc: Service) returns (requeueAfter: int, err: bool)
      requires Holds(svc) && svc.AsCopy() == Now().mem && LbId in svc.ann
      modifies w, svc
      ensures Live() && requeueAfter >= 0
      ensures old(w.log) <= w.log && HandlesUpdate(w.cfg, w.k, old(Now().mem.obj), Since(old(w.log), w.log),
                                                   requeueAfter, err)
      ensures !err && requeueAfter == 0 ==>
        LbId in Now().mem.obj.ann && |Now().mem.obj.ingress| > 0 && RuleSettled(w.cfg, w.k, Now().mem.obj, w.log)
    {
      ghost var before, o := w.log, Now().mem.obj;
      var ingressRequeue := EnsureLoadBalancerIngress(svc);
      ghost var restored := w.log;
      requeueAfter, err := UpdateBoth(svc, ingressRequeue, o, before, restored);
    }

    /** The listeners, then the firewall rule. */
    method UpdateBoth(svc: Service, ingressRequeue: int, ghost o: Object, ghost before: Transcript,
                      ghost restored: Transcript)
      returns (requeueAfter: int, err: bool)
      requires Holds(svc) && LbId in svc.ann && ingressRequeue >= 0
      requires ingressRequeue == 0 ==> |Now().mem.obj.ingress| > 0
      requires before <= restored == w.log && RestoresIngress(o, Since(before, restored), ingressRequeue)
      requires Now().mem.obj == Reported(o, Since(before, restored))
      modifies w, svc
      ensures Live() && requeueAfter >= 0
      ensures before <= w.log && HandlesUpdate(w.cfg, w.k, o, Since(before, w.log), requeueAfter, err)
      ensures !err && requeueAfter == 0 ==>
        LbId in Now().mem.obj.ann && |Now().mem.obj.ingress| > 0 && RuleSettled(w.cfg, w.k, Now().mem.obj, w.log)
    {
      var failed := UpdateLoadBalancer(svc);
      ghost var sent := w.log;
      if failed {
        UpdatesFailed(w.cfg, w.k, o, before, restored, sent, ingressRequeue);
        return UPDATE_REQUEUE, false;
      }
      requeueAfter, err := UpdateFirewallRule(svc, ingressRequeue);
      UpdatesAll(w.cfg, w.k, o, before, restored, sent, w.log, ingressRequeue, requeueAfter, err);
    }

    /** The firewall step of an update, and the sooner of the two delays asked for. */
    method UpdateFirewallRule(svc: Service, ingressRequeue: int) returns (requeueAfter: int, err: bool)
      requires Holds(svc) && LbId in svc.ann && ingressRequeue >= 0
      requires ingressRequeue == 0 ==> |Now().mem.obj.ingress| > 0
      modifies w, svc
      ensures Live() && requeueAfter >= 0
      ensures old(w.log) <= w.log &&
        UpdatesRule(w.cfg, w.k, old(Now().mem.obj), Since(old(w.log), w.log), ingressRequeue, requeueAfter, err)
      ensures !err && requeueAfter == 0 ==>
        LbId in Now().mem.obj.ann && |Now().mem.obj.ingress| > 0 && RuleSettled(w.cfg, w.k, Now().mem.obj, w.log)
    {
      requeueAfter, err := EnsureFirewallRule(svc);
      if err {
        return 0, true;
      }
      ghost var wait := requeueAfter;
      var delays := [requeueAfter, ingressRequeue];
      assert delays[0] in delays && delays[1] in delays;
      requeueAfter := EarliestRequeue(delays);
      assert EnsuresRule(w.cfg, w.k, old(Now().mem.obj), Since(old(w.log), w.log), wait, err);
    }

    /* ---- Deleting ---- */

    ghost predicate Cleans(svc: Service)
      reads w, svc
    {
      w.Valid() && w.Deleting() && svc.AsCopy() == w.Current().clean.mem
    }

    /** Where the deleting pass stands. */
    function At(): Clean
      requires w.Current().Cleaning?
      reads w
    {
      w.Current().clean
    }

    /** Nothing but the firewall step has moved. */
    ghost predicate OnlyRule(was: Clean)
      requires w.Current().Cleaning?
      reads w
    {
      At() == was.(fw := At().fw)
    }

    ghost predicate Stands(d: Deletion)
      requires w.Current().Cleaning?
      reads w
    {
      match d
      case Deleted => At().fw.Cleared?
      case StillInFlight => At().fw == Held(true)
      case DeletionFailed => At().fw == Held(false)
    }

    /** What the two answers of RuleOfOperation come to: a hold only for a pending operation within the
        limit, an error only for an unclear answer, otherwise the rule it made, or "". */
    predicate ResolvesOperation(now: Time, deletedAt: Time, outcome: OpOutcome, ruleId: Id, result: Option<Deletion>) {
      && (result == Some(StillInFlight) <==> outcome.Pending? && now - deletedAt <= IN_FLIGHT_HOLD_LIMIT)
      && (result == Some(DeletionFailed) <==> outcome.Transient?)
      && result != Some(Deleted)
      && ruleId == if outcome.Yielded? then outcome.ruleId else ""
    }

    method HoldExpired(svc: Service, op: Id) returns (expired: bool)
      requires Cleans(svc) && At().fw == AskClock(op) && At().start.obj.deletedAt == svc.deletedAt && svc.deletedAt.Some?
      modifies w
      ensures Cleans(svc) && At() == old(At()).(fw := AskOp(op, expired)) && w.begun == old(w.begun)
      ensures Made(old(w.log), w.log, Clock) && LastReply(w.log).At?
      ensures expired <==> LastReply(w.log).now - svc.deletedAt.value > IN_FLIGHT_HOLD_LIMIT
    {
      var clock := w.Send(Clock);
      expired := clock.now - svc.deletedAt.value > IN_FLIGHT_HOLD_LIMIT;
    }

    /** One read of the operation, and where it leaves the step. */
    method AskedOperation(svc: Service, op: Id, ghost expired: bool) returns (outcome: OpOutcome)
      requires Cleans(svc) && At().fw == AskOp(op, expired)
      modifies w
      ensures Cleans(svc) && OnlyRule(old(At())) && w.begun == old(w.begun)
      ensures Made(old(w.log), w.log, GetOp(op)) && outcome == OutcomeOf(LastReply(w.log))
      ensures At().fw == match outcome
                         case Yielded(id) => Target(id, false)
                         case Pending => if expired then ByName(NameOf(w.cfg, w.k), true) else Held(true)
                         case Transient => Held(false)
                         case _ => ByName(NameOf(w.cfg, w.k), false)
    {
      var reply := w.Send(GetOp(op));
      outcome := OutcomeOf(reply);
    }

    /** Resolves the rule through its create operation, waiting for it only up to the limit. Without a
        result and without a rule id its name is left. */
    method RuleOfOperation(svc: Service, op: Id) returns (ruleId: Id, result: Option<Deletion>)
      requires Cleans(svc) && At().fw == AskClock(op) && At().start.obj.deletedAt == svc.deletedAt && svc.deletedAt.Some?
      modifies w
      ensures Cleans(svc) && OnlyRule(old(At())) && w.begun == old(w.begun)
      ensures |w.log| == |old(w.log)| + 2 && old(w.log) <= w.log
      ensures var t := Since(old(w.log), w.log);
              && t[0].0.Clock? && t[0].1.At? && t[1].0 == GetOp(op)
              && ResolvesOperation(t[0].1.now, svc.deletedAt.value, OutcomeOf(t[1].1), ruleId, result)
              && if result.Some? then Stands(result.value)
                 else At().fw == if ruleId != "" then Target(ruleId, false)
                                 else ByName(NameOf(w.cfg, w.k), OutcomeOf(t[1].1).Pending?)
    {
      var holdExpired := HoldExpired(svc, op);
      ghost var clock := LastReply(w.log);
      var outcome := AskedOperation(svc, op, holdExpired);
      SinceTwoCalls(old(w.log), w.log, (Clock, clock), (GetOp(op), LastReply(w.log)));
      ruleId := if outcome.Yielded? then outcome.ruleId else "";
      result := if outcome.Pending? && !holdExpired then Some(StillInFlight)
                else if outcome.Transient? then Some(DeletionFailed)
                else None;
    }

    method RuleOfName(svc: Service) returns (ruleId: Id, result: Option<Deletion>)
      requires Cleans(svc) && At().fw.AskName? && NameOf(w.cfg, w.k).Some?
      modifies w
      ensures Cleans(svc) && OnlyRule(old(At())) && w.begun == old(w.begun)
      ensures result.Some? ==> Stands(result.value)
      ensures result.None? ==> At().fw.Target? && At().fw.id == ruleId
    {
      var reply := w.Send(ListRules);
      if !reply.RuleList? {
        return "", Some(DeletionFailed);
      }
      var found := FirstNamed(reply.rules, NameOf(w.cfg, w.k).value);
      if found.None? {
        return "", Some(Deleted);
      }
      ruleId, result := found.value, None;
    }

    /** Deletes the rule, a missing one counting as deleted, and then drops its tracking. */
    method DeleteRuleById(svc: Service, ruleId: Id) returns (result: Deletion)
      requires Cleans(svc) && At().fw.Target? && At().fw.id == ruleId
      modifies w, svc
      ensures w.Valid() && w.Deleting() && Stands(result) && w.begun == old(w.begun)
      ensures At() == old(At()).(fw := At().fw, mem := At().mem) && (result.Deleted? ==> svc.AsCopy() == At().mem)
    {
      var reply := w.Send(DeleteRule(ruleId));
      if !reply.Done? && reply != Refused(true, Some(404)) {
        return DeletionFailed;
      }
      result := DropTracking(svc);
    }

    method DropTracking(svc: Service) returns (result: Deletion)
      requires Cleans(svc) && At().fw.Removed?
      modifies w, svc
      ensures w.Valid() && w.Deleting() && Stands(result) && w.begun == old(w.begun)
      ensures At() == old(At()).(fw := At().fw, mem := At().mem) && (result.Deleted? ==> svc.AsCopy() == At().mem)
    {
      var ann := svc.ann - {RuleId, OpId};
      var reply := w.Send(PatchAnn(Diff(svc.ann, ann)));
      if !reply.Stored? {
        svc.ann := ann;
        return DeletionFailed;
      }
      svc.Load(reply.copy);
      result := Deleted;
    }

    method DeleteFirewallRule(svc: Service) returns (result: Deletion)
      requires Cleans(svc) && At().start == At().mem && svc.deletedAt.Some? && At().fw == FwStart(w.cfg, w.k, svc.Value())
      modifies w, svc
      ensures w.Valid() && w.Deleting() && Stands(result) && w.begun == old(w.begun)
      ensures At() == old(At()).(fw := At().fw, mem := At().mem) && (result.Deleted? ==> svc.AsCopy() == At().mem)
    {
      if Text(svc.ann, Manage) != "true" || !w.cfg.project {
        return Deleted;
      }
      var ruleId, stopped := Text(svc.ann, RuleId), None;
      if ruleId == "" && Text(svc.ann, OpId) != "" {
        ruleId, stopped := RuleOfOperation(svc, Text(svc.ann, OpId));
      }
      if stopped.None? && ruleId == "" {
        if NameOf(w.cfg, w.k).None? {
          return Deleted;
        }
        ruleId, stopped := RuleOfName(svc);
      }
      if stopped.Some? {
        return stopped.value;
      }
      result := DeleteRuleById(svc, ruleId);
    }

    /** Rule, then load balancer; an in-flight operation asks for another pass in ten seconds. */
    method HandleDelete(svc: Service) returns (requeueAfter: int, err: bool)
      requires Cleans(svc) && At().start == At().mem && svc.deletedAt.Some? && At().fw == FwStart(w.cfg, w.k, svc.Value())
      requires At().lb == if Text(svc.ann, LbId) == "" then Gone else Present
      modifies w, svc
      ensures w.Valid() && w.Deleting() && w.begun == old(w.begun)
      ensures match At().fw
              case Held(inFlight) => if inFlight then !err && requeueAfter == RULE_REQUEUE else err && requeueAfter == 0
              case _ =>
                && At().fw.Cleared? && requeueAfter == 0
                && if err then At().lb.Over? && |w.log| > 0 && LastCall(w.log).DeleteLb?
                   else At().lb.Gone? && svc.AsCopy() == At().mem
    {
      var loadBalancerId := Text(svc.ann, LbId);
      var result := DeleteFirewallRule(svc);
      if !result.Deleted? {
        return if result.StillInFlight? then RULE_REQUEUE else 0, result.DeletionFailed?;
      }
      if loadBalancerId == "" {
        return 0, false;
      }
      requeueAfter := 0;
      err := DeleteLoadBalancer(svc, loadBalancerId);
    }

    /** A load balancer already gone counts as deleted. */
    method DeleteLoadBalancer(svc: Service, id: Id) returns (err: bool)
      requires Cleans(svc) && At().fw.Cleared? && At().lb.Present? && Text(At().start.obj.ann, LbId) == id
      modifies w
      ensures Cleans(svc) && w.begun == old(w.begun) && Made(old(w.log), w.log, DeleteLb(id))
      ensures err == !LbDeleted(LastReply(w.log))
      ensures At() == old(At()).(lb := if err then Over else Gone)
    {
      var reply := w.Send(DeleteLb(id));
      err := !LbDeleted(reply);
    }

    /* ---- Reconcile ---- */

    /** The finalizer's removal was the last call, and it was accepted. */
    predicate Released(log: Transcript) {
      |log| > 0 && log[|log| - 1].0.Update? && !log[|log| - 1].0.obj.finalizer && log[|log| - 1].1.Stored?
    }

    method ReconcileDeletion(svc: Service) returns (requeueAfter: int, err: bool)
      requires Cleans(svc) && At().start == At().mem && svc.deletedAt.Some? && At().fw == FwStart(w.cfg, w.k, svc.Value())
      requires At().lb == if Text(svc.ann, LbId) == "" then Gone else Present
      modifies w, svc
      ensures w.Valid() && w.Current().Cleaning? && w.begun == old(w.begun) && requeueAfter >= 0
      ensures Deletes(w.cfg, w.k, w.begun.clean, w.log, At(), requeueAfter, err)
      ensures !err && requeueAfter == 0 ==> Released(w.log)
    {
      requeueAfter, err := HandleDelete(svc);
      if err || requeueAfter > 0 {
        return;
      }
      svc.finalizer := false;
      var reply := w.Send(Update(svc.Value()));
      err := !reply.Stored?;
    }

    method AddFinalizer(svc: Service) returns (err: bool)
      requires Holds(svc) && svc.AsCopy() == Now().mem && Now().read.Unread? && !svc.finalizer
      modifies w, svc
      ensures Live() && Now().read.Unread?
      ensures Made(old(w.log), w.log, Update(old(svc.Value()).(finalizer := true))) && err == !LastReply(w.log).Stored?
      ensures !err ==> Holds(svc) && svc.AsCopy() == Now().mem == LastReply(w.log).copy && svc.finalizer
    {
      svc.finalizer := true;
      var reply := w.Send(Update(svc.Value()));
      err := !reply.Stored?;
      if !err {
        svc.Load(reply.copy);
      }
    }

    method Operate(svc: Service) returns (requeueAfter: int, err: bool)
      requires Holds(svc) && svc.AsCopy() == Now().mem && Now().read.Unread? && svc.finalizer
      modifies w, svc
      ensures Live() && requeueAfter >= 0
      ensures old(w.log) <= w.log && Operates(w.cfg, w.k, old(Now().mem.obj), Since(old(w.log), w.log), requeueAfter, err)
      ensures !err && requeueAfter == 0 ==> CreationRests()
    {
      if LbId !in svc.ann {
        requeueAfter, err := HandleCreate(svc);
      } else {
        requeueAfter, err := HandleUpdate(svc);
      }
    }

    method ReconcileLive(svc: Service) returns (requeueAfter: int, err: bool)
      requires Holds(svc) && svc.AsCopy() == Now().mem && Now().read.Unread?
      modifies w, svc
      ensures Live() && requeueAfter >= 0
      ensures old(w.log) <= w.log && Reconciles(w.cfg, w.k, old(Now().mem.obj), Since(old(w.log), w.log),
                                                requeueAfter, err)
      ensures !err && requeueAfter == 0 ==> CreationRests()
    {
      ghost var before := w.log;
      if svc.finalizer {
        requeueAfter, err := Operate(svc);
        return;
      }
      err := AddFinalizer(svc);
      if err {
        return 0, true;
      }
      ghost var added := w.log;
      requeueAfter, err := Operate(svc);
      SinceCons(before, added, w.log, added[|before|]);
    }

    predicate BeingDeleted(snapshot: Option<Object>) {
      snapshot.Some? && snapshot.value.deletedAt.Some?
    }

    /** Gone, released already, or another controller's. */
    predicate NothingToDo(snapshot: Option<Object>) {
      || snapshot.None?
      || (BeingDeleted(snapshot) && !snapshot.value.finalizer)
      || (!BeingDeleted(snapshot) && snapshot.value.spec.lbClass.Some?)
    }

    /** One pass over the Service. Whatever happens, every call is one the protocol allows, so the pass
        is part of a run. A pass that ends without an error or a requeue has come to rest; on a Service
        being deleted, it has released it. */
    method Reconcile() returns (requeueAfter: int, err: bool, ghost snapshot: Option<Object>)
      requires w.Valid() && w.Current().Idle?
      modifies w
      ensures w.Valid() && w.Current().Idle? && requeueAfter >= 0
      ensures !err && requeueAfter == 0 && !BeingDeleted(snapshot) ==> RestOf(w.cfg, w.k, snapshot, w.ended, w.log) != Restless
      ensures snapshot.Some? && !BeingDeleted(snapshot) && snapshot.value.spec.lbClass.None? ==>
        Reconciles(w.cfg, w.k, snapshot.value, w.log, requeueAfter, err)
      ensures NothingToDo(snapshot) ==> w.log == [] && !err && requeueAfter == 0
      ensures BeingDeleted(snapshot) && snapshot.value.finalizer ==>
        && w.begun.Cleaning? && JustBegun(w.cfg, w.k, w.begun.clean) && w.begun.clean.start.obj == snapshot.value
        && w.ended.Cleaning? && Deletes(w.cfg, w.k, w.begun.clean, w.log, w.ended.clean, requeueAfter, err)
        && (!err && requeueAfter == 0 ==> Released(w.log))
    {
      var version, read := w.Begin();
      snapshot, requeueAfter, err := read, 0, false;
      if read.Some? {
        var svc := new Service(Copy(version, read.value));
        if svc.deletedAt.Some? {
          if svc.finalizer {
            requeueAfter, err := ReconcileDeletion(svc);
          }
        } else if svc.spec.lbClass.None? {
          requeueAfter, err := ReconcileLive(svc);
        }
      }
      w.Finish();
    }
  }
}
