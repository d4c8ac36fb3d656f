/** The reconcile protocol as a labelled transition system: what one pass over a Service has
    learned, which API calls that allows, and how passes over many Services, users, caches and the
    cloud interleave, one API call at a time. */
module Protocol {
  import opened Wrappers
  import opened MergePatch
  import opened Timing
  import opened Ports
  import opened FirewallArgs
  import opened RuleCompare
  import opened Polling
  import opened Model

  /* ---- One pass ---- */

  /** The direct read before creating: not made; the stored Service allows a create; the read is
      forbidden, so the cache is trusted; the stored Service forbids a create. */
  datatype Fresh = Unread | Confirmed | Forbidden | Behind

  datatype Asked = Asked(op: Id, protocol: string)

  /** Where a deleting pass stands with the firewall rule. expired: the limit for holding was passed
      when the operation was asked. gaveUp: it was, and the operation was still pending. */
  datatype FwStep =
    | AskClock(op: Id)
    | AskOp(op: Id, expired: bool)
    | AskName(gaveUp: bool)
    | Target(id: Id, gaveUp: bool)
    | Removed(gaveUp: bool)
    | Cleared(gaveUp: bool)
    | Held(inFlight: bool)

  datatype LbStep = Present | Gone | Over

  /** mem: the Service as the pass last got it from the server. looked: the cloud lists no load
      balancer of this name. mine: load balancers known to be this Service's, with their protocol
      where reported. made: rule operations this pass submitted. found: rules it was shown as the
      Service's, by their name or by its recorded operation. vips: VIPs it was
      shown as those of the Service's load balancer. start: the snapshot a deleting pass
      began with. */
  datatype Work = Work(mem: Copy, read: Fresh, looked: bool, asked: Option<Asked>, mine: map<Id, Option<string>>,
                       made: set<Id>, found: set<Id>, vips: set<string>)
  datatype Clean = Clean(start: Copy, mem: Copy, fw: FwStep, lb: LbStep)
  datatype Pass = Idle | Working(work: Work) | Cleaning(clean: Clean)

  function Claim(protocol: string): Option<string> {
    if Known(protocol) then Some(protocol) else None
  }

  function LearnViews(mine: map<Id, Option<string>>, views: seq<LbView>, name: string): map<Id, Option<string>>
    decreases |views|
  {
    if |views| == 0 then mine
    else LearnViews(if views[0].name == name then mine[views[0].id := Claim(views[0].protocol)] else mine, views[1..],
                    name)
  }

  function LearnOp(mine: map<Id, Option<string>>, op: LbOperation, protocol: string): map<Id, Option<string>> {
    if op.state == "SUCCEEDED" && op.result.Decoded? then mine[op.result.id := Some(protocol)] else mine
  }

  function LearnPolls(mine: map<Id, Option<string>>, script: seq<Poll<LbOperation>>, protocol: string): map<Id, Option<string>>
    decreases |script|
  {
    if |script| == 0 then mine
    else LearnPolls(if script[0].Answer? then LearnOp(mine, script[0].op, protocol) else mine, script[1..], protocol)
  }

  /** The VIP that a succeeded operation reports of its load balancer. */
  function OpVips(op: LbOperation): set<string> {
    if op.state == "SUCCEEDED" && op.result.Decoded? then {op.result.vip} else {}
  }

  function PollVips(script: seq<Poll<LbOperation>>): set<string>
    decreases |script|
  {
    if |script| == 0 then {}
    else (if script[0].Answer? then OpVips(script[0].op) else {}) + PollVips(script[1..])
  }

  function LearnWorking(p: Work, name: string, call: Call, reply: Reply): Work {
    match (call, reply)
    case (FreshGet, Found(copy)) =>
      p.(read := if LbId in copy.obj.ann || copy.obj.deletedAt.Some? then Behind else Confirmed)
    case (FreshGet, Refused(_, status)) =>
      p.(read := if status == Some(403) then Forbidden else if status == Some(404) then Behind else Unread)
    case (LookupLb, Lbs(items)) =>
      p.(looked := forall v | v in items :: v.name != name, mine := LearnViews(p.mine, items, name),
         vips := p.vips + set v | v in items && v.name == name :: v.vip)
    case (CreateLb(protocol, _), LbOp(op)) =>
      p.(looked := false, asked := Some(Asked(op.id, protocol)), mine := LearnOp(p.mine, op, protocol),
         vips := p.vips + OpVips(op))
    case (CreateLb(_, _), _) => p.(looked := false)
    case (AwaitLb(_), Polls(script)) =>
      if p.asked.Some? then
        p.(mine := LearnPolls(p.mine, script, p.asked.value.protocol), vips := p.vips + PollVips(script))
      else p
    case (GetLb(id), LbSeen(vip)) => if Get(p.mem.obj.ann, LbId) == Some(id) then p.(vips := p.vips + {vip}) else p
    case (CreateRule(_), RuleOp(op)) => p.(made := p.made + {op})
    case (ListRules, RuleList(rules)) => p.(found := p.found + set r | r in rules && r.1 == name :: r.0)
    case (GetOp(op), OpSeen(Succeeded(id, _))) => if Get(p.mem.obj.ann, OpId) == Some(op) then p.(found := p.found + {id}) else p
    case (_, Stored(copy)) => p.(mem := copy)
    case _ => p
  }

  /** With no usable id left: by name, or nothing to do when no name could ever be generated. */
  function ByName(name: Option<string>, gaveUp: bool): FwStep {
    if name.None? then Cleared(gaveUp) else AskName(gaveUp)
  }

  function LearnCleaning(p: Clean, name: Option<string>, reply: Reply): (r: Clean)
    ensures r.start == p.start
  {
    match p.fw
    case AskClock(op) =>
      if reply.At? then p.(fw := AskOp(op, reply.now - p.start.obj.deletedAt.GetOr(reply.now) > IN_FLIGHT_HOLD_LIMIT)) else p
    case AskOp(_, expired) =>
      (match OutcomeOf(reply)
       case Yielded(id) => p.(fw := Target(id, false))
       case Pending => p.(fw := if expired then ByName(name, true) else Held(true))
       case FailedCreate(_, _, _) => p.(fw := ByName(name, false))
       case Unresolvable => p.(fw := ByName(name, false))
       case Transient => p.(fw := Held(false)))
    case AskName(gaveUp) =>
      if !reply.RuleList? then p.(fw := Held(false))
      else
        var found := FindByName(reply.rules, name.GetOr(""));
        p.(fw := if found.Some? then Target(found.value, gaveUp) else Cleared(gaveUp))
    case Target(_, gaveUp) =>
      p.(fw := if reply.Done? || reply == Refused(true, Some(404)) then Removed(gaveUp) else Held(false))
    case Removed(gaveUp) =>
      if reply.Stored? then p.(fw := Cleared(gaveUp), mem := reply.copy) else p.(fw := Held(false))
    case Cleared(_) =>
      if p.lb.Present? then p.(lb := if LbDeleted(reply) then Gone else Over) else p.(lb := Over)
    case Held(_) => p
  }

  /** handleDelete's reading of the answer to a load balancer DELETE. */
  predicate LbDeleted(reply: Reply) {
    reply.Done? || (reply.Refused? && (reply.status == Some(200) || reply.status == Some(204) ||
                                       (reply.err && reply.status == Some(404))))
  }

  /** GetFirewallRuleOperationResult: what an operation id says about its rule. */
  datatype OpOutcome =
    | Yielded(ruleId: Id)
    | Pending
    | FailedCreate(alreadyExists: bool, completedAt: Option<Time>, startedAt: Option<Time>)
    | Unresolvable
    | Transient

  function OutcomeOf(reply: Reply): OpOutcome {
    match reply
    case OpSeen(InFlight(_)) => Pending
    case OpSeen(OpFailed(exists', completedAt, startedAt)) => FailedCreate(exists', completedAt, startedAt)
    case OpSeen(Succeeded(id, result)) => if result.WithId? && id != "" then Yielded(id) else Unresolvable
    case Refused(true, Some(status)) => if status in {400, 404, 410} then Unresolvable else Transient
    case _ => Transient
  }

  /** findFirewallRuleByName: the first listed rule of that name. */
  function FindByName(rules: seq<(Id, string)>, name: string): (r: Option<Id>)
    ensures r.Some? ==> (r.value, name) in rules
    ensures r.None? ==> forall x | x in rules :: x.1 != name
  {
    if |rules| == 0 then None
    else if rules[0].1 == name then Some(rules[0].0)
    else FindByName(rules[1..], name)
  }

  function Learn(cfg: Config, k: Id, p: Pass, call: Call, reply: Reply): Pass {
    match p
    case Idle => Idle
    case Working(w) => Working(LearnWorking(w, NameOf(cfg, k).GetOr(""), call, reply))
    case Cleaning(c) => Cleaning(LearnCleaning(c, NameOf(cfg, k), reply))
  }

  /* ---- What a pass may call ---- */

  function Recorded(o: Object): string { Text(o.ann, LbProtocol) }

  /** Records a load balancer known to be this Service's, id and protocol together; the protocol is
      its own where known, else the one the Service asks for. */
  predicate RecordsLb(p: Work, diff: Patch<Key, string>) {
    var ann := p.mem.obj.ann;
    && LbId !in ann && LbId in diff && diff[LbId].Some? && diff[LbId].value in p.mine
    && var id := diff[LbId].value;
       var protocol := if LbProtocol in diff then diff[LbProtocol].GetOr("") else Text(ann, LbProtocol);
       && diff == Diff(ann, ann[LbId := id][LbProtocol := protocol])
       && Known(protocol)
       && (if p.mine[id].Some? then protocol == p.mine[id].value else Derive(p.mem.obj.spec.ports) == Serves(protocol))
  }

  /** Changes only the firewall tracking, of a Service with a load balancer, and never removes one
      half without writing the other; what is written is what the pass was given. */
  predicate TracksRule(p: Work, diff: Patch<Key, string>) {
    && LbId in p.mem.obj.ann
    && diff.Keys <= {RuleId, OpId}
    && (OpId in diff && diff[OpId].Some? ==> diff[OpId].value in p.made)
    && (RuleId in diff && diff[RuleId].Some? ==> diff[RuleId].value in p.found)
    && (RuleId in diff && diff[RuleId].None? ==> OpId in diff && diff[OpId].Some?)
    && (OpId in diff && diff[OpId].None? ==> RuleId in diff && diff[RuleId].Some?)
  }

  ghost predicate ListenersOf(o: Object, listeners: seq<Listener>) {
    exists nodes: Option<seq<Node>> :: listeners == Payload(OfferedPorts(o.spec.ports, Recorded(o)), nodes)
  }

  ghost predicate RuleOf(cfg: Config, k: Id, o: Object, args: RuleArgs) {
    exists vpc: Option<string>, nodes: Option<seq<Node>> ::
      var r := ArgsFor(cfg.project, vpc, NameOf(cfg, k), o.spec.ports, Recorded(o), o.spec.ranges, nodes);
      r.Needs? && (args == r.args || args == Sorted(r.args))
  }

  ghost predicate AllowedWorking(cfg: Config, k: Id, p: Work, call: Call) {
    var o := p.mem.obj;
    match call
    case Update(o') => !o.finalizer && o' == o.(finalizer := true)
    case FreshGet => o.finalizer && p.read.Unread?
    case LookupLb => (p.read.Confirmed? || p.read.Forbidden?) && NameOf(cfg, k).Some?
    case CreateLb(protocol, listeners) =>
      && p.looked && LbId !in o.ann && o.finalizer && (p.read.Confirmed? || p.read.Forbidden?)
      && Derive(o.spec.ports) == Serves(protocol)
      && exists nodes: Option<seq<Node>> :: listeners == Payload(o.spec.ports, nodes)
    case AwaitLb(op) => p.asked.Some? && p.asked.value.op == op
    case PatchAnn(diff) => RecordsLb(p, diff) || TracksRule(p, diff)
    case PatchStatus(vip) => LbId in o.ann && vip in p.vips && vip != ""
    case GetLb(id) => LbId in o.ann && id == o.ann[LbId]
    case UpdateLb(id, listeners) =>
      LbId in o.ann && id == o.ann[LbId] && !DriftSkip(o.spec.ports, Recorded(o)) && ListenersOf(o, listeners)
    case DeleteLb(_) => false
    case DeleteRule(_) => false
    case ListRules => NameOf(cfg, k).Some?
    case CreateRule(args) => Managed(o) && LbId in o.ann && RuleOf(cfg, k, o, args)
    case PatchRule(id, args) => Managed(o) && LbId in o.ann && Get(o.ann, RuleId) == Some(id) && RuleOf(cfg, k, o, args)
    case _ => true
  }

  /** How a deleting pass resolves the rule: not at all, by its id, by its operation, by its name. */
  function FwStart(cfg: Config, k: Id, o: Object): FwStep {
    if !Managed(o) || !cfg.project then Cleared(false)
    else if Text(o.ann, RuleId) != "" then Target(Text(o.ann, RuleId), false)
    else if Text(o.ann, OpId) != "" then AskClock(Text(o.ann, OpId))
    else ByName(NameOf(cfg, k), false)
  }

  /** The one call a deleting pass makes next: rule, then load balancer, then finalizer. */
  function CleanNext(p: Clean): Option<Call> {
    match p.fw
    case AskClock(_) => Some(Clock)
    case AskOp(op, _) => Some(GetOp(op))
    case AskName(_) => Some(ListRules)
    case Target(id, _) => Some(DeleteRule(id))
    case Removed(_) => Some(PatchAnn(Diff(p.mem.obj.ann, p.mem.obj.ann - {RuleId, OpId})))
    case Held(_) => None
    case Cleared(_) =>
      if p.lb.Over? then None
      else if p.lb.Present? then Some(DeleteLb(Text(p.start.obj.ann, LbId)))
      else Some(Update(p.mem.obj.(finalizer := false)))
  }

  ghost predicate Allowed(cfg: Config, k: Id, p: Pass, call: Call) {
    match p
    case Idle => false
    case Working(w) => AllowedWorking(cfg, k, w, call)
    case Cleaning(c) => CleanNext(c) == Some(call)
  }

  /* ---- The system ---- */

  /** versions: every stored state of the Service, None once it is gone. seen: how far the informer
      cache is. cleaned: a pass has acted on the deletion. */
  datatype Svc = Svc(versions: Versions, seen: nat, cleaned: bool, pass: Pass)

  datatype Sys = Sys(cloud: Cloud, svcs: map<Id, Svc>, now: Time)

  datatype Action =
    | Begin(k: Id)
    | End(k: Id)
    | Do(k: Id, call: Call, fate: Fate)
    | CacheAdvances(k: Id, to: nat)
    | UserEdits(k: Id, spec: Spec, ann: Annotations)
    | UserDeletes(k: Id)
    | OpSettles(op: Id, ruleId: Id, result: Decode, succeeds: bool, completedAt: Option<Time>, startedAt: Option<Time>)
    | OpAges(op: Id)
    | RuleDropped(id: Id)
    | TimePasses(delta: nat)

  /** What Reconcile makes of the snapshot the cache hands it. */
  function StartPass(cfg: Config, k: Id, version: nat, snapshot: Option<Object>): Pass {
    if snapshot.None? then Idle
    else
      var copy := Copy(version, snapshot.value);
      if snapshot.value.deletedAt.Some? then
        if !snapshot.value.finalizer then Idle
        else Cleaning(Clean(copy, copy, FwStart(cfg, k, snapshot.value),
                            if Text(snapshot.value.ann, LbId) == "" then Gone else Present))
      else if snapshot.value.spec.lbClass.Some? then Idle
      else Working(Work(copy, Unread, false, None, map[], {}, {}, {}))
  }

  predicate Deleted(o: Option<Object>) { o.None? || o.value.deletedAt.Some? }

  predicate UserOnly(a: Annotations, b: Annotations) {
    Get(a, LbId) == Get(b, LbId) && Get(a, LbProtocol) == Get(b, LbProtocol) &&
    Get(a, RuleId) == Get(b, RuleId) && Get(a, OpId) == Get(b, OpId)
  }

  function PassMem(p: Pass): Copy
    requires !p.Idle?
  {
    if p.Working? then p.work.mem else p.clean.mem
  }

  function DoCall(cfg: Config, s: Sys, k: Id, call: Call, f: Fate): Served
    requires k in s.svcs && !s.svcs[k].pass.Idle?
  {
    Serve(cfg, s.cloud, s.svcs[k].versions, s.now, NameOf(cfg, k).GetOr(""), PassMem(s.svcs[k].pass), call, f)
  }

  function SettleOp(c: Cloud, a: Action): Cloud
    requires a.OpSettles?
  {
    if a.op !in c.ops || !c.ops[a.op].InFlight? then c
    else
      var rule := c.ops[a.op].rule;
      if exists i | i in c.rules :: c.rules[i].name == rule.name then
        c.(ops := c.ops[a.op := OpFailed(true, a.completedAt, a.startedAt)])
      else if a.succeeds && a.ruleId !in c.spent && a.ruleId != "" then
        c.(ops := c.ops[a.op := Succeeded(a.ruleId, a.result)], rules := c.rules[a.ruleId := rule],
           spent := c.spent + {a.ruleId})
      else c.(ops := c.ops[a.op := OpFailed(false, a.completedAt, a.startedAt)])
  }

  ghost function Step(cfg: Config, s: Sys, a: Action): Sys {
    match a
    case Begin(k) =>
      if k !in s.svcs || !s.svcs[k].pass.Idle? then s
      else
        var v := s.svcs[k];
        if v.seen >= |v.versions| then s
        else
          var snapshot := v.versions[v.seen];
          s.(svcs := s.svcs[k := v.(cleaned := v.cleaned || Deleted(snapshot),
                                    pass := StartPass(cfg, k, v.seen, snapshot))])
    case End(k) => if k !in s.svcs then s else s.(svcs := s.svcs[k := s.svcs[k].(pass := Idle)])
    case Do(k, call, f) =>
      if k !in s.svcs || s.svcs[k].pass.Idle? || !Allowed(cfg, k, s.svcs[k].pass, call) then s
      else
        var r := DoCall(cfg, s, k, call, f);
        var v := s.svcs[k];
        s.(cloud := r.cloud, svcs := s.svcs[k := v.(versions := r.versions,
                                                    pass := Learn(cfg, k, v.pass, call, r.reply))])
    case CacheAdvances(k, to) =>
      if k !in s.svcs || !(s.svcs[k].seen <= to < |s.svcs[k].versions|) then s
      else s.(svcs := s.svcs[k := s.svcs[k].(seen := to)])
    case UserEdits(k, spec, ann) =>
      if k !in s.svcs then s
      else
        var now := Latest(s.svcs[k].versions);
        if now.None? || !UserOnly(ann, now.value.ann) then s
        else s.(svcs := s.svcs[k := s.svcs[k].(versions := s.svcs[k].versions + [Some(now.value.(spec := spec, ann := ann))])])
    case UserDeletes(k) =>
      if k !in s.svcs then s
      else
        var now := Latest(s.svcs[k].versions);
        if now.None? || now.value.deletedAt.Some? then s
        else s.(svcs := s.svcs[k := s.svcs[k].(versions := s.svcs[k].versions +
               [if now.value.finalizer then Some(now.value.(deletedAt := Some(s.now))) else None])])
    case OpSettles(_, _, _, _, _, _) => s.(cloud := SettleOp(s.cloud, a))
    case OpAges(op) =>
      if op in s.cloud.ops && !s.cloud.ops[op].InFlight? then s.(cloud := s.cloud.(aged := s.cloud.aged + {op})) else s
    case RuleDropped(id) => s.(cloud := s.cloud.(rules := s.cloud.rules - {id}))
    case TimePasses(delta) => s.(now := s.now + delta)
  }

  ghost function Run(cfg: Config, s: Sys, acts: seq<Action>): Sys
    decreases |acts|
  {
    if |acts| == 0 then s else Step(cfg, Run(cfg, s, acts[..|acts| - 1]), acts[|acts| - 1])
  }

  /** No cloud state yet; every Service stored once, untouched by the controller. */
  ghost predicate Init(cfg: Config, s: Sys) {
    && s.cloud == Cloud(map[], {}, map[], map[], {}, map[], {})
    && s.svcs.Keys == cfg.services.Keys
    && forall k | k in s.svcs ::
         && |s.svcs[k].versions| == 1 && s.svcs[k].seen == 0 && !s.svcs[k].cleaned && s.svcs[k].pass.Idle?
         && s.svcs[k].versions[0].Some?
         && var o := s.svcs[k].versions[0].value;
            o.deletedAt.None? && LbId !in o.ann && LbProtocol !in o.ann && RuleId !in o.ann && OpId !in o.ann
  }
}
