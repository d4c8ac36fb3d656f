/** The three stores the controller works against, and what every API call does to them.

    Assumptions about the outside world, made here once: an accepted load balancer create is
    visible in the name-filtered list and stays until it is deleted; rule names are unique, a
    create that clashes gives a failed operation saying so; an accepted DELETE takes effect; a 404
    is only reported for what does not exist; identifiers are not empty and not reused. */
module Model {
  import opened Wrappers
  import opened MergePatch
  import opened Ports
  import opened Polling
  import Names

  type Id = string
  type Time = int

  /* ---- Kubernetes ---- */

  datatype Key = LbId | LbProtocol | RuleId | OpId | Manage | Other(name: string)
  type Annotations = map<Key, string>

  /** svc.Annotations[k], "" when absent. */
  function Text(a: Annotations, k: Key): string { Get(a, k).GetOr("") }

  datatype Spec = Spec(lbClass: Option<string>, ports: seq<Port>, ranges: seq<string>)
  datatype Object = Object(deletedAt: Option<Time>, finalizer: bool, ann: Annotations, ingress: seq<string>, spec: Spec)

  /** A copy of a Service; version is its resourceVersion. */
  datatype Copy = Copy(version: nat, obj: Object)

  predicate Managed(o: Object) { Text(o.ann, Manage) == "true" }

  datatype Identity = Identity(namespace: string, name: string, hash: string)

  /** services: the Services of the run, by UID. project: a project id is configured. reports: the
      API reports the protocol of the load balancers it lists. */
  datatype Config = Config(services: map<Id, Identity>, project: bool, reports: bool)

  function NameOf(cfg: Config, k: Id): Option<string> {
    if k !in cfg.services then None
    else Names.ResourceName(cfg.services[k].namespace, cfg.services[k].name, cfg.services[k].hash)
  }

  /** The UID hash is injective on the Services of the run. */
  ghost predicate ValidConfig(cfg: Config) {
    && (forall k | k in cfg.services :: |cfg.services[k].hash| == Names.HASH_LENGTH)
    && (forall k, j | k in cfg.services && j in cfg.services && cfg.services[k].hash == cfg.services[j].hash :: k == j)
  }

  /** A resource name belongs to one Service. */
  lemma NameInjective(cfg: Config, k: Id, j: Id)
    requires ValidConfig(cfg) && NameOf(cfg, k).Some? && NameOf(cfg, k) == NameOf(cfg, j)
    ensures k == j
  {
    var a, b := cfg.services[k], cfg.services[j];
    Names.NameDeterminesHash(a.namespace, a.name, a.hash, b.namespace, b.name, b.hash);
  }

  /* ---- The cloud ---- */

  datatype Lb = Lb(name: string, protocol: string, vip: string)
  datatype Decode = WithId | WithoutId | Garbled
  datatype Op =
    | InFlight(rule: RuleArgs)
    | Succeeded(ruleId: Id, result: Decode)
    | OpFailed(alreadyExists: bool, completedAt: Option<Time>, startedAt: Option<Time>)

  /** lbs: every load balancer ever accepted; live: those not deleted. lbOps: every create
      operation issued, and the load balancer it makes, if any. ops: every rule operation; aged:
      those whose record is gone. spent: every rule id ever used. */
  datatype Cloud = Cloud(
    lbs: map<Id, Lb>, live: set<Id>, lbOps: map<Id, Option<Id>>,
    rules: map<Id, RuleArgs>, spent: set<Id>, ops: map<Id, Op>, aged: set<Id>)

  /** Rule names are unique. */
  predicate UniqueRules(c: Cloud) {
    forall i, j | i in c.rules && j in c.rules && c.rules[i].name == c.rules[j].name :: i == j
  }

  predicate RuleNamed(c: Cloud, id: Id, name: string) { id in c.rules && c.rules[id].name == name }
  predicate CreatesRule(c: Cloud, o: Id, name: string) { o in c.ops && c.ops[o].InFlight? && c.ops[o].rule.name == name }

  datatype LbResult = Unreadable | Decoded(id: Id, vip: string)
  datatype LbOperation = LbOperation(id: Id, state: string, result: LbResult)
  datatype LbView = LbView(id: Id, name: string, protocol: string, vip: string)

  /** A VIP is reported once it is assigned. */
  function Shown(ready: bool, vip: string): string { if ready then vip else "" }

  /** What an operation can report about the load balancer own it creates, whose VIP is vip: only that
      one, and no success without one. A result may lack the id, and the VIP. */
  function Truthful(op: LbOperation, own: Option<Id>, vip: string): LbOperation {
    if own.None? then (if op.state == "SUCCEEDED" then op.(state := "FAILED") else op)
    else if op.result.Decoded? then
      op.(result := Decoded(if op.result.id != "" then own.value else "", Shown(op.result.vip != "", vip)))
    else op
  }

  function TruthfulPoll(p: Poll<LbOperation>, own: Option<Id>, vip: string): Poll<LbOperation> {
    if p.Answer? then p.(op := Truthful(p.op, own, vip)) else p
  }

  /** The VIP of the load balancer an operation makes. */
  function VipOf(c: Cloud, own: Option<Id>): string {
    if own.Some? && own.value in c.lbs then c.lbs[own.value].vip else ""
  }

  /* ---- Calls ---- */

  datatype Call =
    | Update(obj: Object) | PatchAnn(diff: Patch<Key, string>) | PatchStatus(vip: string) | FreshGet
    | LookupLb | CreateLb(protocol: string, listeners: seq<Listener>) | AwaitLb(op: Id)
    | GetLb(id: Id) | UpdateLb(id: Id, listeners: seq<Listener>) | DeleteLb(id: Id)
    | GetRule(id: Id) | PatchRule(id: Id, args: RuleArgs) | GetOp(op: Id) | ListRules
    | CreateRule(args: RuleArgs) | DeleteRule(id: Id)
    | Clock | VpcInfo | ListNodes

  /** Everything the outside decides about one call: whether it takes effect, whether its success
      is heard, the status reported otherwise, and the data of the answer. */
  datatype Fate = Fate(
    lands: bool, heard: bool, status: Option<int>, odd: bool, id: Id, op: Id, listed: seq<Id>,
    first: LbOperation, polls: seq<Poll<LbOperation>>, vip: string,
    vpc: Option<string>, nodes: Option<seq<Node>>)

  /** Refused(true, s): an error, s the response status if there was a response. Refused(false, s):
      no error but an unexpected status. */
  datatype Reply =
    | Refused(err: bool, status: Option<int>)
    | Done
    | Stored(copy: Copy)
    | Found(copy: Copy)
    | Lbs(items: seq<LbView>)
    | LbOp(op: LbOperation)
    | Polls(script: seq<Poll<LbOperation>>)
    | LbSeen(vip: string)
    | RuleSeen(rule: RuleArgs)
    | OpSeen(record: Op)
    | RuleList(rules: seq<(Id, string)>)
    | RuleOp(opId: Id)
    | At(now: Time)
    | Vpc(vpc: string)
    | NodeList(nodes: Option<seq<Node>>)

  type Versions = seq<Option<Object>>

  function Latest(v: Versions): Option<Object> { if |v| == 0 then None else v[|v| - 1] }

  /** The cloud and every stored state of one Service, None once it is gone. */
  datatype Store = Store(cloud: Cloud, versions: Versions)

  datatype Served = Served(cloud: Cloud, versions: Versions, reply: Reply)

  /** A refusal never carries a success status, nor one of those that would be a lie. */
  function Refuse(f: Fate, lies: set<int>): Reply {
    if f.status.Some? && f.status.value in lies + {200, 201, 204} then Refused(true, None)
    else Refused(!f.odd, f.status)
  }

  function Fail(f: Fate, lies: set<int>): Reply { Refused(true, Refuse(f, lies).status) }

  /** A merge patch of the stored Service; an unchanged object keeps its version. */
  function Write(c: Cloud, v: Versions, f: Fate, o: Object): Served
    requires Latest(v).Some?
  {
    if !f.lands then Served(c, v, Fail(f, {}))
    else
      var v' := if Latest(v).value == o then v else v + [Some(o)];
      Served(c, v', if f.heard then Stored(Copy(|v'| - 1, o)) else Fail(f, {}))
  }

  predicate ListsLbs(c: Cloud, name: string, listed: seq<Id>) {
    (forall i | i in listed :: i in c.live && i in c.lbs) &&
    (forall i | i in c.live && i in c.lbs && c.lbs[i].name == name :: i in listed)
  }

  function View(cfg: Config, c: Cloud, id: Id, ready: bool): LbView
    requires id in c.lbs
  {
    LbView(id, c.lbs[id].name, if cfg.reports then c.lbs[id].protocol else "", Shown(ready, c.lbs[id].vip))
  }

  predicate ListsRules(c: Cloud, listed: seq<Id>) {
    (forall i | i in listed :: i in c.rules) && (forall i | i in c.rules :: i in listed)
  }

  function ServeObject(c: Cloud, v: Versions, mem: Copy, call: Call, f: Fate): Served
    requires call.Update? || call.PatchAnn? || call.PatchStatus? || call.FreshGet?
  {
    var now := Latest(v);
    if now.None? then Served(c, v, Fail(f.(status := Some(404)), {}))
    else
      match call
      case Update(o) =>
        if !f.lands || mem.version != |v| - 1 then Served(c, v, Fail(f, {}))
        else
          var v' := v + [if o.deletedAt.Some? && !o.finalizer then None else Some(o)];
          Served(c, v', if f.heard then Stored(Copy(|v|, o)) else Fail(f, {}))
      case PatchAnn(diff) => Write(c, v, f, now.value.(ann := Apply(diff, now.value.ann)))
      case PatchStatus(vip) => Write(c, v, f, now.value.(ingress := [vip]))
      case FreshGet => Served(c, v, if f.heard then Found(Copy(|v| - 1, now.value)) else Fail(f, {404}))
  }

  function ServeLb(cfg: Config, c: Cloud, v: Versions, name: string, call: Call, f: Fate): Served
    requires call.LookupLb? || call.CreateLb? || call.AwaitLb? || call.GetLb? || call.UpdateLb? || call.DeleteLb?
  {
    match call
    case LookupLb =>
      Served(c, v, if f.heard && ListsLbs(c, name, f.listed)
                   then Lbs(seq(|f.listed|, i requires 0 <= i < |f.listed| => View(cfg, c, f.listed[i], f.vip != "")))
                   else Fail(f, {}))
    case CreateLb(protocol, _) =>
      if f.op in c.lbOps then Served(c, v, Refuse(f, {}))
      else
        var own := if f.lands && f.id !in c.lbs && f.id != "" then Some(f.id) else None;
        var c' := c.(lbOps := c.lbOps[f.op := own]);
        var made := if own.None? then c' else
          c'.(lbs := c.lbs[f.id := Lb(name, protocol, f.vip)], live := c.live + {f.id});
        Served(made, v, if f.heard then LbOp(Truthful(f.first.(id := f.op), own, f.vip)) else Refuse(f, {}))
    case AwaitLb(op) =>
      var own := if op in c.lbOps then c.lbOps[op] else None;
      Served(c, v, Polls(seq(|f.polls|, i requires 0 <= i < |f.polls| => TruthfulPoll(f.polls[i], own, VipOf(c, own)))))
    case GetLb(id) =>
      Served(c, v, if !f.heard then Fail(f, {})
                   else if id in c.live && id in c.lbs then LbSeen(Shown(f.vip != "", c.lbs[id].vip))
                   else Refused(true, Some(404)))
    case UpdateLb(_, _) => Served(c, v, if f.heard then Done else Refuse(f, {}))
    case DeleteLb(id) =>
      if id in c.live then
        Served(if f.lands then c.(live := c.live - {id}) else c, v,
               if f.lands && f.heard then Done else Refuse(f, {404}))
      else Served(c, v, if f.heard then Refused(true, Some(404)) else Refuse(f, {}))
  }

  function ServeRule(c: Cloud, v: Versions, call: Call, f: Fate): Served
    requires call.GetRule? || call.PatchRule? || call.GetOp? || call.ListRules? || call.CreateRule? || call.DeleteRule?
  {
    match call
    case GetRule(id) =>
      Served(c, v, if id in c.rules then (if f.heard then RuleSeen(c.rules[id]) else Fail(f, {404}))
                   else if f.heard then Refused(true, Some(404)) else Fail(f, {}))
    case PatchRule(id, args) =>
      if f.lands && id in c.rules && (forall i | i in c.rules && i != id :: c.rules[i].name != args.name) then
        Served(c.(rules := c.rules[id := args.(vpc := c.rules[id].vpc)]), v, if f.heard then Done else Fail(f, {}))
      else Served(c, v, Fail(f, {}))
    case GetOp(o) =>
      Served(c, v, if o in c.ops && o !in c.aged
                   then (if f.heard then OpSeen(c.ops[o]) else Refuse(f, {400, 404, 410}))
                   else if f.heard then Refused(true, Some(404)) else Refuse(f, {}))
    case ListRules =>
      Served(c, v, if f.heard && ListsRules(c, f.listed)
                   then RuleList(seq(|f.listed|, i requires 0 <= i < |f.listed| => (f.listed[i], c.rules[f.listed[i]].name)))
                   else Fail(f, {}))
    case CreateRule(args) =>
      if f.lands && f.op !in c.ops && f.op != "" then
        Served(c.(ops := c.ops[f.op := InFlight(args)]), v, if f.heard then RuleOp(f.op) else Fail(f, {}))
      else Served(c, v, Fail(f, {}))
    case DeleteRule(id) =>
      if id in c.rules then
        Served(if f.lands then c.(rules := c.rules - {id}) else c, v, if f.lands && f.heard then Done else Fail(f, {404}))
      else Served(c, v, if f.heard then Refused(true, Some(404)) else Fail(f, {}))
  }

  /** One API call made for the Service named name, whose in-memory copy is mem. */
  function Serve(cfg: Config, c: Cloud, v: Versions, now: Time, name: string, mem: Copy, call: Call, f: Fate): Served {
    match call
    case Clock => Served(c, v, At(now))
    case VpcInfo => Served(c, v, if f.vpc.Some? then Vpc(f.vpc.value) else Fail(f, {}))
    case ListNodes => Served(c, v, NodeList(f.nodes))
    case Update(_) => ServeObject(c, v, mem, call, f)
    case PatchAnn(_) => ServeObject(c, v, mem, call, f)
    case PatchStatus(_) => ServeObject(c, v, mem, call, f)
    case FreshGet => ServeObject(c, v, mem, call, f)
    case LookupLb => ServeLb(cfg, c, v, name, call, f)
    case CreateLb(_, _) => ServeLb(cfg, c, v, name, call, f)
    case AwaitLb(_) => ServeLb(cfg, c, v, name, call, f)
    case GetLb(_) => ServeLb(cfg, c, v, name, call, f)
    case UpdateLb(_, _) => ServeLb(cfg, c, v, name, call, f)
    case DeleteLb(_) => ServeLb(cfg, c, v, name, call, f)
    case _ => ServeRule(c, v, call, f)
  }

  /** A call that takes effect and is heard; lists are complete. */
  ghost predicate Healthy(c: Cloud, f: Fate) {
    f.lands && f.heard && f.status.None? && ListsRules(c, f.listed)
  }
}
