/** Why each call the controller makes is one the protocol allows. */
module Permits {
  import opened Wrappers
  import opened MergePatch
  import opened Ports
  import opened FirewallArgs
  import opened RuleCompare
  import opened Polling
  import opened Model
  import opened Protocol
  import opened FirewallPass
  import opened Apis

  /* ---- What a pass has learned ---- */

  /** A listed load balancer of the Service's name is known to be the Service's. */
  lemma {:induction false} ViewLearned(mine: map<Id, Option<string>>, views: seq<LbView>, name: string, v: LbView)
    requires Consistent(views) && v in views && v.name == name
    ensures v.id in LearnViews(mine, views, name) && LearnViews(mine, views, name)[v.id] == Claim(v.protocol)
    decreases |views|
  {
    var first, rest := views[0], views[1..];
    var mine' := if first.name == name then mine[first.id := Claim(first.protocol)] else mine;
    forall i, j | 0 <= i < |rest| && 0 <= j < |rest| && rest[i].id == rest[j].id ensures rest[i] == rest[j] {
      assert rest[i] == views[i + 1] && rest[j] == views[j + 1];
    }
    if v in rest {
      ViewLearned(mine', rest, name, v);
    } else {
      ViewsKeep(mine', rest, name, views, v);
    }
  }

  lemma {:induction false} ViewsKeep(mine: map<Id, Option<string>>, rest: seq<LbView>, name: string,
                                     views: seq<LbView>, v: LbView)
    requires Consistent(views) && v in views && (forall x | x in rest :: x in views)
    requires v.id in mine && mine[v.id] == Claim(v.protocol)
    ensures v.id in LearnViews(mine, rest, name) && LearnViews(mine, rest, name)[v.id] == Claim(v.protocol)
    decreases |rest|
  {
    if |rest| > 0 {
      var i :| 0 <= i < |views| && views[i] == v;
      assert rest[0] in rest;
      var j :| 0 <= j < |views| && views[j] == rest[0];
      ViewsKeep(if rest[0].name == name then mine[rest[0].id := Claim(rest[0].protocol)] else mine, rest[1..], name,
                views, v);
    }
  }

  /** So is the load balancer of a create operation seen succeeded. */
  lemma {:induction false} PollLearned(mine: map<Id, Option<string>>, script: seq<Poll<LbOperation>>,
                                       protocol: string, id: Id)
    requires Get(mine, id) == Some(Some(protocol)) ||
             exists p | p in script :: p.Answer? && p.op.state == "SUCCEEDED" && p.op.result.Decoded? && p.op.result.id == id
    ensures Get(LearnPolls(mine, script, protocol), id) == Some(Some(protocol))
    decreases |script|
  {
    if |script| > 0 {
      PollLearned(if script[0].Answer? then LearnOp(mine, script[0].op, protocol) else mine, script[1..], protocol, id);
    }
  }

  /** And its VIP. */
  lemma {:induction false} PollVipLearned(script: seq<Poll<LbOperation>>, p: Poll<LbOperation>)
    requires p in script && p.Answer? && p.op.state == "SUCCEEDED" && p.op.result.Decoded?
    ensures p.op.result.vip in PollVips(script)
    decreases |script|
  {
    if p in script[1..] { PollVipLearned(script[1..], p); }
  }

  /** A wait ends with the operation it began with or with one of the answers. */
  lemma {:induction false} SettledFrom(state: LbOperation -> string, first: LbOperation,
                                       script: seq<Poll<LbOperation>>, op: LbOperation)
    requires Outcome(state, first, script) == Settled(op)
    ensures op == first || Answer(200, op) in script
    decreases |script|
  {
    if state(first) == IN_PROGRESS && |script| > 0 && script[0].Answer? && script[0].status == 200 {
      SettledFrom(state, script[0].op, script[1..], op);
    }
  }

  /* ---- Single calls ---- */

  lemma MayLook(cfg: Config, k: Id, w: Work)
    requires (w.read.Confirmed? || w.read.Forbidden?) && NameOf(cfg, k).Some?
    ensures Allowed(cfg, k, Working(w), LookupLb)
  {
  }

  lemma MayCreate(cfg: Config, k: Id, w: Work, protocol: string, nodes: Option<seq<Node>>)
    requires w.looked && LbId !in w.mem.obj.ann && w.mem.obj.finalizer && (w.read.Confirmed? || w.read.Forbidden?)
    requires Derive(w.mem.obj.spec.ports) == Serves(protocol)
    ensures Allowed(cfg, k, Working(w), CreateLb(protocol, Payload(PortsFor(w.mem.obj.spec.ports, protocol), nodes)))
  {
    FilterIdentity(w.mem.obj.spec.ports, protocol);
  }

  /** What a create submitted teaches. */
  lemma CreateLearned(cfg: Config, k: Id, w: Work, protocol: string, listeners: seq<Listener>, op: LbOperation)
    ensures var q := Learn(cfg, k, Working(w), CreateLb(protocol, listeners), LbOp(op));
            && q == Working(w.(looked := false, asked := Some(Asked(op.id, protocol)), mine := LearnOp(w.mine, op, protocol),
                                 vips := w.vips + OpVips(op)))
            && LearnOp(q.work.mine, op, protocol) == q.work.mine
  {
  }

  lemma MayRecord(cfg: Config, k: Id, w: Work, id: Id, protocol: string)
    requires LbId !in w.mem.obj.ann && id in w.mine && Known(protocol)
    requires if w.mine[id].Some? then protocol == w.mine[id].value else Derive(w.mem.obj.spec.ports) == Serves(protocol)
    ensures var ann := w.mem.obj.ann;
            Allowed(cfg, k, Working(w), PatchAnn(Diff(ann, ann[LbId := id][LbProtocol := protocol])))
  {
    var ann := w.mem.obj.ann;
    var diff := Diff(ann, ann[LbId := id][LbProtocol := protocol]);
    assert LbId in diff && diff[LbId] == Some(id);
    assert RecordsLb(w, diff);
  }

  /** The server's reply to that patch carries the id. */
  lemma LbRecorded(before: Object, id: Id, protocol: string, reply: Reply)
    requires LbId !in before.ann && reply.Stored?
    requires Shape(before, PatchAnn(Diff(before.ann, before.ann[LbId := id][LbProtocol := protocol])), reply)
    ensures LbId in reply.copy.obj.ann
  {
    assert LbId in Diff(before.ann, before.ann[LbId := id][LbProtocol := protocol]);
  }

  lemma MayUpdateLb(cfg: Config, k: Id, w: Work, nodes: Option<seq<Node>>)
    requires var o := w.mem.obj; LbId in o.ann && !DriftSkip(o.spec.ports, Recorded(o))
    ensures var o := w.mem.obj;
            Allowed(cfg, k, Working(w), UpdateLb(o.ann[LbId], Payload(OfferedPorts(o.spec.ports, Recorded(o)), nodes)))
  {
    var o := w.mem.obj;
    assert ListenersOf(o, Payload(OfferedPorts(o.spec.ports, Recorded(o)), nodes));
  }

  /* ---- The firewall step ---- */

  /** What a firewall pass over w has behind it at p. */
  predicate EnsureStage(w: Work, p: Ensuring) {
    var ann := w.mem.obj.ann;
    match p
    case Look(id) => Get(ann, RuleId) == Some(id)
    case Fix(id) => Get(ann, RuleId) == Some(id)
    case Ask(op) => RuleId !in ann && Get(ann, OpId) == Some(op)
    case Adopt(_) => RuleId !in ann && OpId in ann
    case Cool(_) => RuleId !in ann && OpId in ann
    case Make(dropped) => dropped == ann - {RuleId, OpId}
    case Write(ann', _) => TracksRule(w, Diff(ann, ann'))
    case Ended(_, _) => true
  }

  /** The Service has a load balancer and wants the rule args. */
  ghost predicate WantsRule(cfg: Config, k: Id, o: Object, args: RuleArgs) {
    Managed(o) && LbId in o.ann && RuleOf(cfg, k, o, args)
  }

  lemma StageBegins(w: Work)
    ensures EnsureStage(w, EnsureStart(w.mem.obj.ann))
  {
    var ann := w.mem.obj.ann;
    if RuleId !in ann && OpId !in ann { assert ann - {RuleId, OpId} == ann; }
  }

  /** The lookups behind a wanted rule make it, and its sorted form, a rule of the Service. */
  lemma RuleOfLookups(cfg: Config, k: Id, o: Object, sent: RuleArgs, args: RuleArgs, vpc: Option<string>,
                      nodes: Option<seq<Node>>)
    requires ArgsFor(cfg.project, vpc, NameOf(cfg, k), o.spec.ports, Recorded(o), o.spec.ranges, nodes) == Needs(args)
    requires sent == args || sent == Sorted(args)
    ensures RuleOf(cfg, k, o, sent)
  {
    var r := ArgsFor(cfg.project, vpc, NameOf(cfg, k), o.spec.ports, Recorded(o), o.spec.ranges, nodes);
    assert r.Needs? && (sent == r.args || sent == Sorted(r.args));
  }

  lemma CidrSources(project: bool, vpc: Option<string>, name: Option<string>, ports: seq<Port>, recorded: string,
                    ranges: seq<string>, nodes: Option<seq<Node>>, args: RuleArgs)
    requires ArgsFor(project, vpc, name, ports, recorded, ranges, nodes) == Needs(args)
    ensures CidrOnly(args.sources) && Some(args.name) == name
  {
  }

  lemma SortedWanted(cfg: Config, k: Id, o: Object, args: RuleArgs, vpc: Option<string>, nodes: Option<seq<Node>>)
    requires ArgsFor(cfg.project, vpc, NameOf(cfg, k), o.spec.ports, Recorded(o), o.spec.ranges, nodes) == Needs(args)
    ensures RuleOf(cfg, k, o, args) && RuleOf(cfg, k, o, Sorted(args))
    ensures CidrOnly(args.sources) && Some(args.name) == NameOf(cfg, k)
  {
    RuleOfLookups(cfg, k, o, args, args, vpc, nodes);
    RuleOfLookups(cfg, k, o, Sorted(args), args, vpc, nodes);
    CidrSources(cfg.project, vpc, NameOf(cfg, k), o.spec.ports, Recorded(o), o.spec.ranges, nodes, args);
  }

  /** What a complete list of rules leads to. */
  lemma ListLeads(ann: Annotations, args: RuleArgs, p: Ensuring, reply: Reply)
    requires p.Adopt?
    ensures var q := EnsureLearn(ann, args, p, reply);
            if !reply.RuleList? then q == Ended(0, true)
            else
              var found := FindByName(reply.rules, args.name);
              q == if found.Some? then Write(ann[RuleId := found.value] - {OpId}, 0)
                   else if p.clash.Some? then Cool(p.clash.value)
                   else Make(ann - {OpId})
  {
  }

  lemma MayEnsure(cfg: Config, k: Id, w: Work, args: RuleArgs, p: Ensuring, call: Call)
    requires EnsureStage(w, p) && WantsRule(cfg, k, w.mem.obj, args) && RuleOf(cfg, k, w.mem.obj, Sorted(args))
    requires Some(args.name) == NameOf(cfg, k)
    requires EnsureNext(w.mem.obj.ann, args, p) == Some(call)
    ensures Allowed(cfg, k, Working(w), call)
  {
  }

  /** The next stage follows from the answer. */
  lemma EnsureGoesOn(cfg: Config, k: Id, w: Work, args: RuleArgs, p: Ensuring, call: Call, reply: Reply)
    requires EnsureStage(w, p) && Some(args.name) == NameOf(cfg, k) && LbId in w.mem.obj.ann
    requires EnsureNext(w.mem.obj.ann, args, p) == Some(call) && Shape(w.mem.obj, call, reply)
    ensures var q := EnsureLearn(w.mem.obj.ann, args, p, reply); var w' := LearnWorking(w, args.name, call, reply);
            EnsureStage(w', q) && (w'.mem == w.mem || q.Ended?)
  {
    var ann := w.mem.obj.ann;
    var q, w' := EnsureLearn(ann, args, p, reply), LearnWorking(w, args.name, call, reply);
    if q.Write? {
      if p.Make? {
        MadeTracks(w', q.ann, reply.opId);
      } else {
        assert RuleId in q.ann && q.ann[RuleId] in w'.found;
        FoundTracks(w', q.ann, q.ann[RuleId]);
      }
    } else if q.Make? {
      assert p.Look? || ann - {OpId} == ann - {RuleId, OpId};
    }
  }

  /** The Service as the pass knows it after a call of the firewall step. */
  lemma EnsureLeaves(w: Work, args: RuleArgs, p: Ensuring, call: Call, reply: Reply)
    requires EnsureNext(w.mem.obj.ann, args, p) == Some(call) && Shape(w.mem.obj, call, reply)
    ensures var w' := LearnWorking(w, args.name, call, reply);
            w'.mem == (if reply.Stored? then reply.copy else w.mem) && Carries(w.mem.obj, w'.mem.obj)
  {
  }

  lemma LearnIsWorking(cfg: Config, k: Id, w: Work, name: string, call: Call, reply: Reply)
    requires Some(name) == NameOf(cfg, k)
    ensures Learn(cfg, k, Working(w), call, reply) == Working(LearnWorking(w, name, call, reply))
  {
  }

  lemma MadeTracks(w: Work, ann': Annotations, op: Id)
    requires ann' == (w.mem.obj.ann - {RuleId, OpId})[OpId := op] && op in w.made && Get(w.mem.obj.ann, OpId) != Some(op)
    requires LbId in w.mem.obj.ann
    ensures TracksRule(w, Diff(w.mem.obj.ann, ann'))
  {
    var ann := w.mem.obj.ann;
    forall key | key in Diff(ann, ann') ensures key in {RuleId, OpId} {}
    assert OpId in Diff(ann, ann');
  }

  lemma FoundTracks(w: Work, ann': Annotations, id: Id)
    requires RuleId !in w.mem.obj.ann && id in w.found
    requires ann' == w.mem.obj.ann[RuleId := id] || ann' == w.mem.obj.ann[RuleId := id] - {OpId}
    requires LbId in w.mem.obj.ann
    ensures TracksRule(w, Diff(w.mem.obj.ann, ann'))
  {
    var ann := w.mem.obj.ann;
    forall key | key in Diff(ann, ann') ensures key in {RuleId, OpId} {}
    assert RuleId in Diff(ann, ann');
  }

  /** Since the log was from a pass has followed the firewall step for args and stands at p;
      w is what it knows, before the Service it began with. */
  ghost predicate FollowsAt(cfg: Config, k: Id, args: RuleArgs, before: Object, w: Work, log: Transcript,
                            from: Transcript, p: Ensuring) {
    && from <= log && After(before.ann, args, log[|from|..]) == Some(p)
    && Some(args.name) == NameOf(cfg, k) && Carries(before, w.mem.obj)
    && (!p.Ended? ==>
          && w.mem.obj == before && EnsureStage(w, p)
          && WantsRule(cfg, k, before, args) && RuleOf(cfg, k, before, Sorted(args)))
  }

  lemma WriteNext(ann: Annotations, args: RuleArgs, p: Ensuring, svcCopy: Annotations, changed: Annotations)
    requires p.Write? && changed == p.ann && svcCopy == ann
    ensures EnsureNext(ann, args, p) == Some(PatchAnn(Diff(svcCopy, changed)))
  {
  }

  /** A rule id newly recorded is in the stored annotations the server reports. */
  lemma RuleRecorded(before: Annotations, after: Annotations, stored: Annotations)
    requires RuleId !in before && RuleId in after
    requires forall key | key in Diff(before, after) :: Get(stored, key) == Diff(before, after)[key]
    ensures RuleId in stored
  {
    assert RuleId in Diff(before, after);
  }

  lemma LogTail(log: Transcript, from: Transcript, x: (Call, Reply))
    requires from <= log
    ensures from <= log + [x] && (log + [x])[|from|..] == log[|from|..] + [x]
  {
  }

  lemma FollowsOn(cfg: Config, k: Id, args: RuleArgs, before: Object, w: Work, log: Transcript, from: Transcript,
                  p: Ensuring,
                  call: Call, reply: Reply)
    requires FollowsAt(cfg, k, args, before, w, log, from, p) && EnsureNext(before.ann, args, p) == Some(call)
    requires Shape(before, call, reply)
    ensures var w', q := LearnWorking(w, args.name, call, reply), EnsureLearn(before.ann, args, p, reply);
            && Learn(cfg, k, Working(w), call, reply) == Working(w')
            && FollowsAt(cfg, k, args, before, w', log + [(call, reply)], from, q)
            && w'.mem == (if reply.Stored? then reply.copy else w.mem) && (reply.Stored? ==> call.PatchAnn?)
  {
    LearnIsWorking(cfg, k, w, args.name, call, reply);
    EnsureGoesOn(cfg, k, w, args, p, call, reply);
    EnsureLeaves(w, args, p, call, reply);
    AfterSnoc(before.ann, args, log[|from|..], call, reply);
    LogTail(log, from, (call, reply));
  }
}
