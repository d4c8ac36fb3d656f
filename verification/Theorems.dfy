/** Safety over every run of the protocol. */
module Theorems {
  import opened Wrappers
  import opened MergePatch
  import opened Ports
  import opened FirewallArgs
  import opened RuleCompare
  import opened Model
  import opened Protocol
  import opened Invariant
  import opened InvariantProof

  /* ---- At most one load balancer ---- */

  /** In every run at most one load balancer is ever accepted under a name, live or since deleted;
      and a recorded load balancer carries the name of the Service that records it, and of no
      other Service. */
  lemma AtMostOneLoadBalancer(cfg: Config, s0: Sys, acts: seq<Action>)
    requires ValidConfig(cfg) && Init(cfg, s0)
    ensures var s := Run(cfg, s0, acts);
            && (forall i, j, name | NamedLb(s.cloud, i, name) && NamedLb(s.cloud, j, name) :: i == j)
            && (forall k, n | k in s.svcs && 0 <= n < |s.svcs[k].versions| && s.svcs[k].versions[n].Some? ::
                  RecordsOwn(cfg, s.cloud, k, s.svcs[k].versions[n].value.ann))
  {
    InitInv(cfg, s0);
    RunInv(cfg, s0, acts);
    var s := Run(cfg, s0, acts);
    forall k, n | k in s.svcs && 0 <= n < |s.svcs[k].versions| && s.svcs[k].versions[n].Some?
      ensures RecordsOwn(cfg, s.cloud, k, s.svcs[k].versions[n].value.ann)
    {
      var ann := s.svcs[k].versions[n].value.ann;
      assert RecordOk(cfg, s.cloud, k, ann);
      forall j | NameOf(cfg, j).Some? && NameOf(cfg, j) == NameOf(cfg, k) ensures j == k { NameInjective(cfg, j, k); }
    }
  }

  ghost predicate RecordsOwn(cfg: Config, c: Cloud, k: Id, ann: Annotations) {
    LbId in ann && ann[LbId] != "" ==>
      && ann[LbId] in c.lbs && NameOf(cfg, k) == Some(c.lbs[ann[LbId]].name)
      && forall j | NameOf(cfg, j) == Some(c.lbs[ann[LbId]].name) :: j == k
  }

  /** A create is only ever sent when no load balancer of the name was accepted before, and, unless
      the direct read was forbidden, while the stored Service exists and holds the finalizer. */
  lemma CreateIsGuarded(cfg: Config, s0: Sys, acts: seq<Action>, k: Id, call: Call)
    requires ValidConfig(cfg) && Init(cfg, s0)
    requires var s := Run(cfg, s0, acts); k in s.svcs && Allowed(cfg, k, s.svcs[k].pass, call) && call.CreateLb?
    ensures var s := Run(cfg, s0, acts); var v := s.svcs[k];
            && NameOf(cfg, k).Some? && (forall i :: !NamedLb(s.cloud, i, NameOf(cfg, k).value))
            && !v.cleaned && v.pass.Working?
            && (!v.pass.work.read.Forbidden? ==> Latest(v.versions).Some? && Latest(v.versions).value.finalizer)
  {
    InitInv(cfg, s0);
    RunInv(cfg, s0, acts);
    CreateNow(cfg, Run(cfg, s0, acts).cloud, k, Run(cfg, s0, acts).svcs[k], call);
  }

  lemma CreateNow(cfg: Config, c: Cloud, k: Id, v: Svc, call: Call)
    requires SvcInv(cfg, c, k, v) && Allowed(cfg, k, v.pass, call) && call.CreateLb?
    ensures NameOf(cfg, k).Some? && (forall i :: !NamedLb(c, i, NameOf(cfg, k).value)) && !v.cleaned
    ensures v.pass.Working? && (!v.pass.work.read.Forbidden? ==> Latest(v.versions).Some? && Latest(v.versions).value.finalizer)
  {
    if !v.pass.work.read.Forbidden? {
      NewestKeeps(cfg, c, k, v);
    }
  }

  /* ---- After a deletion ---- */

  lemma CleanedStep(cfg: Config, s: Sys, a: Action, k: Id)
    requires k in s.svcs && s.svcs[k].cleaned
    ensures k in Step(cfg, s, a).svcs && Step(cfg, s, a).svcs[k].cleaned
  {
  }

  lemma {:induction false} CleanedStays(cfg: Config, s: Sys, acts: seq<Action>, k: Id)
    requires k in s.svcs && s.svcs[k].cleaned
    ensures k in Run(cfg, s, acts).svcs && Run(cfg, s, acts).svcs[k].cleaned
    decreases |acts|
  {
    if |acts| > 0 {
      CleanedStays(cfg, s, acts[..|acts| - 1], k);
      CleanedStep(cfg, Run(cfg, s, acts[..|acts| - 1]), acts[|acts| - 1], k);
    }
  }

  /** Once a pass has acted on a Service's deletion, no load balancer create is ever sent for it
      again, even where the direct read is forbidden. */
  lemma NoCreateAfterDeletion(cfg: Config, s: Sys, acts: seq<Action>, k: Id, call: Call)
    requires ValidConfig(cfg) && Inv(cfg, s) && k in s.svcs && s.svcs[k].cleaned && call.CreateLb?
    ensures k in Run(cfg, s, acts).svcs && !Allowed(cfg, k, Run(cfg, s, acts).svcs[k].pass, call)
  {
    CleanedStays(cfg, s, acts, k);
    RunInv(cfg, s, acts);
    NoCreateOnceCleaned(cfg, Run(cfg, s, acts).cloud, k, Run(cfg, s, acts).svcs[k], call);
  }

  lemma NoCreateOnceCleaned(cfg: Config, c: Cloud, k: Id, v: Svc, call: Call)
    requires SvcInv(cfg, c, k, v) && v.cleaned && call.CreateLb?
    ensures !Allowed(cfg, k, v.pass, call)
  {
  }

  /* ---- Tracking is never lost ---- */

  predicate Tracked(o: Object) { RuleId in o.ann || OpId in o.ann }

  ghost predicate TrackedNow(s: Sys, k: Id) {
    k in s.svcs && (Latest(s.svcs[k].versions).None? || Tracked(Latest(s.svcs[k].versions).value))
  }

  lemma TrackedPatch(w: Work, diff: Patch<Key, string>, o: Object)
    requires Tracked(o) && TracksRule(w, diff)
    ensures Tracked(o.(ann := Apply(diff, o.ann)))
  {
    var r := Apply(diff, o.ann);
    assert Get(r, RuleId) == if RuleId in diff then diff[RuleId] else Get(o.ann, RuleId);
    assert Get(r, OpId) == if OpId in diff then diff[OpId] else Get(o.ann, OpId);
  }

  lemma TrackedRecord(w: Work, diff: Patch<Key, string>, o: Object)
    requires Tracked(o) && RecordsLb(w, diff)
    ensures Tracked(o.(ann := Apply(diff, o.ann)))
  {
    var r := Apply(diff, o.ann);
    assert RuleId !in diff && OpId !in diff;
    assert Get(r, RuleId) == Get(o.ann, RuleId) && Get(r, OpId) == Get(o.ann, OpId);
  }

  lemma TrackedCall(cfg: Config, s: Sys, k: Id, call: Call, f: Fate)
    requires Inv(cfg, s) && TrackedNow(s, k) && s.svcs[k].pass.Working? && Allowed(cfg, k, s.svcs[k].pass, call)
    ensures TrackedNow(Step(cfg, s, Do(k, call, f)), k)
  {
    TrackedServed(cfg, s.cloud, k, s.svcs[k], s.now, call, f);
  }

  predicate TrackedLast(v: Versions) { Latest(v).None? || Tracked(Latest(v).value) }

  lemma TrackedServed(cfg: Config, c: Cloud, k: Id, v: Svc, now: Time, call: Call, f: Fate)
    requires SvcInv(cfg, c, k, v) && TrackedLast(v.versions) && v.pass.Working? && Allowed(cfg, k, v.pass, call)
    ensures TrackedLast(Serve(cfg, c, v.versions, now, NameOf(cfg, k).GetOr(""), v.pass.work.mem, call, f).versions)
  {
    if Latest(v.versions).Some? {
      var latest := Latest(v.versions).value;
      if call.PatchAnn? {
        if RecordsLb(v.pass.work, call.diff) {
          TrackedRecord(v.pass.work, call.diff, latest);
        } else {
          TrackedPatch(v.pass.work, call.diff, latest);
        }
      } else if call.Update? {
        assert MemOk(v.versions, v.pass.work.mem);
      }
    }
  }

  lemma TrackedStep(cfg: Config, s: Sys, a: Action, k: Id)
    requires Inv(cfg, s) && TrackedNow(s, k) && !s.svcs[k].cleaned
    ensures TrackedNow(Step(cfg, s, a), k)
  {
    if a.Do? && a.k == k && s.svcs[k].pass.Working? && Allowed(cfg, k, s.svcs[k].pass, a.call) {
      TrackedCall(cfg, s, k, a.call, a.fate);
    }
  }

  /** As long as no pass has acted on the Service's deletion, a Service whose stored annotations
      hold a rule id or an operation id always still holds one of them, whatever calls fail, write
      late, or work from old snapshots. */
  lemma {:induction false} TrackingNeverLost(cfg: Config, s: Sys, acts: seq<Action>, k: Id)
    requires ValidConfig(cfg) && Inv(cfg, s) && TrackedNow(s, k)
    requires k in Run(cfg, s, acts).svcs && !Run(cfg, s, acts).svcs[k].cleaned
    ensures TrackedNow(Run(cfg, s, acts), k)
    decreases |acts|
  {
    if |acts| > 0 {
      var before := Run(cfg, s, acts[..|acts| - 1]);
      SameServices(cfg, s, acts[..|acts| - 1]);
      if before.svcs[k].cleaned { CleanedStep(cfg, before, acts[|acts| - 1], k); }
      TrackingNeverLost(cfg, s, acts[..|acts| - 1], k);
      RunInv(cfg, s, acts[..|acts| - 1]);
      TrackedStep(cfg, before, acts[|acts| - 1], k);
    }
  }

  lemma {:induction false} SameServices(cfg: Config, s: Sys, acts: seq<Action>)
    ensures Run(cfg, s, acts).svcs.Keys == s.svcs.Keys
    decreases |acts|
  {
    if |acts| > 0 {
      SameServices(cfg, s, acts[..|acts| - 1]);
    }
  }

  /* ---- The protocol is stable ---- */

  /** Where the API reports protocols: a recorded protocol stays recorded and is never rewritten. */
  lemma ReportedNeverRewritten(cfg: Config, s0: Sys, acts: seq<Action>, k: Id, i: nat, j: nat)
    requires ValidConfig(cfg) && Init(cfg, s0) && cfg.reports
    requires var s := Run(cfg, s0, acts);
             k in s.svcs && i <= j < |s.svcs[k].versions| && s.svcs[k].versions[i].Some? && s.svcs[k].versions[j].Some? &&
             LbProtocol in s.svcs[k].versions[i].value.ann
    ensures var v := Run(cfg, s0, acts).svcs[k].versions;
            Get(v[j].value.ann, LbProtocol) == Get(v[i].value.ann, LbProtocol)
  {
    InitInv(cfg, s0);
    RunInv(cfg, s0, acts);
    var s := Run(cfg, s0, acts);
    var v := s.svcs[k].versions;
    assert RecordOk(cfg, s.cloud, k, v[i].value.ann) && RecordOk(cfg, s.cloud, k, v[j].value.ann);
    assert LbId in v[i].value.ann && LbId in v[j].value.ann;
    OneProtocol(cfg, s.cloud, NameOf(cfg, k).value, v[i].value.ann[LbProtocol], v[j].value.ann[LbProtocol]);
  }

  lemma OneProtocol(cfg: Config, c: Cloud, name: string, p: string, q: string)
    requires CloudInv(cfg, c) && HasProtocol(c, name, p) && HasProtocol(c, name, q)
    ensures p == q
  {
    var i :| NamedLb(c, i, name) && c.lbs[i].protocol == p;
    var j :| NamedLb(c, j, name) && c.lbs[j].protocol == q;
    assert i == j;
  }

  /** A listener for a port of that protocol, at its node port. */
  ghost predicate ListenerFor(ports: seq<Port>, protocol: string, l: Listener) {
    exists p | p in ports ::
      Effective(p) == Wanted(protocol) && l.listenPort == p.port && forall b | b in l.backends :: b.port == p.nodePort
  }

  lemma {:induction false} ListenersFor(ports: seq<Port>, all: seq<Port>, protocol: string, ips: seq<string>)
    requires forall p | p in ports :: p in all && Effective(p) == Wanted(protocol)
    ensures forall l | l in Listeners(ports, ips) :: ListenerFor(all, protocol, l)
  {
    if |ports| > 0 {
      ListenersFor(ports[1..], all, protocol, ips);
      var p := ports[0];
      forall l | l in Listeners(ports, ips) ensures ListenerFor(all, protocol, l) {
        if l !in Listeners(ports[1..], ips) { assert l == Listener(p.port, BackendsAt(ips, p.nodePort)); }
      }
    }
  }

  /** The protocol a Service records is the one its load balancer has. */
  lemma RecordedIsActual(cfg: Config, s: Sys, k: Id)
    requires Inv(cfg, s) && cfg.reports && k in s.svcs && s.svcs[k].pass.Working? && LbId in s.svcs[k].pass.work.mem.obj.ann
    ensures var o := s.svcs[k].pass.work.mem.obj;
            && Known(Recorded(o)) && NameOf(cfg, k).Some? && HasProtocol(s.cloud, NameOf(cfg, k).value, Recorded(o))
            && (o.ann[LbId] != "" ==> o.ann[LbId] in s.cloud.lbs && s.cloud.lbs[o.ann[LbId]].protocol == Recorded(o))
  {
    var v := s.svcs[k];
    assert RecordOk(cfg, s.cloud, k, v.versions[v.pass.work.mem.version].value.ann);
    var name := NameOf(cfg, k).value;
    var i :| NamedLb(s.cloud, i, name) && s.cloud.lbs[i].protocol == Recorded(v.pass.work.mem.obj);
  }

  /** However the user edits the ports, every listener update carries only ports of the load
      balancer's own protocol. */
  lemma ListenersFollowLoadBalancer(cfg: Config, s0: Sys, acts: seq<Action>, k: Id, id: Id, listeners: seq<Listener>,
                                    l: Listener)
    requires ValidConfig(cfg) && Init(cfg, s0) && cfg.reports && l in listeners && id != ""
    requires var s := Run(cfg, s0, acts);
             k in s.svcs && s.svcs[k].pass.Working? && Allowed(cfg, k, s.svcs[k].pass, UpdateLb(id, listeners))
    ensures var s := Run(cfg, s0, acts);
            id in s.cloud.lbs && ListenerFor(s.svcs[k].pass.work.mem.obj.spec.ports, s.cloud.lbs[id].protocol, l)
  {
    InitInv(cfg, s0);
    RunInv(cfg, s0, acts);
    RecordedIsActual(cfg, Run(cfg, s0, acts), k);
    ListenersNow(cfg, k, Run(cfg, s0, acts).svcs[k].pass.work, id, listeners, l);
  }

  lemma ListenersNow(cfg: Config, k: Id, w: Work, id: Id, listeners: seq<Listener>, l: Listener)
    requires AllowedWorking(cfg, k, w, UpdateLb(id, listeners)) && l in listeners && Known(Recorded(w.mem.obj))
    ensures LbId in w.mem.obj.ann && w.mem.obj.ann[LbId] == id
    ensures ListenerFor(w.mem.obj.spec.ports, Recorded(w.mem.obj), l)
  {
    var o := w.mem.obj;
    var nodes: Option<seq<Node>> :| listeners == Payload(OfferedPorts(o.spec.ports, Recorded(o)), nodes);
    if nodes.Some? {
      ListenersFor(OfferedPorts(o.spec.ports, Recorded(o)), o.spec.ports, Recorded(o), BackendIps(nodes.value));
    }
  }

  lemma {:induction false} BackendsOfListeners(ports: seq<Port>, ips: seq<string>, text: string)
    requires text in PortTexts(Listeners(ports, ips))
    ensures exists p | p in ports :: text == Itoa(p.nodePort)
  {
    PortTextsMembers(Listeners(ports, ips), text);
    var l, b :| l in Listeners(ports, ips) && b in l.backends && text == Itoa(b.port);
    var p := ports[0];
    if l == Listener(p.port, BackendsAt(ips, p.nodePort)) {
      assert b.port == p.nodePort;
    } else {
      PortTextsMembers(Listeners(ports[1..], ips), text);
      BackendsOfListeners(ports[1..], ips, text);
    }
  }

  /** ... and so does every firewall rule created or patched: its one protocol is the load
      balancer's, and its ports are node ports of Service ports of that protocol. */
  lemma RuleFollowsLoadBalancer(cfg: Config, s0: Sys, acts: seq<Action>, k: Id, call: Call, args: RuleArgs, text: string)
    requires ValidConfig(cfg) && Init(cfg, s0) && cfg.reports && text in args.ports
    requires call == CreateRule(args) || (call.PatchRule? && call.args == args)
    requires var s := Run(cfg, s0, acts);
             k in s.svcs && s.svcs[k].pass.Working? && Allowed(cfg, k, s.svcs[k].pass, call)
    ensures var s := Run(cfg, s0, acts); var o := s.svcs[k].pass.work.mem.obj;
            && Some(args.name) == NameOf(cfg, k)
            && HasProtocol(s.cloud, args.name, Recorded(o))
            && multiset(args.protocols) == multiset([ToLower(Wanted(Recorded(o)))])
            && exists p | p in o.spec.ports :: Effective(p) == Wanted(Recorded(o)) && text == Itoa(p.nodePort)
  {
    InitInv(cfg, s0);
    RunInv(cfg, s0, acts);
    var s := Run(cfg, s0, acts);
    CallNeedsRecord(cfg, k, s.svcs[k].pass.work, call);
    RecordedIsActual(cfg, s, k);
    CallProtocol(cfg, k, s.svcs[k].pass.work, call, args, text);
  }

  lemma CallNeedsRecord(cfg: Config, k: Id, w: Work, call: Call)
    requires Allowed(cfg, k, Working(w), call) && (call.CreateRule? || call.PatchRule?)
    ensures LbId in w.mem.obj.ann
  {
  }

  lemma CallProtocol(cfg: Config, k: Id, w: Work, call: Call, args: RuleArgs, text: string)
    requires call == CreateRule(args) || (call.PatchRule? && call.args == args)
    requires Allowed(cfg, k, Working(w), call) && Known(Recorded(w.mem.obj)) && text in args.ports
    ensures Some(args.name) == NameOf(cfg, k)
    ensures var o := w.mem.obj;
            && multiset(args.protocols) == multiset([ToLower(Wanted(Recorded(o)))])
            && exists p | p in o.spec.ports :: Effective(p) == Wanted(Recorded(o)) && text == Itoa(p.nodePort)
  {
    RuleProtocol(cfg, k, w.mem.obj, args, text);
  }

  lemma RuleProtocol(cfg: Config, k: Id, o: Object, args: RuleArgs, text: string)
    requires RuleOf(cfg, k, o, args) && Known(Recorded(o)) && text in args.ports
    ensures Some(args.name) == NameOf(cfg, k)
    ensures multiset(args.protocols) == multiset([ToLower(Wanted(Recorded(o)))])
    ensures exists p | p in o.spec.ports :: Effective(p) == Wanted(Recorded(o)) && text == Itoa(p.nodePort)
  {
    var vpc: Option<string>, nodes: Option<seq<Node>> :|
      var r := ArgsFor(cfg.project, vpc, NameOf(cfg, k), o.spec.ports, Recorded(o), o.spec.ranges, nodes);
      r.Needs? && (args == r.args || args == Sorted(r.args));
    var r := ArgsFor(cfg.project, vpc, NameOf(cfg, k), o.spec.ports, Recorded(o), o.spec.ranges, nodes).args;
    assert multiset(args.ports) == multiset(r.ports);
    assert text in multiset(args.ports);
    ArgsProtocol(cfg.project, vpc, NameOf(cfg, k), o.spec.ports, Recorded(o), o.spec.ranges, nodes, text);
  }

  lemma ArgsProtocol(project: bool, vpc: Option<string>, name: Option<string>, ports: seq<Port>, recorded: string,
                     ranges: seq<string>, nodes: Option<seq<Node>>, text: string)
    requires var r := ArgsFor(project, vpc, name, ports, recorded, ranges, nodes); r.Needs? && text in r.args.ports
    requires Known(recorded)
    ensures ArgsFor(project, vpc, name, ports, recorded, ranges, nodes).args.protocols == [ToLower(Wanted(recorded))]
    ensures exists p | p in ports :: Effective(p) == Wanted(recorded) && text == Itoa(p.nodePort)
  {
    var offered := OfferedPorts(ports, recorded);
    SingleProtocol(offered, ToLower(Wanted(recorded)));
    BackendsOfListeners(offered, BackendIps(nodes.value), text);
    var p :| p in offered && text == Itoa(p.nodePort);
  }

  lemma RuleSources(cfg: Config, k: Id, o: Object, args: RuleArgs)
    requires RuleOf(cfg, k, o, args)
    ensures Admits(args.sources, o.spec.ranges)
  {
    var vpc: Option<string>, nodes: Option<seq<Node>> :|
      var r := ArgsFor(cfg.project, vpc, NameOf(cfg, k), o.spec.ports, Recorded(o), o.spec.ranges, nodes);
      r.Needs? && (args == r.args || args == Sorted(r.args));
    var r := ArgsFor(cfg.project, vpc, NameOf(cfg, k), o.spec.ports, Recorded(o), o.spec.ranges, nodes).args;
    assert multiset(args.sources) == multiset(r.sources);
    ArgsAdmit(cfg.project, vpc, NameOf(cfg, k), o.spec.ports, Recorded(o), o.spec.ranges, nodes, args.sources);
  }

  /** In every run each firewall rule created or patched admits exactly the ranges the Service asks for, as the
      pass last read it: its ranges, or everywhere when there are none. */
  lemma RuleAdmitsRanges(cfg: Config, s0: Sys, acts: seq<Action>, k: Id, call: Call, args: RuleArgs)
    requires ValidConfig(cfg) && Init(cfg, s0)
    requires call == CreateRule(args) || (call.PatchRule? && call.args == args)
    requires var s := Run(cfg, s0, acts);
             k in s.svcs && s.svcs[k].pass.Working? && Allowed(cfg, k, s.svcs[k].pass, call)
    ensures var ranges := Run(cfg, s0, acts).svcs[k].pass.work.mem.obj.spec.ranges;
            && multiset(Cidrs(args.sources)) == multiset(if |ranges| == 0 then ["0.0.0.0/0"] else ranges)
            && forall x | x in args.sources :: x.resourceId == ""
  {
    CallSources(cfg, k, Run(cfg, s0, acts).svcs[k].pass.work, call, args);
  }

  lemma CallSources(cfg: Config, k: Id, w: Work, call: Call, args: RuleArgs)
    requires Allowed(cfg, k, Working(w), call) && (call == CreateRule(args) || (call.PatchRule? && call.args == args))
    ensures Admits(args.sources, w.mem.obj.spec.ranges)
  {
    RuleSources(cfg, k, w.mem.obj, args);
  }

  /* ---- Services of another class ---- */

  /** Every stored state names a load balancer class. */
  ghost predicate Foreign(v: Svc) {
    forall n | 0 <= n < |v.versions| && v.versions[n].Some? :: v.versions[n].value.spec.lbClass.Some?
  }

  lemma StillForeign(cfg: Config, s: Sys, a: Action, k: Id)
    requires k in s.svcs && Foreign(Step(cfg, s, a).svcs[k]) && (s.svcs[k].pass.Working? ==> !Foreign(s.svcs[k]))
    ensures k in Step(cfg, s, a).svcs && !Step(cfg, s, a).svcs[k].pass.Working?
  {
    var v, v' := s.svcs[k], Step(cfg, s, a).svcs[k];
    assert v.versions <= v'.versions;
    assert forall n | 0 <= n < |v.versions| :: v'.versions[n] == v.versions[n];
    assert Foreign(v);
  }

  /** In every run no pass over a Service makes any call but to delete it as long as all its stored states name
      a load balancer class. */
  lemma {:induction false} ForeignLeftAlone(cfg: Config, s0: Sys, acts: seq<Action>, k: Id)
    requires Init(cfg, s0) && k in s0.svcs
    ensures var s := Run(cfg, s0, acts); k in s.svcs && (Foreign(s.svcs[k]) ==> !s.svcs[k].pass.Working?)
    decreases |acts|
  {
    if |acts| > 0 {
      var n := |acts| - 1;
      ForeignLeftAlone(cfg, s0, acts[..n], k);
      var s := Run(cfg, s0, acts[..n]);
      if Foreign(Step(cfg, s, acts[n]).svcs[k]) { StillForeign(cfg, s, acts[n], k); }
    }
  }
}
