/** Runs that show where the protocol's guarantees end. */
module Witnesses {
  import opened Wrappers
  import opened MergePatch
  import opened Ports
  import opened Model
  import opened Protocol
  import opened Invariant
  import opened ReleaseSafety
  import opened Apis
  import opened ProtocolRecord

  /** A call that takes effect, is heard and has nothing to report. */
  const CALM := Fate(true, true, None, false, "", "", [], LbOperation("", "", Unreadable), [], "", None, None)

  /** The same call not heard: an error with that status. */
  function Unheard(status: int): Fate { CALM.(heard := false, status := Some(status)) }

  lemma RunThen(cfg: Config, s: Sys, acts: seq<Action>, a: Action)
    ensures Run(cfg, s, acts + [a]) == Step(cfg, Run(cfg, s, acts), a)
  {
    assert (acts + [a])[..|acts|] == acts;
  }

  /** The state after one more action of a run. */
  lemma Reaches(cfg: Config, s0: Sys, acts: seq<Action>, s: Sys, a: Action) returns (acts': seq<Action>, s': Sys)
    requires s == Run(cfg, s0, acts)
    ensures acts' == acts + [a] && s' == Step(cfg, s, a) && s' == Run(cfg, s0, acts')
  {
    acts', s' := acts + [a], Step(cfg, s, a);
    RunThen(cfg, s0, acts, a);
  }

  /** A Service not yet touched, for which the controller would create a load balancer. */
  predicate Untouched(cfg: Config, s: Sys, k: Id, protocol: string) {
    && k in s.svcs && NameOf(cfg, k).Some? && |s.svcs[k].versions| == 1 && s.svcs[k].seen == 0
    && s.svcs[k].pass.Idle? && s.svcs[k].versions[0].Some?
    && var o := s.svcs[k].versions[0].value;
       && o.deletedAt.None? && !o.finalizer && o.spec.lbClass.None? && LbId !in o.ann && LbProtocol !in o.ann
       && Derive(o.spec.ports) == Serves(protocol)
  }

  /** The Service once its finalizer is added. */
  function Finalized(s0: Sys, k: Id): Object
    requires k in s0.svcs && |s0.svcs[k].versions| == 1 && s0.svcs[k].versions[0].Some?
  {
    s0.svcs[k].versions[0].value.(finalizer := true)
  }

  /** A pass over it that has added the finalizer. */
  lemma UpToFinalizer(cfg: Config, s0: Sys, k: Id, protocol: string) returns (acts: seq<Action>, s: Sys)
    requires Init(cfg, s0) && Untouched(cfg, s0, k, protocol)
    ensures s == Run(cfg, s0, acts) && s.cloud == s0.cloud && k in s.svcs
    ensures var o := Finalized(s0, k);
            s.svcs[k] == Svc([s0.svcs[k].versions[0], Some(o)], 0, false,
                             Working(Work(Copy(1, o), Unread, false, None, map[], {}, {}, {})))
  {
    FirstBegin(cfg, s0, k, protocol);
    acts, s := Reaches(cfg, s0, [], s0, Begin(k));
    AddsFinalizer(cfg, s, k, s0.svcs[k].versions[0].value);
    acts, s := Reaches(cfg, s0, acts, s, Do(k, Update(Finalized(s0, k)), CALM));
  }

  lemma FirstBegin(cfg: Config, s0: Sys, k: Id, protocol: string)
    requires Init(cfg, s0) && Untouched(cfg, s0, k, protocol)
    ensures var o := s0.svcs[k].versions[0].value;
            Step(cfg, s0, Begin(k)) ==
            s0.(svcs := s0.svcs[k := Svc([Some(o)], 0, false,
                                         Working(Work(Copy(0, o), Unread, false, None, map[], {}, {}, {})))])
  {
    var v := s0.svcs[k];
    assert v.versions == [v.versions[0]];
    BeginIsStep(cfg, s0, k);
  }

  lemma AddsFinalizer(cfg: Config, s: Sys, k: Id, o: Object)
    requires !o.finalizer && o.deletedAt.None? && k in s.svcs
    requires s.svcs[k] == Svc([Some(o)], 0, false, Working(Work(Copy(0, o), Unread, false, None, map[], {}, {}, {})))
    ensures var o' := o.(finalizer := true); var t := Step(cfg, s, Do(k, Update(o'), CALM));
            && t.cloud == s.cloud && k in t.svcs
            && t.svcs[k] == Svc([Some(o), Some(o')], 0, false, Working(Work(Copy(1, o'), Unread, false, None, map[], {}, {}, {})))
  {
    var o' := o.(finalizer := true);
    assert [Some(o)] + [Some(o')] == [Some(o), Some(o')];
    DoIsStep(cfg, s, k, Update(o'), CALM);
  }

  /** What the pass knows after the direct read, and after finding no load balancer of the name. */
  function Reading(s0: Sys, k: Id, read: Fresh, looked: bool): Svc
    requires k in s0.svcs && |s0.svcs[k].versions| == 1 && s0.svcs[k].versions[0].Some?
  {
    var o := Finalized(s0, k);
    Svc([s0.svcs[k].versions[0], Some(o)], 0, false, Working(Work(Copy(1, o), read, looked, None, map[], {}, {}, {})))
  }

  lemma UpToRead(cfg: Config, s0: Sys, k: Id, protocol: string, read: Fate) returns (acts: seq<Action>, s: Sys)
    requires Init(cfg, s0) && Untouched(cfg, s0, k, protocol) && (read == CALM || read == Unheard(403))
    ensures s == Run(cfg, s0, acts) && s.cloud == s0.cloud && k in s.svcs
    ensures s.svcs[k] == Reading(s0, k, if read == CALM then Confirmed else Forbidden, false)
  {
    acts, s := UpToFinalizer(cfg, s0, k, protocol);
    acts, s := Reaches(cfg, s0, acts, s, Do(k, FreshGet, read));
  }

  lemma UpToLookup(cfg: Config, s0: Sys, k: Id, protocol: string, read: Fate) returns (acts: seq<Action>, s: Sys)
    requires Init(cfg, s0) && Untouched(cfg, s0, k, protocol) && (read == CALM || read == Unheard(403))
    ensures s == Run(cfg, s0, acts) && s.cloud == s0.cloud && k in s.svcs
    ensures s.svcs[k] == Reading(s0, k, if read == CALM then Confirmed else Forbidden, true)
  {
    acts, s := UpToRead(cfg, s0, k, protocol, read);
    NothingListed(cfg, s.cloud, s.svcs[k].versions, NameOf(cfg, k).value);
    acts, s := Reaches(cfg, s0, acts, s, Do(k, LookupLb, CALM));
    assert s.svcs[k].pass.work.vips == {};
  }

  lemma NothingListed(cfg: Config, c: Cloud, v: Versions, name: string)
    requires c.lbs == map[] && c.live == {}
    ensures ServeLb(cfg, c, v, name, LookupLb, CALM) == Served(c, v, Lbs([]))
  {
    assert ListsLbs(c, name, CALM.listed);
    assert ServeLb(cfg, c, v, name, LookupLb, CALM).reply.items == [];
  }

  /* ---- A load balancer left behind ---- */

  /** The create takes effect but its answer is lost. */
  lemma CreateUnheard(cfg: Config, s0: Sys, k: Id, protocol: string, lb: Id) returns (acts: seq<Action>, s: Sys)
    requires Init(cfg, s0) && Untouched(cfg, s0, k, protocol) && lb != ""
    ensures s == Run(cfg, s0, acts) && k in s.svcs && LiveLb(s.cloud, NameOf(cfg, k).value)
    ensures s.svcs[k] == Reading(s0, k, Confirmed, false)
  {
    acts, s := UpToLookup(cfg, s0, k, protocol, CALM);
    var listeners := Payload(Finalized(s0, k).spec.ports, None);
    acts, s := Reaches(cfg, s0, acts, s, Do(k, CreateLb(protocol, listeners), CALM.(heard := false, id := lb)));
    assert NamedLb(s.cloud, lb, NameOf(cfg, k).value) && lb in s.cloud.live;
  }

  /** The pass ends, and the Service is deleted. */
  lemma DeletedMeanwhile(cfg: Config, s0: Sys, k: Id, protocol: string, lb: Id) returns (acts: seq<Action>, s: Sys)
    requires Init(cfg, s0) && Untouched(cfg, s0, k, protocol) && lb != ""
    ensures s == Run(cfg, s0, acts) && k in s.svcs && LiveLb(s.cloud, NameOf(cfg, k).value)
    ensures var o := Finalized(s0, k);
            s.svcs[k] == Svc([s0.svcs[k].versions[0], Some(o), Some(o.(deletedAt := Some(s.now)))], 0, false, Idle)
  {
    acts, s := CreateUnheard(cfg, s0, k, protocol, lb);
    acts, s := Reaches(cfg, s0, acts, s, End(k));
    acts, s := Reaches(cfg, s0, acts, s, UserDeletes(k));
  }

  /** Released, with a live load balancer of the Service's name. */
  ghost predicate LeavesLoadBalancer(cfg: Config, s: Sys, k: Id) {
    k in s.svcs && Latest(s.svcs[k].versions).None? && NameOf(cfg, k).Some? && LiveLb(s.cloud, NameOf(cfg, k).value)
  }

  /** The failing input behind ReleaseLeavesLoadBalancer is reachable: for any Service without a managed
      rule there is a run that releases it and leaves a live load balancer of its name. */
  lemma ReleaseCanLeaveLoadBalancer(cfg: Config, s0: Sys, k: Id, protocol: string)
    requires Init(cfg, s0) && Untouched(cfg, s0, k, protocol) && !Managed(s0.svcs[k].versions[0].value)
    ensures exists acts :: LeavesLoadBalancer(cfg, Run(cfg, s0, acts), k)
  {
    var acts, s := DeletedMeanwhile(cfg, s0, k, protocol, "lb");
    acts, s := Reaches(cfg, s0, acts, s, CacheAdvances(k, 2));
    acts, s := Reaches(cfg, s0, acts, s, Begin(k));
    acts, s := Reaches(cfg, s0, acts, s, Do(k, Update(s.svcs[k].pass.clean.mem.obj.(finalizer := false)), CALM));
    assert LeavesLoadBalancer(cfg, Run(cfg, s0, acts), k);
  }

  /* ---- A recorded protocol rewritten ---- */

  /** A create whose operation has succeeded at once with that load balancer. */
  function MadeAtOnce(lb: Id): Fate {
    CALM.(id := lb, op := "op", vip := "vip", first := LbOperation("", "SUCCEEDED", Decoded(lb, "vip")))
  }

  function RecordDiff(ann: Annotations, lb: Id, protocol: string): Patch<Key, string> {
    Diff(ann, ann[LbId := lb][LbProtocol := protocol])
  }

  function WithRecord(o: Object, lb: Id, protocol: string): Object { o.(ann := o.ann[LbId := lb][LbProtocol := protocol]) }

  predicate HasOne(cfg: Config, c: Cloud, k: Id, lb: Id, protocol: string) {
    NameOf(cfg, k).Some? && c.lbs == map[lb := Lb(NameOf(cfg, k).value, protocol, "vip")] && c.live == {lb}
  }

  /** No rule was ever asked for. */
  predicate NoRules(c: Cloud) { c.rules == map[] && c.ops == map[] && c.spent == {} && c.aged == {} }

  lemma MadeServed(cfg: Config, c: Cloud, v: Versions, name: string, protocol: string, listeners: seq<Listener>, lb: Id)
    requires c.lbs == map[] && c.live == {} && c.lbOps == map[] && lb != ""
    ensures var r := ServeLb(cfg, c, v, name, CreateLb(protocol, listeners), MadeAtOnce(lb));
            && r.cloud == c.(lbs := map[lb := Lb(name, protocol, "vip")], live := {lb}, lbOps := map["op" := Some(lb)])
            && r.versions == v && r.reply == LbOp(LbOperation("op", "SUCCEEDED", Decoded(lb, "vip")))
  {
  }

  lemma CreateAllowed(cfg: Config, k: Id, w: Work, protocol: string, listeners: seq<Listener>)
    requires w.looked && LbId !in w.mem.obj.ann && w.mem.obj.finalizer && (w.read.Confirmed? || w.read.Forbidden?)
    requires Derive(w.mem.obj.spec.ports) == Serves(protocol) && listeners == Payload(w.mem.obj.spec.ports, None)
    ensures Allowed(cfg, k, Working(w), CreateLb(protocol, listeners))
  {
  }

  /** A load balancer is created, with or without the direct read. */
  lemma CreatesNew(cfg: Config, s0: Sys, k: Id, protocol: string, lb: Id, read: Fate) returns (acts: seq<Action>, s: Sys)
    requires Init(cfg, s0) && Untouched(cfg, s0, k, protocol) && lb != "" && (read == CALM || read == Unheard(403))
    ensures s == Run(cfg, s0, acts) && k in s.svcs && NoRules(s.cloud) && HasOne(cfg, s.cloud, k, lb, protocol)
    ensures var o := Finalized(s0, k); var v := s.svcs[k];
            && v.versions == [s0.svcs[k].versions[0], Some(o)] && v.seen == 0 && !v.cleaned
            && v.pass.Working? && v.pass.work.mem == Copy(1, o) && v.pass.work.mine == map[lb := Some(protocol)]
            && "vip" in v.pass.work.vips
  {
    acts, s := UpToLookup(cfg, s0, k, protocol, read);
    var listeners := Payload(Finalized(s0, k).spec.ports, None);
    MadeServed(cfg, s.cloud, s.svcs[k].versions, NameOf(cfg, k).value, protocol, listeners, lb);
    CreateAllowed(cfg, k, s.svcs[k].pass.work, protocol, listeners);
    DoIsStep(cfg, s, k, CreateLb(protocol, listeners), MadeAtOnce(lb));
    acts, s := Reaches(cfg, s0, acts, s, Do(k, CreateLb(protocol, listeners), MadeAtOnce(lb)));
  }

  /** While a pass that may not read the Service creates a TCP load balancer, the user asks for UDP. */
  lemma CreatesTcp(cfg: Config, s0: Sys, k: Id, udp: seq<Port>, lb: Id) returns (acts: seq<Action>, s: Sys)
    requires Init(cfg, s0) && Untouched(cfg, s0, k, LB_TCP) && lb != ""
    ensures s == Run(cfg, s0, acts) && k in s.svcs && HasOne(cfg, s.cloud, k, lb, LB_TCP)
    ensures var o := Finalized(s0, k); var v := s.svcs[k];
            && v.versions == [s0.svcs[k].versions[0], Some(o), Some(o.(spec := o.spec.(ports := udp)))] && v.seen == 0
            && v.pass.Working? && v.pass.work.mem == Copy(1, o) && v.pass.work.mine == map[lb := Some(LB_TCP)]
            && !v.cleaned
  {
    acts, s := CreatesNew(cfg, s0, k, LB_TCP, lb, Unheard(403));
    var o := Finalized(s0, k);
    acts, s := Reaches(cfg, s0, acts, s, UserEdits(k, o.spec.(ports := udp), o.ann));
  }

  lemma DiffRecords(ann: Annotations, lb: Id, protocol: string, now: Annotations)
    requires LbId !in ann && LbProtocol !in ann
    ensures var diff := RecordDiff(ann, lb, protocol);
            LbId in diff && LbProtocol in diff && diff[LbId] == Some(lb) && diff[LbProtocol] == Some(protocol)
    ensures Apply(RecordDiff(ann, lb, protocol), ann) == ann[LbId := lb][LbProtocol := protocol]
    ensures Get(Apply(RecordDiff(ann, lb, protocol), now), LbProtocol) == Some(protocol)
  {
    PatchExact(ann, ann[LbId := lb][LbProtocol := protocol], ann);
  }

  lemma PatchLands(c: Cloud, v: Versions, mem: Copy, diff: Patch<Key, string>)
    requires Latest(v).Some? && Apply(diff, Latest(v).value.ann) != Latest(v).value.ann
    ensures var o := Latest(v).value.(ann := Apply(diff, Latest(v).value.ann));
            ServeObject(c, v, mem, PatchAnn(diff), CALM) == Served(c, v + [Some(o)], Stored(Copy(|v|, o)))
  {
  }

  lemma MayPatch(cfg: Config, k: Id, w: Work, diff: Patch<Key, string>, copy: Copy)
    requires RecordsLb(w, diff) || TracksRule(w, diff)
    ensures Allowed(cfg, k, Working(w), PatchAnn(diff))
    ensures Learn(cfg, k, Working(w), PatchAnn(diff), Stored(copy)) == Working(w.(mem := copy))
  {
  }

  /** A patch of the record or the tracking that takes effect and is heard. */
  lemma AnnotationsLand(cfg: Config, s: Sys, k: Id, diff: Patch<Key, string>)
    requires k in s.svcs && s.svcs[k].pass.Working? && Latest(s.svcs[k].versions).Some?
    requires RecordsLb(s.svcs[k].pass.work, diff) || TracksRule(s.svcs[k].pass.work, diff)
    requires var now := Latest(s.svcs[k].versions).value; Apply(diff, now.ann) != now.ann
    ensures var v := s.svcs[k];
            var o := Latest(v.versions).value.(ann := Apply(diff, Latest(v.versions).value.ann));
            Step(cfg, s, Do(k, PatchAnn(diff), CALM)) ==
            s.(svcs := s.svcs[k := v.(versions := v.versions + [Some(o)],
                                      pass := Working(v.pass.work.(mem := Copy(|v.versions|, o))))])
  {
    var v := s.svcs[k];
    var o := Latest(v.versions).value.(ann := Apply(diff, Latest(v.versions).value.ann));
    PatchLands(s.cloud, v.versions, v.pass.work.mem, diff);
    MayPatch(cfg, k, v.pass.work, diff, Copy(|v.versions|, o));
    DoIsStep(cfg, s, k, PatchAnn(diff), CALM);
  }

  /** The four stored states once TCP is recorded; the cache has the third. */
  lemma RecordsTcp(cfg: Config, s0: Sys, k: Id, udp: seq<Port>, lb: Id) returns (acts: seq<Action>, s: Sys)
    requires Init(cfg, s0) && Untouched(cfg, s0, k, LB_TCP) && lb != ""
    ensures s == Run(cfg, s0, acts) && k in s.svcs && HasOne(cfg, s.cloud, k, lb, LB_TCP)
    ensures var o := Finalized(s0, k); var edited := o.(spec := o.spec.(ports := udp));
            && s.svcs[k].versions == [s0.svcs[k].versions[0], Some(o), Some(edited), Some(WithRecord(edited, lb, LB_TCP))]
            && s.svcs[k].seen == 0 && !s.svcs[k].pass.Idle? && !s.svcs[k].cleaned
  {
    acts, s := CreatesTcp(cfg, s0, k, udp, lb);
    var o := Finalized(s0, k);
    DiffRecords(o.ann, lb, LB_TCP, o.ann);
    assert RecordsLb(s.svcs[k].pass.work, RecordDiff(o.ann, lb, LB_TCP));
    AnnotationsLand(cfg, s, k, RecordDiff(o.ann, lb, LB_TCP));
    acts, s := Reaches(cfg, s0, acts, s, Do(k, PatchAnn(RecordDiff(o.ann, lb, LB_TCP)), CALM));
  }

  /** The next pass begins with the state between the edit and the record. */
  lemma BeginsBehind(cfg: Config, s0: Sys, k: Id, udp: seq<Port>, lb: Id) returns (acts: seq<Action>, s: Sys)
    requires Init(cfg, s0) && Untouched(cfg, s0, k, LB_TCP) && lb != ""
    ensures s == Run(cfg, s0, acts) && k in s.svcs && HasOne(cfg, s.cloud, k, lb, LB_TCP)
    ensures var o := Finalized(s0, k); var edited := o.(spec := o.spec.(ports := udp));
            s.svcs[k] == Svc([s0.svcs[k].versions[0], Some(o), Some(edited), Some(WithRecord(edited, lb, LB_TCP))], 2, false,
                             Working(Work(Copy(2, edited), Unread, false, None, map[], {}, {}, {})))
  {
    acts, s := RecordsTcp(cfg, s0, k, udp, lb);
    acts, s := Reaches(cfg, s0, acts, s, End(k));
    acts, s := Reaches(cfg, s0, acts, s, CacheAdvances(k, 2));
    acts, s := Reaches(cfg, s0, acts, s, Begin(k));
  }

  /** It may not read the Service either. */
  lemma BlindBehind(cfg: Config, s0: Sys, k: Id, udp: seq<Port>, lb: Id) returns (acts: seq<Action>, s: Sys)
    requires Init(cfg, s0) && Untouched(cfg, s0, k, LB_TCP) && lb != ""
    ensures s == Run(cfg, s0, acts) && k in s.svcs && HasOne(cfg, s.cloud, k, lb, LB_TCP)
    ensures var o := Finalized(s0, k); var edited := o.(spec := o.spec.(ports := udp)); var v := s.svcs[k];
            && v.versions == [s0.svcs[k].versions[0], Some(o), Some(edited), Some(WithRecord(edited, lb, LB_TCP))]
            && v.pass == Working(Work(Copy(2, edited), Forbidden, false, None, map[], {}, {}, {}))
  {
    acts, s := BeginsBehind(cfg, s0, k, udp, lb);
    acts, s := Reaches(cfg, s0, acts, s, Do(k, FreshGet, Unheard(403)));
  }

  /** A list without protocols. */
  lemma OneListed(cfg: Config, c: Cloud, v: Versions, k: Id, lb: Id, protocol: string)
    requires HasOne(cfg, c, k, lb, protocol) && !cfg.reports
    ensures var name := NameOf(cfg, k).value;
            && ServeLb(cfg, c, v, name, LookupLb, CALM.(listed := [lb])) == Served(c, v, Lbs([LbView(lb, name, "", "")]))
            && LearnViews(map[], [LbView(lb, name, "", "")], name) == map[lb := None]
  {
    var views, name := [LbView(lb, NameOf(cfg, k).value, "", "")], NameOf(cfg, k).value;
    assert ListsLbs(c, name, [lb]);
    var reply := ServeLb(cfg, c, v, name, LookupLb, CALM.(listed := [lb])).reply;
    assert reply.Lbs? && |reply.items| == 1 && reply.items[0] == views[0];
    assert reply.items == views;
    assert LearnViews(map[lb := None], views[1..], NameOf(cfg, k).value) == map[lb := None];
  }

  /** The pass finds the load balancer by name. */
  lemma FindsUnreported(cfg: Config, s0: Sys, k: Id, udp: seq<Port>, lb: Id) returns (acts: seq<Action>, s: Sys)
    requires Init(cfg, s0) && Untouched(cfg, s0, k, LB_TCP) && lb != "" && !cfg.reports
    ensures s == Run(cfg, s0, acts) && k in s.svcs && HasOne(cfg, s.cloud, k, lb, LB_TCP)
    ensures var o := Finalized(s0, k); var edited := o.(spec := o.spec.(ports := udp)); var v := s.svcs[k];
            && v.versions == [s0.svcs[k].versions[0], Some(o), Some(edited), Some(WithRecord(edited, lb, LB_TCP))]
            && v.pass.Working? && v.pass.work.mem == Copy(2, edited) && v.pass.work.mine == map[lb := None]
  {
    acts, s := BlindBehind(cfg, s0, k, udp, lb);
    OneListed(cfg, s.cloud, s.svcs[k].versions, k, lb, LB_TCP);
    acts, s := Reaches(cfg, s0, acts, s, Do(k, LookupLb, CALM.(listed := [lb])));
  }

  /** Two recorded protocols, and the second is not the load balancer's. */
  ghost predicate Rewritten(s: Sys, k: Id, lb: Id) {
    && k in s.svcs && |s.svcs[k].versions| == 5 && Records(s.svcs[k].versions[3]) && Records(s.svcs[k].versions[4])
    && s.svcs[k].versions[3].value.ann[LbProtocol] == LB_TCP && s.svcs[k].versions[4].value.ann[LbProtocol] == LB_UDP
    && lb in s.cloud.live && lb in s.cloud.lbs && s.cloud.lbs[lb].protocol == LB_TCP
  }

  lemma Overwrites(cfg: Config, s: Sys, k: Id, o: Object, udp: seq<Port>)
    requires k in s.svcs && s.svcs[k].pass.Working? && HasOne(cfg, s.cloud, k, "lb", LB_TCP)
    requires LbId !in o.ann && LbProtocol !in o.ann && Derive(udp) == Serves(LB_UDP)
    requires var edited := o.(spec := o.spec.(ports := udp)); var v := s.svcs[k];
             && |v.versions| == 4 && v.versions[3] == Some(WithRecord(edited, "lb", LB_TCP))
             && v.pass.work.mem.obj == edited && v.pass.work.mine == map["lb" := None]
    ensures Rewritten(Step(cfg, s, Do(k, PatchAnn(RecordDiff(o.ann, "lb", LB_UDP)), CALM)), k, "lb")
  {
    DiffRecords(o.ann, "lb", LB_UDP, WithRecord(o, "lb", LB_TCP).ann);
    assert RecordsLb(s.svcs[k].pass.work, RecordDiff(o.ann, "lb", LB_UDP));
    AnnotationsLand(cfg, s, k, RecordDiff(o.ann, "lb", LB_UDP));
  }

  /** Where ProtocolNeverRewritten ends: when protocols are not reported and the direct read is forbidden,
      a Service edited from TCP to UDP while its load balancer is being created can end up recording UDP
      over TCP, for a load balancer that serves TCP. */
  lemma BlindPassRewrites(cfg: Config, s0: Sys, k: Id, udp: seq<Port>)
    requires Init(cfg, s0) && Untouched(cfg, s0, k, LB_TCP) && !cfg.reports && Derive(udp) == Serves(LB_UDP)
    ensures exists acts :: Rewritten(Run(cfg, s0, acts), k, "lb")
  {
    var acts, s := FindsUnreported(cfg, s0, k, udp, "lb");
    var o := Finalized(s0, k);
    Overwrites(cfg, s, k, o, udp);
    acts, s := Reaches(cfg, s0, acts, s, Do(k, PatchAnn(RecordDiff(o.ann, "lb", LB_UDP)), CALM));
    assert Rewritten(Run(cfg, s0, acts), k, "lb");
  }
}
