/** The external IP a Service publishes is the VIP of the load balancer it records, in every run. */
module Publication {
  import opened Wrappers
  import opened MergePatch
  import opened Polling
  import opened Model
  import opened Protocol
  import opened Invariant
  import opened InvariantSteps
  import opened InvariantProof

  /** vip is that of the load balancer of the name. */
  ghost predicate OwnVip(c: Cloud, name: string, vip: string) {
    exists i :: NamedLb(c, i, name) && c.lbs[i].vip == vip
  }

  /** What a pass takes for its load balancer's VIP is, unless it is empty. */
  ghost predicate VipsOk(c: Cloud, name: Option<string>, vips: set<string>) {
    forall vip | vip in vips && vip != "" :: name.Some? && OwnVip(c, name.value, vip)
  }

  function IngressOf(o: Option<Object>): seq<string> { if o.Some? then o.value.ingress else [] }

  /** Published is nothing but what was there at first or the VIP of the recorded load balancer. */
  ghost predicate PublishedOk(c: Cloud, name: Option<string>, first: seq<string>, o: Object) {
    || o.ingress == first
    || (LbId in o.ann && name.Some? && |o.ingress| == 1 && o.ingress[0] != "" && OwnVip(c, name.value, o.ingress[0]))
  }

  ghost predicate SvcPublishes(c: Cloud, v: Svc, name: Option<string>) {
    && |v.versions| > 0
    && (forall n | 0 <= n < |v.versions| && v.versions[n].Some? ::
          PublishedOk(c, name, IngressOf(v.versions[0]), v.versions[n].value))
    && (v.pass.Working? ==> VipsOk(c, name, v.pass.work.vips))
  }

  ghost predicate Publishes(cfg: Config, s: Sys) {
    forall k | k in s.svcs :: SvcPublishes(s.cloud, s.svcs[k], NameOf(cfg, k))
  }

  /* ---- Load balancers stay ---- */

  predicate LbsStay(c: Cloud, c': Cloud) { forall i | i in c.lbs :: i in c'.lbs && c'.lbs[i] == c.lbs[i] }

  lemma VipStays(c: Cloud, c': Cloud, name: string, vip: string)
    requires LbsStay(c, c') && OwnVip(c, name, vip)
    ensures OwnVip(c', name, vip)
  {
    var i :| NamedLb(c, i, name) && c.lbs[i].vip == vip;
    assert NamedLb(c', i, name) && c'.lbs[i].vip == vip;
  }

  lemma VipsStay(c: Cloud, c': Cloud, name: Option<string>, vips: set<string>)
    requires LbsStay(c, c') && VipsOk(c, name, vips)
    ensures VipsOk(c', name, vips)
  {
    forall vip | vip in vips && vip != "" ensures name.Some? && OwnVip(c', name.value, vip) {
      VipStays(c, c', name.value, vip);
    }
  }

  lemma SvcStillPublishes(c: Cloud, c': Cloud, v: Svc, name: Option<string>)
    requires LbsStay(c, c') && SvcPublishes(c, v, name)
    ensures SvcPublishes(c', v, name)
  {
    forall n | 0 <= n < |v.versions| && v.versions[n].Some?
      ensures PublishedOk(c', name, IngressOf(v.versions[0]), v.versions[n].value)
    {
      var o := v.versions[n].value;
      assert PublishedOk(c, name, IngressOf(v.versions[0]), o);
      if o.ingress != IngressOf(v.versions[0]) { VipStays(c, c', name.value, o.ingress[0]); }
    }
    if v.pass.Working? { VipsStay(c, c', name, v.pass.work.vips); }
  }

  lemma AllStay(cfg: Config, s: Sys, c: Cloud, k: Id, v: Svc)
    requires Publishes(cfg, s) && LbsStay(s.cloud, c) && SvcPublishes(c, v, NameOf(cfg, k))
    ensures Publishes(cfg, s.(cloud := c, svcs := s.svcs[k := v]))
  {
    forall j | j in s.svcs ensures SvcPublishes(c, s.svcs[j], NameOf(cfg, j)) {
      SvcStillPublishes(s.cloud, c, s.svcs[j], NameOf(cfg, j));
    }
  }

  lemma CloudStays(cfg: Config, s: Sys, c: Cloud)
    requires Publishes(cfg, s) && LbsStay(s.cloud, c)
    ensures Publishes(cfg, s.(cloud := c))
  {
    forall j | j in s.svcs ensures SvcPublishes(c, s.svcs[j], NameOf(cfg, j)) {
      SvcStillPublishes(s.cloud, c, s.svcs[j], NameOf(cfg, j));
    }
  }

  /** A call removes no load balancer from the record. */
  lemma CallStays(cfg: Config, c: Cloud, v: Versions, now: Time, name: string, mem: Copy, call: Call, f: Fate)
    ensures LbsStay(c, Serve(cfg, c, v, now, name, mem, call, f).cloud)
  {
  }

  /* ---- What a pass is shown ---- */

  lemma ListedVips(cfg: Config, c: Cloud, v: Versions, name: string, f: Fate)
    ensures var reply := ServeLb(cfg, c, v, name, LookupLb, f).reply;
            reply.Lbs? ==> VipsOk(c, Some(name), set x | x in reply.items && x.name == name :: x.vip)
  {
    var reply := ServeLb(cfg, c, v, name, LookupLb, f).reply;
    if reply.Lbs? {
      forall x | x in reply.items && x.name == name && x.vip != "" ensures OwnVip(c, name, x.vip) {
        var j :| 0 <= j < |reply.items| && reply.items[j] == x;
        assert f.listed[j] in f.listed;
        assert NamedLb(c, f.listed[j], name);
      }
    }
  }

  /** A create operation reports the VIP of the load balancer it makes. */
  lemma OpVipsOk(cfg: Config, c: Cloud, k: Id, op: LbOperation, own: Option<Id>)
    requires own.Some? ==> NameOf(cfg, k).Some? && NamedLb(c, own.value, NameOf(cfg, k).value)
    ensures VipsOk(c, NameOf(cfg, k), OpVips(Truthful(op, own, VipOf(c, own))))
  {
  }

  lemma {:induction false} PollVipsOk(cfg: Config, c: Cloud, k: Id, script: seq<Poll<LbOperation>>,
                                      polls: seq<Poll<LbOperation>>, own: Option<Id>)
    requires own.Some? ==> NameOf(cfg, k).Some? && NamedLb(c, own.value, NameOf(cfg, k).value)
    requires |script| == |polls| && forall i | 0 <= i < |polls| :: script[i] == TruthfulPoll(polls[i], own, VipOf(c, own))
    ensures VipsOk(c, NameOf(cfg, k), PollVips(script))
    decreases |script|
  {
    if |script| > 0 {
      assert script[0] == TruthfulPoll(polls[0], own, VipOf(c, own));
      if script[0].Answer? { OpVipsOk(cfg, c, k, polls[0].op, own); }
      PollVipsOk(cfg, c, k, script[1..], polls[1..], own);
    }
  }

  /** The load balancer of an operation this pass asked for. */
  lemma CreatedVips(cfg: Config, c: Cloud, k: Id, v: Versions, call: Call, f: Fate)
    requires call.CreateLb? && NameOf(cfg, k).Some?
    ensures var r := ServeLb(cfg, c, v, NameOf(cfg, k).value, call, f);
            r.reply.LbOp? ==> VipsOk(r.cloud, NameOf(cfg, k), OpVips(r.reply.op))
  {
    var name := NameOf(cfg, k).value;
    var r := ServeLb(cfg, c, v, name, call, f);
    if r.reply.LbOp? {
      var own := if f.lands && f.id !in c.lbs && f.id != "" then Some(f.id) else None;
      if own.Some? { assert NamedLb(r.cloud, f.id, name) && r.cloud.lbs[f.id].vip == f.vip; }
    }
  }

  lemma ReadVips(cfg: Config, c: Cloud, k: Id, v: Versions, ann: Annotations, id: Id, f: Fate)
    requires CloudInv(cfg, c) && RecordOk(cfg, c, k, ann) && Get(ann, LbId) == Some(id)
    ensures var reply := ServeLb(cfg, c, v, NameOf(cfg, k).GetOr(""), GetLb(id), f).reply;
            reply.LbSeen? ==> VipsOk(c, NameOf(cfg, k), {reply.vip})
  {
    var reply := ServeLb(cfg, c, v, NameOf(cfg, k).GetOr(""), GetLb(id), f).reply;
    if reply.LbSeen? && reply.vip != "" {
      assert NamedLb(c, id, NameOf(cfg, k).value) && c.lbs[id].vip == reply.vip;
    }
  }

  lemma LearnedVips(cfg: Config, c: Cloud, k: Id, v: Svc, call: Call, f: Fate)
    requires CloudInv(cfg, c) && SvcInv(cfg, c, k, v) && v.pass.Working? && AllowedWorking(cfg, k, v.pass.work, call)
    requires call.LookupLb? || call.CreateLb? || call.AwaitLb? || call.GetLb?
    requires VipsOk(c, NameOf(cfg, k), v.pass.work.vips)
    ensures var r := ServeLb(cfg, c, v.versions, NameOf(cfg, k).GetOr(""), call, f);
            VipsOk(r.cloud, NameOf(cfg, k), LearnWorking(v.pass.work, NameOf(cfg, k).GetOr(""), call, r.reply).vips)
  {
    var r, w := ServeLb(cfg, c, v.versions, NameOf(cfg, k).GetOr(""), call, f), v.pass.work;
    if call.LookupLb? {
      ListedVips(cfg, c, v.versions, NameOf(cfg, k).value, f);
    } else if call.CreateLb? {
      CallStays(cfg, c, v.versions, 0, NameOf(cfg, k).value, w.mem, call, f);
      VipsStay(c, r.cloud, NameOf(cfg, k), w.vips);
      CreatedVips(cfg, c, k, v.versions, call, f);
    } else if call.AwaitLb? {
      assert AskedOk(cfg, c, k, w.asked.value);
      PollVipsOk(cfg, c, k, r.reply.script, f.polls, c.lbOps[call.op]);
    } else {
      assert RecordOk(cfg, c, k, v.versions[w.mem.version].value.ann);
      ReadVips(cfg, c, k, v.versions, w.mem.obj.ann, call.id, f);
    }
  }

  /** No other answer tells of a VIP. */
  lemma OtherVips(w: Work, name: string, call: Call, reply: Reply)
    requires !call.LookupLb? && !call.CreateLb? && !call.AwaitLb? && !call.GetLb?
    ensures LearnWorking(w, name, call, reply).vips == w.vips
  {
  }

  /* ---- What a call stores ---- */

  lemma AppendPublishes(c: Cloud, v: Svc, name: Option<string>, o: Option<Object>)
    requires SvcPublishes(c, v, name) && (o.Some? ==> PublishedOk(c, name, IngressOf(v.versions[0]), o.value))
    ensures SvcPublishes(c, v.(versions := v.versions + [o]), name)
  {
  }

  /** A write that keeps the external IP and the record. */
  lemma KeepsPublished(c: Cloud, v: Svc, name: Option<string>, o: Object)
    requires SvcPublishes(c, v, name) && Latest(v.versions).Some? && o.ingress == Latest(v.versions).value.ingress
    requires LbId in Latest(v.versions).value.ann ==> LbId in o.ann
    ensures PublishedOk(c, name, IngressOf(v.versions[0]), o)
  {
    assert v.versions[|v.versions| - 1] == Latest(v.versions);
  }

  lemma WritePublishes(c: Cloud, v: Svc, name: Option<string>, f: Fate, o: Object)
    requires SvcPublishes(c, v, name) && Latest(v.versions).Some?
    requires PublishedOk(c, name, IngressOf(v.versions[0]), o)
    ensures SvcPublishes(c, v.(versions := Write(c, v.versions, f, o).versions), name)
  {
    AppendPublishes(c, v, name, Some(o));
    assert v.(versions := v.versions) == v;
  }

  lemma AnnotationsPublish(cfg: Config, c: Cloud, k: Id, v: Svc, diff: Patch<Key, string>, f: Fate)
    requires SvcInv(cfg, c, k, v) && SvcPublishes(c, v, NameOf(cfg, k)) && Latest(v.versions).Some?
    requires !v.pass.Idle? && Allowed(cfg, k, v.pass, PatchAnn(diff))
    ensures SvcPublishes(c, v.(versions := ServeObject(c, v.versions, PassMem(v.pass), PatchAnn(diff), f).versions),
                         NameOf(cfg, k))
  {
    var now := Latest(v.versions).value;
    var o := now.(ann := Apply(diff, now.ann));
    NewestKeeps(cfg, c, k, v);
    if v.pass.Working? && RecordsLb(v.pass.work, diff) {
      RecordWritten(cfg, c, k, v, diff, now.ann);
    } else {
      OtherPatch(cfg, c, k, v.pass, diff, now.ann);
    }
    KeepsPublished(c, v, NameOf(cfg, k), o);
    WritePublishes(c, v, NameOf(cfg, k), f, o);
  }

  lemma StatusPublishes(cfg: Config, c: Cloud, k: Id, v: Svc, vip: string, f: Fate)
    requires SvcInv(cfg, c, k, v) && SvcPublishes(c, v, NameOf(cfg, k)) && Latest(v.versions).Some?
    requires v.pass.Working? && AllowedWorking(cfg, k, v.pass.work, PatchStatus(vip))
    ensures SvcPublishes(c, v.(versions := ServeObject(c, v.versions, PassMem(v.pass), PatchStatus(vip), f).versions),
                         NameOf(cfg, k))
  {
    var now, m := Latest(v.versions).value, v.pass.work.mem.version;
    assert v.versions[|v.versions| - 1] == Some(now) && v.versions[m].Some?;
    assert LbId in now.ann;
    WritePublishes(c, v, NameOf(cfg, k), f, now.(ingress := [vip]));
  }

  lemma UpdatePublishes(cfg: Config, c: Cloud, k: Id, v: Svc, o: Object, f: Fate)
    requires SvcInv(cfg, c, k, v) && SvcPublishes(c, v, NameOf(cfg, k)) && Latest(v.versions).Some?
    requires !v.pass.Idle? && Allowed(cfg, k, v.pass, Update(o))
    ensures SvcPublishes(c, v.(versions := ServeObject(c, v.versions, PassMem(v.pass), Update(o), f).versions), NameOf(cfg, k))
  {
    assert v.(versions := v.versions) == v;
    if PassMem(v.pass).version == |v.versions| - 1 {
      assert Latest(v.versions).value == PassMem(v.pass).obj;
      KeepsPublished(c, v, NameOf(cfg, k), o);
      AppendPublishes(c, v, NameOf(cfg, k), if o.deletedAt.Some? && !o.finalizer then None else Some(o));
    }
  }

  lemma ObjectPublishes(cfg: Config, c: Cloud, k: Id, v: Svc, call: Call, f: Fate)
    requires SvcInv(cfg, c, k, v) && SvcPublishes(c, v, NameOf(cfg, k)) && !v.pass.Idle? && Allowed(cfg, k, v.pass, call)
    requires call.Update? || call.PatchAnn? || call.PatchStatus? || call.FreshGet?
    ensures SvcPublishes(c, v.(versions := ServeObject(c, v.versions, PassMem(v.pass), call, f).versions), NameOf(cfg, k))
  {
    assert v.(versions := v.versions) == v;
    if Latest(v.versions).Some? {
      match call
      case Update(o) => UpdatePublishes(cfg, c, k, v, o, f);
      case PatchAnn(diff) => AnnotationsPublish(cfg, c, k, v, diff, f);
      case PatchStatus(vip) => StatusPublishes(cfg, c, k, v, vip, f);
      case FreshGet =>
    }
  }

  /* ---- Every run ---- */

  lemma VersionsPublish(cfg: Config, s: Sys, k: Id, call: Call, f: Fate)
    requires Inv(cfg, s) && Publishes(cfg, s) && k in s.svcs && !s.svcs[k].pass.Idle?
    requires Allowed(cfg, k, s.svcs[k].pass, call)
    ensures SvcPublishes(s.cloud, s.svcs[k].(versions := DoCall(cfg, s, k, call, f).versions), NameOf(cfg, k))
  {
    var v := s.svcs[k];
    if call.Update? || call.PatchAnn? || call.PatchStatus? || call.FreshGet? {
      ObjectPublishes(cfg, s.cloud, k, v, call, f);
    } else {
      OtherVersions(cfg, s, k, call, f);
      assert v.(versions := v.versions) == v;
    }
  }

  lemma LbServed(cfg: Config, s: Sys, k: Id, call: Call, f: Fate)
    requires k in s.svcs && !s.svcs[k].pass.Idle?
    requires call.LookupLb? || call.CreateLb? || call.AwaitLb? || call.GetLb?
    ensures DoCall(cfg, s, k, call, f) == ServeLb(cfg, s.cloud, s.svcs[k].versions, NameOf(cfg, k).GetOr(""), call, f)
  {
  }

  lemma PassPublishes(cfg: Config, s: Sys, k: Id, call: Call, f: Fate)
    requires Inv(cfg, s) && Publishes(cfg, s) && k in s.svcs && s.svcs[k].pass.Working?
    requires Allowed(cfg, k, s.svcs[k].pass, call)
    ensures var r := DoCall(cfg, s, k, call, f);
            VipsOk(r.cloud, NameOf(cfg, k), LearnWorking(s.svcs[k].pass.work, NameOf(cfg, k).GetOr(""), call, r.reply).vips)
  {
    var v, r := s.svcs[k], DoCall(cfg, s, k, call, f);
    if call.LookupLb? || call.CreateLb? || call.AwaitLb? || call.GetLb? {
      LbServed(cfg, s, k, call, f);
      LearnedVips(cfg, s.cloud, k, v, call, f);
    } else {
      CallStays(cfg, s.cloud, v.versions, s.now, NameOf(cfg, k).GetOr(""), PassMem(v.pass), call, f);
      VipsStay(s.cloud, r.cloud, NameOf(cfg, k), v.pass.work.vips);
      OtherVips(v.pass.work, NameOf(cfg, k).GetOr(""), call, r.reply);
    }
  }

  lemma LearnedPass(cfg: Config, s: Sys, k: Id, call: Call, f: Fate)
    requires Inv(cfg, s) && Publishes(cfg, s) && k in s.svcs && !s.svcs[k].pass.Idle?
    requires Allowed(cfg, k, s.svcs[k].pass, call)
    ensures var r := DoCall(cfg, s, k, call, f);
            var p := Learn(cfg, k, s.svcs[k].pass, call, r.reply);
            p.Working? ==> VipsOk(r.cloud, NameOf(cfg, k), p.work.vips)
  {
    if s.svcs[k].pass.Working? { PassPublishes(cfg, s, k, call, f); }
  }

  lemma NewPass(c: Cloud, v: Svc, name: Option<string>, p: Pass)
    requires SvcPublishes(c, v.(pass := Idle), name) && (p.Working? ==> VipsOk(c, name, p.work.vips))
    ensures SvcPublishes(c, v.(pass := p), name)
  {
  }

  lemma CallPublishes(cfg: Config, s: Sys, k: Id, call: Call, f: Fate)
    requires Inv(cfg, s) && Publishes(cfg, s) && k in s.svcs && !s.svcs[k].pass.Idle?
    requires Allowed(cfg, k, s.svcs[k].pass, call)
    ensures var r, v := DoCall(cfg, s, k, call, f), s.svcs[k];
            && LbsStay(s.cloud, r.cloud)
            && SvcPublishes(r.cloud, v.(versions := r.versions, pass := Learn(cfg, k, v.pass, call, r.reply)), NameOf(cfg, k))
  {
    var r, v := DoCall(cfg, s, k, call, f), s.svcs[k];
    var v' := v.(versions := r.versions, pass := Idle);
    VersionsPublish(cfg, s, k, call, f);
    CallStays(cfg, s.cloud, v.versions, s.now, NameOf(cfg, k).GetOr(""), PassMem(v.pass), call, f);
    SvcStillPublishes(s.cloud, r.cloud, v', NameOf(cfg, k));
    LearnedPass(cfg, s, k, call, f);
    NewPass(r.cloud, v', NameOf(cfg, k), Learn(cfg, k, v.pass, call, r.reply));
  }

  lemma DoPublishes(cfg: Config, s: Sys, k: Id, call: Call, f: Fate)
    requires Inv(cfg, s) && Publishes(cfg, s) && k in s.svcs && !s.svcs[k].pass.Idle?
    requires Allowed(cfg, k, s.svcs[k].pass, call)
    ensures Publishes(cfg, Step(cfg, s, Do(k, call, f)))
  {
    var r, v := DoCall(cfg, s, k, call, f), s.svcs[k];
    CallPublishes(cfg, s, k, call, f);
    AllStay(cfg, s, r.cloud, k, v.(versions := r.versions, pass := Learn(cfg, k, v.pass, call, r.reply)));
  }

  lemma UserPublishes(cfg: Config, s: Sys, a: Action)
    requires Publishes(cfg, s) && (a.UserEdits? || a.UserDeletes?)
    ensures Publishes(cfg, Step(cfg, s, a))
  {
    if a.k in s.svcs && Latest(s.svcs[a.k].versions).Some? {
      var v, name := s.svcs[a.k], NameOf(cfg, a.k);
      var now := Latest(v.versions).value;
      match a
      case UserEdits(_, spec, ann) =>
        if UserOnly(ann, now.ann) {
          assert Get(ann, LbId) == Get(now.ann, LbId);
          KeepsPublished(s.cloud, v, name, now.(spec := spec, ann := ann));
          AppendPublishes(s.cloud, v, name, Some(now.(spec := spec, ann := ann)));
        }
      case UserDeletes(_) =>
        KeepsPublished(s.cloud, v, name, now.(deletedAt := Some(s.now)));
        AppendPublishes(s.cloud, v, name, if now.finalizer then Some(now.(deletedAt := Some(s.now))) else None);
    }
  }

  lemma StepPublishes(cfg: Config, s: Sys, a: Action)
    requires Inv(cfg, s) && Publishes(cfg, s)
    ensures Publishes(cfg, Step(cfg, s, a))
  {
    if a.Do? {
      if a.k in s.svcs && !s.svcs[a.k].pass.Idle? && Allowed(cfg, a.k, s.svcs[a.k].pass, a.call) {
        DoPublishes(cfg, s, a.k, a.call, a.fate);
      }
    } else if a.UserEdits? || a.UserDeletes? {
      UserPublishes(cfg, s, a);
    } else if a.OpSettles? || a.OpAges? || a.RuleDropped? {
      EnvironmentCloud(cfg, s, a);
      CloudStays(cfg, s, Step(cfg, s, a).cloud);
    } else {
      QuietPublishes(cfg, s, a);
    }
  }

  lemma QuietPublishes(cfg: Config, s: Sys, a: Action)
    requires Publishes(cfg, s) && (a.Begin? || a.End? || a.CacheAdvances? || a.TimePasses?)
    ensures Publishes(cfg, Step(cfg, s, a))
  {
  }

  lemma {:induction false} RunPublishes(cfg: Config, s: Sys, acts: seq<Action>)
    requires ValidConfig(cfg) && Inv(cfg, s) && Publishes(cfg, s)
    ensures Publishes(cfg, Run(cfg, s, acts))
    decreases |acts|
  {
    if |acts| > 0 {
      RunPublishes(cfg, s, acts[..|acts| - 1]);
      RunInv(cfg, s, acts[..|acts| - 1]);
      StepPublishes(cfg, Run(cfg, s, acts[..|acts| - 1]), acts[|acts| - 1]);
    }
  }

  lemma InitPublishes(cfg: Config, s: Sys)
    requires Init(cfg, s)
    ensures Publishes(cfg, s)
  {
  }

  /** In every run a stored Service whose external IP is not the one it had at first publishes exactly one,
      the VIP of the load balancer it records. */
  lemma PublishedIsOwnVip(cfg: Config, s0: Sys, acts: seq<Action>, k: Id, n: nat)
    requires ValidConfig(cfg) && Init(cfg, s0)
    requires var s := Run(cfg, s0, acts); k in s.svcs && n < |s.svcs[k].versions| && s.svcs[k].versions[n].Some?
    ensures var s := Run(cfg, s0, acts); var o := s.svcs[k].versions[n].value;
            && |s.svcs[k].versions| > 0
            && (o.ingress != IngressOf(s.svcs[k].versions[0]) ==>
                  && LbId in o.ann && |o.ingress| == 1 && o.ingress[0] != ""
                  && (o.ann[LbId] != "" ==> o.ann[LbId] in s.cloud.lbs && o.ingress == [s.cloud.lbs[o.ann[LbId]].vip]))
  {
    InitInv(cfg, s0);
    InitPublishes(cfg, s0);
    RunInv(cfg, s0, acts);
    RunPublishes(cfg, s0, acts);
    var s := Run(cfg, s0, acts);
    assert SvcPublishes(s.cloud, s.svcs[k], NameOf(cfg, k));
    SameLb(cfg, s.cloud, k, s.svcs[k], n);
  }

  /** The load balancer of the name is the recorded one. */
  lemma SameLb(cfg: Config, c: Cloud, k: Id, v: Svc, n: nat)
    requires CloudInv(cfg, c) && SvcInv(cfg, c, k, v) && n < |v.versions| && v.versions[n].Some?
    ensures forall vip | NameOf(cfg, k).Some? && OwnVip(c, NameOf(cfg, k).value, vip) && LbId in v.versions[n].value.ann ::
              var id := v.versions[n].value.ann[LbId];
              id != "" ==> id in c.lbs && c.lbs[id].vip == vip
  {
    assert RecordOk(cfg, c, k, v.versions[n].value.ann);
  }
}
