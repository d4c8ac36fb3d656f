/** Every reachable state satisfies the invariant. */
module InvariantProof {
  import opened Wrappers
  import opened Model
  import opened Protocol
  import opened Invariant
  import opened InvariantSteps

  lemma ObjectLearned(cfg: Config, c: Cloud, k: Id, v: Svc, call: Call, r: Served)
    requires ObjectOk(cfg, c, k, v, call, r) && !v.pass.Idle?
    requires call.Update? || call.PatchAnn? || call.PatchStatus? || call.FreshGet?
    requires v.pass.Working? && call.FreshGet? ==> v.pass.work.mem.obj.finalizer
    requires v.pass.Cleaning? ==> (call.PatchAnn? && v.pass.clean.fw.Removed?) ||
                                  (call.Update? && v.pass.clean.fw.Cleared? && !v.pass.clean.lb.Present?)
    ensures SvcInv(cfg, c, k, v.(versions := r.versions, pass := Learn(cfg, k, v.pass, call, r.reply)))
  {
    PassChange(cfg, c, k, v.(versions := r.versions), Learn(cfg, k, v.pass, call, r.reply));
  }

  /** What a call leaves behind, for its caller and for everybody else. */
  ghost predicate CallOk(cfg: Config, c: Cloud, k: Id, v: Svc, call: Call, r: Served) {
    && CloudInv(cfg, r.cloud)
    && SvcInv(cfg, r.cloud, k, v.(versions := r.versions, pass := Learn(cfg, k, v.pass, call, r.reply)))
    && forall j | NameOf(cfg, j).None? || NameOf(cfg, j) != NameOf(cfg, k) :: LbStable(c, r.cloud, NameOf(cfg, j))
  }

  /** What a call on the stored Service says about where its pass stands. */
  lemma ObjectAllowed(cfg: Config, k: Id, p: Pass, call: Call)
    requires Allowed(cfg, k, p, call)
    requires call.Update? || call.PatchAnn? || call.PatchStatus? || call.FreshGet?
    ensures p.Working? && call.FreshGet? ==> p.work.mem.obj.finalizer
    ensures p.Cleaning? ==> (call.PatchAnn? && p.clean.fw.Removed?) ||
                            (call.Update? && p.clean.fw.Cleared? && !p.clean.lb.Present?)
  {
  }

  lemma SameCloud(c: Cloud)
    ensures forall name :: LbStable(c, c, name)
  {
  }

  lemma ObjectCall(cfg: Config, c: Cloud, k: Id, v: Svc, call: Call, f: Fate)
    requires CloudInv(cfg, c) && SvcInv(cfg, c, k, v) && !v.pass.Idle? && Allowed(cfg, k, v.pass, call)
    requires call.Update? || call.PatchAnn? || call.PatchStatus? || call.FreshGet?
    ensures CallOk(cfg, c, k, v, call, ServeObject(c, v.versions, PassMem(v.pass), call, f))
  {
    DoObject(cfg, c, k, v, call, f);
    ObjectAllowed(cfg, k, v.pass, call);
    SameCloud(c);
    ObjectLearned(cfg, c, k, v, call, ServeObject(c, v.versions, PassMem(v.pass), call, f));
  }

  lemma CloudCall(cfg: Config, c: Cloud, k: Id, v: Svc, call: Call, r: Served)
    requires CloudOk(cfg, c, k, v, call, r)
    ensures CallOk(cfg, c, k, v, call, r)
  {
    var p := Learn(cfg, k, v.pass, call, r.reply);
    assert v.(pass := p) == v.(versions := r.versions, pass := p);
  }

  lemma CallCloud(cfg: Config, c: Cloud, k: Id, v: Svc, now: Time, call: Call, f: Fate)
    requires CloudInv(cfg, c) && SvcInv(cfg, c, k, v) && !v.pass.Idle? && Allowed(cfg, k, v.pass, call)
    ensures CallOk(cfg, c, k, v, call, Serve(cfg, c, v.versions, now, NameOf(cfg, k).GetOr(""), PassMem(v.pass), call, f))
  {
    var r := Serve(cfg, c, v.versions, now, NameOf(cfg, k).GetOr(""), PassMem(v.pass), call, f);
    if call.Update? || call.PatchAnn? || call.PatchStatus? || call.FreshGet? {
      ObjectCall(cfg, c, k, v, call, f);
    } else {
      if call.LookupLb? || call.CreateLb? || call.AwaitLb? || call.GetLb? || call.UpdateLb? || call.DeleteLb? {
        DoLb(cfg, c, k, v, call, f);
      } else if call.Clock? || call.VpcInfo? || call.ListNodes? {
        ReadOk(cfg, c, k, v, call, r);
      } else {
        DoRule(cfg, c, k, v, call, f);
      }
      CloudCall(cfg, c, k, v, call, r);
    }
  }

  lemma ReadOk(cfg: Config, c: Cloud, k: Id, v: Svc, call: Call, r: Served)
    requires CloudInv(cfg, c) && SvcInv(cfg, c, k, v) && (v.pass.Working? || (v.pass.Cleaning? && v.pass.clean.fw.AskClock?))
    requires call.Clock? || call.VpcInfo? || call.ListNodes?
    requires r.cloud == c && r.versions == v.versions && !r.reply.Stored?
    ensures CloudOk(cfg, c, k, v, call, r)
  {
    RulePass(cfg, c, k, v, call, r);
    PassChange(cfg, c, k, v, Learn(cfg, k, v.pass, call, r.reply));
  }

  lemma DoStep(cfg: Config, s: Sys, k: Id, call: Call, f: Fate)
    requires ValidConfig(cfg) && Inv(cfg, s)
    ensures Inv(cfg, Step(cfg, s, Do(k, call, f)))
  {
    if k in s.svcs && !s.svcs[k].pass.Idle? && Allowed(cfg, k, s.svcs[k].pass, call) {
      CallCloud(cfg, s.cloud, k, s.svcs[k], s.now, call, f);
      ServedInv(cfg, s, k, call, DoCall(cfg, s, k, call, f));
    }
  }

  /** The other Services have other names, so the call does not concern them. */
  lemma ServedInv(cfg: Config, s: Sys, k: Id, call: Call, r: Served)
    requires ValidConfig(cfg) && Inv(cfg, s) && k in s.svcs && CallOk(cfg, s.cloud, k, s.svcs[k], call, r)
    ensures var v := s.svcs[k];
            var v' := v.(versions := r.versions, pass := Learn(cfg, k, v.pass, call, r.reply));
            Inv(cfg, s.(cloud := r.cloud, svcs := s.svcs[k := v']))
  {
    forall j | j in s.svcs && j != k ensures SvcInv(cfg, r.cloud, j, s.svcs[j]) {
      if NameOf(cfg, j).Some? && NameOf(cfg, j) == NameOf(cfg, k) { NameInjective(cfg, j, k); }
      SvcStable(cfg, s.cloud, r.cloud, j, s.svcs[j]);
    }
  }

  lemma BeginSvc(cfg: Config, c: Cloud, k: Id, v: Svc)
    requires SvcInv(cfg, c, k, v)
    ensures var o := v.versions[v.seen];
            SvcInv(cfg, c, k, v.(cleaned := v.cleaned || Deleted(o), pass := StartPass(cfg, k, v.seen, o)))
  {
    var o := v.versions[v.seen];
    var v' := v.(cleaned := v.cleaned || Deleted(o), pass := Idle);
    assert SvcInv(cfg, c, k, v');
    PassChange(cfg, c, k, v', StartPass(cfg, k, v.seen, o));
  }

  lemma BeginStep(cfg: Config, s: Sys, k: Id)
    requires Inv(cfg, s)
    ensures Inv(cfg, Step(cfg, s, Begin(k)))
  {
    if k in s.svcs {
      BeginSvc(cfg, s.cloud, k, s.svcs[k]);
    }
  }

  lemma CacheStep(cfg: Config, s: Sys, k: Id, to: nat)
    requires Inv(cfg, s)
    ensures Inv(cfg, Step(cfg, s, CacheAdvances(k, to)))
  {
  }

  lemma EditKept(cfg: Config, c: Cloud, k: Id, v: Svc, spec: Spec, ann: Annotations)
    requires CloudInv(cfg, c) && SvcInv(cfg, c, k, v) && Latest(v.versions).Some?
    requires UserOnly(ann, Latest(v.versions).value.ann)
    ensures SvcInv(cfg, c, k, v.(versions := v.versions + [Some(Latest(v.versions).value.(spec := spec, ann := ann))]))
  {
    var now := Latest(v.versions).value;
    assert RecordOk(cfg, c, k, now.ann) by { assert v.versions[|v.versions| - 1] == Some(now); }
    RecordKept(cfg, c, k, now.ann, ann);
    AppendVersion(cfg, c, k, v, Some(now.(spec := spec, ann := ann)));
  }

  lemma DeleteKept(cfg: Config, c: Cloud, k: Id, v: Svc, at: Time)
    requires CloudInv(cfg, c) && SvcInv(cfg, c, k, v) && Latest(v.versions).Some?
    ensures var now := Latest(v.versions).value;
            SvcInv(cfg, c, k, v.(versions := v.versions + [if now.finalizer then Some(now.(deletedAt := Some(at))) else None]))
  {
    var now := Latest(v.versions).value;
    assert RecordOk(cfg, c, k, now.ann) by { assert v.versions[|v.versions| - 1] == Some(now); }
    AppendVersion(cfg, c, k, v, if now.finalizer then Some(now.(deletedAt := Some(at))) else None);
  }

  lemma UserStep(cfg: Config, s: Sys, a: Action)
    requires Inv(cfg, s) && (a.UserEdits? || a.UserDeletes?)
    ensures Inv(cfg, Step(cfg, s, a))
  {
    if a.k in s.svcs && Latest(s.svcs[a.k].versions).Some? {
      match a
      case UserEdits(k, spec, ann) =>
        if UserOnly(ann, Latest(s.svcs[k].versions).value.ann) { EditKept(cfg, s.cloud, k, s.svcs[k], spec, ann); }
      case UserDeletes(k) => DeleteKept(cfg, s.cloud, k, s.svcs[k], s.now);
    }
  }

  lemma SettleInv(cfg: Config, c: Cloud, a: Action)
    requires CloudInv(cfg, c) && a.OpSettles?
    ensures CloudInv(cfg, SettleOp(c, a))
  {
  }

  /** A change among the rules and their operations concerns no load balancer fact. */
  lemma OnlyRules(cfg: Config, s: Sys, c': Cloud)
    requires Inv(cfg, s) && CloudInv(cfg, c')
    requires c'.lbs == s.cloud.lbs && c'.live == s.cloud.live && c'.lbOps == s.cloud.lbOps
    ensures Inv(cfg, s.(cloud := c'))
  {
    forall k | k in s.svcs ensures SvcInv(cfg, c', k, s.svcs[k]) {
      SvcStable(cfg, s.cloud, c', k, s.svcs[k]);
    }
  }

  lemma EnvironmentStep(cfg: Config, s: Sys, a: Action)
    requires Inv(cfg, s) && (a.OpSettles? || a.OpAges? || a.RuleDropped?)
    ensures Inv(cfg, Step(cfg, s, a))
  {
    EnvironmentCloud(cfg, s, a);
    OnlyRules(cfg, s, Step(cfg, s, a).cloud);
  }

  lemma EnvironmentCloud(cfg: Config, s: Sys, a: Action)
    requires CloudInv(cfg, s.cloud) && (a.OpSettles? || a.OpAges? || a.RuleDropped?)
    ensures var s' := Step(cfg, s, a);
            && CloudInv(cfg, s'.cloud) && s' == s.(cloud := s'.cloud)
            && s'.cloud.lbs == s.cloud.lbs && s'.cloud.live == s.cloud.live && s'.cloud.lbOps == s.cloud.lbOps
  {
    if a.OpSettles? {
      SettleInv(cfg, s.cloud, a);
    }
  }

  lemma StepInv(cfg: Config, s: Sys, a: Action)
    requires ValidConfig(cfg) && Inv(cfg, s)
    ensures Inv(cfg, Step(cfg, s, a))
  {
    match a
    case Begin(k) => BeginStep(cfg, s, k);
    case End(k) =>
    case Do(k, call, f) => DoStep(cfg, s, k, call, f);
    case CacheAdvances(k, to) => CacheStep(cfg, s, k, to);
    case UserEdits(_, _, _) => UserStep(cfg, s, a);
    case UserDeletes(_) => UserStep(cfg, s, a);
    case OpSettles(_, _, _, _, _, _) => EnvironmentStep(cfg, s, a);
    case OpAges(_) => EnvironmentStep(cfg, s, a);
    case RuleDropped(_) => EnvironmentStep(cfg, s, a);
    case TimePasses(_) =>
  }

  lemma {:induction false} RunInv(cfg: Config, s: Sys, acts: seq<Action>)
    requires ValidConfig(cfg) && Inv(cfg, s)
    ensures Inv(cfg, Run(cfg, s, acts))
    decreases |acts|
  {
    if |acts| > 0 {
      RunInv(cfg, s, acts[..|acts| - 1]);
      StepInv(cfg, Run(cfg, s, acts[..|acts| - 1]), acts[|acts| - 1]);
    }
  }

  lemma InitInv(cfg: Config, s: Sys)
    requires Init(cfg, s)
    ensures Inv(cfg, s)
  {
  }
}
