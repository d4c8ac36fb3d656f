/** What a Service's annotations record about its firewall rule is the Service's own, in every run. */
module Tracking {
  import opened Wrappers
  import opened MergePatch
  import opened Model
  import opened Protocol
  import opened Invariant
  import opened InvariantSteps
  import opened InvariantProof

  /** id was that name's rule once, and is nothing else now. */
  predicate RuleKnown(c: Cloud, id: Id, name: string) {
    id in c.spent && (id in c.rules ==> RuleNamed(c, id, name))
  }

  /** o creates, or created, that name's rule. */
  predicate OpKnown(c: Cloud, o: Id, name: string) {
    o in c.ops &&
    match c.ops[o]
    case InFlight(rule) => rule.name == name
    case Succeeded(id, _) => RuleKnown(c, id, name)
    case OpFailed(_, _, _) => true
  }

  /** What the annotations record is the Service's own. */
  predicate Own(c: Cloud, ann: Annotations, name: string) {
    && (RuleId in ann ==> RuleKnown(c, ann[RuleId], name))
    && (OpId in ann && ann[OpId] in c.ops ==> OpKnown(c, ann[OpId], name))
  }

  predicate Knows(c: Cloud, ann: Annotations, name: Option<string>) {
    && (RuleId in ann ==> name.Some? && RuleKnown(c, ann[RuleId], name.value))
    && (OpId in ann ==> name.Some? && OpKnown(c, ann[OpId], name.value))
  }

  predicate WorkKnows(c: Cloud, w: Work, name: Option<string>) {
    && (forall o | o in w.made :: name.Some? && OpKnown(c, o, name.value))
    && (forall id | id in w.found :: name.Some? && RuleKnown(c, id, name.value))
  }

  /** A deleting pass heads only for its Service's rule. */
  predicate CleanKnows(c: Cloud, fw: FwStep, name: Option<string>) {
    match fw
    case AskClock(op) => name.Some? && OpKnown(c, op, name.value)
    case AskOp(op, _) => name.Some? && OpKnown(c, op, name.value)
    case AskName(_) => name.Some?
    case Target(id, _) => name.Some? && RuleKnown(c, id, name.value)
    case _ => true
  }

  predicate PassKnows(c: Cloud, p: Pass, name: Option<string>) {
    match p
    case Idle => true
    case Working(w) => WorkKnows(c, w, name)
    case Cleaning(p) => CleanKnows(c, p.fw, name)
  }

  /** An external IP, once published, stays. */
  predicate IngressStays(v: Versions) {
    forall i, j | 0 <= i <= j < |v| && v[i].Some? && v[j].Some? && |v[i].value.ingress| > 0 :: |v[j].value.ingress| > 0
  }

  ghost predicate SvcTracks(c: Cloud, v: Svc, name: Option<string>) {
    && (forall i | 0 <= i < |v.versions| && v.versions[i].Some? :: Knows(c, v.versions[i].value.ann, name))
    && IngressStays(v.versions)
    && PassKnows(c, v.pass, name)
  }

  ghost predicate Tracks(cfg: Config, s: Sys) {
    forall k | k in s.svcs :: SvcTracks(s.cloud, s.svcs[k], NameOf(cfg, k))
  }

  /* ---- Names stay ---- */

  /** A rule keeps its name, an id is not used again, and operations only settle. */
  ghost predicate NamesStay(c: Cloud, c': Cloud) {
    && c.spent <= c'.spent
    && (forall id | id in c.spent && id in c'.rules :: id in c.rules && c'.rules[id].name == c.rules[id].name)
    && (forall o | o in c.ops :: o in c'.ops && (c'.ops[o] == c.ops[o] || Settles(c', c.ops[o], c'.ops[o])))
  }

  predicate Settles(c': Cloud, was: Op, op: Op) {
    was.InFlight? && (op.OpFailed? || (op.Succeeded? && RuleKnown(c', op.ruleId, was.rule.name)))
  }

  lemma OpStays(c: Cloud, c': Cloud, o: Id, name: string)
    requires NamesStay(c, c') && OpKnown(c, o, name)
    ensures OpKnown(c', o, name)
  {
  }

  lemma SvcStays(c: Cloud, c': Cloud, v: Svc, name: Option<string>)
    requires NamesStay(c, c') && SvcTracks(c, v, name)
    ensures SvcTracks(c', v, name)
  {
    forall i | 0 <= i < |v.versions| && v.versions[i].Some? ensures Knows(c', v.versions[i].value.ann, name) {
      var ann := v.versions[i].value.ann;
      assert Knows(c, ann, name);
      if OpId in ann { OpStays(c, c', ann[OpId], name.value); }
    }
    PassStays(c, c', v.pass, name);
  }

  lemma PassStays(c: Cloud, c': Cloud, p: Pass, name: Option<string>)
    requires NamesStay(c, c') && PassKnows(c, p, name)
    ensures PassKnows(c', p, name)
  {
    if p.Working? {
      forall o | o in p.work.made ensures OpKnown(c', o, name.value) { OpStays(c, c', o, name.value); }
    } else if p.Cleaning? && (p.clean.fw.AskClock? || p.clean.fw.AskOp?) {
      OpStays(c, c', p.clean.fw.op, name.value);
    }
  }

  lemma SettleNames(cfg: Config, c: Cloud, a: Action)
    requires CloudInv(cfg, c) && a.OpSettles?
    ensures NamesStay(c, SettleOp(c, a))
  {
    var c' := SettleOp(c, a);
    forall o | o in c.ops && c'.ops[o] != c.ops[o] ensures Settles(c', c.ops[o], c'.ops[o]) {
      assert o == a.op;
    }
  }

  lemma DroppedNames(c: Cloud, c': Cloud)
    requires c'.spent == c.spent && c'.ops == c.ops
    requires forall id | id in c'.rules :: id in c.rules && c'.rules[id].name == c.rules[id].name
    ensures NamesStay(c, c')
  {
  }

  /* ---- One call ---- */

  /** A pass patches only its Service's rule, under its Service's name. */
  lemma PatchKeepsName(cfg: Config, c: Cloud, k: Id, v: Svc, call: Call)
    requires SvcInv(cfg, c, k, v) && SvcTracks(c, v, NameOf(cfg, k)) && v.pass.Working? && call.PatchRule?
    requires AllowedWorking(cfg, k, v.pass.work, call)
    ensures call.id in c.rules ==> c.rules[call.id].name == call.args.name
  {
    var mem := v.pass.work.mem;
    assert Knows(c, v.versions[mem.version].value.ann, NameOf(cfg, k));
  }

  lemma CallNames(cfg: Config, s: Sys, k: Id, call: Call, f: Fate)
    requires Inv(cfg, s) && Tracks(cfg, s) && k in s.svcs && !s.svcs[k].pass.Idle? && Allowed(cfg, k, s.svcs[k].pass, call)
    ensures NamesStay(s.cloud, DoCall(cfg, s, k, call, f).cloud)
  {
    if call.PatchRule? {
      PatchKeepsName(cfg, s.cloud, k, s.svcs[k], call);
    }
    ServedNames(cfg, s, k, call, f);
  }

  lemma ServedNames(cfg: Config, s: Sys, k: Id, call: Call, f: Fate)
    requires k in s.svcs && !s.svcs[k].pass.Idle?
    requires call.PatchRule? && call.id in s.cloud.rules ==> s.cloud.rules[call.id].name == call.args.name
    ensures NamesStay(s.cloud, DoCall(cfg, s, k, call, f).cloud)
  {
    if call.PatchRule? || call.CreateRule? || call.DeleteRule? {
      WrittenNames(s.cloud, s.svcs[k].versions, call, f);
    } else {
      RulesUntouched(cfg, s, k, call, f);
    }
  }

  lemma WrittenNames(c: Cloud, v: Versions, call: Call, f: Fate)
    requires call.PatchRule? || call.CreateRule? || call.DeleteRule?
    requires call.PatchRule? && call.id in c.rules ==> c.rules[call.id].name == call.args.name
    ensures NamesStay(c, ServeRule(c, v, call, f).cloud)
  {
  }

  lemma AppendTracks(c: Cloud, v: Svc, name: Option<string>, o: Option<Object>)
    requires SvcTracks(c, v, name) && Latest(v.versions).Some?
    requires o.Some? ==> Knows(c, o.value.ann, name) && (|Latest(v.versions).value.ingress| > 0 ==> |o.value.ingress| > 0)
    ensures SvcTracks(c, v.(versions := v.versions + [o]), name)
  {
    assert Latest(v.versions) == v.versions[|v.versions| - 1];
  }

  lemma WriteTracks(c: Cloud, v: Svc, name: Option<string>, f: Fate, o: Object)
    requires SvcTracks(c, v, name) && Latest(v.versions).Some?
    requires Knows(c, o.ann, name) && (|Latest(v.versions).value.ingress| > 0 ==> |o.ingress| > 0)
    ensures SvcTracks(c, v.(versions := Write(c, v.versions, f, o).versions), name)
  {
    AppendTracks(c, v, name, Some(o));
    assert v.(versions := v.versions) == v;
  }

  lemma PatchKnows(cfg: Config, c: Cloud, k: Id, v: Svc, diff: Patch<Key, string>, ann: Annotations)
    requires !v.pass.Idle? && Allowed(cfg, k, v.pass, PatchAnn(diff))
    requires SvcTracks(c, v, NameOf(cfg, k)) && Knows(c, ann, NameOf(cfg, k))
    ensures Knows(c, Apply(diff, ann), NameOf(cfg, k))
  {
    var r := Apply(diff, ann);
    assert Get(r, RuleId) == if RuleId in diff then diff[RuleId] else Get(ann, RuleId);
    assert Get(r, OpId) == if OpId in diff then diff[OpId] else Get(ann, OpId);
  }

  lemma ObjectTracks(cfg: Config, c: Cloud, k: Id, v: Svc, call: Call, f: Fate)
    requires SvcInv(cfg, c, k, v) && SvcTracks(c, v, NameOf(cfg, k)) && !v.pass.Idle? && Allowed(cfg, k, v.pass, call)
    requires call.Update? || call.PatchAnn? || call.PatchStatus? || call.FreshGet?
    ensures SvcTracks(c, v.(versions := ServeObject(c, v.versions, PassMem(v.pass), call, f).versions), NameOf(cfg, k))
  {
    assert v.(versions := v.versions) == v;
    if Latest(v.versions).Some? {
      var now := Latest(v.versions).value;
      assert v.versions[|v.versions| - 1] == Some(now);
      if call.Update? {
        UpdateTracks(cfg, c, k, v, call.obj, f);
      } else if call.PatchAnn? {
        PatchKnows(cfg, c, k, v, call.diff, now.ann);
        WriteTracks(c, v, NameOf(cfg, k), f, now.(ann := Apply(call.diff, now.ann)));
      } else if call.PatchStatus? {
        WriteTracks(c, v, NameOf(cfg, k), f, now.(ingress := [call.vip]));
      }
    }
  }

  lemma UpdateTracks(cfg: Config, c: Cloud, k: Id, v: Svc, o: Object, f: Fate)
    requires SvcInv(cfg, c, k, v) && SvcTracks(c, v, NameOf(cfg, k)) && !v.pass.Idle? && Allowed(cfg, k, v.pass, Update(o))
    requires Latest(v.versions).Some?
    ensures SvcTracks(c, v.(versions := ServeObject(c, v.versions, PassMem(v.pass), Update(o), f).versions),
                      NameOf(cfg, k))
  {
    assert v.(versions := v.versions) == v;
    if PassMem(v.pass).version == |v.versions| - 1 {
      assert Latest(v.versions).value == PassMem(v.pass).obj;
      AppendTracks(c, v, NameOf(cfg, k), if o.deletedAt.Some? && !o.finalizer then None else Some(o));
    }
  }

  /* A working pass learns only what is its Service's. */

  lemma LearnMade(cfg: Config, c: Cloud, k: Id, v: Versions, w: Work, call: Call, f: Fate)
    requires WorkKnows(c, w, NameOf(cfg, k)) && AllowedWorking(cfg, k, w, call) && call.CreateRule?
    ensures var r := ServeRule(c, v, call, f);
            WorkKnows(r.cloud, LearnWorking(w, NameOf(cfg, k).GetOr(""), call, r.reply), NameOf(cfg, k))
  {
    var r := ServeRule(c, v, call, f);
    assert NamesStay(c, r.cloud);
    forall o | o in w.made ensures OpKnown(r.cloud, o, NameOf(cfg, k).value) { OpStays(c, r.cloud, o, NameOf(cfg, k).value); }
  }

  lemma LearnListed(cfg: Config, c: Cloud, k: Id, v: Versions, w: Work, f: Fate)
    requires CloudInv(cfg, c) && WorkKnows(c, w, NameOf(cfg, k)) && NameOf(cfg, k).Some?
    ensures WorkKnows(c, LearnWorking(w, NameOf(cfg, k).value, ListRules, ServeRule(c, v, ListRules, f).reply),
                      NameOf(cfg, k))
  {
    var reply := ServeRule(c, v, ListRules, f).reply;
    if reply.RuleList? {
      forall x | x in reply.rules && x.1 == NameOf(cfg, k).value ensures RuleKnown(c, x.0, NameOf(cfg, k).value) {
        var j :| 0 <= j < |f.listed| && reply.rules[j] == x;
        assert f.listed[j] in f.listed;
      }
    }
  }

  lemma LearnRead(cfg: Config, c: Cloud, k: Id, v: Versions, w: Work, call: Call, f: Fate)
    requires WorkKnows(c, w, NameOf(cfg, k)) && Knows(c, w.mem.obj.ann, NameOf(cfg, k)) && call.GetOp?
    ensures WorkKnows(c, LearnWorking(w, NameOf(cfg, k).GetOr(""), call, ServeRule(c, v, call, f).reply), NameOf(cfg, k))
  {
  }

  /** Any other reply teaches nothing about rules. */
  lemma LearnOther(w: Work, name: string, call: Call, reply: Reply)
    requires !call.CreateRule? && !call.ListRules? && !call.GetOp?
    ensures LearnWorking(w, name, call, reply).made == w.made && LearnWorking(w, name, call, reply).found == w.found
  {
  }

  lemma LearnTracks(cfg: Config, s: Sys, k: Id, call: Call, f: Fate)
    requires Inv(cfg, s) && Tracks(cfg, s) && k in s.svcs && s.svcs[k].pass.Working? && Allowed(cfg, k, s.svcs[k].pass, call)
    requires NamesStay(s.cloud, DoCall(cfg, s, k, call, f).cloud)
    ensures var r := DoCall(cfg, s, k, call, f);
            WorkKnows(r.cloud, LearnWorking(s.svcs[k].pass.work, NameOf(cfg, k).GetOr(""), call, r.reply), NameOf(cfg, k))
  {
    var v := s.svcs[k];
    var w := v.pass.work;
    if call.CreateRule? {
      LearnMade(cfg, s.cloud, k, v.versions, w, call, f);
    } else if call.ListRules? {
      LearnListed(cfg, s.cloud, k, v.versions, w, f);
    } else if call.GetOp? {
      MemKnows(cfg, s.cloud, k, v);
      LearnRead(cfg, s.cloud, k, v.versions, w, call, f);
    } else {
      SvcStays(s.cloud, DoCall(cfg, s, k, call, f).cloud, v, NameOf(cfg, k));
      LearnOther(w, NameOf(cfg, k).GetOr(""), call, DoCall(cfg, s, k, call, f).reply);
    }
  }

  /* So does a deleting pass. */

  lemma CleanBegins(cfg: Config, c: Cloud, k: Id, o: Object)
    requires CloudInv(cfg, c) && Knows(c, o.ann, NameOf(cfg, k))
    ensures CleanKnows(c, FwStart(cfg, k, o), NameOf(cfg, k))
  {
  }

  lemma CleanListed(cfg: Config, c: Cloud, k: Id, v: Versions, p: Clean, f: Fate)
    requires CloudInv(cfg, c) && p.fw.AskName? && NameOf(cfg, k).Some?
    ensures CleanKnows(c, LearnCleaning(p, NameOf(cfg, k), ServeRule(c, v, ListRules, f).reply).fw, NameOf(cfg, k))
  {
    var reply, name := ServeRule(c, v, ListRules, f).reply, NameOf(cfg, k).value;
    if reply.RuleList? && FindByName(reply.rules, name).Some? {
      var id := FindByName(reply.rules, name).value;
      var j :| 0 <= j < |f.listed| && reply.rules[j] == (id, name);
      assert f.listed[j] in f.listed;
    }
  }

  lemma CleanAsked(cfg: Config, c: Cloud, k: Id, v: Versions, p: Clean, f: Fate)
    requires p.fw.AskOp? && CleanKnows(c, p.fw, NameOf(cfg, k))
    ensures CleanKnows(c, LearnCleaning(p, NameOf(cfg, k), ServeRule(c, v, GetOp(p.fw.op), f).reply).fw, NameOf(cfg, k))
  {
  }

  /** After any other answer the pass heads for what it headed for, or for nothing yet. */
  lemma CleanOther(c: Cloud, p: Clean, name: Option<string>, reply: Reply)
    requires !p.fw.AskName? && !p.fw.AskOp? && CleanKnows(c, p.fw, name)
    ensures CleanKnows(c, LearnCleaning(p, name, reply).fw, name)
  {
  }

  lemma CleanLearned(cfg: Config, c: Cloud, k: Id, v: Versions, now: Time, p: Clean, call: Call, f: Fate)
    requires CloudInv(cfg, c) && CleanKnows(c, p.fw, NameOf(cfg, k)) && CleanNext(p) == Some(call)
    requires NamesStay(c, Serve(cfg, c, v, now, NameOf(cfg, k).GetOr(""), p.mem, call, f).cloud)
    ensures var r := Serve(cfg, c, v, now, NameOf(cfg, k).GetOr(""), p.mem, call, f);
            CleanKnows(r.cloud, LearnCleaning(p, NameOf(cfg, k), r.reply).fw, NameOf(cfg, k))
  {
    var r := Serve(cfg, c, v, now, NameOf(cfg, k).GetOr(""), p.mem, call, f);
    if p.fw.AskName? {
      CleanListed(cfg, c, k, v, p, f);
    } else if p.fw.AskOp? {
      CleanAsked(cfg, c, k, v, p, f);
    } else {
      PassStays(c, r.cloud, Cleaning(p), NameOf(cfg, k));
      CleanOther(r.cloud, p, NameOf(cfg, k), r.reply);
    }
  }

  lemma CleanTracks(cfg: Config, s: Sys, k: Id, call: Call, f: Fate)
    requires Inv(cfg, s) && Tracks(cfg, s) && k in s.svcs && s.svcs[k].pass.Cleaning? && Allowed(cfg, k, s.svcs[k].pass, call)
    requires NamesStay(s.cloud, DoCall(cfg, s, k, call, f).cloud)
    ensures var r := DoCall(cfg, s, k, call, f);
            CleanKnows(r.cloud, LearnCleaning(s.svcs[k].pass.clean, NameOf(cfg, k), r.reply).fw, NameOf(cfg, k))
  {
    CleanLearned(cfg, s.cloud, k, s.svcs[k].versions, s.now, s.svcs[k].pass.clean, call, f);
  }

  /** What the pass last read is a stored state, and so tracks its own. */
  lemma MemKnows(cfg: Config, c: Cloud, k: Id, v: Svc)
    requires SvcInv(cfg, c, k, v) && SvcTracks(c, v, NameOf(cfg, k)) && v.pass.Working?
    ensures Knows(c, v.pass.work.mem.obj.ann, NameOf(cfg, k))
  {
    assert Knows(c, v.versions[v.pass.work.mem.version].value.ann, NameOf(cfg, k));
  }

  /* ---- Every run ---- */

  /** The stored states a call leaves behind. */
  lemma CallTracks(cfg: Config, s: Sys, k: Id, call: Call, f: Fate)
    requires Inv(cfg, s) && Tracks(cfg, s) && k in s.svcs && !s.svcs[k].pass.Idle? && Allowed(cfg, k, s.svcs[k].pass, call)
    ensures var r := DoCall(cfg, s, k, call, f);
            SvcTracks(s.cloud, s.svcs[k].(versions := r.versions), NameOf(cfg, k))
  {
    var v := s.svcs[k];
    if call.Update? || call.PatchAnn? || call.PatchStatus? || call.FreshGet? {
      ObjectTracks(cfg, s.cloud, k, v, call, f);
    } else {
      OtherVersions(cfg, s, k, call, f);
      assert v.(versions := v.versions) == v;
    }
  }

  lemma PassTracks(c: Cloud, v: Svc, name: Option<string>, p: Pass)
    requires SvcTracks(c, v, name) && PassKnows(c, p, name)
    ensures SvcTracks(c, v.(pass := p), name)
  {
  }

  lemma LearnedTracks(cfg: Config, s: Sys, k: Id, call: Call, f: Fate)
    requires Inv(cfg, s) && Tracks(cfg, s) && k in s.svcs && !s.svcs[k].pass.Idle? && Allowed(cfg, k, s.svcs[k].pass, call)
    requires NamesStay(s.cloud, DoCall(cfg, s, k, call, f).cloud)
    ensures var r := DoCall(cfg, s, k, call, f);
            PassKnows(r.cloud, Learn(cfg, k, s.svcs[k].pass, call, r.reply), NameOf(cfg, k))
  {
    if s.svcs[k].pass.Working? { LearnTracks(cfg, s, k, call, f); } else { CleanTracks(cfg, s, k, call, f); }
  }

  lemma DoTracks(cfg: Config, s: Sys, k: Id, call: Call, f: Fate)
    requires Inv(cfg, s) && Tracks(cfg, s) && k in s.svcs && !s.svcs[k].pass.Idle? && Allowed(cfg, k, s.svcs[k].pass, call)
    ensures Tracks(cfg, Step(cfg, s, Do(k, call, f)))
  {
    var r, v := DoCall(cfg, s, k, call, f), s.svcs[k];
    CallNames(cfg, s, k, call, f);
    CallTracks(cfg, s, k, call, f);
    LearnedTracks(cfg, s, k, call, f);
    SvcStays(s.cloud, r.cloud, v.(versions := r.versions), NameOf(cfg, k));
    PassTracks(r.cloud, v.(versions := r.versions), NameOf(cfg, k), Learn(cfg, k, v.pass, call, r.reply));
    AllTrack(cfg, s, r.cloud, k, v.(versions := r.versions, pass := Learn(cfg, k, v.pass, call, r.reply)));
  }

  lemma AllTrack(cfg: Config, s: Sys, c: Cloud, k: Id, v: Svc)
    requires Tracks(cfg, s) && NamesStay(s.cloud, c) && SvcTracks(c, v, NameOf(cfg, k))
    ensures Tracks(cfg, s.(cloud := c, svcs := s.svcs[k := v]))
  {
    forall j | j in s.svcs ensures SvcTracks(c, s.svcs[j], NameOf(cfg, j)) { SvcStays(s.cloud, c, s.svcs[j], NameOf(cfg, j)); }
  }

  lemma CloudTracks(cfg: Config, s: Sys, c: Cloud)
    requires Tracks(cfg, s) && NamesStay(s.cloud, c)
    ensures Tracks(cfg, s.(cloud := c))
  {
    forall j | j in s.svcs ensures SvcTracks(c, s.svcs[j], NameOf(cfg, j)) { SvcStays(s.cloud, c, s.svcs[j], NameOf(cfg, j)); }
  }

  lemma UserTracks(cfg: Config, s: Sys, a: Action)
    requires Tracks(cfg, s) && (a.UserEdits? || a.UserDeletes?)
    ensures Tracks(cfg, Step(cfg, s, a))
  {
    if a.k in s.svcs && Latest(s.svcs[a.k].versions).Some? {
      var v, name := s.svcs[a.k], NameOf(cfg, a.k);
      var now := Latest(v.versions).value;
      assert v.versions[|v.versions| - 1] == Some(now);
      match a
      case UserEdits(_, spec, ann) =>
        if UserOnly(ann, now.ann) { AppendTracks(s.cloud, v, name, Some(now.(spec := spec, ann := ann))); }
      case UserDeletes(_) =>
        AppendTracks(s.cloud, v, name, if now.finalizer then Some(now.(deletedAt := Some(s.now))) else None);
    }
  }

  lemma EventTracks(cfg: Config, s: Sys, a: Action)
    requires Inv(cfg, s) && Tracks(cfg, s) && (a.OpSettles? || a.OpAges? || a.RuleDropped?)
    ensures Tracks(cfg, Step(cfg, s, a))
  {
    var c := Step(cfg, s, a).cloud;
    if a.OpSettles? { SettleNames(cfg, s.cloud, a); } else { DroppedNames(s.cloud, c); }
    CloudTracks(cfg, s, c);
  }

  lemma StepTracks(cfg: Config, s: Sys, a: Action)
    requires Inv(cfg, s) && Tracks(cfg, s)
    ensures Tracks(cfg, Step(cfg, s, a))
  {
    if a.Do? {
      if a.k in s.svcs && !s.svcs[a.k].pass.Idle? && Allowed(cfg, a.k, s.svcs[a.k].pass, a.call) {
        DoTracks(cfg, s, a.k, a.call, a.fate);
      }
    } else if a.UserEdits? || a.UserDeletes? {
      UserTracks(cfg, s, a);
    } else if a.OpSettles? || a.OpAges? || a.RuleDropped? {
      EventTracks(cfg, s, a);
    } else if a.Begin? {
      BeginTracks(cfg, s, a.k);
    } else {
      QuietTracks(cfg, s, a);
    }
  }

  lemma BeginTracks(cfg: Config, s: Sys, k: Id)
    requires Inv(cfg, s) && Tracks(cfg, s)
    ensures Tracks(cfg, Step(cfg, s, Begin(k)))
  {
    if k in s.svcs && s.svcs[k].pass.Idle? {
      var v := s.svcs[k];
      var snapshot := v.versions[v.seen];
      if snapshot.Some? { CleanBegins(cfg, s.cloud, k, snapshot.value); }
      AllTrack(cfg, s, s.cloud, k, v.(cleaned := v.cleaned || Deleted(snapshot), pass := StartPass(cfg, k, v.seen, snapshot)));
    }
  }

  lemma QuietTracks(cfg: Config, s: Sys, a: Action)
    requires Tracks(cfg, s) && (a.End? || a.CacheAdvances? || a.TimePasses?)
    ensures Tracks(cfg, Step(cfg, s, a))
  {
  }

  lemma {:induction false} RunTracks(cfg: Config, s: Sys, acts: seq<Action>)
    requires ValidConfig(cfg) && Inv(cfg, s) && Tracks(cfg, s)
    ensures Tracks(cfg, Run(cfg, s, acts))
    decreases |acts|
  {
    if |acts| > 0 {
      RunTracks(cfg, s, acts[..|acts| - 1]);
      RunInv(cfg, s, acts[..|acts| - 1]);
      StepTracks(cfg, Run(cfg, s, acts[..|acts| - 1]), acts[|acts| - 1]);
    }
  }

  lemma InitTracks(cfg: Config, s: Sys)
    requires Init(cfg, s)
    ensures Tracks(cfg, s)
  {
  }

  /** In every run a Service records only its own: the rule id is that of a rule of its name or of
      one gone, the operation id is that of a create of its name, and no published external IP is
      withdrawn. */
  lemma RecordsOwnRule(cfg: Config, s0: Sys, acts: seq<Action>, k: Id, n: nat)
    requires ValidConfig(cfg) && Init(cfg, s0)
    requires var s := Run(cfg, s0, acts); k in s.svcs && n < |s.svcs[k].versions| && s.svcs[k].versions[n].Some?
    ensures var s := Run(cfg, s0, acts); var o := s.svcs[k].versions[n].value;
            && (RuleId in o.ann || OpId in o.ann ==> NameOf(cfg, k).Some? && Own(s.cloud, o.ann, NameOf(cfg, k).value))
            && (OpId in o.ann ==> o.ann[OpId] in s.cloud.ops)
            && (|o.ingress| > 0 && Latest(s.svcs[k].versions).Some? ==> |Latest(s.svcs[k].versions).value.ingress| > 0)
  {
    InitInv(cfg, s0);
    InitTracks(cfg, s0);
    RunTracks(cfg, s0, acts);
    var s := Run(cfg, s0, acts);
    assert SvcTracks(s.cloud, s.svcs[k], NameOf(cfg, k));
  }

  /** A call changes or deletes no rule but the Service's own. */
  ghost predicate OnOwnRule(c: Cloud, name: Option<string>, call: Call) {
    && (call.DeleteRule? && call.id in c.rules ==> name.Some? && RuleNamed(c, call.id, name.value))
    && (call.PatchRule? ==>
          name == Some(call.args.name) && (call.id in c.rules ==> RuleNamed(c, call.id, call.args.name)))
    && (call.CreateRule? ==> name == Some(call.args.name))
  }

  lemma AllowedOnOwn(cfg: Config, c: Cloud, k: Id, v: Svc, call: Call)
    requires SvcInv(cfg, c, k, v) && SvcTracks(c, v, NameOf(cfg, k)) && !v.pass.Idle? && Allowed(cfg, k, v.pass, call)
    ensures OnOwnRule(c, NameOf(cfg, k), call)
  {
    if call.PatchRule? {
      PatchKeepsName(cfg, c, k, v, call);
      MemKnows(cfg, c, k, v);
    }
  }

  /** In every run the only rule a pass can patch, delete or create is that of its own Service. */
  lemma ActsOnOwnRule(cfg: Config, s0: Sys, acts: seq<Action>, k: Id, call: Call)
    requires ValidConfig(cfg) && Init(cfg, s0)
    requires var s := Run(cfg, s0, acts); k in s.svcs && !s.svcs[k].pass.Idle? && Allowed(cfg, k, s.svcs[k].pass, call)
    ensures OnOwnRule(Run(cfg, s0, acts).cloud, NameOf(cfg, k), call)
  {
    InitInv(cfg, s0);
    InitTracks(cfg, s0);
    RunInv(cfg, s0, acts);
    RunTracks(cfg, s0, acts);
    var s := Run(cfg, s0, acts);
    AllowedOnOwn(cfg, s.cloud, k, s.svcs[k], call);
  }
}
