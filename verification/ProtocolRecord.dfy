/** The recorded protocol: written once, unless the controller may not read the stored Service and
    the API does not report protocols. */
module ProtocolRecord {
  import opened Wrappers
  import opened MergePatch
  import opened Ports
  import opened Polling
  import opened Model
  import opened Protocol
  import opened Invariant
  import opened InvariantProof
  import opened Theorems

  /** k's pass goes on although it may not read the stored Service. */
  predicate Blind(s: Sys, k: Id) { k in s.svcs && s.svcs[k].pass.Working? && s.svcs[k].pass.work.read.Forbidden? }

  /** Some pass of k along the run was blind. */
  ghost predicate WasBlind(cfg: Config, s: Sys, acts: seq<Action>, k: Id) {
    exists n: nat :: n <= |acts| && Blind(Run(cfg, s, acts[..n]), k)
  }

  predicate Records(o: Option<Object>) { o.Some? && LbProtocol in o.value.ann }

  predicate OneRecord(v: Versions) {
    forall i, j | 0 <= i < |v| && 0 <= j < |v| && Records(v[i]) && Records(v[j]) ::
      v[i].value.ann[LbProtocol] == v[j].value.ann[LbProtocol]
  }

  /** The protocol the Service, as the pass knows it, asks for. */
  predicate AsksFor(w: Work, protocol: string) { Derive(w.mem.obj.spec.ports) == Serves(protocol) }

  /** As long as the pass knows of no record, all it could write, and all written since its direct read,
      is the protocol the Service asks for. */
  predicate Sighted(v: Versions, w: Work) {
    && !w.read.Forbidden?
    && (!w.read.Confirmed? ==> w.mine == map[] && w.asked.None?)
    && (LbId !in w.mem.obj.ann ==>
          && (forall id | id in w.mine && w.mine[id].Some? :: AsksFor(w, w.mine[id].value))
          && (w.asked.Some? ==> AsksFor(w, w.asked.value.protocol))
          && (w.read.Confirmed? ==> forall i | 0 <= i < |v| && Records(v[i]) :: AsksFor(w, v[i].value.ann[LbProtocol])))
  }

  predicate RecordsOnce(v: Svc) { OneRecord(v.versions) && (v.pass.Working? ==> Sighted(v.versions, v.pass.work)) }

  /* ---- What a pass learns ---- */

  lemma {:induction false} ViewsClaimNothing(mine: map<Id, Option<string>>, views: seq<LbView>, name: string, id: Id)
    requires forall x | x in views :: !Known(x.protocol)
    requires Get(LearnViews(mine, views, name), id).Some? && LearnViews(mine, views, name)[id].Some?
    ensures Get(mine, id) == Get(LearnViews(mine, views, name), id)
    decreases |views|
  {
    if |views| > 0 {
      ViewsClaimNothing(if views[0].name == name then mine[views[0].id := Claim(views[0].protocol)] else mine, views[1..],
                        name, id);
    }
  }

  lemma {:induction false} PollsClaimAsked(mine: map<Id, Option<string>>, script: seq<Poll<LbOperation>>,
                                            protocol: string, id: Id)
    requires id in LearnPolls(mine, script, protocol)
    ensures Get(mine, id) == Get(LearnPolls(mine, script, protocol), id) ||
            LearnPolls(mine, script, protocol)[id] == Some(protocol)
    decreases |script|
  {
    if |script| > 0 {
      PollsClaimAsked(if script[0].Answer? then LearnOp(mine, script[0].op, protocol) else mine, script[1..], protocol, id);
    }
  }

  /* ---- The stored states ---- */

  /** A state with the protocol recorded so far, or one the pass knows the Service to ask for. */
  lemma AppendSame(cfg: Config, c: Cloud, k: Id, v: Svc, o: Option<Object>)
    requires SvcInv(cfg, c, k, v) && RecordsOnce(v) && Latest(v.versions).Some?
    requires o.Some? ==> Get(o.value.ann, LbProtocol) == Get(Latest(v.versions).value.ann, LbProtocol)
    ensures RecordsOnce(v.(versions := v.versions + [o]))
  {
    var n := |v.versions|;
    assert Latest(v.versions) == v.versions[n - 1];
  }

  /** The first record is for the protocol asked for; whoever repeats it asks for the same. */
  lemma AppendRecord(v: Svc, o: Object)
    requires RecordsOnce(v) && v.pass.Working? && v.pass.work.read.Confirmed? && LbId !in v.pass.work.mem.obj.ann
    requires LbProtocol in o.ann && AsksFor(v.pass.work, o.ann[LbProtocol])
    ensures RecordsOnce(v.(versions := v.versions + [Some(o)]))
  {
  }

  /** A recording patch writes the protocol the Service asks for. */
  lemma WrittenProtocol(cfg: Config, c: Cloud, k: Id, v: Svc, diff: Patch<Key, string>, ann: Annotations)
    requires SvcInv(cfg, c, k, v) && v.pass.Working? && Sighted(v.versions, v.pass.work) && RecordsLb(v.pass.work, diff)
    ensures var r := Apply(diff, ann);
            LbId in r && LbProtocol in r && AsksFor(v.pass.work, r[LbProtocol]) && v.pass.work.read.Confirmed?
  {
    var w := v.pass.work;
    assert RecordOk(cfg, c, k, v.versions[w.mem.version].value.ann);
    var mem, id := w.mem.obj.ann, diff[LbId].value;
    var protocol := if LbProtocol in diff then diff[LbProtocol].GetOr("") else Text(mem, LbProtocol);
    PatchExact(mem, mem[LbId := id][LbProtocol := protocol], ann);
    var r := Apply(diff, ann);
    assert Get(r, LbId) == Some(id) && Get(r, LbProtocol) == Some(protocol);
  }

  lemma PatchRecords(cfg: Config, c: Cloud, k: Id, v: Svc, diff: Patch<Key, string>, f: Fate)
    requires SvcInv(cfg, c, k, v) && RecordsOnce(v) && !v.pass.Idle? && Allowed(cfg, k, v.pass, PatchAnn(diff))
    requires Latest(v.versions).Some?
    ensures var now := Latest(v.versions).value;
            RecordsOnce(v.(versions := v.versions + [Some(now.(ann := Apply(diff, now.ann)))]))
  {
    var now := Latest(v.versions).value;
    var r := Apply(diff, now.ann);
    if v.pass.Working? && RecordsLb(v.pass.work, diff) {
      WrittenProtocol(cfg, c, k, v, diff, now.ann);
      AppendRecord(v, now.(ann := r));
    } else {
      assert LbProtocol !in diff;
      assert Get(r, LbProtocol) == Get(now.ann, LbProtocol);
      AppendSame(cfg, c, k, v, Some(now.(ann := r)));
    }
  }

  lemma UpdateRecords(cfg: Config, c: Cloud, k: Id, v: Svc, o: Object, f: Fate)
    requires SvcInv(cfg, c, k, v) && RecordsOnce(v) && !v.pass.Idle? && Allowed(cfg, k, v.pass, Update(o))
    ensures RecordsOnce(v.(versions := ServeObject(c, v.versions, PassMem(v.pass), Update(o), f).versions))
  {
    assert v.(versions := v.versions) == v;
    if Latest(v.versions).Some? && PassMem(v.pass).version == |v.versions| - 1 {
      assert Latest(v.versions).value == PassMem(v.pass).obj;
      AppendSame(cfg, c, k, v, if o.deletedAt.Some? && !o.finalizer then None else Some(o));
    }
  }

  lemma StoredRecords(cfg: Config, c: Cloud, k: Id, v: Svc, call: Call, f: Fate)
    requires SvcInv(cfg, c, k, v) && RecordsOnce(v) && !v.pass.Idle? && Allowed(cfg, k, v.pass, call)
    requires call.Update? || call.PatchAnn? || call.PatchStatus? || call.FreshGet?
    ensures RecordsOnce(v.(versions := ServeObject(c, v.versions, PassMem(v.pass), call, f).versions))
  {
    assert v.(versions := v.versions) == v;
    if call.Update? {
      UpdateRecords(cfg, c, k, v, call.obj, f);
    } else if Latest(v.versions).Some? {
      var now := Latest(v.versions).value;
      if call.PatchAnn? {
        PatchRecords(cfg, c, k, v, call.diff, f);
      } else {
        AppendSame(cfg, c, k, v, Some(now.(ingress := if call.PatchStatus? then [call.vip] else now.ingress)));
      }
    }
  }

  /* ---- What the pass knows afterwards ---- */

  /** The newest state records a load balancer if any does. */
  lemma NewestRecords(cfg: Config, c: Cloud, k: Id, v: Svc)
    requires SvcInv(cfg, c, k, v) && Latest(v.versions).Some?
    ensures forall i | 0 <= i < |v.versions| && v.versions[i].Some? && LbId in v.versions[i].value.ann ::
              LbId in Latest(v.versions).value.ann
    ensures forall i | 0 <= i < |v.versions| && Records(v.versions[i]) :: LbId in Latest(v.versions).value.ann
  {
    assert Latest(v.versions) == v.versions[|v.versions| - 1];
    forall i | 0 <= i < |v.versions| && Records(v.versions[i]) ensures LbId in v.versions[i].value.ann {
      assert RecordOk(cfg, c, k, v.versions[i].value.ann);
    }
  }

  lemma FreshSighted(cfg: Config, c: Cloud, k: Id, v: Svc, f: Fate)
    requires SvcInv(cfg, c, k, v) && RecordsOnce(v) && v.pass.Working? && v.pass.work.read.Unread?
    requires var r := ServeObject(c, v.versions, v.pass.work.mem, FreshGet, f);
             !LearnWorking(v.pass.work, NameOf(cfg, k).GetOr(""), FreshGet, r.reply).read.Forbidden?
    ensures var r := ServeObject(c, v.versions, v.pass.work.mem, FreshGet, f);
            Sighted(v.versions, LearnWorking(v.pass.work, NameOf(cfg, k).GetOr(""), FreshGet, r.reply))
  {
    var r := ServeObject(c, v.versions, v.pass.work.mem, FreshGet, f);
    if r.reply.Found? { NewestRecords(cfg, c, k, v); }
  }

  /** After a write is heard, the pass knows of the record, or has the same ports and annotations as before. */
  lemma WriteSighted(cfg: Config, c: Cloud, k: Id, v: Svc, call: Call, f: Fate)
    requires SvcInv(cfg, c, k, v) && v.pass.Working? && AllowedWorking(cfg, k, v.pass.work, call)
    requires call.Update? || call.PatchAnn? || call.PatchStatus?
    requires Sighted(v.versions, v.pass.work)
    ensures var r := ServeObject(c, v.versions, v.pass.work.mem, call, f);
            r.reply.Stored? ==>
              LbId in r.reply.copy.obj.ann ||
              (r.reply.copy.obj.spec == v.pass.work.mem.obj.spec && LbId !in v.pass.work.mem.obj.ann)
  {
    var w := v.pass.work;
    if Latest(v.versions).Some? && !call.Update? {
      var now := Latest(v.versions).value;
      assert MemOk(v.versions, w.mem);
      NewestRecords(cfg, c, k, v);
      if call.PatchAnn? {
        if RecordsLb(w, call.diff) { WrittenProtocol(cfg, c, k, v, call.diff, now.ann); }
        assert Get(Apply(call.diff, now.ann), LbId) == if LbId in call.diff then call.diff[LbId] else Get(now.ann, LbId);
      }
    }
  }

  lemma ObjectRecords(cfg: Config, c: Cloud, k: Id, v: Svc, call: Call, f: Fate)
    requires SvcInv(cfg, c, k, v) && RecordsOnce(v) && !v.pass.Idle? && Allowed(cfg, k, v.pass, call)
    requires call.Update? || call.PatchAnn? || call.PatchStatus? || call.FreshGet?
    requires var p := Learn(cfg, k, v.pass, call, ServeObject(c, v.versions, PassMem(v.pass), call, f).reply);
             !(p.Working? && p.work.read.Forbidden?)
    ensures var r := ServeObject(c, v.versions, PassMem(v.pass), call, f);
            RecordsOnce(v.(versions := r.versions, pass := Learn(cfg, k, v.pass, call, r.reply)))
  {
    StoredRecords(cfg, c, k, v, call, f);
    if v.pass.Working? {
      if call.FreshGet? {
        FreshSighted(cfg, c, k, v, f);
      } else {
        WriteSighted(cfg, c, k, v, call, f);
      }
    }
  }

  /* ---- Calls on the cloud ---- */

  lemma LookupSighted(v: Versions, w: Work, name: string, reply: Reply)
    requires Sighted(v, w) && w.read.Confirmed?
    requires reply.Lbs? ==> forall x | x in reply.items :: !Known(x.protocol)
    ensures !reply.Stored? ==> Sighted(v, LearnWorking(w, name, LookupLb, reply))
  {
    var w' := LearnWorking(w, name, LookupLb, reply);
    if reply.Lbs? {
      forall id | id in w'.mine && w'.mine[id].Some? ensures id in w.mine && w.mine[id] == w'.mine[id] {
        ViewsClaimNothing(w.mine, reply.items, name, id);
      }
    }
  }

  lemma AwaitSighted(v: Versions, w: Work, name: string, call: Call, reply: Reply)
    requires Sighted(v, w) && call.AwaitLb? && w.asked.Some? && reply.Polls?
    ensures Sighted(v, LearnWorking(w, name, call, reply))
  {
    var w' := LearnWorking(w, name, call, reply);
    forall id | id in w'.mine && w'.mine[id].Some?
      ensures (id in w.mine && w.mine[id] == w'.mine[id]) || w'.mine[id] == Some(w.asked.value.protocol)
    {
      PollsClaimAsked(w.mine, reply.script, w.asked.value.protocol, id);
    }
  }

  /** What a list, a create or its operation teaches a pass that has read the stored Service. */
  lemma CloudSighted(cfg: Config, c: Cloud, k: Id, v: Svc, call: Call, f: Fate)
    requires v.pass.Working? && Sighted(v.versions, v.pass.work) && !cfg.reports
    requires AllowedWorking(cfg, k, v.pass.work, call) && (call.LookupLb? || call.CreateLb? || call.AwaitLb?)
    ensures var r := ServeLb(cfg, c, v.versions, NameOf(cfg, k).GetOr(""), call, f);
            Sighted(v.versions, LearnWorking(v.pass.work, NameOf(cfg, k).GetOr(""), call, r.reply))
  {
    var w, name := v.pass.work, NameOf(cfg, k).GetOr("");
    var r := ServeLb(cfg, c, v.versions, name, call, f);
    if call.LookupLb? {
      LookupSighted(v.versions, w, name, r.reply);
    } else if call.AwaitLb? {
      AwaitSighted(v.versions, w, name, call, r.reply);
    }
  }

  lemma OtherSighted(w: Work, name: string, call: Call, reply: Reply)
    requires !call.Update? && !call.PatchAnn? && !call.PatchStatus? && !call.FreshGet?
    requires !call.LookupLb? && !call.CreateLb? && !call.AwaitLb? && !reply.Stored?
    ensures var w' := LearnWorking(w, name, call, reply);
            w' == w.(made := w'.made, found := w'.found, vips := w'.vips)
  {
  }

  lemma OtherReply(cfg: Config, s: Sys, k: Id, call: Call, f: Fate)
    requires k in s.svcs && !s.svcs[k].pass.Idle?
    requires !call.Update? && !call.PatchAnn? && !call.PatchStatus? && !call.FreshGet?
    ensures var r := DoCall(cfg, s, k, call, f); r.versions == s.svcs[k].versions && !r.reply.Stored?
  {
  }

  lemma CloudRecords(cfg: Config, s: Sys, k: Id, call: Call, f: Fate)
    requires Inv(cfg, s) && !cfg.reports && k in s.svcs && RecordsOnce(s.svcs[k])
    requires !s.svcs[k].pass.Idle? && Allowed(cfg, k, s.svcs[k].pass, call)
    requires !call.Update? && !call.PatchAnn? && !call.PatchStatus? && !call.FreshGet?
    ensures var r, v := DoCall(cfg, s, k, call, f), s.svcs[k];
            RecordsOnce(v.(versions := r.versions, pass := Learn(cfg, k, v.pass, call, r.reply)))
  {
    var r, v := DoCall(cfg, s, k, call, f), s.svcs[k];
    OtherReply(cfg, s, k, call, f);
    if v.pass.Working? {
      if call.LookupLb? || call.CreateLb? || call.AwaitLb? {
        CloudSighted(cfg, s.cloud, k, v, call, f);
      } else {
        OtherSighted(v.pass.work, NameOf(cfg, k).GetOr(""), call, r.reply);
      }
    }
  }

  /* ---- Every run ---- */

  lemma DoRecords(cfg: Config, s: Sys, k: Id, call: Call, f: Fate)
    requires Inv(cfg, s) && !cfg.reports && k in s.svcs && RecordsOnce(s.svcs[k])
    requires !s.svcs[k].pass.Idle? && Allowed(cfg, k, s.svcs[k].pass, call)
    requires !Blind(Step(cfg, s, Do(k, call, f)), k)
    ensures RecordsOnce(Step(cfg, s, Do(k, call, f)).svcs[k])
  {
    if call.Update? || call.PatchAnn? || call.PatchStatus? || call.FreshGet? {
      ObjectRecords(cfg, s.cloud, k, s.svcs[k], call, f);
    } else {
      CloudRecords(cfg, s, k, call, f);
    }
  }

  lemma UserRecords(cfg: Config, s: Sys, a: Action)
    requires Inv(cfg, s) && (a.UserEdits? || a.UserDeletes?) && a.k in s.svcs && RecordsOnce(s.svcs[a.k])
    ensures RecordsOnce(Step(cfg, s, a).svcs[a.k])
  {
    var v := s.svcs[a.k];
    if Latest(v.versions).Some? {
      var now := Latest(v.versions).value;
      match a
      case UserEdits(_, spec, ann) =>
        if UserOnly(ann, now.ann) { AppendSame(cfg, s.cloud, a.k, v, Some(now.(spec := spec, ann := ann))); }
      case UserDeletes(_) =>
        AppendSame(cfg, s.cloud, a.k, v, if now.finalizer then Some(now.(deletedAt := Some(s.now))) else None);
    }
  }

  lemma QuietRecords(cfg: Config, s: Sys, a: Action, k: Id)
    requires k in s.svcs && RecordsOnce(s.svcs[k]) && !a.UserEdits? && !a.UserDeletes?
    requires a.Do? ==> a.k != k || s.svcs[k].pass.Idle? || !Allowed(cfg, k, s.svcs[k].pass, a.call)
    ensures k in Step(cfg, s, a).svcs && RecordsOnce(Step(cfg, s, a).svcs[k])
  {
  }

  lemma StepRecords(cfg: Config, s: Sys, a: Action, k: Id)
    requires Inv(cfg, s) && !cfg.reports && k in s.svcs && RecordsOnce(s.svcs[k]) && !Blind(Step(cfg, s, a), k)
    ensures k in Step(cfg, s, a).svcs && RecordsOnce(Step(cfg, s, a).svcs[k])
  {
    if a.Do? && a.k == k && !s.svcs[k].pass.Idle? && Allowed(cfg, k, s.svcs[k].pass, a.call) {
      DoRecords(cfg, s, k, a.call, a.fate);
    } else if a.UserEdits? || a.UserDeletes? {
      if a.k == k { UserRecords(cfg, s, a); }
    } else {
      QuietRecords(cfg, s, a, k);
    }
  }

  lemma BlindSeen(cfg: Config, s: Sys, acts: seq<Action>, k: Id)
    requires |acts| > 0
    ensures WasBlind(cfg, s, acts[..|acts| - 1], k) ==> WasBlind(cfg, s, acts, k)
    ensures Blind(Run(cfg, s, acts), k) ==> WasBlind(cfg, s, acts, k)
  {
    var before := acts[..|acts| - 1];
    if n: nat :| n <= |before| && Blind(Run(cfg, s, before[..n]), k) {
      assert before[..n] == acts[..n];
    }
    assert acts[..|acts|] == acts;
  }

  lemma {:induction false} RunRecords(cfg: Config, s: Sys, acts: seq<Action>, k: Id)
    requires ValidConfig(cfg) && Inv(cfg, s) && !cfg.reports && k in s.svcs && RecordsOnce(s.svcs[k])
    requires !WasBlind(cfg, s, acts, k)
    ensures k in Run(cfg, s, acts).svcs && RecordsOnce(Run(cfg, s, acts).svcs[k])
    decreases |acts|
  {
    if |acts| > 0 {
      var before := acts[..|acts| - 1];
      BlindSeen(cfg, s, acts, k);
      RunRecords(cfg, s, before, k);
      RunInv(cfg, s, before);
      StepRecords(cfg, Run(cfg, s, before), acts[|acts| - 1], k);
    }
  }

  /** A recorded protocol is never rewritten, whatever happens, unless the API does not report protocols
      and, on top of that, some pass of the Service went on although it could not read the stored Service. */
  lemma ProtocolNeverRewritten(cfg: Config, s0: Sys, acts: seq<Action>, k: Id, i: nat, j: nat)
    requires ValidConfig(cfg) && Init(cfg, s0)
    requires var s := Run(cfg, s0, acts);
             k in s.svcs && i <= j < |s.svcs[k].versions| && Records(s.svcs[k].versions[i]) && s.svcs[k].versions[j].Some?
    ensures var v := Run(cfg, s0, acts).svcs[k].versions;
            || Get(v[j].value.ann, LbProtocol) == Get(v[i].value.ann, LbProtocol)
            || (!cfg.reports && WasBlind(cfg, s0, acts, k))
  {
    InitInv(cfg, s0);
    if cfg.reports {
      ReportedNeverRewritten(cfg, s0, acts, k, i, j);
    } else if !WasBlind(cfg, s0, acts, k) {
      SameServices(cfg, s0, acts);
      RunRecords(cfg, s0, acts, k);
      RunInv(cfg, s0, acts);
      RecordStays(cfg, Run(cfg, s0, acts).cloud, k, Run(cfg, s0, acts).svcs[k], i, j);
    }
  }

  lemma RecordStays(cfg: Config, c: Cloud, k: Id, v: Svc, i: nat, j: nat)
    requires SvcInv(cfg, c, k, v) && i <= j < |v.versions| && Records(v.versions[i]) && v.versions[j].Some?
    ensures Records(v.versions[j])
  {
    assert RecordOk(cfg, c, k, v.versions[i].value.ann) && RecordOk(cfg, c, k, v.versions[j].value.ann);
  }
}
