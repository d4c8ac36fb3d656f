/** The invariant is kept by every action. */
module InvariantSteps {
  import opened Wrappers
  import opened Ports
  import opened Polling
  import opened Model
  import opened Protocol
  import opened Invariant

  /* ---- Learning from the cloud ---- */

  lemma {:induction false} LearnViewsOk(cfg: Config, c: Cloud, k: Id, mine: map<Id, Option<string>>,
                                        views: seq<LbView>, name: string)
    requires Mine(cfg, c, k, mine) && NameOf(cfg, k) == Some(name) && CloudInv(cfg, c)
    requires forall v | v in views :: Shows(cfg, c, v)
    ensures Mine(cfg, c, k, LearnViews(mine, views, name))
    decreases |views|
  {
    if |views| > 0 {
      var v := views[0];
      assert v in views && Shows(cfg, c, v);
      var mine' := if v.name == name then mine[v.id := Claim(v.protocol)] else mine;
      forall id | id in mine' ensures MineOk(cfg, c, k, id, mine'[id]) {
        if v.name == name && id == v.id {
          assert NamedLb(c, id, name);
          assert Known(c.lbs[id].protocol);
        } else {
          assert MineOk(cfg, c, k, id, mine[id]);
        }
      }
      LearnViewsOk(cfg, c, k, mine', views[1..], name);
    }
  }

  lemma LearnOpOk(cfg: Config, c: Cloud, k: Id, mine: map<Id, Option<string>>, op: LbOperation, a: Asked,
                  vip: string)
    requires Mine(cfg, c, k, mine) && AskedOk(cfg, c, k, a)
    ensures Mine(cfg, c, k, LearnOp(mine, Truthful(op, c.lbOps[a.op], vip), a.protocol))
  {
    var own, t := c.lbOps[a.op], Truthful(op, c.lbOps[a.op], vip);
    var mine' := LearnOp(mine, t, a.protocol);
    forall id | id in mine' ensures MineOk(cfg, c, k, id, mine'[id]) {
      if t.state == "SUCCEEDED" && t.result.Decoded? && id == t.result.id {
        assert own.Some?;
        assert NamedLb(c, own.value, NameOf(cfg, k).value);
      } else {
        assert MineOk(cfg, c, k, id, mine[id]);
      }
    }
  }

  lemma {:induction false} LearnPollsOk(cfg: Config, c: Cloud, k: Id, mine: map<Id, Option<string>>,
                                        script: seq<Poll<LbOperation>>, polls: seq<Poll<LbOperation>>, a: Asked, vip: string)
    requires Mine(cfg, c, k, mine) && AskedOk(cfg, c, k, a)
    requires |script| == |polls| && forall i | 0 <= i < |polls| :: script[i] == TruthfulPoll(polls[i], c.lbOps[a.op], vip)
    ensures Mine(cfg, c, k, LearnPolls(mine, script, a.protocol))
    decreases |script|
  {
    if |script| > 0 {
      assert script[0] == TruthfulPoll(polls[0], c.lbOps[a.op], vip);
      if script[0].Answer? {
        LearnOpOk(cfg, c, k, mine, polls[0].op, a, vip);
      }
      var mine' := if script[0].Answer? then LearnOp(mine, script[0].op, a.protocol) else mine;
      LearnPollsOk(cfg, c, k, mine', script[1..], polls[1..], a, vip);
    }
  }

  /* ---- Load balancer calls ---- */

  /** What a call on the cloud leaves behind: for the caller, whose pass learns from the reply, and
      for everybody else. */
  ghost predicate CloudOk(cfg: Config, c: Cloud, k: Id, v: Svc, call: Call, r: Served) {
    && r.versions == v.versions && CloudInv(cfg, r.cloud)
    && SvcInv(cfg, r.cloud, k, v.(pass := Learn(cfg, k, v.pass, call, r.reply)))
    && forall j | NameOf(cfg, j).None? || NameOf(cfg, j) != NameOf(cfg, k) :: LbStable(c, r.cloud, NameOf(cfg, j))
  }

  /** Replacing the pass is a matter of the new pass alone. */
  lemma PassChange(cfg: Config, c: Cloud, k: Id, v: Svc, p: Pass)
    requires SvcInv(cfg, c, k, v)
    requires p.Working? ==> WorkInv(cfg, c, k, v, p.work)
    requires p.Cleaning? ==> CleanInv(cfg, c, k, v, p.clean)
    ensures SvcInv(cfg, c, k, v.(pass := p))
  {
  }

  /** A complete list without a match means there is no live load balancer of that name. */
  lemma NoneListed(cfg: Config, c: Cloud, name: string, listed: seq<Id>, items: seq<LbView>)
    requires ListsLbs(c, name, listed) && |items| == |listed|
    requires forall i | 0 <= i < |items| :: items[i].id == listed[i] && Shows(cfg, c, items[i])
    requires forall x | x in items :: x.name != name
    ensures forall i | i in c.live :: !NamedLb(c, i, name)
  {
    forall i | i in c.live ensures !NamedLb(c, i, name) {
      if i in listed {
        var j :| 0 <= j < |listed| && listed[j] == i;
        assert items[j] in items;
      }
    }
  }

  lemma ListedViews(cfg: Config, c: Cloud, name: string, f: Fate, items: seq<LbView>)
    requires ListsLbs(c, name, f.listed) && |items| == |f.listed|
    requires forall i | 0 <= i < |items| :: f.listed[i] in c.lbs && items[i] == View(cfg, c, f.listed[i], f.vip != "")
    ensures forall x | x in items :: Shows(cfg, c, x)
  {
  }

  lemma LookupLearned(cfg: Config, c: Cloud, k: Id, v: Svc, f: Fate, reply: Reply)
    requires CloudInv(cfg, c) && SvcInv(cfg, c, k, v) && v.pass.Working? && NameOf(cfg, k).Some?
    requires reply.Lbs? && reply == ServeLb(cfg, c, v.versions, NameOf(cfg, k).value, LookupLb, f).reply
    ensures WorkInv(cfg, c, k, v, LearnWorking(v.pass.work, NameOf(cfg, k).value, LookupLb, reply))
  {
    var name := NameOf(cfg, k).value;
    ListedViews(cfg, c, name, f, reply.items);
    LearnViewsOk(cfg, c, k, v.pass.work.mine, reply.items, name);
    if forall x | x in reply.items :: x.name != name {
      NoneListed(cfg, c, name, f.listed, reply.items);
    }
  }

  lemma LookupOk(cfg: Config, c: Cloud, k: Id, v: Svc, f: Fate)
    requires CloudInv(cfg, c) && SvcInv(cfg, c, k, v) && v.pass.Working? && NameOf(cfg, k).Some?
    ensures CloudOk(cfg, c, k, v, LookupLb, ServeLb(cfg, c, v.versions, NameOf(cfg, k).GetOr(""), LookupLb, f))
  {
    var reply := ServeLb(cfg, c, v.versions, NameOf(cfg, k).value, LookupLb, f).reply;
    if reply.Lbs? { LookupLearned(cfg, c, k, v, f, reply); }
    PassChange(cfg, c, k, v, Learn(cfg, k, v.pass, LookupLb, reply));
  }

  /** The cloud once a create was accepted as own, or issued without effect. */
  function Created(c: Cloud, name: string, protocol: string, f: Fate, own: Option<Id>): Cloud {
    var c' := c.(lbOps := c.lbOps[f.op := own]);
    if own.None? then c' else c'.(lbs := c.lbs[own.value := Lb(name, protocol, f.vip)], live := c.live + {own.value})
  }

  lemma CreatedLbs(c: Cloud, name: string, protocol: string, f: Fate, own: Option<Id>)
    requires f.op !in c.lbOps && (own.Some? ==> own.value !in c.lbs && own.value != "")
    requires forall i :: !NamedLb(c, i, name)
    ensures var c' := Created(c, name, protocol, f, own);
            && (forall i | i in c.lbs :: i in c'.lbs && c'.lbs[i] == c.lbs[i] && (i in c.live ==> i in c'.live))
            && (forall o | o in c.lbOps :: o in c'.lbOps && c'.lbOps[o] == c.lbOps[o])
            && (forall i | i in c'.lbs && i !in c.lbs :: own == Some(i))
            && (forall i | i in c'.live && i !in c.live :: own == Some(i))
            && (forall i | i in c.lbs :: c.lbs[i].name != name)
            && c'.rules == c.rules && c'.spent == c.spent && c'.ops == c.ops && c'.aged == c.aged
            && c'.lbOps == c.lbOps[f.op := own]
            && (own.Some? ==> own.value in c'.live && own.value in c'.lbs && c'.lbs[own.value] == Lb(name, protocol, f.vip))
  {
    forall i | i in c.lbs ensures c.lbs[i].name != name {
      assert !NamedLb(c, i, name);
    }
  }

  lemma CreatedInv(cfg: Config, c: Cloud, name: string, protocol: string, f: Fate, own: Option<Id>)
    requires CloudInv(cfg, c) && Known(protocol)
    requires forall i :: !NamedLb(c, i, name)
    requires f.op !in c.lbOps && (own.Some? ==> own.value !in c.lbs && own.value != "")
    ensures CloudInv(cfg, Created(c, name, protocol, f, own))
  {
    CreatedLbs(c, name, protocol, f, own);
  }

  lemma CreatedStable(cfg: Config, c: Cloud, name: string, protocol: string, f: Fate, own: Option<Id>, n: Option<string>)
    requires CloudInv(cfg, c) && n != Some(name)
    requires forall i :: !NamedLb(c, i, name)
    requires f.op !in c.lbOps && (own.Some? ==> own.value !in c.lbs && own.value != "")
    ensures LbStable(c, Created(c, name, protocol, f, own), n)
  {
    CreatedLbs(c, name, protocol, f, own);
  }

  lemma CreatedOk(cfg: Config, c: Cloud, k: Id, v: Svc, protocol: string, f: Fate, own: Option<Id>)
    requires CloudInv(cfg, c) && SvcInv(cfg, c, k, v) && v.pass.Working? && v.pass.work.looked && Known(protocol)
    requires f.op !in c.lbOps && (own.Some? ==> own.value !in c.lbs && own.value != "")
    ensures var c' := Created(c, NameOf(cfg, k).value, protocol, f, own);
            && SvcInv(cfg, c', k, v.(pass := Working(v.pass.work.(looked := false))))
            && AskedOk(cfg, c', k, Asked(f.op, protocol))
  {
    var name, w := NameOf(cfg, k).value, v.pass.work;
    var c' := Created(c, name, protocol, f, own);
    CreatedLbs(c, name, protocol, f, own);
    forall i | 0 <= i < |v.versions| && v.versions[i].Some? ensures RecordOk(cfg, c', k, v.versions[i].value.ann) {
      RecordStable(cfg, c, c', k, v.versions[i].value.ann);
    }
    MineStable(cfg, c, c', k, w.mine);
  }

  lemma CreateServed(cfg: Config, c: Cloud, versions: Versions, name: string, call: Call, f: Fate, own: Option<Id>)
    requires call.CreateLb? && f.op !in c.lbOps
    requires own == if f.lands && f.id !in c.lbs && f.id != "" then Some(f.id) else None
    ensures var r := ServeLb(cfg, c, versions, name, call, f);
            && r.cloud == Created(c, name, call.protocol, f, own) && r.versions == versions
            && (r.reply == LbOp(Truthful(f.first.(id := f.op), own, f.vip)) || r.reply.Refused?)
  {
  }

  lemma CreateLbOk(cfg: Config, c: Cloud, k: Id, v: Svc, call: Call, f: Fate)
    requires CloudInv(cfg, c) && SvcInv(cfg, c, k, v) && v.pass.Working? && v.pass.work.looked
    requires call.CreateLb? && Known(call.protocol)
    ensures CloudOk(cfg, c, k, v, call, ServeLb(cfg, c, v.versions, NameOf(cfg, k).GetOr(""), call, f))
  {
    var name, w := NameOf(cfg, k).value, v.pass.work;
    var r := ServeLb(cfg, c, v.versions, name, call, f);
    if f.op in c.lbOps {
      PassChange(cfg, c, k, v, Working(w.(looked := false)));
    } else {
      var own := if f.lands && f.id !in c.lbs && f.id != "" then Some(f.id) else None;
      CreateServed(cfg, c, v.versions, name, call, f, own);
      CreatedInv(cfg, c, name, call.protocol, f, own);
      forall n: Option<string> | n != Some(name) ensures LbStable(c, r.cloud, n) {
        CreatedStable(cfg, c, name, call.protocol, f, own, n);
      }
      CreatedLearned(cfg, c, k, v, call, f, own, r.reply);
    }
  }

  lemma CreatedLearned(cfg: Config, c: Cloud, k: Id, v: Svc, call: Call, f: Fate, own: Option<Id>, reply: Reply)
    requires CloudInv(cfg, c) && SvcInv(cfg, c, k, v) && v.pass.Working? && v.pass.work.looked
    requires call.CreateLb? && Known(call.protocol)
    requires f.op !in c.lbOps && (own.Some? ==> own.value !in c.lbs && own.value != "")
    requires reply == LbOp(Truthful(f.first.(id := f.op), own, f.vip)) || reply.Refused?
    ensures SvcInv(cfg, Created(c, NameOf(cfg, k).value, call.protocol, f, own), k,
                   v.(pass := Learn(cfg, k, v.pass, call, reply)))
  {
    var w, c' := v.pass.work, Created(c, NameOf(cfg, k).value, call.protocol, f, own);
    CreatedOk(cfg, c, k, v, call.protocol, f, own);
    if reply.LbOp? {
      LearnOpOk(cfg, c', k, w.mine, f.first.(id := f.op), Asked(f.op, call.protocol), f.vip);
      PassChange(cfg, c', k, v.(pass := Working(w.(looked := false))), Learn(cfg, k, v.pass, call, reply));
    }
  }

  lemma AwaitOk(cfg: Config, c: Cloud, k: Id, v: Svc, call: Call, f: Fate)
    requires CloudInv(cfg, c) && SvcInv(cfg, c, k, v) && v.pass.Working?
    requires call.AwaitLb? && v.pass.work.asked.Some? && v.pass.work.asked.value.op == call.op
    ensures CloudOk(cfg, c, k, v, call, ServeLb(cfg, c, v.versions, NameOf(cfg, k).GetOr(""), call, f))
  {
    var r := ServeLb(cfg, c, v.versions, NameOf(cfg, k).GetOr(""), call, f);
    LearnPollsOk(cfg, c, k, v.pass.work.mine, r.reply.script, f.polls, v.pass.work.asked.value,
                 VipOf(c, c.lbOps[call.op]));
    PassChange(cfg, c, k, v, Learn(cfg, k, v.pass, call, r.reply));
  }

  /** Deleting a recorded load balancer takes nothing from anybody else. */
  lemma DroppedOk(cfg: Config, c: Cloud, k: Id, v: Svc, id: Id)
    requires CloudInv(cfg, c) && SvcInv(cfg, c, k, v) && v.cleaned
    requires NameOf(cfg, k).Some? && NamedLb(c, id, NameOf(cfg, k).value)
    ensures var c' := c.(live := c.live - {id});
            && CloudInv(cfg, c') && SvcInv(cfg, c', k, v)
            && forall n: Option<string> | n != NameOf(cfg, k) :: LbStable(c, c', n)
  {
    var c' := c.(live := c.live - {id});
    forall i | 0 <= i < |v.versions| && v.versions[i].Some? ensures RecordOk(cfg, c', k, v.versions[i].value.ann) {
      RecordStable(cfg, c, c', k, v.versions[i].value.ann);
    }
  }

  lemma StartRecord(cfg: Config, c: Cloud, k: Id, v: Svc)
    requires SvcInv(cfg, c, k, v) && v.pass.Cleaning?
    ensures var id := Text(v.pass.clean.start.obj.ann, LbId);
            id != "" ==> NameOf(cfg, k).Some? && NamedLb(c, id, NameOf(cfg, k).value)
  {
    assert RecordOk(cfg, c, k, v.versions[v.pass.clean.start.version].value.ann);
  }

  lemma DeletedPass(cfg: Config, c: Cloud, k: Id, v: Svc, call: Call, reply: Reply)
    requires SvcInv(cfg, c, k, v) && v.pass.Cleaning?
    requires v.pass.clean.fw.Cleared? && v.pass.clean.lb.Present?
    requires LbDeleted(reply) ==> Text(v.pass.clean.start.obj.ann, LbId) !in c.live
    ensures SvcInv(cfg, c, k, v.(pass := Learn(cfg, k, v.pass, call, reply)))
  {
    PassChange(cfg, c, k, v, Learn(cfg, k, v.pass, call, reply));
  }

  lemma DeleteLbOk(cfg: Config, c: Cloud, k: Id, v: Svc, call: Call, f: Fate)
    requires CloudInv(cfg, c) && SvcInv(cfg, c, k, v) && v.pass.Cleaning?
    requires v.pass.clean.fw.Cleared? && v.pass.clean.lb.Present?
    requires call == DeleteLb(Text(v.pass.clean.start.obj.ann, LbId))
    ensures CloudOk(cfg, c, k, v, call, ServeLb(cfg, c, v.versions, NameOf(cfg, k).GetOr(""), call, f))
  {
    var r := ServeLb(cfg, c, v.versions, NameOf(cfg, k).GetOr(""), call, f);
    StartRecord(cfg, c, k, v);
    if r.cloud != c {
      DroppedOk(cfg, c, k, v, call.id);
    }
    DeletedPass(cfg, r.cloud, k, v, call, r.reply);
  }

  lemma DoLb(cfg: Config, c: Cloud, k: Id, v: Svc, call: Call, f: Fate)
    requires CloudInv(cfg, c) && SvcInv(cfg, c, k, v) && !v.pass.Idle? && Allowed(cfg, k, v.pass, call)
    requires call.LookupLb? || call.CreateLb? || call.AwaitLb? || call.GetLb? || call.UpdateLb? || call.DeleteLb?
    ensures CloudOk(cfg, c, k, v, call, ServeLb(cfg, c, v.versions, NameOf(cfg, k).GetOr(""), call, f))
  {
    if call.GetLb? || call.UpdateLb? {
      NothingLearned(cfg, c, k, v, call, ServeLb(cfg, c, v.versions, NameOf(cfg, k).GetOr(""), call, f));
    } else if call.DeleteLb? {
      DeleteLbOk(cfg, c, k, v, call, f);
    } else {
      FindOrCreateOk(cfg, c, k, v, call, f);
    }
  }

  lemma FindOrCreateOk(cfg: Config, c: Cloud, k: Id, v: Svc, call: Call, f: Fate)
    requires CloudInv(cfg, c) && SvcInv(cfg, c, k, v) && v.pass.Working? && AllowedWorking(cfg, k, v.pass.work, call)
    requires call.LookupLb? || call.CreateLb? || call.AwaitLb?
    ensures CloudOk(cfg, c, k, v, call, ServeLb(cfg, c, v.versions, NameOf(cfg, k).GetOr(""), call, f))
  {
    match call
    case LookupLb => LookupOk(cfg, c, k, v, f);
    case CreateLb(_, _) => CreateLbOk(cfg, c, k, v, call, f);
    case AwaitLb(_) => AwaitOk(cfg, c, k, v, call, f);
  }

  lemma NothingLearned(cfg: Config, c: Cloud, k: Id, v: Svc, call: Call, r: Served)
    requires CloudInv(cfg, c) && SvcInv(cfg, c, k, v) && v.pass.Working?
    requires call.GetLb? || call.UpdateLb? || call.Clock? || call.VpcInfo? || call.ListNodes?
    requires r.cloud == c && r.versions == v.versions && !r.reply.Stored?
    ensures CloudOk(cfg, c, k, v, call, r)
  {
    RulePass(cfg, c, k, v, call, r);
    PassChange(cfg, c, k, v, Learn(cfg, k, v.pass, call, r.reply));
  }

  /* ---- Rule calls ---- */

  lemma DoRule(cfg: Config, c: Cloud, k: Id, v: Svc, call: Call, f: Fate)
    requires CloudInv(cfg, c) && SvcInv(cfg, c, k, v)
    requires v.pass.Working? || (v.pass.Cleaning? && !v.pass.clean.fw.Cleared?)
    requires call.GetRule? || call.PatchRule? || call.GetOp? || call.ListRules? || call.CreateRule? || call.DeleteRule?
    ensures CloudOk(cfg, c, k, v, call, ServeRule(c, v.versions, call, f))
  {
    var r := ServeRule(c, v.versions, call, f);
    RuleCloud(cfg, c, v.versions, call, f);
    SameLbs(c, r.cloud);
    SvcStable(cfg, c, r.cloud, k, v);
    RulePass(cfg, c, k, v, call, r);
    PassChange(cfg, r.cloud, k, v, Learn(cfg, k, v.pass, call, r.reply));
  }

  lemma SameLbs(c: Cloud, c': Cloud)
    requires c'.lbs == c.lbs && c'.live == c.live && c'.lbOps == c.lbOps
    ensures forall n: Option<string> :: LbStable(c, c', n)
  {
  }

  lemma RuleCloud(cfg: Config, c: Cloud, versions: Versions, call: Call, f: Fate)
    requires CloudInv(cfg, c)
    requires call.GetRule? || call.PatchRule? || call.GetOp? || call.ListRules? || call.CreateRule? || call.DeleteRule?
    ensures var r := ServeRule(c, versions, call, f);
            && CloudInv(cfg, r.cloud) && r.versions == versions
            && r.cloud.lbs == c.lbs && r.cloud.live == c.live && r.cloud.lbOps == c.lbOps
            && !r.reply.Stored?
  {
    if call.PatchRule? || call.CreateRule? || call.DeleteRule? {
      RuleWritten(cfg, c, versions, call, f);
    }
  }

  lemma RuleWritten(cfg: Config, c: Cloud, versions: Versions, call: Call, f: Fate)
    requires CloudInv(cfg, c) && (call.PatchRule? || call.CreateRule? || call.DeleteRule?)
    ensures CloudInv(cfg, ServeRule(c, versions, call, f).cloud)
  {
  }

  /** A reply that stores nothing moves only the firewall step of a deleting pass. */
  lemma RulePass(cfg: Config, c: Cloud, k: Id, v: Svc, call: Call, r: Served)
    requires v.pass.Working? || (v.pass.Cleaning? && !v.pass.clean.fw.Cleared?)
    requires !call.FreshGet? && !call.LookupLb? && !call.CreateLb? && !call.AwaitLb? && !r.reply.Stored?
    ensures var p := Learn(cfg, k, v.pass, call, r.reply);
            && (v.pass.Working? ==> p.Working? && p.work == v.pass.work.(made := p.work.made, found := p.work.found,
                                                                       vips := p.work.vips))
            && (v.pass.Cleaning? ==> p.Cleaning? && p.clean == v.pass.clean.(fw := p.clean.fw))
  {
  }

  /** Only three calls change rules and their operations. */
  lemma RulesUntouched(cfg: Config, s: Sys, k: Id, call: Call, f: Fate)
    requires k in s.svcs && !s.svcs[k].pass.Idle? && !call.PatchRule? && !call.CreateRule? && !call.DeleteRule?
    ensures var c := DoCall(cfg, s, k, call, f).cloud;
            c.rules == s.cloud.rules && c.ops == s.cloud.ops && c.spent == s.cloud.spent
  {
  }

  lemma OtherVersions(cfg: Config, s: Sys, k: Id, call: Call, f: Fate)
    requires k in s.svcs && !s.svcs[k].pass.Idle?
    requires !call.Update? && !call.PatchAnn? && !call.PatchStatus? && !call.FreshGet?
    ensures DoCall(cfg, s, k, call, f).versions == s.svcs[k].versions
  {
  }
}
