/** What a pass leaves behind over a Service without a load balancer, when the API answers as it should. */
module CreationEffect {
  import opened Wrappers
  import opened MergePatch
  import opened Ports
  import opened Polling
  import opened Model
  import opened Protocol
  import opened FirewallPass
  import opened PassSpec
  import opened PassAnswers
  import opened Permits
  import EnsureSteps

  /* ---- The pass as steps of the system ---- */

  /** a is k's next call x, allowed in s and answered by it. */
  ghost predicate CallMade(cfg: Config, k: Id, s: Sys, a: Action, x: (Call, Reply)) {
    && a.Do? && a.k == k && a.call == x.0
    && k in s.svcs && s.svcs[k].pass.Working? && Allowed(cfg, k, s.svcs[k].pass, x.0)
    && x.1 == DoCall(cfg, s, k, x.0, a.fate).reply
  }

  /** acts are the calls of t from s on, one after the other. */
  ghost predicate Makes(cfg: Config, k: Id, s: Sys, acts: seq<Action>, t: Transcript) {
    |acts| == |t| && forall i | 0 <= i < |t| :: CallMade(cfg, k, Run(cfg, s, acts[..i]), acts[i], t[i])
  }

  /** No load balancer of that name. */
  ghost predicate NoneNamed(c: Cloud, name: string) {
    forall i | i in c.live && i in c.lbs :: c.lbs[i].name != name
  }

  /** The call takes effect and is heard; the direct read may be forbidden; lists are complete; a new load
      balancer and its operation have ids of their own, and it a VIP. Nothing is asked of the calls of the
      firewall step. */
  ghost predicate GoesWell(cfg: Config, k: Id, c: Cloud, call: Call, f: Fate) {
    match call
    case Update(_) => f.lands && f.heard
    case FreshGet => f.heard || f.status == Some(403)
    case VpcInfo => f.vpc.Some?
    case LookupLb => f.heard && ListsLbs(c, NameOf(cfg, k).GetOr(""), f.listed)
    case CreateLb(_, _) => f.lands && f.heard && f.op !in c.lbOps && f.id !in c.lbs && f.id != "" && f.vip != ""
    case PatchAnn(diff) => LbId in diff ==> f.lands && f.heard
    case PatchStatus(_) => f.lands && f.heard
    case _ => true
  }

  /** Every create operation is seen to succeed, with the id and the VIP of its load balancer. */
  ghost predicate WaitsEnd(t: Transcript) {
    forall i | 0 < i < |t| && t[i - 1].0.CreateLb? && t[i - 1].1.LbOp? && t[i].1.Polls? ::
      WaitEnds(t[i - 1].1.op, t[i].1.script)
  }

  ghost predicate WaitEnds(first: LbOperation, script: seq<Poll<LbOperation>>) {
    exists id, vip :: id != "" && vip != "" && WaitMade(first, script, id, vip)
  }

  ghost predicate AllWell(cfg: Config, k: Id, s: Sys, acts: seq<Action>, t: Transcript) {
    && WaitsEnd(t)
    && forall i | 0 <= i < |acts| && acts[i].Do? :: GoesWell(cfg, k, Run(cfg, s, acts[..i]).cloud, acts[i].call, acts[i].fate)
  }

  /** t submits exactly one create, for that protocol. */
  ghost predicate OneCreate(t: Transcript, protocol: string) {
    exists n: nat :: n < |t| && t[n].0.CreateLb? && t[n].0.protocol == protocol &&
                     forall i | 0 <= i < |t| && i != n :: !t[i].0.CreateLb?
  }

  /** The Service records the one live load balancer of that name, with its protocol, and publishes its VIP. */
  ghost predicate ServedBy(c: Cloud, v: Versions, name: string, protocol: string) {
    && Latest(v).Some? && LbId in Latest(v).value.ann
    && var o := Latest(v).value;
       var id := o.ann[LbId];
       && id in c.live && id in c.lbs && c.lbs[id].name == name && c.lbs[id].protocol == protocol
       && (forall i | i in c.live && i in c.lbs && c.lbs[i].name == name :: i == id)
       && Get(o.ann, LbProtocol) == Some(protocol)
       && c.lbs[id].vip != "" && o.ingress == [c.lbs[id].vip]
  }

  /* ---- One Service's share of the system ---- */

  datatype Share = Share(cloud: Cloud, versions: Versions, mem: Copy)

  function ShareOf(s: Sys, k: Id): Share
    requires k in s.svcs && s.svcs[k].pass.Working?
  {
    Share(s.cloud, s.svcs[k].versions, s.svcs[k].pass.work.mem)
  }

  function Answered(cfg: Config, k: Id, now: Time, h: Share, call: Call, f: Fate): (Share, Reply) {
    var r := Serve(cfg, h.cloud, h.versions, now, NameOf(cfg, k).GetOr(""), h.mem, call, f);
    (Share(r.cloud, r.versions, if r.reply.Stored? then r.reply.copy else h.mem), r.reply)
  }

  /** hs[i] is what there is before call i, fs[i] its fate. */
  ghost predicate Chain(cfg: Config, k: Id, now: Time, hs: seq<Share>, fs: seq<Fate>, t: Transcript) {
    && |hs| == |t| + 1 && |fs| == |t|
    && forall i | 0 <= i < |t| :: Linked(cfg, k, now, hs[i], fs[i], t[i], hs[i + 1])
  }

  ghost predicate Linked(cfg: Config, k: Id, now: Time, h: Share, f: Fate, x: (Call, Reply), h': Share) {
    Answered(cfg, k, now, h, x.0, f) == (h', x.1) && GoesWell(cfg, k, h.cloud, x.0, f)
  }

  lemma CallShare(cfg: Config, k: Id, s: Sys, a: Action, x: (Call, Reply))
    requires CallMade(cfg, k, s, a, x)
    ensures var s' := Step(cfg, s, a);
            && s'.now == s.now && k in s'.svcs && s'.svcs[k].pass.Working?
            && Answered(cfg, k, s.now, ShareOf(s, k), x.0, a.fate) == (ShareOf(s', k), x.1)
  {
  }

  lemma {:induction false} MakesWorks(cfg: Config, k: Id, s: Sys, acts: seq<Action>, t: Transcript, n: nat)
    requires Makes(cfg, k, s, acts, t) && n <= |t| && k in s.svcs && s.svcs[k].pass.Working?
    ensures var s' := Run(cfg, s, acts[..n]); s'.now == s.now && k in s'.svcs && s'.svcs[k].pass.Working?
    ensures n > 0 ==> Run(cfg, s, acts[..n]) == Step(cfg, Run(cfg, s, acts[..n - 1]), acts[n - 1])
    decreases n
  {
    if n > 0 {
      MakesWorks(cfg, k, s, acts, t, n - 1);
      assert acts[..n][..n - 1] == acts[..n - 1];
      CallShare(cfg, k, Run(cfg, s, acts[..n - 1]), acts[n - 1], t[n - 1]);
    }
  }

  lemma MakesChain(cfg: Config, k: Id, s: Sys, acts: seq<Action>, t: Transcript) returns (hs: seq<Share>, fs: seq<Fate>)
    requires Makes(cfg, k, s, acts, t) && AllWell(cfg, k, s, acts, t) && k in s.svcs && s.svcs[k].pass.Working?
    ensures Chain(cfg, k, s.now, hs, fs, t) && hs[0] == ShareOf(s, k)
    ensures var s' := Run(cfg, s, acts); k in s'.svcs && s'.svcs[k].pass.Working? && hs[|t|] == ShareOf(s', k)
  {
    forall n: nat | n <= |t|
      ensures var s' := Run(cfg, s, acts[..n]); k in s'.svcs && s'.svcs[k].pass.Working?
    {
      MakesWorks(cfg, k, s, acts, t, n);
    }
    hs := seq(|t| + 1, n requires 0 <= n <= |t| => ShareOf(Run(cfg, s, acts[..n]), k));
    fs := seq(|t|, n requires 0 <= n < |t| => acts[n].fate);
    forall n | 0 <= n < |t| ensures Linked(cfg, k, s.now, hs[n], fs[n], t[n], hs[n + 1]) {
      MakesWorks(cfg, k, s, acts, t, n);
      MakesWorks(cfg, k, s, acts, t, n + 1);
      CallShare(cfg, k, Run(cfg, s, acts[..n]), acts[n], t[n]);
    }
    assert acts[..0] == [] && acts[..|t|] == acts;
  }

  /* ---- Up to the create ---- */

  /** The pass has the Service as it is stored. */
  predicate InStep(h: Share) {
    |h.versions| > 0 && h.mem.version == |h.versions| - 1 && Latest(h.versions) == Some(h.mem.obj)
  }

  lemma ReadsCurrent(cfg: Config, k: Id, now: Time, h: Share, f: Fate, x: (Call, Reply), h': Share)
    requires Linked(cfg, k, now, h, f, x, h') && InStep(h) && x.0.FreshGet?
    requires LbId !in h.mem.obj.ann && h.mem.obj.deletedAt.None?
    ensures h' == h && AllowsCreate(x.1)
  {
  }

  lemma LooksUp(cfg: Config, k: Id, now: Time, h: Share, f: Fate, x: (Call, Reply), h': Share)
    requires Linked(cfg, k, now, h, f, x, h') && (x.0.ListNodes? || x.0.VpcInfo?)
    ensures h' == h && (x.0.VpcInfo? ==> x.1.Vpc?)
  {
  }

  lemma ListsNone(cfg: Config, k: Id, now: Time, h: Share, f: Fate, x: (Call, Reply), h': Share)
    requires Linked(cfg, k, now, h, f, x, h') && x.0.LookupLb? && NoneNamed(h.cloud, NameOf(cfg, k).GetOr(""))
    ensures h' == h && x.1.Lbs? && forall v | v in x.1.items :: v.name != NameOf(cfg, k).GetOr("")
  {
  }

  /** The load balancer id is the one of that name, of that protocol, and op makes it. */
  ghost predicate Made(c: Cloud, name: string, protocol: string, id: Id) {
    && id in c.live && id in c.lbs && c.lbs[id].name == name && c.lbs[id].protocol == protocol && c.lbs[id].vip != ""
    && forall i | i in c.live && i in c.lbs && c.lbs[i].name == name :: i == id
  }

  /** What is heard of the operation op is about the load balancer id. */
  predicate Tells(c: Cloud, id: Id, op: LbOperation) {
    op.result.Decoded? && op.result.id != "" && op.result.vip != "" ==>
      op.result.id == id && id in c.lbs && op.result.vip == c.lbs[id].vip
  }

  lemma Submits(cfg: Config, k: Id, now: Time, h: Share, f: Fate, x: (Call, Reply), h': Share) returns (id: Id)
    requires Linked(cfg, k, now, h, f, x, h') && x.0.CreateLb? && NoneNamed(h.cloud, NameOf(cfg, k).GetOr(""))
    ensures h' == h.(cloud := h'.cloud) && x.1.LbOp? && Made(h'.cloud, NameOf(cfg, k).GetOr(""), x.0.protocol, id)
    ensures Get(h'.cloud.lbOps, x.1.op.id) == Some(Some(id)) && Tells(h'.cloud, id, x.1.op)
  {
    id := f.id;
  }

  lemma Awaits(cfg: Config, k: Id, now: Time, h: Share, f: Fate, x: (Call, Reply), h': Share, id: Id)
    requires Linked(cfg, k, now, h, f, x, h') && x.0.AwaitLb? && x.1.Polls?
    requires Get(h.cloud.lbOps, x.0.op) == Some(Some(id)) && id in h.cloud.lbs
    ensures h' == h && forall p | p in x.1.script && p.Answer? :: Tells(h.cloud, id, p.op)
  {
  }

  lemma WaitTells(c: Cloud, id: Id, first: LbOperation, script: seq<Poll<LbOperation>>)
    returns (made: Id, vip: string)
    requires WaitEnds(first, script) && Tells(c, id, first) && forall p | p in script && p.Answer? :: Tells(c, id, p.op)
    ensures WaitMade(first, script, made, vip) && made == id && id in c.lbs && vip == c.lbs[id].vip
  {
    made, vip :| made != "" && vip != "" && WaitMade(first, script, made, vip);
    var n: nat :| Polled(StateOf, first, script, n) && Heard(first, script, n).Some? &&
                  Heard(first, script, n).value.state == "SUCCEEDED" &&
                  Heard(first, script, n).value.result == LbResult.Decoded(made, vip);
    assert n > 0 ==> script[n - 1] in script;
  }

  /* ---- Recording ---- */

  lemma StoresRecord(cfg: Config, k: Id, now: Time, h: Share, f: Fate, x: (Call, Reply), h': Share, id: Id, protocol: string)
    requires Linked(cfg, k, now, h, f, x, h') && InStep(h) && LbId !in h.mem.obj.ann
    requires var ann := h.mem.obj.ann; x.0 == PatchAnn(Diff(ann, ann[LbId := id][LbProtocol := protocol]))
    ensures InStep(h') && h'.cloud == h.cloud && x.1 == Stored(h'.mem)
    ensures h'.mem.obj == h.mem.obj.(ann := h.mem.obj.ann[LbId := id][LbProtocol := protocol])
  {
    var ann := h.mem.obj.ann;
    PatchExact(ann, ann[LbId := id][LbProtocol := protocol], ann);
    assert LbId in Diff(ann, ann[LbId := id][LbProtocol := protocol]);
  }

  lemma StoresIngress(cfg: Config, k: Id, now: Time, h: Share, f: Fate, x: (Call, Reply), h': Share)
    requires Linked(cfg, k, now, h, f, x, h') && InStep(h) && x.0.PatchStatus?
    ensures InStep(h') && h'.cloud == h.cloud && x.1 == Stored(h'.mem)
    ensures h'.mem.obj == h.mem.obj.(ingress := [x.0.vip])
  {
  }

  /* ---- The firewall step ---- */

  lemma QuietKeeps(cfg: Config, k: Id, now: Time, h: Share, f: Fate, x: (Call, Reply), h': Share, name: string, protocol: string)
    requires Linked(cfg, k, now, h, f, x, h') && Quiet(x.0) && ServedBy(h.cloud, h.versions, name, protocol)
    ensures ServedBy(h'.cloud, h'.versions, name, protocol)
  {
    assert h'.cloud.lbs == h.cloud.lbs && h'.cloud.live == h.cloud.live;
    if x.0.PatchAnn? { PatchKeeps(h.cloud, h.versions, f, x.0.diff); }
  }

  lemma PatchKeeps(c: Cloud, v: Versions, f: Fate, diff: Patch<Key, string>)
    requires Latest(v).Some? && LbId !in diff && LbProtocol !in diff
    ensures var o, r := Latest(v).value, Model.Write(c, v, f, Latest(v).value.(ann := Apply(diff, Latest(v).value.ann)));
            && Latest(r.versions).Some? && SameLb(o.ann, Latest(r.versions).value.ann)
            && Latest(r.versions).value.ingress == o.ingress
  {
  }

  lemma {:induction false} RestKeeps(cfg: Config, k: Id, now: Time, hs: seq<Share>, fs: seq<Fate>, t: Transcript, n: nat, m: nat,
                                     name: string, protocol: string)
    requires Chain(cfg, k, now, hs, fs, t) && n <= m <= |t| && AllQuiet(t[n..])
    requires ServedBy(hs[n].cloud, hs[n].versions, name, protocol)
    ensures ServedBy(hs[m].cloud, hs[m].versions, name, protocol)
    decreases m
  {
    if n < m {
      RestKeeps(cfg, k, now, hs, fs, t, n, m - 1, name, protocol);
      assert t[n..][m - 1 - n] == t[m - 1];
      QuietKeeps(cfg, k, now, hs[m - 1], fs[m - 1], t[m - 1], hs[m], name, protocol);
    }
  }

  /* ---- The whole pass ---- */

  /** Ready to be created for: stored with that name and ports, without a load balancer. */
  ghost predicate Wanting(cfg: Config, k: Id, c: Cloud, o: Object) {
    && LbId !in o.ann && o.deletedAt.None? && OneProtocol(o.spec.ports)
    && NameOf(cfg, k).Some? && NoneNamed(c, NameOf(cfg, k).value)
  }

  /** Up to the list nothing changes, and the list shows nothing of the name. */
  lemma ComesToCreate(cfg: Config, k: Id, now: Time, hs: seq<Share>, fs: seq<Fate>, t: Transcript, o: Object,
                      requeueAfter: int, err: bool)
    requires Chain(cfg, k, now, hs, fs, t) && InStep(hs[0]) && hs[0].mem.obj == o && Wanting(cfg, k, hs[0].cloud, o)
    requires CreationSaid(cfg, k, o, t, requeueAfter, err)
    ensures |t| > 4 && hs[4] == hs[0] && SubmitsCreate(cfg, k, o, t, requeueAfter, err)
    ensures t[0].0.FreshGet? && t[1].0.ListNodes? && t[2].0.VpcInfo? && t[3].0.LookupLb?
  {
    assert Linked(cfg, k, now, hs[0], fs[0], t[0], hs[1]);
    ReadsCurrent(cfg, k, now, hs[0], fs[0], t[0], hs[1]);
    assert Linked(cfg, k, now, hs[1], fs[1], t[1], hs[2]) && Linked(cfg, k, now, hs[2], fs[2], t[2], hs[3]);
    LooksUp(cfg, k, now, hs[1], fs[1], t[1], hs[2]);
    LooksUp(cfg, k, now, hs[2], fs[2], t[2], hs[3]);
    assert Linked(cfg, k, now, hs[3], fs[3], t[3], hs[4]);
    ListsNone(cfg, k, now, hs[3], fs[3], t[3], hs[4]);
  }

  /** The create makes the one load balancer of the name, and the wait tells its id and VIP. */
  lemma ComesToRecord(cfg: Config, k: Id, now: Time, hs: seq<Share>, fs: seq<Fate>, t: Transcript, o: Object,
                      requeueAfter: int, err: bool) returns (id: Id)
    requires Chain(cfg, k, now, hs, fs, t) && WaitsEnd(t) && |t| > 4 && NameOf(cfg, k).Some?
    requires NoneNamed(hs[4].cloud, NameOf(cfg, k).value) && SubmitsCreate(cfg, k, o, t, requeueAfter, err)
    ensures |t| > 5 && hs[6] == hs[4].(cloud := hs[6].cloud)
    ensures t[4].0.CreateLb? && t[4].0.protocol == ProtocolFor(o.spec.ports) && t[5].0.AwaitLb?
    ensures Made(hs[6].cloud, NameOf(cfg, k).value, ProtocolFor(o.spec.ports), id)
    ensures RecordsFrom(cfg, k, o.ann, t, 6, id, hs[6].cloud.lbs[id].vip, ProtocolFor(o.spec.ports), requeueAfter, err)
  {
    assert Linked(cfg, k, now, hs[4], fs[4], t[4], hs[5]);
    id := Submits(cfg, k, now, hs[4], fs[4], t[4], hs[5]);
    assert Linked(cfg, k, now, hs[5], fs[5], t[5], hs[6]);
    Awaits(cfg, k, now, hs[5], fs[5], t[5], hs[6], id);
    assert WaitEnds(t[5 - 1].1.op, t[5].1.script);
    var made, vip := WaitTells(hs[6].cloud, id, t[4].1.op, t[5].1.script);
    WaitSaid(t[4].1.op, t[5].1.script);
  }

  /** The record and the address are stored, and the firewall step leaves them alone. */
  lemma ComesToServe(cfg: Config, k: Id, now: Time, hs: seq<Share>, fs: seq<Fate>, t: Transcript, id: Id, name: string,
                     protocol: string, requeueAfter: int, err: bool)
    requires Chain(cfg, k, now, hs, fs, t) && |t| > 5 && InStep(hs[6]) && LbId !in hs[6].mem.obj.ann
    requires Made(hs[6].cloud, name, protocol, id)
    requires RecordsFrom(cfg, k, hs[6].mem.obj.ann, t, 6, id, hs[6].cloud.lbs[id].vip, protocol, requeueAfter, err)
    ensures |t| > 7 && t[6].0.PatchAnn? && t[7].0.PatchStatus? && AllQuiet(t[8..]) && !err
    ensures ServedBy(hs[8].cloud, hs[8].versions, name, protocol)
  {
    assert Linked(cfg, k, now, hs[6], fs[6], t[6], hs[7]);
    StoresRecord(cfg, k, now, hs[6], fs[6], t[6], hs[7], id, protocol);
    assert Linked(cfg, k, now, hs[7], fs[7], t[7], hs[8]);
    StoresIngress(cfg, k, now, hs[7], fs[7], t[7], hs[8]);
    SeenToQuiet(cfg, k, t[7].1.copy.obj, t[8..], requeueAfter);
  }

  lemma OneCreateAt(t: Transcript)
    requires |t| > 7 && t[0].0.FreshGet? && t[1].0.ListNodes? && t[2].0.VpcInfo? && t[3].0.LookupLb?
    requires t[4].0.CreateLb? && t[5].0.AwaitLb? && t[6].0.PatchAnn? && t[7].0.PatchStatus? && AllQuiet(t[8..])
    ensures OneCreate(t, t[4].0.protocol)
  {
    forall i | 0 <= i < |t| && i != 4 ensures !t[i].0.CreateLb? { QuietFrom(t, 8, i); }
  }

  lemma CreationServes(cfg: Config, k: Id, now: Time, hs: seq<Share>, fs: seq<Fate>, t: Transcript, o: Object,
                       requeueAfter: int, err: bool)
    requires Chain(cfg, k, now, hs, fs, t) && WaitsEnd(t)
    requires InStep(hs[0]) && hs[0].mem.obj == o && Wanting(cfg, k, hs[0].cloud, o)
    requires CreationSaid(cfg, k, o, t, requeueAfter, err)
    ensures OneCreate(t, ProtocolFor(o.spec.ports)) && !err
    ensures ServedBy(hs[|t|].cloud, hs[|t|].versions, NameOf(cfg, k).value, ProtocolFor(o.spec.ports))
  {
    var name, protocol := NameOf(cfg, k).value, ProtocolFor(o.spec.ports);
    ComesToCreate(cfg, k, now, hs, fs, t, o, requeueAfter, err);
    var id := ComesToRecord(cfg, k, now, hs, fs, t, o, requeueAfter, err);
    ComesToServe(cfg, k, now, hs, fs, t, id, name, protocol, requeueAfter, err);
    OneCreateAt(t);
    RestKeeps(cfg, k, now, hs, fs, t, 8, |t|, name, protocol);
  }

  /** The finalizer is stored first. */
  lemma FinalizerFirst(cfg: Config, k: Id, now: Time, h: Share, f: Fate, x: (Call, Reply), h': Share)
    requires Linked(cfg, k, now, h, f, x, h') && InStep(h) && h.mem.obj.deletedAt.None?
    requires x.0 == Update(h.mem.obj.(finalizer := true))
    ensures InStep(h') && h'.cloud == h.cloud && x.1 == Stored(h'.mem) && h'.mem.obj == h.mem.obj.(finalizer := true)
  {
  }

  lemma ChainTail(cfg: Config, k: Id, now: Time, hs: seq<Share>, fs: seq<Fate>, t: Transcript)
    requires Chain(cfg, k, now, hs, fs, t) && WaitsEnd(t) && |t| > 0
    ensures Chain(cfg, k, now, hs[1..], fs[1..], t[1..]) && WaitsEnd(t[1..])
  {
    forall i | 0 <= i < |t| - 1
      ensures Linked(cfg, k, now, hs[1..][i], fs[1..][i], t[1..][i], hs[1..][i + 1])
    {
      assert Linked(cfg, k, now, hs[i + 1], fs[i + 1], t[i + 1], hs[i + 1 + 1]);
    }
    var u := t[1..];
    forall i | 0 < i < |u| && u[i - 1].0.CreateLb? && u[i - 1].1.LbOp? && u[i].1.Polls?
      ensures WaitEnds(u[i - 1].1.op, u[i].1.script)
    {
      assert u[i - 1] == t[i + 1 - 1] && u[i] == t[i + 1];
    }
  }

  lemma OneCreateLater(t: Transcript, protocol: string)
    requires |t| > 0 && OneCreate(t[1..], protocol) && !t[0].0.CreateLb?
    ensures OneCreate(t, protocol)
  {
    var u := t[1..];
    var n: nat :| n < |u| && u[n].0.CreateLb? && u[n].0.protocol == protocol &&
                  forall i | 0 <= i < |u| && i != n :: !u[i].0.CreateLb?;
    forall i | 0 <= i < |t| && i != n + 1 ensures !t[i].0.CreateLb? {
      if i > 0 { assert t[i] == u[i - 1]; }
    }
    assert t[n + 1].0.CreateLb?;
  }

  lemma PassServes(cfg: Config, k: Id, now: Time, hs: seq<Share>, fs: seq<Fate>, t: Transcript, o: Object,
                   requeueAfter: int, err: bool)
    requires Chain(cfg, k, now, hs, fs, t) && WaitsEnd(t)
    requires InStep(hs[0]) && hs[0].mem.obj == o && Wanting(cfg, k, hs[0].cloud, o)
    requires PassSaid(cfg, k, o, t, requeueAfter, err)
    ensures OneCreate(t, ProtocolFor(o.spec.ports)) && !err
    ensures ServedBy(hs[|t|].cloud, hs[|t|].versions, NameOf(cfg, k).value, ProtocolFor(o.spec.ports))
  {
    if o.finalizer {
      CreationServes(cfg, k, now, hs, fs, t, o, requeueAfter, err);
    } else {
      assert Linked(cfg, k, now, hs[0], fs[0], t[0], hs[1]);
      FinalizerFirst(cfg, k, now, hs[0], fs[0], t[0], hs[1]);
      ChainTail(cfg, k, now, hs, fs, t);
      CreationServes(cfg, k, now, hs[1..], fs[1..], t[1..], o.(finalizer := true), requeueAfter, err);
      OneCreateLater(t, ProtocolFor(o.spec.ports));
    }
  }

  lemma CurrentBegins(cfg: Config, k: Id, s: Sys)
    requires k in s.svcs && s.svcs[k].pass.Idle?
    requires var v := s.svcs[k]; |v.versions| == v.seen + 1 && v.versions[v.seen].Some?
    requires var o := Latest(s.svcs[k].versions).value; o.spec.lbClass.None? && o.deletedAt.None?
    ensures var begun := Step(cfg, s, Begin(k));
            && k in begun.svcs && begun.svcs[k].pass.Working?
            && var h := ShareOf(begun, k);
               InStep(h) && h.cloud == s.cloud && h.mem.obj == Latest(s.svcs[k].versions).value
  {
  }

  /** From any state: a pass that begins with the current snapshot of a Service that has a name and one
      protocol, and no load balancer recorded or of its name, and that meets a healthy API, sends exactly one
      create with that protocol and leaves the Service recording the one live load balancer of its name, of
      that protocol, its VIP published. */
  lemma HealthyCreates(cfg: Config, k: Id, s: Sys, acts: seq<Action>, t: Transcript, requeueAfter: int, err: bool)
    requires k in s.svcs && s.svcs[k].pass.Idle?
    requires var v := s.svcs[k]; |v.versions| == v.seen + 1 && v.versions[v.seen].Some?
    requires var o := Latest(s.svcs[k].versions).value;
             && o.spec.lbClass.None? && Wanting(cfg, k, s.cloud, o)
             && Reconciles(cfg, k, o, t, requeueAfter, err)
    requires var begun := Step(cfg, s, Begin(k)); Makes(cfg, k, begun, acts, t) && AllWell(cfg, k, begun, acts, t)
    ensures var o, s' := Latest(s.svcs[k].versions).value, Run(cfg, Step(cfg, s, Begin(k)), acts);
            && OneCreate(t, ProtocolFor(o.spec.ports)) && !err
            && k in s'.svcs && ServedBy(s'.cloud, s'.svcs[k].versions, NameOf(cfg, k).value, ProtocolFor(o.spec.ports))
  {
    var o, begun := Latest(s.svcs[k].versions).value, Step(cfg, s, Begin(k));
    CurrentBegins(cfg, k, s);
    var hs, fs := MakesChain(cfg, k, begun, acts, t);
    PassByAnswers(cfg, k, o, t, requeueAfter, err);
    PassServes(cfg, k, begun.now, hs, fs, t, o, requeueAfter, err);
  }

  /* ---- There is such a pass ---- */

  function Calls(cfg: Config, k: Id, now: Time, c: Cloud, v: Versions, w: Work, call: Call, f: Fate): Served {
    Serve(cfg, c, v, now, NameOf(cfg, k).GetOr(""), w.mem, call, f)
  }

  /** A pass at w may make these calls, which all meet the fate f, go well and are answered as in t. */
  ghost predicate Goes(cfg: Config, k: Id, now: Time, f: Fate, c: Cloud, v: Versions, w: Work, calls: seq<Call>, t: Transcript)
    decreases |calls|
  {
    if |calls| == 0 then t == []
    else
      && AllowedWorking(cfg, k, w, calls[0]) && GoesWell(cfg, k, c, calls[0], f)
      && var r := Calls(cfg, k, now, c, v, w, calls[0], f);
         && |t| > 0 && t[0] == (calls[0], r.reply)
         && Goes(cfg, k, now, f, r.cloud, r.versions, LearnWorking(w, NameOf(cfg, k).GetOr(""), calls[0], r.reply),
                 calls[1..], t[1..])
  }

  lemma FirstGoes(cfg: Config, k: Id, now: Time, f: Fate, c: Cloud, v: Versions, w: Work, call: Call, calls: seq<Call>,
                  t: Transcript)
    requires AllowedWorking(cfg, k, w, call) && GoesWell(cfg, k, c, call, f)
    requires var r := Calls(cfg, k, now, c, v, w, call, f);
             Goes(cfg, k, now, f, r.cloud, r.versions, LearnWorking(w, NameOf(cfg, k).GetOr(""), call, r.reply), calls, t)
    ensures Goes(cfg, k, now, f, c, v, w, [call] + calls, [(call, Calls(cfg, k, now, c, v, w, call, f).reply)] + t)
  {
    var x := (call, Calls(cfg, k, now, c, v, w, call, f).reply);
    assert ([call] + calls)[1..] == calls && ([x] + t)[1..] == t;
  }

  /** acts are these calls with the fate f. */
  predicate Acts(k: Id, calls: seq<Call>, f: Fate, acts: seq<Action>) {
    |acts| == |calls| && forall i | 0 <= i < |acts| :: acts[i] == Do(k, calls[i], f)
  }

  lemma MadeNow(cfg: Config, k: Id, s: Sys, w: Work, call: Call, f: Fate)
    requires k in s.svcs && s.svcs[k].pass == Working(w) && AllowedWorking(cfg, k, w, call)
    ensures var r, s' := Calls(cfg, k, s.now, s.cloud, s.svcs[k].versions, w, call, f), Step(cfg, s, Do(k, call, f));
            && CallMade(cfg, k, s, Do(k, call, f), (call, r.reply))
            && s'.now == s.now && s'.cloud == r.cloud && k in s'.svcs && s'.svcs[k].versions == r.versions
            && s'.svcs[k].pass == Working(LearnWorking(w, NameOf(cfg, k).GetOr(""), call, r.reply))
  {
  }

  /** In the whole system it makes them. */
  ghost predicate MakesWell(cfg: Config, k: Id, s: Sys, acts: seq<Action>, t: Transcript) {
    && Makes(cfg, k, s, acts, t)
    && forall i | 0 <= i < |acts| && acts[i].Do? :: GoesWell(cfg, k, Run(cfg, s, acts[..i]).cloud, acts[i].call, acts[i].fate)
  }

  lemma MakesFirst(cfg: Config, k: Id, s: Sys, acts: seq<Action>, t: Transcript)
    requires |acts| > 0 && |t| > 0 && CallMade(cfg, k, s, acts[0], t[0]) && GoesWell(cfg, k, s.cloud, acts[0].call, acts[0].fate)
    requires MakesWell(cfg, k, Step(cfg, s, acts[0]), acts[1..], t[1..])
    ensures MakesWell(cfg, k, s, acts, t)
  {
    forall i | 0 <= i < |acts|
      ensures CallMade(cfg, k, Run(cfg, s, acts[..i]), acts[i], t[i])
      ensures GoesWell(cfg, k, Run(cfg, s, acts[..i]).cloud, acts[i].call, acts[i].fate)
    {
      if i > 0 {
        RunTail(cfg, s, acts, i);
        assert CallMade(cfg, k, Run(cfg, Step(cfg, s, acts[0]), acts[1..][..i - 1]), acts[1..][i - 1], t[1..][i - 1]);
      }
    }
  }

  lemma RunTail(cfg: Config, s: Sys, acts: seq<Action>, i: nat)
    requires 0 < i <= |acts|
    ensures Run(cfg, s, acts[..i]) == Run(cfg, Step(cfg, s, acts[0]), acts[1..][..i - 1])
  {
    assert acts[..i] == [acts[0]] + acts[1..][..i - 1];
    EnsureSteps.StepFirst(cfg, s, acts[0], acts[1..][..i - 1]);
  }

  /** The first of them, as a step of the system. */
  lemma GoesFirst(cfg: Config, k: Id, s: Sys, w: Work, f: Fate, calls: seq<Call>, t: Transcript) returns (w': Work)
    requires k in s.svcs && s.svcs[k].pass == Working(w) && |calls| > 0
    requires Goes(cfg, k, s.now, f, s.cloud, s.svcs[k].versions, w, calls, t)
    ensures |t| > 0 && CallMade(cfg, k, s, Do(k, calls[0], f), t[0]) && GoesWell(cfg, k, s.cloud, calls[0], f)
    ensures var s' := Step(cfg, s, Do(k, calls[0], f));
            && k in s'.svcs && s'.svcs[k].pass == Working(w')
            && Goes(cfg, k, s'.now, f, s'.cloud, s'.svcs[k].versions, w', calls[1..], t[1..])
  {
    MadeNow(cfg, k, s, w, calls[0], f);
    w' := LearnWorking(w, NameOf(cfg, k).GetOr(""), calls[0], t[0].1);
  }

  lemma {:induction false} GoesIsRun(cfg: Config, k: Id, s: Sys, w: Work, f: Fate, calls: seq<Call>, acts: seq<Action>,
                                     t: Transcript)
    requires k in s.svcs && s.svcs[k].pass == Working(w) && Goes(cfg, k, s.now, f, s.cloud, s.svcs[k].versions, w, calls, t)
    requires Acts(k, calls, f, acts)
    ensures MakesWell(cfg, k, s, acts, t)
    decreases |calls|
  {
    if |calls| > 0 {
      var w' := GoesFirst(cfg, k, s, w, f, calls, t);
      GoesIsRun(cfg, k, Step(cfg, s, acts[0]), w', f, calls[1..], acts[1..], t[1..]);
      MakesFirst(cfg, k, s, acts, t);
    }
  }

  /** Every call is answered at once; the create gives that load balancer. */
  function Prompt(id: Id, op: Id, vip: string): Fate {
    Fate(true, true, None, false, id, op, [], LbOperation(op, "SUCCEEDED", Decoded(id, vip)), [], vip, Some(""), None)
  }

  /** The pass may look: it knows of no load balancer, and none has the name. */
  ghost predicate Looking(cfg: Config, k: Id, c: Cloud, v: Versions, w: Work, f: Fate) {
    && InStep(Share(c, v, w.mem)) && w.vips == {} && w.mem.obj.finalizer && Wanting(cfg, k, c, w.mem.obj)
    && f == Prompt(f.id, f.op, f.vip)
  }

  function PromptReply(w: Work, call: Call): Reply {
    match call
    case FreshGet => Found(w.mem)
    case ListNodes => NodeList(None)
    case VpcInfo => Vpc("")
    case _ => Lbs([])
  }

  function Learned(w: Work, call: Call): Work {
    if call.FreshGet? then w.(read := Confirmed) else if call.LookupLb? then w.(looked := true) else w
  }

  lemma PromptLooks(cfg: Config, k: Id, now: Time, c: Cloud, v: Versions, w: Work, call: Call, f: Fate)
    requires Looking(cfg, k, c, v, w, f) && (call.FreshGet? || call.ListNodes? || call.VpcInfo? || call.LookupLb?)
    ensures var r := Calls(cfg, k, now, c, v, w, call, f);
            && r.cloud == c && r.versions == v && GoesWell(cfg, k, c, call, f) && r.reply == PromptReply(w, call)
            && LearnWorking(w, NameOf(cfg, k).GetOr(""), call, r.reply) == Learned(w, call)
  {
    if call.LookupLb? {
      var r := Calls(cfg, k, now, c, v, w, call, f);
      assert r.reply == Lbs([]);
      assert w.vips + (set x | x in r.reply.items && x.name == NameOf(cfg, k).GetOr("") :: x.vip) == {};
    }
  }

  lemma LooksThen(cfg: Config, k: Id, now: Time, f: Fate, c: Cloud, v: Versions, w: Work, call: Call, calls: seq<Call>,
                  t: Transcript)
    requires Looking(cfg, k, c, v, w, f) && AllowedWorking(cfg, k, w, call)
    requires call.FreshGet? || call.ListNodes? || call.VpcInfo? || call.LookupLb?
    requires Goes(cfg, k, now, f, c, v, Learned(w, call), calls, t)
    ensures Goes(cfg, k, now, f, c, v, w, [call] + calls, [(call, PromptReply(w, call))] + t)
  {
    PromptLooks(cfg, k, now, c, v, w, call, f);
    FirstGoes(cfg, k, now, f, c, v, w, call, calls, t);
  }

  lemma PromptCreates(cfg: Config, k: Id, now: Time, c: Cloud, v: Versions, w: Work, protocol: string, listeners: seq<Listener>,
                      f: Fate)
    requires f == Prompt(f.id, f.op, f.vip) && w.mine == map[] && w.vips == {}
    requires f.op !in c.lbOps && f.id !in c.lbs && f.id != "" && f.vip != ""
    ensures var call := CreateLb(protocol, listeners);
            var r := Calls(cfg, k, now, c, v, w, call, f);
            && r.versions == v && GoesWell(cfg, k, c, call, f) && r.reply == LbOp(f.first)
            && LearnWorking(w, NameOf(cfg, k).GetOr(""), call, r.reply) == Submitted(w, protocol, f)
  {
  }

  /** The pass with the answer to its create. */
  function Submitted(w: Work, protocol: string, f: Fate): Work {
    w.(looked := false, asked := Some(Asked(f.op, protocol)), mine := map[f.id := Some(protocol)], vips := {f.vip})
  }

  lemma PromptWait(first: LbOperation, id: Id, vip: string)
    requires first.state == "SUCCEEDED" && first.result == LbResult.Decoded(id, vip)
    ensures WaitMade(first, [], id, vip) && CreatedBy(first, []) == Some((id, vip))
  {
    assert Polled(StateOf, first, [], 0);
    assert Heard(first, [], 0) == Some(first);
    WaitSaid(first, []);
  }

  lemma PromptAwaits(cfg: Config, k: Id, now: Time, c: Cloud, v: Versions, w: Work, f: Fate)
    requires w.asked.Some? && f == Prompt(f.id, f.op, f.vip)
    ensures var r := Calls(cfg, k, now, c, v, w, AwaitLb(f.op), f);
            && r.cloud == c && r.versions == v && r.reply == Polls([])
            && LearnWorking(w, NameOf(cfg, k).GetOr(""), AwaitLb(f.op), r.reply) == w
  {
    assert w.vips + PollVips([]) == w.vips;
  }

  /** Then the address is stored. */
  lemma PromptPublishes(cfg: Config, k: Id, now: Time, f: Fate, c: Cloud, v: Versions, w: Work) returns (published: Copy)
    requires f == Prompt(f.id, f.op, f.vip) && f.vip != "" && InStep(Share(c, v, w.mem))
    requires LbId in w.mem.obj.ann && w.vips == {f.vip}
    ensures Goes(cfg, k, now, f, c, v, w, [PatchStatus(f.vip)], [(PatchStatus(f.vip), Stored(published))])
    ensures published.obj.ann == w.mem.obj.ann
  {
    var r := Calls(cfg, k, now, c, v, w, PatchStatus(f.vip), f);
    published := r.reply.copy;
    FirstGoes(cfg, k, now, f, c, v, w, PatchStatus(f.vip), [], []);
    assert [PatchStatus(f.vip)] + [] == [PatchStatus(f.vip)];
  }

  lemma PromptRecords(cfg: Config, k: Id, now: Time, f: Fate, c: Cloud, v: Versions, w: Work)
    returns (calls: seq<Call>, recorded: Copy, published: Copy, t: Transcript)
    requires f == Prompt(f.id, f.op, f.vip) && f.vip != "" && InStep(Share(c, v, w.mem))
    requires LbId !in w.mem.obj.ann && OneProtocol(w.mem.obj.spec.ports)
    requires w.mine == map[f.id := Some(ProtocolFor(w.mem.obj.spec.ports))] && w.vips == {f.vip}
    ensures Goes(cfg, k, now, f, c, v, w, calls, t) && Text(published.obj.ann, Manage) == Text(w.mem.obj.ann, Manage)
    ensures t == [(PatchAnn(Diff(w.mem.obj.ann, Recording(w.mem.obj, f.id))), Stored(recorded)),
                  (PatchStatus(f.vip), Stored(published))]
  {
    var record := PatchAnn(Diff(w.mem.obj.ann, Recording(w.mem.obj, f.id)));
    var c', v';
    recorded, c', v' := PromptStores(cfg, k, now, f, c, v, w);
    published := PromptPublishes(cfg, k, now, f, c', v', w.(mem := recorded));
    FirstGoes(cfg, k, now, f, c, v, w, record, [PatchStatus(f.vip)], [(PatchStatus(f.vip), Stored(published))]);
    calls := [record] + [PatchStatus(f.vip)];
    t := [(record, Stored(recorded))] + [(PatchStatus(f.vip), Stored(published))];
  }

  lemma PromptStores(cfg: Config, k: Id, now: Time, f: Fate, c: Cloud, v: Versions, w: Work)
    returns (recorded: Copy, c': Cloud, v': Versions)
    requires f == Prompt(f.id, f.op, f.vip) && InStep(Share(c, v, w.mem))
    requires LbId !in w.mem.obj.ann && OneProtocol(w.mem.obj.spec.ports)
    requires w.mine == map[f.id := Some(ProtocolFor(w.mem.obj.spec.ports))]
    ensures var record := PatchAnn(Diff(w.mem.obj.ann, Recording(w.mem.obj, f.id)));
            && AllowedWorking(cfg, k, w, record) && GoesWell(cfg, k, c, record, f)
            && Calls(cfg, k, now, c, v, w, record, f) == Served(c', v', Stored(recorded))
            && LearnWorking(w, NameOf(cfg, k).GetOr(""), record, Stored(recorded)) == w.(mem := recorded)
    ensures InStep(Share(c', v', recorded)) && recorded.obj.ann == Recording(w.mem.obj, f.id)
  {
    var after := Recording(w.mem.obj, f.id);
    PatchExact(w.mem.obj.ann, after, w.mem.obj.ann);
    DerivesSaid(w.mem.obj.spec.ports);
    MayRecord(cfg, k, w, f.id, ProtocolFor(w.mem.obj.spec.ports));
    var r := Calls(cfg, k, now, c, v, w, PatchAnn(Diff(w.mem.obj.ann, after)), f);
    recorded, c', v' := r.reply.copy, r.cloud, r.versions;
  }

  ghost function Recording(o: Object, id: Id): Annotations {
    o.ann[LbId := id][LbProtocol := ProtocolFor(o.spec.ports)]
  }

  lemma AwaitsThen(cfg: Config, k: Id, now: Time, f: Fate, c: Cloud, v: Versions, w: Work, calls: seq<Call>, t: Transcript)
    requires w.asked.Some? && w.asked.value.op == f.op && f == Prompt(f.id, f.op, f.vip)
    requires Goes(cfg, k, now, f, c, v, w, calls, t)
    ensures Goes(cfg, k, now, f, c, v, w, [AwaitLb(f.op)] + calls, [(AwaitLb(f.op), Polls([]))] + t)
  {
    PromptAwaits(cfg, k, now, c, v, w, f);
    FirstGoes(cfg, k, now, f, c, v, w, AwaitLb(f.op), calls, t);
  }

  lemma CreatesThen(cfg: Config, k: Id, now: Time, f: Fate, c: Cloud, v: Versions, w: Work, calls: seq<Call>, t: Transcript)
    requires Looking(cfg, k, c, v, w, f) && w.read.Confirmed? && w.looked && w.mine == map[]
    requires f.op !in c.lbOps && f.id !in c.lbs && f.id != "" && f.vip != ""
    requires var call := PromptCreate(w.mem.obj);
             Goes(cfg, k, now, f, Calls(cfg, k, now, c, v, w, call, f).cloud, v, Submitted(w, call.protocol, f), calls, t)
    ensures var call := PromptCreate(w.mem.obj);
            Goes(cfg, k, now, f, c, v, w, [call] + calls, [(call, LbOp(f.first))] + t)
  {
    var ports := w.mem.obj.spec.ports;
    DerivesSaid(ports);
    PromptCreates(cfg, k, now, c, v, w, ProtocolFor(ports), Payload(ports, None), f);
    FirstGoes(cfg, k, now, f, c, v, w, PromptCreate(w.mem.obj), calls, t);
  }

  ghost function PromptCreate(o: Object): (call: Call)
    ensures call.CreateLb?
  {
    CreateLb(ProtocolFor(o.spec.ports), Payload(o.spec.ports, None))
  }

  /** From the create on. */
  lemma PromptMakes(cfg: Config, k: Id, now: Time, f: Fate, c: Cloud, v: Versions, w: Work)
    returns (calls: seq<Call>, recorded: Copy, published: Copy, t: Transcript)
    requires Looking(cfg, k, c, v, w, f) && w.read.Confirmed? && w.looked && w.mine == map[]
    requires f.op !in c.lbOps && f.id !in c.lbs && f.id != "" && f.vip != ""
    ensures Goes(cfg, k, now, f, c, v, w, calls, t) && Text(published.obj.ann, Manage) == Text(w.mem.obj.ann, Manage)
    ensures t == PromptMade(w.mem.obj, f, recorded, published)
  {
    var create := PromptCreate(w.mem.obj);
    var c', w' := Calls(cfg, k, now, c, v, w, create, f).cloud, Submitted(w, create.protocol, f);
    calls, recorded, published, t := PromptRecords(cfg, k, now, f, c', v, w');
    AwaitsThen(cfg, k, now, f, c', v, w', calls, t);
    calls, t := [AwaitLb(f.op)] + calls, [(AwaitLb(f.op), Polls([]))] + t;
    CreatesThen(cfg, k, now, f, c, v, w, calls, t);
    calls, t := [create] + calls, [(create, LbOp(f.first))] + t;
  }

  /** From the VPC lookup on. */
  lemma PromptLists(cfg: Config, k: Id, now: Time, f: Fate, c: Cloud, v: Versions, w: Work)
    returns (calls: seq<Call>, recorded: Copy, published: Copy, t: Transcript)
    requires Looking(cfg, k, c, v, w, f) && w == Work(w.mem, Confirmed, false, None, map[], {}, {}, {})
    requires f.op !in c.lbOps && f.id !in c.lbs && f.id != "" && f.vip != ""
    ensures Goes(cfg, k, now, f, c, v, w, calls, t) && Text(published.obj.ann, Manage) == Text(w.mem.obj.ann, Manage)
    ensures t == [(VpcInfo, Vpc("")), (LookupLb, Lbs([]))] + PromptMade(w.mem.obj, f, recorded, published)
  {
    calls, recorded, published, t := PromptMakes(cfg, k, now, f, c, v, w.(looked := true));
    LooksThen(cfg, k, now, f, c, v, w, LookupLb, calls, t);
    calls, t := [LookupLb] + calls, [(LookupLb, Lbs([]))] + t;
    LooksThen(cfg, k, now, f, c, v, w, VpcInfo, calls, t);
    calls, t := [VpcInfo] + calls, [(VpcInfo, Vpc(""))] + t;
  }

  /** The whole of it. */
  lemma PromptPass(cfg: Config, k: Id, now: Time, f: Fate, c: Cloud, v: Versions, w: Work)
    returns (calls: seq<Call>, recorded: Copy, published: Copy, t: Transcript)
    requires Looking(cfg, k, c, v, w, f) && w == Work(w.mem, Unread, false, None, map[], {}, {}, {})
    requires f.op !in c.lbOps && f.id !in c.lbs && f.id != "" && f.vip != ""
    ensures Goes(cfg, k, now, f, c, v, w, calls, t) && Text(published.obj.ann, Manage) == Text(w.mem.obj.ann, Manage)
    ensures t == PromptLog(w.mem, f, recorded, published)
  {
    var w' := w.(read := Confirmed);
    calls, recorded, published, t := PromptLists(cfg, k, now, f, c, v, w');
    LooksThen(cfg, k, now, f, c, v, w', ListNodes, calls, t);
    calls, t := [ListNodes] + calls, [(ListNodes, NodeList(None))] + t;
    LooksThen(cfg, k, now, f, c, v, w, FreshGet, calls, t);
    calls, t := [FreshGet] + calls, [(FreshGet, Found(w.mem))] + t;
  }

  /** What is heard, from the create on and in all. */
  ghost function PromptMade(o: Object, f: Fate, recorded: Copy, published: Copy): Transcript {
    [(PromptCreate(o), LbOp(f.first)), (AwaitLb(f.op), Polls([]))] +
    [(PatchAnn(Diff(o.ann, Recording(o, f.id))), Stored(recorded)), (PatchStatus(f.vip), Stored(published))]
  }

  ghost function PromptLog(mem: Copy, f: Fate, recorded: Copy, published: Copy): Transcript {
    [(FreshGet, Found(mem)), (ListNodes, NodeList(None))] +
    ([(VpcInfo, Vpc("")), (LookupLb, Lbs([]))] + PromptMade(mem.obj, f, recorded, published))
  }

  /** These calls are a whole pass over an unmanaged Service. */
  lemma PromptReconciles(cfg: Config, k: Id, mem: Copy, f: Fate, recorded: Copy, published: Copy, t: Transcript)
    requires mem.obj.finalizer && LbId !in mem.obj.ann && mem.obj.deletedAt.None? && OneProtocol(mem.obj.spec.ports)
    requires NameOf(cfg, k).Some? && f == Prompt(f.id, f.op, f.vip) && f.vip != "" && !Managed(published.obj)
    requires t == PromptLog(mem, f, recorded, published)
    ensures Reconciles(cfg, k, mem.obj, t, 0, false)
  {
    var o, protocol := mem.obj, ProtocolFor(mem.obj.spec.ports);
    var listed := [(LookupLb, Lbs([]))] + PromptMade(o, f, recorded, published);
    DerivesSaid(o.spec.ports);
    FilterIdentity(o.spec.ports, protocol);
    PromptAdoptsOrCreates(cfg, k, o, f, recorded, published);
    assert t[1..][2..] == listed;
    assert Prepares(cfg, k, o, protocol, t[1..], 0, false);
  }

  lemma PromptAdoptsOrCreates(cfg: Config, k: Id, o: Object, f: Fate, recorded: Copy, published: Copy)
    requires NameOf(cfg, k).Some? && f == Prompt(f.id, f.op, f.vip) && f.vip != "" && !Managed(published.obj)
    ensures AdoptsOrCreates(cfg, k, o.ann, NameOf(cfg, k).value, ProtocolFor(o.spec.ports), Payload(o.spec.ports, None),
                            [(LookupLb, Lbs([]))] + PromptMade(o, f, recorded, published), 0, false)
  {
    var made := PromptMade(o, f, recorded, published);
    PromptCreatesAndRecords(cfg, k, o, f, recorded, published);
    assert ([(LookupLb, Lbs([]))] + made)[1..] == made;
  }

  lemma PromptCreatesAndRecords(cfg: Config, k: Id, o: Object, f: Fate, recorded: Copy, published: Copy)
    requires f == Prompt(f.id, f.op, f.vip) && f.vip != "" && !Managed(published.obj)
    ensures CreatesAndRecords(cfg, k, o.ann, ProtocolFor(o.spec.ports), Payload(o.spec.ports, None),
                              PromptMade(o, f, recorded, published), 0, false)
  {
    var t := PromptMade(o, f, recorded, published);
    PromptWait(f.first, f.id, f.vip);
    assert t[2..][2..] == [];
    assert Records(cfg, k, o.ann, f.id, f.vip, ProtocolFor(o.spec.ports), t[2..], 0, false);
  }

  /** So a healthy creating pass is possible for every unmanaged Service that holds the finalizer. */
  lemma HealthyPassExists(cfg: Config, k: Id, s: Sys, id: Id, op: Id, vip: string) returns (acts: seq<Action>, t: Transcript)
    requires k in s.svcs && s.svcs[k].pass.Idle?
    requires var v := s.svcs[k]; |v.versions| == v.seen + 1 && v.versions[v.seen].Some?
    requires var o := Latest(s.svcs[k].versions).value;
             o.spec.lbClass.None? && o.finalizer && !Managed(o) && Wanting(cfg, k, s.cloud, o)
    requires id !in s.cloud.lbs && id != "" && op !in s.cloud.lbOps && vip != ""
    ensures var o, begun := Latest(s.svcs[k].versions).value, Step(cfg, s, Begin(k));
            Makes(cfg, k, begun, acts, t) && AllWell(cfg, k, begun, acts, t) && Reconciles(cfg, k, o, t, 0, false)
  {
    var begun, f := Step(cfg, s, Begin(k)), Prompt(id, op, vip);
    CurrentBegins(cfg, k, s);
    var w := begun.svcs[k].pass.work;
    var calls, recorded, published;
    calls, recorded, published, t := PromptPass(cfg, k, begun.now, f, begun.cloud, begun.svcs[k].versions, w);
    acts := seq(|calls|, i requires 0 <= i < |calls| => Do(k, calls[i], f));
    GoesIsRun(cfg, k, begun, w, f, calls, acts, t);
    PromptReconciles(cfg, k, w.mem, f, recorded, published, t);
    PromptWaits(w.mem, f, recorded, published);
  }

  lemma PromptWaits(mem: Copy, f: Fate, recorded: Copy, published: Copy)
    requires f == Prompt(f.id, f.op, f.vip) && f.id != "" && f.vip != ""
    ensures WaitsEnd(PromptLog(mem, f, recorded, published))
  {
    PromptWait(f.first, f.id, f.vip);
    assert WaitEnds(f.first, []);
  }
}