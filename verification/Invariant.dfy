/** What every reachable state satisfies, however passes, users, caches and failures interleave. */
module Invariant {
  import opened Wrappers
  import opened MergePatch
  import opened Ports
  import opened Model
  import opened Protocol

  predicate NamedLb(c: Cloud, i: Id, name: string) { i in c.lbs && c.lbs[i].name == name }

  /** A listed item is a view of the load balancer of its id. */
  predicate Shows(cfg: Config, c: Cloud, v: LbView) {
    v.id in c.lbs && (v == View(cfg, c, v.id, true) || v == View(cfg, c, v.id, false))
  }

  ghost predicate HasProtocol(c: Cloud, name: string, protocol: string) {
    exists i :: NamedLb(c, i, name) && c.lbs[i].protocol == protocol
  }

  ghost predicate CloudInv(cfg: Config, c: Cloud) {
    && (forall i | i in c.live :: i in c.lbs) && "" !in c.lbs
    && (forall i, j | i in c.lbs && j in c.lbs && c.lbs[i].name == c.lbs[j].name :: i == j)
    && (forall i | i in c.lbs :: Known(c.lbs[i].protocol))
    && (forall o | o in c.lbOps && c.lbOps[o].Some? :: c.lbOps[o].value in c.lbs)
    && UniqueRules(c)
    && (forall i | i in c.rules :: i in c.spent)
    && "" !in c.ops
    && (forall o | o in c.aged :: o in c.ops && !c.ops[o].InFlight?)
  }

  /** Stored annotations: id and protocol come together, and both are this Service's. */
  ghost predicate RecordOk(cfg: Config, c: Cloud, k: Id, ann: Annotations) {
    && (LbId in ann <==> LbProtocol in ann)
    && (LbId in ann ==>
          && NameOf(cfg, k).Some? && Known(ann[LbProtocol])
          && (ann[LbId] != "" ==> NamedLb(c, ann[LbId], NameOf(cfg, k).value))
          && (cfg.reports ==> HasProtocol(c, NameOf(cfg, k).value, ann[LbProtocol])))
  }

  /** Gone stays gone, deleted stays deleted, and our finalizer and the record of a load balancer
      stay until the Service is gone. */
  ghost predicate VersionsOk(v: Versions) {
    && |v| > 0
    && (forall i, j | 0 <= i <= j < |v| && v[i].None? :: v[j].None?)
    && (forall i, j | 0 <= i <= j < |v| && Deleted(v[i]) :: Deleted(v[j]))
    && (forall i, j | 0 <= i <= j < |v| && v[i].Some? && v[j].Some? && v[i].value.finalizer :: v[j].value.finalizer)
    && (forall i, j | 0 <= i <= j < |v| && v[i].Some? && v[j].Some? && LbId in v[i].value.ann :: LbId in v[j].value.ann)
  }

  predicate MemOk(v: Versions, mem: Copy) { mem.version < |v| && v[mem.version] == Some(mem.obj) }

  ghost predicate Mine(cfg: Config, c: Cloud, k: Id, mine: map<Id, Option<string>>) {
    forall id | id in mine :: MineOk(cfg, c, k, id, mine[id])
  }

  ghost predicate MineOk(cfg: Config, c: Cloud, k: Id, id: Id, protocol: Option<string>) {
    && NameOf(cfg, k).Some?
    && (id != "" ==> NamedLb(c, id, NameOf(cfg, k).value))
    && (protocol.Some? ==> HasProtocol(c, NameOf(cfg, k).value, protocol.value))
    && (cfg.reports ==> protocol.Some?)
  }

  ghost predicate AskedOk(cfg: Config, c: Cloud, k: Id, a: Asked) {
    && a.op in c.lbOps && NameOf(cfg, k).Some?
    && (c.lbOps[a.op].Some? ==>
          && NamedLb(c, c.lbOps[a.op].value, NameOf(cfg, k).value)
          && c.lbs[c.lbOps[a.op].value].protocol == a.protocol)
  }

  ghost predicate WorkInv(cfg: Config, c: Cloud, k: Id, v: Svc, w: Work) {
    && MemOk(v.versions, w.mem) && !v.cleaned
    && (w.read.Confirmed? ==> w.mem.obj.finalizer && Latest(v.versions).Some?)
    && (w.looked ==> NameOf(cfg, k).Some? && forall i :: !NamedLb(c, i, NameOf(cfg, k).value))
    && (w.asked.Some? ==> AskedOk(cfg, c, k, w.asked.value))
    && Mine(cfg, c, k, w.mine)
  }

  ghost predicate CleanInv(cfg: Config, c: Cloud, k: Id, v: Svc, p: Clean) {
    && MemOk(v.versions, p.start) && MemOk(v.versions, p.mem) && v.cleaned
    && p.start.obj.deletedAt.Some? && p.start.obj.finalizer && p.mem.obj.deletedAt.Some?
    && (p.lb.Gone? && Text(p.start.obj.ann, LbId) != "" ==> Text(p.start.obj.ann, LbId) !in c.live)
    && (p.lb.Present? ==> Text(p.start.obj.ann, LbId) != "")
  }

  ghost predicate SvcInv(cfg: Config, c: Cloud, k: Id, v: Svc) {
    && VersionsOk(v.versions) && v.seen < |v.versions|
    && (forall i | 0 <= i < |v.versions| && v.versions[i].Some? :: RecordOk(cfg, c, k, v.versions[i].value.ann))
    && (v.cleaned ==> Deleted(v.versions[v.seen]))
    && (NameOf(cfg, k).Some? ==> forall i | NamedLb(c, i, NameOf(cfg, k).value) && i !in c.live :: v.cleaned)
    && (v.pass.Working? ==> WorkInv(cfg, c, k, v, v.pass.work))
    && (v.pass.Cleaning? ==> CleanInv(cfg, c, k, v, v.pass.clean))
  }

  ghost predicate Inv(cfg: Config, s: Sys) {
    && CloudInv(cfg, s.cloud)
    && forall k | k in s.svcs :: SvcInv(cfg, s.cloud, k, s.svcs[k])
  }

  /* ---- Cloud changes that do not concern a Service ---- */

  /** Load balancers of the given name are the same before and after, and none is forgotten. */
  ghost predicate LbStable(c: Cloud, c': Cloud, name: Option<string>) {
    && (forall i | i in c.lbs :: i in c'.lbs && c'.lbs[i] == c.lbs[i])
    && (forall o | o in c.lbOps :: o in c'.lbOps && c'.lbOps[o] == c.lbOps[o])
    && (name.Some? ==> forall i | NamedLb(c', i, name.value) :: i in c.lbs && (i in c.live <==> i in c'.live))
    && (forall i | i in c'.live :: i in c.live || (i in c'.lbs && i !in c.lbs))
  }

  lemma RecordStable(cfg: Config, c: Cloud, c': Cloud, k: Id, ann: Annotations)
    requires RecordOk(cfg, c, k, ann)
    requires forall i | i in c.lbs :: i in c'.lbs && c'.lbs[i] == c.lbs[i]
    ensures RecordOk(cfg, c', k, ann)
  {
    if LbId in ann && cfg.reports {
      HasStable(c, c', NameOf(cfg, k).value, ann[LbProtocol]);
    }
  }

  lemma HasStable(c: Cloud, c': Cloud, name: string, protocol: string)
    requires HasProtocol(c, name, protocol)
    requires forall i | i in c.lbs :: i in c'.lbs && c'.lbs[i] == c.lbs[i]
    ensures HasProtocol(c', name, protocol)
  {
    var i :| NamedLb(c, i, name) && c.lbs[i].protocol == protocol;
    assert NamedLb(c', i, name);
  }

  lemma MineStable(cfg: Config, c: Cloud, c': Cloud, k: Id, mine: map<Id, Option<string>>)
    requires Mine(cfg, c, k, mine)
    requires forall i | i in c.lbs :: i in c'.lbs && c'.lbs[i] == c.lbs[i]
    ensures Mine(cfg, c', k, mine)
  {
    forall id | id in mine ensures MineOk(cfg, c', k, id, mine[id]) {
      assert MineOk(cfg, c, k, id, mine[id]);
      if mine[id].Some? { HasStable(c, c', NameOf(cfg, k).value, mine[id].value); }
    }
  }

  lemma SvcStable(cfg: Config, c: Cloud, c': Cloud, k: Id, v: Svc)
    requires CloudInv(cfg, c) && SvcInv(cfg, c, k, v) && LbStable(c, c', NameOf(cfg, k))
    ensures SvcInv(cfg, c', k, v)
  {
    forall i | 0 <= i < |v.versions| && v.versions[i].Some? ensures RecordOk(cfg, c', k, v.versions[i].value.ann) {
      RecordStable(cfg, c, c', k, v.versions[i].value.ann);
    }
    if v.pass.Working? {
      MineStable(cfg, c, c', k, v.pass.work.mine);
      if v.pass.work.looked {
        forall i ensures !NamedLb(c', i, NameOf(cfg, k).value) {
          assert !NamedLb(c, i, NameOf(cfg, k).value);
        }
      }
    }
    if v.pass.Cleaning? {
      var id := Text(v.pass.clean.start.obj.ann, LbId);
      assert RecordOk(cfg, c, k, v.versions[v.pass.clean.start.version].value.ann);
      assert id != "" ==> NamedLb(c, id, NameOf(cfg, k).value);
    }
  }

  /* ---- Stored versions ---- */

  lemma AppendVersion(cfg: Config, c: Cloud, k: Id, v: Svc, o: Option<Object>)
    requires SvcInv(cfg, c, k, v) && Latest(v.versions).Some?
    requires var was := Latest(v.versions).value;
             && (was.deletedAt.Some? ==> Deleted(o))
             && (o.Some? && was.finalizer ==> o.value.finalizer)
             && (o.Some? && LbId in was.ann ==> LbId in o.value.ann)
    requires o.Some? ==> RecordOk(cfg, c, k, o.value.ann)
    requires o.None? && v.pass.Working? ==> !Latest(v.versions).value.finalizer
    ensures SvcInv(cfg, c, k, v.(versions := v.versions + [o]))
  {
    var n := |v.versions|;
    assert Latest(v.versions) == v.versions[n - 1];
    if v.pass.Working? && v.pass.work.read.Confirmed? {
      assert v.versions[v.pass.work.mem.version].value.finalizer;
    }
  }

  lemma RecordKept(cfg: Config, c: Cloud, k: Id, a: Annotations, b: Annotations)
    requires RecordOk(cfg, c, k, a)
    requires Get(a, LbId) == Get(b, LbId) && Get(a, LbProtocol) == Get(b, LbProtocol)
    ensures RecordOk(cfg, c, k, b)
  {
  }

  /** A recording patch writes both halves, from a load balancer known to be this Service's. */
  lemma RecordWritten(cfg: Config, c: Cloud, k: Id, v: Svc, diff: Patch<Key, string>, ann: Annotations)
    requires SvcInv(cfg, c, k, v) && v.pass.Working? && RecordsLb(v.pass.work, diff)
    requires RecordOk(cfg, c, k, ann)
    ensures RecordOk(cfg, c, k, Apply(diff, ann)) && LbId in Apply(diff, ann)
  {
    var w := v.pass.work;
    var mem := w.mem.obj.ann;
    assert RecordOk(cfg, c, k, v.versions[w.mem.version].value.ann);
    assert LbProtocol !in mem;
    var id := diff[LbId].value;
    var protocol := if LbProtocol in diff then diff[LbProtocol].GetOr("") else Text(mem, LbProtocol);
    var after := mem[LbId := id][LbProtocol := protocol];
    PatchExact(mem, after, ann);
    var r := Apply(diff, ann);
    assert Get(r, LbId) == Some(id) && Get(r, LbProtocol) == Some(protocol);
    assert MineOk(cfg, c, k, id, w.mine[id]);
  }

  /* ---- Calls that only concern the stored Service ---- */

  /** What a call on the stored Service leaves behind and tells its pass. */
  ghost predicate ObjectOk(cfg: Config, c: Cloud, k: Id, v: Svc, call: Call, r: Served) {
    && r.cloud == c && SvcInv(cfg, c, k, v.(versions := r.versions))
    && (r.reply.Stored? ==>
          && (v.pass.Working? || call.PatchAnn? ==> MemOk(r.versions, r.reply.copy))
          && (v.pass.Cleaning? && call.PatchAnn? ==> r.reply.copy.obj.deletedAt.Some?)
          && (v.pass.Working? && v.pass.work.mem.obj.finalizer ==> r.reply.copy.obj.finalizer))
    && (r.reply.Found? ==> Latest(r.versions).Some?)
  }

  /** What the pass last saw still holds of the newest stored version. */
  lemma NewestKeeps(cfg: Config, c: Cloud, k: Id, v: Svc)
    requires SvcInv(cfg, c, k, v) && !v.pass.Idle? && Latest(v.versions).Some?
    ensures var mem, now := PassMem(v.pass).obj, Latest(v.versions).value;
            && (mem.finalizer ==> now.finalizer) && (mem.deletedAt.Some? ==> now.deletedAt.Some?)
            && RecordOk(cfg, c, k, now.ann) && RecordOk(cfg, c, k, mem.ann)
  {
    var n := |v.versions|;
    assert Latest(v.versions) == v.versions[n - 1];
    assert MemOk(v.versions, PassMem(v.pass));
    var m := PassMem(v.pass).version;
    assert v.versions[m].Some? && v.versions[n - 1].Some?;
  }

  lemma WriteOk(cfg: Config, c: Cloud, k: Id, v: Svc, call: Call, f: Fate, o: Object)
    requires SvcInv(cfg, c, k, v) && !v.pass.Idle? && Latest(v.versions).Some? && !call.Update?
    requires var now := Latest(v.versions).value;
             o.deletedAt == now.deletedAt && o.finalizer == now.finalizer && RecordOk(cfg, c, k, o.ann) &&
             (LbId in now.ann ==> LbId in o.ann)
    ensures ObjectOk(cfg, c, k, v, call, Write(c, v.versions, f, o))
  {
    NewestKeeps(cfg, c, k, v);
    AppendVersion(cfg, c, k, v, Some(o));
    assert v.(versions := v.versions) == v;
  }

  lemma UpdateOk(cfg: Config, c: Cloud, k: Id, v: Svc, o: Object, f: Fate)
    requires SvcInv(cfg, c, k, v) && !v.pass.Idle? && Allowed(cfg, k, v.pass, Update(o))
    ensures ObjectOk(cfg, c, k, v, Update(o), ServeObject(c, v.versions, PassMem(v.pass), Update(o), f))
  {
    assert v.(versions := v.versions) == v;
    if Latest(v.versions).Some? {
      NewestKeeps(cfg, c, k, v);
      if PassMem(v.pass).version == |v.versions| - 1 {
        assert Latest(v.versions).value == PassMem(v.pass).obj;
        AppendVersion(cfg, c, k, v, if o.deletedAt.Some? && !o.finalizer then None else Some(o));
      }
    }
  }

  /** Any other patch leaves the record alone. */
  lemma OtherPatch(cfg: Config, c: Cloud, k: Id, p: Pass, diff: Patch<Key, string>, ann: Annotations)
    requires Allowed(cfg, k, p, PatchAnn(diff)) && (p.Working? ==> !RecordsLb(p.work, diff)) && RecordOk(cfg, c, k, ann)
    ensures RecordOk(cfg, c, k, Apply(diff, ann)) && (LbId in ann ==> LbId in Apply(diff, ann))
  {
    assert LbId !in diff && LbProtocol !in diff;
    var r := Apply(diff, ann);
    assert Get(r, LbId) == Get(ann, LbId) && Get(r, LbProtocol) == Get(ann, LbProtocol);
    RecordKept(cfg, c, k, ann, r);
  }

  lemma PatchOk(cfg: Config, c: Cloud, k: Id, v: Svc, diff: Patch<Key, string>, f: Fate)
    requires SvcInv(cfg, c, k, v) && !v.pass.Idle? && Allowed(cfg, k, v.pass, PatchAnn(diff))
    ensures ObjectOk(cfg, c, k, v, PatchAnn(diff), ServeObject(c, v.versions, PassMem(v.pass), PatchAnn(diff), f))
  {
    assert v.(versions := v.versions) == v;
    if Latest(v.versions).Some? {
      NewestKeeps(cfg, c, k, v);
      var now := Latest(v.versions).value;
      var ann := Apply(diff, now.ann);
      if v.pass.Working? && RecordsLb(v.pass.work, diff) {
        RecordWritten(cfg, c, k, v, diff, now.ann);
      } else {
        OtherPatch(cfg, c, k, v.pass, diff, now.ann);
      }
      WriteOk(cfg, c, k, v, PatchAnn(diff), f, now.(ann := ann));
    }
  }

  lemma DoObject(cfg: Config, c: Cloud, k: Id, v: Svc, call: Call, f: Fate)
    requires SvcInv(cfg, c, k, v) && !v.pass.Idle? && Allowed(cfg, k, v.pass, call)
    requires call.Update? || call.PatchAnn? || call.PatchStatus? || call.FreshGet?
    ensures ObjectOk(cfg, c, k, v, call, ServeObject(c, v.versions, PassMem(v.pass), call, f))
  {
    assert v.(versions := v.versions) == v;
    match call
    case Update(o) => UpdateOk(cfg, c, k, v, o, f);
    case PatchAnn(diff) => PatchOk(cfg, c, k, v, diff, f);
    case PatchStatus(vip) =>
      if Latest(v.versions).Some? {
        NewestKeeps(cfg, c, k, v);
        WriteOk(cfg, c, k, v, call, f, Latest(v.versions).value.(ingress := [vip]));
      }
    case FreshGet =>
  }
}
