/** The API server, the informer cache and the cloud as one controller pass meets them: between any
    two calls everybody else may act, and each call has whatever fate it has. */
module Apis {
  import opened Wrappers
  import opened MergePatch
  import opened Polling
  import opened Model
  import opened Protocol
  import opened Invariant
  import opened InvariantProof
  import opened Tracking
  import opened FirewallPass
  import opened DeletionPass

  /* ---- Everybody else ---- */

  predicate ByOthers(acts: seq<Action>, k: Id) {
    forall a | a in acts :: a != Begin(k) && a != End(k) && !(a.Do? && a.k == k)
  }

  ghost predicate Reached(cfg: Config, k: Id, s: Sys, t: Sys) {
    exists acts :: ByOthers(acts, k) && t == Run(cfg, s, acts)
  }

  lemma {:induction false} RunConcat(cfg: Config, s: Sys, a: seq<Action>, b: seq<Action>)
    ensures Run(cfg, s, a + b) == Run(cfg, Run(cfg, s, a), b)
    decreases |b|
  {
    if |b| == 0 {
      assert a + b == a;
    } else {
      RunConcat(cfg, s, a, b[..|b| - 1]);
      assert (a + b)[..|a + b| - 1] == a + b[..|b| - 1];
    }
  }

  /** Nobody else moves k's pass. */
  lemma {:induction false} OthersKeepPass(cfg: Config, k: Id, s: Sys, acts: seq<Action>)
    requires k in s.svcs && ByOthers(acts, k)
    ensures var t := Run(cfg, s, acts); k in t.svcs && t.svcs[k].pass == s.svcs[k].pass
    decreases |acts|
  {
    if |acts| > 0 {
      OthersKeepPass(cfg, k, s, acts[..|acts| - 1]);
      OtherKeepsPass(cfg, k, Run(cfg, s, acts[..|acts| - 1]), acts[|acts| - 1]);
    }
  }

  lemma OtherKeepsPass(cfg: Config, k: Id, s: Sys, a: Action)
    requires k in s.svcs && a != Begin(k) && a != End(k) && !(a.Do? && a.k == k)
    ensures k in Step(cfg, s, a).svcs && Step(cfg, s, a).svcs[k].pass == s.svcs[k].pass
  {
  }

  /* ---- What an answer looks like ---- */

  /** What the stored Service is known to have kept. */
  predicate Carries(mem: Object, now: Object) {
    && (mem.finalizer ==> now.finalizer) && (LbId in mem.ann ==> LbId in now.ann)
    && (|mem.ingress| > 0 ==> |now.ingress| > 0)
  }

  /** Equal ids are the same load balancer. */
  predicate Consistent(items: seq<LbView>) {
    forall i, j | 0 <= i < |items| && 0 <= j < |items| && items[i].id == items[j].id :: items[i] == items[j]
  }

  ghost predicate Shape(mem: Object, call: Call, reply: Reply) {
    match call
    case Update(o) => reply.Refused? || (reply.Stored? && reply.copy.obj == o)
    case PatchAnn(diff) =>
      reply.Refused? || (reply.Stored? && Carries(mem, reply.copy.obj) &&
                         forall key | key in diff :: Get(reply.copy.obj.ann, key) == diff[key])
    case PatchStatus(vip) => reply.Refused? || (reply.Stored? && Carries(mem, reply.copy.obj) && reply.copy.obj.ingress == [vip])
    case LookupLb => reply.Refused? || (reply.Lbs? && Consistent(reply.items))
    case AwaitLb(_) => reply.Polls?
    case CreateRule(_) => reply.Refused? || (reply.RuleOp? && Get(mem.ann, OpId) != Some(reply.opId))
    case Clock => reply.At?
    case ListNodes => reply.NodeList?
    case _ => !reply.Stored?
  }

  lemma ObjectShape(cfg: Config, s: Sys, k: Id, call: Call, f: Fate)
    requires Inv(cfg, s) && Tracks(cfg, s) && k in s.svcs && !s.svcs[k].pass.Idle?
    requires call.Update? || call.PatchAnn? || call.PatchStatus? || call.FreshGet?
    requires call.PatchAnn? ==> LbId !in call.diff || LbId !in PassMem(s.svcs[k].pass).obj.ann
    ensures Shape(PassMem(s.svcs[k].pass).obj, call, DoCall(cfg, s, k, call, f).reply)
  {
    var v := s.svcs[k];
    if Latest(v.versions).Some? && (call.PatchAnn? || call.PatchStatus?) {
      LatestCarries(cfg, s.cloud, k, v);
      if call.PatchAnn? {
        var now := Latest(v.versions).value;
        assert Get(Apply(call.diff, now.ann), LbId) == if LbId in call.diff then call.diff[LbId] else Get(now.ann, LbId);
      }
    }
  }

  lemma KeepsLb(cfg: Config, k: Id, p: Pass, diff: Patch<Key, string>)
    requires Allowed(cfg, k, p, PatchAnn(diff))
    ensures LbId !in diff || LbId !in PassMem(p).obj.ann
  {
  }

  lemma LatestCarries(cfg: Config, c: Cloud, k: Id, v: Svc)
    requires SvcInv(cfg, c, k, v) && SvcTracks(c, v, NameOf(cfg, k)) && !v.pass.Idle? && Latest(v.versions).Some?
    ensures Carries(PassMem(v.pass).obj, Latest(v.versions).value)
  {
    var n, m := |v.versions|, PassMem(v.pass).version;
    assert Latest(v.versions) == v.versions[n - 1] && MemOk(v.versions, PassMem(v.pass));
    assert v.versions[m].Some? && v.versions[n - 1].Some?;
  }

  lemma CreateShape(cfg: Config, s: Sys, k: Id, call: Call, f: Fate)
    requires Inv(cfg, s) && Tracks(cfg, s) && k in s.svcs && s.svcs[k].pass.Working? && call.CreateRule?
    ensures Shape(PassMem(s.svcs[k].pass).obj, call, DoCall(cfg, s, k, call, f).reply)
  {
    MemKnows(cfg, s.cloud, k, s.svcs[k]);
  }

  lemma OtherShape(cfg: Config, s: Sys, k: Id, call: Call, f: Fate)
    requires k in s.svcs && !s.svcs[k].pass.Idle?
    requires !call.Update? && !call.PatchAnn? && !call.PatchStatus? && !call.FreshGet? && !call.CreateRule?
    ensures Shape(PassMem(s.svcs[k].pass).obj, call, DoCall(cfg, s, k, call, f).reply)
  {
  }

  lemma ReplyShape(cfg: Config, s: Sys, k: Id, call: Call, f: Fate)
    requires Inv(cfg, s) && Tracks(cfg, s) && k in s.svcs && !s.svcs[k].pass.Idle? && Allowed(cfg, k, s.svcs[k].pass, call)
    ensures Shape(PassMem(s.svcs[k].pass).obj, call, DoCall(cfg, s, k, call, f).reply)
  {
    if call.Update? || call.PatchAnn? || call.PatchStatus? || call.FreshGet? {
      if call.PatchAnn? { KeepsLb(cfg, k, s.svcs[k].pass, call.diff); }
      ObjectShape(cfg, s, k, call, f);
    } else if call.CreateRule? {
      NotCleaning(cfg, k, s.svcs[k].pass, call);
      CreateShape(cfg, s, k, call, f);
    } else {
      OtherShape(cfg, s, k, call, f);
    }
  }

  lemma NotCleaning(cfg: Config, k: Id, p: Pass, call: Call)
    requires Allowed(cfg, k, p, call) && call.CreateRule?
    ensures p.Working?
  {
  }

  lemma RunSnoc(cfg: Config, s: Sys, acts: seq<Action>, a: Action)
    ensures Run(cfg, s, acts + [a]) == Step(cfg, Run(cfg, s, acts), a)
  {
    assert (acts + [a])[..|acts|] == acts;
  }

  lemma DoIsStep(cfg: Config, s: Sys, k: Id, call: Call, f: Fate)
    requires k in s.svcs && !s.svcs[k].pass.Idle? && Allowed(cfg, k, s.svcs[k].pass, call)
    ensures var r, v := DoCall(cfg, s, k, call, f), s.svcs[k];
            Step(cfg, s, Do(k, call, f)) ==
            s.(cloud := r.cloud, svcs := s.svcs[k := v.(versions := r.versions,
                                                        pass := Learn(cfg, k, v.pass, call, r.reply))])
  {
  }

  lemma BeginIsStep(cfg: Config, s: Sys, k: Id)
    requires k in s.svcs && s.svcs[k].pass.Idle? && s.svcs[k].seen < |s.svcs[k].versions|
    ensures var v := s.svcs[k]; var snapshot := v.versions[v.seen];
            Step(cfg, s, Begin(k)) ==
            s.(svcs := s.svcs[k := v.(cleaned := v.cleaned || Deleted(snapshot), pass := StartPass(cfg, k, v.seen, snapshot))])
  {
  }

  /* ---- Reachable states ---- */

  ghost predicate Closed(cfg: Config, states: iset<Sys>) {
    forall s: Sys, a: Action | s in states :: Step(cfg, s, a) in states
  }

  /** s is in every set of states that holds s0 and that no step leaves. */
  ghost predicate Reachable(cfg: Config, s0: Sys, s: Sys) {
    forall states: iset<Sys> | s0 in states && Closed(cfg, states) :: s in states
  }

  ghost predicate EndsRun(cfg: Config, s0: Sys, s: Sys) { exists acts :: s == Run(cfg, s0, acts) }

  /** Those are the states that runs lead to. */
  lemma ReachableIsRun(cfg: Config, s0: Sys, s: Sys)
    ensures Reachable(cfg, s0, s) <==> EndsRun(cfg, s0, s)
  {
    assert s0 == Run(cfg, s0, []);
    if Reachable(cfg, s0, s) {
      var runs := iset t: Sys | EndsRun(cfg, s0, t);
      forall t: Sys, a: Action | t in runs ensures Step(cfg, t, a) in runs {
        var acts :| t == Run(cfg, s0, acts);
        RunSnoc(cfg, s0, acts, a);
      }
      assert Closed(cfg, runs);
    }
    if EndsRun(cfg, s0, s) {
      var acts :| s == Run(cfg, s0, acts);
      assert Reachable(cfg, s0, s0);
      ReachableOn(cfg, s0, s0, acts);
    }
  }

  lemma {:induction false} ReachableOn(cfg: Config, s0: Sys, s: Sys, acts: seq<Action>)
    requires Reachable(cfg, s0, s)
    ensures Reachable(cfg, s0, Run(cfg, s, acts))
    decreases |acts|
  {
    if |acts| > 0 {
      ReachableOn(cfg, s0, s, acts[..|acts| - 1]);
      OneStepOn(cfg, s0, Run(cfg, s, acts[..|acts| - 1]), acts[|acts| - 1]);
    }
  }

  lemma OneStepOn(cfg: Config, s0: Sys, s: Sys, a: Action)
    requires Reachable(cfg, s0, s)
    ensures Reachable(cfg, s0, Step(cfg, s, a))
  {
    forall states: iset<Sys> | s0 in states && Closed(cfg, states) ensures Step(cfg, s, a) in states {
      assert s in states;
    }
  }

  /* ---- The object a controller calls ---- */

  /** sys is always a state that runs of the protocol reach from its start; the log holds the calls of the
      current pass, which started as begun. */
  class World {
    const cfg: Config
    const k: Id
    /** What everybody else has done by the time the n-th call is served. */
    const others: (nat, Sys) -> Sys
    const fates: nat -> Fate
    const jitter: nat -> nat
    ghost const start: Sys
    var sys: Sys
    var ticks: nat
    ghost var log: Transcript
    ghost var begun: Pass
    ghost var ended: Pass

    ghost predicate Valid()
      reads this
    {
      && ValidConfig(cfg) && Init(cfg, start) && Reachable(cfg, start, sys) && k in sys.svcs
      && (forall n: nat, s: Sys :: Reached(cfg, k, s, others(n, s)))
      && forall i :: jitter(i) < JITTER_RANGE
    }

    /** The pass is a deletion, and its calls so far are the next ones of what it began as. */
    ghost predicate Deleting()
      reads this
    {
      Current().Cleaning? && begun.Cleaning? && CleanAfter(cfg, k, begun.clean, log) == Some(Current().clean)
    }

    function Current(): Pass
      reads this
    {
      if k in sys.svcs then sys.svcs[k].pass else Idle
    }

    constructor (cfg: Config, k: Id, others: (nat, Sys) -> Sys, fates: nat -> Fate, jitter: nat -> nat, start: Sys)
      requires ValidConfig(cfg) && Init(cfg, start) && k in start.svcs
      requires (forall n: nat, s: Sys :: Reached(cfg, k, s, others(n, s))) && forall i :: jitter(i) < JITTER_RANGE
      ensures Valid() && Current().Idle? && this.cfg == cfg && this.k == k
    {
      this.cfg, this.k, this.others, this.fates, this.jitter, this.start := cfg, k, others, fates, jitter, start;
      sys, ticks, log, begun, ended := start, 0, [], Idle, Idle;
    }

    /** Everybody else acts. */
    method Interfere()
      requires Valid()
      modifies `sys, `ticks
      ensures Valid() && Current() == old(Current())
    {
      var before := sys;
      sys := others(ticks, before);
      ticks := ticks + 1;
      assert Reached(cfg, k, before, sys);
      ghost var more :| ByOthers(more, k) && sys == Run(cfg, before, more);
      OthersKeepPass(cfg, k, before, more);
      ReachableOn(cfg, start, before, more);
    }

    /** The informer cache hands out its copy of the Service. */
    method Begin() returns (version: nat, snapshot: Option<Object>)
      requires Valid() && Current().Idle?
      modifies this
      ensures Valid() && Current() == begun == StartPass(cfg, k, version, snapshot) && log == []
    {
      Interfere();
      Readable();
      var v := sys.svcs[k];
      version, snapshot := v.seen, v.versions[v.seen];
      OneStepOn(cfg, start, sys, Protocol.Begin(k));
      BeginIsStep(cfg, sys, k);
      sys := sys.(svcs := sys.svcs[k := v.(cleaned := v.cleaned || Deleted(snapshot),
                                           pass := StartPass(cfg, k, version, snapshot))]);
      log, begun := [], StartPass(cfg, k, version, snapshot);
    }

    /** The pass is over; ended is where it stood. */
    method Finish()
      requires Valid()
      modifies this
      ensures Valid() && Current().Idle? && ended == old(Current()) && log == old(log) && begun == old(begun)
    {
      ended := Current();
      OneStepOn(cfg, start, sys, End(k));
      sys := sys.(svcs := sys.svcs[k := sys.svcs[k].(pass := Idle)]);
    }

    lemma Sound()
      requires Valid()
      ensures Inv(cfg, sys) && Tracks(cfg, sys) && sys.svcs[k].seen < |sys.svcs[k].versions|
    {
      ReachableIsRun(cfg, start, sys);
      var acts :| sys == Run(cfg, start, acts);
      InitInv(cfg, start);
      InitTracks(cfg, start);
      RunInv(cfg, start, acts);
      RunTracks(cfg, start, acts);
    }

    /** The cache always has a copy. */
    lemma Readable()
      requires Valid()
      ensures sys.svcs[k].seen < |sys.svcs[k].versions|
    {
      Sound();
    }

    lemma Answered(call: Call, f: Fate)
      requires Valid() && Allowed(cfg, k, Current(), call)
      ensures Shape(PassMem(Current()).obj, call, DoCall(cfg, sys, k, call, f).reply)
    {
      Sound();
      ReplyShape(cfg, sys, k, call, f);
    }

    /** One API call. Only a call the protocol allows can be made. */
    method Send(call: Call) returns (reply: Reply)
      requires Valid() && Allowed(cfg, k, Current(), call)
      modifies this
      ensures Valid() && Current() == Learn(cfg, k, old(Current()), call, reply)
      ensures Shape(PassMem(old(Current())).obj, call, reply)
      ensures log == old(log) + [(call, reply)] && begun == old(begun) && ended == old(ended)
      ensures old(Deleting()) ==> Deleting()
    {
      Interfere();
      var f := fates(ticks);
      Answered(call, f);
      var served := DoCall(cfg, sys, k, call, f);
      reply := served.reply;
      if Deleting() { CleanSnoc(cfg, k, begun.clean, log, call, reply); }
      OneStepOn(cfg, start, sys, Do(k, call, f));
      DoIsStep(cfg, sys, k, call, f);
      var v := sys.svcs[k];
      sys := sys.(cloud := served.cloud,
                  svcs := sys.svcs[k := v.(versions := served.versions, pass := Learn(cfg, k, v.pass, call, reply))]);
      log := log + [(call, reply)];
    }
  }
}
