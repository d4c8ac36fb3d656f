/** A deleting Service, pass after pass: cut anywhere and run again it is released to the same
    state, and an operation that never settles cannot hold it for long. */
module Deletion {
  import opened Wrappers
  import opened MergePatch
  import opened Timing
  import opened Model
  import opened Protocol

  /** What a deleting pass works on: the cloud, the stored Service and the pass itself. */
  datatype Local = Local(cloud: Cloud, versions: Versions, pass: Clean)

  /** The pass makes its next call, if it has one left. */
  function CleanCall(cfg: Config, k: Id, now: Time, s: Local, f: Fate): Local {
    if CleanNext(s.pass).None? then s
    else
      var r := Serve(cfg, s.cloud, s.versions, now, NameOf(cfg, k).GetOr(""), s.pass.mem, CleanNext(s.pass).value, f);
      Local(r.cloud, r.versions, LearnCleaning(s.pass, NameOf(cfg, k), r.reply))
  }

  function CleanRun(cfg: Config, k: Id, now: Time, s: Local, fates: seq<Fate>): Local
    decreases |fates|
  {
    if |fates| == 0 then s else CleanCall(cfg, k, now, CleanRun(cfg, k, now, s, fates[..|fates| - 1]), fates[|fates| - 1])
  }

  /** It is the step the whole system takes. */
  lemma CleanCallIsStep(cfg: Config, k: Id, s: Sys, f: Fate)
    requires k in s.svcs && s.svcs[k].pass.Cleaning? && CleanNext(s.svcs[k].pass.clean).Some?
    ensures var v := s.svcs[k];
            var t := CleanCall(cfg, k, s.now, Local(s.cloud, v.versions, v.pass.clean), f);
            Step(cfg, s, Do(k, CleanNext(v.pass.clean).value, f)) ==
            s.(cloud := t.cloud, svcs := s.svcs[k := v.(versions := t.versions, pass := Cleaning(t.pass))])
  {
  }

  predicate BeingDeleted(o: Option<Object>) { o.Some? && o.value.deletedAt.Some? && o.value.finalizer }

  predicate Deleting(v: Versions) { BeingDeleted(Latest(v)) }

  /** A pass that the cache gave the stored state from, and how its calls go as far as they do. */
  datatype Cut = Cut(from: nat, now: Time, fates: seq<Fate>)

  function Begun(cfg: Config, k: Id, st: Store, from: nat): (s: Local)
    requires from < |st.versions| && BeingDeleted(st.versions[from])
    ensures s.pass.start == s.pass.mem == Copy(from, st.versions[from].value)
    ensures s.pass.fw == FwStart(cfg, k, st.versions[from].value)
  {
    Local(st.cloud, st.versions, StartPass(cfg, k, from, st.versions[from]).clean)
  }

  /** On a snapshot that is not of a Service being deleted there is nothing to do here. */
  function OnePass(cfg: Config, k: Id, st: Store, a: Cut): Store {
    if a.from < |st.versions| && BeingDeleted(st.versions[a.from]) then
      var s := CleanRun(cfg, k, a.now, Begun(cfg, k, st, a.from), a.fates);
      Store(s.cloud, s.versions)
    else st
  }

  type PassLog = seq<Cut>

  function Passes(cfg: Config, k: Id, st: Store, log: PassLog): Store
    decreases |log|
  {
    if |log| == 0 then st else OnePass(cfg, k, Passes(cfg, k, st, log[..|log| - 1]), log[|log| - 1])
  }

  /* ---- What is to be left ---- */

  predicate Ours(c: Cloud, i: Id, name: Option<string>) { name.Some? && RuleNamed(c, i, name.value) }

  predicate HasRule(cfg: Config, o: Object) { Managed(o) && cfg.project }

  /** The cloud without the Service's rule and without its recorded load balancer. */
  function CleanCloud(cfg: Config, k: Id, c: Cloud, o: Object): Cloud {
    var name, lb := NameOf(cfg, k), Text(o.ann, LbId);
    c.(rules := if HasRule(cfg, o) then map i | i in c.rules && !Ours(c, i, name) :: c.rules[i] else c.rules,
       live := if lb == "" then c.live else c.live - {lb})
  }

  /** Where a Service is heading that is being deleted from that stored state on. */
  function Goal(cfg: Config, k: Id, c: Cloud, v: Versions, first: nat): Cloud {
    if first < |v| && v[first].Some? then CleanCloud(cfg, k, c, v[first].value) else c
  }

  /** id is the Service's rule, if it exists at all. */
  ghost predicate RuleOk(c: Cloud, name: Option<string>, id: Id) {
    (forall i | Ours(c, i, name) :: i == id) && (id in c.rules ==> Ours(c, id, name))
  }

  ghost predicate OpOk(c: Cloud, name: Option<string>, op: Id) {
    op in c.ops && c.ops[op].Succeeded? ==> RuleOk(c, name, c.ops[op].ruleId)
  }

  predicate Unsettled(c: Cloud, op: Id) { op in c.ops && op !in c.aged && c.ops[op].InFlight? }

  predicate Late(now: Time, o: Object) { o.deletedAt.Some? && now - o.deletedAt.value > IN_FLIGHT_HOLD_LIMIT }

  /** A recorded id is the Service's own. */
  ghost predicate Ready(cfg: Config, k: Id, c: Cloud, o: Object) {
    HasRule(cfg, o) ==>
      if Text(o.ann, RuleId) != "" then RuleOk(c, NameOf(cfg, k), Text(o.ann, RuleId))
      else Text(o.ann, OpId) != "" ==> OpOk(c, NameOf(cfg, k), Text(o.ann, OpId))
  }

  /** At that time no unsettled operation holds the deletion. */
  predicate Resolvable(cfg: Config, c: Cloud, o: Object, due: Time) {
    HasRule(cfg, o) && Text(o.ann, RuleId) == "" && Text(o.ann, OpId) != "" ==>
      !Unsettled(c, Text(o.ann, OpId)) || Late(due, o)
  }

  ghost predicate NoneOurs(c: Cloud, name: Option<string>) { forall i :: !Ours(c, i, name) }

  predicate LbLeft(c: Cloud, o: Object) { Text(o.ann, LbId) != "" && Text(o.ann, LbId) in c.live }

  predicate SameTracking(a: Object, b: Object) {
    Get(a.ann, RuleId) == Get(b.ann, RuleId) && Get(a.ann, OpId) == Get(b.ann, OpId)
  }

  predicate NoTracking(o: Object) { RuleId !in o.ann && OpId !in o.ann }

  /** A stored state of the Service o, which is being deleted. */
  ghost predicate StoredOk(cfg: Config, k: Id, c: Cloud, o: Object, stored: Object) {
    && BeingDeleted(Some(stored)) && stored.deletedAt == o.deletedAt
    && Managed(stored) == Managed(o) && Text(stored.ann, LbId) == Text(o.ann, LbId)
    && Ready(cfg, k, c, stored)
  }

  /** From the stored state first on the Service is being deleted: only its tracking goes, all at once;
      at last it is gone, with nothing left behind. */
  ghost predicate ReadyVersions(cfg: Config, k: Id, c: Cloud, v: Versions, first: nat) {
    && first < |v| && v[first].Some?
    && (forall n | first <= n < |v| && v[n].Some? :: StoredOk(cfg, k, c, v[first].value, v[n].value))
    && (forall n | first <= n < |v| - 1 :: v[n].Some?)
    && (forall n, m | first <= n <= m < |v| && v[n].Some? && v[m].Some? ::
          SameTracking(v[n].value, v[m].value) || NoTracking(v[m].value))
    && (Latest(v).None? ==> NothingLeft(cfg, k, c, v[first].value))
  }

  ghost predicate NothingLeft(cfg: Config, k: Id, c: Cloud, o: Object) {
    (HasRule(cfg, o) ==> NoneOurs(c, NameOf(cfg, k))) && !LbLeft(c, o)
  }

  /** A Service deleted but not released yet, or released with nothing left behind. */
  ghost predicate ReadyStore(cfg: Config, k: Id, st: Store, first: nat, due: Time) {
    && UniqueRules(st.cloud) && ReadyVersions(cfg, k, st.cloud, st.versions, first)
    && (Latest(st.versions).Some? ==> Resolvable(cfg, st.cloud, Latest(st.versions).value, due))
  }

  /* ---- Inside a pass ---- */

  ghost predicate FwStage(cfg: Config, k: Id, c: Cloud, p: Clean) {
    var name := NameOf(cfg, k);
    match p.fw
    case AskClock(op) => OpOk(c, name, op)
    case AskOp(op, _) => OpOk(c, name, op)
    case AskName(_) => name.Some?
    case Target(id, _) => RuleOk(c, name, id)
    case Removed(_) => NoneOurs(c, name)
    case Cleared(_) => HasRule(cfg, p.start.obj) ==> NoneOurs(c, name)
    case Held(_) => true
  }

  predicate Snapshot(v: Versions, first: nat, copy: Copy) {
    first <= copy.version < |v| && v[copy.version] == Some(copy.obj)
  }

  ghost predicate Stage(cfg: Config, k: Id, s: Local, first: nat, due: Time) {
    var p := s.pass;
    && ReadyStore(cfg, k, Store(s.cloud, s.versions), first, due)
    && Snapshot(s.versions, first, p.start) && Snapshot(s.versions, first, p.mem)
    && FwStage(cfg, k, s.cloud, p)
    && (p.lb.Over? ==> p.fw.Cleared?)
    && (p.lb.Present? ==> Text(p.start.obj.ann, LbId) != "")
    && (p.lb.Gone? ==> !LbLeft(s.cloud, p.start.obj))
    && (!p.fw.Cleared? && !p.fw.Held? ==> HasRule(cfg, p.start.obj))
  }

  /** The pass knows the Service as it is stored. */
  predicate UpToDate(s: Local) {
    !s.pass.fw.Held? && !s.pass.lb.Over? ==>
      Latest(s.versions) == Some(s.pass.mem.obj) && s.pass.mem.version == |s.versions| - 1
  }

  lemma StageBegins(cfg: Config, k: Id, st: Store, first: nat, from: nat, due: Time)
    requires ReadyStore(cfg, k, st, first, due) && first <= from < |st.versions| && BeingDeleted(st.versions[from])
    ensures Stage(cfg, k, Begun(cfg, k, st, from), first, due)
  {
    assert StoredOk(cfg, k, st.cloud, st.versions[first].value, st.versions[from].value);
  }

  /* Resolving the rule only moves the firewall step. */

  lemma NameCall(cfg: Config, k: Id, now: Time, s: Local, f: Fate)
    requires s.pass.fw.AskName? && NameOf(cfg, k).Some? && UniqueRules(s.cloud)
    ensures var t := CleanCall(cfg, k, now, s, f);
            t == s.(pass := s.pass.(fw := t.pass.fw)) && FwStage(cfg, k, s.cloud, t.pass) && !t.pass.fw.Removed?
  {
    var name := NameOf(cfg, k).value;
    var reply := ServeRule(s.cloud, s.versions, ListRules, f).reply;
    if reply.RuleList? {
      var found := FindByName(reply.rules, name);
      if found.Some? {
        var j :| 0 <= j < |f.listed| && reply.rules[j] == (found.value, name);
        assert f.listed[j] in f.listed;
      } else {
        forall i ensures !RuleNamed(s.cloud, i, name) {
          if i in s.cloud.rules {
            var j :| 0 <= j < |f.listed| && f.listed[j] == i;
            assert reply.rules[j] in reply.rules;
          }
        }
      }
    }
  }

  lemma AskCall(cfg: Config, k: Id, now: Time, s: Local, f: Fate)
    requires (s.pass.fw.AskClock? || s.pass.fw.AskOp?) && FwStage(cfg, k, s.cloud, s.pass)
    ensures var t := CleanCall(cfg, k, now, s, f);
            t == s.(pass := s.pass.(fw := t.pass.fw)) && !t.pass.fw.Removed? &&
            (t.pass.fw.Cleared? ==> NameOf(cfg, k).None?) && FwStage(cfg, k, s.cloud, t.pass)
  {
  }

  lemma AskStage(cfg: Config, k: Id, s: Local, fw: FwStep, first: nat, due: Time)
    requires Stage(cfg, k, s, first, due) && !s.pass.fw.Cleared? && !s.pass.fw.Held? && !fw.Removed?
    requires FwStage(cfg, k, s.cloud, s.pass.(fw := fw))
    ensures Stage(cfg, k, s.(pass := s.pass.(fw := fw)), first, due)
  {
  }

  lemma TargetCall(cfg: Config, k: Id, now: Time, s: Local, f: Fate)
    requires s.pass.fw.Target?
    ensures var t := CleanCall(cfg, k, now, s, f);
            && t == s.(cloud := t.cloud, pass := s.pass.(fw := t.pass.fw)) && (t.pass.fw.Removed? || t.pass.fw.Held?)
            && (t.cloud == s.cloud || t.cloud == s.cloud.(rules := s.cloud.rules - {s.pass.fw.id}))
            && (t.pass.fw.Removed? ==> s.pass.fw.id !in t.cloud.rules)
  {
  }

  lemma TargetStage(cfg: Config, k: Id, s: Local, t: Local, first: nat, due: Time)
    requires Stage(cfg, k, s, first, due) && s.pass.fw.Target? && (t.pass.fw.Removed? || t.pass.fw.Held?)
    requires t == s.(cloud := t.cloud, pass := s.pass.(fw := t.pass.fw))
    requires t.cloud == s.cloud || t.cloud == s.cloud.(rules := s.cloud.rules - {s.pass.fw.id})
    requires t.pass.fw.Removed? ==> s.pass.fw.id !in t.cloud.rules
    ensures Stage(cfg, k, t, first, due)
    ensures Goal(cfg, k, t.cloud, t.versions, first) == Goal(cfg, k, s.cloud, s.versions, first)
  {
    var o := s.versions[first].value;
    assert StoredOk(cfg, k, s.cloud, o, s.pass.start.obj);
    SameLeft(cfg, k, s.cloud, t.cloud, o, s.pass.fw.id);
    StillReady(cfg, k, s.cloud, t.cloud, s.versions, first, s.pass.fw.id);
  }

  lemma SameLeft(cfg: Config, k: Id, c: Cloud, c': Cloud, o: Object, id: Id)
    requires c' == c || c' == c.(rules := c.rules - {id})
    requires HasRule(cfg, o) && RuleOk(c, NameOf(cfg, k), id)
    ensures CleanCloud(cfg, k, c', o) == CleanCloud(cfg, k, c, o)
    ensures forall i | Ours(c', i, NameOf(cfg, k)) :: Ours(c, i, NameOf(cfg, k))
  {
    assert CleanCloud(cfg, k, c', o).rules == CleanCloud(cfg, k, c, o).rules;
  }

  /** Fewer rules and load balancers leave every stored state as ready. */
  lemma StillReady(cfg: Config, k: Id, c: Cloud, c': Cloud, v: Versions, first: nat, id: Id)
    requires ReadyVersions(cfg, k, c, v, first)
    requires c' == c || c' == c.(rules := c.rules - {id}) || c' == c.(live := c.live - {id})
    ensures ReadyVersions(cfg, k, c', v, first)
  {
    forall n | first <= n < |v| && v[n].Some? ensures StoredOk(cfg, k, c', v[first].value, v[n].value) {
      assert StoredOk(cfg, k, c, v[first].value, v[n].value);
      ObjectReady(cfg, k, c, c', v[n].value, id);
    }
    assert forall i :: Ours(c', i, NameOf(cfg, k)) ==> Ours(c, i, NameOf(cfg, k));
  }

  lemma ObjectReady(cfg: Config, k: Id, c: Cloud, c': Cloud, o: Object, id: Id)
    requires c' == c || c' == c.(rules := c.rules - {id}) || c' == c.(live := c.live - {id})
    requires Ready(cfg, k, c, o)
    ensures Ready(cfg, k, c', o)
  {
    assert forall i :: Ours(c', i, NameOf(cfg, k)) ==> Ours(c, i, NameOf(cfg, k));
    assert forall i | i in c'.rules :: i in c.rules && c'.rules[i] == c.rules[i];
  }

  function Untracked(o: Object): Object { o.(ann := o.ann - {RuleId, OpId}) }

  /** Dropping the tracking, as a state a knows it, of a later one. */
  lemma DropsTracking(a: Object, b: Object)
    requires SameTracking(a, b) || NoTracking(b)
    ensures Apply(Diff(a.ann, Untracked(a).ann), b.ann) == Untracked(b).ann
  {
    var diff := Diff(a.ann, Untracked(a).ann);
    assert forall key | key in diff :: (key == RuleId || key == OpId) && diff[key] == None;
    forall key ensures Get(Apply(diff, b.ann), key) == Get(Untracked(b).ann, key) {}
    SameGets(Apply(diff, b.ann), Untracked(b).ann);
  }

  lemma SameGets(a: Annotations, b: Annotations)
    requires forall key :: Get(a, key) == Get(b, key)
    ensures a == b
  {
    assert forall key :: key in a <==> key in b by {
      forall key ensures key in a <==> key in b { assert Get(a, key) == Get(b, key); }
    }
    forall key | key in a ensures a[key] == b[key] { assert Get(a, key) == Get(b, key); }
  }

  /** Dropping the tracking of the deleted rule. */
  lemma UntrackCall(cfg: Config, k: Id, now: Time, s: Local, f: Fate)
    requires s.pass.fw.Removed?
    requires Latest(s.versions).Some? ==>
               SameTracking(s.pass.mem.obj, Latest(s.versions).value) || NoTracking(Latest(s.versions).value)
    ensures var t := CleanCall(cfg, k, now, s, f);
            && t == s.(versions := t.versions, pass := s.pass.(fw := t.pass.fw, mem := t.pass.mem))
            && (t.versions == s.versions || t.versions == s.versions + [Some(Untracked(Latest(s.versions).value))])
            && (t.versions != s.versions ==> Latest(s.versions).Some?)
            && (t.pass.fw.Cleared? ==> Latest(t.versions) == Some(t.pass.mem.obj) && t.pass.mem.version == |t.versions| - 1)
            && (t.pass.fw.Held? ==> t.pass.mem == s.pass.mem)
            && (t.pass.fw.Held? || t.pass.fw.Cleared?)
  {
    if Latest(s.versions).Some? { DropsTracking(s.pass.mem.obj, Latest(s.versions).value); }
  }

  lemma UntrackStage(cfg: Config, k: Id, s: Local, t: Local, first: nat, due: Time)
    requires Stage(cfg, k, s, first, due) && s.pass.fw.Removed?
    requires t == s.(versions := t.versions, pass := s.pass.(fw := t.pass.fw, mem := t.pass.mem))
    requires t.versions == s.versions ||
             (Latest(s.versions).Some? && t.versions == s.versions + [Some(Untracked(Latest(s.versions).value))])
    requires t.pass.fw.Held? || t.pass.fw.Cleared?
    requires t.pass.fw.Cleared? ==> Latest(t.versions) == Some(t.pass.mem.obj) && t.pass.mem.version == |t.versions| - 1
    requires t.pass.fw.Held? ==> t.pass.mem == s.pass.mem
    ensures Stage(cfg, k, t, first, due)
    ensures Goal(cfg, k, t.cloud, t.versions, first) == Goal(cfg, k, s.cloud, s.versions, first)
  {
    if t.versions != s.versions { UntrackedReady(cfg, k, s.cloud, s.versions, first); }
  }

  /** One more stored state, without tracking. */
  lemma UntrackedReady(cfg: Config, k: Id, c: Cloud, v: Versions, first: nat)
    requires ReadyVersions(cfg, k, c, v, first) && Latest(v).Some?
    ensures ReadyVersions(cfg, k, c, v + [Some(Untracked(Latest(v).value))], first)
  {
    var o, last := v[first].value, Latest(v).value;
    var v' := v + [Some(Untracked(last))];
    assert StoredOk(cfg, k, c, o, last) by { assert v[|v| - 1] == Some(last); }
    assert Managed(Untracked(last)) == Managed(last) && Text(Untracked(last).ann, LbId) == Text(last.ann, LbId);
    forall n | first <= n < |v'| && v'[n].Some? ensures StoredOk(cfg, k, c, o, v'[n].value) {
      if n < |v| { assert v'[n] == v[n]; }
    }
  }

  lemma MemTracking(cfg: Config, k: Id, s: Local, first: nat, due: Time)
    requires Stage(cfg, k, s, first, due) && Latest(s.versions).Some?
    ensures SameTracking(s.pass.mem.obj, Latest(s.versions).value) || NoTracking(Latest(s.versions).value)
  {
    assert s.versions[|s.versions| - 1] == Latest(s.versions);
  }

  lemma RuleCall(cfg: Config, k: Id, now: Time, s: Local, f: Fate, first: nat, due: Time)
    requires Stage(cfg, k, s, first, due) && !s.pass.fw.Cleared?
    ensures var t := CleanCall(cfg, k, now, s, f);
            Stage(cfg, k, t, first, due) &&
            Goal(cfg, k, t.cloud, t.versions, first) == Goal(cfg, k, s.cloud, s.versions, first)
  {
    var t := CleanCall(cfg, k, now, s, f);
    if s.pass.fw.Target? {
      TargetCall(cfg, k, now, s, f);
      TargetStage(cfg, k, s, t, first, due);
    } else if s.pass.fw.Removed? {
      if Latest(s.versions).Some? { MemTracking(cfg, k, s, first, due); }
      UntrackCall(cfg, k, now, s, f);
      UntrackStage(cfg, k, s, t, first, due);
    } else if !s.pass.fw.Held? {
      if s.pass.fw.AskName? { NameCall(cfg, k, now, s, f); } else { AskCall(cfg, k, now, s, f); }
      AskStage(cfg, k, s, t.pass.fw, first, due);
    }
  }

  /** Deleting the load balancer, then removing the finalizer, of the Service as the pass knows it. */
  lemma ReleaseCall(cfg: Config, k: Id, now: Time, s: Local, f: Fate)
    requires s.pass.fw.Cleared? && !s.pass.lb.Over? && s.pass.mem.obj.deletedAt.Some?
    ensures var t, id := CleanCall(cfg, k, now, s, f), Text(s.pass.start.obj.ann, LbId);
            && t.pass == s.pass.(lb := t.pass.lb)
            && if s.pass.lb.Present? then
                 && t.versions == s.versions && !t.pass.lb.Present? && (t.pass.lb.Gone? ==> id !in t.cloud.live)
                 && (t.cloud == s.cloud || t.cloud == s.cloud.(live := s.cloud.live - {id}))
               else
                 && t.cloud == s.cloud && t.pass.lb.Over?
                 && (t.versions == s.versions ||
                     (Latest(s.versions).Some? && s.pass.mem.version == |s.versions| - 1 && t.versions == s.versions + [None]))
  {
  }

  lemma LbStage(cfg: Config, k: Id, s: Local, t: Local, first: nat, due: Time)
    requires Stage(cfg, k, s, first, due) && s.pass.fw.Cleared? && s.pass.lb.Present? && !t.pass.lb.Present?
    requires t == s.(cloud := t.cloud, pass := s.pass.(lb := t.pass.lb))
    requires var id := Text(s.pass.start.obj.ann, LbId);
             && (t.pass.lb.Gone? ==> id !in t.cloud.live)
             && (t.cloud == s.cloud || t.cloud == s.cloud.(live := s.cloud.live - {id}))
    ensures Stage(cfg, k, t, first, due)
    ensures Goal(cfg, k, t.cloud, t.versions, first) == Goal(cfg, k, s.cloud, s.versions, first)
  {
    assert forall i :: Ours(t.cloud, i, NameOf(cfg, k)) <==> Ours(s.cloud, i, NameOf(cfg, k));
    assert StoredOk(cfg, k, s.cloud, s.versions[first].value, s.pass.start.obj);
    StillReady(cfg, k, s.cloud, t.cloud, s.versions, first, Text(s.pass.start.obj.ann, LbId));
  }

  lemma FinalizerStage(cfg: Config, k: Id, s: Local, t: Local, first: nat, due: Time)
    requires Stage(cfg, k, s, first, due) && s.pass.fw.Cleared? && s.pass.lb.Gone?
    requires t == s.(versions := t.versions, pass := s.pass.(lb := Over))
    requires t.versions == s.versions || (Latest(s.versions).Some? && t.versions == s.versions + [None])
    ensures Stage(cfg, k, t, first, due)
    ensures Goal(cfg, k, t.cloud, t.versions, first) == Goal(cfg, k, s.cloud, s.versions, first)
  {
    assert StoredOk(cfg, k, s.cloud, s.versions[first].value, s.pass.start.obj);
    if t.versions != s.versions { GoneReady(cfg, k, s.cloud, s.versions, first); }
  }

  lemma GoneReady(cfg: Config, k: Id, c: Cloud, v: Versions, first: nat)
    requires ReadyVersions(cfg, k, c, v, first) && Latest(v).Some? && NothingLeft(cfg, k, c, v[first].value)
    ensures ReadyVersions(cfg, k, c, v + [None], first)
  {
    var v' := v + [None];
    forall n | first <= n < |v'| && v'[n].Some? ensures StoredOk(cfg, k, c, v[first].value, v'[n].value) {
      assert v'[n] == v[n];
    }
    forall n | first <= n < |v'| - 1 ensures v'[n].Some? { assert v'[n] == v[n] && v[|v| - 1].Some?; }
  }

  /** No call of a deleting pass, whatever comes of it, changes where the deletion is heading. */
  lemma CallKeeps(cfg: Config, k: Id, now: Time, s: Local, f: Fate, first: nat, due: Time)
    requires Stage(cfg, k, s, first, due)
    ensures var t := CleanCall(cfg, k, now, s, f);
            Stage(cfg, k, t, first, due) &&
            Goal(cfg, k, t.cloud, t.versions, first) == Goal(cfg, k, s.cloud, s.versions, first)
  {
    var t := CleanCall(cfg, k, now, s, f);
    if !s.pass.fw.Cleared? {
      RuleCall(cfg, k, now, s, f, first, due);
    } else if !s.pass.lb.Over? {
      assert StoredOk(cfg, k, s.cloud, s.versions[first].value, s.pass.mem.obj);
      ReleaseCall(cfg, k, now, s, f);
      if s.pass.lb.Present? { LbStage(cfg, k, s, t, first, due); } else { FinalizerStage(cfg, k, s, t, first, due); }
    }
  }

  lemma {:induction false} RunKeeps(cfg: Config, k: Id, now: Time, s: Local, fates: seq<Fate>, first: nat, due: Time)
    requires Stage(cfg, k, s, first, due)
    ensures var t := CleanRun(cfg, k, now, s, fates);
            Stage(cfg, k, t, first, due) &&
            Goal(cfg, k, t.cloud, t.versions, first) == Goal(cfg, k, s.cloud, s.versions, first)
    decreases |fates|
  {
    if |fates| > 0 {
      RunKeeps(cfg, k, now, s, fates[..|fates| - 1], first, due);
      CallKeeps(cfg, k, now, CleanRun(cfg, k, now, s, fates[..|fates| - 1]), fates[|fates| - 1], first, due);
    }
  }

  /** A pass that began with the current Service stays up to date until it ends. */
  lemma CallUpToDate(cfg: Config, k: Id, now: Time, s: Local, f: Fate, first: nat, due: Time)
    requires Stage(cfg, k, s, first, due) && UpToDate(s)
    ensures UpToDate(CleanCall(cfg, k, now, s, f))
  {
    if s.pass.fw.Cleared? {
      if !s.pass.lb.Over? {
        assert StoredOk(cfg, k, s.cloud, s.versions[first].value, s.pass.mem.obj);
        ReleaseCall(cfg, k, now, s, f);
      }
    } else if s.pass.fw.Removed? {
      UntrackCall(cfg, k, now, s, f);
    } else {
      OtherUpToDate(cfg, k, now, s, f);
    }
  }

  lemma OtherUpToDate(cfg: Config, k: Id, now: Time, s: Local, f: Fate)
    requires !s.pass.fw.Cleared? && !s.pass.fw.Removed? && UpToDate(s)
    ensures UpToDate(CleanCall(cfg, k, now, s, f))
  {
  }

  /* ---- A healthy API ---- */

  ghost predicate HealthyCleanRun(cfg: Config, k: Id, now: Time, s: Local, fates: seq<Fate>)
    decreases |fates|
  {
    |fates| > 0 ==>
      && HealthyCleanRun(cfg, k, now, s, fates[..|fates| - 1])
      && Healthy(CleanRun(cfg, k, now, s, fates[..|fates| - 1]).cloud, fates[|fates| - 1])
  }

  const LONGEST_PASS := 7

  /** A pass that begins with the current Service and meets a healthy API to its end. */
  ghost predicate HealthyPass(cfg: Config, k: Id, st: Store, a: Cut) {
    && a.from == |st.versions| - 1
    && (Deleting(st.versions) ==>
          |a.fates| >= LONGEST_PASS && HealthyCleanRun(cfg, k, a.now, Begun(cfg, k, st, a.from), a.fates))
  }

  /** How many calls are still to come at most. */
  function CallsLeft(p: Clean): (r: nat)
    ensures r <= LONGEST_PASS
  {
    match p.fw
    case AskClock(_) => 7
    case AskOp(_, _) => 6
    case AskName(_) => 5
    case Target(_, _) => 4
    case Removed(_) => 3
    case Cleared(_) => if p.lb.Present? then 2 else if p.lb.Gone? then 1 else 0
    case Held(_) => 0
  }

  /** A pass at that time that does not come to a hold. */
  predicate Unheld(now: Time, s: Local) {
    match s.pass.fw
    case AskClock(op) => !Unsettled(s.cloud, op) || Late(now, s.pass.start.obj)
    case AskOp(op, expired) => !Unsettled(s.cloud, op) || expired
    case Held(_) => false
    case Cleared(_) => s.pass.lb.Over? ==> Latest(s.versions).None?
    case _ => true
  }

  /** Each call of a healthy pass brings the release closer. */
  lemma CallProgress(cfg: Config, k: Id, now: Time, s: Local, f: Fate, first: nat, due: Time)
    requires Stage(cfg, k, s, first, due) && UpToDate(s) && Healthy(s.cloud, f) && Unheld(now, s)
    ensures var t := CleanCall(cfg, k, now, s, f);
            Unheld(now, t) && (if CallsLeft(s.pass) == 0 then t == s else CallsLeft(t.pass) < CallsLeft(s.pass))
  {
    MemDeleted(cfg, k, s, first, due);
    if s.pass.fw.Cleared? {
      ReleaseProgress(cfg, k, now, s, f);
    } else if !s.pass.fw.Removed? {
      RuleProgress(cfg, k, now, s, f);
    }
  }

  lemma MemDeleted(cfg: Config, k: Id, s: Local, first: nat, due: Time)
    requires Stage(cfg, k, s, first, due)
    ensures BeingDeleted(Some(s.pass.mem.obj)) && BeingDeleted(Some(s.pass.start.obj))
  {
    assert StoredOk(cfg, k, s.cloud, s.versions[first].value, s.pass.mem.obj);
    assert StoredOk(cfg, k, s.cloud, s.versions[first].value, s.pass.start.obj);
  }

  lemma RuleProgress(cfg: Config, k: Id, now: Time, s: Local, f: Fate)
    requires !s.pass.fw.Cleared? && !s.pass.fw.Removed? && !s.pass.fw.Held?
    requires Healthy(s.cloud, f) && Unheld(now, s) && s.pass.start.obj.deletedAt.Some? && !s.pass.lb.Over?
    ensures var t := CleanCall(cfg, k, now, s, f);
            Unheld(now, t) && CallsLeft(t.pass) < CallsLeft(s.pass)
  {
  }

  lemma ReleaseProgress(cfg: Config, k: Id, now: Time, s: Local, f: Fate)
    requires s.pass.fw.Cleared? && UpToDate(s) && s.pass.mem.obj.deletedAt.Some? && Healthy(s.cloud, f) && Unheld(now, s)
    ensures var t := CleanCall(cfg, k, now, s, f);
            Unheld(now, t) && (if CallsLeft(s.pass) == 0 then t == s else CallsLeft(t.pass) < CallsLeft(s.pass))
  {
  }

  lemma {:induction false} RunProgress(cfg: Config, k: Id, now: Time, s: Local, fates: seq<Fate>, first: nat, due: Time)
    requires Stage(cfg, k, s, first, due) && UpToDate(s) && Unheld(now, s) && HealthyCleanRun(cfg, k, now, s, fates)
    ensures var t := CleanRun(cfg, k, now, s, fates);
            && UpToDate(t) && Unheld(now, t)
            && (CallsLeft(t.pass) == 0 || CallsLeft(t.pass) + |fates| <= CallsLeft(s.pass))
    decreases |fates|
  {
    if |fates| > 0 {
      var before := fates[..|fates| - 1];
      RunProgress(cfg, k, now, s, before, first, due);
      RunKeeps(cfg, k, now, s, before, first, due);
      CallUpToDate(cfg, k, now, CleanRun(cfg, k, now, s, before), fates[|fates| - 1], first, due);
      CallProgress(cfg, k, now, CleanRun(cfg, k, now, s, before), fates[|fates| - 1], first, due);
    }
  }

  lemma NothingToClean(cfg: Config, k: Id, c: Cloud, o: Object)
    requires NothingLeft(cfg, k, c, o)
    ensures CleanCloud(cfg, k, c, o) == c
  {
    assert CleanCloud(cfg, k, c, o).rules == c.rules;
  }

  lemma RunReleases(cfg: Config, k: Id, now: Time, s: Local, fates: seq<Fate>, first: nat)
    requires Stage(cfg, k, s, first, now) && UpToDate(s) && Unheld(now, s)
    requires |fates| >= LONGEST_PASS && HealthyCleanRun(cfg, k, now, s, fates)
    ensures var t := CleanRun(cfg, k, now, s, fates);
            Latest(t.versions).None? && t.cloud == Goal(cfg, k, s.cloud, s.versions, first)
  {
    RunKeeps(cfg, k, now, s, fates, first, now);
    RunProgress(cfg, k, now, s, fates, first, now);
    var t := CleanRun(cfg, k, now, s, fates);
    NothingToClean(cfg, k, t.cloud, t.versions[first].value);
  }

  /** A healthy pass at that time releases the Service, with its rule and its recorded load
      balancer gone and nothing else touched. */
  lemma HealthyReleases(cfg: Config, k: Id, st: Store, first: nat, a: Cut)
    requires ReadyStore(cfg, k, st, first, a.now) && HealthyPass(cfg, k, st, a)
    ensures var t := OnePass(cfg, k, st, a);
            Latest(t.versions).None? && t.cloud == Goal(cfg, k, st.cloud, st.versions, first)
  {
    assert st.versions[a.from] == Latest(st.versions);
    if Latest(st.versions).None? {
      NothingToClean(cfg, k, st.cloud, st.versions[first].value);
    } else {
      assert StoredOk(cfg, k, st.cloud, st.versions[first].value, st.versions[a.from].value);
      StageBegins(cfg, k, st, first, a.from, a.now);
      RunReleases(cfg, k, a.now, Begun(cfg, k, st, a.from), a.fates, first);
    }
  }

  /* ---- Cut and run again ---- */

  /** However a pass goes, wherever it is cut, and however old the snapshot it began with, the Service is
      still ready to be deleted, and what its deletion will leave is the same. */
  lemma PassKeeps(cfg: Config, k: Id, st: Store, first: nat, a: Cut, due: Time)
    requires ReadyStore(cfg, k, st, first, due) && first <= a.from
    ensures var t := OnePass(cfg, k, st, a);
            ReadyStore(cfg, k, t, first, due) &&
            Goal(cfg, k, t.cloud, t.versions, first) == Goal(cfg, k, st.cloud, st.versions, first)
  {
    if a.from < |st.versions| && BeingDeleted(st.versions[a.from]) {
      StageBegins(cfg, k, st, first, a.from, due);
      RunKeeps(cfg, k, a.now, Begun(cfg, k, st, a.from), a.fates, first, due);
    }
  }

  lemma {:induction false} PassesKeep(cfg: Config, k: Id, st: Store, first: nat, log: PassLog, due: Time)
    requires ReadyStore(cfg, k, st, first, due) && forall a | a in log :: first <= a.from
    ensures var t := Passes(cfg, k, st, log);
            ReadyStore(cfg, k, t, first, due) &&
            Goal(cfg, k, t.cloud, t.versions, first) == Goal(cfg, k, st.cloud, st.versions, first)
    decreases |log|
  {
    if |log| > 0 {
      PassesKeep(cfg, k, st, first, log[..|log| - 1], due);
      PassKeeps(cfg, k, Passes(cfg, k, st, log[..|log| - 1]), first, log[|log| - 1], due);
    }
  }

  /** Crash idempotence: any number of passes, each begun with any stored state of the deletion, cut
      anywhere and with any failures, followed by one healthy pass, leave the cloud exactly as one
      healthy pass at once would have. */
  lemma CrashIdempotent(cfg: Config, k: Id, st: Store, first: nat, cuts: PassLog, again: Cut, once: Cut)
    requires ReadyStore(cfg, k, st, first, once.now) && again.now == once.now && forall a | a in cuts :: first <= a.from
    requires HealthyPass(cfg, k, Passes(cfg, k, st, cuts), again) && HealthyPass(cfg, k, st, once)
    ensures var t, u := OnePass(cfg, k, Passes(cfg, k, st, cuts), again), OnePass(cfg, k, st, once);
            Latest(t.versions).None? && Latest(u.versions).None? && t.cloud == u.cloud
  {
    PassesKeep(cfg, k, st, first, cuts, once.now);
    HealthyReleases(cfg, k, Passes(cfg, k, st, cuts), first, again);
    HealthyReleases(cfg, k, st, first, once);
  }

  /* ---- The hold on an operation that never settles ---- */

  const LONGEST_HOLD := 31

  /** The Service's rule can only come from an operation that is still in progress. */
  ghost predicate Waiting(cfg: Config, k: Id, st: Store) {
    && UniqueRules(st.cloud) && Deleting(st.versions)
    && var o := Latest(st.versions).value;
       HasRule(cfg, o) && Text(o.ann, RuleId) == "" && Text(o.ann, OpId) != "" && Unsettled(st.cloud, Text(o.ann, OpId))
  }

  lemma HoldCall(cfg: Config, k: Id, now: Time, s: Local, f: Fate, op: Id)
    requires s.pass.fw == AskClock(op) || s.pass.fw == AskOp(op, false) || s.pass.fw == Held(true)
    requires Healthy(s.cloud, f) && Unsettled(s.cloud, op) && s.pass.start.obj.deletedAt.Some? && !Late(now, s.pass.start.obj)
    ensures CleanCall(cfg, k, now, s, f) ==
            s.(pass := s.pass.(fw := if s.pass.fw.AskClock? then AskOp(op, false) else Held(true)))
  {
  }

  /** A healthy pass within the limit reads the clock and the operation, and changes nothing. */
  lemma {:induction false} HoldRun(cfg: Config, k: Id, now: Time, s: Local, op: Id, fates: seq<Fate>)
    requires s.pass.fw == AskClock(op) && Unsettled(s.cloud, op)
    requires s.pass.start.obj.deletedAt.Some? && !Late(now, s.pass.start.obj) && HealthyCleanRun(cfg, k, now, s, fates)
    ensures CleanRun(cfg, k, now, s, fates) ==
            s.(pass := s.pass.(fw := if |fates| == 0 then AskClock(op)
                                     else if |fates| == 1 then AskOp(op, false) else Held(true)))
    decreases |fates|
  {
    if |fates| > 0 {
      HoldRun(cfg, k, now, s, op, fates[..|fates| - 1]);
      HoldCall(cfg, k, now, CleanRun(cfg, k, now, s, fates[..|fates| - 1]), fates[|fates| - 1], op);
    }
  }

  /** The passes meet a healthy API, the first not before the deletion, and the requeue interval
      passes between any two. */
  ghost predicate Spaced(cfg: Config, k: Id, st: Store, log: PassLog)
    decreases |log|
  {
    |log| > 0 ==>
      && var last, before := log[|log| - 1], log[..|log| - 1];
      && Spaced(cfg, k, st, before)
      && HealthyPass(cfg, k, Passes(cfg, k, st, before), last)
      && (|before| > 0 ==> last.now >= before[|before| - 1].now + RULE_REQUEUE)
      && (Deleting(st.versions) && |before| == 0 ==> last.now >= Latest(st.versions).value.deletedAt.value)
  }

  lemma {:induction false} Elapsed(cfg: Config, k: Id, st: Store, log: PassLog)
    requires Deleting(st.versions) && Spaced(cfg, k, st, log) && |log| > 0
    ensures log[|log| - 1].now >= Latest(st.versions).value.deletedAt.value + (|log| - 1) * RULE_REQUEUE
    decreases |log|
  {
    if |log| > 1 {
      Elapsed(cfg, k, st, log[..|log| - 1]);
    }
  }

  /** What the deletion has come to after a pass at that time. */
  ghost predicate HeldOrReleased(cfg: Config, k: Id, st: Store, now: Time, t: Store)
    requires Deleting(st.versions)
  {
    var o := Latest(st.versions).value;
    if Late(now, o) then Latest(t.versions).None? && t.cloud == CleanCloud(cfg, k, st.cloud, o) else t == st
  }

  lemma OneMorePass(cfg: Config, k: Id, st: Store, a: Cut)
    requires Waiting(cfg, k, st) && HealthyPass(cfg, k, st, a)
    ensures HeldOrReleased(cfg, k, st, a.now, OnePass(cfg, k, st, a))
  {
    if Late(a.now, Latest(st.versions).value) {
      HealthyReleases(cfg, k, st, |st.versions| - 1, a);
    } else {
      var s := Begun(cfg, k, st, a.from);
      HoldRun(cfg, k, a.now, s, Text(Latest(st.versions).value.ann, OpId), a.fates);
    }
  }

  lemma {:induction false} HeldUntilLate(cfg: Config, k: Id, st: Store, log: PassLog)
    requires Waiting(cfg, k, st) && Spaced(cfg, k, st, log) && |log| > 0
    ensures HeldOrReleased(cfg, k, st, log[|log| - 1].now, Passes(cfg, k, st, log))
    decreases |log|
  {
    var before := log[..|log| - 1];
    if |before| > 0 {
      HeldUntilLate(cfg, k, st, before);
    }
    if |before| == 0 || !Late(log[|log| - 2].now, Latest(st.versions).value) {
      OneMorePass(cfg, k, st, log[|log| - 1]);
    }
  }

  /** Bounded hold: while the operation never settles, passes within the limit change nothing, there
      are at most 31 of them, and the first pass after the limit releases the Service. */
  lemma HoldIsBounded(cfg: Config, k: Id, st: Store, log: PassLog)
    requires Waiting(cfg, k, st) && Spaced(cfg, k, st, log) && |log| > 0
    ensures var o, t := Latest(st.versions).value, Passes(cfg, k, st, log);
            if Late(log[|log| - 1].now, o) then Latest(t.versions).None? && t.cloud == CleanCloud(cfg, k, st.cloud, o)
            else t == st && |log| <= LONGEST_HOLD
  {
    HeldUntilLate(cfg, k, st, log);
    if !Late(log[|log| - 1].now, Latest(st.versions).value) {
      AtMostLongest(cfg, k, st, log);
    }
  }

  lemma AtMostLongest(cfg: Config, k: Id, st: Store, log: PassLog)
    requires Deleting(st.versions) && Spaced(cfg, k, st, log) && |log| > 0
    requires !Late(log[|log| - 1].now, Latest(st.versions).value)
    ensures |log| <= LONGEST_HOLD
  {
    Elapsed(cfg, k, st, log);
    Fits(|log| - 1);
  }

  lemma Fits(n: nat)
    ensures n > 30 ==> n * RULE_REQUEUE > IN_FLIGHT_HOLD_LIMIT
  {
  }
}
