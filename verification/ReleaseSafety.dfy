/** What is gone by the time a Service's finalizer is removed. */
module ReleaseSafety {
  import opened Wrappers
  import opened Ports
  import opened Model
  import opened Protocol
  import opened Invariant
  import opened InvariantSteps
  import opened InvariantProof

  ghost predicate NoCreates(c: Cloud, name: string) { forall x :: !CreatesRule(c, x, name) }

  ghost predicate NoRule(c: Cloud, name: string) { (forall i :: !RuleNamed(c, i, name)) && NoCreates(c, name) }

  /** The only rule of that name is id. */
  ghost predicate OnlyRule(c: Cloud, name: string, id: Id) {
    forall i | RuleNamed(c, i, name) :: i == id
  }

  /** op is an operation of this name, the only one that may be in flight, and what it made is the rule. */
  ghost predicate OnlyCreate(c: Cloud, name: string, op: Id) {
    && op in c.ops
    && (forall x | CreatesRule(c, x, name) :: x == op)
    && (c.ops[op].InFlight? ==> c.ops[op].rule.name == name)
    && (c.ops[op].Succeeded? ==> OnlyRule(c, name, c.ops[op].ruleId))
  }

  /** The annotations can be trusted: a recorded rule id is that rule's and nothing is in flight; or,
      without one, a recorded operation is the only one in flight; or nothing is. */
  ghost predicate Coherent(c: Cloud, name: string, o: Object) {
    if Text(o.ann, RuleId) != "" then
      OnlyRule(c, name, Text(o.ann, RuleId)) && NoCreates(c, name)
    else if Text(o.ann, OpId) != "" then OnlyCreate(c, name, Text(o.ann, OpId))
    else NoCreates(c, name)
  }

  /** What each stage of the firewall step knows. A hold is only ever given up on a create in flight, so
      not when quiet: when nothing of the name was in flight at the start. */
  ghost predicate FwFacts(quiet: bool, c: Cloud, name: string, fw: FwStep) {
    && (quiet ==> NoCreates(c, name))
    && match fw
       case AskClock(op) => OnlyCreate(c, name, op)
       case AskOp(op, _) => OnlyCreate(c, name, op)
       case AskName(gaveUp) => (gaveUp && !quiet) || NoCreates(c, name)
       case Target(id, gaveUp) => (gaveUp && !quiet) || (OnlyRule(c, name, id) && NoCreates(c, name))
       case Removed(gaveUp) => (gaveUp && !quiet) || NoRule(c, name)
       case Cleared(gaveUp) => (gaveUp && !quiet) || NoRule(c, name)
       case Held(_) => true
  }

  lemma FwBegins(cfg: Config, k: Id, quiet: bool, c: Cloud, o: Object)
    requires NameOf(cfg, k).Some? && Managed(o) && cfg.project && Coherent(c, NameOf(cfg, k).value, o)
    requires quiet ==> NoCreates(c, NameOf(cfg, k).value)
    ensures FwFacts(quiet, c, NameOf(cfg, k).value, FwStart(cfg, k, o))
  {
  }

  /** Rules and pending creates of the name only disappear, and operations stay as they are. */
  ghost predicate RuleShrinks(c: Cloud, c': Cloud, name: string) {
    && (forall i | RuleNamed(c', i, name) :: RuleNamed(c, i, name))
    && (forall x | CreatesRule(c', x, name) :: CreatesRule(c, x, name))
    && (forall x | x in c.ops :: x in c'.ops && c'.ops[x] == c.ops[x])
  }

  lemma FwKept(quiet: bool, c: Cloud, c': Cloud, name: string, fw: FwStep)
    requires FwFacts(quiet, c, name, fw) && RuleShrinks(c, c', name)
    ensures FwFacts(quiet, c', name, fw)
  {
  }

  lemma FwSettles(quiet: bool, c: Cloud, a: Action, name: string, fw: FwStep)
    requires a.OpSettles? && FwFacts(quiet, c, name, fw)
    ensures FwFacts(quiet, SettleOp(c, a), name, fw)
  {
    var c' := SettleOp(c, a);
    if c' != c {
      forall x | CreatesRule(c', x, name) ensures CreatesRule(c, x, name) {}
      if c.ops[a.op].rule.name == name {
        assert CreatesRule(c, a.op, name);
      } else {
        forall i | RuleNamed(c', i, name) ensures RuleNamed(c, i, name) {}
      }
    }
  }

  /** Another Service's call touches no rule of this name. */
  lemma OtherRuleCall(cfg: Config, c: Cloud, j: Id, p: Pass, v: Versions, call: Call, f: Fate, name: string)
    requires Allowed(cfg, j, p, call) && NameOf(cfg, j) != Some(name)
    requires call.GetRule? || call.PatchRule? || call.GetOp? || call.ListRules? || call.CreateRule? || call.DeleteRule?
    ensures RuleShrinks(c, ServeRule(c, v, call, f).cloud, name)
  {
    if call.CreateRule? { RuleName(cfg, j, p.work.mem.obj, call.args); }
    if call.PatchRule? { RuleName(cfg, j, p.work.mem.obj, call.args); }
  }

  lemma RuleName(cfg: Config, k: Id, o: Object, args: RuleArgs)
    requires RuleOf(cfg, k, o, args)
    ensures Some(args.name) == NameOf(cfg, k)
  {
  }

  /** The pass's own calls establish what the next stage needs. */
  lemma FwOwnCall(cfg: Config, k: Id, quiet: bool, c: Cloud, v: Versions, now: Time, p: Clean, call: Call, f: Fate)
    requires CloudInv(cfg, c) && NameOf(cfg, k).Some? && CleanNext(p) == Some(call)
    requires FwFacts(quiet, c, NameOf(cfg, k).value, p.fw)
    ensures var r := Serve(cfg, c, v, now, NameOf(cfg, k).value, p.mem, call, f);
            FwFacts(quiet, r.cloud, NameOf(cfg, k).value, LearnCleaning(p, NameOf(cfg, k), r.reply).fw)
  {
    var name := NameOf(cfg, k).value;
    var r := Serve(cfg, c, v, now, name, p.mem, call, f);
    match p.fw
    case AskClock(_) =>
    case AskOp(op, _) => FwAskedOp(cfg, k, quiet, c, v, p, f);
    case AskName(_) => FwAskedName(cfg, k, quiet, c, v, p, f);
    case Target(id, gaveUp) => FwDeleted(quiet, c, v, name, id, gaveUp, f);
    case Removed(_) =>
    case Cleared(_) => FwKept(quiet, c, r.cloud, name, p.fw);
    case Held(_) =>
  }

  lemma FwDeleted(quiet: bool, c: Cloud, v: Versions, name: string, id: Id, gaveUp: bool, f: Fate)
    requires FwFacts(quiet, c, name, Target(id, gaveUp))
    ensures var r := ServeRule(c, v, DeleteRule(id), f);
            && (quiet ==> NoCreates(r.cloud, name))
            && (r.reply.Done? || r.reply == Refused(true, Some(404)) ==> FwFacts(quiet, r.cloud, name, Removed(gaveUp)))
  {
    var r := ServeRule(c, v, DeleteRule(id), f);
    FwKept(quiet, c, r.cloud, name, Target(id, gaveUp));
    assert r.reply.Done? || r.reply == Refused(true, Some(404)) ==> id !in r.cloud.rules;
  }

  lemma FwAskedOp(cfg: Config, k: Id, quiet: bool, c: Cloud, v: Versions, p: Clean, f: Fate)
    requires CloudInv(cfg, c) && NameOf(cfg, k).Some? && p.fw.AskOp? && FwFacts(quiet, c, NameOf(cfg, k).value, p.fw)
    ensures var reply := ServeRule(c, v, GetOp(p.fw.op), f).reply;
            FwFacts(quiet, c, NameOf(cfg, k).value, LearnCleaning(p, NameOf(cfg, k), reply).fw)
  {
    var name, op, reply := NameOf(cfg, k).value, p.fw.op, ServeRule(c, v, GetOp(p.fw.op), f).reply;
    if c.ops[op].InFlight? {
      assert CreatesRule(c, op, name) && op !in c.aged;
      assert OutcomeOf(reply).Pending? || OutcomeOf(reply).Transient?;
    } else {
      assert NoCreates(c, name);
      assert !OutcomeOf(reply).Pending?;
    }
  }

  /** A complete list shows the rule of the name, or that there is none. */
  lemma ListedRule(cfg: Config, c: Cloud, v: Versions, name: string, f: Fate)
    requires CloudInv(cfg, c)
    ensures var reply := ServeRule(c, v, ListRules, f).reply;
            reply.RuleList? ==>
              var found := FindByName(reply.rules, name);
              if found.Some? then OnlyRule(c, name, found.value) else forall i :: !RuleNamed(c, i, name)
  {
    var reply := ServeRule(c, v, ListRules, f).reply;
    if reply.RuleList? {
      var found := FindByName(reply.rules, name);
      if found.Some? {
        var j :| 0 <= j < |f.listed| && reply.rules[j] == (found.value, name);
        assert f.listed[j] in f.listed;
      } else {
        forall i ensures !RuleNamed(c, i, name) {
          if i in c.rules {
            assert i in f.listed;
            var j :| 0 <= j < |f.listed| && f.listed[j] == i;
            assert reply.rules[j] in reply.rules;
          }
        }
      }
    }
  }

  lemma FwAskedName(cfg: Config, k: Id, quiet: bool, c: Cloud, v: Versions, p: Clean, f: Fate)
    requires CloudInv(cfg, c) && NameOf(cfg, k).Some? && p.fw.AskName? && FwFacts(quiet, c, NameOf(cfg, k).value, p.fw)
    ensures var reply := ServeRule(c, v, ListRules, f).reply;
            FwFacts(quiet, c, NameOf(cfg, k).value, LearnCleaning(p, NameOf(cfg, k), reply).fw)
  {
    ListedRule(cfg, c, v, NameOf(cfg, k).value, f);
  }

  /* ---- Over a whole pass ---- */

  /** k's deleting pass that began with start is still going on. */
  predicate CleaningSince(s: Sys, k: Id, start: Copy) {
    k in s.svcs && s.svcs[k].pass.Cleaning? && s.svcs[k].pass.clean.start == start
  }

  ghost predicate FwKnown(cfg: Config, quiet: bool, s: Sys, k: Id, start: Copy) {
    CleaningSince(s, k, start) && NameOf(cfg, k).Some? &&
    FwFacts(quiet, s.cloud, NameOf(cfg, k).value, s.svcs[k].pass.clean.fw)
  }

  predicate InterruptsPass(a: Action, k: Id) { a == Begin(k) || a == End(k) }

  lemma RuleServed(cfg: Config, s: Sys, j: Id, call: Call, f: Fate)
    requires j in s.svcs && !s.svcs[j].pass.Idle?
    requires call.GetRule? || call.PatchRule? || call.GetOp? || call.ListRules? || call.CreateRule? || call.DeleteRule?
    ensures DoCall(cfg, s, j, call, f) == ServeRule(s.cloud, s.svcs[j].versions, call, f)
  {
  }

  lemma OtherCallShrinks(cfg: Config, s: Sys, j: Id, call: Call, f: Fate, name: string)
    requires j in s.svcs && !s.svcs[j].pass.Idle? && Allowed(cfg, j, s.svcs[j].pass, call) && NameOf(cfg, j) != Some(name)
    ensures RuleShrinks(s.cloud, DoCall(cfg, s, j, call, f).cloud, name)
  {
    if call.GetRule? || call.PatchRule? || call.GetOp? || call.ListRules? || call.CreateRule? || call.DeleteRule? {
      OtherRuleCall(cfg, s.cloud, j, s.svcs[j].pass, s.svcs[j].versions, call, f, name);
      RuleServed(cfg, s, j, call, f);
    } else {
      RulesUntouched(cfg, s, j, call, f);
    }
  }

  lemma FwOwnStep(cfg: Config, quiet: bool, s: Sys, k: Id, call: Call, f: Fate, start: Copy)
    requires CloudInv(cfg, s.cloud) && FwKnown(cfg, quiet, s, k, start) && Allowed(cfg, k, s.svcs[k].pass, call)
    ensures FwKnown(cfg, quiet, Step(cfg, s, Do(k, call, f)), k, start)
  {
    FwOwnCall(cfg, k, quiet, s.cloud, s.svcs[k].versions, s.now, s.svcs[k].pass.clean, call, f);
  }

  lemma FwOtherStep(cfg: Config, quiet: bool, s: Sys, j: Id, call: Call, f: Fate, k: Id, start: Copy)
    requires ValidConfig(cfg) && FwKnown(cfg, quiet, s, k, start) && j != k
    requires j in s.svcs && !s.svcs[j].pass.Idle? && Allowed(cfg, j, s.svcs[j].pass, call)
    ensures FwKnown(cfg, quiet, Step(cfg, s, Do(j, call, f)), k, start)
  {
    var name := NameOf(cfg, k).value;
    if NameOf(cfg, j) == Some(name) { NameInjective(cfg, j, k); }
    OtherCallShrinks(cfg, s, j, call, f, name);
    FwKept(quiet, s.cloud, DoCall(cfg, s, j, call, f).cloud, name, s.svcs[k].pass.clean.fw);
  }

  lemma FwStepKept(cfg: Config, quiet: bool, s: Sys, a: Action, k: Id, start: Copy)
    requires ValidConfig(cfg) && Inv(cfg, s) && FwKnown(cfg, quiet, s, k, start) && !InterruptsPass(a, k)
    ensures FwKnown(cfg, quiet, Step(cfg, s, a), k, start)
  {
    if a.Do? && a.k in s.svcs && !s.svcs[a.k].pass.Idle? && Allowed(cfg, a.k, s.svcs[a.k].pass, a.call) {
      FwCallKept(cfg, quiet, s, a.k, a.call, a.fate, k, start);
    } else if a.OpSettles? || a.OpAges? || a.RuleDropped? {
      FwEventKept(cfg, quiet, s, a, k, start);
    } else {
      FwQuietKept(cfg, quiet, s, a, k, start);
    }
  }

  lemma FwCallKept(cfg: Config, quiet: bool, s: Sys, j: Id, call: Call, f: Fate, k: Id, start: Copy)
    requires ValidConfig(cfg) && CloudInv(cfg, s.cloud) && FwKnown(cfg, quiet, s, k, start)
    requires j in s.svcs && !s.svcs[j].pass.Idle? && Allowed(cfg, j, s.svcs[j].pass, call)
    ensures FwKnown(cfg, quiet, Step(cfg, s, Do(j, call, f)), k, start)
  {
    if j == k {
      FwOwnStep(cfg, quiet, s, k, call, f, start);
    } else {
      FwOtherStep(cfg, quiet, s, j, call, f, k, start);
    }
  }

  /** Passes, users and caches elsewhere leave the cloud and the pass as they are. */
  lemma FwQuietKept(cfg: Config, quiet: bool, s: Sys, a: Action, k: Id, start: Copy)
    requires FwKnown(cfg, quiet, s, k, start) && !InterruptsPass(a, k) && !a.OpSettles? && !a.OpAges? && !a.RuleDropped?
    requires a.Do? ==> a.k !in s.svcs || s.svcs[a.k].pass.Idle? || !Allowed(cfg, a.k, s.svcs[a.k].pass, a.call)
    ensures FwKnown(cfg, quiet, Step(cfg, s, a), k, start)
  {
    assert Step(cfg, s, a).cloud == s.cloud;
  }

  lemma FwEventKept(cfg: Config, quiet: bool, s: Sys, a: Action, k: Id, start: Copy)
    requires FwKnown(cfg, quiet, s, k, start) && (a.OpSettles? || a.OpAges? || a.RuleDropped?)
    ensures FwKnown(cfg, quiet, Step(cfg, s, a), k, start)
  {
    var name, p := NameOf(cfg, k).value, s.svcs[k].pass.clean;
    if a.OpSettles? {
      FwSettles(quiet, s.cloud, a, name, p.fw);
    } else {
      FwKept(quiet, s.cloud, Step(cfg, s, a).cloud, name, p.fw);
    }
  }

  lemma {:induction false} FwRunKept(cfg: Config, quiet: bool, s: Sys, acts: seq<Action>, k: Id, start: Copy)
    requires ValidConfig(cfg) && Inv(cfg, s) && FwKnown(cfg, quiet, s, k, start)
    requires forall a | a in acts :: !InterruptsPass(a, k)
    ensures FwKnown(cfg, quiet, Run(cfg, s, acts), k, start)
    decreases |acts|
  {
    if |acts| > 0 {
      FwRunKept(cfg, quiet, s, acts[..|acts| - 1], k, start);
      RunInv(cfg, s, acts[..|acts| - 1]);
      FwStepKept(cfg, quiet, Run(cfg, s, acts[..|acts| - 1]), acts[|acts| - 1], k, start);
    }
  }

  /** The pass is done with the firewall step, so its next call is on the load balancer or the
      finalizer. */
  predicate RuleStepDone(p: Pass) {
    p.Cleaning? && p.clean.fw.Cleared? && CleanNext(p.clean).Some?
  }

  /** It gave up a hold: it found its operation still pending past the limit. */
  predicate GaveUp(p: Pass) {
    p.Cleaning? && p.clean.fw == Cleared(true)
  }

  /** s is reached from s0 through a deleting pass of k that begins with start and is still going
      on, everything else interleaving with it. */
  ghost predicate DuringPass(cfg: Config, s0: Sys, acts: seq<Action>, s: Sys, k: Id, start: Copy) {
    && ValidConfig(cfg) && Inv(cfg, s0)
    && k in s0.svcs && s0.svcs[k].pass.Idle? && CleaningSince(Step(cfg, s0, Begin(k)), k, start)
    && (forall a | a in acts :: !InterruptsPass(a, k))
    && s == Run(cfg, Step(cfg, s0, Begin(k)), acts) && CleaningSince(s, k, start)
  }

  lemma PassKept(cfg: Config, s: Sys, a: Action, k: Id, start: Copy)
    requires CleaningSince(s, k, start) && !InterruptsPass(a, k)
    ensures CleaningSince(Step(cfg, s, a), k, start)
  {
  }

  lemma {:induction false} PassRunKept(cfg: Config, s: Sys, acts: seq<Action>, k: Id, start: Copy)
    requires CleaningSince(s, k, start) && forall a | a in acts :: !InterruptsPass(a, k)
    ensures CleaningSince(Run(cfg, s, acts), k, start)
    decreases |acts|
  {
    if |acts| > 0 {
      PassRunKept(cfg, s, acts[..|acts| - 1], k, start);
      PassKept(cfg, Run(cfg, s, acts[..|acts| - 1]), acts[|acts| - 1], k, start);
    }
  }

  lemma PassStartInv(cfg: Config, s0: Sys, acts: seq<Action>, s: Sys, k: Id, start: Copy)
    requires DuringPass(cfg, s0, acts, s, k, start)
    ensures Inv(cfg, Step(cfg, s0, Begin(k))) && Step(cfg, s0, Begin(k)).cloud == s0.cloud
  {
    StepInv(cfg, s0, Begin(k));
  }

  lemma PassInv(cfg: Config, s0: Sys, acts: seq<Action>, s: Sys, k: Id, start: Copy)
    requires DuringPass(cfg, s0, acts, s, k, start)
    ensures Inv(cfg, s)
  {
    PassStartInv(cfg, s0, acts, s, k, start);
    RunInv(cfg, Step(cfg, s0, Begin(k)), acts);
  }

  lemma BeginsWith(cfg: Config, s0: Sys, k: Id, start: Copy)
    requires k in s0.svcs && s0.svcs[k].pass.Idle? && CleaningSince(Step(cfg, s0, Begin(k)), k, start)
    ensures Step(cfg, s0, Begin(k)).svcs[k].pass.clean.fw == FwStart(cfg, k, start.obj)
  {
  }

  ghost predicate LiveLb(c: Cloud, name: string) { exists i :: NamedLb(c, i, name) && i in c.live }

  lemma FwStarts(cfg: Config, quiet: bool, s0: Sys, k: Id, start: Copy)
    requires k in s0.svcs && s0.svcs[k].pass.Idle? && CleaningSince(Step(cfg, s0, Begin(k)), k, start)
    requires Managed(start.obj) && cfg.project && NameOf(cfg, k).Some? && Coherent(s0.cloud, NameOf(cfg, k).value, start.obj)
    requires quiet ==> NoCreates(s0.cloud, NameOf(cfg, k).value)
    ensures FwKnown(cfg, quiet, Step(cfg, s0, Begin(k)), k, start)
  {
    BeginsWith(cfg, s0, k, start);
    FwBegins(cfg, k, quiet, s0.cloud, start.obj);
  }

  lemma FwKnownSince(cfg: Config, quiet: bool, s0: Sys, acts: seq<Action>, s: Sys, k: Id, start: Copy)
    requires DuringPass(cfg, s0, acts, s, k, start)
    requires Managed(start.obj) && cfg.project && NameOf(cfg, k).Some? && Coherent(s0.cloud, NameOf(cfg, k).value, start.obj)
    requires quiet ==> NoCreates(s0.cloud, NameOf(cfg, k).value)
    ensures FwKnown(cfg, quiet, s, k, start)
  {
    PassStartInv(cfg, s0, acts, s, k, start);
    FwStarts(cfg, quiet, s0, k, start);
    FwRunKept(cfg, quiet, Step(cfg, s0, Begin(k)), acts, k, start);
  }

  lemma KnownGone(quiet: bool, c: Cloud, name: string, fw: FwStep)
    requires FwFacts(quiet, c, name, fw) && fw.Cleared? && (fw.gaveUp ==> quiet)
    ensures NoRule(c, name)
  {
  }

  lemma RuleGone(cfg: Config, s0: Sys, acts: seq<Action>, s: Sys, k: Id, start: Copy)
    requires DuringPass(cfg, s0, acts, s, k, start) && RuleStepDone(s.svcs[k].pass)
    requires Managed(start.obj) && cfg.project && NameOf(cfg, k).Some? && Coherent(s0.cloud, NameOf(cfg, k).value, start.obj)
    requires GaveUp(s.svcs[k].pass) ==> NoCreates(s0.cloud, NameOf(cfg, k).value)
    ensures NoRule(s.cloud, NameOf(cfg, k).value)
  {
    var quiet := GaveUp(s.svcs[k].pass);
    FwKnownSince(cfg, quiet, s0, acts, s, k, start);
    KnownGone(quiet, s.cloud, NameOf(cfg, k).value, s.svcs[k].pass.clean.fw);
  }

  /** Turning to the finalizer means the recorded load balancer is gone, and with it every load
      balancer of the Service's name. */
  lemma LbGone(cfg: Config, s: Sys, k: Id, start: Copy)
    requires Inv(cfg, s) && CleaningSince(s, k, start) && Text(start.obj.ann, LbId) != ""
    requires CleanNext(s.svcs[k].pass.clean).Some? && CleanNext(s.svcs[k].pass.clean).value.Update?
    ensures Text(start.obj.ann, LbId) !in s.cloud.live
    ensures NameOf(cfg, k).Some? && !LiveLb(s.cloud, NameOf(cfg, k).value)
  {
    StartRecord(cfg, s.cloud, k, s.svcs[k]);
    assert CleanInv(cfg, s.cloud, k, s.svcs[k], s.svcs[k].pass.clean);
  }

  /** The pass's next call is the removal of the finalizer. */
  predicate TurnsToFinalizer(p: Pass) {
    p.Cleaning? && CleanNext(p.clean).Some? && CleanNext(p.clean).value.Update?
  }

  /** Release safety. From the start of a deleting pass, through any interleaving: with coherent
      annotations, once the pass turns to the load balancer no rule of the Service's name is live or in
      flight; the only exception is an operation that was in flight when the pass began and was still
      pending, past the limit, when the pass asked. And once it turns to the finalizer, whatever became of
      the rule, the recorded load balancer and every other of the Service's name are gone. */
  lemma ReleaseSafe(cfg: Config, s0: Sys, acts: seq<Action>, s: Sys, k: Id, start: Copy)
    requires DuringPass(cfg, s0, acts, s, k, start)
    ensures RuleStepDone(s.svcs[k].pass) && Managed(start.obj) && cfg.project && NameOf(cfg, k).Some? &&
            Coherent(s0.cloud, NameOf(cfg, k).value, start.obj) &&
            (GaveUp(s.svcs[k].pass) ==> NoCreates(s0.cloud, NameOf(cfg, k).value)) ==>
              NoRule(s.cloud, NameOf(cfg, k).value)
    ensures TurnsToFinalizer(s.svcs[k].pass) && Text(start.obj.ann, LbId) != "" ==>
              && Text(start.obj.ann, LbId) !in s.cloud.live
              && NameOf(cfg, k).Some? && !LiveLb(s.cloud, NameOf(cfg, k).value)
  {
    if RuleStepDone(s.svcs[k].pass) && Managed(start.obj) && cfg.project && NameOf(cfg, k).Some? &&
       Coherent(s0.cloud, NameOf(cfg, k).value, start.obj) &&
       (GaveUp(s.svcs[k].pass) ==> NoCreates(s0.cloud, NameOf(cfg, k).value)) {
      RuleGone(cfg, s0, acts, s, k, start);
    }
    if TurnsToFinalizer(s.svcs[k].pass) && Text(start.obj.ann, LbId) != "" {
      PassInv(cfg, s0, acts, s, k, start);
      LbGone(cfg, s, k, start);
    }
  }

  /* ---- The load balancer a stale snapshot does not know ---- */

  lemma LiveStep(cfg: Config, s: Sys, a: Action, k: Id, start: Copy)
    requires ValidConfig(cfg) && Inv(cfg, s) && CleaningSince(s, k, start)
    requires NameOf(cfg, k).Some? && Text(start.obj.ann, LbId) == ""
    ensures LiveLb(Step(cfg, s, a).cloud, NameOf(cfg, k).value) <==> LiveLb(s.cloud, NameOf(cfg, k).value)
  {
    if a.Do? && a.k in s.svcs && !s.svcs[a.k].pass.Idle? && Allowed(cfg, a.k, s.svcs[a.k].pass, a.call) {
      LiveCall(cfg, s, a.k, a.call, a.fate, k);
    } else {
      QuietStep(cfg, s, a);
    }
  }

  /** Only API calls change load balancers. */
  lemma QuietStep(cfg: Config, s: Sys, a: Action)
    requires a.Do? ==> a.k !in s.svcs || s.svcs[a.k].pass.Idle? || !Allowed(cfg, a.k, s.svcs[a.k].pass, a.call)
    ensures var c := Step(cfg, s, a).cloud; c.lbs == s.cloud.lbs && c.live == s.cloud.live
  {
  }

  lemma LiveCall(cfg: Config, s: Sys, j: Id, call: Call, f: Fate, k: Id)
    requires ValidConfig(cfg) && Inv(cfg, s) && k in s.svcs && s.svcs[k].pass.Cleaning? && NameOf(cfg, k).Some?
    requires Text(s.svcs[k].pass.clean.start.obj.ann, LbId) == ""
    requires j in s.svcs && !s.svcs[j].pass.Idle? && Allowed(cfg, j, s.svcs[j].pass, call)
    ensures LiveLb(DoCall(cfg, s, j, call, f).cloud, NameOf(cfg, k).value) <==> LiveLb(s.cloud, NameOf(cfg, k).value)
  {
    var name, c := NameOf(cfg, k).value, s.cloud;
    if j == k {
      assert !s.svcs[k].pass.clean.lb.Present?;
      assert !call.DeleteLb? && !call.CreateLb?;
    } else {
      CallCloud(cfg, c, j, s.svcs[j], s.now, call, f);
      if NameOf(cfg, j) == Some(name) { NameInjective(cfg, j, k); }
      SameLive(c, DoCall(cfg, s, j, call, f).cloud, name);
    }
  }

  lemma SameLive(c: Cloud, c': Cloud, name: string)
    requires LbStable(c, c', Some(name))
    ensures LiveLb(c', name) <==> LiveLb(c, name)
  {
    if i :| NamedLb(c, i, name) && i in c.live { assert NamedLb(c', i, name); }
    if i :| NamedLb(c', i, name) && i in c'.live { assert NamedLb(c, i, name); }
  }

  lemma {:induction false} LiveRun(cfg: Config, s: Sys, acts: seq<Action>, k: Id, start: Copy)
    requires ValidConfig(cfg) && Inv(cfg, s) && CleaningSince(s, k, start)
    requires NameOf(cfg, k).Some? && Text(start.obj.ann, LbId) == ""
    requires forall a | a in acts :: !InterruptsPass(a, k)
    ensures CleaningSince(Run(cfg, s, acts), k, start)
    ensures LiveLb(Run(cfg, s, acts).cloud, NameOf(cfg, k).value) <==> LiveLb(s.cloud, NameOf(cfg, k).value)
    decreases |acts|
  {
    if |acts| > 0 {
      LiveRun(cfg, s, acts[..|acts| - 1], k, start);
      RunInv(cfg, s, acts[..|acts| - 1]);
      PassKept(cfg, Run(cfg, s, acts[..|acts| - 1]), acts[|acts| - 1], k, start);
      LiveStep(cfg, Run(cfg, s, acts[..|acts| - 1]), acts[|acts| - 1], k, start);
    }
  }

  /** The release leaves a load balancer behind exactly when one is live at the start of the pass
      and the snapshot the pass began with does not hold its id. */
  lemma ReleaseLeavesLoadBalancer(cfg: Config, s0: Sys, acts: seq<Action>, s: Sys, k: Id, start: Copy)
    requires DuringPass(cfg, s0, acts, s, k, start) && NameOf(cfg, k).Some?
    requires TurnsToFinalizer(s.svcs[k].pass)
    ensures LiveLb(s.cloud, NameOf(cfg, k).value) <==>
            LiveLb(s0.cloud, NameOf(cfg, k).value) && Text(start.obj.ann, LbId) == ""
  {
    if Text(start.obj.ann, LbId) == "" {
      PassStartInv(cfg, s0, acts, s, k, start);
      LiveRun(cfg, Step(cfg, s0, Begin(k)), acts, k, start);
    } else {
      PassInv(cfg, s0, acts, s, k, start);
      LbGone(cfg, s, k, start);
    }
  }
}
