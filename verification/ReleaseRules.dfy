/** Exactly what a release leaves behind of a Service's firewall rules. */
module ReleaseRules {
  import opened Wrappers
  import opened Model
  import opened Protocol
  import opened Invariant
  import opened InvariantSteps
  import opened InvariantProof
  import opened Tracking
  import opened ReleaseSafety

  /* ---- What one step does to the rules of a name ---- */

  /** Of the rules and creates of the name only those in gone can go and those in settled can settle;
      a new rule comes of one that settles. */
  ghost predicate Moves(c: Cloud, c': Cloud, name: string, gone: set<Id>, settled: set<Id>) {
    && c.spent <= c'.spent
    && (forall i | i in c.spent && i in c'.rules :: i in c.rules)
    && (forall i | i in c.spent && i !in gone :: RuleNamed(c', i, name) <==> RuleNamed(c, i, name))
    && (forall i | i in c.spent && RuleNamed(c', i, name) :: RuleNamed(c, i, name))
    && (forall x :: CreatesRule(c', x, name) <==> CreatesRule(c, x, name) && x !in settled)
    && (forall i | RuleNamed(c', i, name) && i !in c.spent :: exists x :: x in settled && CreatesRule(c, x, name))
  }

  /** Calls of other Services do not touch the rules of this name. */
  lemma OtherOnOwn(cfg: Config, c: Cloud, v: Versions, call: Call, f: Fate, other: Option<string>, name: string)
    requires CloudInv(cfg, c) && OnOwnRule(c, other, call) && other != Some(name)
    requires call.GetRule? || call.PatchRule? || call.GetOp? || call.ListRules? || call.CreateRule? || call.DeleteRule?
    ensures Moves(c, ServeRule(c, v, call, f).cloud, name, {}, {})
  {
  }

  lemma SettleMoves(cfg: Config, c: Cloud, a: Action, name: string)
    requires CloudInv(cfg, c) && a.OpSettles?
    ensures Moves(c, SettleOp(c, a), name, {}, {a.op})
  {
    var c' := SettleOp(c, a);
    forall i | RuleNamed(c', i, name) && i !in c.spent ensures exists x :: x in {a.op} && CreatesRule(c, x, name) {
      assert CreatesRule(c, a.op, name);
    }
  }

  lemma OtherCallMoves(cfg: Config, s: Sys, j: Id, call: Call, f: Fate, name: string)
    requires Inv(cfg, s) && Tracks(cfg, s) && NameOf(cfg, j) != Some(name)
    requires j in s.svcs && !s.svcs[j].pass.Idle? && Allowed(cfg, j, s.svcs[j].pass, call)
    ensures Moves(s.cloud, DoCall(cfg, s, j, call, f).cloud, name, {}, {})
  {
    if call.GetRule? || call.PatchRule? || call.GetOp? || call.ListRules? || call.CreateRule? || call.DeleteRule? {
      AllowedOnOwn(cfg, s.cloud, j, s.svcs[j], call);
      RuleServed(cfg, s, j, call, f);
      OtherOnOwn(cfg, s.cloud, s.svcs[j].versions, call, f, NameOf(cfg, j), name);
    } else {
      RulesUntouched(cfg, s, j, call, f);
      SameMoves(cfg, s.cloud, DoCall(cfg, s, j, call, f).cloud, name);
    }
  }

  lemma SameMoves(cfg: Config, c: Cloud, c': Cloud, name: string)
    requires CloudInv(cfg, c) && c'.rules == c.rules && c'.ops == c.ops && c'.spent == c.spent
    ensures Moves(c, c', name, {}, {})
  {
  }

  /** A deleting pass moves the rule it heads for and nothing else. */
  function Headed(fw: FwStep): set<Id> { if fw.Target? then {fw.id} else {} }

  lemma OwnCallMoves(cfg: Config, c: Cloud, v: Versions, now: Time, p: Clean, call: Call, f: Fate, own: string, name: string)
    requires CloudInv(cfg, c) && CleanNext(p) == Some(call)
    ensures Moves(c, Serve(cfg, c, v, now, own, p.mem, call, f).cloud, name, Headed(p.fw), {})
  {
    if p.fw.Target? {
      DeleteMoves(cfg, c, v, p.fw.id, f, name);
    } else {
      OtherServed(cfg, c, v, now, own, p.mem, call, f);
      SameMoves(cfg, c, Serve(cfg, c, v, now, own, p.mem, call, f).cloud, name);
    }
  }

  lemma DeleteMoves(cfg: Config, c: Cloud, v: Versions, id: Id, f: Fate, name: string)
    requires CloudInv(cfg, c)
    ensures Moves(c, ServeRule(c, v, DeleteRule(id), f).cloud, name, {id}, {})
  {
  }

  lemma OtherServed(cfg: Config, c: Cloud, v: Versions, now: Time, own: string, mem: Copy, call: Call, f: Fate)
    requires !call.PatchRule? && !call.CreateRule? && !call.DeleteRule?
    ensures var c' := Serve(cfg, c, v, now, own, mem, call, f).cloud;
            c'.rules == c.rules && c'.ops == c.ops && c'.spent == c.spent
  {
  }

  /* ---- Creates in flight, and where rules come from ---- */

  predicate Settles(acts: seq<Action>, x: Id) { exists a | a in acts :: a.OpSettles? && a.op == x }

  /** A create of the name that was in flight at first has settled. */
  ghost predicate AnySettles(c0: Cloud, acts: seq<Action>, name: string) {
    exists x :: CreatesRule(c0, x, name) && Settles(acts, x)
  }

  /** The creates in flight are exactly those of before that have not settled, an old rule is one of
      before, and a new one comes of a create that settled. */
  ghost predicate Traced(c0: Cloud, acts: seq<Action>, c: Cloud, name: string) {
    && c0.spent <= c.spent
    && (forall x :: CreatesRule(c, x, name) <==> CreatesRule(c0, x, name) && !Settles(acts, x))
    && (forall i | RuleNamed(c, i, name) && i !in c0.spent :: AnySettles(c0, acts, name))
    && (forall i | RuleNamed(c, i, name) && i in c0.spent :: RuleNamed(c0, i, name) && RuleDropped(i) !in acts)
  }

  /** What a step by anybody does: gone and settled are what it drops and settles. */
  function Dropped(a: Action): set<Id> { if a.RuleDropped? then {a.id} else {} }
  function Settling(a: Action): set<Id> { if a.OpSettles? then {a.op} else {} }

  lemma SettlesOn(acts: seq<Action>, a: Action, x: Id)
    ensures Settles(acts + [a], x) <==> Settles(acts, x) || x in Settling(a)
  {
    assert forall b | b in acts :: b in acts + [a];
    assert a in acts + [a];
  }

  lemma TracedOn(c0: Cloud, acts: seq<Action>, c: Cloud, c': Cloud, name: string, a: Action, gone: set<Id>)
    requires Traced(c0, acts, c, name) && Moves(c, c', name, gone, Settling(a))
    requires a.RuleDropped? ==> a.id !in c'.rules
    ensures Traced(c0, acts + [a], c', name)
  {
    forall x ensures Settles(acts + [a], x) <==> Settles(acts, x) || x in Settling(a) { SettlesOn(acts, a, x); }
    forall i | RuleNamed(c', i, name) && i !in c0.spent ensures AnySettles(c0, acts + [a], name) {
      if i in c.spent {
        var x :| CreatesRule(c0, x, name) && Settles(acts, x);
        assert Settles(acts + [a], x);
      } else {
        var x :| x in Settling(a) && CreatesRule(c, x, name);
        assert CreatesRule(c0, x, name) && Settles(acts + [a], x);
      }
    }
  }

  /* ---- Over a pass ---- */

  /** What the step takes from the rules: the pass's own target, or what is dropped. */
  function Taken(s: Sys, k: Id, a: Action): set<Id>
    requires k in s.svcs && s.svcs[k].pass.Cleaning?
  {
    if a.Do? && a.k == k then Headed(s.svcs[k].pass.clean.fw) else Dropped(a)
  }

  lemma OwnStepMoves(cfg: Config, s: Sys, k: Id, call: Call, f: Fate, name: string)
    requires Inv(cfg, s) && k in s.svcs && s.svcs[k].pass.Cleaning? && Allowed(cfg, k, s.svcs[k].pass, call)
    ensures Moves(s.cloud, DoCall(cfg, s, k, call, f).cloud, name, Headed(s.svcs[k].pass.clean.fw), {})
  {
    OwnCallMoves(cfg, s.cloud, s.svcs[k].versions, s.now, s.svcs[k].pass.clean, call, f, NameOf(cfg, k).GetOr(""), name);
  }

  lemma EventMoves(cfg: Config, s: Sys, a: Action, name: string)
    requires CloudInv(cfg, s.cloud) && (a.OpSettles? || a.OpAges? || a.RuleDropped?)
    ensures Moves(s.cloud, Step(cfg, s, a).cloud, name, Dropped(a), Settling(a))
  {
    if a.OpSettles? { SettleMoves(cfg, s.cloud, a, name); }
  }

  /** Users, caches, the clock and passes between calls leave the cloud alone. */
  lemma QuietMoves(cfg: Config, s: Sys, a: Action, name: string, gone: set<Id>)
    requires CloudInv(cfg, s.cloud) && !a.OpSettles? && !a.OpAges? && !a.RuleDropped?
    requires a.Do? ==> a.k !in s.svcs || s.svcs[a.k].pass.Idle? || !Allowed(cfg, a.k, s.svcs[a.k].pass, a.call)
    ensures Step(cfg, s, a).cloud == s.cloud && Moves(s.cloud, Step(cfg, s, a).cloud, name, gone, {})
  {
  }

  lemma StepMoves(cfg: Config, s: Sys, a: Action, k: Id, name: string)
    requires ValidConfig(cfg) && Inv(cfg, s) && Tracks(cfg, s) && NameOf(cfg, k) == Some(name)
    requires k in s.svcs && s.svcs[k].pass.Cleaning?
    ensures Moves(s.cloud, Step(cfg, s, a).cloud, name, Taken(s, k, a), Settling(a))
    ensures a.RuleDropped? ==> a.id !in Step(cfg, s, a).cloud.rules
  {
    if a.Do? && a.k in s.svcs && !s.svcs[a.k].pass.Idle? && Allowed(cfg, a.k, s.svcs[a.k].pass, a.call) {
      if a.k == k {
        OwnStepMoves(cfg, s, k, a.call, a.fate, name);
      } else {
        if NameOf(cfg, a.k) == Some(name) { NameInjective(cfg, a.k, k); }
        OtherCallMoves(cfg, s, a.k, a.call, a.fate, name);
      }
    } else if a.OpSettles? || a.OpAges? || a.RuleDropped? {
      EventMoves(cfg, s, a, name);
    } else {
      QuietMoves(cfg, s, a, name, Taken(s, k, a));
    }
  }

  lemma TracedBegins(cfg: Config, c: Cloud, name: string)
    requires CloudInv(cfg, c)
    ensures Traced(c, [], c, name)
  {
  }

  lemma TracedSnoc(cfg: Config, c0: Cloud, s: Sys, acts: seq<Action>, a: Action, k: Id, start: Copy, name: string)
    requires ValidConfig(cfg) && Inv(cfg, s) && Tracks(cfg, s) && NameOf(cfg, k) == Some(name)
    requires CleaningSince(s, k, start) && forall b | b in acts + [a] :: !InterruptsPass(b, k)
    requires Traced(c0, acts, Run(cfg, s, acts).cloud, name)
    ensures Traced(c0, acts + [a], Step(cfg, Run(cfg, s, acts), a).cloud, name)
  {
    RunTracks(cfg, s, acts);
    RunInv(cfg, s, acts);
    PassRunKept(cfg, s, acts, k, start);
    var t := Run(cfg, s, acts);
    StepMoves(cfg, t, a, k, name);
    TracedOn(c0, acts, t.cloud, Step(cfg, t, a).cloud, name, a, Taken(t, k, a));
  }

  lemma {:induction false} TracedRun(cfg: Config, c0: Cloud, s: Sys, acts: seq<Action>, k: Id, start: Copy, name: string)
    requires ValidConfig(cfg) && Inv(cfg, s) && Tracks(cfg, s) && NameOf(cfg, k) == Some(name)
    requires CleaningSince(s, k, start) && forall a | a in acts :: !InterruptsPass(a, k)
    requires Traced(c0, [], s.cloud, name)
    ensures Traced(c0, acts, Run(cfg, s, acts).cloud, name)
    decreases |acts|
  {
    if |acts| > 0 {
      var before, a := acts[..|acts| - 1], acts[|acts| - 1];
      assert before + [a] == acts;
      TracedRun(cfg, c0, s, before, k, start, name);
      TracedSnoc(cfg, c0, s, before, a, k, start, name);
    } else {
      assert acts == [];
    }
  }

  lemma TracedPass(cfg: Config, s0: Sys, acts: seq<Action>, s: Sys, k: Id, start: Copy)
    requires DuringPass(cfg, s0, acts, s, k, start) && Tracks(cfg, s0) && NameOf(cfg, k).Some?
    ensures Traced(s0.cloud, acts, s.cloud, NameOf(cfg, k).value)
  {
    PassStartInv(cfg, s0, acts, s, k, start);
    StepTracks(cfg, s0, Begin(k));
    TracedBegins(cfg, s0.cloud, NameOf(cfg, k).value);
    TracedRun(cfg, s0.cloud, Step(cfg, s0, Begin(k)), acts, k, start, NameOf(cfg, k).value);
  }

  /** Whatever its snapshot holds, a deleting pass leaves in flight exactly the creates that were in
      flight when it began and have not settled meanwhile. */
  lemma CreatesStayInFlight(cfg: Config, s0: Sys, acts: seq<Action>, s: Sys, k: Id, start: Copy)
    requires DuringPass(cfg, s0, acts, s, k, start) && Tracks(cfg, s0) && NameOf(cfg, k).Some?
    ensures var name := NameOf(cfg, k).value;
            forall x :: CreatesRule(s.cloud, x, name) <==> CreatesRule(s0.cloud, x, name) && !Settles(acts, x)
  {
    TracedPass(cfg, s0, acts, s, k, start);
  }

  /* ---- Which rule the pass heads for ---- */

  /** The rule a settled operation reports. */
  function RuleReported(o: Op): Option<Id> {
    var outcome := OutcomeOf(OpSeen(o));
    if outcome.Yielded? then Some(outcome.ruleId) else None
  }

  /** The recorded rule, or the one the recorded operation reports; None means the rule of the name. */
  function HeadsFor(c: Cloud, o: Object): Option<Id> {
    var id, op := Text(o.ann, RuleId), Text(o.ann, OpId);
    if id != "" then Some(id) else if op != "" && op in c.ops && op !in c.aged then RuleReported(c.ops[op]) else None
  }

  /** A live rule of the name that is not the one headed for and that nobody else has dropped since. */
  predicate Survives(c0: Cloud, acts: seq<Action>, name: string, head: Option<Id>, i: Id) {
    head.Some? && Some(i) != head && RuleNamed(c0, i, name) && RuleDropped(i) !in acts
  }

  ghost predicate StillThere(c0: Cloud, acts: seq<Action>, c: Cloud, name: string, except: Option<Id>) {
    forall i | i in c0.spent && Some(i) != except && RuleNamed(c0, i, name) && RuleDropped(i) !in acts :: RuleNamed(c, i, name)
  }

  ghost predicate NoOld(c0: Cloud, c: Cloud, name: string, except: Option<Id>) {
    forall i | i in c0.spent && Some(i) != except :: !RuleNamed(c, i, name)
  }

  /** The recorded operation still reports what it did at first, unless its record is gone; one that has
      come to report a rule meanwhile could do so only with no other rule of the name. */
  ghost predicate OpStands(c0: Cloud, acts: seq<Action>, c: Cloud, name: string, head: Option<Id>, op: Id) {
    && op in c.ops
    && (head.Some? ==> RuleReported(c.ops[op]) == head && (op in c.aged ==> OpAges(op) in acts))
    && (head.None? && op !in c.aged && RuleReported(c.ops[op]).Some? ==> NoOld(c0, c, name, None))
  }

  /** The operation that a pass over this snapshot asks, if any. */
  function AskedFor(o: Object): Option<Id> {
    if Text(o.ann, RuleId) == "" && Text(o.ann, OpId) != "" then Some(Text(o.ann, OpId)) else None
  }

  /** Its record goes meanwhile. */
  predicate Ages(acts: seq<Action>, asked: Option<Id>) { asked.Some? && OpAges(asked.value) in acts }

  /** Going by the name: there was nothing else to go by, or the operation's record went. */
  predicate GoesByName(acts: seq<Action>, head: Option<Id>, asked: Option<Id>) { head.None? || Ages(acts, asked) }

  /** What is left of the old rules at each stage. */
  ghost predicate OldRules(c0: Cloud, acts: seq<Action>, c: Cloud, name: string, head: Option<Id>, asked: Option<Id>,
                           fw: FwStep) {
    match fw
    case AskClock(op) => asked == Some(op) && StillThere(c0, acts, c, name, None) && OpStands(c0, acts, c, name, head, op)
    case AskOp(op, _) => asked == Some(op) && StillThere(c0, acts, c, name, None) && OpStands(c0, acts, c, name, head, op)
    case AskName(_) => GoesByName(acts, head, asked)
    case Target(id, _) =>
      || (head == Some(id) && StillThere(c0, acts, c, name, head))
      || (GoesByName(acts, head, asked) && NoOld(c0, c, name, Some(id)))
    case Held(_) => true
    case _ =>
      || (head.Some? && head.value !in c.rules && StillThere(c0, acts, c, name, head))
      || (GoesByName(acts, head, asked) && NoOld(c0, c, name, None))
  }

  lemma OldRulesBegin(cfg: Config, k: Id, c: Cloud, o: Object)
    requires CloudInv(cfg, c) && Knows(c, o.ann, NameOf(cfg, k)) && NameOf(cfg, k).Some? && Managed(o) && cfg.project
    ensures OldRules(c, [], c, NameOf(cfg, k).value, HeadsFor(c, o), AskedFor(o), FwStart(cfg, k, o))
  {
  }

  /** The one headed for was a rule of before. */
  lemma HeadKnown(cfg: Config, k: Id, c: Cloud, o: Object)
    requires Knows(c, o.ann, NameOf(cfg, k)) && HeadsFor(c, o).Some?
    ensures HeadsFor(c, o).value in c.spent
  {
  }

  /* The pass's own calls. */

  lemma AskedStage(c0: Cloud, acts: seq<Action>, c: Cloud, v: Versions, name: string, head: Option<Id>, p: Clean, f: Fate)
    requires p.fw.AskOp? && OldRules(c0, acts, c, name, head, Some(p.fw.op), p.fw)
    requires c.ops[p.fw.op].InFlight? ==> p.fw.op !in c.aged
    ensures var reply := ServeRule(c, v, GetOp(p.fw.op), f).reply;
            OldRules(c0, acts, c, name, head, Some(p.fw.op), LearnCleaning(p, Some(name), reply).fw)
  {
    var reply := ServeRule(c, v, GetOp(p.fw.op), f).reply;
    if p.fw.op in c.aged {
      assert !OutcomeOf(reply).Yielded? && !OutcomeOf(reply).Pending?;
    } else if reply == OpSeen(c.ops[p.fw.op]) {
      assert head.None? || OutcomeOf(reply) == Yielded(head.value);
    } else {
      assert OutcomeOf(reply).Transient?;
    }
  }

  lemma ListedStage(cfg: Config, c0: Cloud, acts: seq<Action>, c: Cloud, v: Versions, name: string, head: Option<Id>,
                    asked: Option<Id>, p: Clean, f: Fate)
    requires CloudInv(cfg, c) && p.fw.AskName? && OldRules(c0, acts, c, name, head, asked, p.fw)
    ensures var reply := ServeRule(c, v, ListRules, f).reply;
            OldRules(c0, acts, c, name, head, asked, LearnCleaning(p, Some(name), reply).fw)
  {
    ListedRule(cfg, c, v, name, f);
  }

  lemma DeletedStage(cfg: Config, c0: Cloud, acts: seq<Action>, c: Cloud, v: Versions, name: string, head: Option<Id>,
                     asked: Option<Id>, p: Clean, f: Fate)
    requires p.fw.Target? && OldRules(c0, acts, c, name, head, asked, p.fw)
    ensures var r := ServeRule(c, v, DeleteRule(p.fw.id), f);
            OldRules(c0, acts, r.cloud, name, head, asked, LearnCleaning(p, Some(name), r.reply).fw)
  {
    var r := ServeRule(c, v, DeleteRule(p.fw.id), f);
    if r.reply.Done? || r.reply == Refused(true, Some(404)) {
      assert r.cloud.rules == c.rules - {p.fw.id};
    }
  }

  lemma OtherStage(cfg: Config, c0: Cloud, acts: seq<Action>, c: Cloud, v: Versions, now: Time, name: string, head: Option<Id>,
                   asked: Option<Id>, p: Clean, call: Call, f: Fate)
    requires CleanNext(p) == Some(call) && !p.fw.AskOp? && !p.fw.AskName? && !p.fw.Target?
    requires OldRules(c0, acts, c, name, head, asked, p.fw)
    ensures var r := Serve(cfg, c, v, now, name, p.mem, call, f);
            OldRules(c0, acts, r.cloud, name, head, asked, LearnCleaning(p, Some(name), r.reply).fw)
  {
    OtherServed(cfg, c, v, now, name, p.mem, call, f);
  }

  lemma OwnStage(cfg: Config, k: Id, c0: Cloud, acts: seq<Action>, c: Cloud, v: Versions, now: Time, head: Option<Id>,
                 asked: Option<Id>, p: Clean, call: Call, f: Fate)
    requires CloudInv(cfg, c) && NameOf(cfg, k).Some? && CleanNext(p) == Some(call)
    requires OldRules(c0, acts, c, NameOf(cfg, k).value, head, asked, p.fw)
    ensures var r := Serve(cfg, c, v, now, NameOf(cfg, k).value, p.mem, call, f);
            OldRules(c0, acts, r.cloud, NameOf(cfg, k).value, head, asked, LearnCleaning(p, NameOf(cfg, k), r.reply).fw)
  {
    var name := NameOf(cfg, k).value;
    if p.fw.AskOp? {
      AskedStage(c0, acts, c, v, name, head, p, f);
    } else if p.fw.AskName? {
      ListedStage(cfg, c0, acts, c, v, name, head, asked, p, f);
    } else if p.fw.Target? {
      DeletedStage(cfg, c0, acts, c, v, name, head, asked, p, f);
    } else {
      OtherStage(cfg, c0, acts, c, v, now, name, head, asked, p, call, f);
    }
  }

  /* Everybody else's steps. */

  /** What a step does to the recorded operation. */
  ghost predicate OpMoves(c0: Cloud, c: Cloud, c': Cloud, name: string, op: Id, a: Action) {
    && (op in c'.aged ==> op in c.aged || a == OpAges(op))
    && c.aged <= c'.aged
    && (op in c.ops ==>
          && op in c'.ops
          && (c'.ops[op] == c.ops[op] ||
              (RuleReported(c.ops[op]).None? && (RuleReported(c'.ops[op]).Some? ==> NoOld(c0, c', name, None)))))
  }

  lemma StageMoves(c0: Cloud, acts: seq<Action>, c: Cloud, c': Cloud, name: string, head: Option<Id>, asked: Option<Id>,
                   fw: FwStep, a: Action)
    requires OldRules(c0, acts, c, name, head, asked, fw) && c0.spent <= c.spent
    requires Moves(c, c', name, Dropped(a), Settling(a))
    requires fw.AskClock? || fw.AskOp? ==> OpMoves(c0, c, c', name, fw.op, a)
    requires head.Some? ==> head.value in c0.spent
    ensures OldRules(c0, acts + [a], c', name, head, asked, fw)
  {
    assert forall b | b in acts :: b in acts + [a];
    assert a in acts + [a];
    StayMoves(c0, acts, c, c', name, None, a);
    StayMoves(c0, acts, c, c', name, head, a);
  }

  lemma StayMoves(c0: Cloud, acts: seq<Action>, c: Cloud, c': Cloud, name: string, except: Option<Id>, a: Action)
    requires Moves(c, c', name, Dropped(a), Settling(a)) && c0.spent <= c.spent
    ensures StillThere(c0, acts, c, name, except) ==> StillThere(c0, acts + [a], c', name, except)
    ensures forall e | NoOld(c0, c, name, e) :: NoOld(c0, c', name, e)
  {
    if StillThere(c0, acts, c, name, except) {
      forall i | i in c0.spent && Some(i) != except && RuleNamed(c0, i, name) && RuleDropped(i) !in acts + [a]
        ensures RuleNamed(c', i, name)
      {
        assert a in acts + [a];
        assert i !in Dropped(a);
      }
    }
  }

  lemma CallOps(cfg: Config, s: Sys, j: Id, call: Call, f: Fate)
    requires j in s.svcs && !s.svcs[j].pass.Idle?
    ensures var c' := DoCall(cfg, s, j, call, f).cloud;
            c'.aged == s.cloud.aged && forall x | x in s.cloud.ops :: x in c'.ops && c'.ops[x] == s.cloud.ops[x]
  {
  }

  lemma SameOps(c0: Cloud, c: Cloud, c': Cloud, name: string, a: Action)
    requires c'.aged == c.aged && forall x | x in c.ops :: x in c'.ops && c'.ops[x] == c.ops[x]
    ensures forall op :: OpMoves(c0, c, c', name, op, a)
  {
  }

  lemma CallOpMoves(cfg: Config, c0: Cloud, s: Sys, j: Id, call: Call, f: Fate, name: string)
    requires j in s.svcs && !s.svcs[j].pass.Idle?
    ensures forall op :: OpMoves(c0, s.cloud, DoCall(cfg, s, j, call, f).cloud, name, op, Do(j, call, f))
  {
    CallOps(cfg, s, j, call, f);
    SameOps(c0, s.cloud, DoCall(cfg, s, j, call, f).cloud, name, Do(j, call, f));
  }

  lemma SettleOps(c0: Cloud, c: Cloud, name: string, op: Id, a: Action)
    requires a.OpSettles? && OpKnown(c, op, name) && c0.spent <= c.spent
    ensures OpMoves(c0, c, SettleOp(c, a), name, op, a)
  {
    var c' := SettleOp(c, a);
    if a.op == op && c' != c && c'.ops[op].Succeeded? {
      assert forall i | i in c.rules :: c.rules[i].name != name;
    }
  }

  lemma EventOps(cfg: Config, c0: Cloud, s: Sys, a: Action, name: string, op: Id)
    requires a.OpSettles? || a.OpAges? || a.RuleDropped?
    requires OpKnown(s.cloud, op, name) && c0.spent <= s.cloud.spent
    ensures OpMoves(c0, s.cloud, Step(cfg, s, a).cloud, name, op, a)
  {
    if a.OpSettles? { SettleOps(c0, s.cloud, name, op, a); }
  }

  /* Over the whole system. */

  ghost predicate Releasing(cfg: Config, c0: Cloud, acts: seq<Action>, s: Sys, k: Id, start: Copy, name: string) {
    && CleaningSince(s, k, start) && c0.spent <= s.cloud.spent
    && OldRules(c0, acts, s.cloud, name, HeadsFor(c0, start.obj), AskedFor(start.obj), s.svcs[k].pass.clean.fw)
  }

  lemma ReleasingBegins(cfg: Config, s0: Sys, k: Id, start: Copy, name: string)
    requires Inv(cfg, s0) && NameOf(cfg, k) == Some(name) && Managed(start.obj) && cfg.project
    requires k in s0.svcs && s0.svcs[k].pass.Idle? && CleaningSince(Step(cfg, s0, Begin(k)), k, start)
    requires Knows(s0.cloud, start.obj.ann, NameOf(cfg, k))
    ensures Releasing(cfg, s0.cloud, [], Step(cfg, s0, Begin(k)), k, start, name)
  {
    BeginsWith(cfg, s0, k, start);
    OldRulesBegin(cfg, k, s0.cloud, start.obj);
  }

  lemma StartKnown(cfg: Config, s: Sys, k: Id, start: Copy)
    requires Inv(cfg, s) && Tracks(cfg, s) && CleaningSince(s, k, start)
    ensures Knows(s.cloud, start.obj.ann, NameOf(cfg, k))
  {
    assert CleanInv(cfg, s.cloud, k, s.svcs[k], s.svcs[k].pass.clean);
    assert Knows(s.cloud, s.svcs[k].versions[start.version].value.ann, NameOf(cfg, k));
  }

  lemma OldRulesLater(c0: Cloud, acts: seq<Action>, c: Cloud, name: string, head: Option<Id>, asked: Option<Id>, fw: FwStep,
                      a: Action)
    requires OldRules(c0, acts, c, name, head, asked, fw) && !a.RuleDropped?
    ensures OldRules(c0, acts + [a], c, name, head, asked, fw)
  {
    assert forall b | b in acts :: b in acts + [a];
  }

  lemma ReleasingOwn(cfg: Config, c0: Cloud, acts: seq<Action>, s: Sys, k: Id, start: Copy, name: string, call: Call, f: Fate)
    requires Inv(cfg, s) && NameOf(cfg, k) == Some(name)
    requires Releasing(cfg, c0, acts, s, k, start, name) && Allowed(cfg, k, s.svcs[k].pass, call)
    ensures Releasing(cfg, c0, acts + [Do(k, call, f)], Step(cfg, s, Do(k, call, f)), k, start, name)
  {
    var head, asked, p := HeadsFor(c0, start.obj), AskedFor(start.obj), s.svcs[k].pass.clean;
    var r := DoCall(cfg, s, k, call, f);
    OwnStepMoves(cfg, s, k, call, f, name);
    OwnStage(cfg, k, c0, acts, s.cloud, s.svcs[k].versions, s.now, head, asked, p, call, f);
    OldRulesLater(c0, acts, r.cloud, name, head, asked, LearnCleaning(p, NameOf(cfg, k), r.reply).fw, Do(k, call, f));
  }

  /** k's pass stands where it stood, and the cloud has moved. */
  lemma ReleasingMoved(cfg: Config, c0: Cloud, acts: seq<Action>, s: Sys, s': Sys, k: Id, start: Copy, name: string, a: Action)
    requires Releasing(cfg, c0, acts, s, k, start, name) && k in s'.svcs && s'.svcs[k] == s.svcs[k]
    requires HeadsFor(c0, start.obj).Some? ==> HeadsFor(c0, start.obj).value in c0.spent
    requires Moves(s.cloud, s'.cloud, name, Dropped(a), Settling(a))
    requires var fw := s.svcs[k].pass.clean.fw; fw.AskClock? || fw.AskOp? ==> OpMoves(c0, s.cloud, s'.cloud, name, fw.op, a)
    ensures Releasing(cfg, c0, acts + [a], s', k, start, name)
  {
    StageMoves(c0, acts, s.cloud, s'.cloud, name, HeadsFor(c0, start.obj), AskedFor(start.obj), s.svcs[k].pass.clean.fw, a);
  }

  lemma OtherKept(cfg: Config, s: Sys, k: Id, j: Id, call: Call, f: Fate)
    requires k in s.svcs && j != k && j in s.svcs && !s.svcs[j].pass.Idle? && Allowed(cfg, j, s.svcs[j].pass, call)
    ensures var t := Step(cfg, s, Do(j, call, f));
            k in t.svcs && t.svcs[k] == s.svcs[k] && t.cloud == DoCall(cfg, s, j, call, f).cloud
  {
  }

  lemma ReleasingOther(cfg: Config, c0: Cloud, acts: seq<Action>, s: Sys, k: Id, start: Copy, name: string, j: Id, call: Call,
                       f: Fate)
    requires ValidConfig(cfg) && Inv(cfg, s) && Tracks(cfg, s) && NameOf(cfg, k) == Some(name)
    requires Releasing(cfg, c0, acts, s, k, start, name) && j != k
    requires HeadsFor(c0, start.obj).Some? ==> HeadsFor(c0, start.obj).value in c0.spent
    requires j in s.svcs && !s.svcs[j].pass.Idle? && Allowed(cfg, j, s.svcs[j].pass, call)
    ensures Releasing(cfg, c0, acts + [Do(j, call, f)], Step(cfg, s, Do(j, call, f)), k, start, name)
  {
    if NameOf(cfg, j) == Some(name) { NameInjective(cfg, j, k); }
    OtherCallMoves(cfg, s, j, call, f, name);
    CallOpMoves(cfg, c0, s, j, call, f, name);
    OtherKept(cfg, s, k, j, call, f);
    ReleasingMoved(cfg, c0, acts, s, Step(cfg, s, Do(j, call, f)), k, start, name, Do(j, call, f));
  }

  lemma ReleasingEvent(cfg: Config, c0: Cloud, acts: seq<Action>, s: Sys, k: Id, start: Copy, name: string, a: Action)
    requires Inv(cfg, s) && Tracks(cfg, s) && NameOf(cfg, k) == Some(name)
    requires Releasing(cfg, c0, acts, s, k, start, name) && (a.OpSettles? || a.OpAges? || a.RuleDropped?)
    requires HeadsFor(c0, start.obj).Some? ==> HeadsFor(c0, start.obj).value in c0.spent
    ensures Releasing(cfg, c0, acts + [a], Step(cfg, s, a), k, start, name)
  {
    var fw := s.svcs[k].pass.clean.fw;
    assert PassKnows(s.cloud, s.svcs[k].pass, NameOf(cfg, k));
    EventMoves(cfg, s, a, name);
    if fw.AskClock? || fw.AskOp? { EventOps(cfg, c0, s, a, name, fw.op); }
    ReleasingMoved(cfg, c0, acts, s, Step(cfg, s, a), k, start, name, a);
  }

  lemma ReleasingQuiet(cfg: Config, c0: Cloud, acts: seq<Action>, s: Sys, k: Id, start: Copy, name: string, a: Action)
    requires Releasing(cfg, c0, acts, s, k, start, name)
    requires !InterruptsPass(a, k) && !a.OpSettles? && !a.OpAges? && !a.RuleDropped?
    requires a.Do? ==> a.k !in s.svcs || s.svcs[a.k].pass.Idle? || !Allowed(cfg, a.k, s.svcs[a.k].pass, a.call)
    ensures Releasing(cfg, c0, acts + [a], Step(cfg, s, a), k, start, name)
  {
    assert Step(cfg, s, a).cloud == s.cloud;
    OldRulesLater(c0, acts, s.cloud, name, HeadsFor(c0, start.obj), AskedFor(start.obj), s.svcs[k].pass.clean.fw, a);
  }

  lemma ReleasingStep(cfg: Config, c0: Cloud, acts: seq<Action>, s: Sys, k: Id, start: Copy, name: string, a: Action)
    requires ValidConfig(cfg) && Inv(cfg, s) && Tracks(cfg, s) && NameOf(cfg, k) == Some(name) && !InterruptsPass(a, k)
    requires Releasing(cfg, c0, acts, s, k, start, name)
    requires HeadsFor(c0, start.obj).Some? ==> HeadsFor(c0, start.obj).value in c0.spent
    ensures Releasing(cfg, c0, acts + [a], Step(cfg, s, a), k, start, name)
  {
    if a.Do? && a.k in s.svcs && !s.svcs[a.k].pass.Idle? && Allowed(cfg, a.k, s.svcs[a.k].pass, a.call) {
      if a.k == k {
        ReleasingOwn(cfg, c0, acts, s, k, start, name, a.call, a.fate);
      } else {
        ReleasingOther(cfg, c0, acts, s, k, start, name, a.k, a.call, a.fate);
      }
    } else if a.OpSettles? || a.OpAges? || a.RuleDropped? {
      ReleasingEvent(cfg, c0, acts, s, k, start, name, a);
    } else {
      ReleasingQuiet(cfg, c0, acts, s, k, start, name, a);
    }
  }

  lemma ReleasingSnoc(cfg: Config, c0: Cloud, s: Sys, acts: seq<Action>, k: Id, start: Copy, name: string, a: Action)
    requires ValidConfig(cfg) && Inv(cfg, s) && Tracks(cfg, s) && NameOf(cfg, k) == Some(name) && !InterruptsPass(a, k)
    requires HeadsFor(c0, start.obj).Some? ==> HeadsFor(c0, start.obj).value in c0.spent
    requires Releasing(cfg, c0, acts, Run(cfg, s, acts), k, start, name)
    ensures Releasing(cfg, c0, acts + [a], Step(cfg, Run(cfg, s, acts), a), k, start, name)
  {
    RunInv(cfg, s, acts);
    RunTracks(cfg, s, acts);
    ReleasingStep(cfg, c0, acts, Run(cfg, s, acts), k, start, name, a);
  }

  lemma {:induction false} ReleasingRun(cfg: Config, c0: Cloud, s: Sys, acts: seq<Action>, k: Id, start: Copy, name: string)
    requires ValidConfig(cfg) && Inv(cfg, s) && Tracks(cfg, s) && NameOf(cfg, k) == Some(name)
    requires HeadsFor(c0, start.obj).Some? ==> HeadsFor(c0, start.obj).value in c0.spent
    requires Releasing(cfg, c0, [], s, k, start, name) && forall a | a in acts :: !InterruptsPass(a, k)
    ensures Releasing(cfg, c0, acts, Run(cfg, s, acts), k, start, name)
    decreases |acts|
  {
    if |acts| > 0 {
      var before, a := acts[..|acts| - 1], acts[|acts| - 1];
      assert before + [a] == acts;
      ReleasingRun(cfg, c0, s, before, k, start, name);
      ReleasingSnoc(cfg, c0, s, before, k, start, name, a);
    } else {
      assert acts == [];
    }
  }

  /** The deletion is past the rule it headed for. */
  predicate PastRule(fw: FwStep) { fw.Removed? || fw.Cleared? }

  lemma ReleasingPass(cfg: Config, s0: Sys, acts: seq<Action>, s: Sys, k: Id, start: Copy)
    requires DuringPass(cfg, s0, acts, s, k, start) && Tracks(cfg, s0)
    requires Managed(start.obj) && cfg.project && NameOf(cfg, k).Some?
    ensures Releasing(cfg, s0.cloud, acts, s, k, start, NameOf(cfg, k).value)
  {
    var s1, name := Step(cfg, s0, Begin(k)), NameOf(cfg, k).value;
    PassStartInv(cfg, s0, acts, s, k, start);
    StepTracks(cfg, s0, Begin(k));
    StartKnown(cfg, s1, k, start);
    HeadIsKnown(cfg, s0, k, start);
    ReleasingBegins(cfg, s0, k, start, name);
    ReleasingRun(cfg, s0.cloud, s1, acts, k, start, name);
  }

  lemma HeadIsKnown(cfg: Config, s0: Sys, k: Id, start: Copy)
    requires Knows(s0.cloud, start.obj.ann, NameOf(cfg, k))
    ensures var head := HeadsFor(s0.cloud, start.obj); head.Some? ==> head.value in s0.cloud.spent
  {
    if HeadsFor(s0.cloud, start.obj).Some? { HeadKnown(cfg, k, s0.cloud, start.obj); }
  }

  /** The rules of the name left at s of those at s0. */
  ghost predicate LeavesExactly(c0: Cloud, acts: seq<Action>, c: Cloud, name: string, o: Object) {
    && (forall i | RuleNamed(c, i, name) ::
          if i in c0.spent then Survives(c0, acts, name, HeadsFor(c0, o), i) else AnySettles(c0, acts, name))
    && (!Ages(acts, AskedFor(o)) ==> forall i | Survives(c0, acts, name, HeadsFor(c0, o), i) :: RuleNamed(c, i, name))
  }

  lemma LeftOver(cfg: Config, c0: Cloud, acts: seq<Action>, c: Cloud, name: string, o: Object, fw: FwStep)
    requires CloudInv(cfg, c0) && Traced(c0, acts, c, name) && PastRule(fw)
    requires OldRules(c0, acts, c, name, HeadsFor(c0, o), AskedFor(o), fw)
    ensures LeavesExactly(c0, acts, c, name, o)
  {
  }

  /** What a deletion leaves of the rules of the name. Past the rule, an old rule is live if and only if
      the pass headed for another one by id, and nobody else has dropped it; the exception is an
      operation whose record goes meanwhile, after which the pass may have gone by the name and left
      none. A new rule can only come of a create in flight at the start that has settled since. */
  lemma ReleaseLeavesRule(cfg: Config, s0: Sys, acts: seq<Action>, s: Sys, k: Id, start: Copy)
    requires DuringPass(cfg, s0, acts, s, k, start) && Tracks(cfg, s0) && PastRule(s.svcs[k].pass.clean.fw)
    requires Managed(start.obj) && cfg.project && NameOf(cfg, k).Some?
    ensures LeavesExactly(s0.cloud, acts, s.cloud, NameOf(cfg, k).value, start.obj)
  {
    TracedPass(cfg, s0, acts, s, k, start);
    ReleasingPass(cfg, s0, acts, s, k, start);
    LeftOver(cfg, s0.cloud, acts, s.cloud, NameOf(cfg, k).value, start.obj, s.svcs[k].pass.clean.fw);
  }

  /** So as long as no create of the name settles during the pass and the operation it asks keeps its
      record, a deletion past its rule leaves nothing, live or in flight, if and only if nothing of the
      name was in flight when it began and no other rule than the one headed for survives. */
  lemma ReleaseIsClean(cfg: Config, s0: Sys, acts: seq<Action>, s: Sys, k: Id, start: Copy)
    requires DuringPass(cfg, s0, acts, s, k, start) && Tracks(cfg, s0) && PastRule(s.svcs[k].pass.clean.fw)
    requires Managed(start.obj) && cfg.project && NameOf(cfg, k).Some?
    requires !AnySettles(s0.cloud, acts, NameOf(cfg, k).value) && !Ages(acts, AskedFor(start.obj))
    ensures var name := NameOf(cfg, k).value;
            NoRule(s.cloud, name) <==>
            NoCreates(s0.cloud, name) && forall i :: !Survives(s0.cloud, acts, name, HeadsFor(s0.cloud, start.obj), i)
  {
    CreatesStayInFlight(cfg, s0, acts, s, k, start);
    ReleaseLeavesRule(cfg, s0, acts, s, k, start);
    NothingLeft(s0.cloud, acts, s.cloud, NameOf(cfg, k).value, start.obj);
  }

  lemma NothingLeft(c0: Cloud, acts: seq<Action>, c: Cloud, name: string, o: Object)
    requires LeavesExactly(c0, acts, c, name, o) && !AnySettles(c0, acts, name) && !Ages(acts, AskedFor(o))
    requires forall x :: CreatesRule(c, x, name) <==> CreatesRule(c0, x, name) && !Settles(acts, x)
    ensures NoRule(c, name) <==> NoCreates(c0, name) && forall i :: !Survives(c0, acts, name, HeadsFor(c0, o), i)
  {
    if !NoCreates(c0, name) {
      var x :| CreatesRule(c0, x, name);
      assert CreatesRule(c, x, name);
    }
    if i :| Survives(c0, acts, name, HeadsFor(c0, o), i) { assert RuleNamed(c, i, name); }
  }

  /** A snapshot that records neither rule nor operation: nothing is left if and only if no create of the
      name was in flight when the pass began, as long as none settles during it. */
  lemma UntrackedReleaseIsClean(cfg: Config, s0: Sys, acts: seq<Action>, s: Sys, k: Id, start: Copy)
    requires DuringPass(cfg, s0, acts, s, k, start) && Tracks(cfg, s0) && PastRule(s.svcs[k].pass.clean.fw)
    requires Managed(start.obj) && cfg.project && NameOf(cfg, k).Some?
    requires Text(start.obj.ann, RuleId) == "" && Text(start.obj.ann, OpId) == ""
    requires !AnySettles(s0.cloud, acts, NameOf(cfg, k).value)
    ensures NoRule(s.cloud, NameOf(cfg, k).value) <==> NoCreates(s0.cloud, NameOf(cfg, k).value)
  {
    ReleaseIsClean(cfg, s0, acts, s, k, start);
  }
}
