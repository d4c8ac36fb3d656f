/** Whatever the annotations were left at, four firewall passes against a healthy API record the
    Service's rule and bring it in line; after that passes change nothing. */
module SelfHealing {
  import opened Wrappers
  import opened MergePatch
  import opened Timing
  import opened Ports
  import opened RuleCompare
  import opened Model
  import opened Protocol
  import opened Invariant
  import opened FirewallPass
  import opened Tracking
  import opened EnsureEffect

  /* ---- What happens between passes ---- */

  function CloudStep(c: Cloud, a: Action): Cloud {
    match a
    case OpSettles(_, _, _, _, _, _) => SettleOp(c, a)
    case OpAges(op) => if op in c.ops && !c.ops[op].InFlight? then c.(aged := c.aged + {op}) else c
    case _ => c
  }

  lemma CloudStepIsStep(cfg: Config, s: Sys, a: Action)
    requires a.OpSettles? || a.OpAges?
    ensures Step(cfg, s, a) == s.(cloud := CloudStep(s.cloud, a))
  {
  }

  /** Operations succeed unless their name is taken, and records age out. */
  predicate GoodEvent(c: Cloud, a: Action) {
    a.OpAges? || (a.OpSettles? && a.succeeds && a.ruleId !in c.spent && a.ruleId != "")
  }

  function CloudRun(c: Cloud, events: seq<Action>): Cloud
    decreases |events|
  {
    if |events| == 0 then c else CloudStep(CloudRun(c, events[..|events| - 1]), events[|events| - 1])
  }

  predicate GoodEvents(c: Cloud, events: seq<Action>)
    decreases |events|
  {
    |events| > 0 ==>
      GoodEvents(c, events[..|events| - 1]) && GoodEvent(CloudRun(c, events[..|events| - 1]), events[|events| - 1])
  }

  /** How a settled operation may differ from what it was. */
  ghost predicate Matured(c': Cloud, was: Op, op: Op) {
    op == was ||
    (was.InFlight? && op.Succeeded? && op.ruleId in c'.rules && c'.rules[op.ruleId] == was.rule) ||
    (was.InFlight? && op.OpFailed? && op.alreadyExists && Live(c', was.rule.name))
  }

  /** Rules are only added, under new ids; operations only settle. */
  ghost predicate Grows(c: Cloud, c': Cloud) {
    && (forall i | i in c.rules :: i in c'.rules && c'.rules[i] == c.rules[i])
    && (forall i | i in c'.rules && i !in c.rules :: i !in c.spent)
    && c.spent <= c'.spent && c.aged <= c'.aged
    && c'.ops.Keys == c.ops.Keys
    && (forall o | o in c.ops :: Matured(c', c.ops[o], c'.ops[o]))
  }

  /** The Service's rule is in the right VPC, and so is any that is being created. */
  ghost predicate VpcOk(c: Cloud, args: RuleArgs) {
    && (forall i | RuleNamed(c, i, args.name) :: c.rules[i].vpc == args.vpc)
    && (forall x | CreatesRule(c, x, args.name) :: c.ops[x].rule.vpc == args.vpc)
  }

  lemma GrowsStep(cfg: Config, c: Cloud, a: Action, args: RuleArgs)
    requires CloudInv(cfg, c) && VpcOk(c, args) && GoodEvent(c, a)
    ensures Grows(c, CloudStep(c, a)) && CloudInv(cfg, CloudStep(c, a)) && VpcOk(CloudStep(c, a), args)
  {
    var c' := CloudStep(c, a);
    if a.OpSettles? {
      InvariantProof.SettleInv(cfg, c, a);
      SettleGrows(c, a);
      SettleVpc(c, a, args);
    } else {
      AgeGrows(cfg, c, a, args);
    }
  }

  lemma AgeGrows(cfg: Config, c: Cloud, a: Action, args: RuleArgs)
    requires CloudInv(cfg, c) && VpcOk(c, args) && a.OpAges?
    ensures Grows(c, CloudStep(c, a)) && CloudInv(cfg, CloudStep(c, a)) && VpcOk(CloudStep(c, a), args)
  {
    AgedInv(cfg, c, a);
    assert forall x :: CreatesRule(CloudStep(c, a), x, args.name) <==> CreatesRule(c, x, args.name);
    assert forall i :: RuleNamed(CloudStep(c, a), i, args.name) <==> RuleNamed(c, i, args.name);
  }

  lemma AgedInv(cfg: Config, c: Cloud, a: Action)
    requires CloudInv(cfg, c) && a.OpAges?
    ensures CloudInv(cfg, CloudStep(c, a))
  {
  }

  lemma SettleGrows(c: Cloud, a: Action)
    requires a.OpSettles? && a.succeeds && a.ruleId !in c.spent && a.ruleId != ""
    requires forall i | i in c.rules :: i in c.spent
    ensures Grows(c, SettleOp(c, a))
  {
    var c' := SettleOp(c, a);
    if c' != c && c'.ops[a.op].OpFailed? {
      var i :| i in c.rules && c.rules[i].name == c.ops[a.op].rule.name;
      assert RuleNamed(c', i, c.ops[a.op].rule.name);
    }
  }

  lemma SettleVpc(c: Cloud, a: Action, args: RuleArgs)
    requires a.OpSettles? && VpcOk(c, args)
    ensures VpcOk(SettleOp(c, a), args)
  {
    var c' := SettleOp(c, a);
    if c' != c {
      forall i | RuleNamed(c', i, args.name) ensures c'.rules[i].vpc == args.vpc {
        if i !in c.rules || c'.rules[i] != c.rules[i] {
          assert CreatesRule(c, a.op, args.name);
        } else {
          assert RuleNamed(c, i, args.name);
        }
      }
      forall x | CreatesRule(c', x, args.name) ensures c'.ops[x].rule.vpc == args.vpc { assert CreatesRule(c, x, args.name); }
    }
  }

  lemma LiveGrows(c: Cloud, c': Cloud, name: string)
    requires Grows(c, c') && Live(c, name)
    ensures Live(c', name)
  {
    var i :| RuleNamed(c, i, name);
    assert RuleNamed(c', i, name);
  }

  lemma GrowsTrans(a: Cloud, b: Cloud, c: Cloud)
    requires Grows(a, b) && Grows(b, c)
    ensures Grows(a, c)
  {
    forall o | o in a.ops ensures Matured(c, a.ops[o], c.ops[o]) {
      assert Matured(b, a.ops[o], b.ops[o]) && Matured(c, b.ops[o], c.ops[o]);
      if a.ops[o].InFlight? && Live(b, a.ops[o].rule.name) { LiveGrows(b, c, a.ops[o].rule.name); }
    }
  }

  lemma {:induction false} GrowsRun(cfg: Config, c: Cloud, events: seq<Action>, args: RuleArgs)
    requires CloudInv(cfg, c) && VpcOk(c, args) && GoodEvents(c, events)
    ensures var c' := CloudRun(c, events); Grows(c, c') && CloudInv(cfg, c') && VpcOk(c', args)
    decreases |events|
  {
    if |events| > 0 {
      var before := CloudRun(c, events[..|events| - 1]);
      GrowsRun(cfg, c, events[..|events| - 1], args);
      GrowsStep(cfg, before, events[|events| - 1], args);
      GrowsTrans(c, before, CloudRun(c, events));
    }
  }

  /* ---- What holds between passes ---- */

  function StampOf(op: Op): Option<Time>
    requires op.OpFailed?
  {
    if op.completedAt.Some? then op.completedAt else op.startedAt
  }

  /** A recorded failure lies in the past: server and controller go by one clock. */
  ghost predicate Timely(c: Cloud, ann: Annotations, name: string, due: Time) {
    OpId in ann && ann[OpId] in c.ops && c.ops[ann[OpId]].OpFailed? && !(c.ops[ann[OpId]].alreadyExists && Live(c, name)) ==>
      StampOf(c.ops[ann[OpId]]).GetOr(due) <= due
  }

  ghost predicate Recoverable(cfg: Config, c: Cloud, ann: Annotations, args: RuleArgs, due: Time) {
    CloudInv(cfg, c) && Own(c, ann, args.name) && VpcOk(c, args) && Timely(c, ann, args.name, due)
  }

  ghost predicate NoneInFlight(c: Cloud, name: string) { forall x :: !CreatesRule(c, x, name) }

  /** Events between passes keep what the annotations record the Service's own. */
  lemma RecoverableGrows(cfg: Config, c: Cloud, c': Cloud, ann: Annotations, args: RuleArgs, due: Time, due': Time)
    requires Recoverable(cfg, c, ann, args, due) && Grows(c, c') && CloudInv(cfg, c') && VpcOk(c', args) && due <= due'
    ensures Recoverable(cfg, c', ann, args, due')
  {
    if OpId in ann && ann[OpId] in c.ops {
      assert Matured(c', c.ops[ann[OpId]], c'.ops[ann[OpId]]);
      if Live(c, args.name) { LiveGrows(c, c', args.name); }
    }
  }

  /* ---- A pass keeps it, and the next one is closer ---- */

  /** The annotations the pass leaves stored. */
  function Annotated(t: Site): Annotations {
    if Latest(t.versions).Some? then Latest(t.versions).value.ann else map[]
  }

  lemma SubmitsKeeps(cfg: Config, s: Site, t: Site, args: RuleArgs, due: Time)
    requires Recoverable(cfg, s.cloud, s.mem.obj.ann, args, due) && Submits(s, t, args)
    ensures Recoverable(cfg, t.cloud, Annotated(t), args, due)
    ensures RuleId !in Annotated(t) && OpId in Annotated(t) && CreatesRule(t.cloud, Annotated(t)[OpId], args.name)
  {
    var op :| SubmitsAs(s, t, args, op);
    assert CreatesRule(t.cloud, op, args.name);
    forall x | CreatesRule(t.cloud, x, args.name) ensures t.cloud.ops[x].rule.vpc == args.vpc {
      if x != op { assert CreatesRule(s.cloud, x, args.name); }
    }
    forall i | RuleNamed(t.cloud, i, args.name) ensures t.cloud.rules[i].vpc == args.vpc {
      assert RuleNamed(s.cloud, i, args.name);
    }
  }

  lemma RepairsKeeps(cfg: Config, s: Site, t: Site, args: RuleArgs, due: Time)
    requires Recoverable(cfg, s.cloud, s.mem.obj.ann, args, due) && Current(s)
    requires RuleId in s.mem.obj.ann && Repairs(s, t, args, s.mem.obj.ann[RuleId])
    ensures Recoverable(cfg, t.cloud, Annotated(t), args, due)
    ensures Annotated(t) == s.mem.obj.ann && Matches(t.cloud.rules[s.mem.obj.ann[RuleId]], args)
  {
    var id := s.mem.obj.ann[RuleId];
    assert RuleNamed(s.cloud, id, args.name);
    PatchMakesMatch(s.cloud.rules[id], args);
    forall i ensures RuleNamed(t.cloud, i, args.name) <==> RuleNamed(s.cloud, i, args.name) {}
    forall x ensures CreatesRule(t.cloud, x, args.name) <==> CreatesRule(s.cloud, x, args.name) {}
    RepairedInv(cfg, s.cloud, t.cloud, id, args);
    if Live(t.cloud, args.name) { assert Live(s.cloud, args.name); }
    assert Live(s.cloud, args.name) ==> Live(t.cloud, args.name);
  }

  lemma RepairedInv(cfg: Config, c: Cloud, c': Cloud, id: Id, args: RuleArgs)
    requires CloudInv(cfg, c) && RuleNamed(c, id, args.name)
    requires c' == c.(rules := c.rules[id := Patched(c.rules[id], Sorted(args))])
    ensures CloudInv(cfg, c')
  {
  }

  lemma StoresKeeps(cfg: Config, s: Site, t: Site, args: RuleArgs, id: Id, due: Time)
    requires Recoverable(cfg, s.cloud, s.mem.obj.ann, args, due) && StoresId(s, t, id)
    requires id in s.cloud.spent && (id in s.cloud.rules ==> RuleNamed(s.cloud, id, args.name))
    ensures Recoverable(cfg, t.cloud, Annotated(t), args, due)
    ensures Get(Annotated(t), RuleId) == Some(id)
  {
  }

  /** When the next pass may start. */
  function Due(now: Time, t: Site): Time {
    if t.at.Ended? then now + t.at.wait else now
  }

  lemma RecordedSoonHeals(c: Cloud, ann: Annotations, args: RuleArgs, now: Time)
    requires RuleId in ann && ann[RuleId] in c.rules
    ensures PassesLeft(Diagnose(c, ann, args, now)) <= 1
  {
  }

  lemma StaysMatching(c: Cloud, c': Cloud, ann: Annotations, args: RuleArgs, now: Time)
    requires Grows(c, c') && RuleId in ann && ann[RuleId] in c.rules && Matches(c.rules[ann[RuleId]], args)
    ensures Diagnose(c', ann, args, now) == Matching
  {
  }

  lemma StaysMissing(c: Cloud, c': Cloud, ann: Annotations, args: RuleArgs, now: Time)
    requires Grows(c, c') && RuleId in ann && ann[RuleId] !in c.rules && ann[RuleId] in c.spent
    ensures Diagnose(c', ann, args, now) == Missing
  {
  }

  /** A create operation of the name that has settled since leads to the live rule. */
  lemma SettledAdopts(c: Cloud, c': Cloud, ann: Annotations, args: RuleArgs, now: Time)
    requires Grows(c, c') && RuleId !in ann && OpId in ann && CreatesRule(c, ann[OpId], args.name) && NoneInFlight(c', args.name)
    ensures Diagnose(c', ann, args, now) == Adoptable
  {
    var was, op := c.ops[ann[OpId]], c'.ops[ann[OpId]];
    assert Matured(c', was, op);
    if op.InFlight? { assert CreatesRule(c', ann[OpId], args.name); }
    if op.Succeeded? { assert RuleNamed(c', op.ruleId, args.name); }
  }

  /** After the wait, the cooldown is over. */
  lemma WaitedOut(c: Cloud, c': Cloud, ann: Annotations, args: RuleArgs, now: Time, next: Time)
    requires Grows(c, c') && RuleId !in ann && OpId in ann && ann[OpId] in c.ops && c.ops[ann[OpId]].OpFailed?
    requires var op := c.ops[ann[OpId]];
             && StampOf(op).GetOr(now) <= now
             && next >= now + RetryWait(op.completedAt, op.startedAt, now)
    ensures PassesLeft(Diagnose(c', ann, args, next)) <= 3
  {
    assert Matured(c', c.ops[ann[OpId]], c'.ops[ann[OpId]]);
  }

  lemma EffectKeeps(cfg: Config, s: Site, t: Site, args: RuleArgs, now: Time)
    requires Recoverable(cfg, s.cloud, s.mem.obj.ann, args, now) && Current(s)
    requires Effect(s, t, args, Diagnose(s.cloud, s.mem.obj.ann, args, now), now)
    ensures Recoverable(cfg, t.cloud, Annotated(t), args, now)
  {
    var d := Diagnose(s.cloud, s.mem.obj.ann, args, now);
    match d
    case Differing => RepairsKeeps(cfg, s, t, args, now);
    case Adoptable =>
      var id :| RuleNamed(s.cloud, id, args.name) && StoresId(s, t, id);
      StoresKeeps(cfg, s, t, args, id, now);
    case Dangling =>
      var id :| id in s.cloud.spent && id !in s.cloud.rules && StoresId(s, t, id);
      StoresKeeps(cfg, s, t, args, id, now);
    case Missing => SubmitsKeeps(cfg, s, t, args, now);
    case _ =>
  }

  lemma AfterRecording(cfg: Config, s: Site, t: Site, c': Cloud, args: RuleArgs, now: Time, next: Time, id: Id)
    requires Recoverable(cfg, s.cloud, s.mem.obj.ann, args, now) && StoresId(s, t, id) && Grows(t.cloud, c')
    requires id in s.cloud.spent && (id in s.cloud.rules ==> RuleNamed(s.cloud, id, args.name))
    ensures PassesLeft(Diagnose(c', Annotated(t), args, next)) <= if id in s.cloud.rules then 1 else 3
  {
    StoresKeeps(cfg, s, t, args, id, now);
    if id in s.cloud.rules {
      RecordedSoonHeals(c', Annotated(t), args, next);
    } else {
      StaysMissing(t.cloud, c', Annotated(t), args, next);
    }
  }

  lemma AfterRepair(cfg: Config, s: Site, t: Site, c': Cloud, args: RuleArgs, now: Time, next: Time)
    requires Recoverable(cfg, s.cloud, s.mem.obj.ann, args, now) && Current(s) && Grows(t.cloud, c')
    requires RuleId in s.mem.obj.ann && Repairs(s, t, args, s.mem.obj.ann[RuleId])
    ensures Diagnose(c', Annotated(t), args, next) == Matching
  {
    RepairsKeeps(cfg, s, t, args, now);
    StaysMatching(t.cloud, c', s.mem.obj.ann, args, next);
  }

  lemma AfterSubmit(cfg: Config, s: Site, t: Site, c': Cloud, args: RuleArgs, now: Time, next: Time)
    requires Recoverable(cfg, s.cloud, s.mem.obj.ann, args, now) && Submits(s, t, args)
    requires Grows(t.cloud, c') && NoneInFlight(c', args.name)
    ensures Diagnose(c', Annotated(t), args, next) == Adoptable
  {
    SubmitsKeeps(cfg, s, t, args, now);
    SettledAdopts(t.cloud, c', Annotated(t), args, next);
  }

  /** Fewer passes are left each time until the rule is recorded and matches. */
  lemma Closer(cfg: Config, s: Site, t: Site, c': Cloud, args: RuleArgs, now: Time, next: Time)
    requires Recoverable(cfg, s.cloud, s.mem.obj.ann, args, now) && Current(s)
    requires Effect(s, t, args, Diagnose(s.cloud, s.mem.obj.ann, args, now), now)
    requires Grows(t.cloud, c') && NoneInFlight(c', args.name) && next >= Due(now, t)
    ensures var d := PassesLeft(Diagnose(s.cloud, s.mem.obj.ann, args, now));
            PassesLeft(Diagnose(c', Annotated(t), args, next)) <= if d == 0 then 0 else d - 1
  {
    match Diagnose(s.cloud, s.mem.obj.ann, args, now)
    case Matching => StaysMatching(s.cloud, c', s.mem.obj.ann, args, next);
    case Differing => AfterRepair(cfg, s, t, c', args, now, next);
    case Adoptable =>
      var id :| RuleNamed(s.cloud, id, args.name) && StoresId(s, t, id);
      AfterRecording(cfg, s, t, c', args, now, next, id);
    case Dangling =>
      var id :| id in s.cloud.spent && id !in s.cloud.rules && StoresId(s, t, id);
      AfterRecording(cfg, s, t, c', args, now, next, id);
    case Awaiting => SettledAdopts(s.cloud, c', s.mem.obj.ann, args, next);
    case Missing => AfterSubmit(cfg, s, t, c', args, now, next);
    case Cooling => WaitedOut(s.cloud, c', s.mem.obj.ann, args, now, next);
  }

  /* ---- Pass after pass ---- */

  /** One pass and what happens until the next. */
  datatype Visit = Visit(now: Time, fates: seq<Fate>, events: seq<Action>)

  /** due: when the next pass may start. */
  datatype Course = Course(store: Store, due: Time)

  ghost function PassOf(cfg: Config, args: RuleArgs, c: Course, v: Visit): Site
    requires Latest(c.store.versions).Some?
  {
    EnsureRun(cfg, args, v.now, EnsureBegins(c.store), v.fates)
  }

  ghost function Visited(cfg: Config, args: RuleArgs, c: Course, v: Visit): Course {
    if Latest(c.store.versions).None? then c
    else
      var t := PassOf(cfg, args, c, v);
      Course(Store(CloudRun(t.cloud, v.events), t.versions), Due(v.now, t))
  }

  /** The pass comes no sooner than asked and meets a healthy API; operations settle before the next. */
  ghost predicate GoodVisit(cfg: Config, args: RuleArgs, c: Course, v: Visit) {
    Latest(c.store.versions).Some? ==>
      && v.now >= c.due && |v.fates| >= LONGEST_ENSURE && HealthyEnsureRun(cfg, args, v.now, EnsureBegins(c.store), v.fates)
      && GoodEvents(PassOf(cfg, args, c, v).cloud, v.events) && NoneInFlight(Visited(cfg, args, c, v).store.cloud, args.name)
  }

  ghost function Visits(cfg: Config, args: RuleArgs, c: Course, log: seq<Visit>): Course
    decreases |log|
  {
    if |log| == 0 then c else Visited(cfg, args, Visits(cfg, args, c, log[..|log| - 1]), log[|log| - 1])
  }

  ghost predicate GoodVisits(cfg: Config, args: RuleArgs, c: Course, log: seq<Visit>)
    decreases |log|
  {
    |log| > 0 ==>
      && GoodVisits(cfg, args, c, log[..|log| - 1])
      && GoodVisit(cfg, args, Visits(cfg, args, c, log[..|log| - 1]), log[|log| - 1])
  }

  ghost predicate Sound(cfg: Config, args: RuleArgs, c: Course) {
    Latest(c.store.versions).Some? && Recoverable(cfg, c.store.cloud, Latest(c.store.versions).value.ann, args, c.due)
  }

  /** However late the next pass, it finds at most r passes left. */
  ghost predicate HealsWithin(c: Course, args: RuleArgs, r: int) {
    Latest(c.store.versions).Some? &&
    forall now | now >= c.due :: PassesLeft(Diagnose(c.store.cloud, Latest(c.store.versions).value.ann, args, now)) <= r
  }

  lemma TimelyLater(cfg: Config, c: Cloud, ann: Annotations, args: RuleArgs, due: Time, now: Time)
    requires Recoverable(cfg, c, ann, args, due) && due <= now
    ensures Recoverable(cfg, c, ann, args, now)
  {
  }

  lemma EffectStored(s: Site, t: Site, args: RuleArgs, d: Standing, now: Time)
    requires Effect(s, t, args, d, now) && Current(s)
    ensures Latest(t.versions).Some? && t.at.Ended? && !t.at.err && t.at.wait >= 0
  {
  }

  lemma VisitEffect(cfg: Config, args: RuleArgs, c: Course, v: Visit)
    requires Sound(cfg, args, c) && GoodVisit(cfg, args, c, v)
    ensures var s := EnsureBegins(c.store);
            && Recoverable(cfg, s.cloud, s.mem.obj.ann, args, v.now) && Current(s)
            && Effect(s, PassOf(cfg, args, c, v), args, Diagnose(s.cloud, s.mem.obj.ann, args, v.now), v.now)
  {
    var s := EnsureBegins(c.store);
    TimelyLater(cfg, s.cloud, s.mem.obj.ann, args, c.due, v.now);
    PassEffect(cfg, args, v.now, c.store, v.fates);
  }

  lemma VisitHeals(cfg: Config, args: RuleArgs, c: Course, v: Visit, r: nat)
    requires Sound(cfg, args, c) && GoodVisit(cfg, args, c, v) && HealsWithin(c, args, r)
    ensures Sound(cfg, args, Visited(cfg, args, c, v)) && HealsWithin(Visited(cfg, args, c, v), args, if r == 0 then 0 else r - 1)
  {
    var s, t, c' := EnsureBegins(c.store), PassOf(cfg, args, c, v), Visited(cfg, args, c, v);
    VisitEffect(cfg, args, c, v);
    EffectStored(s, t, args, Diagnose(s.cloud, s.mem.obj.ann, args, v.now), v.now);
    VisitKeeps(cfg, args, s, t, v, c');
    var ann := Latest(c'.store.versions).value.ann;
    forall next | next >= c'.due
      ensures PassesLeft(Diagnose(c'.store.cloud, ann, args, next)) <= if r == 0 then 0 else r - 1
    {
      assert PassesLeft(Diagnose(s.cloud, s.mem.obj.ann, args, v.now)) <= r;
      Closer(cfg, s, t, c'.store.cloud, args, v.now, next);
    }
  }

  lemma VisitKeeps(cfg: Config, args: RuleArgs, s: Site, t: Site, v: Visit, c': Course)
    requires Recoverable(cfg, s.cloud, s.mem.obj.ann, args, v.now) && Current(s)
    requires Effect(s, t, args, Diagnose(s.cloud, s.mem.obj.ann, args, v.now), v.now)
    requires GoodEvents(t.cloud, v.events) && NoneInFlight(CloudRun(t.cloud, v.events), args.name)
    requires c' == Course(Store(CloudRun(t.cloud, v.events), t.versions), Due(v.now, t))
    ensures Grows(t.cloud, c'.store.cloud) && Sound(cfg, args, c')
  {
    EffectStored(s, t, args, Diagnose(s.cloud, s.mem.obj.ann, args, v.now), v.now);
    EffectKeeps(cfg, s, t, args, v.now);
    GrowsRun(cfg, t.cloud, v.events, args);
    RecoverableGrows(cfg, t.cloud, c'.store.cloud, Annotated(t), args, v.now, c'.due);
  }

  lemma {:induction false} VisitsHeal(cfg: Config, args: RuleArgs, c: Course, log: seq<Visit>)
    requires Sound(cfg, args, c) && GoodVisits(cfg, args, c, log)
    ensures Sound(cfg, args, Visits(cfg, args, c, log))
    ensures HealsWithin(Visits(cfg, args, c, log), args, if |log| >= 4 then 0 else 4 - |log|)
    decreases |log|
  {
    if |log| > 0 {
      VisitsHeal(cfg, args, c, log[..|log| - 1]);
      VisitHeals(cfg, args, Visits(cfg, args, c, log[..|log| - 1]), log[|log| - 1], if |log| >= 5 then 0 else 5 - |log|);
    }
  }

  /** The one live rule of the Service's name is recorded and is as it should be. */
  ghost predicate Healed(st: Store, args: RuleArgs) {
    && Latest(st.versions).Some? && RuleId in Latest(st.versions).value.ann
    && var id := Latest(st.versions).value.ann[RuleId];
       && RuleNamed(st.cloud, id, args.name) && Matches(st.cloud.rules[id], args)
       && forall i | RuleNamed(st.cloud, i, args.name) :: i == id
  }

  /** Self-healing. From any annotations that record the Service's own rule and operations, or
      nothing, four passes against a healthy API whose operations settle in between leave the one
      live rule recorded and matching; and then every further pass stores nothing, sends no write
      and asks for no other. */
  lemma FourPassesHeal(cfg: Config, args: RuleArgs, c: Course, log: seq<Visit>, next: Visit)
    requires Sound(cfg, args, c) && GoodVisits(cfg, args, c, log) && |log| >= 4
    ensures Healed(Visits(cfg, args, c, log).store, args)
    ensures var done := Visits(cfg, args, c, log);
            GoodVisit(cfg, args, done, next) ==>
              var t := PassOf(cfg, args, done, next);
              Store(t.cloud, t.versions) == done.store && t.at == Ended(0, false)
  {
    VisitsHeal(cfg, args, c, log);
    var done := Visits(cfg, args, c, log);
    var ann := Latest(done.store.versions).value.ann;
    assert PassesLeft(Diagnose(done.store.cloud, ann, args, done.due)) <= 0;
    assert RuleNamed(done.store.cloud, ann[RuleId], args.name);
    if GoodVisit(cfg, args, done, next) {
      PassEffect(cfg, args, next.now, done.store, next.fates);
    }
  }
}
