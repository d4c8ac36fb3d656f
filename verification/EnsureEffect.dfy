/** What one firewall pass against a healthy API does, in closed form, whatever state the annotations
    were left in. */
module EnsureEffect {
  import opened Wrappers
  import opened MergePatch
  import opened Timing
  import opened Ports
  import opened RuleCompare
  import opened Model
  import opened Protocol
  import opened FirewallPass
  import opened Tracking

  /* ---- What a pass finds ---- */

  ghost predicate Live(c: Cloud, name: string) { exists i :: RuleNamed(c, i, name) }

  predicate ReportsGone(c: Cloud, op: Id) { op !in c.ops || op in c.aged }

  /** Matching, Differing: the recorded rule, as it should be or not. Adoptable: the operation leads
      to the live rule, through its result or the name. Awaiting: it is in progress. Missing: a
      create is due. Cooling: the last create failed too recently. Dangling: it made a rule that is
      gone. */
  datatype Standing = Matching | Differing | Adoptable | Awaiting | Missing | Cooling | Dangling

  function PassesLeft(d: Standing): nat {
    match d
    case Matching => 0
    case Differing => 1
    case Adoptable => 2
    case Awaiting => 3
    case Missing => 3
    case Cooling => 4
    case Dangling => 4
  }

  ghost function DiagnoseOp(c: Cloud, op: Id, name: string, now: Time): Standing {
    if ReportsGone(c, op) then (if Live(c, name) then Adoptable else Missing)
    else
      match c.ops[op]
      case InFlight(_) => Awaiting
      case Succeeded(id, result) =>
        if result.WithId? && id != "" then (if id in c.rules then Adoptable else Dangling)
        else if Live(c, name) then Adoptable
        else Missing
      case OpFailed(exists', completedAt, startedAt) =>
        if exists' && Live(c, name) then Adoptable
        else if RetryWait(completedAt, startedAt, now) > 0 then Cooling
        else Missing
  }

  ghost function Diagnose(c: Cloud, ann: Annotations, args: RuleArgs, now: Time): Standing {
    if RuleId in ann then
      if ann[RuleId] !in c.rules then Missing
      else if Matches(c.rules[ann[RuleId]], args) then Matching
      else Differing
    else if OpId in ann then DiagnoseOp(c, ann[OpId], args.name, now)
    else Missing
  }

  /* ---- What a healthy pass makes of it ---- */

  ghost predicate Current(s: Site) {
    Latest(s.versions) == Some(s.mem.obj) && s.mem.version == |s.versions| - 1
  }

  ghost predicate HealthySite(cfg: Config, args: RuleArgs, now: Time, s: Site, fates: seq<Fate>, n: nat) {
    UniqueRules(s.cloud) && Current(s) && |fates| >= n && HealthyEnsureRun(cfg, args, now, s, fates)
  }

  predicate Unchanged(s: Site, t: Site, wait: int) {
    t.cloud == s.cloud && t.versions == s.versions && t.at == Ended(wait, false)
  }

  /** The Service now holds ann, the cloud is as before. */
  predicate Stores(s: Site, t: Site, ann: Annotations) {
    t.cloud == s.cloud && Latest(t.versions) == Some(s.mem.obj.(ann := ann)) && t.at == Ended(0, false)
  }

  /** A create was submitted and its operation is all the tracking there is. */
  ghost predicate Submits(s: Site, t: Site, args: RuleArgs) {
    exists op :: SubmitsAs(s, t, args, op)
  }

  predicate SubmitsAs(s: Site, t: Site, args: RuleArgs, op: Id) {
    && op !in s.cloud.ops && op != ""
    && t.cloud == s.cloud.(ops := s.cloud.ops[op := InFlight(args)])
    && Latest(t.versions) == Some(s.mem.obj.(ann := (s.mem.obj.ann - {RuleId, OpId})[OpId := op]))
    && t.at == Ended(RULE_REQUEUE, false)
  }

  /** One call on. */
  lemma Onward(cfg: Config, args: RuleArgs, now: Time, s: Site, fates: seq<Fate>, n: nat, t: Site)
    requires HealthySite(cfg, args, now, s, fates, n + 1) && t == EnsureCall(cfg, args, now, s, fates[0])
    requires t.versions == s.versions && t.cloud.rules == s.cloud.rules
    ensures HealthySite(cfg, args, now, t, fates[1..], n)
    ensures EnsureRun(cfg, args, now, s, fates) == EnsureRun(cfg, args, now, t, fates[1..])
  {
  }

  lemma EndedRun(cfg: Config, args: RuleArgs, now: Time, s: Site, fates: seq<Fate>)
    requires s.at.Ended?
    ensures EnsureRun(cfg, args, now, s, fates) == s
  {
  }

  lemma EndedHealthy(cfg: Config, args: RuleArgs, now: Time, s: Site, fates: seq<Fate>)
    requires s.at.Ended? && forall f | f in fates :: HealthyNewOp(s.cloud, f)
    ensures HealthyEnsureRun(cfg, args, now, s, fates)
    decreases |fates|
  {
    if |fates| > 0 { EndedHealthy(cfg, args, now, s, fates[1..]); }
  }

  lemma WriteRun(cfg: Config, args: RuleArgs, now: Time, s: Site, fates: seq<Fate>)
    requires HealthySite(cfg, args, now, s, fates, 1) && s.at.Write?
    ensures var t := EnsureRun(cfg, args, now, s, fates);
            t.cloud == s.cloud && Latest(t.versions) == Some(s.mem.obj.(ann := s.at.ann)) && t.at == Ended(s.at.after, false)
  {
    PatchExact(s.mem.obj.ann, s.at.ann, s.mem.obj.ann);
    EndedRun(cfg, args, now, EnsureCall(cfg, args, now, s, fates[0]), fates[1..]);
  }

  lemma MakeRun(cfg: Config, args: RuleArgs, now: Time, s: Site, fates: seq<Fate>)
    requires HealthySite(cfg, args, now, s, fates, 2)
    requires s.at == Make(s.mem.obj.ann - {RuleId, OpId})
    ensures Submits(s, EnsureRun(cfg, args, now, s, fates), args)
  {
    var t := EnsureCall(cfg, args, now, s, fates[0]);
    assert t == Site(s.cloud.(ops := s.cloud.ops[fates[0].op := InFlight(args)]), s.versions, s.mem,
                     Write((s.mem.obj.ann - {RuleId, OpId})[OpId := fates[0].op], RULE_REQUEUE));
    WriteRun(cfg, args, now, t, fates[1..]);
    assert SubmitsAs(s, EnsureRun(cfg, args, now, s, fates), args, fates[0].op);
  }

  /** Reading changes nothing, so what follows can be counted from before. */
  lemma SubmitsFrom(s: Site, t: Site, u: Site, args: RuleArgs)
    requires t == s.(at := t.at) && Submits(t, u, args)
    ensures Submits(s, u, args)
  {
    var op :| SubmitsAs(t, u, args, op);
    assert SubmitsAs(s, u, args, op);
  }

  lemma CoolCall(cfg: Config, args: RuleArgs, now: Time, s: Site, f: Fate)
    requires s.at.Cool?
    ensures EnsureCall(cfg, args, now, s, f) == s.(at := CoolDown(s.mem.obj.ann, s.at.stamps, now))
  {
  }

  lemma CoolRun(cfg: Config, args: RuleArgs, now: Time, s: Site, fates: seq<Fate>)
    requires HealthySite(cfg, args, now, s, fates, 3) && s.at.Cool? && RuleId !in s.mem.obj.ann
    ensures var t, wait := EnsureRun(cfg, args, now, s, fates), RetryWait(s.at.stamps.completedAt, s.at.stamps.startedAt, now);
            if wait > 0 then Unchanged(s, t, wait) else Submits(s, t, args)
  {
    var t := EnsureCall(cfg, args, now, s, fates[0]);
    CoolCall(cfg, args, now, s, fates[0]);
    Onward(cfg, args, now, s, fates, 2, t);
    assert s.mem.obj.ann - {OpId} == s.mem.obj.ann - {RuleId, OpId};
    if t.at.Ended? {
      EndedRun(cfg, args, now, t, fates[1..]);
    } else {
      MakeRun(cfg, args, now, t, fates[1..]);
      SubmitsFrom(s, t, EnsureRun(cfg, args, now, s, fates), args);
    }
  }

  /** What the complete list says. */
  lemma ListCall(cfg: Config, args: RuleArgs, now: Time, s: Site, f: Fate)
    requires HealthyNewOp(s.cloud, f) && s.at.Adopt?
    ensures var t := EnsureCall(cfg, args, now, s, f);
            t == s.(at := t.at) &&
            if Live(s.cloud, args.name) then
              exists id :: RuleNamed(s.cloud, id, args.name) && t.at == Write(s.mem.obj.ann[RuleId := id] - {OpId}, 0)
            else t.at == if s.at.clash.Some? then Cool(s.at.clash.value) else Make(s.mem.obj.ann - {OpId})
  {
    var reply := ServeRule(s.cloud, s.versions, ListRules, f).reply;
    var found := FindByName(reply.rules, args.name);
    if found.Some? {
      var j :| 0 <= j < |f.listed| && reply.rules[j] == (found.value, args.name);
      assert f.listed[j] in f.listed && RuleNamed(s.cloud, found.value, args.name);
    } else {
      forall i ensures !RuleNamed(s.cloud, i, args.name) {
        if i in s.cloud.rules {
          var j :| 0 <= j < |f.listed| && f.listed[j] == i;
          assert reply.rules[j] in reply.rules;
        }
      }
    }
  }

  lemma AdoptRun(cfg: Config, args: RuleArgs, now: Time, s: Site, fates: seq<Fate>)
    requires HealthySite(cfg, args, now, s, fates, 4) && s.at.Adopt? && RuleId !in s.mem.obj.ann
    ensures var t := EnsureRun(cfg, args, now, s, fates);
            if Live(s.cloud, args.name) then
              exists id :: RuleNamed(s.cloud, id, args.name) && Stores(s, t, s.mem.obj.ann[RuleId := id] - {OpId})
            else if s.at.clash.Some? && RetryWait(s.at.clash.value.completedAt, s.at.clash.value.startedAt, now) > 0 then
              Unchanged(s, t, RetryWait(s.at.clash.value.completedAt, s.at.clash.value.startedAt, now))
            else Submits(s, t, args)
  {
    var t := EnsureCall(cfg, args, now, s, fates[0]);
    ListCall(cfg, args, now, s, fates[0]);
    Onward(cfg, args, now, s, fates, 3, t);
    assert s.mem.obj.ann - {OpId} == s.mem.obj.ann - {RuleId, OpId};
    var u := EnsureRun(cfg, args, now, s, fates);
    if t.at.Write? {
      WriteRun(cfg, args, now, t, fates[1..]);
    } else {
      if t.at.Cool? { CoolRun(cfg, args, now, t, fates[1..]); } else { MakeRun(cfg, args, now, t, fates[1..]); }
      if Submits(t, u, args) { SubmitsFrom(s, t, u, args); }
    }
  }

  /* ---- One pass ---- */

  predicate StoresId(s: Site, t: Site, id: Id) {
    Stores(s, t, s.mem.obj.ann[RuleId := id]) || Stores(s, t, s.mem.obj.ann[RuleId := id] - {OpId})
  }

  predicate Repairs(s: Site, t: Site, args: RuleArgs, id: Id) {
    && id in s.cloud.rules
    && t.cloud == s.cloud.(rules := s.cloud.rules[id := Patched(s.cloud.rules[id], Sorted(args))])
    && t.versions == s.versions && t.at == Ended(0, false)
  }

  ghost predicate Effect(s: Site, t: Site, args: RuleArgs, d: Standing, now: Time) {
    match d
    case Matching => Unchanged(s, t, 0)
    case Differing => RuleId in s.mem.obj.ann && Repairs(s, t, args, s.mem.obj.ann[RuleId])
    case Adoptable => exists id :: RuleNamed(s.cloud, id, args.name) && StoresId(s, t, id)
    case Dangling => exists id :: id in s.cloud.spent && id !in s.cloud.rules && StoresId(s, t, id)
    case Awaiting => Unchanged(s, t, RULE_REQUEUE)
    case Missing => Submits(s, t, args)
    case Cooling => Waits(s, t, now)
  }

  /** Nothing but what is left of the cooldown of the recorded operation. */
  predicate Waits(s: Site, t: Site, now: Time) {
    && OpId in s.mem.obj.ann && s.mem.obj.ann[OpId] in s.cloud.ops && s.cloud.ops[s.mem.obj.ann[OpId]].OpFailed?
    && var op := s.cloud.ops[s.mem.obj.ann[OpId]];
       var wait := RetryWait(op.completedAt, op.startedAt, now);
       wait > 0 && Unchanged(s, t, wait)
  }

  lemma AskCall(cfg: Config, args: RuleArgs, now: Time, s: Site, f: Fate)
    requires HealthyNewOp(s.cloud, f) && s.at.Ask?
    ensures var t, c, ann := EnsureCall(cfg, args, now, s, f), s.cloud, s.mem.obj.ann;
            t == s.(at := t.at) &&
            t.at == if ReportsGone(c, s.at.op) then Adopt(None) else
                      match c.ops[s.at.op]
                      case InFlight(_) => Ended(RULE_REQUEUE, false)
                      case Succeeded(id, result) =>
                        if result.WithId? && id != "" then Write(ann[RuleId := id], 0) else Adopt(None)
                      case OpFailed(exists', completedAt, startedAt) =>
                        if exists' then Adopt(Some(Stamps(completedAt, startedAt))) else Cool(Stamps(completedAt, startedAt))
  {
  }

  lemma AskRun(cfg: Config, args: RuleArgs, now: Time, s: Site, fates: seq<Fate>)
    requires HealthySite(cfg, args, now, s, fates, 5) && RuleId !in s.mem.obj.ann && OpId in s.mem.obj.ann
    requires s.at == Ask(s.mem.obj.ann[OpId]) && Own(s.cloud, s.mem.obj.ann, args.name)
    ensures Effect(s, EnsureRun(cfg, args, now, s, fates), args,
                   DiagnoseOp(s.cloud, s.mem.obj.ann[OpId], args.name, now), now)
  {
    var t, u := EnsureCall(cfg, args, now, s, fates[0]), EnsureRun(cfg, args, now, s, fates);
    AskCall(cfg, args, now, s, fates[0]);
    Onward(cfg, args, now, s, fates, 4, t);
    if t.at.Ended? {
      EndedRun(cfg, args, now, t, fates[1..]);
    } else if t.at.Write? {
      WriteRun(cfg, args, now, t, fates[1..]);
      assert StoresId(s, u, s.cloud.ops[s.at.op].ruleId);
    } else {
      if t.at.Cool? { CoolRun(cfg, args, now, t, fates[1..]); } else { AdoptRun(cfg, args, now, t, fates[1..]); }
      if Submits(t, u, args) { SubmitsFrom(s, t, u, args); }
      if id :| RuleNamed(s.cloud, id, args.name) && Stores(t, u, s.mem.obj.ann[RuleId := id] - {OpId}) {
        assert StoresId(s, u, id);
      }
    }
  }

  lemma PatchServed(c: Cloud, v: Versions, id: Id, args: RuleArgs, f: Fate)
    requires f.lands && f.heard && UniqueRules(c) && RuleNamed(c, id, args.name)
    ensures ServeRule(c, v, PatchRule(id, args), f) ==
            Served(c.(rules := c.rules[id := args.(vpc := c.rules[id].vpc)]), v, Done)
  {
  }

  lemma FixCall(cfg: Config, args: RuleArgs, now: Time, s: Site, f: Fate)
    requires HealthyNewOp(s.cloud, f) && UniqueRules(s.cloud) && s.at.Fix? && RuleNamed(s.cloud, s.at.mismatched, args.name)
    ensures Repairs(s, EnsureCall(cfg, args, now, s, f), args, s.at.mismatched)
    ensures EnsureCall(cfg, args, now, s, f).at.Ended?
  {
    PatchServed(s.cloud, s.versions, s.at.mismatched, Sorted(args), f);
  }

  lemma FixRun(cfg: Config, args: RuleArgs, now: Time, s: Site, fates: seq<Fate>)
    requires HealthySite(cfg, args, now, s, fates, 1) && s.at.Fix? && RuleNamed(s.cloud, s.at.mismatched, args.name)
    ensures Repairs(s, EnsureRun(cfg, args, now, s, fates), args, s.at.mismatched)
  {
    FixCall(cfg, args, now, s, fates[0]);
    EndedRun(cfg, args, now, EnsureCall(cfg, args, now, s, fates[0]), fates[1..]);
  }

  lemma LookCall(cfg: Config, args: RuleArgs, now: Time, s: Site, f: Fate)
    requires HealthyNewOp(s.cloud, f) && s.at.Look?
    ensures var t, c, id := EnsureCall(cfg, args, now, s, f), s.cloud, s.at.seen;
            t == s.(at := if id !in c.rules then Make(s.mem.obj.ann - {RuleId, OpId})
                          else if Matches(c.rules[id], args) then Ended(0, false) else Fix(id))
  {
  }

  lemma LookRun(cfg: Config, args: RuleArgs, now: Time, s: Site, fates: seq<Fate>)
    requires HealthySite(cfg, args, now, s, fates, 5) && RuleId in s.mem.obj.ann
    requires s.at == Look(s.mem.obj.ann[RuleId]) && Own(s.cloud, s.mem.obj.ann, args.name)
    ensures Effect(s, EnsureRun(cfg, args, now, s, fates), args, Diagnose(s.cloud, s.mem.obj.ann, args, now), now)
  {
    var t, u := EnsureCall(cfg, args, now, s, fates[0]), EnsureRun(cfg, args, now, s, fates);
    LookCall(cfg, args, now, s, fates[0]);
    Onward(cfg, args, now, s, fates, 4, t);
    if t.at.Ended? {
      EndedRun(cfg, args, now, t, fates[1..]);
    } else if t.at.Fix? {
      FixRun(cfg, args, now, t, fates[1..]);
    } else {
      MakeRun(cfg, args, now, t, fates[1..]);
      SubmitsFrom(s, t, u, args);
    }
  }

  /** A healthy pass on a current snapshot does what its condition asks for. */
  lemma PassEffect(cfg: Config, args: RuleArgs, now: Time, st: Store, fates: seq<Fate>)
    requires Latest(st.versions).Some? && UniqueRules(st.cloud) && Own(st.cloud, Latest(st.versions).value.ann, args.name)
    requires |fates| >= LONGEST_ENSURE && HealthyEnsureRun(cfg, args, now, EnsureBegins(st), fates)
    ensures var s := EnsureBegins(st);
            Effect(s, EnsureRun(cfg, args, now, s, fates), args, Diagnose(st.cloud, s.mem.obj.ann, args, now), now)
  {
    var s := EnsureBegins(st);
    var ann := s.mem.obj.ann;
    if RuleId in ann {
      LookRun(cfg, args, now, s, fates);
    } else if OpId in ann {
      AskRun(cfg, args, now, s, fates);
    } else {
      assert ann - {RuleId, OpId} == ann;
      MakeRun(cfg, args, now, s, fates);
    }
  }
}
