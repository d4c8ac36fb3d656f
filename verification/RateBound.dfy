/** While every firewall create fails, creates are submitted at most once per cooldown. */
module RateBound {
  import opened Wrappers
  import opened MergePatch
  import opened Timing
  import opened Ports
  import opened Model
  import opened Protocol
  import opened FirewallPass
  import opened EnsureEffect
  import opened SelfHealing

  /* ---- One pass ---- */

  /** Submitting a create and storing its operation succeed; every other call may fail. */
  ghost predicate WriteSucceeds(args: RuleArgs, s: Site, f: Fate) {
    var next := EnsureNext(s.mem.obj.ann, args, s.at);
    && (next.Some? && next.value.CreateRule? ==> f.lands && f.heard && f.op !in s.cloud.ops && f.op != "")
    && (next.Some? && next.value.PatchAnn? ==> f.lands && f.heard)
  }

  ghost predicate WritesSucceed(cfg: Config, args: RuleArgs, now: Time, s: Site, fates: seq<Fate>)
    decreases |fates|
  {
    |fates| > 0 ==>
      WriteSucceeds(args, s, fates[0]) && WritesSucceed(cfg, args, now, EnsureCall(cfg, args, now, s, fates[0]),
                                                        fates[1..])
  }

  /** The recorded create has not settled, or failed without a clash no earlier than since. */
  predicate FailsSince(c: Cloud, op: Id, name: string, since: Time) {
    op in c.ops && op !in c.aged &&
    match c.ops[op]
    case InFlight(rule) => rule.name == name
    case Succeeded(_, _) => false
    case OpFailed(exists', _, _) => !exists' && StampOf(c.ops[op]).Some? && StampOf(c.ops[op]).value >= since
  }

  /** last: when the latest create was submitted; its operation is all the Service records. */
  predicate Failing(st: Store, name: string, last: Option<Time>) {
    && Latest(st.versions).Some? && RuleId !in Latest(st.versions).value.ann
    && (OpId in Latest(st.versions).value.ann <==> last.Some?)
    && (last.Some? ==> FailsSince(st.cloud, Latest(st.versions).value.ann[OpId], name, last.value))
  }

  /** A failed create whose cooldown is still running. */
  predicate InCooldown(c: Cloud, ann: Annotations, now: Time) {
    OpId in ann && ann[OpId] in c.ops && c.ops[ann[OpId]].OpFailed? &&
    RetryWait(c.ops[ann[OpId]].completedAt, c.ops[ann[OpId]].startedAt, now) > 0
  }

  /** Whether a create may be submitted now. */
  predicate Cooled(c: Cloud, ann: Annotations, now: Time) {
    OpId !in ann || (ann[OpId] in c.ops && c.ops[ann[OpId]].OpFailed? && !InCooldown(c, ann, now))
  }

  predicate Same(s: Site, t: Site) { t.cloud == s.cloud && t.versions == s.versions && t.mem == s.mem }

  /** A create was accepted as op; the Service records it at once, or as it was. */
  predicate SendsAs(s: Site, t: Site, args: RuleArgs, op: Id) {
    && op !in s.cloud.ops && op != "" && t.cloud == s.cloud.(ops := s.cloud.ops[op := InFlight(args)])
    && (t.versions == s.versions ||
        t.versions == s.versions + [Some(s.mem.obj.(ann := (s.mem.obj.ann - {RuleId, OpId})[OpId := op]))])
  }

  ghost predicate Sends(s: Site, t: Site, args: RuleArgs) { exists op :: SendsAs(s, t, args, op) }

  /** Where a pass that began as s can be; kept: submitting a create and storing its operation succeed. */
  ghost predicate Stage(kept: bool, s: Site, t: Site, args: RuleArgs, now: Time) {
    var c, ann := s.cloud, s.mem.obj.ann;
    t.mem == s.mem &&
    match t.at
    case Ask(op) => Same(s, t) && OpId in ann && op == ann[OpId]
    case Cool(stamps) =>
      Same(s, t) && OpId in ann && ann[OpId] in c.ops && c.ops[ann[OpId]].OpFailed? &&
      stamps == Stamps(c.ops[ann[OpId]].completedAt, c.ops[ann[OpId]].startedAt)
    case Make(dropped) => Same(s, t) && dropped == ann - {RuleId, OpId} && Cooled(c, ann, now)
    case Write(ann', after) =>
      t.versions == s.versions && Cooled(c, ann, now) && OpId in ann' && ann'[OpId] !in c.ops && ann'[OpId] != "" &&
      t.cloud == c.(ops := c.ops[ann'[OpId] := InFlight(args)]) &&
      ann' == (ann - {RuleId, OpId})[OpId := ann'[OpId]] && after == RULE_REQUEUE
    case Ended(wait, err) =>
      (Same(s, t) && (!err && InCooldown(c, ann, now) ==> 0 < wait <= CREATE_RETRY_DELAY)) ||
      (Cooled(c, ann, now) && if kept then Submits(s, t, args) else Sends(s, t, args))
    case _ => false
  }

  lemma StageCall(cfg: Config, kept: bool, s: Site, t: Site, args: RuleArgs, now: Time, f: Fate, name: string, since: Time)
    requires Stage(kept, s, t, args, now) && (kept ==> WriteSucceeds(args, t, f))
    requires Latest(s.versions) == Some(s.mem.obj) && RuleId !in s.mem.obj.ann
    requires OpId in s.mem.obj.ann ==> FailsSince(s.cloud, s.mem.obj.ann[OpId], name, since)
    ensures Stage(kept, s, EnsureCall(cfg, args, now, t, f), args, now)
  {
    var ann := s.mem.obj.ann;
    match t.at
    case Ask(_) => AskStage(cfg, kept, s, t, args, now, f, name, since);
    case Cool(_) =>
      CoolCall(cfg, args, now, t, f);
      assert ann - {OpId} == ann - {RuleId, OpId};
    case Make(_) => MakeStage(cfg, kept, s, t, args, now, f);
    case Write(ann', _) => WriteStage(cfg, kept, s, t, args, now, f);
    case Ended(_, _) =>
  }

  lemma AskStage(cfg: Config, kept: bool, s: Site, t: Site, args: RuleArgs, now: Time, f: Fate, name: string, since: Time)
    requires Stage(kept, s, t, args, now) && t.at.Ask? && FailsSince(s.cloud, s.mem.obj.ann[OpId], name, since)
    ensures Stage(kept, s, EnsureCall(cfg, args, now, t, f), args, now)
  {
  }

  lemma MakeStage(cfg: Config, kept: bool, s: Site, t: Site, args: RuleArgs, now: Time, f: Fate)
    requires Stage(kept, s, t, args, now) && t.at.Make? && (kept ==> WriteSucceeds(args, t, f))
    ensures Stage(kept, s, EnsureCall(cfg, args, now, t, f), args, now)
  {
    var u := EnsureCall(cfg, args, now, t, f);
    if u.at.Ended? && u.cloud != t.cloud { assert SendsAs(s, u, args, f.op); }
  }

  lemma WriteStage(cfg: Config, kept: bool, s: Site, t: Site, args: RuleArgs, now: Time, f: Fate)
    requires Stage(kept, s, t, args, now) && t.at.Write? && (kept ==> f.lands && f.heard)
    requires Latest(s.versions) == Some(s.mem.obj)
    ensures Stage(kept, s, EnsureCall(cfg, args, now, t, f), args, now)
  {
    PatchExact(t.mem.obj.ann, t.at.ann, t.mem.obj.ann);
    var u, op := EnsureCall(cfg, args, now, t, f), t.at.ann[OpId];
    if kept { assert SubmitsAs(s, u, args, op); } else { assert SendsAs(s, u, args, op); }
  }

  lemma {:induction false} StageRun(cfg: Config, kept: bool, s: Site, t: Site, args: RuleArgs, now: Time, fates: seq<Fate>,
                                    name: string, since: Time)
    requires Stage(kept, s, t, args, now) && (kept ==> WritesSucceed(cfg, args, now, t, fates))
    requires Latest(s.versions) == Some(s.mem.obj) && RuleId !in s.mem.obj.ann
    requires OpId in s.mem.obj.ann ==> FailsSince(s.cloud, s.mem.obj.ann[OpId], name, since)
    ensures Stage(kept, s, EnsureRun(cfg, args, now, t, fates), args, now)
    decreases |fates|
  {
    if |fates| > 0 {
      StageCall(cfg, kept, s, t, args, now, fates[0], name, since);
      StageRun(cfg, kept, s, EnsureCall(cfg, args, now, t, fates[0]), args, now, fates[1..], name, since);
    }
  }

  /** A pass that runs to its end, whatever its reads come to. */
  ghost predicate Completes(cfg: Config, args: RuleArgs, now: Time, st: Store, fates: seq<Fate>) {
    Latest(st.versions).Some? && WritesSucceed(cfg, args, now, EnsureBegins(st), fates) &&
    EnsureRun(cfg, args, now, EnsureBegins(st), fates).at.Ended?
  }

  /** Inside the cooldown no create is sent, and unless a read fails the pass asks to come back after
      a wait of at most two minutes. A create is sent only once two minutes have passed since the
      last one. */
  lemma PassInCooldown(cfg: Config, args: RuleArgs, now: Time, st: Store, fates: seq<Fate>, last: Option<Time>)
    requires Failing(st, args.name, last) && Completes(cfg, args, now, st, fates)
    ensures var s := EnsureBegins(st); var t := EnsureRun(cfg, args, now, s, fates);
            && (InCooldown(st.cloud, s.mem.obj.ann, now) ==>
                  Store(t.cloud, t.versions) == st && (t.at.err || 0 < t.at.wait <= CREATE_RETRY_DELAY))
            && (Store(t.cloud, t.versions) == st || Submits(s, t, args))
            && (Submits(s, t, args) && last.Some? ==> now >= last.value + CREATE_RETRY_DELAY)
  {
    var s := EnsureBegins(st);
    if OpId !in s.mem.obj.ann { assert s.mem.obj.ann - {RuleId, OpId} == s.mem.obj.ann; }
    StageRun(cfg, true, s, s, args, now, fates, args.name, last.GetOr(0));
    var t := EnsureRun(cfg, args, now, s, fates);
    if Submits(s, t, args) { var op :| SubmitsAs(s, t, args, op); }
  }

  /* ---- With any fates ---- */

  /** What a pass comes to with any fates, cut anywhere: nothing is sent, or one create, and that only
      when none is cooling down. */
  lemma PassSends(cfg: Config, args: RuleArgs, now: Time, st: Store, fates: seq<Fate>, last: Option<Time>)
    requires Failing(st, args.name, last)
    ensures var s := EnsureBegins(st); var t := EnsureRun(cfg, args, now, s, fates);
            (t.cloud == s.cloud && t.versions == s.versions) || (Cooled(s.cloud, s.mem.obj.ann, now) && Sends(s, t, args))
  {
    var s := EnsureBegins(st);
    if OpId !in s.mem.obj.ann { assert s.mem.obj.ann - {RuleId, OpId} == s.mem.obj.ann; }
    StageRun(cfg, false, s, s, args, now, fates, args.name, last.GetOr(0));
    var t := EnsureRun(cfg, args, now, s, fates);
    if t.at.Write? { assert SendsAs(s, t, args, t.at.ann[OpId]); }
  }

  /* ---- Pass after pass ---- */

  /** creates: when each create was submitted. */
  datatype Tally = Tally(store: Store, creates: seq<Time>)

  function LastOf(creates: seq<Time>): Option<Time> {
    if |creates| == 0 then None else Some(creates[|creates| - 1])
  }

  /** Creates of this name fail without a clash, at a readable time no earlier than their submission. */
  predicate FailEvent(c: Cloud, a: Action, name: string, last: Option<Time>) {
    a.OpSettles? &&
    (CreatesRule(c, a.op, name) ==>
       && !a.succeeds && (forall i | i in c.rules :: c.rules[i].name != name)
       && var stamp := if a.completedAt.Some? then a.completedAt else a.startedAt;
          stamp.Some? && stamp.value >= last.GetOr(stamp.value))
  }

  predicate FailEvents(c: Cloud, events: seq<Action>, name: string, last: Option<Time>)
    decreases |events|
  {
    |events| > 0 ==>
      && FailEvents(c, events[..|events| - 1], name, last)
      && FailEvent(CloudRun(c, events[..|events| - 1]), events[|events| - 1], name, last)
  }

  lemma {:induction false} FailingRun(c: Cloud, events: seq<Action>, op: Id, name: string, since: Time)
    requires FailsSince(c, op, name, since) && FailEvents(c, events, name, Some(since))
    ensures FailsSince(CloudRun(c, events), op, name, since)
    decreases |events|
  {
    if |events| > 0 {
      FailingRun(c, events[..|events| - 1], op, name, since);
      var before := CloudRun(c, events[..|events| - 1]);
      assert before.ops[op].InFlight? ==> CreatesRule(before, op, name);
    }
  }

  /** One pass, for the rule the Service then wants, and what happens until the next. */
  datatype Attempt = Attempt(args: RuleArgs, now: Time, fates: seq<Fate>, events: seq<Action>)

  ghost function Tallied(cfg: Config, c: Tally, v: Attempt): Tally {
    if Latest(c.store.versions).None? then c
    else
      var t := EnsureRun(cfg, v.args, v.now, EnsureBegins(c.store), v.fates);
      Tally(Store(CloudRun(t.cloud, v.events), t.versions),
            if t.cloud.ops == c.store.cloud.ops then c.creates else c.creates + [v.now])
  }

  ghost predicate FailingVisit(cfg: Config, c: Tally, v: Attempt) {
    && Completes(cfg, v.args, v.now, c.store, v.fates)
    && FailEvents(EnsureRun(cfg, v.args, v.now, EnsureBegins(c.store), v.fates).cloud, v.events, v.args.name,
                  LastOf(Tallied(cfg, c, v).creates))
  }

  ghost function Tallies(cfg: Config, c: Tally, log: seq<Attempt>): Tally
    decreases |log|
  {
    if |log| == 0 then c else Tallied(cfg, Tallies(cfg, c, log[..|log| - 1]), log[|log| - 1])
  }

  ghost predicate FailingVisits(cfg: Config, name: string, c: Tally, log: seq<Attempt>)
    decreases |log|
  {
    |log| > 0 ==>
      && FailingVisits(cfg, name, c, log[..|log| - 1]) && log[|log| - 1].args.name == name
      && FailingVisit(cfg, Tallies(cfg, c, log[..|log| - 1]), log[|log| - 1])
  }

  predicate Spaced(creates: seq<Time>) {
    forall i | 0 < i < |creates| :: creates[i] >= creates[i - 1] + CREATE_RETRY_DELAY
  }

  predicate AgedKnown(c: Cloud) { forall o | o in c.aged :: o in c.ops }

  predicate Counted(c: Tally, name: string) {
    Failing(c.store, name, LastOf(c.creates)) && Spaced(c.creates) && AgedKnown(c.store.cloud)
  }

  lemma {:induction false} SettlingKeeps(c: Cloud, events: seq<Action>, name: string, last: Option<Time>)
    requires FailEvents(c, events, name, last)
    ensures CloudRun(c, events).ops.Keys == c.ops.Keys && CloudRun(c, events).aged == c.aged
    decreases |events|
  {
    if |events| > 0 {
      SettlingKeeps(c, events[..|events| - 1], name, last);
    }
  }

  lemma VisitCounted(cfg: Config, c: Tally, v: Attempt)
    requires Counted(c, v.args.name) && FailingVisit(cfg, c, v)
    ensures Counted(Tallied(cfg, c, v), v.args.name)
  {
    var s := EnsureBegins(c.store);
    var t, c' := EnsureRun(cfg, v.args, v.now, s, v.fates), Tallied(cfg, c, v);
    PassInCooldown(cfg, v.args, v.now, c.store, v.fates, LastOf(c.creates));
    SettlingKeeps(t.cloud, v.events, v.args.name, LastOf(c'.creates));
    if Submits(s, t, v.args) {
      var op :| SubmitsAs(s, t, v.args, op);
      assert t.cloud.ops != c.store.cloud.ops by { assert op in t.cloud.ops; }
      FailingRun(t.cloud, v.events, op, v.args.name, v.now);
    } else if LastOf(c.creates).Some? {
      FailingRun(t.cloud, v.events, s.mem.obj.ann[OpId], v.args.name, LastOf(c.creates).value);
    }
  }

  lemma {:induction false} VisitsCounted(cfg: Config, name: string, c: Tally, log: seq<Attempt>)
    requires Counted(c, name) && FailingVisits(cfg, name, c, log)
    ensures Counted(Tallies(cfg, c, log), name)
    decreases |log|
  {
    if |log| > 0 {
      VisitsCounted(cfg, name, c, log[..|log| - 1]);
      VisitCounted(cfg, Tallies(cfg, c, log[..|log| - 1]), log[|log| - 1]);
    }
  }

  /* ---- When the operation is not stored ---- */

  /** What the next pass of this Service works on. */
  ghost function NextStore(cfg: Config, st: Store, v: Attempt): Store
    requires Latest(st.versions).Some?
  {
    Tallied(cfg, Tally(st, []), v).store
  }

  /** A pass that the cache gave the stored state from. */
  function BeginsAt(st: Store, from: nat): Site
    requires from < |st.versions| && st.versions[from].Some?
  {
    var copy := Copy(from, st.versions[from].value);
    Site(st.cloud, st.versions, copy, EnsureStart(copy.obj.ann))
  }

  ghost predicate SendsCreate(cfg: Config, st: Store, from: nat, v: Attempt)
    requires from < |st.versions| && st.versions[from].Some?
  {
    EnsureRun(cfg, v.args, v.now, BeginsAt(st, from), v.fates).cloud.ops != st.cloud.ops
  }

  /** The pass v, with any fates and cut anywhere, got a create accepted as op; until the next pass
      creates of the name fail or stay unsettled. */
  ghost predicate SentBy(cfg: Config, st: Store, last: Option<Time>, v: Attempt, op: Id) {
    && Failing(st, v.args.name, last) && AgedKnown(st.cloud)
    && var c := EnsureRun(cfg, v.args, v.now, EnsureBegins(st), v.fates).cloud;
       op in c.ops && op !in st.cloud.ops && FailEvents(c, v.events, v.args.name, Some(v.now))
  }

  lemma {:induction false} SettlingLeaves(c: Cloud, events: seq<Action>, name: string, last: Option<Time>)
    requires FailEvents(c, events, name, last)
    ensures forall o | o in c.ops && c.ops[o].OpFailed? :: o in CloudRun(c, events).ops && CloudRun(c, events).ops[o] == c.ops[o]
    decreases |events|
  {
    if |events| > 0 {
      SettlingLeaves(c, events[..|events| - 1], name, last);
    }
  }

  /** The create was sent from a state that allows one, and all it can have stored is op. */
  lemma SentFacts(cfg: Config, st: Store, last: Option<Time>, v: Attempt, op: Id)
    requires SentBy(cfg, st, last, v, op)
    ensures var s, st' := EnsureBegins(st), NextStore(cfg, st, v);
            && Cooled(st.cloud, s.mem.obj.ann, v.now)
            && (st'.versions == st.versions ||
                st'.versions == st.versions + [Some(s.mem.obj.(ann := (s.mem.obj.ann - {RuleId, OpId})[OpId := op]))])
            && FailsSince(st'.cloud, op, v.args.name, v.now) && st'.cloud.aged == st.cloud.aged
            && forall o | o in st.cloud.ops && st.cloud.ops[o].OpFailed? :: Get(st'.cloud.ops, o) == Some(st.cloud.ops[o])
  {
    PassSends(cfg, v.args, v.now, st, v.fates, last);
    var s := EnsureBegins(st);
    var t := EnsureRun(cfg, v.args, v.now, s, v.fates);
    var op' :| SendsAs(s, t, v.args, op');
    assert op' == op;
    FailingRun(t.cloud, v.events, op, v.args.name, v.now);
    SettlingLeaves(t.cloud, v.events, v.args.name, Some(v.now));
    SettlingKeeps(t.cloud, v.events, v.args.name, Some(v.now));
  }

  /** A pass that begins with a failed or unsettled operation sends a create only once it has cooled. */
  ghost predicate HoldsBack(s: Site, t: Site, now: Time) {
    var c, ann := s.cloud, s.mem.obj.ann;
    t.mem == s.mem && t.cloud.aged == c.aged &&
    match t.at
    case Ask(op) => t.cloud == c && OpId in ann && op == ann[OpId]
    case Cool(stamps) =>
      t.cloud == c && OpId in ann && ann[OpId] in c.ops && c.ops[ann[OpId]].OpFailed? &&
      stamps == Stamps(c.ops[ann[OpId]].completedAt, c.ops[ann[OpId]].startedAt)
    case Look(_) => false
    case Fix(_) => false
    case Adopt(_) => false
    case _ => t.cloud.ops == c.ops || Cooled(c, ann, now)
  }

  lemma HoldsBackOn(cfg: Config, s: Site, t: Site, args: RuleArgs, now: Time, f: Fate, name: string, since: Time)
    requires HoldsBack(s, t, now) && (t.at.Make? ==> Cooled(s.cloud, s.mem.obj.ann, now))
    requires OpId in s.mem.obj.ann && FailsSince(s.cloud, s.mem.obj.ann[OpId], name, since)
    ensures var u := EnsureCall(cfg, args, now, t, f);
            HoldsBack(s, u, now) && (u.at.Make? ==> Cooled(s.cloud, s.mem.obj.ann, now))
  {
  }

  lemma {:induction false} HoldsBackRun(cfg: Config, s: Site, t: Site, args: RuleArgs, now: Time, fates: seq<Fate>, name: string,
                                    since: Time)
    requires HoldsBack(s, t, now) && (t.at.Make? ==> Cooled(s.cloud, s.mem.obj.ann, now))
    requires OpId in s.mem.obj.ann && FailsSince(s.cloud, s.mem.obj.ann[OpId], name, since)
    ensures HoldsBack(s, EnsureRun(cfg, args, now, t, fates), now)
    decreases |fates|
  {
    if |fates| > 0 {
      HoldsBackOn(cfg, s, t, args, now, fates[0], name, since);
      HoldsBackRun(cfg, s, EnsureCall(cfg, args, now, t, fates[0]), args, now, fates[1..], name, since);
    }
  }

  lemma RecordedWaits(cfg: Config, st: Store, from: nat, op: Id, since: Time, v: Attempt)
    requires from < |st.versions| && st.versions[from].Some?
    requires var ann := st.versions[from].value.ann; RuleId !in ann && OpId in ann && ann[OpId] == op
    requires FailsSince(st.cloud, op, v.args.name, since) && v.now < since + CREATE_RETRY_DELAY
    ensures !SendsCreate(cfg, st, from, v)
  {
    var s := BeginsAt(st, from);
    HoldsBackRun(cfg, s, s, v.args, v.now, v.fates, v.args.name, since);
    assert !Cooled(s.cloud, s.mem.obj.ann, v.now);
    var t := EnsureRun(cfg, v.args, v.now, s, v.fates);
    if t.at.Ask? || t.at.Cool? { assert t.cloud == s.cloud; }
  }

  /** Operations are only added. */
  lemma {:induction false} OpsStay(cfg: Config, args: RuleArgs, now: Time, s: Site, fates: seq<Fate>)
    ensures s.cloud.ops.Keys <= EnsureRun(cfg, args, now, s, fates).cloud.ops.Keys
    decreases |fates|
  {
    if |fates| > 0 {
      OpsStayOne(cfg, args, now, s, fates[0]);
      OpsStay(cfg, args, now, EnsureCall(cfg, args, now, s, fates[0]), fates[1..]);
    }
  }

  lemma OpsStayOne(cfg: Config, args: RuleArgs, now: Time, s: Site, f: Fate)
    ensures s.cloud.ops.Keys <= EnsureCall(cfg, args, now, s, f).cloud.ops.Keys
  {
    var next := EnsureNext(s.mem.obj.ann, args, s.at);
    if next.Some? { ServedOps(cfg, s.cloud, s.versions, now, args.name, s.mem, next.value, f); }
  }

  lemma ServedOps(cfg: Config, c: Cloud, v: Versions, now: Time, name: string, mem: Copy, call: Call, f: Fate)
    ensures c.ops.Keys <= Serve(cfg, c, v, now, name, mem, call, f).cloud.ops.Keys
  {
    if call.CreateRule? { CreateOps(c, v, call.args, f); }
  }

  lemma CreateOps(c: Cloud, v: Versions, args: RuleArgs, f: Fate)
    ensures c.ops.Keys <= ServeRule(c, v, CreateRule(args), f).cloud.ops.Keys
  {
  }

  /** The pass begins with that stored state and meets a healthy API to its end. */
  ghost predicate HealthyVisit(cfg: Config, st: Store, from: nat, v: Attempt) {
    && from < |st.versions| && st.versions[from].Some? && |v.fates| >= LONGEST_ENSURE
    && HealthyEnsureRun(cfg, v.args, v.now, BeginsAt(st, from), v.fates)
  }

  lemma MakesOne(cfg: Config, args: RuleArgs, now: Time, s: Site, fates: seq<Fate>)
    requires s.at.Make? && |fates| > 0 && HealthyEnsureRun(cfg, args, now, s, fates)
    ensures fates[0].op !in s.cloud.ops && fates[0].op in EnsureRun(cfg, args, now, s, fates).cloud.ops
  {
    OpsStay(cfg, args, now, EnsureCall(cfg, args, now, s, fates[0]), fates[1..]);
    MakeServed(cfg, args, now, s, fates[0]);
  }

  lemma MakeServed(cfg: Config, args: RuleArgs, now: Time, s: Site, f: Fate)
    requires s.at.Make? && HealthyNewOp(s.cloud, f)
    ensures f.op in EnsureCall(cfg, args, now, s, f).cloud.ops
  {
  }

  /** Nothing recorded, or a failure that has cooled. */
  predicate FreeToCreate(c: Cloud, ann: Annotations, now: Time) {
    && RuleId !in ann
    && (OpId in ann ==>
          && ann[OpId] in c.ops && ann[OpId] !in c.aged && c.ops[ann[OpId]].OpFailed?
          && !c.ops[ann[OpId]].alreadyExists && !InCooldown(c, ann, now))
  }

  lemma UnrecordedCreates(cfg: Config, st: Store, from: nat, v: Attempt)
    requires HealthyVisit(cfg, st, from, v) && FreeToCreate(st.cloud, st.versions[from].value.ann, v.now)
    ensures SendsCreate(cfg, st, from, v)
  {
    var s := BeginsAt(st, from);
    if s.at.Ask? {
      var t, rest := EnsureCall(cfg, v.args, v.now, s, v.fates[0]), v.fates[1..];
      var u := EnsureCall(cfg, v.args, v.now, t, rest[0]);
      HealthyRest(cfg, v.args, v.now, s, v.fates);
      AskCall(cfg, v.args, v.now, s, v.fates[0]);
      HealthyRest(cfg, v.args, v.now, t, rest);
      CoolCall(cfg, v.args, v.now, t, rest[0]);
      MakesOne(cfg, v.args, v.now, u, rest[1..]);
    } else {
      MakesOne(cfg, v.args, v.now, s, v.fates);
    }
  }

  lemma HealthyRest(cfg: Config, args: RuleArgs, now: Time, s: Site, fates: seq<Fate>)
    requires |fates| > 0 && HealthyEnsureRun(cfg, args, now, s, fates)
    ensures HealthyNewOp(s.cloud, fates[0])
    ensures HealthyEnsureRun(cfg, args, now, EnsureCall(cfg, args, now, s, fates[0]), fates[1..])
    ensures EnsureRun(cfg, args, now, s, fates) == EnsureRun(cfg, args, now, EnsureCall(cfg, args, now, s, fates[0]), fates[1..])
  {
  }

  /** Exactly when the bound is lost: after a pass that got a create accepted, the next one, less than
      two minutes later, begun with the state that pass began with or the one it left, and against a
      healthy API, sends another if and only if that state does not record the operation. */
  lemma CreatesAgain(cfg: Config, st: Store, last: Option<Time>, v: Attempt, op: Id, from: nat, next: Attempt)
    requires SentBy(cfg, st, last, v, op) && next.args.name == v.args.name
    requires v.now <= next.now < v.now + CREATE_RETRY_DELAY
    requires |st.versions| - 1 <= from && HealthyVisit(cfg, NextStore(cfg, st, v), from, next)
    ensures var st' := NextStore(cfg, st, v);
            SendsCreate(cfg, st', from, next) <==> Get(st'.versions[from].value.ann, OpId) != Some(op)
  {
    SentFacts(cfg, st, last, v, op);
    SendsAgainIf(cfg, st, NextStore(cfg, st, v), last, v.now, op, from, next);
  }

  lemma SendsAgainIf(cfg: Config, st: Store, st': Store, last: Option<Time>, now: Time, op: Id, from: nat, next: Attempt)
    requires Failing(st, next.args.name, last) && op !in st.cloud.ops
    requires now <= next.now < now + CREATE_RETRY_DELAY && |st.versions| - 1 <= from && HealthyVisit(cfg, st', from, next)
    requires var o := Latest(st.versions).value;
             && Cooled(st.cloud, o.ann, now)
             && (st'.versions == st.versions ||
                 st'.versions == st.versions + [Some(o.(ann := (o.ann - {RuleId, OpId})[OpId := op]))])
    requires FailsSince(st'.cloud, op, next.args.name, now) && st'.cloud.aged == st.cloud.aged
    requires forall o | o in st.cloud.ops && st.cloud.ops[o].OpFailed? :: Get(st'.cloud.ops, o) == Some(st.cloud.ops[o])
    ensures SendsCreate(cfg, st', from, next) <==> Get(st'.versions[from].value.ann, OpId) != Some(op)
  {
    if Get(st'.versions[from].value.ann, OpId) == Some(op) {
      RecordedWaits(cfg, st', from, op, now, next);
    } else {
      assert st'.versions[from] == Latest(st.versions);
      StillFree(st, st'.cloud, next.args.name, last, now, next.now);
      UnrecordedCreates(cfg, st', from, next);
    }
  }

  /** What allowed a create allows another one later. */
  lemma StillFree(st: Store, c': Cloud, name: string, last: Option<Time>, now: Time, later: Time)
    requires Failing(st, name, last) && now <= later && c'.aged == st.cloud.aged
    requires Cooled(st.cloud, Latest(st.versions).value.ann, now)
    requires forall o | o in st.cloud.ops && st.cloud.ops[o].OpFailed? :: Get(c'.ops, o) == Some(st.cloud.ops[o])
    ensures FreeToCreate(c', Latest(st.versions).value.ann, later)
  {
  }

  /** A call that takes effect and is heard, with that operation id and list. */
  function GoodFate(op: Id, listed: seq<Id>): Fate {
    Fate(true, true, None, false, "", op, listed, LbOperation("", "", Unreadable), [], "", None, None)
  }

  /** A call that neither takes effect nor is heard. */
  function LostFate(): Fate { GoodFate("", []).(lands := false, heard := false) }

  /** With nothing recorded the first call submits a create. */
  lemma FirstCreates(cfg: Config, args: RuleArgs, now: Time, st: Store, f: Fate)
    requires Failing(st, args.name, None) && f.lands && f.heard && f.op !in st.cloud.ops && f.op != ""
    ensures var t := EnsureCall(cfg, args, now, EnsureBegins(st), f);
            && t.cloud == st.cloud.(ops := st.cloud.ops[f.op := InFlight(args)]) && t.versions == st.versions
            && t.at.Write? && t.at.after == RULE_REQUEUE
  {
  }

  lemma ThenWrites(cfg: Config, args: RuleArgs, now: Time, t: Site, f: Fate)
    requires t.at.Write?
    ensures var u := EnsureCall(cfg, args, now, t, f);
            u.cloud == t.cloud && u.at.Ended? && (!f.lands && !f.heard ==> u.versions == t.versions)
  {
  }

  lemma RunTwo(cfg: Config, args: RuleArgs, now: Time, s: Site, f: Fate, g: Fate)
    ensures EnsureRun(cfg, args, now, s, [f, g]) == EnsureCall(cfg, args, now, EnsureCall(cfg, args, now, s, f), g)
  {
    assert [f, g][1..] == [g] && [g][1..] == [];
    var t := EnsureCall(cfg, args, now, s, f);
    assert EnsureRun(cfg, args, now, t, [g]) == EnsureRun(cfg, args, now, EnsureCall(cfg, args, now, t, g), [g][1..]);
  }

  /** The create is accepted, the patch that would store its operation is lost. */
  lemma RecordLost(cfg: Config, args: RuleArgs, now: Time, st: Store, op: Id)
    requires Failing(st, args.name, None) && op !in st.cloud.ops && op != ""
    ensures var t := EnsureRun(cfg, args, now, EnsureBegins(st), [GoodFate(op, []), LostFate()]);
            t.cloud == st.cloud.(ops := st.cloud.ops[op := InFlight(args)]) && t.versions == st.versions
  {
    var s, f := EnsureBegins(st), GoodFate(op, []);
    FirstCreates(cfg, args, now, st, f);
    ThenWrites(cfg, args, now, EnsureCall(cfg, args, now, s, f), LostFate());
    RunTwo(cfg, args, now, s, f, LostFate());
  }

  lemma CreateThenQuiet(cfg: Config, args: RuleArgs, now: Time, st: Store, op: Id, spare: Id, listed: seq<Id>)
    requires Failing(st, args.name, None) && ListsRules(st.cloud, listed)
    requires op !in st.cloud.ops && spare !in st.cloud.ops && op != spare && op != "" && spare != ""
    ensures var f, g := GoodFate(op, listed), GoodFate(spare, listed);
            HealthyEnsureRun(cfg, args, now, EnsureBegins(st), [f, g, g, g, g])
  {
    var s, f, g := EnsureBegins(st), GoodFate(op, listed), GoodFate(spare, listed);
    var t := EnsureCall(cfg, args, now, s, f);
    FirstCreates(cfg, args, now, st, f);
    ThenWrites(cfg, args, now, t, g);
    EndedHealthy(cfg, args, now, EnsureCall(cfg, args, now, t, g), [g, g, g]);
    HealthyOn(cfg, args, now, t, g, [g, g, g]);
    assert [g] + [g, g, g] == [g, g, g, g];
    HealthyOn(cfg, args, now, s, f, [g, g, g, g]);
    assert [f] + [g, g, g, g] == [f, g, g, g, g];
  }

  lemma HealthyOn(cfg: Config, args: RuleArgs, now: Time, s: Site, f: Fate, rest: seq<Fate>)
    requires HealthyNewOp(s.cloud, f) && HealthyEnsureRun(cfg, args, now, EnsureCall(cfg, args, now, s, f), rest)
    ensures HealthyEnsureRun(cfg, args, now, s, [f] + rest)
  {
    assert ([f] + rest)[1..] == rest;
  }

  lemma TalliedSends(cfg: Config, c: Tally, v: Attempt)
    requires Latest(c.store.versions).Some?
    requires EnsureRun(cfg, v.args, v.now, EnsureBegins(c.store), v.fates).cloud.ops != c.store.cloud.ops
    ensures Tallied(cfg, c, v) == Tally(NextStore(cfg, c.store, v), c.creates + [v.now])
  {
  }

  lemma TallyTwo(cfg: Config, c: Tally, v: Attempt, next: Attempt)
    ensures Tallies(cfg, c, [v, next]) == Tallied(cfg, Tallied(cfg, c, v), next)
  {
    assert [v, next][..1] == [v] && [v][..0] == [];
    assert Tallies(cfg, c, [v]) == Tallied(cfg, Tallies(cfg, c, []), v);
  }

  lemma LostTally(cfg: Config, args: RuleArgs, st: Store, now: Time, op: Id)
    requires Failing(st, args.name, None) && op !in st.cloud.ops && op != ""
    ensures Tallied(cfg, Tally(st, []), Attempt(args, now, [GoodFate(op, []), LostFate()], [])) ==
            Tally(st.(cloud := st.cloud.(ops := st.cloud.ops[op := InFlight(args)])), [now])
  {
    RecordLost(cfg, args, now, st, op);
    TalliedSends(cfg, Tally(st, []), Attempt(args, now, [GoodFate(op, []), LostFate()], []));
  }

  lemma NextTally(cfg: Config, args: RuleArgs, c: Tally, now: Time, op: Id, spare: Id, listed: seq<Id>)
    requires Failing(c.store, args.name, None) && ListsRules(c.store.cloud, listed)
    requires op !in c.store.cloud.ops && spare !in c.store.cloud.ops && op != spare && op != "" && spare != ""
    ensures var f, g := GoodFate(op, listed), GoodFate(spare, listed);
            Tallied(cfg, c, Attempt(args, now, [f, g, g, g, g], [])).creates == c.creates + [now]
  {
    var f, g := GoodFate(op, listed), GoodFate(spare, listed);
    CreateThenQuiet(cfg, args, now, c.store, op, spare, listed);
    SendsAgain(cfg, c.store, Attempt(args, now, [f, g, g, g, g], []));
    TalliedSends(cfg, c, Attempt(args, now, [f, g, g, g, g], []));
  }

  /** Where the bound of CreateRate ends: when the operation of an accepted create is not stored, the next
      pass can create again one moment later. */
  lemma LostRecordBreaksRate(cfg: Config, args: RuleArgs, st: Store, now: Time, op: Id, op2: Id, spare: Id, listed: seq<Id>)
    requires Failing(st, args.name, None) && ListsRules(st.cloud, listed)
    requires op !in st.cloud.ops && op2 !in st.cloud.ops && spare !in st.cloud.ops
    requires op != op2 && op2 != spare && spare != op && op != "" && op2 != "" && spare != ""
    ensures exists v, next: Attempt :: Tallies(cfg, Tally(st, []), [v, next]).creates == [now, now + 1]
  {
    var f, g := GoodFate(op2, listed), GoodFate(spare, listed);
    var v := Attempt(args, now, [GoodFate(op, []), LostFate()], []);
    var next := Attempt(args, now + 1, [f, g, g, g, g], []);
    LostTally(cfg, args, st, now, op);
    NextTally(cfg, args, Tallied(cfg, Tally(st, []), v), now + 1, op2, spare, listed);
    TallyTwo(cfg, Tally(st, []), v, next);
  }

  lemma SendsAgain(cfg: Config, st: Store, v: Attempt)
    requires Failing(st, v.args.name, None) && |v.fates| >= LONGEST_ENSURE
    requires HealthyEnsureRun(cfg, v.args, v.now, EnsureBegins(st), v.fates)
    ensures EnsureRun(cfg, v.args, v.now, EnsureBegins(st), v.fates).cloud.ops != st.cloud.ops
  {
    assert BeginsAt(st, |st.versions| - 1) == EnsureBegins(st);
    UnrecordedCreates(cfg, st, |st.versions| - 1, v);
  }

  /* ---- How many fit a window ---- */

  /** How many of them fall into [start, start + length]. */
  function InWindow(creates: seq<Time>, start: Time, length: nat): nat {
    if |creates| == 0 then 0
    else InWindow(creates[..|creates| - 1], start, length) +
         if start <= creates[|creates| - 1] <= start + length then 1 else 0
  }

  lemma {:induction false} WindowFilled(creates: seq<Time>, start: Time, length: nat)
    requires Spaced(creates) && |creates| > 0
    ensures var last, n := creates[|creates| - 1], InWindow(creates, start, length);
            && (last < start ==> n == 0)
            && (n > 0 ==> (n - 1) * CREATE_RETRY_DELAY <= (if last < start + length then last else start + length) - start)
    decreases |creates|
  {
    var before := creates[..|creates| - 1];
    if |before| > 0 {
      WindowFilled(before, start, length);
    }
  }

  lemma WindowBound(creates: seq<Time>, start: Time, length: nat)
    requires Spaced(creates)
    ensures InWindow(creates, start, length) <= length / CREATE_RETRY_DELAY + 1
  {
    if |creates| > 0 {
      WindowFilled(creates, start, length);
    }
  }

  /** The rate bound: along any run of passes whose creates all fail without a clash, however the
      Service's ports change, creates are at least two minutes apart, and a window of that length
      holds at most one more than fit in it at that distance. */
  lemma CreateRate(cfg: Config, name: string, st: Store, log: seq<Attempt>, start: Time, length: nat)
    requires Failing(st, name, None) && AgedKnown(st.cloud) && FailingVisits(cfg, name, Tally(st, []), log)
    ensures var creates := Tallies(cfg, Tally(st, []), log).creates;
            Spaced(creates) && InWindow(creates, start, length) <= length / CREATE_RETRY_DELAY + 1
  {
    VisitsCounted(cfg, name, Tally(st, []), log);
    WindowBound(Tallies(cfg, Tally(st, []), log).creates, start, length);
  }
}
