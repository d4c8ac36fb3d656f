/** One ensureFirewallRule pass as a sequence of calls, each following from the replies before it. */
module FirewallPass {
  import opened Wrappers
  import opened MergePatch
  import opened Timing
  import opened Ports
  import opened RuleCompare
  import opened Model
  import opened Protocol

  /** The completion and start time of a failed operation, None where unreadable. */
  datatype Stamps = Stamps(completedAt: Option<Time>, startedAt: Option<Time>)

  /** Where a pass stands. Look: read the recorded rule. Fix: patch it. Ask: read the recorded
      operation. Adopt: list the rules, after a clash or an operation that tells nothing. Cool: read
      the clock. Make: create, the Service holding dropped. Write: store ann, then wait for after. */
  datatype Ensuring =
    | Look(seen: Id)
    | Fix(mismatched: Id)
    | Ask(op: Id)
    | Adopt(clash: Option<Stamps>)
    | Cool(stamps: Stamps)
    | Make(dropped: Annotations)
    | Write(ann: Annotations, after: int)
    | Ended(wait: int, err: bool)

  function EnsureStart(ann: Annotations): Ensuring {
    if RuleId in ann then Look(ann[RuleId]) else if OpId in ann then Ask(ann[OpId]) else Make(ann)
  }

  function EnsureNext(ann: Annotations, args: RuleArgs, p: Ensuring): Option<Call> {
    match p
    case Look(id) => Some(GetRule(id))
    case Fix(id) => Some(PatchRule(id, Sorted(args)))
    case Ask(op) => Some(GetOp(op))
    case Adopt(_) => Some(ListRules)
    case Cool(_) => Some(Clock)
    case Make(_) => Some(CreateRule(args))
    case Write(ann', _) => Some(PatchAnn(Diff(ann, ann')))
    case Ended(_, _) => None
  }

  /** Nothing waits out a cooldown: create, or, on a failure still fresh, come back later. */
  function CoolDown(ann: Annotations, stamps: Stamps, now: Time): Ensuring {
    var wait := RetryWait(stamps.completedAt, stamps.startedAt, now);
    if wait > 0 then Ended(wait, false) else Make(ann - {OpId})
  }

  ghost function EnsureLearn(ann: Annotations, args: RuleArgs, p: Ensuring, reply: Reply): Ensuring {
    match p
    case Look(id) =>
      if reply.RuleSeen? then (if Matches(reply.rule, args) then Ended(0, false) else Fix(id))
      else if reply == Refused(true, Some(404)) then Make(ann - {RuleId, OpId})
      else Ended(0, true)
    case Fix(_) => Ended(0, !reply.Done?)
    case Ask(_) =>
      (match OutcomeOf(reply)
       case Yielded(id) => Write(ann[RuleId := id], 0)
       case Pending => Ended(RULE_REQUEUE, false)
       case FailedCreate(exists', completedAt, startedAt) =>
         var stamps := Stamps(completedAt, startedAt);
         if exists' then Adopt(Some(stamps)) else Cool(stamps)
       case Unresolvable => Adopt(None)
       case Transient => Ended(0, true))
    case Adopt(clash) =>
      if !reply.RuleList? then Ended(0, true)
      else
        var found := FindByName(reply.rules, args.name);
        if found.Some? then Write(ann[RuleId := found.value] - {OpId}, 0)
        else if clash.Some? then Cool(clash.value)
        else Make(ann - {OpId})
    case Cool(stamps) => if reply.At? then CoolDown(ann, stamps, reply.now) else p
    case Make(dropped) => if reply.RuleOp? then Write(dropped[OpId := reply.opId], RULE_REQUEUE) else Ended(0, true)
    case Write(_, after) => Ended(after, !reply.Stored?)
    case Ended(_, _) => p
  }

  /* ---- Transcripts ---- */

  type Transcript = seq<(Call, Reply)>

  /** Where a pass stands after a transcript, None if some call was not its next one or the clock gave no
      time. */
  ghost function After(ann: Annotations, args: RuleArgs, log: Transcript): Option<Ensuring>
    decreases |log|
  {
    if |log| == 0 then Some(EnsureStart(ann))
    else
      var p, last := After(ann, args, log[..|log| - 1]), log[|log| - 1];
      if p.Some? && EnsureNext(ann, args, p.value) == Some(last.0) && (last.0.Clock? ==> last.1.At?) then
        Some(EnsureLearn(ann, args, p.value, last.1))
      else None
  }

  lemma AfterSnoc(ann: Annotations, args: RuleArgs, log: Transcript, call: Call, reply: Reply)
    requires After(ann, args, log).Some? && EnsureNext(ann, args, After(ann, args, log).value) == Some(call)
    requires call.Clock? ==> reply.At?
    ensures After(ann, args, log + [(call, reply)]) == Some(EnsureLearn(ann, args, After(ann, args, log).value, reply))
  {
    assert (log + [(call, reply)])[..|log|] == log;
  }

  /* ---- On a store ---- */

  /** mem is the Service as the pass read it. */
  datatype Site = Site(cloud: Cloud, versions: Versions, mem: Copy, at: Ensuring)

  ghost function EnsureCall(cfg: Config, args: RuleArgs, now: Time, s: Site, f: Fate): Site {
    var ann := s.mem.obj.ann;
    if EnsureNext(ann, args, s.at).None? then s
    else
      var r := Serve(cfg, s.cloud, s.versions, now, args.name, s.mem, EnsureNext(ann, args, s.at).value, f);
      Site(r.cloud, r.versions, s.mem, EnsureLearn(ann, args, s.at, r.reply))
  }

  ghost function EnsureRun(cfg: Config, args: RuleArgs, now: Time, s: Site, fates: seq<Fate>): Site
    decreases |fates|
  {
    if |fates| == 0 then s else EnsureRun(cfg, args, now, EnsureCall(cfg, args, now, s, fates[0]), fates[1..])
  }

  function EnsureBegins(st: Store): Site
    requires Latest(st.versions).Some?
  {
    var copy := Copy(|st.versions| - 1, Latest(st.versions).value);
    Site(st.cloud, st.versions, copy, EnsureStart(copy.obj.ann))
  }

  /** The most calls one pass makes. */
  const LONGEST_ENSURE := 5

  /** The id of an operation that it may begin is new, too. */
  ghost predicate HealthyNewOp(c: Cloud, f: Fate) {
    Healthy(c, f) && f.op !in c.ops && f.op != ""
  }

  ghost predicate HealthyEnsureRun(cfg: Config, args: RuleArgs, now: Time, s: Site, fates: seq<Fate>)
    decreases |fates|
  {
    |fates| > 0 ==>
      HealthyNewOp(s.cloud, fates[0]) && HealthyEnsureRun(cfg, args, now, EnsureCall(cfg, args, now, s, fates[0]), fates[1..])
  }
}
