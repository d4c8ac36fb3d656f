/** What the firewall step does, told by its calls and the answers to them alone. */
module FirewallAnswers {
  import opened Wrappers
  import opened MergePatch
  import opened Ports
  import opened RuleCompare
  import opened Model
  import opened Protocol
  import opened FirewallPass

  type Entry = (Call, Reply)

  /* ---- Answers ---- */

  /** The recorded rule does not exist. */
  predicate RuleMissing(ann: Annotations, x: Entry) {
    RuleId in ann && x == (GetRule(ann[RuleId]), Refused(true, Some(404)))
  }

  /** The recorded operation tells nothing any more: unknown, gone, or succeeded without a readable id. */
  predicate OpTellsNothing(ann: Annotations, x: Entry) {
    && OpId in ann && x.0 == GetOp(ann[OpId])
    && (x.1 == Refused(true, Some(400)) || x.1 == Refused(true, Some(404)) || x.1 == Refused(true, Some(410)) ||
        (x.1.OpSeen? && x.1.record.Succeeded? && (x.1.record.result != WithId || x.1.record.ruleId == "")))
  }

  predicate OpFailedWith(ann: Annotations, x: Entry, clash: bool) {
    && OpId in ann && x.0 == GetOp(ann[OpId])
    && x.1.OpSeen? && x.1.record.OpFailed? && x.1.record.alreadyExists == clash
  }

  predicate OpMadeRule(ann: Annotations, x: Entry, id: Id) {
    && OpId in ann && x.0 == GetOp(ann[OpId]) && id != ""
    && x.1.OpSeen? && x.1.record == Succeeded(id, WithId)
  }

  predicate OpPending(ann: Annotations, x: Entry) {
    OpId in ann && x.0 == GetOp(ann[OpId]) && x.1.OpSeen? && x.1.record.InFlight?
  }

  /** A complete list of rules with none of that name. */
  predicate NoneHasName(x: Entry, name: string) {
    x.0.ListRules? && x.1.RuleList? && forall r | r in x.1.rules :: r.1 != name
  }

  /** id is the first rule listed under that name. */
  ghost predicate FirstListed(x: Entry, name: string, id: Id) {
    && x.0.ListRules? && x.1.RuleList?
    && exists i: nat :: i < |x.1.rules| && x.1.rules[i] == (id, name) && forall j | 0 <= j < i :: x.1.rules[j].1 != name
  }

  /** When the failure was: its completion, else its start. */
  function FailedAt(x: Entry): Option<Time>
    requires x.1.OpSeen? && x.1.record.OpFailed?
  {
    if x.1.record.completedAt.Some? then x.1.record.completedAt else x.1.record.startedAt
  }

  /** By the clock's answer two minutes have passed since the failure, or there is no telling when it was. */
  predicate CooldownPassed(failure: Entry, clock: Entry)
    requires failure.1.OpSeen? && failure.1.record.OpFailed?
  {
    clock.0.Clock? && clock.1.At? &&
    (FailedAt(failure).None? || clock.1.now >= FailedAt(failure).value + 120_000_000_000)
  }

  predicate StillCooling(failure: Entry, clock: Entry)
    requires failure.1.OpSeen? && failure.1.record.OpFailed?
  {
    clock.0.Clock? && clock.1.At? && !CooldownPassed(failure, clock)
  }

  /** The same rule but for the order of its lists. */
  ghost predicate SameRule(a: RuleArgs, b: RuleArgs) {
    && a.name == b.name && a.vpc == b.vpc
    && multiset(a.ports) == multiset(b.ports)
    && multiset(a.protocols) == multiset(b.protocols)
    && multiset(a.sources) == multiset(b.sources)
  }

  /* ---- When a create is due ---- */

  /** Nothing is recorded; the recorded rule does not exist; the operation tells nothing and no rule has
      the name; or it failed, no rule has the name if it clashed with one, and the cooldown has passed. */
  ghost predicate CreateDue(ann: Annotations, name: string, t: Transcript) {
    || (|t| == 0 && RuleId !in ann && OpId !in ann)
    || (|t| == 1 && RuleMissing(ann, t[0]))
    || (|t| == 2 && RuleId !in ann && OpTellsNothing(ann, t[0]) && NoneHasName(t[1], name))
    || (|t| == 2 && RuleId !in ann && OpFailedWith(ann, t[0], false) && CooldownPassed(t[0], t[1]))
    || (|t| == 3 && RuleId !in ann && OpFailedWith(ann, t[0], true) && NoneHasName(t[1], name) && CooldownPassed(t[0], t[2]))
  }

  /** What is to be stored, and the delay to ask for then: the operation of an accepted create, the rule of
      the recorded operation, or the first rule of the name. */
  ghost predicate StoreDue(ann: Annotations, name: string, t: Transcript, ann': Annotations, after: int) {
    || (|t| >= 1 && CreateDue(ann, name, t[..|t| - 1]) && t[|t| - 1].0.CreateRule? && t[|t| - 1].1.RuleOp? &&
        ann' == (ann - {RuleId, OpId})[OpId := t[|t| - 1].1.opId] && after == 10_000_000_000)
    || (|t| == 1 && RuleId !in ann && RuleId in ann' && OpMadeRule(ann, t[0], ann'[RuleId]) &&
        ann' == ann[RuleId := ann'[RuleId]] && after == 0)
    || (|t| == 2 && RuleId !in ann && (OpTellsNothing(ann, t[0]) || OpFailedWith(ann, t[0], true)) && RuleId in ann' &&
        FirstListed(t[1], name, ann'[RuleId]) && ann' == ann[RuleId := ann'[RuleId]] - {OpId} && after == 0)
  }

  ghost predicate SomeStoreDue(ann: Annotations, name: string, t: Transcript, after: int) {
    exists ann' :: StoreDue(ann, name, t, ann', after)
  }

  /** An answer that ends the pass with an error: none of those a decision can rest on. */
  predicate Unclear(x: Entry) {
    match x.0
    case GetRule(_) => !x.1.RuleSeen? && x.1 != Refused(true, Some(404))
    case PatchRule(_, _) => !x.1.Done?
    case GetOp(_) =>
      !x.1.OpSeen? && x.1 != Refused(true, Some(400)) && x.1 != Refused(true, Some(404)) && x.1 != Refused(true, Some(410))
    case ListRules => !x.1.RuleList?
    case CreateRule(_) => !x.1.RuleOp?
    case PatchAnn(_) => !x.1.Stored?
    case _ => false
  }

  /** The recorded rule as it should be, or patched just now. */
  ghost predicate RuleInLine(ann: Annotations, args: RuleArgs, t: Transcript) {
    && RuleId in ann && |t| >= 1 && t[0].0 == GetRule(ann[RuleId]) && t[0].1.RuleSeen?
    && if SameRule(t[0].1.rule, args) then |t| == 1 else |t| == 2 && t[1].0.PatchRule? && t[1].1.Done?
  }

  /** A quiet end and the delay it asks for: a pending operation ten seconds, a running cooldown what is left
      of its two minutes, everything else as StoreDue says, or none. */
  ghost predicate EndsQuietly(ann: Annotations, args: RuleArgs, t: Transcript, wait: int) {
    || (wait == 0 && RuleInLine(ann, args, t))
    || (wait == 10_000_000_000 && |t| == 1 && RuleId !in ann && OpPending(ann, t[0]))
    || (|t| == 2 && RuleId !in ann && OpFailedWith(ann, t[0], false) && StillCooling(t[0], t[1]) && LeftOf(t[0], t[1], wait))
    || (|t| == 3 && RuleId !in ann && OpFailedWith(ann, t[0], true) && NoneHasName(t[1], args.name) &&
        StillCooling(t[0], t[2]) && LeftOf(t[0], t[2], wait))
    || (|t| >= 1 && t[|t| - 1].0.PatchAnn? && t[|t| - 1].1.Stored? &&
        SomeStoreDue(ann, args.name, t[..|t| - 1], wait))
  }

  /** What is left of two minutes, and never more. */
  predicate LeftOf(failure: Entry, clock: Entry, wait: int)
    requires failure.1.OpSeen? && failure.1.record.OpFailed? && clock.1.At?
  {
    && FailedAt(failure).Some?
    && var left := FailedAt(failure).value + 120_000_000_000 - clock.1.now;
       wait == if left > 120_000_000_000 then 120_000_000_000 else left
  }

  /* ---- The step by its answers ---- */

  /** Where the step stands after t, by the answers in t. */
  ghost predicate StandsAt(ann: Annotations, args: RuleArgs, t: Transcript, p: Ensuring) {
    match p
    case Look(id) => |t| == 0 && RuleId in ann && id == ann[RuleId]
    case Fix(id) =>
      && |t| == 1 && RuleId in ann && id == ann[RuleId] && t[0].0 == GetRule(id)
      && t[0].1.RuleSeen? && !SameRule(t[0].1.rule, args)
    case Ask(op) => |t| == 0 && RuleId !in ann && OpId in ann && op == ann[OpId]
    case Adopt(clash) =>
      && |t| == 1 && RuleId !in ann
      && (if clash.None? then OpTellsNothing(ann, t[0])
          else OpFailedWith(ann, t[0], true) && clash.value == StampsOf(t[0]))
    case Cool(stamps) =>
      && RuleId !in ann
      && ((|t| == 1 && OpFailedWith(ann, t[0], false)) ||
          (|t| == 2 && OpFailedWith(ann, t[0], true) && NoneHasName(t[1], args.name)))
      && stamps == StampsOf(t[0])
    case Make(dropped) => CreateDue(ann, args.name, t) && dropped == ann - {RuleId, OpId}
    case Write(ann', after) => StoreDue(ann, args.name, t, ann', after)
    case Ended(wait, err) => |t| >= 1 && if err then Unclear(t[|t| - 1]) else EndsQuietly(ann, args, t, wait)
  }

  function StampsOf(x: Entry): Stamps
    requires x.1.OpSeen? && x.1.record.OpFailed?
  {
    Stamps(x.1.record.completedAt, x.1.record.startedAt)
  }

  lemma Starts(ann: Annotations, args: RuleArgs)
    ensures StandsAt(ann, args, [], EnsureStart(ann))
  {
    if RuleId !in ann && OpId !in ann { assert ann - {RuleId, OpId} == ann; }
  }

  lemma LastOf(t: Transcript, x: Entry)
    ensures (t + [x])[..|t|] == t && (t + [x])[|t|] == x
  {
  }

  lemma FirstFound(rules: seq<(Id, string)>, name: string)
    ensures FindByName(rules, name).None? <==> forall r | r in rules :: r.1 != name
    ensures FindByName(rules, name).Some? ==> FirstListed((ListRules, RuleList(rules)), name, FindByName(rules, name).value)
  {
    if |rules| > 0 {
      if rules[0].1 == name {
        assert rules[0] == (FindByName(rules, name).value, name);
      } else {
        FirstFound(rules[1..], name);
        if FindByName(rules, name).Some? {
          var id := FindByName(rules, name).value;
          var i: nat :| i < |rules[1..]| && rules[1..][i] == (id, name) && forall j | 0 <= j < i :: rules[1..][j].1 != name;
          assert rules[i + 1] == (id, name);
          assert forall j | 0 <= j < i + 1 :: rules[j].1 != name by {
            forall j | 0 <= j < i + 1 ensures rules[j].1 != name { if j > 0 { assert rules[j] == rules[1..][j - 1]; } }
          }
        }
      }
    }
  }

  lemma LookGoesOn(ann: Annotations, args: RuleArgs, t: Transcript, p: Ensuring, reply: Reply)
    requires p.Look? && StandsAt(ann, args, t, p)
    ensures StandsAt(ann, args, t + [(GetRule(p.seen), reply)], EnsureLearn(ann, args, p, reply))
  {
    LastOf(t, (GetRule(p.seen), reply));
  }

  lemma FixGoesOn(ann: Annotations, args: RuleArgs, t: Transcript, p: Ensuring, reply: Reply)
    requires p.Fix? && StandsAt(ann, args, t, p)
    ensures StandsAt(ann, args, t + [(PatchRule(p.mismatched, Sorted(args)), reply)], EnsureLearn(ann, args, p, reply))
  {
    LastOf(t, (PatchRule(p.mismatched, Sorted(args)), reply));
  }

  lemma AskGoesOn(ann: Annotations, args: RuleArgs, t: Transcript, p: Ensuring, reply: Reply)
    requires p.Ask? && StandsAt(ann, args, t, p)
    ensures StandsAt(ann, args, t + [(GetOp(p.op), reply)], EnsureLearn(ann, args, p, reply))
  {
    LastOf(t, (GetOp(p.op), reply));
  }

  lemma AdoptGoesOn(ann: Annotations, args: RuleArgs, t: Transcript, p: Ensuring, reply: Reply)
    requires p.Adopt? && StandsAt(ann, args, t, p)
    ensures StandsAt(ann, args, t + [(ListRules, reply)], EnsureLearn(ann, args, p, reply))
  {
    LastOf(t, (ListRules, reply));
    if reply.RuleList? {
      FirstFound(reply.rules, args.name);
      assert ann - {OpId} == ann - {RuleId, OpId};
    }
  }

  lemma CoolGoesOn(ann: Annotations, args: RuleArgs, t: Transcript, p: Ensuring, reply: Reply)
    requires p.Cool? && StandsAt(ann, args, t, p) && reply.At?
    ensures StandsAt(ann, args, t + [(Clock, reply)], EnsureLearn(ann, args, p, reply))
  {
    LastOf(t, (Clock, reply));
    assert ann - {OpId} == ann - {RuleId, OpId};
  }

  lemma MakeGoesOn(ann: Annotations, args: RuleArgs, t: Transcript, p: Ensuring, reply: Reply)
    requires p.Make? && StandsAt(ann, args, t, p)
    ensures StandsAt(ann, args, t + [(CreateRule(args), reply)], EnsureLearn(ann, args, p, reply))
  {
    LastOf(t, (CreateRule(args), reply));
    if reply.RuleOp? { CreateStored(ann, args, t, reply.opId); }
  }

  lemma CreateStored(ann: Annotations, args: RuleArgs, t: Transcript, op: Id)
    requires CreateDue(ann, args.name, t)
    ensures StoreDue(ann, args.name, t + [(CreateRule(args), RuleOp(op))], (ann - {RuleId, OpId})[OpId := op], 10_000_000_000)
  {
    LastOf(t, (CreateRule(args), RuleOp(op)));
  }

  lemma WriteGoesOn(ann: Annotations, args: RuleArgs, t: Transcript, p: Ensuring, reply: Reply)
    requires p.Write? && StandsAt(ann, args, t, p)
    ensures StandsAt(ann, args, t + [(PatchAnn(Diff(ann, p.ann)), reply)], EnsureLearn(ann, args, p, reply))
  {
    LastOf(t, (PatchAnn(Diff(ann, p.ann)), reply));
  }

  lemma GoesOn(ann: Annotations, args: RuleArgs, t: Transcript, p: Ensuring, call: Call, reply: Reply)
    requires StandsAt(ann, args, t, p) && EnsureNext(ann, args, p) == Some(call) && (call.Clock? ==> reply.At?)
    ensures StandsAt(ann, args, t + [(call, reply)], EnsureLearn(ann, args, p, reply))
  {
    match p
    case Look(_) => LookGoesOn(ann, args, t, p, reply);
    case Fix(_) => FixGoesOn(ann, args, t, p, reply);
    case Ask(_) => AskGoesOn(ann, args, t, p, reply);
    case Adopt(_) => AdoptGoesOn(ann, args, t, p, reply);
    case Cool(_) => CoolGoesOn(ann, args, t, p, reply);
    case Make(_) => MakeGoesOn(ann, args, t, p, reply);
    case Write(_, _) => WriteGoesOn(ann, args, t, p, reply);
  }

  /** After any calls and answers the step stands where the answers put it. */
  lemma {:induction false} ByAnswers(ann: Annotations, args: RuleArgs, t: Transcript)
    requires After(ann, args, t).Some?
    ensures StandsAt(ann, args, t, After(ann, args, t).value)
    decreases |t|
  {
    if |t| == 0 {
      Starts(ann, args);
      assert t == [];
    } else {
      var before, last := t[..|t| - 1], t[|t| - 1];
      ByAnswers(ann, args, before);
      GoesOn(ann, args, before, After(ann, args, before).value, last.0, last.1);
      assert t == before + [last];
    }
  }

  /* ---- What follows ---- */

  /** A create of the rule is sent exactly when it is due. */
  lemma CreatesWhenDue(ann: Annotations, args: RuleArgs, t: Transcript)
    requires After(ann, args, t).Some?
    ensures var next := EnsureNext(ann, args, After(ann, args, t).value);
            && (next.Some? && next.value.CreateRule? <==> CreateDue(ann, args.name, t))
            && (CreateDue(ann, args.name, t) ==> next == Some(CreateRule(args)))
  {
    ByAnswers(ann, args, t);
    var p := After(ann, args, t).value;
    if p.Write? {
      NotBoth(ann, args.name, t, p.ann, p.after);
    } else if p.Ended? && !p.err {
      NotAtTheEnd(ann, args, t, p.wait);
    }
  }

  lemma NotBoth(ann: Annotations, name: string, t: Transcript, ann': Annotations, after: int)
    requires StoreDue(ann, name, t, ann', after)
    ensures !CreateDue(ann, name, t)
  {
  }

  lemma NotAtTheEnd(ann: Annotations, args: RuleArgs, t: Transcript, wait: int)
    requires EndsQuietly(ann, args, t, wait)
    ensures !CreateDue(ann, args.name, t)
  {
  }

  /** A recorded rule is patched exactly when it was read and differs, and to just the wanted rule. */
  lemma PatchesWhenDifferent(ann: Annotations, args: RuleArgs, t: Transcript)
    requires After(ann, args, t).Some?
    ensures var next := EnsureNext(ann, args, After(ann, args, t).value);
            && (next.Some? && next.value.PatchRule? <==>
                  |t| == 1 && RuleId in ann && t[0].0 == GetRule(ann[RuleId]) && t[0].1.RuleSeen? && !SameRule(t[0].1.rule, args))
            && (next.Some? && next.value.PatchRule? ==>
                  RuleId in ann && next.value.id == ann[RuleId] && SameRule(next.value.args, args))
  {
    ByAnswers(ann, args, t);
  }

  /** What is stored is what an answer told, in place of what it overtakes. */
  lemma StoresWhatWasTold(ann: Annotations, args: RuleArgs, t: Transcript, diff: Patch<Key, string>)
    requires After(ann, args, t).Some? && EnsureNext(ann, args, After(ann, args, t).value) == Some(PatchAnn(diff))
    ensures exists ann', after :: StoreDue(ann, args.name, t, ann', after) && diff == Diff(ann, ann')
  {
    ByAnswers(ann, args, t);
  }

  lemma {:induction false} PrefixStands(ann: Annotations, args: RuleArgs, t: Transcript, i: nat)
    requires After(ann, args, t).Some? && i <= |t|
    ensures After(ann, args, t[..i]).Some?
    ensures i < |t| ==> EnsureNext(ann, args, After(ann, args, t[..i]).value) == Some(t[i].0)
    decreases |t|
  {
    if i < |t| {
      PrefixStands(ann, args, t[..|t| - 1], i);
      assert t[..|t| - 1][..i] == t[..i];
      if i == |t| - 1 { assert t[..i] == t[..|t| - 1]; }
    } else {
      assert t[..i] == t;
    }
  }

  lemma UnclearEnds(ann: Annotations, args: RuleArgs, t: Transcript)
    requires After(ann, args, t).Some? && |t| > 0
    ensures var p := After(ann, args, t).value;
            Unclear(t[|t| - 1]) <==> p.Ended? && p.err
  {
    ByAnswers(ann, args, t);
    var p := After(ann, args, t).value;
    if p.Ended? && !p.err { QuietIsClear(ann, args, t, p.wait); }
  }

  lemma QuietIsClear(ann: Annotations, args: RuleArgs, t: Transcript, wait: int)
    requires |t| > 0 && EndsQuietly(ann, args, t, wait)
    ensures !Unclear(t[|t| - 1])
  {
  }

  /** Any error answer but those a decision can rest on is the last, and the pass ends with an error; and it
      ends with an error only so. */
  lemma UnclearAnswerEnds(ann: Annotations, args: RuleArgs, t: Transcript, i: nat)
    requires After(ann, args, t).Some? && i < |t|
    ensures Unclear(t[i]) ==>
              i == |t| - 1 && After(ann, args, t).value.Ended? && After(ann, args, t).value.err
    ensures After(ann, args, t).value.Ended? && After(ann, args, t).value.err ==> Unclear(t[|t| - 1])
  {
    UnclearEnds(ann, args, t);
    PrefixStands(ann, args, t, i + 1);
    UnclearEnds(ann, args, t[..i + 1]);
    assert t[..i + 1][i] == t[i];
    if i + 1 == |t| { assert t[..i + 1] == t; }
  }
}
