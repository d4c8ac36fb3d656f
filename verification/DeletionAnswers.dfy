/** What a deletion does, told by its calls and the answers to them alone. */
module DeletionAnswers {
  import opened Wrappers
  import opened Model
  import opened Protocol
  import opened FirewallPass
  import opened FirewallAnswers
  import opened DeletionPass

  /* ---- How the rule is found ---- */

  predicate WithoutRule(cfg: Config, o: Object) { Text(o.ann, Manage) != "true" || !cfg.project }

  predicate HoldsRule(cfg: Config, o: Object) { !WithoutRule(cfg, o) && Text(o.ann, RuleId) != "" }

  predicate HoldsOp(cfg: Config, o: Object) {
    !WithoutRule(cfg, o) && Text(o.ann, RuleId) == "" && Text(o.ann, OpId) != ""
  }

  predicate HoldsNeither(cfg: Config, o: Object) {
    !WithoutRule(cfg, o) && Text(o.ann, RuleId) == "" && Text(o.ann, OpId) == ""
  }

  /** The clock, then the recorded operation, have been asked and nothing else. */
  predicate AskedOp(cfg: Config, o: Object, t: Transcript) {
    && HoldsOp(cfg, o) && |t| == 2
    && t[0].0.Clock? && t[0].1.At? && t[1].0 == GetOp(Text(o.ann, OpId))
  }

  /** More than five minutes since the deletion, by the clock's answer. */
  predicate PastLimit(o: Object, t: Transcript)
    requires |t| > 0 && t[0].1.At?
  {
    o.deletedAt.Some? && t[0].1.now - o.deletedAt.value > 300_000_000_000
  }

  /** The operation leaves only the name: it failed, tells nothing any more, or is still pending too late. */
  predicate LeavesName(cfg: Config, o: Object, t: Transcript) {
    && AskedOp(cfg, o, t)
    && (OpTellsNothing(o.ann, t[1]) || OpFailedWith(o.ann, t[1], true) || OpFailedWith(o.ann, t[1], false) ||
        (OpPending(o.ann, t[1]) && PastLimit(o, t)))
  }

  /** There is only the name to go by. */
  predicate OnlyName(cfg: Config, o: Object, t: Transcript) {
    (|t| == 0 && HoldsNeither(cfg, o)) || LeavesName(cfg, o, t)
  }

  /** id is to be deleted: it is recorded, or the operation made it, or it is the first of the name. */
  ghost predicate DeleteDue(cfg: Config, k: Id, o: Object, t: Transcript, id: Id) {
    || (|t| == 0 && HoldsRule(cfg, o) && id == Text(o.ann, RuleId))
    || (AskedOp(cfg, o, t) && OpMadeRule(o.ann, t[1], id))
    || (|t| > 0 && OnlyName(cfg, o, t[..|t| - 1]) && NameOf(cfg, k).Some? && FirstListed(t[|t| - 1], NameOf(cfg, k).value, id))
  }

  /** It is gone. */
  ghost predicate RuleGone(cfg: Config, k: Id, o: Object, t: Transcript) {
    && |t| > 0 && t[|t| - 1].0.DeleteRule? && DeleteDue(cfg, k, o, t[..|t| - 1], t[|t| - 1].0.id)
    && (t[|t| - 1].1.Done? || t[|t| - 1].1 == Refused(true, Some(404)))
  }

  /** The rule is seen to: there is none to delete, or it is gone and its tracking dropped. */
  ghost predicate RuleSeenTo(cfg: Config, k: Id, o: Object, t: Transcript) {
    || (|t| == 0 && WithoutRule(cfg, o))
    || (OnlyName(cfg, o, t) && NameOf(cfg, k).None?)
    || (|t| > 0 && OnlyName(cfg, o, t[..|t| - 1]) && NameOf(cfg, k).Some? && NoneHasName(t[|t| - 1], NameOf(cfg, k).value))
    || (|t| > 0 && RuleGone(cfg, k, o, t[..|t| - 1]) && t[|t| - 1].0.PatchAnn? && t[|t| - 1].1.Stored?)
  }

  /** The load balancer's DELETE took effect, or there was nothing to delete. */
  predicate LbAnsweredGone(reply: Reply) {
    || reply.Done?
    || (reply.Refused? && (reply.status == Some(200) || reply.status == Some(204)))
    || reply == Refused(true, Some(404))
  }

  /** Only the finalizer is left. */
  ghost predicate FinalizerDue(cfg: Config, k: Id, o: Object, t: Transcript) {
    || (RuleSeenTo(cfg, k, o, t) && Text(o.ann, LbId) == "")
    || (|t| > 0 && RuleSeenTo(cfg, k, o, t[..|t| - 1]) && Text(o.ann, LbId) != "" &&
        t[|t| - 1].0 == DeleteLb(Text(o.ann, LbId)) && LbAnsweredGone(t[|t| - 1].1))
  }

  /** A pending operation within the limit holds the deletion. */
  predicate HoldDue(cfg: Config, o: Object, t: Transcript) {
    AskedOp(cfg, o, t) && OpPending(o.ann, t[1]) && !PastLimit(o, t)
  }

  /** An answer that ends a deletion with an error. */
  predicate Fails(x: Entry) {
    match x.0
    case GetOp(_) =>
      !x.1.OpSeen? && x.1 != Refused(true, Some(400)) && x.1 != Refused(true, Some(404)) && x.1 != Refused(true, Some(410))
    case ListRules => !x.1.RuleList?
    case DeleteRule(_) => !x.1.Done? && x.1 != Refused(true, Some(404))
    case PatchAnn(_) => !x.1.Stored?
    case DeleteLb(_) => !LbAnsweredGone(x.1)
    case _ => false
  }

  /* ---- A deletion by its answers ---- */

  /** Where a deletion of o stands after t, by the answers in t. */
  ghost predicate StandsBy(cfg: Config, k: Id, o: Object, t: Transcript, p: Clean) {
    match p.fw
    case AskClock(op) => |t| == 0 && HoldsOp(cfg, o) && op == Text(o.ann, OpId)
    case AskOp(op, expired) =>
      && |t| == 1 && HoldsOp(cfg, o) && op == Text(o.ann, OpId) && t[0].0.Clock? && t[0].1.At? && expired == PastLimit(o, t)
    case AskName(_) => OnlyName(cfg, o, t) && NameOf(cfg, k).Some?
    case Target(id, _) => DeleteDue(cfg, k, o, t, id)
    case Removed(_) => RuleGone(cfg, k, o, t)
    case Cleared(_) =>
      (match p.lb
       case Present => RuleSeenTo(cfg, k, o, t) && Text(o.ann, LbId) != ""
       case Gone => FinalizerDue(cfg, k, o, t)
       case Over => |t| > 0 && (Fails(t[|t| - 1]) || (t[|t| - 1].0.Update? && FinalizerDue(cfg, k, o, t[..|t| - 1]))))
    case Held(inFlight) => if inFlight then HoldDue(cfg, o, t) else |t| > 0 && Fails(t[|t| - 1])
  }

  /** And what does not change while it goes on. */
  predicate LbPending(o: Object, p: Clean) {
    p.start.obj == o && (!p.fw.Cleared? ==> p.lb == if Text(o.ann, LbId) == "" then Gone else Present)
  }

  lemma Begins(cfg: Config, k: Id, p0: Clean)
    requires JustBegun(cfg, k, p0)
    ensures StandsBy(cfg, k, p0.start.obj, [], p0) && LbPending(p0.start.obj, p0)
  {
  }

  lemma AskedGoesOn(cfg: Config, k: Id, o: Object, t: Transcript, p: Clean, reply: Reply)
    requires StandsBy(cfg, k, o, t, p) && LbPending(o, p) && o.deletedAt.Some? && p.fw.AskOp?
    ensures var q := LearnCleaning(p, NameOf(cfg, k), reply);
            StandsBy(cfg, k, o, t + [(GetOp(p.fw.op), reply)], q) && LbPending(o, q)
  {
    LastOf(t, (GetOp(p.fw.op), reply));
    var t' := t + [(GetOp(p.fw.op), reply)];
    assert t'[0] == t[0] && |t'| == 2;
  }

  lemma NamedGoesOn(cfg: Config, k: Id, o: Object, t: Transcript, p: Clean, reply: Reply)
    requires StandsBy(cfg, k, o, t, p) && LbPending(o, p) && p.fw.AskName?
    ensures var q := LearnCleaning(p, NameOf(cfg, k), reply);
            StandsBy(cfg, k, o, t + [(ListRules, reply)], q) && LbPending(o, q)
  {
    LastOf(t, (ListRules, reply));
    if reply.RuleList? { FirstFound(reply.rules, NameOf(cfg, k).value); }
  }

  lemma RuleGoesOn(cfg: Config, k: Id, o: Object, t: Transcript, p: Clean, call: Call, reply: Reply)
    requires StandsBy(cfg, k, o, t, p) && LbPending(o, p) && (p.fw.Target? || p.fw.Removed?) && CleanNext(p) == Some(call)
    ensures var q := LearnCleaning(p, NameOf(cfg, k), reply);
            StandsBy(cfg, k, o, t + [(call, reply)], q) && LbPending(o, q)
  {
    LastOf(t, (call, reply));
  }

  lemma RestGoesOn(cfg: Config, k: Id, o: Object, t: Transcript, p: Clean, call: Call, reply: Reply)
    requires StandsBy(cfg, k, o, t, p) && LbPending(o, p) && p.fw.Cleared? && CleanNext(p) == Some(call)
    ensures var q := LearnCleaning(p, NameOf(cfg, k), reply);
            StandsBy(cfg, k, o, t + [(call, reply)], q) && LbPending(o, q)
  {
    LastOf(t, (call, reply));
  }

  lemma DeletionGoesOn(cfg: Config, k: Id, o: Object, t: Transcript, p: Clean, call: Call, reply: Reply)
    requires StandsBy(cfg, k, o, t, p) && LbPending(o, p) && o.deletedAt.Some?
    requires CleanNext(p) == Some(call) && (call.Clock? ==> reply.At?)
    ensures var q := LearnCleaning(p, NameOf(cfg, k), reply);
            StandsBy(cfg, k, o, t + [(call, reply)], q) && LbPending(o, q)
  {
    match p.fw
    case AskClock(_) => LastOf(t, (call, reply));
    case AskOp(_, _) => AskedGoesOn(cfg, k, o, t, p, reply);
    case AskName(_) => NamedGoesOn(cfg, k, o, t, p, reply);
    case Target(_, _) => RuleGoesOn(cfg, k, o, t, p, call, reply);
    case Removed(_) => RuleGoesOn(cfg, k, o, t, p, call, reply);
    case Cleared(_) => RestGoesOn(cfg, k, o, t, p, call, reply);
    case Held(_) =>
  }

  /** After any calls and answers a deletion stands where the answers put it. */
  lemma {:induction false} DeletionByAnswers(cfg: Config, k: Id, p0: Clean, t: Transcript)
    requires JustBegun(cfg, k, p0) && p0.start.obj.deletedAt.Some? && CleanAfter(cfg, k, p0, t).Some?
    ensures var p := CleanAfter(cfg, k, p0, t).value;
            StandsBy(cfg, k, p0.start.obj, t, p) && LbPending(p0.start.obj, p)
    decreases |t|
  {
    if |t| == 0 {
      Begins(cfg, k, p0);
      assert t == [];
    } else {
      var before, last := t[..|t| - 1], t[|t| - 1];
      DeletionByAnswers(cfg, k, p0, before);
      DeletionGoesOn(cfg, k, p0.start.obj, before, CleanAfter(cfg, k, p0, before).value, last.0, last.1);
      assert t == before + [last];
    }
  }

  /* ---- What follows ---- */

  ghost predicate SomeDeleteDue(cfg: Config, k: Id, o: Object, t: Transcript) { exists id :: DeleteDue(cfg, k, o, t, id) }

  lemma OneFirst(x: Entry, name: string, a: Id, b: Id)
    requires FirstListed(x, name, a) && FirstListed(x, name, b)
    ensures a == b
  {
    var i: nat :| i < |x.1.rules| && x.1.rules[i] == (a, name) && forall j | 0 <= j < i :: x.1.rules[j].1 != name;
    var j: nat :| j < |x.1.rules| && x.1.rules[j] == (b, name) && forall i | 0 <= i < j :: x.1.rules[i].1 != name;
    assert i == j;
  }

  /** Only one rule can be due. */
  lemma OneDue(cfg: Config, k: Id, o: Object, t: Transcript, a: Id, b: Id)
    requires DeleteDue(cfg, k, o, t, a) && DeleteDue(cfg, k, o, t, b)
    ensures a == b
  {
    if |t| > 0 && NameOf(cfg, k).Some? {
      var last := t[|t| - 1];
      if FirstListed(last, NameOf(cfg, k).value, a) && FirstListed(last, NameOf(cfg, k).value, b) {
        OneFirst(last, NameOf(cfg, k).value, a, b);
      }
    }
  }

  /** No two things are due at once. */
  lemma OneThingDue(cfg: Config, k: Id, o: Object, t: Transcript)
    ensures SomeDeleteDue(cfg, k, o, t) ==>
              !(OnlyName(cfg, o, t) || RuleGone(cfg, k, o, t) || RuleSeenTo(cfg, k, o, t) || FinalizerDue(cfg, k, o, t))
    ensures RuleGone(cfg, k, o, t) ==>
              !(OnlyName(cfg, o, t) || RuleSeenTo(cfg, k, o, t) || FinalizerDue(cfg, k, o, t) || HoldDue(cfg, o, t))
    ensures RuleSeenTo(cfg, k, o, t) && Text(o.ann, LbId) != "" ==> !FinalizerDue(cfg, k, o, t)
    ensures RuleSeenTo(cfg, k, o, t) || FinalizerDue(cfg, k, o, t) ==>
              !(OnlyName(cfg, o, t) && NameOf(cfg, k).Some?) && !HoldDue(cfg, o, t)
    ensures HoldDue(cfg, o, t) ==> !OnlyName(cfg, o, t) && !SomeDeleteDue(cfg, k, o, t)
  {
    if id :| DeleteDue(cfg, k, o, t, id) {
      NothingBesides(cfg, k, o, t, id);
    }
  }

  lemma NothingBesides(cfg: Config, k: Id, o: Object, t: Transcript, id: Id)
    requires DeleteDue(cfg, k, o, t, id)
    ensures !(OnlyName(cfg, o, t) || RuleGone(cfg, k, o, t) || RuleSeenTo(cfg, k, o, t) || FinalizerDue(cfg, k, o, t))
    ensures !HoldDue(cfg, o, t)
  {
  }

  /** When something is due no answer has failed the deletion. */
  lemma DueIsClear(cfg: Config, k: Id, o: Object, t: Transcript)
    requires |t| > 0 && Fails(t[|t| - 1])
    ensures !SomeDeleteDue(cfg, k, o, t) && !OnlyName(cfg, o, t) && !RuleGone(cfg, k, o, t) && !RuleSeenTo(cfg, k, o, t)
    ensures !FinalizerDue(cfg, k, o, t) && !HoldDue(cfg, o, t)
  {
  }

  /** After any calls and answers: the rule to delete, the list of rules, the load balancer to delete and the
      finalizer are each turned to exactly when they are due. */
  lemma NextByAnswers(cfg: Config, k: Id, p0: Clean, t: Transcript)
    requires JustBegun(cfg, k, p0) && p0.start.obj.deletedAt.Some? && CleanAfter(cfg, k, p0, t).Some?
    ensures var o, next := p0.start.obj, CleanNext(CleanAfter(cfg, k, p0, t).value);
            && (forall id :: next == Some(DeleteRule(id)) <==> DeleteDue(cfg, k, o, t, id))
            && (next == Some(ListRules) <==> OnlyName(cfg, o, t) && NameOf(cfg, k).Some?)
            && (next.Some? && next.value.PatchAnn? <==> RuleGone(cfg, k, o, t))
            && (next.Some? && next.value.DeleteLb? <==> RuleSeenTo(cfg, k, o, t) && Text(o.ann, LbId) != "")
            && (next.Some? && next.value.Update? <==> FinalizerDue(cfg, k, o, t))
  {
    DeletionByAnswers(cfg, k, p0, t);
    OneThingDue(cfg, k, p0.start.obj, t);
    if |t| > 0 && Fails(t[|t| - 1]) { DueIsClear(cfg, k, p0.start.obj, t); }
    OnlyThat(cfg, k, p0.start.obj, t, CleanAfter(cfg, k, p0, t).value);
  }

  lemma OnlyThat(cfg: Config, k: Id, o: Object, t: Transcript, p: Clean)
    requires StandsBy(cfg, k, o, t, p)
    ensures forall id :: p.fw.Target? && DeleteDue(cfg, k, o, t, id) ==> p.fw.id == id
    ensures p.fw.AskClock? || p.fw.AskOp? ==>
              && !SomeDeleteDue(cfg, k, o, t) && !OnlyName(cfg, o, t) && !RuleGone(cfg, k, o, t)
              && !RuleSeenTo(cfg, k, o, t) && !FinalizerDue(cfg, k, o, t)
  {
    forall id | p.fw.Target? && DeleteDue(cfg, k, o, t, id) ensures p.fw.id == id { OneDue(cfg, k, o, t, p.fw.id, id); }
  }

  /** How a whole deletion ends: on a hold it asks for a pass in ten seconds, on a failing answer or a removal
      of the finalizer that was not stored it is an error, and otherwise the Service is released. */
  lemma EndsByAnswers(cfg: Config, k: Id, p0: Clean, t: Transcript, p: Clean, requeueAfter: int, err: bool)
    requires JustBegun(cfg, k, p0) && p0.start.obj.deletedAt.Some? && Deletes(cfg, k, p0, t, p, requeueAfter, err)
    ensures |t| > 0 && requeueAfter == if HoldDue(cfg, p0.start.obj, t) then 10_000_000_000 else 0
    ensures err <==> Fails(t[|t| - 1]) || (t[|t| - 1].0.Update? && !t[|t| - 1].1.Stored?)
    ensures !err && requeueAfter == 0 ==>
              t[|t| - 1].0.Update? && t[|t| - 1].1.Stored? && FinalizerDue(cfg, k, p0.start.obj, t[..|t| - 1])
  {
    DeletionByAnswers(cfg, k, p0, t);
  }
}
