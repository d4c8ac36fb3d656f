/** One deleting pass as a sequence of calls, each following from the replies before it. */
module DeletionPass {
  import opened Wrappers
  import opened Timing
  import opened Model
  import opened Protocol
  import opened FirewallPass

  /** Where a pass that began as p0 stands after a transcript, None if some call was not its next one. */
  function CleanAfter(cfg: Config, k: Id, p0: Clean, log: Transcript): Option<Clean>
    decreases |log|
  {
    if |log| == 0 then Some(p0)
    else
      var p, last := CleanAfter(cfg, k, p0, log[..|log| - 1]), log[|log| - 1];
      if p.Some? && CleanNext(p.value) == Some(last.0) && (last.0.Clock? ==> last.1.At?) then
        Some(LearnCleaning(p.value, NameOf(cfg, k), last.1))
      else None
  }

  lemma CleanSnoc(cfg: Config, k: Id, p0: Clean, log: Transcript, call: Call, reply: Reply)
    requires CleanAfter(cfg, k, p0, log).Some? && CleanNext(CleanAfter(cfg, k, p0, log).value) == Some(call)
    requires call.Clock? ==> reply.At?
    ensures CleanAfter(cfg, k, p0, log + [(call, reply)]) ==
            Some(LearnCleaning(CleanAfter(cfg, k, p0, log).value, NameOf(cfg, k), reply))
  {
    assert (log + [(call, reply)])[..|log|] == log;
  }

  /** A pass over the snapshot start, before its first call. */
  predicate JustBegun(cfg: Config, k: Id, p: Clean) {
    && p.start == p.mem && p.fw == FwStart(cfg, k, p.start.obj)
    && p.lb == if Text(p.start.obj.ann, LbId) == "" then Gone else Present
  }

  /** How a deletion reports where it came to an end: a hold asks for a pass in ten seconds, a step that
      failed is an error, and so is a removal of the finalizer that was not stored. */
  predicate Reports(p: Clean, t: Transcript, requeueAfter: int, err: bool) {
    && CleanNext(p).None?
    && match p.fw
       case Held(inFlight) => if inFlight then !err && requeueAfter == RULE_REQUEUE else err && requeueAfter == 0
       case _ => requeueAfter == 0 && |t| > 0 && err == !(t[|t| - 1].0.Update? && t[|t| - 1].1.Stored?)
  }

  /** A whole deletion: its calls are the next ones up to the end, which it reports. */
  predicate Deletes(cfg: Config, k: Id, p0: Clean, t: Transcript, p: Clean, requeueAfter: int, err: bool) {
    CleanAfter(cfg, k, p0, t) == Some(p) && Reports(p, t, requeueAfter, err)
  }

  /* ---- The order of its calls ---- */

  /** The clock, the operation, the rules of the name; the rule, its tracking; the load balancer; the
      finalizer. Anything else is not a deletion's. */
  function Turn(call: Call): nat {
    match call
    case Clock => 0
    case GetOp(_) => 1
    case ListRules => 2
    case DeleteRule(_) => 3
    case PatchAnn(_) => 4
    case DeleteLb(_) => 5
    case Update(_) => 6
    case _ => 7
  }

  /** The turn of the next call. */
  function NextTurn(p: Clean): nat {
    if CleanNext(p).None? then 7 else Turn(CleanNext(p).value)
  }

  lemma TurnsRise(cfg: Config, k: Id, p: Clean, call: Call, reply: Reply)
    requires CleanNext(p) == Some(call) && (call.Clock? ==> reply.At?)
    ensures Turn(call) == NextTurn(p) < NextTurn(LearnCleaning(p, NameOf(cfg, k), reply))
  {
  }

  lemma {:induction false} TurnsBelow(cfg: Config, k: Id, p0: Clean, t: Transcript, i: nat)
    requires CleanAfter(cfg, k, p0, t).Some? && i < |t|
    ensures Turn(t[i].0) < NextTurn(CleanAfter(cfg, k, p0, t).value)
    decreases |t|
  {
    var before := t[..|t| - 1];
    TurnsRise(cfg, k, CleanAfter(cfg, k, p0, before).value, t[|t| - 1].0, t[|t| - 1].1);
    if i < |before| { TurnsBelow(cfg, k, p0, before, i); }
  }

  /** In every deletion the calls come in that order and none comes twice: whatever is answered, the
      rule is seen to before the load balancer and both before the finalizer. */
  lemma {:induction false} CallsInOrder(cfg: Config, k: Id, p0: Clean, t: Transcript)
    requires CleanAfter(cfg, k, p0, t).Some?
    ensures forall i, j | 0 <= i < j < |t| :: Turn(t[i].0) < Turn(t[j].0)
    decreases |t|
  {
    if |t| > 0 {
      var before, last := t[..|t| - 1], t[|t| - 1];
      CallsInOrder(cfg, k, p0, before);
      var p := CleanAfter(cfg, k, p0, before).value;
      TurnsRise(cfg, k, p, last.0, last.1);
      forall i | 0 <= i < |before| ensures Turn(t[i].0) < Turn(last.0) {
        TurnsBelow(cfg, k, p0, before, i);
      }
    }
  }

  /* ---- What a release rests on ---- */

  predicate RuleDeleted(reply: Reply) { reply.Done? || reply == Refused(true, Some(404)) }

  ghost predicate AnsweredRule(t: Transcript, id: Id) {
    exists x | x in t :: x.0 == DeleteRule(id) && RuleDeleted(x.1)
  }

  ghost predicate AnsweredLb(t: Transcript, id: Id) {
    exists x | x in t :: x.0 == DeleteLb(id) && LbDeleted(x.1)
  }

  /** What the answers so far have settled. */
  ghost predicate AnsweredSoFar(p0: Clean, t: Transcript, p: Clean) {
    && p.start == p0.start
    && (p0.fw.Target? ==> p.fw == p0.fw || p.fw.Held? || ((p.fw.Removed? || p.fw.Cleared?) && AnsweredRule(t, p0.fw.id)))
    && (p0.lb.Present? && p.lb.Gone? ==> AnsweredLb(t, Text(p0.start.obj.ann, LbId)))
    && (p0.lb.Gone? ==> !p.lb.Present?)
  }

  lemma AnsweredOn(cfg: Config, k: Id, p0: Clean, t: Transcript, p: Clean, call: Call, reply: Reply)
    requires AnsweredSoFar(p0, t, p) && CleanNext(p) == Some(call)
    ensures AnsweredSoFar(p0, t + [(call, reply)], LearnCleaning(p, NameOf(cfg, k), reply))
  {
    var t', q := t + [(call, reply)], LearnCleaning(p, NameOf(cfg, k), reply);
    assert (call, reply) in t';
    assert forall x | x in t :: x in t';
  }

  lemma {:induction false} AnsweredAfter(cfg: Config, k: Id, p0: Clean, t: Transcript)
    requires CleanAfter(cfg, k, p0, t).Some?
    ensures AnsweredSoFar(p0, t, CleanAfter(cfg, k, p0, t).value)
    decreases |t|
  {
    if |t| > 0 {
      var before, last := t[..|t| - 1], t[|t| - 1];
      AnsweredAfter(cfg, k, p0, before);
      AnsweredOn(cfg, k, p0, before, CleanAfter(cfg, k, p0, before).value, last.0, last.1);
      assert before + [last] == t;
    }
  }

  /** A deletion removes the finalizer only as its last call, only after a recorded load balancer was
      answered deleted, and only after a recorded rule of a managed Service was. */
  lemma FinalizerComesLast(cfg: Config, k: Id, p0: Clean, t: Transcript, i: nat)
    requires JustBegun(cfg, k, p0) && CleanAfter(cfg, k, p0, t).Some? && i < |t| && t[i].0.Update?
    ensures i == |t| - 1
    ensures Text(p0.start.obj.ann, LbId) != "" ==> AnsweredLb(t[..i], Text(p0.start.obj.ann, LbId))
    ensures Managed(p0.start.obj) && cfg.project && Text(p0.start.obj.ann, RuleId) != "" ==>
              AnsweredRule(t[..i], Text(p0.start.obj.ann, RuleId))
  {
    CallsInOrder(cfg, k, p0, t);
    LastIsLast(cfg, k, p0, t, i);
    AnsweredAfter(cfg, k, p0, t[..i]);
  }

  /** It sends the DELETE of the load balancer only for a recorded one, and only after a recorded rule of
      a managed Service was answered deleted. */
  lemma LoadBalancerAfterRule(cfg: Config, k: Id, p0: Clean, t: Transcript, i: nat)
    requires JustBegun(cfg, k, p0) && CleanAfter(cfg, k, p0, t).Some? && i < |t| && t[i].0.DeleteLb?
    ensures t[i].0.id == Text(p0.start.obj.ann, LbId) != ""
    ensures Managed(p0.start.obj) && cfg.project && Text(p0.start.obj.ann, RuleId) != "" ==>
              AnsweredRule(t[..i], Text(p0.start.obj.ann, RuleId))
  {
    PrefixAfter(cfg, k, p0, t, i);
    AnsweredAfter(cfg, k, p0, t[..i]);
  }

  lemma LastIsLast(cfg: Config, k: Id, p0: Clean, t: Transcript, i: nat)
    requires CleanAfter(cfg, k, p0, t).Some? && i < |t| && t[i].0.Update?
    ensures i == |t| - 1
  {
    CallsInOrder(cfg, k, p0, t);
    LastTurn(cfg, k, p0, t);
  }

  lemma LastTurn(cfg: Config, k: Id, p0: Clean, t: Transcript)
    requires CleanAfter(cfg, k, p0, t).Some? && |t| > 0
    ensures Turn(t[|t| - 1].0) <= 6
  {
    var p := CleanAfter(cfg, k, p0, t[..|t| - 1]).value;
    assert CleanNext(p) == Some(t[|t| - 1].0);
  }

  /** It deletes only the recorded rule, or one that an answer of the pass gave it: by its operation, or
      by its exact name. */
  ghost predicate Given(cfg: Config, k: Id, p0: Clean, t: Transcript, id: Id) {
    || (p0.fw.Target? && p0.fw.id == id)
    || (exists x | x in t :: x.0.GetOp? && OutcomeOf(x.1) == Yielded(id))
    || (exists x | x in t :: x.0.ListRules? && x.1.RuleList? && (id, NameOf(cfg, k).GetOr("")) in x.1.rules)
  }

  lemma {:induction false} TargetGiven(cfg: Config, k: Id, p0: Clean, t: Transcript)
    requires CleanAfter(cfg, k, p0, t).Some? && CleanAfter(cfg, k, p0, t).value.fw.Target?
    ensures Given(cfg, k, p0, t, CleanAfter(cfg, k, p0, t).value.fw.id)
    decreases |t|
  {
    if |t| > 0 {
      var before, last := t[..|t| - 1], t[|t| - 1];
      var p := CleanAfter(cfg, k, p0, before).value;
      assert last in t && !p.fw.Target?;
    }
  }

  lemma DeletesOnlyGiven(cfg: Config, k: Id, p0: Clean, t: Transcript, i: nat)
    requires CleanAfter(cfg, k, p0, t).Some? && i < |t| && t[i].0.DeleteRule?
    ensures Given(cfg, k, p0, t[..i], t[i].0.id)
  {
    PrefixAfter(cfg, k, p0, t, i);
    TargetGiven(cfg, k, p0, t[..i]);
  }

  lemma {:induction false} PrefixAfter(cfg: Config, k: Id, p0: Clean, t: Transcript, i: nat)
    requires CleanAfter(cfg, k, p0, t).Some? && i < |t|
    ensures CleanAfter(cfg, k, p0, t[..i]).Some?
    ensures CleanNext(CleanAfter(cfg, k, p0, t[..i]).value) == Some(t[i].0)
    decreases |t|
  {
    if i < |t| - 1 {
      PrefixAfter(cfg, k, p0, t[..|t| - 1], i);
      assert t[..|t| - 1][..i] == t[..i];
    }
  }
}
