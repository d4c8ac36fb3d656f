/** Why self-healing asks that failures lie in the past: one stamped in the future stalls every pass
    that comes as soon as asked. */
module FutureFailures {
  import opened Wrappers
  import opened Timing
  import opened Ports
  import opened Model
  import opened Invariant
  import opened Tracking
  import opened FirewallPass
  import opened EnsureEffect
  import opened SelfHealing

  /** The wait asked for after a failure is followed by another one exactly when the failure is stamped
      after the pass. */
  lemma WaitsAgain(op: Op, now: Time)
    requires op.OpFailed? && StampOf(op).Some? && RetryWait(op.completedAt, op.startedAt, now) > 0
    ensures var next := now + RetryWait(op.completedAt, op.startedAt, now);
            RetryWait(op.completedAt, op.startedAt, next) > 0 <==> StampOf(op).value > now
  {
  }

  predicate FailedAfter(c: Cloud, op: Id, stamp: Time) {
    op in c.ops && op !in c.aged && c.ops[op].OpFailed? && !c.ops[op].alreadyExists &&
    StampOf(c.ops[op]).Some? && StampOf(c.ops[op]).value >= stamp
  }

  /** All the Service records is a failed create without a clash, stamped at that time or later. */
  ghost predicate Stalled(st: Store, name: string, stamp: Time) {
    && Latest(st.versions).Some? && UniqueRules(st.cloud)
    && (forall x :: !CreatesRule(st.cloud, x, name))
    && var ann := Latest(st.versions).value.ann;
       RuleId !in ann && OpId in ann && FailedAfter(st.cloud, ann[OpId], stamp)
  }

  /** A healthy pass whose calls change nothing, and nothing happens after it. */
  function OnTime(due: Time, f: Fate): Visit { Visit(due, [f, f, f, f, f], []) }

  /** Such a pass reads the operation and the clock, and waits out the whole delay. */
  lemma StalledPass(cfg: Config, args: RuleArgs, st: Store, now: Time, f: Fate)
    requires Stalled(st, args.name, now) && HealthyNewOp(st.cloud, f)
    ensures var s := EnsureBegins(st); var fates := [f, f, f, f, f];
            && HealthyEnsureRun(cfg, args, now, s, fates)
            && EnsureRun(cfg, args, now, s, fates) == s.(at := Ended(CREATE_RETRY_DELAY, false))
  {
    var s0, fates := EnsureBegins(st), [f, f, f, f, f];
    AskCall(cfg, args, now, s0, f);
    var s1 := EnsureCall(cfg, args, now, s0, f);
    CoolCall(cfg, args, now, s1, f);
    var s2 := EnsureCall(cfg, args, now, s1, f);
    assert s2 == s0.(at := Ended(CREATE_RETRY_DELAY, false));
    assert fates[1..] == [f, f, f, f] && fates[1..][1..] == [f, f, f];
    EndedHealthy(cfg, args, now, s2, [f, f, f]);
    EndedRun(cfg, args, now, s2, [f, f, f]);
  }

  lemma StalledVisit(cfg: Config, args: RuleArgs, c: Course, f: Fate)
    requires Stalled(c.store, args.name, c.due) && HealthyNewOp(c.store.cloud, f)
    ensures GoodVisit(cfg, args, c, OnTime(c.due, f))
    ensures Visited(cfg, args, c, OnTime(c.due, f)) == Course(c.store, c.due + CREATE_RETRY_DELAY)
  {
    StalledPass(cfg, args, c.store, c.due, f);
  }

  /** When the pass after n on-time passes is due. */
  function DueAfter(due: Time, n: nat): (r: Time)
    ensures r >= due
  {
    if n == 0 then due else DueAfter(due, n - 1) + CREATE_RETRY_DELAY
  }

  /** n passes, each as soon as the one before asked for. */
  function OnTimeVisits(due: Time, f: Fate, n: nat): (r: seq<Visit>)
    ensures |r| == n
  {
    if n == 0 then [] else OnTimeVisits(due, f, n - 1) + [OnTime(DueAfter(due, n - 1), f)]
  }

  /** As long as the failure is stamped after the passes, they all change nothing. */
  lemma {:induction false} FutureFailureStalls(cfg: Config, args: RuleArgs, c: Course, f: Fate, n: nat)
    requires Stalled(c.store, args.name, DueAfter(c.due, n)) && HealthyNewOp(c.store.cloud, f)
    ensures GoodVisits(cfg, args, c, OnTimeVisits(c.due, f, n))
    ensures Visits(cfg, args, c, OnTimeVisits(c.due, f, n)) == Course(c.store, DueAfter(c.due, n))
  {
    if n > 0 {
      StalledSooner(c.store, args.name, DueAfter(c.due, n), DueAfter(c.due, n - 1));
      FutureFailureStalls(cfg, args, c, f, n - 1);
      StalledVisit(cfg, args, Course(c.store, DueAfter(c.due, n - 1)), f);
      OneMoreVisit(cfg, args, c, OnTimeVisits(c.due, f, n - 1), OnTime(DueAfter(c.due, n - 1), f));
    }
  }

  lemma StalledSooner(st: Store, name: string, stamp: Time, sooner: Time)
    requires Stalled(st, name, stamp) && sooner <= stamp
    ensures Stalled(st, name, sooner)
  {
  }

  lemma OneMoreVisit(cfg: Config, args: RuleArgs, c: Course, log: seq<Visit>, v: Visit)
    requires GoodVisits(cfg, args, c, log) && GoodVisit(cfg, args, Visits(cfg, args, c, log), v)
    ensures GoodVisits(cfg, args, c, log + [v])
    ensures Visits(cfg, args, c, log + [v]) == Visited(cfg, args, Visits(cfg, args, c, log), v)
  {
    assert (log + [v])[..|log|] == log;
  }

  /** A Service that records only the failed operation "op". */
  function FailedStore(stamp: Time): Store {
    Store(Cloud(map[], {}, map[], map[], {}, map["op" := OpFailed(false, Some(stamp), None)], {}),
          [Some(Object(None, true, map[OpId := "op"], [], Spec(None, [], [])))])
  }

  const HEALTHY_FATE := Fate(true, true, None, false, "", "new", [], LbOperation("", "", Unreadable), [], "", None, None)

  /** All that self-healing asks for at the start, but for the failure lying in the past. */
  ghost predicate SoundButForTime(cfg: Config, args: RuleArgs, c: Course) {
    && Latest(c.store.versions).Some? && CloudInv(cfg, c.store.cloud) && VpcOk(c.store.cloud, args)
    && Own(c.store.cloud, Latest(c.store.versions).value.ann, args.name)
  }

  lemma FailedStoreSound(cfg: Config, args: RuleArgs, stamp: Time)
    ensures SoundButForTime(cfg, args, Course(FailedStore(stamp), 0)) && Stalled(FailedStore(stamp), args.name, stamp)
  {
  }

  /** However many on-time passes are made, a failure stamped that far ahead leaves the Service unhealed:
      the four of FourPassesHeal do not do without Timely, and no other number would. */
  lemma NoBoundWithoutTimely(cfg: Config, args: RuleArgs, n: nat)
    ensures exists c: Course, log: seq<Visit> ::
              && SoundButForTime(cfg, args, c) && GoodVisits(cfg, args, c, log) && |log| == n
              && !Healed(Visits(cfg, args, c, log).store, args)
  {
    var st := FailedStore(DueAfter(0, n));
    var c, log := Course(st, 0), OnTimeVisits(0, HEALTHY_FATE, n);
    FailedStoreSound(cfg, args, DueAfter(0, n));
    FutureFailureStalls(cfg, args, c, HEALTHY_FATE, n);
    assert !Healed(Visits(cfg, args, c, log).store, args);
  }
}
