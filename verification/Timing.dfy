/** Durations in nanoseconds, the create cooldown and the choice of the next requeue. */
module Timing {
  import opened Wrappers

  const SECOND := 1_000_000_000
  const IN_FLIGHT_HOLD_LIMIT := 300 * SECOND
  const CREATE_RETRY_DELAY := 120 * SECOND
  const RULE_REQUEUE := 10 * SECOND
  const STALE_CACHE_REQUEUE := SECOND
  const INGRESS_REQUEUE := 10 * SECOND
  const UPDATE_REQUEUE := 10 * SECOND

  function Clamp(wait: int): (r: int)
    ensures 0 <= r <= CREATE_RETRY_DELAY
  {
    if wait < 0 then 0 else if wait > CREATE_RETRY_DELAY then CREATE_RETRY_DELAY else wait
  }

  /** What is left of the cooldown after a failure at the first readable of the two timestamps;
      zero without one. */
  function RetryWait(completedAt: Option<int>, startedAt: Option<int>, now: int): int {
    if completedAt.Some? then Clamp(completedAt.value + CREATE_RETRY_DELAY - now)
    else if startedAt.Some? then Clamp(startedAt.value + CREATE_RETRY_DELAY - now)
    else 0
  }

  /** timestamps are the operation's completion and start times, None where unreadable. */
  method FirewallRuleRetryWait(timestamps: seq<Option<int>>, now: int) returns (wait: int)
    requires |timestamps| == 2
    ensures wait == RetryWait(timestamps[0], timestamps[1], now)
    ensures 0 <= wait <= CREATE_RETRY_DELAY
  {
    for i := 0 to |timestamps|
      invariant forall j | 0 <= j < i :: timestamps[j].None?
    {
      if timestamps[i].None? {
        continue;
      }
      return Clamp(timestamps[i].value + CREATE_RETRY_DELAY - now);
    }
    wait := 0;
  }

  /** The least positive delay; zero exactly when none is positive. */
  method EarliestRequeue(delays: seq<int>) returns (earliest: int)
    ensures earliest >= 0
    ensures earliest == 0 <==> forall d | d in delays :: d <= 0
    ensures earliest > 0 ==> earliest in delays && forall d | d in delays && d > 0 :: earliest <= d
  {
    earliest := 0;
    for i := 0 to |delays|
      invariant earliest >= 0
      invariant earliest == 0 ==> forall d | d in delays[..i] :: d <= 0
      invariant earliest > 0 ==> earliest in delays[..i] && forall d | d in delays[..i] && d > 0 :: earliest <= d
    {
      assert delays[..i + 1] == delays[..i] + [delays[i]];
      if delays[i] > 0 && (earliest == 0 || delays[i] < earliest) {
        earliest := delays[i];
      }
    }
    assert delays[..|delays|] == delays;
  }
}
