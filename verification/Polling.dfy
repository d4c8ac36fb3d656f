/** Polling an asynchronous operation until it is no longer in progress. */
module Polling {
  import opened Wrappers

  const IN_PROGRESS := "IN_PROGRESS"
  const MAX_BACKOFF: real := 8.0
  const BACKOFF_RATE: real := 1.75
  const JITTER_RANGE := 1000

  /** One answer of the operations API: an error, a body that cannot be closed, a status, an operation. */
  datatype Poll<+Op> = GetError | CloseError | Answer(status: int, op: Op)

  /** How a wait ends. Cut: the script of answers ran out while the operation was in progress,
      that is, the wait is still going on. */
  datatype Wait<+Op> = Settled(op: Op) | Failed | Cut

  function Next(backoff: real): (r: real) {
    if backoff * BACKOFF_RATE > MAX_BACKOFF then MAX_BACKOFF else backoff * BACKOFF_RATE
  }

  /** The backoff before poll n + 1, in seconds. */
  function Backoff(n: nat): (r: real)
    ensures 1.0 <= r <= 8.0
  {
    if n == 0 then 1.0 else Next(Backoff(n - 1))
  }

  /** The seconds slept for after the first n polls, jitter excluded: time.Duration truncates. */
  function WholeSeconds(n: nat): int {
    if n == 0 then 0 else WholeSeconds(n - 1) + Backoff(n - 1).Floor
  }

  function Jitters(jitter: nat -> nat, n: nat): nat {
    if n == 0 then 0 else Jitters(jitter, n - 1) + jitter(n - 1)
  }

  lemma BackoffNeverDecreases(n: nat)
    ensures Backoff(n) <= Backoff(n + 1)
  {
    assert Backoff(n) * BACKOFF_RATE >= Backoff(n);
  }

  lemma {:induction false} WholeSecondsClosed(n: nat)
    requires n >= 4
    ensures WholeSeconds(n) == 8 * n - 22 && Backoff(n) == 8.0
  {
    if n > 4 {
      WholeSecondsClosed(n - 1);
    } else {
      assert Backoff(1) == 1.75 && Backoff(2) == 3.0625 && Backoff(3) == 5.359375 && Backoff(4) == 8.0;
      assert WholeSeconds(2) == 2 && WholeSeconds(3) == 5;
    }
  }

  lemma {:induction false} JittersBound(jitter: nat -> nat, n: nat)
    requires forall i :: jitter(i) < JITTER_RANGE
    ensures n > 0 ==> Jitters(jitter, n) < 1000 * n
    ensures n == 0 ==> Jitters(jitter, n) == 0
  {
    if n > 0 {
      JittersBound(jitter, n - 1);
    }
  }

  /** What a wait ends with after the given answers. */
  function Outcome<Op>(state: Op -> string, op: Op, script: seq<Poll<Op>>): Wait<Op> {
    if state(op) != IN_PROGRESS then Settled(op)
    else if |script| == 0 then Cut
    else if script[0].Answer? && script[0].status == 200 then Outcome(state, script[0].op, script[1..])
    else Failed
  }

  /** Polls until the operation settles. The answers, the jitter and the result are what the API
      and the random source supply; slept is the total time slept, in milliseconds. */
  method WaitForOperation<Op>(state: Op -> string, first: Op, script: seq<Poll<Op>>, jitter: nat -> nat)
    returns (result: Wait<Op>, polls: nat, slept: int)
    requires forall i :: jitter(i) < JITTER_RANGE
    ensures result == Outcome(state, first, script)
    ensures result.Settled? ==> state(result.op) != IN_PROGRESS
    ensures result.Settled? && polls > 0 ==>
              polls <= |script| && script[polls - 1] == Answer(200, result.op)
    ensures slept == 1000 * WholeSeconds(polls) + Jitters(jitter, polls)
    ensures polls >= 4 ==> 1000 * (8 * polls - 22) <= slept < 1000 * (9 * polls - 22)
  {
    var op, backoff := first, 1.0;
    polls, slept := 0, 0;
    while state(op) == IN_PROGRESS
      invariant polls <= |script|
      invariant Outcome(state, op, script[polls..]) == Outcome(state, first, script)
      invariant polls > 0 ==> script[polls - 1] == Answer(200, op)
      invariant backoff == Backoff(polls)
      invariant slept == 1000 * WholeSeconds(polls) + Jitters(jitter, polls)
      decreases |script| - polls
    {
      Total(jitter, polls);
      if polls == |script| {
        return Cut, polls, slept;
      }
      var answer := script[polls];
      if !answer.Answer? || answer.status != 200 {
        return Failed, polls, slept;
      }
      assert script[polls..][1..] == script[polls + 1..];
      op := answer.op;
      slept := slept + 1000 * backoff.Floor + jitter(polls);
      backoff := Next(backoff);
      polls := polls + 1;
    }
    Total(jitter, polls);
    result := Settled(op);
  }

  /** After n >= 4 polls the total sleep lies in [8n - 22, 9n - 22) seconds. */
  lemma Total(jitter: nat -> nat, n: nat)
    requires forall i :: jitter(i) < JITTER_RANGE
    ensures n >= 4 ==> 1000 * (8 * n - 22) <= 1000 * WholeSeconds(n) + Jitters(jitter, n) < 1000 * (9 * n - 22)
  {
    if n >= 4 {
      WholeSecondsClosed(n);
      JittersBound(jitter, n);
    }
  }

  /* ---- The wait, said outright ---- */

  /** The operation as last heard of after n polls. */
  function Heard<Op>(first: Op, script: seq<Poll<Op>>, n: nat): Option<Op>
    requires n <= |script|
  {
    if n == 0 then Some(first) else if script[n - 1].Answer? then Some(script[n - 1].op) else None
  }

  /** n polls were answered with status 200, each of an operation still in progress. */
  ghost predicate Polled<Op>(state: Op -> string, first: Op, script: seq<Poll<Op>>, n: nat) {
    n <= |script| &&
    forall i: nat | i < n ::
      script[i].Answer? && script[i].status == 200 && Heard(first, script, i).Some? &&
      state(Heard(first, script, i).value) == "IN_PROGRESS"
  }

  /** A wait ends with the first operation heard of that is not in progress; it fails on the first poll that is
      not answered, or not with 200, while the operation was. */
  lemma {:induction false} OutcomeExact<Op>(state: Op -> string, first: Op, script: seq<Poll<Op>>) returns (n: nat)
    ensures Polled(state, first, script, n) && Heard(first, script, n).Some?
    ensures var op, r := Heard(first, script, n).value, Outcome(state, first, script);
            if state(op) != "IN_PROGRESS" then r == Settled(op)
            else if n < |script| then r == Failed && !(script[n].Answer? && script[n].status == 200)
            else r == Cut
    decreases |script|
  {
    n := 0;
    if state(first) == IN_PROGRESS && |script| > 0 && script[0].Answer? && script[0].status == 200 {
      var m := OutcomeExact(state, script[0].op, script[1..]);
      n := m + 1;
      assert Heard(first, script, n) == Heard(script[0].op, script[1..], m);
      forall i: nat | i < n
        ensures script[i].Answer? && script[i].status == 200 && Heard(first, script, i).Some?
        ensures state(Heard(first, script, i).value) == "IN_PROGRESS"
      {
        if i > 0 {
          assert script[i] == script[1..][i - 1] && Heard(first, script, i) == Heard(script[0].op, script[1..], i - 1);
        }
      }
    }
  }
}
