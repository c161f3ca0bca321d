/**
 Waiting out a playlist that answers 202: how long, how often, and why it stops.

 What the server answers and whether the session is still live is a script, one entry per poll; times are exact
 milliseconds.
 */
module PlaylistWait {
  import opened Prelude

  const MIN_RETRY_DELAY := 200.0
  const MAX_RETRY_DELAY := 2000.0

  /** The longest `Duration`: 2^64 seconds less a nanosecond. */
  const LONGEST := 18446744073709551616.0 * 1000.0 - 0.000001

  /** Milliseconds. */
  type Duration = x: real | 0.0 <= x

  /** One poll: no answer, or its status, its `Retry-After`, and whether the session lives when it arrives. */
  datatype Answer =
    | Failed
    | Response(status: nat, retryAfter: Option<Float>, live: bool)

  datatype Outcome =
    | RequestFailed
    | Refused(status: nat)
    | Ready
    | SessionEnded(polls: nat)
    | BudgetSpent(polls: nat)
    | StillWaiting

  /** Predicted time minus clock, as the floating-point subtraction can come out. */
  datatype Gap = Ms(value: real) | NotANumber | Infinite(positive: bool)

  /** The `Retry-After` in seconds, if it reads as a number, kept within bounds. */
  function RetryDelay(retryAfter: Option<Float>): (d: Duration)
    ensures 200.0 <= d <= 2000.0
  {
    if retryAfter.None? || retryAfter.value.NotFinite? || retryAfter.value.value < 0.0 then MAX_RETRY_DELAY
    else
      var ms := retryAfter.value.value * 1000.0;
      if ms < MIN_RETRY_DELAY then MIN_RETRY_DELAY else if ms > MAX_RETRY_DELAY then MAX_RETRY_DELAY else ms
  }

  /** The timeout, counted from the prediction if that is still to come; capped at the longest duration. */
  function Budget(timeout: Duration, gap: Gap): Duration {
    var ahead: Duration := match gap
                 case Ms(v) => if v < 0.0 then 0.0 else if v / 1000.0 >= 18446744073709551616.0 then LONGEST else v
                 case NotANumber => 0.0
                 case Infinite(positive) => if positive then LONGEST else 0.0;
    if timeout + ahead > LONGEST then LONGEST else timeout + ahead
  }

  /** The timeout plus what is left of the prediction, in milliseconds; no longer than the longest duration. */
  function Grace(timeout: Duration, gap: Gap): Duration {
    var left := match gap
                case Ms(v) => Max(v, 0.0)
                case NotANumber => 0.0
                case Infinite(positive) => if positive then LONGEST else 0.0;
    Min(timeout + left, LONGEST)
  }

  function Max(a: real, b: real): (r: real)
    ensures r >= a && r >= b && (r == a || r == b)
  {
    if a < b then b else a
  }

  function Min(a: real, b: real): (r: real)
    ensures r <= a && r <= b && (r == a || r == b)
  {
    if a < b then a else b
  }

  lemma BudgetIsGrace(timeout: Duration, gap: Gap)
    ensures Budget(timeout, gap) == Grace(timeout, gap)
  {
  }

  /** The header's seconds, within bounds; a header that is absent or no such number counts as the longest wait. */
  lemma RetryDelayIs(seconds: real)
    ensures seconds < 0.0 ==> RetryDelay(Some(Finite(seconds))) == 2000.0
    ensures 0.0 <= seconds <= 0.2 ==> RetryDelay(Some(Finite(seconds))) == 200.0
    ensures 0.2 <= seconds <= 2.0 ==> RetryDelay(Some(Finite(seconds))) == seconds * 1000.0
    ensures 2.0 <= seconds ==> RetryDelay(Some(Finite(seconds))) == 2000.0
    ensures RetryDelay(None) == 2000.0 && RetryDelay(Some(NotFinite)) == 2000.0
  {
  }

  /** `check_status`: any 2xx carries the playlist. */
  function Judged(status: nat): Outcome {
    if 200 <= status < 300 then Ready else Refused(status)
  }

  predicate KeepsWaiting(a: Answer) {
    a.Response? && a.status == 202 && a.live
  }

  /** What is left of the budget after the sleep that answer `a` asks for. */
  function Nap(left: Option<Duration>, a: Answer): Duration
    requires a.Response?
  {
    var delay := RetryDelay(a.retryAfter);
    if left.Some? && left.value < delay then left.value else delay
  }

  function Left(left: Option<Duration>, a: Answer): Option<Duration>
    requires a.Response?
  {
    if left.None? then None else Some(left.value - Nap(left, a))
  }

  /** The sleeps of a wait, in order. */
  function Sleeps(left: Option<Duration>, answers: seq<Answer>): seq<Duration>
    decreases |answers|
  {
    if answers == [] || !KeepsWaiting(answers[0]) || left == Some(0.0) then []
    else [Nap(left, answers[0])] + Sleeps(Left(left, answers[0]), answers[1..])
  }

  /** What ends it is the answer to the poll after the last sleep. */
  function Ending(answers: seq<Answer>, slept: nat): Outcome {
    if slept >= |answers| then StillWaiting
    else match answers[slept]
      case Failed => RequestFailed
      case Response(status, _, live) =>
        if status != 202 then Judged(status)
        else if live then BudgetSpent(slept + 1)
        else SessionEnded(slept + 1)
  }

  function Total(sleeps: seq<Duration>): Duration {
    if sleeps == [] then 0.0 else sleeps[0] + Total(sleeps[1..])
  }

  /**
   `fetch_playlist`, up to the end of the script. With a timeout the sleeps never add up to more than it plus what is
   left of the prediction, and the wait fails for want of budget exactly when they add up to all of that and the next
   poll is a live 202 again.
   */
  method FetchPlaylist(timeout: Option<Duration>, gap: Gap, answers: seq<Answer>)
    returns (r: Outcome, sleeps: seq<Duration>)
    ensures var left := if timeout.None? then None else Some(Budget(timeout.value, gap));
            sleeps == Sleeps(left, answers) && r == Ending(answers, |sleeps|)
    ensures timeout.Some? ==>
              && Total(sleeps) <= Grace(timeout.value, gap)
              && (r.BudgetSpent? <==>
                  && Total(sleeps) == Grace(timeout.value, gap)
                  && |sleeps| < |answers| && KeepsWaiting(answers[|sleeps|]))
  {
    var remaining := if timeout.None? then None else Some(Budget(timeout.value, gap));
    r, sleeps := PollUntil(remaining, answers);
    if timeout.Some? {
      BudgetIsGrace(timeout.value, gap);
      SleepsWithinBudget(Budget(timeout.value, gap), answers);
    }
  }

  /** Its loop, on the budget it starts with. */
  method PollUntil(budget: Option<Duration>, answers: seq<Answer>) returns (r: Outcome, sleeps: seq<Duration>)
    ensures sleeps == Sleeps(budget, answers) && r == Ending(answers, |sleeps|)
  {
    var remaining := budget;
    var polls := 0;
    sleeps := [];
    while |sleeps| < |answers|
      invariant polls == |sleeps| <= |answers|
      invariant Sleeps(budget, answers) == sleeps + Sleeps(remaining, answers[polls..])
      decreases |answers| - |sleeps|
    {
      var answer := answers[polls];
      if answer.Failed? { return RequestFailed, sleeps; }
      if answer.status != 202 {
        return (if 200 <= answer.status < 300 then Ready else Refused(answer.status)), sleeps;
      }
      polls := polls + 1;
      if !answer.live { return SessionEnded(polls), sleeps; }
      var delay := RetryDelay(answer.retryAfter);
      match remaining {
        case None =>
        case Some(left) =>
          if left == 0.0 { return BudgetSpent(polls), sleeps; }
          delay := if left < delay then left else delay;
          remaining := Some(left - delay);
      }
      sleeps := sleeps + [delay];
    }
    r := StillWaiting;
  }

  // ----- what a caller can count on -----

  /**
   With a budget, the sleeps never add up to more than it; and the wait fails for want of budget exactly when they
   add up to all of it and the next poll is a live 202 again.
   */
  lemma {:induction false} SleepsWithinBudget(budget: Duration, answers: seq<Answer>)
    ensures var sleeps := Sleeps(Some(budget), answers);
            && Total(sleeps) <= budget
            && (Ending(answers, |sleeps|).BudgetSpent? <==>
                Total(sleeps) == budget && |sleeps| < |answers| && KeepsWaiting(answers[|sleeps|]))
    decreases |answers|
  {
    var sleeps := Sleeps(Some(budget), answers);
    if sleeps != [] {
      var left := Left(Some(budget), answers[0]);
      SleepsWithinBudget(left.value, answers[1..]);
      assert sleeps[1..] == Sleeps(left, answers[1..]);
    }
  }

  /** Every sleep but the last is what the server asked for, between 200 ms and 2 s; the last may be cut short. */
  lemma {:induction false} SleepsAsAsked(left: Option<Duration>, answers: seq<Answer>)
    ensures var sleeps := Sleeps(left, answers);
            && |sleeps| <= |answers|
            && (forall i :: 0 <= i < |sleeps| ==> KeepsWaiting(answers[i]) && 0.0 < sleeps[i] <= 2000.0)
            && (forall i :: 0 <= i < |sleeps| && (left.None? || i < |sleeps| - 1) ==>
                  sleeps[i] == RetryDelay(answers[i].retryAfter) && 200.0 <= sleeps[i])
    decreases |answers|
  {
    var sleeps := Sleeps(left, answers);
    if sleeps != [] {
      var next := Left(left, answers[0]);
      SleepsAsAsked(next, answers[1..]);
      var rest := Sleeps(next, answers[1..]);
      assert forall i :: 1 <= i < |sleeps| ==> sleeps[i] == rest[i - 1] && answers[i] == answers[1..][i - 1];
      if rest != [] {
        assert next != Some(0.0);
      }
    }
  }

  function Ceiling(x: real): int {
    -((-x).Floor)
  }

  lemma {:induction false} LongSleepsAddUp(sleeps: seq<Duration>)
    requires sleeps != [] && sleeps[|sleeps| - 1] > 0.0
    requires forall i :: 0 <= i < |sleeps| - 1 ==> 200.0 <= sleeps[i]
    ensures 200.0 * (|sleeps| - 1) as real < Total(sleeps)
    decreases |sleeps|
  {
    if |sleeps| > 1 {
      LongSleepsAddUp(sleeps[1..]);
    }
  }

  /**
   So the server is polled at most `ceil(budget / 200 ms) + 1` times, whatever it answers, and a script longer than
   that is never used up.
   */
  lemma PollsBounded(budget: Duration, answers: seq<Answer>)
    ensures var sleeps := Sleeps(Some(budget), answers);
            && |sleeps| <= Ceiling(budget / 200.0)
            && (|answers| > Ceiling(budget / 200.0) ==> !Ending(answers, |sleeps|).StillWaiting?)
  {
    var sleeps := Sleeps(Some(budget), answers);
    SleepsWithinBudget(budget, answers);
    SleepsAsAsked(Some(budget), answers);
    if sleeps != [] {
      LongSleepsAddUp(sleeps);
      assert (|sleeps| - 1) as real < budget / 200.0;
    }
  }

  /** Without a timeout nothing but the server's answer or the end of the session stops the wait. */
  lemma {:induction false} UnboundedWaits(answers: seq<Answer>, n: nat)
    requires n <= |answers| && forall i :: 0 <= i < n ==> KeepsWaiting(answers[i])
    requires n < |answers| ==> !KeepsWaiting(answers[n])
    ensures |Sleeps(None, answers)| == n
    ensures !Ending(answers, n).BudgetSpent?
    decreases |answers|
  {
    if n > 0 {
      UnboundedWaits(answers[1..], n - 1);
    }
  }

  /** A dead session ends any wait at the poll that finds it dead: the sleeps are those before it. */
  lemma DeadSessionEndsWait(left: Option<Duration>, answers: seq<Answer>, k: nat)
    requires k < |answers| && answers[k].Response? && answers[k].status == 202 && !answers[k].live
    ensures |Sleeps(left, answers)| <= k
    ensures |Sleeps(left, answers)| == k ==> Ending(answers, k) == SessionEnded(k + 1)
  {
    SleepsAsAsked(left, answers);
    assert !KeepsWaiting(answers[k]);
  }

  /** What ended the wait: the playlist on a 2xx that is not a 202, a refusal on any other status, no answer at all. */
  lemma EndsAsAnswered(left: Option<Duration>, answers: seq<Answer>)
    ensures var n := |Sleeps(left, answers)|;
            var end := Ending(answers, n);
            && (end.Ready? <==>
                n < |answers| && answers[n].Response? && 200 <= answers[n].status < 300 && answers[n].status != 202)
            && (forall s :: end == Refused(s) <==>
                n < |answers| && answers[n].Response? && answers[n].status == s && !(200 <= s < 300))
            && (end.RequestFailed? <==> n < |answers| && answers[n].Failed?)
            && (end.SessionEnded? <==>
                n < |answers| && answers[n].Response? && answers[n].status == 202 && !answers[n].live)
            && (end.StillWaiting? <==> n == |answers|)
  {
    SleepsAsAsked(left, answers);
  }

  /** A server that never gets ready is slept on for exactly the timeout plus the remaining prediction. */
  lemma LiveServerSpendsAll(timeout: Duration, gap: Gap, answers: seq<Answer>)
    requires forall i :: 0 <= i < |answers| ==> KeepsWaiting(answers[i])
    requires |answers| > Ceiling(Grace(timeout, gap) / 200.0)
    ensures var sleeps := Sleeps(Some(Budget(timeout, gap)), answers);
            Total(sleeps) == Grace(timeout, gap) && Ending(answers, |sleeps|) == BudgetSpent(|sleeps| + 1)
  {
    BudgetIsGrace(timeout, gap);
    PollsBounded(Budget(timeout, gap), answers);
    SleepsWithinBudget(Budget(timeout, gap), answers);
  }
}
