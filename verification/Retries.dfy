/** Capped exponential backoff of a dispatch: handleA2ANetworkFailure in manager/internal/app/a2a_reconciler.go. */
module Retries {
  import opened Wrappers
  import opened Domain

  const SECOND: Time := 1_000_000_000
  const GRACE: Time := 60 * SECOND

  /** A2ADispatchIntentsDue for an intent nobody is sending. */
  predicate Due(intent: Intent, now: Time) {
    intent.status.PENDING? && intent.availableAt <= now
  }

  /** time.Second << min(attempt - 1, 5). */
  function Delay(attempt: nat): Time {
    if attempt <= 1 then SECOND
    else if attempt == 2 then 2 * SECOND
    else if attempt == 3 then 4 * SECOND
    else if attempt == 4 then 8 * SECOND
    else if attempt == 5 then 16 * SECOND
    else 32 * SECOND
  }

  function Earlier(a: Time, b: Time): Time {
    if a <= b then a else b
  }

  /** Give up (failA2ARoundWithIntent), retry later (CommitA2ADispatchResult), or only note the failure
      (UpdateA2ARound). */
  datatype Verdict = GiveUp | RetryLater(round: Round, intent: Intent) | Note(round: Round)

  function OnNetworkFailure(round: Round, intent: Option<Intent>, acknowledged: bool, now: Time): Result<Verdict> {
    var marked := round.MarkUnreachable(now);
    var since := marked.unreachableSince.value;
    if now - since >= GRACE then Ok(GiveUp)
    else if acknowledged || intent.None? then Ok(Note(marked))
    else
      var deadline := intent.value.createdAt + GRACE;
      if now >= deadline then Ok(GiveUp) else
        var availableAt := Earlier(Earlier(now + Delay(intent.value.attemptCount), deadline), since + GRACE);
        var later :- intent.value.ScheduleRetry("WORKER_UNREACHABLE", "Worker A2A endpoint is temporarily unreachable.",
                                                availableAt, now);
        Ok(RetryLater(marked, later))
  }

  datatype Attempt = Attempt(claimedAt: Time, failedAt: Time)

  /** A claim followed by a recorded network failure. */
  function Try(round: Round, intent: Intent, a: Attempt): Result<Verdict> {
    var claimed :- intent.StartAttempt(a.claimedAt);
    OnNetworkFailure(round, Some(claimed), false, a.failedAt)
  }

  /** The reconciler claims the intent when it is due, every attempt fails on the network, the clock is monotone. */
  predicate Schedule(round: Round, intent: Intent, clock: Time, attempts: seq<Attempt>)
    decreases |attempts|
  {
    if attempts == [] then true else
      var a := attempts[0];
      && clock <= a.claimedAt <= a.failedAt && Due(intent, a.claimedAt)
      && Try(round, intent, a).Ok?
      && match Try(round, intent, a).value
         case RetryLater(r, i) => Schedule(r, i, a.failedAt, attempts[1..])
         case _ => |attempts| == 1
  }

  /** A retry is strictly in the future and never past the confirmation deadline. */
  lemma RetryIsAhead(round: Round, intent: Intent, acknowledged: bool, now: Time)
    requires OnNetworkFailure(round, Some(intent), acknowledged, now).Ok?
    requires OnNetworkFailure(round, Some(intent), acknowledged, now).value.RetryLater?
    ensures var later := OnNetworkFailure(round, Some(intent), acknowledged, now).value.intent;
            now < later.availableAt <= intent.createdAt + GRACE && later.status.PENDING?
  {
  }

  /** The earliest moment, after created, at which attempt k + 1 can be claimed. */
  function Horizon(k: nat): Time {
    if k == 0 then 0
    else if k == 1 then SECOND
    else if k == 2 then 3 * SECOND
    else if k == 3 then 7 * SECOND
    else if k == 4 then 15 * SECOND
    else if k == 5 then 31 * SECOND
    else GRACE
  }

  predicate OnTime(round: Round, intent: Intent) {
    && intent.status.PENDING? && intent.availableAt >= intent.createdAt + Horizon(intent.attemptCount)
    && (round.unreachableSince.Some? ==> round.unreachableSince.value >= intent.createdAt)
  }

  lemma TryStaysOnTime(round: Round, intent: Intent, a: Attempt)
    requires OnTime(round, intent) && a.claimedAt <= a.failedAt && Due(intent, a.claimedAt)
    ensures Try(round, intent, a).Ok?
    ensures intent.attemptCount >= 6 ==> Try(round, intent, a).value.GiveUp?
    ensures match Try(round, intent, a).value
            case GiveUp => true
            case RetryLater(r, i) =>
              && OnTime(r, i) && i.attemptCount == intent.attemptCount + 1 && i.createdAt == intent.createdAt
              && a.failedAt < i.availableAt <= intent.createdAt + GRACE
            case Note(_) => false
  {
  }

  lemma {:induction false} AttemptsLeft(round: Round, intent: Intent, clock: Time, attempts: seq<Attempt>)
    requires OnTime(round, intent) && intent.attemptCount <= 6 && Schedule(round, intent, clock, attempts)
    ensures |attempts| <= 7 - intent.attemptCount
    decreases |attempts|
  {
    if attempts != [] {
      var a := attempts[0];
      TryStaysOnTime(round, intent, a);
      match Try(round, intent, a).value
      case RetryLater(r, i) => AttemptsLeft(r, i, a.failedAt, attempts[1..]);
      case _ =>
    }
  }

  /** A dispatch that always fails on the network is claimed at most seven times: no schedule has an
      eighth claim, because the seventh failure at the latest gives up. */
  lemma BoundedRetries(round: Round, operation: Operation, commandID: ID, now: Time, attempts: seq<Attempt>)
    requires round.unreachableSince.None? && NewIntent(round, operation, commandID, now).Ok?
    requires Schedule(round, NewIntent(round, operation, commandID, now).value, now, attempts)
    ensures |attempts| <= 7
  {
    AttemptsLeft(round, NewIntent(round, operation, commandID, now).value, now, attempts);
  }

  function At(seconds: int): Attempt {
    Attempt(seconds * SECOND, seconds * SECOND)
  }

  /** Seven is reached: claims after 0, 1, 3, 7, 15, 31 and 60 seconds. */
  lemma SevenAttemptsHappen(round: Round, intent: Intent)
    requires round.unreachableSince.None? && intent.status.PENDING? && intent.attemptCount == 0
    requires intent.createdAt == intent.availableAt == 0
    ensures Schedule(round, intent, 0, [At(0), At(1), At(3), At(7), At(15), At(31), At(60)])
  {
    var a1 := [At(60)];
    var a2 := [At(31)] + a1;
    var a3 := [At(15)] + a2;
    var a4 := [At(7)] + a3;
    var a5 := [At(3)] + a4;
    var a6 := [At(1)] + a5;
    var r1, i1 := StepTo(round, intent, 0, 1, a6);
    var r2, i2 := StepTo(r1, i1, 1, 3, a5);
    var r3, i3 := StepTo(r2, i2, 3, 7, a4);
    var r4, i4 := StepTo(r3, i3, 7, 15, a3);
    var r5, i5 := StepTo(r4, i4, 15, 31, a2);
    var r6, i6 := StepTo(r5, i5, 31, 60, a1);
    LastStep(r6, i6);
    assert [At(0)] + a6 == [At(0), At(1), At(3), At(7), At(15), At(31), At(60)];
  }

  lemma LastStep(round: Round, intent: Intent)
    requires round.unreachableSince == Some(0)
    requires intent.status.PENDING? && intent.createdAt == 0 && intent.availableAt == GRACE
    ensures Schedule(round, intent, 31 * SECOND, [At(60)])
  {
  }

  /** One failure at s seconds moves the intent to the next due time t. */
  lemma StepTo(round: Round, intent: Intent, s: int, t: int, rest: seq<Attempt>) returns (r: Round, i: Intent)
    requires 0 <= s < 60 && intent.status.PENDING? && intent.createdAt == 0 && intent.availableAt == s * SECOND
    requires round.unreachableSince in {None, Some(0)} && (round.unreachableSince.None? ==> s == 0)
    requires t * SECOND == Earlier(s * SECOND + Delay(intent.attemptCount + 1), GRACE)
    ensures i.status.PENDING? && i.createdAt == 0 && i.availableAt == t * SECOND
            && i.attemptCount == intent.attemptCount + 1
    ensures r.unreachableSince == Some(0)
    ensures forall clock :: clock <= s * SECOND && Schedule(r, i, s * SECOND, rest) ==>
                              Schedule(round, intent, clock, [At(s)] + rest)
  {
    var verdict := Try(round, intent, At(s)).value;
    r, i := verdict.round, verdict.intent;
    assert ([At(s)] + rest)[1..] == rest;
  }
}
