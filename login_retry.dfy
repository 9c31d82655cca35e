/** The retry counter of `login` (app.py:172-286) as a function of how each
    login attempt and each browser relaunch turned out. */
module LoginRetry {

  /** `max_retries` of app.py:177. */
  const MaxRetries: nat := 3

  /** How one pass through the body of the login loop ended: the logout
      button appeared within the 3-second wait of app.py:209 (`Accepted`);
      that wait timed out (`NoLogoutButton`: a misread captcha or a wrong
      password), the only failure the inner `except TimeoutException`
      catches; or any other exception of the loop body reached the outer
      handler (`Crashed`): a failed page load, a 10-second wait of the
      typing, click or screenshot helpers (app.py:114-131) that timed out,
      or the logout wait raising something other than a timeout. The OCR
      step never raises: it answers `""` on failure (utilities.py:144-146). */
  datatype Attempt = Accepted | NoLogoutButton | Crashed

  /** How a call of `login` ended: handed over to the enrollment loop, exited
      the process at the maximum, or let a relaunch failure escape. */
  datatype LoginEnd = Authenticated | Exhausted | LaunchRaised

  /** The end of a call of `login`: how it ended, the final value of its
      counter, and the indices of the next unused attempt and relaunch. */
  datatype LoginRun = LoginRun(end: LoginEnd, retries: nat, attempt: nat, launch: nat)

  /** What `login` does from counter value `retry` on, when attempt number
      `k` and relaunch number `d` come next (app.py:180-251). */
  function LoginFrom(attempt: nat -> Attempt, launch: nat -> bool, retry: nat, k: nat, d: nat): (r: LoginRun)
    decreases MaxRetries - retry, 1
  {
    if retry >= MaxRetries then LoginRun(Exhausted, retry, k, d)
    else
      match attempt(k)
      case Accepted => LoginRun(Authenticated, retry, k + 1, d)
      case Crashed => OuterHandler(attempt, launch, retry, k + 1, d)
      case NoLogoutButton =>
        if retry + 1 < MaxRetries then
          if launch(d) then LoginFrom(attempt, launch, retry + 1, k + 1, d + 1)
          // The relaunch in the timeout handler is not guarded: its failure
          // reaches the outer handler, which counts once more.
          else OuterHandler(attempt, launch, retry + 1, k + 1, d + 1)
        else LoginRun(Exhausted, retry + 1, k + 1, d)
  }

  /** The `except Exception` handler of app.py:253-286, entered with counter
      value `retry`: it counts, then relaunches while below the maximum (a
      failure of that relaunch escapes `login`) or exits. */
  function OuterHandler(attempt: nat -> Attempt, launch: nat -> bool, retry: nat, k: nat, d: nat): (r: LoginRun)
    requires retry < MaxRetries
    decreases MaxRetries - retry, 0
  {
    if retry + 1 < MaxRetries then
      if launch(d) then LoginFrom(attempt, launch, retry + 1, k, d + 1)
      else LoginRun(LaunchRaised, retry + 1, k, d + 1)
    else LoginRun(Exhausted, retry + 1, k, d)
  }

  /** A call of `login` makes at least one and at most three attempts and at
      most two relaunches; its counter ends between its start and the
      maximum, and it reaches the maximum exactly when it exits; every
      attempt but an accepted last one was counted. */
  lemma {:induction false} LoginBounds(attempt: nat -> Attempt, launch: nat -> bool, retry: nat, k: nat, d: nat)
    requires retry < MaxRetries
    ensures var r := LoginFrom(attempt, launch, retry, k, d);
            && k < r.attempt <= k + MaxRetries - retry
            && d <= r.launch < d + MaxRetries - retry
            && retry <= r.retries <= MaxRetries
            && r.attempt - k <= r.retries - retry + (if r.end == Authenticated then 1 else 0)
            && (r.end == Exhausted <==> r.retries == MaxRetries)
    decreases MaxRetries - retry, 1
  {
    match attempt(k)
    case Accepted =>
    case Crashed =>
      HandlerBounds(attempt, launch, retry, k + 1, d);
    case NoLogoutButton =>
      if retry + 1 < MaxRetries {
        if launch(d) {
          LoginBounds(attempt, launch, retry + 1, k + 1, d + 1);
        } else {
          HandlerBounds(attempt, launch, retry + 1, k + 1, d + 1);
        }
      }
  }

  /** The counterpart of `LoginBounds` for the outer handler, which counts
      before anything else. */
  lemma {:induction false} HandlerBounds(attempt: nat -> Attempt, launch: nat -> bool, retry: nat, k: nat, d: nat)
    requires retry < MaxRetries
    ensures var r := OuterHandler(attempt, launch, retry, k, d);
            && k <= r.attempt <= k + MaxRetries - retry - 1
            && d <= r.launch < d + MaxRetries - retry
            && retry < r.retries <= MaxRetries
            && r.attempt - k <= r.retries - retry - 1 + (if r.end == Authenticated then 1 else 0)
            && (r.end == Exhausted <==> r.retries == MaxRetries)
    decreases MaxRetries - retry, 0
  {
    if retry + 1 < MaxRetries && launch(d) {
      LoginBounds(attempt, launch, retry + 1, k, d + 1);
    }
  }

  /** `LoginFrom` once the counter is at the maximum. */
  lemma ExhaustedStep(attempt: nat -> Attempt, launch: nat -> bool, retry: nat, k: nat, d: nat)
    requires MaxRetries <= retry
    ensures LoginFrom(attempt, launch, retry, k, d) == LoginRun(Exhausted, retry, k, d)
  {
  }

  /** One step of `LoginFrom` after an accepted attempt. */
  lemma AcceptedStep(attempt: nat -> Attempt, launch: nat -> bool, retry: nat, k: nat, d: nat)
    requires retry < MaxRetries && attempt(k) == Accepted
    ensures LoginFrom(attempt, launch, retry, k, d) == LoginRun(Authenticated, retry, k + 1, d)
  {
  }

  /** One step of `LoginFrom` after an attempt that raised. */
  lemma CrashedStep(attempt: nat -> Attempt, launch: nat -> bool, retry: nat, k: nat, d: nat)
    requires retry < MaxRetries && attempt(k) == Crashed
    ensures LoginFrom(attempt, launch, retry, k, d) == OuterHandler(attempt, launch, retry, k + 1, d)
  {
  }

  /** One step of `LoginFrom` after a timed-out attempt: at the maximum it
      exits, below it the run goes on by whether the relaunch worked. */
  lemma TimeoutStep(attempt: nat -> Attempt, launch: nat -> bool, retry: nat, k: nat, d: nat)
    requires retry < MaxRetries && attempt(k) == NoLogoutButton
    ensures retry + 1 == MaxRetries ==> LoginFrom(attempt, launch, retry, k, d) == LoginRun(Exhausted, MaxRetries, k + 1, d)
    ensures retry + 1 < MaxRetries && launch(d) ==>
              LoginFrom(attempt, launch, retry, k, d) == LoginFrom(attempt, launch, retry + 1, k + 1, d + 1)
    ensures retry + 1 < MaxRetries && !launch(d) ==>
              LoginFrom(attempt, launch, retry, k, d) == OuterHandler(attempt, launch, retry + 1, k + 1, d + 1)
  {
  }

  /** `login` hands over to the enrollment loop exactly when its last attempt
      was accepted, and no earlier attempt of the call was. */
  lemma {:induction false} AuthenticatedOnAccepted(attempt: nat -> Attempt, launch: nat -> bool, retry: nat, k: nat, d: nat)
    requires retry < MaxRetries
    ensures var r := LoginFrom(attempt, launch, retry, k, d);
            && k < r.attempt
            && (r.end == Authenticated <==> attempt(r.attempt - 1) == Accepted)
            && (forall j :: k <= j < r.attempt - 1 ==> attempt(j) != Accepted)
    decreases MaxRetries - retry, 1
  {
    match attempt(k)
    case Accepted =>
    case Crashed =>
      HandlerOnAccepted(attempt, launch, retry, k + 1, d);
    case NoLogoutButton =>
      if retry + 1 < MaxRetries {
        if launch(d) {
          RelaunchedOnAccepted(attempt, launch, retry, k, d);
        } else {
          RelaunchFailedOnAccepted(attempt, launch, retry, k, d);
        }
      }
  }

  /** The step of `AuthenticatedOnAccepted` for a timed-out attempt followed
      by a relaunch that works. */
  lemma {:induction false} RelaunchedOnAccepted(attempt: nat -> Attempt, launch: nat -> bool, retry: nat, k: nat, d: nat)
    requires retry + 1 < MaxRetries && attempt(k) == NoLogoutButton && launch(d)
    ensures var r := LoginFrom(attempt, launch, retry, k, d);
            && k < r.attempt
            && (r.end == Authenticated <==> attempt(r.attempt - 1) == Accepted)
            && (forall j :: k <= j < r.attempt - 1 ==> attempt(j) != Accepted)
    decreases MaxRetries - retry, 0
  {
    AuthenticatedOnAccepted(attempt, launch, retry + 1, k + 1, d + 1);
  }

  /** The step of `AuthenticatedOnAccepted` for a timed-out attempt followed
      by a relaunch that raises. */
  lemma {:induction false} RelaunchFailedOnAccepted(attempt: nat -> Attempt, launch: nat -> bool, retry: nat, k: nat, d: nat)
    requires retry + 1 < MaxRetries && attempt(k) == NoLogoutButton && !launch(d)
    ensures var r := LoginFrom(attempt, launch, retry, k, d);
            && k < r.attempt
            && (r.end == Authenticated <==> attempt(r.attempt - 1) == Accepted)
            && (forall j :: k <= j < r.attempt - 1 ==> attempt(j) != Accepted)
    decreases MaxRetries - retry, 0
  {
    HandlerOnAccepted(attempt, launch, retry + 1, k + 1, d + 1);
  }

  /** The counterpart of `AuthenticatedOnAccepted` for the outer handler,
      which itself makes no attempt before it relaunches. */
  lemma {:induction false} HandlerOnAccepted(attempt: nat -> Attempt, launch: nat -> bool, retry: nat, k: nat, d: nat)
    requires retry < MaxRetries
    ensures var r := OuterHandler(attempt, launch, retry, k, d);
            && (r.attempt == k ==> r.end != Authenticated)
            && (k < r.attempt ==> (r.end == Authenticated <==> attempt(r.attempt - 1) == Accepted))
            && (forall j :: k <= j < r.attempt - 1 ==> attempt(j) != Accepted)
    decreases MaxRetries - retry, 0
  {
    if retry + 1 < MaxRetries && launch(d) {
      AuthenticatedOnAccepted(attempt, launch, retry + 1, k, d + 1);
    }
  }

  /** While every relaunch succeeds, the counter rises by exactly one per
      failed attempt, whether it timed out or raised, and no relaunch
      failure ends the call. */
  lemma {:induction false} OnePerFailure(attempt: nat -> Attempt, launch: nat -> bool, retry: nat, k: nat, d: nat)
    requires retry <= MaxRetries
    requires forall j :: d <= j ==> launch(j)
    ensures var r := LoginFrom(attempt, launch, retry, k, d);
            && r.end != LaunchRaised
            && r.retries - retry == r.attempt - k - (if r.end == Authenticated then 1 else 0)
    decreases MaxRetries - retry, 1
  {
    if retry < MaxRetries {
      match attempt(k)
      case Accepted =>
      case Crashed =>
        HandlerOnePerFailure(attempt, launch, retry, k + 1, d);
      case NoLogoutButton =>
        if retry + 1 < MaxRetries {
          OnePerFailure(attempt, launch, retry + 1, k + 1, d + 1);
        }
    }
  }

  /** The counterpart of `OnePerFailure` for the outer handler, which counts
      the failure that led to it. */
  lemma {:induction false} HandlerOnePerFailure(attempt: nat -> Attempt, launch: nat -> bool, retry: nat, k: nat, d: nat)
    requires retry < MaxRetries
    requires forall j :: d <= j ==> launch(j)
    ensures var r := OuterHandler(attempt, launch, retry, k, d);
            && r.end != LaunchRaised
            && r.retries - retry == r.attempt - k + 1 - (if r.end == Authenticated then 1 else 0)
    decreases MaxRetries - retry, 0
  {
    if retry + 1 < MaxRetries {
      OnePerFailure(attempt, launch, retry + 1, k, d + 1);
    }
  }

  /** Three failed attempts in a row, with both relaunches working, exit the
      process: three attempts and two relaunches, never a fourth attempt. */
  lemma ThreeStrikes(attempt: nat -> Attempt, launch: nat -> bool, k: nat, d: nat)
    requires attempt(k) != Accepted && attempt(k + 1) != Accepted && attempt(k + 2) != Accepted
    requires launch(d) && launch(d + 1)
    ensures LoginFrom(attempt, launch, 0, k, d) == LoginRun(Exhausted, MaxRetries, k + 3, d + 2)
  {
    var third := LoginFrom(attempt, launch, 2, k + 2, d + 2);
    assert third == LoginRun(Exhausted, MaxRetries, k + 3, d + 2);
    var second := LoginFrom(attempt, launch, 1, k + 1, d + 1);
    assert second == third;
  }

  /** A relaunch that fails after a timed-out attempt is counted a second
      time by the outer handler: a second timeout then exits the process
      after only two attempts. */
  lemma FailedRelaunchCountsTwice(attempt: nat -> Attempt, launch: nat -> bool, k: nat, d: nat)
    requires attempt(k) == NoLogoutButton && attempt(k + 1) == NoLogoutButton
    requires !launch(d) && launch(d + 1)
    ensures LoginFrom(attempt, launch, 0, k, d) == LoginRun(Exhausted, MaxRetries, k + 2, d + 2)
  {
    assert OuterHandler(attempt, launch, 1, k + 1, d + 1) == LoginFrom(attempt, launch, 2, k + 1, d + 2);
  }
}
