/** The process of app.py as one supervisory loop: `login` (app.py:172-286)
    and `auto_class` (app.py:289-392) call each other, and this model flattens
    that recursion into one loop that logs in, runs enrollment rounds, and
    logs in again after a round could not start. Every browser call is an
    oracle outcome taken from a `Browser`. */
module App {
  import Utilities
  import opened Enrollment
  import opened LoginRetry
  import opened Popup

  /** What the browser does, indexed by how many times it was asked:
      the outcome of login attempt `k`, whether browser creation `d`
      succeeded, what the survey dialog after attempt `k` offers, whether the
      tab click that starts round `r` worked, and what course `i` of round `r`
      showed. */
  datatype Browser = Browser(
    attempt: nat -> Attempt,
    launch: nat -> bool,
    popup: nat -> string -> ClickOutcome,
    tabOpens: nat -> bool,
    probe: nat -> nat -> Probe)

  /** The ways the process ends before every course is enrolled. */
  datatype Exit =
    | LoginsExhausted      // `login` reached its maximum (app.py:247-251, 279-286)
    | LoginLaunchFailed    // the first `login` let the relaunch failure of its outer
                           // handler escape (app.py:268-277); the main block catches
                           // it and ends the process (app.py:406-412)
    | RestartFailed        // the relaunch after a critical error raised, or the
                           // recovery `login()` let a relaunch failure escape: the
                           // handler of app.py:379-387 catches both and exits

  /** How the process ended: every pending course enrolled, a fatal exit,
      or the model's round budget ran out (the program itself polls on). */
  datatype Verdict = AllEnrolled | Fatal(exit: Exit) | OutOfRounds

  /** Round `r` as the browser showed it, from the pending list `start` it
      began with: when its tab click worked, the events visit all of `start`
      in order, each ending as `Classify` says of what course `i` showed;
      when the click failed, no course was handled. */
  predicate RoundAsShown(b: Browser, r: nat, start: seq<string>, events: seq<Event<string>>)
  {
    if b.tabOpens(r) then
      Visits(start, events) && |events| == |start| &&
      forall i :: 0 <= i < |events| ==> Decided(b.probe(r), events, i)
    else events == []
  }

  /** Every round of `log`, the first one being round `first`, is what the
      browser showed, from the list `starts` says it began with. */
  predicate RoundsAsShown(b: Browser, first: nat, starts: seq<seq<string>>, log: seq<seq<Event<string>>>)
  {
    |log| < |starts| && forall j :: 0 <= j < |log| ==> ShownAt(b, first, starts, log, j)
  }

  /** Round `j` of `log` is round `first + j` as the browser showed it. */
  predicate ShownAt(b: Browser, first: nat, starts: seq<seq<string>>, log: seq<seq<Event<string>>>, j: nat)
    requires j < |log| < |starts|
  {
    RoundAsShown(b, first + j, starts[j], log[j])
  }

  /** One more round as the browser showed it. */
  lemma ExtendShown(b: Browser, first: nat, starts: seq<seq<string>>, log: seq<seq<Event<string>>>,
                    events: seq<Event<string>>, next: seq<string>)
    requires RoundsAsShown(b, first, starts, log) && |starts| == |log| + 1
    requires RoundAsShown(b, first + |log|, starts[|log|], events)
    ensures RoundsAsShown(b, first, starts + [next], log + [events])
  {
    var starts', log' := starts + [next], log + [events];
    forall j | 0 <= j < |log'|
      ensures ShownAt(b, first, starts', log', j)
    {
      if j < |log| {
        assert ShownAt(b, first, starts, log, j);
      }
    }
  }

  /** The rounds of `log`, the first being round `first`, as the browser
      showed them: the first began with the list `initial`, each began with
      the list the one before left, the last left `current`, and `enrolled`
      is exactly the ids they enrolled, in order. */
  ghost predicate History(b: Browser, first: nat, initial: seq<string>, starts: seq<seq<string>>,
                          log: seq<seq<Event<string>>>, current: seq<string>, enrolled: seq<string>)
  {
    Chained(starts, log) && starts[0] == initial && starts[|log|] == current &&
    RoundsAsShown(b, first, starts, log) && enrolled == LogEnrolled(log)
  }

  /** One more round as the browser showed it, begun with the list the last
      one left. */
  lemma ExtendHistory(b: Browser, first: nat, initial: seq<string>, starts: seq<seq<string>>,
                      log: seq<seq<Event<string>>>, current: seq<string>, enrolled: seq<string>,
                      r: nat, events: seq<Event<string>>)
    requires History(b, first, initial, starts, log, current, enrolled)
    requires r == first + |log| && RoundAsShown(b, r, current, events)
    ensures var next := ApplyRound(current, events);
            History(b, first, initial, starts + [next], log + [events], next, enrolled + EnrolledIds(events))
  {
    var next := ApplyRound(current, events);
    assert Visits(current, events);
    ExtendLog(starts, log, events, next);
    ExtendShown(b, first, starts, log, events, next);
    var starts', log' := starts + [next], log + [events];
    assert starts'[0] == initial && starts'[|log'|] == next;
  }

  /** Each of the first `n` rounds began with a non-empty list, as the guard
      `while class_ids` of app.py:298 demands. */
  predicate Polled(starts: seq<seq<string>>, n: nat)
  {
    forall j :: 0 <= j < n && j < |starts| ==> starts[j] != []
  }

  /** A round begun with a non-empty list keeps every round polled. */
  lemma ExtendPolled(starts: seq<seq<string>>, starts': seq<seq<string>>, n: nat)
    requires Polled(starts, n) && n < |starts| <= |starts'| && starts[n] != []
    requires starts'[..|starts|] == starts
    ensures Polled(starts', n + 1)
  {
    forall j | 0 <= j < n + 1 && j < |starts'|
      ensures starts'[j] != []
    {
      assert starts'[j] == starts'[..|starts|][j];
    }
  }

  /** Over any number of rounds, the ids still pending and the ids enrolled
      make up the first list, so the list never grows. */
  lemma HistoryConserves(b: Browser, first: nat, initial: seq<string>, starts: seq<seq<string>>,
                         log: seq<seq<Event<string>>>, current: seq<string>, enrolled: seq<string>)
    requires History(b, first, initial, starts, log, current, enrolled)
    ensures multiset(current) + multiset(enrolled) == multiset(initial)
    ensures |current| <= |initial|
  {
    RoundsConserve(starts, log);
    assert |multiset(current)| + |multiset(enrolled)| == |multiset(initial)|;
  }

  /** The tab click of round `first + j` failed. */
  predicate TabFailed(b: Browser, first: nat, j: nat)
  {
    !b.tabOpens(first + j)
  }

  /** Call `i` of `login` followed call `i - 1`: that call handed over, at
      least one round ran between the two, the last of them failed its tab
      click and its relaunch worked, and call `i` is `login` with its counter
      back at 0, from the attempt call `i - 1` left and the browser creation
      after that relaunch (app.py:346-377). */
  ghost predicate NextLogin(b: Browser, first: nat, calls: seq<LoginRun>, marks: seq<nat>, i: nat)
    requires 0 < i < |calls| == |marks|
  {
    var prev, next := calls[i - 1], calls[i];
    prev.end == Authenticated && marks[i - 1] < marks[i] && TabFailed(b, first, marks[i] - 1) && b.launch(prev.launch) &&
    next == LoginFrom(b.attempt, b.launch, 0, prev.attempt, prev.launch + 1)
  }

  /** The calls of `login` of a run of the process that started `n` rounds,
      the first being round `first`: `calls[i]` is how call `i` ended and
      `marks[i]` how many rounds came before it. The first call starts with
      its counter at 0 from attempt `k` and browser creation `d`; each later
      call follows the one before as `NextLogin` says; only a call that
      handed over is followed by rounds; and every round a call served
      opened its tab, but possibly the last. */
  ghost predicate Logins(b: Browser, k: nat, d: nat, first: nat, calls: seq<LoginRun>, marks: seq<nat>, n: nat)
  {
    |calls| == |marks| > 0 && marks[0] == 0 &&
    calls[0] == LoginFrom(b.attempt, b.launch, 0, k, d) &&
    marks[|marks| - 1] <= n &&
    (calls[|calls| - 1].end != Authenticated ==> marks[|marks| - 1] == n) &&
    (forall i :: 0 < i < |calls| ==> NextLogin(b, first, calls, marks, i)) &&
    (forall i :: 0 <= i < |marks| ==> Steady(b, first, marks, n, i))
  }

  /** Where the rounds call `i` served end: at the next call, or for the
      last call at the `n` rounds started. */
  function Served(marks: seq<nat>, n: nat, i: nat): nat
    requires i < |marks|
  {
    if i + 1 < |marks| then marks[i + 1] else n
  }

  /** Every round call `i` served opened its tab, but possibly the last. */
  predicate Steady(b: Browser, first: nat, marks: seq<nat>, n: nat, i: nat)
    requires i < |marks|
  {
    forall j :: marks[i] <= j && j + 1 < Served(marks, n, i) ==> !TabFailed(b, first, j)
  }

  /** The calls of `login` as `Logins` says, with what the process holds
      after them: the last call's end `end`, the next attempt `attempt` and
      browser creation `launch`, whether a recovery call was made, and
      whether the last round failed its tab click and then its relaunch
      (`failed`); unless it did, a failed tab click was followed by a call. */
  ghost predicate Session(b: Browser, k: nat, d: nat, first: nat, calls: seq<LoginRun>, marks: seq<nat>, n: nat,
                          end: LoginEnd, attempt: nat, launch: nat, recovering: bool, failed: bool)
  {
    Logins(b, k, d, first, calls, marks, n) &&
    end == calls[|calls| - 1].end && attempt == calls[|calls| - 1].attempt &&
    launch == calls[|calls| - 1].launch + (if failed then 1 else 0) &&
    (recovering <==> |calls| > 1) &&
    if failed then
      end == Authenticated && marks[|marks| - 1] < n &&
      TabFailed(b, first, n - 1) && !b.launch(calls[|calls| - 1].launch)
    else
      marks[|marks| - 1] == n || (n > 0 && !TabFailed(b, first, n - 1))
  }

  /** The run begins with the first call of `login`. */
  lemma LoginsStart(b: Browser, k: nat, d: nat, first: nat)
    ensures Logins(b, k, d, first, [LoginFrom(b.attempt, b.launch, 0, k, d)], [0], 0)
  {
    assert Steady(b, first, [0], 0, 0);
  }

  /** A round after a call that handed over, when the round before it, if it
      failed its tab click, was followed by a call. */
  lemma LoginsRound(b: Browser, k: nat, d: nat, first: nat, calls: seq<LoginRun>, marks: seq<nat>, n: nat)
    requires Logins(b, k, d, first, calls, marks, n) && calls[|calls| - 1].end == Authenticated
    requires marks[|marks| - 1] == n || (n > 0 && !TabFailed(b, first, n - 1))
    ensures Logins(b, k, d, first, calls, marks, n + 1)
  {
    var n' := n + 1;
    forall i | 0 <= i < |marks|
      ensures Steady(b, first, marks, n', i)
    {
      assert Steady(b, first, marks, n, i);
    }
  }

  /** A new call of `login` after the last round failed its tab click and
      the relaunch worked. */
  lemma LoginsRelogin(b: Browser, k: nat, d: nat, first: nat, calls: seq<LoginRun>, marks: seq<nat>, n: nat)
    requires Logins(b, k, d, first, calls, marks, n) && calls[|calls| - 1].end == Authenticated
    requires marks[|marks| - 1] < n && TabFailed(b, first, n - 1) && b.launch(calls[|calls| - 1].launch)
    ensures var prev := calls[|calls| - 1];
            Logins(b, k, d, first, calls + [LoginFrom(b.attempt, b.launch, 0, prev.attempt, prev.launch + 1)], marks + [n], n)
  {
    var prev := calls[|calls| - 1];
    var calls', marks' := calls + [LoginFrom(b.attempt, b.launch, 0, prev.attempt, prev.launch + 1)], marks + [n];
    assert NextLogin(b, first, calls', marks', |calls|);
    assert forall i :: 0 < i < |calls| ==> NextLogin(b, first, calls', marks', i) == NextLogin(b, first, calls, marks, i);
    forall i | 0 <= i < |marks'|
      ensures Steady(b, first, marks', n, i)
    {
      if i < |marks| {
        assert Steady(b, first, marks, n, i);
      }
    }
  }

  class AutoClass {
    /** The browser the process drives, as an oracle. */
    const browser: Browser
    /** `config["class_ids"]`: loaded once, shrunk in place, and shared by
        every call of `auto_class`. */
    var pending: seq<string>
    /** Login attempts, browser creations and started rounds so far: the
        indices of the next oracle outcomes. */
    var attempts: nat
    var launches: nat
    var rounds: nat

    /** The configuration is read once: the class-id string is split into
        the pending list (utilities.py:98). */
    constructor (browser: Browser, classId: string)
      ensures this.browser == browser && pending == Utilities.GetClassIds(classId)
      ensures attempts == 0 && launches == 0 && rounds == 0
    {
      this.browser := browser;
      pending := Utilities.GetClassIds(classId);
      attempts := 0;
      launches := 0;
      rounds := 0;
    }

    /** One call of `login` up to the hand-over to `auto_class`: it ends as
        `LoginFrom` says, starting with the counter at 0, and touches
        neither the pending list nor the rounds. */
    method Login() returns (end: LoginEnd)
      modifies this
      ensures var run := LoginFrom(browser.attempt, browser.launch, 0, old(attempts), old(launches));
              end == run.end && attempts == run.attempt && launches == run.launch
      ensures pending == old(pending) && rounds == old(rounds)
    {
      ghost var run := LoginFrom(browser.attempt, browser.launch, 0, attempts, launches);
      var retryCount: nat := 0;
      while retryCount < MaxRetries
        invariant run == LoginFrom(browser.attempt, browser.launch, retryCount, attempts, launches)
        invariant pending == old(pending) && rounds == old(rounds)
        decreases MaxRetries - retryCount
      {
        var stop;
        retryCount, stop, end := TryLogin(retryCount);
        if stop {
          return;
        }
      }
      ExhaustedStep(browser.attempt, browser.launch, retryCount, attempts, launches);
      return Exhausted;
    }

    /** One pass through the body of the login loop (app.py:181-251), with
        the counter at `retryCount`: it ends `login` as `LoginFrom` says, or
        hands the new counter back to the loop with `LoginFrom`'s remaining
        run unchanged. */
    method TryLogin(retryCount: nat) returns (next: nat, stop: bool, end: LoginEnd)
      requires retryCount < MaxRetries
      modifies this
      ensures var run := LoginFrom(browser.attempt, browser.launch, retryCount, old(attempts), old(launches));
              if stop then end == run.end && attempts == run.attempt && launches == run.launch
              else retryCount < next <= MaxRetries && run == LoginFrom(browser.attempt, browser.launch, next, attempts, launches)
      ensures pending == old(pending) && rounds == old(rounds)
    {
      ghost var attempt, launch := browser.attempt, browser.launch;
      var outcome := browser.attempt(attempts);
      attempts := attempts + 1;
      match outcome
      case Accepted =>
        AcceptedStep(attempt, launch, retryCount, attempts - 1, launches);
        // Its answer is only logged.
        var closed := CheckAndClosePopup(browser.popup(attempts - 1));
        return retryCount, true, Authenticated;
      case NoLogoutButton =>
        next, stop, end := HandleTimeout(retryCount);
      case Crashed =>
        CrashedStep(attempt, launch, retryCount, attempts - 1, launches);
        next, stop, end := HandleException(retryCount);
    }

    /** The `except TimeoutException` handler of `login` (app.py:224-251),
        run after the attempt just made timed out, with the counter at
        `retryCount`: it continues the run of that attempt as `LoginFrom`
        says. */
    method HandleTimeout(retryCount: nat) returns (next: nat, stop: bool, end: LoginEnd)
      requires retryCount < MaxRetries
      requires 0 < attempts && browser.attempt(attempts - 1) == NoLogoutButton
      modifies this
      ensures var run := LoginFrom(browser.attempt, browser.launch, retryCount, old(attempts) - 1, old(launches));
              if stop then end == run.end && attempts == run.attempt && launches == run.launch
              else retryCount < next <= MaxRetries && run == LoginFrom(browser.attempt, browser.launch, next, attempts, launches)
      ensures pending == old(pending) && rounds == old(rounds)
    {
      TimeoutStep(browser.attempt, browser.launch, retryCount, attempts - 1, launches);
      next := retryCount + 1;
      if next == MaxRetries {
        return next, true, Exhausted;
      }
      // This relaunch is not guarded: its failure reaches the outer handler.
      var relaunched := browser.launch(launches);
      launches := launches + 1;
      if !relaunched {
        next, stop, end := HandleException(next);
      } else {
        stop, end := false, Authenticated;
      }
    }

    /** The `except Exception` handler of `login` (app.py:253-286), entered
        with counter value `retryCount`: it ends `login` as `OuterHandler`
        says, or hands the incremented counter back to the loop with
        `OuterHandler`'s remaining run unchanged. */
    method HandleException(retryCount: nat) returns (next: nat, stop: bool, end: LoginEnd)
      requires retryCount < MaxRetries
      modifies this
      ensures var run := OuterHandler(browser.attempt, browser.launch, retryCount, old(attempts), old(launches));
              if stop then end == run.end && attempts == run.attempt && launches == run.launch
              else next < MaxRetries && run == LoginFrom(browser.attempt, browser.launch, next, attempts, launches)
      ensures next == retryCount + 1
      ensures pending == old(pending) && rounds == old(rounds)
    {
      next := retryCount + 1;
      if next == MaxRetries {
        return next, true, Exhausted;
      }
      // The old browser is closed first; a failure there is only logged.
      var relaunched := browser.launch(launches);
      launches := launches + 1;
      if !relaunched {
        return next, true, LaunchRaised;
      }
      return next, false, Authenticated;
    }

    /** The body of one round of `auto_class` after the tab click
        (app.py:303-344): every id of the snapshot taken at its start is
        handled once, in order, and the pending list loses exactly the ids
        whose enrollment answered the success text. */
    method ProcessRound(probe: nat -> Probe) returns (events: seq<Event<string>>)
      modifies this
      ensures Visits(old(pending), events) && |events| == |old(pending)|
      ensures forall i :: 0 <= i < |events| ==> Decided(probe, events, i)
      ensures pending == ApplyRound(old(pending), events)
      ensures multiset(pending) + multiset(EnrolledIds(events)) == multiset(old(pending))
      ensures attempts == old(attempts) && launches == old(launches) && rounds == old(rounds)
    {
      var snapshot := pending;
      events := [];
      for i := 0 to |snapshot|
        invariant |events| == i && Visits(snapshot, events)
        invariant forall j :: 0 <= j < i ==> Decided(probe, events, j)
        invariant pending == ApplyRound(snapshot, events)
        invariant attempts == old(attempts) && launches == old(launches) && rounds == old(rounds)
      {
        var outcome := HandleCourse(snapshot[i], probe(i));
        var e := Event(snapshot[i], outcome);
        ExtendRound(snapshot, events, e);
        ExtendDecided(probe, events, e);
        events := events + [e];
      }
      RoundConserves(snapshot, events);
    }

    /** The handling of one course in a round (app.py:305-344): query the
        seat count, enroll when it is not 0, and remove the id from the
        pending list only on the exact success text. Every exception of
        these steps is caught and the round goes on. */
    method HandleCourse(id: string, p: Probe) returns (outcome: Outcome)
      modifies this
      ensures outcome == Classify(p)
      ensures pending == Visit(old(pending), Event(id, outcome))
      ensures attempts == old(attempts) && launches == old(launches) && rounds == old(rounds)
    {
      outcome := Classify(p);
      if outcome == Enrolled {
        pending := RemoveFirst(pending, id);
      }
    }

    /** One round of the `while class_ids` loop of `auto_class`
        (app.py:298-377): the tab click, then every course of the snapshot;
        or, when the click raised, the critical-error path, which closes the
        browser (a failure there is only logged) and creates a new one, after
        which `login()` is called again. */
    method PlayRound() returns (crashed: bool, relaunched: bool, gained: seq<string>,
                                ghost events: seq<Event<string>>)
      modifies this
      ensures crashed == !browser.tabOpens(old(rounds))
      ensures RoundAsShown(browser, old(rounds), old(pending), events)
      ensures pending == ApplyRound(old(pending), events)
      ensures gained == EnrolledIds(events)
      ensures crashed ==> relaunched == browser.launch(old(launches)) && launches == old(launches) + 1
      ensures !crashed ==> !relaunched && launches == old(launches)
      ensures rounds == old(rounds) + 1 && attempts == old(attempts)
    {
      var r := rounds;
      rounds := rounds + 1;
      crashed := !browser.tabOpens(r);
      if !crashed {
        var handled := ProcessRound(browser.probe(r));
        events, gained, relaunched := handled, EnrolledIds(handled), false;
      } else {
        events, gained := [], [];
        relaunched := browser.launch(launches);
        launches := launches + 1;
      }
    }

    /** One round, recorded in the history of the rounds before it: the
        history `starts`/`log` of the rounds since round `first` grows by one
        round, still chained and as the browser showed it, ending with the
        list now pending; `gained` is what that round added to the ids
        enrolled in it. */
    method Advance(ghost first: nat, ghost initial: seq<string>, ghost starts: seq<seq<string>>,
                   ghost log: seq<seq<Event<string>>>, ghost enrolled: seq<string>)
      returns (crashed: bool, relaunched: bool, gained: seq<string>,
               ghost starts': seq<seq<string>>, ghost log': seq<seq<Event<string>>>)
      requires History(browser, first, initial, starts, log, pending, enrolled) && rounds == first + |log|
      modifies this
      ensures History(browser, first, initial, starts', log', pending, enrolled + gained) && |log'| == |log| + 1
      ensures starts'[..|starts|] == starts
      ensures crashed == TabFailed(browser, first, |log|)
      ensures crashed ==> relaunched == browser.launch(old(launches)) && launches == old(launches) + 1
      ensures !crashed ==> launches == old(launches)
      ensures rounds == old(rounds) + 1 && attempts == old(attempts)
    {
      ghost var current, r, events := pending, rounds, [];
      crashed, relaunched, gained, events := PlayRound();
      ExtendHistory(browser, first, initial, starts, log, current, enrolled, r, events);
      starts', log' := starts + [pending], log + [events];
    }

    /** The call of `login` after a round whose tab click failed and whose
        relaunch worked (app.py:377): the chain of calls grows by that call,
        which starts with its counter back at 0. */
    method Recover(ghost k: nat, ghost d: nat, ghost first: nat, ghost calls: seq<LoginRun>, ghost marks: seq<nat>, ghost n: nat)
      returns (end: LoginEnd, ghost calls': seq<LoginRun>, ghost marks': seq<nat>)
      requires Logins(browser, k, d, first, calls, marks, n) && calls[|calls| - 1].end == Authenticated
      requires marks[|marks| - 1] < n && TabFailed(browser, first, n - 1) && browser.launch(calls[|calls| - 1].launch)
      requires attempts == calls[|calls| - 1].attempt && launches == calls[|calls| - 1].launch + 1
      modifies this
      ensures Logins(browser, k, d, first, calls', marks', n) && |calls'| == |calls| + 1 && marks'[|marks'| - 1] == n
      ensures end == calls'[|calls'| - 1].end
      ensures attempts == calls'[|calls'| - 1].attempt && launches == calls'[|calls'| - 1].launch
      ensures pending == old(pending) && rounds == old(rounds)
    {
      LoginsRelogin(browser, k, d, first, calls, marks, n);
      calls', marks' := calls + [LoginFrom(browser.attempt, browser.launch, 0, attempts, launches)], marks + [n];
      end := Login();
    }

    /** One pass of the supervisory loop after a call of `login` that handed
        over, with courses pending: a round, then, when its tab click failed
        and the relaunch worked, the next call of `login`. */
    method Step(ghost k: nat, ghost d: nat, ghost first: nat, ghost initial: seq<string>,
                ghost calls: seq<LoginRun>, ghost marks: seq<nat>, ghost starts: seq<seq<string>>,
                ghost log: seq<seq<Event<string>>>, ghost enrolled: seq<string>, recovering: bool)
      returns (end: LoginEnd, recovering': bool, failed: bool, gained: seq<string>,
               ghost calls': seq<LoginRun>, ghost marks': seq<nat>,
               ghost starts': seq<seq<string>>, ghost log': seq<seq<Event<string>>>)
      requires Session(browser, k, d, first, calls, marks, |log|, Authenticated, attempts, launches, recovering, false)
      requires History(browser, first, initial, starts, log, pending, enrolled) && rounds == first + |log|
      modifies this
      ensures Session(browser, k, d, first, calls', marks', |log'|, end, attempts, launches, recovering', failed)
      ensures History(browser, first, initial, starts', log', pending, enrolled + gained)
      ensures |log'| == |log| + 1 && rounds == old(rounds) + 1
      ensures starts'[..|starts|] == starts
    {
      LoginsRound(browser, k, d, first, calls, marks, |log|);
      var crashed, relaunched;
      crashed, relaunched, gained, starts', log' := Advance(first, initial, starts, log, enrolled);
      end, recovering', failed, calls', marks' := Authenticated, recovering, false, calls, marks;
      if crashed {
        if relaunched {
          end, calls', marks' := Recover(k, d, first, calls, marks, |log'|);
          recovering' := true;
        } else {
          failed := true;
        }
      }
    }

    /** The whole process from the first `login()` of app.py:400, with at most
        `maxRounds` rounds. `calls` holds how every call of `login` ended and
        `marks` how many rounds came before each; `log` holds the events of
        every round started and `starts` the pending list at the start of
        each.
        - The calls are chained as `Logins` says: the first one from a counter
          of 0, each later one from a counter of 0 again right after a round
          whose tab click failed and whose relaunch worked, and rounds only
          after a call that handed over.
        - The verdict is decided by the last call and the last round: the
          process exits at the maximum of logins exactly when the last call
          did; an escaping relaunch failure ends it as `LoginLaunchFailed` on
          the first call and as `RestartFailed` on a recovery call; and a
          failed relaunch after a failed tab click ends it as `RestartFailed`.
        - Each round is what the browser showed, the list moves from round to
          round as the rounds say, and `enrolled` is exactly the ids whose
          enrollment answered the success text; success is reported only once
          the list is empty, and running out of rounds only while it is not. */
    method Run(maxRounds: nat) returns (v: Verdict, enrolled: seq<string>,
                                        ghost calls: seq<LoginRun>, ghost marks: seq<nat>,
                                        ghost log: seq<seq<Event<string>>>, ghost starts: seq<seq<string>>)
      modifies this
      ensures Logins(browser, old(attempts), old(launches), old(rounds), calls, marks, |log|)
      ensures attempts == calls[|calls| - 1].attempt
      ensures v == Fatal(LoginsExhausted) <==> calls[|calls| - 1].end == Exhausted
      ensures v == Fatal(LoginLaunchFailed) <==> calls[|calls| - 1].end == LaunchRaised && |calls| == 1
      ensures v == Fatal(RestartFailed) <==>
                (calls[|calls| - 1].end == LaunchRaised && |calls| > 1) ||
                (marks[|marks| - 1] < |log| && TabFailed(browser, old(rounds), |log| - 1))
      ensures marks[|marks| - 1] < |log| && TabFailed(browser, old(rounds), |log| - 1) ==>
                !browser.launch(calls[|calls| - 1].launch)
      ensures |log| == rounds - old(rounds)
      ensures History(browser, old(rounds), old(pending), starts, log, pending, enrolled)
      ensures Polled(starts, |log|)
      ensures multiset(pending) + multiset(enrolled) == multiset(old(pending))
      ensures |pending| <= |old(pending)|
      ensures v == AllEnrolled ==> pending == []
      ensures v == OutOfRounds ==> pending != [] && rounds == old(rounds) + maxRounds
      ensures rounds <= old(rounds) + maxRounds
    {
      enrolled, log, starts := [], [], [pending];
      LoginsStart(browser, attempts, launches, rounds);
      calls, marks := [LoginFrom(browser.attempt, browser.launch, 0, attempts, launches)], [0];
      var end := Login();
      var recovering, relaunchFailed := false, false;
      var budget := maxRounds;
      // `while class_ids` of app.py:298, entered after every call of `login`
      // that handed over.
      while end == Authenticated && !relaunchFailed && pending != [] && budget > 0
        invariant Session(browser, old(attempts), old(launches), old(rounds), calls, marks, |log|,
                          end, attempts, launches, recovering, relaunchFailed)
        invariant History(browser, old(rounds), old(pending), starts, log, pending, enrolled)
        invariant Polled(starts, |log|)
        invariant rounds + budget == old(rounds) + maxRounds && |log| == rounds - old(rounds)
        decreases budget
      {
        budget := budget - 1;
        var gained;
        ghost var starts0, n0 := starts, |log|;
        end, recovering, relaunchFailed, gained, calls, marks, starts, log :=
          Step(old(attempts), old(launches), old(rounds), old(pending), calls, marks, starts, log, enrolled, recovering);
        ExtendPolled(starts0, starts, n0);
        enrolled := enrolled + gained;
      }
      // A recovery call is made inside the critical-error handler of
      // `auto_class` (app.py:379-387), which also catches a relaunch failure
      // escaping that call.
      v := if end == Exhausted then Fatal(LoginsExhausted)
           else if end == LaunchRaised then (if recovering then Fatal(RestartFailed) else Fatal(LoginLaunchFailed))
           else if relaunchFailed then Fatal(RestartFailed)
           else if pending == [] then AllEnrolled
           else OutOfRounds;
      HistoryConserves(browser, old(rounds), old(pending), starts, log, pending, enrolled);
    }
  }
}
