# FCU AutoClass: enrollment and login loops in Dafny

FCU AutoClass logs a student into the Feng Chia University course portal and
keeps polling the seat counts of the courses listed in its configuration,
trying to enroll in each one that shows a free seat, until every listed
course is enrolled. This project models the decision logic of that program:

- the class-id splitter `get_class_ids` (module `Utilities`);
- the seat-count parse of the query dialog (module `SeatParse`): the text is
  stripped of a *set* of label characters, cut at the first `" /"` and
  converted by Python's `int()`;
- the per-course decision and the in-place `list.remove` of a round of
  `auto_class` (module `Enrollment`), with the pending list as a sequence of
  ids and a round as the sequence of events it produced;
- the retry counter of `login` (module `LoginRetry`), as a pair of mutually
  recursive functions over the outcomes of the login attempts and browser
  relaunches, mirroring the loop body and its outer exception handler;
- the survey-dialog dismissal `check_and_close_popup` (module `Popup`), a
  `for` loop with early returns over three locators;
- the process as a whole (module `App`): class `AutoClass` holds the pending
  list that the program loads once and shrinks in place, and its methods
  mirror the loops of the program. `Login` is the retry loop of `login`,
  `ProcessRound` the `for` loop over a snapshot of the list, and `Run`
  flattens the mutual recursion of `login` and `auto_class` into one loop:
  log in, run rounds while ids are pending, and log in again with a fresh
  counter after a round could not start. `Step` is one pass of that loop:
  a round (`Advance`) and, when it could not start, the recovery call of
  `login` (`Recover`).

Every browser interaction is an oracle outcome taken from a `Browser` value,
indexed by how many times it was asked: the outcome of the k-th login
attempt, whether the d-th browser creation worked, what the survey dialog
offers, whether the tab click of round r worked, and the dialog text and the
enrollment answer of the i-th course of round r. `sys.exit` becomes a `Fatal`
verdict.

The configured ids form a list, which may hold duplicates; the model follows
the code.

## Model

| member | source | states |
|---|---|---|
| Utilities.Split | utilities.py:127 | Python's `split` on one character gives at least one piece and no piece holds the separator |
| Utilities.JoinSplit | utilities.py:127 | joining the pieces with the separator gives back the string that was split |
| Utilities.SplitLength | utilities.py:127 | there is exactly one piece more than there are separators |
| Utilities.SplitJoin | utilities.py:127 | splitting a join of separator-free pieces gives the same pieces, in order |
| Utilities.GetClassIds | utilities.py:122-128 | the id list has one id more than the string has spaces (never empty), no id holds a space, and joining the ids with a space restores the configured string |
| Utilities.TwoClassIds | utilities.py:69-72 | the template's example `'0050 0051'` gives `["0050", "0051"]` |
| Utilities.EmptyAndSpacedIds | utilities.py:127 | an empty string gives one empty id; leading, doubled and trailing spaces give empty ids |
| SeatParse.LeadingRun | app.py:315 | the length of the longest prefix made only of characters of the set |
| SeatParse.TrailingRun | app.py:315 | the length of the longest suffix made only of characters of the set |
| SeatParse.Strip | app.py:315 | what `strip` keeps is the contiguous part of the text right after the leading run of set characters, everything after it is a set character, and it neither starts nor ends with one |
| SeatParse.StripAround | app.py:315 | set characters in front of and after the text are all removed, on both sides and in whatever order they come, and nothing of the text is |
| SeatParse.Before | app.py:315 | `split(sep)[0]` is a prefix of the text, followed by the separator when shorter than the text, with no earlier occurrence of the separator |
| SeatParse.BeforeSeparator | app.py:315 | slash-free text followed by `" /"` is cut exactly there |
| SeatParse.BeforeWithoutSpace | app.py:315 | text without a space is not cut at all |
| SeatParse.ParseSigned | app.py:315 | `int()` without surrounding whitespace succeeds only on text holding a digit |
| SeatParse.ParseSignedGrammar | app.py:315 | `int()` without surrounding whitespace succeeds with `n` iff the text is an optional `+` or `-` and a non-empty run of ASCII digits whose signed decimal value is `n`; anything else raises |
| SeatParse.ParseSignedAccepts | app.py:315 | an optional sign followed by digits is read with its signed decimal value |
| SeatParse.ParseInt | app.py:315 | Python's `int()` on a string succeeds only on text holding an ASCII digit; with `Strip` and `ParseSignedGrammar` it is the number between the whitespace |
| SeatParse.ParsePlusSign | app.py:315 | `int()` reads a `+` sign in front of the digits |
| SeatParse.ParseAroundWhitespace | app.py:315 | `int()` skips any ASCII whitespace on both sides of a number |
| SeatParse.ParseRejectsTrailingJunk | app.py:315 | a character that is neither a digit nor whitespace after the number makes `int()` raise |
| SeatParse.ParseRejectsBareSign | app.py:315 | a sign without digits makes `int()` raise |
| SeatParse.ParseSeat | app.py:315 | the seat count is read only from dialog text holding an ASCII digit; text without one never yields a count, whatever else it holds |
| SeatParse.ParseShowInt | app.py:315 | `int()` reads back every integer in decimal, negative ones included |
| SeatParse.ParseSeatFormat | app.py:315 | label characters, a count, `" / "`, a total and label characters again parse to the count |
| SeatParse.TrailingLabelStripped | app.py:315 | label characters after the total are stripped too, and the count is still read |
| SeatParse.ParseSeatReadsRemaining | app.py:315 | the portal's format `剩餘名額/開放名額：<count> / <total>` yields the remaining count for every count, negative or not, and every total |
| SeatParse.ParseSeatExample | app.py:315 | `剩餘名額/開放名額：5 / 30` yields 5 |
| SeatParse.UnspacedSlashFails | app.py:315 | with no space before the slash nothing is cut off and `int()` fails on `<count>/<total>` |
| SeatParse.SpacedCount | app.py:315 | a space between the label and the count is not stripped by the label set but is skipped by `int()` |
| SeatParse.SpacedSignedCount | app.py:315 | a space and a sign in front of the digits still give the signed count |
| Enrollment.Classify | app.py:311-336 | a course counts as enrolled only when the portal answered exactly `加選成功` |
| Enrollment.ClassifyDecides | app.py:305-344 | enrollment is tried iff the count could be read and is not 0 (negative counts included); a count of 0 skips the course; text that is no count skips it; a failed query skips it; success iff a tried enrollment answered the exact success text |
| Enrollment.FullCourseSkipped | app.py:320-336 | a dialog in the portal's format with 0 seats left skips the course whatever the enroll button would answer |
| Enrollment.NegativeCountAttempted | app.py:320 | a negative count is not 0, so enrollment is tried |
| Enrollment.UnspacedDialogSkipped | app.py:315-344 | a dialog without the space before the slash makes the parse fail and the course is skipped |
| Enrollment.RemoveFirst | app.py:330 | `remove` of an absent id leaves the list unchanged |
| Enrollment.RemoveFirstCount | app.py:330 | `remove` of a present id shortens the list by one and takes away exactly one copy of that id |
| Enrollment.RemoveFirstAt | app.py:330 | `remove` deletes the first occurrence and keeps everything else in order |
| Enrollment.Visit | app.py:327-330 | the change one course makes to the list: `remove` of its id on success and nothing otherwise; `VisitMoves` proves it moves exactly the enrolled id out of the list |
| Enrollment.ApplyRound | app.py:303-330 | the list after the courses of a round were handled in order; `RoundConserves`, `RoundShrinksBySuccesses` and `NoSuccessNoChange` state what it keeps |
| Enrollment.RemoveOneCopy | app.py:330 | a duplicated id loses only its first copy |
| Enrollment.UnvisitedPending | app.py:303 | every id of the snapshot not yet visited is still in the live list |
| Enrollment.RemoveNeverMisses | app.py:303-330 | the id visited next is always in the live list, so `remove` never raises within a round |
| Enrollment.RoundConserves | app.py:303-330 | after any prefix of a round, the pending ids and the enrolled ids together are exactly the snapshot, as multisets |
| Enrollment.RoundShrinksBySuccesses | app.py:298-330 | a round shrinks the list by exactly its number of successes |
| Enrollment.NoSuccessNoChange | app.py:327-336 | a round without a success leaves the list exactly as it was |
| Enrollment.RoundsConserve | app.py:298-377 | over any number of rounds, each begun with the list the last one left, the list at the end and the ids enrolled in all of them are exactly the first list, as multisets |
| Enrollment.DuplicateIdStaysPending | app.py:303-330 | a duplicated id stays pending until each copy has succeeded |
| LoginRetry.LoginFrom | app.py:180-251 | what `login` does from a counter value on: `LoginBounds`, `AuthenticatedOnAccepted`, `ThreeStrikes` and `FailedRelaunchCountsTwice` state its properties |
| LoginRetry.OuterHandler | app.py:253-286 | what the `except Exception` handler of `login` does: count, exit at the maximum, relaunch or let the relaunch failure escape; `HandlerBounds` and `HandlerOnAccepted` state its properties |
| LoginRetry.LoginBounds | app.py:177-286 | a call of `login` makes at least one and at most three attempts and at most two relaunches; its counter ends between 0 and 3 and is 3 exactly when the process exits; every attempt but an accepted last one was counted |
| LoginRetry.HandlerBounds | app.py:253-286 | the outer handler counts before anything else, and its run keeps the bounds of `LoginBounds` |
| LoginRetry.AuthenticatedOnAccepted | app.py:208-223 | `login` hands over to `auto_class` exactly when its last attempt was accepted, and no earlier attempt of the call was |
| LoginRetry.HandlerOnAccepted | app.py:253-286 | after the outer handler, the run hands over exactly when its last attempt was accepted |
| LoginRetry.OnePerFailure | app.py:224-254 | while relaunches work, the counter rises by exactly one per failed attempt, timed out or raised, and no relaunch failure ends the call |
| LoginRetry.ThreeStrikes | app.py:177-286 | three failed attempts with working relaunches exit the process after three attempts and two relaunches |
| LoginRetry.FailedRelaunchCountsTwice | app.py:224-254 | a relaunch failing after a timeout is counted again by the outer handler, so a second timeout exits after only two attempts |
| Popup.CheckAndClosePopup | app.py:143-169 | the dialog is reported closed iff some locator's button was clicked after every earlier locator timed out |
| Popup.FirstFailureDecides | app.py:153-169 | a locator that raises something other than a timeout ends the scan: no later locator can close the dialog |
| App.AutoClass.constructor | utilities.py:98 | the pending list is the split configured class-id string, loaded once |
| App.AutoClass.Login | app.py:172-286 | one call of `login` ends as `LoginRetry.LoginFrom` says from a counter of 0, and leaves the pending list alone |
| App.AutoClass.TryLogin | app.py:181-251 | one pass of the loop body either ends the call as `LoginFrom` says or hands back a higher counter with the rest of the run unchanged |
| App.AutoClass.HandleTimeout | app.py:224-251 | the timeout handler continues the run of the timed-out attempt as `LoginFrom` says |
| App.AutoClass.HandleException | app.py:253-286 | the outer handler counts, then ends the call or relaunches, as `OuterHandler` says |
| App.AutoClass.ProcessRound | app.py:303-344 | a round visits every id of its snapshot once, in order; each outcome is `Classify` of what the browser showed; the list ends as `ApplyRound` says and loses exactly the enrolled ids |
| App.AutoClass.HandleCourse | app.py:305-344 | one course ends with `Classify`'s outcome and removes its id only on success |
| App.AutoClass.PlayRound | app.py:298-377 | one round is what the browser showed: after a working tab click every id of the list is handled in order with `Classify`'s outcome and the list ends as `ApplyRound` says; after a failed click no course is handled and the browser is relaunched; `relaunched` holds only when a relaunch happened and worked |
| App.AutoClass.Advance | app.py:298-377 | one more round, as the browser showed it and begun with the list the last round left, is added to the history; what it enrolled is added to the enrolled ids, and a failed tab click means a relaunch |
| App.AutoClass.Recover | app.py:346-377 | after a failed tab click and a working relaunch, `login` is called again with its counter back at 0, from the attempt the last call left and the browser creation after the relaunch, and the call is added to the chain of calls |
| App.AutoClass.Step | app.py:298-377 | one round after a call that handed over, then the recovery call when its tab click failed and the relaunch worked; a failed relaunch is recorded as such; the chain of calls and the history of rounds stay as `Logins` and `History` say |
| App.HistoryConserves | app.py:298-330 | over every round of a run, the ids still pending and the ids enrolled make up the first list as multisets, so the list never grows |
| App.AutoClass.Run | app.py:289-412 | the first call of `login` starts with its counter at 0; every later call starts at 0 again right after a round whose tab click failed and whose relaunch worked, from the attempt the call before left and the browser creation after that relaunch; rounds run only after a call that handed over, and every round a call served but its last opened its tab. The process exits at the login maximum exactly when the last call did; an escaping relaunch failure ends it as `LoginLaunchFailed` on the first call and as `RestartFailed` on a recovery call, whose failure the handler of app.py:379-387 catches; a failed relaunch after a failed tab click ends it as `RestartFailed`. Every round is what the browser showed, from the list the previous round left, and starts only while that list is non-empty (`while class_ids`, app.py:298); the enrolled ids are exactly those whose enrollment answered `加選成功`, and pending plus enrolled is the initial list as multisets; success is reported only with an empty list and running out of rounds only with a non-empty one |

## Left out

- Selenium and Chrome (page loads, typing, clicks, alerts, waits, the `driver_*` wrappers of app.py:108-140) are oracle outcomes; which exception a step raises matters only as timeout or not.
- The OCR of the captcha (utilities.py:131-146) is folded into the outcome of a login attempt.
- Process cleanup, signal handling and `atexit` (app.py:42-105), logging, `print` and every `time.sleep` are left out: they do not change any decision. The inter-round delay of app.py:390-392 is therefore not modelled.
- Reading and writing `config.yml` (utilities.py:56-119) is left out; the configured class-id string is the constructor's input.
- The `main` block (app.py:395-412) appears only as the verdict of `App.AutoClass.Run`; a keyboard interrupt is not modelled.
- SeatParse.ParseInt: accepts only ASCII whitespace, one optional sign and ASCII digits; Python's `int()` also takes underscores between digits and non-ASCII digits and whitespace.
- App.AutoClass.Run: runs at most `maxRounds` rounds and then reports `OutOfRounds`, because the program polls forever while a seat never opens.
- App.AutoClass.Run: nested calls of `login` and `auto_class` are one loop, so Python's recursion limit after very many recoveries is not modelled.
- LoginRetry.LoginFrom: when the process exits from the timeout handler, the unguarded `driver.quit` of app.py:250 may raise and send the counter to 4 before the exit; the model reports 3, and the exit is the same.
- LoginRetry.OnePerFailure: holds only while every relaunch works, because a relaunch failing in the timeout handler (app.py:233-244) is counted a second time by the outer handler; `LoginRetry.FailedRelaunchCountsTwice` shows it.
- Popup.CheckAndClosePopup: its answer is only logged by `login` (app.py:214-219), so nothing else depends on it.
- Which exception `quit` raises while the old browser is closed is left out: every such failure in app.py:262-265 and app.py:353-356 is only logged; the one at app.py:233 is folded into the relaunch outcome of the timeout handler, and the one at app.py:250 into the `Exhausted` exit, as the `LoginRetry.LoginFrom` line above says.
