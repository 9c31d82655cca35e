/** The per-course decision of auto_class (app.py:305-344) and its effect on
    the pending list over one round, as functions of what the browser
    reported. */
module Enrollment {
  import opened Options
  import opened SeatParse

  /** The one message that counts as a successful enrollment. */
  const SuccessText: string := "加選成功"

  /** What the browser reported while one course was handled. `dialog` is the
      text of the seat-count dialog, `None` when typing the id, clicking the
      query button, switching to the dialog or accepting it raised; `result`
      is the message shown after clicking the enroll button, `None` when that
      click or the read raised. */
  datatype Probe = Probe(dialog: Option<string>, result: Option<string>)

  /** How the handling of one course ended. */
  datatype Outcome =
    | QueryRaised           // a browser step of the query raised
    | Unparsable            // `int()` raised on the dialog text
    | NoSeats               // the count was 0: no attempt this round
    | EnrollRaised          // the enroll click or the message read raised
    | Rejected(message: string)  // the portal answered something else
    | Enrolled              // the portal answered exactly the success text
  {
    /** An enrollment was attempted: the enroll button was clicked. */
    predicate Attempted()
    {
      EnrollRaised? || Rejected? || Enrolled?
    }
  }

  /** The seat count the course's dialog shows, when it can be read. */
  function SeatCount(p: Probe): Option<int>
  {
    match p.dialog
    case None => None
    case Some(text) => ParseSeat(text)
  }

  /** The decision of app.py:311-336 for one course: a success only on the
      exact success text. `ClassifyDecides` states the whole decision. */
  function Classify(p: Probe): (o: Outcome)
    ensures o == Enrolled ==> p.result == Some(SuccessText)
  {
    match p.dialog
    case None => QueryRaised
    case Some(text) =>
      match ParseSeat(text)
      case None => Unparsable
      case Some(count) =>
        if count == 0 then NoSeats
        else
          match p.result
          case None => EnrollRaised
          case Some(message) => if message == SuccessText then Enrolled else Rejected(message)
  }

  /** Event `i` of a round ended as `Classify` says of what course `i` showed. */
  predicate Decided<Id>(probe: nat -> Probe, events: seq<Event<Id>>, i: nat)
    requires i < |events|
  {
    events[i].outcome == Classify(probe(i))
  }

  /** An event decided by what its course showed keeps every event of the
      round decided. */
  lemma ExtendDecided<Id>(probe: nat -> Probe, events: seq<Event<Id>>, e: Event<Id>)
    requires forall j :: 0 <= j < |events| ==> Decided(probe, events, j)
    requires e.outcome == Classify(probe(|events|))
    ensures forall j :: 0 <= j < |events| + 1 ==> Decided(probe, events + [e], j)
  {
    forall j | 0 <= j < |events| + 1
      ensures Decided(probe, events + [e], j)
    {
      if j < |events| {
        assert Decided(probe, events, j);
      }
    }
  }

  /** Enrollment is tried exactly when the count could be read and is not
      0, negative counts included; a count of 0 skips the course; a dialog
      whose text is no count skips it too; and a success is exactly a tried
      enrollment answered with the success text. */
  lemma ClassifyDecides(p: Probe)
    ensures Classify(p).Attempted() <==> SeatCount(p).Some? && SeatCount(p).value != 0
    ensures Classify(p) == NoSeats <==> SeatCount(p) == Some(0)
    ensures Classify(p) == Enrolled <==> Classify(p).Attempted() && p.result == Some(SuccessText)
    ensures Classify(p) == Unparsable <==> p.dialog.Some? && SeatCount(p) == None
    ensures Classify(p) == QueryRaised <==> p.dialog == None
  {
  }

  /** A dialog in the portal's format with no seat left skips the course,
      whatever the enroll button would have answered. */
  lemma FullCourseSkipped(total: nat, result: Option<string>)
    ensures Classify(Probe(Some(SeatLabel + ShowInt(0) + " / " + ShowNat(total)), result)) == NoSeats
  {
    ParseSeatReadsRemaining(0, total);
  }

  /** A negative count is not 0, so the course is tried. */
  lemma NegativeCountAttempted(remaining: int, total: nat, result: Option<string>)
    requires remaining < 0
    ensures Classify(Probe(Some(SeatLabel + ShowInt(remaining) + " / " + ShowNat(total)), result)).Attempted()
  {
    ParseSeatReadsRemaining(remaining, total);
  }

  /** A dialog without the space before the slash makes `int()` raise: the
      course is skipped and stays pending. */
  lemma UnspacedDialogSkipped(count: nat, total: nat, result: Option<string>)
    ensures Classify(Probe(Some(SeatLabel + ShowNat(count) + "/" + ShowNat(total)), result)) == Unparsable
  {
    UnspacedSlashFails(ShowNat(count), ShowNat(total));
  }

  /** Python's `list.remove(x)`. When `x` is missing Python raises
      ValueError, which the per-course handler swallows: the list is then
      unchanged. */
  function RemoveFirst<Id(==)>(s: seq<Id>, x: Id): (r: seq<Id>)
    ensures x !in s ==> r == s
    decreases |s|
  {
    if s == [] then s
    else if s[0] == x then s[1..]
    else [s[0]] + RemoveFirst(s[1..], x)
  }

  /** `remove` takes away one copy of a present id and nothing else. */
  lemma {:induction false} RemoveFirstCount<Id>(s: seq<Id>, x: Id)
    requires x in s
    ensures |RemoveFirst(s, x)| == |s| - 1
    ensures multiset(RemoveFirst(s, x)) == multiset(s) - multiset{x}
    decreases |s|
  {
    assert s == [s[0]] + s[1..];
    if s[0] != x {
      RemoveFirstCount(s[1..], x);
    }
  }

  /** `remove` deletes exactly the first occurrence and keeps the order of
      everything else. */
  lemma {:induction false} RemoveFirstAt<Id>(p: seq<Id>, x: Id, q: seq<Id>)
    requires x !in p
    ensures RemoveFirst(p + [x] + q, x) == p + q
    decreases |p|
  {
    var s := p + [x] + q;
    if p == [] {
      assert s[1..] == q;
    } else {
      assert s[0] == p[0] && s[1..] == p[1..] + [x] + q;
      RemoveFirstAt(p[1..], x, q);
      assert [p[0]] + (p[1..] + q) == p + q;
    }
  }

  /** A duplicated id loses only its first copy. */
  lemma RemoveOneCopy()
    ensures RemoveFirst(["0050", "0051", "0050"], "0050") == ["0051", "0050"]
  {
  }

  /** One course handled in a round: the visited id and how it ended. */
  datatype Event<Id> = Event(id: Id, outcome: Outcome)

  /** The change one course makes to the pending list (app.py:327-330). */
  function Visit<Id(==)>(pending: seq<Id>, e: Event<Id>): seq<Id>
  {
    if e.outcome == Enrolled then RemoveFirst(pending, e.id) else pending
  }

  /** The pending list after the courses of `events` were handled, in order. */
  function ApplyRound<Id(==)>(pending: seq<Id>, events: seq<Event<Id>>): seq<Id>
    decreases |events|
  {
    if events == [] then pending
    else Visit(ApplyRound(pending, events[..|events| - 1]), events[|events| - 1])
  }

  /** The ids whose handling ended in success, in visiting order. */
  function EnrolledIds<Id>(events: seq<Event<Id>>): seq<Id>
    decreases |events|
  {
    if events == [] then []
    else
      var last := events[|events| - 1];
      EnrolledIds(events[..|events| - 1]) + Gained(last)
  }

  /** The events visit the snapshot's ids one by one, in order, from its start. */
  predicate Visits<Id(==)>(snapshot: seq<Id>, events: seq<Event<Id>>)
  {
    |events| <= |snapshot| && forall i :: 0 <= i < |events| ==> events[i].id == snapshot[i]
  }

  /** Visiting the next id of the snapshot extends the round by one event. */
  lemma ExtendRound<Id>(snapshot: seq<Id>, events: seq<Event<Id>>, e: Event<Id>)
    requires Visits(snapshot, events) && |events| < |snapshot| && e.id == snapshot[|events|]
    ensures Visits(snapshot, events + [e])
    ensures ApplyRound(snapshot, events + [e]) == Visit(ApplyRound(snapshot, events), e)
  {
    assert (events + [e])[..|events|] == events;
  }

  /** The ids `e` adds to `EnrolledIds`. */
  function Gained<Id>(e: Event<Id>): seq<Id>
  {
    if e.outcome == Enrolled then [e.id] else []
  }

  /** Every id of the snapshot not yet visited is still pending: so the
      id visited next is always there for `remove` to find. */
  lemma {:induction false} UnvisitedPending<Id>(snapshot: seq<Id>, events: seq<Event<Id>>)
    requires Visits(snapshot, events)
    ensures multiset(snapshot[|events|..]) <= multiset(ApplyRound(snapshot, events))
    decreases |events|
  {
    if events == [] {
      assert snapshot[0..] == snapshot;
    } else {
      var n := |events|;
      var prev, e := events[..n - 1], events[n - 1];
      assert Visits(snapshot, prev);
      UnvisitedPending(snapshot, prev);
      var before := ApplyRound(snapshot, prev);
      assert snapshot[n - 1..] == [e.id] + snapshot[n..];
      if e.outcome == Enrolled {
        assert e.id in multiset(before);
        RemoveFirstCount(before, e.id);
      }
    }
  }

  /** One visit moves its id, if it succeeded, from the pending list to the
      successes. */
  lemma VisitMoves<Id>(before: seq<Id>, e: Event<Id>, enrolled: seq<Id>, all: multiset<Id>)
    requires multiset(before) + multiset(enrolled) == all
    requires e.outcome == Enrolled ==> e.id in before
    ensures multiset(Visit(before, e)) + multiset(enrolled + Gained(e)) == all
  {
    if e.outcome == Enrolled {
      RemoveFirstCount(before, e.id);
    }
  }

  /** Over a round, every id of the snapshot is either still pending or was
      enrolled: each success takes exactly its own id out of the list. */
  lemma {:induction false} RoundConserves<Id>(snapshot: seq<Id>, events: seq<Event<Id>>)
    requires Visits(snapshot, events)
    ensures multiset(ApplyRound(snapshot, events)) + multiset(EnrolledIds(events)) == multiset(snapshot)
    decreases |events|
  {
    if events != [] {
      var n := |events|;
      var prev, e := events[..n - 1], events[n - 1];
      assert Visits(snapshot, prev);
      RoundConserves(snapshot, prev);
      if e.outcome == Enrolled {
        RemoveNeverMisses(snapshot, prev);
      }
      VisitMoves(ApplyRound(snapshot, prev), e, EnrolledIds(prev), multiset(snapshot));
    }
  }

  /** The id visited next is always in the live list: the ValueError branch
      of `remove` cannot be reached. */
  lemma RemoveNeverMisses<Id>(snapshot: seq<Id>, events: seq<Event<Id>>)
    requires Visits(snapshot, events) && |events| < |snapshot|
    ensures snapshot[|events|] in ApplyRound(snapshot, events)
  {
    UnvisitedPending(snapshot, events);
    assert snapshot[|events|] in multiset(snapshot[|events|..]);
  }

  /** A round shrinks the list by exactly its number of successes. */
  lemma RoundShrinksBySuccesses<Id>(snapshot: seq<Id>, events: seq<Event<Id>>)
    requires Visits(snapshot, events)
    ensures |ApplyRound(snapshot, events)| == |snapshot| - |EnrolledIds(events)|
  {
    RoundConserves(snapshot, events);
    assert |multiset(ApplyRound(snapshot, events))| + |multiset(EnrolledIds(events))| == |multiset(snapshot)|;
  }

  /** Without a success, a round leaves the list exactly as it was. */
  lemma {:induction false} NoSuccessNoChange<Id>(pending: seq<Id>, events: seq<Event<Id>>)
    requires forall i :: 0 <= i < |events| ==> events[i].outcome != Enrolled
    ensures ApplyRound(pending, events) == pending
    decreases |events|
  {
    if events != [] {
      NoSuccessNoChange(pending, events[..|events| - 1]);
    }
  }

  /** The ids enrolled over several rounds, round after round. */
  function LogEnrolled<Id>(log: seq<seq<Event<Id>>>): seq<Id>
    decreases |log|
  {
    if log == [] then [] else LogEnrolled(log[..|log| - 1]) + EnrolledIds(log[|log| - 1])
  }

  /** `starts[j]` is the pending list when round `j` of `log` began: each
      round visits that list from its start and leaves the next one. */
  predicate Chained<Id(==)>(starts: seq<seq<Id>>, log: seq<seq<Event<Id>>>)
  {
    |starts| == |log| + 1 &&
    forall j :: 0 <= j < |log| ==> Link(starts, log, j)
  }

  /** Round `j` of `log` visits `starts[j]` from its start and leaves
      `starts[j + 1]`. */
  predicate Link<Id(==)>(starts: seq<seq<Id>>, log: seq<seq<Event<Id>>>, j: nat)
    requires j < |log| && |starts| == |log| + 1
  {
    Visits(starts[j], log[j]) && starts[j + 1] == ApplyRound(starts[j], log[j])
  }

  /** One more round, begun with the list the last one left. */
  lemma ExtendLog<Id>(starts: seq<seq<Id>>, log: seq<seq<Event<Id>>>, events: seq<Event<Id>>, next: seq<Id>)
    requires Chained(starts, log) && Visits(starts[|log|], events)
    requires next == ApplyRound(starts[|log|], events)
    ensures Chained(starts + [next], log + [events])
    ensures LogEnrolled(log + [events]) == LogEnrolled(log) + EnrolledIds(events)
  {
    var starts', log' := starts + [next], log + [events];
    forall j | 0 <= j < |log'|
      ensures Link(starts', log', j)
    {
      if j < |log| {
        assert Link(starts, log, j);
      }
    }
    assert log'[..|log|] == log;
  }

  /** Over any number of rounds, every id of the first list is either still
      pending or was enrolled in one of them. */
  lemma {:induction false} RoundsConserve<Id>(starts: seq<seq<Id>>, log: seq<seq<Event<Id>>>)
    requires Chained(starts, log)
    ensures multiset(starts[|log|]) + multiset(LogEnrolled(log)) == multiset(starts[0])
    decreases |log|
  {
    if log != [] {
      var n := |log|;
      var starts', log' := starts[..n], log[..n - 1];
      forall j | 0 <= j < n - 1
        ensures Link(starts', log', j)
      {
        assert Link(starts, log, j);
      }
      assert Link(starts, log, n - 1);
      RoundsConserve(starts[..n], log[..n - 1]);
      RoundConserves(starts[n - 1], log[n - 1]);
    }
  }

  /** A duplicated id stays pending until each copy has succeeded. */
  lemma DuplicateIdStaysPending()
    ensures ApplyRound(["0050", "0050"], [Event("0050", Enrolled), Event("0050", NoSeats)]) == ["0050"]
    ensures ApplyRound(["0050", "0050"], [Event("0050", Enrolled), Event("0050", Enrolled)]) == []
  {
    var twice := [Event("0050", Enrolled), Event("0050", Enrolled)];
    assert twice[..1] == [Event("0050", Enrolled)];
    assert [Event("0050", Enrolled), Event("0050", NoSeats)][..1] == [Event("0050", Enrolled)];
  }
}
