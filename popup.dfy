/** `check_and_close_popup` (app.py:143-169): the survey dialog shown after a
    login is closed with the first of three locators whose button becomes
    clickable. */
module Popup {

  /** How waiting for one locator's button and clicking it ended: clicked,
      the two-second wait timed out, or the wait or the click raised some
      other exception. */
  datatype ClickOutcome = Clicked | TimedOut | Raised

  /** The three locators of the close button, tried in this order. */
  const SurveyCloseSelectors: seq<string> := [
    "//button[@ng-click='surveyCtrl.close($event)']",
    "//button[contains(@class, 'md-icon-button') and contains(@class, 'md-button') and text()='X']",
    "//button[contains(@class, 'md-icon-button') and contains(@ng-click, 'surveyCtrl.close')]"
  ]

  /** A locator closed the dialog: its button was clicked after every
      earlier locator timed out. */
  predicate ClosedBy(clickable: string -> ClickOutcome, i: nat)
  {
    && i < |SurveyCloseSelectors|
    && clickable(SurveyCloseSelectors[i]) == Clicked
    && forall j :: 0 <= j < i ==> clickable(SurveyCloseSelectors[j]) == TimedOut
  }

  /** Tries the locators in order: a timeout moves on to the next one, a
      click ends with true, any other exception ends with false, and so
      does running out of locators. `clickable` stands for the browser. */
  method CheckAndClosePopup(clickable: string -> ClickOutcome) returns (closed: bool)
    ensures closed <==> exists i: nat :: ClosedBy(clickable, i)
  {
    for i := 0 to |SurveyCloseSelectors|
      invariant forall j :: 0 <= j < i ==> clickable(SurveyCloseSelectors[j]) == TimedOut
    {
      match clickable(SurveyCloseSelectors[i])
      case Clicked =>
        assert ClosedBy(clickable, i);
        return true;
      case TimedOut =>
      case Raised =>
        return false;
    }
    return false;
  }

  /** Only the first locator that does not time out decides: a later
      locator whose button would have been clickable is never tried. */
  lemma FirstFailureDecides(clickable: string -> ClickOutcome, i: nat)
    requires i < |SurveyCloseSelectors| && clickable(SurveyCloseSelectors[i]) == Raised
    requires forall j :: 0 <= j < i ==> clickable(SurveyCloseSelectors[j]) == TimedOut
    ensures forall n: nat :: !ClosedBy(clickable, n)
  {
  }
}
