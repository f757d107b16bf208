/**
 * The Search action: validate the entered number, record it in the history
 * the first time it is seen, then fill the information panel.
 */
module Tracker {
  import opened HistoryList
  import opened Display

  /** The phone-number library's parse of the entered text. */
  datatype ParseOutcome =
    | ParseFailed                           // the parser raised an exception
    | Parsed(isValid: bool, info: NumberInfo)

  /** A number may be tracked only when it parses and the library calls it valid. */
  predicate IsValidNumber(p: ParseOutcome): (ok: bool)
    ensures p == ParseFailed ==> !ok          // the parse exception is caught and reported as invalid
    ensures p.Parsed? ==> (ok <==> p.isValid)  // otherwise the library's own verdict
  {
    p.Parsed? && p.isValid
  }

  /** What the user sees after pressing Search. */
  datatype TrackOutcome = InvalidNumberError | Displayed

  /**
   * Tracks `entered`: on an invalid number only the error dialog is shown;
   * otherwise the number is added to the history when absent, before the
   * panel is filled from the lookups.
   */
  method Track(history: History, panel: InfoPanel, entered: string,
               parse: string -> ParseOutcome, svc: Services) returns (outcome: TrackOutcome)
    requires history.Valid()
    modifies history, panel
    ensures history.Valid()
    ensures outcome == InvalidNumberError <==> !IsValidNumber(parse(entered))
    ensures outcome == InvalidNumberError ==>
      history.entries == old(history.entries) && panel.Current() == old(panel.Current())
    ensures outcome == Displayed ==>
      history.entries == AddIfAbsent(old(history.entries), entered)
      && panel.Current() == Render(parse(entered).info, svc)
  {
    if !IsValidNumber(parse(entered)) {
      return InvalidNumberError;
    }
    var number := parse(entered);
    history.Add(entered);
    panel.ShowInformation(number.info, svc);
    outcome := Displayed;
  }
}
