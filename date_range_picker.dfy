/** The change, focus and clear handlers of the DateRangePicker component.

    Each handler reads the component's current props (and, for the two change
    handlers, the text typed into a field) and calls the caller's
    `onDatesChange({startDate, endDate})` and `onFocusChange(target)` callbacks.
    Here a handler returns the notifications it would send, in the order it
    sends them. Parsing the typed text against the display format is the
    caller-supplied `parse`; `isOutsideRange` is the predicate prop.
 */
module DateRangePicker {
  import opened DayUtils

  /** Which input is focused; `NONE` is the source's `null`. */
  datatype Focus = START_DATE | END_DATE | NONE

  /** The argument of `onDatesChange`. */
  datatype Selection = Selection(startDate: Option<Day>, endDate: Option<Day>)

  /** One notification sent to the caller. */
  datatype Event =
    | DatesChange(selection: Selection)
    | FocusChange(focus: Focus)

  /** The props the handlers read. */
  datatype Props = Props(
    startDate: Option<Day>,
    endDate: Option<Day>,
    focusedInput: Focus,
    disabled: bool,
    withFullScreenPortal: bool,
    keepOpenOnDateSelect: bool,
    reopenPickerOnClearDates: bool,
    isOutsideRange: Day -> bool)

  // ---------------------------------------------------------------------------
  // Reading a notification sequence the way a caller's callbacks see it

  /** The arguments `onDatesChange` receives, in order. */
  function Selections(events: seq<Event>): seq<Selection>
  {
    if events == [] then []
    else (if events[0].DatesChange? then [events[0].selection] else [])
         + Selections(events[1..])
  }

  /** The arguments `onFocusChange` receives, in order. */
  function FocusTargets(events: seq<Event>): seq<Focus>
  {
    if events == [] then []
    else (if events[0].FocusChange? then [events[0].focus] else [])
         + FocusTargets(events[1..])
  }

  /** No focus change is sent before a dates change. */
  predicate DatesBeforeFocus(events: seq<Event>) {
    forall i, j :: 0 <= i < j < |events| && events[j].DatesChange? ==> events[i].DatesChange?
  }

  /** Every selection sent has its start strictly before its end. */
  predicate SelectionsOrdered(events: seq<Event>) {
    forall e <- events :: e.DatesChange? ==> Ordered(e.selection.startDate, e.selection.endDate)
  }

  lemma SelectionsOfPair(s: Selection, f: Focus)
    ensures Selections([DatesChange(s), FocusChange(f)]) == [s]
    ensures FocusTargets([DatesChange(s), FocusChange(f)]) == [f]
  {
    var es := [DatesChange(s), FocusChange(f)];
    assert es[1..] == [FocusChange(f)];
    SelectionsOfSingle(FocusChange(f));
    assert Selections(es) == [s] + Selections(es[1..]);
    assert FocusTargets(es) == [] + FocusTargets(es[1..]);
  }

  lemma SelectionsOfSingle(e: Event)
    ensures Selections([e]) == if e.DatesChange? then [e.selection] else []
    ensures FocusTargets([e]) == if e.FocusChange? then [e.focus] else []
  {
  }

  // ---------------------------------------------------------------------------
  // The handlers

  /** `onClearFocus`: the tab / shift-tab handler closes the picker. */
  function OnClearFocus(): (events: seq<Event>)
    ensures Selections(events) == []
    ensures FocusTargets(events) == [NONE]
    ensures |events| == 1
  {
    SelectionsOfSingle(FocusChange(NONE));
    [FocusChange(NONE)]
  }

  /** `onEndDateChange`: the text typed into the end field. */
  function OnEndDateChange(p: Props, parse: string -> Option<Day>, endDateString: string): (events: seq<Event>)
    // exactly one onDatesChange, sent first, with the start passed through
    ensures |Selections(events)| == 1 && events[0].DatesChange?
    ensures events[0].selection.startDate == p.startDate
    // the end is kept iff it parsed, is in range and is strictly after the start (if any)
    ensures events[0].selection.endDate.Some? <==>
      (&& parse(endDateString).Some?
       && !p.isOutsideRange(parse(endDateString).value)
       && (p.startDate.Some? ==> p.startDate.value < parse(endDateString).value))
    ensures events[0].selection.endDate.Some? ==> events[0].selection.endDate == parse(endDateString)
    // the picker closes exactly when the end was accepted and is not kept open
    ensures FocusTargets(events) ==
      if events[0].selection.endDate.Some? && !p.keepOpenOnDateSelect then [NONE] else []
    ensures DatesBeforeFocus(events) && SelectionsOrdered(events)
  {
    var endDate := parse(endDateString);
    var isEndDateValid := endDate.Some? && !p.isOutsideRange(endDate.value)
      && !IsInclusivelyBeforeDay(endDate, p.startDate);
    if isEndDateValid then
      if !p.keepOpenOnDateSelect then
        SelectionsOfPair(Selection(p.startDate, endDate), NONE);
        [DatesChange(Selection(p.startDate, endDate)), FocusChange(NONE)]
      else
        SelectionsOfSingle(DatesChange(Selection(p.startDate, endDate)));
        [DatesChange(Selection(p.startDate, endDate))]
    else
      SelectionsOfSingle(DatesChange(Selection(p.startDate, None)));
      [DatesChange(Selection(p.startDate, None))]
  }

  /** `onEndDateFocus`: the end field received focus. */
  function OnEndDateFocus(p: Props): (events: seq<Event>)
    ensures Selections(events) == []
    ensures events == [] <==> p.disabled
    ensures |events| <= 1
    ensures forall e <- events :: e.FocusChange? && e.focus != NONE
    // in full-screen mode the end field is never opened before a start exists
    ensures events != [] ==>
      (events[0].focus == START_DATE <==> p.startDate.None? && p.withFullScreenPortal)
  {
    if p.startDate.None? && p.withFullScreenPortal && !p.disabled then
      SelectionsOfSingle(FocusChange(START_DATE));
      [FocusChange(START_DATE)]
    else if !p.disabled then
      SelectionsOfSingle(FocusChange(END_DATE));
      [FocusChange(END_DATE)]
    else
      []
  }

  /** `onOutsideClick`: an interaction outside the picker closes it if open. */
  function OnOutsideClick(p: Props): (events: seq<Event>)
    ensures Selections(events) == []
    ensures events == [] <==> p.focusedInput == NONE
    ensures forall e <- events :: e == FocusChange(NONE)
    ensures |events| <= 1
  {
    if p.focusedInput == NONE then []
    else
      SelectionsOfSingle(FocusChange(NONE));
      [FocusChange(NONE)]
  }

  /** `onStartDateChange`: the text typed into the start field. */
  function OnStartDateChange(p: Props, parse: string -> Option<Day>, startDateString: string): (events: seq<Event>)
    // exactly one onDatesChange, sent first
    ensures |Selections(events)| == 1 && events[0].DatesChange?
    // the start is kept iff it parsed and is in range
    ensures events[0].selection.startDate.Some? <==>
      parse(startDateString).Some? && !p.isOutsideRange(parse(startDateString).value)
    ensures events[0].selection.startDate.Some? ==> events[0].selection.startDate == parse(startDateString)
    // the end is either passed through or cleared; it is cleared exactly when
    // an accepted start falls on or after it
    ensures events[0].selection.endDate == p.endDate || events[0].selection.endDate == None
    ensures events[0].selection.endDate != p.endDate <==>
      (&& events[0].selection.startDate.Some?
       && p.endDate.Some?
       && p.endDate.value <= events[0].selection.startDate.value)
    // an accepted start moves focus to the end field; a rejected one does not move focus
    ensures FocusTargets(events) == if events[0].selection.startDate.Some? then [END_DATE] else []
    ensures DatesBeforeFocus(events) && SelectionsOrdered(events)
  {
    var startDate := parse(startDateString);
    var isStartDateValid := startDate.Some? && !p.isOutsideRange(startDate.value);
    if isStartDateValid then
      var endDate := if IsInclusivelyBeforeDay(p.endDate, startDate) then None else p.endDate;
      SelectionsOfPair(Selection(startDate, endDate), END_DATE);
      [DatesChange(Selection(startDate, endDate)), FocusChange(END_DATE)]
    else
      SelectionsOfSingle(DatesChange(Selection(None, p.endDate)));
      [DatesChange(Selection(None, p.endDate))]
  }

  /** `onStartDateFocus`: the start field received focus. */
  function OnStartDateFocus(p: Props): (events: seq<Event>)
    ensures Selections(events) == []
    ensures events == [] <==> p.disabled
    ensures forall e <- events :: e == FocusChange(START_DATE)
    ensures |events| <= 1
  {
    if !p.disabled then
      SelectionsOfSingle(FocusChange(START_DATE));
      [FocusChange(START_DATE)]
    else
      []
  }

  /** `clearDates`: the clear button empties both fields. */
  function ClearDates(p: Props): (events: seq<Event>)
    ensures events != [] && events[0] == DatesChange(Selection(None, None))
    ensures Selections(events) == [Selection(None, None)]
    ensures FocusTargets(events) == if p.reopenPickerOnClearDates then [START_DATE] else []
    ensures DatesBeforeFocus(events)
  {
    if p.reopenPickerOnClearDates then
      SelectionsOfPair(Selection(None, None), START_DATE);
      [DatesChange(Selection(None, None)), FocusChange(START_DATE)]
    else
      SelectionsOfSingle(DatesChange(Selection(None, None)));
      [DatesChange(Selection(None, None))]
  }

  // ---------------------------------------------------------------------------
  // Properties that follow from the handlers' contracts

  /** Typed text that does not parse nulls the field typed into, passes the
      other field through and never moves focus. */
  lemma UnparseableTextNullsItsField(p: Props, parse: string -> Option<Day>, text: string)
    requires parse(text).None?
    ensures OnStartDateChange(p, parse, text) == [DatesChange(Selection(None, p.endDate))]
    ensures OnEndDateChange(p, parse, text) == [DatesChange(Selection(p.startDate, None))]
  {
  }

  /** An end typed on or before the start is refused: the start stays, the
      end is nulled and the picker stays open. */
  lemma EndOnOrBeforeStartRefused(p: Props, parse: string -> Option<Day>, text: string)
    requires p.startDate.Some? && parse(text).Some?
    requires parse(text).value <= p.startDate.value
    ensures OnEndDateChange(p, parse, text) == [DatesChange(Selection(p.startDate, None))]
  {
  }
}
