/** The DateRangePicker used as a controlled component.

    The picker keeps no selection of its own: its caller stores startDate,
    endDate and focusedInput, passes them back in as props, and updates them
    from every `onDatesChange` / `onFocusChange` notification. This module
    models that loop. `Handle` routes a user action to the handler the
    component wires it to; `Step` applies the notifications to the props as the
    caller would; `Run` does this for a series of actions. The lemmas state what
    holds of the caller's state across such a run.
 */
module ControlledPicker {
  import opened DayUtils
  import opened DateRangePicker

  /** A user action on the rendered picker. */
  datatype Action =
    | TypeStartDate(text: string)   // input's onStartDateChange
    | TypeEndDate(text: string)     // input's onEndDateChange
    | FocusStartDate                // input's onStartDateFocus
    | FocusEndDate                  // input's onEndDateFocus
    | StartDateShiftTab             // input's onStartDateShiftTab
    | EndDateTab                    // input's onEndDateTab
    | OutsideClick                  // calendar's onOutsideClick
    | CloseButtonClick              // the full-screen close button
    | ClearDatesClick               // input's onClearDates

  function Last<T>(s: seq<T>): T
    requires s != []
  {
    s[|s| - 1]
  }

  /** The settings a caller does not change in response to notifications. */
  ghost predicate SameSettings(p: Props, q: Props) {
    && q.disabled == p.disabled
    && q.withFullScreenPortal == p.withFullScreenPortal
    && q.keepOpenOnDateSelect == p.keepOpenOnDateSelect
    && q.reopenPickerOnClearDates == p.reopenPickerOnClearDates
    && q.isOutsideRange == p.isOutsideRange
  }

  /** The caller's response to one notification. */
  function Apply(p: Props, e: Event): Props {
    match e
    case DatesChange(s) => p.(startDate := s.startDate, endDate := s.endDate)
    case FocusChange(f) => p.(focusedInput := f)
  }

  /** The caller's response to a sequence of notifications, in order. */
  function ApplyAll(p: Props, events: seq<Event>): Props
    decreases |events|
  {
    if events == [] then p else ApplyAll(Apply(p, events[0]), events[1..])
  }

  /** The handler each action is wired to. The calendar's outside click is
      not wired in full-screen mode, and the close button exists only there. */
  function Handle(p: Props, parse: string -> Option<Day>, a: Action): (events: seq<Event>)
    ensures |Selections(events)| <= 1 && |FocusTargets(events)| <= 1
    ensures DatesBeforeFocus(events)
    ensures SelectionsOrdered(events)
    ensures a.TypeStartDate? || a.TypeEndDate? || a.ClearDatesClick? <==> |Selections(events)| == 1
    // in full-screen mode there is no outside: the calendar's outside click does nothing
    ensures a.OutsideClick? && p.withFullScreenPortal ==> events == []
    // the close button is rendered only in full-screen mode
    ensures a.CloseButtonClick? && !p.withFullScreenPortal ==> events == []
    // either button closes an open picker where it is wired
    ensures (a.OutsideClick? && !p.withFullScreenPortal) || (a.CloseButtonClick? && p.withFullScreenPortal) ==>
      events == if p.focusedInput == NONE then [] else [FocusChange(NONE)]
    // tabbing out of either field closes the picker
    ensures a.StartDateShiftTab? || a.EndDateTab? ==> events == [FocusChange(NONE)]
    // focusing the start field opens it unless disabled
    ensures a.FocusStartDate? ==> events == if p.disabled then [] else [FocusChange(START_DATE)]
    // focusing the end field opens it unless disabled, or opens the start
    // field instead in full-screen mode while there is no start
    ensures a.FocusEndDate? ==>
      (events ==
         if p.disabled then []
         else if p.startDate.None? && p.withFullScreenPortal then [FocusChange(START_DATE)]
         else [FocusChange(END_DATE)])
  {
    match a
    case TypeStartDate(t) => OnStartDateChange(p, parse, t)
    case TypeEndDate(t) => OnEndDateChange(p, parse, t)
    case FocusStartDate => OnStartDateFocus(p)
    case FocusEndDate => OnEndDateFocus(p)
    case StartDateShiftTab => OnClearFocus()
    case EndDateTab => OnClearFocus()
    case OutsideClick => if p.withFullScreenPortal then [] else OnOutsideClick(p)
    case CloseButtonClick => if p.withFullScreenPortal then OnOutsideClick(p) else []
    case ClearDatesClick => ClearDates(p)
  }

  /** One action: the caller's props after it has applied the notifications. */
  function Step(p: Props, parse: string -> Option<Day>, a: Action): (q: Props)
    ensures SameSettings(p, q)
    // a date-changing action always leaves the selection in order
    ensures (a.TypeStartDate? || a.TypeEndDate? || a.ClearDatesClick?) ==> Ordered(q.startDate, q.endDate)
    // any other action leaves the dates alone
    ensures !(a.TypeStartDate? || a.TypeEndDate? || a.ClearDatesClick?) ==>
      q.startDate == p.startDate && q.endDate == p.endDate
  {
    var events := Handle(p, parse, a);
    ApplyAllOutcome(p, events);
    if Selections(events) != [] then
      SelectionsOrderedAll(events);
      assert Last(Selections(events)) in Selections(events);
      ApplyAll(p, events)
    else
      ApplyAll(p, events)
  }

  /** A series of actions, each handled against the props the previous one left. */
  function Run(p: Props, parse: string -> Option<Day>, actions: seq<Action>): (q: Props)
    ensures SameSettings(p, q)
    // the order invariant, once it holds, holds for ever after
    ensures Ordered(p.startDate, p.endDate) ==> Ordered(q.startDate, q.endDate)
    decreases |actions|
  {
    if actions == [] then p else Run(Step(p, parse, actions[0]), parse, actions[1..])
  }

  // ---------------------------------------------------------------------------
  // Lemmas about the caller's state

  /** After applying a notification sequence the caller holds the last
      selection and the last focus target it was sent, and nothing else. */
  lemma {:induction false} ApplyAllOutcome(p: Props, events: seq<Event>)
    ensures SameSettings(p, ApplyAll(p, events))
    ensures Selections(events) == [] ==>
      ApplyAll(p, events).startDate == p.startDate && ApplyAll(p, events).endDate == p.endDate
    ensures Selections(events) != [] ==>
      && ApplyAll(p, events).startDate == Last(Selections(events)).startDate
      && ApplyAll(p, events).endDate == Last(Selections(events)).endDate
    ensures FocusTargets(events) == [] ==> ApplyAll(p, events).focusedInput == p.focusedInput
    ensures FocusTargets(events) != [] ==> ApplyAll(p, events).focusedInput == Last(FocusTargets(events))
    decreases |events|
  {
    if events != [] {
      var rest := events[1..];
      ApplyAllOutcome(Apply(p, events[0]), rest);
      assert Selections(events) == (if events[0].DatesChange? then [events[0].selection] else []) + Selections(rest);
      assert FocusTargets(events) == (if events[0].FocusChange? then [events[0].focus] else []) + FocusTargets(rest);
    }
  }

  /** Every selection a sequence sends is in order when the sequence's dates
      changes all are. */
  lemma {:induction false} SelectionsOrderedAll(events: seq<Event>)
    requires SelectionsOrdered(events)
    ensures forall s <- Selections(events) :: Ordered(s.startDate, s.endDate)
    decreases |events|
  {
    if events != [] {
      SelectionsOrderedAll(events[1..]);
      assert Selections(events) == (if events[0].DatesChange? then [events[0].selection] else []) + Selections(events[1..]);
    }
  }

  /** A valid typed start becomes the caller's start and moves focus to the
      end field; the caller's end survives only if it is after the new start. */
  lemma StepTypedValidStart(p: Props, parse: string -> Option<Day>, startText: string)
    requires parse(startText).Some? && !p.isOutsideRange(parse(startText).value)
    ensures Step(p, parse, TypeStartDate(startText)).startDate == parse(startText)
    ensures Step(p, parse, TypeStartDate(startText)).focusedInput == END_DATE
    ensures Step(p, parse, TypeStartDate(startText)).endDate ==
      if p.endDate.Some? && p.endDate.value <= parse(startText).value then None else p.endDate
  {
    ApplyAllOutcome(p, OnStartDateChange(p, parse, startText));
  }

  /** A valid typed end after the caller's start becomes the caller's end;
      the picker closes unless it is kept open. */
  lemma StepTypedValidEnd(p: Props, parse: string -> Option<Day>, endText: string)
    requires parse(endText).Some? && !p.isOutsideRange(parse(endText).value)
    requires p.startDate.Some? ==> p.startDate.value < parse(endText).value
    ensures Step(p, parse, TypeEndDate(endText)).startDate == p.startDate
    ensures Step(p, parse, TypeEndDate(endText)).endDate == parse(endText)
    ensures Step(p, parse, TypeEndDate(endText)).focusedInput ==
      if p.keepOpenOnDateSelect then p.focusedInput else NONE
  {
    ApplyAllOutcome(p, OnEndDateChange(p, parse, endText));
  }

  /** Typing a valid start and then a valid later end selects exactly those
      two days; the picker then closes unless it is kept open. */
  lemma TypeStartThenEnd(p: Props, parse: string -> Option<Day>, startText: string, endText: string)
    requires parse(startText).Some? && !p.isOutsideRange(parse(startText).value)
    requires parse(endText).Some? && !p.isOutsideRange(parse(endText).value)
    requires parse(startText).value < parse(endText).value
    ensures Run(p, parse, [TypeStartDate(startText), TypeEndDate(endText)]).startDate == parse(startText)
    ensures Run(p, parse, [TypeStartDate(startText), TypeEndDate(endText)]).endDate == parse(endText)
    ensures Run(p, parse, [TypeStartDate(startText), TypeEndDate(endText)]).focusedInput ==
      if p.keepOpenOnDateSelect then END_DATE else NONE
  {
    var actions := [TypeStartDate(startText), TypeEndDate(endText)];
    var p1 := Step(p, parse, actions[0]);
    StepTypedValidStart(p, parse, startText);
    var p2 := Step(p1, parse, actions[1]);
    StepTypedValidEnd(p1, parse, endText);
    assert actions[1..][1..] == [];
    assert Run(p, parse, actions) == Run(p1, parse, actions[1..]) == Run(p2, parse, []);
  }

  /** Clearing twice leaves the caller where clearing once did. */
  lemma ClearDatesIdempotent(p: Props, parse: string -> Option<Day>)
    ensures Step(p, parse, ClearDatesClick).startDate == None
    ensures Step(p, parse, ClearDatesClick).endDate == None
    ensures Step(p, parse, ClearDatesClick).focusedInput ==
      if p.reopenPickerOnClearDates then START_DATE else p.focusedInput
    ensures Step(Step(p, parse, ClearDatesClick), parse, ClearDatesClick) == Step(p, parse, ClearDatesClick)
  {
    var p1 := Step(p, parse, ClearDatesClick);
    ApplyAllOutcome(p, ClearDates(p));
    ApplyAllOutcome(p1, ClearDates(p1));
  }

  /** Once the picker has been closed by tabbing out, an outside click or the
      close button sends nothing. */
  lemma ClosedPickerIgnoresOutsideClick(p: Props, parse: string -> Option<Day>)
    ensures Handle(Step(p, parse, EndDateTab), parse, OutsideClick) == []
    ensures Handle(Step(p, parse, EndDateTab), parse, CloseButtonClick) == []
  {
  }

  /** In full-screen mode, focusing the end field with no start opens the
      start field; a valid start typed there then moves focus to the end. */
  lemma FullScreenOpensStartFirst(p: Props, parse: string -> Option<Day>, startText: string)
    requires !p.disabled && p.withFullScreenPortal && p.startDate.None?
    requires parse(startText).Some? && !p.isOutsideRange(parse(startText).value)
    ensures Step(p, parse, FocusEndDate).focusedInput == START_DATE
    ensures Run(p, parse, [FocusEndDate, TypeStartDate(startText)]).focusedInput == END_DATE
    ensures Run(p, parse, [FocusEndDate, TypeStartDate(startText)]).startDate == parse(startText)
  {
    var actions := [FocusEndDate, TypeStartDate(startText)];
    var p1 := Step(p, parse, FocusEndDate);
    ApplyAllOutcome(p, OnEndDateFocus(p));
    var p2 := Step(p1, parse, actions[1]);
    StepTypedValidStart(p1, parse, startText);
    assert actions[1..][1..] == [];
    assert Run(p, parse, actions) == Run(p1, parse, actions[1..]) == Run(p2, parse, []);
  }

  /** A refused end nulls the caller's end, keeps its start and leaves focus
      where it was, so the user can type again. */
  lemma RefusedEndKeepsFocus(p: Props, parse: string -> Option<Day>, endText: string)
    requires || parse(endText).None?
             || p.isOutsideRange(parse(endText).value)
             || (p.startDate.Some? && parse(endText).value <= p.startDate.value)
    ensures Step(p, parse, TypeEndDate(endText)).startDate == p.startDate
    ensures Step(p, parse, TypeEndDate(endText)).endDate == None
    ensures Step(p, parse, TypeEndDate(endText)).focusedInput == p.focusedInput
  {
    ApplyAllOutcome(p, OnEndDateChange(p, parse, endText));
  }
}
