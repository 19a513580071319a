# DateRangePicker selection and focus handlers, in Dafny

This project models the decision logic of the react-dates `DateRangePicker`
component: the handlers its two text inputs, its calendar and its clear button
call when the user types a date, focuses a field, tabs out, clicks outside or
clears. Each handler reads the current props (`startDate`, `endDate`,
`focusedInput`, `disabled`, `withFullScreenPortal`, `keepOpenOnDateSelect`,
`reopenPickerOnClearDates`, `isOutsideRange`) and decides which
`onDatesChange({startDate, endDate})` and `onFocusChange(target)` calls to make,
and in which order.

- `day_utils.dfy` (module `DayUtils`): days as integer day numbers, `Option`
  for a missing date, `isInclusivelyBeforeDay`, and the order predicate
  "start strictly before end when both are present".
- `date_range_picker.dfy` (module `DateRangePicker`): the props, the
  notifications (`Event = DatesChange(selection) | FocusChange(focus)`), and
  the seven handlers as pure functions returning the ordered notifications.
  `Selections` and `FocusTargets` give what each callback receives, in order.
- `controlled_picker.dfy` (module `ControlledPicker`): the component used as a
  controlled component. The caller stores the dates and focus, applies every
  notification and passes the result back as props. `Handle` routes each user
  action to the handler the render method wires it to, `Step` applies one
  action's notifications, and `Run` applies a series of actions. The proofs
  here show that the start-before-end order holds for the whole run once it
  holds at the start.

Typed text is turned into a day by a `parse` parameter. It stands for
`toMomentObject` with the active display format. `isOutsideRange` is a
predicate carried in the props.

`minimumNights` (default 1, src/components/DateRangePicker.jsx:37) is not
enforced by the typed-input handlers: they only compare the end with the start
(lines 116-117 and 156-158), and the prop is only forwarded to the calendar at
line 315. So a typed end one day after the start is accepted whatever
`minimumNights` is.

## Model

| member | source | states |
|---|---|---|
| DayUtils.IsInclusivelyBeforeDay | src/components/DateRangePicker.jsx:116-158 | true only when both days are present, and then exactly when the first is not strictly after the second; a missing operand gives false, so an end typed with no start set is accepted (116-117) and a start typed with no end set clears nothing (156-158) |
| DateRangePicker.OnClearFocus | src/components/DateRangePicker.jsx:101-103 | sends no dates change and exactly one focus change, to null |
| DateRangePicker.OnEndDateChange | src/components/DateRangePicker.jsx:105-127 | exactly one dates change, sent first, with the start passed through; the end is kept iff it parsed, is not outside the range and is strictly after the start (when there is one), otherwise null; focus goes to null exactly when the end was kept and `keepOpenOnDateSelect` is false, and there is no focus change otherwise; every selection sent is in order |
| DateRangePicker.OnEndDateFocus | src/components/DateRangePicker.jsx:129-140 | nothing is sent iff disabled; otherwise exactly one focus change, never to null, and it is START_DATE exactly when there is no start and the picker is full-screen, END_DATE otherwise |
| DateRangePicker.OnOutsideClick | src/components/DateRangePicker.jsx:142-147 | nothing is sent iff no input is focused; otherwise exactly one focus change, to null; no dates change |
| DateRangePicker.OnStartDateChange | src/components/DateRangePicker.jsx:149-168 | exactly one dates change, sent first; the start is kept iff it parsed and is not outside the range, otherwise null; the end is passed through or nulled, and it is nulled exactly when an accepted start falls on or after it; focus moves to END_DATE exactly when the start was accepted, with no focus change otherwise; every selection sent is in order |
| DateRangePicker.OnStartDateFocus | src/components/DateRangePicker.jsx:170-174 | nothing is sent iff disabled; otherwise exactly one focus change, to START_DATE |
| DateRangePicker.ClearDates | src/components/DateRangePicker.jsx:217-223 | first sends a dates change with both dates null; then one focus change to START_DATE iff `reopenPickerOnClearDates`, and no focus change otherwise |
| DateRangePicker.UnparseableTextNullsItsField | src/components/DateRangePicker.jsx:105-168 | text that does not parse, typed in either field, nulls that field, passes the other through unchanged and sends no focus change |
| DateRangePicker.EndOnOrBeforeStartRefused | src/components/DateRangePicker.jsx:116-125 | an end typed on or before the start (the same day included) is refused: the only notification keeps the start and nulls the end |
| ControlledPicker.Handle | src/components/DateRangePicker.jsx:284-374 | routes each action as the render methods wire it (outside click at 284 and 312, close button at 321-325, input events at 365-374): focusing the start field sends START_DATE unless disabled; focusing the end field sends nothing when disabled, START_DATE in full-screen mode with no start, END_DATE otherwise; the calendar's outside click does nothing in full-screen mode, the close button does nothing outside it, and where either is wired it closes an open picker; Shift-Tab out of the start field and Tab out of the end field send exactly one focus change, to null; for every action at most one dates change and at most one focus change are sent, no focus change comes before a dates change, every selection sent is in order, and exactly the typing and clear actions send a dates change |
| ControlledPicker.Step | src/components/DateRangePicker.jsx:101-223 | after a typing or clear action the caller's selection is in order, whatever it was before; any other action leaves the caller's dates unchanged; no action changes the settings props |
| ControlledPicker.Run | src/components/DateRangePicker.jsx:101-374 | across any series of actions the settings props do not change, and a selection that starts in order stays in order |
| ControlledPicker.StepTypedValidStart | src/components/DateRangePicker.jsx:154-161 | a valid typed start becomes the caller's start and focus moves to END_DATE; the caller's end is kept unless it falls on or before the new start, in which case it becomes null |
| ControlledPicker.StepTypedValidEnd | src/components/DateRangePicker.jsx:116-120 | a valid typed end after the caller's start (or with no start) becomes the caller's end, the start is kept, and focus becomes null unless `keepOpenOnDateSelect` is set, when it stays where it was |
| ControlledPicker.TypeStartThenEnd | src/components/DateRangePicker.jsx:114-161 | typing a valid start and then a valid later end leaves exactly those two days selected, with focus at null, or at END_DATE when `keepOpenOnDateSelect` is set |
| ControlledPicker.ClearDatesIdempotent | src/components/DateRangePicker.jsx:217-223 | clearing leaves both dates null and focus at START_DATE if `reopenPickerOnClearDates` is set, unchanged otherwise; clearing a second time changes nothing |
| ControlledPicker.ClosedPickerIgnoresOutsideClick | src/components/DateRangePicker.jsx:284-325 | after tabbing out of the end field (which sends focus null, lines 101-103 wired at 370), an outside click or the close button sends nothing, in either portal mode |
| ControlledPicker.FullScreenOpensStartFirst | src/components/DateRangePicker.jsx:129-161 | in full-screen mode with no start, focusing the end field focuses the start field; a valid start typed there then moves focus to the end field |
| ControlledPicker.RefusedEndKeepsFocus | src/components/DateRangePicker.jsx:116-126 | a refused end (unparseable, outside the range, or on or before the start) nulls the caller's end, keeps the start and leaves focus where it was |

## Left out

- Rendering: `render`, `renderDayPicker`, `maybeRenderDayPickerWithPortal`, the portal's open flag and the CSS classes of `getDayPickerContainerClasses`. They are presentation only. From the render methods the model keeps only which handler each input, calendar and button event is wired to (`ControlledPicker.Handle`).
- `responsivizePickerPosition` and its resize listeners. They read the overlay's geometry from the DOM, and the offset arithmetic lives in `getResponsiveContainerStyles`, which is not part of this model.
- Date parsing and formatting (`toMomentObject`, `getDisplayFormat`, `getDateString`, `toLocalizedDateString`, moment itself). These are foreign library calls; parsing is the `parse` parameter.
- The default `isOutsideRange` reads the wall clock. The model takes the predicate as a prop and does not model the default.
- `isOutsideRange` receives a full moment in the source and may look at the time of day. The model passes it a day number only, so a predicate that treats two times on the same day differently is not captured.
- Day clicks and hovering on the calendar. The render method passes `this.onDayClick`, `this.onDayMouseEnter` and `this.onDayMouseLeave` (src/components/DateRangePicker.jsx:297-300), but the class never defines them, so the calendar receives `undefined` for them. For selecting days the calendar receives `onDatesChange`, `onFocusChange` and `minimumNights` directly (303-304, 315). What it does with them is decided by the calendar component, which is not part of this model.
- `isTouchDevice` and `findDOMNode`, which probe the environment.
- ControlledPicker.Handle: the clear action is modelled as always available. Whether the clear button is shown (`showClearDates`) is decided by the input component, which is not part of this model.
