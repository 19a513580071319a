/** Calendar days and the day comparison the picker's handlers rely on.

    A day is an integer day number. The handlers compare the parsed date with
    the other field's date by calendar day; the `isOutsideRange` prop, which
    may look at more than the day, is taken here as a predicate on days. A
    value that may be missing (a prop left null, a string that did not parse)
    is an Option.
 */
module DayUtils {

  datatype Option<+T> = None | Some(value: T)

  /** A calendar day, as a day number. */
  type Day = int

  /** `isInclusivelyBeforeDay(a, b)`: true when `a` falls on or before `b`.
      A missing operand is not a day at all, so the comparison is false. */
  function IsInclusivelyBeforeDay(a: Option<Day>, b: Option<Day>): (r: bool)
    ensures r ==> a.Some? && b.Some?
    ensures a.Some? && b.Some? ==> (r <==> !(b.value < a.value))
  {
    match (a, b)
    case (Some(x), Some(y)) => x <= y
    case _ => false
  }

  /** A selection is in order when, with both days present, the start day is
      strictly before the end day. A selection with a missing day is in order. */
  predicate Ordered(startDate: Option<Day>, endDate: Option<Day>) {
    startDate.Some? && endDate.Some? ==> startDate.value < endDate.value
  }
}
