/** `Date.formatRelativeTime`: how a past instant is rendered depends only
    on the number of whole days elapsed between it and now. Only the
    choice of rendering is modelled; the text a date formatter produces for
    a pattern is the platform's. */
module RelativeTime {
  import opened Common

  /** Either a date-formatter pattern applied to the instant, or a fixed
      text. */
  datatype Rendering = Pattern(format: string) | Literal(text: string)

  const TimeOfDay: Rendering := Pattern("HH:mm")
  const Yesterday: Rendering := Literal("Yesterday")
  const DayName: Rendering := Pattern("EEEE")
  const ShortDate: Rendering := Pattern("dd/MM/yy")

  /** The rendering chosen for the calendar's day component of the
      difference (absent when the calendar gives none). */
  function FormatRelativeTime(dayComponent: Option<int>): (r: Rendering)
    ensures var d := dayComponent.GetOr(0);
      && (r == TimeOfDay <==> d == 0)
      && (r == Yesterday <==> d == 1)
      && (r == DayName <==> d < 7 && d != 0 && d != 1)
      && (r == ShortDate <==> d >= 7)
  {
    var difference := dayComponent.GetOr(0);
    if difference == 0 then TimeOfDay
    else if difference == 1 then Yesterday
    else if difference < 7 then DayName
    else ShortDate
  }

  /** Every difference selects exactly one of the four renderings; an absent
      day component renders like a difference of zero, and a future instant
      (negative difference) gets the weekday name. */
  lemma ExactlyOneRendering(dayComponent: Option<int>)
    ensures var r := FormatRelativeTime(dayComponent);
      r in {TimeOfDay, Yesterday, DayName, ShortDate}
    ensures FormatRelativeTime(None) == TimeOfDay
    ensures dayComponent.Some? && dayComponent.value < 0 ==> FormatRelativeTime(dayComponent) == DayName
  {
  }
}
