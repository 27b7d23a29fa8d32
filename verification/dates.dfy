/** The business time zone kept in `localStorage`, the placeholder the date
    formatters show for a missing date, and the hour window in which text
    messages may be sent. Time-zone conversion and date formatting are done by
    a library: their results are inputs here. */
module Dates {
  import opened Js
  import opened Text
  import opened Browser

  const DefaultTimezone := "America/Chicago"
  const BusinessTzKey := "businessTimezone"

  /** The placeholder `'—'` (an em dash). */
  const Placeholder := "\U{2014}"

  /** `setBusinessTimezone(tz)`: the trimmed value is stored when it is not
      empty; without a window nothing happens. */
  function SetBusinessTimezone(win: Option<Window>, tz: Option<string>): (after: Option<Window>)
    ensures after.None? <==> win.None?
    ensures after.Some? ==> after.value == win.value.(storage := after.value.storage)
    ensures win.Some? && tz.Some? && Trim(tz.value) != "" ==>
      after.value.storage == win.value.storage[BusinessTzKey := Trim(tz.value)]
    ensures !(tz.Some? && Trim(tz.value) != "") ==> after == win
  {
    if win.Some? && tz.Some? && Trim(tz.value) != "" then
      Some(win.value.(storage := win.value.storage[BusinessTzKey := Trim(tz.value)]))
    else win
  }

  /** `getBusinessTimezone()`: the trimmed stored value, or the default. */
  function GetBusinessTimezone(win: Option<Window>): (tz: string)
    ensures tz != ""
    ensures win.None? || BusinessTzKey !in win.value.storage ==> tz == DefaultTimezone
    ensures win.Some? && BusinessTzKey in win.value.storage && Trim(win.value.storage[BusinessTzKey]) != "" ==>
      tz == Trim(win.value.storage[BusinessTzKey])
    ensures win.Some? && BusinessTzKey in win.value.storage && Trim(win.value.storage[BusinessTzKey]) == "" ==>
      tz == DefaultTimezone
  {
    if win.None? then DefaultTimezone
    else
      var stored := GetItem(win.value.storage, BusinessTzKey);
      if stored.Some? && Trim(stored.value) != "" then Trim(stored.value) else DefaultTimezone
  }

  /** Setting a zone and reading it back gives the trimmed zone. */
  lemma SetThenGet(win: Window, tz: string)
    requires Trim(tz) != ""
    ensures GetBusinessTimezone(SetBusinessTimezone(Some(win), Some(tz))) == Trim(tz)
  {
    TrimIdempotent(tz);
  }

  /** A blank zone leaves the stored one in place. */
  lemma BlankSetKeepsZone(win: Option<Window>, tz: string)
    requires Trim(tz) == ""
    ensures GetBusinessTimezone(SetBusinessTimezone(win, Some(tz))) == GetBusinessTimezone(win)
  {
  }

  /** The zone a formatter uses: `tz?.trim() || getBusinessTimezone()`. */
  function Zone(tz: Option<string>, win: Option<Window>): (zone: string)
    ensures zone != ""
    ensures tz.Some? && Trim(tz.value) != "" ==> zone == Trim(tz.value)
    ensures !(tz.Some? && Trim(tz.value) != "") ==> zone == GetBusinessTimezone(win)
  {
    if tz.Some? && Trim(tz.value) != "" then Trim(tz.value) else GetBusinessTimezone(win)
  }

  /** `formatInBusinessTz` and `humanizeTime`: a falsy input shows the
      placeholder; otherwise the library's rendering, `None` when the date is
      invalid, which shows the placeholder too. */
  function FormatOrPlaceholder(input: JsValue, rendered: Option<string>): (text: string)
    ensures !Truthy(input) ==> text == Placeholder
    ensures Truthy(input) && rendered.None? ==> text == Placeholder
    ensures Truthy(input) && rendered.Some? ==> text == rendered.value
  {
    if !Truthy(input) then Placeholder
    else if rendered.None? then Placeholder
    else rendered.value
  }

  /** The library's reading of an instant in the business zone; minutes are
      never negative. */
  datatype LocalTime = LocalTime(hour: int, minute: nat)

  /** `isWithinTcpaWindow(instant, tz, startHour, endHour)`, given the local
      time of the instant (`None` when it is invalid). Omitted hours default to
      8 and 20. */
  function IsWithinTcpaWindow(local: Option<LocalTime>, startHour: Option<int>, endHour: Option<int>): (ok: bool)
    ensures local.None? ==> !ok
    ensures local.Some? ==>
      (ok <==> startHour.GetOr(8) <= local.value.hour < endHour.GetOr(20))
  {
    if local.None? then false
    else
      var start := startHour.GetOr(8);
      var end := endHour.GetOr(20);
      var hour := local.value.hour;
      var afterStart := hour > start || (hour == start && local.value.minute >= 0);
      afterStart && hour < end
  }

  /** With the defaults, messages go out from 8:00 up to, not including,
      20:00. */
  lemma DefaultTcpaWindow(hour: int, minute: nat)
    ensures IsWithinTcpaWindow(Some(LocalTime(hour, minute)), None, None) <==> 8 <= hour < 20
  {
  }
}
