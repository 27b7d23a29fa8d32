/** The trial banner state: when the trial ended, how many days remain, and
    whether it has expired, set from an end date or from a 402 "upgrade"
    response. Dates are millisecond timestamps: `new Date(iso).getTime()` is
    an input, with `None` for an unparseable date (`NaN`). */
module TrialBanner {
  import opened Js

  const DayMs: int := 1000 * 60 * 60 * 24

  /** `trialDaysRemaining`: `null`, `NaN`, or a whole number of days. */
  datatype Remaining = NoCount | NaNCount | Count(days: int)

  /** The three refs `trialExpired`, `trialEndedAt`, `trialDaysRemaining`. */
  datatype TrialState = TrialState(expired: bool, endedAt: JsValue, daysRemaining: Remaining)

  const Initial := TrialState(false, Null, NoCount)

  /** `Math.ceil(x / d)` for a positive divisor, on integers. */
  function CeilDiv(x: int, d: int): (q: int)
    requires d > 0
    ensures d * (q - 1) < x <= d * q
  {
    -((-x) / d)
  }

  /** A whole-day ceiling is positive exactly when the time is positive. */
  lemma CeilDayPositive(x: int)
    ensures CeilDiv(x, DayMs) > 0 <==> x > 0
  {
  }

  /** `updateFromIso(iso)`, where `end` is the parsed end time and `now` the
      current time. */
  function UpdateFromIso(iso: JsValue, end: Option<int>, now: int): (s: TrialState)
    ensures s.endedAt == Coalesce(iso, Null)
    ensures !Truthy(iso) ==> !s.expired && s.daysRemaining == NoCount
    ensures Truthy(iso) && end.None? ==> !s.expired && s.daysRemaining == NaNCount
    ensures Truthy(iso) && end.Some? ==> (s.expired <==> end.value <= now)
    ensures Truthy(iso) && end.Some? && end.value <= now ==> s.daysRemaining == Count(0)
    ensures Truthy(iso) && end.Some? && end.value > now ==>
      s.daysRemaining.Count? && s.daysRemaining.days >= 1 &&
      DayMs * (s.daysRemaining.days - 1) < end.value - now <= DayMs * s.daysRemaining.days
  {
    var endedAt := Coalesce(iso, Null);
    if !Truthy(iso) then TrialState(false, endedAt, NoCount)
    else if end.None? then TrialState(false, endedAt, NaNCount)
    else
      var days := CeilDiv(end.value - now, DayMs);
      CeilDayPositive(end.value - now);
      if days <= 0 then TrialState(true, endedAt, Count(0))
      else TrialState(false, endedAt, Count(days))
  }

  /** Whatever the date, the banner shows expired exactly when no days
      remain. */
  lemma ExpiredIffNoDaysLeft(iso: JsValue, end: Option<int>, now: int)
    ensures UpdateFromIso(iso, end, now).expired <==> UpdateFromIso(iso, end, now).daysRemaining == Count(0)
  {
  }

  /** `setTrialEndsAt(iso)`. */
  function SetTrialEndsAt(iso: Option<string>, end: Option<int>, now: int): (s: TrialState)
    ensures s.endedAt == FromOption(iso)
    ensures s.expired <==> s.daysRemaining == Count(0)
    ensures iso.Some? && iso.value != "" && end.Some? ==> (s.expired <==> end.value <= now)
  {
    ExpiredIffNoDaysLeft(FromOption(iso), end, now);
    UpdateFromIso(FromOption(iso), end, now)
  }

  /** `resetTrialState()`. */
  function Reset(s: TrialState): (s': TrialState)
    ensures !s'.expired && s'.endedAt == Null && s'.daysRemaining == NoCount
  {
    Initial
  }

  /** Resetting forgets any earlier date: it is the state of a fresh page. */
  lemma ResetForgets(iso: Option<string>, end: Option<int>, now: int)
    ensures Reset(SetTrialEndsAt(iso, end, now)) == Initial
    ensures SetTrialEndsAt(None, end, now) == Initial
  {
  }

  /** A 402 response asking for an upgrade. */
  predicate IsUpgrade(status: int, body: Option<JsValue>)
  {
    status == 402 && body.Some? && Field(body.value, "action") == Str("upgrade")
  }

  /** The interceptor's rule for one response: a 402 whose JSON body has
      `action === 'upgrade'` takes the body's `trialEndedAt` and forces the
      trial expired; every other response leaves the state as it was. `body`
      is `None` when the body does not parse. */
  function OnResponse(s: TrialState, status: int, body: Option<JsValue>, end: Option<int>, now: int): (s': TrialState)
    ensures !IsUpgrade(status, body) ==> s' == s
    ensures IsUpgrade(status, body) ==> s'.expired
    ensures IsUpgrade(status, body) ==> s'.endedAt == Coalesce(Field(body.value, "trialEndedAt"), Null)
    ensures IsUpgrade(status, body) ==>
      s'.daysRemaining == UpdateFromIso(Coalesce(Field(body.value, "trialEndedAt"), Null), end, now).daysRemaining
  {
    if IsUpgrade(status, body) then
      UpdateFromIso(Coalesce(Field(body.value, "trialEndedAt"), Null), end, now).(expired := true)
    else s
  }

  /** An upgrade response shows the trial expired even when its end date is
      still days away, so the state then says expired with days remaining. */
  lemma UpgradeOverridesDate(s: TrialState, body: JsValue, iso: string, end: int, now: int)
    requires Field(body, "action") == Str("upgrade") && Field(body, "trialEndedAt") == Str(iso) && iso != ""
    requires end > now
    ensures OnResponse(s, 402, Some(body), Some(end), now).expired
    ensures OnResponse(s, 402, Some(body), Some(end), now).daysRemaining.Count?
    ensures OnResponse(s, 402, Some(body), Some(end), now).daysRemaining.days >= 1
  {
  }

  /** Any other status leaves even a parseable upgrade body unread. */
  lemma OtherStatusIgnored(s: TrialState, status: int, body: Option<JsValue>, end: Option<int>, now: int)
    requires status != 402
    ensures OnResponse(s, status, body, end, now) == s
  {
  }
}
