/** Hour-and-minute durations and the small arithmetic helpers of content.js:
    splitting milliseconds, clamping, and the break time. */
module Durations {
  import opened JsValues

  /** `{ h, m }` as the daily summary stores it. Minutes read from text are
      kept as written, so `m` is not always below 60. */
  datatype HM = HM(h: int, m: int)

  function TotalMinutes(d: HM): int
  {
    d.h * 60 + d.m
  }

  /** A duration whose minutes part is normalised. */
  predicate Normalised(d: HM)
  {
    d.h >= 0 && 0 <= d.m < 60
  }

  /** `getHoursAndMinutesFromMilliseconds`: whole minutes by floor division,
      then hours by floor division and minutes by JavaScript's `%`. */
  function HoursAndMinutesFromMilliseconds(ms: int): (d: HM)
    ensures ms >= 0 ==> Normalised(d) && TotalMinutes(d) == ms / MsPerMinute
    ensures ms < 0 ==> d.h < 0 && -60 < d.m <= 0
  {
    var totalMinutes := ms / MsPerMinute;
    HM(totalMinutes / 60, JsRemainder(totalMinutes, 60))
  }

  /** A negative duration is not normalised: JavaScript's `%` keeps the sign,
      so one minute before the epoch splits into -1 hours and -1 minutes. */
  lemma NegativeMillisecondsSplit()
    ensures HoursAndMinutesFromMilliseconds(-MsPerMinute) == HM(-1, -1)
    ensures TotalMinutes(HoursAndMinutesFromMilliseconds(-MsPerMinute)) != -1
  {
  }

  /** `Math.min(Math.max(val, lo), hi)`. */
  function Clamp(val: int, lo: int, hi: int): (r: int)
    ensures lo <= hi ==> lo <= r <= hi
    ensures lo <= val <= hi ==> r == val
    ensures val < lo && lo <= hi ==> r == lo
    ensures hi < val ==> r == hi
    ensures hi < lo ==> r == hi
  {
    var atLeast := if val > lo then val else lo;
    if atLeast < hi then atLeast else hi
  }

  /** Split a non-negative number of minutes, as content.js does for numeric
      field values and for the break time. */
  function SplitMinutes(mins: nat): (d: HM)
    ensures Normalised(d) && TotalMinutes(d) == mins
  {
    HM(mins / 60, mins % 60)
  }

  /** Break time: gross minus effective minutes, floored at zero, split into
      hours and minutes. */
  function BreakTime(grossTotal: int, effectiveTotal: int): (b: HM)
    ensures Normalised(b)
    ensures TotalMinutes(b) == if grossTotal > effectiveTotal then grossTotal - effectiveTotal else 0
  {
    var breakMinutes := if grossTotal - effectiveTotal > 0 then grossTotal - effectiveTotal else 0;
    SplitMinutes(breakMinutes)
  }
}
