/** The completion calculator of content.js: when a target of effective hours
    was reached, or when it will be, extrapolated from the last log instant. */
module Completion {
  import opened JsValues

  /** The object `computeCompletionInfo` returns. An ISO timestamp is represented
      by the time value it denotes; `...Tz` fields hold the formatted time of day. */
  datatype CompletionInfo = CompletionInfo(
    text: string,
    reached: bool,
    reachedAtIso: Option<int>,
    reachedAtTz: Option<string>,
    etaIso: Option<int>,
    etaTz: Option<string>)

  const NotAvailableText: string := "Not available"
  const ReachedText: string := "Reached"

  const NotAvailable: CompletionInfo := CompletionInfo(NotAvailableText, false, None, None, None, None)

  /** Reference definition of the completion instant: effective time accrues at
      wall-clock rate and stands at `totalMinutes` at the instant `last`; `t` is
      the instant at which it stands at `targetMinutes`. */
  predicate IsCrossing(totalMinutes: int, last: int, targetMinutes: int, t: int)
  {
    t - last == (targetMinutes - totalMinutes) * MsPerMinute
  }

  /** `computeCompletionInfo(eh, em, lastEntry, targetHours)`. `lastEntry` is
      `None` for a falsy last log and otherwise the Date built from it;
      `formatTime` is the host's 12-hour time-of-day formatter. `toISOString`
      throws a RangeError on an invalid Date, which is the `Threw` outcome. */
  function ComputeCompletionInfo(eh: int, em: int, lastEntry: Option<TimeValue>, targetHours: int,
                                 formatTime: int -> string): (r: Result<CompletionInfo>)
    // no last log: "Not available", whatever the other inputs
    ensures lastEntry.None? ==> r == Returned(NotAvailable)
    // an invalid last log makes toISOString throw
    ensures lastEntry.Some? && lastEntry.value.NaN? ==> r == Threw(RangeError)
    // a valid last log: the result exists when the completion instant is a valid Date,
    // and the target counts as reached exactly when the total meets it
    ensures lastEntry.Some? && lastEntry.value.Time? ==>
              && (r.Returned? <==> -MaxTimeValue <= lastEntry.value.ms + (targetHours * 60 - (eh * 60 + em)) * MsPerMinute <= MaxTimeValue)
              && (r.Threw? ==> r.error == RangeError)
              && (r.Returned? ==> r.value.reached == (eh * 60 + em >= targetHours * 60))
    // reached: the crossing instant lies at or before the last log; no ETA
    ensures r.Returned? && r.value.reached ==>
              && lastEntry.Some? && lastEntry.value.Time?
              && r.value.text == ReachedText
              && r.value.reachedAtIso.Some?
              && IsCrossing(eh * 60 + em, lastEntry.value.ms, targetHours * 60, r.value.reachedAtIso.value)
              && r.value.reachedAtIso.value <= lastEntry.value.ms
              && r.value.reachedAtTz == Some(formatTime(r.value.reachedAtIso.value))
              && r.value.etaIso.None? && r.value.etaTz.None?
    // pending: the crossing instant lies strictly after the last log; no reached-at
    ensures r.Returned? && !r.value.reached && lastEntry.Some? ==>
              && lastEntry.value.Time?
              && r.value.etaIso.Some?
              && IsCrossing(eh * 60 + em, lastEntry.value.ms, targetHours * 60, r.value.etaIso.value)
              && r.value.etaIso.value > lastEntry.value.ms
              && r.value.text == formatTime(r.value.etaIso.value)
              && r.value.etaTz == Some(formatTime(r.value.etaIso.value))
              && r.value.reachedAtIso.None? && r.value.reachedAtTz.None?
  {
    var total := eh * 60 + em;
    var target := targetHours * 60;
    if lastEntry.None? then
      Returned(NotAvailable)
    else
      var last := lastEntry.value;
      if total >= target then
        var over := total - target;
        match Shift(last, -(over * MsPerMinute))
        case NaN => Threw(RangeError)
        case Time(reachedAt) =>
          Returned(CompletionInfo(ReachedText, true, Some(reachedAt), Some(formatTime(reachedAt)), None, None))
      else
        var remaining := target - total;
        match Shift(last, remaining * MsPerMinute)
        case NaN => Threw(RangeError)
        case Time(eta) =>
          Returned(CompletionInfo(formatTime(eta), false, None, None, Some(eta), Some(formatTime(eta))))
  }

  /** The instant a computed completion refers to: reached-at or ETA. */
  function Instant(info: CompletionInfo): Option<int>
  {
    if info.reachedAtIso.Some? then info.reachedAtIso else info.etaIso
  }

  /** Two targets computed from the same inputs: a larger target is reached only
      if the smaller one is, and their instants lie exactly the difference of
      the targets apart. */
  lemma TargetsAreOrdered(eh: int, em: int, last: int, smaller: int, larger: int, formatTime: int -> string)
    requires smaller <= larger
    requires ComputeCompletionInfo(eh, em, Some(Time(last)), smaller, formatTime).Returned?
    requires ComputeCompletionInfo(eh, em, Some(Time(last)), larger, formatTime).Returned?
    ensures var a := ComputeCompletionInfo(eh, em, Some(Time(last)), smaller, formatTime).value;
            var b := ComputeCompletionInfo(eh, em, Some(Time(last)), larger, formatTime).value;
            && (b.reached ==> a.reached)
            && Instant(a).Some? && Instant(b).Some?
            && Instant(b).value - Instant(a).value == (larger - smaller) * 60 * MsPerMinute
  {
    var total := eh * 60 + em;
    var a := ComputeCompletionInfo(eh, em, Some(Time(last)), smaller, formatTime).value;
    var b := ComputeCompletionInfo(eh, em, Some(Time(last)), larger, formatTime).value;
    assert Instant(a).value - last == (smaller * 60 - total) * MsPerMinute;
    assert Instant(b).value - last == (larger * 60 - total) * MsPerMinute;
  }

  /** 5h 30m of effective time at a last log of 2025-01-01T10:00:00Z: the 4h
      target was reached at 08:30, the 6h target is due at 10:30 and the 8h
      target at 12:30. */
  lemma WorkedScenario(formatTime: int -> string)
    ensures var last := 1735725600000;
            && ComputeCompletionInfo(5, 30, Some(Time(last)), 4, formatTime).value.reachedAtIso == Some(last - 90 * MsPerMinute)
            && ComputeCompletionInfo(5, 30, Some(Time(last)), 6, formatTime).value.etaIso == Some(last + 30 * MsPerMinute)
            && ComputeCompletionInfo(5, 30, Some(Time(last)), 8, formatTime).value.etaIso == Some(last + 150 * MsPerMinute)
  {
  }
}
