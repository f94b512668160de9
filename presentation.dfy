/** The decisions behind the rendered summary: the progress bar, the
    case-insensitive "reached" test, each target's pill class and tooltip.
    content.js (`buildWidgetHTML`) and popup.js (`renderFromObj`) make them in
    two copies that differ only in the pill class string; the markup around
    them is not modelled, each rendering is reduced to a `View`. */
module Presentation {
  import opened JsValues
  import opened Text
  import opened HourMinutePattern
  import opened Durations
  import opened Completion
  import opened DailyData

  /** `isReached(v)`: `v` is a string whose lower-case form is "reached". */
  predicate IsReached(v: Value)
  {
    v.Str? && ToLower(v.s) == "reached"
  }

  /** `Math.round(total / 480 * 100)`, evaluated on exact rationals:
      the integer nearest to `100 * total / 480`, halves rounded up. */
  function RoundedPercent(total: int): (r: int)
    ensures 24 * r - 12 <= 5 * total < 24 * r + 12
  {
    (2 * (total * 100) + 480) / (2 * 480)
  }

  /** The progress bar width: the rounded percentage of 8 hours, clamped to [0, 100]. */
  function Progress(effective: HM): (p: int)
    ensures 0 <= p <= 100
    ensures 0 <= TotalMinutes(effective) <= 477 ==> p == RoundedPercent(TotalMinutes(effective))
    ensures TotalMinutes(effective) >= 478 ==> p == 100
    ensures TotalMinutes(effective) <= 2 ==> p == 0
  {
    Clamp(RoundedPercent(TotalMinutes(effective)), 0, 100)
  }

  /** More effective time never shrinks the progress bar. */
  lemma ProgressMonotone(a: HM, b: HM)
    requires TotalMinutes(a) <= TotalMinutes(b)
    ensures Progress(a) <= Progress(b)
  {
    var x, y := TotalMinutes(a), TotalMinutes(b);
    assert RoundedPercent(x) <= RoundedPercent(y);
  }

  /** The tooltip of one target: "Reached at <time>" when its text reads
      "reached" (empty time if none is recorded), otherwise "Estimated <time>"
      when an ETA time is recorded and non-empty, otherwise nothing. */
  function Title(c: Value, info: Option<CompletionInfo>): (t: string)
    ensures IsReached(c) && info.Some? && info.value.reachedAtTz.Some? ==>
              t == "Reached at " + info.value.reachedAtTz.value
    ensures IsReached(c) && !(info.Some? && info.value.reachedAtTz.Some?) ==> t == "Reached at "
    ensures !IsReached(c) && info.Some? && info.value.etaTz.Some? && info.value.etaTz.value != "" ==>
              t == "Estimated " + info.value.etaTz.value
    ensures !IsReached(c) && !(info.Some? && info.value.etaTz.Some? && info.value.etaTz.value != "") ==>
              t == ""
  {
    if IsReached(c) then
      "Reached at " + (if info.Some? && info.value.reachedAtTz.Some? then info.value.reachedAtTz.value else "")
    else if info.Some? && info.value.etaTz.Some? && info.value.etaTz.value != "" then
      "Estimated " + info.value.etaTz.value
    else
      ""
  }

  const ReachedPillClass: string := "kw-time kw-pill kw-reached"

  /** popup.js `pillClass(v)`: the pill style exactly for a reached value. */
  function PopupPillClass(v: Value): (r: string)
    ensures StartsWith(r, "kw-time")
    ensures r == ReachedPillClass <==> IsReached(v)
    ensures !IsReached(v) ==> r == "kw-time"
  {
    if IsReached(v) then ReachedPillClass else "kw-time"
  }

  /** content.js `kw-time ${isReached(v) ? 'kw-pill kw-reached' : ''}`: the
      pill style exactly for a reached value. */
  function WidgetPillClass(v: Value): (r: string)
    ensures StartsWith(r, "kw-time ")
    ensures r == ReachedPillClass <==> IsReached(v)
    ensures !IsReached(v) ==> r == "kw-time "
  {
    assert "kw-time " + "kw-pill kw-reached" == ReachedPillClass;
    assert "kw-time " + "" == "kw-time ";
    "kw-time " + (if IsReached(v) then "kw-pill kw-reached" else "")
  }

  /** One target row: its text, its pill class and its tooltip. */
  datatype TargetRow = TargetRow(text: string, pillClass: string, title: string)

  /** What a rendering shows: both metrics, the progress value and the three rows. */
  datatype View = View(effectiveText: string, breakText: string, progress: int, rows: Targets<TargetRow>)

  /** `${d.h}h ${d.m}m`. A non-negative duration reads back, through the
      pattern the probe uses, as the same hours and minutes. */
  function DurationText(d: HM): (t: string)
    ensures d.h >= 0 && d.m >= 0 ==> MatchHoursMinutes(t) == Some(Groups(d.h, d.m))
    ensures d.h < 0 ==> |t| > 0 && t[0] == '-'
  {
    var t := IntString(d.h) + "h " + IntString(d.m) + "m";
    if d.h >= 0 && d.m >= 0 then
      assert t == FormatHoursMinutes(d.h, d.m);
      FormatThenMatch(d.h, d.m);
      t
    else t
  }

  /** `completionInfo?.['4h']` and so on. */
  function Entries(info: Option<Targets<CompletionInfo>>): Targets<Option<CompletionInfo>>
  {
    match info
    case None => Targets(None, None, None)
    case Some(t) => Targets(Some(t.h4), Some(t.h6), Some(t.h8))
  }

  function PopupRow(c: string, info: Option<CompletionInfo>): TargetRow
  {
    TargetRow(c, PopupPillClass(Str(c)), Title(Str(c), info))
  }

  function WidgetRow(c: string, info: Option<CompletionInfo>): TargetRow
  {
    TargetRow(c, WidgetPillClass(Str(c)), Title(Str(c), info))
  }

  /** `renderFromObj(obj)` of popup.js: the progress of the effective time,
      and each target's text drawn as a pill exactly when it reads "reached",
      with the tooltip `Title` chooses. */
  function PopupView(obj: Summary): (v: View)
    ensures v.effectiveText == DurationText(obj.effective) && v.breakText == DurationText(obj.breakTime)
    ensures v.progress == Progress(obj.effective)
    ensures v.rows.h4.text == obj.completion.h4 && v.rows.h6.text == obj.completion.h6 && v.rows.h8.text == obj.completion.h8
    ensures v.rows.h4.pillClass == ReachedPillClass <==> IsReached(Str(obj.completion.h4))
    ensures !IsReached(Str(obj.completion.h4)) ==> v.rows.h4.pillClass == "kw-time"
    ensures v.rows.h6.pillClass == ReachedPillClass <==> IsReached(Str(obj.completion.h6))
    ensures !IsReached(Str(obj.completion.h6)) ==> v.rows.h6.pillClass == "kw-time"
    ensures v.rows.h8.pillClass == ReachedPillClass <==> IsReached(Str(obj.completion.h8))
    ensures !IsReached(Str(obj.completion.h8)) ==> v.rows.h8.pillClass == "kw-time"
    ensures v.rows.h4.title == Title(Str(obj.completion.h4), Entries(obj.completionInfo).h4)
    ensures v.rows.h6.title == Title(Str(obj.completion.h6), Entries(obj.completionInfo).h6)
    ensures v.rows.h8.title == Title(Str(obj.completion.h8), Entries(obj.completionInfo).h8)
  {
    var info := Entries(obj.completionInfo);
    View(DurationText(obj.effective), DurationText(obj.breakTime), Progress(obj.effective),
         Targets(PopupRow(obj.completion.h4, info.h4),
                 PopupRow(obj.completion.h6, info.h6),
                 PopupRow(obj.completion.h8, info.h8)))
  }

  /** `buildWidgetHTML(data)` of content.js: the same decisions as the popup's. */
  function WidgetView(data: Summary): (v: View)
    ensures v.effectiveText == DurationText(data.effective) && v.breakText == DurationText(data.breakTime)
    ensures v.progress == Progress(data.effective)
    ensures v.rows.h4.text == data.completion.h4 && v.rows.h6.text == data.completion.h6 && v.rows.h8.text == data.completion.h8
    ensures v.rows.h4.pillClass == ReachedPillClass <==> IsReached(Str(data.completion.h4))
    ensures !IsReached(Str(data.completion.h4)) ==> v.rows.h4.pillClass == "kw-time "
    ensures v.rows.h6.pillClass == ReachedPillClass <==> IsReached(Str(data.completion.h6))
    ensures !IsReached(Str(data.completion.h6)) ==> v.rows.h6.pillClass == "kw-time "
    ensures v.rows.h8.pillClass == ReachedPillClass <==> IsReached(Str(data.completion.h8))
    ensures !IsReached(Str(data.completion.h8)) ==> v.rows.h8.pillClass == "kw-time "
    ensures v.rows.h4.title == Title(Str(data.completion.h4), Entries(data.completionInfo).h4)
    ensures v.rows.h6.title == Title(Str(data.completion.h6), Entries(data.completionInfo).h6)
    ensures v.rows.h8.title == Title(Str(data.completion.h8), Entries(data.completionInfo).h8)
  {
    var info := Entries(data.completionInfo);
    View(DurationText(data.effective), DurationText(data.breakTime), Progress(data.effective),
         Targets(WidgetRow(data.completion.h4, info.h4),
                 WidgetRow(data.completion.h6, info.h6),
                 WidgetRow(data.completion.h8, info.h8)))
  }

  /** The widget's pill class is the popup's, with a trailing space when the
      value is not "reached". */
  lemma PillClassesAgree(v: Value)
    ensures IsReached(v) ==> WidgetPillClass(v) == PopupPillClass(v) == ReachedPillClass
    ensures !IsReached(v) ==> WidgetPillClass(v) == PopupPillClass(v) + " "
  {
    if IsReached(v) {
      assert WidgetPillClass(v) == "kw-time " + "kw-pill kw-reached";
    } else {
      assert WidgetPillClass(v) == "kw-time " + "";
    }
  }

  /** The two renderings agree except for the pill class, where the widget's
      carries a trailing space when the target is not reached. */
  lemma RowsAgree(c: string, info: Option<CompletionInfo>)
    ensures WidgetRow(c, info).text == PopupRow(c, info).text
    ensures WidgetRow(c, info).title == PopupRow(c, info).title
    ensures IsReached(Str(c)) ==> WidgetRow(c, info).pillClass == PopupRow(c, info).pillClass == ReachedPillClass
    ensures !IsReached(Str(c)) ==> WidgetRow(c, info).pillClass == PopupRow(c, info).pillClass + " "
  {
    PillClassesAgree(Str(c));
  }

  /** The texts the calculator writes: "Reached" passes the test in any letter
      case, "Not available" does not, and neither does a numeral. */
  lemma ReachedTest()
    ensures IsReached(Str(ReachedText)) && IsReached(Str("REACHED"))
    ensures !IsReached(Str(NotAvailableText)) && !IsReached(Str("Reached at"))
    ensures !IsReached(Num(1))
  {
    assert ToLower(ReachedText) == "reached";
    assert ToLower("REACHED") == "reached";
    assert ToLower(NotAvailableText)[0] == 'n';
  }

  /** The test does not depend on letter case: a string passes exactly when its
      lower-case form does. */
  lemma ReachedIgnoresCase(s: string)
    ensures IsReached(Str(s)) <==> IsReached(Str(ToLower(s)))
  {
    ToLowerIdempotent(s);
  }

  /** A numeral never passes the "reached" test. */
  lemma NumeralNotReached(s: string)
    requires AllDigits(s) && |s| > 0
    ensures !IsReached(Str(s))
  {
    assert ToLower(s)[0] == s[0];
  }

  /** A host formatter that never writes something reading "reached". */
  ghost predicate PlainFormatter(formatTime: int -> string)
  {
    forall t :: !IsReached(Str(formatTime(t)))
  }

  /** A target row rendered from a computed completion: it is drawn as a pill
      exactly when the target is reached, and its tooltip names the reached-at
      time, the ETA, or nothing when no last log was known. */
  lemma RowOfCompletion(eh: int, em: int, lastEntry: Option<TimeValue>, targetHours: int, formatTime: int -> string)
    requires PlainFormatter(formatTime)
    requires ComputeCompletionInfo(eh, em, lastEntry, targetHours, formatTime).Returned?
    ensures var info := ComputeCompletionInfo(eh, em, lastEntry, targetHours, formatTime).value;
            var row := PopupRow(info.text, Some(info));
            && (row.pillClass == ReachedPillClass <==> info.reached)
            && (!info.reached ==> row.pillClass == "kw-time")
            && (info.reached ==> row.title == "Reached at " + formatTime(info.reachedAtIso.value))
            && (lastEntry.None? ==> row.title == "")
            && (!info.reached && lastEntry.Some? && formatTime(info.etaIso.value) != "" ==>
                  row.title == "Estimated " + formatTime(info.etaIso.value))
  {
    var info := ComputeCompletionInfo(eh, em, lastEntry, targetHours, formatTime).value;
    ReachedTest();
    if !info.reached && lastEntry.Some? {
      assert !IsReached(Str(formatTime(info.etaIso.value)));
    }
  }

  /** In the rendering of an interpreted record, each target is drawn as a
      pill exactly when its completion says it is reached. */
  lemma InterpretedRowsMarkReachedTargets(log: Record, parseDate: string -> TimeValue, formatTime: int -> string)
    requires PlainFormatter(formatTime)
    requires InterpretRecord(log, parseDate, formatTime).Returned?
    ensures var s := InterpretRecord(log, parseDate, formatTime).value;
            var v := PopupView(s);
            && (v.rows.h4.pillClass == ReachedPillClass <==> s.completionInfo.value.h4.reached)
            && (v.rows.h6.pillClass == ReachedPillClass <==> s.completionInfo.value.h6.reached)
            && (v.rows.h8.pillClass == ReachedPillClass <==> s.completionInfo.value.h8.reached)
            && (!s.completionInfo.value.h4.reached ==> v.rows.h4.pillClass == "kw-time")
            && (!s.completionInfo.value.h6.reached ==> v.rows.h6.pillClass == "kw-time")
            && (!s.completionInfo.value.h8.reached ==> v.rows.h8.pillClass == "kw-time")
  {
    var s := InterpretRecord(log, parseDate, formatTime).value;
    var e := s.effective;
    var lastEntry := LastEntry(log, parseDate);
    RowOfCompletion(e.h, e.m, lastEntry, 4, formatTime);
    RowOfCompletion(e.h, e.m, lastEntry, 6, formatTime);
    RowOfCompletion(e.h, e.m, lastEntry, 8, formatTime);
  }

  /** An early-exit summary renders without pills or tooltips, and with an
      empty progress bar. */
  lemma FailureViewIsPlain(f: Failure)
    ensures var v := PopupView(FailureSummary(f));
            && v.progress == 0
            && v.rows.h4.pillClass == v.rows.h6.pillClass == v.rows.h8.pillClass == "kw-time"
            && v.rows.h4.title == v.rows.h6.title == v.rows.h8.title == ""
  {
    var summary := FailureSummary(f);
    var text := summary.completion.h4;
    assert !IsReached(Str(text)) by {
      match f
      case MissingToken =>
        assert ToLower(text)[0] == 'p';
      case HttpError(code) =>
        NumeralNotReached(text);
      case NoRecordForToday =>
        assert ToLower(text)[0] == 'n';
      case Unexpected =>
        assert ToLower(text)[0] == 'e';
    }
    assert Entries(summary.completionInfo) == Targets(None, None, None);
  }
}
