/** `getDailyData` of content.js once the network is stripped away: the token
    and the fetched response are inputs, today's record is picked from the
    decoded list, effective and gross time are probed from an ordered list of
    field names, break time is derived, and the three completion targets are
    computed. Every exception inside the operation ends in the "Error" summary. */
module DailyData {
  import opened JsValues
  import opened Text
  import opened HourMinutePattern
  import opened Durations
  import opened Completion

  /** One entry per completion target, keyed "4h", "6h" and "8h" in the source. */
  datatype Targets<T> = Targets(h4: T, h6: T, h8: T)

  /** The `status` field: 'ok', 'No token', 'API Error', 'No today', 'Error'. */
  datatype Status = Ok | NoToken | ApiError | NoToday | Error

  /** The object `getDailyData` resolves to. */
  datatype Summary = Summary(
    effective: HM,
    gross: HM,
    breakTime: HM,
    completion: Targets<string>,
    completionInfo: Option<Targets<CompletionInfo>>,
    lastLogOfTheDay: Value,
    status: Status)

  /** Why `getDailyData` gave up early; each reason selects a fixed summary. */
  datatype Failure = MissingToken | HttpError(code: nat) | NoRecordForToday | Unexpected

  function FailureText(f: Failure): string
  {
    match f
    case MissingToken => "Please login"
    case HttpError(code) => DecimalString(code)
    case NoRecordForToday => "Not found"
    case Unexpected => "Error"
  }

  function FailureStatus(f: Failure): Status
  {
    match f
    case MissingToken => NoToken
    case HttpError(_) => ApiError
    case NoRecordForToday => NoToday
    case Unexpected => Error
  }

  /** The zeroed summary of an early exit, with the reason written into all
      three completion entries. */
  function FailureSummary(f: Failure): (s: Summary)
    ensures s.effective == HM(0, 0) && s.gross == HM(0, 0) && s.breakTime == HM(0, 0)
    ensures s.completionInfo.None? && s.lastLogOfTheDay == Null
    ensures s.status != Ok
    ensures s.completion.h4 == s.completion.h6 == s.completion.h8
    ensures f.MissingToken? ==> s.status == NoToken && s.completion.h4 == "Please login"
    ensures f.HttpError? ==>
              && s.status == ApiError
              && AllDigits(s.completion.h4) && DigitsValue(s.completion.h4) == f.code
    ensures f.NoRecordForToday? ==> s.status == NoToday && s.completion.h4 == "Not found"
    ensures f.Unexpected? ==> s.status == Error && s.completion.h4 == "Error"
  {
    var text := FailureText(f);
    var s := Summary(HM(0, 0), HM(0, 0), HM(0, 0), Targets(text, text, text), None, Null, FailureStatus(f));
    if f.HttpError? then DecimalStringRoundTrip(f.code); s else s
  }

  // ---------------------------------------------------------------------------
  // Picking today's record

  /** The test `(log.attendanceDate || '').startsWith(today)`; a truthy date
      that is not a string has no `startsWith`, so calling it throws. */
  function DateTest(log: Record, today: string): (r: Result<bool>)
    ensures r.Threw? <==> Truthy(Get(log, "attendanceDate")) && !Get(log, "attendanceDate").Str?
    ensures r.Threw? ==> r.error == TypeError
    ensures r == Returned(true) <==>
              if Truthy(Get(log, "attendanceDate")) then
                Get(log, "attendanceDate").Str? && StartsWith(Get(log, "attendanceDate").s, today)
              else today == ""
  {
    var date := Get(log, "attendanceDate");
    if !Truthy(date) then Returned(StartsWith("", today))
    else if date.Str? then Returned(StartsWith(date.s, today))
    else Threw(TypeError)
  }

  /** `logs.find(...)` from position `from` on: the index of the first record
      whose test holds, stopping at the first test that throws. */
  function FindFrom(logs: seq<Record>, today: string, from: nat): (r: Result<Option<nat>>)
    requires from <= |logs|
    ensures r.Returned? && r.value.Some? ==>
              && from <= r.value.value < |logs|
              && DateTest(logs[r.value.value], today) == Returned(true)
              && forall k :: from <= k < r.value.value ==> DateTest(logs[k], today) == Returned(false)
    ensures r.Returned? && r.value.None? ==>
              forall k :: from <= k < |logs| ==> DateTest(logs[k], today) == Returned(false)
    ensures r.Threw? ==>
              exists t :: from <= t < |logs| && DateTest(logs[t], today).Threw?
                && forall k :: from <= k < t ==> DateTest(logs[k], today) == Returned(false)
    decreases |logs| - from
  {
    if from == |logs| then Returned(None)
    else
      match DateTest(logs[from], today)
      case Threw(e) => Threw(e)
      case Returned(true) => Returned(Some(from))
      case Returned(false) => FindFrom(logs, today, from + 1)
  }

  function FindToday(logs: seq<Record>, today: string): (r: Result<Option<nat>>)
    ensures r.Returned? && r.value.Some? ==>
              && r.value.value < |logs|
              && DateTest(logs[r.value.value], today) == Returned(true)
              && forall k :: 0 <= k < r.value.value ==> DateTest(logs[k], today) == Returned(false)
    ensures r.Returned? && r.value.None? ==>
              forall k :: 0 <= k < |logs| ==> DateTest(logs[k], today) == Returned(false)
    ensures r.Threw? ==>
              exists t :: 0 <= t < |logs| && DateTest(logs[t], today).Threw?
                && forall k :: 0 <= k < t ==> DateTest(logs[k], today) == Returned(false)
  {
    FindFrom(logs, today, 0)
  }

  // ---------------------------------------------------------------------------
  // Probing the fields of the record

  const EffectiveFields: seq<string> := [
    "effectiveHoursInHHMM", "effectiveHours", "effective_hours", "effectiveTime",
    "effective_time", "productiveHours", "productive_hours"]

  const GrossFields: seq<string> := [
    "grossHoursInHHMM", "grossHours", "gross_hours", "totalHours", "total_hours"]

  /** The position of the first field, at `from` or later, whose value in `log` is truthy. */
  function FirstTruthyFrom(log: Record, fields: seq<string>, from: nat): (r: Option<nat>)
    requires from <= |fields|
    ensures r.Some? ==>
              && from <= r.value < |fields|
              && Truthy(Get(log, fields[r.value]))
              && forall k :: from <= k < r.value ==> !Truthy(Get(log, fields[k]))
    ensures r.None? ==> forall k :: from <= k < |fields| ==> !Truthy(Get(log, fields[k]))
    decreases |fields| - from
  {
    if from == |fields| then None
    else if Truthy(Get(log, fields[from])) then Some(from)
    else FirstTruthyFrom(log, fields, from + 1)
  }

  function FirstTruthy(log: Record, fields: seq<string>): Option<nat>
  {
    FirstTruthyFrom(log, fields, 0)
  }

  /** The first truthy field is the one whose value and all predecessors' values say so. */
  lemma FirstTruthyIs(log: Record, fields: seq<string>, i: nat)
    requires i < |fields| && Truthy(Get(log, fields[i]))
    requires forall k :: 0 <= k < i ==> !Truthy(Get(log, fields[k]))
    ensures FirstTruthy(log, fields) == Some(i)
  {
  }

  /** How the value of the deciding field becomes hours and minutes: a string
      through the `h`/`m` pattern (left at 0h 0m when it does not match), a
      number as minutes floored at zero, anything else as 0h 0m. */
  function ParseFieldValue(v: Value): (d: HM)
    ensures v.Num? ==> Normalised(d) && TotalMinutes(d) == (if v.n > 0 then v.n else 0)
    ensures v.Str? && MatchHoursMinutes(v.s).Some? ==>
              d == HM(MatchHoursMinutes(v.s).value.hours, MatchHoursMinutes(v.s).value.minutes)
    ensures v.Str? && MatchHoursMinutes(v.s).None? ==> d == HM(0, 0)
    ensures !v.Num? && !v.Str? ==> d == HM(0, 0)
  {
    match v
    case Str(s) =>
      (match MatchHoursMinutes(s)
       case Some(g) => HM(g.hours, g.minutes)
       case None => HM(0, 0))
    case Num(n) => SplitMinutes(if n > 0 then n else 0)
    case _ => HM(0, 0)
  }

  /** The outcome of one probe: the field that decided it, if any, and the duration. */
  datatype Probe = Probe(field: Option<string>, value: HM)

  /** Specification of a probe: the first truthy field decides, and nothing else. */
  function ProbeSpec(log: Record, fields: seq<string>): Probe
  {
    match FirstTruthy(log, fields)
    case None => Probe(None, HM(0, 0))
    case Some(i) => Probe(Some(fields[i]), ParseFieldValue(Get(log, fields[i])))
  }

  /** The `for (const field of fields)` loop of content.js: stop at the first
      truthy field and read its value; with no truthy field, 0h 0m and no field. */
  method ProbeFields(log: Record, fields: seq<string>) returns (field: Option<string>, hours: int, minutes: int)
    ensures Probe(field, HM(hours, minutes)) == ProbeSpec(log, fields)
  {
    field, hours, minutes := None, 0, 0;
    var i := 0;
    while i < |fields|
      invariant 0 <= i <= |fields|
      invariant forall k :: 0 <= k < i ==> !Truthy(Get(log, fields[k]))
      invariant field.None? && hours == 0 && minutes == 0
    {
      var val := Get(log, fields[i]);
      if Truthy(val) {
        field := Some(fields[i]);
        match val {
          case Str(s) =>
            var found := MatchHoursMinutes(s);
            if found.Some? {
              hours, minutes := found.value.hours, found.value.minutes;
            }
          case Num(n) =>
            var mins := if n > 0 then n else 0;
            hours, minutes := mins / 60, mins % 60;
          case _ =>
        }
        FirstTruthyIs(log, fields, i);
        return;
      }
      i := i + 1;
    }
  }

  /** Later fields are never consulted: two records that agree up to and
      including the first truthy field give the same probe. */
  lemma ProbeIgnoresLaterFields(log: Record, other: Record, fields: seq<string>)
    requires FirstTruthy(log, fields).Some?
    requires forall k :: 0 <= k <= FirstTruthy(log, fields).value ==> Get(other, fields[k]) == Get(log, fields[k])
    ensures ProbeSpec(other, fields) == ProbeSpec(log, fields)
  {
    FirstTruthyIs(other, fields, FirstTruthy(log, fields).value);
  }

  /** A deciding string that fails the pattern still decides: the probe stops
      there with 0h 0m, even if a later field holds a usable value. */
  lemma UnparsableTextStillDecides(log: Record, fields: seq<string>, i: nat)
    requires i < |fields| && Get(log, fields[i]).Str? && Get(log, fields[i]).s != ""
    requires MatchHoursMinutes(Get(log, fields[i]).s).None?
    requires forall k :: 0 <= k < i ==> !Truthy(Get(log, fields[k]))
    ensures ProbeSpec(log, fields) == Probe(Some(fields[i]), HM(0, 0))
  {
    FirstTruthyIs(log, fields, i);
  }

  /** A numeric 0 is falsy and skipped, a later string field decides, and an
      even later number is never read; "3h 75m" keeps its 75 minutes. */
  lemma ProbeScenario()
    ensures ProbeSpec(map["effectiveHoursInHHMM" := Num(0), "effectiveHours" := Str("3h 75m"), "effective_hours" := Num(100)],
                      EffectiveFields)
            == Probe(Some("effectiveHours"), HM(3, 75))
  {
    var log := map["effectiveHoursInHHMM" := Num(0), "effectiveHours" := Str("3h 75m"), "effective_hours" := Num(100)];
    assert Get(log, EffectiveFields[0]) == Num(0);
    assert Get(log, EffectiveFields[1]) == Str("3h 75m");
    FirstTruthyIs(log, EffectiveFields, 1);
    assert "3h 75m" == FormatHoursMinutes(3, 75) by {
      assert DecimalString(3) == "3" && DecimalString(75) == "75";
    }
    FormatThenMatch(3, 75);
  }

  // ---------------------------------------------------------------------------
  // Effective time, with the wall-clock fallback

  /** The milliseconds from the first to the last log of the day, when both are
      truthy, both give valid Dates and the last is strictly later. */
  function WallClockSpan(log: Record, parseDate: string -> TimeValue): (r: Option<int>)
    ensures r.Some? ==>
              && Truthy(Get(log, "firstLogOfTheDay")) && Truthy(Get(log, "lastLogOfTheDay"))
              && ToDate(Get(log, "firstLogOfTheDay"), parseDate).Time?
              && ToDate(Get(log, "lastLogOfTheDay"), parseDate).Time?
              && r.value == ToDate(Get(log, "lastLogOfTheDay"), parseDate).ms - ToDate(Get(log, "firstLogOfTheDay"), parseDate).ms
              && r.value > 0
    ensures r.None? ==>
              || !Truthy(Get(log, "firstLogOfTheDay")) || !Truthy(Get(log, "lastLogOfTheDay"))
              || ToDate(Get(log, "firstLogOfTheDay"), parseDate).NaN?
              || ToDate(Get(log, "lastLogOfTheDay"), parseDate).NaN?
              || ToDate(Get(log, "lastLogOfTheDay"), parseDate).ms <= ToDate(Get(log, "firstLogOfTheDay"), parseDate).ms
  {
    var first, last := Get(log, "firstLogOfTheDay"), Get(log, "lastLogOfTheDay");
    if Truthy(first) && Truthy(last) then
      var start, end := ToDate(first, parseDate), ToDate(last, parseDate);
      if start.Time? && end.Time? && end.ms > start.ms then Some(end.ms - start.ms) else None
    else None
  }

  /** Effective time: the probe over the effective fields; only when no field
      decided, the wall-clock span between first and last log, in whole minutes;
      otherwise 0h 0m. */
  function EffectiveTime(log: Record, parseDate: string -> TimeValue): (d: HM)
    ensures FirstTruthy(log, EffectiveFields).Some? ==>
              d == ParseFieldValue(Get(log, EffectiveFields[FirstTruthy(log, EffectiveFields).value]))
    ensures FirstTruthy(log, EffectiveFields).None? && WallClockSpan(log, parseDate).Some? ==>
              Normalised(d) && TotalMinutes(d) == WallClockSpan(log, parseDate).value / MsPerMinute
    ensures FirstTruthy(log, EffectiveFields).None? && WallClockSpan(log, parseDate).None? ==>
              d == HM(0, 0)
  {
    var probe := ProbeSpec(log, EffectiveFields);
    var span := WallClockSpan(log, parseDate);
    if probe.field.None? && span.Some? then HoursAndMinutesFromMilliseconds(span.value) else probe.value
  }

  /** The completion calculator's view of `todayLog.lastLogOfTheDay`. */
  function LastEntry(log: Record, parseDate: string -> TimeValue): (r: Option<TimeValue>)
    ensures r.Some? <==> Truthy(Get(log, "lastLogOfTheDay"))
    ensures r.Some? && r.value.Time? ==> -MaxTimeValue <= r.value.ms <= MaxTimeValue
  {
    var last := Get(log, "lastLogOfTheDay");
    if Truthy(last) then Some(ToDate(last, parseDate)) else None
  }

  // ---------------------------------------------------------------------------
  // Interpreting today's record

  /** Everything `getDailyData` does with today's record; the calculator
      throwing on an invalid Date is the `Threw` outcome. */
  function InterpretRecord(log: Record, parseDate: string -> TimeValue, formatTime: int -> string): (r: Result<Summary>)
    ensures r.Returned? ==>
              var s := r.value;
              var e := s.effective;
              && s.status == Ok
              && e == EffectiveTime(log, parseDate)
              && s.gross == ProbeSpec(log, GrossFields).value
              && Normalised(s.breakTime)
              && TotalMinutes(s.breakTime) == (if TotalMinutes(s.gross) > TotalMinutes(e) then TotalMinutes(s.gross) - TotalMinutes(e) else 0)
              && s.completionInfo.Some?
              && Returned(s.completionInfo.value.h4) == ComputeCompletionInfo(e.h, e.m, LastEntry(log, parseDate), 4, formatTime)
              && Returned(s.completionInfo.value.h6) == ComputeCompletionInfo(e.h, e.m, LastEntry(log, parseDate), 6, formatTime)
              && Returned(s.completionInfo.value.h8) == ComputeCompletionInfo(e.h, e.m, LastEntry(log, parseDate), 8, formatTime)
              && s.completion == Targets(s.completionInfo.value.h4.text, s.completionInfo.value.h6.text, s.completionInfo.value.h8.text)
    ensures r.Returned? && Truthy(Get(log, "lastLogOfTheDay")) ==> r.value.lastLogOfTheDay == Get(log, "lastLogOfTheDay")
    ensures r.Returned? && !Truthy(Get(log, "lastLogOfTheDay")) ==> r.value.lastLogOfTheDay == Null
    ensures r.Threw? ==> LastEntry(log, parseDate).Some? && r.error == RangeError
    ensures var e := EffectiveTime(log, parseDate);
            var lastEntry := LastEntry(log, parseDate);
            r.Threw? <==>
              || ComputeCompletionInfo(e.h, e.m, lastEntry, 4, formatTime).Threw?
              || ComputeCompletionInfo(e.h, e.m, lastEntry, 6, formatTime).Threw?
              || ComputeCompletionInfo(e.h, e.m, lastEntry, 8, formatTime).Threw?
  {
    var effective := EffectiveTime(log, parseDate);
    var gross := ProbeSpec(log, GrossFields).value;
    var breakTime := BreakTime(TotalMinutes(gross), TotalMinutes(effective));
    var last := Get(log, "lastLogOfTheDay");
    var lastEntry := LastEntry(log, parseDate);
    var info4 := ComputeCompletionInfo(effective.h, effective.m, lastEntry, 4, formatTime);
    var info6 := ComputeCompletionInfo(effective.h, effective.m, lastEntry, 6, formatTime);
    var info8 := ComputeCompletionInfo(effective.h, effective.m, lastEntry, 8, formatTime);
    if info4.Threw? then Threw(info4.error)
    else if info6.Threw? then Threw(info6.error)
    else if info8.Threw? then Threw(info8.error)
    else
      Returned(Summary(
        effective, gross, breakTime,
        Targets(info4.value.text, info6.value.text, info8.value.text),
        Some(Targets(info4.value, info6.value, info8.value)),
        if Truthy(last) then last else Null,
        Ok))
  }

  // ---------------------------------------------------------------------------
  // The whole operation

  /** The decoded body: `None` when `payload.data` is falsy, read as `[]`. */
  datatype Body = Malformed | Payload(data: Option<seq<Record>>)

  /** What `fetch` and `response.json()` produced. */
  datatype Fetched = NetworkFailure | Response(ok: bool, status: nat, body: Body)

  /** `localStorage.getItem('access_token')` is truthy. */
  predicate TokenPresent(token: Option<string>)
  {
    token.Some? && token.value != ""
  }

  function Logs(body: Body): seq<Record>
    requires body.Payload?
  {
    if body.data.Some? then body.data.value else []
  }

  /** Specification of `getDailyData`. */
  function SummarizeDay(token: Option<string>, fetched: Fetched, today: string,
                        parseDate: string -> TimeValue, formatTime: int -> string): (s: Summary)
    ensures !TokenPresent(token) ==> s == FailureSummary(MissingToken)
    ensures TokenPresent(token) && fetched.Response? && !fetched.ok ==> s == FailureSummary(HttpError(fetched.status))
    ensures s.status == Ok ==>
              && TokenPresent(token) && fetched.Response? && fetched.ok && fetched.body.Payload?
              && FindToday(Logs(fetched.body), today).Returned?
              && FindToday(Logs(fetched.body), today).value.Some?
              && InterpretRecord(Logs(fetched.body)[FindToday(Logs(fetched.body), today).value.value], parseDate, formatTime) == Returned(s)
    ensures s.status == NoToday <==>
              TokenPresent(token) && fetched.Response? && fetched.ok && fetched.body.Payload?
              && FindToday(Logs(fetched.body), today) == Returned(None)
    ensures TokenPresent(token) && fetched.Response? && fetched.ok && fetched.body.Payload?
            && FindToday(Logs(fetched.body), today).Returned?
            && FindToday(Logs(fetched.body), today).value.Some? ==>
              var record := Logs(fetched.body)[FindToday(Logs(fetched.body), today).value.value];
              InterpretRecord(record, parseDate, formatTime).Returned? ==>
                s == InterpretRecord(record, parseDate, formatTime).value
    ensures s.status == Error <==>
              && TokenPresent(token)
              && (|| fetched.NetworkFailure?
                  || (&& fetched.ok
                      && (|| fetched.body.Malformed?
                          || FindToday(Logs(fetched.body), today).Threw?
                          || (&& FindToday(Logs(fetched.body), today).value.Some?
                              && InterpretRecord(Logs(fetched.body)[FindToday(Logs(fetched.body), today).value.value],
                                                 parseDate, formatTime).Threw?))))
    ensures s.status == Error ==> s == FailureSummary(Unexpected)
    ensures s.status == NoToday ==> s == FailureSummary(NoRecordForToday)
  {
    if !TokenPresent(token) then FailureSummary(MissingToken)
    else match fetched
      case NetworkFailure => FailureSummary(Unexpected)
      case Response(ok, status, body) =>
        if !ok then FailureSummary(HttpError(status))
        else match body
          case Malformed => FailureSummary(Unexpected)
          case Payload(_) =>
            var logs := Logs(body);
            match FindToday(logs, today)
            case Threw(_) => FailureSummary(Unexpected)
            case Returned(None) => FailureSummary(NoRecordForToday)
            case Returned(Some(i)) =>
              match InterpretRecord(logs[i], parseDate, formatTime)
              case Threw(_) => FailureSummary(Unexpected)
              case Returned(s) => s
  }

  /** `getDailyData`, step by step as content.js runs it. */
  method GetDailyData(token: Option<string>, fetched: Fetched, today: string,
                      parseDate: string -> TimeValue, formatTime: int -> string) returns (s: Summary)
    ensures s == SummarizeDay(token, fetched, today, parseDate, formatTime)
  {
    if !TokenPresent(token) {
      return FailureSummary(MissingToken);
    }
    if fetched.NetworkFailure? {
      return FailureSummary(Unexpected);
    }
    if !fetched.ok {
      return FailureSummary(HttpError(fetched.status));
    }
    if fetched.body.Malformed? {
      return FailureSummary(Unexpected);
    }
    var logs := Logs(fetched.body);
    var found := FindToday(logs, today);
    if found.Threw? {
      return FailureSummary(Unexpected);
    }
    if found.value.None? {
      return FailureSummary(NoRecordForToday);
    }
    var interpreted := InterpretToday(logs[found.value.value], parseDate, formatTime);
    if interpreted.Threw? {
      return FailureSummary(Unexpected);
    }
    s := interpreted.value;
  }

  /** Effective time as content.js computes it: the probe loop over the
      effective fields, then the wall-clock fallback. */
  method EffectiveTimeOf(todayLog: Record, parseDate: string -> TimeValue) returns (effectiveHours: int, effectiveMinutes: int)
    ensures HM(effectiveHours, effectiveMinutes) == EffectiveTime(todayLog, parseDate)
  {
    var effectiveField;
    effectiveField, effectiveHours, effectiveMinutes := ProbeFields(todayLog, EffectiveFields);
    var firstLog, lastLog := Get(todayLog, "firstLogOfTheDay"), Get(todayLog, "lastLogOfTheDay");
    if effectiveField.None? && Truthy(firstLog) && Truthy(lastLog) {
      var startTime, endTime := ToDate(firstLog, parseDate), ToDate(lastLog, parseDate);
      if startTime.Time? && endTime.Time? && endTime.ms > startTime.ms {
        var split := HoursAndMinutesFromMilliseconds(endTime.ms - startTime.ms);
        effectiveHours, effectiveMinutes := split.h, split.m;
      }
    }
  }

  /** The part of `getDailyData` that works on today's record, step by step as
      content.js runs it; an exception is the `Threw` outcome. */
  method InterpretToday(todayLog: Record, parseDate: string -> TimeValue, formatTime: int -> string)
    returns (r: Result<Summary>)
    ensures r == InterpretRecord(todayLog, parseDate, formatTime)
  {
    var effectiveHours, effectiveMinutes := EffectiveTimeOf(todayLog, parseDate);
    var lastLog := Get(todayLog, "lastLogOfTheDay");

    var grossField, grossHours, grossMinutes := ProbeFields(todayLog, GrossFields);

    var effective, gross := HM(effectiveHours, effectiveMinutes), HM(grossHours, grossMinutes);
    var breakTime := BreakTime(TotalMinutes(gross), TotalMinutes(effective));

    var lastEntry := if Truthy(lastLog) then Some(ToDate(lastLog, parseDate)) else None;
    assert effective == EffectiveTime(todayLog, parseDate);
    assert gross == ProbeSpec(todayLog, GrossFields).value;
    assert lastEntry == LastEntry(todayLog, parseDate);
    var info4 := ComputeCompletionInfo(effectiveHours, effectiveMinutes, lastEntry, 4, formatTime);
    if info4.Threw? {
      return Threw(info4.error);
    }
    var info6 := ComputeCompletionInfo(effectiveHours, effectiveMinutes, lastEntry, 6, formatTime);
    if info6.Threw? {
      return Threw(info6.error);
    }
    var info8 := ComputeCompletionInfo(effectiveHours, effectiveMinutes, lastEntry, 8, formatTime);
    if info8.Threw? {
      return Threw(info8.error);
    }

    r := Returned(Summary(
      effective, gross, breakTime,
      Targets(info4.value.text, info6.value.text, info8.value.text),
      Some(Targets(info4.value, info6.value, info8.value)),
      if Truthy(lastLog) then lastLog else Null,
      Ok));
  }

  /** Without a token the summary asks to log in, whatever the response. */
  lemma NoTokenScenario(fetched: Fetched, today: string, parseDate: string -> TimeValue, formatTime: int -> string)
    ensures var s := SummarizeDay(None, fetched, today, parseDate, formatTime);
            && s.status == NoToken
            && s.effective == s.gross == s.breakTime == HM(0, 0)
            && s.completion == Targets("Please login", "Please login", "Please login")
  {
  }

  /** An HTTP 500 answer writes "500" into every completion entry. */
  lemma ServerErrorScenario(body: Body, today: string, parseDate: string -> TimeValue, formatTime: int -> string)
    ensures var s := SummarizeDay(Some("token"), Response(false, 500, body), today, parseDate, formatTime);
            && s.status == ApiError
            && s.completion == Targets("500", "500", "500")
  {
    assert DecimalString(500) == "500";
  }
}
