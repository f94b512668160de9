# Keka hours widget: a verified model of its time arithmetic and record interpretation

The extension shows an "hours worked" widget on an attendance page. It reads one
day's attendance record from an API. It works out effective time, gross time and
break time. It then estimates when 4, 6 and 8 hours of effective time were (or
will be) reached. A popup shows the latest stored summary. This project models
the deterministic core of that in Dafny:

- `JsValues` (js_values.dfy): JSON values with JavaScript truthiness, property
  lookup, Date time values (integer milliseconds, NaN for an invalid Date,
  TimeClip at ±8.64e15 ms), and exceptions as a `Result`.
- `Text` (text.dfy): `\d`, `\s`, `parseInt` on digits, `${n}`, `toLowerCase`,
  `startsWith`.
- `HourMinutePattern` (hour_minute_pattern.dfy): the unanchored regular
  expression `/(\d+)h\s+(\d+)m/` as a leftmost, greedy search. It is proved equal
  to an independent definition: the leftmost substring that is a word of the
  pattern. Displayed durations are proved to read back through it.
- `Durations` (durations.dfy): `getHoursAndMinutesFromMilliseconds`, `clamp` and
  the break time.
- `Completion` (completion.dfy): `computeCompletionInfo`. Each computed instant
  is proved to satisfy the linear-accrual definition of the completion instant.
  The model includes the RangeError that `toISOString` throws on an invalid Date.
- `DailyData` (daily_data.dfy): `getDailyData` with the network and storage
  replaced by inputs. The ordered field probe is a loop method proved against a
  first-truthy specification. The whole operation is a method proved against
  `SummarizeDay`.
- `Presentation` (presentation.dfy): the progress value, the "reached" test, pill
  classes and tooltips of `buildWidgetHTML` (content.js) and `renderFromObj`
  (popup.js).
- `Popup` (popup.dfy): the popup's priority chain over the stored entries.

Inputs that stand for the host:

- `token`: the access token read from page storage.
- `fetched`: the response, its status and its decoded `data` list.
- `today`: the date prefix, which the code takes from the UTC ISO date.
- `parseDate`: `new Date(string)`.
- `formatTime`: the `Intl` time-of-day formatter.

An ISO timestamp field holds the time value it denotes.

In these details the model follows what the code does:

- Minutes read from text are not normalised ("3h 75m" stays 3 h 75 min).
- The probe takes the first *truthy* field: a numeric 0 and `false` are skipped.
- "Today" is the UTC date, since it is cut from `toISOString()`.
- A truthy last-log value that is not a valid Date makes the calculator throw.
  The summary is then "Error", even when effective time was found.
- The progress bar shows 100 from 478 minutes on, because 99.58 rounds to 100.

## Model

| member | source | states |
|---|---|---|
| `JsValues.JsRemainder` | content.js:20 | JavaScript `%` by a positive divisor: equals Euclidean `%` for a non-negative dividend; for a negative one it lies in (-b, 0] and differs from the dividend by a multiple of b |
| `JsValues.TimeClipIdempotent` | content.js:58 | a value that TimeClip accepted passes it again unchanged |
| `JsValues.ShiftRoundTrip` | content.js:69 | shifting a valid Date by delta and back by -delta restores it when the first shift stays in range |
| `JsValues.ToDate` | content.js:169-170 | `new Date(v)` yields a time value within the Date range; a number is taken as a time value |
| `JsValues.ToDateOfParsedString` | content.js:169-170 | a string converts to exactly the host parser's value when that lies in the Date range, and to an invalid Date when the parse fails |
| `Text.DecimalString` | content.js:111 | `${n}` is a non-empty digit string without leading zero |
| `Text.DecimalStringRoundTrip` | content.js:111 | reading back `${n}` with `parseInt` gives n |
| `Text.DecimalStringInjective` | content.js:111 | distinct status codes are written differently |
| `Text.IntStringInjective` | content.js:239 | `${i}` of distinct integers, negative ones included, are distinct strings |
| `Text.ToLowerIdempotent` | content.js:245 | lower-casing twice is lower-casing once |
| `HourMinutePattern.RunEnd` | content.js:153 | a greedy run ends at the first character outside its class |
| `HourMinutePattern.OccursGivesMatchAt` | content.js:153 | an occurrence of the pattern at a position is what the greedy attempt there finds |
| `HourMinutePattern.MatchAtGivesOccurs` | content.js:153 | a successful greedy attempt is an occurrence of the pattern |
| `HourMinutePattern.MatchAtFailsIffNoOccurrence` | content.js:153 | an attempt fails exactly when no occurrence starts there |
| `HourMinutePattern.SearchFailsIffNoOccurrence` | content.js:153 | the search fails exactly when no occurrence starts at or after its start |
| `HourMinutePattern.SearchFindsLeftmost` | content.js:153 | a successful search reports the groups of the leftmost occurrence |
| `HourMinutePattern.MatchIsLeftmostOccurrence` | content.js:153-157 | `match` finds nothing iff the string holds no occurrence, else yields the two numbers of the leftmost occurrence |
| `HourMinutePattern.FormatThenMatch` | content.js:153-157 | `${h}h ${m}m` matches with exactly h and m, minutes not normalised |
| `Durations.HoursAndMinutesFromMilliseconds` | content.js:17-22 | for ms ≥ 0: minutes < 60, hours ≥ 0, hours·60 + minutes = ms div 60000; for ms < 0 both parts are non-positive |
| `Durations.NegativeMillisecondsSplit` | content.js:17-22 | -1 minute splits into -1 h and -1 min, so the identity fails for negative input |
| `Durations.Clamp` | content.js:43-45 | the result lies in [lo, hi] when lo ≤ hi, equals val inside the range, lo below it, hi above it |
| `Durations.SplitMinutes` | content.js:158-162 | a non-negative minute count splits into normalised hours and minutes that sum back to it |
| `Durations.BreakTime` | content.js:201-205 | break time is normalised and totals max(0, gross − effective) |
| `Completion.ComputeCompletionInfo` | content.js:48-79 | no last log: "Not available", whatever the other inputs; invalid last log: RangeError; otherwise reached exactly when total ≥ target, with reachedAt on the linear-accrual crossing and ≤ last (eta fields null), or eta on the crossing and > last (reachedAt fields null); throws exactly when the crossing leaves the Date range |
| `Completion.TargetsAreOrdered` | content.js:210-212 | a larger target is reached only if a smaller one is, and the instants are the target difference apart |
| `Completion.WorkedScenario` | content.js:48-79 | 5h30m at 10:00: 4h reached 08:30, 6h due 10:30, 8h due 12:30 |
| `DailyData.FailureSummary` | content.js:85-133 | early-exit summaries are zeroed, carry no completion info or last log, are never "ok" and repeat one text in all three entries: "No token" with "Please login", "API Error" with the status code (which reads back as the code), "No today" with "Not found", "Error" with "Error" |
| `DailyData.DateTest` | content.js:122 | the test throws a TypeError exactly when the date is truthy and not a string; it holds exactly when the date string starts with today, or the date is falsy and today is empty |
| `DailyData.FindToday` | content.js:122 | `logs.find` yields the first record whose test holds, none when every test is false, and throws at a throwing test reached before any match |
| `DailyData.FindFrom` | content.js:122 | `find` returns the first record whose date starts with today, none when no test holds, and throws at a truthy non-string date before any match |
| `DailyData.FirstTruthyFrom` | content.js:148-149 | the probe position is the first field with a truthy value; none when all are falsy |
| `DailyData.FirstTruthyIs` | content.js:148-150 | a truthy field after only falsy ones is the probe position |
| `DailyData.ParseFieldValue` | content.js:151-162 | a number v gives max(0,v) split into hours and minutes; a matching string gives its two numbers; an unmatched string or other value gives 0h 0m |
| `DailyData.ProbeFields` | content.js:148-165 | the loop's field, hours and minutes equal the first-truthy specification |
| `DailyData.ProbeIgnoresLaterFields` | content.js:163 | fields after the first truthy one are never consulted |
| `DailyData.UnparsableTextStillDecides` | content.js:152-157 | a deciding string that fails the pattern stops the probe at 0h 0m |
| `DailyData.ProbeScenario` | content.js:138-165 | numeric 0 is skipped, "3h 75m" decides with 75 minutes, later fields are ignored |
| `DailyData.WallClockSpan` | content.js:168-172 | the fallback span exists exactly when both logs are truthy, both are valid Dates and the last is later |
| `DailyData.EffectiveTime` | content.js:135-177 | a deciding field fixes effective time; otherwise the fallback span in whole minutes (normalised); otherwise 0h 0m |
| `DailyData.EffectiveTimeOf` | content.js:136-177 | the probe loop followed by the fallback computes `EffectiveTime` |
| `DailyData.LastEntry` | content.js:207 | the calculator receives a last log exactly when the record's is truthy, and a valid one lies in the Date range |
| `DailyData.InterpretRecord` | content.js:135-222 | an interpreted record is "ok", its break time is max(0, gross − effective), its three completion entries are the calculator's results for 4, 6 and 8 hours and its texts theirs, and it keeps a truthy last log (else null); it throws a RangeError exactly when one of the three calculator calls throws, which needs a last log |
| `DailyData.InterpretToday` | content.js:135-222 | the statement sequence computes `InterpretRecord` |
| `DailyData.SummarizeDay` | content.js:82-235 | no token gives the login summary; a non-ok response the status-code summary; a record of today that interprets without throwing is the summary, and "ok" arises only that way; "No today" exactly when no record matches, and it is then the zeroed "Not found" summary; "Error" (the catch-all summary) exactly on a network failure, a malformed body, a throwing `find` or a throwing interpretation |
| `DailyData.GetDailyData` | content.js:82-235 | the operation computes `SummarizeDay` |
| `DailyData.NoTokenScenario` | content.js:85-95 | without a token: status "No token", zero durations, "Please login" thrice |
| `DailyData.ServerErrorScenario` | content.js:106-116 | HTTP 500: status "API Error", "500" thrice |
| `Presentation.RoundedPercent` | content.js:247 | the result is the integer nearest to 100·total/480, halves rounded up |
| `Presentation.Progress` | popup.js:21-25 | progress lies in [0,100]; it is 100 from 478 minutes and 0 up to 2 minutes |
| `Presentation.ProgressMonotone` | popup.js:21-25 | more effective time never lowers the progress |
| `Presentation.Title` | popup.js:17-19 | a reached text gives "Reached at " + the reached-at time (or nothing after it when absent); otherwise a present non-empty ETA time gives "Estimated " + it; otherwise the title is empty |
| `Presentation.PopupPillClass` | popup.js:27 | the class is the pill style exactly for a reached value, and plain "kw-time" otherwise |
| `Presentation.WidgetPillClass` | content.js:256-258 | the class is the pill style exactly for a reached value, and "kw-time " (with the trailing space) otherwise |
| `Presentation.DurationText` | content.js:239-240 | a non-negative `${h}h ${m}m` reads back through the probe pattern as h and m; a negative one starts with a minus sign |
| `Presentation.PopupView` | popup.js:5-60 | the rendering shows the effective and break durations as `DurationText` writes them, the progress of the effective time and each target's text with the reached pill class exactly when it reads "reached" and plain "kw-time" otherwise, and with the tooltip `Title` chooses from its completion info |
| `Presentation.WidgetView` | content.js:238-274 | the widget shows the same duration texts, progress, texts and tooltips from the same summary; a row has the reached pill class exactly when it reads "reached", and "kw-time " otherwise |
| `Presentation.PillClassesAgree` | content.js:256-258 | the widget's pill class equals the popup's when reached, and is the popup's plus a trailing space otherwise |
| `Presentation.RowsAgree` | content.js:256-274 | widget and popup rows agree except that the widget's non-reached pill class has a trailing space |
| `Presentation.ReachedTest` | popup.js:16 | "Reached" and "REACHED" pass, "Not available", "Reached at" and numbers fail |
| `Presentation.ReachedIgnoresCase` | popup.js:16 | a string passes the "reached" test exactly when its lower-case form does |
| `Presentation.NumeralNotReached` | popup.js:16 | a status-code text never passes the reached test |
| `Presentation.RowOfCompletion` | popup.js:16-27 | a computed completion has the reached pill class exactly when reached, and plain "kw-time" otherwise; tooltip "Reached at t", "Estimated t" or empty without a last log |
| `Presentation.InterpretedRowsMarkReachedTargets` | popup.js:48-56 | in an "ok" summary's rendering each target has the reached pill class exactly when reached, and plain "kw-time" otherwise |
| `Presentation.FailureViewIsPlain` | popup.js:5-27 | an early-exit summary renders with progress 0, plain pills and empty tooltips |
| `Popup.PopupContent` | popup.js:66-79 | the structured object wins; the markup only without it; the legacy text only without both; "No data" only when all are absent |
| `Popup.LowerPriorityIgnored` | popup.js:66-79 | entries below the shown one do not affect the result |

Definitions whose properties are stated by the members above rather than by a row of their own:
`JsValues.Get` (content.js:149, a missing key reads as `undefined`), `JsValues.TimeClip`
(content.js:58), `JsValues.Shift` (content.js:69), `Text.IntString` (content.js:239),
`Text.ToLower` (content.js:245), `Presentation.IsReached` (popup.js:16, content.js:245;
see `ReachedTest`, `ReachedIgnoresCase`, `NumeralNotReached`) and
`HourMinutePattern.MatchHoursMinutes` (content.js:153; see `MatchIsLeftmostOccurrence`).

## Left out

- Network and storage: `fetch`, `response.json()`, `localStorage`, and the
  `chrome.storage` / `chrome.runtime` / `chrome.scripting` calls (content.js:84-118
  and 540-564, popup.js:65, all of background.js). The token, the response and the
  stored entries are inputs instead.
- The DOM: styles, mounting and unmounting, the minimise toggle and the markup
  text (content.js:276-511). A rendering is reduced to the decisions in `View`.
- Timers, the mutation observer, visibility, focus, pagehide and unload handlers,
  and the module state `destroyed`, `widgetHTML`, `widgetData` (content.js:1-14,
  513-623). These are event scheduling, with no arithmetic.
- `formatTimeWithTZ` and `Intl.DateTimeFormat` (content.js:24-41). The model
  takes the formatter as the parameter `formatTime`.
- `toISOString` text. An ISO field holds the time value it denotes.
- `new Date(string)`. The model takes the parser as the parameter `parseDate`.
- Objects and arrays passed to `new Date` are treated as invalid Dates.
- Floating point: numbers are integers. Fractional minute values in numeric
  fields are not modelled. Neither is `parseInt` precision above 2^53.
- Presentation.RoundedPercent: rounds the exact rational 100·total/480, not the
  double-precision value. Between 0 and 480 minutes they differ only at 276 minutes.
  There the double is 57.49999999999999, so the code shows 57 while the model gives 58.
- Presentation.Progress: inherits that one difference at 276 minutes.
- Text.ToLower: maps only A–Z. No other code point lower-cases to a letter of
  "reached", so the test is unaffected.
- Payload shapes that make `find` throw beyond a non-string date are not
  modelled: a truthy non-array `data`, or a `null` entry in the list.
- The three `.replace` calls on stored markup in popup.js:70-73. The stored
  markup is shown as stored.
- popup.js:1-3 `clamp` is the same function as content.js:43-45 and is modelled
  once, as `Durations.Clamp`.
- `hasExtensionContext` (content.js:1-7) is host glue.
