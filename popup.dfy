/** The popup's choice of what to show from the extension's storage: the
    structured summary, else the stored widget markup, else the legacy plain
    text, else a "No data" message. */
module Popup {
  import opened JsValues
  import opened DailyData
  import opened Presentation

  /** The result of reading `hourDataObj`, `hourDataHtml` and `hourData`; a
      missing key is `None`. */
  datatype Stored = Stored(hourDataObj: Option<Summary>, hourDataHtml: Option<string>, hourData: Option<string>)

  /** What the popup puts in its container. The stored markup is shown after
      three cosmetic string replacements that are not modelled. */
  datatype Shown = Rendered(view: View) | StoredMarkup(html: string) | LegacyText(text: string) | NoData(message: string)

  const NoDataMessage: string := "No data available. Please open the Keka Attendance page."

  /** A stored string is used only when it is truthy, that is non-empty. */
  predicate Present(v: Option<string>)
  {
    v.Some? && v.value != ""
  }

  /** The `if / else if` chain of the storage callback: each entry is used only
      when every entry of higher priority is absent. */
  function PopupContent(result: Stored): (c: Shown)
    ensures c.Rendered? <==> result.hourDataObj.Some?
    ensures c.Rendered? ==> c.view == PopupView(result.hourDataObj.value)
    ensures c.StoredMarkup? <==> result.hourDataObj.None? && Present(result.hourDataHtml)
    ensures c.StoredMarkup? ==> c.html == result.hourDataHtml.value
    ensures c.LegacyText? <==> result.hourDataObj.None? && !Present(result.hourDataHtml) && Present(result.hourData)
    ensures c.LegacyText? ==> c.text == result.hourData.value
    ensures c.NoData? <==> result.hourDataObj.None? && !Present(result.hourDataHtml) && !Present(result.hourData)
    ensures c.NoData? ==> c.message == NoDataMessage
  {
    if result.hourDataObj.Some? then Rendered(PopupView(result.hourDataObj.value))
    else if Present(result.hourDataHtml) then StoredMarkup(result.hourDataHtml.value)
    else if Present(result.hourData) then LegacyText(result.hourData.value)
    else NoData(NoDataMessage)
  }

  /** Entries of lower priority than the one shown do not matter. */
  lemma LowerPriorityIgnored(result: Stored, html: Option<string>, legacy: Option<string>)
    ensures result.hourDataObj.Some? ==>
              PopupContent(Stored(result.hourDataObj, html, legacy)) == PopupContent(result)
    ensures result.hourDataObj.None? && Present(result.hourDataHtml) ==>
              PopupContent(Stored(None, result.hourDataHtml, legacy)) == PopupContent(result)
  {
  }
}
