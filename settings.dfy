/**
 * The two formatting helpers of the settings page. Number rendering (`${v}`
 * and `v.toFixed(2)`) is the runtime's and enters as the functions `show`
 * and `fixed2`.
 */
module Settings {
  import opened Wrappers
  import opened Kpi

  /** `undefined`, `null` and `''` are shown as missing. */
  predicate IsMissing(v: KpiValue) {
    v.Absent? || v.Null? || v == Str("")
  }

  /** `displayValue`, given the reading already fetched for the definition and its optional unit. */
  function DisplayValue(v: KpiValue, unit: Option<string>, show: real -> string, fixed2: real -> string): (r: string)
    ensures IsMissing(v) ==> r == "N/A"
    ensures v.Num? && unit == Some("ms") ==> r == fixed2(v.n) + " ms"
    ensures v.Num? && unit.Some? && unit.value != "ms" && unit.value != "" ==> r == show(v.n) + " " + unit.value
    ensures v.Num? && (unit.None? || unit == Some("")) ==> r == show(v.n)
    ensures v.Bool? ==> r == (if v.b then "Sí" else "No")
    ensures v.Str? && v.s != "" ==> r == v.s
  {
    if v.Absent? || v.Null? || v == Str("") then "N/A"
    else if v.Num? then
      if unit == Some("ms") then fixed2(v.n) + " ms"
      else if unit == Some("%") then show(v.n) + " %"
      else if unit.Some? && unit.value != "" then show(v.n) + " " + unit.value
      else show(v.n)
    else if v.Bool? then (if v.b then "Sí" else "No")
    else v.s
  }

  /** `sourceLabel`: the two automatic sources are kept, everything else is `MANUAL`. */
  function SourceLabel(s: string): (r: string)
    ensures r == "AUTO" || r == "DEVTOOLS" || r == "MANUAL"
    ensures r == s <==> (s == "AUTO" || s == "DEVTOOLS" || s == "MANUAL")
    ensures r != "MANUAL" ==> r == s
  {
    if s == "AUTO" then "AUTO"
    else if s == "DEVTOOLS" then "DEVTOOLS"
    else "MANUAL"
  }
}
