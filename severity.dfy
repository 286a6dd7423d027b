/** The three recognised severities and the colour each notification channel shows for them. */
module Severity {

  const Critical: string := "critical"
  const High: string := "high"
  const Warning: string := "warning"

  /** The recognised severities, in the order the source lists them. */
  const Known: seq<string> := [Critical, High, Warning]

  predicate IsKnown(severity: string)
  {
    severity in Known
  }

  const Red: string := "#FF0000"
  const Orange: string := "#FFA500"
  const Yellow: string := "#FFFF00"
  const Grey: string := "#808080"

  /** `colors.get(severity, '#808080')` over the table critical/high/warning -> red/orange/yellow. */
  function Color(severity: string): string
  {
    if severity == Critical then Red
    else if severity == High then Orange
    else if severity == Warning then Yellow
    else Grey
  }

  /**
   * The colour table is the default grey exactly off the recognised severities, and it tells the
   * recognised severities apart.
   */
  lemma ColorTable(s: string, t: string)
    ensures Color(s) == Grey <==> !IsKnown(s)
    ensures IsKnown(s) && IsKnown(t) && s != t ==> Color(s) != Color(t)
    ensures Color(Critical) == Red && Color(High) == Orange && Color(Warning) == Yellow
  {
  }
}
