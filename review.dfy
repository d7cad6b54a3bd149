/** The wizard's review step: the summary labels shown before saving. The
    preview of the subject and body with the values filled in is the
    substitution of the Substitution module. */
module Review {
  import opened Wrappers
  import opened Text
  import opened Entities

  const NotSelected := "Not selected"

  /** `formData.company || "Not selected"` */
  function CompanyName(d: Draft): (r: string)
    ensures r == NotSelected <==> d.company == "" || d.company == NotSelected
    ensures d.company != "" ==> r == d.company
  {
    if d.company != "" then d.company else NotSelected
  }

  /** `formData.selectedTemplate?.name || "Not selected"` */
  function TemplateName(d: Draft): (r: string)
    ensures r != ""
    ensures d.selectedTemplate.Some? && Truthy(d.selectedTemplate.value.name) ==> r == d.selectedTemplate.value.name.value
    ensures d.selectedTemplate.None? ==> r == NotSelected
  {
    if d.selectedTemplate.Some? && Truthy(d.selectedTemplate.value.name) then d.selectedTemplate.value.name.value
    else NotSelected
  }

  const HrSuffix := " HR(s) selected"
  const NoHrs := "No HRs selected"

  /** The recipient summary. */
  function HrSummary(d: Draft): string {
    if |d.hrList| > 0 then Decimal(|d.hrList|) + HrSuffix else NoHrs
  }

  /** The summary tells an empty list from a non-empty one, and two non-empty
      lists of different lengths get different summaries. */
  lemma HrSummaryDistinguishes(d: Draft, e: Draft)
    ensures HrSummary(d) == NoHrs <==> d.hrList == []
    ensures HrSummary(d) == HrSummary(e) <==> |d.hrList| == |e.hrList| || (d.hrList == [] && e.hrList == [])
  {
    if d.hrList != [] {
      var s := HrSummary(d);
      assert s[0] == Decimal(|d.hrList|)[0];
      assert IsDigit(s[0]) && !IsDigit(NoHrs[0]);
    }
    if e.hrList != [] {
      var s := HrSummary(e);
      assert s[0] == Decimal(|e.hrList|)[0];
      assert IsDigit(s[0]) && !IsDigit(NoHrs[0]);
    }
    if d.hrList != [] && e.hrList != [] && HrSummary(d) == HrSummary(e) {
      var a := Decimal(|d.hrList|);
      var b := Decimal(|e.hrList|);
      SameSuffixSamePrefix(a, b, HrSuffix);
      DecimalRoundTrip(|d.hrList|);
      DecimalRoundTrip(|e.hrList|);
    }
  }

  lemma SameSuffixSamePrefix(a: string, b: string, suffix: string)
    requires a + suffix == b + suffix
    ensures a == b
  {
    assert |a| == |b|;
    assert a == (a + suffix)[..|a|];
    assert b == (b + suffix)[..|b|];
  }
}
