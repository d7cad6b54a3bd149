/** The list of saved campaigns: a search over name, company and template
    name, shown newest first, with a date line and a status badge per card. */
module ExistingCampaigns {
  import opened Wrappers
  import opened Text
  import opened Seqs
  import opened Entities

  /** One field of the search: `field.toLowerCase().includes(query.toLowerCase())`,
      a missing field never matching. */
  predicate FieldMatches(field: Option<string>, query: string) {
    field.Some? && ContainsIgnoringCase(field.value, query)
  }

  /** The template name as `campaign.template?.name` reads it. */
  function TemplateName(c: Campaign): Option<string> {
    if c.template.Some? then c.template.value.name else None
  }

  predicate Matches(c: Campaign, query: string) {
    FieldMatches(c.campaignName, query) || FieldMatches(c.company, query) || FieldMatches(TemplateName(c), query)
  }

  /** The search effect: a query that trims to nothing shows every campaign;
      otherwise the untrimmed query is searched for. */
  function FilterCampaigns(campaigns: seq<Campaign>, query: string): seq<Campaign> {
    if Trim(query) == "" then campaigns
    else Filter(campaigns, (c: Campaign) => Matches(c, query))
  }

  /** A blank query keeps the whole list; otherwise a campaign stays exactly
      when its name, company or template name contains the query, and the
      result keeps the list's order either way. */
  lemma FilterCampaignsSpec(campaigns: seq<Campaign>, query: string, c: Campaign)
    ensures IsBlank(query) ==> FilterCampaigns(campaigns, query) == campaigns
    ensures !IsBlank(query) ==> (c in FilterCampaigns(campaigns, query) <==> c in campaigns && Matches(c, query))
    ensures IsSubsequence(FilterCampaigns(campaigns, query), campaigns)
  {
    TrimEmptyIffBlank(query);
    FilterMembership(campaigns, (c: Campaign) => Matches(c, query), c);
    FilterIsSubsequence(campaigns, (c: Campaign) => Matches(c, query));
    if IsBlank(query) {
      SubsequenceOfSelf(campaigns);
    }
  }

  lemma {:induction false} SubsequenceOfSelf<T>(xs: seq<T>)
    ensures IsSubsequence(xs, xs)
  {
    if xs != [] {
      SubsequenceOfSelf(xs[1..]);
    }
  }

  /** `[...filteredCampaigns].reverse()`: the last campaign of the list first. */
  function DisplayOrder(filtered: seq<Campaign>): (r: seq<Campaign>)
    ensures |r| == |filtered|
    ensures forall i :: 0 <= i < |r| ==> r[i] == filtered[|filtered| - 1 - i]
    ensures multiset(r) == multiset(filtered)
  {
    ReverseSameElements(filtered);
    Reverse(filtered)
  }

  /** `formatDate`: a missing or empty date reads "Unknown date"; any other is
      handed to the locale formatter. */
  function FormatDate(dateString: Option<string>, localeFormat: string -> string): (r: string)
    ensures !Truthy(dateString) ==> r == "Unknown date"
    ensures Truthy(dateString) ==> r == localeFormat(dateString.value)
  {
    if !Truthy(dateString) then "Unknown date" else localeFormat(dateString.value)
  }

  datatype Badge = PendingBadge | DoneBadge

  /** Only the status "Pending" gets the amber badge. */
  function StatusBadge(status: string): (r: Badge)
    ensures r == PendingBadge <==> status == "Pending"
  {
    if status == "Pending" then PendingBadge else DoneBadge
  }

  /** The empty-list heading depends on the query as typed. */
  function EmptyHeading(query: string): (r: string)
    ensures r == "No campaigns yet" <==> query == ""
  {
    if query != "" then "No matching campaigns" else "No campaigns yet"
  }
}
