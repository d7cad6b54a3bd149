/** The HR contacts page: a scope filter choosing the endpoint, a search over
    name, email and company, and per-row edit permission. */
module HrsPage {
  import opened Wrappers
  import opened Text
  import opened Seqs
  import opened Entities
  import opened Effects

  /** `fetchData(filter)`: "hr", overwritten by "hr/global" for the global
      filter and by "hr/user" for the user filter. */
  function Endpoint(filter: string): (r: string)
    ensures filter == "global" ==> r == "hr/global"
    ensures filter == "user" ==> r == "hr/user"
    ensures filter != "global" && filter != "user" ==> r == "hr"
  {
    var endpoint := "hr";
    var endpoint := if filter == "global" then "hr/global" else endpoint;
    if filter == "user" then "hr/user" else endpoint
  }

  predicate FieldMatches(field: Option<string>, search: string) {
    field.Some? && ContainsIgnoringCase(field.value, search)
  }

  predicate HrMatches(hr: HrContact, search: string) {
    FieldMatches(hr.name, search) || FieldMatches(hr.email, search) || FieldMatches(hr.company, search)
  }

  /** `filteredHrs` */
  function FilteredHrs(hrs: seq<HrContact>, search: string): seq<HrContact> {
    Filter(hrs, (hr: HrContact) => HrMatches(hr, search))
  }

  /** A contact stays, in order, exactly when its name, email or company
      contains the search ignoring ASCII case; an empty search keeps every
      contact that has any of the three. */
  lemma FilteredHrsSpec(hrs: seq<HrContact>, search: string, hr: HrContact)
    ensures hr in FilteredHrs(hrs, search) <==> hr in hrs && HrMatches(hr, search)
    ensures IsSubsequence(FilteredHrs(hrs, search), hrs)
    ensures search == "" ==>
      (hr in FilteredHrs(hrs, search) <==> hr in hrs && (hr.name.Some? || hr.email.Some? || hr.company.Some?))
  {
    FilterMembership(hrs, (hr: HrContact) => HrMatches(hr, search), hr);
    FilterIsSubsequence(hrs, (hr: HrContact) => HrMatches(hr, search));
    if hr.name.Some? { ContainsIgnoringCaseEmpty(hr.name.value); }
    if hr.email.Some? { ContainsIgnoringCaseEmpty(hr.email.value); }
    if hr.company.Some? { ContainsIgnoringCaseEmpty(hr.company.value); }
  }

  /** `user.role === "admin" || (user.role === "user" && hr.addedBy === user._id)`;
      two missing ids compare equal. */
  predicate CanEdit(role: Option<string>, userId: Option<string>, hr: HrContact) {
    role == Some("admin") || (role == Some("user") && hr.addedBy == userId)
  }

  /** Admins edit every contact; users only their own; anyone else none. */
  lemma CanEditSpec(role: Option<string>, userId: Option<string>, hr: HrContact)
    ensures role == Some("admin") ==> CanEdit(role, userId, hr)
    ensures role == Some("user") ==> (CanEdit(role, userId, hr) <==> hr.addedBy == userId)
    ensures role != Some("admin") && role != Some("user") ==> !CanEdit(role, userId, hr)
  {
  }

  const FetchFailedMessage := "Failed to fetch HR data"

  class HrsPageState {
    const role: Option<string>
    const userId: Option<string>
    var hrs: seq<HrContact>
    var loading: bool
    var activeFilter: string
    var search: string
    var requests: seq<Request<()>>
    var toasts: seq<Toast>
    var navigatedTo: Option<(string, HrContact)>

    /** Mounting fetches with the "all" filter. */
    constructor (role: Option<string>, userId: Option<string>)
      ensures this.role == role && this.userId == userId
      ensures hrs == [] && loading && activeFilter == "all" && search == ""
      ensures requests == [Request(GET, "hr", ())] && toasts == [] && navigatedTo == None
    {
      this.role := role;
      this.userId := userId;
      hrs := [];
      loading := true;
      activeFilter := "all";
      search := "";
      requests := [Request(GET, Endpoint("all"), ())];
      toasts := [];
      navigatedTo := None;
    }

    /** A filter button: the effect on `activeFilter` fetches again, but only
        when the filter changes; setting the active filter again leaves the
        state as it is, so the effect does not re-run. */
    method SetFilter(filter: string)
      modifies `activeFilter, `loading, `requests
      ensures activeFilter == filter
      ensures filter != old(activeFilter) ==>
        loading && requests == old(requests) + [Request(GET, Endpoint(filter), ())]
      ensures filter == old(activeFilter) ==> loading == old(loading) && requests == old(requests)
    {
      if filter != activeFilter {
        activeFilter := filter;
        loading := true;
        requests := requests + [Request(GET, Endpoint(filter), ())];
      }
    }

    /** The end of `fetchData`: a failure keeps the previous list and shows a
        toast; loading ends either way. */
    method FetchSettled(result: FetchResult<seq<HrContact>>)
      modifies `hrs, `loading, `toasts
      ensures hrs == AfterFetch(old(hrs), result) && !loading
      ensures result.FetchFailed? ==> toasts == old(toasts) + [ToastError(FetchFailedMessage)]
      ensures result.Loaded? ==> toasts == old(toasts)
    {
      loading := false;
      match result
      case Loaded(data) => hrs := data.GetOr([]);
      case FetchFailed => toasts := toasts + [ToastError(FetchFailedMessage)];
    }

    method SetSearch(value: string)
      modifies `search
      ensures search == value
    {
      search := value;
    }

    /** The row's edit button: navigates to the editor only with permission. */
    method EditClick(hr: HrContact)
      modifies `navigatedTo
      ensures CanEdit(role, userId, hr) ==> navigatedTo == Some(("/layout/hrs/edit/" + hr.id, hr))
      ensures !CanEdit(role, userId, hr) ==> navigatedTo == old(navigatedTo)
    {
      if CanEdit(role, userId, hr) {
        navigatedTo := Some(("/layout/hrs/edit/" + hr.id, hr));
      }
    }
  }
}
