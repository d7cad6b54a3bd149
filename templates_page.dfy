/** The templates page: fetches the template list once, filters it by name as
    the search box changes, and yields to the editor on an id route. */
module TemplatesPage {
  import opened Wrappers
  import opened Text
  import opened Seqs
  import opened Entities
  import opened Effects

  /** `t.name?.toLowerCase().includes(searchTerm.toLowerCase())`: a template
      without a name gives `undefined`, which the filter drops. */
  predicate NameMatches(t: Template, searchTerm: string) {
    t.name.Some? && ContainsIgnoringCase(t.name.value, searchTerm)
  }

  /** `filteredTemplates` */
  function FilteredTemplates(templates: seq<Template>, searchTerm: string): seq<Template> {
    Filter(templates, (t: Template) => NameMatches(t, searchTerm))
  }

  /** The list keeps exactly the templates whose name contains the search
      term ignoring ASCII case, in their order; with an empty term it keeps
      every named template. */
  lemma FilteredTemplatesSpec(templates: seq<Template>, searchTerm: string, t: Template)
    ensures t in FilteredTemplates(templates, searchTerm) <==> t in templates && NameMatches(t, searchTerm)
    ensures IsSubsequence(FilteredTemplates(templates, searchTerm), templates)
    ensures searchTerm == "" ==> (t in FilteredTemplates(templates, searchTerm) <==> t in templates && t.name.Some?)
  {
    FilterMembership(templates, (t: Template) => NameMatches(t, searchTerm), t);
    FilterIsSubsequence(templates, (t: Template) => NameMatches(t, searchTerm));
    if t.name.Some? {
      ContainsIgnoringCaseEmpty(t.name.value);
    }
  }

  const FetchFailedMessage := "Failed to fetch templates"

  class TemplatesPageState {
    const routeId: Option<string>
    var templates: seq<Template>
    var loading: bool
    var searchTerm: string
    var requests: seq<Request<()>>
    var toasts: seq<Toast>

    /** Mounting starts the fetch. */
    constructor (routeId: Option<string>)
      ensures this.routeId == routeId && templates == [] && loading && searchTerm == ""
      ensures requests == [Request(GET, "templates", ())] && toasts == []
    {
      this.routeId := routeId;
      templates := [];
      loading := true;
      searchTerm := "";
      requests := [Request(GET, "templates", ())];
      toasts := [];
    }

    /** The end of `fetchTemplates`: a failure keeps the list and shows a
        toast; loading ends either way. */
    method FetchSettled(result: FetchResult<seq<Template>>)
      modifies `templates, `loading, `toasts
      ensures templates == AfterFetch(old(templates), result) && !loading
      ensures result.FetchFailed? ==> toasts == old(toasts) + [ToastError(FetchFailedMessage)]
      ensures result.Loaded? ==> toasts == old(toasts)
    {
      loading := false;
      match result
      case Loaded(data) => templates := data.GetOr([]);
      case FetchFailed => toasts := toasts + [ToastError(FetchFailedMessage)];
    }

    method SetSearchTerm(value: string)
      modifies `searchTerm
      ensures searchTerm == value
    {
      searchTerm := value;
    }

    /** What the page renders: nothing on an id route, otherwise the list
        with the filtered templates. */
    function Shown(): (r: Option<seq<Template>>)
      reads this
      ensures r.None? <==> Truthy(routeId)
      ensures r.Some? ==> forall t :: t in r.value ==> t in templates && NameMatches(t, searchTerm)
      ensures r.Some? ==> r.value == FilteredTemplates(templates, searchTerm)
    {
      if Truthy(routeId) then None
      else
        var shown := FilteredTemplates(templates, searchTerm);
        assert forall t :: t in shown ==> t in templates && NameMatches(t, searchTerm) by {
          forall t | t in shown ensures t in templates && NameMatches(t, searchTerm) {
            FilteredTemplatesSpec(templates, searchTerm, t);
          }
        }
        Some(shown)
    }
  }
}
