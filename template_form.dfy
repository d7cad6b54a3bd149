/** The template editor: create, edit or duplicate a template. The body's
    placeholder names are recomputed on every edit of the body, and a
    template is accepted only with a name, a subject and a body that uses
    both required placeholders. */
module TemplateForm {
  import opened Wrappers
  import opened Text
  import opened Seqs
  import opened Entities
  import opened Effects
  import opened TokenScan

  // Extracting placeholder names

  /** `m.replace(/\{\{|\}\}/g, "")`: every `{{` and `}}`, read left to right, removed. */
  function StripBraces(s: string): (r: string)
    ensures |r| <= |s|
    decreases |s|
  {
    if |s| >= 2 && ((s[0] == '{' && s[1] == '{') || (s[0] == '}' && s[1] == '}')) then StripBraces(s[2..])
    else if s == [] then []
    else [s[0]] + StripBraces(s[1..])
  }

  lemma {:induction false} StripPlainPrefix(a: string, b: string)
    requires '{' !in a && '}' !in a
    ensures StripBraces(a + b) == a + StripBraces(b)
  {
    if a == [] {
      assert a + b == b;
    } else {
      assert a[0] in a;
      assert (a + b)[1..] == a[1..] + b;
      StripPlainPrefix(a[1..], b);
      assert a == [a[0]] + a[1..];
    }
  }

  /** The name a matched `{{inner}}` stands for. */
  function PlaceholderName(inner: string): string {
    Trim(StripBraces(TokenText(inner)))
  }

  function Names(tokens: seq<string>): (r: seq<string>)
    ensures |r| == |tokens|
    ensures forall i :: 0 <= i < |tokens| ==> r[i] == PlaceholderName(tokens[i])
  {
    if tokens == [] then [] else [PlaceholderName(tokens[0])] + Names(tokens[1..])
  }

  /** `extractPlaceholders(text)` */
  function ExtractPlaceholders(text: string): seq<string> {
    Dedup(Names(Tokens(Scan(text))))
  }

  /** A name is listed exactly when some token of the list stands for it. */
  lemma NamesMembership(ts: seq<string>, x: string)
    ensures x in Names(ts) <==> exists t :: t in ts && PlaceholderName(t) == x
  {
    var ns := Names(ts);
    if x in ns {
      var j :| 0 <= j < |ns| && ns[j] == x;
      assert ts[j] in ts;
    }
    if exists t :: t in ts && PlaceholderName(t) == x {
      var t :| t in ts && PlaceholderName(t) == x;
      var j :| 0 <= j < |ts| && ts[j] == t;
      assert ns[j] == x;
    }
  }

  /** The extracted names are exactly the names of the body's tokens, each once,
      in the order of their first occurrence. */
  lemma ExtractSpec(text: string, x: string)
    ensures NoDuplicates(ExtractPlaceholders(text))
    ensures x in ExtractPlaceholders(text) <==> exists t :: t in Tokens(Scan(text)) && PlaceholderName(t) == x
    ensures IsSubsequence(ExtractPlaceholders(text), Names(Tokens(Scan(text))))
    ensures forall i, j :: 0 <= i < j < |ExtractPlaceholders(text)| ==>
      FirstIndex(Names(Tokens(Scan(text))), ExtractPlaceholders(text)[i])
        < FirstIndex(Names(Tokens(Scan(text))), ExtractPlaceholders(text)[j])
  {
    var ns := Names(Tokens(Scan(text)));
    DedupFirstOrder(ns);
    DedupIsSubsequence(ns);
    DedupMembership(ns, x);
    NamesMembership(Tokens(Scan(text)), x);
  }

  /** A body without any `{{`, the empty body in particular, declares nothing. */
  lemma NoOpenNoPlaceholders(text: string)
    requires HasNoOpen(text)
    ensures ExtractPlaceholders(text) == []
  {
    NoOpenNoTokens(text);
  }

  /** Removing the braces of a token whose inner text has none gives the inner text. */
  lemma StripToken(inner: string)
    requires '{' !in inner && '}' !in inner
    ensures StripBraces(TokenText(inner)) == inner
  {
    var s := TokenText(inner);
    assert s[2..] == inner + "}}";
    StripPlainPrefix(inner, "}}");
    assert StripBraces("}}") == [];
    assert inner + [] == inner;
  }

  /** A body that is one token, with whitespace around the name inside the
      braces, declares exactly the bare name. */
  lemma SingleTokenName(pre: string, name: string, post: string)
    requires AllSpace(pre) && AllSpace(post)
    requires name != [] && !IsSpace(name[0]) && !IsSpace(name[|name| - 1])
    requires forall c :: c in pre + name + post ==> c != '{' && c != '}' && !IsLineTerminator(c)
    ensures ExtractPlaceholders(TokenText(pre + name + post)) == [name]
  {
    var inner := pre + name + post;
    assert forall i :: 0 <= i < |inner| ==> inner[i] in inner;
    SingleToken(inner);
    var ts := Tokens([Tok(inner)]);
    assert ts == [inner];
    StripToken(inner);
    TrimPadded(pre, name, post);
    var ns := Names(ts);
    assert ns == [name];
    DedupOfDistinct(ns);
  }

  // Validation

  const RequiredPlaceholders: seq<string> := ["userName", "resumeLink"]

  /** The required names the placeholder list lacks, in declaration order
      (`REQUIRED_PLACEHOLDERS.filter(p => !placeholders.includes(p))`, see
      MissingRequiredIsFilter). */
  function MissingRequired(placeholders: seq<string>): seq<string> {
    (if "userName" in placeholders then [] else ["userName"])
    + (if "resumeLink" in placeholders then [] else ["resumeLink"])
  }

  lemma MissingRequiredIsFilter(placeholders: seq<string>)
    ensures MissingRequired(placeholders) == Filter(RequiredPlaceholders, (p: string) => p !in placeholders)
  {
    var p := (p: string) => p !in placeholders;
    assert RequiredPlaceholders[1..] == ["resumeLink"];
    assert RequiredPlaceholders[1..][1..] == [];
  }

  const NameRequired := "Template Name is required"
  const SubjectRequired := "Subject is required"
  const BodyRequired := "Email Body is required"

  function MissingMessage(missing: seq<string>): string {
    "Missing required placeholders: " + Join(missing, ", ")
  }

  datatype TemplateFields = TemplateFields(
    name: string,
    subject: string,
    body: string,
    placeholders: seq<string>,
    isGlobal: bool)

  const EmptyFields := TemplateFields("", "", "", [], false)

  /** The form's error object. Only the three text fields ever receive a
      message; a field present with the empty string is one whose message was
      cleared by an edit. */
  datatype Errors = Errors(name: Option<string>, subject: Option<string>, body: Option<string>)

  const NoErrors := Errors(None, None, None)

  /** `Object.keys(errors).length === 0` */
  predicate IsEmpty(e: Errors) {
    e.name.None? && e.subject.None? && e.body.None?
  }

  /** The errors `validateForm` records for the given fields; the body's own
      check comes before the check of its placeholders. */
  function FormErrors(f: TemplateFields): Errors {
    Errors(
      name := if IsBlank(f.name) then Some(NameRequired) else None,
      subject := if IsBlank(f.subject) then Some(SubjectRequired) else None,
      body := BodyError(f.body, f.placeholders))
  }

  function BodyError(body: string, placeholders: seq<string>): Option<string> {
    if IsBlank(body) then Some(BodyRequired)
    else if |MissingRequired(placeholders)| > 0 then Some(MissingMessage(MissingRequired(placeholders)))
    else None
  }

  lemma MissingRequiredSpec(placeholders: seq<string>)
    ensures MissingRequired(placeholders) == [] <==> "userName" in placeholders && "resumeLink" in placeholders
    ensures "userName" !in placeholders && "resumeLink" in placeholders ==> MissingRequired(placeholders) == ["userName"]
    ensures "userName" in placeholders && "resumeLink" !in placeholders ==> MissingRequired(placeholders) == ["resumeLink"]
    ensures "userName" !in placeholders && "resumeLink" !in placeholders ==> MissingRequired(placeholders) == RequiredPlaceholders
  {
  }

  /** The form is accepted exactly when name, subject and body are not blank
      and both required placeholders are present. */
  lemma FormValidIff(f: TemplateFields)
    ensures IsEmpty(FormErrors(f)) <==>
      && !IsBlank(f.name) && !IsBlank(f.subject) && !IsBlank(f.body)
      && "userName" in f.placeholders && "resumeLink" in f.placeholders
  {
    MissingRequiredSpec(f.placeholders);
  }

  /** A blank body reports that it is required; otherwise a body lacking
      required placeholders names them, in declaration order. */
  lemma BodyErrorSpec(f: TemplateFields)
    ensures IsBlank(f.body) ==> FormErrors(f).body == Some(BodyRequired)
    ensures !IsBlank(f.body) && "userName" !in f.placeholders && "resumeLink" !in f.placeholders ==>
      FormErrors(f).body == Some(MissingMessage(["userName", "resumeLink"]))
    ensures !IsBlank(f.body) && "userName" in f.placeholders && "resumeLink" !in f.placeholders ==>
      FormErrors(f).body == Some(MissingMessage(["resumeLink"]))
    ensures !IsBlank(f.body) && "userName" !in f.placeholders && "resumeLink" in f.placeholders ==>
      FormErrors(f).body == Some(MissingMessage(["userName"]))
    ensures !IsBlank(f.body) && "userName" in f.placeholders && "resumeLink" in f.placeholders ==>
      FormErrors(f).body == None
  {
    MissingRequiredSpec(f.placeholders);
  }

  /** The names are listed separated by a comma and a space. */
  lemma MissingMessageText()
    ensures MissingMessage(["userName", "resumeLink"]) == "Missing required placeholders: userName, resumeLink"
  {
    assert Join(["userName", "resumeLink"], ", ") == "userName" + ", " + Join(["resumeLink"], ", ");
  }

  // Modes

  /** `Boolean(id) && state?.mode !== "duplicate"` */
  predicate IsEditMode(id: Option<string>, mode: Option<string>) {
    Truthy(id) && mode != Some("duplicate")
  }

  /** `state?.mode === "duplicate"` */
  predicate IsDuplicateMode(mode: Option<string>) {
    mode == Some("duplicate")
  }

  function Title(id: Option<string>, mode: Option<string>): string {
    if IsDuplicateMode(mode) then "Duplicate Template"
    else if IsEditMode(id, mode) then "Edit Template"
    else "Create Template"
  }

  /** Editing and duplicating never hold together, and the title names the mode. */
  lemma ModesExclusive(id: Option<string>, mode: Option<string>)
    ensures !(IsEditMode(id, mode) && IsDuplicateMode(mode))
    ensures IsEditMode(id, mode) <==> Truthy(id) && !IsDuplicateMode(mode)
    ensures Title(id, mode) == "Edit Template" <==> IsEditMode(id, mode)
    ensures Title(id, mode) == "Create Template" <==> !IsEditMode(id, mode) && !IsDuplicateMode(mode)
  {
  }

  /** Editing updates the template in place; duplicating and creating post a new one. */
  function SubmitRequest(id: Option<string>, mode: Option<string>, f: TemplateFields): (r: Request<TemplateFields>)
    ensures r.body == f
    ensures r.verb == PUT <==> IsEditMode(id, mode)
    ensures r.verb == PUT ==> r.path == "templates/" + id.value
    ensures r.verb == POST ==> r.path == "templates"
  {
    if IsEditMode(id, mode) then Request(PUT, "templates/" + id.value, f)
    else Request(POST, "templates", f)
  }

  /** `if (formErrors[name]) setFormErrors(prev => ({...prev, [name]: ""}))`
      for one field's entry. */
  function Cleared(entry: Option<string>): (r: Option<string>)
    ensures !Truthy(r)
    ensures entry.None? ==> r.None?
  {
    if Truthy(entry) then Some("") else entry
  }

  datatype TextField = NameField | SubjectField

  datatype SaveOutcome = Saved(responseName: Option<string>) | SaveFailed(message: Option<string>)

  function SuccessMessage(id: Option<string>, mode: Option<string>, name: string): string {
    if IsEditMode(id, mode) then name + " updated successfully!"
    else if IsDuplicateMode(mode) then "Duplicated template " + name + " successfully!"
    else "Created template " + name + " successfully!"
  }

  const TemplatesPath := "/layout/templates"

  /** The fields loaded from a template passed in by the list page: missing
      text becomes empty, and a missing placeholder list is recomputed from
      the body. */
  function FieldsOf(t: Template): (r: TemplateFields)
    ensures t.placeholders.None? ==> r.placeholders == ExtractPlaceholders(r.body)
  {
    var body := t.body.GetOr("");
    TemplateFields(
      t.name.GetOr(""),
      t.subject,
      body,
      if t.placeholders.Some? then t.placeholders.value else ExtractPlaceholders(body),
      t.isGlobal)
  }

  class TemplateFormPage {
    const routeId: Option<string>
    const mode: Option<string>
    var formData: TemplateFields
    var formErrors: Errors
    var loading: bool
    var requests: seq<Request<TemplateFields>>
    var toasts: seq<Toast>
    var navigatedTo: Option<string>
    /** The name in the form as `handleSubmit` saw it when it sent the request;
        the closure awaiting the response reads this copy, not later edits. */
    var submittedName: string

    constructor (routeId: Option<string>, mode: Option<string>)
      ensures this.routeId == routeId && this.mode == mode
      ensures formData == EmptyFields && formErrors == NoErrors && !loading
      ensures requests == [] && toasts == [] && navigatedTo == None && submittedName == ""
    {
      this.routeId := routeId;
      this.mode := mode;
      formData := EmptyFields;
      formErrors := NoErrors;
      loading := false;
      requests := [];
      toasts := [];
      navigatedTo := None;
      submittedName := "";
    }

    /** The effect loading the template handed over by the list page, in edit
        or duplicate mode. */
    method LoadFromState(t: Template)
      requires IsEditMode(routeId, mode) || IsDuplicateMode(mode)
      modifies `formData
      ensures formData == FieldsOf(t)
      ensures formErrors == old(formErrors) && loading == old(loading) && requests == old(requests)
      ensures toasts == old(toasts) && navigatedTo == old(navigatedTo)
    {
      formData := FieldsOf(t);
    }

    /** `handleChange` for the name and subject inputs: the new text, and
        that field's message cleared. */
    method HandleTextChange(field: TextField, value: string)
      modifies `formData, `formErrors
      ensures field == NameField ==>
        formData == old(formData).(name := value) && formErrors == old(formErrors).(name := Cleared(old(formErrors).name))
      ensures field == SubjectField ==>
        formData == old(formData).(subject := value) && formErrors == old(formErrors).(subject := Cleared(old(formErrors).subject))
      ensures loading == old(loading) && requests == old(requests) && toasts == old(toasts) && navigatedTo == old(navigatedTo)
    {
      match field
      case NameField =>
        formData := formData.(name := value);
        formErrors := formErrors.(name := Cleared(formErrors.name));
      case SubjectField =>
        formData := formData.(subject := value);
        formErrors := formErrors.(subject := Cleared(formErrors.subject));
    }

    /** `handleChange` for the global checkbox; that field never has a message,
        so the errors stay as they are. */
    method HandleGlobalChange(checked: bool)
      modifies `formData
      ensures formData == old(formData).(isGlobal := checked)
      ensures formErrors == old(formErrors)
      ensures loading == old(loading) && requests == old(requests) && toasts == old(toasts) && navigatedTo == old(navigatedTo)
    {
      formData := formData.(isGlobal := checked);
    }

    /** `handleBodyChange`: the new body with its placeholders recomputed, and
        the body's message cleared. */
    method HandleBodyChange(value: string)
      modifies `formData, `formErrors
      ensures formData == old(formData).(body := value, placeholders := ExtractPlaceholders(value))
      ensures formErrors == old(formErrors).(body := Cleared(old(formErrors).body))
      ensures loading == old(loading) && requests == old(requests) && toasts == old(toasts) && navigatedTo == old(navigatedTo)
    {
      var placeholders := ExtractPlaceholders(value);
      formData := formData.(body := value, placeholders := placeholders);
      formErrors := formErrors.(body := Cleared(formErrors.body));
    }

    /** `validateForm`: builds the error object field by field and stores it. */
    method Validate() returns (ok: bool)
      modifies `formErrors
      ensures formErrors == FormErrors(formData)
      ensures ok <==> IsEmpty(formErrors)
    {
      var f := formData;
      var errors := NoErrors;
      if IsBlank(f.name) {
        errors := errors.(name := Some(NameRequired));
      }
      if IsBlank(f.subject) {
        errors := errors.(subject := Some(SubjectRequired));
      }
      errors := errors.(body := BodyError(f.body, f.placeholders));
      assert errors == FormErrors(f);
      ok := IsEmpty(errors);
      formErrors := errors;
    }

    /** The first half of `handleSubmit`: an invalid form only shows its
        errors; a valid one starts saving and issues the request. */
    method Submit()
      requires !loading
      modifies `formErrors, `loading, `requests, `submittedName
      ensures formErrors == FormErrors(formData)
      ensures !IsEmpty(formErrors) ==> !loading && requests == old(requests) && submittedName == old(submittedName)
      ensures IsEmpty(formErrors) ==>
        loading && requests == old(requests) + [SubmitRequest(routeId, mode, formData)] && submittedName == formData.name
    {
      var ok := Validate();
      if !ok {
        return;
      }
      loading := true;
      requests := requests + [SubmitRequest(routeId, mode, formData)];
      submittedName := formData.name;
    }

    /** The second half of `handleSubmit`: a success announces the saved
        template and returns to the list, a failure shows the server's message
        or a generic one; either way saving is over. */
    method SubmitSettled(outcome: SaveOutcome)
      requires loading
      modifies `loading, `toasts, `navigatedTo
      ensures !loading
      ensures outcome.Saved? ==>
        var name := if Truthy(outcome.responseName) then outcome.responseName.value else submittedName;
        toasts == old(toasts) + [ToastSuccess(SuccessMessage(routeId, mode, name))] && navigatedTo == Some(TemplatesPath)
      ensures outcome.SaveFailed? ==>
        var message := if Truthy(outcome.message) then outcome.message.value else "Failed to save template";
        toasts == old(toasts) + [ToastError(message)] && navigatedTo == old(navigatedTo)
    {
      loading := false;
      match outcome
      case Saved(responseName) =>
        var name := if Truthy(responseName) then responseName.value else submittedName;
        toasts := toasts + [ToastSuccess(SuccessMessage(routeId, mode, name))];
        navigatedTo := Some(TemplatesPath);
      case SaveFailed(message) =>
        var text := if Truthy(message) then message.value else "Failed to save template";
        toasts := toasts + [ToastError(text)];
    }
  }
}
