/** The form that adds or edits one HR contact: required-field and email
    shape validation, per-field error clearing, the "Verified" checkbox with
    its confirmation dialog and verification request, and the save request. */
module HrForm {
  import opened Wrappers
  import opened Text
  import opened Entities
  import opened Effects
  import opened Email

  datatype HrFields = HrFields(
    name: string,
    email: string,
    company: string,
    title: string,
    mobileNo: string,
    isGlobal: bool,
    isVerified: bool)

  const InitialForm := HrFields("", "", "", "", "", false, false)

  // Validation

  /** The element ids the error object is keyed by. */
  datatype FieldId = NameId | EmailId | CompanyId | TitleId | MobileNoId | IsGlobalId

  const NameRequired := "Name is required"
  const EmailRequired := "Email is required"
  const EmailInvalid := "Enter a valid email"
  const MobileRequired := "Mobile number is required"

  /** What the error object `validate` returns holds for the fields `f`:
      company and title are never checked, and a blank email reports only
      that it is required. */
  predicate Describes(m: map<FieldId, string>, f: HrFields) {
    Reports(m, IsBlank(f.name), IsBlank(f.email), EmailShape(f.email), IsBlank(f.mobileNo))
  }

  /** The error object for the given verdicts on the three checked fields. */
  predicate Reports(m: map<FieldId, string>, nameBlank: bool, emailBlank: bool, emailShape: bool, mobileBlank: bool) {
    && m.Keys <= {NameId, EmailId, MobileNoId}
    && (NameId in m <==> nameBlank)
    && (MobileNoId in m <==> mobileBlank)
    && (EmailId in m <==> emailBlank || !emailShape)
    && (NameId in m ==> m[NameId] == NameRequired)
    && (MobileNoId in m ==> m[MobileNoId] == MobileRequired)
    && (EmailId in m ==> m[EmailId] == (if emailBlank then EmailRequired else EmailInvalid))
  }

  predicate HrValid(f: HrFields) {
    !IsBlank(f.name) && !IsBlank(f.mobileNo) && !IsBlank(f.email) && EmailShape(f.email)
  }

  /** The error object is empty exactly when name, email and mobile number are
      filled in and the email has the right shape; and the fields determine
      it completely. */
  lemma DescribesSpec(m: map<FieldId, string>, m': map<FieldId, string>, f: HrFields)
    requires Describes(m, f) && Describes(m', f)
    ensures m == map[] <==> HrValid(f)
    ensures m == m'
  {
    ReportsSpec(m, m', IsBlank(f.name), IsBlank(f.email), EmailShape(f.email), IsBlank(f.mobileNo));
  }

  lemma ReportsSpec(m: map<FieldId, string>, m': map<FieldId, string>, nameBlank: bool, emailBlank: bool, emailShape: bool, mobileBlank: bool)
    requires Reports(m, nameBlank, emailBlank, emailShape, mobileBlank)
    requires Reports(m', nameBlank, emailBlank, emailShape, mobileBlank)
    ensures m == map[] <==> !nameBlank && !emailBlank && emailShape && !mobileBlank
    ensures m == m'
  {
    if m == map[] {
      assert NameId !in m && EmailId !in m && MobileNoId !in m;
    }
    if !nameBlank && !emailBlank && emailShape && !mobileBlank {
      assert NameId !in m && EmailId !in m && MobileNoId !in m;
      assert m.Keys == {};
    }
    forall k ensures k in m <==> k in m' {
      if k in m || k in m' {
        assert k == NameId || k == EmailId || k == MobileNoId;
      }
    }
  }

  // Requests

  datatype HrBody = HrPayload(fields: HrFields) | VerifyEmails(emails: seq<string>)

  /** `isEdit ? put hr/<id> : post hr`, with the whole form as payload. */
  function SaveRequest(id: Option<string>, f: HrFields): (r: Request<HrBody>)
    ensures r.body == HrPayload(f)
    ensures r.verb == PUT <==> Truthy(id)
    ensures r.verb == PUT ==> r.path == "hr/" + id.value
    ensures r.verb == POST ==> r.path == "hr"
  {
    if Truthy(id) then Request(PUT, "hr/" + id.value, HrPayload(f))
    else Request(POST, "hr", HrPayload(f))
  }

  const VerifiedMessage := "Email verified successfully \U{2705}"
  const InvalidMessage := "Email is invalid \U{274C}"
  const LimitMessage := "Daily verification limit reached \U{1F6AB}"
  const VerifyFailedMessage := "Verification failed"

  /** The verification request's outcome: the first result's status, or a
      rejection that is either a rate limit (with the server's message, if
      any) or anything else. */
  datatype VerifyOutcome =
    | Checked(firstStatus: Option<string>)
    | VerifyRejected(rateLimited: bool, serverMessage: Option<string>)

  /** Whether the contact ends up verified, and the toast shown. */
  function VerifyResult(outcome: VerifyOutcome): (r: (bool, Toast))
    ensures r.0 <==> outcome == Checked(Some("valid"))
    ensures r.0 ==> r.1 == ToastSuccess(VerifiedMessage)
    ensures !r.0 ==> r.1.ToastError?
    ensures outcome.VerifyRejected? && !outcome.rateLimited ==> r.1 == ToastError(VerifyFailedMessage)
    ensures outcome.VerifyRejected? && outcome.rateLimited ==>
      r.1 == ToastError(if Truthy(outcome.serverMessage) then outcome.serverMessage.value else LimitMessage)
  {
    match outcome
    case Checked(status) =>
      if status == Some("valid") then (true, ToastSuccess(VerifiedMessage))
      else (false, ToastError(InvalidMessage))
    case VerifyRejected(rateLimited, message) =>
      if rateLimited then (false, ToastError(if Truthy(message) then message.value else LimitMessage))
      else (false, ToastError(VerifyFailedMessage))
  }

  datatype TextField = Name | Email | Company | Title | MobileNo

  /** The element id `handleChange` uses as the key. */
  function Key(field: TextField): FieldId {
    match field
    case Name => NameId
    case Email => EmailId
    case Company => CompanyId
    case Title => TitleId
    case MobileNo => MobileNoId
  }

  function SetText(f: HrFields, field: TextField, value: string): (r: HrFields)
    ensures r.isGlobal == f.isGlobal && r.isVerified == f.isVerified
    ensures field == Name ==> r == f.(name := value)
    ensures field == Email ==> r == f.(email := value)
    ensures field == Company ==> r == f.(company := value)
    ensures field == Title ==> r == f.(title := value)
    ensures field == MobileNo ==> r == f.(mobileNo := value)
  {
    match field
    case Name => f.(name := value)
    case Email => f.(email := value)
    case Company => f.(company := value)
    case Title => f.(title := value)
    case MobileNo => f.(mobileNo := value)
  }

  datatype SaveOutcome = Saved(responseName: Option<string>) | SaveFailed(message: Option<string>)

  const HrsPath := "/layout/hrs"

  class HrFormPage {
    const routeId: Option<string>
    var form: HrFields
    var errors: map<FieldId, string>
    var loading: bool
    var showVerifyPopup: bool
    var pendingVerify: bool
    var requests: seq<Request<HrBody>>
    var toasts: seq<Toast>
    var navigatedTo: Option<string>
    /** The name in the form as `handleSubmit` saw it when it sent the request;
        the closure awaiting the response reads this copy, not later edits. */
    var submittedName: string

    constructor (routeId: Option<string>)
      ensures this.routeId == routeId && form == InitialForm && errors == map[]
      ensures !loading && !showVerifyPopup && !pendingVerify
      ensures requests == [] && toasts == [] && navigatedTo == None && submittedName == ""
    {
      this.routeId := routeId;
      form := InitialForm;
      errors := map[];
      loading := false;
      showVerifyPopup := false;
      pendingVerify := false;
      requests := [];
      toasts := [];
      navigatedTo := None;
      submittedName := "";
    }

    /** `handleChange` on a text input: the new value, and that key's message
        set to the empty string. */
    method HandleTextChange(field: TextField, value: string)
      modifies `form, `errors
      ensures form == SetText(old(form), field, value)
      ensures errors == old(errors)[Key(field) := ""]
    {
      errors := errors[Key(field) := ""];
      form := SetText(form, field, value);
    }

    /** `handleChange` on the global checkbox. */
    method HandleGlobalChange(checked: bool)
      modifies `form, `errors
      ensures form == old(form).(isGlobal := checked)
      ensures errors == old(errors)[IsGlobalId := ""]
    {
      form := form.(isGlobal := checked);
      errors := errors[IsGlobalId := ""];
    }

    /** `handleVerifyChange`: unticking clears the flag at once; ticking only
        opens the dialog. */
    method HandleVerifyChange(checked: bool)
      modifies `form, `showVerifyPopup
      ensures checked ==> showVerifyPopup && form == old(form)
      ensures !checked ==> form == old(form).(isVerified := false) && showVerifyPopup == old(showVerifyPopup)
    {
      if checked {
        showVerifyPopup := true;
      } else {
        form := form.(isVerified := false);
      }
    }

    /** "Yes, I'm sure": the contact is taken as verified and the dialog closes. */
    method ConfirmVerified()
      modifies `form, `showVerifyPopup
      ensures form == old(form).(isVerified := true) && !showVerifyPopup
    {
      form := form.(isVerified := true);
      showVerifyPopup := false;
    }

    /** "Not sure, verify via API": sends the typed email for checking. */
    method VerifyViaApi()
      requires !pendingVerify
      modifies `pendingVerify, `requests
      ensures pendingVerify
      ensures requests == old(requests) + [Request(POST, "hr/verify-emails", VerifyEmails([form.email]))]
    {
      pendingVerify := true;
      requests := requests + [Request(POST, "hr/verify-emails", VerifyEmails([form.email]))];
    }

    /** The verification answer: the flag follows the result, a toast reports
        it, and the dialog always closes. */
    method VerifySettled(outcome: VerifyOutcome)
      requires pendingVerify
      modifies `form, `toasts, `pendingVerify, `showVerifyPopup
      ensures form == old(form).(isVerified := VerifyResult(outcome).0)
      ensures toasts == old(toasts) + [VerifyResult(outcome).1]
      ensures !pendingVerify && !showVerifyPopup
    {
      var (verified, toast) := VerifyResult(outcome);
      form := form.(isVerified := verified);
      toasts := toasts + [toast];
      pendingVerify := false;
      showVerifyPopup := false;
    }

    /** `validate`: fills the error object field by field. */
    method Validate() returns (newErrors: map<FieldId, string>)
      ensures Describes(newErrors, form)
    {
      newErrors := map[];
      if IsBlank(form.name) {
        newErrors := newErrors[NameId := NameRequired];
      }
      if IsBlank(form.email) {
        newErrors := newErrors[EmailId := EmailRequired];
      } else if !EmailShape(form.email) {
        newErrors := newErrors[EmailId := EmailInvalid];
      }
      if IsBlank(form.mobileNo) {
        newErrors := newErrors[MobileNoId := MobileRequired];
      }
    }

    /** The first half of `handleSubmit`: with any error the errors are shown
        and nothing is sent; otherwise saving starts and the request goes out
        (the errors shown before stay as they were). */
    method Submit()
      requires !loading
      modifies `errors, `loading, `requests, `submittedName
      ensures !HrValid(form) ==>
        Describes(errors, form) && !loading && requests == old(requests) && submittedName == old(submittedName)
      ensures HrValid(form) ==>
        errors == old(errors) && loading && requests == old(requests) + [SaveRequest(routeId, form)] && submittedName == form.name
    {
      var newErrors := Validate();
      ReportsSpec(newErrors, newErrors, IsBlank(form.name), IsBlank(form.email), EmailShape(form.email), IsBlank(form.mobileNo));
      if newErrors != map[] {
        errors := newErrors;
        return;
      }
      loading := true;
      requests := requests + [SaveRequest(routeId, form)];
      submittedName := form.name;
    }

    /** The second half of `handleSubmit`. */
    method SubmitSettled(outcome: SaveOutcome)
      requires loading
      modifies `loading, `toasts, `navigatedTo
      ensures !loading
      ensures outcome.Saved? ==>
        var name := if Truthy(outcome.responseName) then outcome.responseName.value else submittedName;
        var text := if Truthy(routeId) then name + " updated successfully!" else "Added HR " + name + " successfully!";
        toasts == old(toasts) + [ToastSuccess(text)] && navigatedTo == Some(HrsPath)
      ensures outcome.SaveFailed? ==>
        toasts == old(toasts) + [ToastError(if Truthy(outcome.message) then outcome.message.value else "Failed to save HR")]
        && navigatedTo == old(navigatedTo)
    {
      loading := false;
      match outcome
      case Saved(responseName) =>
        var name := if Truthy(responseName) then responseName.value else submittedName;
        var text := if Truthy(routeId) then name + " updated successfully!" else "Added HR " + name + " successfully!";
        toasts := toasts + [ToastSuccess(text)];
        navigatedTo := Some(HrsPath);
      case SaveFailed(message) =>
        toasts := toasts + [ToastError(if Truthy(message) then message.value else "Failed to save HR")];
    }
  }
}
