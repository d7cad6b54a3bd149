/** The mail-keys page: the sender address (the login email, or one typed in)
    and the 16-character app password used to send mail, validated and saved
    with one request. */
module MailKeys {
  import opened Wrappers
  import opened Text
  import opened Effects
  import opened Email

  const EmailRequired := "Email is required"
  const EmailInvalid := "Invalid email format"
  const PasswordRequired := "App password is required"
  const PasswordInvalid := "Must be 16 characters (letters & numbers only)"
  const SavedMessage := "Mail keys saved successfully \U{2705}"
  const SaveFailedMessage := "Failed to save mail keys"

  predicate IsAsciiAlphanumeric(c: char) {
    ('a' <= c <= 'z') || ('A' <= c <= 'Z') || ('0' <= c <= '9')
  }

  /** `/^[a-zA-Z0-9]{16}$/.test(p)` */
  predicate AppPasswordShape(p: string) {
    |p| == 16 && forall i :: 0 <= i < |p| ==> IsAsciiAlphanumeric(p[i])
  }

  /** The email message: none while the login email is used. */
  function EmailError(useLoggedEmail: bool, email: string): string {
    if useLoggedEmail then ""
    else if IsBlank(email) then EmailRequired
    else if !EmailShape(email) then EmailInvalid
    else ""
  }

  function PasswordError(appPassword: string): string {
    if IsBlank(appPassword) then PasswordRequired
    else if !AppPasswordShape(appPassword) then PasswordInvalid
    else ""
  }

  /** The email passes when the login email is used, and otherwise exactly
      when it has the right shape; a blank one is reported as missing. */
  lemma EmailErrorSpec(useLoggedEmail: bool, email: string)
    ensures EmailError(useLoggedEmail, email) == "" <==> useLoggedEmail || EmailShape(email)
    ensures !useLoggedEmail && IsBlank(email) ==> EmailError(useLoggedEmail, email) == EmailRequired
    ensures !useLoggedEmail && !IsBlank(email) && !EmailShape(email) ==> EmailError(useLoggedEmail, email) == EmailInvalid
  {
    ShapedIsNotBlank(email);
  }

  /** The app password passes exactly when it is 16 ASCII letters and digits;
      a blank one is reported as missing. */
  lemma PasswordErrorSpec(appPassword: string)
    ensures PasswordError(appPassword) == "" <==> AppPasswordShape(appPassword)
    ensures IsBlank(appPassword) ==> PasswordError(appPassword) == PasswordRequired
  {
    if AppPasswordShape(appPassword) {
      assert !IsSpace(appPassword[0]);
    }
  }

  /** `{ email: "", appPassword: "" }`: both keys always present. */
  datatype MailErrors = MailErrors(email: string, appPassword: string)

  datatype SmtpBody = SmtpBody(email: string, password: string)

  class MailKeysPage {
    const loggedInEmail: string
    var useLoggedEmail: bool
    var email: string
    var appPassword: string
    var loading: bool
    var errors: MailErrors
    var requests: seq<Request<SmtpBody>>
    var toasts: seq<Toast>

    /** The stored user's email, or the empty string without one. */
    constructor (userEmail: Option<string>)
      ensures loggedInEmail == userEmail.GetOr("") && useLoggedEmail && email == loggedInEmail
      ensures appPassword == "" && !loading && errors == MailErrors("", "")
      ensures requests == [] && toasts == []
    {
      loggedInEmail := userEmail.GetOr("");
      useLoggedEmail := true;
      email := userEmail.GetOr("");
      appPassword := "";
      loading := false;
      errors := MailErrors("", "");
      requests := [];
      toasts := [];
    }

    /** The "use my login email" checkbox. */
    method SetUseLoggedEmail(checked: bool)
      modifies `useLoggedEmail, `email, `errors
      ensures useLoggedEmail == checked
      ensures email == if checked then loggedInEmail else ""
      ensures errors == old(errors).(email := "")
    {
      useLoggedEmail := checked;
      email := if checked then loggedInEmail else "";
      errors := errors.(email := "");
    }

    method SetEmail(value: string)
      modifies `email
      ensures email == value
    {
      email := value;
    }

    method SetAppPassword(value: string)
      modifies `appPassword
      ensures appPassword == value
    {
      appPassword := value;
    }

    /** `validateFields`: fills both messages in turn, lowering the flag on
        each failure, and stores them. */
    method Validate() returns (valid: bool)
      modifies `errors
      ensures errors == MailErrors(EmailError(useLoggedEmail, email), PasswordError(appPassword))
      ensures valid <==> (useLoggedEmail || EmailShape(email)) && AppPasswordShape(appPassword)
    {
      valid := true;
      var newErrors := MailErrors("", "");
      if !useLoggedEmail {
        if IsBlank(email) {
          newErrors := newErrors.(email := EmailRequired);
          valid := false;
        } else if !EmailShape(email) {
          newErrors := newErrors.(email := EmailInvalid);
          valid := false;
        }
      }
      if IsBlank(appPassword) {
        newErrors := newErrors.(appPassword := PasswordRequired);
        valid := false;
      } else if !AppPasswordShape(appPassword) {
        newErrors := newErrors.(appPassword := PasswordInvalid);
        valid := false;
      }
      errors := newErrors;
      EmailErrorSpec(useLoggedEmail, email);
      PasswordErrorSpec(appPassword);
    }

    /** The first half of `handleSubmit`. */
    method Submit()
      requires !loading
      modifies `errors, `loading, `requests
      ensures errors == MailErrors(EmailError(useLoggedEmail, email), PasswordError(appPassword))
      ensures var valid := (useLoggedEmail || EmailShape(email)) && AppPasswordShape(appPassword);
        && (!valid ==> !loading && requests == old(requests))
        && (valid ==> loading && requests == old(requests) + [Request(PUT, "users/smtp", SmtpBody(email, appPassword))])
    {
      var valid := Validate();
      if !valid {
        return;
      }
      loading := true;
      requests := requests + [Request(PUT, "users/smtp", SmtpBody(email, appPassword))];
    }

    /** The second half of `handleSubmit`: a successful save clears the app
        password; saving is over either way. */
    method SubmitSettled(saved: bool)
      requires loading
      modifies `loading, `appPassword, `toasts
      ensures !loading
      ensures saved ==> appPassword == "" && toasts == old(toasts) + [ToastSuccess(SavedMessage)]
      ensures !saved ==> appPassword == old(appPassword) && toasts == old(toasts) + [ToastError(SaveFailedMessage)]
    {
      if saved {
        toasts := toasts + [ToastSuccess(SavedMessage)];
        appPassword := "";
      } else {
        toasts := toasts + [ToastError(SaveFailedMessage)];
      }
      loading := false;
    }
  }
}
