/**
 * The reset-password page (src/pages/ResetPassword.jsx): it needs the e-mail and
 * code the OTP step carried, sends the new password once it is confirmed, and
 * otherwise redirects to forgot-password without showing the form.
 */
module ResetPassword {
  import opened Wrappers
  import opened Validation
  import opened Routes
  import Api

  const PasswordRequired := "Password is required."
  const PasswordTooShort := "Password must be at least 6 characters long."
  const ResetFailed := "Failed to reset password. Please try again."

  /** The shape of both `formValues` and `fieldErrors`. */
  datatype Fields = Fields(password: string, confirmPassword: string)

  const Blank := Fields("", "")

  datatype Field = Password | ConfirmPassword

  function Get(f: Fields, name: Field): string
  {
    match name
    case Password => f.password
    case ConfirmPassword => f.confirmPassword
  }

  function Set(f: Fields, name: Field, value: string): (r: Fields)
    ensures Get(r, name) == value
    ensures forall other :: other != name ==> Get(r, other) == Get(f, other)
  {
    match name
    case Password => f.(password := value)
    case ConfirmPassword => f.(confirmPassword := value)
  }

  function PasswordError(password: string): string
  {
    if password == "" then PasswordRequired
    else if |password| < MinPasswordLength then PasswordTooShort
    else ""
  }

  function Errors(v: Fields): Fields
  {
    Fields(PasswordError(v.password), ConfirmPasswordError(v.password, v.confirmPassword))
  }

  predicate NoErrors(e: Fields)
  {
    e == Blank
  }

  /** The reset form passes exactly a password of six or more characters and an
      identical confirmation; the messages follow the fixed order of the rules. */
  lemma ValidateAcceptsExactly(v: Fields)
    ensures NoErrors(Errors(v)) <==> |v.password| >= MinPasswordLength && v.confirmPassword == v.password
    ensures Errors(v).password == PasswordRequired <==> v.password == ""
    ensures Errors(v).password == PasswordTooShort <==> 0 < |v.password| < MinPasswordLength
    ensures v.confirmPassword != v.password ==> Errors(v).confirmPassword != ""
  {
    ConfirmPasswordMeaning(v.password, v.confirmPassword);
  }

  /** The page renders its form only when both carried values are truthy. */
  predicate ShowsForm(email: Option<string>, otp: Option<string>)
  {
    Given(email) && Given(otp)
  }

  /** The mount effect: a missing e-mail or code sends the user to
      forgot-password, with no state. */
  function Guard(email: Option<string>, otp: Option<string>): (nav: Option<Nav>)
    ensures nav.None? <==> ShowsForm(email, otp)
    ensures nav.Some? ==> nav.value == Nav(ForgotPasswordRoute, NoState)
  {
    if !Given(email) || !Given(otp) then Some(Nav(ForgotPasswordRoute, NoState)) else None
  }

  /** Where a successful reset goes. */
  const ToLogin := Nav(LoginRoute, NoState)

  class Page {
    /** The `email` and `otp` of `location.state`. */
    const email: Option<string>
    const otp: Option<string>
    var formValues: Fields
    var fieldErrors: Fields
    var isSubmitting: bool
    var errorMessage: string

    ghost predicate Valid()
      reads this
    {
      !isSubmitting
    }

    constructor (state: Payload)
      ensures Valid()
      ensures email == state.email && otp == state.otp
      ensures formValues == Blank && fieldErrors == Blank && errorMessage == ""
    {
      email := state.email;
      otp := state.otp;
      formValues := Blank;
      fieldErrors := Blank;
      isSubmitting := false;
      errorMessage := "";
    }

    /** An edit takes the new value and clears that field's error only. */
    method HandleChange(name: Field, value: string)
      requires Valid()
      modifies this
      ensures Valid()
      ensures formValues == Set(old(formValues), name, value)
      ensures fieldErrors == Set(old(fieldErrors), name, "")
      ensures Get(fieldErrors, name) == ""
      ensures forall other :: other != name ==> Get(fieldErrors, other) == Get(old(fieldErrors), other)
      ensures errorMessage == old(errorMessage)
    {
      formValues := Set(formValues, name, value);
      if Get(fieldErrors, name) != "" {
        fieldErrors := Set(fieldErrors, name, "");
      }
    }

    method Validate() returns (ok: bool)
      modifies this`fieldErrors
      ensures fieldErrors == Errors(formValues)
      ensures ok <==> NoErrors(fieldErrors)
    {
      fieldErrors := Errors(formValues);
      ok := NoErrors(fieldErrors);
    }

    /** Submits the new password. The form (and so its submit button) exists only
        when both carried values are present. */
    method HandleSubmit(reply: Api.FetchOutcome) returns (sent: Option<Api.HttpRequest>, nav: Option<Nav>)
      requires Valid() && ShowsForm(email, otp)
      modifies this
      ensures Valid() && formValues == old(formValues)
      ensures fieldErrors == Errors(formValues)
      ensures !NoErrors(Errors(formValues)) ==> sent == None && nav == None && errorMessage == ""
      ensures NoErrors(Errors(formValues)) ==>
                sent == Some(Api.ResetPassword(email.value, otp.value, formValues.password))
      ensures NoErrors(Errors(formValues)) && Api.Classify(reply).Success? ==>
                nav == Some(ToLogin) && errorMessage == ""
      ensures NoErrors(Errors(formValues)) && Api.Classify(reply).Failure? ==>
                nav == None && errorMessage == OrElse(Api.Classify(reply).error.message, ResetFailed)
    {
      errorMessage := "";
      sent, nav := None, None;
      var isValid := Validate();
      if !isValid {
        return;
      }
      isSubmitting := true;
      sent := Some(Api.ResetPassword(email.value, otp.value, formValues.password));
      var result := Api.Classify(reply);
      if result.Success? {
        nav := Some(ToLogin);
      } else {
        errorMessage := OrElse(result.error.message, ResetFailed);
      }
      isSubmitting := false;
    }
  }
}
