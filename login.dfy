/**
 * The login page (src/pages/Login.jsx): an e-mail and a password that is only
 * required. A valid submit contacts no service and moves on to the OTP screen.
 */
module Login {
  import opened Wrappers
  import opened Validation
  import opened Routes

  const PasswordRequired := "Password is required."

  /** The shape of both `formValues` and `fieldErrors`. */
  datatype Fields = Fields(email: string, password: string)

  const Blank := Fields("", "")

  datatype Field = Email | Password

  function Get(f: Fields, name: Field): string
  {
    match name
    case Email => f.email
    case Password => f.password
  }

  /** `{ ...prev, [name]: value }`: the named field takes the value, the other keeps its own. */
  function Set(f: Fields, name: Field, value: string): (r: Fields)
    ensures Get(r, name) == value
    ensures forall other :: other != name ==> Get(r, other) == Get(f, other)
  {
    match name
    case Email => f.(email := value)
    case Password => f.(password := value)
  }

  function Errors(v: Fields): Fields
  {
    Fields(EmailError(v.email), if v.password == "" then PasswordRequired else "")
  }

  predicate NoErrors(e: Fields)
  {
    e == Blank
  }

  /** Login passes exactly an e-mail of the pattern with any non-empty password,
      however short. */
  lemma ValidateAcceptsExactly(v: Fields)
    ensures NoErrors(Errors(v)) <==> MatchesEmailPattern(v.email) && v.password != ""
    ensures Errors(v).password == "" <==> |v.password| >= 1
  {
    EmailErrorMeaning(v.email);
  }

  /** Where a successful login goes: `navigate('/otp')`, with no state. */
  const ToOtp := Nav(OtpRoute, NoState)

  class Page {
    var formValues: Fields
    var fieldErrors: Fields
    var isSubmitting: bool
    var errorMessage: string

    ghost predicate Valid()
      reads this
    {
      !isSubmitting
    }

    constructor ()
      ensures Valid()
      ensures formValues == Blank && fieldErrors == Blank && errorMessage == ""
    {
      formValues := Blank;
      fieldErrors := Blank;
      isSubmitting := false;
      errorMessage := "";
    }

    method HandleChange(name: Field, value: string)
      requires Valid()
      modifies this
      ensures Valid()
      ensures formValues == Set(old(formValues), name, value)
      ensures fieldErrors == old(fieldErrors) && errorMessage == old(errorMessage)
    {
      formValues := Set(formValues, name, value);
    }

    method Validate() returns (ok: bool)
      modifies this`fieldErrors
      ensures fieldErrors == Errors(formValues)
      ensures ok <==> NoErrors(fieldErrors)
    {
      fieldErrors := Errors(formValues);
      ok := NoErrors(fieldErrors);
    }

    /** Submits the form. The page has no service to call: its only effect
        besides its own slots is the navigation it returns. */
    method HandleSubmit() returns (nav: Option<Nav>)
      requires Valid()
      modifies this
      ensures Valid()
      ensures formValues == old(formValues) && errorMessage == ""
      ensures fieldErrors == Errors(formValues)
      ensures nav.Some? <==> NoErrors(Errors(formValues))
      ensures nav.Some? ==> nav.value == ToOtp
    {
      errorMessage := "";
      var isValid := Validate();
      if !isValid {
        return None;
      }
      isSubmitting := true;
      nav := Some(ToOtp);
      isSubmitting := false;
    }
  }
}
