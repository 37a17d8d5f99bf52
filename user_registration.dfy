/**
 * The registration page (src/pages/UserRegistration.jsx): five fields, their
 * rules, and a submit that posts the first four to the identity service.
 */
module UserRegistration {
  import opened Wrappers
  import opened Validation
  import Api

  const FirstNameRequired := "First name is required."
  const LastNameRequired := "Last name is required."
  const PasswordRequired := "Password is required."
  const PasswordTooShort := "Password must be at least 6 characters."
  const RegistrationFailed := "Registration failed. Please try again."

  /** The shape of both `formValues` and `fieldErrors`. */
  datatype Fields = Fields(firstName: string, lastName: string, email: string, password: string, confirmPassword: string)

  const Blank := Fields("", "", "", "", "")

  /** The `name` attribute of an input. */
  datatype Field = FirstName | LastName | Email | Password | ConfirmPassword

  function Get(f: Fields, name: Field): string
  {
    match name
    case FirstName => f.firstName
    case LastName => f.lastName
    case Email => f.email
    case Password => f.password
    case ConfirmPassword => f.confirmPassword
  }

  /** `{ ...prev, [name]: value }`. */
  function Set(f: Fields, name: Field, value: string): (r: Fields)
    ensures Get(r, name) == value
    ensures forall other :: other != name ==> Get(r, other) == Get(f, other)
  {
    match name
    case FirstName => f.(firstName := value)
    case LastName => f.(lastName := value)
    case Email => f.(email := value)
    case Password => f.(password := value)
    case ConfirmPassword => f.(confirmPassword := value)
  }

  function PasswordError(password: string): string
  {
    if password == "" then PasswordRequired
    else if |password| < MinPasswordLength then PasswordTooShort
    else ""
  }

  /** The `errors` object `validate` computes. */
  function Errors(v: Fields): Fields
  {
    Fields(
      if IsBlank(v.firstName) then FirstNameRequired else "",
      if IsBlank(v.lastName) then LastNameRequired else "",
      EmailError(v.email),
      PasswordError(v.password),
      ConfirmPasswordError(v.password, v.confirmPassword))
  }

  /** `Object.values(errors).every((msg) => msg === '')`. */
  predicate NoErrors(e: Fields)
  {
    e == Blank
  }

  /** What a registration request needs, stated without the page's code: both
      names contain a non-whitespace character, the e-mail is of the pattern, the
      password has at least six characters, the confirmation equals it. */
  ghost predicate Acceptable(v: Fields)
  {
    && !AllWhitespace(v.firstName)
    && !AllWhitespace(v.lastName)
    && MatchesEmailPattern(v.email)
    && |v.password| >= MinPasswordLength
    && v.confirmPassword == v.password
  }

  /** The name rules: a message exactly when the value is only whitespace. */
  lemma NameRules(v: Fields)
    ensures Errors(v).firstName == (if AllWhitespace(v.firstName) then FirstNameRequired else "")
    ensures Errors(v).lastName == (if AllWhitespace(v.lastName) then LastNameRequired else "")
  {
    BlankIffAllWhitespace(v.firstName);
    BlankIffAllWhitespace(v.lastName);
  }

  /** The password rules: empty is "required", one to five characters "too short". */
  lemma PasswordRules(v: Fields)
    ensures Errors(v).password == PasswordRequired <==> v.password == ""
    ensures Errors(v).password == PasswordTooShort <==> 0 < |v.password| < MinPasswordLength
    ensures Errors(v).password == "" <==> |v.password| >= MinPasswordLength
  {
  }

  /** `validate` passes exactly the acceptable forms. */
  lemma ValidateAcceptsExactly(v: Fields)
    ensures NoErrors(Errors(v)) <==> Acceptable(v)
  {
    NameRules(v);
    EmailErrorMeaning(v.email);
    ConfirmPasswordMeaning(v.password, v.confirmPassword);
  }

  /** The body of `registerUser`: the first four fields, under their own names. */
  function Payload(v: Fields): Api.Json
  {
    Api.JObject(map[
      "firstName" := Api.JString(v.firstName),
      "lastName" := Api.JString(v.lastName),
      "email" := Api.JString(v.email),
      "password" := Api.JString(v.password)])
  }

  /** The confirmation is never sent: two forms give the same payload exactly when
      they agree on the four other fields. */
  lemma PayloadOmitsConfirmation(v: Fields, w: Fields)
    ensures Payload(v) == Payload(w) <==>
            v.firstName == w.firstName && v.lastName == w.lastName && v.email == w.email && v.password == w.password
  {
    if Payload(v) == Payload(w) {
      assert Payload(v).members["firstName"] == Payload(w).members["firstName"];
      assert Payload(v).members["lastName"] == Payload(w).members["lastName"];
      assert Payload(v).members["email"] == Payload(w).members["email"];
      assert Payload(v).members["password"] == Payload(w).members["password"];
    }
  }

  /** The component's `useState` slots. */
  class Page {
    var formValues: Fields
    var fieldErrors: Fields
    var isSubmitting: bool
    var errorMessage: string

    /** Between events no request is in flight. */
    ghost predicate Valid()
      reads this
    {
      !isSubmitting
    }

    constructor ()
      ensures Valid()
      ensures formValues == Blank && fieldErrors == Blank && errorMessage == ""
    {
      formValues := Blank;
      fieldErrors := Blank;
      isSubmitting := false;
      errorMessage := "";
    }

    method HandleChange(name: Field, value: string)
      requires Valid()
      modifies this
      ensures Valid()
      ensures formValues == Set(old(formValues), name, value)
      ensures fieldErrors == old(fieldErrors) && errorMessage == old(errorMessage)
    {
      formValues := Set(formValues, name, value);
    }

    /** Stores the computed errors and reports whether all five are empty. */
    method Validate() returns (ok: bool)
      modifies this`fieldErrors
      ensures fieldErrors == Errors(formValues)
      ensures ok <==> NoErrors(fieldErrors)
    {
      fieldErrors := Errors(formValues);
      ok := NoErrors(fieldErrors);
    }

    /** Submits the form; `reply` is what `fetch` produces for the request, and
        `sent` is the request the page issued, if any. */
    method HandleSubmit(reply: Api.FetchOutcome) returns (sent: Option<Api.HttpRequest>)
      requires Valid()
      modifies this
      ensures Valid()
      ensures fieldErrors == Errors(old(formValues))
      ensures !NoErrors(fieldErrors) ==>
                sent == None && formValues == old(formValues) && errorMessage == ""
      ensures NoErrors(fieldErrors) ==>
                sent == Some(Api.RegisterUser(Payload(old(formValues))))
      ensures NoErrors(fieldErrors) && Api.Classify(reply).Success? ==>
                formValues == Blank && errorMessage == ""
      ensures NoErrors(fieldErrors) && Api.Classify(reply).Failure? ==>
                formValues == old(formValues) &&
                errorMessage == OrElse(Api.Classify(reply).error.message, RegistrationFailed)
    {
      errorMessage := "";
      var isValid := Validate();
      if !isValid {
        return None;
      }
      isSubmitting := true;
      sent := Some(Api.RegisterUser(Payload(formValues)));
      var result := Api.Classify(reply);
      if result.Success? {
        formValues := Blank;
      } else {
        errorMessage := OrElse(result.error.message, RegistrationFailed);
      }
      isSubmitting := false;
    }
  }
}
