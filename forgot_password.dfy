/**
 * The forgot-password page (src/pages/ForgotPassword.jsx): one e-mail field whose
 * `validate` writes the field error itself, and a submit that requests a reset
 * code and then moves to the OTP screen on the reset path.
 */
module ForgotPassword {
  import opened Wrappers
  import opened Validation
  import opened Routes
  import Api

  const OtpSent := "Password reset OTP has been sent to your email. Please check your inbox."
  const SendFailed := "Failed to send reset OTP. Please try again."

  /** Where a successful request goes (after the page's two-second timer). */
  function ToOtp(email: string): Nav
  {
    Nav(OtpRoute, Payload(Some(email), None, true))
  }

  class Page {
    var email: string
    var fieldError: string
    var isSubmitting: bool
    var errorMessage: string
    var successMessage: string

    ghost predicate Valid()
      reads this
    {
      !isSubmitting
    }

    /** The page reads no `location.state`: the field always starts empty, even
        when the OTP page's resend link carried an e-mail here. */
    constructor ()
      ensures Valid()
      ensures email == "" && fieldError == "" && errorMessage == "" && successMessage == ""
    {
      email := "";
      fieldError := "";
      isSubmitting := false;
      errorMessage := "";
      successMessage := "";
    }

    /** Any edit takes the new value and clears the field error. */
    method HandleChange(value: string)
      requires Valid()
      modifies this
      ensures Valid()
      ensures email == value && fieldError == ""
      ensures errorMessage == old(errorMessage) && successMessage == old(successMessage)
    {
      email := value;
      if fieldError != "" {
        fieldError := "";
      }
    }

    /** Sets the field error only on failure; a pass leaves it as it was. */
    method Validate() returns (ok: bool)
      modifies this`fieldError
      ensures ok <==> MatchesEmailPattern(email)
      ensures ok ==> fieldError == old(fieldError)
      ensures !ok ==> fieldError == EmailError(email) && fieldError != ""
      ensures fieldError == EmailRequired <==> (!ok && AllWhitespace(email)) || (ok && old(fieldError) == EmailRequired)
    {
      EmailErrorMeaning(email);
      if IsBlank(email) {
        fieldError := EmailRequired;
        return false;
      } else if !IsValidEmail(email) {
        fieldError := EmailInvalid;
        return false;
      }
      return true;
    }

    /** Submits the address; `reply` is what `fetch` produces for the request. */
    method HandleSubmit(reply: Api.FetchOutcome) returns (sent: Option<Api.HttpRequest>, nav: Option<Nav>)
      requires Valid()
      modifies this
      ensures Valid() && email == old(email)
      ensures !MatchesEmailPattern(email) ==>
                sent == None && nav == None && errorMessage == "" && successMessage == "" &&
                fieldError == EmailError(email)
      ensures MatchesEmailPattern(email) ==>
                sent == Some(Api.ForgotPassword(email)) && fieldError == old(fieldError)
      ensures MatchesEmailPattern(email) && Api.Classify(reply).Success? ==>
                nav == Some(ToOtp(email)) && successMessage == OtpSent && errorMessage == ""
      ensures MatchesEmailPattern(email) && Api.Classify(reply).Failure? ==>
                nav == None && successMessage == "" &&
                errorMessage == OrElse(Api.Classify(reply).error.message, SendFailed)
    {
      errorMessage := "";
      successMessage := "";
      sent, nav := None, None;
      var isValid := Validate();
      if !isValid {
        return;
      }
      isSubmitting := true;
      sent := Some(Api.ForgotPassword(email));
      var result := Api.Classify(reply);
      if result.Success? {
        successMessage := OtpSent;
        nav := Some(ToOtp(email));
      } else {
        errorMessage := OrElse(result.error.message, SendFailed);
      }
      isSubmitting := false;
    }
  }
}
