/**
 * The OTP page (src/pages/Otp.jsx): a six-digit code field that refuses any
 * other input, a submit that either verifies a reset code with the identity
 * service or, on the login path, accepts any well-formed code, and a resend link.
 */
module Otp {
  import opened Wrappers
  import opened Validation
  import opened Routes
  import Api

  const OtpLength := 6
  const EnterSixDigits := "Please enter the 6-digit OTP sent to your email or phone."
  const EmailRequiredForReset := "Email is required for password reset."
  const InvalidOtp := "Invalid OTP. Please try again."

  /** `\d` without the `u` flag: the ASCII digits. */
  predicate IsDigit(c: char)
  {
    '0' <= c <= '9'
  }

  /** `/^\d{0,6}$/.test(value)`. */
  predicate AcceptsInput(value: string)
  {
    |value| <= OtpLength && forall i :: 0 <= i < |value| ==> IsDigit(value[i])
  }

  /** The input filter keeps whole values only: "12a45" is refused outright, so
      the field keeps its previous content rather than "1245". */
  lemma FilterRefusesMixedInput()
    ensures !AcceptsInput("12a45")
    ensures !AcceptsInput("1234567")
    ensures AcceptsInput("") && AcceptsInput("1245")
  {
    assert !IsDigit("12a45"[2]);
  }

  /** Where a verified reset code goes: the reset page, carrying the pair verified. */
  function ToReset(email: string, otp: string): Nav
  {
    Nav(ResetPasswordRoute, Payload(Some(email), Some(otp), false))
  }

  /** Where a well-formed login code goes. */
  const ToDashboard := Nav(DashboardRoute, NoState)

  class Page {
    /** The `email` and `isPasswordReset` of `location.state`. */
    const email: Option<string>
    const isPasswordReset: bool
    var otp: string
    var error: string
    var isSubmitting: bool

    /** The field only ever holds up to six digits, and no request is in flight. */
    ghost predicate Valid()
      reads this
    {
      AcceptsInput(otp) && !isSubmitting
    }

    constructor (state: Payload)
      ensures Valid()
      ensures email == state.email && isPasswordReset == state.isPasswordReset
      ensures otp == "" && error == ""
    {
      email := state.email;
      isPasswordReset := state.isPasswordReset;
      otp := "";
      error := "";
      isSubmitting := false;
    }

    method HandleChange(value: string)
      requires Valid()
      modifies this
      ensures Valid()
      ensures otp == if AcceptsInput(value) then value else old(otp)
      ensures error == old(error)
    {
      if AcceptsInput(value) {
        otp := value;
      }
    }

    /** Submits the code; `reply` is what `fetch` produces for a verification
        request, `sent` the request issued and `nav` the navigation made. */
    method HandleSubmit(reply: Api.FetchOutcome) returns (sent: Option<Api.HttpRequest>, nav: Option<Nav>)
      requires Valid()
      modifies this
      ensures Valid() && otp == old(otp)
      // a code that is not six digits long: no call, no navigation
      ensures |otp| != OtpLength ==> sent == None && nav == None && error == EnterSixDigits
      // the login path: no call, straight to the dashboard
      ensures |otp| == OtpLength && !isPasswordReset ==>
                sent == None && nav == Some(ToDashboard) && error == ""
      // the reset path without an e-mail: no call, no navigation
      ensures |otp| == OtpLength && isPasswordReset && !Given(email) ==>
                sent == None && nav == None && error == EmailRequiredForReset
      // the reset path: the code is verified for the carried e-mail
      ensures |otp| == OtpLength && isPasswordReset && Given(email) ==>
                sent == Some(Api.VerifyResetOtp(email.value, otp))
      ensures |otp| == OtpLength && isPasswordReset && Given(email) && Api.Classify(reply).Success? ==>
                nav == Some(ToReset(email.value, otp)) && error == ""
      ensures |otp| == OtpLength && isPasswordReset && Given(email) && Api.Classify(reply).Failure? ==>
                nav == None && error == OrElse(Api.Classify(reply).error.message, InvalidOtp)
    {
      error := "";
      sent, nav := None, None;
      if otp == "" || |otp| != OtpLength {
        error := EnterSixDigits;
        return;
      }
      isSubmitting := true;
      if isPasswordReset {
        if !Given(email) {
          error := EmailRequiredForReset;
        } else {
          sent := Some(Api.VerifyResetOtp(email.value, otp));
          var result := Api.Classify(reply);
          if result.Success? {
            nav := Some(ToReset(email.value, otp));
          } else {
            error := OrElse(result.error.message, InvalidOtp);
          }
        }
      } else {
        nav := Some(ToDashboard);
      }
      isSubmitting := false;
    }

    /** The "Resend OTP" link: back to forgot-password carrying the e-mail on the
        reset path when there is one; anything else only shows an alert. */
    method Resend() returns (nav: Option<Nav>)
      ensures nav.Some? <==> isPasswordReset && Given(email)
      ensures nav.Some? ==> nav.value.to == ForgotPasswordRoute && nav.value.state == Payload(email, None, false)
    {
      if isPasswordReset && Given(email) {
        nav := Some(Nav(ForgotPasswordRoute, Payload(email, None, false)));
      } else {
        nav := None;
      }
    }
  }
}
