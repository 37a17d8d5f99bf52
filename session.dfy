/**
 * The cross-page account-access flow: the current screen, the `location.state`
 * payload, the mounted instance of each page, and every `navigate(...)` call as
 * a transition. Ghost logs record the identity-service calls made, with their
 * outcomes, and the (e-mail, code) pairs the service accepted at the OTP step.
 */
module Session {
  import opened Wrappers
  import opened Routes
  import Validation
  import Api
  import Login
  import UserRegistration
  import Otp
  import ForgotPassword
  import ResetPassword

  /** Where a navigation ends up once the router and the target page have
      reacted: `/` redirects to `/login`, and the reset page's mount effect sends
      a navigation without both carried values to forgot-password. */
  function Settle(n: Nav): (r: Nav)
    ensures r.to != RootRoute
    ensures r.to == ResetPasswordRoute ==> ResetPassword.ShowsForm(r.state.email, r.state.otp)
    ensures n.to != RootRoute && (n.to == ResetPasswordRoute ==> ResetPassword.ShowsForm(n.state.email, n.state.otp)) ==>
              r == n
    ensures n.to == ResetPasswordRoute && !ResetPassword.ShowsForm(n.state.email, n.state.otp) ==>
              r == Nav(ForgotPasswordRoute, NoState)
  {
    if n.to == RootRoute then Nav(LoginRoute, NoState)
    else if n.to == ResetPasswordRoute then
      var guard := ResetPassword.Guard(n.state.email, n.state.otp);
      if guard.Some? then guard.value else n
    else n
  }

  /** A settled navigation is where the user stays: the router does not redirect it again. */
  lemma SettleIsStable(n: Nav)
    ensures Settle(Settle(n)) == Settle(n)
  {
  }

  /** One identity-service call and whether `request()` resolved it as a success. */
  datatype Entry = Entry(call: Api.ServiceCall, accepted: bool)

  /** The requests the client puts on the wire for a log of service calls. */
  function Requests(log: seq<Entry>): seq<Api.HttpRequest>
  {
    seq(|log|, i requires 0 <= i < |log| => Api.Issue(log[i].call))
  }

  /** The service accepted `code` for `email` at the OTP step somewhere in `log`. */
  ghost predicate Accepted(log: seq<Entry>, email: string, code: string)
  {
    Entry(Api.VerifyOtp(email, code), true) in log
  }

  /** A request a server reads as a password reset carries a pair that one of the
      calls in `earlier` had the service accept. */
  ghost predicate ResetAuthorized(r: Api.HttpRequest, earlier: seq<Entry>)
  {
    var c := Api.Dispatch(r);
    c.Some? && c.value.Reset? ==> Accepted(earlier, c.value.email, c.value.otp)
  }

  /** The `i`th logged call is not a reset, or carries a pair accepted before it. */
  ghost predicate CallAuthorized(log: seq<Entry>, i: int)
    requires 0 <= i < |log|
  {
    log[i].call.Reset? ==> Accepted(log[..i], log[i].call.email, log[i].call.otp)
  }

  /** The logs agree: every recorded pair was accepted by the service, and every
      reset call carries a pair accepted earlier. */
  ghost predicate Logged(log: seq<Entry>, verified: set<(string, string)>)
  {
    && (forall p :: p in verified ==> Accepted(log, p.0, p.1))
    && (forall i :: 0 <= i < |log| ==> CallAuthorized(log, i))
  }

  /** What a settled navigation target needs: the reset page only with a pair
      the OTP step accepted, the OTP page on the reset path only for an e-mail a
      reset code was successfully requested for. */
  ghost predicate Admissible(n: Nav, log: seq<Entry>, verified: set<(string, string)>)
  {
    && (n.to == ResetPasswordRoute ==>
          n.state.email.Some? && n.state.otp.Some? && (n.state.email.value, n.state.otp.value) in verified)
    && (n.to == OtpRoute && n.state.isPasswordReset ==>
          Given(n.state.email) && n.state.otp == None && Entry(Api.RequestResetOtp(n.state.email.value), true) in log)
  }

  /** Consistent logs put only authorised reset requests on the wire: a server
      that reads the `i`th request as a reset finds in it a pair that the service
      accepted at the OTP step before that request. */
  lemma IssuedResetsAuthorized(log: seq<Entry>, verified: set<(string, string)>)
    requires Logged(log, verified)
    ensures forall i :: 0 <= i < |log| ==> ResetAuthorized(Requests(log)[i], log[..i])
  {
    forall i | 0 <= i < |log| ensures ResetAuthorized(Requests(log)[i], log[..i]) {
      Api.DispatchIssue(log[i].call);
      assert CallAuthorized(log, i);
    }
  }

  lemma AppendLogged(log: seq<Entry>, e: Entry, verified: set<(string, string)>)
    requires Logged(log, verified)
    requires e.call.Reset? ==> (e.call.email, e.call.otp) in verified
    ensures Logged(log + [e], verified)
  {
    var log' := log + [e];
    forall i | 0 <= i < |log'| ensures CallAuthorized(log', i) {
      if i < |log| {
        assert log'[i] == log[i] && log'[..i] == log[..i];
        assert CallAuthorized(log, i);
      } else {
        assert log'[..i] == log;
      }
    }
    forall p | p in verified ensures Accepted(log', p.0, p.1) {
      assert Accepted(log, p.0, p.1);
    }
  }

  lemma AcceptLogged(log: seq<Entry>, verified: set<(string, string)>, email: string, code: string)
    requires Logged(log, verified) && Accepted(log, email, code)
    ensures Logged(log, verified + {(email, code)})
  {
  }

  class App {
    var screen: Screen
    var payload: Payload
    /** The instance of each page that was mounted last. */
    var login: Login.Page
    var registration: UserRegistration.Page
    var otp: Otp.Page
    var forgot: ForgotPassword.Page
    var reset: ResetPassword.Page
    /** Every identity-service call made with its outcome, oldest first; the
        requests on the wire are `Requests(calls)`. */
    ghost var calls: seq<Entry>
    /** The (e-mail, code) pairs `verifyResetOtp` accepted. */
    ghost var verified: set<(string, string)>

    /** What holds whatever the screen: the pages keep their own invariants and
        the logs agree. */
    ghost predicate Bookkeeping()
      reads this, login, registration, otp, forgot, reset
    {
      && login.Valid() && registration.Valid() && otp.Valid() && forgot.Valid() && reset.Valid()
      && Logged(calls, verified)
    }

    ghost predicate Valid()
      reads this, login, registration, otp, forgot, reset
    {
      && Bookkeeping()
      && screen != RootRoute
      && (screen == ResetPasswordRoute ==> ResetPassword.ShowsForm(payload.email, payload.otp))
      && Admissible(Nav(screen, payload), calls, verified)
      && (screen == OtpRoute ==> otp.email == payload.email && otp.isPasswordReset == payload.isPasswordReset)
      && (screen == ResetPasswordRoute ==> reset.email == payload.email && reset.otp == payload.otp)
    }

    /** The transition left every page instance in place. */
    twostate predicate Kept()
      reads this
    {
      && login == old(login) && registration == old(registration) && otp == old(otp)
      && forgot == old(forgot) && reset == old(reset)
    }

    /** The transition mounted a new instance of the page of `to` and left every
        other page instance in place. */
    twostate predicate Remounted(to: Screen)
      reads this
    {
      && (if to == LoginRoute then fresh(login) else login == old(login))
      && (if to == RegisterRoute then fresh(registration) else registration == old(registration))
      && (if to == OtpRoute then fresh(otp) else otp == old(otp))
      && (if to == ForgotPasswordRoute then fresh(forgot) else forgot == old(forgot))
      && (if to == ResetPasswordRoute then fresh(reset) else reset == old(reset))
    }

    /** The page of `s` as mounting leaves it: empty fields and no messages. */
    ghost predicate Pristine(s: Screen)
      reads this, login, registration, otp, forgot, reset
    {
      match s
      case LoginRoute =>
        login.formValues == Login.Blank && login.fieldErrors == Login.Blank && login.errorMessage == ""
      case RegisterRoute =>
        && registration.formValues == UserRegistration.Blank && registration.fieldErrors == UserRegistration.Blank
        && registration.errorMessage == ""
      case OtpRoute =>
        otp.otp == "" && otp.error == ""
      case ForgotPasswordRoute =>
        forgot.email == "" && forgot.fieldError == "" && forgot.errorMessage == "" && forgot.successMessage == ""
      case ResetPasswordRoute =>
        reset.formValues == ResetPassword.Blank && reset.fieldErrors == ResetPassword.Blank && reset.errorMessage == ""
      case _ => true
    }

    /** A session that starts by entering the address of `entry`, with no state:
        every page instance is new and empty, and nothing was carried to any. */
    constructor (entry: Screen)
      ensures Valid()
      ensures Nav(screen, payload) == Settle(Nav(entry, NoState))
      ensures calls == [] && verified == {}
      ensures fresh(login) && fresh(registration) && fresh(otp) && fresh(forgot) && fresh(reset)
      ensures Pristine(LoginRoute) && Pristine(RegisterRoute) && Pristine(OtpRoute)
      ensures Pristine(ForgotPasswordRoute) && Pristine(ResetPasswordRoute)
      ensures otp.email == None && !otp.isPasswordReset && reset.email == None && reset.otp == None
    {
      screen, payload := LoginRoute, NoState;
      login := new Login.Page();
      registration := new UserRegistration.Page();
      otp := new Otp.Page(NoState);
      forgot := new ForgotPassword.Page();
      reset := new ResetPassword.Page(NoState);
      calls, verified := [], {};
      new;
      Go(Nav(entry, NoState));
    }

    /** `navigate(n.to, { state: n.state })`: the target page is mounted afresh
        from the carried state, and the other pages stay as they were. */
    method Go(n: Nav)
      requires Bookkeeping() && Admissible(Settle(n), calls, verified)
      modifies this
      ensures Valid()
      ensures Nav(screen, payload) == Settle(n)
      ensures calls == old(calls) && verified == old(verified)
      ensures Remounted(screen) && Pristine(screen)
    {
      var r := Settle(n);
      screen, payload := r.to, r.state;
      match r.to
      case LoginRoute =>
        login := new Login.Page();
      case RegisterRoute =>
        registration := new UserRegistration.Page();
      case OtpRoute =>
        otp := new Otp.Page(r.state);
      case ForgotPasswordRoute =>
        forgot := new ForgotPassword.Page();
      case ResetPasswordRoute =>
        reset := new ResetPassword.Page(r.state);
      case _ =>
    }

    /** Typing an address: any route, with no state. The dashboard has no guard. */
    method EnterAddress(to: Screen)
      requires Valid()
      modifies this
      ensures Valid()
      ensures Nav(screen, payload) == Settle(Nav(to, NoState))
      ensures calls == old(calls) && verified == old(verified)
      ensures Remounted(screen) && Pristine(screen)
    {
      Go(Nav(to, NoState));
    }

    /** One of the current page's stateless links. */
    method FollowLink(to: Screen)
      requires Valid() && to in Links(screen)
      modifies this
      ensures Valid()
      ensures screen == to && payload == NoState
      ensures calls == old(calls) && verified == old(verified)
      ensures Remounted(screen) && Pristine(screen)
    {
      Go(Nav(to, NoState));
    }

    /** The dashboard's logout button: back to login, discarding the payload. */
    method Logout()
      requires Valid() && screen == DashboardRoute
      modifies this
      ensures Valid()
      ensures screen == LoginRoute && payload == NoState
      ensures calls == old(calls) && verified == old(verified)
      ensures Remounted(screen) && Pristine(screen)
    {
      Go(Nav(LoginRoute, NoState));
    }

    /** Login's submit: no request is ever sent; a valid form leads to the OTP
        page on the login path, and an invalid one stays with its field errors. */
    method SubmitLogin()
      requires Valid() && screen == LoginRoute
      modifies this, login
      ensures Valid()
      ensures calls == old(calls) && verified == old(verified)
      ensures screen == if Login.NoErrors(Login.Errors(old(login.formValues))) then OtpRoute else LoginRoute
      ensures screen == OtpRoute ==>
                && payload == NoState && otp.email == None && !otp.isPasswordReset
                && Remounted(OtpRoute) && Pristine(OtpRoute)
      ensures screen == LoginRoute ==>
                && Kept() && payload == old(payload)
                && login.formValues == old(login.formValues) && login.errorMessage == ""
                && login.fieldErrors == Login.Errors(login.formValues)
    {
      var nav := login.HandleSubmit();
      if nav.Some? {
        Go(nav.value);
      }
    }

    /** Registration's submit: at most the one register request, and the page
        stays with the outcome shown. `request` is what went on the wire. */
    method SubmitRegistration(reply: Api.FetchOutcome) returns (request: Option<Api.HttpRequest>)
      requires Valid() && screen == RegisterRoute
      modifies this, registration
      ensures Valid() && Kept()
      ensures screen == old(screen) && payload == old(payload) && verified == old(verified)
      ensures var form := old(registration.formValues);
              var ok := UserRegistration.NoErrors(UserRegistration.Errors(form));
              var call := Api.Register(UserRegistration.Payload(form));
              var outcome := Api.Classify(reply);
              && (if ok then request == Some(Api.Issue(call)) && calls == old(calls) + [Entry(call, outcome.Success?)]
                  else request == None && calls == old(calls))
              && registration.fieldErrors == UserRegistration.Errors(form)
              && registration.formValues == (if ok && outcome.Success? then UserRegistration.Blank else form)
              && registration.errorMessage ==
                   (if ok && outcome.Failure? then Validation.OrElse(outcome.error.message, UserRegistration.RegistrationFailed)
                    else "")
    {
      ghost var form := registration.formValues;
      request := registration.HandleSubmit(reply);
      if request.Some? {
        ghost var e := Entry(Api.Register(UserRegistration.Payload(form)), Api.Classify(reply).Success?);
        AppendLogged(calls, e, verified);
        calls := calls + [e];
      }
    }

    /** Forgot-password's submit: a reset code is requested for a valid address,
        and only a successful request moves on to the OTP page on the reset path;
        otherwise the page stays with the field error or the failure shown. */
    method SubmitForgotPassword(reply: Api.FetchOutcome) returns (request: Option<Api.HttpRequest>)
      requires Valid() && screen == ForgotPasswordRoute
      modifies this, forgot
      ensures Valid() && verified == old(verified)
      ensures var email := old(forgot.email);
              var call := Api.RequestResetOtp(email);
              if Validation.MatchesEmailPattern(email)
              then request == Some(Api.Issue(call)) && calls == old(calls) + [Entry(call, Api.Classify(reply).Success?)]
              else request == None && calls == old(calls)
      ensures screen == if Validation.MatchesEmailPattern(old(forgot.email)) && Api.Classify(reply).Success?
                        then OtpRoute else ForgotPasswordRoute
      ensures screen == OtpRoute ==>
                payload == Payload(Some(old(forgot.email)), None, true) && Remounted(OtpRoute) && Pristine(OtpRoute)
      ensures screen == ForgotPasswordRoute ==>
                var valid := Validation.MatchesEmailPattern(forgot.email);
                && Kept() && payload == old(payload)
                && forgot.email == old(forgot.email) && forgot.successMessage == ""
                && forgot.fieldError == (if valid then old(forgot.fieldError) else Validation.EmailError(forgot.email))
                && forgot.errorMessage ==
                     (if valid && Api.Classify(reply).Failure?
                      then Validation.OrElse(Api.Classify(reply).error.message, ForgotPassword.SendFailed)
                      else "")
    {
      ghost var email := forgot.email;
      var nav;
      request, nav := forgot.HandleSubmit(reply);
      if request.Some? {
        ghost var e := Entry(Api.RequestResetOtp(email), Api.Classify(reply).Success?);
        AppendLogged(calls, e, verified);
        calls := calls + [e];
      }
      if nav.Some? {
        assert email != "" by { Validation.EmailErrorMeaning(email); Validation.EmailPatternIff(email); }
        Go(nav.value);
      }
    }

    /** The OTP page's submit. On the reset path the code is checked with the
        service, and exactly an accepted (e-mail, code) pair is recorded and carried
        to the reset page; on the login path a six-digit code goes straight to the
        dashboard without any request; otherwise the page stays with its error. */
    method SubmitOtp(reply: Api.FetchOutcome) returns (request: Option<Api.HttpRequest>)
      requires Valid() && screen == OtpRoute
      modifies this, otp
      ensures Valid()
      ensures var code := old(otp.otp);
              var checks := |code| == Otp.OtpLength && old(payload).isPasswordReset && Given(old(payload).email);
              var accepted := checks && Api.Classify(reply).Success?;
              && (if checks
                  then var call := Api.VerifyOtp(old(payload).email.value, code);
                       request == Some(Api.Issue(call)) && calls == old(calls) + [Entry(call, accepted)]
                  else request == None && calls == old(calls))
              && verified == old(verified) + (if accepted then {(old(payload).email.value, code)} else {})
              && screen == (if accepted then ResetPasswordRoute
                            else if |code| == Otp.OtpLength && !old(payload).isPasswordReset then DashboardRoute
                            else OtpRoute)
      ensures screen == ResetPasswordRoute ==>
                && payload == Payload(old(payload).email, Some(old(otp.otp)), false)
                && Remounted(ResetPasswordRoute) && Pristine(ResetPasswordRoute)
      ensures screen == DashboardRoute ==> payload == NoState && Remounted(DashboardRoute)
      ensures screen == OtpRoute ==>
                && Kept() && payload == old(payload) && otp.otp == old(otp.otp)
                && otp.error ==
                     (if |otp.otp| != Otp.OtpLength then Otp.EnterSixDigits
                      else if !Given(payload.email) then Otp.EmailRequiredForReset
                      else if Api.Classify(reply).Failure?
                      then Validation.OrElse(Api.Classify(reply).error.message, Otp.InvalidOtp)
                      else "")
    {
      var code := otp.otp;
      var nav;
      request, nav := otp.HandleSubmit(reply);
      if request.Some? {
        var email := payload.email.value;
        ghost var e := Entry(Api.VerifyOtp(email, code), Api.Classify(reply).Success?);
        AppendLogged(calls, e, verified);
        calls := calls + [e];
        if nav.Some? {
          AcceptCode(email, code);
        }
      } else if nav.Some? {
        // the login path: straight to the dashboard
        Go(nav.value);
      }
    }

    /** The service has just accepted the code on the OTP page for the carried
        e-mail (the last call logged): the pair is recorded and the page navigates
        to the reset page carrying it. */
    method AcceptCode(email: string, code: string)
      requires Bookkeeping() && screen == OtpRoute && payload.isPasswordReset
      requires payload.email == Some(email) && email != "" && otp.otp == code && |code| == Otp.OtpLength
      requires calls != [] && calls[|calls| - 1] == Entry(Api.VerifyOtp(email, code), true)
      modifies this
      ensures Valid()
      ensures calls == old(calls) && verified == old(verified) + {(email, code)}
      ensures screen == ResetPasswordRoute && payload == Payload(Some(email), Some(code), false)
      ensures Remounted(ResetPasswordRoute) && Pristine(ResetPasswordRoute)
    {
      AcceptLogged(calls, verified, email, code);
      verified := verified + {(email, code)};
      Go(Otp.ToReset(email, code));
    }

    /** The OTP page's resend link: on the reset path with an e-mail, back to
        forgot-password carrying it; the field there still starts empty. */
    method ResendOtp()
      requires Valid() && screen == OtpRoute
      modifies this
      ensures Valid()
      ensures calls == old(calls) && verified == old(verified)
      ensures screen == if old(payload).isPasswordReset && Given(old(payload).email) then ForgotPasswordRoute else OtpRoute
      ensures screen == ForgotPasswordRoute ==>
                payload.email == old(payload).email && Remounted(ForgotPasswordRoute) && Pristine(ForgotPasswordRoute)
      ensures screen == OtpRoute ==> Kept() && payload == old(payload)
    {
      var nav := otp.Resend();
      if nav.Some? {
        Go(nav.value);
      }
    }

    /** The reset page's submit: the new password is sent with the carried pair,
        which the service accepted at the OTP step earlier; success leads to login,
        otherwise the page stays with the field errors or the failure shown. */
    method SubmitResetPassword(reply: Api.FetchOutcome) returns (request: Option<Api.HttpRequest>)
      requires Valid() && screen == ResetPasswordRoute
      modifies this, reset
      ensures Valid() && verified == old(verified)
      ensures Accepted(old(calls), old(payload).email.value, old(payload).otp.value)
      ensures var form := old(reset.formValues);
              var ok := ResetPassword.NoErrors(ResetPassword.Errors(form));
              var call := Api.Reset(old(payload).email.value, old(payload).otp.value, form.password);
              && (if ok then request == Some(Api.Issue(call)) && calls == old(calls) + [Entry(call, Api.Classify(reply).Success?)]
                  else request == None && calls == old(calls))
              && screen == (if ok && Api.Classify(reply).Success? then LoginRoute else ResetPasswordRoute)
      ensures screen == LoginRoute ==> payload == NoState && Remounted(LoginRoute) && Pristine(LoginRoute)
      ensures screen == ResetPasswordRoute ==>
                var ok := ResetPassword.NoErrors(ResetPassword.Errors(reset.formValues));
                && Kept() && payload == old(payload) && reset.formValues == old(reset.formValues)
                && reset.fieldErrors == ResetPassword.Errors(reset.formValues)
                && reset.errorMessage ==
                     (if ok && Api.Classify(reply).Failure?
                      then Validation.OrElse(Api.Classify(reply).error.message, ResetPassword.ResetFailed)
                      else "")
    {
      ghost var form := reset.formValues;
      var nav;
      request, nav := reset.HandleSubmit(reply);
      if request.Some? {
        ghost var e := Entry(Api.Reset(payload.email.value, payload.otp.value, form.password), Api.Classify(reply).Success?);
        AppendLogged(calls, e, verified);
        calls := calls + [e];
      }
      if nav.Some? {
        Go(nav.value);
      }
    }

    // ----- typing into the mounted page -----

    method EditLogin(name: Login.Field, value: string)
      requires Valid() && screen == LoginRoute
      modifies login
      ensures Valid()
      ensures login.formValues == Login.Set(old(login.formValues), name, value)
      ensures login.fieldErrors == old(login.fieldErrors) && login.errorMessage == old(login.errorMessage)
    {
      login.HandleChange(name, value);
    }

    method EditRegistration(name: UserRegistration.Field, value: string)
      requires Valid() && screen == RegisterRoute
      modifies registration
      ensures Valid()
      ensures registration.formValues == UserRegistration.Set(old(registration.formValues), name, value)
      ensures registration.fieldErrors == old(registration.fieldErrors)
      ensures registration.errorMessage == old(registration.errorMessage)
    {
      registration.HandleChange(name, value);
    }

    method EditOtp(value: string)
      requires Valid() && screen == OtpRoute
      modifies otp
      ensures Valid()
      ensures otp.otp == if Otp.AcceptsInput(value) then value else old(otp.otp)
      ensures otp.error == old(otp.error)
    {
      otp.HandleChange(value);
    }

    method EditForgotPassword(value: string)
      requires Valid() && screen == ForgotPasswordRoute
      modifies forgot
      ensures Valid()
      ensures forgot.email == value && forgot.fieldError == ""
      ensures forgot.errorMessage == old(forgot.errorMessage) && forgot.successMessage == old(forgot.successMessage)
    {
      forgot.HandleChange(value);
    }

    method EditResetPassword(name: ResetPassword.Field, value: string)
      requires Valid() && screen == ResetPasswordRoute
      modifies reset
      ensures Valid()
      ensures reset.formValues == ResetPassword.Set(old(reset.formValues), name, value)
      ensures reset.fieldErrors == ResetPassword.Set(old(reset.fieldErrors), name, "")
      ensures ResetPassword.Get(reset.fieldErrors, name) == ""
      ensures forall other :: other != name ==>
                ResetPassword.Get(reset.fieldErrors, other) == ResetPassword.Get(old(reset.fieldErrors), other)
      ensures reset.errorMessage == old(reset.errorMessage)
    {
      reset.HandleChange(name, value);
    }
  }
}
