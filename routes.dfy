/**
 * The screens of the route table in src/App.jsx and the `location.state`
 * payload that `navigate(path, { state })` carries from one screen to the next.
 */
module Routes {
  import opened Wrappers

  /** One constructor per route: `/`, `/login`, `/register`, `/otp`,
      `/forgot-password`, `/reset-password`, `/dashboard`. */
  datatype Screen =
    | RootRoute
    | LoginRoute
    | RegisterRoute
    | OtpRoute
    | ForgotPasswordRoute
    | ResetPasswordRoute
    | DashboardRoute

  /** The fields of `location.state` the pages read; an absent state reads as
      all fields absent, and an absent `isPasswordReset` as false. */
  datatype Payload = Payload(email: Option<string>, otp: Option<string>, isPasswordReset: bool)

  /** `navigate(path)` with no state. */
  const NoState := Payload(None, None, false)

  /** One `navigate(path, { state })` call. */
  datatype Nav = Nav(to: Screen, state: Payload)

  /** JavaScript truthiness of a carried string: present and non-empty. */
  predicate Given(v: Option<string>)
  {
    v.Some? && v.value != ""
  }

  /** The stateless links each page renders (`onClick={() => navigate(...)}`):
      login offers forgot-password and register; the OTP, forgot-password and
      reset pages offer a way back to login; registration and the dashboard
      render none (the logout button is a transition of its own). */
  function Links(s: Screen): set<Screen>
  {
    match s
    case LoginRoute => {ForgotPasswordRoute, RegisterRoute}
    case OtpRoute => {LoginRoute}
    case ForgotPasswordRoute => {LoginRoute}
    case ResetPasswordRoute => {LoginRoute}
    case _ => {}
  }
}
