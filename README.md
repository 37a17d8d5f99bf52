# Flower Nursery account access — a Dafny model

This project models the account-access flow of the Flower Nursery web app. The flow covers registration, login, the one-time-password (OTP) step, and the forgot-password / reset-password sequence, together with the client the app uses to reach its identity service. It proves the properties that flow is meant to have:

- every field rule gives its exact message in its fixed order;
- the e-mail test accepts exactly the strings of `^[^\s@]+@[^\s@]+\.[^\s@]+$`;
- the OTP field only ever holds up to six ASCII digits;
- the reset form is shown only with a non-empty carried e-mail and code, and that pair is one the identity service accepted at the OTP step;
- every password-reset request ever sent carries a pair the service accepted at an earlier OTP step;
- login never contacts the service;
- the service client tells a transport failure from an HTTP failure, and its endpoint table is unambiguous.

Modules follow the source files:

| module | file | models |
|---|---|---|
| `Validation` | `validation.dfy` | `trim()` and `\s` (one whitespace predicate), the e-mail pattern, the shared confirmation rule |
| `Api` | `api.dfy` | `src/services/api.js`: request building, outcome classification, `get/post/put/del`, the four endpoints |
| `Routes` | `routes.dfy` | the screens of `src/App.jsx`, the `location.state` payload, a navigation, the stateless links |
| `UserRegistration`, `Login`, `Otp`, `ForgotPassword`, `ResetPassword` | one file each | each page as a class whose fields are its `useState` slots; `handleChange`, `validate` and `handleSubmit` as methods |
| `Session` | `session.dfy` | the cross-page flow: class `App` holds the screen, the payload and the mounted page instances; each `navigate(...)` is a transition |

`fetch` is a parameter. The submit of a page that calls the service takes the abstract `Api.FetchOutcome` for its request (a `NetworkFailure`, or a `Response` with `ok`, `status`, `statusText`, content type and body). It returns the `Api.HttpRequest` it sent, if any. The submits of the OTP, forgot-password and reset pages also return the navigation they made, if any. Login's submit calls no service: it takes no outcome and returns only its navigation. Registration's submit never navigates and returns only its request. `Api.Classify` turns the outcome into the resolved data or the thrown error exactly as `request` does. The pages then read only `error.message`.

The model follows the code, including these behaviours that a reader of the flow might not expect:

- The OTP input filter refuses a whole value such as `12a45`: the field keeps its previous content and does not become `1245`.
- Login navigates to the OTP page with no state, so no e-mail is carried on the login path.
- A successful registration stays on the registration page and clears the form. There is no transition.
- Forgot-password's `validate` leaves the field error unchanged when the address passes.
- The resend link carries the e-mail to forgot-password, but that page reads no state, so its field starts empty.
- The dashboard has no guard: entering its address from any state shows it (`Session.Settle`, `Session.App.EnterAddress`).
- Nothing discards the reply of a superseded attempt. A submit is one atomic step.

## Model

| member | source | states |
|---|---|---|
| `Validation.TrimStartShape` | src/pages/UserRegistration.jsx:52 | `trimStart` leaves the suffix that remains after all leading JavaScript whitespace is removed, and it starts with a non-whitespace character or is empty |
| `Validation.TrimEndShape` | src/pages/UserRegistration.jsx:56 | `trimEnd` leaves the prefix that remains after all trailing whitespace is removed, and it ends with a non-whitespace character or is empty |
| `Validation.BlankIffAllWhitespace` | src/pages/UserRegistration.jsx:52-61 | `!s.trim()` holds exactly when every character of `s` is whitespace |
| `Validation.PatternIsValidEmail` | src/pages/UserRegistration.jsx:62 | every string that `^[^\s@]+@[^\s@]+\.[^\s@]+$` matches has no whitespace, one `@` after a non-empty local part, and a domain with an inner dot |
| `Validation.ValidEmailMatchesPattern` | src/pages/UserRegistration.jsx:62 | every string with those three properties is matched by the pattern |
| `Validation.EmailPatternIff` | src/pages/UserRegistration.jsx:62 | the readable e-mail test and the regular expression accept the same strings |
| `Validation.EmailErrorMeaning` | src/pages/UserRegistration.jsx:60-64 | the e-mail rule (shared by registration, login and forgot-password) gives no message exactly for strings of the pattern, 'Email is required.' exactly for all-whitespace strings, and 'Please enter a valid email address.' otherwise |
| `Validation.LeadingSpaceIsInvalid` | src/pages/UserRegistration.jsx:60-64 | `" a@b.co"` is reported invalid, not missing, because the pattern sees the untrimmed value |
| `Validation.ConfirmPasswordMeaning` | src/pages/UserRegistration.jsx:72-76 | the confirmation passes exactly when it is a non-empty copy of the password; any difference, an empty password included, gives 'Passwords do not match.' when the confirmation is non-empty |
| `Api.BuildRequest` | src/services/api.js:6-19 | the URL is `BASE_URL + path`; the method is the caller's; the headers are the caller's plus `Content-Type`, which is `application/json` unless the caller set it; a body is attached exactly when the caller's body is truthy |
| `Api.Get` | src/services/api.js:54-56 | a GET to `BASE_URL + path` with no body |
| `Api.Post` | src/services/api.js:58-60 | a POST to `BASE_URL + path` carrying the given body when it is truthy |
| `Api.Put` | src/services/api.js:62-64 | a PUT to `BASE_URL + path` carrying the given body when it is truthy |
| `Api.Del` | src/services/api.js:66-68 | a DELETE to `BASE_URL + path` with no body |
| `Api.HelpersSendJsonHeader` | src/services/api.js:9-15 | the four helpers send exactly the header `Content-Type: application/json` |
| `Api.DispatchPost` | src/services/api.js:58-60 | a request made by `post` reaches the server's router with its own path and body; a falsy body is not sent, and such a request is read as nothing |
| `Api.DispatchIssue` | src/services/api.js:71-89 | the endpoint table is unambiguous: a server that reads method, path and exact body fields recovers from each issued request the operation and the arguments it was issued for (registerUser at POST /users/register with userData; forgotPassword at POST /auth/forgot-password with {email}; verifyResetOtp at POST /auth/verify-reset-otp with {email, otp}; resetPassword at POST /auth/reset-password with {email, otp, newPassword}); only a registration with a falsy body, which goes out without a body, is read as nothing |
| `Api.ContainsIff` | src/services/api.js:35 | `includes` holds exactly when the needle occurs at some offset |
| `Api.JsonDetection` | src/services/api.js:31-41 | the body is read as JSON exactly when a content-type header exists and contains `application/json`; otherwise it is read as text |
| `Api.ClassifyOutcomes` | src/services/api.js:23-51 | a call fails exactly on a transport failure or a non-ok response; a transport failure gives 'Unable to connect to the server. Please try again later.' with no status or data; an HTTP failure attaches the status and the data; an ok response resolves with its data |
| `Api.TextBodyFallsThrough` | src/services/api.js:37-44 | a non-ok response with a text body reports its status text, or 'Request failed' when that is empty |
| `Api.StringMessageWins` | src/services/api.js:44 | a non-empty string `message` in a JSON error body is the error message; an empty one falls through to the status text |
| `Api.EmptyMessageOnlyFromArray` | src/services/api.js:44-45 | an error message is empty only when the body's `message` is an array that joins to the empty string, the only case in which a page shows its own fallback text |
| `UserRegistration.Set` | src/pages/UserRegistration.jsx:32-38 | an edit changes the named field to the new value and no other field |
| `UserRegistration.NameRules` | src/pages/UserRegistration.jsx:52-58 | 'First name is required.' / 'Last name is required.' exactly when the value is only whitespace, otherwise no message |
| `UserRegistration.PasswordRules` | src/pages/UserRegistration.jsx:66-70 | empty gives 'Password is required.', one to five characters 'Password must be at least 6 characters.', six or more no message |
| `UserRegistration.ValidateAcceptsExactly` | src/pages/UserRegistration.jsx:43-82 | `validate` passes exactly the forms with non-blank names, an e-mail of the pattern, a password of six or more characters and an equal confirmation |
| `UserRegistration.PayloadOmitsConfirmation` | src/pages/UserRegistration.jsx:95-100 | the request body is determined by, and determines, the first name, last name, e-mail and password; the confirmation is never sent |
| `UserRegistration.Page.constructor` | src/pages/UserRegistration.jsx:16-41 | all slots start empty and no submission is in flight |
| `UserRegistration.Page.HandleChange` | src/pages/UserRegistration.jsx:32-38 | sets the named field and leaves the errors and the error message alone |
| `UserRegistration.Page.Validate` | src/pages/UserRegistration.jsx:78-81 | stores exactly the computed errors and returns true iff all five are empty |
| `UserRegistration.Page.HandleSubmit` | src/pages/UserRegistration.jsx:84-118 | an invalid form sends nothing and leaves the error message empty; a valid one sends `registerUser` with the four fields; success clears all five values; failure keeps them and shows the message or 'Registration failed. Please try again.'; nothing is in flight afterwards |
| `Login.Set` | src/pages/Login.jsx:31-37 | an edit changes the named field to the new value and leaves the other field as it was |
| `Login.ValidateAcceptsExactly` | src/pages/Login.jsx:39-57 | login passes exactly an e-mail of the pattern and any non-empty password, however short |
| `Login.Page.constructor` | src/pages/Login.jsx:17-28 | all slots start empty |
| `Login.Page.HandleChange` | src/pages/Login.jsx:31-37 | sets the named field only |
| `Login.Page.Validate` | src/pages/Login.jsx:39-57 | stores the computed errors and returns true iff both are empty |
| `Login.Page.HandleSubmit` | src/pages/Login.jsx:59-80 | clears the error message; an invalid form makes no navigation; a valid one navigates to /otp with no state; the page has no service call; nothing is in flight afterwards |
| `Otp.FilterRefusesMixedInput` | src/pages/Otp.jsx:25-31 | `12a45` and seven digits are refused as whole values; the empty string and up to six digits are accepted |
| `Otp.Page.constructor` | src/pages/Otp.jsx:17-23 | the page keeps the carried e-mail and reset flag and starts with an empty code |
| `Otp.Page.HandleChange` | src/pages/Otp.jsx:25-31 | the code becomes the new value iff it is 0 to 6 ASCII digits, else stays as it was; the field always holds at most six digits |
| `Otp.Page.HandleSubmit` | src/pages/Otp.jsx:33-68 | a code of length other than six sets 'Please enter the 6-digit OTP sent to your email or phone.' with no call and no navigation; the login path goes to /dashboard with no call; the reset path without an e-mail sets 'Email is required for password reset.' with no call; otherwise `verifyResetOtp(email, otp)` is sent, success navigates to /reset-password carrying exactly that pair, and failure shows the message or 'Invalid OTP. Please try again.' with no navigation |
| `Otp.Page.Resend` | src/pages/Otp.jsx:167-174 | navigates to /forgot-password carrying the e-mail iff on the reset path with an e-mail; otherwise no navigation |
| `ForgotPassword.Page.constructor` | src/pages/ForgotPassword.jsx:17-23 | the e-mail starts empty; the page reads no carried state |
| `ForgotPassword.Page.HandleChange` | src/pages/ForgotPassword.jsx:25-31 | any edit sets the e-mail and clears the field error |
| `ForgotPassword.Page.Validate` | src/pages/ForgotPassword.jsx:33-42 | returns true iff the e-mail is of the pattern; a pass leaves the field error untouched; a failure sets 'Email is required.' or 'Please enter a valid email address.' |
| `ForgotPassword.Page.HandleSubmit` | src/pages/ForgotPassword.jsx:44-67 | both messages are cleared first; an invalid address sends nothing; a valid one sends `forgotPassword(email)`; success sets the success message and navigates to /otp with {email, isPasswordReset: true}; failure shows the message or 'Failed to send reset OTP. Please try again.' with no success message and no navigation |
| `ResetPassword.Set` | src/pages/ResetPassword.jsx:41-46 | an edit changes the named field only |
| `ResetPassword.ValidateAcceptsExactly` | src/pages/ResetPassword.jsx:56-76 | the form passes exactly a password of six or more characters with an identical confirmation; empty gives 'Password is required.', one to five characters 'Password must be at least 6 characters long.', and a mismatch always gives a message |
| `ResetPassword.Guard` | src/pages/ResetPassword.jsx:32-39 | the mount effect redirects to /forgot-password with no state exactly when the carried e-mail or code is missing or empty |
| `ResetPassword.Page.constructor` | src/pages/ResetPassword.jsx:17-32 | the page keeps the carried e-mail and code and starts with empty slots |
| `ResetPassword.Page.HandleChange` | src/pages/ResetPassword.jsx:41-54 | sets the named field, clears that field's error and leaves the other field's error untouched |
| `ResetPassword.Page.Validate` | src/pages/ResetPassword.jsx:56-76 | stores the computed errors and returns true iff both are empty |
| `ResetPassword.Page.HandleSubmit` | src/pages/ResetPassword.jsx:78-97 | an invalid form sends nothing; a valid one sends `resetPassword` with the carried e-mail and code and the new password, never the confirmation; success navigates to /login; failure shows the message or 'Failed to reset password. Please try again.' |
| `Session.Settle` | src/pages/ResetPassword.jsx:32-39 | once the router and the mount effect have reacted, no navigation rests on `/` (it redirects to /login, per src/App.jsx:15), and the reset screen is shown only with a non-empty carried e-mail and code; any other target is kept as it is |
| `Session.SettleIsStable` | src/pages/ResetPassword.jsx:99-101 | a settled screen is not redirected again |
| `Session.IssuedResetsAuthorized` | src/services/api.js:82-89 | when the call log is consistent, the `i`th request on the wire, if a server reads it as `resetPassword`, carries an (e-mail, code) pair for which one of the calls before it, `verifyResetOtp`, was accepted by the service |
| `Session.App.constructor` | src/App.jsx:15-21 | a session starts at whatever address is entered, with no state, and after the redirects it is consistent, with no call made; all five page instances are new, with empty fields and no messages, and the OTP and reset pages carry no e-mail, code or reset flag |
| `Session.App.Go` | src/App.jsx:15-21 | a navigation lands on its settled target and mounts a new, empty instance of that page from the carried state; every other page instance is kept |
| `Session.App.EnterAddress` | src/App.jsx:15-21 | typing any address, the dashboard included (it has no guard), keeps the flow consistent and makes no call; the target page is mounted afresh and the others are kept |
| `Session.App.FollowLink` | src/pages/Login.jsx:200-224 | the pages' stateless links land on their target with no state, on a new instance of its page: login's links to forgot-password and register, and the links back to login at src/pages/Otp.jsx:187-194, src/pages/ForgotPassword.jsx:185-192 and src/pages/ResetPassword.jsx:222-229 |
| `Session.App.Logout` | src/pages/Dashboard.jsx:52-55 | logout goes to /login and discards the payload, on a new login page |
| `Session.App.SubmitLogin` | src/pages/Login.jsx:67-73 | login sends no request at all; a valid form reaches a new OTP page, which sees no e-mail and no reset flag; an invalid one stays on the same page instance and payload, with its values kept, the computed field errors shown and no error message |
| `Session.App.SubmitRegistration` | src/pages/UserRegistration.jsx:93-111 | a valid form makes exactly the one `registerUser` call, puts its request on the wire and logs its outcome, and an invalid one makes none; the screen, the payload and the page instances stay; the page shows the computed field errors, a cleared form on success, and the message or 'Registration failed. Please try again.' on failure |
| `Session.App.SubmitForgotPassword` | src/pages/ForgotPassword.jsx:53-60 | exactly a valid address makes the one `forgotPassword` call, logged with its outcome; only a successful call reaches a new OTP page, carrying that address with the reset flag; otherwise the page instance and payload stay, with the address kept, no success message, the field error for an invalid address, and for a failed call the message or 'Failed to send reset OTP. Please try again.' |
| `Session.App.SubmitOtp` | src/pages/Otp.jsx:45-61 | a six-digit code on the reset path with an e-mail makes the one `verifyResetOtp` call; exactly an accepted (e-mail, code) pair is recorded and carried to a new reset page; the login path makes no call and reaches the dashboard with no state; anything else stays on the same page instance and payload, with the code kept and the page's error: 'Please enter the 6-digit OTP sent to your email or phone.' for a wrong length, 'Email is required for password reset.' without an e-mail, or the service's message or 'Invalid OTP. Please try again.' |
| `Session.App.AcceptCode` | src/pages/Otp.jsx:51-53 | from the OTP page on the reset path, once the service has accepted its six-digit code for the carried e-mail in the last call made, the pair is recorded and a new reset page is shown carrying exactly that pair |
| `Session.App.ResendOtp` | src/pages/Otp.jsx:167-174 | resend reaches a new forgot-password page only on the reset path with an e-mail, and the field there still starts empty; otherwise the page instance and payload stay |
| `Session.App.SubmitResetPassword` | src/pages/ResetPassword.jsx:86-90 | a valid form makes the one `resetPassword` call, logged with its outcome, with a pair the service accepted at an earlier OTP call; success reaches a new login page with no state; otherwise the page instance and payload stay, the values are kept, the computed field errors are shown, and a failed call shows the message or 'Failed to reset password. Please try again.' |
| `Session.App.EditLogin` | src/pages/Login.jsx:31-37 | typing into the login form sets the named field only, keeps the field errors and the error message, and keeps the flow consistent |
| `Session.App.EditRegistration` | src/pages/UserRegistration.jsx:32-38 | typing into the registration form sets the named field only, keeps the field errors and the error message, and keeps the flow consistent |
| `Session.App.EditOtp` | src/pages/Otp.jsx:25-31 | typing into the OTP field takes the value only when the filter accepts it and keeps the error; the flow stays consistent, the six-digit invariant included |
| `Session.App.EditForgotPassword` | src/pages/ForgotPassword.jsx:25-31 | typing into the forgot-password field sets the e-mail, clears the field error, keeps the error and success messages, and keeps the flow consistent |
| `Session.App.EditResetPassword` | src/pages/ResetPassword.jsx:41-54 | typing into the reset form sets the named field, clears that field's error only, keeps the error message, and keeps the flow consistent |

`Session.App.Valid` is the invariant every transition preserves. It requires that:

- the reset screen shows only a non-empty pair of e-mail and code that the service accepted at a `verifyResetOtp` call;
- the OTP page on the reset path carries an e-mail for which a `forgotPassword` call succeeded;
- every recorded pair comes from a `verifyResetOtp` call that the service accepted;
- every `resetPassword` call carries a pair accepted by an earlier call.

The session logs the identity-service calls it makes, each with whether `request()` resolved it as a success. `Session.Requests` maps that log to the requests on the wire, through the endpoint table. `Session.IssuedResetsAuthorized` then carries the last property over to the wire.

## Left out

- Session.App.Go: it allows every navigation that `Session.Admissible` permits, which is more than the pages make. A client may call it from any screen: from the dashboard straight to the reset form with an accepted pair, or onto an OTP page on the login path that carries an e-mail. The pages' own transitions (`SubmitLogin`, `SubmitOtp`, `FollowLink` and the rest) are what model the source's `navigate` calls. Each of them reaches `Go` only with the targets its page uses.
- Presentation: JSX, MUI layout and styling, icons, `alert` and `console` output. They have no effect on the modelled state.
- `fetch`, `response.json()`, `response.text()` and JSON parse failures: the outcome is a parameter. `JSON.stringify` is not modelled: a request's body is the JSON value it would serialise.
- `process.env.REACT_APP_API_BASE_URL`: `BASE_URL` is the constant fallback `http://localhost:8080/api`.
- JSON numbers are integers. `String(n)` is decimal, which matches JavaScript below 10^21. Fractions and exponent forms are not modelled.
- Header names are case-sensitive map keys. How `fetch` merges headers whose names differ only in case is not modelled.
- react-router internals: `navigate` assigns the screen and the payload. `replace: true` (history) and browser back/forward are not modelled; the back button can restore an earlier `location.state`.
- The `setTimeout` in ForgotPassword: the navigation to /otp happens in the same step as the success message. The timer is never cancelled in the source, so it fires even after the user leaves the page. That is not modelled.
- Async interleaving and double submission (guarded only by `disabled={isSubmitting}`): each `handleSubmit` is one atomic step, so `isSubmitting` is false between steps.
- Login's `catch` branch ('Login failed. Please check your credentials and try again.'): nothing in its `try` can throw once I/O is abstracted, so the branch is unreachable and not modelled.
- Lengths are counted in Unicode code points, while JavaScript's `length` counts UTF-16 code units. A password of three emoji has length 6 in the source and passes the six-character rule (src/pages/UserRegistration.jsx:68, src/pages/ResetPassword.jsx:64), but has length 3 in the model and is refused. OTP codes are ASCII digits, so they are not affected.
- Page fields are always strings. A `location.state` holding non-string values is not modelled.
- The Dashboard catalog and the rest of `Dashboard.jsx` and `App.jsx`, beyond the screen names, the `/` redirect and the logout transition.
