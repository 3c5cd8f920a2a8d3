# Route guard and auth-form schema of the stock-page frontend

This project models the two pieces of the personal-finance frontend that carry
exact behaviour of their own:

- **The route guard** (`frontend/middleware.ts`). Before a page is served, the
  Next.js middleware looks up the session and decides: a request without a
  session for any path beginning `/dashboard` is redirected to `/log-in`; a
  request with a session for exactly `/log-in` or `/sign-up` is redirected to
  `/dashboard`; everything else passes through unchanged. The `config.matcher`
  restricts the middleware to `/dashboard/:path*`, `/log-in` and `/sign-up`.
  Module `RouteGuard` (`route_guard.dfy`) has the decision as the function
  `Middleware(hasSession, pathname)`, `startsWith` and `includes` as recursive
  functions tied to sequence prefix and membership, the matcher as `Matched`,
  and the whole pipeline (matcher, then middleware) as `Route`.
- **The auth-form schema** (`frontend/lib/utils.ts`, `authformSchema(type)`).
  It is a zod object schema. For the `log-in` type the seven profile fields are
  optional strings. For any other type they are required strings, `state` must
  have exactly 2 characters and `postalCode` 3 to 6. For every type, `email`
  must pass zod's e-mail check and `password` needs at least 8 characters.
  Module `AuthSchema` (`auth_schema.dfy`) has the schema key by key
  (`FieldSchema`), zod's string checks (`CheckString`), the issue list a parse
  reports (`Issues`), `SafeParse`, and an independent statement of the rules
  (`Valid`). The lemmas prove that the parse accepts exactly the valid forms and
  say, field by field, which issue is reported when.

`wrappers.dfy` holds the `Option` and `Result` datatypes both modules use.

The session lookup through the auth provider is an input, `hasSession`. zod's
e-mail check is the parameter `isEmail: JsString -> bool`. A form value is a
`JsString`, a sequence of UTF-16 code units (`CodeUnit`), so its length is
JavaScript's `.length`, the one zod's `.min` and `.max` compare: a character
outside the Basic Multilingual Plane counts as two. Paths and the form type are
compared only for equality and prefix, and stay Dafny strings.

## Model

| member | source | states |
|---|---|---|
| RouteGuard.StartsWith | frontend/middleware.ts:12 | `startsWith` holds exactly when the prefix opens the pathname |
| RouteGuard.Includes | frontend/middleware.ts:17 | `includes` holds exactly when the pathname is an element of the list |
| RouteGuard.Middleware | frontend/middleware.ts:5-22 | a redirect goes to `/dashboard` when there is a session and to `/log-in` when there is none |
| RouteGuard.Matched | frontend/middleware.ts:24-30 | a path is matched exactly when it is `/dashboard`, lies below `/dashboard/`, or is an auth page; every matched path is one a guard of the middleware can apply to |
| RouteGuard.Route | frontend/middleware.ts:5-30 | behind the matcher, a redirect only happens on a matched path, goes to `/dashboard` with a session and `/log-in` without, and its target is itself matched |
| RouteGuard.NoSessionDashboardRedirects | frontend/middleware.ts:12-14 | with no session, every pathname starting with `/dashboard` is redirected to `/log-in` |
| RouteGuard.SessionAuthPageRedirects | frontend/middleware.ts:17-19 | with a session, `/log-in` and `/sign-up` are redirected to `/dashboard` |
| RouteGuard.PassThroughOtherwise | frontend/middleware.ts:6-21 | the response is the unchanged pass-through exactly when neither guard's condition holds |
| RouteGuard.RedirectBranchesExclusive | frontend/middleware.ts:12-19 | the `/log-in` redirect needs no session, the `/dashboard` redirect needs one, and testing the two guards in the other order gives the same decision |
| RouteGuard.DashboardGuardIsPrefix | frontend/middleware.ts:12-14 | with no session, `/dashboard` followed by anything is redirected to `/log-in` |
| RouteGuard.AuthPageRuleIsExact | frontend/middleware.ts:17-21 | with a session, an auth page followed by any non-empty suffix (such as `/log-in/x`) passes through |
| RouteGuard.NoSessionAuthPagesPass | frontend/middleware.ts:12-21 | with no session, `/log-in` and `/sign-up` pass through |
| RouteGuard.NoRedirectLoop | frontend/middleware.ts:12-21 | the target of any redirect passes through when requested with the same session state |
| RouteGuard.RouteRedirectsExactly | frontend/middleware.ts:24-30 | behind the matcher, a request is redirected exactly when it has no session and is `/dashboard` or below it, or has a session and is an auth page |
| RouteGuard.RouteNoRedirectLoop | frontend/middleware.ts:12-30 | every redirect target is matched by the matcher and there passes through |
| RouteGuard.PrefixWiderThanMatcher | frontend/middleware.ts:12-26 | for every suffix not starting with `/` (such as `/dashboards`), the prefix test alone would redirect `/dashboard` plus that suffix, but the matcher keeps the middleware off it, so it passes through |
| AuthSchema.FieldSchema | frontend/lib/utils.ts:10-19 | a key's rule is optional exactly for a profile field under the `log-in` type, an optional rule has no length checks, and only the e-mail key carries the e-mail check |
| AuthSchema.SafeParse | frontend/lib/utils.ts:9-20 | a successful parse returns the form itself; a failed one carries at least one issue |
| AuthSchema.IssueReportedOver | frontend/lib/utils.ts:9-20 | an issue is in the list exactly when its key is checked and that key's string schema reports it |
| AuthSchema.IssueReported | frontend/lib/utils.ts:9-20 | every key is in the schema, so an issue is reported exactly when its key's string schema reports it |
| AuthSchema.SafeParseAcceptsExactlyValid | frontend/lib/utils.ts:9-20 | the schema accepts a form if and only if it satisfies every field rule |
| AuthSchema.LogInNeedsOnlyCredentials | frontend/lib/utils.ts:10-19 | the log-in schema accepts a form exactly when the e-mail is present and accepted and the password has at least 8 characters, whatever the profile fields hold |
| AuthSchema.LogInProfileOptional | frontend/lib/utils.ts:10-16 | for the log-in type no issue is ever about one of the seven profile fields |
| AuthSchema.ProfileRequiredUnlessLogIn | frontend/lib/utils.ts:10-16 | a profile field is reported missing exactly when the type is not `log-in` and the field is absent |
| AuthSchema.TextFieldsOnlyNeedPresence | frontend/lib/utils.ts:10-16 | a present first name, last name, address, city or date of birth is never refused, even when empty |
| AuthSchema.StateNeedsTwoChars | frontend/lib/utils.ts:14 | outside log-in, a present state is too small exactly when under 2 characters and too big exactly when over 2 |
| AuthSchema.PostalCodeNeedsThreeToSixChars | frontend/lib/utils.ts:15 | outside log-in, a present postal code is too small exactly when under 3 characters and too big exactly when over 6 |
| AuthSchema.PasswordNeedsEightChars | frontend/lib/utils.ts:19 | for every type, the password is reported missing exactly when absent and too small exactly when shorter than 8 |
| AuthSchema.EmailMustBeAccepted | frontend/lib/utils.ts:18 | for every type, the e-mail is reported missing exactly when absent and invalid exactly when the e-mail check refuses it |
| AuthSchema.LogInIsMostLenient | frontend/lib/utils.ts:10-19 | any form accepted by the schema of any type is accepted by the log-in schema |

## Left out

- The session lookup (`getSession`, frontend/middleware.ts:7-9) is a call into the auth provider; only its outcome, whether a session exists, is modelled.
- The redirect URL is built from the request URL, so it keeps the request's origin; the model keeps only the target path.
- RouteGuard.Matched: treats `/dashboard` and every path beginning `/dashboard/` as matched. Next.js's path patterns also refuse empty segments (such as `/dashboard//x`) and apply their own trailing-slash and locale handling; those details are not modelled.
- zod's e-mail check (frontend/lib/utils.ts:18) is not part of this model; it is the parameter `isEmail`.
- Form values of a type other than string or undefined are not modelled; every field of `AuthForm` is an optional string, as the form supplies.
- zod's issue messages and the exact issue objects (`inclusive`, `exact`, `type` fields) are reduced to the field and an issue code.
- `cn` (frontend/lib/utils.ts:5-7) only joins class names through two styling libraries.
- The bank-account linking flow, the transaction and net-worth fetches, the backtest view and number formatting are React components, network calls and floating-point output; they are not part of this model.
- The Python server, its bank-aggregation and trading calls, and the NBA data script are not part of this model.
