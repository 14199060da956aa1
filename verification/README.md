# Facebook login for a CodeIgniter 4 application, modelled in Dafny

The application signs users in with Facebook. The library `Facebookauth` gets an access token for the browser session. It reuses the token stored under the session key `fb_access_token`. Otherwise it pulls a token out of the OAuth callback, exchanges it for a long-lived one and stores it. When the callback carries the provider's error instead, it hands back an error array. The controller `Auth` drives the flow. `fb_login` sends an unauthenticated visitor to Facebook's login page. For an authenticated one, it normalises the Graph profile, updates or inserts the `user` row keyed on `email`, re-reads that row and puts it into the session as `user_logged_in`. `logout` destroys the session.

The model has four modules:

- `Php` (php.dfy): the PHP values the flow handles (`Value`, with the SDK's `AccessToken` as its one object), PHP truthiness, `$m[$k]` on a missing key, and PHP 8 loose comparison as `logout` uses it.
- `Sessions` (php.dfy): the framework's session service. It is a class with two fields: the request's key-value array, and whether the stored session still exists (`destroy()` clears that flag; `Kept` is what the next request then finds). The library and the controller share one instance.
- `Libraries` (facebookauth.dfy): the class `Facebookauth`. It has the shared session, the SDK's default token (`active`) and the error log as state. Its methods are proved against pure functions: `Authentication`, `LongLived`, `RequestResult`, `ErrorPayload`, `ErrorMap` and `TokenOrFalse`.
- `Controllers` (auth.dfy): the class `Auth`, holding the `user` table (`map<int, Row>` plus the auto-increment counter) and the shared session. Its methods are proved against the functions `Registration` (built on `Upsert`), `Login` and `SignOut`.

Everything the Facebook SDK decides is an input, bundled in `Provider`:
- what the redirect helper extracts: a token, nothing, or an exception;
- how the long-lived exchange ends;
- the callback's error fields;
- how the profile request ends;
- the login URL.

The constants `DATE_TIME`, `STATUS_ACTIVE`, `USER_FOLDER_NAME` and the base URL are the opaque values of `Config`. A response is `Redirect(url)`, or `Fault` when an uncaught PHP error ends the request.

Constructing `Facebookauth` already runs `authenticate()` (app/Libraries/Facebookauth.php:48). So `fb_login` authenticates twice: once in the constructor and once in `is_authenticated()`. `logout` destroys the stored session and then constructs the library, which authenticates once more. `session_destroy()` leaves the request's array in place, so that authentication still sees the old token. The token is then removed from that array. The model does the same.

Where the documented design and the code differ, the model follows the code:
- `logout` clears the session only when `user_logged_in` is set. When it is not, the session is left alone.
- `fb_login` treats an error array from `authenticate` as a signed-in user and goes on to register a profile. See Findings.

## Model

| member | source | states |
|---|---|---|
| `Libraries.ErrorPayload` | app/Libraries/Facebookauth.php:244-247 | the payload has exactly the keys `error` and `message`, holding the exception's code and message |
| `Libraries.Facebookauth.LogError` | app/Libraries/Facebookauth.php:244-247 | returns that payload and appends the code and message to the log |
| `Libraries.RequestResult` | app/Libraries/Facebookauth.php:82-91 | a successful Graph call yields its decoded body; either exception type yields exactly the `{error, message}` payload of its code and message |
| `Libraries.Facebookauth.Request` | app/Libraries/Facebookauth.php:82-91 | returns `RequestResult` and logs exactly when an exception was caught |
| `Libraries.Facebookauth.GetUserInfo` | app/Libraries/Facebookauth.php:179-181 | the profile request's result and log are those of `request` on the provider's Graph outcome |
| `Libraries.LongLived` | app/Libraries/Facebookauth.php:190-202 | a long-lived token comes back unchanged; a short-lived one comes back as the exchanged token, or as null exactly when the exchange fails |
| `Libraries.Facebookauth.LongLivedToken` | app/Libraries/Facebookauth.php:190-202 | returns `LongLived` and logs only a failed exchange |
| `Libraries.ErrorMap` | app/Libraries/Facebookauth.php:166-175 | the error array has exactly the keys `error`, `error_code`, `error_reason`, `error_description`, holding the helper's four error fields |
| `Libraries.Authentication` | app/Libraries/Facebookauth.php:131-177 | a truthy stored token that `setDefaultAccessToken` accepts (a string or an `AccessToken`) is returned and activated with the session unchanged, and any other truthy value aborts; a failed extraction is logged and yields null with no write; an extracted token is stored, activated and returned as its long-lived form (a failed exchange aborts); with no token, the error array is returned when the callback carries an error, null otherwise; only `fb_access_token` is ever written; the result is never `false` |
| `Libraries.Facebookauth.Authenticate` | app/Libraries/Facebookauth.php:131-177 | result, session, log and default token are exactly those of `Authentication` on the session it started from |
| `Libraries.Facebookauth.GetAccessToken` | app/Libraries/Facebookauth.php:209-211 | the stored `fb_access_token`, or null when the session has none |
| `Libraries.Facebookauth.SetAccessToken` | app/Libraries/Facebookauth.php:218-220 | `fb_access_token` is set to the token's string value and nothing else changes |
| `Libraries.Facebookauth.DestroySession` | app/Libraries/Facebookauth.php:122-124 | the session becomes `WithoutToken` of the old one: only `fb_access_token` is removed |
| `Libraries.WithoutToken` | app/Libraries/Facebookauth.php:122-124 | the session `destroy_session` leaves: no `fb_access_token`, every other key with its value |
| `Libraries.DestroySessionIdempotent` | app/Libraries/Facebookauth.php:122-124 | `destroy_session`'s result, taken twice, is the same session as taken once |
| `Libraries.TokenOrFalse` | app/Libraries/Facebookauth.php:64-70 | null becomes `false`; anything else is returned unchanged, error array included |
| `Libraries.Facebookauth.IsAuthenticated` | app/Libraries/Facebookauth.php:64-70 | authenticates, then returns `false` in place of null and every other result unchanged |
| `Libraries.IsAuthenticatedFalseIffNull` | app/Libraries/Facebookauth.php:64-70 | `is_authenticated` answers `false` exactly when `authenticate` yields null, and is truthy otherwise |
| `Libraries.AuthenticationSettles` | app/Libraries/Facebookauth.php:131-177 | a second `authenticate` on the session the first left behind writes nothing new and agrees on whether there is a token |
| `Libraries.Facebookauth.constructor` | app/Libraries/Facebookauth.php:30-49 | the new object shares the session and has already run `authenticate` on it, recording whether that aborted |
| `Libraries.FailedExchangeAborts` | app/Libraries/Facebookauth.php:154-158 | as written, a short-lived extracted token whose exchange fails ends the request after logging the failure |
| `Libraries.IntendedAuthentication` | app/Libraries/Facebookauth.php:144-163 | with the fix, a failed exchange yields null with the session unchanged; every other case is as written |
| `Controllers.Select` | app/Controllers/Auth.php:55-57 | the lookup by email returns exactly the keys of the rows with that email, in strictly increasing order |
| `Controllers.Fetch` | app/Controllers/Auth.php:69-70 | the re-read by `user_id` returns the one row stored under that key (which is its `user_id` column), or nothing |
| `Controllers.Touched` | app/Controllers/Auth.php:60-62 | the updated row takes every written column and `updated_time`, and keeps every other column |
| `Controllers.Created` | app/Controllers/Auth.php:64-66 | the new row holds the data plus `status = STATUS_ACTIVE`, `created_time = DATE_TIME` and its key |
| `Controllers.UpdateRow` | app/Controllers/Auth.php:59-62 | the matched row is updated in place; no key is added and no other row changes |
| `Controllers.InsertRow` | app/Controllers/Auth.php:63-67 | exactly one row is added, under the fresh counter value, and the counter moves on |
| `Controllers.UnsetId` | app/Controllers/Auth.php:52-54 | a non-null `id` is removed from the data; a null or missing one leaves the data as it is |
| `Controllers.Upsert` | app/Controllers/Auth.php:51-67 | if a row has the email, the first match (lowest key, found by its `user_id` column) is updated and nothing is added; otherwise exactly one new active row is inserted under a fresh key; a non-null `id` is never written; no other row changes; the table invariants (keys below the counter, `user_id` column equal to the key) are kept; the signed-in row has the looked-up email |
| `Controllers.NullIdKeptOnInsert` | app/Controllers/Auth.php:52-66 | a new user's row keeps a null `id` from the data, and never holds a non-null one |
| `Controllers.Registration` | app/Controllers/Auth.php:50-77 | empty data: redirect home with no table or session write; otherwise the upserted row, re-read by its key, becomes `user_logged_in` and the user is sent to the dashboard; no other session key changes |
| `Controllers.Auth.SocialRegistration` | app/Controllers/Auth.php:50-77 | table, counter, session and response are exactly those of `Registration` |
| `Controllers.UpsertKeepsEmailsUnique` | app/Controllers/Auth.php:55-67 | if no two rows shared an email before the upsert, none do after it |
| `Controllers.UpsertTwiceAddsNoRow` | app/Controllers/Auth.php:55-67 | upserting the same data twice adds no row the second time and signs in the same user |
| `Controllers.ReturningUserKeepsStatusAndCreation` | app/Controllers/Auth.php:59-62 | a returning user keeps `status` and `created_time` and gets `updated_time = DATE_TIME` |
| `Controllers.Profile` | app/Controllers/Auth.php:27-31 | `userData` has exactly the keys `fb_id`, `first_name`, `last_name`, `email`, each the provider's value when non-empty and `''` otherwise |
| `Controllers.Normalise` | app/Controllers/Auth.php:27-31 | the four assignments build exactly `Profile` of the Graph result |
| `Controllers.ProfileNeverEmpty` | app/Controllers/Auth.php:28-31 | the normalised profile is never empty, so `fb_login` never takes the redirect-home branch of `social_registration` |
| `Controllers.SignInAttempt` | app/Controllers/Auth.php:19-23 | the constructor's and `is_authenticated`'s authentication abort together; the answer is truthy exactly when `authenticate` found a token or an error; only `fb_access_token` is written |
| `Controllers.Login` | app/Controllers/Auth.php:18-42 | abort: no table write, error response; not authenticated: no table or user write and a redirect to the login URL; authenticated: the normalised profile is registered and the user lands on the dashboard; no session key other than the token and the user changes |
| `Controllers.Auth.Attempt` | app/Controllers/Auth.php:19-23 | session and answer are exactly those of `SignInAttempt`, with `is_authenticated` skipped when the constructor aborted |
| `Controllers.Auth.Welcome` | app/Controllers/Auth.php:25-36 | table, counter, session and response are those of `Registration` on the normalised Graph profile |
| `Controllers.Auth.FbLogin` | app/Controllers/Auth.php:18-42 | table, counter, session and response are exactly those of `Login` |
| `Controllers.DeniedConsentSignsInBlankAccount` | app/Controllers/Auth.php:23-36 | as written, a callback with the provider's error and a failed profile request still signs in a row whose email is empty and redirects to the dashboard |
| `Controllers.IntendedLogin` | app/Controllers/Auth.php:18-42 | with the fix, no row is written and nobody is signed in unless a token and a Graph profile were obtained; with both, it is `Login` |
| `Controllers.IntendedLoginTurnsAwayDeniedConsent` | app/Controllers/Auth.php:23-41 | with the fix, a declined consent changes nothing and redirects to the login URL |
| `Controllers.SignOut` | app/Controllers/Auth.php:85-95 | nobody signed in (null, `false` or `''`): session kept as it is and a redirect home; somebody signed in: the stored session is destroyed, so the next request starts empty, and `fb_access_token` is removed from the request's array with every other key kept; the response is the redirect home unless the library's constructor aborted |
| `Controllers.SignOutWithStoredToken` | app/Controllers/Auth.php:85-95 | a signed-in user whose session holds a string or `AccessToken` token is always sent home, and only the token leaves the request's array |
| `Controllers.Auth.Logout` | app/Controllers/Auth.php:85-95 | session array, response, and whether the stored session survives are exactly those of `SignOut` |
| `Sessions.Session.Destroy` | app/Controllers/Auth.php:88 | the stored session is gone while the request's array keeps its entries |
| `Controllers.Auth.constructor` | app/Controllers/Auth.php:7-10 | the controller starts on the given table, counter and shared session |

## Left out

- `login_url` and `logout_url` are not modelled as operations: they are SDK URL builders. The login URL is an input of `Provider`, and the logout URL is never used by the controller.
- `object()` is an accessor of the SDK instance and is not modelled.
- The Graph transport is not modelled: the method, endpoint and parameters passed to `request`, and the SDK calls behind the helper and the OAuth2 client. Only their outcomes are modelled, as inputs. The same outcomes serve every `authenticate()` call in one request.
- The commented-out expiry check and `get_expire_time`/`set_expire_time` are not modelled: the code never calls them.
- `log_message` is modelled as a list of (code, message) entries. The formatted log line is not modelled.
- `set_msg("Successfully Logout")` and the `FrontController` base constructor are not modelled: `FrontController` is not part of this model.
- Controllers.Upsert: requires that `userData` has no `user_id` key. The key column belongs to the store, and `fb_login`, the one caller, never passes one.
- Controllers.UpdateRow: requires no `user_id` key in the data, as `Upsert` does.
- Controllers.Registration: requires no `user_id` key in `userData`, as `Upsert` does.
- Controllers.Auth.SocialRegistration: requires no `user_id` key in `userData`, as `Upsert` does.
- The store is an atomic map whose keys are the `user_id` column; `StoreValid` keeps the two equal. Email matching is exact equality, with no database collation. A lookup returns rows in key order. Values come back as they were stored, without conversion to strings. Store failures are not modelled.
- `base_url(path)` is modelled as the base URL followed by the path, with no slash normalisation.
- `Logout` reads `$user_id != '' || $user_id != null` with PHP 8 loose comparison. Under PHP 7 the integer 0 would also count as signed out.
- Reaching `social_registration` directly by URL, with a non-array argument, is not modelled.
- Request concurrency and the session and database storage mechanisms are not modelled.

## Findings

| source | as written | input that shows it | evidently intended | confidence | as-written member | corrected member |
|---|---|---|---|---|---|---|
| app/Controllers/Auth.php:23-36 | the error array that `is_authenticated` passes through is truthy, so `fb_login` requests the profile; the failed request's `{error, message}` normalises to an all-empty profile, which is upserted and signed in under the email `''` | no stored token; the callback has `error=access_denied` and no code; the profile request fails for want of a token | a declined or failed login signs nobody in and writes no row | high (not executed) | `Controllers.DeniedConsentSignsInBlankAccount` | `Controllers.IntendedLogin` |
| app/Libraries/Facebookauth.php:154-158 | `long_lived_token` returns null after a failed exchange, and `set_access_token(AccessToken $access_token)` receives it, which is an uncaught TypeError | no stored token; a short-lived token is extracted; the long-lived exchange throws | the failure is logged and treated as no token, as the documented return type (an access token or null) and the catch block suggest | high (not executed) | `Libraries.FailedExchangeAborts` | `Libraries.IntendedAuthentication` |
