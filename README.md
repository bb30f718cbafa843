# Verified model of the alphaAppJoinRento authentication front end

The app is a React Native front end. A user types a phone number or an
email address on the entry screen. A known identifier goes on to a password
step. An unknown one is sent a one-time code (OTP), verified and then
registered. A forgotten password is reset through the same OTP step. All
backend work goes through one adapter, `AuthService`. A startup flag picks
between a mock backend and the live Supabase backend.

This project models in Dafny:

- `Common` — the shared vocabulary: optional values, backend replies,
  JavaScript's `includes` and `||`, and the `@` rule that classifies an
  identifier as email or phone.
- `Auth` — the adapter's six operations. The mock rules are pure functions.
  The live rules work on an abstract backend: a session and a `profiles`
  table kept as a sequence of rows. Each backend primitive's answer
  (RPC, OTP, sign-in, update, sign-up, insert) is a parameter. What the
  adapter sends to a primitive (the RPC's arguments, the OTP address, the
  code and channel checked, the sign-in credentials, the update or sign-up
  arguments, the new password) is returned, so the contracts can state it. A read of
  the `profiles` table is computed from the table, and a parameter
  `readFails` says whether the read is refused.
- `Validators` — the entry screen's phone schema, the registration schema,
  and the ordered checks of the reset-password screen.
- `Flow` — the screens as a state machine, starting at the splash. Its
  routes carry the identifier, kind and context that the screens pass
  along.
- `AuthEntry`, `AuthOtp`, `AuthPassword`, `AuthRegister`,
  `AuthForgotPassword`, `AuthResetPassword` — one class per screen, with
  fields for `loading`, the error shown, the navigation log and the log of
  adapter calls. Each handler is a method. Every handler keeps the same
  rules:
  - it either stays or takes exactly one edge of `Flow.Transition`;
  - `loading` is false afterwards;
  - a failing check submits nothing;
  - every awaited adapter call is made while `loading` is true. The OTP
    screen's resend link is the exception: it calls the adapter without
    awaiting it, whatever `loading` is.
- `OtpInputBox` — the OTP digit boxes. The slots are an array, one slot is
  overwritten per keystroke, and a focus index moves forward or back.
- `Splash` — the startup routing rule.
- `AppPostLogin` — the post-login screen's logout
  (app/(app)/post-login.tsx:11-14). `PostLoginScreen.HandleLogout`
  requests one sign-out and, unless it throws, replaces the screen with the
  entry screen, along the flow's logout edge.
- `I18n` — the stored-language detector and cache, the right-to-left
  switch, and the web reload guard. `parseInt` and `toString` are written
  out so the guard's timestamp round trip can be proved.
- `Scenarios` — whole runs of the screens against the mock adapter.

The backend switch is a constructor parameter (`useSupabase`). The comment
at src/config.ts:6-7 calls Supabase the "Mock mode". The code does the
reverse: the Supabase branch is the live path, and the `else` branch at
src/services/auth.service.ts:48 is the mock. The model follows the code.

The forgot-password screen starts with an empty identifier field
(app/auth/forgot-password.tsx:16). It ignores the identifier that the
password step forwards (app/auth/password.tsx:68). The model keeps both
behaviours: the screen's route keeps the forwarded identifier, and the
field starts empty.

Translated messages are modelled by their i18n keys, such as
`errors.required`. Alerts and inline errors are modelled as the string
recorded.

## Model

| member | source | states |
|---|---|---|
| Common.Includes | src/services/auth.service.ts:51 | `s.includes(sub)` is true exactly when `sub` occurs somewhere in `s` |
| Common.KindOf | app/auth/forgot-password.tsx:24 | an identifier is an email exactly when it contains '@', a phone number exactly when it does not |
| Common.SingleCharSubstring | src/services/auth.service.ts:101 | `includes('@')` holds exactly when the character '@' is in the string |
| Auth.MockCheckUserExists | src/services/auth.service.ts:51 | the mock knows an identifier exactly when it contains "exist" |
| Auth.MockVerifyOtp | src/services/auth.service.ts:90-91 | the mock accepts exactly the token "1234", with user id "mock-id"; any other token fails with "Invalid OTP" |
| Auth.MockLogin | src/services/auth.service.ts:129-132 | the mock accepts exactly the password "password", with user id "mock-id" and type tenant; any other fails with "Invalid credentials" |
| Auth.Select | src/services/auth.service.ts:40-44 | `.eq(column, value)` keeps exactly the rows whose column equals the value, and never more rows than the table has |
| Auth.Single | src/services/auth.service.ts:44 | `.single()` yields a row exactly when one row matched, and that row is one of the matches |
| Auth.SelectById | src/services/auth.service.ts:186-190 | with unique ids, a `.single()` lookup by id finds a row exactly when a row with that id exists, and never finds more than one |
| Auth.SelectByIdIsRow | src/services/auth.service.ts:112-116 | with unique ids, the `.single()` lookup of a stored row's id yields that row |
| Auth.AppendNewId | src/services/auth.service.ts:192-200 | inserting a row whose id is new keeps the ids unique, and the row is then found |
| Auth.NewProfile | src/services/auth.service.ts:193-200 | the inserted row carries the user id, the payload's email, phone and names, and the payload's type or tenant when none is given |
| Auth.OtpChannel | src/services/auth.service.ts:82 | the verification channel is 'email' exactly for the email kind and 'sms' exactly for the phone kind |
| Auth.SignInCredentials | src/services/auth.service.ts:101-107 | the identifier is sent as the email exactly when it contains '@', otherwise as the phone; exactly one of the two is set |
| Auth.WithProfile | src/services/auth.service.ts:118-125 | the returned user keeps the signed-in id; with no profile row it carries the signed-in email only; otherwise the row's columns win |
| Auth.AuthService.CheckUserExists | src/services/auth.service.ts:26-53 | mock: known exactly when "exist" occurs, and no RPC is made; live: the RPC is asked about the identifier and its kind, an error-free, non-null RPC answer is returned as is, otherwise the answer is whether the table read succeeds and exactly one row matches the identifier's column; no matching row means not known |
| Auth.AuthService.SendOtp | src/services/auth.service.ts:58-72 | the live adapter sends the code to the identifier under its kind's field, and the mock sends nothing; success exactly when the mock is used or the backend reports no error; a failure carries the backend's message |
| Auth.AuthService.VerifyOtp | src/services/auth.service.ts:77-93 | mock: the mock rule, no session change; live: the backend checks the typed code for the identifier under its kind's field, on the kind's channel; an error is reported with its message, success returns the user id or '' and adopts the returned session |
| Auth.AuthService.Login | src/services/auth.service.ts:98-134 | mock: the mock rule; live: the `@` credentials are sent, an error is reported with its message, success opens a session for the signed-in id; when the profile read succeeds, the user's row supplies its type, names, email and phone; with no row or a refused read the user is the signed-in id and email alone |
| Auth.AuthService.Register | src/services/auth.service.ts:139-212 | with a session the live adapter updates that identity's password and names, without one it signs up with the payload's email, phone, password and names; keeps the profile ids unique and only ever appends; an update error (with a session) or sign-up error (without) fails with its message and leaves the table alone; otherwise the insert is tried exactly when the user id is non-empty and the lookup finds no row or is refused; a row is added exactly when the id is non-empty, has no row yet and the insert succeeds, with type defaulting to tenant; the call succeeds with the id or '' |
| Auth.AuthService.ResetPassword | src/services/auth.service.ts:218-228 | the live adapter asks the backend to set exactly the given password, and the mock asks nothing; success exactly when the mock is used or the backend reports no error; a failure carries the backend's message |
| Validators.IdentifierError | app/auth/entry.tsx:17-24 | phone kind: rejected with "Phone number too short" exactly when shorter than 8; email kind: rejected with "Invalid email address" exactly when the email check fails |
| Validators.HasDigit | app/auth/register.tsx:21 | `/[0-9]/` matches exactly when some character is a digit |
| Validators.HasSpecial | app/auth/register.tsx:22 | `/[^a-zA-Z0-9]/` matches exactly when some character is not an ASCII letter or digit |
| Validators.PasswordError | app/auth/register.tsx:19-22 | a password passes exactly when it has 8 characters, a digit and a special character; the first failing rule's message is shown, in the order length, digit, special |
| Validators.RegisterFormErrors | app/auth/register.tsx:16-27 | the form passes exactly when both names have 2 characters, the password passes and the confirmation equals it; each field's message appears exactly when its rule fails ("First name required", "Last name required", "Passwords don't match" and the password rule's own), and a mismatch is shown on the confirmation field |
| Validators.ResetPasswordError | app/auth/reset-password.tsx:20-35 | the reset proceeds exactly when both fields are filled, equal and 8 long; otherwise the first failure wins: required, then mismatch, then short |
| Validators.ResetIsWeakerThanRegister | app/auth/reset-password.tsx:31-35 | every password registration accepts passes the reset checks, and "abcdefgh" passes the reset checks but fails registration for want of a digit |
| Flow.Transition | app/auth/entry.tsx:53-67 | the edges of the flow: nothing leads back to the splash; post-login is left only by logging out to entry and is reached only from the splash or the password step; only the splash, a finished registration or reset, and a logout lead to entry; a code is asked for only from entry or forgot-password; the identifier travels unchanged out of the password and OTP steps |
| Flow.GuardedSteps | app/auth/otp.tsx:33-44 | along any run of the flow the splash is never re-entered, post-login is entered only from the password step or the splash, registration only from a register-context OTP check on the same identifier and kind, and the reset screen only from an OTP check in another context on the same identifier |
| AuthEntry.NextLanguage | app/auth/entry.tsx:44 | the language toggle gives 'ar' exactly from 'en', and 'en' from anything else |
| AuthEntry.EntryScreen.constructor | app/auth/entry.tsx:29-30 | the entry screen starts in phone mode, not loading |
| AuthEntry.EntryScreen.SelectKind | app/auth/entry.tsx:29 | the phone/email switch sets the kind the schema and calls use |
| AuthEntry.EntryScreen.Submit | app/auth/entry.tsx:50-78 | a schema failure submits nothing; otherwise the existence check is made, and a code is sent only to an unknown identifier; known goes to Password, sent goes to OTP with context 'register', a send failure alerts the message or 'Failed to send OTP', a throw alerts 'An error occurred'; the calls run while loading, loading is false after, and the step is an edge of the flow |
| AuthOtp.OtpScreen.VerifyEnabled | app/auth/otp.tsx:80 | the verify button is enabled only for a code of exactly 4 characters; the verify handler calls the backend exactly when the button was enabled |
| AuthOtp.OtpScreen.CodeChanged | app/auth/otp.tsx:72 | the screen's code is the one the digit boxes report |
| AuthOtp.OtpScreen.Resend | app/auth/otp.tsx:85 | the resend link sends one more code to the same identifier and kind, and changes nothing else on the screen |
| AuthOtp.OtpScreen.HandleVerify | app/auth/otp.tsx:25-54 | a code that is not 4 long changes nothing; otherwise (exactly when VerifyEnabled held) verifyOtp is called once; success goes to Register in the 'register' context and otherwise to ResetPassword with the code as token; a failure sets the error flag and alerts the message or 'Invalid Code'; a throw sets the error flag; loading is false after |
| AuthPassword.PasswordScreen.SetPassword | app/auth/password.tsx:62 | the field holds what was typed |
| AuthPassword.PasswordScreen.HandleLogin | app/auth/password.tsx:23-44 | an empty password sets 'errors.required' and calls nothing; otherwise the error is cleared and login is called once; success replaces the screen with post-login; a failure shows the message or 'errors.generic'; a throw shows 'errors.generic'; loading is false after |
| AuthPassword.PasswordScreen.ForgotPasswordLink | app/auth/password.tsx:68 | the link pushes the forgot-password screen with the same identifier |
| AuthRegister.Payload | app/auth/register.tsx:51-58 | the identifier is the email exactly for the email kind and the phone exactly for the phone kind, never both; the type is tenant; names and password come from the form |
| AuthRegister.RegisterScreen.Submit | app/auth/register.tsx:48-73 | a form the schema rejects shows its messages and calls nothing; otherwise register is called once with the payload; success alerts 'Account created! Please login.' and dismisses to the entry screen; a failure alerts the message or 'Registration failed'; a throw alerts 'Error creating account'; loading is false after |
| AuthResetPassword.ResetPasswordScreen.SetFields | app/auth/reset-password.tsx:16-17 | the two fields hold what was typed |
| AuthResetPassword.ResetPasswordScreen.HandleReset | app/auth/reset-password.tsx:20-53 | the first failing check is alerted and nothing is called; only a filled, equal, long-enough pair calls the reset, once; success alerts and dismisses to the entry screen; a failure alerts the message or 'errors.generic'; a throw alerts 'errors.generic' |
| AuthForgotPassword.ForgotPasswordScreen.constructor | app/auth/forgot-password.tsx:16-17 | the route keeps the forwarded identifier, the identifier field starts empty, not loading |
| AuthForgotPassword.ForgotPasswordScreen.SetIdentifier | app/auth/forgot-password.tsx:16 | the field holds what was typed |
| AuthForgotPassword.ForgotPasswordScreen.HandleSend | app/auth/forgot-password.tsx:19-40 | an empty identifier changes nothing; otherwise one code is sent to the kind given by the `@` rule; success goes to OTP with context 'forgot-password' and that kind; a failure alerts the message or 'Failed to send code'; a throw alerts 'Error'; loading is false after |
| OtpInputBox.JoinLength | src/components/ui/OTPInput.tsx:16 | with at most one character per slot, the joined code is as long as the number of filled slots |
| OtpInputBox.FilledAll | src/components/ui/OTPInput.tsx:12 | every slot counts as filled exactly when none is empty |
| OtpInputBox.ZeroFilled | src/components/ui/OTPInput.tsx:12 | a buffer of empty strings has no filled slot |
| OtpInputBox.Join | src/components/ui/OTPInput.tsx:16 | `code.join('')` of no slots is empty; the code starts with the first slot and ends with the last |
| OtpInputBox.CodeCompleteIffAllFilled | src/components/ui/OTPInput.tsx:16 | the joined code reaches the full length exactly when every slot holds a character |
| OtpInputBox.JoinInOrder | src/components/ui/OTPInput.tsx:16 | when every slot holds one character, the code's i-th character is the i-th slot's |
| OtpInputBox.OtpInput.constructor | src/components/ui/OTPInput.tsx:11-12 | the buffer starts as `length` empty slots, focus on the first, and the reported code is empty |
| OtpInputBox.OtpInput.Default | src/components/ui/OTPInput.tsx:11-12 | with no length given the buffer has 4 empty slots, focus on the first, and the reported code is empty |
| OtpInputBox.OtpInput.HandleChangeText | src/components/ui/OTPInput.tsx:19-27 | only the slot at `index` is replaced; focus moves to `index+1` exactly when the text is non-empty and `index` is not the last slot |
| OtpInputBox.OtpInput.HandleKeyPress | src/components/ui/OTPInput.tsx:29-33 | Backspace on an empty slot after the first moves focus back one; nothing else moves and the slots are untouched |
| Splash.SessionCheck | app/index.tsx:19-33 | with the flag off, or a lookup error, or no session: no session and no profile; with a session, a profile exactly when the table read succeeds and one row has the session's user id |
| Splash.SplashRoute | app/index.tsx:50-59 | the route is post-login exactly when the check answered with a session and a profile, and the entry screen otherwise |
| Splash.PostLoginExactlyWithProfile | app/index.tsx:26-32 | with unique ids, startup lands on post-login exactly when the live backend has a session whose user has a profile row and the table read succeeds |
| Splash.CheckSession | app/index.tsx:42-59 | the splash replaces itself with post-login exactly when the check did not time out and found a session and a readable profile, and with the entry screen otherwise; either way along an edge of the flow from the splash |
| I18n.DetectLanguage | src/i18n/index.ts:38-50 | the stored language when one is stored and non-empty; 'en' when none is stored or the read fails |
| I18n.LanguageStore.CacheUserLanguage | src/i18n/index.ts:51-53 | the language is written under 'user-language' and nothing else changes |
| I18n.CachedLanguageIsDetected | src/i18n/index.ts:40-53 | a non-empty language the cache wrote is what the detector reads back |
| I18n.NatToString | src/i18n/index.ts:87 | `now.toString()` is a non-empty string of digits without a leading zero |
| I18n.ParseInt | src/i18n/index.ts:70 | `parseInt(stored, 10)` is NaN exactly when the text, after leading white space and one sign, does not start with a digit; without a minus sign the number is not negative |
| I18n.ParseIntOfNatToString | src/i18n/index.ts:70 | `parseInt` of a stamp's decimal text gives the stamp back |
| I18n.LastReload | src/i18n/index.ts:67-70 | the guard reads 0 when no stamp (or an empty one) is stored, and NaN exactly when a stored stamp is not a number |
| I18n.ReloadDue | src/i18n/index.ts:79 | a NaN stamp never blocks a reload; otherwise a reload is due exactly when at least 180000 ms have passed since the stamp, which with no stamp means since time 0 |
| I18n.StampBlocksWithinWindow | src/i18n/index.ts:79-88 | after the guard stamps `t`, another reload is due exactly when at least 180000 ms have passed since `t` |
| I18n.WebPage.HandleWebReload | src/i18n/index.ts:60-94 | a read failure, a reload inside the window or a write failure sets the page direction from `isRTL`, does not reload and leaves the stamp alone; otherwise the stamp becomes `now` and the page reloads once |
| I18n.RtlManager.OnLanguageChanged | src/i18n/index.ts:143-157 | right-to-left is forced, to whether the language is 'ar', exactly when that differs from the current state; the web then runs the reload guard and native requests one reload; otherwise nothing changes |
| Scenarios.NewEmailUserReachesRegister | app/auth/entry.tsx:60-67 | with the mock, "new@test.com" is unknown, goes to OTP with context 'register', and the mock code takes it to registration with identifier and kind kept |
| Scenarios.KnownIdentifierSkipsOtp | app/auth/entry.tsx:53-59 | with the mock, a valid identifier containing "exist" goes straight to the password step and no code is ever sent |
| Scenarios.MockLoginOutcome | src/services/auth.service.ts:129-132 | with the mock, the password "password" reaches post-login, and any other non-empty password stays with "Invalid credentials" |
| Scenarios.LiveLoginCarriesProfile | src/services/auth.service.ts:112-125 | a live login of a user with a landlord profile row returns that row's type and names |

## Left out

- Rendering, styles, icons, animation, and console logging. src/components/ui/Button.tsx, src/components/ui/Input.tsx and src/theme/index.ts are presentational and are not part of this model.
- The social-login buttons on the entry screen: their handlers are empty.
- app/_layout.tsx is not part of this model. It waits for i18n start-up on a timer.
- src/config.ts is not part of this model: the backend flag is the `useSupabase` constructor parameter.
- The Supabase client (`src/lib/supabase`) is not part of this model. The answers of its auth primitives and of the RPC are parameters of the operation that awaits them. Reads of the `profiles` table are computed from the modelled table. Each read's refusal (for example by row-level security) is the parameter `readFails`: a refused read yields no row, as `data: null` does in the source.
- Validators.IdentifierError: the library's email format check cannot be seen, so its verdict is the parameter `emailWellFormed`.
- Auth.AuthService.CheckUserExists: the RPC's check is the backend's own, so its answer is a parameter. `.single()` is modelled as "exactly one row matched", and an RPC answer of `null` as `None`.
- Auth.AuthService.Register: a session that `signUp` may open as a side effect is not modelled. The profile insert's outcome is the parameter `insert`; a failed insert is only logged in the source. The table's primary key on `id` is assumed: an insert for an id that already has a row is refused, which the comment at src/services/auth.service.ts:185 relies on.
- Auth.AuthService.Login: the profile spread carries only the modelled columns (id, email, phone, names, type). Other columns of `select('*')` are not modelled.
- Auth.AuthService.VerifyOtp: the identity the backend verifies is its own. The model takes the user id and session it answers with.
- The mock's artificial latencies, the splash's 2 s minimum delay and 5 s timeout, and the 50 ms delay before a language change. Only their outcomes matter: the timeout is the parameter `timedOut` of Splash.CheckSession.
- AppPostLogin.PostLoginScreen.HandleLogout: the sign-out goes to the backend client directly, not through the adapter. It is counted as one request; its effect on the client's session is not modelled.
- Splash.CheckSession: the outer catch of app/index.tsx:56-59 is folded into the timed-out case, which routes to the entry screen in the same way.
- I18n.RtlManager.OnLanguageChanged: `I18nManager.allowRTL`/`forceRTL` are recorded as the value forced. The native reload (`DevSettings.reload` in development, `Updates.reloadAsync` in production) is counted as one requested reload. Its failure, which is only logged, is not modelled.
- I18n.WebPage.HandleWebReload: `window.location.reload()` is counted as one reload. `Date.now()` is the parameter `now`. Storage failures are the parameters `readFails` and `writeFails`.
- I18n.ParseInt: JavaScript numbers are doubles. The model's integers are exact, which matches for every timestamp up to 2^53.
- Translation resources and `i18n.init` configuration. Messages shown through `t(...)` are modelled by their keys.
- Lengths (the 8-character phone and password minimums, the 2-character names, the 4-character code) are counted in Unicode characters. JavaScript counts UTF-16 code units, so a character outside the Basic Multilingual Plane counts twice in the source.
- Handlers require `!loading`: the source's button is disabled while loading, so a second press during a call cannot happen.
- Navigation-stack mechanics: only the target route and the kind of navigation (push, replace, dismiss-all-and-replace) are modelled.
