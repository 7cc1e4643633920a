# mern-auth: account lifecycle, session gates and OTP entry in Dafny

This project models the core of a small user-account service (an Express server
over a Mongo store, with a React client):

- **Accounts** (`accounts.dfy`): the auth controller as a class `AccountStore`
  holding the map from account id to user document. Its methods `Register`,
  `Login`, `Logout`, `SendVerifyOtp` and `VerifyEmail` run the controller's
  guards in the source's order. Each guard has its status and message. A
  failing guard leaves the store unchanged. Only the successful paths update
  one record in place. Every mutating method keeps the store invariant
  `Valid()`: ids below the allocation counter, unique emails, a pending code is
  six digits, a verified account has no pending code. Each also keeps
  `Evolves(old, new)`: no record disappears, name, email and hash never change,
  and `isAccountVerified` never goes back to false.
- **Decimal** (`decimal.dfy`): `String(n)` for the OTP draw, its inverse, and the
  proof that every draw in 100000–999999 gives a six-digit code and that every
  such code comes from exactly one draw.
- **AuthMiddleware** (`auth_middleware.dfy`) and **UserAuth** (`user_auth.dfy`):
  the two session gates. Each is a pure decision over cookie presence, the
  verifier's verdict and (for `authenticateToken`) the store. A method applies
  that decision to a `Request` object: it attaches `req.user` or `req.userId`
  and calls `next` only on acceptance.
- **UserController** (`user_controller.dfy`): `getUserData`'s lookup and
  three-field projection, and the user-data route with `userAuth` in front.
- **OtpEntry** (`otp_entry.dfy`): the client's six-slot code form as a class over
  a six-element array. It has the change, Backspace and paste handlers and the
  validated join on submit. The digit filter, last-digit choice, paste
  truncation, focus clamp and join are pure functions.
- **AccountScenarios** (`scenarios.dfy`): runs of the store that follow the
  sign-up and verification flow. They are proved from the method contracts
  alone.

Foreign collaborators are parameters:
- bcrypt is the pair of class constants `hash` and `matches`, with
  `matches(p, hash(p))` for every `p`.
- `jwt.sign` is represented by the claims it signs (`IssuedToken`: `{ id }`,
  one hour).
- `jwt.verify` is the `Verification` verdict a gate receives: `Verified(payload)`,
  `JsonWebTokenError`, `TokenExpiredError` or `OtherError`.
- `Math.random` is replaced by the integer draw. `Date.now()` is the `now`
  argument.
- Mail is a value handed to a sink. No operation reads the sink's outcome.

Request-body fields follow JavaScript falsiness. An `Option<string>` field is
`Missing` when it is absent or `""`.

The model follows the code as written, including:
- Both login and registration sign one-hour tokens and set one-hour cookies.
- Login answers "Invalid email" and "Invalid password" separately and returns
  no account summary.
- `userAuth` answers every verification failure with 500, not 401.
- `sendVerifyOtp`, `verifyEmail` and `getUserData` take the account id from
  `req.body.userId`, not from the session.
- `authenticateToken` attaches the document selected with `"password"`, so
  `req.user` holds just the id and the password digest (`SessionUser`).

The user schema is not part of this model. A new document is taken to start
unverified, with `verifyOTP` equal to `""` and `verifyOTPExpireAt` equal to `0`
(`NewAccount`).

## Model

| member | source | states |
|---|---|---|
| `Accounts.AccountStore.Register` | server/controllers/authController.js:14-64 | Any missing field gives 400 "All fields are required" and leaves the store unchanged. A taken email gives 400 "User already exists" and leaves it unchanged. Otherwise exactly one record is inserted under a fresh id, with the given name and email, `hash(password)` as its password, unverified, with no code. The reply is 201 with `success: true`, the session cookie and the token for that id. The welcome mail is returned for the sink; the reply and the new record do not depend on its delivery, since a send failure is caught and logged (lines 58-61). The store invariant and `Evolves` hold. |
| `Accounts.AccountStore.Login` | server/controllers/authController.js:79-103 | Missing email or password gives 400. An email with no record gives 401 "Invalid email". The record with that email gives 200 with that record's session cookie when `matches(password, hash)` holds, and 401 "Invalid password" otherwise. The method has no modifies clause, so the store is untouched. |
| `Accounts.AccountStore.Logout` | server/controllers/authController.js:113-124 | Always exactly 200, `success: true`, "Logout successful", the cookie cleared. No token is returned and the store is not touched. |
| `Accounts.AccountStore.SendVerifyOtp` | server/controllers/authController.js:130-147 | An absent or unknown user gives 404 with the store unchanged. A verified user gives 400 "Account already verified" with the store unchanged. Otherwise 200. The record's `verifyOTP` becomes `String(draw)`, a six-digit code whose value is the draw. `verifyOTPExpireAt` becomes `now + 3600000`. No other field or record changes. The OTP mail carries the stored code. |
| `Accounts.AccountStore.VerifyEmail` | server/controllers/authController.js:170-190 | The checks run in order, and each failure leaves the store unchanged: absent or unknown user or missing otp gives 404; already verified gives 400; stored code different from the one supplied, or empty, gives 400 "Invalid OTP"; `verifyOTPExpireAt < now` (strict) gives 400 "OTP expired". On success the reply is 200, the code becomes `""`, the expiry 0 and `isAccountVerified` true. Nothing else changes. |
| `Accounts.EvolvesTransitive` | server/controllers/authController.js:186-188 | The allowed-change relation composes across operations. Together with each method's `Evolves` clause, this means a verified account stays verified and identity fields stay fixed over any sequence of calls. |
| `Decimal.DecimalString` | server/controllers/authController.js:142 | `String(n)` is a non-empty digit string with no leading zero. |
| `Decimal.ParseDecimalString` | server/controllers/authController.js:142 | Parsing `String(n)` gives back `n`. |
| `Decimal.DecimalStringInjective` | server/controllers/authController.js:142-143 | Distinct draws store distinct codes, so a new request makes the previous code stop matching. |
| `Decimal.DecimalStringLength` | server/controllers/authController.js:142 | A number from 10^k to 10^(k+1)-1 has a decimal string of length k+1. |
| `Decimal.OtpCodeOfDraw` | server/controllers/authController.js:142-143 | Every draw in 100000–999999 is stored as a six-digit code, first digit not zero, that denotes the draw. |
| `Decimal.OtpCodeIsDraw` | server/controllers/authController.js:142 | Every six-digit code with a non-zero first digit is `String(d)` for exactly one draw `d` in range. |
| `Model.IssuedToken` | server/controllers/authController.js:39 | The token register (line 39) and login (line 95) sign: its payload carries the account's `id` and no `userId`, and it expires after one hour (3600000 ms). |
| `AuthMiddleware.FindWithPassword` | server/middleware/authMiddleware.js:21 | The lookup finds a user exactly when an id is given and is stored. It yields only that document's id and password digest. |
| `AuthMiddleware.Authenticate` | server/middleware/authMiddleware.js:7-56 | The gate passes exactly when all three hold: a token is present, it verifies, and the payload's `userId` names a stored record. It then yields that record. Every rejection has `success: false`. Missing token gives 401 `auth_error` "token missing". `JsonWebTokenError` gives 401 "invalid token". `TokenExpiredError` gives 401 "token expired". Any other error gives 500 `server_error`, the only 500. A verified payload with no stored record gives 401 "user not found". |
| `AuthMiddleware.MissingTokenDecidedAlone` | server/middleware/authMiddleware.js:9-15 | Without a token the answer depends on neither the verifier nor the store, so nothing is verified or looked up. |
| `AuthMiddleware.AuthenticateToken` | server/middleware/authMiddleware.js:31-32 | `req.user` is assigned and `next` is called only when the gate passes. A rejection returns the reply and leaves `req.user` and `next` as they were. `req.body`, `req.userId` and the cookie are untouched. |
| `AuthMiddleware.IssuedTokenRejected` | server/middleware/authMiddleware.js:21 | As written, every token the controller signs (`{ id }`) gets 401 "user not found", whatever the store holds. |
| `AuthMiddleware.AuthenticateById` | server/middleware/authMiddleware.js:21 | The gate with the lookup keyed by the payload's `id`. It passes exactly when the token is present, verifies and the id is stored. A verified token whose id is not stored gets 401 "user not found", and a missing token or a failed verification gets the reply of the gate as written. |
| `AuthMiddleware.IssuedTokenAccepted` | server/middleware/authMiddleware.js:21-32 | With the lookup by `id`, a token issued for a stored account passes and attaches that account. |
| `UserAuth.Check` | server/middlewares/userAuth.js:5-28 | Passes exactly when a token is present and verifies, and then carries the payload's `id`. No store is consulted, so existence is not checked. Missing token gives 401 `unauthorized`. Any verification failure gives 500 `auth_middleware_error`. Every rejection has `success: false`. |
| `UserAuth.BadTokensIndistinguishable` | server/middlewares/userAuth.js:21-28 | Invalid, expired and other failures get the same reply, 500. This gate has no 401 path for a bad token. |
| `UserAuth.UserAuth` | server/middlewares/userAuth.js:17-20 | On acceptance `req.userId` is the payload's `id` and `next` is called. Otherwise the reply is returned and `req.userId` and `next` are as they were. `req.body` and `req.user` are never modified. |
| `UserController.GetUserData` | server/controllers/userController.js:5-17 | An absent or unknown `userId` gives 404 with `success: false`. A found record gives 200 with `userData` holding exactly its name, email and `isAccountVerified`. The function reads the store and never writes it. |
| `UserController.ReplyIgnoresSecrets` | server/controllers/userController.js:10-17 | Two stores that differ only in a record's password digest or OTP fields give the same reply, so neither reaches the response. |
| `UserController.UserDataRoute` | server/routes/userRoutes.js:7 | The route as written: exactly when `userAuth` rejects, the answer is that gate's own reply; otherwise it is the controller's reply for `req.body.userId`. |
| `UserController.SessionIgnored` | server/controllers/userController.js:5 | As written, a valid session for a stored account still gets 404 when the body names no user. |
| `UserController.UserDataRouteFromSession` | server/middlewares/userAuth.js:18 | The route with the controller reading the id the gate attached: exactly when `userAuth` rejects, the answer is that gate's own reply; otherwise it is the controller's reply for the payload's `id`. |
| `UserController.SessionServed` | server/controllers/userController.js:5-17 | With the session's id, a token issued for a stored account yields 200 with that account's projection. |
| `OtpEntry.KeepDigits` | client/src/pages/EmailVerify.jsx:35 | The filter yields only digits and is no longer than its input. With `KeepDigitsChar` and `KeepDigitsAppend` it is exactly the input's digits in input order, so a filter that drops a digit or reorders them does not match these lemmas. |
| `OtpEntry.KeepDigitsChar` | client/src/pages/EmailVerify.jsx:35 | A one-character input is kept exactly when it is a digit, and dropped otherwise. |
| `OtpEntry.KeepDigitsAppend` | client/src/pages/EmailVerify.jsx:35 | Filtering a concatenation is the concatenation of the filtered parts. With `KeepDigitsChar` this fixes the filter as the input's digits, all of them, in input order. |
| `OtpEntry.KeepDigitsOfDigits` | client/src/pages/EmailVerify.jsx:60 | The filter leaves a digit string unchanged. |
| `OtpEntry.KeepDigitsEmpty` | client/src/pages/EmailVerify.jsx:36 | The filtered value is empty exactly when the input contains no digit. |
| `OtpEntry.KeepDigitsLast` | client/src/pages/EmailVerify.jsx:37 | The last filtered character is the input's last digit. |
| `OtpEntry.ChangedSlot` | client/src/pages/EmailVerify.jsx:35-43 | The value a change stores is `""` exactly when the input has no digit. Otherwise it is the input's last digit. Either way it is `""` or one digit. |
| `OtpEntry.Pasted` | client/src/pages/EmailVerify.jsx:60 | The kept paste is a prefix of the filtered text, of length min(6, digits). |
| `OtpEntry.PastedSlots` | client/src/pages/EmailVerify.jsx:61-63 | A paste leaves six slots. |
| `OtpEntry.PasteFocus` | client/src/pages/EmailVerify.jsx:64 | The focus after a paste is min(kept length, 5). It is always a slot index below 6. |
| `OtpEntry.Join` | client/src/pages/EmailVerify.jsx:86 | `formData.otp.join("")`: when every slot holds one character, the joined code is exactly as long as the slot count. |
| `OtpEntry.JoinOfSlots` | client/src/pages/EmailVerify.jsx:86 | Slots that are each `""` or one digit join to a digit string no longer than the slot count. |
| `OtpEntry.JoinOfFilled` | client/src/pages/EmailVerify.jsx:86 | Filled slots join to a string of the same length whose character `i` is slot `i`'s digit. |
| `OtpEntry.PasteThenJoin` | client/src/pages/EmailVerify.jsx:60-63 | Pasting text with at least six digits and then joining gives exactly its first six digits. |
| `OtpEntry.IssuedCodeSubmitted` | client/src/pages/EmailVerify.jsx:58-64 | A code drawn by the server (100000–999999), pasted into the form, is submitted unchanged. |
| `OtpEntry.OtpForm.constructor` | client/src/pages/EmailVerify.jsx:18-20 | The form starts with six empty slots. |
| `OtpEntry.OtpForm.HandleChange` | client/src/pages/EmailVerify.jsx:34-44 | Only slot `index` changes, and it becomes `ChangedSlot(input)`. Focus moves to `index+1` exactly when a digit was stored and `index < 5`. Every slot stays `""` or one digit. |
| `OtpEntry.OtpForm.HandleKeyDown` | client/src/pages/EmailVerify.jsx:46-56 | On Backspace in an empty slot with `index > 0`, focus moves to `index-1` and no slot changes. On any other Backspace the slot is cleared and no other slot changes. Other keys change nothing. |
| `OtpEntry.OtpForm.HandlePaste` | client/src/pages/EmailVerify.jsx:58-65 | Slot `i` receives kept digit `i` for each `i` below the kept length. Later slots are unchanged. The focus is `PasteFocus`. |
| `OtpEntry.OtpForm.Submit` | client/src/pages/EmailVerify.jsx:86 | A code is submitted exactly when every slot is filled, as the slot rules at line 31 require. It is the slots joined in order: six digits, character `i` from slot `i`. |
| `AccountScenarios.DuplicateRegistration` | server/controllers/authController.js:20-35 | Registering the same email twice: the first gives 201 with the token for id 0, the second gives 400 "User already exists", and exactly one record remains. |
| `AccountScenarios.VerificationWalkthrough` | server/controllers/authController.js:142-190 | After two code requests, the first code is "Invalid OTP". The second code is accepted at the last instant of its window (`now + 3600000`). A further confirmation is "Account already verified". |
| `AccountScenarios.ExpiredCode` | server/controllers/authController.js:182-184 | The right code one millisecond after its window gives "OTP expired". The record keeps the code and stays unverified (expiry is lazy). |
| `AccountScenarios.LoginAfterRegister` | server/controllers/authController.js:84-103 | After registration: an unknown email gives 401 "Invalid email"; the same password gives 200 with the session cookie; a password the digest does not match gives 401 "Invalid password". |

## Findings

| source | as written | input that shows it | evidently intended | confidence | as-written member | corrected member |
|---|---|---|---|---|---|---|
| server/middleware/authMiddleware.js:21 | the user is looked up by `decoded.userId`, but tokens are signed with payload `{ id }` (authController.js:39, 95) | any token issued by register or login, for a stored account: `userId` is undefined, so the gate answers 401 "user not found" | look the user up by `decoded.id`, so an issued token for a stored account passes | high (not executed) | `AuthMiddleware.IssuedTokenRejected` | `AuthMiddleware.IssuedTokenAccepted` |
| server/controllers/userController.js:5 | the handler reads `req.body.userId`, while `userAuth` attaches the id as `req.userId` and leaves the body alone (userAuth.js:18) | GET /get-user-data with a valid session for a stored account and no `userId` in the body: 404 "User not found" | read the id the gate attached (`req.userId`) | high (not executed) | `UserController.SessionIgnored` | `UserController.SessionServed` |

## Left out

- The 500 answers of the controllers' `catch` blocks: the store, bcrypt and the signer are modelled as operations that do not fail, so no exception reaches these blocks. The gates' error classification is modelled: the verifier's verdict is an input.
- Mongoose casting: an id is a natural number, so a malformed id (a cast error, then 500) cannot be written.
- JavaScript falsiness of non-string JSON values (`0`, `false`) in the body: fields are strings or absent.
- Cookie flags (`httpOnly`, `secure`, `sameSite`) depend on the environment and are not modelled. The cookie's token and one-hour max age are.
- JWT signatures and expiry checking: that is the verifier's verdict, passed in.
- bcrypt salting: `hash` is one injected function; only `matches(p, hash(p))` is assumed of it.
- The floating-point draw `Math.floor(100000 + Math.random() * 900000)`: replaced by an integer draw in 100000–999999.
- Mail delivery (nodemailer) and logging: each mail is returned as a value for the sink, and no operation depends on delivery.
- The second `res.status(200)` in `sendVerifyOtp`, after the mail (authController.js:159), writes to a response that was already sent. The model's reply is the 200 sent first (line 147).
- `findOne` by email: the model picks the record with the given email. It is unique by the store invariant.
- The password-reset operations (`sendResetOtp`, `resetPassword`), `isAuthenticated` and `getCurrentUser`: the routing table imports them, but authController.js does not define them, so there is nothing to model.
- Routing tables and the Express bootstrap (server.js, which mounts neither router), database connection and mail transport setup. The user-data route is modelled as the two-step chain described in server/routes/userRoutes.js.
- Concurrent requests racing on one record: each operation is one atomic step on the map.
- Client UI: markup, the `setTimeout`/`setFocus` timing (the focus target is returned instead), toasts, navigation and the axios call. That call posts the joined code under the key `otpDigits`, which the server's `verifyEmail` does not read.
- The react-hook-form rule check at EmailVerify.jsx:31 is modelled only as `Submit`'s all-slots-filled condition. Per-field error reporting is not modelled.
