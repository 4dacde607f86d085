# Customer payments portal — a Dafny model

The portal lets account holders register and log in. Users with the role
`employee` submit international payment instructions. Users with the role
`admin` verify each payment and then mark it as submitted to SWIFT. This
project models the decisions the portal makes and proves properties of them:

- **Transaction workflow** (`ledger.dfy`, module `Ledger`). The transaction
  collection is a map from id to record. The three changes are create
  (`/api/pay`), verify and submit. Across any sequence of them,
  `submittedToSwift ⇒ verified` holds, no record is lost, and no flag goes back
  to false.
- **Server routes** (`server.dfy`, module `Server`). The class `Portal` holds the
  user list (starting with any seeded users, such as the admin of the setup
  script) and the transaction map. Its methods are the routes: register,
  login, pay, and the admin routes behind `verifyToken` and
  `requireRole('admin')`. Each method changes the store exactly as the
  `Ledger` functions say. Login finds the first user with the account number
  and checks the password against that user's digest. It then signs
  `{userId, role}` with a one-hour expiry.
- **Token middleware** (`verify_token.dfy`, module `Auth`). The token is
  JavaScript's `split(' ')[1]` of the Authorization header. The code does not
  check the scheme word of the `Bearer` scheme (section 2.1 of RFC 6750). The
  middleware answers 401 or 403, or it sets `req.user` and calls `next` once.
- **Client checks** (`patterns.dfy`, `register_form.dfy`, `app.dfy`). The two
  regular expressions are written as data over a small regular-expression
  language and proved equal to plain character shapes. One is the SWIFT/BIC
  layout of ISO 9362, in the stricter form the code uses. The other is the
  account-number check. The client model also covers session restore from
  storage, login, registration and logout, the `onPay` guard, which view shows
  for which role, and the buttons of the admin table.

Outside facilities become parameters:

- `bcrypt.hash` is the symbolic `Server.Hash`. Its random salt is a parameter.
- `jwt.sign` is `sign: Claims -> string`.
- `jwt.verify`, which checks the signature against the secret and the expiry
  against the clock, is `verify: string -> Option<Claims>`.
- `requireRole('admin')` is `requireRole: Claims -> bool`.
- The clock is `now`.

Where the code does something one might not expect, the model follows the
code:

- Verify with an unknown id answers 200 with `tx` null. One might expect 404,
  as submit answers.
- `/api/pay` has no token guard.
- `onRegister` stores the token, id and role that the register reply does not
  carry, as the text "undefined" (`App.RegisterThenReload`).

## Model

| member | source | states |
|---|---|---|
| `Patterns.ClassTimes` | customer-payments-portal/client/src/App.js:331 | `[k]{n}` matches exactly the strings of length n drawn from class k |
| `Patterns.ClassPlus` | customer-payments-portal/client/src/Register.js:11 | `[k]+` matches exactly the non-empty strings drawn from class k |
| `Patterns.ClassTimesThen` | customer-payments-portal/client/src/App.js:331 | a fixed-width class run in front of another pattern consumes exactly its width |
| `Patterns.SwiftPatternShape` | customer-payments-portal/client/src/App.js:331 | the SWIFT/BIC literal accepts exactly: length 8 or 11, upper-case letters in positions 1–6, upper-case letters or digits after that |
| `Patterns.SwiftLength` | customer-payments-portal/client/src/App.js:331 | only strings of length 8 or 11 pass |
| `Patterns.SwiftRejects` | customer-payments-portal/client/src/App.js:331 | a lower-case letter anywhere, or a digit in the first six positions, fails the pattern |
| `Patterns.AccountNumberShape` | customer-payments-portal/client/src/Register.js:11 | the account-number literal accepts exactly the non-empty strings of A–Z, a–z, 0–9 |
| `Auth.Split` | customer-payments-portal/server/middleware/verifyToken.js:5 | `split(' ')` yields at least one separator-free piece, exactly one iff the separator is absent, and joining the pieces gives the input back |
| `Auth.SplitAfterWord` | customer-payments-portal/server/middleware/verifyToken.js:5 | a separator-free word followed by the separator is the first piece |
| `Auth.SplitJoin` | customer-payments-portal/server/middleware/verifyToken.js:5 | splitting the join of separator-free pieces gives the pieces back (inverse of `Split`'s round trip) |
| `Auth.BearerToken` | customer-payments-portal/server/middleware/verifyToken.js:5 | a token exists iff the header is present and contains a space; it never contains a space |
| `Auth.Guard` | customer-payments-portal/server/middleware/verifyToken.js:4-14 | absent header ⇒ 401; 401 iff the second segment is missing or empty; 403 only when `verify` rejects the token; pass only with the claims `verify` decoded from the token |
| `Auth.SchemeNotInspected` | customer-payments-portal/server/middleware/verifyToken.js:5 | any space-free first word gives the same token: the first segment after the first space |
| `Auth.LaterSegmentsIgnored` | customer-payments-portal/server/middleware/verifyToken.js:5 | segments after the second are ignored |
| `Auth.BearerRoundTrip` | customer-payments-portal/server/middleware/verifyToken.js:5-13 | `Bearer <t>`, with t non-empty and space-free, reaches `verify` with exactly t; the decision is then pass or 403 by `verify(t)` |
| `Auth.MalformedHeadersAreMissing` | customer-payments-portal/server/middleware/verifyToken.js:5-6 | `"Bearer"`, `"Bearer "` and `"Bearer  x"` all answer 401 |
| `Auth.VerifyToken` | customer-payments-portal/server/middleware/verifyToken.js:4-14 | exactly one of: 401 "Missing token", 403 "Invalid token" (both leave `req.user` unset and `next` uncalled), or `req.user` = decoded claims and `next` called once |
| `Ledger.EvolvesTransitive` | customer-payments-portal/server/index.js:67-68 | "flags only rise, other fields unchanged" composes across steps |
| `Ledger.Create` | customer-payments-portal/server/index.js:127-132 | one new record under a new id with both flags false, the body's fields stored as given, the timestamp `now`; other records unchanged; the invariant is kept |
| `Ledger.Verify` | customer-payments-portal/server/index.js:150-153 | for a known id, `verified` is true and nothing else of any record changes, and the updated record is returned; for an unknown id, the store is unchanged and the result is null; the invariant is kept |
| `Ledger.Submit` | customer-payments-portal/server/index.js:160-171 | 404 iff the id is unknown, 400 iff the record is unverified, both with the store unchanged; otherwise `submittedToSwift` is raised and nothing else changes; 200 only on a verified record |
| `Ledger.VerifyIdempotent` | customer-payments-portal/server/index.js:152 | verifying twice equals verifying once |
| `Ledger.SubmitIdempotent` | customer-payments-portal/server/index.js:165-171 | a successful submit repeated answers 200 again with the same store |
| `Ledger.RecordsBelow` | customer-payments-portal/server/index.js:142 | the records with id below n, each once, in increasing id order |
| `Ledger.Listing` | customer-payments-portal/server/index.js:140-143 | the list contains every stored record, contains only stored records, and has no repeats |
| `Ledger.RunKeepsInvariant` | customer-payments-portal/server/index.js:127-171 | across any sequence of create/verify/submit, `submittedToSwift ⇒ verified` holds for every record, no record disappears, and no flag is cleared |
| `Ledger.SubmittedWasVerified` | customer-payments-portal/server/index.js:165-169 | an unverified record is never submitted by a sequence that does not verify it |
| `Ledger.HappyPath` | customer-payments-portal/server/index.js:127-171 | create, then submit, answers 400 and changes nothing; create, verify, submit ends with both flags true |
| `Server.FirstByAccount` | customer-payments-portal/server/index.js:99 | `findOne`: the first user with the account number, or none exactly when no user has it |
| `Server.Authenticate` | customer-payments-portal/server/index.js:99-106 | fails iff no user has the account number, or the first such user's digest does not match the password; on success it is exactly that first user (the one `findOne` returns, whose id and role the reply carries), with a matching digest |
| `Server.SeededAdmin` | customer-payments-portal/server/createAdmin.js:20-27 | the seeded user has role `admin`, account `admin001`, and a digest that `adminTest123` matches |
| `Server.SeededAdminLogsIn` | customer-payments-portal/server/createAdmin.js:20-29 | in a store that starts with the seeded admin, login as `admin001` with `adminTest123` yields that admin, whatever users are registered after it |
| `Server.Portal.constructor` | customer-payments-portal/server/createAdmin.js:19-29 | the server starts with the users already inserted (such as the seeded admin), no transactions, and its invariant holding |
| `Server.SessionClaims` | customer-payments-portal/server/index.js:108-112 | the signed claims are the user's id and role, with `exp` one hour after `iat` (section 4.1.4 of RFC 7519) |
| `Server.RegisteredUserLogsIn` | customer-payments-portal/server/index.js:81-106 | after registering a new account number, login with that password yields the new user, whose role is `employee` |
| `Server.DuplicateIsShadowed` | customer-payments-portal/server/index.js:82-99 | registering a duplicate account number changes no login decision for it: only the first matching user is ever checked |
| `Server.LoginTokenPassesGuard` | customer-payments-portal/server/index.js:108-119 | the issued token, sent back as `Bearer <token>`, passes `verifyToken` with the user's id and role when `verify` accepts it |
| `Server.Portal.Register` | customer-payments-portal/server/index.js:77-90 | appends one user with role `employee` and the digest of the password, never the password; no duplicate check; transactions untouched; answers 201 |
| `Server.Portal.Login` | customer-payments-portal/server/index.js:95-124 | 401 iff `Authenticate` fails, in particular for an unknown account number; on success the reply's id and role are the stored user's, and the token is signed over the same pair with a one-hour expiry |
| `Server.Portal.Pay` | customer-payments-portal/server/index.js:127-137 | with no guard, the store becomes `Ledger.Create` of the body; answers 201 |
| `Server.Portal.VerifyTransaction` | customer-payments-portal/server/index.js:150-157 | state and reply are those of `Ledger.Verify` |
| `Server.Portal.SubmitTransaction` | customer-payments-portal/server/index.js:160-175 | state and reply are those of `Ledger.Submit` |
| `Server.Portal.AdminRoute` | customer-payments-portal/server/index.js:140-175 | a request stopped by `verifyToken` or `requireRole` leaves the store unchanged; otherwise list, verify and submit behave as `Ledger` says; the invariant and flag monotonicity hold |
| `RegisterForm.HandleChange` | customer-payments-portal/client/src/Register.js:7 | the named field takes the new value and every other field keeps its old value |
| `RegisterForm.HandleSubmit` | customer-payments-portal/client/src/Register.js:9-13 | the register request (the whole form) is sent iff the account number passes the pattern; otherwise the handler alerts and returns before any request |
| `RegisterForm.SubmitDecision` | customer-payments-portal/client/src/Register.js:11-13 | the request is sent exactly for a non-empty account number made only of ASCII letters and digits |
| `RegisterForm.EmptyAccountNumberRejected` | customer-payments-portal/client/src/Register.js:11-12 | the empty account number is rejected |
| `RegisterForm.ForeignCharacterRejected` | customer-payments-portal/client/src/Register.js:11-12 | any character outside A–Z, a–z, 0–9 makes the account number invalid |
| `RegisterForm.OtherFieldsDoNotMatter` | customer-payments-portal/client/src/Register.js:7-12 | editing another field does not change the submit decision |
| `RegisterForm.FieldsStayPresent` | customer-payments-portal/client/src/Register.js:5-7 | from the initial state, every sequence of edits keeps the four fields present |
| `App.RestoreSession` | customer-payments-portal/client/src/App.js:160-169 | a user is restored iff all four keys hold non-empty text, and the restored user is built from those keys |
| `App.SessionStorage` | customer-payments-portal/client/src/App.js:55-58 | the four keys are set from the reply (absent values as "undefined"), and other keys keep their values |
| `App.LoginSurvivesReload` | customer-payments-portal/client/src/App.js:55-168 | after a login reply with token, id and role, a reload restores exactly the user `onLogin` set |
| `App.RegisterThenReload` | customer-payments-portal/client/src/App.js:80-89 | after a register reply (message only), the user is shown the payment form but `onPay` refuses; after a reload the restored role is "undefined" and no view shows |
| `App.LoginRoleSelectsView` | customer-payments-portal/client/src/App.js:55-364 | a login reply carrying the role text `employee` or `admin` shows the payment form exactly to the employee and the admin panel exactly to the admin, before and after a reload, and `onPay` proceeds |
| `App.ViewsExclusive` | customer-payments-portal/client/src/App.js:203-364 | at most one of the login/register forms, the payment form and the admin panel shows; any other role sees none |
| `App.Client.StartSession` | customer-payments-portal/client/src/App.js:55-64 | storage and user become `SessionStorage` and `SessionUserFrom` of the reply |
| `App.Client.OnLogin` | customer-payments-portal/client/src/App.js:49-72 | a failed request changes nothing; a reply starts the session |
| `App.Client.OnRegister` | customer-payments-portal/client/src/App.js:74-97 | the same as `OnLogin`, on the register reply |
| `App.Client.Logout` | customer-payments-portal/client/src/App.js:154-158 | storage is cleared and there is no user, so a reload restores nothing and the login forms show |
| `App.Client.OnPay` | customer-payments-portal/client/src/App.js:99-109 | with no logged-in user id, no request; otherwise the form is posted with `userId` replaced by the user's id and other fields unchanged, with `Bearer <stored token>` |
| `App.VerifiedCell` | customer-payments-portal/client/src/App.js:395-403 | the Verify button shows exactly when `verified` is false, and targets the row's id |
| `App.SubmittedCell` | customer-payments-portal/client/src/App.js:406-416 | the Submit button shows exactly when `verified` is true and `submittedToSwift` is false; an unverified, unsubmitted row shows nothing |
| `App.ButtonsAgreeWithServer` | customer-payments-portal/client/src/App.js:395-416 | a shown Submit button is accepted by the server; a row still offering Verify would be answered 400, and after verifying it offers Submit; after submitting it shows "Submitted" |
| `App.SwiftFieldValid` | customer-payments-portal/client/src/App.js:329-334 | the field is accepted iff it is empty or has the SWIFT/BIC shape |

## Left out

- Storage failures and cast errors (every 500 branch in server/index.js) are left out. The model has no failing database.
- Transaction ids come from a counter. Real ObjectId generation is left out, and so is an id string that is not an ObjectId. `find()` order is modelled as id order.
- `Server.FirstByAccount`: among several users with the same account number, `findOne` without a sort returns one in the store's natural order, which the database does not guarantee. The model takes the first inserted one, and `Server.DuplicateIsShadowed` depends on that choice.
- `requireRole` is not part of this model. It is the parameter `requireRole: Claims -> bool`, and the status it answers with is not modelled.
- `Server.Compare`: bcrypt is modelled symbolically. A digest records its cost, its salt and the password it came from, and compare means "made from this password". One-wayness and collisions are not modelled.
- `Auth.Guard`: JWT signature and expiry checking is the parameter `verify`. So the model does not show, on its own, that a token older than one hour is rejected. It shows only that the issued claims carry `exp = iat + 3600` (`Server.SessionClaims`).
- JWT signing is the parameter `sign`. The `iat` claim is the parameter `now`, in seconds. The server's secret is inside `sign` and `verify`.
- `amount` is a JavaScript number. It is modelled as a `real` that is stored as given, with no numeric behaviour.
- Body fields of the wrong type, and absent `userId`, `currency` or `provider`, are not modelled. Only `swiftCode` and `accountInfo` may be absent.
- Concurrent requests are left out, including the read-modify-write of submit. Each route runs alone.
- Security middleware is left out: CORS, helmet, CSP, HSTS, hpp and rate limiting.
- Logging and the Mongo connection are left out.
- React rendering, the `loading` flag, toasts, form resets and axios transport are left out.
- The admin effect that fetches transactions on login is left out. The two admin click handlers only call the routes modelled here.
- The alert after a successful post in Register.js is left out. It is UI only.
- Payment.js is not part of this model. It is form state around the same `/api/pay` request.
- The connection and save steps of createAdmin.js are left out. Only the user it inserts is modelled (`Server.SeededAdmin`), as a user the `Portal` starts with.
