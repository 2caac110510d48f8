# Kargo server back office, modelled in Dafny

This project models the request handlers of the Kargo logistics back
office. The model has four kinds of account: forwarder admins, customs
brokers (CHB), beneficial cargo owners (BCO) and platform admins. It covers:

- sign-up by activation token and mailed code, and sign-up by invitation link;
- logins that provision a chat id and a derived username;
- profile updates that merge into the stored row;
- a forwarder's importers and a BCO's suppliers (add, invite, edit, delete, page);
- the JWT gate in front of the routes and the error middleware;
- the express-validator rule lists.

The relational store is a record of tables. Each table is a map from
autoincrement ids to rows, plus the next id. Every handler is a pure
function from a request and a store to a `Step`: the reply, the new store,
and the calls made to the chat service and the mailer, in order. Secrets,
the clock, bcrypt, fresh ids and the JWT signature scheme are parameters
(`Ctx`). The model states what each handler does to the reply, the store
and the outside calls, on every branch the handler has.

Modules follow the source:

- `Tables`, `Schema`, `AccountStore`, `CompanyStore`, `BcoStore`,
  `OwnedStore`, `TierStore` and `Paging` model the ORM calls of the `db/`
  files.
- `Jws`, `Issuer` and `Invitation` model `utils/jwt.ts`.
- `Gate` models `middlewares/auth.ts`. `Errors` models the two error
  middlewares and `utils/dbError.ts`.
- `Short` and `Provision` model `utils/short.ts` and the login-time
  provisioning.
- `Chat` models the chat controller's calls.
- `AccountFlows`, `BcoFlows`, `ImporterFlows` and `AdminFlows` model the
  controllers.
- `Checks` and `Validators` model the validation files and
  `validationMiddleware.ts`.
- The `…Laws` modules hold the lemmas that relate several calls.

## Model

| member | source | states |
|---|---|---|
| Tables.Insert | db/authDBFunctions.ts:21-41 | a created row gets the next autoincrement id, which was free; the other rows are kept and validity is preserved |
| Tables.Put | db/authDBFunctions.ts:43-53 | an update rewrites exactly the row with that id |
| Tables.Delete | db/forwarderDBFunctions.ts:88-92 | `deleteMany` by id removes that row if present and only it |
| Tables.FindFirst | db/authDBFunctions.ts:5-11 | `findFirst` answers the lowest matching id, and answers nothing exactly when no row matches |
| Tables.FindMany | db/forwarderDBFunctions.ts:13-41 | `findMany` lists exactly the matching ids, in ascending order, without repeats |
| Tables.Window | db/forwarderDBFunctions.ts:98-105 | a skip/take window is refused for a negative skip or take; otherwise it holds the elements from `skip` on, at most `take` of them |
| Tables.CountMatching | db/forwarderDBFunctions.ts:121-125 | `count` equals the number of matching rows |
| Tables.CountAll | db/bcoDBFunctions.ts:244-269 | a filter every row passes counts the whole table |
| Tables.Excluding | db/forwarderDBFunctions.ts:26-28 | `NOT: { id }` keeps every id but the excluded one, in order |
| Tables.FindFirstAfterPut | db/authDBFunctions.ts:71-77 | rewriting the found row with another matching row does not change what `findFirst` finds |
| Schema.RouteId | controllers/bco.controllers.ts:573 | the route id is `parseInt` without a radix; NaN and values outside the 32-bit `Int` column both fail, and every other value is used as the id |
| Schema.RouteIdOfDecimal | db/bcoDBFunctions.ts:114 | a decimal id is used as is when it fits in 32 bits and fails otherwise |
| Schema.RouteIdOfHex | controllers/forwarder.controller.ts:197 | "0x10" is id 16, "-0x10" is id -16, and "0x" fails |
| Schema.FindById | db/authDBFunctions.ts:79-85 | `findUnique` with an undefined id fails; otherwise it finds the row exactly when it exists |
| Schema.AccountObj | db/authDBFunctions.ts:71-77 | the record of an account row carries its id and its stored columns |
| Schema.BcoObj | db/bcoDBFunctions.ts:62-72 | the record of a BCO row carries its id and its columns, and no related rows |
| Schema.BcoIncluding | db/bcoDBFunctions.ts:88-98 | `include: { company }` adds the company (and the contact when asked), or null when the link is missing |
| Schema.WithoutPassword | controllers/bco.controllers.ts:216 | `delete user.password` removes only that key |
| Paging.Paginate | db/forwarderDBFunctions.ts:94-154 | a page is refused only for a negative skip or size; it holds at most `pageSize` matching ids, all owned by the filter; its count is the number of matching rows |
| Paging.PageReply | controllers/forwarder.controller.ts:29-46 | a list answer is a 200 with the records and the total count, or the ORM error with the handler's status |
| Paging.DefaultsApply | db/forwarderDBFunctions.ts:95-96 | a missing, non-numeric or zero parameter takes its default (page 1, size 10); any other number is used as given |
| Paging.RenderedPage | db/forwarderDBFunctions.ts:95-98 | page and size given as decimal text are read back, and the skip is `(page - 1) * size` |
| Paging.FirstPageByDefault | db/forwarderDBFunctions.ts:95-105 | without parameters the page is the first ten matching rows |
| Paging.NegativePageRefused | db/forwarderDBFunctions.ts:95-105 | `page=-1` gives a negative skip and the query is refused; it is not clamped |
| Paging.PageContents | db/forwarderDBFunctions.ts:100-125 | page records are the filtered, id-ordered rows from position `skip`, at most `pageSize` of them, all of them when the window fits |
| Paging.PageWindow | db/forwarderDBFunctions.ts:95-105 | page `p` of size `s` is the window that starts at `(p - 1) * s` |
| Paging.EveryRowOnSomePage | db/forwarderDBFunctions.ts:94-154 | with a positive page size, every matching row lies on some page |
| Jws.Sign | utils/jwt.ts:15-19 | a signed token decodes to its claims under its secret and carries the expiry `now + ttl` |
| Jws.Verify | utils/jwt.ts:104-113 | a missing secret, an undecodable token or another secret is invalid; a correctly signed token is expired from its expiry on and otherwise gives its claims |
| Jws.SignThenVerify | utils/jwt.ts:93-113 | signing then verifying gives the claims back under the signing secret until `ttl` seconds have passed, and expired afterwards |
| Issuer.SignRoleToken | utils/jwt.ts:115-119 | each role's token is `{ id }` under that role's secret (unset becomes ""), valid one day |
| Issuer.SignRefreshToken | utils/jwt.ts:21-25 | the refresh token is `{ id }` under `ACCESS_TOKEN`, valid ten days |
| Issuer.RoleTokenVerifies | utils/jwt.ts:148-152 | a role token verifies under its own secret for one day; under another role's secret it verifies only if the two secrets are equal |
| Issuer.CrossRoleRejected | utils/jwt.ts:181-185 | with distinct role secrets, no role's token verifies under another role's secret |
| Issuer.ActivationCodeShape | utils/jwt.ts:77 | the activation code is four decimal digits, and parsing it gives back the number drawn |
| Issuer.CreateActivationToken | utils/jwt.ts:76-91 | the token carries the user and the code under `ACTIVATION_SECRET`, valid fifteen minutes, and the code returned is the one embedded |
| Issuer.ActivationTokenCarriesCode | utils/jwt.ts:76-91 | the activation token verifies for 900 seconds to the registration and the returned code |
| Issuer.InviteToken | utils/jwt.ts:93-102 | the invitation token is the payload under `INVITE_SECRET`, valid 86400 seconds |
| Issuer.VerifyInviteToken | utils/jwt.ts:104-113 | with `INVITE_SECRET` unset nothing verifies; a valid token decodes under `INVITE_SECRET` to the claims returned |
| Issuer.InviteRoundTrip | utils/jwt.ts:93-113 | `verifyInviteToken(generateUniqueInviteToken(p))` gives `p` for exactly one day |
| Issuer.AccessMaxAge | utils/jwt.ts:28-31 | the access cookie's max age is the hour count (parsed, default 300) in milliseconds |
| Issuer.RefreshMaxAge | utils/jwt.ts:32-35 | the refresh cookie's max age is the day count (parsed, default 1200) in milliseconds |
| Issuer.DefaultCookieLifetimes | utils/jwt.ts:28-50 | with the variables unset the cookies live 300 hours and 1200 days |
| Issuer.AccessCookie | utils/jwt.ts:38-43 | the access cookie is httpOnly and lax, and is secure exactly in production |
| Issuer.RefreshCookie | utils/jwt.ts:45-50 | the refresh cookie is httpOnly and lax, and is never secure |
| Issuer.WithTokens | utils/jwt.ts:66-73 | `{ ...user, accessToken, chatToken }` keeps the user's keys and adds the two tokens, which override same-named keys |
| Issuer.SendToken | utils/jwt.ts:52-74 | a forwarder session: both cookies set, the user with both tokens; it fails when `ACCESS_TOKEN` is unset or the user has no chat id, because `createToken` throws on a non-string id |
| Issuer.SendRoleToken | utils/jwt.ts:121-146 | a BCO, CHB or admin session: the message, the user with the access token, the chat token minted for its chat id and the role name, no cookies; it fails exactly when the role's secret is unset or the user has no chat id |
| Issuer.SessionTokenVerifies | utils/jwt.ts:187-212 | the access token in a session verifies for one day to the id of the record returned |
| Invitation.InvitationMail | controllers/forwarder.controller.ts:111-159 | the mail carries a link with a token signed over `{ id, email, companyName, fullName }` and the inviter's name; it fails without `INVITE_SECRET` |
| Invitation.InvitationLinkVerifies | controllers/bco.controllers.ts:486-534 | the link's token verifies for one day to exactly the invitation |
| Gate.ExtractToken | middlewares/auth.ts:9-10 | the token is a non-empty, space-free word taken from the header after its first space, or else the cookie |
| Gate.HeaderTokenWins | middlewares/auth.ts:9-10 | the second word of the authorization header is the token, whatever the first word |
| Gate.CookieFallback | middlewares/auth.ts:9-10 | without a usable second word, the cookie is the token |
| Gate.SecretKey | middlewares/auth.ts:69-80 | a secret, when there is one, is non-empty and is one of the four role variables, for a role whose URL prefix or `userType` matches; `userType` "bco" gives `BCO_SECRET` |
| Gate.SelectRole | middlewares/auth.ts:69-80 | the chosen role is the first in precedence order whose URL prefix or `userType` matches |
| Gate.SecretKeyByPrecedence | middlewares/auth.ts:69-80 | the secret is the chosen role's variable, or none when it is unset; forwarder URLs use `ACCESS_TOKEN` |
| Gate.UserTypeBcoOverridesRoute | middlewares/auth.ts:70-71 | `userType` "bco" selects `BCO_SECRET` on every URL |
| Gate.ChatRoutesNeedUserType | middlewares/auth.ts:69-80 | a `/chat` URL without a recognised `userType` gets no secret |
| Gate.Authenticate | middlewares/auth.ts:7-66 | no token gives 401 "Please login…", no secret gives 401 "Invalid route", an invalid or expired token gives 401 "Session expired…", and otherwise `req.user` is the claims |
| Gate.ExpiredLooksForged | middlewares/auth.ts:48-63 | an expired token and a forged one get the same answer |
| Gate.OwnSessionAdmitted | middlewares/auth.ts:7-80 | a session issued for a role opens that role's routes for a day with `req.user = { id }`, unless an earlier branch claims the request |
| Gate.BcoSessionOnAdminRoute | middlewares/auth.ts:69-80 | a BCO session sent with `userType` "bco" passes on an admin URL; an admin session sent the same way does not, when the secrets differ |
| Errors.HandleErrors | middlewares/errorHandlerMiddleware.ts:6-29 | an expired token gives 401 "Activation token has expired", a local error handler its status (500 for 0) and message, and anything else 500 "Internal Server Error" |
| Errors.HandleErrorsHidesMessages | middlewares/errorHandlerMiddleware.ts:6-29 | only a local error handler's message reaches the client; errors of the shared `ErrorHandler` class become 500 "Internal Server Error" |
| Errors.ErrorMiddleware | middlewares/error.ts:4-29 | the first matching rule (duplicate key, invalid JWT, expired JWT) wins with a 400, and otherwise the error's own status (default 500) and message |
| Errors.ErrorMiddlewareSettles | middlewares/error.ts:4-29 | a settled error always has a message and a non-zero status (400, 500 or its own), and passing the answer through the middleware again changes nothing |
| Errors.VerifyFailure | utils/jwt.ts:104-113 | a failed verification throws an expiry error exactly when the token had expired |
| Short.StripNonWord | utils/short.ts:13-14 | `replace(/\W/g, "")` keeps exactly the word characters, in order |
| Short.StripAppend | utils/short.ts:13-14 | stripping distributes over concatenation |
| Short.StripKeepsWordChars | utils/short.ts:13-14 | each word character's occurrences are kept and every other character is dropped |
| Short.StripIdempotent | utils/short.ts:13-14 | stripping twice strips once |
| Short.UsernameShape | utils/short.ts:9-18 | the derived username is the lower-cased stripped local part, "_", and the lower-cased stripped company name; the trim never changes it |
| Short.UsernameAlphabet | utils/short.ts:9-18 | a derived username holds only lower-case letters, digits and "_", with "_" right after the local part; empty inputs give "_" |
| Short.NormalizedUsername | utils/short.ts:9-18 | a derived username is unchanged by `trim().toLocaleLowerCase()` |
| Provision.Provision | controllers/auth.controller.ts:157-179 | a falsy chat id becomes the fresh id; a falsy username becomes the derived one unless the request supplies one; the flag is set exactly then |
| Provision.FilledIffChanged | controllers/bco.controllers.ts:164-185 | with a non-empty fresh id and derivation, the flag says exactly whether a field changed, and afterwards the chat id is set |
| Provision.ProvisionIdempotent | controllers/bco.controllers.ts:164-185 | a second pass over its own output fills nothing and changes nothing |
| Provision.DerivedUsernameSettled | utils/short.ts:9-18 | a derived username is never empty and is already normalised |
| Values.FallbackMerge | controllers/auth.controller.ts:220-327 | `supplied \|\| stored \|\| undefined` keeps a truthy supplied value, else a truthy stored one, else nothing |
| Text.SecondWordOfPair | middlewares/auth.ts:9-10 | in "scheme token" with no inner spaces, `split(" ")[1]` is the token, whatever the scheme |
| Text.TrimIdempotent | controllers/bco.controllers.ts:269-274 | trimming an already trimmed name changes nothing |
| Text.ParseIntOfNatToString | controllers/bco.controllers.ts:573 | `parseInt` reads back the decimal rendering of every id |
| Text.FourDigits | utils/jwt.ts:77 | a code from 1000 to 9999 renders as exactly four digits |
| Text.LessTrichotomy | controllers/chat.controller.ts:123 | the string order `sort()` uses is strict and total, so the two ids sort the same way whatever their order |
| Text.LessIsUtf16Order | controllers/chat.controller.ts:123 | the order is the lexicographic order of the UTF-16 code units, a proper prefix first |
| Text.ParseInt | db/forwarderDBFunctions.ts:95-96 | `parseInt(s, 10)` fails exactly when, after leading white space and one sign, no digit follows |
| Text.ParseIntAuto | controllers/bco.controllers.ts:573 | `parseInt(s)` without a radix reads "0x"/"0X" after the sign as hexadecimal and otherwise agrees with radix 10; a negative result needs a minus sign |
| Text.ParseIntAutoOfNatToString | controllers/bco.controllers.ts:573 | `parseInt` without a radix reads back the decimal rendering of every id |
| Text.HexIdsDiffer | controllers/forwarder.controller.ts:197 | "0x10" reads as 16 (radix 10 gives 0), "0x" reads as NaN (radix 10 gives 0) and "-0x10" as -16 |
| Chat.ChannelIdSymmetric | controllers/chat.controller.ts:123 | the sorted and joined channel id does not depend on the order of the two ids |
| Chat.ChannelIdSorted | controllers/chat.controller.ts:148 | the channel id is the smaller id in UTF-16 code-unit order, "-", the larger id |
| Chat.AstralSortsFirst | controllers/chat.controller.ts:148 | a character outside the Basic Multilingual Plane sorts before U+FFFF, as its surrogate pair does |
| Chat.ChannelId | controllers/chat.controller.ts:123 | two ids are joined with "-" in one of the two orders; with one id missing, the id sorts first and the missing one renders as "" |
| Chat.ChannelIdHasSeparator | controllers/chat.controller.ts:203 | every channel id contains "-", so it is never empty |
| Chat.Welcome | controllers/chat.controller.ts:346-368 | the welcome registers both users, opens their direct channel and posts the greeting, in that order |
| Chat.WelcomeIsDirectChannel | controllers/chat.controller.ts:117-140 | the welcome channel is the one `sendMessage` between the two users posts into |
| Chat.CreateUserFunction | controllers/chat.controller.ts:310-324 | absent or empty fields are sent as "" |
| Chat.UpdateAgreesWithCreate | controllers/chat.controller.ts:310-340 | with every field filled in, the update sends the same directory entry the creation sends; a missing name is sent as `undefined` by the update and as "" by the creation |
| Chat.SendMessageIntoOpenedChannel | controllers/chat.controller.ts:117-178 | a message sent by either user lands in the channel `createChat` opened for the two, with the sender and text as given |
| Chat.CreateChat | controllers/chat.controller.ts:142-178 | two calls: first both users are registered by id alone, then their sorted-id channel is created with both as members |
| Chat.CreateChatSymmetric | controllers/chat.controller.ts:142-178 | whichever side opens the chat, it is the same channel |
| Chat.SendMessageToChannel | controllers/chat.controller.ts:197-222 | a missing message or sender gives 400 and no call; otherwise one message from the sender into the two users' channel |
| Chat.SendMessageToChannelRefusal | controllers/chat.controller.ts:197-222 | the request is refused exactly when the message or the sender is missing; the channel-id test never fires |
| Chat.AddMemberToChannel | controllers/chat.controller.ts:224-243 | a missing channel id or member list gives 400 and no call; otherwise the members are added |
| Chat.CreateUser | controllers/chat.controller.ts:245-267 | a missing username gives 400 and no call; otherwise one directory upsert |
| Chat.UpdateUserController | controllers/chat.controller.ts:269-308 | a missing user id gives 400, an unknown user 404, and otherwise one update merging the request over the directory entry |
| Chat.UpdateUserKeepsExisting | controllers/chat.controller.ts:291-296 | a field left out or empty keeps the directory's value, and a supplied one replaces it |
| AccountStore.FindByEmail | db/authDBFunctions.ts:71-77 | the account with this e-mail, looked up only in its own kind's table |
| AccountStore.FindByCompany | db/chbDBFunctions.ts:14-20 | the account with this company name, in its own kind's table |
| AccountStore.AvailabilityTables | db/chbDBFunctions.ts:56-76 | a username is available to a forwarder when no forwarder admin or BCO holds it, and to a broker when also no broker does; admins are never consulted |
| AccountStore.BrokerNameNotReserved | db/authDBFunctions.ts:55-69 | a broker's username does not block a forwarder admin, but blocks another broker |
| AccountStore.IsUsernameAvailable | db/authDBFunctions.ts:55-69 | a username is available exactly when no forwarder admin row and no BCO row holds it |
| AccountStore.IsChbUsernameAvailable | db/chbDBFunctions.ts:56-76 | a username is available to a broker exactly when no forwarder admin, BCO or broker row holds it |
| AccountStore.TakenMeans | db/authDBFunctions.ts:55-69 | a username is taken in a table exactly when some row of it holds that username |
| AccountStore.CreateUser | db/authDBFunctions.ts:21-41 | the row stores the activation token as the access token and a fresh refresh token; nothing is stored when signing fails or when another row holds the e-mail or the company name |
| AccountStore.CreateUserKeepsUnique | db/authDBFunctions.ts:5-41 | creating an account keeps e-mail and company name unique, the columns `findUnique` looks accounts up by |
| AccountStore.StoredRefreshCarriesEmail | db/chbDBFunctions.ts:22-42 | the stored refresh token is `{ email }` under `REFRESH_TOKEN` for ten days |
| AccountStore.PatchTouchesOnlyNamed | db/authDBFunctions.ts:43-53 | a patch changes only the columns it names; e-mail, password, role and tokens never change |
| AccountStore.UpdateAccount | db/chbDBFunctions.ts:44-54 | the row with this id and only it is rewritten; a missing row is an error, and so is a patched row whose e-mail or company name another row holds |
| AccountStore.UpdateAccountKeepsUnique | db/authDBFunctions.ts:43-53 | a successful profile write keeps e-mail and company name unique |
| AccountStore.WriteBackKeepsUnique | controllers/auth.controller.ts:181 | the login's write-back keeps the row's e-mail and company name, so uniqueness survives it |
| AccountStore.WriteBack | controllers/auth.controller.ts:181 | the login's in-memory record is written over the row |
| AccountStore.WriteBackUnchanged | controllers/auth.controller.ts:181 | writing back the stored row changes nothing |
| AccountFlows.Answer | controllers/auth.controller.ts:124-126 | a thrown error becomes what `handleErrors` makes of it |
| AccountFlows.SessionReply | controllers/chb.controller.ts:132-203 | a forwarder admin gets `sendToken`, a broker `sendCHBToken` with the message; either fails exactly when the role's secret is unset or the row has no chat id |
| AccountFlows.Register | controllers/auth.controller.ts:37-79 | a taken e-mail gives 400 "Email Already existed!", a taken company 400 "Company Already existed!"; otherwise nothing is stored, the code is mailed and the token answered with 201 |
| AccountFlows.Activate | controllers/auth.controller.ts:81-128 | an invalid token fails through `handleErrors`; for a valid activation token, a wrong code gives 401 with nothing stored and the matching code is answered exactly by `Admit` (400 for an e-mail registered since, else the new account) |
| AccountFlows.Admit | controllers/chb.controller.ts:83-130 | one account is created at the next id with the derived username and a fresh chat id; the directory entry and the welcome follow; the session is for that row. A company name another account holds gives 500 with nothing stored and no chat calls |
| AccountFlows.Resend | controllers/auth.controller.ts:329-364 | an invalid token fails through `handleErrors`; a token without a code gives 401 "Invalid user!"; otherwise a taken e-mail gives 400 "Email already exist" and a free one gets the same token back with its code mailed again; the store is never changed |
| AccountFlows.Login | controllers/auth.controller.ts:130-202 | an unknown e-mail gives 404, a wrong password 400, and otherwise `SignIn` |
| AccountFlows.SignIn | controllers/chb.controller.ts:132-203 | a forwarder login always writes the row back and syncs the directory; a broker login only when something was provisioned; the welcome only then |
| AccountFlows.Update | controllers/auth.controller.ts:220-327 | an unknown user gives 404, a username held by someone else 400; otherwise `Edit` |
| AccountFlows.Edit | controllers/chb.controller.ts:221-324 | each supplied field replaces the column; the directory receives the chat id, the supplied username normalised or else the stored one, and the supplied full name or else the stored one; the welcome follows provisioning; a company name another account holds gives 500, with nothing stored and no chat calls |
| AccountFlows.ChbList | controllers/chb.controller.ts:396-413 | every broker, page by page, with the total count |
| AccountFlows.DeleteChb | controllers/chb.controller.ts:415-442 | the broker is removed and the remaining page answered; an unknown id gives 404 |
| AccountLaws.IssuedToken | controllers/auth.controller.ts:56-74 | what registration hands out verifies for fifteen minutes to the registration and the mailed code |
| AccountLaws.RegisterThenActivate | controllers/auth.controller.ts:37-128 | register then activate with the mailed code creates exactly one account at the next id, holding the registration |
| AccountLaws.WrongCodeRefused | controllers/auth.controller.ts:94-98 | any other code is refused with 401, and nothing is stored or sent |
| AccountLaws.LateActivationExpired | controllers/auth.controller.ts:89-92 | from the fifteenth minute on even the right code gets the expiry answer |
| AccountLaws.ResendRepeatsRegistration | controllers/auth.controller.ts:329-364 | resend answers the token registration issued and mails the same code |
| AccountLaws.EmailCheckedFirst | controllers/auth.controller.ts:42-54 | a taken e-mail is refused for the e-mail, whatever the company |
| AccountLaws.FoundAfterInsert | db/authDBFunctions.ts:71-77 | after a row with a new e-mail is inserted, looking the e-mail up finds that row |
| AccountLaws.Settled | controllers/auth.controller.ts:157-179 | an account with a chat id and a username is not provisioned again, and the login writes it back unchanged |
| AccountLaws.ActivatedAccountLogsIn | controllers/auth.controller.ts:130-202 | a freshly activated account logs in with its password without provisioning |
| AccountLaws.SecondLoginSettled | controllers/chb.controller.ts:132-203 | after a successful login, logging in again provisions nothing and sends no welcome |
| AccountLaws.UpdateMerges | controllers/auth.controller.ts:220-327 | a supplied non-empty field replaces the column and a missing or empty one keeps it; e-mail, password and role never change |
| AccountLaws.TakenCompanyNameFails | controllers/auth.controller.ts:288-304 | a profile update to a company name another account holds answers 500, writes nothing and calls nothing |
| AccountLaws.SameCompanyActivatedOnce | controllers/auth.controller.ts:100-126 | of two registrations for one company under different e-mails, only the first activation creates an account; the second answers 500 |
| AccountLaws.RefusedNameIsHeld | db/authDBFunctions.ts:55-69 | a username is refused only when someone else really holds it; keeping one's own username is never refused |
| CompanyStore.CreateCompany | db/commanDBFunction.ts:3-24 | one company and its one warehouse address, created together, with the next ids |
| CompanyStore.CreateCompanyNormalises | db/commanDBFunction.ts:3-24 | the stored name is trimmed; empty optional fields are stored as null or "" as the function writes them |
| CompanyStore.CreateKeepsLockstep | db/commanDBFunction.ts:3-24 | a company's warehouse gets the company's own id when the two tables are in step |
| CompanyStore.CreateContact | db/commanDBFunction.ts:26-42 | the contact's fields are linked to the company; an unknown company is refused |
| CompanyStore.UpdateCompanyDetails | db/commanDBFunction.ts:44-72 | the company and the warehouse whose id equals the company id are updated; either missing fails the write |
| CompanyStore.ResubmitCompany | db/commanDBFunction.ts:3-72 | editing with the creation form reproduces the created rows, except that empty address fields become "" instead of null |
| CompanyStore.UpdateContactDetails | db/commanDBFunction.ts:74-95 | the contact must exist and so must the company it is linked to |
| CompanyStore.ResubmitContact | db/commanDBFunction.ts:26-95 | editing a contact with the form it was created from changes nothing |
| CompanyStore.ContactEditKeepsAbsent | db/commanDBFunction.ts:74-95 | an edit that leaves out name, e-mail, phone and status keeps them |
| BcoStore.PatchedBco | db/bcoDBFunctions.ts:36-41 | an update sets only the named columns; links and the registration card are kept |
| BcoStore.CreateBco | db/bcoDBFunctions.ts:4-34 | a BCO linked to a forwarder, a contact and a company, each of which must exist; the status defaults to "Pending" |
| BcoStore.CheckBcoExistence | db/bcoDBFunctions.ts:62-72 | the first BCO with this e-mail |
| BcoStore.CheckBcoExistenceForCompany | db/bcoDBFunctions.ts:74-86 | the first BCO with this e-mail whose company is called the trimmed name |
| BcoStore.UpdateBco | db/bcoDBFunctions.ts:36-41 | that row and only it; a missing row is an error |
| BcoStore.UpdateBcoWithCompany | db/bcoDBFunctions.ts:43-60 | the row and its linked company's name in one write, which fails for a BCO without a company |
| OwnedStore.FindImporterByCompany | db/forwarderDBFunctions.ts:13-41 | exactly the owner's importers whose company has this name, minus the one being edited |
| OwnedStore.FindSupplierByCompany | db/bcoDBFunctions.ts:100-128 | exactly the owner's suppliers whose company has this name, minus the one being edited |
| OwnedStore.SupplierList | db/supplierDBFunctions.ts:4-20 | a page of all suppliers: refused only for a negative skip or size, at most `pageSize` stored suppliers, and the count is the number of suppliers |
| OwnedStore.EverySupplierListed | db/supplierDBFunctions.ts:4-20 | every supplier appears on some page of the unfiltered list |
| OwnedStore.CreateImporter | db/forwarderDBFunctions.ts:43-72 | a "Pending" BCO linked to the forwarder, the contact and the company |
| OwnedStore.CreateSupplier | db/bcoDBFunctions.ts:130-163 | a "Pending" supplier linked to the BCO, the contact and the company |
| OwnedStore.UpdateSupplier | db/bcoDBFunctions.ts:185-193 | only port and product of that row change |
| TierStore.FindTier | db/forwarderDBFunctions.ts:186-192 | the first tier with this name, if any |
| TierStore.TierFor | db/forwarderDBFunctions.ts:194-202 | the existing tier of that name, or a new one with markup 0 |
| TierStore.AddCompanyTier | db/forwarderDBFunctions.ts:204-211 | a new link, both ends of which must exist |
| TierStore.UpdateCompanyTier | db/forwarderDBFunctions.ts:226-273 | the company's first link is re-pointed to the named tier, or a link is created; a missing name with no tier fails |
| TierStore.TierLabel | db/forwarderDBFunctions.ts:137 | the listed tier is the name of the company's first link's tier, else "No Tier" |
| BcoFlows.RegisterBco | controllers/bco.controllers.ts:55-135 | a BCO with a password under this e-mail and company is refused with 400; a refused invite token fails through `handleErrors`; no id self-registers, an id accepts the invitation |
| BcoFlows.BcoSession | utils/jwt.ts:121-146 | the session for the record, or 500 when `BCO_SECRET` is missing or the record has no chat id |
| BcoFlows.SelfSignup | controllers/bco.controllers.ts:89-119 | a company with the trimmed name and a "Signup" BCO with fresh chat id and derived username are stored; directory entry and welcome follow |
| BcoFlows.AcceptInvite | controllers/bco.controllers.ts:120-130 | row `id` gets the name, the password and "Accepted"; nothing ties it to the e-mail; an unknown id fails; the session is opened exactly when `BCO_SECRET` is set and the row has a chat id, and otherwise the write stays and the answer is 500 |
| BcoFlows.LoginBco | controllers/bco.controllers.ts:137-162 | an unknown e-mail gives 404, a wrong password 400, otherwise `SignInBco` |
| BcoFlows.SignInBco | controllers/bco.controllers.ts:164-218 | the row and its company are written and the directory synced only when something was provisioned; the session never carries the password |
| BcoFlows.UpdateBcoProfile | controllers/bco.controllers.ts:241-355 | an unknown BCO gives 404, a username held by someone else 400; otherwise `EditBco` |
| BcoFlows.EditBco | controllers/bco.controllers.ts:241-355 | the directory is synced first; then row and company are written in one call, which fails for a BCO without a company |
| BcoFlows.BcoDetail | controllers/bco.controllers.ts:357-374 | the BCO with company and contact, and with its password hash; a row without a chat id gives 500 |
| BcoFlows.FetchDashboard | controllers/bco.controllers.ts:407-424 | the signed-in BCO's suppliers, page by page, with the total count |
| BcoFlows.AddSupplier | controllers/bco.controllers.ts:426-484 | a name clash among the BCO's suppliers gives 400; otherwise `StoreSupplier` |
| BcoFlows.StoreSupplier | controllers/bco.controllers.ts:438-478 | company, contact and supplier are created; the supplier belongs to the BCO and carries the contact's name and e-mail |
| BcoFlows.InviteSupplier | controllers/bco.controllers.ts:486-534 | the invitation mail signed with the BCO's name; nothing is stored |
| BcoFlows.DeleteSupplier | controllers/bco.controllers.ts:536-563 | the supplier is removed whoever owns it; an unknown id gives 404 |
| BcoFlows.EditSupplier | controllers/bco.controllers.ts:565-631 | an id that `parseInt` without a radix reads as NaN, or one outside 32 bits, gives 500; an unknown one gives 404, a clash with another supplier 400; otherwise `ReviseSupplier` |
| BcoFlows.ReviseSupplier | controllers/bco.controllers.ts:583-625 | company, contact, then port and product are written one by one; a failed write leaves the earlier ones |
| BcoFlows.BcoList | controllers/bco.controllers.ts:633-650 | every BCO, page by page, with the count of all rows |
| BcoFlows.DeleteBco | controllers/bco.controllers.ts:652-679 | the BCO is removed and the rest listed; an unknown id gives 404 |
| BcoLaws.RegisterTwiceRefused | controllers/bco.controllers.ts:67-74 | after a self-registration, registering the same e-mail and trimmed company again is refused |
| BcoLaws.InvitationLinkSignsUp | controllers/bco.controllers.ts:76-130 | an invitation link passes the check for a day and fills in the invited row |
| BcoLaws.LoginWritesProvisioned | controllers/bco.controllers.ts:187-201 | a provisioning login writes exactly the new chat id and the normalised username; the company keeps its name |
| BcoLaws.LoginTwiceSettles | controllers/bco.controllers.ts:164-214 | a second login changes nothing and calls nothing |
| BcoLaws.ProfileUpdateStores | controllers/bco.controllers.ts:241-355 | each column takes the supplied non-empty value and otherwise keeps the stored one |
| BcoLaws.SupplierNameTakenAfterAdd | controllers/bco.controllers.ts:426-484 | after a supplier is added, another with the same trimmed company name for the same BCO is refused |
| BcoLaws.SupplierNameClash | db/bcoDBFunctions.ts:100-128 | the search that skips `k` finds something exactly when another supplier of the owner has the name |
| BcoLaws.InvitedImporterAcceptFails | controllers/bco.controllers.ts:120-130 | an importer row the forwarder created has no chat id, so accepting its invitation stores the password and then answers 500 |
| BcoLaws.RenameRefusedIff | controllers/bco.controllers.ts:565-631 | for a route id that names a supplier, a rename is refused exactly when another supplier of the BCO has the new trimmed name; its own name never blocks it |
| ImporterFlows.FindForwarderAdmin | db/forwarderDBFunctions.ts:5-11 | an undefined id fails with the generic message; otherwise the admin is found exactly when the row exists |
| ImporterFlows.ImporterPage | db/forwarderDBFunctions.ts:94-154 | the page lists only the forwarder's importers and counts them all |
| ImporterFlows.Dashboard | controllers/forwarder.controller.ts:29-46 | the signed-in forwarder's importers, page by page; an ORM error gives 500 |
| ImporterFlows.AddImporter | controllers/forwarder.controller.ts:48-109 | an undefined id gives 400, an unknown forwarder 404, a name clash 400; otherwise `StoreImporter` |
| ImporterFlows.StoreImporter | controllers/forwarder.controller.ts:61-103 | tier, company, contact, tier link and importer are written in order; the importer is "Pending", owned by the forwarder, linked to the new rows |
| ImporterFlows.InviteImporter | controllers/forwarder.controller.ts:111-159 | the invitation mail signed with the forwarder's name; nothing is stored |
| ImporterFlows.DeleteImporter | controllers/forwarder.controller.ts:161-188 | an undefined id fails, an unknown one gives 404; otherwise the row is removed whoever owns it |
| ImporterFlows.EditImporter | controllers/forwarder.controller.ts:190-257 | an id that `parseInt` without a radix reads as NaN, or one outside 32 bits, gives 500; an unknown one gives 404, a clash with another importer 400; otherwise `ReviseImporter` |
| ImporterFlows.ReviseImporter | controllers/forwarder.controller.ts:207-251 | company, contact, tier, then the importer's name and e-mail are written in order; a failure keeps the earlier writes |
| ImporterFlows.ForwarderAdminList | controllers/forwarder.controller.ts:288-305 | every forwarder admin, page by page, with the count of all rows |
| ImporterFlows.DeleteForwarderAdmin | controllers/forwarder.controller.ts:259-286 | an undefined id fails the lookup with 500, an unknown one gives 404; otherwise the row is removed and the rest listed |
| ImporterLaws.ImporterNameTakenAfterAdd | controllers/forwarder.controller.ts:48-109 | after an importer is added, another with the same trimmed company name for the same forwarder is refused |
| ImporterLaws.ImporterNameClash | db/forwarderDBFunctions.ts:13-41 | the search that skips `k` finds something exactly when another importer of the owner has the name |
| ImporterLaws.RenameImporterRefusedIff | controllers/forwarder.controller.ts:190-257 | for a route id that names an importer, a rename is refused exactly when another importer of the forwarder has the new trimmed name |
| ImporterLaws.EditedImporterTier | controllers/forwarder.controller.ts:207-251 | an edit naming a tier stores the contact's name and e-mail, and the importer is then listed under that tier |
| ImporterLaws.EditKeepsCompanyWhenTierFails | db/forwarderDBFunctions.ts:226-273 | when the tier cannot be set, the company's new details stay written although the answer is an error |
| AdminFlows.FindAdmin | db/adminDBFunctions.ts:23-29 | the admin with this e-mail, none exactly when no row has it |
| AdminFlows.AdminSession | utils/jwt.ts:187-212 | a session exactly when `ADMIN_SECRET` is set and the record has a chat id, with role "admin" and the tokens added; otherwise 500 |
| AdminFlows.AdminSignup | controllers/admin.controller.ts:23-56 | a taken e-mail gives 400; otherwise the admin is stored with the hashed password and a fresh chat id, registered and greeted, and the session includes the hash |
| AdminFlows.LoginAdmin | controllers/admin.controller.ts:58-107 | an unknown e-mail gives 404, a wrong password 400, otherwise `SignInAdmin` |
| AdminFlows.SignInAdmin | controllers/admin.controller.ts:77-103 | an admin without a chat id gets one, written back, synced and greeted; one with a chat id is left alone; the session never carries the password |
| AdminFlows.AdminDetail | controllers/admin.controller.ts:125-142 | an undefined id gives 500, an unknown one 404; otherwise the row with its password hash, or 500 when the row has no chat id |
| AdminLaws.AdminSignupTwiceRefused | controllers/admin.controller.ts:23-56 | a second sign-up with the same e-mail is refused and changes nothing |
| AdminLaws.AdminSignupThenLogin | controllers/admin.controller.ts:23-107 | a signed-up admin logs in with its password, without writes or calls, to its row without the password |
| AdminLaws.AdminLoginSettles | controllers/admin.controller.ts:77-103 | a chat id is assigned at most once; a second login writes and sends nothing |
| Checks.Failures | middlewares/validationMiddleware.ts:9 | the collected messages are those of the failing checks, in declaration order; none exactly when all pass |
| Checks.FailuresAppend | middlewares/validationMiddleware.ts:9 | the failures of two lists in sequence are the failures of each, concatenated |
| Checks.HandleValidationErrors | middlewares/validationMiddleware.ts:4-18 | no errors lets the request through; otherwise 400 with the first error's message |
| Checks.AllPassAppend | middlewares/validationMiddleware.ts:9 | two rule lists declared one after the other pass exactly when both pass |
| Checks.Validate | middlewares/validationMiddleware.ts:4-18 | the request passes exactly when every check passes, and is otherwise refused with the earliest failing check's message |
| Checks.EarlierListWins | middlewares/validationMiddleware.ts:9-11 | once an earlier list fails, a later list never changes the answer |
| Checks.Search | validations/authValidations.ts:8-14 | a one-class pattern matches exactly when some character is in the class |
| Checks.CharLength | validations/bcoValidations.ts:58 | the counted length is the length without U+FE0E and U+FE0F |
| Checks.IsNumericShape | validations/authValidations.ts:24-26 | the `isNumeric` scan accepts exactly the strings `^[+-]?([0-9]*[.])?[0-9]+$` describes |
| Checks.DotSplitDot | validations/authValidations.ts:24-26 | an unsigned string starting with "." has the `[0-9]*[.][0-9]+` form exactly when one or more digits, and nothing else, follow |
| Checks.AcceptedChars | validations/bcoValidations.ts:64 | a string the numeric scan accepts holds only digits, signs and dots |
| Checks.NumericIsJsNumber | validations/authValidations.ts:47 | every string `isNumeric` accepts is a number to JavaScript's `isNaN` |
| Validators.PasswordChecks | validations/authValidations.ts:5-15 | five checks in order (length, lower, upper, digit, special); all pass exactly for a strong password |
| Validators.RegistrationChecks | validations/authValidations.ts:3-18 | the registration passes exactly for a valid e-mail, a strong password and non-empty names; a bad e-mail, then a short password, then a missing name is what the answer reports |
| Validators.AdminRegistrationChecks | validations/adminValidations.ts:3-16 | the admin registration passes exactly for a valid e-mail, a password strong without a special character, a name and a username |
| Validators.LoginChecks | validations/adminValidations.ts:18-20 | login passes exactly when the e-mail is valid; the password is not checked |
| Validators.ActivationChecks | validations/chbValidations.ts:93-100 | activation passes exactly for a non-empty token and a code of the numeric shape |
| Validators.ResendChecks | validations/chbValidations.ts:102-106 | resend passes exactly for a non-empty token |
| Validators.PhoneRule | validations/authValidations.ts:44-57 | a truthy phone must be a JavaScript number and 10 to 15 long; "" passes; the "numeric" message is given exactly for a non-number |
| Validators.ProfileChecks | validations/bcoValidations.ts:24-48 | every field may be absent; a sent name must not be empty; a sent phone follows the phone rule |
| Validators.DeleteChecks | validations/chbValidations.ts:51-53 | the id must be sent and non-empty, else 400 with the route's message |
| Validators.ContactPhoneChecks | validations/forwarderValidations.ts:10-16 | the contact phone passes exactly when numeric and 10 to 15 characters long |
| Validators.ContactChecks | validations/forwarderValidations.ts:4-16 | the contact passes exactly for a name of at most 20 characters, a valid e-mail and a valid phone |
| Validators.ImporterChecks | validations/forwarderValidations.ts:3-37 | an importer passes exactly for a valid contact and company name (25), address line (100), city (50) and registered address (100), all required |
| Validators.SupplierCompanyChecks | validations/bcoValidations.ts:68-87 | the supplier company passes exactly for name (25), product (100), port (50) and registered address (100), all required |
| Validators.SupplierChecks | validations/bcoValidations.ts:54-88 | a supplier passes exactly for a valid contact and company; only the product check carries the product message |
| Validators.InviteChecks | validations/forwarderValidations.ts:39-42 | the invitation passes exactly for a valid e-mail and a company name |
| ValidatorLaws.ContactPhoneStricter | validations/bcoValidations.ts:61-67 | a phone the contact rules accept is accepted by the profile phone rule |
| ValidatorLaws.HexPhoneOnlyInProfile | validations/authValidations.ts:44-57 | "0x12345678" passes the profile phone rule but is not numeric to the contact rules |
| ValidatorLaws.RegistrationWantsSpecial | validations/authValidations.ts:14-15 | a password meeting every rule but the special character is refused with that rule's message |
| ValidatorLaws.AdminPasswordWithoutSpecial | validations/adminValidations.ts:5-13 | "Abcdefg1" registers an admin but is refused for the other roles |
| ValidatorLaws.ProductLimitMessage | validations/bcoValidations.ts:73-77 | with the earlier rules passing, the "at most 30 characters" message is the answer exactly when the product is longer than 100 |

## Left out

- Logout handlers, `getUserProfile`, `getChbUserProfile` and `getBCOBySignupLink` are not modelled. They only clear cookies or read one row.
- The chat controller's list and history endpoints (`getPreviousMessage`, `listOfUsers`, `startNewChat`, `generateToken`, `getAllUser`) are not modelled. They only forward queries to the chat service.
- `controllers/calendar.Controller.ts` and `controllers/supplier.controller.ts` are not part of this model. The supplier list query they would call, `getPaginatedSupplierList`, is modelled.
- `utils/ErrorHandler.ts` is not part of this model. Its errors are modelled as an error class that `handleErrors` does not recognise.
- Not modelled as behaviour, but passed in as parameters:
  - bcrypt hashing and comparison;
  - the JWT signature scheme;
  - the random activation draw;
  - `short-uuid` ids;
  - the clock;
  - validator.js's e-mail grammar (`isEmail`).
- Outside services are not executed. The mailer and the chat service appear only as the ordered list of calls a handler makes.
- JSON body fields are modelled with the type each handler expects. Text fields are strings, and the numeric ids of the delete handlers (`dataId`, `importerId`) are integers. A value of another JSON type is not modelled: a number, array or `null` where a string is expected, or a string id such as "5", which the ORM would refuse with a 500.
- Lengths count characters, not UTF-16 code units.
- The ORM's exact error texts are not modelled. Each store error, and each route-id error of `RouteId`, is a distinct message constant that is passed on unchanged.
- Writes are not transactional in the source. The model keeps the earlier writes of a handler when a later write fails, and does not model concurrent requests.
- BcoFlows.RegisterBco: the "Invite token expired!" 404 cannot be reached, because `verifyInviteToken` throws before it. The model answers through `handleErrors` instead.
- TierStore.UpdateCompanyTier: only the company's first tier link is modelled. The order of several links is taken as ascending id.
- Tables.FindFirst: when several rows match, the lowest id is answered. The source gives no `orderBy`, so this order is an assumption about the database; it matters for `bco.findFirst` by e-mail, since two forwarders can invite the same e-mail.
- Tables.FindMany: rows are listed in ascending id order. The source gives no `orderBy`, so this order, and with it which rows fall on each page, is an assumption about the database.
- The account tables' unique columns are taken to be `email` and `companyName`, the ones looked up with `findUnique`. The database schema is not part of this model, so any other unique column is not modelled.
- Gate.Authenticate: `req.user` is the token's claims without the `iat` and `exp` fields that `jwt.verify` adds. Nothing in the modelled handlers reads those two fields.
- Issuer.SendToken: the cookies are set before the chat token is minted. When minting throws, the source's 500 still carries the two cookies; the model's error reply carries none.
- The chat service's own API secret is not modelled. Minting a chat token is taken to succeed for every string id.
- Paging.Paginate: a negative `take` is refused like a negative `skip`. The ORM would instead page backwards.
- Tables.Window: a negative `take` is refused, where the ORM would instead take rows from the end of the ordered list. Only a negative `pageSize` reaches this case.
- Text.Lower: lower-cases the ASCII letters only; `toLocaleLowerCase` folds every Unicode letter by the host locale. Usernames with other letters are compared as given.
- Schema.FindById: ids that reach it from request bodies and sessions are not bounded to 32 bits; only the route ids of the edit handlers are.
- The difference between `null` and `undefined` is kept only where a handler distinguishes them. Everywhere else both are an absent value.

