# byteApplications: the application lifecycle and its role-gated store

This project models the server of a Discord-login web application where
community members submit staff applications and staff review them. A logged-in
user submits an application of one of three catalogue types, unless they are
blacklisted or already have a pending one. Moderators and admins list pending
applications and fetch any application by id. Only admins accept, reject or
delete applications. Only admins manage the admin, moderator and blacklist
tables, and an admin may not remove their own admin entry.

The state is four collections: applications, admins, moderators and
blacklisted users. They are modelled as maps plus a counter that hands out
fresh application ids. Time is an abstract `nat` that the caller supplies.
The caller's identity is an `Option<Identity>`: `None` means no session.

- `schema.dfy` (module `Schema`): the documents, the reply codes
  (200/401/403/400/404/409/500 as `Ok`…`Internal`), JavaScript truthiness of
  request fields, and `field || null`.
- `catalogue.dfy` (`Catalogue`): the three application types and the type check.
- `gates.dfy` (`Gates`): the `isAuthenticated`, `isAdmin` and `isModerator`
  guards. They are pure predicates over the tables and are re-evaluated on
  every request.
- `routes.dfy` (`Routes`): every route handler as a function from the tables
  before a request to the reply code and the tables after it. The contracts
  list every reply code a route can give, state each refusal as an
  if-and-only-if (so success is exactly the remaining case), and state what
  changes.
- `server.dfy` (`Server`): the class `ApplicationServer` holds the
  collections as mutable map fields. Its state-changing handlers are written
  in place with early returns. Each is proved to produce the reply and the
  state its `Routes` function gives, and to keep the store invariant
  `Routes.WellFormed`.
- `history.dfy` (`History`): "my applications". The database's find-and-sort
  is modelled as a loop that inserts the user's documents into a list kept
  newest first.
- `invariants.dfy` (`Invariants`): the server as a state machine over
  arbitrary request sequences. The invariant holds in every reachable state,
  so no user ever has two pending applications. A request changes at most one
  collection, and once there is an admin there always is one.
- `notification.dfy` (`Notification`): the webhook message a review builds.
- `properties.dfy` (`Properties`): laws relating several requests, and worked
  scenarios.

Behaviour the model keeps as the code has it:
- A review has no "must be pending" guard. Reviewing a decided application
  succeeds and overwrites the decision, the reviewer, the review time and the
  reason (`Properties.ReReviewOverwrites`). A stricter lifecycle would refuse
  the second review; the code does not.
- The server stores `reviewReason || null` without trimming. Only the admin
  page trims, so a whitespace-only reason is stored as given.
- A malformed id answers 400 only on fetch-by-id. On review and delete the
  Mongoose cast error reaches the generic handler and answers 500 (`Internal`).
- Every guard reads the admin and moderator tables on each request. The role
  flags cached in the session at login are never consulted.

## Model

| member | source | states |
|---|---|---|
| Schema.OrNull | server.js:992 | `x \|\| null`: the result is present exactly when the field is truthy, equals the field then, and is never the empty string |
| Catalogue.IsKnownType | server.js:682-706 | a type is accepted exactly when it is "general", "moderator" or "developer" (corrected lookup, see Findings) |
| Catalogue.KnownTypeHasTemplate | server.js:682-706 | every accepted type has a template of at least two questions with distinct question ids (the fixed catalogue at lines 682-706) |
| Catalogue.IsKnownTypeAsWritten | server.js:873 | the lookup as written: every catalogue type passes, and so do names inherited from Object.prototype |
| Catalogue.InheritedNameAccepted | server.js:873 | "toString" passes the lookup as written although the catalogue has no such type |
| Gates.RequireAuthenticated | server.js:791-798 | passes exactly for a session with a (truthy) user id, else 401 |
| Gates.RequireAdmin | server.js:801-817 | 401 exactly without a session; passes exactly when the user id is in the admin table; otherwise 403; passing implies authenticated |
| Gates.RequireModerator | server.js:820-839 | 401 exactly without a session; passes exactly for a moderator or an admin entry; everyone the admin guard passes, it passes |
| Routes.Initial | server.js:632-676 | the empty database with seeded admins satisfies the store invariant |
| Routes.Submit | server.js:863-920 | 401 without session; 400 exactly for a falsy type, missing answers or a type outside the catalogue; then 403 exactly if blacklisted; then 409 exactly if the user has a pending application; otherwise exactly one new document under a fresh id with the caller's id, name and avatar, the answers verbatim, pending, timestamp now, no reviewer fields; any refusal changes nothing |
| Routes.SubmitAsWritten | server.js:863-920 | the route with the type check as written: the same reply and tables as `Routes.Submit` for every type name not inherited from Object.prototype; for every name, 401 exactly without session, 400 exactly for a falsy type, missing answers or a type failing the as-written lookup, then 403 exactly if blacklisted, then 409 exactly with a pending application, otherwise one new pending document under a fresh id; any refusal changes nothing |
| Routes.BlacklistedMessage | server.js:879-886 | the 403 message is the fixed sentence followed by the stored reason, or "No reason provided." when the reason is null or empty |
| Routes.ParseDecision | server.js:980-982 | only "accepted" and "rejected" are decisions, never pending, and each parses back from its own status name |
| Routes.Review | server.js:972-1002 | 401/403 by the admin guard; then 400 exactly for a status other than accepted/rejected; 500 for a malformed id; 404 for an unknown id; otherwise only that document changes: status, reviewer id and name from the caller, review time now, reason or null; no pending precondition |
| Routes.DeleteApplication | server.js:1073-1092 | admin guard; 500 for a malformed id; 404 exactly for an absent id; otherwise exactly that id is removed and nothing else changes |
| Routes.ListPending | server.js:935-946 | moderator guard; on success exactly the documents whose status is pending, unchanged; nothing otherwise |
| Routes.FetchApplication | server.js:948-968 | moderator guard; 400 for a malformed id; 404 exactly for an unknown id; otherwise the stored document whatever its status |
| Routes.ListRoles | server.js:1095-1103 | admin guard; on success the whole admin (or moderator, lines 1148-1156) table |
| Routes.AddRole | server.js:1105-1127 | admin guard; 400 exactly for a falsy id or name; 409 exactly for an id already in the table; otherwise exactly one entry added, stamped with the caller's id and name; admin and moderator tables (lines 1158-1180) alike |
| Routes.RemoveRole | server.js:1129-1145 | admin guard; 403 for removing one's own admin entry, checked before the lookup; 404 exactly for an absent id; otherwise exactly that key removed; an admin caller is still an admin afterwards; moderators (lines 1182-1194) have no self guard |
| Routes.ListBlacklist | server.js:1198-1206 | admin guard; on success the whole blacklist |
| Routes.AddBlacklist | server.js:1208-1231 | admin guard; 400 for a falsy id or name; 409 for an id already blacklisted; otherwise one entry added with the reason or null and the caller as blacklister |
| Routes.RemoveBlacklist | server.js:1233-1245 | admin guard; 404 exactly for an absent id; otherwise exactly that key removed |
| History.MyApplications | server.js:923-932 | 401 without session; otherwise each of the caller's applications exactly once, whatever its status, newest timestamp first |
| History.InsertNewestFirst | server.js:926 | inserting into a newest-first list keeps it newest first and adds exactly that element |
| Server.ApplicationServer.constructor | server.js:632-676 | the store starts empty apart from the seeded admins and satisfies the invariant |
| Server.ApplicationServer.Submit | server.js:863-920 | in place: the reply and new state of `Routes.Submit`, the blacklist message on 403, invariant kept |
| Server.ApplicationServer.Review | server.js:972-1002 | in place: the reply and new state of `Routes.Review`, invariant kept |
| Server.ApplicationServer.DeleteApplication | server.js:1073-1092 | in place: the reply and new state of `Routes.DeleteApplication`, invariant kept |
| Server.ApplicationServer.AddAdmin | server.js:1105-1127 | in place: the reply and new state of `Routes.AddRole` on the admin table |
| Server.ApplicationServer.RemoveAdmin | server.js:1129-1145 | in place: the reply and new state of `Routes.RemoveRole` on the admin table, self-removal refused |
| Server.ApplicationServer.AddModerator | server.js:1158-1180 | in place: the reply and new state of `Routes.AddRole` on the moderator table |
| Server.ApplicationServer.RemoveModerator | server.js:1182-1194 | in place: the reply and new state of `Routes.RemoveRole` on the moderator table |
| Server.ApplicationServer.AddBlacklist | server.js:1208-1231 | in place: the reply and new state of `Routes.AddBlacklist` |
| Server.ApplicationServer.RemoveBlacklist | server.js:1233-1245 | in place: the reply and new state of `Routes.RemoveBlacklist` |
| Invariants.SubmitKeepsWellFormed | server.js:888-912 | a submission keeps ids fresh and never gives a user a second pending application |
| Invariants.ReviewKeepsWellFormed | server.js:985-995 | a review keeps the invariant: the reviewed document is decided and carries all reviewer fields |
| Invariants.HandleKeepsWellFormed | server.js:863-1245 | every state-changing request keeps the store invariant |
| Invariants.RunKeepsWellFormed | server.js:863-1245 | every sequence of requests keeps the store invariant |
| Invariants.NeverTwoPending | server.js:888-900 | from the empty database, whatever requests arrive, no user ever has two pending applications |
| Invariants.SubmitAsWrittenKeepsConsistent | server.js:873-912 | the submission as written keeps ids fresh, reviewer fields consistent and at most one pending application per user; only the catalogue-type part of the invariant is lost |
| Invariants.HandleAsWrittenKeepsConsistent | server.js:863-1245 | every request, with the submission as written, keeps that lookup-independent part of the invariant |
| Invariants.RunAsWrittenKeepsConsistent | server.js:863-1245 | so does every sequence of such requests |
| Invariants.NeverTwoPendingAsWritten | server.js:888-900 | with the type check as written too, no user ever has two pending applications |
| Invariants.HandleChangesAtMostOneTable | server.js:863-1245 | every request changes at most one collection, and a refused one changes none |
| Invariants.HandleKeepsAnAdmin | server.js:1131-1134 | no request removes the last admin |
| Invariants.RunKeepsAnAdmin | server.js:1129-1145 | once there is an admin, every sequence of requests leaves at least one |
| Notification.UpperChar | server.js:1028 | upper-casing of one character as far as the model goes: a–z become A–Z, every other character is left as it is; JavaScript's `toUpperCase` also maps non-ASCII letters (see Left out) |
| Notification.Capitalize | server.js:1028 | first character upper-cased, the rest unchanged, same length |
| Notification.CapitalizedDecision | server.js:1028 | the capitalised decisions are "Accepted" and "Rejected" |
| Notification.Title | server.js:1028 | the embed title is "Application Accepted!" or "Application Rejected!" |
| Notification.ReviewFields | server.js:1031-1043 | four fields (Discord ID, Application ID, Reviewed By as "name (id)", Review Date or "N/A"), then a "Reason" field only when the stored reason is truthy |
| Notification.ReviewNotification | server.js:1012-1043 | accepted goes to the accepted webhook in green, rejected to the denied webhook in red, with that bot name and avatar, that title, a description naming the applicant, the capitalised type and the capitalised decision, and those fields |
| Properties.AddRoleThenRemoveRestores | server.js:1105-1145 | removing a just-added admin or moderator entry restores the tables from before the add |
| Properties.AddBlacklistThenRemoveRestores | server.js:1208-1245 | removing a just-added blacklist entry restores the tables from before the add |
| Properties.AddRoleTwiceConflicts | server.js:1111-1114 | a second add of the same id answers 409 and leaves the first entry as it is |
| Properties.DeleteThenFetchNotFound | server.js:1078-1084 | after a delete, fetching that id answers 404 to every moderator or admin |
| Properties.ReReviewOverwrites | server.js:985-995 | a decided application can be reviewed again, and the last review's decision, reviewer, time and reason win |
| Properties.ModeratorReadsButDoesNotWrite | server.js:936 | a moderator who is not an admin can list and fetch but gets 403 on review and delete, with nothing changed |
| Properties.ReviewedLeavesPendingList | server.js:940 | a reviewed application no longer appears in the pending list |
| Properties.ReviewNotificationReportsReview | server.js:1012-1043 | the message after a review names the decision, the acting admin as "name (id)" and the review date, and has a Reason field exactly when a truthy reason was given |
| Properties.SubmitThenHistory | server.js:902-926 | a user with no applications submits: the document is pending with no review time, and their history is exactly that document |
| Properties.InheritedTypeStored | server.js:873-912 | as written, an allowed user submitting type "toString" gets 200 and a stored pending document of a type the catalogue lacks, which breaks the store invariant; the corrected route answers 400 and changes nothing |
| Properties.BlacklistedSubmitRefused | server.js:879-886 | after an admin blacklists a user for "spam", that user's valid submission answers 403 with nothing stored, and the message ends in "spam" |

## Left out

- Discord OAuth login (code and token exchange, the `/users/@me` fetch) and logout. A session is an identity asserted from outside.
- The `isAdmin`/`isModerator` flags cached in the session at login and echoed by `/api/session`. The guards never read them.
- `/api/application-types`: it returns the constant `Catalogue.ApplicationTypes` and nothing else.
- The webhook POST, its error logging and the choice of URL from the environment. A failed POST never changes the reply. The `toLocaleString` review-date text and the printed document id are parameters of `Notification.ReviewNotification`.
- Database and validation failures that answer 500, apart from the malformed-id path. Mongoose schema validation is not modelled either.
- The race between the pending check and the insert when two submissions arrive at once. The model is sequential.
- JSON body fields that are not strings (numbers, arrays, objects). Request fields are optional strings, and `answers` is an optional string map.
- Mongoose, Express, sessions, static files, `app.listen`, the commented-out earlier server, and the browser scripts under `public/`. The browser-side checks (disabled buttons, empty-answer checks, trimming) do not bind the server.
- Routes.ListPending: returns the pending documents as a map keyed by id. The database's natural order is not modelled.
- History.MyApplications: applications with equal timestamps may come in any order. The database leaves that order unspecified too.
- Notification.UpperChar: maps the ASCII letters a–z only. `toUpperCase` also maps other Unicode letters ('é' to 'É'), and some to two characters ('ß' to "SS").
- Notification.Capitalize: inherits the ASCII-only upper-casing, so its same-length promise holds only in the model; with `toUpperCase` a first letter such as 'ß' makes the text one character longer.
- Routes.Submit / Server.ApplicationServer.Submit: use the corrected type lookup, so they answer 400 for "toString" and other inherited names where the code as written answers 200 and stores the document. The code as written is `Routes.SubmitAsWritten` (see Findings). The conjunct of `Routes.WellFormed` that every stored type is a catalogue type holds only with the corrected lookup (`Properties.InheritedTypeStored`).

## Findings

| source | as written | input that shows it | evidently intended | confidence | as-written member | corrected member |
|---|---|---|---|---|---|---|
| server.js:873 | `!applicationTypes[applicationType]` looks the type up on an object literal, so inherited Object.prototype names are truthy and pass | `applicationType: "toString"` (also "constructor", "__proto__", "valueOf", …) is stored as an application although no such template exists | only "general", "moderator" and "developer" are accepted; otherwise 400 "Invalid application type." | not executed; high | Routes.SubmitAsWritten, Properties.InheritedTypeStored | Routes.Submit, Catalogue.KnownTypeHasTemplate |
