# Jobtrackr core, modelled in Dafny

Jobtrackr tracks job applications from the emails a user receives. The API
takes emails an upstream parser has already classified. It stores each one
idempotently and links it to an application. To find the application it tries
the email thread, then a recent application at the same company, and creates
one when both fail. The application's status then follows the email's
classification. Every status change goes into a log of status events.

The API also:
- identifies the caller by the `x-user-email` header, creating the user on
  first sight;
- lists the caller's applications and shows one of them with its timeline;
- lets the caller set a status by hand.

The web board shows one column per status and turns a card dropped on another
column into a status update.

The project has seven modules:
- `Records` (records.dfy): users, emails, applications, status events and the
  five-value status enum.
- `Text` (text.dfy): the JavaScript string operations the handlers use.
- `Tables` (tables.dfy): the query shapes the handlers use, over tables held
  as sequences in insertion order: `findFirst`, a `where` filter,
  `orderBy: desc`, and `findFirst` with `orderBy: desc`.
- `Store` (store.dfy): a class holding the four tables and the id counter. Its
  methods are the single-row creates and updates. Every method keeps ids
  unique and user emails unique.
- `EmailIngested` (email_ingested.dfy): the ingestion endpoint, written as
  imperative steps on the store. Each step is proved against a state
  predicate, and lemmas compose the steps and prove idempotence.
- `Server` (server.dfy): the authentication middleware, the two GET routes and
  the PATCH route.
- `Board` (board.dfy): `groupByStatus`, written as the two loops of the
  source, and the drop decision.

## Model

| member | source | states |
|---|---|---|
| EmailIngested.DomainFromEmail | apps/api/src/emailIngested.ts:7-11 | None for an absent, empty or `@`-less address. Otherwise None exactly when nothing lies between the first `@` and the next `.`/`@`. A result is that run lower-cased: non-empty, without `.`, `@` or upper-case letters. |
| EmailIngested.ToStatus | apps/api/src/emailIngested.ts:12-20 | A non-OTHER result matches the hint ignoring case. OTHER exactly when the hint matches none of the four other names. An absent hint counts as "". |
| EmailIngested.ToStatusOfName | apps/api/src/emailIngested.ts:12-20 | Any spelling of a status name that equals it ignoring ASCII case maps to that status. |
| EmailIngested.ToStatusOfLowerName | apps/api/src/emailIngested.ts:12-20 | The lower-case name of every status maps back to that status. |
| EmailIngested.ContentOf | apps/api/src/emailIngested.ts:73-88 | The row written for the email. Optional fields, the sender's name and address included, are stored as given, "" included (`??` keeps ""). `to` and `cc` are present exactly when sent as lists, joined with ",". The provider thread id is kept when a headers object came or the id is truthy, and dropped otherwise. |
| EmailIngested.FindExistingEmail | apps/api/src/emailIngested.ts:66-71 | A hit is one of the user's emails with the request's message id or provider message id. None exactly when no user email has either (falsy ids are skipped). A message-id match wins over a provider-id match. |
| EmailIngested.FindByThread | apps/api/src/emailIngested.ts:22-38 | A result is one of the user's applications. Some email of the user, linked to it, answers the in-reply-to id, a reference id or the provider thread id. The order of the three tiers is stated by the six tier lemmas below. |
| EmailIngested.LinkedReplyHitDecides | apps/api/src/emailIngested.ts:23-26 | When the first in-reply-to hit is linked, it alone decides. The answer is the owned-application lookup for its link, even when that finds nothing. References and thread id do not matter. |
| EmailIngested.UnlinkedReplyHitFallsThrough | apps/api/src/emailIngested.ts:23-26 | When the first in-reply-to hit is missing or unlinked, the result is the same as with no in-reply-to id. |
| EmailIngested.LinkedReferenceHitDecides | apps/api/src/emailIngested.ts:27-30 | When the in-reply-to tier falls through and the first reference hit is linked, that hit decides. The answer is the owned-application lookup for its link, even when that finds nothing. The thread id does not matter. |
| EmailIngested.UnlinkedReferenceHitFallsThrough | apps/api/src/emailIngested.ts:27-30 | When the in-reply-to tier falls through and the first reference hit is missing or unlinked, the result is the same as with no references. |
| EmailIngested.LinkedThreadHitDecides | apps/api/src/emailIngested.ts:31-36 | When the first two tiers fall through and the first email of the provider thread is linked, the answer is the owned-application lookup for its link. |
| EmailIngested.NoTierDecides | apps/api/src/emailIngested.ts:22-38 | When none of the three tiers has a linked first hit, the lookup finds nothing. |
| EmailIngested.FindRecentByCompany | apps/api/src/emailIngested.ts:39-45 | A result is the user's application with the same company ignoring case, updated at most 60 days (5184000000 ms) before `now`. No such application is updated later. None exactly when none qualifies. |
| EmailIngested.CompanyGuess | apps/api/src/emailIngested.ts:95 | Never empty. It is the trimmed inferred company when that is not blank. Otherwise it is the sender's domain part when there is one, and "Unknown" only when there is none. |
| EmailIngested.RoleGuess | apps/api/src/emailIngested.ts:102 | Never empty. It is the trimmed inferred role when that is not blank, otherwise "Unknown". |
| EmailIngested.Resolve | apps/api/src/emailIngested.ts:94-96 | A found application belongs to the user. |
| EmailIngested.UpsertEmail | apps/api/src/emailIngested.ts:65-91 | The email table becomes AfterUpsert: the user's stored copy is rewritten with the new content (its link kept), or a row is appended. A fresh id is used only for an appended row. Store invariant kept. |
| EmailIngested.ResolveOrCreate | apps/api/src/emailIngested.ts:93-107 | The application Resolve finds, with the table unchanged. Otherwise a new application with a fresh id, the guessed company and role, the desired status, the send time as last activity and `now` as creation and update time. |
| EmailIngested.LinkEmail | apps/api/src/emailIngested.ts:109-111 | Only the email row at the position changes: it now links to the application. |
| EmailIngested.Transition | apps/api/src/emailIngested.ts:113-125 | The application takes the desired status, the send time as last activity and `now` as update time. A change is reported and logged as one "auto" event from the old status, with a fresh id. No change means no event and no id used. |
| EmailIngested.FileEmail | apps/api/src/emailIngested.ts:93-125 | Steps two to four together. The email row is linked to the returned application. Applications and events are as StatusAfterIngest describes. |
| EmailIngested.StatusOfSteps | apps/api/src/emailIngested.ts:93-125 | The effects of resolve-or-create followed by the transition add up to StatusAfterIngest. |
| EmailIngested.Ingest | apps/api/src/emailIngested.ts:65-127 | The email table is the upserted table with the row linked, and the returned email id is that row's. Applications and events as StatusAfterIngest: a found application takes the desired status, with an event only on change. A new application already has it, so no event. Store invariant kept. |
| EmailIngested.HandleEmailIngested | apps/api/src/emailIngested.ts:48-132 | 400 for missing ids exactly when there is neither a message id nor a provider with a provider message id. 400 for missing fields exactly when ids are present but provider, sentAt or subject is not. Both change nothing. Otherwise the effects are those of Ingest. |
| EmailIngested.ReingestionFindsSameEmail | apps/api/src/emailIngested.ts:66-71 | After an ingestion, looking the same request up again finds the row that ingestion wrote. |
| EmailIngested.SecondIngestionAddsNoEmail | apps/api/src/emailIngested.ts:65-91 | Ingesting the same request twice: the second leaves the email table's size unchanged and answers the same email id. |
| EmailIngested.ReupsertKeepsEmails | apps/api/src/emailIngested.ts:66-91 | After an ingestion, the upsert of the same request finds the row it wrote, at the same position, and leaves the email table as it is. |
| EmailIngested.ThreadHitStable | apps/api/src/emailIngested.ts:22-38 | Linking the upserted row to the application the thread lookup found leaves the lookup's answer unchanged, also after that application is updated in place. |
| EmailIngested.ThreadResolved | apps/api/src/emailIngested.ts:94-125 | An ingestion that found its application through the thread updates that application in place (same ids and owners), to the desired status. |
| EmailIngested.SecondIngestionSameApplication | apps/api/src/emailIngested.ts:65-127 | When the first ingestion found its application through the thread, a second ingestion of the same request leaves the email table as it was, answers the same email and application, reports no change and writes no status event. |
| Server.Authenticate | apps/api/src/server.ts:19-27 | 401 exactly when the header is absent or empty, with no change. Otherwise the user with that email, created (fresh id, appended) only when no user has it. Afterwards the lookup finds the returned user. |
| Server.RepeatedAuthentication | apps/api/src/server.ts:19-27 | Two requests with the same header return the same user and add at most one user. |
| Server.ListApplications | apps/api/src/server.ts:29-38 | Exactly the caller's applications (as a multiset), newest update first. |
| Server.ApplicationDetail | apps/api/src/server.ts:40-53 | 404 exactly when no application has the id and belongs to the caller. Otherwise it returns that application with exactly its emails, latest sent first, and exactly its status events, latest first. |
| Server.ParseStatus | apps/api/src/server.ts:15-17 | Accepts a status exactly when the body's `status` is its name, spelled exactly. |
| Server.PatchStatus | apps/api/src/server.ts:59-86 | 400 exactly for an invalid status, 404 exactly for a valid status with no matching application of the caller; neither changes anything. The current status changes nothing. A new status logs one "manual" event with a fresh id and is set, with `now` as last activity and update time. |
| Board.Column | apps/web/src/App.tsx:14-19 | A column is sorted newest update first. It holds each application with its status as often as the list does, and nothing else. |
| Board.FilterSizes | apps/web/src/App.tsx:14-19 | The five status filters' sizes add up to the list's length. |
| Board.BucketSizes | apps/web/src/App.tsx:14-19 | The five columns together hold as many applications as the list. |
| Board.SortColumns | apps/web/src/App.tsx:17 | Every column of the result is the sorted form of the same column before. |
| Board.GroupByStatus | apps/web/src/App.tsx:14-19 | All five statuses present, each column equal to Column. The column sizes add up to the list's length. |
| Board.OnDragEnd | apps/web/src/App.tsx:111-123 | An update is made exactly when there is a target column and the first application with the card's id has a different status. It then names that id and the target status. |
| Tables.FirstWhere | apps/api/src/server.ts:44-45 | The first position satisfying the filter. None exactly when no row does. |
| Tables.Filter | apps/api/src/server.ts:32-33 | Each row satisfying the filter as often as in the table, and no other. |
| Tables.Insert | apps/web/src/App.tsx:17 | Inserting into a descending list keeps it descending and adds exactly the element. |
| Tables.SortDesc | apps/api/src/server.ts:34 | A permutation of the rows in non-increasing key order. |
| Tables.MaxWhere | apps/api/src/emailIngested.ts:41-44 | A matching row whose key no matching row exceeds, the first such in table order. None exactly when no row matches. |
| Store.Store.CreateUser | apps/api/src/server.ts:24 | Appends a user with the next fresh id. Requires the email to be new (the column is unique), keeps the store invariant. |
| Store.Store.CreateEmail | apps/api/src/emailIngested.ts:90 | Appends an email with the next fresh id, keeping the invariant. |
| Store.Store.UpdateEmail | apps/api/src/emailIngested.ts:91 | Replaces one email row while keeping its id. |
| Store.Store.CreateApplication | apps/api/src/emailIngested.ts:98-106 | Appends an application with a fresh id, created and updated at `now`. |
| Store.Store.UpdateApplication | apps/api/src/server.ts:79-82 | Replaces one application row while keeping its id. |
| Store.Store.CreateStatusEvent | apps/api/src/server.ts:76-78 | Appends a status event with a fresh id. |
| Text.Upper | apps/api/src/emailIngested.ts:13 | Same length; each ASCII letter upper-cased, other characters kept. |
| Text.Lower | apps/api/src/emailIngested.ts:9 | Same length; each ASCII letter lower-cased, other characters kept. |
| Text.UpperOfLower | apps/api/src/emailIngested.ts:13 | Upper-casing a lower-cased string gives the upper-cased original. |
| Text.Trim | apps/api/src/emailIngested.ts:95 | A slice of the input. Only JavaScript white space is cut from each end, and the result neither starts nor ends with it. |
| Text.TakeUntil | apps/api/src/emailIngested.ts:10 | The longest prefix without the separator. |
| Text.SecondField | apps/api/src/emailIngested.ts:9 | The text after the first separator, up to the next separator or the end. |

## Left out

- Transport and framework: Express routing, CORS, JSON parsing and the `/health` route. The request logging (`console.log` in apps/api/src/server.ts:36, `console.error` in apps/api/src/emailIngested.ts:129) has no effect on results and is left out. The web side's fetch wrappers (apps/web/src/api.ts), the Vite configuration and all React rendering, including `prettyDate`, are left out.
- The catch-all 500 response: the model has no database failures. The handlers' several writes are not atomic in the source, and concurrent requests are not modelled.
- `now` and `sentAt`: the clock (`Date.now()`, `new Date()`) is a parameter. `sentAt` arrives already parsed, with None for an absent or empty value; date parsing and invalid dates are not modelled. Times are integers in milliseconds, including the ISO strings the board compares.
- Ids are natural numbers from one counter in the store, where the database generates string ids.
- The database schema is not part of this model. `updatedAt` is taken to be set to `now` by every create and update of an application, which is the behaviour of a Prisma `@updatedAt` column. `users.email` is taken to be unique.
- Header JSON of an email: only its `providerThreadId` entry is kept; other header entries are left out.
- Text.Upper and Text.Lower: only ASCII letters change case; full Unicode case mapping is left out.
- Board.GroupByStatus: the comparator the board gives `Array.prototype.sort` never returns 0. The model uses a sorted permutation instead; the order of equal timestamps is left open. A status outside the five (skipped by `?.push`) cannot occur, because the status type has exactly five values.
- An absent or null `references` list is the empty list; a `to`/`cc` field that is not an array is absent.
- EmailIngested.FindRecentByCompany: case-insensitive comparison is ASCII-only, like Text.Upper.
- Server.Authenticate: the created user's other columns are not modelled.
- EmailIngested.SecondIngestionAddsNoEmail: a repeat is proved to keep the application and write no event only when the first ingestion used the thread lookup (SecondIngestionSameApplication). Through the company fallback this does not hold in general: a request without thread ids ingested again more than 60 days (5184000000 ms) after the first no longer finds the application the first one created (apps/api/src/emailIngested.ts:39-45). It creates a second application and relinks the email to it (apps/api/src/emailIngested.ts:97-111).
- EmailIngested.Ingest: a first ingestion creates the application with the desired status already (apps/api/src/emailIngested.ts:103). It therefore writes no status event and reports `statusChanged: false` (apps/api/src/emailIngested.ts:113-115). No event with an empty previous status is ever written.
