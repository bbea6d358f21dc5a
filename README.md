# PDI idea submission — a verified model of its core

The PDI idea submission app lets employees submit innovation ideas with co-applicants and
attachments. Reviewers post reviews on those ideas, and administrators manage users. This
project models in Dafny the parts of the app that carry logic:

- **The two back ends.**
  - `index.js` is an in-memory prototype. Its `db` record becomes the class `MemoryStore.Db`,
    with sequence fields that its methods update in place.
  - `server/index.js` is the Express + Prisma server. It becomes the class `ServerStore.Store`,
    an abstract keyed store: a user list, an idea map keyed by id, and row lists for
    co-applicants, attachments and reviews.
  - The server's pure parts are functions: bearer-token parsing, the authentication outcome,
    the S3 key and URL, and the row mappings.
- **The list helpers of the front end**, as pure functions over sequences:
  - the review dashboard's filter;
  - the filter panel's handlers;
  - the co-applicant lists of the two idea forms;
  - the attachment list;
  - the form-data loop, a method with nested loops proved against a specification function;
  - the notification hook;
  - the admin panel's role filter.
- **The role gates**: the route guard's allow/redirect decision and the navigation bar's links.

Each source file is one module. `Seqs` holds the array operations the source uses everywhere:
`filter`, removal of one value, removal at an index, `find`, and the sublist relation. `Text`
holds ASCII lower-casing, `includes`, `split`/`join` on one character and decimal numerals.
`Types` holds the enumerations of `src/types/index.ts`. `Wrappers` holds `Option` and the HTTP
`Response`.

The model follows the code. Several rules that a description of this system might lead one to
expect are not in the code:

- No endpoint checks who may review an idea. There is no self-review ban, no role check, no
  stage order and no terminal status.
- Both back ends copy the review's `status` verbatim into the idea's status. APPROVED and
  PENDING are therefore stored as idea statuses, although neither is a member of `IdeaStatus`.
  `Types.VerdictAsIdeaStatus` and `MemoryStore.VerdictStatusOutsideIdeaStatus` prove this.
- The server does not cap co-applicants. The caps exist only in the two forms: four in
  `IdeaForm`, five rows in `IdeaSubmission`.
- Idea creation on the server is not atomic. The idea row is written first. A `coApplicants`
  field that is not JSON, or a failed upload, then ends the request with 500 and leaves the
  rows already written in place. `ServerStore.Store.CreateIdea` states exactly which rows
  remain.

The lifecycle invariant that the two review endpoints do keep is proved:

- An idea without reviews is SUBMITTED.
- An idea with reviews carries its last review's status.

`MemoryStore.Db.Valid` and `ServerStore.Store.Valid` state it, and every state-changing method
preserves it.

## Model

| member | source | states |
|---|---|---|
| Types.IdeaStatusNames | src/types/index.ts:1 | the seven idea-status wire names and their parse are inverse to each other in both directions |
| Types.RoleNames | src/types/index.ts:3 | the three role names and their parse are inverse to each other in both directions |
| Types.VerdictAsIdeaStatus | src/types/index.ts:37-38 | of the review verdicts only REJECTED also names an idea status (and names REJECTED) |
| Types.StageAsIdeaStatus | src/types/index.ts:37 | every review stage name is also an idea-status name |
| MemoryStore.NewIdea | index.js:62-75 | a new idea has the given id and submitter, status SUBMITTED, no reviews, no attachments, and the given co-applicants or none when absent; it satisfies the lifecycle invariant |
| MemoryStore.WithReviewEffect | index.js:101-102 | recording a review appends exactly that review, sets the status to the review's, changes no other field, and keeps the lifecycle invariant whatever the prior status |
| MemoryStore.VerdictStatusOutsideIdeaStatus | index.js:102 | after a review, the idea's status is a valid `IdeaStatus` exactly when the verdict was REJECTED |
| MemoryStore.Db.constructor | index.js:9-18 | the store starts with the three seeded users and no ideas, reviews or attachments |
| MemoryStore.Db.FindUser | index.js:26 | the loop returns the position of the first user with the email, or -1 when none has it |
| MemoryStore.Db.FindIdea | index.js:42 | the loop returns the position of the first idea with the id, or -1 when none has it |
| MemoryStore.Db.Login | index.js:24-34 | 401 "Invalid credentials" exactly when no user has the email; otherwise 200 with the first such user; nothing is written |
| MemoryStore.Db.GetIdea | index.js:41-50 | 404 "Idea not found" exactly when no idea has the id; otherwise 200 with the first such idea |
| MemoryStore.Db.CreateIdea | index.js:52-79 | exactly one SUBMITTED idea is appended and returned with 201; users, reviews, attachments and earlier ideas are unchanged; the invariant is kept |
| MemoryStore.Db.PostReview | index.js:82-105 | an unknown id gives 404 and no change; otherwise 201 with the review, and only the first matching idea changes, by `WithReview`; `db.users`, `db.reviews` and `db.attachments` are untouched |
| MemoryStore.PostReviewFrame | index.js:101-102 | after a review post the list keeps its length, every other idea is unchanged, and the target's last review is the posted one and its status that review's |
| ServerStore.BearerToken | server/index.js:33-34 | a token found is non-empty and contains no space; a missing header gives none |
| ServerStore.BearerTokenOfFields | server/index.js:34 | for a header made of space-free fields, the token is exactly the second field (none if that is empty) |
| ServerStore.NoSpaceNoToken | server/index.js:34-38 | a header without a space carries no token, so the request gets 401 |
| ServerStore.BearerTokenIsSecondField | server/index.js:34 | every token found is the second field of the header's split, which joins back to the header |
| ServerStore.Authenticate | server/index.js:32-46 | 401 exactly when there is no token, 403 exactly when the verifier rejects it, otherwise the verified claims |
| ServerStore.Denied | server/index.js:36-43 | the middleware's replies: 401 "Unauthorized", 403 "Forbidden" |
| ServerStore.LoginTokenAuthenticates | server/index.js:23-46 | a login token sent back as `Bearer <token>` authenticates as the user it was signed for |
| ServerStore.UrlRoundTrip | server/index.js:67 | the object URL is the bucket prefix followed by the key, and the key is recovered from it |
| ServerStore.S3KeyShape | server/index.js:60 | the key is `attachments/<userId>/`, then the timestamp's decimal digits (which read back as the timestamp), then `_` and the original name |
| ServerStore.S3KeyDistinguishesTimestamps | server/index.js:60 | for one user and one file name, equal keys mean equal timestamps |
| ServerStore.CoApplicantRows | server/index.js:183-186 | one row per array element, in order, tied to the new idea and named by the element's email |
| ServerStore.CoApplicantRowsFor | server/index.js:178-189 | rows only when the field parses to an array, one per element, all tied to the new idea |
| ServerStore.AttachmentRows | server/index.js:195-202 | one row per uploaded file, in order, with its original name, the new idea's id and the URL of key `attachments/<user>/<now>_<name>` |
| ServerStore.LastReviewStatus | server/index.js:230-245 | none exactly when the idea has no review row; otherwise the status of its last review row |
| ServerStore.LastReviewAfterAppend | server/index.js:230-239 | appending a review row changes the last review status of its own idea only |
| ServerStore.Store.FindUserByEmail | server/index.js:73 | the loop returns the position of the user with the email, or -1 |
| ServerStore.Store.Login | server/index.js:71-81 | 401 "Invalid credentials" exactly when no user has the email; otherwise 200 with that user and a token signed for its id, email and line of business |
| ServerStore.Store.Register | server/index.js:83-99 | a new user is stored with role APPLICANT whatever role was asked for; a taken email gives 500 and no change |
| ServerStore.Store.CreateIdea | server/index.js:162-216 | after authentication, a SUBMITTED idea owned by the token's user, then its co-applicant rows, then (on upload) its attachment rows; 500 after a bad co-applicant field or a failed upload, with the earlier rows kept; invariant kept |
| ServerStore.Store.PostReview | server/index.js:219-248 | after authentication: 404 and nothing written for an unknown idea; otherwise one review row by the token's user and the idea's status set to the request's status, no other idea changed; invariant kept |
| Text.IncludesIsSubstring | src/pages/ReviewDashboard.tsx:28-29 | `includes` holds exactly when the needle occurs at some position of the haystack |
| Text.ToLowerIdempotent | src/pages/ReviewDashboard.tsx:28-29 | a lower-cased string has no upper-case letter, and lower-casing it again changes nothing |
| Text.JoinSplit | server/index.js:34 | joining the parts of a split on the separator gives back the string |
| Text.SplitJoin | server/index.js:34 | splitting a join of separator-free parts gives back the parts |
| Text.DecimalRoundTrip | server/index.js:60 | the decimal numeral of a timestamp reads back as that timestamp |
| Text.DecimalInjective | server/index.js:60 | different timestamps have different numerals |
| FilterPanel.InitialState | src/components/FilterPanel.tsx:16-20 | the dashboard's filters when given, an empty date range becoming 'all'; otherwise nothing ticked and 'all' |
| FilterPanel.Toggle | src/components/FilterPanel.tsx:23-25 | a ticked value loses every occurrence, every other value keeps all its occurrences and the order is kept; an unticked value is appended at the end |
| FilterPanel.ToggleTwice | src/components/FilterPanel.tsx:22-30 | toggling an unticked value twice restores the list |
| FilterPanel.ToggleMembership | src/components/FilterPanel.tsx:23-25 | after a toggle, a value is ticked exactly when it was ticked before or is the toggled value, but not both |
| FilterPanel.HandleStatusChange | src/components/FilterPanel.tsx:22-30 | only the status list is toggled, and the state reported is the state stored |
| FilterPanel.HandleLoBChange | src/components/FilterPanel.tsx:32-40 | only the line-of-business list is toggled, and the state reported is the state stored |
| FilterPanel.HandleDateRangeChange | src/components/FilterPanel.tsx:42-46 | only the date range is replaced, and the state reported is the state stored |
| FilterPanel.ClearAll | src/components/FilterPanel.tsx:107-117 | stores and reports nothing ticked and 'all' |
| FilterPanel.StatusClickTwice | src/components/FilterPanel.tsx:22-30 | clicking an unticked status twice restores the whole filter state |
| ReviewDashboard.FilteredIdeas | src/pages/ReviewDashboard.tsx:22-43 | empty with no ideas loaded; otherwise an order-preserving sublist of matching ideas; with statuses or lines of business ticked, each listed idea has a ticked one |
| ReviewDashboard.FilteredMembership | src/pages/ReviewDashboard.tsx:25-41 | an idea is listed exactly when it is loaded and matches search, status, line of business and date |
| ReviewDashboard.FilteredMultiplicity | src/pages/ReviewDashboard.tsx:25-41 | a matching idea is listed as many times as it is loaded, and a non-matching idea not at all |
| ReviewDashboard.NoCriteriaListsAll | src/pages/ReviewDashboard.tsx:26-41 | with no search term and nothing ticked, every loaded idea is listed, in order |
| ReviewDashboard.SearchIsSubstring | src/pages/ReviewDashboard.tsx:26-29 | an idea matches the search exactly when the lower-cased term occurs in its lower-cased title or description |
| ReviewDashboard.SearchIgnoresCase | src/pages/ReviewDashboard.tsx:28-29 | lower-casing the search term never changes which ideas match |
| ReviewDashboard.DateRangeIrrelevant | src/pages/ReviewDashboard.tsx:39 | the listing is the same for every date range |
| IdeaForm.InitialCoApplicants | src/components/IdeaForm.tsx:13 | the initial data's co-applicants, or none |
| IdeaForm.AddCoApplicant | src/components/IdeaForm.tsx:33-37 | a new address is appended while fewer than four are listed; at the cap or for a listed address the list is unchanged |
| IdeaForm.RemoveCoApplicant | src/components/IdeaForm.tsx:39-41 | the address no longer occurs, every other address keeps all its occurrences, and their order is kept |
| IdeaForm.AddKeepsWellFormed | src/components/IdeaForm.tsx:34 | from a list of at most four distinct addresses, adding keeps at most four and none twice |
| IdeaForm.AddMembership | src/components/IdeaForm.tsx:34-35 | after an add, the listed addresses are the old ones plus the new one exactly when there was room |
| IdeaForm.RemoveKeepsWellFormed | src/components/IdeaForm.tsx:39-41 | removing keeps at most four and none twice |
| IdeaForm.RemoveMembership | src/components/IdeaForm.tsx:40 | removal keeps exactly the other addresses |
| IdeaForm.RemoveUndoesAdd | src/components/IdeaForm.tsx:33-41 | removing an address just added gives back the previous list |
| IdeaSubmission.InitialRows | src/pages/IdeaSubmission.tsx:31-33 | the form starts with one blank co-applicant row |
| IdeaSubmission.AddCoApplicantRow | src/pages/IdeaSubmission.tsx:89-96 | with five rows or more, no row is added and the limit message is set; otherwise the message is cleared and one blank row appended |
| IdeaSubmission.RemoveRow | src/pages/IdeaSubmission.tsx:177 | the row at the index is removed and the others keep their order |
| IdeaSubmission.RowCapKept | src/pages/IdeaSubmission.tsx:89-96 | from at most five rows, adding keeps at most five and removing leaves fewer than five |
| IdeaSubmission.AddRefusedIffError | src/pages/IdeaSubmission.tsx:90-95 | the add shows an error exactly when it adds no row |
| IdeaSubmission.HandleFileChange | src/pages/IdeaSubmission.tsx:65-68 | the picked files follow the listed ones, in order; no pick leaves the list as it was |
| IdeaSubmission.RemoveAttachment | src/pages/IdeaSubmission.tsx:70-72 | exactly the file at the index goes (the multiset loses that one file), the others keep their order; an index out of range changes nothing |
| IdeaSubmission.RemoveUndoesPick | src/pages/IdeaSubmission.tsx:65-72 | removing a file just picked, from its position, restores the list |
| IdeaSubmission.OnSubmit | src/pages/IdeaSubmission.tsx:74-87 | submits exactly when a session with a non-empty `user.user.id` exists; no session, or a missing or empty `user.user.id`, submits nothing; a session without `user.user` throws; the submission carries the form fields, the listed files and the session's top-level `id` |
| IdeaSubmission.ServerSessionSubmitsNoSubmitter | src/pages/IdeaSubmission.tsx:83 | a session shaped like the server's login response passes the guard but sends no submitter |
| IdeaSubmission.EntryOrder | src/pages/IdeaSubmission.tsx:80-84 | for form keys that include neither added key, the spread keeps the form's keys in order and adds `attachments` and `submittedBy` after them |
| IdeaSubmission.AttachmentEntries | src/pages/IdeaSubmission.tsx:47-50 | one `attachments` entry per file, in order |
| IdeaSubmission.Serialize | src/pages/IdeaSubmission.tsx:43-54 | the nested loops build exactly the form-data the specification function `Serialized` gives for that key order |
| IdeaSubmission.SerializedCount | src/pages/IdeaSubmission.tsx:43-54 | every key but `attachments` yields exactly one entry under its name per occurrence in the key order |
| IdeaSubmission.SerializedValues | src/pages/IdeaSubmission.tsx:43-54 | every entry under the name of a key other than `attachments` holds that key's text: its field, the JSON of the co-applicant rows, or the submitter (`"undefined"` when absent) |
| IdeaSubmission.SerializedFiles | src/pages/IdeaSubmission.tsx:47-50 | with distinct keys, the `attachments` entries carry exactly the listed files in order when the key is present, and none otherwise |
| IdeaSubmission.SubmittedForm | src/pages/IdeaSubmission.tsx:43-54 | a submission sends exactly one `coApplicants` entry, holding the JSON of the rows, exactly one `submittedBy` entry, holding the session id or `"undefined"`, and the listed files in order |
| Notifications.MockNotifications | src/services/NotificationService.ts:14-33 | the development list: notification '1' unread, '2' read |
| Notifications.Shown | src/services/NotificationService.ts:38 | the fetched list, or the mock list while there is none |
| Notifications.UnreadCount | src/services/NotificationService.ts:83 | the count never exceeds the list's length |
| Notifications.UnreadCountIsFalseFlags | src/services/NotificationService.ts:83 | the unread count is the number of `false` read flags |
| Notifications.MockUnreadCount | src/services/NotificationService.ts:14-33 | the mock list has one unread notification |
| Notifications.MarkAsRead | src/services/NotificationService.ts:70-72 | same length and order; each position is the old notification, marked read when it has the id |
| Notifications.MarkAsReadEffect | src/services/NotificationService.ts:70-72 | a notification with the id becomes read and keeps its other fields; every other notification is unchanged |
| Notifications.MarkAsReadIdempotent | src/services/NotificationService.ts:70-72 | marking twice is marking once |
| Notifications.MarkUnknownId | src/services/NotificationService.ts:70-72 | marking an id no notification has changes nothing |
| Notifications.MarkAsReadCount | src/services/NotificationService.ts:70-83 | the unread count of the mapped list is the old count less exactly the number of unread notifications with that id |
| Notifications.MarkAsReadNeverRaisesCount | src/services/NotificationService.ts:70-83 | the unread count of the mapped list is never above the old count, and is below it when an unread notification has the id |
| AdminPanel.FilteredUsers | src/pages/AdminPanel.tsx:41-45 | empty before users load; all users with no role selected; otherwise an order-preserving sublist, never longer, of users having the role |
| AdminPanel.SelectedRoleExact | src/pages/AdminPanel.tsx:44 | with a role selected, each user with that role appears as often as listed, and no other user appears |
| ProtectedRoute.Decide | src/components/ProtectedRoute.tsx:15-29 | nothing exactly when there is no auth state; login redirect carrying the location exactly when not authenticated; the page for every authenticated user when no roles are listed |
| ProtectedRoute.GroupNames | src/components/ProtectedRoute.tsx:24 | the groups compared are 'applicant', 'reviewer' and 'admin' |
| ProtectedRoute.SomeRoleInGroupsIsExists | src/components/ProtectedRoute.tsx:23-25 | `some` holds exactly when some listed role's group name is among the groups |
| ProtectedRoute.AdmittedIff | src/components/ProtectedRoute.tsx:23-29 | an authenticated user reaches a role-listed route exactly when some listed role, lower-cased, is one of the user's groups, and is sent home otherwise |
| ProtectedRoute.NothingToMatchRedirects | src/components/ProtectedRoute.tsx:23-27 | an empty role list, or a token without groups, sends every authenticated user home |
| ProtectedRoute.UpperCaseGroupDoesNotMatch | src/components/ProtectedRoute.tsx:24 | a group spelled as the upper-case role name does not admit |
| Layout.NavLinks | src/components/Layout.tsx:17-48 | nothing without a session and a TypeError without a nested user; otherwise exactly Dashboard, Submit, Review, Admin for ADMIN, Dashboard, Submit, Review for REVIEWER, and Dashboard, Submit for any other role |
| Layout.ApplicantLinks | src/components/Layout.tsx:39-48 | an applicant sees only Dashboard and Submit |
| Layout.AdminImpliesReview | src/components/Layout.tsx:39-48 | whoever sees the Admin link sees the Review link |
| Layout.UnknownRoleLinks | src/components/Layout.tsx:39-48 | a role in any other spelling shows only Dashboard and Submit |

## Left out

- `GET /api/ideas` in both back ends is left out. It is a plain read of the list, and on the server of the ideas filtered by submitter.
- `GET /api/ideas/line-of-business` and the server's `GET /api/ideas/:id` are left out. They are Prisma queries with `include` and add no logic beyond the keyed lookup that is modelled.
- Prisma, S3, bcrypt and JWT are foreign calls.
  - The store is the abstract class `ServerStore.Store`.
  - JWT signing and verification are function parameters.
  - Whether the uploads succeed is a boolean parameter.
  - Prisma's unique e-mail constraint is modelled by `Register`'s 500.
- `Date.now()`, `new Date()` and the generated ids are parameters. The code does not make ids unique. `MemoryStore.Db` therefore looks ideas up by first match. `ServerStore.Store.CreateIdea` requires a fresh id, as the database's key generator guarantees.
- ServerStore.Store.CreateIdea: every file of one request is given the same timestamp. In the source each parallel upload reads the clock itself.
- Concurrency is left out: the implicit global `reviewerid`, the parallel uploads and racing review posts. Every request runs to completion before the next one starts.
- Express routing, CORS, multer, the error middleware's logging and the `express-async-handler` plumbing are left out. Only the status codes and messages the handlers produce are modelled.
- Text.ToLower: lower-cases ASCII letters only. JavaScript's `toLowerCase` also folds the rest of Unicode.
- IdeaSubmission.Serialize: `JSON.stringify` of the co-applicant rows is a function parameter. Nothing is proved about its output. The server side models the parsed field as `ServerStore.CoApplicantsField`.
- ServerStore.CoApplicantEntry: every element of a parsed co-applicant array is an object with a string `email`. In the source a `null` element makes `coApplicant.email` throw, which ends the request with a 500 after the idea row was written. An element without `email` gives a row whose `coapplicantname` is undefined. Neither case is modelled.
- IdeaSubmission.OnSubmit: react-hook-form's required-field validation before `onSubmit` is left out.
- The key order of the form values that react-hook-form passes is a parameter of `IdeaSubmission.EntryOrder`.
- React rendering, react-query caching, polling and invalidation, the EventSource subscription, and the browser Notification API are left out.
- The network call of `markAsRead` is left out. Only its fallback mapping is modelled.
- The list that the fallback of `markAsRead` maps is only the mutation's return value. The success handler just invalidates the `notifications` query, and the bell ignores the result, so in the source marking changes nothing the user sees. The model states what the mapped list would contain and nothing about what the bell shows afterwards.
- Okta sign-in, the `localStorage` session of the auth context and the axios wrappers are left out. The session reaches the models as a value.
- Display-only pages are left out: the dashboard, the idea card, the idea details and the review modal. So are the seed script, the mock data and the styling.
- The review dashboard's initial filters (nothing ticked, 'all') are not a separate member. `ReviewDashboard.NoCriteriaListsAll` covers them for every date range.
