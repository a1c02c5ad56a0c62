# Discord feedback app: a verified model

The application lets people sign in with Discord. Users who hold a given
role on a given server can post star-rated text feedback, and anyone can
read it. This project models the parts of it whose behaviour can be stated
exactly, and proves what they promise:

- **The write endpoints** (`Routes.Api`). The server's POST, PATCH and DELETE
  handlers on `/api/feedbacks` each run an ordered chain of guards.
  - One `Api` object holds the store and the caller's session id. Each
    handler is one method.
  - Each handler's contract states which status and body come back for every
    combination of these: session, user row, feedback existence, ownership,
    admin flag and payload validity.
  - The contracts also state that the store is unchanged on every rejection.
  - The same goes for the OAuth callback, with its redirect reason codes and
    its user upsert, for `/api/auth/me` and for logout.
- **The tables** (`Storage.DatabaseStorage`).
  - The `users` and `feedbacks` tables are sequences of rows. A `Valid()`
    invariant keeps the database's constraints: primary keys, the unique
    Discord id, and the foreign key from a feedback to its user.
  - `feedbacks` is kept newest first, the order every query asks for.
  - The reads (lookups, the per-user filter, the left join that drops rows
    without a user) are functions with contracts.
  - The writes are methods that keep the invariant. Each states its new
    table as a function of the old one.
- **The payload validator and row shapes** (`Schema`): the two tables' row
  defaults and the `feedbackFormSchema` check.
- **The Discord adapter** (`Discord`):
  - the authorize URL;
  - how each provider answer becomes a result;
  - the role check.

  The authorize URL's query string is produced by an
  `application/x-www-form-urlencoded` serializer (`UrlSearchParams`). Its
  meaning is stated as a round trip: parsing it back gives the parameters.
- **Client helpers**:
  - the star control's toggle and fill rules (`StarRating`);
  - the submit form's rating normalisation, reset and pending state
    (`FeedbackFormClient`);
  - the login error messages, panel choice and title on the home page
    (`Home`);
  - the list's view choice and Polish noun (`FeedbackList`);
  - the avatar URL and initials (`DiscordAvatar`).

The outside world enters as parameters:

- the provider's HTTP answers, as status, parsed body and text;
- the environment's client id and role id, and the request's base URL;
- the generated feedback id, the current time, and whether saving the
  session succeeded.

Timestamps are integers.

The feedback list is answered as a plain array. The `GET /api/feedbacks`
handler builds sort, rating-filter and page options from the query
(server/routes.ts:150-158), but passes them to a storage call that takes no
options (server/storage.ts:44-57), and answers with the array it returns.
`Routes.Api.ListFeedbacks` therefore returns every feedback with its author,
newest first, whatever the query.

## Model

| member | source | states |
|---|---|---|
| Schema.UserRow | shared/schema.ts:7-16 | A stored user keeps the given id, Discord id, name, discriminator and avatar. Both flags are false unless set to true. `createdAt` is the insertion time. |
| Schema.FeedbackRow | shared/schema.ts:18-25 | A new feedback row has the generated id, the given user, content and rating, the insertion time, and no `updatedAt`. |
| Schema.ParseFeedbackFormAsWritten | shared/schema.ts:47-50 | Accepted exactly when the body is an object, content is a string of 10 to 500 characters, and rating is absent or a number from 1 to 5; a null rating is rejected. On success, content and rating come back unchanged. A failure carries at least one issue. |
| Schema.ParseFeedbackForm | shared/schema.ts:47-50 | The same acceptance, except that a null rating also counts as "no rating". An accepted rating is always in 1..5. On every body without a null rating it agrees with the validator as written. |
| Schema.ContentLengthBoundaries | shared/schema.ts:48 | With a valid rating, content of length 9 or 501 is rejected and length 10 or 500 accepted. |
| Schema.FailureNamesTheFields | shared/schema.ts:47-50 | For an object body, every issue either validator reports is at path `content` or `rating`. |
| UrlSearchParams.Utf8Bytes | server/discord.ts:29-36 | A character's UTF-8 encoding has 1 to 4 bytes, each below 256. An ASCII character is its own single byte. |
| UrlSearchParams.Utf8RoundTrip | server/discord.ts:29-36 | The bytes of a character are its UTF-8 encoding: the leading byte announces their number, the others are continuation bytes, the shortest form is used, and decoding them gives back the code point. |
| UrlSearchParams.HexRoundTrip | server/discord.ts:29-36 | Reading back the hex digit written for a value from 0 to 15 gives that value. |
| UrlSearchParams.Encode | server/discord.ts:29-36 | Encoded text never contains `&` or `=`, so it cannot break the pair structure. |
| UrlSearchParams.DecodeEncode | server/discord.ts:29-36 | Decoding undoes form-encoding on ASCII text. |
| UrlSearchParams.IndexOf | server/discord.ts:29-36 | Returns the first position of the character, or the length when the character does not occur. |
| UrlSearchParams.ParseSerializedPair | server/discord.ts:29-36 | One serialized `name=value` pair of ASCII strings parses back to the same pair. |
| UrlSearchParams.ParseSerialize | server/discord.ts:29-36 | Parsing `toString()` of a list of ASCII pairs gives back the same pairs in the same order. |
| Discord.GetDiscordAuthUrl | server/discord.ts:28-37 | The URL starts with the authorize endpoint. For ASCII inputs its query parses back to exactly `client_id`, the given `redirect_uri`, `response_type=code` and `scope=identify guilds.members.read`, in that order. |
| Discord.AuthQueryRoundTrip | server/discord.ts:29-34 | The four authorize parameters survive serialization and parsing unchanged. |
| Discord.ExchangeCodeForToken | server/discord.ts:39-63 | Fails exactly on a non-2xx status, with "Failed to exchange code for token: " followed by the provider's text. Otherwise it returns the body. |
| Discord.GetDiscordUser | server/discord.ts:65-77 | Fails exactly on a non-2xx status, with "Failed to fetch Discord user". Otherwise it returns the body. |
| Discord.ClassifyGuildResponse | server/discord.ts:92-102 | 404 means "not a member". Any other non-2xx status is a lookup failure carrying the text. A 2xx status is the returned member. |
| Discord.GetGuildMember | server/discord.ts:79-103 | A member exactly on a 2xx status (the body). Both failure kinds give null, and it never fails. |
| Discord.Includes | server/discord.ts:109 | True exactly when the role id is in the list. |
| Discord.HasRequiredRole | server/discord.ts:105-110 | False without a member. For a member, true exactly when the role id is among its roles. |
| Discord.FailedMembershipMeansNoRole | server/discord.ts:92-110 | Any non-2xx membership answer yields "no role" for every role id. |
| Discord.MemberRoleDecides | server/discord.ts:102-110 | With a 2xx answer, the role flag is exactly membership of the role id in the returned roles. |
| Storage.GetUser | server/storage.ts:17-20 | The result is a row of the table with that id. It is missing exactly when no row has that id. |
| Storage.GetUserByDiscordId | server/storage.ts:22-25 | The result is a row of the table with that Discord id. It is missing exactly when no row has it. |
| Storage.GetUserFindsTheRow | server/storage.ts:17-25 | Under the key constraints, both lookups return the one row that has the key. |
| Storage.GetFeedback | server/routes.ts:215 | The result is the feedback row with that id. It is missing exactly when no row has that id. |
| Storage.GetFeedbacksByUserId | server/storage.ts:59-65 | Exactly the rows with that user id, in newest-first order when the table is. |
| Storage.ByUserIdCount | server/storage.ts:59-65 | Each row of that user appears as often as the table holds it. Rows of other users never appear. |
| Storage.LeftJoin | server/storage.ts:45-49 | One joined row per feedback, in table order. It pairs the feedback with the user its `userId` names, or null. |
| Storage.DropOrphans | server/storage.ts:51-56 | Rows with a null user are dropped, and every other row becomes its feedback together with its user. Nothing is invented. When no user is null, nothing is dropped. |
| Storage.DropOrphansCount | server/storage.ts:51-56 | A feedback with its user appears exactly as often as the joined row that pairs them. |
| Storage.LeftJoinCount | server/storage.ts:45-49 | A joined row (feedback, user) appears as often as the feedback is in its table when that user is the one the join finds, and otherwise never. |
| Storage.DropOrphansKeepsOrder | server/storage.ts:49-56 | Filtering keeps the newest-first order. |
| Storage.GetFeedbacks | server/storage.ts:44-57 | The result is no longer than the table. Each item is a stored feedback with the user its `userId` names. Every feedback whose user exists appears. The order is newest first. When every reference resolves, nothing is dropped. |
| Storage.GetFeedbacksCount | server/storage.ts:44-57 | Each feedback with the user its `userId` names appears exactly as often as the feedback is in its table, and with any other user never: no row is duplicated or lost. |
| Storage.ApplyPatch | server/storage.ts:35-42 | Only the supplied columns change. Id, Discord id and `createdAt` are kept. |
| Storage.InsertNewestFirst | server/storage.ts:67-73 | One row is added and no row is lost. |
| Storage.InsertKeepsOrder | server/storage.ts:67-73 | Inserting by `createdAt` keeps the table newest first. |
| Storage.InsertKeepsUniqueIds | server/storage.ts:67-73 | Inserting a row with a fresh id keeps the ids unique. |
| Storage.InsertedIds | server/storage.ts:67-73 | The ids after an insert are the old ids plus the new one. |
| Storage.RemoveFeedback | server/routes.ts:272 | Exactly the rows with other ids stay. Removing an absent id changes nothing. |
| Storage.RemovedIds | server/routes.ts:272 | The ids after a removal are the old ids without that id. |
| Storage.RemoveKeepsOrder | server/routes.ts:272 | Removing keeps the newest-first order. |
| Storage.RemoveKeepsUniqueIds | server/routes.ts:272 | Removing keeps ids unique. It shortens the table by one when the id was there. |
| Storage.ReplaceFeedback | server/routes.ts:239-242 | Only the row with that id changes, and only its content and rating. |
| Storage.PatchUsers | server/storage.ts:35-42 | Only the row with that id changes, and only by the patch. |
| Storage.PatchKeepsKeys | server/storage.ts:35-42 | Patching keeps every row's id and Discord id, so the key constraints and the foreign keys still hold. |
| Storage.ReplaceKeepsInvariants | server/routes.ts:239-242 | Replacing content and rating keeps ids, order and references. |
| Storage.DatabaseStorage.constructor | server/storage.ts:16 | Both tables start empty and valid. |
| Storage.DatabaseStorage.CreateUser | server/storage.ts:27-33 | Succeeds exactly when both the id and the Discord id are fresh. It then appends the stored row and returns it. Otherwise it reports the violated key (`id` when the id is taken, else `discord_id`) and changes nothing. The invariant is kept. |
| Storage.DatabaseStorage.UpdateUser | server/storage.ts:35-42 | An absent id returns nothing and changes nothing. Otherwise only that row is patched, and the patched row is returned. The invariant is kept. |
| Storage.DatabaseStorage.CreateFeedback | server/storage.ts:67-73 | Succeeds exactly when the id is fresh and the user exists. It then inserts the stored row in `createdAt` order and returns it. Otherwise nothing changes. The invariant is kept. |
| Storage.DatabaseStorage.UpdateFeedback | server/routes.ts:239-242 | Content and rating of that row are replaced. The updated row is returned, or nothing for an absent id. |
| Storage.DatabaseStorage.DeleteFeedback | server/routes.ts:272 | That id's row is removed, and the result says whether it existed. |
| Routes.SessionUser | server/routes.ts:183 | The caller's row: present exactly when the session holds a non-empty id naming an existing user. |
| Routes.StoredRating | server/routes.ts:200 | `rating \|\| null`: an absent rating and 0 are both stored as null, and any other rating as it is. |
| Routes.CallbackUri | server/routes.ts:60 | The base URL followed by `/api/auth/discord/callback`. |
| Routes.AuthStartRedirectsHere | server/routes.ts:59-65 | The login start's authorize URL carries this server's callback as `redirect_uri`, next to the client id, `response_type=code` and the scopes. |
| Routes.DisplayName | server/routes.ts:97 | The global name when it is present and non-empty, else the username. |
| Routes.ListOptionsOf | server/routes.ts:152-158 | Page 1 and limit 10 unless given. The sort and rating parameters are passed on. |
| Routes.Api.constructor | server/routes.ts:31-48 | A fresh server has no session user. |
| Routes.Api.DiscordCallback | server/routes.ts:67-126 | A provider error redirects to `/?error=<it>`. A missing, empty or non-string code gives `no_code`. A failed token exchange or profile fetch gives `auth_failed`. In all three cases nothing changes. Otherwise an existing user (found by Discord id) is patched with name, discriminator, avatar and the fresh role flag. A new user is created with id = Discord id, or the callback fails with `auth_failed` if that id is taken. A failed session save gives `session_error`. On `/` the session names a user whose Discord id, name, avatar and role flag are the fresh ones. Feedback rows are never touched. |
| Routes.Api.AuthMe | server/routes.ts:128-140 | Without a session: not authenticated. A session whose user is gone is destroyed and answers not authenticated. Otherwise: authenticated with the user. |
| Routes.Api.Logout | server/routes.ts:142-146 | The session is destroyed and the target is `/`. |
| Routes.Api.ListFeedbacks | server/routes.ts:148-166 | Every feedback with its author, newest first, one item per row, whatever the query. |
| Routes.Api.PostFeedback | server/routes.ts:178-207 | 401 without a session. 403 when the user is missing or lacks the role. 400 with the issues for a payload the validator as written rejects, a null rating included. 500 when the store refuses the row. The order of these checks is fixed. 201 exactly when every check passes: the stored row has the session user, the validated content and the normalised rating. Only a 201 writes. |
| Routes.Api.PatchFeedback | server/routes.ts:209-248 | 401 without a session. 404 for a missing id, before the user is loaded. 401 "User not found". 403 unless owner or admin, before validation. 400 for a payload the validator as written rejects, a null rating included. 200 exactly when all pass: only content and rating of that row change, and the changed row is returned. Every rejection leaves the store as it was. |
| Routes.Api.DeleteFeedback | server/routes.ts:250-278 | The same guard order without the payload. On 200, exactly that row is gone, every other row stays in order, and the body is `{success: true}`. Every rejection leaves the store as it was. |
| StarRating.HandleClick | client/src/components/star-rating.tsx:23-27 | Reports nothing when read-only or without a callback. Otherwise it reports 0 for the current star and the clicked value for any other. |
| StarRating.ReportedRatingInRange | client/src/components/star-rating.tsx:25-31 | Every reported rating is 0 or one of the five star values. |
| StarRating.ClickTwiceClears | client/src/components/star-rating.tsx:25 | Clicking a star twice clears the rating, unless it was already that star's rating. |
| StarRating.FillStates | client/src/components/star-rating.tsx:31-51 | Five stars in order. Star `v` is filled exactly when `v` is at most the rating. |
| StarRating.FilledPrefix | client/src/components/star-rating.tsx:49-51 | The first k stars hold min(k, rating) filled ones. |
| StarRating.FilledCountIsRating | client/src/components/star-rating.tsx:49-51 | Rating r from 0 to 5 fills exactly r stars: none for 0, all for 5. |
| StarRating.Stars | client/src/components/star-rating.tsx:11-54 | Five stars valued 1 to 5 in order. All use the size class of the requested size, `h-8 w-8` when none is given. Each is filled by the fill rule. Each button is disabled exactly when the control is read-only. |
| StarRating.SizeClassInjective | client/src/components/star-rating.tsx:17-21 | Different sizes have different size classes. |
| FeedbackFormClient.SubmitRating | client/src/components/feedback-form.tsx:56-61 | A star choice above 0 is kept, and 0 becomes "no rating". |
| FeedbackFormClient.RequestBodyOf | client/src/components/feedback-form.tsx:31-35 | The content is sent unchanged. A missing or 0 rating is sent as null, any other rating as a number. |
| FeedbackFormClient.ClientAcceptsExactly | client/src/components/feedback-form.tsx:22-28 | The form's own check passes exactly for content of 10 to 500 characters. |
| FeedbackFormClient.Decimal | client/src/components/feedback-form.tsx:90 | The decimal text of a count is non-empty and all digits, with no leading zero except for 0 itself. |
| FeedbackFormClient.DecimalRoundTrip | client/src/components/feedback-form.tsx:90 | Reading back the decimal text of a count gives the count. |
| FeedbackFormClient.CounterText | client/src/components/feedback-form.tsx:63-91 | The counter is the content's length in decimal digits (no leading zero unless it is 0), a slash, then 500. |
| FeedbackFormClient.FeedbackFormState.constructor | client/src/components/feedback-form.tsx:19-28 | No stars, empty content, nothing pending. |
| FeedbackFormClient.FeedbackFormState.SubmitDisabled | client/src/components/feedback-form.tsx:107 | The submit button is disabled exactly while a request is pending. |
| FeedbackFormClient.FeedbackFormState.Type | client/src/components/feedback-form.tsx:80 | The content becomes the typed text. Nothing else changes. |
| FeedbackFormClient.FeedbackFormState.ClickStar | client/src/components/feedback-form.tsx:97-101 | The star state becomes the control's reported rating and stays within 0..5. |
| FeedbackFormClient.FeedbackFormState.Submit | client/src/components/feedback-form.tsx:56-61 | A request is sent exactly when nothing is pending and the content passes the form's check. It carries the content and the normalised rating, and the form becomes pending. |
| FeedbackFormClient.FeedbackFormState.OnSuccess | client/src/components/feedback-form.tsx:38-46 | Content is reset to empty, the stars to 0, and pending ends. |
| FeedbackFormClient.FeedbackFormState.OnError | client/src/components/feedback-form.tsx:47-53 | Pending ends, and what was typed and chosen stays. |
| FeedbackFormClient.UnratedSubmissionRejectedAsWritten | client/src/components/feedback-form.tsx:34 | With the validator as written, a submission without a star is rejected whatever the content. |
| FeedbackFormClient.UnratedPostGets400 | client/src/components/feedback-form.tsx:31-35 | A signed-in user with the role who posts the form without a star gets 400 from the handler as written, and nothing is stored. |
| FeedbackFormClient.UnratedPatchGets400 | client/src/components/feedback-form.tsx:31-35 | The owner or an administrator who edits with the form without a star gets 400, and the row stays as it was. |
| FeedbackFormClient.EverySubmissionAccepted | client/src/components/feedback-form.tsx:31-61 | With the corrected validator, every star state from 0 to 5 with content the form accepts is accepted. The content is unchanged, and the stored rating is the chosen star or null. |
| Home.GetErrorMessage | client/src/pages/home.tsx:70-81 | No message for a missing or empty code. The fixed message for the four known codes. For a name every object inherits (`toString`, `constructor`, `__proto__`, ...) the inherited member instead of a message. `Błąd: <code>` for any other. |
| Home.LoginErrorMessage | client/src/pages/home.tsx:70-81 | The intended lookup over the four own keys: no message for a missing or empty code, the fixed message for a known code, `Błąd: <code>` for any other. |
| Home.LookupsAgreeOnOwnNames | client/src/pages/home.tsx:73-80 | The lookup as written and the intended one give the same notice for every code except the inherited names, where only the intended one gives a message. |
| Home.InheritedCodeGetsNoMessage | client/src/pages/home.tsx:80 | `?error=__proto__` yields the prototype object as written, and `Błąd: __proto__` as intended. |
| Home.CallbackReasonsHaveMessages | client/src/pages/home.tsx:73-80 | `no_code` and `auth_failed` get their fixed messages. `session_error` gets `Błąd: session_error`. |
| Home.Panels | client/src/pages/home.tsx:111-183 | Exactly one panel: the login prompt when not authenticated, the denial (with the user) without the role, and the form with it. |
| Home.Title | client/src/pages/home.tsx:167 | `Witaj, <username>!` when authenticated, otherwise `Opinie użytkowników`. |
| Home.TitleAgreesWithPanel | client/src/pages/home.tsx:167-183 | The generic heading appears exactly when the login prompt does. |
| Home.PanelFollowsAuthAnswer | client/src/pages/home.tsx:111-183 | For any `/api/auth/me` answer, the panel follows its flag and the user's role. |
| FeedbackList.PluralWordChoice | client/src/components/feedback-list.tsx:82 | "opinia" for 1, "opinie" for 2 to 4, "opinii" for 5 or more. |
| FeedbackList.Cards | client/src/components/feedback-list.tsx:86-88 | One card per feedback, in input order, keyed by its id. |
| FeedbackList.SelectView | client/src/components/feedback-list.tsx:31-91 | Loading wins over everything, then an error, then the empty state for missing or empty data. Otherwise the list, with its count (at least 1), its noun and one card per item in order. |
| DiscordAvatar.AvatarUrl | client/src/components/discord-avatar.tsx:25-27 | No URL for a missing or empty hash. Otherwise the CDN URL built from the Discord id and the hash. |
| DiscordAvatar.AvatarUrlNamesIdAndHash | client/src/components/discord-avatar.tsx:26 | For a Discord id without `/`, the id and hash read back from the URL unchanged. |
| DiscordAvatar.AvatarUrlInjective | client/src/components/discord-avatar.tsx:26 | Two such users share an image URL only if both id and hash agree. |
| DiscordAvatar.ToUpperAscii | client/src/components/discord-avatar.tsx:29 | Lower-case ASCII letters become upper-case, and other characters stay. |
| DiscordAvatar.Initials | client/src/components/discord-avatar.tsx:29 | The first min(2, length) characters of the name, upper-cased. |
| DiscordAvatar.InitialsIdempotent | client/src/components/discord-avatar.tsx:29 | Initials of initials are the same initials. |
| DiscordAvatar.Render | client/src/components/discord-avatar.tsx:16-38 | The size class of the given size (`md` by default). The image exactly when there is a URL. The initials always as fallback. |

## Left out

- Network I/O. The `fetch` calls, the JSON decoding of answers and the token request's form body are left out. Each provider answer enters as status, parsed body and text. A network error thrown by `fetch` (which the callback would turn into `auth_failed`) is not modelled.
- Express plumbing is left out:
  - session middleware, the memory store and cookie settings;
  - `getBaseUrl`'s header handling (the base URL is a parameter);
  - the `/api/config/redirect-uri` answer, which only echoes the callback URI;
  - logging;
  - redirects as HTTP mechanics (a handler returns its target string).
- Concurrency. Every handler is one sequential step, so two requests cannot interleave between a guard and its write.
- Pagination, sorting, rating filters and statistics behind `getFeedbacks(options)` and `getFeedbackStats`. The storage class declares neither (server/storage.ts:5-74), so the stats endpoint is not modelled.
- Storage.GetFeedback: the storage class (server/storage.ts:5-74) declares no `getFeedback`, `updateFeedback` or `deleteFeedback`. The routes call all three (server/routes.ts:215, 239, 256, 272). The calls at lines 215 and 256 sit outside any `try`, so as written PATCH and DELETE would fail there for every request that has a session. The model gives the three the evident meaning instead: look up the row by id, replace its content and rating, and remove it.
- `parseInt` on query parameters. The list query arrives as already-parsed optional integers.
- Object-valued query parameters (`?error[a]=b`). A parameter is absent, a string, or a list of strings.
- Storage.DatabaseStorage.UpdateFeedback: `updatedAt` is not set. The source has no definition of this update (see the line above), so the model only replaces content and rating.
- Storage.ApplyPatch: `UserPatch` cannot change `id` or `discordId`, although `Partial<InsertUser>` (shared/schema.ts:38-40) allows both. "Id and Discord id are kept" and Storage.PatchKeepsKeys hold only for this narrower patch. The only caller, the login callback, never sets either key.
- Routes.Api.PatchFeedback: the 500 "Failed to update feedback" answer is not modelled, because the model's replace cannot fail once the row was found.
- Routes.Api.DeleteFeedback: the 500 "Failed to delete feedback" answer is not modelled, because the model's removal cannot fail once the row was found.
- Routes.Api.DiscordCallback: a failed session save leaves the session as it was. Express's in-memory session object, already written, is not modelled. The user upsert has already happened by then.
- Numbers. JSON numbers in request bodies are integers, so the schema's acceptance of a fractional rating such as 2.5 is not modelled.
- Strings. Lengths count characters, not UTF-16 code units. Upper-casing covers ASCII letters only.
- UrlSearchParams.DecodeEncode: stated for ASCII text only. Decoding non-ASCII characters would need UTF-8 decoding of the percent-escaped bytes.
- React rendering, react-query caching and invalidation, toasts, and the `window.location` / `history` effects of the home page.
- `client/src/components/feedback-stats.tsx` (floating-point average), `feedback-card.tsx` (relative dates) and `header.tsx` (presentation only).

## Findings

| source | as written | input that shows it | evidently intended | confidence | as-written member | corrected member |
|---|---|---|---|---|---|---|
| shared/schema.ts:49 with client/src/components/feedback-form.tsx:34 | The rating is `z.number().min(1).max(5).optional()`, which accepts an absent rating but rejects `null`. The form sends `rating: data.rating \|\| null`, so a submission without a star carries `null`, and POST answers 400 (server/routes.ts:188-194). | `{"content": "0123456789", "rating": null}`, sent when no star is chosen | The rating is optional in the form ("Ocena (opcjonalna)"), so `null` should mean "no rating" and be stored as null | high, not executed | FeedbackFormClient.UnratedSubmissionRejectedAsWritten, with FeedbackFormClient.UnratedPostGets400 | Schema.ParseFeedbackForm, with FeedbackFormClient.EverySubmissionAccepted |
| client/src/pages/home.tsx:73-80 | `errorMessages[error]` looks up a plain object literal, so it also finds the members every object inherits. These are truthy, so the `\|\|` fallback is skipped. For `__proto__` the result is the prototype object, which the alert then renders as a child (client/src/pages/home.tsx:144-149). | `/?error=__proto__` (or `?error=toString`) | Only the four own keys have fixed messages, and every other code reads `Błąd: <code>` | medium, not executed | Home.GetErrorMessage, with Home.InheritedCodeGetsNoMessage | Home.LoginErrorMessage, with Home.LookupsAgreeOnOwnNames |
