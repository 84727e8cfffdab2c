# LegalMentor front end — a verified model of its logic

LegalMentor is a Next.js front end for a legal-practice backend. Most of it is
page rendering. This project models the parts that make decisions, in Dafny,
and proves what they promise:

- the form validator (`lib/validation.ts`), module `Validation`;
- the request layer (`lib/data-service.ts`): `authenticatedFetch` and its
  wrappers, in modules `Http` and `Api`. `Http` covers header building and
  response classification. `Api` covers the chat mappers, query and form
  builders, dashboard fallbacks, the client list, date truncation and the
  download request;
- the session provider (`contexts/auth-context.tsx`), module `Auth`, as the
  class `AuthProvider` over the user and a local-storage map;
- the chat page's list handling (`app/chat/page.tsx`), module `Chat`, as the
  class `ChatPage`;
- the to-do page's form helpers (`app/todos/page.tsx`), module `Todos`, as
  the class `TodoForm`;
- the team-members page's editable rows (`app/team-members/page.tsx`), module
  `TeamMembers`, as the class `TeamMembersPage`.

Support modules:

- `Base`: Option, Result, the `map`/`filter` forms the pages use, and `Distinct`.
- `Text`: ASCII case mapping, `trim`, decimal rendering, `Number`, `parseInt`,
  `split` and `includes`.
- `Js`: JavaScript values, truthiness, `||` and `String()`.

The environment is passed in as values, never performed:

- backend replies are inputs (an `Exchange`, a reply datatype, or a `Result`);
- the transport is a function `send: Request -> Exchange`;
- "now" is a parameter;
- local time and ISO conversion are functions passed to the to-do form;
- local storage is a `map<string, string>`, and the router is a recorded destination.

Where the written code and its intended design differ, the model follows the code:

- `initializeAuth` removes nothing when only one of `authToken` and
  `currentUser` is stored, so a lone token outlives a reload. The session
  invariant is therefore one-way: a signed-in user implies both keys.
- After a chat reply, the pending message takes the reply's id. The reply is
  then appended under the same id, so the page's duplicate-id warning fires
  on every successful exchange (`Chat.ReplyDuplicatesId`).
- `parseDateTimeLocal` passes the year to `new Date(...)`, which maps years 0–99
  to 1900–1999. The format/parse round trip therefore holds from year 100 on
  (`Todos.TwoDigitYearShifts`).
- `downloadDocument` sends `Bearer null` when no token is stored.
- The token is stored as `setItem` converts it: a missing `access_token` becomes the text `undefined`, a `null` one the text `null`.
- A profile update that carries a key as `undefined` clears that field, because the spread copies the key.

## Model

| member | source | states |
|---|---|---|
| Validation.ValidateForm | lib/validation.ts:35-76 | the loop over the ruled fields returns exactly `Errors(data, rules)`: one entry per ruled field whose check chain fails, holding the message of the first failing check |
| Validation.FirstFailing | lib/validation.ts:42-72 | the check it returns fails and is one of the listed checks |
| Validation.ErrorsOnStep | lib/validation.ts:38-73 | visiting one more field adds that field's error, if any, and changes no other entry |
| Validation.FieldErrorChain | lib/validation.ts:42-72 | the field's error is the required message if required fails; else the minLength message if minLength fails; else maxLength, then pattern, then the custom message; otherwise there is none |
| Validation.FirstFailingIsFirst | lib/validation.ts:42-72 | no check fails exactly when the result is None; a returned check fails and every check before it passes |
| Validation.Fails | lib/validation.ts:42-72 | each check's failure condition: required and blank, shorter than a set minimum, longer than a set maximum, pattern not matched, custom check returning a non-empty message |
| Validation.FieldError | lib/validation.ts:42-72 | a field's error is the message of its first failing check, and absent when every check passes |
| Validation.Errors | lib/validation.ts:35-76 | the error record holds exactly the ruled fields with an error, each with that error |
| Validation.Label | lib/validation.ts:43 | the generated label: a space before each upper-case letter, everything lower-cased (its properties are proved in the `Label…` lemmas) |
| Validation.OnlyRuledFields | lib/validation.ts:38-40 | a data field without a rule never gets an error |
| Validation.EmptyIffAllPass | lib/validation.ts:36-75 | the result is empty exactly when every check passes for every ruled field |
| Validation.RequiredShortCircuits | lib/validation.ts:42-45 | a required field that is null, undefined or blank after trimming gets the rule message or "<label> is required.", and no later check can override it |
| Validation.LengthChecks | lib/validation.ts:47-59 | minLength fails iff the bound is set and non-zero and `String(value)` is shorter; maxLength fails iff it is set and non-zero and the text is longer |
| Validation.MessageOverride | lib/validation.ts:43-69 | a set, non-empty rule message replaces the generated text of required, minLength, maxLength and pattern; a custom failure reports the custom function's text |
| Validation.LabelShape | lib/validation.ts:43 | the label has no upper-case letter and is one character longer per upper-case letter of the name |
| Validation.LabelAppend | lib/validation.ts:43 | the label of a concatenation is the concatenation of the labels |
| Validation.LabelLowerName | lib/validation.ts:43 | a name without upper-case letters is its own label |
| Validation.CheckField | lib/validation.ts:39-72 | the chain of checks for one field yields exactly `FieldError`: the message of the first failing check, or none |
| Validation.LabelUpper | lib/validation.ts:43 | an upper-case letter is labelled as a space and its lower case |
| Validation.CamelPairLabel | lib/validation.ts:43 | `headCapTail` is labelled `head cap-lowered tail` (e.g. confirmPassword → confirm password) |
| Validation.OptionalPhoneStillChecked | lib/validation.ts:29-32 | an empty phone under the non-required phone rule still fails its pattern, with the rule's message |
| Validation.AbsentPhoneStillChecked | lib/validation.ts:29-32 | an absent phone reads as `undefined` and fails the pattern with the rule's message |
| Validation.PhonePatternFirst | lib/validation.ts:29-32 | under the phone rule, a text the pattern rejects gives the rule's message |
| Validation.MissingEmailUsesRuleMessage | lib/validation.ts:19-23 | a missing email reports the rule's own message instead of the generated one |
| Validation.ShortPasswordRejected | lib/validation.ts:24-28 | a five-character password fails with the password rule's message |
| Http.GetAuthToken | lib/data-service.ts:4-6 | the token is present exactly when `authToken` is stored, and is that value |
| Http.LastText | lib/data-service.ts:16-22 | a header value copied from the caller comes from an entry with that name |
| Http.BuildHeaders | lib/data-service.ts:10-27 | the header record built step by step equals `ExpectedHeaders`: the bearer header, then the caller's string headers, then the JSON content type unless the body is a form |
| Http.ExpectedHeaders | lib/data-service.ts:10-27 | the record has one entry per header name that gets a value: the bearer token when one is stored, the caller's string headers, and the JSON content type unless the body is a form |
| Http.AuthorizationHeader | lib/data-service.ts:10-13 | without a caller override, `Authorization` is present iff a non-empty token is stored, and its value is `Bearer <token>` |
| Http.NonTextDropped | lib/data-service.ts:17-21 | a caller header whose values are never strings is not sent |
| Http.NoTextNoValue | lib/data-service.ts:17-21 | entries without a string value for a name copy nothing for it |
| Http.ContentTypeHeader | lib/data-service.ts:25-27 | without a form body, `Content-Type` is `application/json` whatever the caller gave; with a form body, it is only what the caller gave |
| Http.ErrorData | lib/data-service.ts:33-41 | a parsed error body is passed through unchanged; an unparseable one becomes an object with exactly `detail` = "Request failed with status N" and `status` = N |
| Http.Classify | lib/data-service.ts:29-69 | a resolved value needs a 2xx status; 204 resolves to null, another 2xx to its parsed body (a non-JSON one is a SyntaxError); any non-2xx rejects with `FailureOf` of its status and `ErrorData`, whatever the body's JSON type; a transport failure rejects |
| Http.FailureOf | lib/data-service.ts:42-58 | a nullish error body gives a TypeError; otherwise 422 gives the validation error and any other status a request error with that status, that body, and `detail` as its message when truthy |
| Http.SuccessReturnsBody | lib/data-service.ts:62-65 | any 2xx other than 204 resolves to the parsed body, and an unparseable one rejects |
| Http.ValidationFailure | lib/data-service.ts:44-51 | 422 rejects with a validation error with status 422 carrying `detail`, else `errors`, else the whole body |
| Http.GenericFailure | lib/data-service.ts:53-58 | any other failure rejects with message `detail` when truthy, else `message` when truthy, else "Request failed", with the status and body attached |
| Http.UnparseableFailure | lib/data-service.ts:36-41 | a non-JSON failure reports "Request failed with status N", as message or, for 422, as `errors` |
| Http.NullErrorBody | lib/data-service.ts:44-53 | a `null` error body makes reading `detail` throw a type error |
| Http.AuthenticatedFetch | lib/data-service.ts:9-70 | the result is the classification of what `send` answers for the request with the built headers, the caller's method and the body |
| Http.FindAppend | lib/data-service.ts:856-863 | looking a key up in appended parameter lists finds it in the first list before the second |
| Http.PresentUpTo | lib/data-service.ts:856-863 | appending the first n optional parameters yields at most n pairs |
| Http.AppendIf | lib/data-service.ts:856-863 | appending one optional parameter turns the pairs for the first n positions into those for n + 1: the pair is added exactly when its value is present |
| Http.PresentUpToPrefix | lib/data-service.ts:856-863 | later appends only extend the parameters already appended |
| Http.PresentUpToFind | lib/data-service.ts:856-863 | among the first n positions, a parameter is found with its value exactly when that value is present |
| Http.PresentFind | lib/data-service.ts:856-863 | in a finished list each parameter is found exactly when its value is present |
| Http.Index | lib/data-service.ts:856-863 | the position of a parameter name, unique when names are distinct |
| Http.PresentUpToNames | lib/data-service.ts:856-863 | the names appended for the first n positions are known names before position n |
| Http.PresentUpToOrder | lib/data-service.ts:856-863 | the appended pairs keep the fixed order of the names, restricted to the first n |
| Http.PresentOrder | lib/data-service.ts:856-863 | the appended pairs use only known names, in the fixed order |
| Api.ToChatMessageId | lib/data-service.ts:368 | a message's id becomes decimal text that `Number` and `parseInt` read back as the backend id |
| Api.ToChatMessage | lib/data-service.ts:365-377 | a backend message maps field by field to a chat message, its id in decimal (read back by `Api.ToChatMessageId`) |
| Api.GetChatHistory | lib/data-service.ts:365-377 | every message is mapped, in order |
| Api.HistoryIdsDistinct | lib/data-service.ts:365-377 | distinct backend ids stay distinct after mapping |
| Api.CreatedSession | lib/data-service.ts:379-393 | the new session's preview is "No messages yet" and its time the creation time |
| Api.SessionIdRoundTrip | lib/data-service.ts:384-425 | a session id rendered by the mappers is read back by `parseInt` as the backend id |
| Api.UpdatedSession | lib/data-service.ts:395-412 | the preview is the backend's non-empty text or "No messages yet", never empty; time is `updated_at`; title, pin, archive flag and category are copied |
| Api.SendMessageBody | lib/data-service.ts:422-426 | the body has exactly `session_id` and `query_text`; the session id is null exactly when it does not parse as an integer |
| Api.SendMessageSessionRoundTrip | lib/data-service.ts:379-437 | a session id produced by the mappers is sent back as the backend's number |
| Api.IfText | lib/data-service.ts:738 | a text parameter is appended iff it is present and non-empty |
| Api.IfNumber | lib/data-service.ts:736-740 | a number parameter is appended iff it is present and non-zero |
| Api.IfNumberReadsBack | lib/data-service.ts:736-740 | an appended number parameter is text that `Number` reads back as the number |
| Api.IfDefined | lib/data-service.ts:444-446 | a boolean parameter is appended iff defined, as "true" or "false" |
| Api.UpdateMessageQuery | lib/data-service.ts:443-449 | the built query is `is_important` then `status`, each only when defined |
| Api.MessageQueryFalsyKept | lib/data-service.ts:443-449 | `false` and an empty status are still sent |
| Api.MessageQueryFlagOnly | lib/data-service.ts:443-449 | a flag-only update sends exactly one parameter |
| Api.TaskParamValues | lib/data-service.ts:856-863 | one optional value per task parameter |
| Api.TaskQuery | lib/data-service.ts:856-863 | the appended parameters equal the present values in the order status, case_id, is_private, start_date, end_date, skip, limit |
| Api.TaskParamNamesDistinct | lib/data-service.ts:856-863 | the seven task parameter names are different |
| Api.TaskQueryShape | lib/data-service.ts:856-863 | every parameter name is known and in the fixed order; each is present exactly when its value is truthy, except `is_private`, which is present when defined |
| Api.TaskQueryFalsy | lib/data-service.ts:859-862 | `is_private=false` is sent, `skip=0` is not |
| Api.DocumentParamValues | lib/data-service.ts:736-740 | one value per document parameter, never the empty string |
| Api.IntToStringNonEmpty | lib/data-service.ts:736-740 | an appended number is never empty text |
| Api.DocumentQuery | lib/data-service.ts:735-740 | the appended parameters are the truthy ones in the order case_id, appointment_id, search, skip, limit |
| Api.UploadFieldValues | lib/data-service.ts:746-752 | `file` and `title` are always present |
| Api.UploadForm | lib/data-service.ts:746-752 | the form entries are the present fields in the fixed order |
| Api.UploadShape | lib/data-service.ts:745-761 | the form starts with the file and the title, and no `Content-Type` header is sent for it |
| Api.StatField | lib/data-service.ts:474-479 | a truthy backend value is kept as it is; a falsy or missing one gives the fallback |
| Api.DashboardStatsOf | lib/data-service.ts:470-493 | an error or a nullish body gives all zeros and no activities; otherwise each of the six fields is the backend's value when truthy and its fallback (0, or `[]` for activities) when not |
| Api.DashboardStatsKeepsTruthy | lib/data-service.ts:474-479 | each of the six fields the backend sends truthy is kept as it is |
| Api.Spread | lib/data-service.ts:518 | a spread copies an object's own properties and nothing from a non-object |
| Api.ListOrEmpty | lib/data-service.ts:495-513 | the list is the array the backend sent, or empty on error or a non-array body |
| Api.LengthOf | lib/data-service.ts:520 | a length is never negative |
| Api.ClientRow | lib/data-service.ts:517-521 | a truthy `cases` is kept and a falsy one becomes `[]`; `cases_count` is a truthy length when there is one (an array's or a string's) and 0 otherwise; other fields are kept |
| Api.ClientRows | lib/data-service.ts:517-521 | mapping succeeds iff no client is nullish, and maps each client in order |
| Api.GetClients | lib/data-service.ts:515-522 | errors pass through; a non-array body throws; the result has one row per client |
| Api.TruncateIsoShape | lib/data-service.ts:554 | the truncated date is 20 characters, ends in `Z`, keeps the first 19, and truncating again changes nothing |
| Api.TruncateIso | lib/data-service.ts:554 | the ISO text cut to its first 19 characters with `Z` appended (shape proved by `Api.TruncateIsoShape`) |
| Api.FormatActivityDate | lib/data-service.ts:550-555 | a truthy `activity_date` is replaced by its truncated ISO form and nothing else changes; an invalid date throws a range error; an absent or falsy one leaves the data as is |
| Api.DownloadHeaders | lib/data-service.ts:771-775 | only `Authorization` is sent, and it is `Bearer null` when no token is stored |
| Api.DownloadOutcome | lib/data-service.ts:770-783 | success iff the response is 2xx, and then it is the response; a failure whose JSON body is `null` is a TypeError, and one whose body has a truthy `detail` throws `Error(String(detail))` |
| Api.DownloadFailureMessages | lib/data-service.ts:777-780 | a failure with a non-JSON body reports "An unknown error occurred"; one whose body has a truthy `detail` reports that text; one whose body has no truthy `detail` reports "HTTP error! status: N"; a `null` body gives a TypeError |
| Auth.OrText | contexts/auth-context.tsx:87 | `a \|\| b`: a when truthy, else b |
| Auth.SignInAccountType | contexts/auth-context.tsx:147 | `accountType`, else `user_type`, else "client"; never empty |
| Auth.InitAccountType | contexts/auth-context.tsx:89 | `user_type`, else "client"; never empty |
| Auth.AccountTypeDiverges | contexts/auth-context.tsx:89-147 | a reply with only `accountType` keeps it on login but becomes "client" on re-validation |
| Auth.TransformUser | contexts/auth-context.tsx:143-157 | the id reads back as `user_id`; name is `full_name \|\| name`; the timestamps default to now; two-factor is off; the verified flag is as given |
| Auth.Merge | contexts/auth-context.tsx:275 | every field follows the spread: a key the update lacks keeps the user's value, a key carried as `undefined` clears it, a given value replaces it; `updatedAt` is now |
| Auth.MergeUnsetDrops | contexts/auth-context.tsx:275 | an update carrying `name` and `email` as `undefined` leaves the stored user without them |
| Auth.MergeNothing | contexts/auth-context.tsx:275 | an update naming no field keeps every field and only refreshes `updatedAt` |
| Auth.Serialize | contexts/auth-context.tsx:277 | `JSON.stringify` of the user: the stored text is one braced object (the member layout is given by the definition only, see Left out) |
| Auth.ReadSignIn | contexts/auth-context.tsx:135-176 | an ok reply whose user has a `user_id` is accepted, exactly, as that user transformed (`full_name || name`, the id as text, the sign-in account type, the verified flag) with the token `String(access_token)`; an ok reply without a user or `user_id` gives "Network error"; unreachable or unreadable replies give "Network error"; a refusal gives `detail` or the fallback |
| Auth.RouteFor | contexts/auth-context.tsx:216-228 | lawyer → /dashboard, client → /chat, admin → /admin, anything else → / |
| Auth.AuthProvider.constructor | contexts/auth-context.tsx:63-64 | starts signed out and loading, with the given storage |
| Auth.AuthProvider.InitializeAuth | contexts/auth-context.tsx:71-116 | with both keys, a parsed user and an accepted token, the fresh user is set and stored; any failure on that path removes both keys; with a key missing, nothing is removed |
| Auth.AuthProvider.Login | contexts/auth-context.tsx:118-180 | success sets the user, `authToken` and `currentUser`, plus `rememberMe` only when asked; failure changes nothing and reports the error; the invariant holds |
| Auth.AuthProvider.SignInWith | contexts/auth-context.tsx:160-169 | an accepted sign-in sets the user, the token, `currentUser` and, when asked, `rememberMe`; a rejected one changes nothing; the invariant holds |
| Auth.AuthProvider.Register | contexts/auth-context.tsx:182-239 | as login with the e-mail unverified, and the route chosen by account type |
| Auth.AuthProvider.Logout | contexts/auth-context.tsx:241-247 | no user, the three keys removed, route `/` |
| Auth.AuthProvider.UpdateUser | contexts/auth-context.tsx:249-286 | succeeds iff there is a user, a truthy token and an ok reply; then the merged user is set and stored; otherwise nothing changes |
| Auth.AuthProvider.VerifyEmail | contexts/auth-context.tsx:307-314 | a signed-in user becomes verified and is persisted; always true |
| Auth.AuthProvider.ChangePassword | contexts/auth-context.tsx:302-305 | always true |
| Auth.AuthProvider.RefreshSession | contexts/auth-context.tsx:316-318 | always true |
| Auth.AuthProvider.ResetPassword | contexts/auth-context.tsx:288-300 | true iff the request completed with a 2xx status |
| Base.MapIf | app/chat/page.tsx:218-219 | same length; each element is replaced when it matches and kept otherwise |
| Base.Filter | app/chat/page.tsx:264 | no longer than the input; holds exactly the kept elements |
| Base.FilterAppend | app/chat/page.tsx:351-354 | filtering preserves order: it distributes over concatenation |
| Base.FilterAll | app/chat/page.tsx:351-354 | a filter that keeps everything is the identity |
| Base.FilterSame | app/chat/page.tsx:351-354 | tests that agree on every element filter alike |
| Base.FilterDistinct | app/todos/page.tsx:158 | filtering never introduces a repetition |
| Text.ToLower | app/chat/page.tsx:352-353 | `toLowerCase` keeps the length and lower-cases each ASCII capital, leaving other characters alone |
| Text.Trim | lib/validation.ts:42 | `trim()` removes white space at both ends (proved empty exactly for all-white text by `Text.TrimEmptyIffAllWhite`) |
| Text.NumberOf | app/todos/page.tsx:78-79 | `Number` of a string: surrounding white space ignored, empty text is 0, an optionally signed run of decimal digits is its integer; every other form is NaN here (see Left out) |
| Text.ParseInt | lib/data-service.ts:425 | `parseInt` in base ten: leading white space and one sign skipped, the longest run of digits read, no digit at all is NaN |
| Text.Split | app/todos/page.tsx:77-79 | `split` on one character gives at least one part and no part contains the separator |
| Text.TrimEmptyIffAllWhite | lib/validation.ts:42 | `trim()` gives the empty string exactly when the text is all white space |
| Text.TrimNoWhite | lib/validation.ts:42 | text without white space is unchanged by `trim()` |
| Text.NumberOfIntToString | lib/data-service.ts:368 | `Number` reads a rendered integer back as itself |
| Text.ParseIntOfIntToString | lib/data-service.ts:425 | `parseInt` reads a rendered integer back as itself |
| Text.ParseIntNatural | lib/data-service.ts:425 | `parseInt` reads a rendered non-negative integer back |
| Text.ParseIntNegative | lib/data-service.ts:425 | `parseInt` reads a minus sign before a rendered positive integer back as its negation |
| Text.IntToStringInjective | lib/data-service.ts:368 | distinct integers render to distinct text |
| Text.NumberOfPad2 | app/todos/page.tsx:72 | a padded number is all digits and reads back as itself |
| Text.SplitJoin | app/todos/page.tsx:77-79 | joining the parts of `split` with the separator gives back the text |
| Text.SplitAt | app/todos/page.tsx:77-79 | text with a first separator splits into the part before it followed by the split of the rest |
| Text.ContainsIffOccurs | app/chat/page.tsx:352-353 | `includes` holds exactly when the term occurs at some position |
| Js.Or | lib/data-service.ts:44-58 | `a \|\| b` is a when a is truthy and b otherwise |
| Chat.ConfirmReply | app/chat/page.tsx:218-221 | one longer than before, ending with the reply |
| Chat.Revert | app/chat/page.tsx:234 | the same length |
| Chat.ConfirmReplyEffect | app/chat/page.tsx:218-221 | with a fresh local id, earlier messages are untouched, the pending one is marked read under the reply's id, and the reply follows it |
| Chat.ReplyDuplicatesId | app/chat/page.tsx:357-365 | after every successful reply, two messages share an id |
| Chat.RevertEffect | app/chat/page.tsx:234 | only the pending message changes, and only its status, to "sent" |
| Chat.RevertAfterSubmit | app/chat/page.tsx:206-234 | a failed send leaves the list as the submission left it |
| Chat.ReplaceMessage | app/chat/page.tsx:115 | the message with that id is replaced and the others kept |
| Chat.FindMessage | app/chat/page.tsx:106 | a found message is in the list with that id; when none is found, no message has that id |
| Chat.FindMessageFirst | app/chat/page.tsx:106 | the message found is the first one in the list with that id, which decides the flag sent when a reply has left two messages under one id |
| Chat.UpdatePreview | app/chat/page.tsx:224-228 | the same length |
| Chat.UpdatePreviewEffect | app/chat/page.tsx:224-228 | only sessions with the current id change, and only in `lastMessage` and `timestamp` |
| Chat.ReplaceSession | app/chat/page.tsx:287 | the session with that id is replaced and the others kept |
| Chat.FindSession | app/chat/page.tsx:282 | a found session is in the list with that id; when none is found, no session has that id |
| Chat.FindSessionFirst | app/chat/page.tsx:282 | the session found is the first one in the list with that id |
| Chat.RemoveSessionEffect | app/chat/page.tsx:264 | exactly the sessions with that id are removed, and the list shrinks by their number |
| Chat.RemoveSession | app/chat/page.tsx:264 | the sessions left after a delete, in order (effect proved by `Chat.RemoveSessionEffect`) |
| Chat.Matches | app/chat/page.tsx:351-354 | a session matches when its title or preview, lower-cased, contains the lower-cased term |
| Chat.Filtered | app/chat/page.tsx:351-354 | a session is kept iff its title or preview contains the term, ignoring ASCII case |
| Chat.ToLowerIdempotent | app/chat/page.tsx:352-353 | lower-casing twice is lower-casing once |
| Chat.FilteredCaseAndEmpty | app/chat/page.tsx:351-354 | the search ignores the term's case, and an empty term keeps every session |
| Chat.FilteredAppend | app/chat/page.tsx:351-354 | the search keeps the list order |
| Chat.Welcome | app/chat/page.tsx:82-89 | the greeting that opens a new session: the mentor's fixed text, not editable, status read |
| Chat.UserMessage | app/chat/page.tsx:198-205 | the message added when the user sends: the typed text, from the user, editable, status sent |
| Chat.ChatPage.constructor | app/chat/page.tsx:35-47 | the page's initial state |
| Chat.ChatPage.CreateSession | app/chat/page.tsx:73-96 | on success the session is prepended and made current, the messages are exactly the mentor's "read" welcome, and the sidebar closes; on failure nothing changes |
| Chat.ChatPage.HandleSubmit | app/chat/page.tsx:194-236 | a no-op for blank input or no session; otherwise a "sent" user message is appended and the input cleared; a reply confirms it and updates the preview, a failure reverts it |
| Chat.ChatPage.Settle | app/chat/page.tsx:215-235 | a reply confirms the pending message and updates the preview; a failure reverts it and keeps the sessions; typing stops either way |
| Chat.ChatPage.ToggleMessageImportant | app/chat/page.tsx:104-120 | asks for the opposite flag (unset counts as false) and puts the answer in place; the menu always closes |
| Chat.ChatPage.DeleteSession | app/chat/page.tsx:261-278 | removes exactly that session; if it was open, the first remaining one opens with its history, or a new session is created when none remain; the sidebar closes only when that creation succeeds |
| Chat.ChatPage.TogglePinSession | app/chat/page.tsx:280-290 | asks for the opposite pin state and puts the answer in place |
| Chat.ChatPage.SelectSession | app/chat/page.tsx:313-323 | the session becomes current with its history, or no messages on failure; the sidebar closes |
| Todos.DigitsHaveNoSeparator | app/todos/page.tsx:72-73 | padded digits hold none of the separators `T`, `-` and `:` |
| Todos.YearHasNoSeparator | app/todos/page.tsx:73 | a non-negative year's text holds no separator |
| Todos.Pad2Shape | app/todos/page.tsx:72 | a number below 100 pads to two digits that read back as it |
| Todos.LayoutPositions | app/todos/page.tsx:73 | where the separators of `Y-MM-DDTHH:mm` sit |
| Todos.FormatShape | app/todos/page.tsx:71-74 | for in-range fields the text is the year, `-`, then two-digit month (counted from 1), day, hour and minute at fixed positions |
| Todos.MakeDate | app/todos/page.tsx:80 | the fields are kept, seconds are 0, and years 0–99 become 1900–1999 |
| Todos.ParseDateTimeLocal | app/todos/page.tsx:76-81 | throws exactly when there is no `T`; a parsed date has no seconds |
| Todos.SplitLayout | app/todos/page.tsx:77-79 | `Y-M-DTh:m` splits into its date and time parts, and those into their fields |
| Todos.ParseLayout | app/todos/page.tsx:76-81 | text of that layout with numeric fields parses to those fields |
| Todos.FormatParts | app/todos/page.tsx:71-74 | the rendered fields hold no separator and read back as the date's fields |
| Todos.RoundTrip | app/todos/page.tsx:71-81 | parsing the formatted text gives back the same minute with seconds dropped, for years from 100 on |
| Todos.FormatDateTimeLocal | app/todos/page.tsx:71-74 | `YYYY-MM-DDTHH:mm` with two-digit month, day, hour and minute; an invalid date renders each field as NaN |
| Todos.TwoDigitYearShifts | app/todos/page.tsx:71-81 | a year from 0 to 99 comes back 1900 years later |
| Todos.NotInJoin | app/todos/page.tsx:73 | a character absent from every piece and from the separator is absent from the joined text |
| Todos.Toggle | app/todos/page.tsx:155-161 | the id is selected afterwards iff it was not before; every other id keeps its membership |
| Todos.ToggleDistinct | app/todos/page.tsx:155-161 | toggling never makes a repetition |
| Todos.ToggleTwiceRestores | app/todos/page.tsx:155-161 | ticking then unticking an unticked member restores the selection |
| Todos.ToggleTwiceMovesToEnd | app/todos/page.tsx:155-161 | unticking then ticking a ticked member moves it to the end |
| Todos.CaseIdOf | app/todos/page.tsx:125 | no case iff the selection is "none"; otherwise `parseInt` of it, or NaN |
| Todos.IsoOf | app/todos/page.tsx:121-122 | the ISO text of the parsed date; errors when parsing throws or the date is invalid |
| Todos.BuildPayload | app/todos/page.tsx:119-126 | the payload builds iff both dates convert; it carries the description, privacy, parsed case and the current selection |
| Todos.MemberIds | app/todos/page.tsx:190 | the members' ids in order |
| Todos.TeamIdsOf | app/todos/page.tsx:190 | the to-do's member ids in order, or none when absent |
| Todos.CaseSelectionRoundTrip | app/todos/page.tsx:189 | the loaded case selection reads back as the to-do's case, except that id 0 is dropped |
| Todos.CaseSelectionOf | app/todos/page.tsx:189 | the case selection loaded for editing: the id's text, or "none" for no id and for id 0 |
| Todos.EditThenSave | app/todos/page.tsx:183-207 | saving an edited task unchanged sends its own description, privacy, case and members, and its dates to the minute |
| Todos.TodoForm.constructor | app/todos/page.tsx:36-52 | the initial form |
| Todos.TodoForm.SetDefaultDates | app/todos/page.tsx:57-63 | start is now + 30 min and end is start + 30 min, in local fields |
| Todos.DefaultStart | app/todos/page.tsx:58-59 | the default start is the local minute half an hour after now |
| Todos.DefaultEnd | app/todos/page.tsx:60-63 | the default end is the default start taken half an hour later |
| Todos.TodoForm.ResetForm | app/todos/page.tsx:235-247 | the form is emptied with default dates; the edit state is left alone |
| Todos.TodoForm.ToggleTeamMember | app/todos/page.tsx:155-161 | the selection is toggled and nothing else changes |
| Todos.TodoForm.HandleSubmit | app/todos/page.tsx:116-153 | sends `BuildPayload` of the form; on a successful create the form resets, otherwise it is unchanged |
| Todos.TodoForm.HandleEditTask | app/todos/page.tsx:183-192 | loads the to-do's text, dates, privacy, case and member ids, and opens the edit form |
| Todos.TodoForm.HandleUpdateTask | app/todos/page.tsx:194-233 | nothing without a task being edited; otherwise the payload goes with the to-do's id, and success closes and resets the form |
| Todos.TodoForm.HandleCancelEdit | app/todos/page.tsx:235-247 | closes the edit form and resets it |
| TeamMembers.SetField | app/team-members/page.tsx:100-104 | the given field takes the value and every other field, the id and the user id are kept |
| TeamMembers.NameParts | app/team-members/page.tsx:55-56 | first and last names hold no space; no full name gives two empty names |
| TeamMembers.NamePartsWords | app/team-members/page.tsx:55-56 | one word gives an empty last name; the first two words become first and last name; further words are dropped |
| TeamMembers.FromResponse | app/team-members/page.tsx:53-62 | the loaded row keeps the ids, splits the full name, and copies the other fields |
| TeamMembers.FromResponses | app/team-members/page.tsx:53-63 | every member is mapped, in order |
| TeamMembers.WithoutIndex | app/team-members/page.tsx:95 | filtering by position removes exactly the element at that index, or nothing when it is out of range |
| TeamMembers.Updates | app/team-members/page.tsx:111-124 | one update per saved row, in list order |
| TeamMembers.Creates | app/team-members/page.tsx:112-136 | one create per new row, in list order |
| TeamMembers.MapRows | app/team-members/page.tsx:115-136 | one request per row, in order |
| TeamMembers.PartitionCovers | app/team-members/page.tsx:111-112 | the saved and the new rows together are all the rows |
| TeamMembers.PartitionSides | app/team-members/page.tsx:111-124 | every update names a saved member's non-zero id, and every created row is new |
| TeamMembers.Sent | app/team-members/page.tsx:114-136 | resuming the sending at a request, the number sent lies between that request and the end of the plan |
| TeamMembers.SentStops | app/team-members/page.tsx:114-136 | from a resume point, every later success means all are sent; otherwise the last one sent is the first failure and everything before it succeeded |
| TeamMembers.IssuedStops | app/team-members/page.tsx:106-144 | if all succeed all are sent; otherwise sending stops right after the first failure |
| TeamMembers.SentShift | app/team-members/page.tsx:114-136 | sending the creates after the updates counts on from where the updates ended |
| TeamMembers.SentAppend | app/team-members/page.tsx:114-136 | the creates are reached only when every remaining update succeeds |
| TeamMembers.IssuedAppend | app/team-members/page.tsx:114-136 | the creates start only when every update went through |
| TeamMembers.AllOkAppend | app/team-members/page.tsx:114-136 | the whole submission succeeds exactly when the updates and the creates both do |
| TeamMembers.AllOkSnoc | app/team-members/page.tsx:114-136 | one more successful request keeps the run successful |
| TeamMembers.SendAll | app/team-members/page.tsx:114-136 | the loop sends exactly `Issued(batch)` and reports whether all succeeded |
| TeamMembers.TeamMembersPage.constructor | app/team-members/page.tsx:41-43 | no rows, loading, not submitting |
| TeamMembers.TeamMembersPage.FetchTeamMembers | app/team-members/page.tsx:49-69 | a loaded list replaces the rows; a failure keeps them; loading ends |
| TeamMembers.TeamMembersPage.AddMember | app/team-members/page.tsx:71-83 | one blank row without id is appended and the others are unchanged |
| TeamMembers.TeamMembersPage.RemoveMember | app/team-members/page.tsx:85-98 | a saved row (truthy id) is named in the delete request and the list is reloaded once the delete succeeds; an unsaved row at a valid index is removed only when more than one row exists, whatever the other rows are; loading has ended after the reload, and is untouched otherwise |
| TeamMembers.TeamMembersPage.UpdateMember | app/team-members/page.tsx:100-104 | only the given field of the given row changes; an out-of-range index throws and changes nothing |
| TeamMembers.TeamMembersPage.HandleSubmit | app/team-members/page.tsx:106-144 | sends the updates of the saved rows, then the creates of the new rows, stopping at the first failure; reloads only when all succeed |

## Left out

- Rendering, toasts, console logging and the `setTimeout` step that marks a chat message "delivered".
- Real `fetch`, JSON decoding of typed records, `blob()`, and URL encoding of query strings. A parameter list is modelled as a sequence of pairs.
- Concurrency between overlapping requests; each operation is modelled as running to completion with the replies as inputs.
- Strings are sequences of characters. `length` counts characters, not UTF-16 units. `toLowerCase` and the `[A-Z]` class are ASCII only.
- JavaScript numbers are integers; fractions, NaN arithmetic and hexadecimal `parseInt` are not modelled.
- The regular expressions of the common rules are written out as predicates; a rule's own `pattern` is a predicate given by the caller.
- Todos.ParseDateTimeLocal: does not model `Date`'s normalisation of out-of-range fields (month 13, day 32); the fields are returned as parsed.
- Time zones, `toISOString` and reading ISO strings are functions passed in (`localTime`, `toIso`, `fromIso`).
- The request bodies of login and registration, and the profile body of `updateUser`, are not modelled; only the replies are.
- The generic "An unknown error occurred" rethrow of `authenticatedFetch` is not modelled; only `Error` values are thrown in the modelled paths.
- Writing `id` or `userId` through `updateMember` is left out; the form only edits the six text fields.
- `updateMember` mutates the shared row object; the model replaces the row value in the list, so aliasing of rows held elsewhere is not captured.
- The chat session list loading on mount and the title editing are not part of this model.
- `createSession`'s default title and category are not part of the backend call modelled here; the backend's answer is an input.
- Auth.Merge: an update carrying `id`, `accountType` or `createdAt` as `undefined` is not representable; these keys are either absent or carry a value, since the settings form never sends them.
- Api.Spread: index properties of a spread string or array are not copied; only an object's own properties are.
- Api.LengthOf: an object's own `length` property is not read; only arrays and strings have a length, and anything else gives `undefined`.
- Text.NumberOf: `Number`'s exponent (`1e3`), decimal-point (`1.0`), `0x`/`0o`/`0b` and `Infinity` forms are not read and give NaN here, so a date field written that way (`2024-1e1-05T10:30`) makes an invalid date in the model where the browser reads a valid one.
- Auth.Serialize: its contract states only that the text is one braced object; the member order and the omission of undefined fields are given by its definition and are not proved as properties.
