# AnonymousMessenger: account and message rules, in Dafny

This project models the server-side rules of an anonymous-messaging web
application. Registered users share a public link. Anonymous visitors post
text messages to it. The owner lists the messages and switches acceptance of
new ones on or off. The model covers:

- the username and password rules of the sign-up schema, including the
  username regular expression with its `m` flag;
- the username availability check;
- message intake: the anonymous send;
- the owner's message listing, newest first;
- reading and setting the acceptance flag;
- the generated sitemap and robots files.

The user collection is a sequence of account documents in the collection's
natural order (`UserModel`). Only the fields the handlers touch are kept:
`_id`, `username`, `isVerified`, `isAcceptingMessages` and the embedded
`message` array of `{content, createdAt}`. The two handlers that write
(send-message POST and accept-messages POST) are methods on a `UserStore`
object whose `docs` field they reassign, keeping the unique-`_id` invariant.
Each is proved equal to a pure function of the old collection (`Intake`,
`Toggle`), and the lemmas about the behaviour are stated on those functions.
The read-only handlers are functions of the collection, so they cannot change
it.

Every reply is a `Response`: the HTTP status, `success`, the message field
(with its key, because one reply spells it `messsage`), and the payload.
Status codes and texts are modelled as the handlers write them, odd ones
included:

- 401 for "User not found" in send-message;
- 400 with `success: true` for "Username is unique";
- 404 for a listing with no messages;
- 401 for a failed acceptance update.

Inputs the handlers take from outside are parameters:

- the signed-in account id: `session: Option<AccountId>`;
- the clock: `now`;
- the environment settings: `Option<string>`;
- whether a store call throws: `storeThrows`, `lookupThrows`, `saveThrows`.

## Behaviour modelled as written that a reader may not expect

- A listing with no messages answers 404 "User has no messages"
  (app/api/get-message/route.ts:52-61), not 200 with an empty list.
- Status codes are as the handlers write them, so one kind of error can get
  different codes: "User not found" is 401 in send-message
  (app/api/send-message/route.ts:13-22) but 404 in the acceptance read
  (app/api/accept-messages/route.ts:96-105).
- Message intake does not consult `isVerified`. An unverified account that
  accepts messages receives them.
- The username expression has the `m` flag. An input passes when any one of
  its lines matches, so `"ab\n!!"` is a valid username, although the
  expression's own error text, "Username must not contain special
  characters" (src/schemas/signUpSchema.ts:8), shows that such characters are
  meant to be refused.

## Model

| member | source | states |
|---|---|---|
| `SignUpSchema.UsernameIssues` | src/schemas/signUpSchema.ts:4-8 | a missing value gives only the type issue; for a string, "too short" is reported iff fewer than 2 characters, "too long" iff more than 20, "bad pattern" iff the regular expression rejects it (all checks run); the issues come in check order (min, max, regex), each at most once, and no password or e-mail issue appears |
| `SignUpSchema.LineMatches` | src/schemas/signUpSchema.ts:8 | a line the pattern matches has 1 to 30 characters, no line break, a word character first and no trailing dot |
| `SignUpSchema.RegexTest` | src/schemas/signUpSchema.ts:8 | the `m`-flag `test` accepts an input that matches as a whole (that it accepts iff some line matches is `RegexTestIsSomeLine`) |
| `SignUpSchema.AcceptedHasWordChar` | src/schemas/signUpSchema.ts:8 | an accepted input holds at least one word character, which is all the `m` flag lets the rule promise about the whole input |
| `SignUpSchema.FirstLineLength` | src/schemas/signUpSchema.ts:8 | the first line ends at the first line terminator or at the end of the input |
| `SignUpSchema.RegexTestComplete` | src/schemas/signUpSchema.ts:8 | if the pattern matches from some line start to that line's end, the test accepts |
| `SignUpSchema.RegexTestSound` | src/schemas/signUpSchema.ts:8 | if the test accepts, it returns a line start and line end between which the pattern matches |
| `SignUpSchema.RegexTestIsSomeLine` | src/schemas/signUpSchema.ts:8 | with the `m` flag the expression accepts exactly when some line of the input matches the pattern (both directions) |
| `SignUpSchema.SingleLineRegex` | src/schemas/signUpSchema.ts:8 | on input without line breaks the expression accepts exactly the strings that match the pattern as a whole |
| `SignUpSchema.ShortUsernameRejected` | src/schemas/signUpSchema.ts:6 | fewer than 2 characters is invalid, and the first error is "Username must be at least 2 characters" |
| `SignUpSchema.LongUsernameRejected` | src/schemas/signUpSchema.ts:7 | more than 20 characters is invalid (an upper bound), with the text "Username must be at least 20 characters" |
| `SignUpSchema.MissingUsernameRejected` | src/schemas/signUpSchema.ts:4-5 | a null value fails with the string type issue alone |
| `SignUpSchema.TailCapNeverBinds` | src/schemas/signUpSchema.ts:7-8 | for at most 20 characters the `{0,29}` cap never refuses: the pattern equals the uncapped character rule |
| `SignUpSchema.SingleLineUsername` | src/schemas/signUpSchema.ts:6-8 | on single-line input a username is valid iff it has 2 to 20 characters, starts with a word character, continues with word characters or dots, has no `..` and no trailing dot |
| `SignUpSchema.WordCharsAccepted` | src/schemas/signUpSchema.ts:6-8 | any 2 to 20 word characters pass every username check |
| `SignUpSchema.MultilineInputAccepted` | src/schemas/signUpSchema.ts:8 | `"ab\n!!"` passes every username check although it holds non-word characters |
| `SignUpSchema.PasswordIssues` | src/schemas/signUpSchema.ts:13 | a password passes iff it has at least 6 characters; otherwise the one issue is "too short" |
| `SignUpSchema.SignUpIssues` | src/schemas/signUpSchema.ts:10-14 | a form has no issue iff the username is valid, the e-mail check passed and the password has at least 6 characters |
| `IsUsernameUnique.IssueMessages` | app/api/is-username-unique/route.ts:23 | one error text per issue, in the issues' order |
| `IsUsernameUnique.ValidationMessage` | app/api/is-username-unique/route.ts:23-28 | no issue gives "Invalid query parameters"; one issue gives its own text; otherwise the text starts with the first issue's text |
| `IsUsernameUnique.Join` | app/api/is-username-unique/route.ts:28 | joining one part gives that part; a join starts with its first part |
| `IsUsernameUnique.Get` | app/api/is-username-unique/route.ts:10-76 | invalid names get 400 with the joined errors; a throwing query gets 500; otherwise the status is 400 and `success` holds iff no verified account has the name, with "Username is unique" or "Username is already taken" |
| `IsUsernameUnique.InvalidNameNeverReachesStore` | app/api/is-username-unique/route.ts:19-34 | for an invalid name the reply is the same for every collection and every store failure, and is a 400 failure |
| `IsUsernameUnique.FallbackNeverSent` | app/api/is-username-unique/route.ts:23-28 | validation never fails without an error, so "Invalid query parameters" is never sent |
| `IsUsernameUnique.MissingParamRejected` | app/api/is-username-unique/route.ts:15-22 | without the `username` parameter the reply is 400 with zod's type message |
| `IsUsernameUnique.EmptyNameMessage` | app/api/is-username-unique/route.ts:23-28 | for the empty name both errors are sent, joined with ", " |
| `IsUsernameUnique.UnverifiedHolderDoesNotBlock` | app/api/is-username-unique/route.ts:38-62 | for every collection, a valid name that no verified account holds is reported unique with status 400, whatever unverified accounts hold it |
| `IsUsernameUnique.VerifiedHolderBlocks` | app/api/is-username-unique/route.ts:38-52 | a valid name held by a verified account is reported taken |
| `IsUsernameUnique.SpecialCharacterRejected` | app/api/is-username-unique/route.ts:19-34 | `"a!b"` fails with "Username must not contain special characters" |
| `SendMessage.Intake` | app/api/send-message/route.ts:11-61 | the send succeeds iff no store call throws and the named account exists and accepts; a refused send changes nothing; a throwing lookup, or a throwing save for an account that accepts, answers 500 "Error at sending message"; a successful send answers 200 and appends `{content, now}` to that account |
| `SendMessage.Post` | app/api/send-message/route.ts:5-63 | the in-place handler answers and leaves the collection exactly as `Intake` says, keeping ids unique |
| `SendMessage.UnknownUserRefused` | app/api/send-message/route.ts:11-22 | no account of that name: 401 "User not found", collection unchanged |
| `SendMessage.NotAcceptingRefused` | app/api/send-message/route.ts:24-33 | an account that does not accept: 403, collection unchanged |
| `SendMessage.DeliveryAppendsOne` | app/api/send-message/route.ts:35-39 | exactly one message `{content, now}` goes at the end, the earlier ones keep their order, and no other field or account changes |
| `SendMessage.UnverifiedAccountReceives` | app/api/send-message/route.ts:11-24 | `isVerified` is not consulted: an unverified accepting account receives the message |
| `SendMessage.DeliveryKeepsLookup` | app/api/send-message/route.ts:11 | after a delivery, looking a name up finds the same account as before |
| `SendMessage.NoDeduplication` | app/api/send-message/route.ts:35-39 | sending the same content twice adds two messages |
| `GetMessage.Insert` | app/api/get-message/route.ts:38-40 | inserting into a newest-first list keeps it newest-first and adds exactly that message |
| `GetMessage.SortNewestFirst` | app/api/get-message/route.ts:38-40 | the sort is a permutation with non-increasing `createdAt` |
| `GetMessage.Unwind` | app/api/get-message/route.ts:30-36 | every unwound message is stored in a document with the matched id |
| `GetMessage.Aggregate` | app/api/get-message/route.ts:28-50 | at most one result document, none exactly when nothing was unwound, and its list is a newest-first permutation of the unwound messages |
| `GetMessage.Get` | app/api/get-message/route.ts:8-85 | without a session, 401 with the key `messsage`; a throwing aggregation gives 500; nothing unwound gives 404 "User has no messages"; otherwise 200 with a newest-first permutation of the matched messages |
| `GetMessage.UnwindIsOwners` | app/api/get-message/route.ts:28-36 | with unique ids, matching and unwinding yield exactly the owner's stored messages |
| `GetMessage.UnwindOfAbsent` | app/api/get-message/route.ts:30-36 | no document with that id yields no messages |
| `GetMessage.OwnerListing` | app/api/get-message/route.ts:28-71 | an owner with messages gets 200 and each stored message exactly once, as many as stored, newest first |
| `GetMessage.EmptyListingIsNotFound` | app/api/get-message/route.ts:52-61 | an owner with no messages gets 404, not an empty list |
| `GetMessage.UnknownOwnerIsNotFound` | app/api/get-message/route.ts:52-61 | a session id that resolves to no account gets 404 |
| `GetMessage.ThreeMessagesNewestFirst` | app/api/get-message/route.ts:38-40 | messages created at t1 < t2 < t3 are listed as t3, t2, t1 |
| `AcceptMessages.Toggle` | app/api/accept-messages/route.ts:7-73 | the update succeeds iff there is a session, no throw and the id resolves; without a session 401 "Not authenticated"; otherwise a failure is 401 and changes nothing; a success sets the flag to the request and returns the updated account with 200 |
| `AcceptMessages.Post` | app/api/accept-messages/route.ts:7-73 | the in-place handler answers and leaves the collection exactly as `Toggle` says, keeping ids unique |
| `AcceptMessages.Get` | app/api/accept-messages/route.ts:75-129 | without a session 401; a throw gives 500; an id that does not resolve gives 404; otherwise 200 with the stored flag |
| `AcceptMessages.SetAcceptingKeepsLookup` | app/api/accept-messages/route.ts:29-37 | setting the flag keeps every id, so an id finds the same account |
| `AcceptMessages.PostChangesOnlyTheFlag` | app/api/accept-messages/route.ts:29-37 | a successful update changes only `isAcceptingMessages` of that one account |
| `AcceptMessages.PostIdempotent` | app/api/accept-messages/route.ts:29-37 | setting the same value twice leaves the state of setting it once |
| `AcceptMessages.GetAfterPost` | app/api/accept-messages/route.ts:94-110 | a read after a successful update to v returns v with status 200 |
| `UserModel.FirstWhere` | app/api/send-message/route.ts:11 | the first matching document, or none when no document matches |
| `UserModel.Where` | app/sitemap.ts:41 | the query keeps only matching documents, each from the collection, and misses none; an empty collection gives nothing, and one document is kept iff it matches |
| `UserModel.WhereAppend` | app/sitemap.ts:41 | the query result of a concatenation is the concatenation of the results, so order and multiplicity are kept |
| `UserModel.FindByUsername` | app/api/send-message/route.ts:11 | `findOne({ username })`: the first document holding the name, or none iff no document holds it |
| `UserModel.FindById` | app/api/accept-messages/route.ts:94 | `findById`: the first document with the id, or none iff no document has it |
| `UserModel.FindVerifiedByUsername` | app/api/is-username-unique/route.ts:38-41 | a verified document holding the name, or none iff there is no such document |
| `UserModel.AppendMessage` | app/api/send-message/route.ts:37-39 | push and save: the one document gets the message at the end of its array, and nothing else changes |
| `UserModel.SetAccepting` | app/api/accept-messages/route.ts:29-37 | the one document gets the new `isAcceptingMessages`, and nothing else changes |
| `UserModel.AppendMessagePreservesIds` | app/api/send-message/route.ts:37-39 | a push and save keep document ids unique |
| `UserModel.SetAcceptingPreservesIds` | app/api/accept-messages/route.ts:29-37 | the flag update keeps document ids unique |
| `UserModel.FindByIdUnique` | app/api/accept-messages/route.ts:94 | with unique ids, `findById` finds the one document with that id |
| `SiteConfig.BaseUrl` | app/sitemap.ts:6 | a set, non-empty setting is used as it is; otherwise "http://localhost:3000" |
| `SiteConfig.EmptyBaseUrlFallsBack` | app/robots.ts:4 | an empty setting falls back like a missing one |
| `Sitemap.StaticRoutes` | app/sitemap.ts:9-34 | four entries: `/`, `/dashboard`, `/sign-in`, `/sign-up`, each after the base URL |
| `Sitemap.ProfileRoute` | app/sitemap.ts:42-47 | a profile URL is the base URL, "/u/", then the encoded name as a single path segment |
| `Sitemap.VerifiedUsers` | app/sitemap.ts:41 | the query keeps every verified account of the collection, and only those |
| `Sitemap.ProfileRoutes` | app/sitemap.ts:42-47 | one profile entry per user, in the same order |
| `Sitemap.Sitemap` | app/sitemap.ts:5-54 | the four static entries come first; with no database setting or a throwing query they are all; otherwise there are 4 + (verified users) entries, entry 4 + k being the profile of the k-th verified user |
| `Sitemap.ProfilesAreVerified` | app/sitemap.ts:41-47 | profile entry 4 + k (one per verified user) is base + "/u/" + the encoded name of a verified account |
| `Sitemap.ProfilesInQueryOrder` | app/sitemap.ts:41-47 | profiles follow query order: a document added at the end adds its profile entry last if verified, and nothing otherwise |
| `Sitemap.VerifiedProfilesAppend` | app/sitemap.ts:41-47 | with one more document at the end of the collection, the profile entries gain that document's entry at the end if it is verified |
| `Sitemap.EveryVerifiedListed` | app/sitemap.ts:41-47 | every verified account has its profile entry |
| `Sitemap.PlainNameUrl` | app/sitemap.ts:43 | a name of letters, digits, `_` and `.` appears in its URL unescaped |
| `Sitemap.DefaultSitemap` | app/sitemap.ts:6-53 | without settings the sitemap is the four static routes under "http://localhost:3000" |
| `UriComponent.Utf8` | app/sitemap.ts:43 | one to four bytes; a single byte exactly for code points below 0x80; a lead byte of at least 0xC0 and continuation bytes in 0x80..0xBF otherwise |
| `UriComponent.PercentEscape` | app/sitemap.ts:43 | three characters per byte, each `%` or an upper-case hexadecimal digit |
| `UriComponent.EncodeURIComponent` | app/sitemap.ts:43 | the output is never shorter and holds only unreserved characters, `%` and upper-case hexadecimal digits |
| `UriComponent.UnescapedUnchanged` | app/sitemap.ts:43 | a string of unreserved characters is left unchanged |
| `UriComponent.NoSlashAfterEncoding` | app/sitemap.ts:43 | no `/` survives encoding, so a name stays within its path segment |
| `Robots.StripScheme` | app/robots.ts:23 | a leading "https://" or "http://" is removed once; a URL with neither is kept |
| `Robots.Robots` | app/robots.ts:3-25 | one rule for `*`, with 4 allowed and 3 disallowed paths sharing none; sitemap = base + "/sitemap.xml"; host = the base without its scheme |
| `Robots.StripsOneScheme` | app/robots.ts:23 | exactly one scheme is stripped, even when the rest begins with another |
| `Robots.UpperCaseSchemeKept` | app/robots.ts:23 | the match is case-sensitive: "HTTP://" stays |
| `Robots.DefaultHost` | app/robots.ts:4-23 | without a base URL setting the host is "localhost:3000" |

## Left out

- `SignUpSchema.RegexTest`: the expression's `g` flag, and the `lastIndex` position it keeps, are not modelled. The zod library resets `lastIndex` to 0 before each test, so every test starts at the beginning of the input, as in the model.
- `GetMessage.SortNewestFirst`: the store's sort is not stable. The model picks one order among messages with equal `createdAt`. Its contract fixes no order among them.
- `UriComponent.EncodeURIComponent`: a lone UTF-16 surrogate, which makes the real function throw, cannot occur. Characters here are Unicode scalar values.
- String lengths count characters (scalar values), not UTF-16 code units. A username with characters outside the Basic Multilingual Plane is measured shorter than JavaScript measures it.
- The type-issue text for a missing username is the zod library's default message for a null value, not text from this repository.
- The e-mail format check is a library check. It enters `SignUpIssues` as a boolean.
- The connection code (`lib/dbConnect.ts`) is not modelled: it caches the connection and exits the process when it fails. In the sitemap a connection failure exits the process, but the model treats only a throwing query, which is silently dropped.
- Request parsing outside the handlers' `try` blocks is not modelled: malformed JSON bodies and a session id that is not a valid ObjectId. Request fields are typed: `content` a string, `acceptMessages` a boolean.
- Schema validation of saved documents is not modelled. Only the `save` throw is, through `saveThrows`.
- When `findByIdAndUpdate` throws, the model assumes it wrote nothing.
- Sessions are an input. Token signing, expiry and login are not modelled, nor is the staleness of the copy of the flag in the token.
- The send handler reads, pushes and saves in separate steps. Concurrent sends may lose updates. Calls are modelled one after another.
- `lastModified` and `createdAt` take the time as the parameter `now`.
- The sitemap `priority` numbers are kept as tenths, as labels, not as floating point.
- Console logging is not modelled.
- Sign-up, code verification, login, message deletion, the suggestion generator (an external text-generation service) and verification e-mail are not part of this model. Their handlers are outside these files or are calls to outside services.
