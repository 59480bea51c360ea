# moltpost frontend, modelled in Dafny

A model of the logic in the moltpost web client, a React frontend for the
Moltbook forum API. It covers:

- **The REST client** (`Moltbook`): the twelve API calls and the request each issues, the default headers, the `getPosts` query builder, and the `requestWithRetry` attempt loop with its linear back-off.
- **The optimistic list updates** of the front page (`Home`), a community page (`Community`) and the post page (`PostDetail`). A vote replaces the matching item by a copy with its score moved by one and its vote marker set. The update is applied only when the user is logged in and the request succeeded.
- **The form validators and payloads**:
  - `Register`: agent name (blank, length, pattern) and description;
  - `Submit`: title, content and community;
  - `Settings`: the API key.
- **The three `timeAgo` copies** (`PostCard`, `PostDetail`, `CommentItem`). They are built on one shared bucket function (`RelativeTime.Classify`) and the comment item's vote wiring.
- **`truncate`** of the community list (`Communities`).
- **The `localStorage` state machines** for the session (`UseAuth`, `Settings`) and the interface language (`UseLanguage`, `I18n`), including the two translation tables.

One module per source file. Shared pieces:

- `Types`: the API records and the vote update itself;
- `JsString`: `trim`, UTF-16 `.length`, `slice` end clamping and decimal rendering;
- `Storage`: `localStorage` as a `map<string, string>` held by a `LocalStorage` object;
- `Forms`: the notice a form shows.

Page state is a class whose handlers are methods. Each handler runs as one atomic step. What the network returns is a parameter of the handler.

Some behaviour of the code worth knowing before reading the model:

- The post page keeps one flat `comments` list, filled from the response and prepended to on a new comment (frontend/src/pages/PostDetail.tsx:24, 35, 74). It builds no reply tree and counts no replies.
- The comment upvote maps over that list only, so a reply nested inside a comment is never updated (frontend/src/pages/PostDetail.tsx:61-63).
- `login` stores the key and sets a placeholder agent without any request to the server (frontend/src/hooks/useAuth.ts:28-37).
- The settings form writes the trimmed key to `localStorage` itself and reloads the page (frontend/src/pages/Settings.tsx:21-25).
- After a successful registration the page calls `addAgent`, which the layout context never supplies (frontend/src/components/Layout.tsx:16, 23). The call throws, and the catch replaces the cleared error with the exception's message (frontend/src/pages/Register.tsx:36-38).

## Model

| member | source | states |
|---|---|---|
| Types.VotedPost | frontend/src/pages/PostDetail.tsx:41-55 | the voted post's score moves by +1 or -1 and its marker becomes up or down; every other field is the original's |
| Types.UpvotedComment | frontend/src/pages/PostDetail.tsx:61-63 | the upvoted comment's score is one higher and its marker is up; every other field is the original's |
| Types.VotePosts | frontend/src/pages/Home.tsx:31-33 | same length; every post with the id becomes its voted copy, every other post is unchanged |
| Types.UpvoteComments | frontend/src/pages/PostDetail.tsx:61-63 | same length; every top-level comment with the id becomes its upvoted copy, the rest unchanged |
| Types.VotePostsKeepsIds | frontend/src/pages/Home.tsx:41-43 | a vote keeps the ids of the list in their order |
| Types.VoteAbsentId | frontend/src/pages/Community.tsx:34-36 | voting for an id no post has leaves the list equal to itself |
| Types.UpThenDownRestoresScores | frontend/src/pages/Home.tsx:27-45 | an upvote then a downvote on one id restores every score; the matching posts end marked down, the others untouched |
| Types.VoteChangesOnlyTarget | frontend/src/pages/Community.tsx:30-48 | with unique ids, the post at index k takes the vote and the prefix before it and the suffix after it are unchanged |
| Types.UpvoteCommentChangesOnlyTarget | frontend/src/pages/PostDetail.tsx:57-65 | with unique ids, exactly the comment at index k takes the upvote; prefix and suffix unchanged |
| JsString.Trim | frontend/src/pages/Settings.tsx:21-24 | the result is the infix between the leading and the trailing whitespace: what is cut off at both ends is all whitespace, the result has none at either end, and it is empty exactly when the input is all whitespace |
| JsString.Blank | frontend/src/pages/Settings.tsx:21 | `!s.trim()` holds exactly when the string is all whitespace |
| JsString.TrimIdempotent | frontend/src/pages/Settings.tsx:24 | trimming a trimmed string changes nothing |
| JsString.Utf16Length | frontend/src/pages/Register.tsx:20 | `.length` lies between the number of characters and twice that, and equals it when every character is in the Basic Multilingual Plane |
| JsString.SliceEnd | frontend/src/pages/Communities.tsx:9 | the end index of `slice(0, end)`: in range kept, beyond the length clamped to it, negative counted from the back and clamped at 0 |
| JsString.NatToDecimal | frontend/src/components/PostCard.tsx:18-20 | the rendering is non-empty, all digits, with no leading zero except for 0 itself |
| JsString.NatToDecimalRoundTrip | frontend/src/components/PostCard.tsx:18-20 | reading the rendered digits back gives the number |
| JsString.IntToDecimal | frontend/src/services/moltbook.ts:85-86 | `toString()` of an integer: a minus sign exactly for negatives, then the magnitude's digits |
| RelativeTime.ElapsedSeconds | frontend/src/components/PostCard.tsx:15 | `Math.floor(ms / 1000)`: the unique s with 1000 s <= ms < 1000 (s + 1) |
| RelativeTime.FloorSecondsThen | frontend/src/components/PostCard.tsx:15-20 | flooring to seconds and then to minutes, hours or days equals flooring the milliseconds to that unit |
| RelativeTime.Classify | frontend/src/components/PostCard.tsx:15-20 | the buckets partition the integers (under a minute, including the future; minutes; hours; days) and each count is the floor in its unit, below 60 or 24 |
| RelativeTime.ClassifyBounds | frontend/src/pages/PostDetail.tsx:15-17 | a bucket's count n satisfies unit*n <= elapsed < unit*(n+1) |
| RelativeTime.EnglishLabel | frontend/src/components/PostCard.tsx:17-20 | "just now" is the one label that does not start with a digit |
| RelativeTime.ChineseLabel | frontend/src/pages/PostDetail.tsx:14-17 | "刚刚" is the one label that does not start with a digit |
| RelativeTime.DecimalThenSuffix | frontend/src/components/PostCard.tsx:18-20 | two counts followed by equally long suffixes read alike only when counts and suffixes agree |
| RelativeTime.EnglishLabelInjective | frontend/src/components/PostCard.tsx:17-20 | different buckets or counts never give the same English label |
| RelativeTime.ChineseDaySuffix | frontend/src/pages/PostDetail.tsx:15-17 | only the day suffix has a space three characters from the end |
| RelativeTime.ChineseLabelInjective | frontend/src/pages/PostDetail.tsx:14-17 | different buckets or counts never give the same Chinese label |
| RelativeTime.ClassifyMonotonic | frontend/src/components/PostCard.tsx:17-20 | a later moment never falls in an earlier bucket, and within one bucket its count never decreases |
| PostCard.TimeAgo | frontend/src/components/PostCard.tsx:12-21 | under 60 s "just now", then floor(s/60) "m ago", floor(s/3600) "h ago", floor(s/86400) "d ago" |
| PostDetail.TimeAgo | frontend/src/pages/PostDetail.tsx:9-18 | under 60 s "刚刚", then floor(s/60) " 分钟前", floor(s/3600) " 小时前", floor(s/86400) " 天前" |
| CommentItem.TimeAgo | frontend/src/components/CommentItem.tsx:10-19 | the same four Chinese cases, stated on the seconds |
| CommentItem.AgreesWithPostDetail | frontend/src/components/CommentItem.tsx:10-19 | the comment row's copy and the post page's copy give the same label for every elapsed time |
| CommentItem.Forward | frontend/src/components/CommentItem.tsx:27-28 | an upvote click passes exactly this comment's id; a downvote click passes nothing |
| CommentItem.UpClickVotesThisComment | frontend/src/components/CommentItem.tsx:27 | with unique ids, an upvote click on comment k makes the page update exactly comment k |
| PostDetail.PostDetailPage.constructor | frontend/src/pages/PostDetail.tsx:22-27 | no post, no comments, loading, empty input, not submitting |
| PostDetail.PostDetailPage.LoadPost | frontend/src/pages/PostDetail.tsx:29-39 | no id: nothing happens; else the `getPost(id)` call; success sets the post and the comments (or []), failure clears the post only; loading ends |
| PostDetail.PostDetailPage.HandleVote | frontend/src/pages/PostDetail.tsx:41-55 | no post or logged out: no request, no change; else the upvote or downvote call for the post's id is made, and only a success applies the vote to the post |
| PostDetail.PostDetailPage.HandleCommentUpvote | frontend/src/pages/PostDetail.tsx:57-65 | logged out: no request; else the `upvoteComment` call for the id is made and a success upvotes the matching top-level comments; otherwise the list is unchanged |
| PostDetail.PostDetailPage.HandleSubmitComment | frontend/src/pages/PostDetail.tsx:67-78 | no id, blank input or logged out: nothing; else `createComment` with the page's id and the trimmed text is made, a success puts the new comment in front of the old list and clears the input, and submitting ends false |
| Home.HomeQuery | frontend/src/pages/Home.tsx:21 | the query carries the sort, and the filter only when it is non-empty |
| Home.HomeEndpoint | frontend/src/pages/Home.tsx:19-25 | the front page requests `/posts?sort=<s>` without a filter and `/posts?submolt=<f>&sort=<s>` with one |
| Home.FirstFetch | frontend/src/pages/Home.tsx:11-12 | the first request is `/posts?sort=new` |
| Home.HomePage.constructor | frontend/src/pages/Home.tsx:9-13 | no posts, sort new, empty filter, loading |
| Home.HomePage.FetchPosts | frontend/src/pages/Home.tsx:19-25 | requests the endpoint of the current sort and filter; the posts become the response or [] on failure; loading ends |
| Home.HomePage.HandleVote | frontend/src/pages/Home.tsx:27-45 | logged out: no request; else the vote request for the id is sent and only a success applies the vote to every matching post |
| Community.CommunityQuery | frontend/src/pages/Community.tsx:21-24 | no query when the route name is absent or empty; otherwise the name as filter and the sort |
| Community.CommunityEndpoint | frontend/src/pages/Community.tsx:24 | a community page requests `/posts?submolt=<name>&sort=<s>` |
| Community.CommunityPage.constructor | frontend/src/pages/Community.tsx:10-14 | no posts, sort hot, loading |
| Community.CommunityPage.FetchPosts | frontend/src/pages/Community.tsx:21-28 | without a name nothing happens; else the endpoint is requested and the posts become the response or [] |
| Community.CommunityPage.HandleVote | frontend/src/pages/Community.tsx:30-48 | logged out: no request; else the vote request is sent and only a success applies the vote to every matching post |
| Communities.Truncate | frontend/src/pages/Communities.tsx:7-10 | missing or empty text gives ''; text within the limit is returned whole; longer text is cut as `slice(0, max)` does and followed by "..." |
| Communities.TruncateShape | frontend/src/pages/Communities.tsx:8-9 | for max >= 0 the result has length at most max+3, exactly max+3 when cut, and begins with the first min(len, max) characters |
| Communities.TruncateIdempotent | frontend/src/pages/Communities.tsx:8-9 | for max >= 0 truncating twice equals truncating once |
| Communities.NegativeLimitNotIdempotent | frontend/src/pages/Communities.tsx:9 | a negative limit counts from the back, and a second truncation then changes the result |
| Register.MatchesNamePattern | frontend/src/pages/Register.tsx:25 | `/^[a-zA-Z0-9_-]+$/`: at least one character, every one from the class |
| Register.CheckName | frontend/src/pages/Register.tsx:17-27 | blank exactly when all whitespace; a length error exactly when non-blank and the UTF-16 length is outside 3..30; a format error exactly when the length is fine and the pattern fails |
| Register.NameCharsPlain | frontend/src/pages/Register.tsx:24 | a name matching the pattern has UTF-16 length equal to its character count and is its own trim |
| Register.AcceptedName | frontend/src/pages/Register.tsx:20-33 | an accepted name has 3..30 characters, all in `[A-Za-z0-9_-]`, and trimming it changes nothing |
| Register.LengthCheckedFirst | frontend/src/pages/Register.tsx:20-27 | "a!" reports the length, not the format |
| Register.PaddedNameRejected | frontend/src/pages/Register.tsx:24-27 | the pattern sees the name as typed: " abc" is a format error |
| Register.RegisterPayload | frontend/src/pages/Register.tsx:33 | the trimmed name, and the trimmed description or none when it is blank |
| Register.RegisterForm.constructor | frontend/src/pages/Register.tsx:8-12 | empty fields, not submitting, no error, no result |
| Register.RegisterForm.HandleSubmit | frontend/src/pages/Register.tsx:15-41 | blank: nothing; length or format error: that tag and no request; accepted: the payload is sent and submitting ends false; success sets the result and then shows the message of the TypeError that the missing `addAgent` throws; failure keeps the result and shows the caught notice |
| Forms.CaughtNotice | frontend/src/pages/Register.tsx:38 | a thrown Error shows its message; any other thrown value shows the fallback key |
| Submit.SubmitPayload | frontend/src/pages/Submit.tsx:37-50 | none exactly when the title or the content is blank; else the trimmed title, the trimmed content and the selected community |
| Submit.PayloadFieldsClean | frontend/src/pages/Submit.tsx:46-50 | the sent title and content are non-empty and unpadded, and resubmitting them gives the same payload |
| Submit.PostRoute | frontend/src/pages/Submit.tsx:51 | `/post/` followed by exactly the id |
| Submit.SubmitForm.constructor | frontend/src/pages/Submit.tsx:11-15 | empty fields, community "general", not submitting, no error |
| Submit.SubmitForm.HandleSubmit | frontend/src/pages/Submit.tsx:35-56 | blank field: the required tag and no request; else `createPost` with the payload is made, success navigates to the new post, failure sets the caught notice, and submitting ends false |
| Moltbook.Url | frontend/src/services/moltbook.ts:23 | the URL is `/api/v1` followed by the endpoint |
| Moltbook.RequestFor | frontend/src/services/moltbook.ts:46-150 | exactly the four reads use GET, exactly `deletePost` and `unsubscribeSubmolt` use DELETE, and only `createPost` and `createComment` carry a body, of their own kind |
| Moltbook.ParseRequest | frontend/src/services/moltbook.ts:46-150 | the reading back of a request into the call that issued it; its property is `RequestRoundTrip` |
| Moltbook.PostVote | frontend/src/services/moltbook.ts:112-118 | an upvote is the `upvotePost` call and a downvote the `downvotePost` call for the id |
| Moltbook.PrefixConcat | frontend/src/services/moltbook.ts:94 | a path built as a prefix followed by a value starts with the prefix and leaves the value after it |
| Moltbook.SuffixConcat | frontend/src/services/moltbook.ts:113 | a value followed by a suffix ends with the suffix and leaves the value before it |
| Moltbook.GetPostRoundTrip | frontend/src/services/moltbook.ts:93-95 | `GET /posts/<id>` reads back as `getPost(id)` |
| Moltbook.GetSubmoltRoundTrip | frontend/src/services/moltbook.ts:140-142 | `GET /submolts/<name>` reads back as `getSubmolt(name)`, not as the list |
| Moltbook.UpvotePostRoundTrip | frontend/src/services/moltbook.ts:112-114 | `POST /posts/<id>/upvote` reads back as `upvotePost(id)` |
| Moltbook.DownvotePostRoundTrip | frontend/src/services/moltbook.ts:116-118 | `POST /posts/<id>/downvote` reads back as `downvotePost(id)`, never as an upvote |
| Moltbook.CreateCommentRoundTrip | frontend/src/services/moltbook.ts:121-129 | `POST /posts/<id>/comments` with a comment body reads back as `createComment(id, content)` |
| Moltbook.UpvoteCommentRoundTrip | frontend/src/services/moltbook.ts:131-133 | `POST /comments/<id>/upvote` reads back as `upvoteComment(id)` |
| Moltbook.SubscribeRoundTrip | frontend/src/services/moltbook.ts:144-146 | `POST /submolts/<name>/subscribe` reads back as `subscribeSubmolt(name)` |
| Moltbook.UnsubscribeRoundTrip | frontend/src/services/moltbook.ts:148-150 | `DELETE /submolts/<name>/subscribe` reads back as `unsubscribeSubmolt(name)` |
| Moltbook.RequestRoundTrip | frontend/src/services/moltbook.ts:46-150 | every call's request reads back as that call, whatever its ids, names and bodies hold |
| Moltbook.RequestForInjective | frontend/src/services/moltbook.ts:46-150 | no two different calls issue the same request, so a vote, comment or subscription reaches the item it names |
| Moltbook.KeyTruthy | frontend/src/services/moltbook.ts:17 | the stored key is sent only when it is present and non-empty |
| Moltbook.Headers | frontend/src/services/moltbook.ts:14-19 | keys are Content-Type, Authorization iff the key is non-empty, and the caller's; caller values win; defaults apply where the caller is silent |
| Moltbook.Retryable | frontend/src/services/moltbook.ts:22-35 | the attempts the `catch` sees: a non-OK response or a failed `fetch`; an OK response is not in it |
| Moltbook.FailureMessage | frontend/src/services/moltbook.ts:28-35 | a non-OK response fails with the server's message when it has a non-empty one, else `HTTP <status>`; a failed `fetch` rethrows its own error's message |
| Moltbook.Settle | frontend/src/services/moltbook.ts:28-35 | the request resolves exactly on an OK attempt, with its body; an unparsable OK body rejects with the parse error; a retryable failure rejects with its failure message |
| Moltbook.Backoff | frontend/src/services/moltbook.ts:37 | every wait is at least one second |
| Moltbook.Schedule | frontend/src/services/moltbook.ts:37 | the k-th wait is 1000 (k + 1) ms |
| Moltbook.ScheduleTotal | frontend/src/services/moltbook.ts:37 | n waits take 500 n (n + 1) ms |
| Moltbook.DefaultRetriesWait | frontend/src/services/moltbook.ts:12-37 | with the default three attempts the waits are 1000 and 2000 ms, 3000 in all |
| Moltbook.RequestWithRetry | frontend/src/services/moltbook.ts:9-41 | with retries <= 0 no attempt is made and the fixed error is thrown; otherwise at most `retries` attempts, every earlier one failed in a retryable way, the request settles as the last attempt, and the waits are the back-off schedule |
| Moltbook.QueryPairs | frontend/src/services/moltbook.ts:81-86 | at most five pairs; which ones and in what order is stated by the three lemmas below |
| Moltbook.Find | frontend/src/services/moltbook.ts:81-86 | `URLSearchParams.get`: none exactly when no pair has the key, otherwise the value of a pair with that key (the first one, by `FindFirst`) |
| Moltbook.FindFirst | frontend/src/services/moltbook.ts:81-86 | when several pairs carry the key, the value found is that of the first one |
| Moltbook.FindQueryKey | frontend/src/services/moltbook.ts:81-86 | the value the query holds for any key: the field's value when it is truthy, none otherwise, and none for any other key |
| Moltbook.QueryKeysPresentIffTruthy | frontend/src/services/moltbook.ts:82-86 | each of the five keys is present exactly when its value is truthy (limit and offset of 0 are left out), with the right value |
| Moltbook.QueryKeyOrder | frontend/src/services/moltbook.ts:82-86 | the keys appear in the order submolt, author, sort, limit, offset |
| Moltbook.Serialize | frontend/src/services/moltbook.ts:88 | the query string is empty exactly when there are no pairs |
| Moltbook.PostsEndpoint | frontend/src/services/moltbook.ts:88-89 | no pairs: `/posts`; otherwise `/posts?` followed by the query string |
| Moltbook.QueryMarkIffTruthy | frontend/src/services/moltbook.ts:88-89 | the endpoint is plain `/posts` exactly when no parameter is truthy |
| Moltbook.SetPair | frontend/src/services/moltbook.ts:82 | `URLSearchParams.set`: the key then reads as the value, a new key is appended, and every other key reads as before; a key already present is replaced in place (`SetPairReplacesFirst`) |
| Moltbook.SetPairReplacesFirst | frontend/src/services/moltbook.ts:82 | for a key already present, the first pair with it takes the new value where it stands, every pair before it is kept, and later pairs with the key are dropped |
| Moltbook.SetPairKeyOnce | frontend/src/services/moltbook.ts:82 | after `set` the key occurs in at most one pair (and by `SetPair` in at least one) |
| Moltbook.RemoveKey | frontend/src/services/moltbook.ts:82 | no pair with the key is left, and every other key reads as before |
| Moltbook.SearchParams.ToString | frontend/src/services/moltbook.ts:88 | the builder's string is empty exactly when it holds no pairs |
| Moltbook.SearchParams.constructor | frontend/src/services/moltbook.ts:81 | an empty builder |
| Moltbook.SearchParams.Set | frontend/src/services/moltbook.ts:82-86 | the builder's pairs become those of `set` |
| Moltbook.SetIf | frontend/src/services/moltbook.ts:82-86 | one guarded `set` in rank order appends the pair exactly when the value is truthy |
| Moltbook.GetPostsEndpoint | frontend/src/services/moltbook.ts:74-90 | the builder ends holding the five guarded pairs in order, and the endpoint is the one for those pairs |
| Storage.Lookup | frontend/src/services/moltbook.ts:6 | `getItem` gives the stored string exactly when the key is present |
| Storage.LookupAfterSet | frontend/src/hooks/useAuth.ts:29 | reading an entry just written gives the written value |
| Storage.LookupOtherKey | frontend/src/hooks/useAuth.ts:40 | writing or removing one entry leaves every other entry as it was |
| Storage.LocalStorage.GetItem | frontend/src/services/moltbook.ts:6 | gives the stored string exactly when the key is present, and `null` otherwise |
| Storage.LocalStorage.constructor | frontend/src/hooks/useAuth.ts:9 | the store starts with the given entries |
| Storage.LocalStorage.SetItem | frontend/src/hooks/useAuth.ts:29 | the entry is set and nothing else changes |
| Storage.LocalStorage.RemoveItem | frontend/src/hooks/useAuth.ts:40 | the entry is removed and nothing else changes |
| I18n.TablesShareKeys | frontend/src/i18n/index.ts:4-116 | the English table defines exactly the keys of the Chinese table |
| I18n.Translations | frontend/src/hooks/useLanguage.ts:7 | a table exists exactly for "zh" and "en", and it is that language's table |
| I18n.StoredLanguage | frontend/src/i18n/index.ts:120-122 | a non-empty stored string is returned as it is, unchecked; nothing or "" gives "zh" |
| I18n.GetStoredLanguage | frontend/src/i18n/index.ts:120-122 | reads the store and returns its stored language |
| I18n.SetStoredLanguage | frontend/src/i18n/index.ts:124-126 | writes the language entry and nothing else |
| I18n.SetThenGetLanguage | frontend/src/i18n/index.ts:120-126 | after storing a language, reading it back gives that language, and every other entry is unchanged |
| UseLanguage.Toggled | frontend/src/hooks/useLanguage.ts:10 | "zh" goes to "en"; every other value, unchecked ones included, goes to "zh" |
| UseLanguage.ToggleTwice | frontend/src/hooks/useLanguage.ts:10 | toggling twice from either code returns it |
| UseLanguage.ToggledHasTable | frontend/src/hooks/useLanguage.ts:7-10 | after a toggle there is always a table |
| UseLanguage.ToggleAgreesWithStore | frontend/src/hooks/useLanguage.ts:11-12 | what a toggle writes is what the store reads back, so state and store agree |
| UseLanguage.LanguageHook.constructor | frontend/src/hooks/useLanguage.ts:5 | the initial language is the stored one |
| UseLanguage.LanguageHook.T | frontend/src/hooks/useLanguage.ts:7 | `t` is the table of the current language, or none for an unknown value |
| UseLanguage.LanguageHook.ToggleLanguage | frontend/src/hooks/useLanguage.ts:9-13 | the language toggles and the store's language entry becomes the new language |
| UseAuth.AgentFor | frontend/src/hooks/useAuth.ts:9-20 | an agent is shown exactly when the stored key is present and non-empty, and it is always the placeholder |
| UseAuth.AgentIndependentOfKey | frontend/src/hooks/useAuth.ts:12-17 | any two non-empty keys show the same placeholder agent |
| UseAuth.LoginThenCheck | frontend/src/hooks/useAuth.ts:28-37 | after `login(k)` a fresh check shows the placeholder exactly when k is non-empty |
| UseAuth.LogoutThenCheck | frontend/src/hooks/useAuth.ts:39-42 | after `logout` a later check shows nobody |
| UseAuth.AuthHook.constructor | frontend/src/hooks/useAuth.ts:5-6 | no agent, loading |
| UseAuth.AuthHook.CheckAuth | frontend/src/hooks/useAuth.ts:8-22 | the agent is the one for the stored key, and loading ends |
| UseAuth.AuthHook.Login | frontend/src/hooks/useAuth.ts:28-37 | the key is stored verbatim, the placeholder agent is set, and the result is true without verification |
| UseAuth.AuthHook.Logout | frontend/src/hooks/useAuth.ts:39-42 | the key entry is removed and the agent cleared |
| Settings.SubmitDisabled | frontend/src/pages/Settings.tsx:99 | while loading the button is disabled; otherwise it is disabled exactly when the key is all whitespace |
| Settings.HandleLogin | frontend/src/pages/Settings.tsx:19-26 | a blank key stores nothing and does not reload; any other key is stored trimmed under `moltbook_api_key`, with no request, and the page reloads |
| Settings.StoredKeyWellFormed | frontend/src/pages/Settings.tsx:21-24 | the stored key is non-empty, has no surrounding whitespace and is its own trim |
| Settings.LoginThenReload | frontend/src/pages/Settings.tsx:24-25 | after the key is stored, the reloaded page's auth check shows the placeholder agent |
| Settings.EnabledSubmitStores | frontend/src/pages/Settings.tsx:99 | an enabled button means the key is not blank, so the handler stores it |

## Left out

- Network I/O: `fetch`, `response.json()`, and the `setTimeout` sleeps of the retry loop. Each attempt's outcome is an input, and the waits are recorded rather than slept.
- `verifyApiKey` (frontend/src/services/moltbook.ts:50-71): not modelled. It is a one-shot `fetch` with an abort timer, and nothing in the modelled code calls it.
- The endpoint functions sit on top of `requestWithRetry`. They are modelled as the `ApiCall` they make and the `Request` it issues, not as their awaited results. A page handler returns the `ApiCall` it makes.
- The community lists and the community header: `getSubmolts` (frontend/src/pages/Home.tsx:16, Submit.tsx:18, Communities.tsx:18) and `getSubmolt` (frontend/src/pages/Community.tsx:18) only fill display state, so those page effects are not modelled; the calls themselves are. `getMe`, `deletePost`, `subscribeSubmolt` and `unsubscribeSubmolt` are called by no page.
- Dates and floating point: `new Date()`, string parsing and `Math.floor` of a float. The `timeAgo` functions take the elapsed time as whole milliseconds. An unparsable date (NaN) is not modelled.
- Number formatting: `toString()` of the `limit`/`offset` integers is decimal. JavaScript's exponent form above 1e21, and non-integer numbers, are not modelled.
- `URLSearchParams` percent-encoding (application/x-www-form-urlencoded, section 5.2 of the WHATWG URL Standard): keys and values are serialized as they are.
- A non-OK response whose JSON body is `null` (frontend/src/services/moltbook.ts:29-30): reading `error.message` then throws a `TypeError`, which the same `catch` retries, and a last such attempt rejects with that `TypeError`'s message; a non-string `message` is turned into a string. The model can express these only by giving that attempt as a `NetworkError` carrying the resulting message.
- Header names: merged as exact strings, so the case-insensitivity of HTTP header names is not modelled.
- `Communities.Truncate`: its lengths and cuts count characters, not UTF-16 code units, so a cut through a surrogate pair is not modelled. The page only ever passes the limit 100.
- `Communities.TruncateShape`, `Communities.TruncateIdempotent`: stated for a non-negative limit only, since a negative limit breaks idempotence (see `NegativeLimitNotIdempotent`).
- `Types.Comment`: `score` is taken to be always present. It is optional in the API type, and `undefined + 1` is NaN.
- `I18n.Translations`: indexing the translation object with an arbitrary string also reaches inherited object properties. That is not modelled; anything other than the two codes gives no table.
- The multi-account store and `registerAgent`: `addAgent` and the other account functions are used by the registration page and the app shell but defined nowhere in the source, and `registerAgent` is not defined in the client. So the registration outcome is an input, and the account list is not modelled.
- `Register.RegisterForm.HandleSubmit`: after a success the missing `addAgent` throws a `TypeError`; its message text depends on the JavaScript engine, and the model uses the V8 wording `addAgent is not a function`. The arguments `data.agent.name` and `data.agent.api_key` are evaluated first; the response is taken to carry `agent`, since otherwise that read throws a different `TypeError`.
- The registration messages `nameLength`, `nameFormat` and `registerFailed` are in neither table, so `setError(t.nameLength)` sets the error to `undefined`: no message is shown (frontend/src/pages/Register.tsx:173), and any earlier message is cleared. Form notices are kept as symbolic translation keys.
- React timing: handlers map over the list captured at render time, and concurrent handlers can overwrite each other. Each handler is one atomic step.
- Rendering, styling and routing: all JSX, the clipboard copy and its timer, `window.location.reload` (its effect is the `reloaded` flag) and `navigate` (recorded as the route). The vote buttons are disabled while logged out; the handlers' login flag covers that.
- The sort and filter selectors of the front page and the community page only assign `sort` and `submolt`. Changing them triggers the fetch modelled by `FetchPosts`.
