# Session and list bookkeeping of a movie catalog, in Dafny

This project models the authentication core of a catalog application (an Express
back end with a React front end), and the list bookkeeping kept on its user records.

- **Tokens** (`tokens.dfy`): access and refresh JSON Web Tokens. They are signed under
  two secrets taken from the environment with development defaults. They live 15
  minutes and 7 days, carried in the `exp` claim (RFC 7519, section 4.1.4).
  - The signing library is an abstract `Codec`. Its law `Lawful` says that a
    serialised token parses back to itself, and that it is a non-empty string
    without spaces.
  - `Verify` refuses a string that does not parse, one signed with another secret,
    and one whose `exp` second has come.
- **Session** (`session.dfy`): the token-issuing handlers of the user controller.
  - `sendAuthResponse` overwrites the single stored refresh token; that overwrite is
    the whole rotation mechanism.
  - The other handlers are `registerUser`, `loginUser`, `refreshToken` (no cookie,
    bad token, reuse, or rotate), `logoutUser` and `getUserProfile`.
  - The user store is an object holding the records as a sequence. A record's
    position is its id, and `findOne` is the first match.
  - Every handler keeps two invariants: `Consistent` (each stored refresh token was
    minted for the record that holds it) and `UniqueEmails`.
- **Gate** (`gate.dfy`): the `verifyToken` middleware, as a function from the
  `Authorization` header and the store to a 401 answer or the attached user. It uses
  the Bearer scheme of RFC 6750, section 2.1.
- **UserLists** (`userlists.dfy`): the user controller's watchlist, recently viewed
  and interests handlers.
  - The watchlist adds an id only if it is absent, and removal drops every copy.
  - Viewing moves an id to the front of the recently viewed list and keeps at most
    20 ids.
  - The read-only views are the recently viewed items in list order, and the first
    20 distinct interest ids in first-occurrence order.
  - Viewing with no item id stores the string `"undefined"`, because the 400 check
    runs after `String(itemId)`. The model follows the code here.
- **Ratings** (`ratings.dfy`): `rateItem`.
  - A numeric rating is appended to the item, and the average and count follow.
  - On the user's record, the entry for the item is upserted by item id, and the
    item is moved to the front of the recently viewed list, popping once past 20.
- **Client** (`client.dfy`): the browser side.
  - `ApiClient` is the API module's state: the access token, the refresh-in-flight
    flag and the queue of requests that failed meanwhile.
  - Its two interceptors attach the token, and on a 401 run a single refresh that
    the queued requests share.
  - `AuthProvider` is the session context: the user, the loading flag, and the
    refresh callback.
  - The two classes reference each other, so they share one module.
  - An awaited promise is modelled by the event that settles it, passed to the
    method that reacts to it.
- **Listing** (`listing.dfy`): the catalog page's `filtered` list and its
  `categories`.
  - The filter is a case-insensitive search with a category match.
  - The optional sort by rating is stable and descending.
- `wrappers.dfy`, `seqs.dfy` and `strings.dfy` hold the shared pieces. These are
  `Option`/`Result`, the JavaScript array operations (`filter`, `findIndex`, `Set`
  order, `slice`), and the string operations (`includes`, `startsWith`,
  `split(' ')`, `toLowerCase`), each with its defining properties.

The model keeps these behaviours of the code as they are written:

- A refresh in the same clock second as the previous issue mints the identical
  token. The previous token then stays accepted (`Session.SameSecondRotationKeepsToken`).
- A refresh for a user who no longer exists answers with the reuse message
  `Invalid refresh token`.
- When the interceptor's refresh fails, it drops only the access token. The context's
  user stays as it was.
- A request queued during a refresh is queued without the retry mark, so it can be
  retried more than once. `Client.ApiClient.OnResponseError` does this.
  `Client.ApiClient.OnResponseErrorMarked` is the corrected interceptor (see Findings).

## Model

| member | source | states |
|---|---|---|
| Tokens.OrDefault | Backend/controllers/userController.js:6 | an unset or empty variable gives the default, any other value is used as it is |
| Tokens.AccessSecret | Backend/controllers/userController.js:6 | the access secret is never empty |
| Tokens.RefreshSecret | Backend/controllers/userController.js:12 | the refresh secret is never empty |
| Tokens.SignAccess | Backend/controllers/userController.js:5-8 | under a lawful codec, an access token is a non-empty string without spaces that names its user |
| Tokens.SignRefresh | Backend/controllers/userController.js:10-14 | under a lawful codec, a refresh token is a non-empty string without spaces that names its user |
| Tokens.Verify | Backend/controllers/userController.js:103 | `jwt.verify` fails as malformed exactly when the string does not parse, with a bad signature exactly when another secret signed it, as expired exactly from its `exp` second on, and otherwise gives back the claims |
| Tokens.AccessTokenLifetime | Backend/controllers/userController.js:5-8 | an access token verifies under its secret, giving back `{ id, email }`, exactly before `iat + 900`; from then on it is `Expired` |
| Tokens.RefreshTokenLifetime | Backend/controllers/userController.js:11-14 | a refresh token verifies under its secret, giving back `{ id }`, exactly before `iat + 604800`; from then on it is `Expired` |
| Tokens.WrongSecretRejected | Backend/middleware/authMiddleware.js:15-16 | a token signed with one secret fails with `InvalidSignature` under any other |
| Tokens.CookieMatchesRefreshLifetime | Backend/controllers/userController.js:30 | the cookie max-age of 604800000 ms is the 7-day refresh lifetime; the lifetimes are 900 s and 604800 s |
| Tokens.DefaultSecretsDiffer | Backend/controllers/userController.js:6-12 | with neither variable set, the two secrets differ |
| Session.WithRefreshToken | Backend/controllers/userController.js:22 | exactly the named record's refresh token is replaced; every other record is unchanged |
| Session.IssueKeepsConsistent | Backend/controllers/userController.js:17-23 | storing a freshly minted refresh token keeps every stored token minted for its holder |
| Session.SendAuthResponse | Backend/controllers/userController.js:17-45 | the new refresh token overwrites the stored one and is set as a 7-day cookie; the access token and public user are answered with the given status; both invariants are kept |
| Session.RegisterUser | Backend/controllers/userController.js:49-67 | 400 and no change when a field is missing or the email is taken; otherwise the record is appended, issued, and answered with 201; the invariants are kept |
| Session.LoginUser | Backend/controllers/userController.js:71-88 | 400 when a field is missing; 401 and no change for an unknown email or a wrong password; only otherwise issue and rotate with 200 |
| Session.RefreshToken | Backend/controllers/userController.js:92-121 | 401 without a cookie; 403 and a cleared cookie when verification fails, or the user is missing, or the stored token differs; the store changes only on a match, which rotates; 200 exactly when the cookie is accepted |
| Session.LogoutUser | Backend/controllers/userController.js:125-144 | always 204; with a cookie, only its first holder is blanked to `''` and the cookie is cleared; without one nothing changes; the invariants are kept |
| Session.GetUserProfile | Backend/controllers/userController.js:148-156 | 200 with the record stripped of its password exactly when the user exists, else 404 `User not found` |
| Session.Accepts | Backend/controllers/userController.js:103-108 | an accepted refresh token verifies under the refresh secret and is the very string stored on the record of the user it names |
| Session.AfterLogout | Backend/controllers/userController.js:133-136 | a record changes only if it holds the cookie, and then only by blanking its token; the first holder no longer holds it; with no holder nothing changes |
| Session.RotationRejectsReplay | Backend/controllers/userController.js:108-115 | after a rotation, the token just used is refused at every later second, unless it was minted in that same second |
| Session.RotatedTokenAccepted | Backend/controllers/userController.js:103-115 | after a rotation, the newly minted token is accepted for its 7 days |
| Session.SameSecondRotationKeepsToken | Backend/controllers/userController.js:11-22 | a rotation in the second of the previous issue mints the identical token and leaves the store as it was |
| Session.OneAcceptedTokenPerUser | Backend/controllers/userController.js:108-112 | two refresh tokens that are accepted for the same user are the same string |
| Session.LogoutRevokes | Backend/controllers/userController.js:133-136 | after logout with a cookie, the refresh endpoint refuses that cookie at every second |
| Session.AccessTokenNeverRefreshes | Backend/controllers/userController.js:103-108 | an access token is never accepted by the refresh endpoint, even when the two secrets coincide |
| Strings.Contains | Frontend/src/pages/Datasets.jsx:51 | `includes` holds exactly when the piece occurs at some position |
| Strings.ToLower | Frontend/src/pages/Datasets.jsx:51 | lower-casing keeps the length and leaves no upper-case letter; every other character stays, and each upper-case letter becomes its lower-case partner |
| Strings.ToLowerIdempotent | Frontend/src/pages/Datasets.jsx:51 | lower-casing twice is lower-casing once |
| Strings.Split | Backend/middleware/authMiddleware.js:12 | `split(' ')` gives at least one field, at least two when there is a space; no field holds a space; the first field runs up to the first space; joining gives back the string |
| Strings.SplitJoin | Backend/middleware/authMiddleware.js:12 | splitting space-joined, non-empty, space-free fields gives back those fields |
| Seqs.Without | Backend/controllers/userController.js:191 | every copy of the element is removed and every other element keeps its count; an absent element leaves the list unchanged, a present one shortens it |
| Seqs.Prefix | Backend/controllers/userController.js:303 | `slice(0, n)` is the first `min(length, n)` elements |
| Seqs.Distinct | Backend/controllers/userController.js:297-303 | a `Set`'s elements, without duplicates, exactly the elements of the input |
| Seqs.DistinctFirstOccurrence | Backend/controllers/userController.js:297-303 | the `Set`'s order is the order of first occurrence in the input |
| Seqs.FirstWhere | Backend/controllers/itemController.js:91 | `findIndex` is the first position satisfying the test, or none when no position does |
| Seqs.Filter | Frontend/src/pages/Datasets.jsx:50-53 | `filter` keeps exactly the elements passing the test, each as often as it occurs |
| Seqs.FilterIsSubseq | Frontend/src/pages/Datasets.jsx:50-53 | `filter` keeps the elements in their order |
| UserLists.Watched | Backend/controllers/userController.js:170-173 | the id ends up in the watchlist; it is appended only when absent, otherwise the list is unchanged |
| UserLists.WatchedIdempotent | Backend/controllers/userController.js:170-176 | adding an id twice leaves what adding it once leaves |
| UserLists.WatchedKeepsNoDups | Backend/controllers/userController.js:170-173 | a watchlist without duplicates stays without duplicates |
| UserLists.UnwatchUndoesWatch | Backend/controllers/userController.js:191 | removing an id just added gives back the list it was added to |
| UserLists.PushRecent | Backend/controllers/userController.js:231-249 | the list starts with the id, holds it once and at most 20 ids; the rest is the old list without the id, in order, cut to 19 |
| UserLists.PushRecentAtFront | Backend/controllers/userController.js:231-249 | viewing the id already at the front of a list of at most 20 changes nothing |
| UserLists.RatedIds | Backend/controllers/userController.js:300 | the ids of the rated entries, position by position |
| UserLists.InterestIds | Backend/controllers/userController.js:297-303 | the interests have no duplicates and at most 20 ids, each from the recent list, the watchlist or the rated entries |
| UserLists.InterestIdsOrder | Backend/controllers/userController.js:297-303 | the interests keep first-occurrence order in recent, then watchlist, then rated ids; they are the first `min(distinct, 20)` distinct ids: none is lost unless there are more than 20, and an id left out is first seen after every kept one |
| UserLists.InterestsRecentFirst | Backend/controllers/userController.js:297-303 | recently viewed ids come before all others among the interests |
| UserLists.ItemsIn | Backend/controllers/userController.js:212 | the `$in` query gives exactly the catalog items whose id is listed, in catalog order, each with its catalog multiplicity |
| UserLists.FindItemInItemsIn | Backend/controllers/userController.js:279-284 | for a listed id, searching the `$in` answer finds the same item as searching the whole catalog |
| UserLists.OrderedLookup | Backend/controllers/userController.js:282-284 | at most one answered item per id, each one of the found items |
| UserLists.OrderedLookupIds | Backend/controllers/userController.js:282-284 | the answered ids are a subsequence of the ids, holding exactly the ids some found item carries |
| UserLists.OrderedLookupFoundIds | Backend/controllers/userController.js:282-284 | the answered ids are exactly `FoundIds(ids, found)`: every found id once per occurrence, in the order of `ids` |
| UserLists.FoundIds | Backend/controllers/userController.js:284 | each id occurs as often as in the ids when some item carries it, and not at all otherwise |
| UserLists.FoundIdsAgree | Backend/controllers/userController.js:279-284 | two item lists that find the same ids among `ids` give the same `FoundIds` |
| UserLists.OrderedLookupFirstMatch | Backend/controllers/userController.js:282-284 | each answered item is the first found item with its id |
| UserLists.AddToWatchlist | Backend/controllers/userController.js:160-180 | 400 and no change without an id; otherwise only the user's watchlist becomes `Watched` and is answered; the refresh-token and unique-email invariants are kept |
| UserLists.RemoveFromWatchlist | Backend/controllers/userController.js:182-204 | 400 and no change without an id; otherwise only the user's watchlist loses every copy of the id and is answered; the refresh-token and unique-email invariants are kept |
| UserLists.AddToRecent | Backend/controllers/userController.js:221-255 | 400 and no change for an id whose string is empty; otherwise only the recent list becomes `PushRecent` and is answered; the refresh-token and unique-email invariants are kept |
| UserLists.RemoveFromRecent | Backend/controllers/userController.js:257-273 | 400 and no change for an id whose string is empty; otherwise only the recent list loses every copy and is answered; the refresh-token and unique-email invariants are kept |
| UserLists.GetWatchlist | Backend/controllers/userController.js:206-217 | 404 for a missing user; otherwise exactly the catalog items on the watchlist |
| UserLists.GetRecentlyViewed | Backend/controllers/userController.js:275-290 | the answered ids are a subsequence of the recent list, exactly the recent ids some catalog item carries, and each answered item is the first catalog item with its id; the answered ids are exactly `FoundIds(recent, catalog)`, so a repeated recent id is answered once per occurrence |
| UserLists.GetRecentInterests | Backend/controllers/userController.js:292-312 | exactly the catalog items whose id is among the interests |
| Ratings.MeanBounded | Backend/controllers/itemController.js:78-80 | the average of ratings that all lie in a range lies in that range |
| Ratings.Rated | Backend/controllers/itemController.js:75-83 | a numeric rating is appended, the count is the new length and the average is the new mean; anything else leaves the item as it was |
| Ratings.Upserted | Backend/controllers/itemController.js:91-96 | the first entry for the item has the new rating afterwards; the length grows by one only when there was no entry; every other position is unchanged; with no entry the result is the old entries followed by the new one |
| Ratings.UpsertedIdempotent | Backend/controllers/itemController.js:91-96 | rating the same item with the same value twice equals rating it once |
| Ratings.UpsertedKeepsIdsDistinct | Backend/controllers/itemController.js:91-96 | rated entries with distinct item ids keep distinct ids |
| Ratings.MovedToFront | Backend/controllers/itemController.js:99-101 | the recent list starts with the id and holds it once, followed by the old list without the id, in order, with the last one popped when the list would pass 20; at most 20 ids in gives at most 20 out |
| Ratings.MovedToFrontIsPushRecent | Backend/controllers/itemController.js:99-101 | on at most 20 ids, rating moves an id exactly as viewing does |
| Ratings.RateItem | Backend/controllers/itemController.js:63-114 | 404 and no change for an unknown item; otherwise the item is `Rated`; without a user no record changes and only the item is answered; with one, only that record's rated entries and recent list are updated and answered; the refresh-token and unique-email invariants are kept |
| Client.Decide | Frontend/src/api/axios.js:54-72 | no refresh logic runs for authentication URLs, for non-401 errors or for already retried requests; a 401 queues during a refresh and starts one otherwise |
| Client.IsAuthEndpoint | Frontend/src/api/axios.js:54 | a URL is exempt exactly when `/login`, `/register` or `/refresh` occurs in it at some position |
| Client.RefreshCallPassesThrough | Frontend/src/api/axios.js:54-56 | an error on the refresh call is always rejected as it is |
| Client.CredentialCallsPassThrough | Frontend/src/api/axios.js:54-56 | errors on the login and register calls are always rejected as they are |
| Client.RetriedRequestPassesThrough | Frontend/src/api/axios.js:58 | a request with the retry mark is never retried again |
| Client.Enqueued | Frontend/src/api/axios.js:59-71 | the corrected queue entry: a queued request carries the retry mark, like the request that starts the refresh |
| Client.Replayed | Frontend/src/api/axios.js:63-65 | a resolved queued request is sent again with `Bearer <token>` and its own URL and mark; every other header is kept and none is added |
| Client.QueuedRequestRetriedTwice | Frontend/src/api/axios.js:58-68 | as written, a request queued during a refresh and replayed starts a second refresh on a second 401 |
| Client.ReplayedRequestPassesThrough | Frontend/src/api/axios.js:58-71 | with the mark set on queueing, a replayed request is never retried again |
| Client.Settle | Frontend/src/api/axios.js:19-23 | an entry is rejected with the error when there is one, otherwise resolved with the token |
| Client.SettleAll | Frontend/src/api/axios.js:18-24 | every entry is settled once, in queue order |
| Client.ApiClient.constructor | Frontend/src/api/axios.js:12-15 | no token, no callback, no refresh in flight, empty queue |
| Client.ApiClient.SetAccessToken | Frontend/src/api/axios.js:28-30 | only the token changes |
| Client.ApiClient.SetOnTokenRefreshed | Frontend/src/api/axios.js:32-34 | only the callback changes |
| Client.ApiClient.Prepare | Frontend/src/api/axios.js:38-43 | the Bearer header is set exactly when the token is truthy; otherwise the request is unchanged |
| Client.ApiClient.Resume | Frontend/src/api/axios.js:63-68 | a resolved entry is replayed through the request interceptor; a rejected one fails with its error |
| Client.ApiClient.ProcessQueue | Frontend/src/api/axios.js:17-26 | every entry is settled once in order, the queue is emptied, and nothing else changes |
| Client.ApiClient.OnResponseError | Frontend/src/api/axios.js:48-76 | a pass-through error is rejected unchanged with no state change; a 401 during a refresh appends the request itself, unmarked; a first 401 marks the request, sets the flag and issues one refresh call; the queue is non-empty only while refreshing |
| Client.ApiClient.OnResponseErrorMarked | Frontend/src/api/axios.js:48-76 | the corrected interceptor: the same transitions, except that a 401 during a refresh appends the request with the retry mark set |
| Client.ApiClient.RefreshSucceeded | Frontend/src/api/axios.js:76-98 | the token becomes the new one before every queued entry is resolved with it; the callback sees a truthy user; the original is sent again with that token; then the flag is clear and the queue empty |
| Client.ApiClient.RefreshFailed | Frontend/src/api/axios.js:91-98 | every queued entry is rejected with the refresh error, the token is dropped, the flag is cleared, and the error propagates |
| Client.AttachedTokenReachesGate | Frontend/src/api/axios.js:38-43 | the header the client attaches gives back, at the server gate, the very token it holds |
| Client.SingleFlight | Frontend/src/api/axios.js:58-98 | as written, two concurrent 401s cause one refresh and queue the second request; the registered callback is told; both requests go out again with the new token, the second unmarked, so a further 401 on it starts a second refresh |
| Client.SingleFlightMarked | Frontend/src/api/axios.js:58-98 | with the corrected interceptor, the same two 401s cause one refresh; both requests go out again marked with the new token, and neither can start another refresh |
| Gate.BearerToken | Backend/middleware/authMiddleware.js:12 | the second field of the header is its characters after `"Bearer "` up to the next space or the end, and holds no space |
| Gate.BearerTokenOf | Backend/middleware/authMiddleware.js:8-12 | the token of `"Bearer " + t` is `t` when `t` holds no space |
| Gate.VerifyToken | Backend/middleware/authMiddleware.js:4-31 | `No token provided or invalid format` exactly without a Bearer header; `Invalid token` exactly when verification fails; `User not found` exactly for a verified id without a record; otherwise that record is attached without its password |
| Gate.GateAdmitsLiveAccessToken | Backend/middleware/authMiddleware.js:14-27 | a live access token for an existing user passes and attaches that user |
| Gate.GateRejectsExpiredAccessToken | Backend/middleware/authMiddleware.js:14-30 | from its `exp` second on, an access token is refused with `Invalid token` |
| Gate.GateRejectsUnknownUser | Backend/middleware/authMiddleware.js:20-24 | a live access token whose user record is gone is refused with `User not found` |
| Gate.GateRejectsRefreshToken | Backend/middleware/authMiddleware.js:14-30 | when the two secrets differ, a refresh token never opens the gate |
| Client.AuthProvider.constructor | Frontend/src/context/AuthContext.jsx:13-14 | no user, loading |
| Client.AuthProvider.Mount | Frontend/src/context/AuthContext.jsx:18-20 | the provider becomes the client's refresh callback; nothing else changes |
| Client.AuthProvider.TokenRefreshed | Frontend/src/context/AuthContext.jsx:18-20 | the user is replaced only by a truthy user |
| Client.AuthProvider.RestoreSession | Frontend/src/context/AuthContext.jsx:23-36 | on success token and user come from the answer, on failure both are cleared; loading ends either way |
| Client.AuthProvider.Login | Frontend/src/context/AuthContext.jsx:41-47 | token and user change only on success, and the user is returned; a failure leaves both and is rethrown |
| Client.AuthProvider.Register | Frontend/src/context/AuthContext.jsx:49-55 | token and user change only on success, and the user is returned; a failure leaves both and is rethrown |
| Client.AuthProvider.Logout | Frontend/src/context/AuthContext.jsx:57-65 | token and user end cleared whether or not the logout call failed |
| Listing.SortByRating | Frontend/src/pages/Datasets.jsx:54-55 | the result is non-increasing by `rating \|\| 0` and a permutation of its input |
| Listing.SortByRatingStable | Frontend/src/pages/Datasets.jsx:54-55 | items of equal rating keep their relative order |
| Listing.Matches | Frontend/src/pages/Datasets.jsx:50-53 | with no query and no category every item matches; a matching item has a title at least as long as a non-empty query, and the chosen category when there is one |
| Listing.Filtered | Frontend/src/pages/Datasets.jsx:50-57 | the shown list is no longer than the loaded one, holds only matching items, and is non-increasing by rating when sorted by rating |
| Listing.MatchesIgnoresQueryCase | Frontend/src/pages/Datasets.jsx:51 | whether an item matches does not depend on the letter case of the query |
| Listing.MatchesIgnoresTitleCase | Frontend/src/pages/Datasets.jsx:51 | whether an item matches does not depend on the letter case of its title |
| Listing.FilteredKeepsMatches | Frontend/src/pages/Datasets.jsx:50-53 | an item is shown exactly when it is loaded and matches the query and category, as often as it is loaded; without the rating sort, the order of the loaded items is kept |
| Listing.UntitledHiddenBySearch | Frontend/src/pages/Datasets.jsx:51 | with a non-empty query, an item without a title is never shown |
| Listing.FilteredOrder | Frontend/src/pages/Datasets.jsx:54-57 | sorting by rating gives the matching items non-increasing, as a permutation, with ties in loaded order; any other choice keeps the loaded order |
| Listing.TruthyCategories | Frontend/src/pages/Datasets.jsx:70 | a string is listed exactly when it is non-empty and some item carries it as its category |
| Listing.TruthyCategoriesInItemOrder | Frontend/src/pages/Datasets.jsx:70 | the list is the categories of the items that carry a non-empty one, one per such item, in item order |
| Listing.Categories | Frontend/src/pages/Datasets.jsx:70 | the distinct non-empty categories, without duplicates |
| Listing.CategoriesFirstOccurrence | Frontend/src/pages/Datasets.jsx:70 | the categories come in the order of their first mention |

## Left out

- JWT signing (HMAC, base64url) is the abstract `Codec` with its two laws; `jsonwebtoken`'s other checks (clock tolerance, `nbf`, algorithms) are not modelled.
- Password hashing is left out: `comparePassword` is equality with the password the record was created with.
- The database is in memory and records are never deleted. `findOne`/`findById` are lookups in the sequence, and the atomic `$pull`/`$push` are the list functions they compute.
- The un-awaited `user.save` in `sendAuthResponse` is an immediate update: the code answers before the write completes, and a delayed or failed write is not modelled.
- Every `catch` that answers 500 on a database failure is not modelled, and neither are the error messages of those answers.
- Session.RefreshToken: two refreshes racing for the same user are not modelled; handlers run one at a time.
- Cookie flags (`httpOnly`, `secure`, `sameSite`), CORS, routing and the Express wiring are left out. A cookie is its value, set with its max-age or cleared.
- Request values are strings or absent. `String(x)` of a number, array or object is not modelled; a missing value is the string `"undefined"` where the code calls `String`.
- Ratings.RateItem: a rating that is not a number is `None`. When such a rating is stored in the rated entries, its original value (a string, `null`, `undefined`) is lost.
- Ratings.Rated: IEEE floating point in the average is replaced by real division.
- Strings.ToLower: only ASCII letters are lowered; JavaScript's Unicode case mapping is not modelled.
- The item schema has no `ratingCount` or `category` paths. Under the document library's strict mode the count would not be saved and loaded items would carry no category. The model follows what the controller and the page compute.
- UserLists.AddToWatchlist requires the user to exist, and so do RemoveFromWatchlist, AddToRecent, RemoveFromRecent, GetRecentlyViewed, GetRecentInterests and RateItem. The code dereferences the record without a check (a 500 when it is missing), after the gate has found it.
- Client.ApiClient.OnResponseError: the JavaScript event loop and promise scheduling are left out. The methods are events in the order the single thread runs them, and a pending promise is the event that later settles it.
- Client.ApiClient.RefreshSucceeded: a retried or replayed request's own response is the next call of `OnResponseError`, not modelled inside these methods.
- The React rendering of the context and the page, the item fetch of the page, the debounce of the search bar and `console.error` are not modelled.
- Datasets.jsx sorts with `Array.prototype.sort`, which is stable. The model is an insertion sort; any stable sort under this comparator gives the same order, but that uniqueness is not proved.

## Findings

| source | as written | input that shows it | evidently intended | confidence | as-written member | corrected member |
|---|---|---|---|---|---|---|
| Frontend/src/api/axios.js:59-68 | A 401 that arrives while a refresh is in flight queues the request without setting `_retry`. After the replay, a second 401 on it starts another refresh, and the request is retried again. | A request to `/items/1/rate` gets 401 while a refresh is in flight. It is replayed with the new token and gets 401 again after the refresh has finished. | Each request is retried at most once, as the `_retry` mark at line 71 ensures for the request that starts the refresh. | medium; not executed | Client.ApiClient.OnResponseError, with Client.SingleFlight and Client.QueuedRequestRetriedTwice | Client.ApiClient.OnResponseErrorMarked, with Client.Enqueued, Client.ReplayedRequestPassesThrough and Client.SingleFlightMarked |
