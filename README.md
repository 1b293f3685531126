# mygram-api request gatekeeping, modelled in Dafny

This project models the core of the mygram-api REST backend (Go, gin,
gorm, go-redis, golang-jwt). That core is the path a request takes before
and while a comment handler acts on the database. Each part is modelled in
the form the source gives it:

- **Token service** (`encryption.dfy`). The claims CreateTokenFunc issues,
  CreateToken's delegation, and VerifyToken's decision. VerifyToken pins
  the HMAC family of signing methods, wraps parse errors behind
  "invalid token: ", and accepts only tokens the library marked valid. The
  JWT library itself is a record of functions. Its behaviour is known only
  through the laws of `LawfulJwt`.
- **Authentication and Authorization** (`auth.dfy`, pure functions).
  - Authentication: an empty header gives 401, a header without the
    exact "Bearer " prefix gives 401, a verifier error gives 401 with the
    verifier's text, and otherwise the claims are copied under "userData".
  - Authorization: a caller that cannot be read panics (gin.Recovery
    answers 500 with an empty body). Then a malformed id gives 400, an
    unknown resource type 500, a missing row 404, and another owner 403.
- **Rate limiter** (`ratelimiter.dfy`).
  - Redis is a `CounterStore` class. Its INCR, EXPIRE and TTL commands and
    its clock are specified by step functions on its state.
  - The handler is the method `Limit`, proved equal to the function
    `LimitStep`.
  - The fixed-window behaviour is proved over any interleaving of
    requests and waiting. So is the lock-out left behind when the service
    dies between INCR and EXPIRE.
- **Comment controller** (`comments.dfy`).
  - The table is a `CommentTable` class. Each handler is a method proved
    equal to a specification function.
  - Integrity is the predicate `Valid`: unique ids, the foreign keys
    gorm's AutoMigrate creates, and replies on their parent's photo. Every
    handler preserves it.
- **Router** (`router.dfy`).
  - gin's engine and route groups are classes. `SetupRouter` is replayed
    call for call and proved to build the table `Routes`.
  - Routes are matched segment by segment.
  - Policies are proved of every route: which chains authenticate, which
    are rate-limited, which check ownership and with which parameter, and
    that no two routes of a method overlap.
- **Dispatch** (`server.dfy`).
  - One request runs end to end: the route is looked up, then its chain
    runs in order.
  - `Serve` is the imperative loop over the live stores, proved equal to
    the function `Dispatch`.
  - The end-to-end properties are proved about `Dispatch`.

The social media routes bind their id as `socialmediaID`
(router/router.go:86-87). That is the name Authorization reads
(middlewares/auth.go:66). The social media controller reads `socialMediaID`
instead (controllers/socialmedia_controller.go:141 and :226). gin looks
parameters up by exact name, so the owner of an entry passes Authorization
and then reaches a controller that sees an empty id. The controller then
answers 400 "Invalid social media ID". The model records this as it is,
in `Server.SocialMediaOwnerGetsNoId` and `Router.SocialMediaIdUnbound`.
The social media controller is not part of this model.

A refusal's Retry-After is not always positive. The code writes the
truncated TTL, which is "0" when the counter has no deadline, and that
happens after a lost EXPIRE (`RateLimiter.LostExpireLocksOut`). While
EXPIRE has run, it lies between 1 and the window
(`RateLimiter.OneRequest`, `RateLimiter.WindowStaysHealthy`).

## Model

| member | source | states |
|---|---|---|
| Http.Param | middlewares/auth.go:66 | a route parameter reads as its bound value, and as "" when the route bound no such name |
| Http.CallerId | middlewares/ratelimiter.go:35-43 | the caller id is present exactly when "userData" is stored as a map whose "id" entry is a string, and it is that string |
| Strings.Split | middlewares/auth.go:37 | strings.Split gives at least one field, no field contains the separator, and the fields joined by it give back the input |
| Strings.NatToString | middlewares/ratelimiter.go:76 | strconv.FormatInt of a non-negative value: decimal digits only, no leading zero, and the digits read back as the number |
| Strings.DurationReads | middlewares/ratelimiter.go:80 | the `%s` of a time.Duration of whole seconds ("45s", "1m0s", "1h0m0s") read back as "<s>s", "<m>m<s>s" or "<h>h<m>m<s>s" gives the duration, so the minutes and seconds fields are below 60 and no leading unit is zero |
| Strings.ReadDurationOnlyRenderings | middlewares/ratelimiter.go:80 | every text that reads back as a duration is that duration's rendering, so the rendering is the only canonical h/m/s text |
| Strings.OneMinute | router/router.go:19 | the one-minute window prints as "1m0s" |
| Values.ParseIgnoringError | controllers/comment_controller.go:45 | the parsed UUID, or the value uuid.Parse returns beside its error when the caller's id does not parse and the error is ignored |
| Values.ParseIgnoringErrorOfShown | controllers/comment_controller.go:44-45 | for an id printed by UUID.String, ignoring the error is safe: the result is that UUID |
| Encryption.IssueClaims | helpers/encryption.go:24-35 | the claims carry the user's id as UUID.String and the email; IssuedAt is the second clock reading in whole seconds; ExpiresAt is the first reading plus 24 hours in whole seconds; with equal readings the lifetime is 86400 seconds, and when the second reading is less than a second after the first it is 86399 or 86400 |
| Encryption.ClaimsObject | helpers/encryption.go:17-21 | the claims serialize to exactly the keys id, email, exp and iat, with id and email as strings |
| Encryption.CreateTokenFunc | helpers/encryption.go:24-46 | signs the issued claims with HS256 under the secret key; a signing error yields an empty token and that error |
| Encryption.CreateToken | helpers/encryption.go:49-51 | returns whatever the current CreateTokenFunc returns |
| Encryption.KeysPinHmac | helpers/encryption.go:56-62 | the key callback hands out the secret key exactly for HMAC methods, and "invalid signing method" otherwise |
| Encryption.VerifyToken | helpers/encryption.go:54-74 | a parse error becomes "invalid token: " plus its text; a parsed token gives its claims only when valid, else "invalid token or claims"; every error has one of those two forms |
| Encryption.RejectsNonHmac | helpers/encryption.go:58-66 | a token whose header names a non-HMAC method is refused with the key-callback error behind "invalid token: ", whatever its (decodable) signature |
| Encryption.AcceptsOnlyHmac | helpers/encryption.go:56-71 | every accepted token's header names an HMAC method |
| Encryption.RejectsMalformed | helpers/encryption.go:64-66 | a string that does not decode as a token is refused behind "invalid token: " |
| Encryption.RoundTrip | helpers/encryption.go:24-74 | a token CreateTokenFunc issued verifies under the same secret before expiry, to exactly its claims, with the id and email unchanged |
| Encryption.ExpiredTokenRejected | helpers/encryption.go:54-66 | an issued token is refused once its expiry is reached |
| Encryption.OtherSecretRejected | helpers/encryption.go:54-66 | an issued token is refused by a verifier holding a different secret |
| Auth.BearerToken | middlewares/auth.go:37 | the token is the text after "Bearer " up to the next space: it contains no space and is followed by a space or by the end of the header |
| Auth.BearerTokenExamples | middlewares/auth.go:37 | "Bearer a b" yields "a", and "Bearer " yields the empty token |
| Auth.Authenticate | middlewares/auth.go:18-56 | an empty header, then a header without the "Bearer " prefix, are refused with 401 and their messages; a verifier error is refused with 401 and the verifier's text; otherwise the claims are stored under "userData" and the chain continues; every refusal is 401 and leaves the context unchanged |
| Auth.AuthenticatedCaller | middlewares/auth.go:40-55 | Authentication continues only for a token the verifier accepted; the caller id downstream code reads is that token's "id" claim; the request, the parameters and the headers are untouched |
| Auth.IssuedTokenAuthenticates | middlewares/auth.go:19-55 | "Bearer " plus a token CreateTokenFunc issued under the same secret, before its expiry, authenticates as that user |
| Auth.KindOf | middlewares/auth.go:79-116 | the resource-type switch knows exactly "photo", "comment" and "socialmedia" |
| Auth.CallerUuid | middlewares/auth.go:63-64 | a caller UUID exactly when the stored claims carry a string id that uuid.MustParse accepts; for an id printed by UUID.String it is that UUID |
| Auth.Authorize | middlewares/auth.go:61-128 | an unreadable caller gives 500 with an empty body (the panic); then, in this order, an unparsable id gives 400, an unknown type 500, a failed owner lookup 404 with the type's message, and another owner 403; only the owner continues; the context is never changed |
| Auth.ContinuesOnlyForOwner | middlewares/auth.go:119-127 | the chain continues exactly when the caller is readable, the id parses, the type is known and the owner found is the caller |
| RateLimiter.IncrStep | middlewares/ratelimiter.go:55 | INCR on a reachable store adds one to the counter (an absent counter counts as 0) and answers the new count; at MaxInt64 it answers the overflow error; an unreachable store answers an error; nothing else changes |
| RateLimiter.ExpireStep | middlewares/ratelimiter.go:66-68 | EXPIRE sets the deadline of an existing counter to now plus the window; a window of 0 deletes the counter; a missing counter or an unreachable store changes nothing |
| RateLimiter.TtlStep | middlewares/ratelimiter.go:73 | TTL answers the remaining seconds exactly when the store is reachable and the counter exists with a deadline; otherwise no deadline, no counter, or failed |
| RateLimiter.TickStep | middlewares/ratelimiter.go:66-68 | advancing the clock drops exactly the counters whose deadline has been reached and keeps the others unchanged |
| RateLimiter.TickKeepsLive | middlewares/ratelimiter.go:66-68 | passing time preserves the store invariant: every deadline belongs to a counter and lies in the future |
| RateLimiter.CounterStore.Incr | middlewares/ratelimiter.go:55 | the store's new state and the reply are those of IncrStep, and the invariant is kept |
| RateLimiter.CounterStore.Expire | middlewares/ratelimiter.go:67 | the store's new state is that of ExpireStep, and the invariant is kept |
| RateLimiter.CounterStore.TTL | middlewares/ratelimiter.go:73 | the reply is TtlStep's on the current state |
| RateLimiter.CounterStore.Tick | middlewares/ratelimiter.go:66-68 | the store's new state is that of TickStep, and the invariant is kept |
| RateLimiter.CounterStore.SetReachable | middlewares/ratelimiter.go:57 | only reachability changes |
| RateLimiter.RateLimiterConfig | middlewares/ratelimiter.go:21-28 | a nil store handle at construction gives a pass-through; otherwise the limit and window given |
| RateLimiter.Identifier | middlewares/ratelimiter.go:32-48 | "user:" plus the caller id when "userData" is a map whose "id" is a string (even empty), otherwise "ip:" plus the client address |
| RateLimiter.CounterKey | middlewares/ratelimiter.go:51 | the key is "rate:", the identifier, ":" and the URL path |
| RateLimiter.DistinctPathsDistinctKeys | middlewares/ratelimiter.go:51 | for one identifier, equal keys mean equal paths, so each concrete path has its own counter |
| RateLimiter.UserAndAddressKeysDiffer | middlewares/ratelimiter.go:40-47 | a user-scoped key never equals an address-scoped one |
| RateLimiter.RetryAfterSeconds | middlewares/ratelimiter.go:73-76 | the remaining seconds when there is a non-negative remaining time, and 0 for no deadline, no counter, or a failed TTL |
| RateLimiter.LimitMessage | middlewares/ratelimiter.go:80 | the message starts with "Rate limit exceeded. You are limited to ", the limit and " requests per ", and ends with ". Try again in ", the Retry-After seconds and " seconds."; the text between is the window's time.Duration rendering |
| RateLimiter.InstalledLimitMessage | middlewares/ratelimiter.go:80 | for the installed limiter (router/router.go:18-19) the message is "Rate limit exceeded. You are limited to ", "10", " requests per ", "1m0s", ". Try again in " followed by the Retry-After seconds and " seconds." |
| RateLimiter.LimitStep | middlewares/ratelimiter.go:30-86 | a pass-through forwards unchanged; a forwarded request keeps its context; every refusal is 429 or 500 and keeps the request, the keys and the parameters; a 500 changes nothing and carries "Rate limiter internal error"; a 429 carries the limit message with the limit, the window and the seconds left, and sets Retry-After to those seconds; only the request's own counter can change |
| RateLimiter.Limit | middlewares/ratelimiter.go:30-86 | the handler's INCR, conditional EXPIRE and TTL on the live store leave exactly LimitStep's state and answer, and keep the store invariant |
| RateLimiter.StoreErrorFailsClosed | middlewares/ratelimiter.go:55-63 | an unreachable store or an overflowing counter gives 500 "Rate limiter internal error", with nothing forwarded and nothing changed |
| RateLimiter.OneRequest | middlewares/ratelimiter.go:55-85 | on a healthy store the counter rises by exactly one; the deadline is set to one window ahead only for a new counter and never moved afterwards; the request is forwarded exactly when the new count is within the limit, else refused with 429, the limit message and Retry-After holding the truncated TTL; when the counter is absent or has a deadline at most one window ahead, that Retry-After lies between 1 and the window |
| RateLimiter.WindowStaysHealthy | middlewares/ratelimiter.go:55-68 | a counter that is absent or has a deadline at most one window ahead stays so after a request and after time passes |
| RateLimiter.WindowRun | middlewares/ratelimiter.go:55-85 | within one window, for any interleaving of requests and waits, the j-th request after h earlier ones is forwarded exactly when h+j+1 is within the limit, and every other one gets 429 |
| RateLimiter.FreshWindow | middlewares/ratelimiter.go:55-85 | from a fresh counter the first `limit` requests of a window are forwarded, and every later one is refused with 429 |
| RateLimiter.WindowResets | middlewares/ratelimiter.go:66-68 | once the deadline passes the counter is gone, and the next request counts as the first of a new window |
| RateLimiter.OverLimitWithoutDeadline | middlewares/ratelimiter.go:66-83 | a counter at the limit with no deadline refuses with 429 and "Retry-After: 0", and still has no deadline afterwards |
| RateLimiter.LostExpireLocksOut | middlewares/ratelimiter.go:55-83 | after a crash between INCR and EXPIRE, a counter at the limit refuses every later request with 429 and "Retry-After: 0", however long one waits |
| RateLimiter.CrashAfterIncrLeavesNoDeadline | middlewares/ratelimiter.go:55-68 | INCR alone on a new counter leaves count 1 and no deadline |
| RateLimiter.PassThroughNeverRefuses | middlewares/ratelimiter.go:25-28 | without Redis every request of any run is forwarded unchanged |
| Comments.Find | controllers/comment_controller.go:179 | finds a row with the id, and reports one exactly when a row has it |
| Comments.FindIsFirst | controllers/comment_controller.go:179 | the row found is the earliest one with the id |
| Comments.Valid | database/migration.go:22 | table integrity (unique ids and the foreign keys AutoMigrate declares) makes every row the one its id finds |
| Comments.Insertable | controllers/comment_controller.go:74 | DB.Create succeeds only with the database up, for a fresh id whose user and photo exist; the appended row is then the one its id finds |
| Comments.Show | controllers/comment_controller.go:82-89 | the CommentResponse carries the comment's ids as printed UUIDs that parse back to them, its message and the given reply count, and a parent id exactly when asked for and the comment has one |
| Comments.TopLevel | controllers/comment_controller.go:111-116 | exactly the rows without a parent are listed |
| Comments.TopLevelCounts | controllers/comment_controller.go:111-116 | each row without a parent is listed as often as it occurs in the table, and no other row is listed |
| Comments.RepliesOf | controllers/comment_controller.go:426 | exactly the rows whose parent is the given id are listed |
| Comments.RepliesOfCounts | controllers/comment_controller.go:426 | each direct reply is listed as often as it occurs in the table, and no other row is listed, so its length is the number of direct replies |
| Comments.Views | controllers/comment_controller.go:124-135 | one view per listed comment, in order, each counting that comment's direct replies |
| Comments.ListData | controllers/comment_controller.go:124 | an empty list is rendered as JSON null (a nil slice), and a non-empty one as the list |
| Comments.Remove | controllers/comment_controller.go:270 | removes the rows with the id and keeps all others |
| Comments.RemoveCounts | controllers/comment_controller.go:270 | no row with the id is left, and every other row stays as often as it occurred |
| Comments.RemoveKeeps | controllers/comment_controller.go:270 | with unique ids, removal drops exactly one row when the id is present, keeps every other lookup, and changes nothing when it is absent |
| Comments.Replace | controllers/comment_controller.go:198 | puts the new comment in place of the rows with the id and keeps the rest |
| Comments.ReplaceKeeps | controllers/comment_controller.go:198 | replacement keeps ids unique and every other lookup |
| Comments.CreateSpec | controllers/comment_controller.go:41-96 | a request that is not answered 201 leaves the table unchanged |
| Comments.WithMessage | controllers/comment_controller.go:194-198 | gorm's Updates changes only the message, and an empty message changes nothing |
| Comments.UpdateSpec | controllers/comment_controller.go:158-229 | a request that is not answered 200 leaves the table unchanged |
| Comments.DeleteSpec | controllers/comment_controller.go:242-282 | a request that is not answered 200 leaves the table unchanged |
| Comments.CreateReplySpec | controllers/comment_controller.go:298-382 | a request that is not answered 201 leaves the table unchanged |
| Comments.GetAllSpec | controllers/comment_controller.go:107-142 | GetAll answers 200 exactly when the database is up, and otherwise 500 "Failed to retrieve comments" with no data |
| Comments.GetRepliesSpec | controllers/comment_controller.go:396-458 | GetReplies answers only 200, 400, 404 or 500, and every answer other than 200 carries no data |
| Comments.CountReplies | controllers/comment_controller.go:131 | the loop counts exactly the direct replies |
| Comments.ListTopLevel | controllers/comment_controller.go:124-135 | the loop builds exactly the views of the top-level comments |
| Comments.ListReplies | controllers/comment_controller.go:434-451 | the loop builds exactly the views of the parent's replies, each showing its parent |
| Comments.CommentTable.Create | controllers/comment_controller.go:41-96 | the new table state and the reply are CreateSpec's |
| Comments.CommentTable.GetAll | controllers/comment_controller.go:107-142 | the reply is GetAllSpec's on the current table |
| Comments.CommentTable.Update | controllers/comment_controller.go:158-229 | the new table state and the reply are UpdateSpec's |
| Comments.CommentTable.Delete | controllers/comment_controller.go:242-282 | the new table state and the reply are DeleteSpec's |
| Comments.CommentTable.CreateReply | controllers/comment_controller.go:298-382 | the new table state and the reply are CreateReplySpec's |
| Comments.CommentTable.GetReplies | controllers/comment_controller.go:396-458 | the reply is GetRepliesSpec's on the current table |
| Comments.CreatedCommentIsCallers | controllers/comment_controller.go:43-80 | when the stored claims name a user by its printed id, the created comment is appended after the existing rows and belongs to exactly that user |
| Comments.CreateStoresCallersComment | controllers/comment_controller.go:67-95 | a 201 means the caller, the body and the photo id were all good; exactly one new top-level comment is appended, with the fresh id, the caller, that photo and the message, and it is echoed with replies count 0 |
| Comments.CreateRejections | controllers/comment_controller.go:43-65 | checked in this order: no caller gives 500 with the panic body, a bad body 400 with the binder's text, a bad photo id 400 "Invalid photo ID"; none of them stores anything |
| Comments.CreateKeepsValid | controllers/comment_controller.go:67-80 | Create preserves table integrity |
| Comments.AppendKeepsValid | controllers/comment_controller.go:74 | appending an insertable comment that is top-level, or on its parent's photo, preserves integrity |
| Comments.GetAllListsTopLevel | controllers/comment_controller.go:107-142 | with the database up the answer is 200, listing each top-level comment as often as it occurs and nothing else (null when there are none), each with ParentCommentID unset and counting exactly its direct replies, with multiplicity |
| Comments.UpdateCheckOrder | controllers/comment_controller.go:158-192 | a bad id gives 400 whatever the body; a bad body gives 400 whatever the table; a missing comment gives 404 |
| Comments.UpdateChangesOnlyMessage | controllers/comment_controller.go:194-228 | a 200 changes only the addressed comment's message (kept when the new one is empty, which a body that passed `binding:"required"` never is, so then the message is exactly the bound one); every other row and field stays |
| Comments.UpdateKeepsValid | controllers/comment_controller.go:194-204 | Update preserves table integrity |
| Comments.DeleteRejections | controllers/comment_controller.go:243-276 | a bad id gives 400, a missing comment 404, and a comment with replies is not deleted (the parent foreign key refuses) |
| Comments.DeleteRemovesExactlyOne | controllers/comment_controller.go:270-281 | a 200 removes exactly the addressed comment: one row fewer, every other row kept, every other lookup unchanged |
| Comments.DeleteKeepsValid | controllers/comment_controller.go:270-276 | Delete preserves table integrity |
| Comments.ReplyChecksParentFirst | controllers/comment_controller.go:298-325 | the parent id and the parent's existence are checked before the caller or the body is read: whatever those are, a bad id gives 400 and a missing parent 404 |
| Comments.ReplyInheritsParentPhoto | controllers/comment_controller.go:343-381 | a stored reply is the caller's, points at its parent, takes the parent's photo, and is echoed with the parent id and replies count 0 |
| Comments.CreateReplyKeepsValid | controllers/comment_controller.go:343-357 | CreateReply preserves table integrity |
| Comments.GetRepliesListsExactlyReplies | controllers/comment_controller.go:396-458 | a missing parent gives 404; otherwise 200 listing each direct reply of the parent as often as it occurs and nothing else, each showing that parent's id |
| Comments.GetRepliesRejections | controllers/comment_controller.go:397-422 | an unparsable parent id gives 400 "Invalid parent comment ID" before the table is read; a failed parent lookup gives 500 "Failed to retrieve parent comment"; the answer is 200 exactly when the id parses, the database is up and the parent exists |
| Router.Engine.Default | router/router.go:28 | gin.Default installs Logger and Recovery and no routes |
| Router.Engine.Use | router/router.go:29-30 | appends the middleware and registers no route |
| Router.Engine.Handle | router/router.go:33-38 | registers the route with the root's middleware at that moment, followed by the route's own handlers |
| Router.Engine.Group | router/router.go:41 | a new group holding a copy of the root's middleware |
| Router.RouterGroup.Use | router/router.go:42 | appends the middleware for later routes; routes already registered keep their chains |
| Router.RouterGroup.Handle | router/router.go:45-46 | registers base path plus path, with the group's middleware followed by the route's handlers |
| Router.RouterGroup.Group | router/router.go:54 | a subgroup with the joined base path and a copy of the group's middleware |
| Router.SetupRouter | router/router.go:21-91 | the engine SetupRouter returns holds exactly the table Routes for the limiter built from the Redis handle, with 10 requests per 60 seconds |
| Router.RegisterUsers | router/router.go:45-46 | appends the two user routes |
| Router.RegisterPhotos | router/router.go:49-59 | appends the four photo routes |
| Router.RegisterComments | router/router.go:62-75 | appends the six comment routes |
| Router.RegisterSocialMedia | router/router.go:78-88 | appends the four social media routes |
| Router.InstalledLimiter | router/router.go:18-19 | with Redis the installed limiter allows 10 requests per 60 seconds; without Redis it is a pass-through |
| Router.Routes | router/router.go:33-87 | SetupRouter registers nineteen routes, the public ones first, then users, photos, comments and social media; what each route runs is stated by RoutePolicies |
| Router.PublicRoutes | router/router.go:33-38 | the three public routes; their chains are stated by PublicPolicies |
| Router.UserRoutes | router/router.go:45-46 | the two user routes; their chains are stated by UserPolicies |
| Router.PhotoRoutes | router/router.go:49-59 | the four photo routes; their chains are stated by PhotoPolicies |
| Router.CommentRoutes | router/router.go:62-75 | the six comment routes; their chains are stated by CommentPolicies |
| Router.SocialMediaRoutes | router/router.go:78-88 | the four social media routes; their chains are stated by SocialMediaPolicies |
| Router.PathSegments | router/router.go:33-87 | a path has segments exactly when it starts with '/', and they join back to the rest of the path |
| Router.Match | router/router.go:33-87 | a pattern matched to a segment list is empty exactly when the list is; a parameter only matches a non-empty segment and binds that segment under its name |
| Router.Lookup | router/router.go:33-87 | a found route is in the table, has the request's method and fits the path, with the parameters it bound |
| Router.FirstMatch | router/router.go:33-87 | the first fitting route of the method; none is found exactly when no route of the method fits |
| Router.DisjointExclusive | router/router.go:33-87 | no path fits two disjoint patterns |
| Router.ShapesUnambiguous | router/router.go:33-87 | among the methods and patterns SetupRouter registers, any two of the same method are disjoint |
| Router.RoutesUnambiguous | router/router.go:33-87 | any two routes of the same method have disjoint patterns |
| Router.LookupIsTheOnlyMatch | router/router.go:33-87 | no other route of the method fits the path of the route found |
| Router.RoutePolicies | router/router.go:28-87 | every route obeys the policies: every chain starts with the global middleware; Authentication is present exactly off the swagger and auth routes, right after it; exactly the three creating POST routes carry the configured limiter, right after Authentication; exactly the PUT and DELETE routes on one entry carry Authorization with a known type, reading the parameter named after the type followed by "ID", which is the one the route's second segment binds; each chain ends in its only controller; only the table's parameter names are bound |
| Router.PublicPolicies | router/router.go:33-38 | swagger, register and login run only the global middleware and their controller |
| Router.UserPolicies | router/router.go:45-46 | the user routes are authenticated, unlimited, unchecked for ownership |
| Router.PhotoPolicies | router/router.go:50-58 | POST /photos is authenticated then rate-limited; PUT and DELETE /photos/:photoID check ownership of "photo" on photoID |
| Router.CommentPolicies | router/router.go:63-74 | POST /comments and POST /comments/reply/:parentCommentID are rate-limited; PUT and DELETE /comments/:commentID check ownership of "comment" on commentID |
| Router.SocialMediaPolicies | router/router.go:79-87 | the social media routes are authenticated and not rate-limited; PUT and DELETE on /socialmedias/:socialmediaID check ownership of "socialmedia" on socialmediaID, the name Authorization reads |
| Router.MatchBindsExactlyParams | router/router.go:57-87 | a match binds exactly the pattern's parameter names, so any other name reads as "" |
| Router.RouteParamsKnown | router/router.go:33-87 | every route binds only the names any, photoID, parentCommentID, commentID and socialmediaID |
| Router.SocialMediaIdUnbound | router/router.go:86-87 | no route a request can reach binds "socialMediaID" |
| Server.CommentOwner | middlewares/auth.go:90-99 | the owner Authorization reads for a comment is the user_id of its row, and none when the query fails |
| Server.Owners | middlewares/auth.go:79-116 | Authorization looks a comment's owner up in the live comment table, and every other resource type's owner in the environment |
| Server.RunController | router/router.go:63-74 | only the four writing comment actions can change the world, and no controller touches the counters |
| Server.RunChain | router/router.go:28-42 | the counters change only in a rate-limiter step, and the table only in a controller |
| Server.Dispatch | router/router.go:21-91 | an unmatched method and path gives 404 "404 page not found" and changes nothing |
| Server.Control | router/router.go:63-74 | the comment handler on the live table leaves exactly RunController's table and answer |
| Server.Serve | router/router.go:28-87 | running the handlers one at a time on the live stores gives exactly Dispatch's stores and response |
| Server.Step | router/router.go:28-87 | one handler on the live stores either answers the request with exactly what the chain from it gives, or passes on a context with which the rest of the chain gives that same result |
| Server.RunGlobal | router/router.go:28-30 | Logger, the two Recovery handlers and CORS pass every request on unchanged |
| Server.RunAuthenticated | router/router.go:41-42 | on an authenticated route the request is refused by Authentication with nothing changed, or continues with the caller's claims |
| Server.UnauthenticatedChangesNothing | middlewares/auth.go:19-47 | on every non-public route, a refused token gives 401 with no counter incremented and no comment written |
| Server.MissingHeaderRefused | middlewares/auth.go:20-26 | a request with no Authorization header to any non-public route gives 401 "Bearer token is required" and changes nothing |
| Server.RefusedOwnershipChangesNothing | middlewares/auth.go:66-125 | on an ownership-checked route, a caller Authorization refuses gets Authorization's answer and changes nothing |
| Server.ForeignCommentForbidden | middlewares/auth.go:90-125 | an authenticated caller who does not own an existing comment cannot update or delete it: 403 and the world unchanged |
| Server.OverLimitRefused | router/router.go:50-66 | on a rate-limited route, a caller whose counter is already at the limit gets 429 with the limit message and a Retry-After header holding the seconds left, which lie between 1 and the window when the counter had a deadline at most one window ahead; nothing is created |
| Server.InstalledOverLimitRefused | router/router.go:50-66 | on the routes SetupRouter installs with the limiter of router/router.go:18-19, a caller already at 10 requests gets 429 with the message "Rate limit exceeded. You are limited to " "10" " requests per " "1m0s" ". Try again in " and the seconds left, the same seconds in Retry-After, at most 60 on a healthy window, and nothing created |
| Server.SocialMediaOwnerGetsNoId | router/router.go:84-87 | the owner passes Authorization on "socialmediaID", and the social media controller runs with "socialMediaID" reading as "" |
| Server.TableChangesOnlyThroughChecks | router/router.go:41-74 | among the modelled actions (the photo and user controllers leave the table alone here), the table changes only through a writing comment action, after Authentication accepted the caller, after the limiter forwarded the request where the route has one, and after Authorization found the caller to be the owner where the route has one |

## Left out

- Password hashing (HashPassword, CheckPasswordHash in helpers/encryption.go) is not part of this model.
- The JWT library (base64url encoding, HMAC, claim validation) is represented only by the laws in `Encryption.LawfulJwt`.
- The package-level secret key is a parameter of the token service; reading JWT_SECRET_KEY from the environment is not modelled.
- The clock is a parameter: the two time.Now() readings of CreateTokenFunc, the verifier's clock, and the store's clock.
- `RateLimiter.LimitStep`: the log line printed when Redis is nil, and the Redis connection itself, are left out. The handle is either absent or a `CounterStore`.
- `RateLimiter.CounterStore.Incr`: the `redis.Nil` case the source tolerates cannot arise from INCR and is not modelled.
- Concurrency is not modelled: requests are handled one after another, and each Redis command is atomic.
- The store's clock counts whole seconds, so truncating a sub-second TTL to 0 is not modelled.
- gin.SetMode and APP_ENV, the Logger's output, and the swagger handler's behaviour are not modelled. The swagger route's place in the table is.
- The CORS middleware is a pass-through for the requests modelled here. Preflight (OPTIONS) answers and response headers are left out.
- gin routing details are left out: trailing-slash redirects, 405 answers, URL unescaping, and handlers after a controller. Every chain ends at its controller (`Router.RoutePolicies`).
- Router.Routes: its own contract, and those of the five group functions, give only the route counts. The chain of every route is stated by `Router.RoutePolicies` and the per-group policies lemmas, so proofs that unfold the table stay small.
- `Router.Match`: a catch-all matches only as the last pattern segment. gin refuses any other placement when a route is registered.
- The user, photo and social media controllers, and the swagger handler, are a given function of the action and the context. The photo and social media owner lookups are a given function too.
- The database is up or down for a whole request (`Table.available`). A failure of a later query in the same handler is not modelled. That covers "Failed to update comment", "Failed to retrieve updated comment" and "Failed to retrieve replies".
- CreatedAt and UpdatedAt timestamps, and the preloaded User and Photo associations, are not modelled. Both timestamps are fields of every comment in a response; the model's `CommentView` omits them.
- Deleting photos and users, and the cascades their foreign keys define, are outside the comment controller and not modelled.
- TableChangesOnlyThroughChecks: holds among the modelled actions only. DELETE /photos/:photoID and DELETE /users also remove comments, by ON DELETE CASCADE, and the model does not capture that.
- GetAllListsTopLevel: the model lists comments in insertion order. The source's queries (controllers/comment_controller.go:111-116 and :426) have no ORDER BY, so the database promises no order; the contracts fix only which comments are listed and how often.
- ParseIgnoringError: what uuid.Parse returns beside its error (uuid.Nil for a wrong length, a partly decoded value for a bad hex digit) is a given function of the string, not modelled.
- Request body binding (JSON decoding and the `binding:"required"` rules) is represented by its outcome for each of the two request types (`Http.Body`).
- Body: admits successful binds with an empty message or photo_id, which `binding:"required"` (dto/comment_dto.go:7-8, 15) refuses with 400. The properties quantify over this larger set and stay sound. `Http.Required` names the outcomes the binder really produces; under it, `UpdateChangesOnlyMessage` states that the new message is exactly the bound one, so the empty-message branch of `WithMessage` is one no request reaches.
