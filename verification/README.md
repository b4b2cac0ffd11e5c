# Fishing-api: a verified model

A Dafny model of the logic of Fishing-api, a Go service that gives anglers weather,
tides, places and a score, keeps accounts with verified email addresses and JWT sessions,
and stores favorite places.  `dafny verify dfyconfig.toml` checks it.

## How it is built

- **Accounts and favorites** (`Account*.dfy`, `Jwt.dfy`, `Database.dfy`, `AuthUsecase.dfy`,
  `Favorite*.dfy`).  No usecase uses a transaction, so `AccountMachine` splits every request
  into atomic steps, one per table statement or clock reading.  Any number of requests
  interleave, time passes between any two steps, any step may fail, and a call may stop for
  good after any of them.  `AccountInvariant` and `AccountRely` hold the inductive invariant
  by rely and guarantee; `AccountTheorems`, `AccountSessions`, `AccountFates` and
  `FavoriteCount` draw the whole-run theorems from it.  `AuthUsecase` and `FavoriteUsecase`
  are the usecases in imperative form over a class of tables; each method is proved to be
  the machine's call running alone, and `SoloIsRun` makes such a call a run of the machine.
- **Caching** (`Cache*.dfy`, `MapsClient.dfy`).  Tide, weather and place search share one
  store under text keys.  `CacheMachine` interleaves look-up, fetch and store of any number
  of calls of all kinds, with failing cache operations, expiry, eviction and corrupt bytes.
  `CacheUsecases` has the imperative usecases.
- **Retry** (`Retry.dfy`), **Score** (`Score.dfy`), **Rounding** (`Rounding.dfy`, with
  `Decimal.dfy` for printed numbers) stand alone.

## Assumptions

- A table statement, a cache operation and an upstream call is one atomic step that applies
  and succeeds, or fails without effect.  A statement that applies although its caller sees
  an error is covered where only safety is claimed: it is the same as stopping after it.
- Tables start empty and change only through the queries in `db/queries`.
- JWT signatures are ideal: a token is accepted under a secret only if it was signed with
  that secret.  An expiry is a whole second that must lie strictly after now (section 4.1.4
  of RFC 7519).
- bcrypt is a pair of functions where a hash accepts the password it was made from.
- The JSON codec decodes what it encoded at the same type.  At another type it may decode to
  anything, as it does in Go when field names are missing or shared.
- SHA-256 is an arbitrary function to 32 bytes; nothing is assumed about collisions.
- Numbers are reals: no NaN, no rounding of the arithmetic itself.  Where the sign bit of a
  negative number that rounds to zero reaches a cache key, it is modelled.
- Times are exact counts of nanoseconds (milliseconds in `Retry`).

## Findings

- `internal/usecase/weather/weather.go:91-92` says that coordinates of one area share a key.
  They do exactly when they round alike and lie on the same side of zero: -0.00001 rounds to
  negative zero and prints as `-0.0000` (`ZeroCellHasTwoKeys`, `CoordinateIff`).
- `internal/usecase/auth/auth.go:61-90`: registration can strand an email.  A call that stops
  or fails after storing the user and before storing the token, or whose token is not
  presented within the hour, leaves an email that can neither be registered again nor ever be
  verified (`RegistrationCanStrand` is a run that gets there, `StrandedForever`).
  `VerifiableIffChance` says exactly when an email is still verifiable, in every reachable
  state: the table holds an unexpired token of it, or a call has found one unexpired, or the
  registering call has yet to store its token.  A call that has drawn its token no longer
  counts when its clock reading is over an hour old, or when the table holds the same token
  for an email that is out of reach itself.
- `internal/infrastructure/external/retry.go:24-53`: with a negative retry count the transport
  returns neither response nor error (`ExactlyOneReturned`); the one construction in the
  repository, `retry.go:59`, passes 3.
- `pkg/jwtutil/jwt.go:60-84`: access and refresh tokens are told apart by the two secrets only,
  and `config/config.go:77-92` does not require them to differ (`KindsSeparateIffSecretsDiffer`).
- `internal/usecase/weather/weather.go:46-60`, and likewise for tides and places: nothing keeps
  two calls from asking upstream for one key.  While the cache works, the answers stay a time
  to live apart, whatever upstream answers, exactly as long as no call of the key is about to
  ask together with another one that is, too, or that has yet to store an answer younger than
  the time to live (`RateBound`, `SpacedIffNeverRisky`); `OverlappingCallsBothFetch` is a run
  where two answers come at the same instant.
- `docs/auth-sequence.md:99-101` answers an unverified login with ErrUnauthorized, where
  `internal/usecase/auth/auth.go:109-111` answers ErrEmailNotVerified, and
  `docs/auth-sequence.md:151-162` shows VerifyEmail without the already-verified branch of
  `auth.go:146-151`.  The model follows the code.

## Model

| member | source | states |
|---|---|---|
| AccountTheorems.SignedOnlyForVerified | internal/usecase/auth/auth.go:92-128 | in every interleaving with failures, every JWT ever signed, along refresh chains of any length, names a user verified then and in every later state, although refreshing only checks existence |
| AccountTheorems.AcceptedOnlyIfVerified | internal/interface/middleware/auth.go:33-44 | whatever token the middleware (or the refresh endpoint) accepts in a reachable state, its user exists and is verified |
| AccountTheorems.FavoritesOnlyOfVerified | internal/usecase/favorite/favorite.go:33-45 | every row ever inserted into the favorites, and every row present, belongs to a verified user |
| AccountTheorems.OneTokenPerEmail | internal/usecase/auth/auth.go:61-90 | under concurrent registrations at most one verification token is ever stored per email, by the call that registered it, and each token row belongs to an existing user |
| AccountTheorems.VerifiedOnlyByOwnToken | internal/usecase/auth/auth.go:130-156 | a user is verified only by a VerifyEmail call that presented the token issued by the Register call that created the user, with its expiry check within the hour |
| AccountTheorems.VerificationIsForever | db/queries/user.sql:16-20 | users are never removed, verification is never undone and nothing else in a user's row changes, in any further run |
| AccountTheorems.VerifiedEmailKeepsNoToken | internal/usecase/auth/auth.go:158-161 | once a VerifyEmail succeeds, its token's email has no token row in any later state, under any interleaving |
| AccountTheorems.SuccessfulTokenIsSpent | internal/usecase/auth/auth.go:130-138 | after that, every later VerifyEmail with that token is answered with ErrInvalidToken if at all, provided this token is not drawn a second time |
| AccountRely.StepSound | internal/usecase/auth/auth.go:61-190 | the invariant (index, tokens, evidence, signatures, favorites, what each in-flight call knows) survives every step of every request |
| AccountRely.KnowledgeStays | internal/usecase/auth/auth.go:61-190 | what an in-flight call has read or may still do stays true whatever step another call takes |
| AccountSessions.EveryTokenHasLogin | internal/usecase/auth/auth.go:105-113 | behind every JWT ever signed stands a Login call for its user's email whose password matches the stored hash, which was made from the password the email was registered with |
| AccountSessions.PairsGoToTheirUser | internal/usecase/auth/auth.go:192-207 | a token pair speaks for one user, the owner of the email logged in with or of the refresh token presented |
| AccountFates.StrandedForever | internal/usecase/auth/auth.go:61-90 | a registered, unverified email without a chance in a reachable state is never verified, never free again and never named by a JWT, whatever happens |
| AccountFates.VerifiableIffChance | internal/usecase/auth/auth.go:130-190 | in every reachable state, with any calls in flight, a registered unverified email can become verified in some future if and only if the table holds an unexpired token of it, a VerifyEmail call is past its expiry check for it, or its registering call can still store a token that is good when stored |
| AccountFates.VerifiableIffTokenInTime | internal/usecase/auth/auth.go:130-184 | its case without calls in flight: if and only if the table holds an unexpired token of the email |
| AccountFates.RegistrationCanStrand | internal/usecase/auth/auth.go:84-89 | a Register call that stops after storing the user strands the email, for every email, password and name that bcrypt can hash |
| AccountSequential.RepeatAfterCrash | internal/usecase/auth/auth.go:145-161 | VerifyEmail stopped between its update and its deletion and then repeated in time reaches exactly the uninterrupted state and keeps the first verification time |
| AccountSequential.JourneySucceeds | internal/usecase/auth/auth.go:61-207 | register, verify, log in and refresh, undisturbed and in time, all succeed and end with tokens for the new user |
| AccountSequential.SoloIsRun | internal/usecase/auth/auth.go:61-190 | a usecase running alone is a run of the interleaved machine |
| FavoriteCount.FavoritesConserved | internal/usecase/favorite/favorite.go:33-53 | for every favorite and every interleaving, Add calls answered with success less Delete calls answered with success is 1 while the row exists and 0 otherwise |
| AuthUsecase.Auth.Register | internal/usecase/auth/auth.go:61-90 | is the machine's call; ErrAlreadyExists exactly for a readable, registered email; success exactly if nothing fails, the password hashes and id and token are free; the user row is stored as given, unverified, exactly when the insert goes through, and success leaves the drawn token good for an hour from the clock reading; any other answer is an internal error |
| AuthUsecase.Auth.SendVerificationEmail | internal/usecase/auth/auth.go:164-190 | is the machine's call; success exactly if nothing fails, mail included, and the drawn token is free; once clearing works the email's only row is the drawn token, good for an hour, and other rows stay |
| AuthUsecase.Auth.Login | internal/usecase/auth/auth.go:92-114 | is the machine's call; internal error for a failing lookup, unauthorized exactly for an unknown email or a wrong password, not-verified exactly for the right password of an unverified user, a pair exactly for the right password of a verified user when both signings work |
| AuthUsecase.Auth.RefreshToken | internal/usecase/auth/auth.go:116-128 | is the machine's call; invalid exactly if the token does not validate, unauthorized exactly if the user cannot be read, otherwise a pair for the token's user, or an internal error if a signing fails |
| AuthUsecase.Auth.VerifyEmail | internal/usecase/auth/auth.go:130-162 | is the machine's call; ErrInvalidToken exactly for a failed lookup, an unknown or an expired token, and then without effect; every other answer and every change to the users is determined by which statement fails; the time stored is the second clock reading; tokens go exactly on success |
| AuthUsecase.Auth.GenerateTokenPair | internal/usecase/auth/auth.go:192-207 | is the machine's call; a pair exactly if both signings work, naming the user, each token under its own secret, for fifteen minutes and seven days; exactly these two are added to the signatures |
| FavoriteUsecase.Favorites.Add | internal/usecase/favorite/favorite.go:33-45 | set insertion behind the token check: ErrAlreadyExists exactly for a readable member, success exactly for a non-member of an existing user when both statements work, and then only the element is added; otherwise an internal error without effect |
| FavoriteUsecase.Favorites.Delete | internal/usecase/favorite/favorite.go:48-53 | set removal behind the token check: ErrNotFound exactly for a non-member, success exactly for a member, an internal error exactly for a failing statement; only success changes anything, and only by that element |
| Database.Tables.InsertUser | internal/infrastructure/db/user_repository.go:47-68 | succeeds only for a new id and a new email, and keeps the primary key and the unique index |
| Database.Tables.DeleteFavorite | internal/infrastructure/db/favorite_repository.go:46-62 | not found exactly if no row matches, otherwise removes exactly that row |
| Jwt.Lifetimes | pkg/jwtutil/jwt.go:28-58 | access tokens are accepted for fifteen minutes and refresh tokens for seven days, up to the truncation of the expiry to a whole second |
| Jwt.KindsSeparateIffSecretsDiffer | pkg/jwtutil/jwt.go:60-84 | no refresh token passes as an access token nor the reverse, if and only if the two secrets differ |
| CacheCoherence.ServedIsUpstream | internal/usecase/tide/tide.go:41-62 | in every interleaving with cache failures, expiry, eviction and corruption, every served value is an upstream answer to a request sharing the entry, asked for by this call or stored less than the time to live ago |
| CacheCoherence.FailsIffUpstreamFails | internal/usecase/tide/tide.go:52-55 | a call is answered with an error if and only if the run has a step where it asks upstream and gets no data of its kind; no cache failure ever surfaces |
| CacheCoherence.TideIsExact | internal/usecase/tide/tide.go:41-62 | served tide data is upstream's for exactly this prefecture, port and date, fetched by this call or stored less than six hours ago |
| CacheCoherence.WeatherIsNear | internal/usecase/weather/weather.go:43-97 | served weather is exactly the observation, or the whole forecast list, that upstream gave for the same kind and coordinates each within 0.0001 degrees, fetched by this call or stored less than thirty minutes ago |
| CacheCoherence.SearchIsPrefix | internal/usecase/location/location.go:42-64 | a search is answered with the first limit results, in order and field by field, of an upstream answer fetched by this call or stored less than a day ago; the length bound holds even if digests collide |
| CacheCoherence.HitsAskNobody | internal/usecase/weather/weather.go:46-57 | a call answered from the cache never called upstream, and no call does so twice |
| CacheRate.RateBound | internal/usecase/weather/weather.go:43-89 | in every interleaving in which the cache works for a key and no call of it is about to ask while another is, too, or has a young answer yet to store, and whatever calls of other keys do, the answers fetched under the key are a time to live apart (thirty minutes for weather, six hours for tides, a day for searches), at most T / ttl + 1 in a window of length T |
| CacheRate.SpacedIffNeverRisky | internal/usecase/weather/weather.go:46-60 | that condition is exact: it holds all along a run if and only if at every point of the run whatever upstream answers right then to calls of the key keeps its answers a time to live apart |
| CacheRate.OverlappingCallsBothFetch | internal/usecase/weather/weather.go:46-60 | two overlapping calls for one request can both fetch at the same instant |
| CacheKeys.KindsAreDisjoint | cmd/server/main.go:105-107 | tide, current, forecast and search keys never coincide, whatever the inputs |
| CacheKeys.KeysEqualIff | internal/usecase/tide/tide.go:42 | on what the handlers let through, keys are equal exactly for the same tide request, for the same weather kind and cells, or for the same digest and limit |
| CacheKeys.KeysInFull | internal/usecase/location/location.go:43-44 | each kind's key, part by part |
| CacheKeys.CoordinateInFull | internal/usecase/weather/weather.go:92-97 | a coordinate in a key is its sign, digits, a point and four digits that read as the rounded coordinate |
| CacheKeys.HexDigits | internal/usecase/location/location.go:43-44 | two lower-case hexadecimal digits per byte of the digest, in order |
| CacheKeys.TideKeySplits | internal/interface/handler/tide_handler.go:25-29 | codes without colons make the tide key injective |
| CacheKeys.TideKeyNeedsPatterns | internal/usecase/tide/tide.go:42 | without the handler's patterns two tide requests can share a key |
| CacheKeys.CoordinateIff | internal/usecase/weather/weather.go:93-97 | two coordinates print alike exactly if they round alike and lie on the same side of zero |
| CacheKeys.ZeroCellHasTwoKeys | internal/usecase/weather/weather.go:91-97 | two coordinates that round alike around zero get different keys |
| CacheKeys.SearchKeySplits | internal/usecase/location/location.go:43-44 | digest and limit are recoverable from a search key |
| CacheSequential.ServeIsRun | internal/usecase/weather/weather.go:43-64 | a caching call running alone is a run of the interleaved machine: same store, same answer, upstream asked exactly when it is said to be, and the data got there is the one fetch added |
| CacheUsecases.TideUsecase.GetTideData | internal/usecase/tide/tide.go:41-62 | is the machine's call running alone; a visible, decodable entry is answered without asking or storing; otherwise upstream is asked once and the tide data in its reply is answered, and kept for six hours if it can be encoded and stored |
| CacheUsecases.WeatherUsecase.GetCurrent | internal/usecase/weather/weather.go:43-64 | is the machine's call running alone; a visible, decodable entry is answered without asking or storing; otherwise upstream is asked once and the observation in its reply is answered, and kept for thirty minutes if it can be encoded and stored |
| CacheUsecases.WeatherUsecase.GetForecast | internal/usecase/weather/weather.go:68-89 | is the machine's call running alone; a visible, decodable entry is answered without asking or storing; otherwise upstream is asked once and the whole forecast list in its reply is answered, and kept for thirty minutes if it can be encoded and stored |
| CacheUsecases.LocationUsecase.Search | internal/usecase/location/location.go:42-64 | is the machine's call running alone; a visible, decodable entry is answered without asking or storing; otherwise upstream is asked once and the converted results in its reply is answered, and kept for a day if it can be encoded and stored |
| MapsClient.SearchLocations | internal/infrastructure/external/maps_client.go:87-106 | the loop yields the first limit results in order, none for a limit below one, with the address as name, lat as latitude, lng as longitude, the prefecture and no region |
| MapsClient.FindPrefecture | internal/infrastructure/external/maps_client.go:97-103 | the nested loops yield the name of the last component that is a prefecture |
| MapsClient.PrefectureIsLastMatch | internal/infrastructure/external/maps_client.go:97-103 | the prefecture is the last component typed administrative_area_level_1, wherever it stands |
| MapsClient.NoPrefecture | internal/infrastructure/external/maps_client.go:97-103 | without a component of that type the prefecture stays empty |
| Retry.RoundTrip | internal/infrastructure/external/retry.go:22-54 | for every retry count, attempts and cancellation: the outcome is the first response below 500 reached on the time line, the cancellation or the last failure (its cause, or its status without one), and every body obtained is drained and closed once except the one returned |
| Retry.ExactlyOneReturned | internal/infrastructure/external/retry.go:22-54 | exactly one of response and error comes back if and only if the retry count is not negative; attempts never exceed it by more than one |
| Retry.OutcomeIsUnique | internal/infrastructure/external/retry.go:22-54 | the outcome is determined by the attempts and the time line |
| Retry.UncancelledOutcome | internal/infrastructure/external/retry.go:35-53 | without cancellation a response comes back exactly if some attempt is a response below 500, and it is the first; otherwise the last attempt's failure |
| Retry.MadeIff | internal/infrastructure/external/retry.go:24-38 | attempt i is made exactly if no earlier one is a response below 500 and the context is not cancelled by its check nor before its back-off ends, at the instants the attempt durations and 250 i (i + 1) milliseconds give |
| Retry.BodiesInFull | internal/infrastructure/external/retry.go:44-51 | the bodies drained and closed, once each, are those of the attempts made that had a response, with or without an error, and were not accepted; the others are untouched |
| Retry.TimeLine | internal/infrastructure/external/retry.go:28-35 | the back-off before attempt i is 500 i milliseconds |
| Retry.CancellationIsRespected | internal/infrastructure/external/retry.go:25-34 | no attempt starts after the cancellation, and each cancellation error tells when the context was cancelled |
| Retry.Backoff | internal/infrastructure/external/retry.go:28-34 | the wait ends with the timer exactly if the attempt is still allowed |
| Retry.SleptClosedForm | internal/infrastructure/external/retry.go:30 | the back-off slept before attempt i totals 250 i (i + 1) milliseconds |
| Score.CalculateTideScore | internal/usecase/score/score.go:52-96 | the loop over the distances scores 40 with an event within 30 minutes, 35, 28, 20 within 60, 90, 120, else 10, and below 40 the bonus of 5 or 3 for spring and middle tide; 20 without data |
| Score.CalculateWeatherScore | internal/usecase/score/score.go:99-129 | 35 less the points for each range of wind and of pressure around 1013; the lower clamp has no effect; 17 without data |
| Score.Calculate | internal/usecase/score/score.go:28-49 | the parts as above with the points of each hour of the day; the total is their exact sum in [25, 100], so both clamps have no effect; the rank by the ranges of the total, never bad |
| Score.RangeIsTight | internal/usecase/score/score.go:28-49 | totals 25 and 100 are both reached |
| Score.OrderDoesNotMatter | internal/usecase/score/score.go:57-67 | the tide score depends only on which events there are, not on their order or their list |
| Score.MoreEventsNeverHurt | internal/usecase/score/score.go:57-81 | adding events never lowers the tide score |
| Score.FartherEventsNeverHelp | internal/usecase/score/score.go:57-81 | moving every event farther from now never raises the tide score |
| Score.StepsOnlyAtThresholds | internal/usecase/score/score.go:69-123 | read off the definitions: the penalties and the tide score change exactly at the documented thresholds, boundaries included, and the pressure penalty is symmetric around 1013 |
| Score.BetterWeatherNeverHurts | internal/usecase/score/score.go:99-129 | a corollary: less wind and pressure nearer 1013 never lower the total or the rank |
| Rounding.NearestMultiple | pkg/validator/validator.go:26-29 | the result is the nearest multiple of 10^-p, the farther from zero of two equally near |
| Rounding.RoundingError | pkg/validator/validator.go:26-29 | a value moves by at most half of 10^-p, for every precision |
| Rounding.Idempotent | pkg/validator/validator.go:26-29 | rounding twice is rounding once |
| Rounding.Monotone | pkg/validator/validator.go:26-29 | rounding keeps order |
| Rounding.Odd | pkg/validator/validator.go:26-29 | rounding commutes with negation |
| Rounding.KeepsRangeIff | pkg/validator/validator.go:26-29 | latitudes and longitudes stay in range at every precision if and only if it is not -2 |
| Decimal.PrintReadsBack | internal/usecase/weather/weather.go:96 | printed decimal numbers can be read back |

## Left out

- AccountTheorems.SuccessfulTokenIsSpent: is for runs where this random 32-byte token is not drawn a second time, since it could then belong to another email.
- CacheRate.RateBound: stated per key, which for weather is per cell except around zero, and for a cache that works for the key; a cache that loses or cannot store an entry makes later calls ask again.
- AccountFates.VerifiableIffChance: takes for granted that a token not in the table can be drawn.
- Favorites listing and its order by creation time: reads only.
- A row-count error after a deletion that did apply: the driver reports counts without error.
- HTTP routing, request binding, response bodies, configuration, logging and wiring, except the token check and the patterns that limit cache keys.
- SQL, Redis, bcrypt, SHA-256, HMAC and JSON internals; token encoding and parsing.
- The `iat` claim, which nobody checks, and the two clock readings for one token, taken as one.
- Floating-point rounding of arithmetic, NaN and a negative zero given as input; timestamp precision of the database.
- Upstream clients beyond arbitrary answers, except the conversion of geocoding results; the ten-second client timeout.
- The base transport returning neither response nor error, which its interface forbids.
- Email delivery beyond success or failure; email and UUID patterns; the score's explanation text.
- Sign-in with Google, a score endpoint and the cleanup of expired tokens: not wired into the running code.
