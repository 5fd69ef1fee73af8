# tifofan-backend core in Dafny

A model of the logic between the backend's HTTP handlers and the outside world. The backend is a football-data service: it fetches fixtures, teams, squads and statistics from an upstream football API, normalizes them into typed records, caches them in a document store, and serves them over HTTP behind a rate limiter.

The model is purely functional. The loosely typed upstream payloads are a `Json` datatype. That datatype comes with JavaScript's optional-chained reads, ECMAScript ToBoolean (section 7.1.2 of ECMA-262), `??`, `Number(x)` and `String(x)`. Thrown exceptions are the `Err` arm of a `Result`. Three kinds of error are modelled:

- `ApiError` with a status, a code and a message;
- a plain `Error` with a message;
- the `TypeError` raised by reading a property of `undefined` or `null`.

The two pieces of process state are explicit values, and the clock is a parameter:

- the rate limiter's map from bucket key to `{count, resetAt}`;
- the cache's map from key to `{value, expiresAt}`.

| file | module | models |
|---|---|---|
| errors.dfy | Errors | `ApiError`, plain errors, `TypeError`; `Result` and `Option` |
| json.dfy | Json | JavaScript values, property reads, truthiness, `??`, `Number`, `String`, assignment and object spread |
| numbers.dfy | JsNumbers | IEEE special values, `Number()` of a string, `toFixed`, `String()` of numbers |
| cache_config.dfy | CacheConfig | the version and TTL tables over the seven cacheable resources |
| cache_keys.dfy | CacheKeys | `buildCacheKey` |
| firestore_cache.dfy | FirestoreCache | `getCached` / `setCached` with lazy expiry |
| rate_limiter.dfy | RateLimiter | `rateLimit`, the fixed-window counter |
| auth_context.dfy | AuthContext | the request fields read, and `getAuthContext` |
| rate_limit_resolver.dfy | RateLimitResolver | `resolveRateLimit` |
| http_responses.dfy | HttpResponses, Response | `ok` / `fail` of `httpResponses.ts`; `ok` of `response.ts` |
| handler.dfy | Handler | `handler`: rate check, wrapped call, error reply |
| validators.dfy | Validators | `requirePositiveInt`, `requireSeason` |
| query_helpers.dfy | QueryHelpers | `getQueryParam`, `getQueryNumber` |
| pagination.dfy | Pagination | `getPagination` |
| leagues.dfy | Leagues | `SUPPORTED_LEAGUES`, `validateLeague`, `validateSeason` |
| sanitize.dfy | Sanitize | `sanitizeForFirestore` |
| team_normalizer.dfy | TeamNormalizer | `normalizeTeamCore`, `normalizeTeam` |
| team_players_normalizer.dfy | TeamPlayersNormalizer | `normalizeTeamPlayer`, `normalizePlayerSeasonStats` |
| player_stats_normalizer.dfy | PlayerStatsNormalizer | `normalizePlayerStats` |
| match_normalizer.dfy | MatchNormalizer | `normalizeMatch`, `normalizeMatchDetails` |
| match_statistics_normalizer.dfy | MatchStatisticsNormalizer | `normalizeMatchStatistics` |
| team_stats_normalizer.dfy | TeamStatsNormalizer | `normalizeTeamStats` |
| player_season_aggregates.dfy | PlayerSeasonAggregates | `aggregatePlayerSeasonStats` |
| team_season_aggregates.dfy | TeamSeasonAggregates | `aggregateTeamSeasonStats` |

Each normalizer has an upstream-shape encoder as its partner, for example `TeamToRaw` or `MatchToRaw`. Two lemmas connect them. The first shows that every record the normalizer returns is well formed. The second is a round trip: normalizing the encoding of a well-formed record gives that record back.

The aggregators' partner is the fold `Totals`. The lemmas show that the loop computes the fold and that the fold ignores the order of the entries.

Behaviour of the code that is easy to misread, including where the repository's own tests expect something else. The model follows the code:

- **Rate-limit window reset.** A bucket resets only when `resetAt < now` (`functions/src/utils/rateLimiter.ts:25`). A call at exactly `resetAt` therefore still counts against the old window (`RateLimiter.WindowBoundary`).
- **Match statistics.** Every entry is stored under its raw `type` (`MatchStatisticsNormalizer.TypesAreNotRenamed`). The test at `functions/src/normalizers/__tests__/matchStatisticsNormalizer.test.ts:35-46` expects camel-cased keys and no `Possession` entry, which the code does not produce.
- **Ratings.** `rating` and `passAccuracy` are `null` whenever the raw value is falsy, so a rating of `0` or `""` also becomes `null` (`TeamPlayersNormalizer.NumberIfTruthy`).
- **Counter defaults.** Counters default to 0 for `null` as well as for a missing value, because the code uses `??`.
- **Test expectations.** The squad-player test at `functions/src/normalizers/__tests__/teamPlayerNormalizer.test.ts:33` expects "Invalid player response"; the code throws "Invalid team player response". The player season test reads `appearances`, which the code does not read; the code reads `appearences` (`TeamPlayersNormalizer.AppearancesSpelling`).
- **League validators.** `validateLeague` and `validateSeason` take any number. A non-integer or NaN league id names no table entry, and a NaN season passes the season check because `NaN < fromSeason` is false (`Leagues.PremierLeagueFrom1992`).

## Model

| member | source | states |
|---|---|---|
| CacheConfig.TablesArePositive | functions/src/cache/cacheConfig.ts:5-32 | every resource has version 1 and a positive TTL; both tables are total over the same seven resources |
| CacheConfig.TtlOrdering | functions/src/cache/cacheConfig.ts:24-32 | the TTL values: team 86400 s, teamDetails and player 43200 s, teamPlayers 21600 s, matches 120 s, matchDetails and matchStats 60 s; every TTL lies between the matchStats and team values |
| CacheConfig.NamesAreDistinct | functions/src/cache/cacheConfig.ts:5-13 | distinct resources have distinct key names, and no name contains the separator `_` |
| CacheKeys.BuildCacheKey | functions/src/cache/cacheKeys.ts:10-16 | with no parts the key is `v{version}_{resource}`; each further part, a string or any number rendered by `String()`, is appended after one `_`, in the given order |
| CacheKeys.KeyLayout | functions/src/cache/cacheKeys.ts:14-15 | every key is `v{version}_{resource}` followed by `_part` for each part, and the tail after the version does not depend on the version |
| CacheKeys.VersionBumpChangesKey | functions/src/cache/cacheKeys.ts:14-15 | two different versions never give the same key for the same resource and parts |
| CacheKeys.SeparatorInPartCollides | functions/src/cache/cacheKeys.ts:15 | the part `"1_2"` and the two parts `1, 2` give the same team key `v1_team_1_2` |
| CacheKeys.NumberPartsRenderAsStrings | functions/src/cache/cacheKeys.ts:12-15 | a number part prints as `String()` prints it: 2.5 gives `v1_team_2.5`, and NaN and 39 share their keys with the strings `"NaN"` and `"39"` |
| CacheKeys.KeysInjectiveWithoutSeparator | functions/src/cache/cacheKeys.ts:15 | when no part contains `_`, equal keys imply the same resource and the same rendered parts |
| FirestoreCache.GetCached | functions/src/cache/firestoreCache.ts:10-28 | an empty key is refused; a live entry is returned and the store is unchanged; an absent or expired entry reads `null`; an expired entry is deleted, and only that one |
| FirestoreCache.SetCached | functions/src/cache/firestoreCache.ts:39-52 | an empty key is refused; otherwise the key maps to `{value, now + ttl*1000}` and every other entry is unchanged |
| FirestoreCache.SetThenGet | functions/src/cache/firestoreCache.ts:22-27 | a written value is read back unchanged at any time up to its expiry, the boundary instant included, and the read leaves the store as it was |
| FirestoreCache.ReadAfterExpiry | functions/src/cache/firestoreCache.ts:22-25 | after the TTL the read returns `null` and removes exactly that key |
| FirestoreCache.MissLeavesStore | functions/src/cache/firestoreCache.ts:17 | reading an absent key returns `null` and changes nothing |
| FirestoreCache.LastWriterWins | functions/src/cache/firestoreCache.ts:48-51 | two writes to one key leave what the second write alone leaves |
| JsNumbers.CeilDiv | functions/src/utils/rateLimiter.ts:34 | `Math.ceil(a / b)` is the least q with a <= q*b |
| RateLimiter.RetryAfter | functions/src/utils/rateLimiter.ts:34 | the whole seconds, rounded up, that cover the time left in the window |
| RateLimiter.RateLimit | functions/src/utils/rateLimiter.ts:17-49 | a new or strictly expired bucket restarts at count 1; a bucket below the limit is incremented and keeps its reset time; a full bucket is denied with 429 `rate_limited` and `retryAfter >= 0` and is not changed; no other bucket changes |
| RateLimiter.RateLimitAsWritten | functions/src/utils/rateLimiter.ts:17-49 | the limiter as written: its denial error carries no `retryAfter` |
| RateLimiter.RateLimitedAsWritten | functions/src/utils/rateLimiter.ts:40-41 | the error the code constructs is a 429 `ApiError` without `retryAfter`, because the constructor takes three parameters |
| RateLimiter.AsWrittenDiffersOnlyInRetryAfter | functions/src/utils/rateLimiter.ts:33-45 | the limiter as written and the corrected one admit the same calls with the same new state; their errors differ only in `retryAfter` |
| RateLimiter.CountStaysBounded | functions/src/utils/rateLimiter.ts:25-48 | under a single limit a bucket's count stays between 1 and max(limit, 1) |
| RateLimiter.WindowBoundary | functions/src/utils/rateLimiter.ts:25 | at `now == resetAt` a full bucket is still denied, with `retryAfter` 0; one millisecond later it restarts |
| RateLimiter.OpenWindowAdmits | functions/src/utils/rateLimiter.ts:33-48 | inside an open window that has admitted `count` calls, the next `limit - count` calls pass and the following one is denied |
| RateLimiter.FreshWindowAdmitsExactlyLimit | functions/src/utils/rateLimiter.ts:25-48 | a window starting at t with limit N >= 1 admits exactly N calls up to t + windowMs and denies the next |
| AuthContext.GetAuthContext | functions/src/utils/authContext.ts:10-24 | authenticated exactly when the header starts with `Bearer `; the uid is then `future-user`, otherwise `null` |
| AuthContext.BearerPrefixIsExact | functions/src/utils/authContext.ts:13 | the prefix test is case-sensitive and needs the space; a bare `Bearer ` authenticates; an empty or missing header does not |
| RateLimitResolver.ClientAddress | functions/src/utils/rateLimitResolver.ts:15 | the request address, else the forwarded-for header, else `unknown`, each skipped when empty |
| RateLimitResolver.ResolveRateLimit | functions/src/utils/rateLimitResolver.ts:10-36 | the window is 60000 ms; the limit is the endpoint's base limit, times 5 when authenticated, so one of 10, 20, 50, 100; the key is `endpoint:user:uid` or `endpoint:ip:address` |
| RateLimitResolver.BaseLimits | functions/src/utils/rateLimitResolver.ts:18-24 | the base limit is 10 exactly for `getMatches`, `getTeamPlayers` and `getPlayer`, and 20 otherwise |
| RateLimitResolver.LimitIgnoresAddress | functions/src/utils/rateLimitResolver.ts:18-29 | two requests with the same authentication status get the same limit, whatever their addresses |
| RateLimitResolver.AuthenticatedCallersShareBucket | functions/src/utils/rateLimitResolver.ts:31-33 | all authenticated callers of an endpoint share one bucket key |
| HttpResponses.Fail | functions/src/utils/httpResponses.ts:46-65 | an `ApiError` keeps its status, code and message; anything else is 500 `internal_error` / `Internal server error`; the error object has exactly two fields and never `retryAfter` |
| HttpResponses.OkEnvelope | functions/src/utils/httpResponses.ts:19-38 | `data` unchanged; `meta.cached` is the given flag, or false when it is missing or null; `meta.timestamp` is now in ms; a top-level `pagination` exactly when the option is truthy |
| HttpResponses.CachedFlag | functions/src/utils/httpResponses.ts:33 | an explicit false or true flag is kept; a missing one gives false; `meta` never holds pagination |
| Response.Seconds | functions/src/utils/response.ts:30 | the floor of a millisecond clock in seconds |
| Response.OkBody | functions/src/utils/response.ts:22-34 | `data` unchanged; `meta` has the caller's properties plus `timestamp`; a caller `timestamp` overrides the default of seconds since the epoch |
| Response.DefaultMeta | functions/src/utils/response.ts:27-33 | without caller meta, `meta` is just the seconds timestamp; `cached` and `pagination` appear only when supplied |
| Handler.CatchReply | functions/src/utils/handler.ts:70-91 | an `ApiError` becomes its status, code and message, plus `retryAfter` exactly when that is present and non-zero; any other error becomes the 500 reply |
| Handler.CatchAgreesWithFail | functions/src/utils/handler.ts:72-80 | without a truthy `retryAfter`, the wrapper's reply is the one `fail` builds |
| Handler.Invoke | functions/src/utils/handler.ts:69-91 | the wrapped function runs, the rate state is untouched, and the wrapper replies exactly when the function throws |
| Handler.Handle | functions/src/utils/handler.ts:57-93 | without an endpoint name there is no rate check; with one, the function runs exactly when the limiter admits the call, and a denial leaves the state and replies with the caught error |
| Handler.HandleAsWritten | functions/src/utils/handler.ts:57-93 | the wrapper over the limiter as written; without an endpoint name it behaves like the corrected one |
| Handler.NoEndpointNoRateLimit | functions/src/utils/handler.ts:63 | with no or an empty endpoint name, the rate state is unchanged, the function runs, and the reply does not depend on the rate state |
| Handler.DeniedRequestNeverRunsFn | functions/src/utils/handler.ts:63-80 | a request to a full bucket inside its window gets a 429 `rate_limited` reply without running the function or changing the state; the reply has `retryAfter` exactly when seconds remain |
| Handler.AdmittedRequestRunsFn | functions/src/utils/handler.ts:63-69 | an admitted request runs the function, and the wrapper replies exactly when it throws |
| Handler.AsWrittenNeverReportsRetryAfter | functions/src/utils/handler.ts:77 | as written, a denied request's reply never holds `retryAfter` |
| Handler.RetryAfterLostExample | functions/src/utils/rateLimiter.ts:40-41 | an anonymous caller over the `getPlayer` limit with 30 s left gets `retryAfter: 30` from the corrected wrapper and none as written |
| JsNumbers.ParseIntToString | functions/src/utils/validators.ts:19 | `Number()` of a decimal integer's rendering is that integer |
| JsNumbers.ParseJsNumberToString | functions/src/cache/cacheKeys.ts:15 | `Number(String(x))` is `x` for NaN, both infinities and every integer, so the number rendering used in keys and messages is faithful on them |
| Validators.RequirePositiveInt | functions/src/utils/validators.ts:11-29 | a non-string is `{name} is required`; it succeeds exactly when `Number(value)` is an integer > 0, which is returned; every error is 400 `invalid_param` |
| Validators.PositiveIntRoundTrip | functions/src/utils/validators.ts:19-28 | every positive integer written in decimal is accepted and read back as itself |
| Validators.NonPositiveIntRefused | functions/src/utils/validators.ts:20-26 | zero and negative integers are refused with `must be a positive integer` |
| Validators.RequireSeason | functions/src/utils/validators.ts:38-59 | a non-string is `season is required`; it succeeds exactly on integers from 2000 to next year; every error is 400 `invalid_param` |
| Validators.SeasonRange | functions/src/utils/validators.ts:43-58 | a decimal year is accepted iff 2000 <= y <= currentYear + 1, and is then returned unchanged |
| QueryHelpers.GetQueryParam | functions/src/utils/queryHelpers.ts:11-17 | a string is returned as is; an array yields its first element when that is a string; anything else is absent |
| QueryHelpers.GetQueryNumber | functions/src/utils/queryHelpers.ts:25-31 | absent for a missing or empty parameter; otherwise the parsed value exactly when it is finite |
| QueryHelpers.QueryNumberOfInteger | functions/src/utils/queryHelpers.ts:29-30 | every integer, zero and negatives included, reads back as itself, alone or first in an array |
| QueryHelpers.NonStringsAreAbsent | functions/src/utils/queryHelpers.ts:15-16 | numbers, empty arrays and arrays not starting with a string are absent; `Infinity` is refused |
| Pagination.NumberOr | functions/src/utils/pagination.ts:16-18 | the parsed value when it is truthy and the default otherwise, never NaN |
| Pagination.GetPagination | functions/src/utils/pagination.ts:15-23 | a null or undefined query throws; otherwise `page >= 1` and `limit <= 50`, neither NaN |
| Pagination.PaginationValues | functions/src/utils/pagination.ts:4-20 | a missing, zero or NaN page gives 1 and limit gives 20; a page >= 1 and a non-zero limit <= 50 are kept; larger limits give 50 |
| Pagination.NoLowerBoundNoRounding | functions/src/utils/pagination.ts:16-20 | `limit=-5` and `page=2.5` pass through; an empty query gives page 1, limit 20 |
| Leagues.TableIsKeyedById | functions/src/constants/leagues.ts:7-56 | exactly the ids 39, 140, 135, 78, 61 and 262 are supported, each entry filed under its own id with its own logo URL |
| Leagues.ValidateLeague | functions/src/validators/leagueValidator.ts:11-19 | for any number, succeeds iff it is one of the six ids; otherwise 400 `unsupported_league` `League {String(id)} is not supported` |
| Leagues.ValidateSeason | functions/src/validators/seasonValidator.ts:10-22 | for any numbers: an unknown league accepts every season; a known one refuses exactly -Infinity and finite seasons below its first season (so NaN passes), with 400 `invalid_season` printing the season by `String()` and naming the league |
| Leagues.SeasonAcceptanceIsMonotone | functions/src/validators/seasonValidator.ts:15 | a season not below an accepted non-NaN season is accepted |
| Leagues.FirstSeasonIsTheBoundary | functions/src/validators/seasonValidator.ts:15-21 | a supported league accepts its first season and refuses the one before |
| Leagues.PremierLeagueFrom1992 | functions/src/constants/leagues.ts:8-15 | league 39 refuses 1991 and -Infinity and accepts 1992 and NaN; 40 and 39.5 are unsupported |
| Leagues.FractionalSeasonIsRefused | functions/src/validators/seasonValidator.ts:15-21 | season 1991.5 for league 39 is refused with `Season 1991.5 is not supported for Premier League` |
| Sanitize.Sanitize | functions/src/utils/sanitizeFirestore.ts:8-25 | arrays map element-wise with the same length; objects stay objects; every other value is returned unchanged |
| Sanitize.FieldsKept | functions/src/utils/sanitizeFirestore.ts:16-19 | an object keeps exactly its non-empty keys, in order, each with its value sanitized |
| Sanitize.SanitizeRemovesEmptyKeys | functions/src/utils/sanitizeFirestore.ts:16-19 | the result has no `""` key at any depth |
| Sanitize.SanitizeIsIdentityOnClean | functions/src/utils/sanitizeFirestore.ts:8-25 | a value without `""` keys is returned equal to itself |
| Sanitize.SanitizeIsIdempotent | functions/src/utils/sanitizeFirestore.ts:8-25 | sanitizing twice is sanitizing once |
| Sanitize.SanitizeFixesExactlyClean | functions/src/utils/sanitizeFirestore.ts:8-25 | a value is unchanged iff it has no `""` key at any depth |
| TeamNormalizer.OrNull | functions/src/normalizers/teamNormalizer.ts:17-18 | `x ?? null` is null exactly for null and undefined and keeps every other value |
| TeamNormalizer.NormalizeTeamCore | functions/src/normalizers/teamNormalizer.ts:9-20 | succeeds iff `id` and `name` are truthy, which it copies; `logo` and `country` default to null; otherwise `Invalid team core response` |
| TeamNormalizer.TeamCoreRoundTrip | functions/src/normalizers/teamNormalizer.ts:9-20 | every result is well formed, and every well-formed core is reproduced from its upstream form |
| TeamNormalizer.TeamCoreFalsyFields | functions/src/normalizers/teamNormalizer.ts:10-18 | an id of 0 or a name of `""` is refused; an empty logo is kept |
| TeamNormalizer.NormalizeVenue | functions/src/normalizers/teamNormalizer.ts:36-42 | no venue field is left undefined |
| TeamNormalizer.NormalizeTeam | functions/src/normalizers/teamNormalizer.ts:27-44 | a falsy `team` is `Invalid team response`; otherwise it succeeds iff the core does; `founded` defaults to null, `national` to false; the venue is absent iff the raw venue is falsy |
| TeamNormalizer.NormalizedTeamIsTeam | functions/src/normalizers/teamNormalizer.ts:27-44 | every team returned is well formed |
| TeamNormalizer.TeamRoundTrip | functions/src/normalizers/teamNormalizer.ts:27-44 | every well-formed team is reproduced from its upstream form |
| TeamNormalizer.TeamKeepsFalsyOptionals | functions/src/normalizers/teamNormalizer.ts:34-35 | `founded: 0` and `national: false` are kept; missing ones become null and false |
| TeamPlayersNormalizer.OrZero | functions/src/normalizers/teamPlayersNormalizer.ts:49-50 | `x ?? 0` is never nullish, replaces null and undefined by 0, and keeps every other value |
| TeamPlayersNormalizer.NumberIfTruthy | functions/src/normalizers/teamPlayersNormalizer.ts:52-54 | null exactly when the raw value is falsy, otherwise `Number()` of it |
| TeamPlayersNormalizer.OrUndefined | functions/src/normalizers/teamPlayersNormalizer.ts:21-23 | `x ?? undefined` turns null into undefined and keeps every other value |
| TeamPlayersNormalizer.NormalizePlayerSeasonStats | functions/src/normalizers/teamPlayersNormalizer.ts:37-67 | needs truthy `team` and `league`, and the team must pass the core check; counters default to 0; appearances come from `appearences`; position defaults to `""`; ratings are parsed when truthy |
| TeamPlayersNormalizer.NormalizeAll | functions/src/normalizers/teamPlayersNormalizer.ts:25-27 | the map succeeds iff every entry does, keeping length and order; a failure is the error of an entry all of whose predecessors succeed |
| TeamPlayersNormalizer.FirstBadEntryDecides | functions/src/normalizers/teamPlayersNormalizer.ts:25-27 | the map's error is exactly the error of the first failing entry, whatever later entries hold |
| TeamPlayersNormalizer.NormalizeTeamPlayer | functions/src/normalizers/teamPlayersNormalizer.ts:13-29 | needs a truthy player id and name; photo, age and nationality map null to undefined; stats are the mapped entries, or empty when `statistics` is not an array; a failing entry's error is the player's error |
| TeamPlayersNormalizer.OneBadEntryFailsPlayer | functions/src/normalizers/teamPlayersNormalizer.ts:25-27 | one statistics entry without a league makes the whole player fail |
| TeamPlayersNormalizer.OptionalNumberRoundTrip | functions/src/normalizers/teamPlayersNormalizer.ts:52-54 | every rating, NaN and the infinities included, and its absence are reproduced from some raw value |
| TeamPlayersNormalizer.NormalizedSeasonStatsAreWellFormed | functions/src/normalizers/teamPlayersNormalizer.ts:42-66 | every season entry returned is well formed |
| TeamPlayersNormalizer.SeasonStatsRoundTrip | functions/src/normalizers/teamPlayersNormalizer.ts:37-67 | every well-formed season entry is reproduced from its upstream form |
| TeamPlayersNormalizer.AppearancesSpelling | functions/src/normalizers/teamPlayersNormalizer.ts:49 | an entry spelling the key `appearances` counts 0 appearances |
| PlayerStatsNormalizer.NormalizePlayerStats | functions/src/normalizers/playerStatsNormalizer.ts:9-37 | succeeds iff `team` and `league` are truthy; team id, name and logo are copied unchecked; the counters and ratings follow the seasonal rules |
| PlayerStatsNormalizer.FlatAgreesWithSeasonal | functions/src/normalizers/playerStatsNormalizer.ts:14-36 | whatever the seasonal normalizer accepts the flat one accepts with equal values, apart from the logo default; the flat one also accepts exactly the entries whose team fails the core check |
| PlayerStatsNormalizer.TeamNotChecked | functions/src/normalizers/playerStatsNormalizer.ts:15-17 | an empty team is accepted with undefined id and logo, while the seasonal normalizer refuses it |
| MatchNormalizer.Side | functions/src/normalizers/matchNormalize.ts:20-30 | a side copies the team's id, name and logo unchecked |
| MatchNormalizer.NormalizeMatch | functions/src/normalizers/matchNormalize.ts:10-49 | `Invalid match response` iff `fixture`, `teams.home`, `teams.away` or `league` is falsy; a missing `status` throws a TypeError; ids, date, status and league come from the fixture; goals default to null |
| MatchNormalizer.NormalizedMatchIsMatch | functions/src/normalizers/matchNormalize.ts:41-46 | no goals field of a result is undefined |
| MatchNormalizer.SideRoundTrip | functions/src/normalizers/matchNormalize.ts:20-30 | every side is reproduced from its upstream form |
| MatchNormalizer.NormalizeMatchFromReads | functions/src/normalizers/matchNormalize.ts:20-48 | the result depends only on the properties read |
| MatchNormalizer.MatchRoundTrip | functions/src/normalizers/matchNormalize.ts:10-49 | every well-formed match is reproduced from its upstream form |
| MatchNormalizer.LeagueOnlyIsInvalid | functions/src/normalizers/matchNormalize.ts:11-18 | a fixture with only a league is refused with the validation error |
| MatchNormalizer.UpcomingMatchHasNullGoals | functions/src/normalizers/matchNormalize.ts:41-46 | missing goals are null on both sides |
| MatchNormalizer.Score | functions/src/normalizers/matchNormalize.ts:68-74 | undefined iff the score object is falsy; otherwise `String(home)-String(away)` |
| MatchNormalizer.NormalizeMatchDetails | functions/src/normalizers/matchNormalize.ts:58-76 | fails exactly as `normalizeMatch` fails; extends its result with venue name and referee (null becomes undefined) and the two scores |
| MatchNormalizer.ScoreDeterminesGoals | functions/src/normalizers/matchNormalize.ts:68-74 | for whole non-negative goals, distinct scores render differently |
| MatchNormalizer.ScoreOfMissingGoals | functions/src/normalizers/matchNormalize.ts:68-74 | a truthy score without goals renders `undefined-undefined` or `null-null`; a missing one is undefined |
| MatchStatisticsNormalizer.Collect | functions/src/normalizers/matchStatisticsNormalizer.ts:18-20 | the loop throws a TypeError exactly when an entry is null or undefined |
| MatchStatisticsNormalizer.CollectSpec | functions/src/normalizers/matchStatisticsNormalizer.ts:16-20 | the collected object has one key per type that occurs, holding the last such entry's value |
| MatchStatisticsNormalizer.NormalizeMatchStatistics | functions/src/normalizers/matchStatisticsNormalizer.ts:9-28 | refused iff the team is falsy or `statistics` is not an array; a TypeError iff an entry is nullish; team fields copied; stats keyed by type, last entry winning |
| MatchStatisticsNormalizer.LaterEntryWins | functions/src/normalizers/matchStatisticsNormalizer.ts:19 | an appended entry decides its type's value |
| MatchStatisticsNormalizer.OtherEntriesKeepValue | functions/src/normalizers/matchStatisticsNormalizer.ts:18-20 | an entry of another type leaves a type's value unchanged |
| MatchStatisticsNormalizer.TypesAreNotRenamed | functions/src/normalizers/matchStatisticsNormalizer.ts:19 | `Shots on Goal` is stored under that key and no camel-cased key appears |
| MatchStatisticsNormalizer.MissingValueIsNull | functions/src/normalizers/matchStatisticsNormalizer.ts:19 | an entry without a value is stored as null, not left out |
| MatchStatisticsNormalizer.EmptyObjectIsInvalid | functions/src/normalizers/matchStatisticsNormalizer.ts:12-14 | `{}` is refused with `Invalid match statistics response` |
| TeamStatsNormalizer.TotalOr0 | functions/src/normalizers/teamStatsNormalizer.ts:29-31 | `x?.total ?? 0` is the total when present and not null, else 0 |
| TeamStatsNormalizer.Losses | functions/src/normalizers/teamStatsNormalizer.ts:32 | `loses.total` when present, else `losses.total`, else 0 |
| TeamStatsNormalizer.NormalizeTeamStats | functions/src/normalizers/teamStatsNormalizer.ts:13-39 | accepts exactly objects and arrays; team, league and season are the arguments; form defaults to null; every total defaults to 0, goals read from `total.total` |
| TeamStatsNormalizer.LossesSpelling | functions/src/normalizers/teamStatsNormalizer.ts:32 | `loses` wins over `losses`; `losses` is the fallback; neither gives 0 |
| TeamStatsNormalizer.MissingSectionsDefault | functions/src/normalizers/teamStatsNormalizer.ts:27-37 | empty sections give zero totals and a null form |
| TeamStatsNormalizer.PrimitivesAreRefused | functions/src/normalizers/teamStatsNormalizer.ts:19-21 | primitives, null and undefined are refused |
| TeamStatsNormalizer.FixturesRoundTrip | functions/src/normalizers/teamStatsNormalizer.ts:28-33 | non-null fixture totals are reproduced from their upstream form |
| TeamStatsNormalizer.GoalsRoundTrip | functions/src/normalizers/teamStatsNormalizer.ts:34-37 | non-null goal totals are reproduced from their upstream form |
| TeamStatsNormalizer.TeamStatsRoundTrip | functions/src/normalizers/teamStatsNormalizer.ts:13-39 | every result is well formed, and every well-formed record is reproduced from its upstream form and its arguments |
| JsNumbers.AddLaws | functions/src/aggregators/playerSeasonAggregates.ts:33 | number addition with NaN and the infinities is commutative and associative, with 0 as identity |
| JsNumbers.RoundTo | functions/src/aggregators/playerSeasonAggregates.ts:47 | `Number(x.toFixed(d))` is a multiple of 10^-d within half a unit of the d-th decimal of x, and a tie goes to the larger magnitude; NaN and the infinities pass through |
| JsNumbers.RoundAtIsUnique | functions/src/aggregators/playerSeasonAggregates.ts:47 | those three promises pin the rounded value down: any multiple of the step within half a step that wins its tie by magnitude is the rounded value |
| JsNumbers.RoundToIsUnique | functions/src/aggregators/playerSeasonAggregates.ts:47 | the same for `toFixed(d)` on a finite number |
| PlayerSeasonAggregates.Step | functions/src/aggregators/playerSeasonAggregates.ts:25-35 | one loop iteration adds exactly the entry's contribution to the running totals |
| PlayerSeasonAggregates.CombineLaws | functions/src/aggregators/playerSeasonAggregates.ts:24-36 | combining totals is commutative and associative, with the initial accumulator as identity |
| PlayerSeasonAggregates.TotalsAppend | functions/src/aggregators/playerSeasonAggregates.ts:24-36 | the totals of two concatenated lists combine the totals of each |
| PlayerSeasonAggregates.TotalsArePermutationInvariant | functions/src/aggregators/playerSeasonAggregates.ts:24-36 | the totals do not depend on the order of the entries |
| PlayerSeasonAggregates.Average | functions/src/aggregators/playerSeasonAggregates.ts:47 | a finite sum gives the mean; NaN and infinities pass through |
| PlayerSeasonAggregates.Per90 | functions/src/aggregators/playerSeasonAggregates.ts:50-56 | 0 without minutes; otherwise x/minutes*90 rounded to two decimals (a multiple of 0.01 within 0.005, ties away from zero) |
| PlayerSeasonAggregates.AggregatePlayerSeasonStats | functions/src/aggregators/playerSeasonAggregates.ts:10-58 | each total is the sum over the entries; the average rating is null iff no entry has a rating, otherwise the rounded mean of the ratings; per-90 rates as above |
| PlayerSeasonAggregates.RatingSumWithin | functions/src/aggregators/playerSeasonAggregates.ts:32-35 | with ratings on the 0 to 10 scale, the rating sum is finite and at most 10 per rating |
| PlayerSeasonAggregates.AverageRatingOnScale | functions/src/aggregators/playerSeasonAggregates.ts:46-48 | with ratings on the 0 to 10 scale, the average is on that scale before and after rounding |
| PlayerSeasonAggregates.UnparsedRatingPoisonsAverage | functions/src/aggregators/playerSeasonAggregates.ts:32-35 | a NaN rating is counted and makes the rating sum NaN |
| TeamSeasonAggregates.Rate | functions/src/aggregators/teamSeassonAgregates.ts:33-39 | 0 when nothing was played; otherwise x/played rounded to d decimals (a multiple of 10^-d within half a unit, ties away from zero) |
| TeamSeasonAggregates.AggregateTeamSeasonStats | functions/src/aggregators/teamSeassonAgregates.ts:9-41 | fields copied; points = 3*wins + draws; goal difference = for - against; rates 0 with no matches, otherwise the win percentage rounded to one decimal and goals for and against per match rounded to two, each a multiple of its step within half a step with ties away from zero |
| TeamSeasonAggregates.WinRateIsPercentage | functions/src/aggregators/teamSeassonAgregates.ts:20-22 | with wins between 0 and played, the win rate is between 0 and 100 |
| TeamSeasonAggregates.PointsBound | functions/src/aggregators/teamSeassonAgregates.ts:24-26 | when played = wins + draws + losses, points are at most 3 per match, reaching it iff every match was won |
| TeamSeasonAggregates.SwappedGoals | functions/src/aggregators/teamSeassonAgregates.ts:28-39 | exchanging goals for and against negates the difference and swaps the per-match rates |
| TeamSeasonAggregates.TwoWinsInThree | functions/src/aggregators/teamSeassonAgregates.ts:20-22 | two wins in three matches give a win rate of 66.7 |

## Left out

- The HTTP functions (`functions/src/functions/*.ts`, `functions/src/index.ts`), the upstream API client (`functions/src/api/apiFootball.ts`) and the document-store calls themselves: they are network and database I/O around the modelled core.
- The clock (`Date.now()`, `new Date().getFullYear()`) is a parameter, not read.
- Logging (`logger.error`, `console.error`) has no observable effect on the replies.
- Concurrency is not modelled: requests are applied one at a time. Interleaved requests, rate limits across processes and cache stampedes are out of scope.
- `functions/src/constants/stats.ts` is not used by any modelled code.
- `functions/src/types/*.ts` only supply the record shapes, which are the datatypes here.
- JsNumbers.RoundTo: numbers are exact reals, so binary floating-point rounding of division and of `toFixed` is not modelled. Rounding is half away from zero on the exact value.
- JsNumbers.ParseNumber: `Number()` of a string handles ASCII whitespace, a sign, `Infinity`, and decimal digits with an optional fraction. Exponent, hexadecimal, binary and octal forms and Unicode whitespace parse as NaN in the model.
- Reply bodies are the objects handed to `res.json`. JSON serialisation drops properties whose value is `undefined`, so a body such as `data: undefined` has no `data` property on the wire, while the model keeps the field.
- Object property order is insertion order. JavaScript's hoisting of integer-like keys and the special `__proto__` key are not modelled.
- RateLimitResolver.ClientAddress: the forwarded-for header is a single string. An array-valued header, which the template literal would join with commas, is not modelled.
- JsNumbers.NumberToString: finite numbers are exact reals printed in positional notation with at most twenty fraction digits. JavaScript's exponent form (`String(1e21)` is `"1e+21"`, `String(1e-7)` is `"1e-7"`) and its shortest round-trip digits of binary doubles are not modelled.
- TeamStatsNormalizer.NormalizeTeamStats: `league` and `season` are reals. They are passed through untouched.
- PlayerSeasonAggregates.AggregatePlayerSeasonStats: the counters must be numbers, as the record's type declares. With a string counter, JavaScript's `+=` would concatenate strings, and that is not modelled.
- TeamSeasonAggregates.AggregateTeamSeasonStats: requires the fixture and goal totals to be numbers, as the record's type declares. Non-number totals are not modelled.
- Handler.HandleAsWritten: its own contract covers only the unnamed-endpoint case. The denial behaviour is stated by `Handler.AsWrittenNeverReportsRetryAfter` and `RateLimiter.AsWrittenDiffersOnlyInRetryAfter`.
- MatchNormalizer.ScoreDeterminesGoals: stated for whole non-negative goal counts only. Other values render through `String()` and can collide, for example `"1-2"` as a home value.

## Findings

| source | as written | input that shows it | evidently intended | confidence | as-written member | corrected member |
|---|---|---|---|---|---|---|
| functions/src/utils/rateLimiter.ts:40-41 | the denial passes `retryAfter` as a fourth argument to `new ApiError`, whose constructor takes three, so the error carries no `retryAfter` and the wrapper's `...(err.retryAfter && …)` never adds it | an anonymous caller with 10 calls to `getPlayer` in a window closing 30 s from now | the 429 reply reports `retryAfter: 30` | not executed | RateLimiter.RateLimitAsWritten, Handler.HandleAsWritten, Handler.RetryAfterLostExample | RateLimiter.RateLimit, Handler.Handle, Handler.DeniedRequestNeverRunsFn |
