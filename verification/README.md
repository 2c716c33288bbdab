# Record history CSV export — a Dafny model

This project models the core of a function that exports the change history
of one registry record as CSV rows:

- `RegistryEventStream`: a readable object stream. It pages lazily through
  the registry's history endpoint (`getRecordHistory`), keeps a cursor
  (`hasMore`, `pageToken`) and a prefetch buffer (`dataCache`), signs a fresh
  session token for every page, and never runs two push loops at once
  (`isPushing`).
- `RegistryEventTransformStream`: turns each history event into rows. It
  looks up the user's display name and the record's name through two
  module-level caches. It emits one summary row for an event without a JSON
  patch, and one row per patch operation otherwise.
- The secret helpers `getSecret` and `getSecretValue`: memoised reads of the
  OpenFaaS secret files, with an environment-variable override whose name is
  derived from the value key.
- The entry point `myFunction` with `getUserIdFromReq` and `handleError`:
  input and configuration checks in a fixed order, resolution of the
  requesting user, construction of both streams, the download file name, and
  the error handler.

`process.env` is a map from variable names to strings. Everything else outside
the process is an oracle passed in as a function value:

- `signJwtToken`;
- the HTTP transport;
- `Readable.push`, which answers "more" or "full" given everything pushed so
  far;
- the user and record lookups;
- secret file reads;
- `JSON.parse`, `JSON.stringify` and the template-string coercion;
- `jwt.verify`.

Each stateful component is a class with the source's fields:

- `RegistryEventStream`;
- `RegistryEventTransformStream`;
- `NameCaches`, the two name dictionaries;
- `SecretStore`, the two secret dictionaries.

Logs record what the outside world saw: the requests made, the events and rows
pushed, the files read, and the callbacks. Each method is proved equal to a
state-transition function (`FetchStep`, `PushStep`, `Drain`, `UserNameLookup`,
`RecordNameLookup`, `SecretLookup`, `SecretValueLookup`, `UserIdFromRequest`).
The properties are then proved about those functions.

Each stream is meant to emit the record's events first-in, first-out, to fetch
again when a page comes back empty but says there is more, and to cache record
names by record id. The code does otherwise, and the model follows the code:

- The buffer is drained with `pop()`, from its end. The events of each page
  therefore come out last-first, while pages come out in registry order.
  `Pagination.FreshStreamEmitsHistory` states the exact order, and
  `Pagination.ReversedPagesPermutes` states that nothing is lost or duplicated.
- A page without events ends the stream, even when it says `hasMore`
  (`Pagination.EmptyPageEndsStream`).
- `getRecordName` reads its cache by record id but writes it under the key of
  the requesting user's id (`null` becoming `"null"`). A record is therefore
  fetched again on every call (`NameCaches.RecordNameNotMemoised`).
- `getUserIdFromReq` skips token verification when an `X-Magda-Session` header
  is present and verifies the absent header otherwise. A presented token
  therefore never yields a user (`Entry.SessionTokenGivesNoUser`). Without the
  header, `jwt.verify` is handed no token; a verifier that rejects a missing or
  empty token, as `jsonwebtoken` does, means no request ever yields a user
  (`Entry.NoUserWhenVerifyRejectsMissingToken`).
- The messages "Invalud empty jwtSecret" and `filename-"history-…"` are kept
  as spelled.

## Model

| member | source | states |
|---|---|---|
| HistoryApi.NonEmptyEntries | src/RegistryEventStream.ts:46-54 | The filtered query keeps exactly the non-empty entries and never grows. |
| HistoryApi.NonEmptyEntriesSingle | src/RegistryEventStream.ts:54 | A single entry is kept if and only if it is non-empty. |
| HistoryApi.NonEmptyEntriesAppend | src/RegistryEventStream.ts:54 | Filtering keeps the entries' order: filtering a concatenation is the concatenation of the filtered parts. |
| HistoryApi.NatTextValue | src/RegistryEventStream.ts:48-52 | The text of a natural number is a non-empty run of decimal digits that denotes it, with no leading zero unless it is 0. |
| HistoryApi.IntTextValue | src/RegistryEventStream.ts:48-52 | The `${n}` text of an integer starts with "-" exactly when it is negative, and its digits denote its absolute value with no leading zero. |
| HistoryApi.OptionEntriesLayout | src/RegistryEventStream.ts:46-54 | `QueryParameters` before the aspects (`OptionEntries`) is `dereference=true`, then `start=`, `pageToken=` and `limit=`, each present exactly when its option is defined, in that order. |
| HistoryApi.AspectEntries | src/RegistryEventStream.ts:55 | There is one `aspect=<name>` entry per aspect, position by position. |
| HistoryApi.AspectValuesOfEntries | src/RegistryEventStream.ts:55 | Reading the `aspect=` entries back gives the aspect list itself. |
| HistoryApi.QueryParametersLayout | src/RegistryEventStream.ts:46-55 | The query is `dereference=true`, then `start`, `pageToken` and `limit` (each only when defined, in that order), then the aspect entries. |
| HistoryApi.QueryRequestsDefaultAspects | src/RegistryEventStream.ts:5-25 | Every history query starts with `dereference=true` and requests exactly the 19 aspects of `DefaultFetchAspects`, once each, in listed order. Its length is 1 + the defined options + 19. |
| HistoryApi.TenantHeader | src/RegistryEventStream.ts:57-60 | `X-Magda-Tenant-Id` is the configured tenant when non-empty, else "0". It is never empty. |
| HistoryApi.RequestHeaders | src/RegistryEventStream.ts:57-64 | The session header is present if and only if a non-empty token was given, and it is that token. The tenant header is always present. |
| HistoryApi.HistoryRequestLayout | src/RegistryEventStream.ts:46-73 | `RecordHistoryRequest` targets the given registry URL and record id, carries the option entries followed by the default aspect entries, the tenant header, and the session header exactly when the options hold a non-empty token. |
| HistoryApi.GetRecordHistory | src/RegistryEventStream.ts:36-88 | A 2xx answer yields its page. A non-2xx answer yields the status-and-details error. A transport failure yields that failure. |
| EventStream.EffectiveLimit | src/RegistryEventStream.ts:110 | The page size is the configured limit when positive, else 50. It is always positive. |
| EventStream.ConstructionError | src/RegistryEventStream.ts:119-127 | The constructor throws if and only if the URL or the record id is empty. The URL is checked first. |
| EventStream.PageOptions | src/RegistryEventStream.ts:178-188 | The options hold the limit and no start. They hold the page token if and only if it is non-empty. They hold a signed token if and only if the user id is non-empty. They fail exactly when that signing throws. |
| EventStream.PageOptionsSignsUser | src/RegistryEventStream.ts:178-188 | With a non-empty user id the options carry exactly the token `signJwtToken` returned for it. A failure happens only with a non-empty user id, and it is the signing error. |
| EventStream.NextTokenOfPage | src/RegistryEventStream.ts:197 | The new cursor (`NextToken`) is non-empty exactly when the page's `nextPageToken` is, and it is then that token. |
| EventStream.FetchStepShape | src/RegistryEventStream.ts:172-216 | `FetchStep`: without `hasMore`, nothing changes and the result is false. Otherwise at most one request is logged. True means the buffer was extended at its end and the new cursor is consistent. False means the buffer is untouched. Nothing is pushed. |
| EventStream.PushStepShape | src/RegistryEventStream.ts:146-164 | `PushStep` (through `Emit`): a non-empty buffer loses its last event, which is appended to what was emitted; nothing else changes, and the round goes on exactly when `push` says more. Any round pushes at most one event, goes on only if it pushed, and a round that pushes nothing ends the stream. |
| EventStream.DrainOnlyAppends | src/RegistryEventStream.ts:137-170 | `Drain` (successive push rounds) only extends what was emitted, by at most one event per round. |
| EventStream.RegistryEventStream.constructor | src/RegistryEventStream.ts:102-135 | The stream stores its configuration with the effective limit. It starts with `hasMore`, an empty token, an empty buffer, and not pushing. |
| EventStream.RegistryEventStream.Create | src/RegistryEventStream.ts:102-135 | The constructor throws exactly the `ConstructionError` message. Otherwise it returns a fresh stream in the initial state. |
| EventStream.RegistryEventStream.FetchMore | src/RegistryEventStream.ts:172-216 | `fetchMore` changes the stream's state exactly as `FetchStep` says and returns its verdict. |
| EventStream.RegistryEventStream.PushRound | src/RegistryEventStream.ts:146-164 | One loop iteration of `pushTillFull` is exactly `PushStep`. |
| EventStream.RegistryEventStream.PushTillFull | src/RegistryEventStream.ts:137-170 | While already pushing it changes nothing. Otherwise the state becomes `Drain` of the old state and `isPushing` is cleared again. |
| EventStream.RegistryEventStream.Read | src/RegistryEventStream.ts:218-220 | `_read` is `pushTillFull`. |
| Pagination.Reverse | src/RegistryEventStream.ts:147 | Draining a buffer by `pop()` yields as many events as it held. |
| Pagination.ReverseAt | src/RegistryEventStream.ts:147 | The i-th event popped is the i-th from the end. Nothing is lost or gained. |
| Pagination.ReverseReverse | src/RegistryEventStream.ts:147 | Popping order undoes itself. |
| Pagination.ReversedPagesPermutes | src/RegistryEventStream.ts:206-208 | The emitted order is a permutation of the registry's events. |
| Pagination.FetchedPageUpdatesCursor | src/RegistryEventStream.ts:196-211 | An answered fetch overwrites `hasMore` and `pageToken` first, even when the page is then rejected for `hasMore` without a token. A page with events is appended. An empty page returns false with the buffer unchanged. |
| Pagination.FetchFailureDestroys | src/RegistryEventStream.ts:212-215 | A failed signing or request destroys the stream with exactly that error (the signing error, else the request's error) and leaves the cursor and buffer unchanged. |
| Pagination.EmptyPageEndsStream | src/RegistryEventStream.ts:148-154 | A page without events ends the stream at once, even if it says `hasMore`. |
| Pagination.PopRound | src/RegistryEventStream.ts:147-163 | Against a consumer that never says full, a round on a non-empty buffer pops its last event and pushes it. |
| Pagination.PopThenFlush | src/RegistryEventStream.ts:147 | Popping one event and then flushing the rest emits what flushing the whole buffer emits. |
| Pagination.DrainFlush | src/RegistryEventStream.ts:146-164 | Against a consumer that never says full, a buffer is emptied last-first without fetching, one round per event. |
| Pagination.FetchRoundPopsLast | src/RegistryEventStream.ts:147-163 | The round that fetches a page pushes that page's last event and keeps the rest buffered. |
| Pagination.DrainFetchedPage | src/RegistryEventStream.ts:146-164 | After a fetch, exactly that page is pushed out, last-first, one round per event. |
| Pagination.DrainExhausted | src/RegistryEventStream.ts:174-175 | An empty buffer with no more pages ends the stream in one round. |
| Pagination.ReplayOutcome | src/RegistryEventStream.ts:137-216 | Consuming a well-formed history emits the pages in order, each page last-first. It makes one request per page, ends without error, and leaves nothing buffered. |
| Pagination.DrainHistory | src/RegistryEventStream.ts:137-216 | Given enough rounds, draining a well-formed history reaches exactly the replayed state. |
| Pagination.FreshStreamEmitsHistory | src/RegistryEventStream.ts:102-220 | A new stream drained by a consumer that never says full emits the whole history, pages in order and each page last-first. It makes one request per page and ends without error. |
| Pagination.OnTrackPrefix | src/RegistryEventStream.ts:137-220 | A state on track for a history has emitted a prefix of that history's emission order. |
| Pagination.PopOnTrack | src/RegistryEventStream.ts:147 | Popping the buffer keeps a state on track for the same remaining pages. |
| Pagination.FetchOnTrack | src/RegistryEventStream.ts:148-154 | A round that must fetch consumes exactly the next page and stays on track. |
| Pagination.FetchPageOnTrack | src/RegistryEventStream.ts:148-163 | A fetch of a page with events buffers that page, pushes its last event, and stays on track. |
| Pagination.FetchEmptyPageOnTrack | src/RegistryEventStream.ts:148-154 | A fetch of an empty page ends the stream, which is on track only because that page was the last one. |
| Pagination.PushStepOnTrack | src/RegistryEventStream.ts:146-164 | Every push round, whatever the consumer answers, keeps the state on track. |
| Pagination.DrainOnTrack | src/RegistryEventStream.ts:137-170 | Any number of push rounds, against any consumer, keeps the state resumable and what is emitted a prefix of the history's order. |
| Pagination.AnyConsumerFollowsHistory | src/RegistryEventStream.ts:102-220 | Whatever `push` answers, a new stream over a well-formed history has only ever emitted a prefix of the history in its emission order, is never destroyed, can resume from there, and once it has pushed end-of-stream it has emitted the whole history. |
| Pagination.EndedOnTrackIsComplete | src/RegistryEventStream.ts:148-154 | A stream on track that has pushed end-of-stream has emitted its whole target: back-pressure never ends an export early. |
| Pagination.ResumedStreamCompletes | src/RegistryEventStream.ts:137-216 | A stream on track, read from then on by a consumer that never says full, pushes out the rest of its target in order and ends without being destroyed, given one round per remaining event plus one. |
| Pagination.EmptyBufferCompletes | src/RegistryEventStream.ts:148-216 | The same for a stream on track with an empty buffer: it fetches and pushes out the pages left and ends. |
| Pagination.WellPagedIgnoresPush | src/RegistryEventStream.ts:172-216 | Whether the registry serves a history does not depend on the consumer's answers. |
| Pagination.BackPressureLosesNothing | src/RegistryEventStream.ts:102-220 | However a consumer has answered so far, a new stream that is then read by a consumer that never says full emits the whole history, each page last-first, and ends without being destroyed. |
| NameCaches.UserNameLookup | src/RegistryEventTransformStream.ts:11-36 | A cached user costs no request. A miss costs one request without a session header, and then: a non-2xx answer caches and returns "N/A"; a 2xx answer with a name caches and returns it; a 2xx answer without a name returns undefined and caches nothing; a thrown request returns "N/A" and caches nothing. Existing entries never change. |
| NameCaches.UserNameMemoised | src/RegistryEventTransformStream.ts:16-32 | A user becomes cached exactly when it was cached already, or the lookup answered non-2xx, or answered 2xx with a name. From then on every call returns the same name without a request. |
| NameCaches.RecordNameLookup | src/RegistryEventTransformStream.ts:42-79 | A hit under the record id costs no request. A miss requests the record, with the session header signed for a non-empty user id and none otherwise; then a non-2xx answer or a thrown request gives "N/A" and a 2xx answer gives its name or "N/A", and that name is written under the user id's key. Only that key can be added. A signing failure gives "N/A" with no request and no change. |
| NameCaches.RecordNameNonEmpty | src/RegistryEventTransformStream.ts:67-75 | Record names returned and cached are never empty. |
| NameCaches.RecordNameNotMemoised | src/RegistryEventTransformStream.ts:48-75 | A record whose id is not the user id's key is never cached under its own id, so each call requests it again. |
| NameCaches.NameCaches.constructor | src/RegistryEventTransformStream.ts:7-9 | Both caches start empty. |
| NameCaches.NameCaches.GetUserName | src/RegistryEventTransformStream.ts:11-36 | `getUserName` is exactly `UserNameLookup`, logs its request, and leaves the record cache alone. |
| NameCaches.NameCaches.GetRecordName | src/RegistryEventTransformStream.ts:42-79 | `getRecordName` is exactly `RecordNameLookup`, logs its request, and leaves the user cache alone. |
| RowEnricher.PatchRowsAt | src/RegistryEventTransformStream.ts:163-172 | `PatchRows`: one row per patch operation, in patch order, each built from its operation. |
| RowEnricher.EventRowsShape | src/RegistryEventTransformStream.ts:125-173 | `EventRows`: an event yields one row without a patch and n rows for n operations. All rows share the event's base columns. The summary row has empty patch columns and the payload. Operation rows carry op, path and the coerced value, with an empty JSON Value. |
| RowEnricher.JsonPayloadCases | src/RegistryEventTransformStream.ts:140-148 | `JsonPayload` is empty for the two deletion types. Otherwise it is the serialised truthy aspect, else the serialised `data`. |
| RowEnricher.EnricherConstructionError | src/RegistryEventTransformStream.ts:102-114 | The constructor throws if and only if a URL is empty. The registry URL is checked first. |
| RowEnricher.ReadableHighWaterMark | src/RegistryEventTransformStream.ts:92-94 | The readable high-water mark is the configured one when truthy, else 50. |
| RowEnricher.RegistryEventTransformStream.constructor | src/RegistryEventTransformStream.ts:86-117 | The stream stores both URLs and the user id. The writable mark is twice the readable one. Nothing has been pushed yet. |
| RowEnricher.RegistryEventTransformStream.Create | src/RegistryEventTransformStream.ts:86-117 | The constructor throws exactly the `EnricherConstructionError` message. Otherwise it returns a fresh enricher. |
| RowEnricher.RegistryEventTransformStream.PushPatchRows | src/RegistryEventTransformStream.ts:163-172 | The `forEach` loop pushes exactly the patch rows, in order, and makes no callback. |
| RowEnricher.RegistryEventTransformStream.Transform | src/RegistryEventTransformStream.ts:119-178 | `_transform` looks up the user name, then the record name, through the shared caches as the two lookup functions say. It pushes the event's rows in order and calls back once without error. |
| Secrets.ToUpper | src/utils.ts:37 | Each character is upper-cased in place. |
| Secrets.TrimStart | src/utils.ts:38 | Drops exactly the leading whitespace. |
| Secrets.TrimEnd | src/utils.ts:38 | Drops exactly the trailing whitespace. |
| Secrets.TrimDropsWhitespace | src/utils.ts:38 | `Trim` never grows, its result neither starts nor ends with whitespace, and it is empty exactly when the input is all whitespace. |
| Secrets.TrimIsSlice | src/utils.ts:38 | The trimmed text is the contiguous slice of the input after the leading whitespace. |
| Secrets.TrimNoWhitespace | src/utils.ts:38 | A text without whitespace is its own trim. |
| Secrets.Underscored | src/utils.ts:39 | Same length; each "-" or whitespace character becomes "_" and every other one is kept. |
| Secrets.EnvVarNameShape | src/utils.ts:36-39 | `EnvVarName` is as long as the trimmed, upper-cased key. Each "-" or whitespace character becomes "_", every other character is kept in place, and no "-" or whitespace remains. |
| Secrets.EnvVarNameIdempotent | src/utils.ts:36-39 | Deriving the name of a derived name changes nothing. |
| Secrets.EnvVarNameNoLower | src/utils.ts:36-39 | A derived variable name holds no lower-case ASCII letter. |
| Secrets.JwtSecretEnvVarName | src/utils.ts:36-39 | "jwt-secret" is overridden by `JWT_SECRET`. |
| Secrets.ReadSecretFileForm | src/utils.ts:14-20 | `ReadSecretFile` reads text exactly when asked for text and bytes otherwise, and returns that read's content or its error. |
| Secrets.SecretLookup | src/utils.ts:10-23 | A cached secret is returned without reading. Otherwise the file is read, and on success cached. Existing entries never change. |
| Secrets.LoadSecretValue | src/utils.ts:44-54 | The first use of a secret succeeds exactly when it caches the secret, which is then truthy and answers the key. A failure caches nothing. The file is read exactly when the secret is not cached. |
| Secrets.LoadSecretValueOutcome | src/utils.ts:44-54 | On a value-cache miss the secret cache and the reads are those of `getSecret`. Its error propagates, then a `JSON.parse` error; a falsy parse fails with "Failed to read secret key …"; a truthy one is cached under the secret name and answers the key. |
| Secrets.SecretValueLookup | src/utils.ts:31-56 | A defined environment variable wins. Otherwise a cached secret answers the key, and an uncached one is loaded. |
| Secrets.SecretValueCacheGrows | src/utils.ts:41-54 | Only the requested secret can be added, and only when truthy. Existing entries never change, and failures change no value. A read happens only on a miss in both caches. |
| Secrets.SecretValueMemoised | src/utils.ts:44-54 | Once parsed, a secret answers every later key from the cache, with no read. |
| Secrets.SecretStore.constructor | src/utils.ts:6-8 | Both caches start empty. |
| Secrets.SecretStore.GetSecret | src/utils.ts:10-23 | `getSecret` is exactly `SecretLookup`, logging each file read. |
| Secrets.SecretStore.GetSecretValue | src/utils.ts:31-56 | `getSecretValue` is exactly `SecretValueLookup`, logging each file read. |
| Entry.HandleError | src/index.ts:34-43 | Without a response the error is rethrown. With one, status 200 is sent with "Error: " and the error's text. |
| Entry.SanitizeFilename | src/index.ts:112-115 | Same length. Only digits, ASCII letters and "-" remain. Allowed characters are kept and every other one becomes "-". |
| Entry.SanitizeFilenameIdempotent | src/index.ts:112-115 | Sanitising twice equals sanitising once. A clean name is kept. |
| Entry.ContentDispositionQuoted | src/index.ts:112-115 | `ContentDisposition` is `attachment; filename-"history-`, the sanitised id and `.csv"`. It holds exactly two double quotes, around the file name, so no record id can break out of it. |
| Entry.QueryRecordIdWins | src/index.ts:67-70 | `RecordIdInput`: a truthy `req.query.recordId` replaces the input before validation; otherwise the input is validated as given. |
| Entry.Validate | src/index.ts:67-85 | A non-string record id fails first, then a missing registry URL, then a missing auth URL. Success carries the string id and both non-empty URLs. |
| Entry.UserIdFromRequest | src/index.ts:9-32 | No request, no header function, or a non-empty session header gives no user and no secret read. Otherwise the JWT secret lookup's error propagates and an empty secret fails. Then a `jwt.verify` failure propagates, and its payload's `userId` is returned when non-empty, else no user. |
| Entry.SessionTokenGivesNoUser | src/index.ts:13-16 | A request presenting a session token never yields a user. |
| Entry.NoUserWhenVerifyRejectsMissingToken | src/index.ts:13-31 | If `jwt.verify` rejects a missing or empty token, no request ever yields a user. |
| Entry.GetUserIdFromReq | src/index.ts:9-32 | `getUserIdFromReq` is `UserIdFromRequest`, with the secret store changed only by the lookup it makes. |
| Entry.MyFunction | src/index.ts:61-131 | Validation errors, user errors and the empty-id stream error all go through `HandleError`. A validation error leaves the secret store and its read log unchanged. After validation the secret store is left alone when no secret was looked up, and is otherwise the lookup's caches, with "auth-secrets" logged when read. On success it builds a fresh event stream (page size 50) and an enricher for the same user, and names the download only when there is a response. |

## Left out

- EventStream.RegistryEventStream.PushTillFull: takes a `fuel` bound on loop rounds. A run with enough fuel is the source's loop; endless pushing against a consumer that never says full is not modelled.
- EventStream.RegistryEventStream.Read: carries the same `fuel` bound.
- The second "still empty" check after a successful `fetchMore` cannot fire: a page with events always leaves one to pop. The model keeps no branch for it.
- Node's stream machinery is not modelled: `push(null)` is the `ended` flag, and `destroy(e)` is the recorded `failure`. A destroyed stream is not stopped from further reads.
- Asynchronous interleaving is not modelled. Each call runs to completion. `isPushing` is modelled only as the guard observed by a call that starts while it is set.
- The `catch` around `pushTillFull` and the `callback(e)` path of `_transform` are not modelled: nothing in the modelled bodies throws there.
- HTTP URL building and `encodeURIComponent`: a request is described by its base URL, record id, options and headers.
- `JSON.stringify`, `JSON.parse`, the template-string coercion, `jwt.verify` and `signJwtToken` are oracles. Their internals, bootstrap.ts and getSecret.ts are not part of this model.
- Secrets.ToUpper: upper-cases ASCII letters only. Case mappings that change length (such as "ß") are not modelled.
- Entry.SanitizeFilename: works on characters, not UTF-16 code units.
- Secret file paths: `path.resolve` against the secret directory is not modelled. A file is named by the secret's name.
- HandleError: the `console.log(e)` before the error response is console output and is not modelled.
- The CSV encoder, the `res.set` cache headers other than Content-Disposition, and the piping to the response or stdout are not modelled.
- Object keys colliding with `Object.prototype` properties (such as "constructor") are not modelled: the caches are plain maps.
- `displayName`, `name` and `userId` values that are not strings are not modelled, nor `null` patch entries.
- Property access on a parsed secret that is not an object is modelled as undefined.
- `data.recordId` is a string.
- The initially undefined `pageToken` is modelled as "", which the source treats the same way.
- Page `events` are never `null`, and no entry inside them is falsy: a `null` event would make the `if (!event)` checks fetch again or end the stream while events are still buffered.
- JavaScript numbers (`limit`, `highWaterMark`) are modelled as unbounded integers: fractional, infinite and `NaN` values are not modelled.
