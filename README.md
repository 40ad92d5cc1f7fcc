# Hermes gateway core, modelled in Dafny

Hermes is an inter-service HTTP proxy. A caller-side `HermesClient` sends
versioned GET/POST calls to a gateway controller (`HermesController`). The
gateway forwards each call to a downstream server, logs the round trip, and
may serve GET results from a time-bounded `ResponseEntityCache` instead of
calling downstream again.

This project models three parts:

- **The response cache** (`response_entity_cache.dfy`, module `Cache`). It is a
  class over a `map<CacheKey, CacheValue>`, with these operations:
  - lazy eviction on read (`GetCache`);
  - insert or overwrite (`PutCache`);
  - selective invalidation by body class and condition (`RemoveCache`);
  - clearing (`ClearCache`);
  - the prune sweep (`PruneCache`), a loop over the keys that counts what it removes.

  The clock is an explicit `now` argument.
- **The two gateway controllers**:
  - `gcm_hermes_controller.dfy` models the newer onl.gcm variant. It has
    remote-host resolution, an application map built once from configuration
    properties, and a log sink.
  - `spfb_hermes_controller.dfy` models the earlier brussels.spfb variant.

  Each call runs `Begin`, then either a cache hit or a downstream call, then
  an `End...` method. The downstream call is an `Outcome` value: a response,
  or a caught `RestClientException` with its class name, message and optional
  status and headers. `ProcessGet` also returns whether downstream was called.
  The onl.gcm log sink is a sequence of `LogEntry` objects. Each call appends
  exactly one entry, and it is a fresh one.
- **The client helpers**:
  - `gcm_hermes_client.dfy` holds the escaping of exception messages for a
    header line, the relayed-message extraction, the versioned request entity
    and the liveness checks.
  - `spfb_hermes_client.dfy` holds the same helpers for the earlier variant.

`http.dfy` holds the shared value types: responses, headers, errors and
outcomes. It also defines the status string that the log records, which is
`HttpStatus.toString()`.

Notes on the code:

- The onl.gcm controller imports `onl.gcm.hermes.server.ResponseEntityCache`,
  which is not part of this model. Both controllers use the brussels.spfb
  `ResponseEntityCache`, which has the same API.
- Both controllers catch `RestClientException`, so Java overload resolution
  always picks `end(LogEntry, RestClientException)`. On failure the log
  therefore records the exception's class name and never a status code. The
  `HttpStatusCodeException` overload is modelled, but nothing calls it.
- In the onl.gcm variant, `fail` puts the escaped `e.getMessage()` in the
  header, not `getErrorMessage(e)`. A message relayed from a further hop is
  therefore logged by `end`, but it is not forwarded in the envelope. The
  brussels.spfb variant forwards `getErrorMessage(e)` unescaped, so there a
  message free of line breaks and other control characters crosses any number
  of gateways (`SpfbHermesController.FailureEnvelopeRelaysMessage`). A message
  with a line break cannot travel intact on a header line; the model treats
  header values as opaque strings, so it does not show that.
- The brussels.spfb `begin` has one warning, which also covers a missing
  version header. The onl.gcm `begin` tells "no version sent" apart from
  "mismatch".

## Model

| member | source | states |
|---|---|---|
| `Cache.ResponseEntityCache.constructor` | hermes-server/src/main/java/brussels/spfb/hermes/server/ResponseEntityCache.java:70-75 | the cache starts empty with the given name, lifetime and prune delay |
| `Cache.ResponseEntityCache.Named` | hermes-server/src/main/java/brussels/spfb/hermes/server/ResponseEntityCache.java:66-68 | the one-argument constructor uses the one-hour default lifetime and prune delay |
| `Cache.ResponseEntityCache.SetLifetime` | hermes-server/src/main/java/brussels/spfb/hermes/server/ResponseEntityCache.java:81-83 | the lifetime becomes the argument |
| `Cache.ResponseEntityCache.SetPruneDelay` | hermes-server/src/main/java/brussels/spfb/hermes/server/ResponseEntityCache.java:89-92 | the prune delay becomes the argument |
| `Cache.ResponseEntityCache.GetCache` | hermes-server/src/main/java/brussels/spfb/hermes/server/ResponseEntityCache.java:95-111 | absent key: null, map unchanged; lifetime -1 or age <= lifetime: the stored response, map unchanged (age equal to the lifetime still hits); age > finite lifetime: null and exactly that key removed |
| `Cache.ResponseEntityCache.PutCache` | hermes-server/src/main/java/brussels/spfb/hermes/server/ResponseEntityCache.java:113-117 | the key maps to (now, response), overwriting; every other key unchanged |
| `Cache.ResponseEntityCache.RemoveCache` | hermes-server/src/main/java/brussels/spfb/hermes/server/ResponseEntityCache.java:120-131 | afterwards the map holds exactly the entries whose body class differs from the type or that fail the condition, with their values |
| `Cache.ResponseEntityCache.ClearCache` | hermes-server/src/main/java/brussels/spfb/hermes/server/ResponseEntityCache.java:133-135 | the map is empty |
| `Cache.ResponseEntityCache.PruneCache` | hermes-server/src/main/java/brussels/spfb/hermes/server/ResponseEntityCache.java:156-175 | the map becomes its unexpired part and the count is the number of expired keys; with lifetime -1 nothing changes and the count is 0 |
| `Cache.PutThenGet` | hermes-server/src/main/java/brussels/spfb/hermes/server/ResponseEntityCache.java:100-117 | a stored response is read back unchanged while its age stays within the lifetime (or the lifetime is infinite), and the read removes nothing |
| `Cache.PutThenExpire` | hermes-server/src/main/java/brussels/spfb/hermes/server/ResponseEntityCache.java:100-103 | once the age exceeds a finite lifetime, the read misses and removes exactly that key |
| `Cache.PutIsolatesOtherKeys` | hermes-server/src/main/java/brussels/spfb/hermes/server/ResponseEntityCache.java:22-32 | a key that differs in url, type or any URI variable or their order is unaffected by a store |
| `Cache.BoxedClassSeparatesKeys` | hermes-server/src/main/java/brussels/spfb/hermes/server/ResponseEntityCache.java:22-32 | a response stored under an Integer URI variable is not found under a Long of the same value |
| `Cache.InfiniteLifetimePrunesNothing` | hermes-server/src/main/java/brussels/spfb/hermes/server/ResponseEntityCache.java:157-159 | with lifetime -1 the sweep keeps the map, removes no key, and every stored entry is readable |
| `Cache.PrunedKeepsExactlyFresh` | hermes-server/src/main/java/brussels/spfb/hermes/server/ResponseEntityCache.java:164-172 | after a sweep no entry has age > lifetime; every entry with age <= lifetime is kept with its value; the kept keys are the old keys minus the expired ones |
| `Cache.PruneCountIsRemoved` | hermes-server/src/main/java/brussels/spfb/hermes/server/ResponseEntityCache.java:163-171 | the reported count equals the old size minus the new size |
| `Cache.UnmatchedKeepsExactlyOthers` | hermes-server/src/main/java/brussels/spfb/hermes/server/ResponseEntityCache.java:121-130 | an entry survives removeCache iff it does not match, and a survivor keeps its value |
| `Http.StatusStringNamesCode` | hermes-server/src/main/java/onl/gcm/hermes/controller/HermesController.java:158 | the status string written to the log starts with the decimal code, which reads back as the code |
| `LogEntries.LogEntry.constructor` | hermes-server/src/main/java/onl/gcm/hermes/db/model/LogEntry.java:27-48 | a new entry carries its creation time and null, false or zero in every other field |
| `GcmHermesClient.Escape` | hermes-client/src/main/java/onl/gcm/hermes/client/HermesClient.java:117 | one replaceAll: the length grows by the number of replaced characters, the replaced character is gone, other characters keep their counts, and it is the identity when the character is absent |
| `GcmHermesClient.EncodeExceptionMessage` | hermes-client/src/main/java/onl/gcm/hermes/client/HermesClient.java:114-118 | the result has no newline and no tab; its length is the input length plus the number of newlines and tabs; it is the identity on text with neither |
| `GcmHermesClient.EncodeIsCharwise` | hermes-client/src/main/java/onl/gcm/hermes/client/HermesClient.java:117 | the chained replaceAll equals the character-by-character escape: newline to `\n`, tab to `\t`, every other character copied in order |
| `GcmHermesClient.EncodeIsIdempotent` | hermes-client/src/main/java/onl/gcm/hermes/client/HermesClient.java:117 | encoding an encoded message changes nothing |
| `GcmHermesClient.GetErrorMessage` | hermes-client/src/main/java/onl/gcm/hermes/client/HermesClient.java:123-135 | the first `Exception.message` header value of a response exception that carries one; otherwise (transport error, null headers, header absent) the exception's own message |
| `GcmHermesClient.CreateRequestEntity` | hermes-client/src/main/java/onl/gcm/hermes/client/HermesClient.java:197-201 | a null body and exactly one header, `HermesClient.version`, whose first value is the version |
| `GcmHermesClient.IsAlive` | hermes-client/src/main/java/onl/gcm/hermes/client/HermesClient.java:150-157 | false exactly when the GET of the alive URL throws |
| `GcmHermesClient.IsHermesServerAlive` | hermes-client/src/main/java/onl/gcm/hermes/client/HermesClient.java:141-148 | false exactly when the GET of the gateway's alive URL throws |
| `SpfbHermesClient.GetErrorMessage` | hermes-client/src/main/java/brussels/spfb/hermes/client/HermesClient.java:46-59 | the first `RestClientResponseException` header value of a response exception that carries it; otherwise the exception's own message |
| `SpfbHermesClient.AddIfAbsent` | hermes-client/src/main/java/brussels/spfb/hermes/client/HermesClient.java:102 | the header is present afterwards; an existing header keeps its values; a new one gets the single value |
| `SpfbHermesClient.CreateRequestEntity` | hermes-client/src/main/java/brussels/spfb/hermes/client/HermesClient.java:100-104 | a null body and exactly one header, `version`, whose first value is the version |
| `SpfbHermesClient.IsAlive` | hermes-client/src/main/java/brussels/spfb/hermes/client/HermesClient.java:70-77 | false exactly when the GET of the alive URL throws |
| `SpfbHermesClient.IsHermesAlive` | hermes-client/src/main/java/brussels/spfb/hermes/client/HermesClient.java:61-68 | false exactly when the GET of the gateway's alive URL throws |
| `GcmHermesController.CheckVersion` | hermes-server/src/main/java/onl/gcm/hermes/controller/HermesController.java:101-109 | exactly one outcome: no warning iff the header equals the gateway version; "no version sent" iff the header is null; mismatch iff it is present and different |
| `GcmHermesController.GetResponseStatus` | hermes-server/src/main/java/onl/gcm/hermes/controller/HermesController.java:237-244 | the raw status of a response exception, otherwise 500 |
| `GcmHermesController.Fail` | hermes-server/src/main/java/onl/gcm/hermes/controller/HermesController.java:182-186 | the envelope has that status and no body, and its only header is `Exception.message` holding the escaped message, free of newline and tab |
| `GcmHermesController.HermesController.constructor` | hermes-server/src/main/java/onl/gcm/hermes/controller/HermesController.java:246-249 | a fresh empty cache with the configured lifetime and prune delay; no application map yet; an empty sink |
| `GcmHermesController.HermesController.SetCacheLifetime` | hermes-server/src/main/java/onl/gcm/hermes/controller/HermesController.java:75-77 | the cache lifetime becomes the argument |
| `GcmHermesController.HermesController.SetCachePruneDelay` | hermes-server/src/main/java/onl/gcm/hermes/controller/HermesController.java:79-81 | the cache prune delay becomes the argument |
| `GcmHermesController.HermesController.BuildApplicationMap` | hermes-server/src/main/java/onl/gcm/hermes/controller/HermesController.java:204-222 | an existing map is kept; otherwise every host of a parsable `.server.url` property is mapped, each mapped host holds the `.name` property of a key with that host, and malformed URLs are skipped |
| `GcmHermesController.HermesController.GetRemoteApplication` | hermes-server/src/main/java/onl/gcm/hermes/controller/HermesController.java:188-191 | builds the map once, then looks up the host, reading 127.0.0.1 as localhost |
| `GcmHermesController.HermesController.Begin` | hermes-server/src/main/java/onl/gcm/hermes/controller/HermesController.java:83-112 | a fresh entry records the remote host, the application, the path, the url and both versions; the warning is the version check naming the application if known, else the host |
| `GcmHermesController.HermesController.EndWithResponse` | hermes-server/src/main/java/onl/gcm/hermes/controller/HermesController.java:156-162 | duration = now - creation time and the status string of the response; nothing else changes |
| `GcmHermesController.HermesController.EndWithStatusCodeException` | hermes-server/src/main/java/onl/gcm/hermes/controller/HermesController.java:164-171 | duration, the exception's status string and its relayed message |
| `GcmHermesController.HermesController.EndWithException` | hermes-server/src/main/java/onl/gcm/hermes/controller/HermesController.java:173-180 | duration, the exception's class name and its relayed message |
| `GcmHermesController.HermesController.ProcessGet` | hermes-server/src/main/java/onl/gcm/hermes/controller/HermesController.java:114-137 | a cacheable hit: no downstream call, entry marked cached, the cached response. A miss or non-cacheable call uses downstream: a success is returned and stored iff cacheable; a failure returns `fail(e)` and is never stored. One fresh entry is appended to the sink |
| `GcmHermesController.HermesController.ProcessPost` | hermes-server/src/main/java/onl/gcm/hermes/controller/HermesController.java:139-154 | always calls downstream, never touches the cache, returns the response or `fail(e)`, and appends one fresh finished entry to the sink |
| `GcmHermesController.RequestEntityVersionIsChecked` | hermes-server/src/main/java/onl/gcm/hermes/controller/HermesController.java:89-109 | the version header the client's request entity carries gives no warning iff the versions agree, and a mismatch (never "no version sent") otherwise |
| `GcmHermesController.FailureEnvelopeRelaysMessage` | hermes-server/src/main/java/onl/gcm/hermes/controller/HermesController.java:182-186 | a caller that receives the envelope as a response exception reads back the escaped downstream message |
| `GcmHermesController.RepeatedGetIsServedFromCache` | hermes-server/src/main/java/onl/gcm/hermes/controller/HermesController.java:118-133 | a second cacheable GET of the same key within the lifetime makes no downstream call, returns the first response, and is logged as cached |
| `GcmHermesController.FailedGetIsRetried` | hermes-server/src/main/java/onl/gcm/hermes/controller/HermesController.java:119-129 | a failed cacheable GET of an uncached key calls downstream and returns `fail(e)`; the next GET calls downstream again and returns its response or `fail(e)`; the key is cached afterwards iff that call succeeds; both entries are logged as not cached |
| `SpfbHermesController.CheckVersion` | hermes-server/src/main/java/brussels/spfb/hermes/controller/HermesController.java:59-63 | a single warning iff the header differs from the gateway version, a missing header included |
| `SpfbHermesController.Fail` | hermes-server/src/main/java/brussels/spfb/hermes/controller/HermesController.java:132-135 | always 500, no body, and the only header is `RestClientResponseException` holding the unescaped relayed message |
| `SpfbHermesController.HermesController.constructor` | hermes-server/src/main/java/brussels/spfb/hermes/controller/HermesController.java:30 | a fresh empty cache with the default lifetime and prune delay |
| `SpfbHermesController.HermesController.SetCacheLifetime` | hermes-server/src/main/java/brussels/spfb/hermes/controller/HermesController.java:38-40 | the cache lifetime becomes the argument |
| `SpfbHermesController.HermesController.SetCachePruneDelay` | hermes-server/src/main/java/brussels/spfb/hermes/controller/HermesController.java:42-44 | the cache prune delay becomes the argument |
| `SpfbHermesController.HermesController.Begin` | hermes-server/src/main/java/brussels/spfb/hermes/controller/HermesController.java:47-65 | a fresh entry records the path, the url and both versions; the warning is the single-message version check |
| `SpfbHermesController.HermesController.EndWithResponse` | hermes-server/src/main/java/brussels/spfb/hermes/controller/HermesController.java:103-110 | duration = now - creation time and the status string of the response |
| `SpfbHermesController.HermesController.EndWithStatusCodeException` | hermes-server/src/main/java/brussels/spfb/hermes/controller/HermesController.java:112-120 | duration, the exception's status string and its relayed message |
| `SpfbHermesController.HermesController.EndWithException` | hermes-server/src/main/java/brussels/spfb/hermes/controller/HermesController.java:122-130 | duration, the exception's class name and its relayed message |
| `SpfbHermesController.HermesController.ProcessGet` | hermes-server/src/main/java/brussels/spfb/hermes/controller/HermesController.java:67-87 | a cacheable hit skips downstream and marks the entry cached; on a miss a success is stored iff cacheable; a failure returns `fail(e)` and is never stored |
| `SpfbHermesController.HermesController.ProcessPost` | hermes-server/src/main/java/brussels/spfb/hermes/controller/HermesController.java:89-101 | always calls downstream, cannot touch the cache, returns the response or `fail(e)` |
| `SpfbHermesController.FailureEnvelopeRelaysMessage` | hermes-server/src/main/java/brussels/spfb/hermes/controller/HermesController.java:132-135 | a caller that receives the envelope reads back exactly the message the gateway relayed; with header values carried unchanged (true on the wire only for messages without line breaks or control characters), the message survives every hop |
| `SpfbHermesController.RequestEntityVersionIsChecked` | hermes-server/src/main/java/brussels/spfb/hermes/controller/HermesController.java:51-63 | the client's `version` header gives no warning iff the versions agree |

## Left out

- Cache.ResponseEntityCache.RemoveCache: requires every stored response to have a body. Line 126 dereferences `getBody()`, so a stored bodiless response makes the Java method throw `NullPointerException` partway through an unordered iteration. That error path is not modelled.
- The prune timer is not modelled: `startAutomaticPrune`, the `Timer`/`TimerTask`, and the timer restart in `setPruneDelay`. `PruneCache` is an ordinary method, and `pruneDelay` is only a stored field.
- Concurrency is not modelled. Every operation runs alone, so `ConcurrentHashMap` atomicity and races between requests do not arise.
- The clock is an explicit argument. `pruneCache` reads the clock once per entry; the model uses a single `now` for the whole sweep.
- Timestamps, ages, lifetimes and durations are unbounded integers. Java `long` overflow is not modelled.
- Logging is not modelled: the `MessageFormat` patterns and the logger calls. The version warning is returned as a `VersionWarning` value, and the sweep's count is returned. Route and completion trace lines are not represented.
- The HTTP transport is not modelled: `RestTemplate`, `getForEntity`/`postForEntity`/`exchange`, request factories, timeouts and their setters. A downstream call is an `Outcome` input.
- DNS and the Spring environment are inputs. `resolveHost` becomes `RequestContext.resolvedHost`, `getAllProperties` becomes a property map, and `new URL(...).getHost()` becomes a function that returns None for a malformed URL.
- The application map is a field of each controller. In Java it is a static field shared by all instances.
- `HermesClient.initialize`, `getAllFields` and both `SpringUtils` classes are left out. They are reflection and framework plumbing.
- Persistence is reduced to appending to the `sink` sequence: `LogEntryServiceImpl`, `LogEntryRepository`, and the entry's database `id`.
- The brussels.spfb `LogEntry` class is not part of this model. The onl.gcm `LogEntry`, which has the same fields, stands in for it.
- Header values travel between hops as opaque strings. A line break or other control character in a value is carried unchanged, although it could not travel intact on a real header line.
- SpfbHermesController.FailureEnvelopeRelaysMessage: holds for any message in the model; on the wire it holds only for messages without line breaks or control characters, because the brussels.spfb `fail` does not escape them.
- SpfbHermesClient.GetErrorMessage: a present header always has at least one value, as for headers received off the wire. A header holding an empty list, which `HttpHeaders.put` can create, would make `get(0)` throw `IndexOutOfBoundsException`; that path is not modelled.
- URI variables are strings or boxed numbers that keep their class. Other argument types, and their `equals`, are not modelled.
- Header names match exactly. Spring's `HttpHeaders` compares them case-insensitively.
- Exception messages and the gateway's own client version are never null. A null message would make `encodeExceptionMessage` throw, and a null gateway version would make `begin` throw.
- The status string knows the `HttpStatus` constant names only for the codes listed in `Http.StatusName`. Other codes get an empty name, where Spring throws for codes it does not define.
- Java generics and `Class` tokens are not modelled. A response type is a class-name string, and a numeric URI variable is its value together with its boxed class name.
- The getters `getLifetime`, `getPruneDelay`, `getVersion` and `getHermesServerUrl` are not modelled as members. The model reads the corresponding fields directly.
