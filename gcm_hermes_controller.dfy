/**
 * The onl.gcm gateway controller: each proxied call runs `begin` (build the
 * log entry, classify the caller's client version), then a cache hit or a
 * downstream call, then `end` (duration, status, error message), and hands
 * the finished log entry to the log sink once. The servlet request, DNS,
 * the Spring environment and the HTTP transport are inputs.
 */
module GcmHermesController {
  import opened Http
  import opened Cache
  import opened LogEntries
  import Client = GcmHermesClient

  const SERVER_URL_SUFFIX: string := ".server.url"
  const NAME_SUFFIX: string := ".name"
  const LOCALHOST_ADDRESS: string := "127.0.0.1"
  const LOCALHOST_HOST: string := "localhost"

  /**
   * What `begin` reads from the servlet request: the remote host, its name as
   * DNS resolves it (the host itself when unknown), the request path and the
   * `HermesClient.version` header, null when the caller sent none.
   */
  datatype RequestContext = RequestContext(remoteHost: string, resolvedHost: string, path: string, versionHeader: Option<string>)

  /** The warning `begin` logs about the caller's client version, if any. */
  datatype VersionWarning =
    | NoWarning
    | UnknownClient(caller: string)
    | VersionMismatch(caller: string, requested: string, current: string)

  /** The version comparison of `begin`: equal, not sent, or different. */
  function CheckVersion(caller: string, current: string, requested: Option<string>): (w: VersionWarning)
    ensures w.NoWarning? <==> requested == Some(current)
    ensures w.UnknownClient? <==> requested == None
    ensures w.VersionMismatch? <==> requested.Some? && requested.value != current
    ensures w.UnknownClient? ==> w.caller == caller
    ensures w.VersionMismatch? ==> w == VersionMismatch(caller, requested.value, current)
  {
    if requested == Some(current) then NoWarning
    else if requested.None? then UnknownClient(caller)
    else VersionMismatch(caller, requested.value, current)
  }

  /** The caller named in the trace lines: the application when known, else the remote host. */
  function Caller(remoteHost: string, remoteApplication: Option<string>): string
  {
    if remoteApplication.None? then remoteHost else remoteApplication.value
  }

  predicate EndsWith(s: string, suffix: string) {
    |suffix| <= |s| && s[|s| - |suffix|..] == suffix
  }

  /** Properties.get: null when the key is absent. */
  function PropertyOrNull(properties: map<string, string>, key: string): Option<string> {
    if key in properties then Some(properties[key]) else None
  }

  /** A property naming a server URL that parses: it contributes one host to the application map. */
  predicate IsServerUrlKey(properties: map<string, string>, urlHost: string -> Option<string>, key: string) {
    key in properties && EndsWith(key, SERVER_URL_SUFFIX) && urlHost(properties[key]).Some?
  }

  /**
   * `apps` is what the build leaves after visiting the keys `visited`: every
   * parsed server URL's host is mapped, and each mapped host holds the
   * `.name` property of some key with that host (which one, when several
   * share a host, depends on the iteration order).
   */
  ghost predicate ApplicationMapOf(apps: map<string, Option<string>>, properties: map<string, string>,
                                   urlHost: string -> Option<string>, visited: set<string>)
  {
    && (forall k :: k in visited && IsServerUrlKey(properties, urlHost, k) ==> urlHost(properties[k]).value in apps)
    && (forall h :: h in apps ==>
          exists k :: k in visited && IsServerUrlKey(properties, urlHost, k) && urlHost(properties[k]).value == h
                      && apps[h] == PropertyOrNull(properties, k + NAME_SUFFIX))
  }

  /** The lookup of getRemoteApplication, 127.0.0.1 read as localhost. */
  function RemoteApplication(apps: map<string, Option<string>>, host: string): Option<string> {
    var key := if host == LOCALHOST_ADDRESS then LOCALHOST_HOST else host;
    if key in apps then apps[key] else None
  }

  /** getResponseStatus: the raw status of a response exception, otherwise 500. */
  function GetResponseStatus(e: ClientError): (status: nat)
    ensures e.kind.ResponseError? ==> status == e.kind.rawStatus
    ensures e.kind.Transport? ==> status == INTERNAL_SERVER_ERROR
  {
    match e.kind
    case ResponseError(raw, _) => raw
    case Transport => INTERNAL_SERVER_ERROR
  }

  /**
   * fail: the failure envelope. No body; the exception's own message,
   * escaped, travels in the `Exception.message` header.
   */
  function Fail(e: ClientError): (r: Response)
    ensures r.status == GetResponseStatus(e)
    ensures r.body == None
    ensures r.headers.Keys == {Client.EXCEPTION_MESSAGE_HEADER}
    ensures r.headers[Client.EXCEPTION_MESSAGE_HEADER] == [Client.EncodeExceptionMessage(e.message)]
    ensures var m := r.headers[Client.EXCEPTION_MESSAGE_HEADER][0]; '\n' !in m && '\t' !in m
  {
    var headers: Headers := map[];
    Response(GetResponseStatus(e), None, headers[Client.EXCEPTION_MESSAGE_HEADER := [Client.EncodeExceptionMessage(e.message)]])
  }

  /** The fields `begin` records on a new entry. */
  ghost predicate RecordsRequest(entry: LogEntry, url: string, request: RequestContext, now: int,
                                 clientVersion: string, apps: map<string, Option<string>>)
    reads entry
  {
    && entry.date == now
    && entry.remoteHost == Some(request.remoteHost)
    && entry.remoteApplication == RemoteApplication(apps, request.resolvedHost)
    && entry.requestUrl == Some(request.path)
    && entry.applicationUrl == Some(url)
    && entry.requestClientVersion == request.versionHeader
    && entry.clientVersion == Some(clientVersion)
  }

  class HermesController {
    const cache: ResponseEntityCache
    /** hermesClient.getVersion(): the gateway's own client version. */
    const clientVersion: string
    /** The Spring environment's properties, read when the application map is built. */
    const properties: map<string, string>
    /** The host of a URL, None when `new URL(...)` throws MalformedURLException. */
    const urlHost: string -> Option<string>
    /** The host-to-application map, null until first built. */
    var applications: Option<map<string, Option<string>>>
    /** The log sink: every entry handed to logEntryService.create, in order. */
    var sink: seq<LogEntry>

    /** Construction and init(): a cache named after the class with the configured defaults. */
    constructor (name: string, clientVersion: string, properties: map<string, string>, urlHost: string -> Option<string>,
                 defaultCacheLifetime: int, defaultCachePruneDelay: int)
      ensures fresh(cache) && cache.name == name && cache.cache == map[]
      ensures cache.lifetime == defaultCacheLifetime && cache.pruneDelay == defaultCachePruneDelay
      ensures this.clientVersion == clientVersion && this.properties == properties && this.urlHost == urlHost
      ensures applications == None && sink == []
    {
      this.clientVersion := clientVersion;
      this.properties := properties;
      this.urlHost := urlHost;
      applications := None;
      sink := [];
      cache := new ResponseEntityCache(name, defaultCacheLifetime, defaultCachePruneDelay);
    }

    method SetCacheLifetime(lifetime: int)
      modifies cache`lifetime
      ensures cache.lifetime == lifetime
    {
      cache.SetLifetime(lifetime);
    }

    method SetCachePruneDelay(pruneDelay: int)
      modifies cache`pruneDelay
      ensures cache.pruneDelay == pruneDelay
    {
      cache.SetPruneDelay(pruneDelay);
    }

    /** buildApplicationMap: built once, from every `.server.url` property whose value parses. */
    method BuildApplicationMap()
      modifies this`applications
      ensures old(applications).Some? ==> applications == old(applications)
      ensures applications.Some?
      ensures old(applications).None? ==> ApplicationMapOf(applications.value, properties, urlHost, properties.Keys)
    {
      if applications.Some? {
        return;
      }
      var apps: map<string, Option<string>> := map[];
      var pending := properties.Keys;
      while pending != {}
        invariant pending <= properties.Keys
        invariant ApplicationMapOf(apps, properties, urlHost, properties.Keys - pending)
        decreases pending
      {
        var key :| key in pending;
        if EndsWith(key, SERVER_URL_SUFFIX) {
          match urlHost(properties[key]) {
            case Some(host) =>
              apps := apps[host := PropertyOrNull(properties, key + NAME_SUFFIX)];
            case None =>
          }
        }
        pending := pending - {key};
      }
      applications := Some(apps);
    }

    method GetRemoteApplication(remoteHost: string) returns (application: Option<string>)
      modifies this`applications
      ensures old(applications).Some? ==> applications == old(applications)
      ensures applications.Some?
      ensures old(applications).None? ==> ApplicationMapOf(applications.value, properties, urlHost, properties.Keys)
      ensures application == RemoteApplication(applications.value, remoteHost)
    {
      BuildApplicationMap();
      var key := if remoteHost == LOCALHOST_ADDRESS then LOCALHOST_HOST else remoteHost;
      application := if key in applications.value then applications.value[key] else None;
    }

    method Begin(url: string, request: RequestContext, now: int) returns (entry: LogEntry, warning: VersionWarning)
      modifies this`applications
      ensures old(applications).Some? ==> applications == old(applications)
      ensures applications.Some?
      ensures old(applications).None? ==> ApplicationMapOf(applications.value, properties, urlHost, properties.Keys)
      ensures fresh(entry)
      ensures RecordsRequest(entry, url, request, now, clientVersion, applications.value)
      ensures !entry.cached && entry.responseStatus == None && entry.errorMessage == None && entry.duration == 0
      ensures warning == CheckVersion(Caller(request.remoteHost, entry.remoteApplication), clientVersion, request.versionHeader)
    {
      entry := new LogEntry(now);
      var remoteApplication := GetRemoteApplication(request.resolvedHost);
      entry.remoteHost := Some(request.remoteHost);
      entry.remoteApplication := remoteApplication;
      entry.requestUrl := Some(request.path);
      entry.applicationUrl := Some(url);
      entry.requestClientVersion := request.versionHeader;
      entry.clientVersion := Some(clientVersion);
      var host := if remoteApplication.None? then request.remoteHost else remoteApplication.value;
      warning := NoWarning;
      if request.versionHeader != Some(clientVersion) {
        if request.versionHeader.None? {
          warning := UnknownClient(host);
        } else {
          warning := VersionMismatch(host, request.versionHeader.value, clientVersion);
        }
      }
    }

    /** end(LogEntry, ResponseEntity): duration and the status string. */
    method EndWithResponse(entry: LogEntry, response: Response, now: int)
      modifies entry
      ensures entry.duration == now - entry.date
      ensures entry.responseStatus == Some(StatusString(response.status))
      ensures entry.errorMessage == old(entry.errorMessage) && entry.cached == old(entry.cached)
      ensures entry.remoteHost == old(entry.remoteHost) && entry.remoteApplication == old(entry.remoteApplication)
      ensures entry.requestUrl == old(entry.requestUrl) && entry.applicationUrl == old(entry.applicationUrl)
      ensures entry.requestClientVersion == old(entry.requestClientVersion) && entry.clientVersion == old(entry.clientVersion)
    {
      entry.duration := now - entry.date;
      entry.responseStatus := Some(StatusString(response.status));
    }

    /**
     * end(LogEntry, HttpStatusCodeException): the exception's status string and
     * relayed message. The pipeline never selects this overload: its catch
     * blocks hold a RestClientException.
     */
    method EndWithStatusCodeException(entry: LogEntry, e: ClientError, now: int)
      requires e.kind.ResponseError?
      modifies entry
      ensures entry.duration == now - entry.date
      ensures entry.responseStatus == Some(StatusString(e.kind.rawStatus))
      ensures entry.errorMessage == Some(Client.GetErrorMessage(e)) && entry.cached == old(entry.cached)
      ensures entry.remoteHost == old(entry.remoteHost) && entry.remoteApplication == old(entry.remoteApplication)
      ensures entry.requestUrl == old(entry.requestUrl) && entry.applicationUrl == old(entry.applicationUrl)
      ensures entry.requestClientVersion == old(entry.requestClientVersion) && entry.clientVersion == old(entry.clientVersion)
    {
      entry.duration := now - entry.date;
      entry.responseStatus := Some(StatusString(e.kind.rawStatus));
      entry.errorMessage := Some(Client.GetErrorMessage(e));
    }

    /** end(LogEntry, RestClientException): the exception's class name and relayed message. */
    method EndWithException(entry: LogEntry, e: ClientError, now: int)
      modifies entry
      ensures entry.duration == now - entry.date
      ensures entry.responseStatus == Some(e.className)
      ensures entry.errorMessage == Some(Client.GetErrorMessage(e)) && entry.cached == old(entry.cached)
      ensures entry.remoteHost == old(entry.remoteHost) && entry.remoteApplication == old(entry.remoteApplication)
      ensures entry.requestUrl == old(entry.requestUrl) && entry.applicationUrl == old(entry.applicationUrl)
      ensures entry.requestClientVersion == old(entry.requestClientVersion) && entry.clientVersion == old(entry.clientVersion)
    {
      entry.duration := now - entry.date;
      entry.responseStatus := Some(e.className);
      entry.errorMessage := Some(Client.GetErrorMessage(e));
    }

    /**
     * processGet. `downstream` is what getForEntity would do if called;
     * `called` says whether it was called. The entry appended to the sink is
     * the one this call built.
     */
    method ProcessGet(cacheable: bool, url: string, responseType: TypeTag, uriVariables: seq<UriVariable>,
                      request: RequestContext, downstream: Outcome, clock: Timing)
      returns (response: Response, called: bool)
      modifies this`applications, this`sink, cache`cache
      ensures old(applications).Some? ==> applications == old(applications)
      ensures applications.Some?
      ensures old(applications).None? ==> ApplicationMapOf(applications.value, properties, urlHost, properties.Keys)
      ensures |sink| == |old(sink)| + 1 && sink[..|old(sink)|] == old(sink) && fresh(sink[|old(sink)|])
      ensures var entry := sink[|old(sink)|];
        && RecordsRequest(entry, url, request, clock.begin, clientVersion, applications.value)
        && entry.duration == clock.end - clock.begin
      ensures var key := CacheKey(url, responseType, uriVariables);
        var hit := if cacheable then Lookup(old(cache.cache), cache.lifetime, key, clock.lookup) else None;
        var looked := if cacheable then AfterLookup(old(cache.cache), cache.lifetime, key, clock.lookup) else old(cache.cache);
        var entry := sink[|old(sink)|];
        && called == hit.None?
        && entry.cached == hit.Some?
        && (hit.Some? ==>
              && response == hit.value
              && cache.cache == looked
              && entry.responseStatus == Some(StatusString(response.status))
              && entry.errorMessage == None)
        && (hit.None? && downstream.Success? ==>
              && response == downstream.response
              && cache.cache == (if cacheable then looked[key := CacheValue(clock.store, response)] else looked)
              && entry.responseStatus == Some(StatusString(response.status))
              && entry.errorMessage == None)
        && (hit.None? && downstream.Failure? ==>
              && response == Fail(downstream.error)
              && cache.cache == looked
              && entry.responseStatus == Some(downstream.error.className)
              && entry.errorMessage == Some(Client.GetErrorMessage(downstream.error)))
    {
      var entry, _ := Begin(url, request, clock.begin);
      var cachedResponse := None;
      if cacheable {
        cachedResponse := cache.GetCache(clock.lookup, url, responseType, uriVariables);
      }
      if cachedResponse.None? {
        called := true;
        match downstream {
          case Success(r) =>
            response := r;
            if cacheable {
              cache.PutCache(clock.store, url, responseType, response, uriVariables);
            }
            EndWithResponse(entry, response, clock.end);
          case Failure(e) =>
            response := Fail(e);
            EndWithException(entry, e, clock.end);
        }
      } else {
        called := false;
        response := cachedResponse.value;
        entry.cached := true;
        EndWithResponse(entry, response, clock.end);
      }
      sink := sink + [entry];
    }

    /** processPost: always calls downstream and never reads or writes the cache. */
    method ProcessPost(url: string, body: Body, responseType: TypeTag, uriVariables: seq<UriVariable>,
                       request: RequestContext, downstream: Outcome, clock: Timing)
      returns (response: Response)
      modifies this`applications, this`sink
      ensures old(applications).Some? ==> applications == old(applications)
      ensures applications.Some?
      ensures old(applications).None? ==> ApplicationMapOf(applications.value, properties, urlHost, properties.Keys)
      ensures |sink| == |old(sink)| + 1 && sink[..|old(sink)|] == old(sink) && fresh(sink[|old(sink)|])
      ensures var entry := sink[|old(sink)|];
        && RecordsRequest(entry, url, request, clock.begin, clientVersion, applications.value)
        && entry.duration == clock.end - clock.begin
        && !entry.cached
        && (downstream.Success? ==>
              && response == downstream.response
              && entry.responseStatus == Some(StatusString(response.status))
              && entry.errorMessage == None)
        && (downstream.Failure? ==>
              && response == Fail(downstream.error)
              && entry.responseStatus == Some(downstream.error.className)
              && entry.errorMessage == Some(Client.GetErrorMessage(downstream.error)))
    {
      var entry, _ := Begin(url, request, clock.begin);
      match downstream {
        case Success(r) =>
          response := r;
          EndWithResponse(entry, response, clock.end);
        case Failure(e) =>
          response := Fail(e);
          EndWithException(entry, e, clock.end);
      }
      sink := sink + [entry];
    }
  }

  // Properties that relate the gateway to its client and to itself across calls.

  /**
   * A client that reaches the gateway through createRequestEntity sends its
   * version in the header `begin` reads: no warning when the versions agree,
   * a mismatch (never "no version sent") when they differ.
   */
  lemma RequestEntityVersionIsChecked(caller: string, callerVersion: string, gatewayVersion: string)
    ensures var sent := FirstHeaderValue(Some(Client.CreateRequestEntity(callerVersion).headers), Client.HERMES_CLIENT_VERSION_HEADER);
      CheckVersion(caller, gatewayVersion, sent) ==
        if callerVersion == gatewayVersion then NoWarning else VersionMismatch(caller, callerVersion, gatewayVersion)
  {
  }

  /**
   * A caller that receives the failure envelope as a RestClientResponseException
   * reads back, through getErrorMessage, the escaped message of the downstream
   * exception, whatever message its own exception carries. Header values travel
   * unchanged between hops in this model; only newline and tab are escaped, so
   * on a real header line a carriage return or other control character in the
   * message is not carried intact.
   */
  lemma FailureEnvelopeRelaysMessage(e: ClientError, className: string, message: string)
    ensures var envelope := Fail(e);
      var received := ClientError(className, message, ResponseError(envelope.status, Some(envelope.headers)));
      Client.GetErrorMessage(received) == Client.EncodeExceptionMessage(e.message)
  {
  }

  /**
   * A cacheable GET of an uncached key served from downstream, repeated while
   * the stored response is within the lifetime, makes no second downstream
   * call and returns the same response, and its log entry is marked cached.
   */
  method RepeatedGetIsServedFromCache(controller: HermesController, url: string, responseType: TypeTag,
                                       uriVariables: seq<UriVariable>, request: RequestContext,
                                       first: Response, second: Outcome, clock1: Timing, clock2: Timing)
      returns (r1: Response, r2: Response, called2: bool)
    requires CacheKey(url, responseType, uriVariables) !in controller.cache.cache
    requires controller.cache.lifetime == INFINITE_LIFETIME || clock2.lookup - clock1.store <= controller.cache.lifetime
    modifies controller`applications, controller`sink, controller.cache`cache
    ensures r1 == first && r2 == first && !called2
    ensures |controller.sink| == |old(controller.sink)| + 2
    ensures !controller.sink[|old(controller.sink)|].cached && controller.sink[|old(controller.sink)| + 1].cached
  {
    var called1;
    r1, called1 := controller.ProcessGet(true, url, responseType, uriVariables, request, Success(first), clock1);
    ghost var stored := controller.cache.cache;
    assert stored == old(controller.cache.cache)[CacheKey(url, responseType, uriVariables) := CacheValue(clock1.store, first)];
    PutThenGet(old(controller.cache.cache), controller.cache.lifetime, CacheKey(url, responseType, uriVariables), clock1.store, clock2.lookup, first);
    r2, called2 := controller.ProcessGet(true, url, responseType, uriVariables, request, second, clock2);
  }

  /**
   * No negative caching: after a failed cacheable GET of a key that was not
   * cached, the caller gets the failure envelope, and the next GET of that key
   * calls downstream again and returns what downstream returns.
   */
  method FailedGetIsRetried(controller: HermesController, url: string, responseType: TypeTag,
                            uriVariables: seq<UriVariable>, request: RequestContext,
                            error: ClientError, second: Outcome, clock1: Timing, clock2: Timing)
      returns (r1: Response, called1: bool, r2: Response, called2: bool)
    requires CacheKey(url, responseType, uriVariables) !in controller.cache.cache
    modifies controller`applications, controller`sink, controller.cache`cache
    ensures called1 && r1 == Fail(error)
    ensures called2 && r2 == (if second.Success? then second.response else Fail(second.error))
    ensures CacheKey(url, responseType, uriVariables) in controller.cache.cache <==> second.Success?
    ensures |controller.sink| == |old(controller.sink)| + 2
    ensures !controller.sink[|old(controller.sink)|].cached && !controller.sink[|old(controller.sink)| + 1].cached
  {
    r1, called1 := controller.ProcessGet(true, url, responseType, uriVariables, request, Failure(error), clock1);
    r2, called2 := controller.ProcessGet(true, url, responseType, uriVariables, request, second, clock2);
  }
}
