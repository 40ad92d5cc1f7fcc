/**
 * The earlier brussels.spfb gateway controller: the same begin / cache-or-call
 * / end pipeline, without remote-host resolution and without a log sink. Its
 * failure envelope is always a 500 that relays the error message unescaped.
 * Its LogEntry class (brussels.spfb.hermes.logging) is not part of this model;
 * the onl.gcm LogEntry, which has the same fields, stands in for it.
 */
module SpfbHermesController {
  import opened Http
  import opened Cache
  import opened LogEntries
  import Client = SpfbHermesClient

  /** What `begin` reads from the servlet request: the path and the `version` header. */
  datatype RequestContext = RequestContext(path: string, versionHeader: Option<string>)

  /** The single warning of this variant, naming the request path. */
  datatype VersionWarning =
    | NoWarning
    | VersionMismatch(path: string, requested: Option<string>, current: string)

  /** The version check of `begin`: a warning iff the versions differ, a missing header included. */
  function CheckVersion(path: string, current: string, requested: Option<string>): (w: VersionWarning)
    ensures w.NoWarning? <==> requested == Some(current)
    ensures w.VersionMismatch? ==> w == VersionMismatch(path, requested, current)
  {
    if requested == Some(current) then NoWarning else VersionMismatch(path, requested, current)
  }

  /** fail: always 500, no body, the relayed error message unescaped in its header. */
  function Fail(e: ClientError): (r: Response)
    ensures r.status == INTERNAL_SERVER_ERROR
    ensures r.body == None
    ensures r.headers.Keys == {Client.REST_CLIENT_RESPONSE_EXCEPTION_HEADER}
    ensures r.headers[Client.REST_CLIENT_RESPONSE_EXCEPTION_HEADER] == [Client.GetErrorMessage(e)]
  {
    var headers: Headers := map[];
    Response(INTERNAL_SERVER_ERROR, None, headers[Client.REST_CLIENT_RESPONSE_EXCEPTION_HEADER := [Client.GetErrorMessage(e)]])
  }

  /** The fields `begin` records on a new entry. */
  ghost predicate RecordsRequest(entry: LogEntry, url: string, request: RequestContext, now: int, clientVersion: string)
    reads entry
  {
    && entry.date == now
    && entry.remoteHost == None
    && entry.remoteApplication == None
    && entry.requestUrl == Some(request.path)
    && entry.applicationUrl == Some(url)
    && entry.requestClientVersion == request.versionHeader
    && entry.clientVersion == Some(clientVersion)
  }

  class HermesController {
    const cache: ResponseEntityCache
    /** hermesClient.getVersion(): the gateway's own client version. */
    const clientVersion: string

    /** The cache is built with the one-argument constructor, so with the default lifetimes. */
    constructor (name: string, clientVersion: string)
      ensures fresh(cache) && cache.name == name && cache.cache == map[]
      ensures cache.lifetime == DEFAULT_LIFETIME && cache.pruneDelay == DEFAULT_PRUNE_DELAY
      ensures this.clientVersion == clientVersion
    {
      this.clientVersion := clientVersion;
      cache := new ResponseEntityCache.Named(name);
    }

    method SetCacheLifetime(lifetime: int)
      modifies cache`lifetime
      ensures cache.lifetime == lifetime
    {
      cache.SetLifetime(lifetime);
    }

    method SetCachePruneDelay(pruneDelay: int)
      modifies cache`pruneDelay
      ensures cache.pruneDelay == pruneDelay
    {
      cache.SetPruneDelay(pruneDelay);
    }

    method Begin(url: string, request: RequestContext, now: int) returns (entry: LogEntry, warning: VersionWarning)
      ensures fresh(entry)
      ensures RecordsRequest(entry, url, request, now, clientVersion)
      ensures !entry.cached && entry.responseStatus == None && entry.errorMessage == None && entry.duration == 0
      ensures warning == CheckVersion(request.path, clientVersion, request.versionHeader)
    {
      entry := new LogEntry(now);
      entry.requestUrl := Some(request.path);
      entry.applicationUrl := Some(url);
      entry.requestClientVersion := request.versionHeader;
      entry.clientVersion := Some(clientVersion);
      warning := NoWarning;
      if request.versionHeader != Some(clientVersion) {
        warning := VersionMismatch(request.path, request.versionHeader, clientVersion);
      }
    }

    /** end(LogEntry, ResponseEntity): duration and the status string. */
    method EndWithResponse(entry: LogEntry, response: Response, now: int)
      modifies entry
      ensures entry.duration == now - entry.date
      ensures entry.responseStatus == Some(StatusString(response.status))
      ensures entry.errorMessage == old(entry.errorMessage) && entry.cached == old(entry.cached)
      ensures entry.remoteHost == old(entry.remoteHost) && entry.remoteApplication == old(entry.remoteApplication)
      ensures entry.requestUrl == old(entry.requestUrl) && entry.applicationUrl == old(entry.applicationUrl)
      ensures entry.requestClientVersion == old(entry.requestClientVersion) && entry.clientVersion == old(entry.clientVersion)
    {
      entry.duration := now - entry.date;
      entry.responseStatus := Some(StatusString(response.status));
    }

    /** end(LogEntry, HttpStatusCodeException), never selected by the pipeline's catch blocks. */
    method EndWithStatusCodeException(entry: LogEntry, e: ClientError, now: int)
      requires e.kind.ResponseError?
      modifies entry
      ensures entry.duration == now - entry.date
      ensures entry.responseStatus == Some(StatusString(e.kind.rawStatus))
      ensures entry.errorMessage == Some(Client.GetErrorMessage(e)) && entry.cached == old(entry.cached)
      ensures entry.remoteHost == old(entry.remoteHost) && entry.remoteApplication == old(entry.remoteApplication)
      ensures entry.requestUrl == old(entry.requestUrl) && entry.applicationUrl == old(entry.applicationUrl)
      ensures entry.requestClientVersion == old(entry.requestClientVersion) && entry.clientVersion == old(entry.clientVersion)
    {
      entry.duration := now - entry.date;
      entry.responseStatus := Some(StatusString(e.kind.rawStatus));
      entry.errorMessage := Some(Client.GetErrorMessage(e));
    }

    /** end(LogEntry, RestClientException): the exception's class name and relayed message. */
    method EndWithException(entry: LogEntry, e: ClientError, now: int)
      modifies entry
      ensures entry.duration == now - entry.date
      ensures entry.responseStatus == Some(e.className)
      ensures entry.errorMessage == Some(Client.GetErrorMessage(e)) && entry.cached == old(entry.cached)
      ensures entry.remoteHost == old(entry.remoteHost) && entry.remoteApplication == old(entry.remoteApplication)
      ensures entry.requestUrl == old(entry.requestUrl) && entry.applicationUrl == old(entry.applicationUrl)
      ensures entry.requestClientVersion == old(entry.requestClientVersion) && entry.clientVersion == old(entry.clientVersion)
    {
      entry.duration := now - entry.date;
      entry.responseStatus := Some(e.className);
      entry.errorMessage := Some(Client.GetErrorMessage(e));
    }

    /**
     * processGet. `downstream` is what getForEntity would do if called;
     * `called` says whether it was called; `entry` is the log entry the call
     * built and traced (this variant hands it to no sink).
     */
    method ProcessGet(cacheable: bool, url: string, responseType: TypeTag, uriVariables: seq<UriVariable>,
                      request: RequestContext, downstream: Outcome, clock: Timing)
      returns (response: Response, called: bool, entry: LogEntry)
      modifies cache`cache
      ensures fresh(entry)
      ensures RecordsRequest(entry, url, request, clock.begin, clientVersion)
      ensures entry.duration == clock.end - clock.begin
      ensures var key := CacheKey(url, responseType, uriVariables);
        var hit := if cacheable then Lookup(old(cache.cache), cache.lifetime, key, clock.lookup) else None;
        var looked := if cacheable then AfterLookup(old(cache.cache), cache.lifetime, key, clock.lookup) else old(cache.cache);
        && called == hit.None?
        && entry.cached == hit.Some?
        && (hit.Some? ==>
              && response == hit.value
              && cache.cache == looked
              && entry.responseStatus == Some(StatusString(response.status))
              && entry.errorMessage == None)
        && (hit.None? && downstream.Success? ==>
              && response == downstream.response
              && cache.cache == (if cacheable then looked[key := CacheValue(clock.store, response)] else looked)
              && entry.responseStatus == Some(StatusString(response.status))
              && entry.errorMessage == None)
        && (hit.None? && downstream.Failure? ==>
              && response == Fail(downstream.error)
              && cache.cache == looked
              && entry.responseStatus == Some(downstream.error.className)
              && entry.errorMessage == Some(Client.GetErrorMessage(downstream.error)))
    {
      var warning;
      entry, warning := Begin(url, request, clock.begin);
      var cachedResponse := None;
      if cacheable {
        cachedResponse := cache.GetCache(clock.lookup, url, responseType, uriVariables);
      }
      if cachedResponse.None? {
        called := true;
        match downstream {
          case Success(r) =>
            response := r;
            if cacheable {
              cache.PutCache(clock.store, url, responseType, response, uriVariables);
            }
            EndWithResponse(entry, response, clock.end);
          case Failure(e) =>
            response := Fail(e);
            EndWithException(entry, e, clock.end);
        }
      } else {
        called := false;
        response := cachedResponse.value;
        entry.cached := true;
        EndWithResponse(entry, response, clock.end);
      }
    }

    /** processPost: always calls downstream; it has no access to the cache. */
    method ProcessPost(url: string, body: Body, responseType: TypeTag, uriVariables: seq<UriVariable>,
                       request: RequestContext, downstream: Outcome, clock: Timing)
      returns (response: Response, entry: LogEntry)
      ensures fresh(entry)
      ensures RecordsRequest(entry, url, request, clock.begin, clientVersion)
      ensures entry.duration == clock.end - clock.begin
      ensures !entry.cached
      ensures downstream.Success? ==>
        && response == downstream.response
        && entry.responseStatus == Some(StatusString(response.status))
        && entry.errorMessage == None
      ensures downstream.Failure? ==>
        && response == Fail(downstream.error)
        && entry.responseStatus == Some(downstream.error.className)
        && entry.errorMessage == Some(Client.GetErrorMessage(downstream.error))
    {
      var warning;
      entry, warning := Begin(url, request, clock.begin);
      match downstream {
        case Success(r) =>
          response := r;
          EndWithResponse(entry, response, clock.end);
        case Failure(e) =>
          response := Fail(e);
          EndWithException(entry, e, clock.end);
      }
    }
  }

  /**
   * A caller that receives this variant's failure envelope as a
   * RestClientResponseException reads back exactly the message the gateway
   * relayed. Header values travel unchanged between hops in this model; on a
   * real header line that holds only for messages free of line breaks and
   * other control characters, which this variant does not escape.
   */
  lemma FailureEnvelopeRelaysMessage(e: ClientError, className: string, message: string)
    ensures var envelope := Fail(e);
      var received := ClientError(className, message, ResponseError(envelope.status, Some(envelope.headers)));
      Client.GetErrorMessage(received) == Client.GetErrorMessage(e)
  {
  }

  /** The request entity this variant's client builds is accepted without warning iff the versions agree. */
  lemma RequestEntityVersionIsChecked(path: string, callerVersion: string, gatewayVersion: string)
    ensures var sent := FirstHeaderValue(Some(Client.CreateRequestEntity(callerVersion).headers), Client.VERSION_HEADER);
      CheckVersion(path, gatewayVersion, sent).NoWarning? <==> callerVersion == gatewayVersion
  {
  }
}
