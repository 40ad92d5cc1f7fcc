/**
 * The pure helpers of the earlier brussels.spfb HermesClient: the relayed error
 * message, the versioned request entity and the liveness checks. This variant
 * relays the message unescaped under the `RestClientResponseException` header.
 */
module SpfbHermesClient {
  import opened Http

  const REST_CLIENT_RESPONSE_EXCEPTION_HEADER: string := "RestClientResponseException"
  const VERSION_HEADER: string := "version"

  datatype ClientConfig = ClientConfig(hermesServerUrl: string, version: string, hermesAlivePath: string)

  /**
   * getErrorMessage: the first value of the `RestClientResponseException`
   * header of a response exception that carries it, otherwise the exception's
   * own message.
   */
  function GetErrorMessage(e: ClientError): (message: string)
    ensures e.kind.ResponseError? && e.kind.responseHeaders.Some? && REST_CLIENT_RESPONSE_EXCEPTION_HEADER in e.kind.responseHeaders.value ==>
      message == e.kind.responseHeaders.value[REST_CLIENT_RESPONSE_EXCEPTION_HEADER][0]
    ensures e.kind.Transport? || e.kind.responseHeaders.None? || REST_CLIENT_RESPONSE_EXCEPTION_HEADER !in e.kind.responseHeaders.value ==>
      message == e.message
  {
    var errorMessage := e.message;
    match e.kind
    case Transport => errorMessage
    case ResponseError(_, headers) =>
      if headers.Some? && REST_CLIENT_RESPONSE_EXCEPTION_HEADER in headers.value
      then headers.value[REST_CLIENT_RESPONSE_EXCEPTION_HEADER][0]
      else errorMessage
  }

  /** HttpHeaders.addIfAbsent: a header already present keeps its values. */
  function AddIfAbsent(headers: Headers, name: string, value: string): (r: Headers)
    ensures name in r
    ensures name in headers ==> r == headers
    ensures name !in headers ==> r == headers[name := [value]]
  {
    if name in headers then headers else headers[name := [value]]
  }

  /** createRequestEntity: no body, and the `version` header added to empty headers. */
  function CreateRequestEntity(version: string): (entity: RequestEntity)
    ensures entity.body == None
    ensures entity.headers.Keys == {VERSION_HEADER}
    ensures FirstHeaderValue(Some(entity.headers), VERSION_HEADER) == Some(version)
  {
    RequestEntity(None, AddIfAbsent(map[], VERSION_HEADER, version))
  }

  /** isAlive: false exactly when the GET of the client's alive path throws. */
  function IsAlive(config: ClientConfig, completeAlivePath: string, exchange: (string, RequestEntity) -> Outcome): (alive: bool)
    ensures alive <==> !exchange(config.hermesServerUrl + completeAlivePath, CreateRequestEntity(config.version)).Failure?
  {
    match exchange(config.hermesServerUrl + completeAlivePath, CreateRequestEntity(config.version))
    case Failure(_) => false
    case Success(_) => true
  }

  /** isHermesAlive: the same check on the gateway's configured alive path. */
  function IsHermesAlive(config: ClientConfig, exchange: (string, RequestEntity) -> Outcome): (alive: bool)
    ensures alive <==> !exchange(config.hermesServerUrl + config.hermesAlivePath, CreateRequestEntity(config.version)).Failure?
  {
    match exchange(config.hermesServerUrl + config.hermesAlivePath, CreateRequestEntity(config.version))
    case Failure(_) => false
    case Success(_) => true
  }
}
