/**
 * Value types shared by the Hermes client, the gateway controllers and the
 * response cache: HTTP responses, headers, the outcome of a downstream call
 * and the textual form of an HTTP status that the gateway writes to its log.
 */
module Http {

  datatype Option<+T> = None | Some(value: T)

  /** The name of a Java class, used both as a declared response type and as the class of a body. */
  type TypeTag = string

  /** A response or request payload: the class it was deserialised to and its content. */
  datatype Body = Body(cls: TypeTag, content: string)

  /**
   * A header received off the wire carries at least one value. Spring's
   * HttpHeaders can hold an empty list under a name put there explicitly;
   * such headers are not modelled.
   */
  type HeaderValues = s: seq<string> | |s| > 0 witness [""]

  type Headers = map<string, HeaderValues>

  /** Spring's ResponseEntity: raw status code, optional body, headers. */
  datatype Response = Response(status: nat, body: Option<Body>, headers: Headers)

  /** Spring's HttpEntity as the client sends it. */
  datatype RequestEntity = RequestEntity(body: Option<Body>, headers: Headers)

  /**
   * The kind of RestClientException a downstream call throws: a transport
   * failure (connection refused, timeout) carries no status, a
   * RestClientResponseException (and its subclasses HttpStatusCodeException,
   * HttpServerErrorException, ...) carries the raw status and the response headers.
   */
  datatype ErrorKind =
    | Transport
    | ResponseError(rawStatus: nat, responseHeaders: Option<Headers>)

  /** A caught RestClientException: its class name, its own message and its kind. */
  datatype ClientError = ClientError(className: string, message: string, kind: ErrorKind)

  /** What a downstream call (getForEntity, postForEntity, exchange) does: return a response or throw. */
  datatype Outcome = Success(response: Response) | Failure(error: ClientError)

  /** The four clock reads of one gateway call: entry creation, cache lookup, cache store, end. */
  datatype Timing = Timing(begin: int, lookup: int, store: int, end: int)

  const INTERNAL_SERVER_ERROR: nat := 500

  /** HttpHeaders.getFirst on a possibly null header map. */
  function FirstHeaderValue(headers: Option<Headers>, name: string): Option<string>
  {
    if headers.Some? && name in headers.value then Some(headers.value[name][0]) else None
  }

  function DigitChar(d: nat): char
    requires d < 10
  {
    "0123456789"[d]
  }

  predicate IsDigit(c: char) {
    '0' <= c <= '9'
  }

  function DigitValue(c: char): nat
    requires IsDigit(c)
  {
    (c as int - '0' as int) as nat
  }

  /** Decimal notation of a natural number, most significant digit first, no leading zero. */
  function Digits(n: nat): (s: string)
    ensures |s| > 0
    ensures forall i :: 0 <= i < |s| ==> IsDigit(s[i])
    decreases n
  {
    if n < 10 then [DigitChar(n)] else Digits(n / 10) + [DigitChar(n % 10)]
  }

  /** Reads the maximal run of decimal digits at the start of s. */
  function LeadingDigits(s: string): (r: string)
    ensures r <= s
    ensures forall i :: 0 <= i < |r| ==> IsDigit(r[i])
    ensures |r| < |s| ==> !IsDigit(s[|r|])
  {
    if s == [] || !IsDigit(s[0]) then [] else [s[0]] + LeadingDigits(s[1..])
  }

  /** Value of a string of decimal digits. */
  function DigitsValue(s: string): nat
    requires forall i :: 0 <= i < |s| ==> IsDigit(s[i])
  {
    if s == [] then 0 else DigitsValue(s[..|s| - 1]) * 10 + DigitValue(s[|s| - 1])
  }

  /** The constant name of Spring's HttpStatus enum for the codes a gateway usually sees. */
  function StatusName(code: int): string
  {
    match code
    case 200 => "OK"
    case 201 => "CREATED"
    case 202 => "ACCEPTED"
    case 204 => "NO_CONTENT"
    case 301 => "MOVED_PERMANENTLY"
    case 302 => "FOUND"
    case 304 => "NOT_MODIFIED"
    case 400 => "BAD_REQUEST"
    case 401 => "UNAUTHORIZED"
    case 403 => "FORBIDDEN"
    case 404 => "NOT_FOUND"
    case 405 => "METHOD_NOT_ALLOWED"
    case 409 => "CONFLICT"
    case 500 => "INTERNAL_SERVER_ERROR"
    case 502 => "BAD_GATEWAY"
    case 503 => "SERVICE_UNAVAILABLE"
    case 504 => "GATEWAY_TIMEOUT"
    case _ => ""
  }

  /** HttpStatus.toString(): the code in decimal, a space, the constant name. */
  function StatusString(code: nat): string
  {
    Digits(code) + " " + StatusName(code)
  }

  lemma {:induction false} DigitsRoundTrip(n: nat)
    ensures DigitsValue(Digits(n)) == n
    decreases n
  {
    if n >= 10 {
      var s := Digits(n);
      assert s[..|s| - 1] == Digits(n / 10);
      DigitsRoundTrip(n / 10);
    }
  }

  lemma {:induction false} LeadingDigitsOfDigitsThenSpace(d: string, rest: string)
    requires forall i :: 0 <= i < |d| ==> IsDigit(d[i])
    ensures LeadingDigits(d + " " + rest) == d
    decreases |d|
  {
    if d != [] {
      assert (d + " " + rest)[1..] == d[1..] + " " + rest;
      LeadingDigitsOfDigitsThenSpace(d[1..], rest);
    }
  }

  /** The status string written to the log determines the numeric code it was made from. */
  lemma StatusStringNamesCode(code: nat)
    ensures var lead := LeadingDigits(StatusString(code)); DigitsValue(lead) == code
  {
    LeadingDigitsOfDigitsThenSpace(Digits(code), StatusName(code));
    DigitsRoundTrip(code);
  }
}
