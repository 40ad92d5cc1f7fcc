/**
 * The pure helpers of the onl.gcm HermesClient: escaping an exception message
 * so that it fits in one header line, extracting the error message a failed
 * call relays, building the versioned request entity, and the liveness checks.
 */
module GcmHermesClient {
  import opened Http

  const EXCEPTION_MESSAGE_HEADER: string := "Exception.message"
  const HERMES_CLIENT_VERSION_HEADER: string := "HermesClient.version"

  /** The client's configured properties that the modelled operations read. */
  datatype ClientConfig = ClientConfig(hermesServerUrl: string, version: string, hermesServerAlivePath: string)

  /** Number of occurrences of c in s. */
  function Count(s: string, c: char): nat
  {
    if s == [] then 0 else (if s[0] == c then 1 else 0) + Count(s[1..], c)
  }

  lemma {:induction false} CountConcat(a: string, b: string, c: char)
    ensures Count(a + b, c) == Count(a, c) + Count(b, c)
    decreases |a|
  {
    if a != [] {
      assert (a + b)[0] == a[0] && (a + b)[1..] == a[1..] + b;
      CountConcat(a[1..], b, c);
      assert Count(a + b, c) == (if a[0] == c then 1 else 0) + Count(a[1..] + b, c);
    } else {
      assert a + b == b;
    }
  }

  lemma {:induction false} CountZeroIsAbsent(s: string, c: char)
    ensures Count(s, c) == 0 <==> c !in s
    decreases |s|
  {
    if s != [] {
      CountZeroIsAbsent(s[1..], c);
      assert c in s <==> s[0] == c || c in s[1..];
    }
  }

  /**
   * One `replaceAll` of the chain: every occurrence of the character c becomes
   * the two characters backslash and `letter`; all other characters are copied in order.
   */
  function Escape(s: string, c: char, letter: char): (r: string)
    ensures |r| == |s| + Count(s, c)
    ensures c != '\\' && c != letter ==> Count(r, c) == 0
    ensures forall d {:trigger Count(s, d)} :: d != c && d != '\\' && d != letter ==> Count(r, d) == Count(s, d)
    ensures Count(s, c) == 0 ==> r == s
    decreases |s|
  {
    if s == [] then []
    else
      var head := if s[0] == c then ['\\', letter] else [s[0]];
      var tail := Escape(s[1..], c, letter);
      CountConcatAll(head, tail);
      head + tail
  }

  lemma CountConcatAll(a: string, b: string)
    ensures forall d {:trigger Count(a + b, d)} :: Count(a + b, d) == Count(a, d) + Count(b, d)
  {
    forall d ensures Count(a + b, d) == Count(a, d) + Count(b, d) {
      CountConcat(a, b, d);
    }
  }

  /**
   * encodeExceptionMessage: newline becomes the two characters `\n`, then tab
   * becomes `\t`. The result fits in a single header line.
   */
  function EncodeExceptionMessage(message: string): (r: string)
    ensures '\n' !in r && '\t' !in r
    ensures |r| == |message| + Count(message, '\n') + Count(message, '\t')
    ensures '\n' !in message && '\t' !in message ==> r == message
  {
    var lines := Escape(message, '\n', 'n');
    var r := Escape(lines, '\t', 't');
    CountZeroIsAbsent(message, '\n');
    CountZeroIsAbsent(message, '\t');
    CountZeroIsAbsent(lines, '\t');
    CountZeroIsAbsent(r, '\n');
    CountZeroIsAbsent(r, '\t');
    r
  }

  /** The escape of one character, as a reference for the whole chain. */
  function EscapeChar(c: char): string
  {
    if c == '\n' then "\\n" else if c == '\t' then "\\t" else [c]
  }

  /** Escapes character by character: the independent definition of the encoding. */
  function EscapeEach(s: string): string
  {
    if s == [] then [] else EscapeChar(s[0]) + EscapeEach(s[1..])
  }

  lemma {:induction false} EscapeConcat(a: string, b: string, c: char, letter: char)
    ensures Escape(a + b, c, letter) == Escape(a, c, letter) + Escape(b, c, letter)
    decreases |a|
  {
    if a != [] {
      assert (a + b)[0] == a[0] && (a + b)[1..] == a[1..] + b;
      EscapeConcat(a[1..], b, c, letter);
      var head := if a[0] == c then ['\\', letter] else [a[0]];
      assert Escape(a + b, c, letter) == head + Escape(a[1..] + b, c, letter);
      assert Escape(a, c, letter) == head + Escape(a[1..], c, letter);
    } else {
      assert a + b == b;
    }
  }

  /** The chained replaceAll calls escape each character independently, in order. */
  lemma {:induction false} EncodeIsCharwise(message: string)
    ensures EncodeExceptionMessage(message) == EscapeEach(message)
    decreases |message|
  {
    if message != [] {
      var c := message[0];
      var head := if c == '\n' then "\\n" else [c];
      assert Escape(message, '\n', 'n') == head + Escape(message[1..], '\n', 'n');
      EscapeConcat(head, Escape(message[1..], '\n', 'n'), '\t', 't');
      assert Escape(head, '\t', 't') == EscapeChar(c) by {
        if c == '\n' {
          assert head == ['\\'] + ['n'];
          EscapeConcat(['\\'], ['n'], '\t', 't');
        }
      }
      EncodeIsCharwise(message[1..]);
    }
  }

  /** Encoding twice is encoding once, so a relayed message is not escaped again. */
  lemma EncodeIsIdempotent(message: string)
    ensures EncodeExceptionMessage(EncodeExceptionMessage(message)) == EncodeExceptionMessage(message)
  {
  }

  /**
   * getErrorMessage: the first `Exception.message` header value of a response
   * exception that carries one, otherwise the exception's own message. The
   * HttpServerErrorException branch reads the same headers as the
   * RestClientResponseException branch, since the former is a subclass of the latter.
   */
  function GetErrorMessage(e: ClientError): (message: string)
    ensures e.kind.ResponseError? && e.kind.responseHeaders.Some? && EXCEPTION_MESSAGE_HEADER in e.kind.responseHeaders.value ==>
      message == e.kind.responseHeaders.value[EXCEPTION_MESSAGE_HEADER][0]
    ensures e.kind.Transport? || e.kind.responseHeaders.None? || EXCEPTION_MESSAGE_HEADER !in e.kind.responseHeaders.value ==>
      message == e.message
  {
    var headers := if e.kind.ResponseError? then e.kind.responseHeaders else None;
    var messageInHeader := FirstHeaderValue(headers, EXCEPTION_MESSAGE_HEADER);
    if messageInHeader.None? then e.message else messageInHeader.value
  }

  /** createRequestEntity: no body, one header carrying the client version. */
  function CreateRequestEntity(version: string): (entity: RequestEntity)
    ensures entity.body == None
    ensures entity.headers.Keys == {HERMES_CLIENT_VERSION_HEADER}
    ensures FirstHeaderValue(Some(entity.headers), HERMES_CLIENT_VERSION_HEADER) == Some(version)
  {
    var headers: Headers := map[];
    RequestEntity(None, headers[HERMES_CLIENT_VERSION_HEADER := [version]])
  }

  /**
   * isAlive: GET the client's own alive path through `exchange` (the transport,
   * which sends the versioned request entity); false exactly when the call throws.
   */
  function IsAlive(config: ClientConfig, completeAlivePath: string, exchange: (string, RequestEntity) -> Outcome): (alive: bool)
    ensures alive <==> !exchange(config.hermesServerUrl + completeAlivePath, CreateRequestEntity(config.version)).Failure?
  {
    match exchange(config.hermesServerUrl + completeAlivePath, CreateRequestEntity(config.version))
    case Failure(_) => false
    case Success(_) => true
  }

  /** isHermesServerAlive: the same check on the gateway's configured alive path. */
  function IsHermesServerAlive(config: ClientConfig, exchange: (string, RequestEntity) -> Outcome): (alive: bool)
    ensures alive <==> !exchange(config.hermesServerUrl + config.hermesServerAlivePath, CreateRequestEntity(config.version)).Failure?
  {
    match exchange(config.hermesServerUrl + config.hermesServerAlivePath, CreateRequestEntity(config.version))
    case Failure(_) => false
    case Success(_) => true
  }
}
