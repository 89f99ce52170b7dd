/** The transport primitive shared by every endpoint: the `upload` request it builds,
    the cancellation binding it installs, and how a transport outcome becomes a
    resolved value or a rejection. */
module Base {
  import opened Js
  import opened Exceptions
  import opened Config

  const UrlMessage := "URL cannot be null or empty."
  const ContentLength := "Content-Length"
  const FileField := "file"

  /** What an upload sends: the file bytes and, optionally, a declared size. */
  datatype Payload = Payload(buffer: seq<bv8>, size: Option<string>)

  datatype Verb = Post | Head
  datatype Attachment = Attachment(field: string, content: seq<bv8>)

  /** The request as built before it is sent; a header value `None` is `undefined`. */
  datatype RequestSpec = RequestSpec(
    verb: Verb,
    url: string,
    headers: map<string, Option<string>>,
    attachment: Option<Attachment>,
    responseTimeoutMs: int)

  /** A response the transport resolved with. */
  datatype Response = Response(status: int, ok: bool, text: Option<string>)

  /** A failure the transport rejected with: `err.response.body` (None when there is
      no response or no body), `err.message`, and the thrown value itself. */
  datatype TransportError = TransportError(body: Option<Json>, message: Option<string>, raw: Json)

  /** How the request ended, as the network reported it. */
  datatype Outcome = Responded(response: Response) | Errored(error: TransportError)

  /** The deserialiser either returns a value or throws. */
  datatype Parse = Parsed(value: Json) | Threw(error: TransportError)

  /** The value a returned promise is rejected with. */
  datatype Reason =
    | ResponseBody(body: Json)
    | ErrorMessage(message: string)
    | RawError(raw: Json)
    | LocalError(error: Error)

  /** How a returned promise ends: resolved, rejected, or never settled (the `catch`
      callback itself threw before reaching `reject`). */
  datatype Settled<+T> = Resolved(value: T) | Rejected(reason: Reason) | Unsettled

  /** The `catch` callbacks read `err.message` for their log line before anything else;
      for a thrown `null` that read throws, so `reject` is never reached. */
  predicate ReachesReject(e: TransportError) {
    e.raw != JNull
  }

  /** What the `catch` callback does with a caught value. */
  function Catch<T>(e: TransportError): (s: Settled<T>)
    ensures s.Unsettled? <==> !ReachesReject(e)
    ensures !s.Resolved?
    ensures s.Rejected? ==> s.reason == Rejection(e)
  {
    if ReachesReject(e) then Rejected(Rejection(e)) else Unsettled
  }

  datatype LogEntry<S> = LogEntry(severity: S, message: string)

  /** The `log` guard: the logger is called only with a non-empty message. */
  function Log<S>(severity: S, msg: Arg<string>): (call: Option<LogEntry<S>>)
    ensures call.Some? <==> NonEmpty(msg)
    ensures call.Some? ==> call.value.severity == severity && call.value.message == msg.value
  {
    if NonEmpty(msg) then Some(LogEntry(severity, msg.value)) else None
  }

  /** The upload headers: the default headers with `Content-Length` set to the
      declared size, which overrides a default of that name. */
  function RequestHeaders(defaults: map<string, string>, size: Option<string>): (h: map<string, Option<string>>)
    ensures ContentLength in h && h[ContentLength] == size
    ensures forall k :: k in defaults && k != ContentLength ==> k in h && h[k] == Some(defaults[k])
    ensures forall k :: k in h ==> k == ContentLength || k in defaults
  {
    (map k | k in defaults :: Some(defaults[k]))[ContentLength := size]
  }

  /** The request `upload` builds from the configuration as it stands at call time. */
  function UploadRequest(url: string, data: Payload, defaults: map<string, string>, timeoutMs: int): (r: RequestSpec)
    ensures r.verb == Post && r.url == url && r.responseTimeoutMs == timeoutMs
    ensures r.attachment == Some(Attachment(FileField, data.buffer))
    ensures ContentLength in r.headers && r.headers[ContentLength] == data.size
    ensures forall k :: k in defaults && k != ContentLength ==> k in r.headers && r.headers[k] == Some(defaults[k])
  {
    RequestSpec(Post, url, RequestHeaders(defaults, data.size), Some(Attachment(FileField, data.buffer)), timeoutMs)
  }

  /** `res.text || '{}'`: the text handed to the deserialiser is never empty. */
  function ResponseText(text: Option<string>): (t: string)
    ensures t != ""
    ensures text.Some? && text.value != "" ==> t == text.value
    ensures text.None? || text.value == "" ==> t == "{}"
  {
    if text.Some? && text.value != "" then text.value else "{}"
  }

  /** The rejection chosen for a failure: the response body if it is truthy, else the
      message if it is non-empty, else the thrown value. Exactly one is chosen. */
  function Rejection(e: TransportError): (r: Reason)
    ensures !r.LocalError?
    ensures r.ResponseBody? <==> e.body.Some? && Truthy(e.body.value)
    ensures r.ResponseBody? ==> r.body == e.body.value && Truthy(r.body)
    ensures r.ErrorMessage? <==> !r.ResponseBody? && e.message.Some? && e.message.value != ""
    ensures r.ErrorMessage? ==> r.message == e.message.value && r.message != ""
    ensures r.RawError? <==> !r.ResponseBody? && !r.ErrorMessage?
    ensures r.RawError? ==> r.raw == e.raw
  {
    if e.body.Some? && Truthy(e.body.value) then ResponseBody(e.body.value)
    else if e.message.Some? && e.message.value != "" then ErrorMessage(e.message.value)
    else RawError(e.raw)
  }

  /** How an upload settles: a response resolves with the deserialised text unless
      the deserialiser throws; a transport failure or a deserialiser throw is caught,
      and is rejected through `Rejection` unless the thrown value is `null`. */
  function SettleUpload(outcome: Outcome, deserialize: string -> Parse): (s: Settled<Json>)
    ensures s.Resolved? <==> outcome.Responded? && deserialize(ResponseText(outcome.response.text)).Parsed?
    ensures s.Resolved? ==> s.value == deserialize(ResponseText(outcome.response.text)).value
    ensures outcome.Errored? ==> (s.Unsettled? <==> !ReachesReject(outcome.error))
    ensures outcome.Errored? && s.Rejected? ==> s.reason == Rejection(outcome.error)
    ensures outcome.Responded? && deserialize(ResponseText(outcome.response.text)).Threw? ==>
      var e := deserialize(ResponseText(outcome.response.text)).error;
      (s.Unsettled? <==> !ReachesReject(e)) && (s.Rejected? ==> s.reason == Rejection(e))
  {
    match outcome
    case Responded(res) =>
      (match deserialize(ResponseText(res.text))
       case Parsed(v) => Resolved(v)
       case Threw(e) => Catch(e))
    case Errored(e) => Catch(e)
  }

  /** A response with no text and one with empty text both resolve as `{}` does. */
  lemma EmptyTextIsEmptyObject(status: int, ok: bool, deserialize: string -> Parse)
    ensures SettleUpload(Responded(Response(status, ok, None)), deserialize)
         == SettleUpload(Responded(Response(status, ok, Some(""))), deserialize)
         == SettleUpload(Responded(Response(status, ok, Some("{}"))), deserialize)
  {
  }

  /** An in-flight request; `Abort` is superagent's `request.abort()`, which only
      takes effect once. */
  class PendingRequest {
    const spec: RequestSpec
    var aborted: bool

    constructor (spec: RequestSpec)
      ensures this.spec == spec && !aborted
    {
      this.spec := spec;
      aborted := false;
    }

    method Abort()
      modifies this
      ensures aborted
    {
      aborted := true;
    }
  }

  /** What a token's `abort` currently does: the controller's own abort, or a
      closure that aborts one particular request. */
  datatype AbortBinding = ControllerAbort | AbortsRequest(request: PendingRequest)

  /** The caller's cancellation token (an `AbortController`). */
  class CancellationToken {
    var abort: AbortBinding
    var signalAborted: bool

    constructor ()
      ensures abort == ControllerAbort && !signalAborted
    {
      abort := ControllerAbort;
      signalAborted := false;
    }

    /** The objects a call of `abort` may change. */
    function AbortFrame(): set<object>
      reads this
    {
      if abort.AbortsRequest? then {this, abort.request} else {this}
    }

    /** Calls the token's `abort`: a bound closure aborts its request (and only it);
        the controller's own abort only marks its signal, which no request listens to. */
    method InvokeAbort()
      modifies AbortFrame()
      ensures abort == old(abort)
      ensures old(abort).AbortsRequest? ==> abort.request.aborted && signalAborted == old(signalAborted)
      ensures old(abort).ControllerAbort? ==> signalAborted
    {
      match abort
      case AbortsRequest(req) =>
        req.Abort();
      case ControllerAbort =>
        signalAborted := true;
    }
  }

  class SdkBase {
    const config: SdkConfiguration

    constructor (config: SdkConfiguration)
      ensures this.config == config
    {
      this.config := config;
    }

    /** `new SdkBase(config)`: throws when the configuration is null or undefined. */
    static method New(config: SdkConfiguration?) returns (r: Result<SdkBase, Error>)
      ensures config == null ==> r == Failure(ArgumentNullException("config"))
      ensures config != null ==> r.Success? && fresh(r.value) && r.value.config == config
    {
      if config == null {
        return Failure(ArgumentNullException("config"));
      }
      var b := new SdkBase(config);
      r := Success(b);
    }

    /** `upload(url, data, cancellationToken)`. An empty URL rejects before any request
        is built and leaves the token alone. Otherwise one request is built from the
        configuration as it stands now, a supplied token's `abort` is rebound to abort
        exactly that request, and the promise settles from the transport outcome. */
    method Upload(url: Arg<string>, data: Payload, token: CancellationToken?, outcome: Outcome, deserialize: string -> Parse)
      returns (settled: Settled<Json>, sent: PendingRequest?)
      modifies token
      ensures !NonEmpty(url) ==>
        && settled == Rejected(LocalError(PlainError(UrlMessage)))
        && sent == null
        && (token != null ==> unchanged(token))
      ensures NonEmpty(url) ==>
        && sent != null && fresh(sent) && !sent.aborted
        && sent.spec == UploadRequest(url.value, data, config.defaultHeaders, config.timeoutMs)
        && settled == SettleUpload(outcome, deserialize)
        && (token != null ==> token.abort == AbortsRequest(sent) && token.signalAborted == old(token.signalAborted))
    {
      if !NonEmpty(url) {
        return Rejected(LocalError(PlainError(UrlMessage))), null;
      }
      var request := new PendingRequest(UploadRequest(url.value, data, config.defaultHeaders, config.timeoutMs));
      if token != null {
        token.abort := AbortsRequest(request);
      }
      settled := SettleUpload(outcome, deserialize);
      sent := request;
    }
  }

  /** Reusing one token for two uploads: the second upload replaces the binding, so
      a later abort through the token reaches the second request and not the first. */
  method TokenRebinding(base: SdkBase, url: string, data: Payload, token: CancellationToken,
                        first: Outcome, second: Outcome, deserialize: string -> Parse)
    returns (one: PendingRequest?, two: PendingRequest?)
    requires url != ""
    modifies token
    ensures one != null && two != null && one != two
    ensures token.abort == AbortsRequest(two)
    ensures two.aborted && !one.aborted
  {
    var s1, s2;
    s1, one := base.Upload(Given(url), data, token, first, deserialize);
    s2, two := base.Upload(Given(url), data, token, second, deserialize);
    token.InvokeAbort();
  }
}
