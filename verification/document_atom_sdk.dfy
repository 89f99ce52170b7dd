/** The client object: one configuration shared by every endpoint facade, and the
    connectivity probe against the configured endpoint. */
module Sdk {
  import opened Js
  import opened Exceptions
  import opened Config
  import opened Base
  import opened Extraction
  import opened Detection

  const DefaultEndpoint := "http://localhost:8000/"

  /** JavaScript's default parameter: only an omitted endpoint is replaced by the
      default; `null` and `""` are passed on to the configuration's guard. */
  function EffectiveEndpoint(endpoint: Arg<string>): (e: Arg<string>)
    ensures endpoint.Undefined? ==> e == Given(DefaultEndpoint)
    ensures !endpoint.Undefined? ==> e == endpoint
  {
    if endpoint.Undefined? then Given(DefaultEndpoint) else endpoint
  }

  /** The default endpoint is already normalised, so it is stored as written. */
  lemma DefaultEndpointIsNormal()
    ensures NonEmpty(EffectiveEndpoint(Undefined))
    ensures NormalizeEndpoint(DefaultEndpoint) == DefaultEndpoint
  {
  }

  /** How the probe settles: a response resolves with its `ok` flag; a failure is
      caught as in `upload`: rejected with the same precedence, unless the thrown
      value is `null`, which leaves the promise unsettled. */
  function SettleProbe(outcome: Outcome): (s: Settled<bool>)
    ensures s.Resolved? <==> outcome.Responded?
    ensures s.Resolved? ==> s.value == outcome.response.ok
    ensures outcome.Errored? ==> (s.Unsettled? <==> !ReachesReject(outcome.error))
    ensures s.Rejected? ==> s.reason == Rejection(outcome.error) && !s.reason.LocalError?
  {
    match outcome
    case Responded(res) => Resolved(res.ok)
    case Errored(e) => Catch(e)
  }

  /** Documentation of the mirrored `catch` blocks, read off the two contracts above:
      the probe and an upload treat a transport failure alike. */
  lemma ProbeRejectsLikeUpload(e: TransportError, deserialize: string -> Parse)
    ensures SettleProbe(Errored(e)).Unsettled? == SettleUpload(Errored(e), deserialize).Unsettled?
    ensures SettleProbe(Errored(e)).Rejected? ==>
      SettleProbe(Errored(e)).reason == SettleUpload(Errored(e), deserialize).reason
  {
  }

  /** The probe URL, the detection URL and every extraction URL are pairwise distinct. */
  lemma FacadeUrlsDistinct(endpoint: string, f: Format)
    ensures DetectUrl(endpoint) != ExtractUrl(endpoint, f)
    ensures endpoint != DetectUrl(endpoint) && endpoint != ExtractUrl(endpoint, f)
  {
  }

  /** The probe request: a HEAD of the configured endpoint with no headers and no body. */
  function ProbeRequest(endpoint: string, timeoutMs: int): (r: RequestSpec)
    ensures r.verb == Head && r.url == endpoint && r.responseTimeoutMs == timeoutMs
    ensures r.headers == map[] && r.attachment.None?
  {
    RequestSpec(Head, endpoint, map[], None, timeoutMs)
  }

  class DocumentAtomSdk {
    // Public fields a caller may reassign; each facade keeps the configuration
    // its base was built with, so the sharing below lasts until such a reassignment.
    var config: SdkConfiguration
    var typeDetection: TypeDetection
    var extractAtom: ExtractAtom

    /** Every facade reads the one configuration the client holds. */
    ghost predicate Valid()
      reads this, config
    {
      config.Valid() && typeDetection.base.config == config && extractAtom.base.config == config
    }

    /** Allocation once the configuration exists: both facades are wired to it. */
    constructor (config: SdkConfiguration)
      requires config.Valid()
      ensures Valid() && this.config == config
      ensures fresh(typeDetection) && fresh(extractAtom)
    {
      this.config := config;
      var td := TypeDetection.New(config);
      var ea := ExtractAtom.New(config);
      typeDetection := td.value;
      extractAtom := ea.value;
    }

    /** `new DocumentAtomSdk(endpoint)`: an omitted endpoint becomes the default; an
        explicit null or empty endpoint fails the configuration's guard. */
    static method New(endpoint: Arg<string>) returns (r: Result<DocumentAtomSdk, Error>)
      ensures !NonEmpty(EffectiveEndpoint(endpoint)) ==> r == Failure(ArgumentNullException("Endpoint"))
      ensures NonEmpty(EffectiveEndpoint(endpoint)) ==>
        && r.Success? && fresh(r.value) && fresh(r.value.config) && r.value.Valid()
        && r.value.config.endpoint == NormalizeEndpoint(EffectiveEndpoint(endpoint).value)
        && r.value.config.timeoutMs == DefaultTimeoutMs
        && r.value.config.defaultHeaders == map[]
      ensures endpoint.Undefined? ==> r.Success? && r.value.config.endpoint == DefaultEndpoint
    {
      var c := SdkConfiguration.New(EffectiveEndpoint(endpoint));
      if c.Failure? {
        return Failure(c.error);
      }
      var sdk := new DocumentAtomSdk(c.value);
      r := Success(sdk);
    }

    /** `validateConnectivity(cancellationToken)`: one HEAD request of the endpoint with
        the configured timeout; a supplied token's `abort` is rebound to it. */
    method ValidateConnectivity(token: CancellationToken?, outcome: Outcome)
      returns (settled: Settled<bool>, sent: PendingRequest)
      modifies token
      ensures fresh(sent) && !sent.aborted
      ensures sent.spec == ProbeRequest(config.endpoint, config.timeoutMs)
      ensures settled == SettleProbe(outcome)
      ensures token != null ==> token.abort == AbortsRequest(sent) && token.signalAborted == old(token.signalAborted)
    {
      sent := new PendingRequest(ProbeRequest(config.endpoint, config.timeoutMs));
      if token != null {
        token.abort := AbortsRequest(sent);
      }
      settled := SettleProbe(outcome);
    }
  }

  /** A timeout set on the client's configuration is the one the next extraction
      request carries: the facades share that configuration. */
  method RetimeThenExtract(sdk: DocumentAtomSdk, ms: int, format: Format, payload: Payload,
                           token: CancellationToken?, outcome: Outcome, deserialize: string -> Parse)
    returns (err: Option<Error>, sent: PendingRequest?)
    requires sdk.Valid()
    modifies sdk.config, token
    ensures sdk.Valid()
    ensures ms < 1 <==> err.Some?
    ensures sent != null && sent.spec.url == ExtractUrl(sdk.config.endpoint, format)
    ensures sent.spec.responseTimeoutMs == if ms < 1 then old(sdk.config.timeoutMs) else ms
  {
    err := sdk.config.SetTimeoutMs(ms);
    var r;
    r, sent := sdk.extractAtom.Extract(format, Given(payload), token, outcome, deserialize);
  }
}
