/** Type detection: a payload guard, the `typedetect` URL and a call of `upload`. */
module Detection {
  import opened Js
  import opened Exceptions
  import opened Config
  import opened Base

  const DetectRoute := "typedetect"

  /** The detection URL: the configured endpoint followed by `typedetect`. */
  function DetectUrl(endpoint: string): (url: string)
    ensures endpoint <= url && |url| == |endpoint| + |DetectRoute|
    ensures url[|endpoint|..] == DetectRoute
  {
    endpoint + DetectRoute
  }

  class TypeDetection {
    const base: SdkBase

    constructor (base: SdkBase)
      ensures this.base == base
    {
      this.base := base;
    }

    /** `new TypeDetection(config)`: the base constructor's null guard decides. */
    static method New(config: SdkConfiguration?) returns (r: Result<TypeDetection, Error>)
      ensures config == null ==> r == Failure(ArgumentNullException("config"))
      ensures config != null ==> r.Success? && fresh(r.value) && fresh(r.value.base) && r.value.base.config == config
    {
      var b := SdkBase.New(config);
      if b.Failure? {
        return Failure(b.error);
      }
      var x := new TypeDetection(b.value);
      r := Success(x);
    }

    /** `detectType(fileBinary, cancellationToken)`: throws naming `fileBinary` before any
        request when the payload is missing; otherwise delegates to `upload` unchanged. */
    method DetectType(payload: Arg<Payload>, token: CancellationToken?, outcome: Outcome, deserialize: string -> Parse)
      returns (r: Result<Settled<Json>, Error>, sent: PendingRequest?)
      modifies token
      ensures !payload.Present() ==>
        && r == Failure(ArgumentNullException("fileBinary"))
        && sent == null
        && (token != null ==> unchanged(token))
      ensures payload.Present() ==>
        && sent != null && fresh(sent) && !sent.aborted
        && sent.spec == UploadRequest(DetectUrl(base.config.endpoint), payload.value,
                                      base.config.defaultHeaders, base.config.timeoutMs)
        && r == Success(SettleUpload(outcome, deserialize))
        && (token != null ==> token.abort == AbortsRequest(sent) && token.signalAborted == old(token.signalAborted))
    {
      if !payload.Present() {
        return Failure(ArgumentNullException("fileBinary")), null;
      }
      var url := DetectUrl(base.config.endpoint);
      var settled;
      settled, sent := base.Upload(Given(url), payload.value, token, outcome, deserialize);
      r := Success(settled);
    }
  }
}
