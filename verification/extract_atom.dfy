/** Atom extraction: one endpoint per document format, each a payload guard, a URL
    built from the configured endpoint, and a call of `upload`. */
module Extraction {
  import opened Js
  import opened Exceptions
  import opened Config
  import opened Base

  datatype Format = Excel | Html | Markdown | Ocr | Pdf | Png | PowerPoint | Rtf | Text | Word

  /** The path appended to the endpoint for each format. */
  function Route(f: Format): string {
    match f
    case Excel => "atom/excel"
    case Html => "atom/html"
    case Markdown => "atom/markdown"
    case Ocr => "atom/ocr"
    case Pdf => "atom/pdf"
    case Png => "atom/png"
    case PowerPoint => "atom/powerpoint?ocr"
    case Rtf => "atom/rtf"
    case Text => "atom/text"
    case Word => "atom/word"
  }

  /** The extraction URL: the configured endpoint with the format's route after it,
      so never the empty URL that `upload` rejects. */
  function ExtractUrl(endpoint: string, f: Format): (url: string)
    ensures endpoint <= url && |url| > |endpoint|
    ensures url[|endpoint|..] == Route(f)
    ensures url != ""
  {
    endpoint + Route(f)
  }

  /** Different formats post to different URLs. */
  lemma ExtractUrlsDistinct(endpoint: string, f: Format, g: Format)
    requires f != g
    ensures ExtractUrl(endpoint, f) != ExtractUrl(endpoint, g)
  {
  }

  /** The parameter an extraction call names when its payload is missing. */
  function PayloadParameter(f: Format): string {
    if f == Word then "filePath" else "fileBinary"
  }

  /** The payload guard: a null or undefined payload is refused, naming `fileBinary`
      (`filePath` for Word); any given payload, even an empty one, passes. */
  function Guard(f: Format, payload: Arg<Payload>): (err: Option<Error>)
    ensures err.Some? <==> !payload.Present()
    ensures err.Some? ==> err.value.ArgumentNullException? && err.value.parameter in {"fileBinary", "filePath"}
    ensures err.Some? ==> (err.value.parameter == "filePath" <==> f == Word)
  {
    if payload.Present() then None else Some(ArgumentNullException(PayloadParameter(f)))
  }

  class ExtractAtom {
    const base: SdkBase

    constructor (base: SdkBase)
      ensures this.base == base
    {
      this.base := base;
    }

    /** `new ExtractAtom(config)`: the base constructor's null guard decides. */
    static method New(config: SdkConfiguration?) returns (r: Result<ExtractAtom, Error>)
      ensures config == null ==> r == Failure(ArgumentNullException("config"))
      ensures config != null ==> r.Success? && fresh(r.value) && fresh(r.value.base) && r.value.base.config == config
    {
      var b := SdkBase.New(config);
      if b.Failure? {
        return Failure(b.error);
      }
      var x := new ExtractAtom(b.value);
      r := Success(x);
    }

    /** The extraction call for one format (`excel`, `html`, ..., `word`): throws before
        any request when the payload is missing; otherwise hands the payload and token
        to `upload` unchanged, on the URL built from the endpoint as it stands now,
        and returns what `upload` returns. */
    method Extract(format: Format, payload: Arg<Payload>, token: CancellationToken?, outcome: Outcome, deserialize: string -> Parse)
      returns (r: Result<Settled<Json>, Error>, sent: PendingRequest?)
      modifies token
      ensures !payload.Present() ==>
        && r == Failure(ArgumentNullException(PayloadParameter(format)))
        && sent == null
        && (token != null ==> unchanged(token))
      ensures payload.Present() ==>
        && sent != null && fresh(sent) && !sent.aborted
        && sent.spec == UploadRequest(ExtractUrl(base.config.endpoint, format), payload.value,
                                      base.config.defaultHeaders, base.config.timeoutMs)
        && r == Success(SettleUpload(outcome, deserialize))
        && (token != null ==> token.abort == AbortsRequest(sent) && token.signalAborted == old(token.signalAborted))
    {
      var err := Guard(format, payload);
      if err.Some? {
        return Failure(err.value), null;
      }
      var url := ExtractUrl(base.config.endpoint, format);
      var settled;
      settled, sent := base.Upload(Given(url), payload.value, token, outcome, deserialize);
      r := Success(settled);
    }
  }
}
