/** The client configuration: the service endpoint, the response timeout and the
    headers sent with every upload. */
module Config {
  import opened Js
  import opened Exceptions

  const DefaultTimeoutMs := 300000
  const TimeoutMessage := "TimeoutMs must be greater than 0."

  /** JavaScript's `s.endsWith('/')`. */
  predicate EndsWithSlash(s: string) {
    |s| > 0 && s[|s| - 1] == '/'
  }

  /** The endpoint as stored: a `/` is appended when it does not already end in one. */
  function NormalizeEndpoint(s: string): (r: string)
    ensures EndsWithSlash(r)
    ensures s <= r && |r| <= |s| + 1
    ensures EndsWithSlash(s) ==> r == s
  {
    if EndsWithSlash(s) then s else s + "/"
  }

  /** Normalisation adds as little as it can: no extension of `s` that ends
      in `/` is shorter than the normalised endpoint. */
  lemma NormalizeIsShortest(s: string, t: string)
    requires s <= t && EndsWithSlash(t)
    ensures |NormalizeEndpoint(s)| <= |t|
  {
  }

  /** Storing an endpoint that is already normalised leaves it as it is. */
  lemma NormalizeIdempotent(s: string)
    ensures NormalizeEndpoint(NormalizeEndpoint(s)) == NormalizeEndpoint(s)
  {
  }

  /** Only a missing slash is added: an endpoint ending in two slashes keeps both. */
  lemma DoubleSlashKept()
    ensures NormalizeEndpoint("http://test.com//") == "http://test.com//"
    ensures NormalizeEndpoint("http://test.com") == "http://test.com/"
  {
  }

  class SdkConfiguration {
    var endpoint: string
    var timeoutMs: int
    var defaultHeaders: map<string, string>

    /** The class invariant: a non-empty endpoint ending in `/` and a positive timeout. */
    ghost predicate Valid()
      reads this
      ensures Valid() ==> endpoint != "" && NormalizeEndpoint(endpoint) == endpoint
    {
      endpoint != "" && EndsWithSlash(endpoint) && timeoutMs >= 1
    }

    /** Allocation once the endpoint has passed the guard of `New`; the fields are
        assigned through the setters, as the source's constructor does. */
    constructor (endpoint: string)
      requires endpoint != ""
      ensures Valid()
      ensures this.endpoint == NormalizeEndpoint(endpoint)
      ensures timeoutMs == DefaultTimeoutMs && defaultHeaders == map[]
    {
      new;
      var setError := SetEndpoint(Given(NormalizeEndpoint(endpoint)));
      NormalizeIdempotent(endpoint);
      var timeoutError := SetTimeoutMs(DefaultTimeoutMs);
      defaultHeaders := map[];
    }

    /** `new SdkConfiguration(endpoint)`: throws when the endpoint is null, undefined or empty. */
    static method New(endpoint: Arg<string>) returns (r: Result<SdkConfiguration, Error>)
      ensures !NonEmpty(endpoint) ==> r == Failure(ArgumentNullException("Endpoint"))
      ensures NonEmpty(endpoint) ==>
        && r.Success? && fresh(r.value) && r.value.Valid()
        && r.value.endpoint == NormalizeEndpoint(endpoint.value)
        && r.value.timeoutMs == DefaultTimeoutMs
        && r.value.defaultHeaders == map[]
    {
      if !NonEmpty(endpoint) {
        return Failure(ArgumentNullException("Endpoint"));
      }
      var c := new SdkConfiguration(endpoint.value);
      r := Success(c);
    }

    /** The `endpoint` setter: rejects a null, undefined or empty value and keeps the
        old endpoint; otherwise stores the normalised value. Nothing else changes. */
    method SetEndpoint(value: Arg<string>) returns (err: Option<Error>)
      modifies this`endpoint
      ensures !NonEmpty(value) ==> err == Some(ArgumentNullException("Endpoint")) && endpoint == old(endpoint)
      ensures NonEmpty(value) ==> err == None && endpoint == NormalizeEndpoint(value.value)
      ensures timeoutMs == old(timeoutMs) && defaultHeaders == old(defaultHeaders)
      ensures old(Valid()) ==> Valid()
    {
      if !NonEmpty(value) {
        return Some(ArgumentNullException("Endpoint"));
      }
      endpoint := NormalizeEndpoint(value.value);
      err := None;
    }

    /** The `timeoutMs` setter: rejects a value below 1 and keeps the old timeout;
        otherwise stores the value. Nothing else changes. */
    method SetTimeoutMs(value: int) returns (err: Option<Error>)
      modifies this`timeoutMs
      ensures value < 1 ==> err == Some(GenericException(TimeoutMessage)) && timeoutMs == old(timeoutMs)
      ensures value >= 1 ==> err == None && timeoutMs == value
      ensures endpoint == old(endpoint) && defaultHeaders == old(defaultHeaders)
      ensures old(Valid()) ==> Valid()
    {
      if value < 1 {
        return Some(GenericException(TimeoutMessage));
      }
      timeoutMs := value;
      err := None;
    }
  }
}
