# DocumentAtom client SDK — a Dafny model of its transport core

DocumentAtom's JavaScript client sends documents to a remote service. The service detects a
document's type and extracts its content "atoms". This project models the client's core with
the network taken out. The transport's result for a request is an input value (`Outcome`). The
model keeps the rest of the client's logic:

- **Configuration** (`Config.SdkConfiguration`). A class with a guarded `endpoint` setter that
  appends a missing trailing `/`. It also has a guarded `timeoutMs` setter (values below 1 are
  refused) and a public `defaultHeaders` map. The defaults are fixed at construction. The
  invariant `Valid()` holds from construction on: the endpoint is non-empty and ends in `/`, and
  the timeout is at least 1.
- **Transport primitive** (`Base.SdkBase.Upload`). It checks the URL. It builds one request: a
  POST with the default headers, `Content-Length` set to the declared size, the payload attached
  as field `file`, and the configured response timeout. If the caller supplies a cancellation
  token, `Upload` rebinds the token's `abort` to this request. The promise settles from the
  outcome. A response resolves with the deserialised text, and empty text counts as `"{}"`. A
  failure is rejected with the response body if it is truthy, else the error message if it is
  non-empty, else the thrown value.
- **Connectivity probe** (`Sdk.DocumentAtomSdk.ValidateConnectivity`). It sends a HEAD of the
  endpoint, with the same timeout and token binding as an upload. It resolves with the
  response's `ok` flag and rejects with the same precedence as an upload.
- **Endpoint facades** (`Extraction.ExtractAtom.Extract` for the ten formats, and
  `Detection.TypeDetection.DetectType`). Each one guards against a null payload. It builds its
  URL as the endpoint followed by a fixed route, then hands the payload and token to `Upload`
  unchanged.

How JavaScript concepts are modelled:

- Arguments that may be `undefined` or `null` are `Js.Arg` values.
- The source's truthiness tests (`!url`, `!msg`, `err.response.body || null`) are written out in
  `Js.NonEmpty`, `Arg.Present` and `Js.Truthy`.
- A constructor that throws becomes a static `New` that returns a `Result`, plus a constructor
  that does the allocation once the guard has passed.
- The facades extend `SdkBase` in the source. Here each facade holds a `base: SdkBase` instead.
- The deserialiser (`Serializer.deserializeJson`) is not part of this model. Every operation that
  uses it takes it as a parameter. If it throws, the throw reaches the same `catch` callback as
  a transport failure.
- The `catch` callbacks read `err.message` for their log line before choosing a rejection. A
  thrown `null` makes that read throw, so `reject` is never called and the promise never settles
  (`Base.Settled.Unsettled`, decided by `Base.ReachesReject`).

Notes on what the code does; the model follows the code in each case:

- The endpoint is not reduced to "exactly one" trailing slash. A `/` is only appended when the
  endpoint lacks one, so `http://test.com//` is kept as it is (`Config.DoubleSlashKept`).
- `Content-Length` is set on every upload, not only when a size is declared. When the payload
  has no size, the header's value is `undefined` (`None` in the header map). That value still
  overrides a default `Content-Length`.
- The third rule of the rejection precedence rejects with the raw thrown value. So an
  unnormalised transport error can reach the caller.
- The facades pass their `Buffer` straight to `upload`, which expects `{buffer, size}`. The model
  gives the payload an optional size and does not reproduce that type mismatch.

## Model

| member | source | states |
|---|---|---|
| `Config.NormalizeEndpoint` | src/base/SdkConfiguration.ts:40 | the stored endpoint ends in `/`, extends the input by at most one character, and equals the input when it already ends in `/` |
| `Config.NormalizeIsShortest` | src/base/SdkConfiguration.ts:40 | no extension of the input that ends in `/` is shorter than the normalised endpoint |
| `Config.NormalizeIdempotent` | src/base/SdkConfiguration.ts:18 | normalising an already-normalised endpoint changes nothing (the constructor normalises and then the setter normalises again) |
| `Config.DoubleSlashKept` | src/base/SdkConfiguration.ts:40 | `http://test.com//` is kept as it is and `http://test.com` gains one `/` |
| `Config.SdkConfiguration.Valid` | src/base/SdkConfiguration.ts:13-61 | the class invariant: the endpoint is non-empty and already normalised (ends in `/`), and the timeout is at least 1 |
| `Config.SdkConfiguration.constructor` | src/base/SdkConfiguration.ts:13-21 | after the guard, the endpoint is the normalised input, the timeout is 300000, the headers are empty, and the invariant holds |
| `Config.SdkConfiguration.New` | src/base/SdkConfiguration.ts:13-21 | an empty, null or undefined endpoint throws `ArgumentNullException` naming `Endpoint`; otherwise a fresh valid configuration with the defaults |
| `Config.SdkConfiguration.SetEndpoint` | src/base/SdkConfiguration.ts:36-41 | an empty, null or undefined value throws and the endpoint is unchanged; otherwise the endpoint becomes the normalised value; timeout and headers never change; the invariant is preserved |
| `Config.SdkConfiguration.SetTimeoutMs` | src/base/SdkConfiguration.ts:56-61 | a value below 1 throws "TimeoutMs must be greater than 0." and the old timeout is kept; otherwise the getter returns the value; endpoint and headers never change; the invariant is preserved |
| `Exceptions.ArgumentNullMessageNamesParameter` | test/sdk.test.ts:46-52 | two `ArgumentNullException` messages are equal only if they name the same parameter |
| `Base.Log` | src/base/SdkBase.ts:33-36 | the logger is called, with the given severity and message, exactly when the message is non-empty |
| `Base.RequestHeaders` | src/base/SdkBase.ts:55 | `Content-Length` maps to the declared size, overriding any default of that name; every other default header is kept; no other header is added |
| `Base.UploadRequest` | src/base/SdkBase.ts:53-57 | the upload is a POST to the given URL, with the payload bytes attached as field `file`, the response timeout given, `Content-Length` set to the declared size and every other default header kept |
| `Base.ResponseText` | src/base/SdkBase.ts:68 | the deserialised text is never empty: the response text if it is non-empty, otherwise `"{}"` |
| `Js.Truthy` | src/base/SdkBase.ts:72-73 | a JSON value is falsy exactly when it is `null`, `false`, `0` or `""`; this decides `err.response.body || null` and `if (errorResponse)` |
| `Base.Catch` | src/base/SdkBase.ts:70-78 | the `catch` callback never resolves; it leaves the promise unsettled exactly when the thrown value is `null`, and otherwise rejects through `Rejection` |
| `Base.Rejection` | src/base/SdkBase.ts:72-77 | exactly one of three rejections is chosen, in order: a truthy response body, else a non-empty message, else the raw error |
| `Base.SettleUpload` | src/base/SdkBase.ts:65-78 | an upload resolves exactly when there is a response whose text deserialises, and then with that value; every caught failure (a transport failure or a throwing deserialiser) is rejected through `Rejection`, except a thrown `null`, which leaves the promise unsettled |
| `Base.EmptyTextIsEmptyObject` | src/base/SdkBase.ts:68 | missing text, empty text and `"{}"` settle an upload identically |
| `Base.PendingRequest.constructor` | src/base/SdkBase.ts:53-57 | a request is built with its description and is not aborted |
| `Base.PendingRequest.Abort` | src/base/SdkBase.ts:61 | aborting marks the request aborted |
| `Base.CancellationToken.constructor` | test/sdk.test.ts:249 | a fresh token's `abort` is its controller's own and no request is bound |
| `Base.CancellationToken.InvokeAbort` | src/base/SdkBase.ts:60-63 | a bound `abort` aborts its request and nothing else; an unbound one affects no request |
| `Base.SdkBase.constructor` | src/base/SdkBase.ts:20-26 | the base keeps the configuration it was given |
| `Base.SdkBase.New` | src/base/SdkBase.ts:20-26 | a null configuration throws `ArgumentNullException` naming `config` |
| `Base.SdkBase.Upload` | src/base/SdkBase.ts:46-80 | an empty, null or undefined URL rejects with "URL cannot be null or empty.", builds no request and leaves the token alone; otherwise one fresh request with the configuration's current headers and timeout, the token rebound to it, and the settlement given by `SettleUpload` |
| `Base.TokenRebinding` | src/base/SdkBase.ts:59-64 | a second upload with the same token overwrites the binding: aborting through the token then aborts the second request and not the first |
| `Extraction.ExtractUrl` | src/sdks/ExtractAtom.ts:21-165 | every extraction URL is the endpoint followed by the format's route, so the endpoint is a proper prefix and the URL is never empty |
| `Extraction.ExtractUrlsDistinct` | src/sdks/ExtractAtom.ts:21-165 | the ten extraction URLs are pairwise distinct |
| `Extraction.Guard` | src/sdks/ExtractAtom.ts:17-163 | the guard fails exactly on a null or undefined payload, with an `ArgumentNullException` naming `filePath` for `word` and `fileBinary` for every other format |
| `Extraction.ExtractAtom.constructor` | src/sdks/ExtractAtom.ts:7-9 | the facade keeps the base it was given |
| `Extraction.ExtractAtom.New` | src/sdks/ExtractAtom.ts:7-9 | a null configuration throws through the base constructor; otherwise the facade's base holds that configuration |
| `Extraction.ExtractAtom.Extract` | src/sdks/ExtractAtom.ts:16-168 | a missing payload throws before any request and leaves the token alone; otherwise the request is `upload`'s on the endpoint plus the format's route, payload and token passed unchanged, and `upload`'s settlement returned unchanged |
| `Detection.DetectUrl` | src/sdks/TypeDetection.ts:28 | the detection URL is the endpoint followed by `typedetect` |
| `Detection.TypeDetection.constructor` | src/sdks/TypeDetection.ts:13-15 | the facade keeps the base it was given |
| `Detection.TypeDetection.New` | src/sdks/TypeDetection.ts:13-15 | a null configuration throws through the base constructor; otherwise the facade's base holds that configuration |
| `Detection.TypeDetection.DetectType` | src/sdks/TypeDetection.ts:23-31 | a missing payload throws naming `fileBinary` before any request; otherwise `upload` on the detection URL with payload and token unchanged, and its settlement returned unchanged |
| `Sdk.EffectiveEndpoint` | src/base/DocumentAtomSdk.ts:24 | only an omitted endpoint is replaced by `http://localhost:8000/`; `null` and `""` are passed on |
| `Sdk.DefaultEndpointIsNormal` | src/base/DocumentAtomSdk.ts:24-25 | the default endpoint passes the guard and is stored unchanged |
| `Sdk.SettleProbe` | src/base/DocumentAtomSdk.ts:48-61 | the probe resolves exactly on a response, with its `ok` flag; a failure is rejected through `Rejection`, except a thrown `null`, which leaves the promise unsettled |
| `Sdk.ProbeRejectsLikeUpload` | src/base/DocumentAtomSdk.ts:53-61 | the probe and an upload treat a transport failure alike: both leave it unsettled or both reject it with the same value |
| `Sdk.FacadeUrlsDistinct` | src/sdks/TypeDetection.ts:28 | the probe URL, the detection URL and each extraction URL are pairwise distinct |
| `Sdk.DocumentAtomSdk.constructor` | src/base/DocumentAtomSdk.ts:24-30 | both facades are fresh and wired to the one configuration |
| `Sdk.DocumentAtomSdk.New` | src/base/DocumentAtomSdk.ts:24-30 | an omitted endpoint gives `http://localhost:8000/`; a null or empty one throws the configuration's `ArgumentNullException`; otherwise a valid client whose facades share its fresh configuration |
| `Sdk.ProbeRequest` | src/base/DocumentAtomSdk.ts:40 | the probe is a HEAD of the endpoint with the given response timeout, no headers and no attachment |
| `Sdk.DocumentAtomSdk.ValidateConnectivity` | src/base/DocumentAtomSdk.ts:38-63 | one fresh HEAD request of the current endpoint with the current timeout, the token rebound to it, and the settlement given by `SettleProbe` |
| `Sdk.RetimeThenExtract` | src/base/DocumentAtomSdk.ts:25-29 | a timeout set on the client's configuration is the one the next extraction request carries; a refused timeout leaves the old one in force |

## Left out

- The network, superagent and Promise scheduling are not modelled. Each request's result is the
  `Outcome` input, and settlement happens within the call. Timeout racing, redirects and what an
  abort does to an in-flight promise are not modelled.
- `Serializer.deserializeJson` is not part of this model. It is a parameter of every operation
  that uses it.
- `Logger` is not modelled. Only the empty-message guard of `SdkBase.log` is kept (`Base.Log`).
  `Upload` and the probe write debug and warning log lines, and those are not modelled.
- `GenericExceptionHandlers` is not part of this model. Its calls are modelled as thrown
  `Exceptions.Error` values carrying the messages the tests expect.
- `Helper` (src/utils/Helper.ts) and `Utils` are filesystem reads, so they are left out. The
  client's third facade, `Helper`, is therefore not wired in `Sdk.DocumentAtomSdk`.
- `Atom`, `Quark` and the type-detection response are pass-through JSON (`Js.Json`).
- JavaScript numbers are modelled as integers. A fractional or `NaN` timeout is not modelled
  (`NaN < 1` is false, so the setter would store it).
- Header names are compared exactly as JavaScript object keys are. superagent later lowercases
  header names, and that step is not modelled.
- `Base.SdkBase.Upload`: the payload is always given. In the source, `upload(url, undefined)`
  does not throw. With a non-empty URL it returns a promise rejected with the `TypeError` raised
  by reading `data.size` inside the promise executor, and that rejection bypasses the `catch`
  precedence. This case is not modelled. The facades guard against a missing payload before
  calling `Upload`.
- A thrown `undefined` is not representable (`Js.Json` has no `undefined`). It would leave the
  promise unsettled, as a thrown `null` does.
- `Sdk.DocumentAtomSdk`: the fields `config`, `typeDetection` and `extractAtom` are public and
  assignable. Each facade keeps the configuration its base was built with. So the sharing stated
  by `Valid()` holds from construction until a caller reassigns one of these fields. No member
  of the model assigns them afterwards.
- The raw `Buffer` that the facades pass is not modelled: the source attaches its `.buffer`, not
  the bytes. The model attaches the payload's bytes.
