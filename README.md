# License-request callback of the ExoPlayer sample app

This project models `CustomMediaDrmCallback`, the DRM callback that the sample
player would hand to its DRM session manager. When the session asks for a
license, the callback does four things:

1. It resolves the license server URL. A forced default URL wins. Otherwise
   the key request's own URL is used when it is non-empty, and the default URL
   when it is not.
2. If no URL resolves, it throws a callback exception ("No license URL")
   without building a request.
3. It builds the request headers. First comes a `Content-Type` chosen by the
   scheme UUID: `text/xml` for Widevine, `application/json` for ClearKey,
   `application/octet-stream` for any other UUID. Widevine also gets a
   `SOAPAction` header. Then the stored extra headers are merged on top.
4. It posts the challenge with the gzip flag set. An invalid response code
   is swallowed and the same request is opened again. The first delivered
   body is returned. Any other failure is rethrown as a callback exception
   that carries the request as first built.

The constructor rejects a forced default URL that is empty. Provisioning is
a constant no-op.

Modules:

- `Wrappers` (`wrappers.dfy`): `Option` and `Result`.
- `Upstream` (`upstream.dfy`): the library values the callback uses. These
  are URIs, `TextUtils.isEmpty`, the data specification (URI, method, body,
  headers, flags) with the builder's defaults, and the `Attempt` datatype. An
  `Attempt` is how one pass over an opened input stream ends: `Delivered`,
  `InvalidResponseCode` or `Failed`. A `Failed` attempt also carries what the
  data source observed.
- `MediaDrm` (`media_drm.dfy`): the UUID constants, the header and URL
  functions, and the class `CustomMediaDrmCallback`. The class has a
  constructor, the two-argument constructor, a checked `Create`, and the
  methods `ExecuteKeyRequest` and `ExecutePost`. Each method is proved equal
  to a specification function (`KeyRequestOutcome`, `KeyRequestsSent`,
  `PostOutcome`).
- `MediaDrmProperties` (`media_drm_properties.dfy`): lemmas that relate
  several calls, plus two end-to-end scenarios.

The transport is a parameter. `attempts` is a script: the transport's answers
to the successive openings of the request, as far as the script goes. Each
method also returns `sent`, the openings of the request that the script
covers. When no URL resolves, `sent == []` whatever the script, so no request
is made. When a URL resolves and the script is non-empty, the request is
opened at least once. If every scripted answer is an invalid response code
(or the script is empty), the outcome is `Reissuing`: the script has run out,
and the source would open the identical request again, with no bound.

## Model

| member | source | states |
|---|---|---|
| `MediaDrm.CustomMediaDrmCallback.constructor` | app/src/main/java/com/example/exoplayer/CustomMediaDrmCallback.java:39-48 | Needs the argument check to hold (no forced default URL that is empty). Stores both arguments and starts with an empty extra-header map, so the callback is valid. |
| `MediaDrm.CustomMediaDrmCallback.WithDefaultLicenseUrl` | app/src/main/java/com/example/exoplayer/CustomMediaDrmCallback.java:34-37 | The two-argument constructor never forces the default URL, so it has no precondition and its result always satisfies the argument check. |
| `MediaDrm.CustomMediaDrmCallback.Create` | app/src/main/java/com/example/exoplayer/CustomMediaDrmCallback.java:43 | Throws `IllegalArgumentException` exactly when the default URL is forced and empty. Otherwise it returns a fresh, valid callback holding the given arguments and no extra headers. |
| `MediaDrm.CustomMediaDrmCallback.ExecuteProvisionRequest` | app/src/main/java/com/example/exoplayer/CustomMediaDrmCallback.java:53-55 | Always returns an empty response. It takes no transport, so it cannot make a request. |
| `MediaDrm.ArgumentsAccepted` | app/src/main/java/com/example/exoplayer/CustomMediaDrmCallback.java:43 | The argument check always passes when the default URL is not forced. When it is forced, the check passes exactly when the default URL is present and non-empty. |
| `MediaDrm.NoLicenseUrlException` | app/src/main/java/com/example/exoplayer/CustomMediaDrmCallback.java:72-77 | The missing-URL exception carries an empty-URI GET request with no body, headers or flags. It also has an empty URI after redirects, no response headers, zero bytes loaded and an illegal-state cause "No license URL". |
| `MediaDrm.ResolveLicenseUrl` | app/src/main/java/com/example/exoplayer/CustomMediaDrmCallback.java:66-69 | Forced: the default URL. Not forced and the request URL non-empty: the request URL. Otherwise: the default URL. If the constructor check holds, the result is empty exactly when both URLs are empty. |
| `MediaDrm.ContentType` | app/src/main/java/com/example/exoplayer/CustomMediaDrmCallback.java:82-85 | Returns one of three values. `text/xml` exactly for the Widevine UUID, `application/json` exactly for the ClearKey UUID, `application/octet-stream` exactly for every other UUID. |
| `MediaDrm.SchemeHeaders` | app/src/main/java/com/example/exoplayer/CustomMediaDrmCallback.java:79-90 | `Content-Type` is always present with the scheme's content type. `SOAPAction` is present exactly for Widevine, with the AcquireLicense literal. No other header appears. |
| `MediaDrm.MergedHeaders` | app/src/main/java/com/example/exoplayer/CustomMediaDrmCallback.java:91-94 | Keys are the scheme keys plus the extra keys. On a collision the extra value wins. A scheme header the extras do not name keeps its value. With no extras the result is exactly the scheme headers. |
| `MediaDrm.PostDataSpec` | app/src/main/java/com/example/exoplayer/CustomMediaDrmCallback.java:117-124 | The built request has the given URL as URI, the POST method, the challenge as body, the given headers, and the gzip flag. |
| `MediaDrm.AnswerOf` | app/src/main/java/com/example/exoplayer/CustomMediaDrmCallback.java:131-144 | A delivered body is returned as it is. A failure is thrown as a callback exception carrying the given request, the transport's last opened URI, its response headers and byte count, and its error as cause. Only an invalid response code leaves the request reissuing. |
| `MediaDrm.FirstAnswer` | app/src/main/java/com/example/exoplayer/CustomMediaDrmCallback.java:128-137 | Every attempt before the returned index is an invalid response code. The attempt at the index, if there is one, is not. |
| `MediaDrm.PostOutcome` | app/src/main/java/com/example/exoplayer/CustomMediaDrmCallback.java:125-145 | Reissuing exactly when every attempt is an invalid response code. Otherwise the first other attempt decides. A returned body was delivered by some attempt. A thrown exception carries the original request and a transport cause. |
| `MediaDrm.AttemptsMade` | app/src/main/java/com/example/exoplayer/CustomMediaDrmCallback.java:128-137 | The request is opened once per attempt, up to and including the first answer. If no attempt answers, it is opened once for each of them. A non-empty script means at least one opening. |
| `MediaDrm.KeyRequestOutcome` | app/src/main/java/com/example/exoplayer/CustomMediaDrmCallback.java:65-97 | The no-license-URL exception is the outcome exactly when no URL resolves. Otherwise the outcome is that of posting the challenge with the merged headers to the resolved URL. |
| `MediaDrm.KeyRequestsSent` | app/src/main/java/com/example/exoplayer/CustomMediaDrmCallback.java:96-124 | Nothing is sent when no URL resolves. Otherwise one request per attempt made, and at least one when the script is non-empty. Each has the resolved URL, POST, the challenge as body, the merged headers and the gzip flag. |
| `MediaDrm.CustomMediaDrmCallback.ExecuteKeyRequest` | app/src/main/java/com/example/exoplayer/CustomMediaDrmCallback.java:65-97 | The imperative URL reassignment and the put/put/putAll header building yield exactly `KeyRequestOutcome` and `KeyRequestsSent` for the callback's own configuration. |
| `MediaDrm.CustomMediaDrmCallback.ExecutePost` | app/src/main/java/com/example/exoplayer/CustomMediaDrmCallback.java:109-146 | The reissue loop returns `PostOutcome` of the built request. It hands the transport that same request `AttemptsMade` times. |
| `MediaDrmProperties.ForcedDefaultIgnoresRequestUrl` | app/src/main/java/com/example/exoplayer/CustomMediaDrmCallback.java:66-69 | With the default URL forced, any two request URLs give the same outcome and the same requests, all sent to the default URL. |
| `MediaDrmProperties.NoLicenseUrlExactlyWhenBothEmpty` | app/src/main/java/com/example/exoplayer/CustomMediaDrmCallback.java:66-78 | If the constructor check holds, the no-license-URL exception is thrown exactly when both the request URL and the default URL are empty. In that case nothing is sent. |
| `MediaDrmProperties.ConstructedCallbackSendsSchemeHeaders` | app/src/main/java/com/example/exoplayer/CustomMediaDrmCallback.java:79-94 | Every valid callback has the empty extra-header map its constructor installs, so every request it sends carries exactly the scheme headers. |
| `MediaDrmProperties.LaterAnswersIgnored` | app/src/main/java/com/example/exoplayer/CustomMediaDrmCallback.java:128-137 | Once an attempt has answered, appending more transport answers changes neither the outcome nor the number of openings. |
| `MediaDrmProperties.InvalidRunThenRest` | app/src/main/java/com/example/exoplayer/CustomMediaDrmCallback.java:128-137 | A run of invalid response codes leaves the outcome to the attempts that follow. It adds its own length to their number of openings. |
| `MediaDrmProperties.PersistentInvalidResponseReissues` | app/src/main/java/com/example/exoplayer/CustomMediaDrmCallback.java:128-137 | A transport that only answers with invalid response codes never gets a return or a throw. The identical request is reopened once per answer. |
| `MediaDrmProperties.WidevineScenario` | app/src/main/java/com/example/exoplayer/CustomMediaDrmCallback.java:65-124 | Widevine, empty request URL, unforced default URL: one POST goes to the default URL with `text/xml`, the SOAPAction literal and the challenge as body. The delivered bytes are returned. |
| `MediaDrmProperties.ConnectionErrorScenario` | app/src/main/java/com/example/exoplayer/CustomMediaDrmCallback.java:138-144 | A failure before any byte is read throws an exception that carries the built request, the last opened URI, zero bytes loaded and the transport's error as cause. |

## Left out

- `MainActivity.java` is not part of this model. It is activity lifecycle, UI and player construction, and its callback wiring is commented out.
- HTTP I/O. Creating the data source, reading the stream into a byte array and closing it quietly are replaced by the `attempts` parameter, and the data source factory field goes with them. An exception from `createDataSource` itself, outside the `try`, is not modelled.
- Unbounded reissuing. The `while (true)` loop is followed only as far as the listed attempts go. When all of them are invalid response codes, the outcome is `Reissuing` and not an endless loop. Termination of the source loop is not claimed.
- The diagnostic fields of a transport failure (last opened URI, response headers, bytes read) are taken as the transport reports them with the failing attempt. The statistics data source's own counting across attempts and the `checkNotNull` on the last opened URI are not modelled.
- The `synchronized` block around the extra headers is read as a plain read. Concurrency is out of scope.
- URIs are kept as the text they were parsed from. The library's URI parsing and the data-spec builder's own checks are not modelled.
- The extra-header map has no mutator. The class never changes it after the constructor empties it, so the model has no setter either. The merge is modelled for any map.
- The scheme UUID cannot be null. The source's `equals` tests would accept a null UUID and choose `application/octet-stream`, but the DRM session always passes a scheme UUID.
- The key request's license server URL is modelled as nullable, like every string `TextUtils.isEmpty` accepts. This is more general than the library type, which is never null.
