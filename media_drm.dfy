/** The license-request callback: it resolves the license server URL, builds
    the scheme-dependent request headers, and posts the key request's
    challenge through an injected transport, turning every failure into a
    callback exception that carries the request it was about. */
module MediaDrm {
  import opened Wrappers
  import opened Upstream

  /** A DRM scheme identifier, as the two 64-bit halves of a UUID. */
  datatype Uuid = Uuid(mostSignificantBits: bv64, leastSignificantBits: bv64)

  /** The Widevine system identifier, edef8ba9-79d6-4ace-a3c8-27dcd51d21ed. */
  const WidevineUuid: Uuid := Uuid(0xEDEF_8BA9_79D6_4ACE, 0xA3C8_27DC_D51D_21ED)

  /** The ClearKey system identifier, e2719d58-a985-b3c9-781a-b030af78d30e. */
  const ClearKeyUuid: Uuid := Uuid(0xE271_9D58_A985_B3C9, 0x781A_B030_AF78_D30E)

  /** A key request from the DRM session: the challenge bytes and the
      license server URL the scheme itself suggests (possibly null or empty). */
  datatype KeyRequest = KeyRequest(data: Bytes, licenseServerUrl: Option<string>)

  /** A provisioning request; the callback never looks inside it. */
  datatype ProvisionRequest = ProvisionRequest(data: Bytes, defaultUrl: string)

  /** What made a callback exception: a local illegal state, or the transport's error. */
  datatype Cause = IllegalState(message: string) | Transport(error: TransportError)

  /** The exception the callback throws: the request it was about, the URI the
      data source ended up at, the response headers and byte count observed,
      and the cause. */
  datatype MediaDrmCallbackException = MediaDrmCallbackException(
    dataSpec: DataSpec,
    uriAfterRedirects: Uri,
    responseHeaders: map<string, seq<string>>,
    bytesLoaded: nat,
    cause: Cause)

  /** The exception a rejected constructor argument raises. */
  datatype IllegalArgumentException = IllegalArgumentException

  /** How a key request ends: the license response, a thrown exception, or,
      when the transport's script runs out with nothing but invalid response
      codes, still reissuing the same request (the source loops on). */
  datatype KeyResponse =
    | Returned(response: Bytes)
    | Threw(exception: MediaDrmCallbackException)
    | Reissuing

  const ContentTypeHeader: string := "Content-Type"
  const SoapActionHeader: string := "SOAPAction"
  const TextXml: string := "text/xml"
  const ApplicationJson: string := "application/json"
  const OctetStream: string := "application/octet-stream"
  const AcquireLicenseAction: string := "http://schemas.microsoft.com/DRM/2007/03/protocols/AcquireLicense"
  const NoLicenseUrlMessage: string := "No license URL"

  // ---------------------------------------------------------------------------
  // Construction
  // ---------------------------------------------------------------------------

  /** The constructor's argument check: the default license URL may only be
      forced when there is one. */
  predicate ArgumentsAccepted(defaultLicenseUrl: Option<string>, forceDefaultLicenseUrl: bool)
    ensures !forceDefaultLicenseUrl ==> ArgumentsAccepted(defaultLicenseUrl, forceDefaultLicenseUrl)
    ensures forceDefaultLicenseUrl ==>
              (ArgumentsAccepted(defaultLicenseUrl, forceDefaultLicenseUrl)
               <==> defaultLicenseUrl.Some? && |defaultLicenseUrl.value| > 0)
  {
    !(forceDefaultLicenseUrl && IsEmpty(defaultLicenseUrl))
  }

  // ---------------------------------------------------------------------------
  // URL resolution
  // ---------------------------------------------------------------------------

  /** The URL a key request is sent to. When the constructor's check passed,
      no URL can be resolved exactly when neither the request nor the
      callback has one. */
  function ResolveLicenseUrl(defaultLicenseUrl: Option<string>, forceDefaultLicenseUrl: bool,
                             requestUrl: Option<string>): (url: Option<string>)
    ensures forceDefaultLicenseUrl ==> url == defaultLicenseUrl
    ensures !forceDefaultLicenseUrl && !IsEmpty(requestUrl) ==> url == requestUrl
    ensures !forceDefaultLicenseUrl && IsEmpty(requestUrl) ==> url == defaultLicenseUrl
    ensures ArgumentsAccepted(defaultLicenseUrl, forceDefaultLicenseUrl) ==>
              (IsEmpty(url) <==> IsEmpty(requestUrl) && IsEmpty(defaultLicenseUrl))
  {
    if forceDefaultLicenseUrl || IsEmpty(requestUrl) then defaultLicenseUrl else requestUrl
  }

  /** The exception thrown when no license URL can be resolved, before any
      request is built. */
  function NoLicenseUrlException(): (e: MediaDrmCallbackException)
    ensures e.dataSpec.uri == EmptyUri && e.dataSpec.httpMethod == Get && e.dataSpec.httpBody == None
    ensures e.dataSpec.httpRequestHeaders == map[] && e.dataSpec.flags == 0
    ensures e.uriAfterRedirects == EmptyUri && e.responseHeaders == map[] && e.bytesLoaded == 0
    ensures e.cause == IllegalState(NoLicenseUrlMessage)
  {
    MediaDrmCallbackException(SpecForUri(EmptyUri), EmptyUri, map[], 0, IllegalState(NoLicenseUrlMessage))
  }

  // ---------------------------------------------------------------------------
  // Request headers
  // ---------------------------------------------------------------------------

  /** The Content-Type for a scheme: one of three values, chosen by the scheme. */
  function ContentType(uuid: Uuid): (contentType: string)
    ensures contentType == TextXml || contentType == ApplicationJson || contentType == OctetStream
    ensures contentType == TextXml <==> uuid == WidevineUuid
    ensures contentType == ApplicationJson <==> uuid == ClearKeyUuid
    ensures contentType == OctetStream <==> uuid != WidevineUuid && uuid != ClearKeyUuid
  {
    if uuid == WidevineUuid then TextXml
    else if uuid == ClearKeyUuid then ApplicationJson
    else OctetStream
  }

  /** The headers a scheme contributes on its own: always a Content-Type, and a
      SOAPAction naming license acquisition for Widevine and for nothing else. */
  function SchemeHeaders(uuid: Uuid): (headers: map<string, string>)
    ensures ContentTypeHeader in headers && headers[ContentTypeHeader] == ContentType(uuid)
    ensures SoapActionHeader in headers <==> uuid == WidevineUuid
    ensures SoapActionHeader in headers ==> headers[SoapActionHeader] == AcquireLicenseAction
    ensures forall name | name in headers :: name == ContentTypeHeader || name == SoapActionHeader
  {
    var base := map[ContentTypeHeader := ContentType(uuid)];
    if uuid == WidevineUuid then base[SoapActionHeader := AcquireLicenseAction] else base
  }

  /** The scheme headers with the extra headers merged in after them: every
      extra header is present with its own value, and every scheme header it
      does not name keeps the scheme's value. */
  function MergedHeaders(uuid: Uuid, extra: map<string, string>): (headers: map<string, string>)
    ensures headers.Keys == SchemeHeaders(uuid).Keys + extra.Keys
    ensures forall name | name in extra :: headers[name] == extra[name]
    ensures forall name | name in SchemeHeaders(uuid) && name !in extra ::
              headers[name] == SchemeHeaders(uuid)[name]
    ensures extra == map[] ==> headers == SchemeHeaders(uuid)
  {
    SchemeHeaders(uuid) + extra
  }

  // ---------------------------------------------------------------------------
  // The POST request and its outcome
  // ---------------------------------------------------------------------------

  /** The data specification of the license POST: the URL, the POST method,
      the challenge as body, the given headers and permission to gzip. */
  function PostDataSpec(url: string, httpBody: Bytes, requestProperties: map<string, string>): (spec: DataSpec)
    ensures spec.uri == Uri(url)
    ensures spec.httpMethod == Post
    ensures spec.httpBody == Some(httpBody)
    ensures spec.httpRequestHeaders == requestProperties
    ensures spec.flags == FlagAllowGzip
  {
    DataSpec(Uri(url), Post, Some(httpBody), requestProperties, FlagAllowGzip)
  }

  /** Attempt `k` is the first one that is not an invalid response code. */
  predicate IsFirstAnswer(attempts: seq<Attempt>, k: nat)
    requires k < |attempts|
  {
    !attempts[k].InvalidResponseCode? && forall j | 0 <= j < k :: attempts[j].InvalidResponseCode?
  }

  /** The index of the first attempt that is not an invalid response code,
      or the number of attempts when there is none. */
  function FirstAnswer(attempts: seq<Attempt>): (k: nat)
    ensures k <= |attempts|
    ensures forall j | 0 <= j < k :: attempts[j].InvalidResponseCode?
    ensures k < |attempts| ==> !attempts[k].InvalidResponseCode?
  {
    if attempts == [] then 0
    else if attempts[0].InvalidResponseCode? then 1 + FirstAnswer(attempts[1..])
    else 0
  }

  /** What an attempt that is not an invalid response code makes of the
      request: its body, or an exception carrying `spec` and the transport's report. */
  function AnswerOf(spec: DataSpec, attempt: Attempt): (r: KeyResponse)
    ensures r.Reissuing? <==> attempt.InvalidResponseCode?
    ensures attempt.Delivered? ==> r == Returned(attempt.body)
    ensures attempt.Failed? ==>
              && r.Threw?
              && r.exception.dataSpec == spec
              && r.exception.uriAfterRedirects == attempt.lastOpenedUri
              && r.exception.responseHeaders == attempt.responseHeaders
              && r.exception.bytesLoaded == attempt.bytesRead
              && r.exception.cause == Transport(attempt.error)
  {
    match attempt
    case Delivered(body) => Returned(body)
    case Failed(error, lastOpenedUri, responseHeaders, bytesRead) =>
      Threw(MediaDrmCallbackException(spec, lastOpenedUri, responseHeaders, bytesRead, Transport(error)))
    case InvalidResponseCode(_) => Reissuing
  }

  /** The outcome of posting `spec` when the transport answers the successive
      attempts with `attempts`: invalid response codes are swallowed and the
      same request is opened again; the first other answer decides; a failure
      is reported with the request as first built. */
  function PostOutcome(spec: DataSpec, attempts: seq<Attempt>): (r: KeyResponse)
    ensures r.Reissuing? <==> forall j | 0 <= j < |attempts| :: attempts[j].InvalidResponseCode?
    ensures forall k: nat | k < |attempts| && IsFirstAnswer(attempts, k) :: r == AnswerOf(spec, attempts[k])
    ensures r.Returned? ==> exists k: nat | k < |attempts| :: attempts[k] == Delivered(r.response)
    ensures r.Threw? ==> r.exception.dataSpec == spec && r.exception.cause.Transport?
  {
    var k := FirstAnswer(attempts);
    if k == |attempts| then Reissuing else AnswerOf(spec, attempts[k])
  }

  /** How many times the request is opened before the outcome is known: up to
      and including the first answer, or every attempt when none answers. */
  function AttemptsMade(attempts: seq<Attempt>): (n: nat)
    ensures n <= |attempts|
    ensures forall k: nat | k < |attempts| && IsFirstAnswer(attempts, k) :: n == k + 1
    ensures (forall j | 0 <= j < |attempts| :: attempts[j].InvalidResponseCode?) ==> n == |attempts|
    ensures |attempts| > 0 ==> n > 0
  {
    var k := FirstAnswer(attempts);
    if k < |attempts| then k + 1 else |attempts|
  }

  /** `n` copies of the same request. */
  function Repeat(spec: DataSpec, n: nat): (specs: seq<DataSpec>)
    ensures |specs| == n && forall s | s in specs :: s == spec
  {
    seq(n, _ => spec)
  }

  // ---------------------------------------------------------------------------
  // The whole key request
  // ---------------------------------------------------------------------------

  /** The outcome of a key request: the missing-URL exception exactly when no
      URL resolves, otherwise the outcome of posting the challenge with the
      merged headers to the resolved URL. */
  function KeyRequestOutcome(defaultLicenseUrl: Option<string>, forceDefaultLicenseUrl: bool,
                             extra: map<string, string>, uuid: Uuid, request: KeyRequest,
                             attempts: seq<Attempt>): (r: KeyResponse)
    ensures var url := ResolveLicenseUrl(defaultLicenseUrl, forceDefaultLicenseUrl, request.licenseServerUrl);
            (r == Threw(NoLicenseUrlException()) <==> IsEmpty(url))
            && (!IsEmpty(url) ==>
                  r == PostOutcome(PostDataSpec(url.value, request.data, MergedHeaders(uuid, extra)), attempts))
  {
    var url := ResolveLicenseUrl(defaultLicenseUrl, forceDefaultLicenseUrl, request.licenseServerUrl);
    if IsEmpty(url) then Threw(NoLicenseUrlException())
    else PostOutcome(PostDataSpec(url.value, request.data, MergedHeaders(uuid, extra)), attempts)
  }

  /** The requests a key request hands to the transport: none when no URL
      resolves; otherwise one POST per attempt made, each to the resolved URL,
      with the merged headers, the challenge as body and gzip allowed. */
  function KeyRequestsSent(defaultLicenseUrl: Option<string>, forceDefaultLicenseUrl: bool,
                           extra: map<string, string>, uuid: Uuid, request: KeyRequest,
                           attempts: seq<Attempt>): (sent: seq<DataSpec>)
    ensures var url := ResolveLicenseUrl(defaultLicenseUrl, forceDefaultLicenseUrl, request.licenseServerUrl);
            (IsEmpty(url) ==> sent == [])
            && (!IsEmpty(url) ==>
                  |sent| == AttemptsMade(attempts)
                  && (|attempts| > 0 ==> |sent| > 0)
                  && forall s | s in sent ::
                       && s.uri == Uri(url.value)
                       && s.httpMethod == Post
                       && s.httpBody == Some(request.data)
                       && s.httpRequestHeaders == MergedHeaders(uuid, extra)
                       && s.flags == FlagAllowGzip)
  {
    var url := ResolveLicenseUrl(defaultLicenseUrl, forceDefaultLicenseUrl, request.licenseServerUrl);
    if IsEmpty(url) then []
    else Repeat(PostDataSpec(url.value, request.data, MergedHeaders(uuid, extra)), AttemptsMade(attempts))
  }

  // ---------------------------------------------------------------------------
  // The callback object
  // ---------------------------------------------------------------------------

  /** The callback. Its state is fixed at construction; the extra request
      headers start empty and nothing in the class adds to them. */
  class CustomMediaDrmCallback {
    const defaultLicenseUrl: Option<string>
    const forceDefaultLicenseUrl: bool
    const keyRequestProperties: map<string, string>

    /** The constructor's argument check holds of every callback, and its
        extra headers are the empty map the constructor installs. */
    predicate Valid()
    {
      ArgumentsAccepted(defaultLicenseUrl, forceDefaultLicenseUrl) && keyRequestProperties == map[]
    }

    /** The three-argument constructor, once its argument check has passed. */
    constructor (defaultLicenseUrl: Option<string>, forceDefaultLicenseUrl: bool)
      requires ArgumentsAccepted(defaultLicenseUrl, forceDefaultLicenseUrl)
      ensures Valid()
      ensures this.defaultLicenseUrl == defaultLicenseUrl
      ensures this.forceDefaultLicenseUrl == forceDefaultLicenseUrl
      ensures keyRequestProperties == map[]
    {
      this.defaultLicenseUrl := defaultLicenseUrl;
      this.forceDefaultLicenseUrl := forceDefaultLicenseUrl;
      this.keyRequestProperties := map[];
    }

    /** The two-argument constructor: the default URL is never forced, so the
        argument check passes whatever the URL is. */
    constructor WithDefaultLicenseUrl(defaultLicenseUrl: Option<string>)
      ensures Valid()
      ensures this.defaultLicenseUrl == defaultLicenseUrl
      ensures !forceDefaultLicenseUrl
      ensures keyRequestProperties == map[]
    {
      this.defaultLicenseUrl := defaultLicenseUrl;
      this.forceDefaultLicenseUrl := false;
      this.keyRequestProperties := map[];
    }

    /** The three-argument constructor with its argument check: it throws
        exactly when the default URL is forced but empty. */
    static method Create(defaultLicenseUrl: Option<string>, forceDefaultLicenseUrl: bool)
      returns (r: Result<CustomMediaDrmCallback, IllegalArgumentException>)
      ensures r.Failure? <==> forceDefaultLicenseUrl && IsEmpty(defaultLicenseUrl)
      ensures r.Success? ==>
                && fresh(r.value)
                && r.value.Valid()
                && r.value.defaultLicenseUrl == defaultLicenseUrl
                && r.value.forceDefaultLicenseUrl == forceDefaultLicenseUrl
                && r.value.keyRequestProperties == map[]
    {
      if !ArgumentsAccepted(defaultLicenseUrl, forceDefaultLicenseUrl) {
        return Failure(IllegalArgumentException);
      }
      var callback := new CustomMediaDrmCallback(defaultLicenseUrl, forceDefaultLicenseUrl);
      r := Success(callback);
    }

    /** Provisioning is not used: the response is always empty and no request
        is made (there is no transport to make one with). */
    function ExecuteProvisionRequest(uuid: Uuid, request: ProvisionRequest): (response: Bytes)
      ensures |response| == 0
    {
      []
    }

    /** Executes a key request; `attempts` are the transport's answers to the
        successive openings of the request. Returns the outcome and the
        requests handed to the transport. */
    method ExecuteKeyRequest(uuid: Uuid, request: KeyRequest, attempts: seq<Attempt>)
      returns (r: KeyResponse, sent: seq<DataSpec>)
      ensures r == KeyRequestOutcome(defaultLicenseUrl, forceDefaultLicenseUrl, keyRequestProperties,
                                     uuid, request, attempts)
      ensures sent == KeyRequestsSent(defaultLicenseUrl, forceDefaultLicenseUrl, keyRequestProperties,
                                      uuid, request, attempts)
    {
      var url := request.licenseServerUrl;
      if forceDefaultLicenseUrl || IsEmpty(url) {
        url := defaultLicenseUrl;
      }
      if IsEmpty(url) {
        r, sent := Threw(NoLicenseUrlException()), [];
        return;
      }
      var requestProperties: map<string, string> := map[];
      var contentType := ContentType(uuid);
      requestProperties := requestProperties[ContentTypeHeader := contentType];
      if uuid == WidevineUuid {
        requestProperties := requestProperties[SoapActionHeader := AcquireLicenseAction];
      }
      requestProperties := requestProperties + keyRequestProperties;
      assert requestProperties == MergedHeaders(uuid, keyRequestProperties);
      r, sent := ExecutePost(url.value, request.data, requestProperties, attempts);
    }

    /** Posts the request, reopening it after every invalid response code,
        until an attempt delivers a body or fails, or the attempts run out. */
    static method ExecutePost(url: string, httpBody: Bytes, requestProperties: map<string, string>,
                              attempts: seq<Attempt>)
      returns (r: KeyResponse, sent: seq<DataSpec>)
      ensures r == PostOutcome(PostDataSpec(url, httpBody, requestProperties), attempts)
      ensures sent == Repeat(PostDataSpec(url, httpBody, requestProperties), AttemptsMade(attempts))
    {
      var dataSpec := PostDataSpec(url, httpBody, requestProperties);
      var originalDataSpec := dataSpec;
      sent := [];
      var i := 0;
      while i < |attempts|
        invariant i <= |attempts|
        invariant forall j | 0 <= j < i :: attempts[j].InvalidResponseCode?
        invariant sent == Repeat(dataSpec, i)
      {
        sent := sent + [dataSpec];
        assert sent == Repeat(dataSpec, i + 1);
        match attempts[i]
        case Delivered(body) =>
          assert IsFirstAnswer(attempts, i);
          r := Returned(body);
          return;
        case Failed(error, lastOpenedUri, responseHeaders, bytesRead) =>
          assert IsFirstAnswer(attempts, i);
          r := Threw(MediaDrmCallbackException(originalDataSpec, lastOpenedUri, responseHeaders,
                                               bytesRead, Transport(error)));
          return;
        case InvalidResponseCode(_) =>
          i := i + 1;
      }
      r := Reissuing;
    }
  }
}
