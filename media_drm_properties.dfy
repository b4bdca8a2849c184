/** Properties of the license-request callback that relate several calls or
    fix concrete scenarios. */
module MediaDrmProperties {
  import opened Wrappers
  import opened Upstream
  import opened MediaDrm

  /** With the default URL forced, the request's own URL makes no difference:
      the same requests go to the default URL and the outcome is the same. */
  lemma ForcedDefaultIgnoresRequestUrl(defaultLicenseUrl: Option<string>, extra: map<string, string>,
                                       uuid: Uuid, challenge: Bytes, url1: Option<string>,
                                       url2: Option<string>, attempts: seq<Attempt>)
    requires ArgumentsAccepted(defaultLicenseUrl, true)
    ensures KeyRequestOutcome(defaultLicenseUrl, true, extra, uuid, KeyRequest(challenge, url1), attempts)
         == KeyRequestOutcome(defaultLicenseUrl, true, extra, uuid, KeyRequest(challenge, url2), attempts)
    ensures KeyRequestsSent(defaultLicenseUrl, true, extra, uuid, KeyRequest(challenge, url1), attempts)
         == KeyRequestsSent(defaultLicenseUrl, true, extra, uuid, KeyRequest(challenge, url2), attempts)
    ensures forall s | s in KeyRequestsSent(defaultLicenseUrl, true, extra, uuid, KeyRequest(challenge, url1), attempts) ::
              s.uri == Uri(defaultLicenseUrl.value)
  {
  }

  /** For a callback whose argument check passed, the missing-URL exception is
      thrown exactly when neither the request nor the callback has a URL, and
      then nothing is handed to the transport. */
  lemma NoLicenseUrlExactlyWhenBothEmpty(defaultLicenseUrl: Option<string>, forceDefaultLicenseUrl: bool,
                                         extra: map<string, string>, uuid: Uuid, request: KeyRequest,
                                         attempts: seq<Attempt>)
    requires ArgumentsAccepted(defaultLicenseUrl, forceDefaultLicenseUrl)
    ensures KeyRequestOutcome(defaultLicenseUrl, forceDefaultLicenseUrl, extra, uuid, request, attempts)
              == Threw(NoLicenseUrlException())
            <==> IsEmpty(request.licenseServerUrl) && IsEmpty(defaultLicenseUrl)
    ensures IsEmpty(request.licenseServerUrl) && IsEmpty(defaultLicenseUrl) ==>
              KeyRequestsSent(defaultLicenseUrl, forceDefaultLicenseUrl, extra, uuid, request, attempts) == []
  {
  }

  /** No callback has extra headers, so every request it sends carries exactly
      the scheme's own headers. */
  lemma ConstructedCallbackSendsSchemeHeaders(callback: CustomMediaDrmCallback, uuid: Uuid,
                                              request: KeyRequest, attempts: seq<Attempt>)
    requires callback.Valid()
    ensures forall s | s in KeyRequestsSent(callback.defaultLicenseUrl, callback.forceDefaultLicenseUrl,
                                            callback.keyRequestProperties, uuid, request, attempts) ::
              s.httpRequestHeaders == SchemeHeaders(uuid)
  {
  }

  /** Once an attempt has answered, later answers of the transport are never
      consulted: neither the outcome nor the number of openings changes. */
  lemma {:induction false} LaterAnswersIgnored(spec: DataSpec, attempts: seq<Attempt>, later: seq<Attempt>)
    requires FirstAnswer(attempts) < |attempts|
    ensures PostOutcome(spec, attempts + later) == PostOutcome(spec, attempts)
    ensures AttemptsMade(attempts + later) == AttemptsMade(attempts)
  {
    FirstAnswerOfLonger(attempts, later);
  }

  /** After a run of invalid response codes, the outcome is that of the
      attempts that follow, and the run's openings are added to theirs. */
  lemma {:induction false} InvalidRunThenRest(spec: DataSpec, invalid: seq<Attempt>, rest: seq<Attempt>)
    requires forall j | 0 <= j < |invalid| :: invalid[j].InvalidResponseCode?
    ensures PostOutcome(spec, invalid + rest) == PostOutcome(spec, rest)
    ensures AttemptsMade(invalid + rest) == |invalid| + AttemptsMade(rest)
  {
    FirstAnswerAfterInvalidRun(invalid, rest);
  }

  /** A helper: the first answer of a sequence is the first answer of any
      extension of it, when it has one. */
  lemma {:induction false} FirstAnswerOfLonger(attempts: seq<Attempt>, later: seq<Attempt>)
    requires FirstAnswer(attempts) < |attempts|
    ensures FirstAnswer(attempts + later) == FirstAnswer(attempts)
  {
    if attempts[0].InvalidResponseCode? {
      assert (attempts + later)[1..] == attempts[1..] + later;
      FirstAnswerOfLonger(attempts[1..], later);
    }
  }

  /** A helper: a run of invalid response codes shifts the first answer by its length. */
  lemma {:induction false} FirstAnswerAfterInvalidRun(invalid: seq<Attempt>, rest: seq<Attempt>)
    requires forall j | 0 <= j < |invalid| :: invalid[j].InvalidResponseCode?
    ensures FirstAnswer(invalid + rest) == |invalid| + FirstAnswer(rest)
  {
    if invalid != [] {
      assert (invalid + rest)[0] == invalid[0];
      assert (invalid + rest)[1..] == invalid[1..] + rest;
      FirstAnswerAfterInvalidRun(invalid[1..], rest);
    } else {
      assert invalid + rest == rest;
    }
  }

  /** A transport that only ever answers with invalid response codes makes the
      callback reopen the identical request once per answer without ever
      returning or throwing. */
  lemma PersistentInvalidResponseReissues(url: string, challenge: Bytes, headers: map<string, string>,
                                          attempts: seq<Attempt>)
    requires forall j | 0 <= j < |attempts| :: attempts[j].InvalidResponseCode?
    ensures PostOutcome(PostDataSpec(url, challenge, headers), attempts) == Reissuing
    ensures Repeat(PostDataSpec(url, challenge, headers), AttemptsMade(attempts))
            == seq(|attempts|, _ => PostDataSpec(url, challenge, headers))
  {
  }

  /** Widevine, no request URL, a default URL that is not forced: the challenge
      is posted to the default URL with the Widevine headers and the license
      bytes come back. */
  lemma WidevineScenario()
    ensures var defaultUrl := Some("https://license.example/acquire");
            var request := KeyRequest([0xDE, 0xAD, 0xBE, 0xEF], Some(""));
            var attempts := [Delivered([0x01, 0x02, 0x03, 0x04])];
            && KeyRequestOutcome(defaultUrl, false, map[], WidevineUuid, request, attempts)
               == Returned([0x01, 0x02, 0x03, 0x04])
            && KeyRequestsSent(defaultUrl, false, map[], WidevineUuid, request, attempts)
               == [DataSpec(Uri("https://license.example/acquire"), Post, Some([0xDE, 0xAD, 0xBE, 0xEF]),
                            map[ContentTypeHeader := TextXml, SoapActionHeader := AcquireLicenseAction],
                            FlagAllowGzip)]
  {
  }

  /** A connection error before any byte is read: the exception carries the
      request as built, no bytes, and the transport's error as its cause. */
  lemma ConnectionErrorScenario(error: TransportError)
    ensures var defaultUrl := Some("https://license.example/acquire");
            var request := KeyRequest([0xDE, 0xAD, 0xBE, 0xEF], None);
            var lastUri := Uri("https://license.example/acquire");
            var attempts := [Failed(error, lastUri, map[], 0)];
            KeyRequestOutcome(defaultUrl, false, map[], ClearKeyUuid, request, attempts)
              == Threw(MediaDrmCallbackException(
                   PostDataSpec("https://license.example/acquire", [0xDE, 0xAD, 0xBE, 0xEF],
                                map[ContentTypeHeader := ApplicationJson]),
                   lastUri, map[], 0, Transport(error)))
  {
  }
}
