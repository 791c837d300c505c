/**
 * The web-family request and response codec: each request's `to_dict`
 * (typed fields to a JSON object under the service's wire keys, with a
 * per-field omission rule) and each response's `from_dict` (JSON object to a
 * typed response, raising on a missing required key).
 *
 * Two omission rules are in use. String and dictionary fields are guarded by
 * `if self.x:`, so an empty value is dropped like an unset one; boolean and
 * integer fields are guarded by `if self.x is not None:`, so `False` and `0`
 * are sent.
 */
module Web {
  import opened Wrappers
  import opened Json
  import opened Dict

  // ---------------------------------------------------------------------------
  // Web sensor

  /** Request to generate a web sensor; None is an unset optional field. */
  datatype WebSensorRequest = WebSensorRequest(
    userAgent: string,
    url: string,
    flags: Option<string>,
    abck: Option<string>,
    bmSz: Option<string>,
    secCpt: Option<bool>,
    index: Option<int>,
    stepper: Option<bool>,
    keyboard: Option<bool>,
    count: Option<bool>,
    language: Option<string>,
    customSensor: Option<bool>,
    scriptData: Option<Payload>,
    scriptUrl: Option<string>)

  /** Every key a serialised web sensor request may carry. */
  const WEB_SENSOR_KEYS: set<string> := {
    "userAgent", "url", "flags", "_abck", "bm_sz", "sec_cpt", "index", "stepper",
    "keyboard", "count", "language", "customSensor", "scriptData", "scriptUrl"
  }

  /** The wire key of the `n`-th insertion `to_dict` performs; there are 14. */
  function WebSensorKey(n: nat): string {
    match n
    case 0 => "userAgent"
    case 1 => "url"
    case 2 => "flags"
    case 3 => "_abck"
    case 4 => "bm_sz"
    case 5 => "sec_cpt"
    case 6 => "index"
    case 7 => "stepper"
    case 8 => "keyboard"
    case 9 => "count"
    case 10 => "language"
    case 11 => "customSensor"
    case 12 => "scriptData"
    case 13 => "scriptUrl"
    case _ => ""
  }

  /** What the guard of the `n`-th insertion lets through for `req`, or None when it drops the field. */
  function WebSensorValue(req: WebSensorRequest, n: nat): Option<Json> {
    match n
    case 0 => Some(Str(req.userAgent))
    case 1 => Some(Str(req.url))
    case 2 => WhenTruthy(OptStr(req.flags))
    case 3 => WhenTruthy(OptStr(req.abck))
    case 4 => WhenTruthy(OptStr(req.bmSz))
    case 5 => OptBool(req.secCpt)
    case 6 => OptInt(req.index)
    case 7 => OptBool(req.stepper)
    case 8 => OptBool(req.keyboard)
    case 9 => OptBool(req.count)
    case 10 => WhenTruthy(OptStr(req.language))
    case 11 => OptBool(req.customSensor)
    case 12 => WhenTruthy(OptObject(req.scriptData))
    case 13 => WhenTruthy(OptStr(req.scriptUrl))
    case _ => None
  }

  function WebSensorValues(req: WebSensorRequest): nat -> Option<Json> {
    (n: nat) => WebSensorValue(req, n)
  }

  /** The dictionary a web sensor request serialises to: all 14 insertions performed. */
  function WebSensorPayload(req: WebSensorRequest): Payload {
    Inserted(WebSensorKey, WebSensorValues(req), 14)
  }

  /** `WebSensorRequest.to_dict`: the two required keys, then each optional key its guard admits. */
  method WebSensorToDict(req: WebSensorRequest) returns (result: Payload)
    ensures result == WebSensorPayload(req)
  {
    result := map["userAgent" := Str(req.userAgent), "url" := Str(req.url)];
    WebSensorInsertionsTo2(req);
    result := SetIfTruthy(result, "flags", OptStr(req.flags));
    result := SetIfTruthy(result, "_abck", OptStr(req.abck));
    result := SetIfTruthy(result, "bm_sz", OptStr(req.bmSz));
    WebSensorInsertions2To5(req);
    result := SetIfNotNone(result, "sec_cpt", OptBool(req.secCpt));
    result := SetIfNotNone(result, "index", OptInt(req.index));
    result := SetIfNotNone(result, "stepper", OptBool(req.stepper));
    WebSensorInsertions5To8(req);
    result := SetIfNotNone(result, "keyboard", OptBool(req.keyboard));
    result := SetIfNotNone(result, "count", OptBool(req.count));
    result := SetIfTruthy(result, "language", OptStr(req.language));
    WebSensorInsertions8To11(req);
    result := SetIfNotNone(result, "customSensor", OptBool(req.customSensor));
    result := SetIfTruthy(result, "scriptData", OptObject(req.scriptData));
    result := SetIfTruthy(result, "scriptUrl", OptStr(req.scriptUrl));
    WebSensorInsertions11To14(req);
  }

  /** The dictionary display `to_dict` starts from holds the first two insertions. */
  lemma WebSensorInsertionsTo2(req: WebSensorRequest)
    ensures Inserted(WebSensorKey, WebSensorValues(req), 2)
         == map["userAgent" := Str(req.userAgent), "url" := Str(req.url)]
  {
  }

  /** The guarded insertions of `flags`, `_abck` and `bm_sz`. */
  lemma WebSensorInsertions2To5(req: WebSensorRequest)
    ensures Inserted(WebSensorKey, WebSensorValues(req), 5)
         == Put(Put(Put(Inserted(WebSensorKey, WebSensorValues(req), 2),
              Entry("flags", WhenTruthy(OptStr(req.flags)))),
              Entry("_abck", WhenTruthy(OptStr(req.abck)))),
              Entry("bm_sz", WhenTruthy(OptStr(req.bmSz))))
  {
  }

  /** The guarded insertions of `sec_cpt`, `index` and `stepper`. */
  lemma WebSensorInsertions5To8(req: WebSensorRequest)
    ensures Inserted(WebSensorKey, WebSensorValues(req), 8)
         == Put(Put(Put(Inserted(WebSensorKey, WebSensorValues(req), 5),
              Entry("sec_cpt", OptBool(req.secCpt))),
              Entry("index", OptInt(req.index))),
              Entry("stepper", OptBool(req.stepper)))
  {
  }

  /** The guarded insertions of `keyboard`, `count` and `language`. */
  lemma WebSensorInsertions8To11(req: WebSensorRequest)
    ensures Inserted(WebSensorKey, WebSensorValues(req), 11)
         == Put(Put(Put(Inserted(WebSensorKey, WebSensorValues(req), 8),
              Entry("keyboard", OptBool(req.keyboard))),
              Entry("count", OptBool(req.count))),
              Entry("language", WhenTruthy(OptStr(req.language))))
  {
  }

  /** The guarded insertions of `customSensor`, `scriptData` and `scriptUrl`. */
  lemma WebSensorInsertions11To14(req: WebSensorRequest)
    ensures Inserted(WebSensorKey, WebSensorValues(req), 14)
         == Put(Put(Put(Inserted(WebSensorKey, WebSensorValues(req), 11),
              Entry("customSensor", OptBool(req.customSensor))),
              Entry("scriptData", WhenTruthy(OptObject(req.scriptData)))),
              Entry("scriptUrl", WhenTruthy(OptStr(req.scriptUrl))))
  {
  }

  /** The 14 insertions use 14 different wire keys. */
  lemma WebSensorKeysDistinct()
    ensures KeysDistinct(WebSensorKey, 14)
  {
  }

  /** Each insertion decides its own wire key: present exactly when its guard let a value through. */
  lemma WebSensorPayloadAt(req: WebSensorRequest, n: nat)
    requires n < 14
    ensures Carries(WebSensorPayload(req), WebSensorKey(n), WebSensorValue(req, n))
  {
    WebSensorKeysDistinct();
    InsertedAt(WebSensorKey, WebSensorValues(req), 14, n);
  }

  /**
   * Nothing outside the wire-key list is sent, and the cookie field `abck`
   * travels as `_abck`; the user agent and URL are always sent unchanged.
   */
  lemma WebSensorPayloadRequired(req: WebSensorRequest)
    ensures WebSensorPayload(req).Keys <= WEB_SENSOR_KEYS
    ensures "abck" !in WebSensorPayload(req)
    ensures Carries(WebSensorPayload(req), "userAgent", Some(Str(req.userAgent)))
    ensures Carries(WebSensorPayload(req), "url", Some(Str(req.url)))
  {
    forall key | key in WebSensorPayload(req)
      ensures key in WEB_SENSOR_KEYS
    {
      InsertedKeys(WebSensorKey, WebSensorValues(req), 14, key);
    }
    InsertedOutside(WebSensorKey, WebSensorValues(req), 14, "abck");
    WebSensorPayloadAt(req, 0);
    WebSensorPayloadAt(req, 1);
  }

  /** A string or dictionary field is sent exactly when it is set and non-empty, under its wire key. */
  lemma WebSensorPayloadTruthyFields(req: WebSensorRequest)
    ensures Carries(WebSensorPayload(req), "flags", OptStr(DropEmpty(req.flags)))
    ensures Carries(WebSensorPayload(req), "_abck", OptStr(DropEmpty(req.abck)))
    ensures Carries(WebSensorPayload(req), "bm_sz", OptStr(DropEmpty(req.bmSz)))
    ensures Carries(WebSensorPayload(req), "language", OptStr(DropEmpty(req.language)))
    ensures Carries(WebSensorPayload(req), "scriptData", OptObject(DropEmptyObject(req.scriptData)))
    ensures Carries(WebSensorPayload(req), "scriptUrl", OptStr(DropEmpty(req.scriptUrl)))
  {
    WebSensorPayloadAt(req, 2);
    WebSensorPayloadAt(req, 3);
    WebSensorPayloadAt(req, 4);
    WebSensorPayloadAt(req, 10);
    WebSensorPayloadAt(req, 12);
    WebSensorPayloadAt(req, 13);
    WhenTruthyStr(req.flags);
    WhenTruthyStr(req.abck);
    WhenTruthyStr(req.bmSz);
    WhenTruthyStr(req.language);
    WhenTruthyObject(req.scriptData);
    WhenTruthyStr(req.scriptUrl);
  }

  /** A boolean or integer field is sent exactly when it is set, so `false` and `0` are sent. */
  lemma WebSensorPayloadSetFields(req: WebSensorRequest)
    ensures Carries(WebSensorPayload(req), "sec_cpt", OptBool(req.secCpt))
    ensures Carries(WebSensorPayload(req), "index", OptInt(req.index))
    ensures Carries(WebSensorPayload(req), "stepper", OptBool(req.stepper))
    ensures Carries(WebSensorPayload(req), "keyboard", OptBool(req.keyboard))
    ensures Carries(WebSensorPayload(req), "count", OptBool(req.count))
    ensures Carries(WebSensorPayload(req), "customSensor", OptBool(req.customSensor))
  {
    WebSensorPayloadAt(req, 5);
    WebSensorPayloadAt(req, 6);
    WebSensorPayloadAt(req, 7);
    WebSensorPayloadAt(req, 8);
    WebSensorPayloadAt(req, 9);
    WebSensorPayloadAt(req, 11);
  }

  /** `req` with every empty string or dictionary read as unset, as the truthiness guards read them. */
  function WebSensorNormalized(req: WebSensorRequest): WebSensorRequest {
    req.(
      flags := DropEmpty(req.flags),
      abck := DropEmpty(req.abck),
      bmSz := DropEmpty(req.bmSz),
      language := DropEmpty(req.language),
      scriptData := DropEmptyObject(req.scriptData),
      scriptUrl := DropEmpty(req.scriptUrl))
  }

  /** Helper: guards that agree on the required, boolean and integer fields mean those fields agree. */
  lemma WebSensorPlainFieldsAgree(a: WebSensorRequest, b: WebSensorRequest)
    requires WebSensorValue(a, 0) == WebSensorValue(b, 0) && WebSensorValue(a, 1) == WebSensorValue(b, 1)
    requires WebSensorValue(a, 5) == WebSensorValue(b, 5) && WebSensorValue(a, 6) == WebSensorValue(b, 6)
    requires WebSensorValue(a, 7) == WebSensorValue(b, 7) && WebSensorValue(a, 8) == WebSensorValue(b, 8)
    requires WebSensorValue(a, 9) == WebSensorValue(b, 9) && WebSensorValue(a, 11) == WebSensorValue(b, 11)
    ensures a.userAgent == b.userAgent && a.url == b.url && a.secCpt == b.secCpt && a.index == b.index
    ensures a.stepper == b.stepper && a.keyboard == b.keyboard && a.count == b.count && a.customSensor == b.customSensor
  {
  }

  /** Helper: truthiness guards that agree mean the string and dictionary fields agree once normalised. */
  lemma WebSensorTruthyFieldsAgree(a: WebSensorRequest, b: WebSensorRequest)
    requires WebSensorValue(a, 2) == WebSensorValue(b, 2) && WebSensorValue(a, 3) == WebSensorValue(b, 3)
    requires WebSensorValue(a, 4) == WebSensorValue(b, 4) && WebSensorValue(a, 10) == WebSensorValue(b, 10)
    requires WebSensorValue(a, 12) == WebSensorValue(b, 12) && WebSensorValue(a, 13) == WebSensorValue(b, 13)
    ensures DropEmpty(a.flags) == DropEmpty(b.flags) && DropEmpty(a.abck) == DropEmpty(b.abck) && DropEmpty(a.bmSz) == DropEmpty(b.bmSz)
    ensures DropEmpty(a.language) == DropEmpty(b.language) && DropEmptyObject(a.scriptData) == DropEmptyObject(b.scriptData) && DropEmpty(a.scriptUrl) == DropEmpty(b.scriptUrl)
  {
    WhenTruthyStrAgree(a.flags, b.flags);
    WhenTruthyStrAgree(a.abck, b.abck);
    WhenTruthyStrAgree(a.bmSz, b.bmSz);
    WhenTruthyStrAgree(a.language, b.language);
    WhenTruthyObjectAgree(a.scriptData, b.scriptData);
    WhenTruthyStrAgree(a.scriptUrl, b.scriptUrl);
  }

  /** Requests whose guards let the same values through agree once normalised. */
  lemma WebSensorValuesDetermine(a: WebSensorRequest, b: WebSensorRequest)
    requires forall n :: 0 <= n < 14 ==> WebSensorValues(a)(n) == WebSensorValues(b)(n)
    ensures WebSensorNormalized(a) == WebSensorNormalized(b)
  {
    assert WebSensorValues(a)(0) == WebSensorValues(b)(0);
    assert WebSensorValues(a)(1) == WebSensorValues(b)(1);
    assert WebSensorValues(a)(2) == WebSensorValues(b)(2);
    assert WebSensorValues(a)(3) == WebSensorValues(b)(3);
    assert WebSensorValues(a)(4) == WebSensorValues(b)(4);
    assert WebSensorValues(a)(5) == WebSensorValues(b)(5);
    assert WebSensorValues(a)(6) == WebSensorValues(b)(6);
    assert WebSensorValues(a)(7) == WebSensorValues(b)(7);
    assert WebSensorValues(a)(8) == WebSensorValues(b)(8);
    assert WebSensorValues(a)(9) == WebSensorValues(b)(9);
    assert WebSensorValues(a)(10) == WebSensorValues(b)(10);
    assert WebSensorValues(a)(11) == WebSensorValues(b)(11);
    assert WebSensorValues(a)(12) == WebSensorValues(b)(12);
    assert WebSensorValues(a)(13) == WebSensorValues(b)(13);
    WebSensorPlainFieldsAgree(a, b);
    WebSensorTruthyFieldsAgree(a, b);
  }

  /** Requests that agree once normalised have every guard let the same value through. */
  lemma WebSensorNormalizedValues(a: WebSensorRequest, b: WebSensorRequest)
    requires WebSensorNormalized(a) == WebSensorNormalized(b)
    ensures forall n :: 0 <= n < 14 ==> WebSensorValues(a)(n) == WebSensorValues(b)(n)
  {
    WhenTruthyStrAgree(a.flags, b.flags);
    WhenTruthyStrAgree(a.abck, b.abck);
    WhenTruthyStrAgree(a.bmSz, b.bmSz);
    WhenTruthyStrAgree(a.language, b.language);
    WhenTruthyObjectAgree(a.scriptData, b.scriptData);
    WhenTruthyStrAgree(a.scriptUrl, b.scriptUrl);
  }

  /** Two requests serialise alike exactly when they agree once empty values are read as unset. */
  lemma WebSensorPayloadDeterminesRequest(a: WebSensorRequest, b: WebSensorRequest)
    ensures WebSensorPayload(a) == WebSensorPayload(b) <==> WebSensorNormalized(a) == WebSensorNormalized(b)
  {
    WebSensorKeysDistinct();
    InsertedDetermines(WebSensorKey, WebSensorValues(a), WebSensorValues(b), 14);
    if WebSensorPayload(a) == WebSensorPayload(b) {
      WebSensorValuesDetermine(a, b);
    }
    if WebSensorNormalized(a) == WebSensorNormalized(b) {
      WebSensorNormalizedValues(a, b);
    }
  }

  // ---------------------------------------------------------------------------
  // Responses with one required key

  /** Reply to a web sensor request; the sensor is taken as sent, without a type check. */
  datatype WebSensorResponse = WebSensorResponse(sensor: Json)

  /** `WebSensorResponse.from_dict`: reads `sensor`, raising KeyError when it is absent. */
  function WebSensorResponseFromDict(data: Payload): (r: Result<WebSensorResponse, Error>)
    ensures r.Success? <==> "sensor" in data
    ensures r.Success? ==> r.value.sensor == data["sensor"]
    ensures r.Failure? ==> r.error == MissingKey("sensor")
  {
    var sensor :- Index(data, "sensor");
    Success(WebSensorResponse(sensor))
  }

  /** Reply to a pixel request. */
  datatype PixelResponse = PixelResponse(sensor: Json)

  /** `PixelResponse.from_dict`: reads `sensor`, raising KeyError when it is absent. */
  function PixelResponseFromDict(data: Payload): (r: Result<PixelResponse, Error>)
    ensures r.Success? <==> "sensor" in data
    ensures r.Success? ==> r.value.sensor == data["sensor"]
    ensures r.Failure? ==> r.error == MissingKey("sensor")
  {
    var sensor :- Index(data, "sensor");
    Success(PixelResponse(sensor))
  }

  /** Reply to an SBSD request. */
  datatype SbsdResponse = SbsdResponse(body: Json)

  /** `SBSDResponse.from_dict`: reads `body`, raising KeyError when it is absent. */
  function SbsdResponseFromDict(data: Payload): (r: Result<SbsdResponse, Error>)
    ensures r.Success? <==> "body" in data
    ensures r.Success? ==> r.value.body == data["body"]
    ensures r.Failure? ==> r.error == MissingKey("body")
  {
    var body :- Index(data, "body");
    Success(SbsdResponse(body))
  }

  /** Reply to a script-parsing request: the script's configuration data, kept opaque. */
  datatype ParseResponse = ParseResponse(scriptData: Json)

  /** `ParseResponse.from_dict`: reads `scriptData`, raising KeyError when it is absent. */
  function ParseResponseFromDict(data: Payload): (r: Result<ParseResponse, Error>)
    ensures r.Success? <==> "scriptData" in data
    ensures r.Success? ==> r.value.scriptData == data["scriptData"]
    ensures r.Failure? ==> r.error == MissingKey("scriptData")
  {
    var scriptData :- Index(data, "scriptData");
    Success(ParseResponse(scriptData))
  }

  // ---------------------------------------------------------------------------
  // Pixel

  /** Request to generate pixel data; all three fields are required. */
  datatype PixelRequest = PixelRequest(userAgent: string, bazadebezolkohpepadr: int, hash: string)

  /** `PixelRequest.to_dict`: exactly the three wire keys, each carrying its field. */
  function PixelToDict(req: PixelRequest): (m: Payload)
    ensures m.Keys == {"userAgent", "bazadebezolkohpepadr", "hash"}
    ensures Carries(m, "userAgent", Some(Str(req.userAgent)))
    ensures Carries(m, "bazadebezolkohpepadr", Some(Int(req.bazadebezolkohpepadr)))
    ensures Carries(m, "hash", Some(Str(req.hash)))
  {
    map["userAgent" := Str(req.userAgent),
        "bazadebezolkohpepadr" := Int(req.bazadebezolkohpepadr),
        "hash" := Str(req.hash)]
  }

  /** Nothing is dropped from a pixel request: its dictionary determines it. */
  lemma PixelToDictInjective(a: PixelRequest, b: PixelRequest)
    ensures PixelToDict(a) == PixelToDict(b) <==> a == b
  {
    if PixelToDict(a) == PixelToDict(b) {
      assert PixelToDict(a)["userAgent"] == PixelToDict(b)["userAgent"];
      assert PixelToDict(a)["bazadebezolkohpepadr"] == PixelToDict(b)["bazadebezolkohpepadr"];
      assert PixelToDict(a)["hash"] == PixelToDict(b)["hash"];
    }
  }

  // ---------------------------------------------------------------------------
  // sec-cpt challenge

  /** Request to solve a sec-cpt challenge; None is an unset optional field. */
  datatype SecCptRequest = SecCptRequest(
    token: string,
    timestamp: int,
    nonce: string,
    difficulty: int,
    cookie: string,
    secCpChallenge: Option<string>,
    provider: Option<string>,
    brandingUrlContent: Option<string>,
    chlgDuration: Option<int>,
    timeout: Option<int>,
    cpu: Option<bool>)

  /** Every key a serialised sec-cpt request may carry. */
  const SEC_CPT_KEYS: set<string> := {
    "token", "timestamp", "nonce", "difficulty", "cookie", "sec-cp-challenge",
    "provider", "branding_url_content", "chlg_duration", "timeout", "cpu"
  }

  /** The wire key of the `n`-th insertion `to_dict` performs; there are 11. */
  function SecCptKey(n: nat): string {
    match n
    case 0 => "token"
    case 1 => "timestamp"
    case 2 => "nonce"
    case 3 => "difficulty"
    case 4 => "cookie"
    case 5 => "sec-cp-challenge"
    case 6 => "provider"
    case 7 => "branding_url_content"
    case 8 => "chlg_duration"
    case 9 => "timeout"
    case 10 => "cpu"
    case _ => ""
  }

  /** What the guard of the `n`-th insertion lets through for `req`, or None when it drops the field. */
  function SecCptValue(req: SecCptRequest, n: nat): Option<Json> {
    match n
    case 0 => Some(Str(req.token))
    case 1 => Some(Int(req.timestamp))
    case 2 => Some(Str(req.nonce))
    case 3 => Some(Int(req.difficulty))
    case 4 => Some(Str(req.cookie))
    case 5 => WhenTruthy(OptStr(req.secCpChallenge))
    case 6 => WhenTruthy(OptStr(req.provider))
    case 7 => WhenTruthy(OptStr(req.brandingUrlContent))
    case 8 => OptInt(req.chlgDuration)
    case 9 => OptInt(req.timeout)
    case 10 => OptBool(req.cpu)
    case _ => None
  }

  function SecCptValues(req: SecCptRequest): nat -> Option<Json> {
    (n: nat) => SecCptValue(req, n)
  }

  /** The dictionary a sec-cpt request serialises to: all 11 insertions performed. */
  function SecCptPayload(req: SecCptRequest): Payload {
    Inserted(SecCptKey, SecCptValues(req), 11)
  }

  /** `SecCptRequest.to_dict`: the five required keys, then each optional key its guard admits. */
  method SecCptToDict(req: SecCptRequest) returns (result: Payload)
    ensures result == SecCptPayload(req)
  {
    result := map[
      "token" := Str(req.token),
      "timestamp" := Int(req.timestamp),
      "nonce" := Str(req.nonce),
      "difficulty" := Int(req.difficulty),
      "cookie" := Str(req.cookie)
    ];
    SecCptInsertionsTo5(req);
    result := SetIfTruthy(result, "sec-cp-challenge", OptStr(req.secCpChallenge));
    result := SetIfTruthy(result, "provider", OptStr(req.provider));
    result := SetIfTruthy(result, "branding_url_content", OptStr(req.brandingUrlContent));
    SecCptInsertions5To8(req);
    result := SetIfNotNone(result, "chlg_duration", OptInt(req.chlgDuration));
    result := SetIfNotNone(result, "timeout", OptInt(req.timeout));
    result := SetIfNotNone(result, "cpu", OptBool(req.cpu));
    SecCptInsertions8To11(req);
  }

  /** The dictionary display `to_dict` starts from holds the first five insertions. */
  lemma SecCptInsertionsTo5(req: SecCptRequest)
    ensures Inserted(SecCptKey, SecCptValues(req), 5)
         == map[
              "token" := Str(req.token),
              "timestamp" := Int(req.timestamp),
              "nonce" := Str(req.nonce),
              "difficulty" := Int(req.difficulty),
              "cookie" := Str(req.cookie)]
  {
  }

  /** The guarded insertions of the three optional strings. */
  lemma SecCptInsertions5To8(req: SecCptRequest)
    ensures Inserted(SecCptKey, SecCptValues(req), 8)
         == Put(Put(Put(Inserted(SecCptKey, SecCptValues(req), 5),
              Entry("sec-cp-challenge", WhenTruthy(OptStr(req.secCpChallenge)))),
              Entry("provider", WhenTruthy(OptStr(req.provider)))),
              Entry("branding_url_content", WhenTruthy(OptStr(req.brandingUrlContent))))
  {
  }

  /** The guarded insertions of the two optional integers and the optional boolean. */
  lemma SecCptInsertions8To11(req: SecCptRequest)
    ensures Inserted(SecCptKey, SecCptValues(req), 11)
         == Put(Put(Put(Inserted(SecCptKey, SecCptValues(req), 8),
              Entry("chlg_duration", OptInt(req.chlgDuration))),
              Entry("timeout", OptInt(req.timeout))),
              Entry("cpu", OptBool(req.cpu)))
  {
  }

  /** The 11 insertions use 11 different wire keys. */
  lemma SecCptKeysDistinct()
    ensures KeysDistinct(SecCptKey, 11)
  {
  }

  /** Each insertion decides its own wire key: present exactly when its guard let a value through. */
  lemma SecCptPayloadAt(req: SecCptRequest, n: nat)
    requires n < 11
    ensures Carries(SecCptPayload(req), SecCptKey(n), SecCptValue(req, n))
  {
    SecCptKeysDistinct();
    InsertedAt(SecCptKey, SecCptValues(req), 11, n);
  }

  /** The five challenge fields are always sent unchanged; nothing outside the wire-key list. */
  lemma SecCptPayloadRequired(req: SecCptRequest)
    ensures SecCptPayload(req).Keys <= SEC_CPT_KEYS
    ensures Carries(SecCptPayload(req), "token", Some(Str(req.token)))
    ensures Carries(SecCptPayload(req), "timestamp", Some(Int(req.timestamp)))
    ensures Carries(SecCptPayload(req), "nonce", Some(Str(req.nonce)))
    ensures Carries(SecCptPayload(req), "difficulty", Some(Int(req.difficulty)))
    ensures Carries(SecCptPayload(req), "cookie", Some(Str(req.cookie)))
  {
    forall key | key in SecCptPayload(req)
      ensures key in SEC_CPT_KEYS
    {
      InsertedKeys(SecCptKey, SecCptValues(req), 11, key);
    }
    SecCptPayloadAt(req, 0);
    SecCptPayloadAt(req, 1);
    SecCptPayloadAt(req, 2);
    SecCptPayloadAt(req, 3);
    SecCptPayloadAt(req, 4);
  }

  /**
   * The three optional strings are sent exactly when set and non-empty; the
   * two integers and the boolean exactly when set, so `0` and `false` are sent.
   */
  lemma SecCptPayloadOptional(req: SecCptRequest)
    ensures Carries(SecCptPayload(req), "sec-cp-challenge", OptStr(DropEmpty(req.secCpChallenge)))
    ensures Carries(SecCptPayload(req), "provider", OptStr(DropEmpty(req.provider)))
    ensures Carries(SecCptPayload(req), "branding_url_content", OptStr(DropEmpty(req.brandingUrlContent)))
    ensures Carries(SecCptPayload(req), "chlg_duration", OptInt(req.chlgDuration))
    ensures Carries(SecCptPayload(req), "timeout", OptInt(req.timeout))
    ensures Carries(SecCptPayload(req), "cpu", OptBool(req.cpu))
  {
    SecCptPayloadAt(req, 5);
    SecCptPayloadAt(req, 6);
    SecCptPayloadAt(req, 7);
    SecCptPayloadAt(req, 8);
    SecCptPayloadAt(req, 9);
    SecCptPayloadAt(req, 10);
    WhenTruthyStr(req.secCpChallenge);
    WhenTruthyStr(req.provider);
    WhenTruthyStr(req.brandingUrlContent);
  }

  /** `req` with every empty optional string read as unset, as the truthiness guards read them. */
  function SecCptNormalized(req: SecCptRequest): SecCptRequest {
    req.(
      secCpChallenge := DropEmpty(req.secCpChallenge),
      provider := DropEmpty(req.provider),
      brandingUrlContent := DropEmpty(req.brandingUrlContent))
  }

  /** Requests whose guards let the same values through agree once normalised. */
  lemma SecCptValuesDetermine(a: SecCptRequest, b: SecCptRequest)
    requires forall n :: 0 <= n < 11 ==> SecCptValues(a)(n) == SecCptValues(b)(n)
    ensures SecCptNormalized(a) == SecCptNormalized(b)
  {
    assert SecCptValues(a)(0) == SecCptValues(b)(0);
    assert SecCptValues(a)(1) == SecCptValues(b)(1);
    assert SecCptValues(a)(2) == SecCptValues(b)(2);
    assert SecCptValues(a)(3) == SecCptValues(b)(3);
    assert SecCptValues(a)(4) == SecCptValues(b)(4);
    assert SecCptValues(a)(5) == SecCptValues(b)(5);
    assert SecCptValues(a)(6) == SecCptValues(b)(6);
    assert SecCptValues(a)(7) == SecCptValues(b)(7);
    assert SecCptValues(a)(8) == SecCptValues(b)(8);
    assert SecCptValues(a)(9) == SecCptValues(b)(9);
    assert SecCptValues(a)(10) == SecCptValues(b)(10);
    SecCptTruthyFieldsAgree(a, b);
  }

  /** Helper: truthiness guards that agree mean the optional strings agree once normalised. */
  lemma SecCptTruthyFieldsAgree(a: SecCptRequest, b: SecCptRequest)
    requires SecCptValue(a, 5) == SecCptValue(b, 5) && SecCptValue(a, 6) == SecCptValue(b, 6)
    requires SecCptValue(a, 7) == SecCptValue(b, 7)
    ensures DropEmpty(a.secCpChallenge) == DropEmpty(b.secCpChallenge)
    ensures DropEmpty(a.provider) == DropEmpty(b.provider)
    ensures DropEmpty(a.brandingUrlContent) == DropEmpty(b.brandingUrlContent)
  {
    WhenTruthyStrAgree(a.secCpChallenge, b.secCpChallenge);
    WhenTruthyStrAgree(a.provider, b.provider);
    WhenTruthyStrAgree(a.brandingUrlContent, b.brandingUrlContent);
  }

  /** Requests that agree once normalised have every guard let the same value through. */
  lemma SecCptNormalizedValues(a: SecCptRequest, b: SecCptRequest)
    requires SecCptNormalized(a) == SecCptNormalized(b)
    ensures forall n :: 0 <= n < 11 ==> SecCptValues(a)(n) == SecCptValues(b)(n)
  {
    WhenTruthyStrAgree(a.secCpChallenge, b.secCpChallenge);
    WhenTruthyStrAgree(a.provider, b.provider);
    WhenTruthyStrAgree(a.brandingUrlContent, b.brandingUrlContent);
  }

  /** Two sec-cpt requests serialise alike exactly when they agree once empty strings are read as unset. */
  lemma SecCptPayloadDeterminesRequest(a: SecCptRequest, b: SecCptRequest)
    ensures SecCptPayload(a) == SecCptPayload(b) <==> SecCptNormalized(a) == SecCptNormalized(b)
  {
    SecCptKeysDistinct();
    InsertedDetermines(SecCptKey, SecCptValues(a), SecCptValues(b), 11);
    if SecCptPayload(a) == SecCptPayload(b) {
      SecCptValuesDetermine(a, b);
    }
    if SecCptNormalized(a) == SecCptNormalized(b) {
      SecCptNormalizedValues(a, b);
    }
  }

  /** Reply to a sec-cpt request: the token and the answers, taken as sent. */
  datatype SecCptResponse = SecCptResponse(token: Json, answers: Json)

  /** `SecCptResponse.from_dict`: reads `token` and then `answers`; the first one absent raises KeyError. */
  function SecCptResponseFromDict(data: Payload): (r: Result<SecCptResponse, Error>)
    ensures r.Success? <==> "token" in data && "answers" in data
    ensures r.Success? ==> r.value.token == data["token"] && r.value.answers == data["answers"]
    ensures r.Failure? ==> r.error == if "token" !in data then MissingKey("token") else MissingKey("answers")
  {
    var values :- IndexAll(data, ["token", "answers"]);
    Success(SecCptResponse(values[0], values[1]))
  }

  // ---------------------------------------------------------------------------
  // SBSD challenge

  /** Request to solve an SBSD challenge; None is an unset optional field. */
  datatype SbsdRequest = SbsdRequest(
    vid: string,
    userAgent: string,
    bmO: string,
    url: string,
    legacy: Option<bool>,
    scriptHash: Option<string>,
    scriptUrl: Option<string>)

  /** Every key a serialised SBSD request may carry. */
  const SBSD_KEYS: set<string> := {"vid", "userAgent", "bm_o", "url", "legacy", "script_hash", "script_url"}

  /** The wire key of the `n`-th insertion `to_dict` performs; there are 7. */
  function SbsdKey(n: nat): string {
    match n
    case 0 => "vid"
    case 1 => "userAgent"
    case 2 => "bm_o"
    case 3 => "url"
    case 4 => "legacy"
    case 5 => "script_hash"
    case 6 => "script_url"
    case _ => ""
  }

  /** What the guard of the `n`-th insertion lets through for `req`, or None when it drops the field. */
  function SbsdValue(req: SbsdRequest, n: nat): Option<Json> {
    match n
    case 0 => Some(Str(req.vid))
    case 1 => Some(Str(req.userAgent))
    case 2 => Some(Str(req.bmO))
    case 3 => Some(Str(req.url))
    case 4 => OptBool(req.legacy)
    case 5 => WhenTruthy(OptStr(req.scriptHash))
    case 6 => WhenTruthy(OptStr(req.scriptUrl))
    case _ => None
  }

  function SbsdValues(req: SbsdRequest): nat -> Option<Json> {
    (n: nat) => SbsdValue(req, n)
  }

  /** The dictionary an SBSD request serialises to: all 7 insertions performed. */
  function SbsdPayload(req: SbsdRequest): Payload {
    Inserted(SbsdKey, SbsdValues(req), 7)
  }

  /** `SBSDRequest.to_dict`: the four required keys, then each optional key its guard admits. */
  method SbsdToDict(req: SbsdRequest) returns (result: Payload)
    ensures result == SbsdPayload(req)
  {
    result := map[
      "vid" := Str(req.vid),
      "userAgent" := Str(req.userAgent),
      "bm_o" := Str(req.bmO),
      "url" := Str(req.url)
    ];
    SbsdInsertionsTo4(req);
    result := SetIfNotNone(result, "legacy", OptBool(req.legacy));
    result := SetIfTruthy(result, "script_hash", OptStr(req.scriptHash));
    result := SetIfTruthy(result, "script_url", OptStr(req.scriptUrl));
    SbsdInsertions4To7(req);
  }

  /** The dictionary display `to_dict` starts from holds the first four insertions. */
  lemma SbsdInsertionsTo4(req: SbsdRequest)
    ensures Inserted(SbsdKey, SbsdValues(req), 4)
         == map[
              "vid" := Str(req.vid),
              "userAgent" := Str(req.userAgent),
              "bm_o" := Str(req.bmO),
              "url" := Str(req.url)]
  {
  }

  /** The guarded insertions of `legacy`, `script_hash` and `script_url`. */
  lemma SbsdInsertions4To7(req: SbsdRequest)
    ensures Inserted(SbsdKey, SbsdValues(req), 7)
         == Put(Put(Put(Inserted(SbsdKey, SbsdValues(req), 4),
              Entry("legacy", OptBool(req.legacy))),
              Entry("script_hash", WhenTruthy(OptStr(req.scriptHash)))),
              Entry("script_url", WhenTruthy(OptStr(req.scriptUrl))))
  {
  }

  /** The 7 insertions use 7 different wire keys. */
  lemma SbsdKeysDistinct()
    ensures KeysDistinct(SbsdKey, 7)
  {
  }

  /** Each insertion decides its own wire key: present exactly when its guard let a value through. */
  lemma SbsdPayloadAt(req: SbsdRequest, n: nat)
    requires n < 7
    ensures Carries(SbsdPayload(req), SbsdKey(n), SbsdValue(req, n))
  {
    SbsdKeysDistinct();
    InsertedAt(SbsdKey, SbsdValues(req), 7, n);
  }

  /**
   * The four required fields are always sent unchanged; `legacy` exactly when
   * set, so `false` is sent; the two script strings exactly when set and non-empty.
   */
  lemma SbsdPayloadFields(req: SbsdRequest)
    ensures SbsdPayload(req).Keys <= SBSD_KEYS
    ensures Carries(SbsdPayload(req), "vid", Some(Str(req.vid)))
    ensures Carries(SbsdPayload(req), "userAgent", Some(Str(req.userAgent)))
    ensures Carries(SbsdPayload(req), "bm_o", Some(Str(req.bmO)))
    ensures Carries(SbsdPayload(req), "url", Some(Str(req.url)))
    ensures Carries(SbsdPayload(req), "legacy", OptBool(req.legacy))
    ensures Carries(SbsdPayload(req), "script_hash", OptStr(DropEmpty(req.scriptHash)))
    ensures Carries(SbsdPayload(req), "script_url", OptStr(DropEmpty(req.scriptUrl)))
  {
    forall key | key in SbsdPayload(req)
      ensures key in SBSD_KEYS
    {
      InsertedKeys(SbsdKey, SbsdValues(req), 7, key);
    }
    SbsdPayloadAt(req, 0);
    SbsdPayloadAt(req, 1);
    SbsdPayloadAt(req, 2);
    SbsdPayloadAt(req, 3);
    SbsdPayloadAt(req, 4);
    SbsdPayloadAt(req, 5);
    SbsdPayloadAt(req, 6);
    WhenTruthyStr(req.scriptHash);
    WhenTruthyStr(req.scriptUrl);
  }

  /** `req` with every empty optional string read as unset, as the truthiness guards read them. */
  function SbsdNormalized(req: SbsdRequest): SbsdRequest {
    req.(scriptHash := DropEmpty(req.scriptHash), scriptUrl := DropEmpty(req.scriptUrl))
  }

  /** Requests whose guards let the same values through agree once normalised. */
  lemma SbsdValuesDetermine(a: SbsdRequest, b: SbsdRequest)
    requires forall n :: 0 <= n < 7 ==> SbsdValues(a)(n) == SbsdValues(b)(n)
    ensures SbsdNormalized(a) == SbsdNormalized(b)
  {
    assert SbsdValues(a)(0) == SbsdValues(b)(0);
    assert SbsdValues(a)(1) == SbsdValues(b)(1);
    assert SbsdValues(a)(2) == SbsdValues(b)(2);
    assert SbsdValues(a)(3) == SbsdValues(b)(3);
    assert SbsdValues(a)(4) == SbsdValues(b)(4);
    assert SbsdValues(a)(5) == SbsdValues(b)(5);
    assert SbsdValues(a)(6) == SbsdValues(b)(6);
    WhenTruthyStrAgree(a.scriptHash, b.scriptHash);
    WhenTruthyStrAgree(a.scriptUrl, b.scriptUrl);
  }

  /** Requests that agree once normalised have every guard let the same value through. */
  lemma SbsdNormalizedValues(a: SbsdRequest, b: SbsdRequest)
    requires SbsdNormalized(a) == SbsdNormalized(b)
    ensures forall n :: 0 <= n < 7 ==> SbsdValues(a)(n) == SbsdValues(b)(n)
  {
    WhenTruthyStrAgree(a.scriptHash, b.scriptHash);
    WhenTruthyStrAgree(a.scriptUrl, b.scriptUrl);
  }

  /** Two SBSD requests serialise alike exactly when they agree once empty strings are read as unset. */
  lemma SbsdPayloadDeterminesRequest(a: SbsdRequest, b: SbsdRequest)
    ensures SbsdPayload(a) == SbsdPayload(b) <==> SbsdNormalized(a) == SbsdNormalized(b)
  {
    SbsdKeysDistinct();
    InsertedDetermines(SbsdKey, SbsdValues(a), SbsdValues(b), 7);
    if SbsdPayload(a) == SbsdPayload(b) {
      SbsdValuesDetermine(a, b);
    }
    if SbsdNormalized(a) == SbsdNormalized(b) {
      SbsdNormalizedValues(a, b);
    }
  }
}
