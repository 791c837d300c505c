/**
 * The BMP (mobile app) request and response codec. The request serialises
 * through `asdict`, dropping only the fields that are None, so `False` and
 * the empty string are sent. The response reads seven required keys by
 * indexing, eight optional ones with `.get`, and an optional list of cookies
 * that it decodes element by element.
 */
module Bmp {
  import opened Wrappers
  import opened Json

  // ---------------------------------------------------------------------------
  // Request

  /** Request to generate a BMP sensor; None is an unset optional field. */
  datatype BmpSensorRequest = BmpSensorRequest(
    app: string,
    proxy: string,
    language: Option<string>,
    android: Option<bool>,
    ipad: Option<bool>)

  /** An optional value as Python holds it: None is JSON null. */
  function OrNull(o: Option<Json>): (v: Json)
    ensures o.None? ==> v == Null
    ensures o.Some? ==> v == o.value
  {
    if o.Some? then o.value else Null
  }

  /** `asdict(self).items()`: each field under its own name, in declaration order, None when unset. */
  function BmpSensorItems(req: BmpSensorRequest): (items: seq<(string, Json)>)
    ensures |items| == 5 && NamesDistinct(items)
    ensures items[0].0 == "app" && items[1].0 == "proxy" && items[2].0 == "language"
    ensures items[3].0 == "android" && items[4].0 == "ipad"
    ensures items[0].1 != Null && items[1].1 != Null
    ensures (items[2].1 == Null <==> req.language.None?) && (items[3].1 == Null <==> req.android.None?)
    ensures items[4].1 == Null <==> req.ipad.None?
    ensures items[0].1 == Str(req.app) && items[1].1 == Str(req.proxy)
    ensures (req.language.Some? ==> items[2].1 == Str(req.language.value))
      && (req.android.Some? ==> items[3].1 == Bool(req.android.value))
      && (req.ipad.Some? ==> items[4].1 == Bool(req.ipad.value))
  {
    [("app", Str(req.app)),
     ("proxy", Str(req.proxy)),
     ("language", OrNull(OptStr(req.language))),
     ("android", OrNull(OptBool(req.android))),
     ("ipad", OrNull(OptBool(req.ipad)))]
  }

  /** No name occurs twice among `items`. */
  predicate NamesDistinct(items: seq<(string, Json)>) {
    forall i, j :: 0 <= i < j < |items| ==> items[i].0 != items[j].0
  }

  /**
   * `{k: v for k, v in items if v is not None}`: every pair whose value is not
   * None, a later pair overriding an earlier one with the same name.
   */
  function DropNone(items: seq<(string, Json)>): (m: Payload)
    ensures forall k :: k in m ==> m[k] != Null
    ensures forall k :: k in m ==> exists i :: 0 <= i < |items| && items[i].0 == k
  {
    if items == [] then map[]
    else
      var m := DropNone(items[..|items| - 1]);
      var (k, v) := items[|items| - 1];
      if v != Null then m[k := v] else m
  }

  /** A name no pair uses is absent. */
  lemma DropNoneOutside(items: seq<(string, Json)>, k: string)
    requires forall i :: 0 <= i < |items| ==> items[i].0 != k
    ensures k !in DropNone(items)
  {
  }

  /** With distinct names, each name carries its value exactly when that value is not None. */
  lemma {:induction false} DropNoneAt(items: seq<(string, Json)>, i: nat)
    requires NamesDistinct(items) && i < |items|
    ensures Carries(DropNone(items), items[i].0, if items[i].1 == Null then None else Some(items[i].1))
  {
    var init := items[..|items| - 1];
    assert NamesDistinct(init);
    if i < |items| - 1 {
      assert init[i] == items[i];
      DropNoneAt(init, i);
    } else {
      DropNoneOutside(init, items[i].0);
    }
  }

  /** `BMPSensorRequest.to_dict`. */
  function BmpSensorToDict(req: BmpSensorRequest): (m: Payload)
    ensures forall k :: k in m ==> m[k] != Null
  {
    DropNone(BmpSensorItems(req))
  }

  /** The wire keys are the field names. */
  lemma BmpSensorToDictKeys(req: BmpSensorRequest)
    ensures BmpSensorToDict(req).Keys <= {"app", "proxy", "language", "android", "ipad"}
  {
    var items := BmpSensorItems(req);
    forall k | k in BmpSensorToDict(req)
      ensures k in {"app", "proxy", "language", "android", "ipad"}
    {
      var i :| 0 <= i < |items| && items[i].0 == k;
    }
  }

  /** Each field is sent under its own name exactly when it is not None, so `False` and `""` are sent. */
  lemma BmpSensorToDictFields(req: BmpSensorRequest)
    ensures Carries(BmpSensorToDict(req), "app", Some(Str(req.app)))
    ensures Carries(BmpSensorToDict(req), "proxy", Some(Str(req.proxy)))
    ensures Carries(BmpSensorToDict(req), "language", OptStr(req.language))
    ensures Carries(BmpSensorToDict(req), "android", OptBool(req.android))
    ensures Carries(BmpSensorToDict(req), "ipad", OptBool(req.ipad))
  {
    var items := BmpSensorItems(req);
    assert NamesDistinct(items);
    DropNoneAt(items, 0);
    DropNoneAt(items, 1);
    DropNoneAt(items, 2);
    DropNoneAt(items, 3);
    DropNoneAt(items, 4);
  }

  /** Nothing is lost in a BMP request: two requests serialise alike exactly when they are equal. */
  lemma BmpSensorToDictInjective(a: BmpSensorRequest, b: BmpSensorRequest)
    ensures BmpSensorToDict(a) == BmpSensorToDict(b) <==> a == b
  {
    if BmpSensorToDict(a) == BmpSensorToDict(b) {
      var m := BmpSensorToDict(a);
      BmpSensorToDictFields(a);
      BmpSensorToDictFields(b);
      CarriesUnique(m, "app", Some(Str(a.app)), Some(Str(b.app)));
      CarriesUnique(m, "proxy", Some(Str(a.proxy)), Some(Str(b.proxy)));
      CarriesUnique(m, "language", OptStr(a.language), OptStr(b.language));
      CarriesUnique(m, "android", OptBool(a.android), OptBool(b.android));
      CarriesUnique(m, "ipad", OptBool(a.ipad), OptBool(b.ipad));
      OptStrInjective(a.language, b.language);
    }
  }

  // ---------------------------------------------------------------------------
  // Cookies

  /** A cookie the service returns; its fields are taken as sent, without a type check. */
  datatype Cookie = Cookie(name: Json, value: Json, domain: Json)

  /** `Cookie.from_dict`: reads `name`, `value` and `domain` in turn; the first one absent raises KeyError. */
  function CookieFromDict(data: Payload): (r: Result<Cookie, Error>)
    ensures r.Success? <==> "name" in data && "value" in data && "domain" in data
    ensures r.Success? ==> r.value == Cookie(data["name"], data["value"], data["domain"])
    ensures r.Failure? ==> r.error == MissingKey(
      if "name" !in data then "name" else if "value" !in data then "value" else "domain")
  {
    var values :- IndexAll(data, ["name", "value", "domain"]);
    Success(Cookie(values[0], values[1], values[2]))
  }

  /** A cookie as the service sends it: a dictionary of its three fields. */
  function CookieToDict(c: Cookie): Payload {
    map["name" := c.name, "value" := c.value, "domain" := c.domain]
  }

  /** Decoding a cookie dictionary gives back the cookie it was made from, whatever else it carries. */
  lemma CookieRoundTrip(c: Cookie, extra: Payload)
    ensures CookieFromDict(extra + CookieToDict(c)) == Success(c)
  {
    var data := extra + CookieToDict(c);
    assert data["name"] == c.name && data["value"] == c.value && data["domain"] == c.domain;
  }

  /** `Cookie.from_dict(c)` for one element of the cookie list: indexing anything but a dictionary raises TypeError. */
  function CookieFromJson(c: Json): (r: Result<Cookie, Error>)
    ensures !c.Object? ==> r == Failure(TypeMismatch)
    ensures c.Object? ==> r == CookieFromDict(c.fields)
  {
    if c.Object? then CookieFromDict(c.fields) else Failure(TypeMismatch)
  }

  /** The position of the first element that does not decode as a cookie, or |items| when all do. */
  function FirstBadCookie(items: seq<Json>): (i: nat)
    ensures i <= |items|
    ensures forall j :: 0 <= j < i ==> CookieFromJson(items[j]).Success?
    ensures i < |items| ==> CookieFromJson(items[i]).Failure?
  {
    if items == [] then 0
    else if CookieFromJson(items[0]).Success? then 1 + FirstBadCookie(items[1..])
    else 0
  }

  /**
   * `[Cookie.from_dict(c) for c in items]`: the cookies in order, one per
   * element, or the error of the first element that does not decode.
   */
  function DecodeCookies(items: seq<Json>): (r: Result<seq<Cookie>, Error>)
    ensures r.Success? <==> forall j :: 0 <= j < |items| ==> CookieFromJson(items[j]).Success?
    ensures r.Success? ==> |r.value| == |items|
    ensures r.Success? ==> forall j :: 0 <= j < |items| ==> CookieFromJson(items[j]) == Success(r.value[j])
    ensures r.Failure? ==> r.error == CookieFromJson(items[FirstBadCookie(items)]).error
  {
    if items == [] then Success([])
    else
      var c :- CookieFromJson(items[0]);
      var rest :- DecodeCookies(items[1..]);
      Success([c] + rest)
  }

  /**
   * The cookie list of a BMP response: None unless `cookies` is present and
   * truthy; a non-empty list decodes element by element; any other truthy
   * value raises TypeError, since iterating it yields no dictionaries.
   */
  function CookiesFromDict(data: Payload): (r: Result<Option<seq<Cookie>>, Error>)
    ensures !("cookies" in data && Truthy(data["cookies"])) ==> r == Success(None)
    ensures "cookies" in data && Truthy(data["cookies"]) && !data["cookies"].List? ==> r == Failure(TypeMismatch)
    ensures "cookies" in data && Truthy(data["cookies"]) && data["cookies"].List? ==>
      var d := DecodeCookies(data["cookies"].items);
      (d.Success? ==> r == Success(Some(d.value))) && (d.Failure? ==> r == Failure(d.error))
  {
    if "cookies" in data && Truthy(data["cookies"]) then
      match data["cookies"]
      case List(items) =>
        var cookies :- DecodeCookies(items);
        Success(Some(cookies))
      case _ => Failure(TypeMismatch)
    else Success(None)
  }

  /**
   * A non-empty list of cookie dictionaries decodes to one cookie per
   * element, in order, each copying its element's three fields: the
   * element-by-element reading of the list clause of `CookiesFromDict`.
   */
  lemma CookiesDecoded(data: Payload, items: seq<Json>)
    requires "cookies" in data && data["cookies"] == List(items) && items != []
    requires forall j :: 0 <= j < |items| ==> items[j].Object? && CookieFromDict(items[j].fields).Success?
    ensures CookiesFromDict(data).Success? && CookiesFromDict(data).value.Some?
    ensures var cookies := CookiesFromDict(data).value.value;
      |cookies| == |items| && forall j :: 0 <= j < |items| ==> cookies[j] == CookieFromDict(items[j].fields).value
  {
    var r := DecodeCookies(items);
    assert r.Success?;
    assert CookiesFromDict(data) == Success(Some(r.value));
  }

  // ---------------------------------------------------------------------------
  // Response

  /**
   * Reply to a BMP request. Required fields and the optional iOS and Android
   * fields are taken as sent; an absent optional field is `Null`.
   */
  datatype BmpSensorResponse = BmpSensorResponse(
    sensor: Json,
    platform: Json,
    deviceId: Json,
    appVersion: Json,
    screenHeight: Json,
    screenWidth: Json,
    language: Json,
    ios: Json,
    kernelOsRelease: Json,
    kernelOsVersion: Json,
    machineId: Json,
    cookies: Option<seq<Cookie>>,
    android: Json,
    deviceModel: Json,
    deviceManufacturer: Json,
    sdkVersion: Json)

  /** The keys `from_dict` indexes, in the order it reads them. */
  const BMP_REQUIRED_KEYS: seq<string> :=
    ["sensor", "platform", "deviceId", "appVersion", "screenHeight", "screenWidth", "language"]

  /** The keys `from_dict` reads with `.get`. */
  const BMP_OPTIONAL_KEYS: set<string> := {
    "ios", "kernelOsRelease", "kernelOsVersion", "machineId",
    "android", "deviceModel", "deviceManufacturer", "sdkVersion"
  }

  /**
   * `BMPSensorResponse.from_dict`: the cookie list first, then the required
   * keys in turn, then the optional keys, which never fail.
   */
  function BmpSensorResponseFromDict(data: Payload): (r: Result<BmpSensorResponse, Error>)
    ensures r.Success? <==>
      (CookiesFromDict(data).Success? && "sensor" in data && "platform" in data && "deviceId" in data
       && "appVersion" in data && "screenHeight" in data && "screenWidth" in data && "language" in data)
    ensures r.Failure? && CookiesFromDict(data).Failure? ==> r.error == CookiesFromDict(data).error
    ensures r.Failure? && CookiesFromDict(data).Success? ==>
      var i := FirstMissing(data, BMP_REQUIRED_KEYS);
      i < |BMP_REQUIRED_KEYS| && r.error == MissingKey(BMP_REQUIRED_KEYS[i])
    ensures r.Success? ==> r.value.cookies == CookiesFromDict(data).value
    ensures r.Success? ==>
      (r.value.sensor == data["sensor"] && r.value.platform == data["platform"]
       && r.value.deviceId == data["deviceId"] && r.value.appVersion == data["appVersion"]
       && r.value.screenHeight == data["screenHeight"] && r.value.screenWidth == data["screenWidth"]
       && r.value.language == data["language"])
    ensures r.Success? ==>
      (r.value.ios == Get(data, "ios") && r.value.kernelOsRelease == Get(data, "kernelOsRelease")
       && r.value.kernelOsVersion == Get(data, "kernelOsVersion") && r.value.machineId == Get(data, "machineId")
       && r.value.android == Get(data, "android") && r.value.deviceModel == Get(data, "deviceModel")
       && r.value.deviceManufacturer == Get(data, "deviceManufacturer") && r.value.sdkVersion == Get(data, "sdkVersion"))
  {
    var cookies :- CookiesFromDict(data);
    var values :- IndexAll(data, BMP_REQUIRED_KEYS);
    Success(BmpSensorResponse(
      sensor := values[0],
      platform := values[1],
      deviceId := values[2],
      appVersion := values[3],
      screenHeight := values[4],
      screenWidth := values[5],
      language := values[6],
      ios := Get(data, "ios"),
      kernelOsRelease := Get(data, "kernelOsRelease"),
      kernelOsVersion := Get(data, "kernelOsVersion"),
      machineId := Get(data, "machineId"),
      cookies := cookies,
      android := Get(data, "android"),
      deviceModel := Get(data, "deviceModel"),
      deviceManufacturer := Get(data, "deviceManufacturer"),
      sdkVersion := Get(data, "sdkVersion")))
  }

  /**
   * The optional iOS and Android keys never decide whether a response
   * decodes: setting any of them to any value leaves the outcome as it was.
   * Nothing ties them to `platform`.
   */
  lemma BmpSensorResponseOptionalFree(data: Payload, key: string, v: Json)
    requires key in BMP_OPTIONAL_KEYS
    ensures BmpSensorResponseFromDict(data[key := v]).Success? <==> BmpSensorResponseFromDict(data).Success?
  {
    var updated := data[key := v];
    assert key != "cookies";
    assert CookiesFromDict(updated) == CookiesFromDict(data);
    assert key != "sensor" && key != "platform" && key != "deviceId" && key != "appVersion";
    assert key != "screenHeight" && key != "screenWidth" && key != "language";
  }
}
