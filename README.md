# roolink wire codec, modelled in Dafny

roolink-py is a client for a sensor-generation service. Each request type
turns its typed fields into a JSON object with `to_dict`. Each response type
reads a decoded JSON object back with `from_dict`. This project models that
codec, `roolink/types/web.py` and `roolink/types/bmp.py`, and proves what the
codec promises:

- which wire keys each request sends, and under which names;
- the omission rule of every optional field (falsy versus `None`);
- that a request's dictionary determines the request, up to the empty values
  the guards drop;
- which missing key makes a response fail, and in what order keys are read;
- how the BMP response decodes its cookie list.

Modules:

- `Wrappers` (`wrappers.dfy`): `Option` and `Result`.
- `Json` (`json.dfy`): decoded JSON values (`Null` is Python's `None`) and
  the Python operations the codec uses on them. These are Python truthiness,
  `data[key]` (KeyError), `data.get(key)`, and the left-to-right evaluation of
  several `data[...]` keyword arguments.
- `Dict` (`dict.dfy`): the step-by-step building of a request dictionary.
  `SetIfTruthy` is the guard `if x:` and `SetIfNotNone` is the guard
  `if x is not None:`. Each request numbers its insertions in source order:
  `key(n)` is the wire key of insertion `n`, and `value(n)` is what its guard
  lets through. `Inserted` is the dictionary after the first `n` insertions.
  Lemmas state what such a dictionary carries.
- `Web` (`web.dfy`): the four web request types and five response types.
  The `to_dict` methods of `WebSensorRequest`, `SecCptRequest` and
  `SBSDRequest` fill a local dictionary with one guarded assignment after
  another, so they are modelled as methods that do the same. Each method is
  proved equal to its specification `XPayload`, the dictionary of all its
  insertions. Separate lemmas characterise `XPayload` key by key and show
  when two requests serialise alike.
- `Bmp` (`bmp.dfy`): the BMP request (`asdict` filtered by `is not None`),
  the `Cookie` decoder, and the BMP response with its cookie list.

Errors are `MissingKey(k)` for Python's `KeyError: k` and `TypeMismatch` for
a `TypeError`. Response fields that the source annotates as `str`, `int` or
`List[str]` are kept as the `Json` value that arrived, because `from_dict`
copies them without checking their type.

## Model

| member | source | states |
|---|---|---|
| Json.Index | roolink/types/web.py:68 | `data[key]` succeeds exactly when the key is present and yields its value unchanged; otherwise it fails with KeyError naming that key |
| Json.Get | roolink/types/bmp.py:76-84 | `data.get(key)` never fails: it yields the value when the key is present and None (`Null`) when it is absent |
| Json.WhenTruthy | roolink/types/web.py:33-38 | the guard `if x:` lets a value through exactly when it is set and truthy, and then unchanged |
| Json.WhenTruthyStr | roolink/types/web.py:33-38 | on a string field, `if x:` keeps the field exactly when it is set and non-empty |
| Json.WhenTruthyObject | roolink/types/web.py:53-54 | on the script-data dictionary, `if x:` keeps it exactly when it is set and non-empty |
| Json.WhenTruthyStrAgree | roolink/types/web.py:33-38 | two string fields pass `if x:` alike exactly when they agree once the empty string is read as unset |
| Json.WhenTruthyObjectAgree | roolink/types/web.py:53-54 | two dictionary fields pass `if x:` alike exactly when they agree once the empty dictionary is read as unset |
| Json.FirstMissing | roolink/types/bmp.py:69-75 | the position of the first absent key of a list: every earlier key is present and that one is absent |
| Json.IndexAll | roolink/types/bmp.py:69-75 | reading several keys in turn succeeds exactly when all are present, yields their values in order, and otherwise fails naming the first absent key |
| Dict.SetIfTruthy | roolink/types/web.py:33-34 | `if v: m[key] = v` is one insertion whose value is what `if v:` lets through |
| Dict.SetIfNotNone | roolink/types/web.py:39-40 | `if v is not None: m[key] = v` is one insertion whose value is `v` whenever it is set, falsy or not |
| Dict.PutAt | roolink/types/web.py:33-56 | an insertion sets its own key when its guard let a value through and leaves every other key as it was |
| Dict.InsertedOutside | roolink/types/web.py:27-57 | a key that no insertion uses is never present in the built dictionary |
| Dict.InsertedAt | roolink/types/web.py:27-57 | with distinct wire keys, each key is present exactly when its own guard let a value through, holding that value; later insertions do not disturb it |
| Dict.InsertedKeys | roolink/types/web.py:27-57 | every key of the built dictionary was put there by one of the insertions |
| Dict.InsertedExtensional | roolink/types/web.py:27-57 | insertions that let the same values through build the same dictionary |
| Dict.InsertedDetermines | roolink/types/web.py:27-57 | with distinct keys, two runs build the same dictionary exactly when every insertion let the same value through |
| Web.WebSensorToDict | roolink/types/web.py:27-57 | the method builds exactly `WebSensorPayload`: the display of `userAgent` and `url`, followed by the 12 guarded insertions in source order |
| Web.WebSensorPayloadAt | roolink/types/web.py:29-56 | each of the 14 wire keys is present exactly when its guard admits its field, holding the field's value |
| Web.WebSensorPayloadRequired | roolink/types/web.py:29-36 | only keys from the fixed wire-key list are sent, never `abck`; `userAgent` and `url` always hold the user agent and URL unchanged |
| Web.WebSensorPayloadTruthyFields | roolink/types/web.py:33-56 | `flags`, `_abck`, `bm_sz`, `language`, `scriptData`, `scriptUrl` are sent exactly when the field is set and non-empty, with its value |
| Web.WebSensorPayloadSetFields | roolink/types/web.py:39-52 | `sec_cpt`, `index`, `stepper`, `keyboard`, `count`, `customSensor` are sent exactly when set, so `False` and `0` are sent |
| Web.WebSensorValuesDetermine | roolink/types/web.py:29-56 | requests whose 14 guards let the same values through agree once empty strings and dictionaries are read as unset |
| Web.WebSensorNormalizedValues | roolink/types/web.py:29-56 | requests that agree once empty values are read as unset have all 14 guards let the same values through |
| Web.WebSensorPayloadDeterminesRequest | roolink/types/web.py:27-57 | two web sensor requests serialise to the same dictionary exactly when they agree once empty strings and dictionaries are read as unset |
| Web.WebSensorResponseFromDict | roolink/types/web.py:67-68 | succeeds exactly when `sensor` is present, copying it; otherwise fails with KeyError `sensor` |
| Web.PixelResponseFromDict | roolink/types/web.py:94-95 | succeeds exactly when `sensor` is present, copying it; otherwise fails with KeyError `sensor` |
| Web.SbsdResponseFromDict | roolink/types/web.py:184-185 | succeeds exactly when `body` is present, copying it; otherwise fails with KeyError `body` |
| Web.ParseResponseFromDict | roolink/types/web.py:195-196 | succeeds exactly when `scriptData` is present, copying it; otherwise fails with KeyError `scriptData` |
| Web.PixelToDict | roolink/types/web.py:79-84 | the dictionary has exactly the keys `userAgent`, `bazadebezolkohpepadr` and `hash`, each holding its own field unchanged |
| Web.PixelToDictInjective | roolink/types/web.py:79-84 | two pixel requests serialise alike exactly when they are equal: the dictionary loses nothing |
| Web.SecCptToDict | roolink/types/web.py:114-134 | the method builds exactly `SecCptPayload`: the display of the five challenge fields, followed by the six guarded insertions in source order |
| Web.SecCptPayloadAt | roolink/types/web.py:115-133 | each of the 11 wire keys is present exactly when its guard admits its field, holding the field's value |
| Web.SecCptPayloadRequired | roolink/types/web.py:115-121 | only keys from the fixed wire-key list are sent; `token`, `timestamp`, `nonce`, `difficulty` and `cookie` always hold their fields unchanged |
| Web.SecCptPayloadOptional | roolink/types/web.py:122-133 | the three optional strings (`sec_cp_challenge` as `sec-cp-challenge`) are sent exactly when set and non-empty; `chlg_duration`, `timeout` and `cpu` exactly when set |
| Web.SecCptTruthyFieldsAgree | roolink/types/web.py:122-127 | agreeing truthiness guards mean the three optional strings agree once empty is read as unset |
| Web.SecCptValuesDetermine | roolink/types/web.py:115-133 | requests whose 11 guards let the same values through agree once empty strings are read as unset |
| Web.SecCptNormalizedValues | roolink/types/web.py:115-133 | requests that agree once empty strings are read as unset have all 11 guards let the same values through |
| Web.SecCptPayloadDeterminesRequest | roolink/types/web.py:114-134 | two sec-cpt requests serialise alike exactly when they agree once empty strings are read as unset |
| Web.SecCptResponseFromDict | roolink/types/web.py:145-146 | succeeds exactly when `token` and `answers` are present, copying both (the answer list with its length and order); otherwise fails naming `token` if it is absent, else `answers` |
| Web.SbsdToDict | roolink/types/web.py:161-174 | the method builds exactly `SbsdPayload`: the display of the four required fields, followed by the three guarded insertions in source order |
| Web.SbsdPayloadAt | roolink/types/web.py:162-173 | each of the 7 wire keys is present exactly when its guard admits its field, holding the field's value |
| Web.SbsdPayloadFields | roolink/types/web.py:162-173 | only listed keys are sent; `vid`, `userAgent`, `bm_o` and `url` always; `legacy` exactly when set; `script_hash` and `script_url` exactly when set and non-empty |
| Web.SbsdValuesDetermine | roolink/types/web.py:162-173 | requests whose 7 guards let the same values through agree once empty strings are read as unset |
| Web.SbsdNormalizedValues | roolink/types/web.py:162-173 | requests that agree once empty strings are read as unset have all 7 guards let the same values through |
| Web.SbsdPayloadDeterminesRequest | roolink/types/web.py:161-174 | two SBSD requests serialise alike exactly when they agree once empty strings are read as unset |
| Bmp.OrNull | roolink/types/bmp.py:11-13 | an unset optional field is the value None (`Null`) in `asdict`, and a set one is its value |
| Bmp.BmpSensorItems | roolink/types/bmp.py:17 | `asdict(self).items()`: the five fields under their own distinct names in declaration order, each holding its own field's value; `app` and `proxy` are never None, and each optional field is None exactly when unset |
| Bmp.BmpSensorToDict | roolink/types/bmp.py:15-17 | `to_dict` is the None-dropping comprehension over those items, so no value sent is None (key-by-key content in `BmpSensorToDictFields`) |
| Bmp.DropNone | roolink/types/bmp.py:17 | the comprehension keeps only values that are not None, under names that occur among the items |
| Bmp.DropNoneOutside | roolink/types/bmp.py:17 | a name that no item uses is absent from the result |
| Bmp.DropNoneAt | roolink/types/bmp.py:17 | with distinct names, each name is present exactly when its value is not None, holding that value |
| Bmp.BmpSensorToDictKeys | roolink/types/bmp.py:15-17 | the only keys sent are the field names `app`, `proxy`, `language`, `android` and `ipad` |
| Bmp.BmpSensorToDictFields | roolink/types/bmp.py:15-17 | each field is sent under its own name exactly when it is not None, so `False` and `""` are sent |
| Bmp.BmpSensorToDictInjective | roolink/types/bmp.py:15-17 | two BMP requests serialise alike exactly when they are equal: the dictionary loses nothing |
| Bmp.CookieFromDict | roolink/types/bmp.py:29-34 | succeeds exactly when `name`, `value` and `domain` are present, copying them; otherwise fails naming the first absent one in that order |
| Bmp.CookieRoundTrip | roolink/types/bmp.py:29-34 | a cookie's own dictionary, whatever other keys it carries, decodes back to that cookie |
| Bmp.CookieFromJson | roolink/types/bmp.py:66 | an element of the cookie list decodes by `Cookie.from_dict` when it is a dictionary; any other element raises TypeError |
| Bmp.FirstBadCookie | roolink/types/bmp.py:66 | the position of the first element that does not decode: every earlier one decodes and that one fails |
| Bmp.DecodeCookies | roolink/types/bmp.py:66 | the list comprehension succeeds exactly when every element decodes, giving one cookie per element in the same order; otherwise it gives the error of the first bad element |
| Bmp.CookiesFromDict | roolink/types/bmp.py:64-66 | an absent or falsy `cookies` (missing, empty list, None) gives None; a truthy non-list raises TypeError; a non-empty list gives its decoded cookies when every element decodes, and otherwise fails with the first bad element's TypeError or KeyError |
| Bmp.CookiesDecoded | roolink/types/bmp.py:64-66 | a non-empty list of cookie dictionaries decodes to a list of the same length in which element i is `Cookie.from_dict` of element i |
| Bmp.BmpSensorResponseFromDict | roolink/types/bmp.py:63-85 | the cookie list is decoded first and its error wins. The response then succeeds exactly when all seven required keys are present, copying them to the snake_case fields, and otherwise fails naming the first absent one. The eight optional fields come from `.get` and never fail |
| Bmp.BmpSensorResponseOptionalFree | roolink/types/bmp.py:68-85 | setting any iOS or Android optional key to any value never changes whether a response decodes: nothing ties those groups to `platform` |

## Left out

- `roolink/client.py` is not part of this model. It holds the HTTP transport:
  the client, headers, timeouts, the `status_code >= 400` check, URL
  building, and the `scriptContent` wrapper of the parse call. These are
  network I/O over a library whose code is not here.
- `roolink/__init__.py` is not part of this model: it only re-exports names
  and holds the version string.
- JSON text encoding and decoding are not modelled. Payloads are
  already-decoded maps (`Json.Payload`), and floating-point numbers are
  Dafny `real`s.
- The iteration order of Python dictionaries is not modelled. A `Payload` is
  an unordered map. The order in which `to_dict` inserts keys survives only
  as the numbering of insertions (`WebSensorKey`, `SecCptKey`, `SbsdKey`)
  and, for the BMP request, as the sequence order of `BmpSensorItems`.
- The contents of `ScriptData` and other `Dict[str, Any]` values are opaque.
  They are carried and compared as whole values and never inspected.
- Aliasing is not modelled. Python's `to_dict` puts the caller's own
  `script_data` object into the result, while the model copies values.
- Response fields are not type-checked. `from_dict` copies whatever value
  arrives, and so does the model. The source's annotations (`str`, `int`,
  `List[str]`) are not promised.
- Python's exception messages are not modelled. A `TypeError` is the single
  value `TypeMismatch`, whatever object caused it.
- Bmp.BmpSensorResponseOptionalFree: states the absence of cross-field
  validation one optional key at a time (setting one key to any value)
  rather than for arbitrary groups of keys at once.
