/**
 * Decoded JSON documents, as the HTTP layer hands them to the codec, and the
 * few Python operations the codec applies to them: indexing a dictionary,
 * `dict.get`, and the truthiness test of an `if` statement.
 */
module Json {
  import opened Wrappers

  /** A decoded JSON value. `Null` is Python's None. */
  datatype Json =
    | Null
    | Bool(b: bool)
    | Int(i: int)
    | Real(r: real)
    | Str(s: string)
    | List(items: seq<Json>)
    | Object(fields: map<string, Json>)

  /** A JSON object: the dictionary a request serialises to or a response is read from. */
  type Payload = map<string, Json>

  /** What a decoder raises: KeyError on a missing key, TypeError on a value of the wrong shape. */
  datatype Error = MissingKey(key: string) | TypeMismatch

  /** Python's truth value of a decoded JSON value (`if v:`). */
  predicate Truthy(v: Json) {
    match v
    case Null => false
    case Bool(b) => b
    case Int(i) => i != 0
    case Real(r) => r != 0.0
    case Str(s) => s != ""
    case List(items) => items != []
    case Object(fields) => fields != map[]
  }

  /** `data[key]`: the value under `key`, or KeyError naming it. */
  function Index(data: Payload, key: string): (r: Result<Json, Error>)
    ensures r.Success? <==> key in data
    ensures r.Success? ==> r.value == data[key]
    ensures r.Failure? ==> r.error == MissingKey(key)
  {
    if key in data then Success(data[key]) else Failure(MissingKey(key))
  }

  /** `data.get(key)`: the value under `key`, or None when the key is absent; never fails. */
  function Get(data: Payload, key: string): (v: Json)
    ensures key in data ==> v == data[key]
    ensures key !in data ==> v == Null
  {
    if key in data then data[key] else Null
  }

  /** The guard `if x:` on an optional request field: the value survives only when it is truthy. */
  function WhenTruthy(o: Option<Json>): (r: Option<Json>)
    ensures r.Some? <==> o.Some? && Truthy(o.value)
    ensures r.Some? ==> r == o
  {
    if o.Some? && Truthy(o.value) then o else None
  }

  /** A typed optional request field as the JSON value it serialises to. */
  function OptStr(o: Option<string>): Option<Json> {
    if o.Some? then Some(Str(o.value)) else None
  }

  function OptBool(o: Option<bool>): Option<Json> {
    if o.Some? then Some(Bool(o.value)) else None
  }

  function OptInt(o: Option<int>): Option<Json> {
    if o.Some? then Some(Int(o.value)) else None
  }

  function OptObject(o: Option<Payload>): Option<Json> {
    if o.Some? then Some(Object(o.value)) else None
  }

  /** Python's truthiness on an optional string field: set and non-empty. */
  predicate Filled(o: Option<string>) {
    o.Some? && o.value != ""
  }

  /** An optional string with the empty string read as unset, as a truthiness guard reads it. */
  function DropEmpty(o: Option<string>): Option<string> {
    if Filled(o) then o else None
  }

  /** An optional dictionary with the empty dictionary read as unset, as a truthiness guard reads it. */
  function DropEmptyObject(o: Option<Payload>): Option<Payload> {
    if o.Some? && o.value != map[] then o else None
  }

  /** `m` carries `v` under `key`: the key is present exactly when `v` is, holding its value. */
  predicate Carries(m: Payload, key: string, v: Option<Json>) {
    (key in m <==> v.Some?) && (key in m ==> m[key] == v.value)
  }

  /** The position of the first of `keys` that `data` lacks, or |keys| when none is missing. */
  function FirstMissing(data: Payload, keys: seq<string>): (i: nat)
    ensures i <= |keys|
    ensures forall j :: 0 <= j < i ==> keys[j] in data
    ensures i < |keys| ==> keys[i] !in data
  {
    if keys == [] then 0
    else if keys[0] in data then 1 + FirstMissing(data, keys[1..])
    else 0
  }

  /**
   * `data[k]` for each of `keys` in turn, as a constructor call with several
   * required keyword arguments evaluates them: the first missing key raises.
   */
  function IndexAll(data: Payload, keys: seq<string>): (r: Result<seq<Json>, Error>)
    ensures r.Success? <==> forall j :: 0 <= j < |keys| ==> keys[j] in data
    ensures r.Success? ==> |r.value| == |keys| && forall j :: 0 <= j < |keys| ==> r.value[j] == data[keys[j]]
    ensures r.Failure? ==> r.error == MissingKey(keys[FirstMissing(data, keys)])
  {
    if keys == [] then Success([])
    else
      var v :- Index(data, keys[0]);
      var rest :- IndexAll(data, keys[1..]);
      Success([v] + rest)
  }

  /** A key carries at most one value. */
  lemma CarriesUnique(m: Payload, key: string, v: Option<Json>, w: Option<Json>)
    requires Carries(m, key, v) && Carries(m, key, w)
    ensures v == w
  {
  }

  /** Serialising an optional string loses nothing: equal wire values mean equal fields. */
  lemma OptStrInjective(x: Option<string>, y: Option<string>)
    requires OptStr(x) == OptStr(y)
    ensures x == y
  {
  }

  /** The guard `if x:` on a string field keeps it exactly when it is non-empty. */
  lemma WhenTruthyStr(o: Option<string>)
    ensures WhenTruthy(OptStr(o)) == OptStr(DropEmpty(o))
  {
  }

  /** The guard `if x:` on a dictionary field keeps it exactly when it is non-empty. */
  lemma WhenTruthyObject(o: Option<Payload>)
    ensures WhenTruthy(OptObject(o)) == OptObject(DropEmptyObject(o))
  {
  }

  /** Two string fields pass the guard `if x:` alike exactly when they agree once empty is read as unset. */
  lemma WhenTruthyStrAgree(x: Option<string>, y: Option<string>)
    ensures WhenTruthy(OptStr(x)) == WhenTruthy(OptStr(y)) <==> DropEmpty(x) == DropEmpty(y)
  {
    WhenTruthyStr(x);
    WhenTruthyStr(y);
    if WhenTruthy(OptStr(x)) == WhenTruthy(OptStr(y)) {
      OptStrInjective(DropEmpty(x), DropEmpty(y));
    }
  }

  /** Two dictionary fields pass the guard `if x:` alike exactly when they agree once empty is read as unset. */
  lemma WhenTruthyObjectAgree(x: Option<Payload>, y: Option<Payload>)
    ensures WhenTruthy(OptObject(x)) == WhenTruthy(OptObject(y)) <==> DropEmptyObject(x) == DropEmptyObject(y)
  {
    WhenTruthyObject(x);
    WhenTruthyObject(y);
  }
}
