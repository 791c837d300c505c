/**
 * A request's `to_dict` starts from a dictionary display of its required
 * fields and then inserts each optional field under its wire key when the
 * field's guard lets it through. This module describes that process.
 *
 * Each request numbers its insertions in the order `to_dict` performs them:
 * `key(n)` is the wire key of insertion `n` and `value(n)` what its guard
 * lets through (None when it drops the field). One insertion is `Put`, done
 * by `SetIfTruthy` or `SetIfNotNone` according to the guard, and `Inserted`
 * is the dictionary after the first `n` insertions. The lemmas say what that
 * dictionary holds: each key carries its own insertion's value, no other key
 * is present, and two runs give the same dictionary exactly when every
 * insertion let the same value through.
 */
module Dict {
  import opened Wrappers
  import opened Json

  /** One guarded insertion: the wire key, and the value its guard lets through or None. */
  datatype Entry = Entry(key: string, value: Option<Json>)

  /** `m` after the insertion `e`: the key is set when the guard let a value through, else nothing changes. */
  function Put(m: Payload, e: Entry): Payload {
    if e.value.Some? then m[e.key := e.value.value] else m
  }

  /** `if v: m[key] = v`, the guard on a string or dictionary field. */
  method SetIfTruthy(m: Payload, key: string, v: Option<Json>) returns (r: Payload)
    ensures r == Put(m, Entry(key, WhenTruthy(v)))
  {
    r := m;
    if v.Some? && Truthy(v.value) {
      r := r[key := v.value];
    }
  }

  /** `if v is not None: m[key] = v`, the guard on a boolean or integer field. */
  method SetIfNotNone(m: Payload, key: string, v: Option<Json>) returns (r: Payload)
    ensures r == Put(m, Entry(key, v))
  {
    r := m;
    if v.Some? {
      r := r[key := v.value];
    }
  }

  /** The dictionary after the first `n` insertions, starting from an empty one. */
  function Inserted(key: nat -> string, value: nat -> Option<Json>, n: nat): Payload {
    if n == 0 then map[] else Put(Inserted(key, value, n - 1), Entry(key(n - 1), value(n - 1)))
  }

  /** The first `n` insertions use `n` different wire keys. */
  ghost predicate KeysDistinct(key: nat -> string, n: nat) {
    forall i, j :: 0 <= i < j < n ==> key(i) != key(j)
  }

  /** An insertion sets its key to the value its guard let through, or leaves the key as it was. */
  lemma PutAt(m: Payload, e: Entry, k: string)
    ensures Carries(Put(m, e), k, if k == e.key && e.value.Some? then e.value else if k in m then Some(m[k]) else None)
  {
  }

  /** A key no insertion uses is absent. */
  lemma {:induction false} InsertedOutside(key: nat -> string, value: nat -> Option<Json>, n: nat, k: string)
    requires forall i :: 0 <= i < n ==> key(i) != k
    ensures k !in Inserted(key, value, n)
  {
    if n > 0 {
      InsertedOutside(key, value, n - 1, k);
      PutAt(Inserted(key, value, n - 1), Entry(key(n - 1), value(n - 1)), k);
    }
  }

  /** With distinct keys, insertion `i` decides its key: present exactly when its guard let a value through. */
  lemma {:induction false} InsertedAt(key: nat -> string, value: nat -> Option<Json>, n: nat, i: nat)
    requires i < n && KeysDistinct(key, n)
    ensures Carries(Inserted(key, value, n), key(i), value(i))
  {
    PutAt(Inserted(key, value, n - 1), Entry(key(n - 1), value(n - 1)), key(i));
    if i < n - 1 {
      InsertedAt(key, value, n - 1, i);
    } else {
      InsertedOutside(key, value, n - 1, key(i));
    }
  }

  /** Every key present was put there by one of the insertions. */
  lemma {:induction false} InsertedKeys(key: nat -> string, value: nat -> Option<Json>, n: nat, k: string)
    requires k in Inserted(key, value, n)
    ensures exists i :: 0 <= i < n && key(i) == k
  {
    if n > 0 {
      PutAt(Inserted(key, value, n - 1), Entry(key(n - 1), value(n - 1)), k);
      if k != key(n - 1) {
        InsertedKeys(key, value, n - 1, k);
      }
    }
  }

  /** Insertions that let the same values through build the same dictionary. */
  lemma {:induction false} InsertedExtensional(key: nat -> string, f: nat -> Option<Json>, g: nat -> Option<Json>, n: nat)
    requires forall i :: 0 <= i < n ==> f(i) == g(i)
    ensures Inserted(key, f, n) == Inserted(key, g, n)
  {
    if n > 0 {
      InsertedExtensional(key, f, g, n - 1);
    }
  }

  /** With distinct keys, two runs build the same dictionary exactly when every insertion let the same value through. */
  lemma InsertedDetermines(key: nat -> string, f: nat -> Option<Json>, g: nat -> Option<Json>, n: nat)
    requires KeysDistinct(key, n)
    ensures Inserted(key, f, n) == Inserted(key, g, n) <==> forall i :: 0 <= i < n ==> f(i) == g(i)
  {
    if Inserted(key, f, n) == Inserted(key, g, n) {
      forall i | 0 <= i < n
        ensures f(i) == g(i)
      {
        InsertedAt(key, f, n, i);
        InsertedAt(key, g, n, i);
      }
    }
    if forall i :: 0 <= i < n ==> f(i) == g(i) {
      InsertedExtensional(key, f, g, n);
    }
  }
}
