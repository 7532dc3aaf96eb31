// The scripting dictionary through which render passes are configured: an
// ordered collection of (key, value) entries with distinct keys, in the order
// the script wrote them.  Keys are classified by name when they are read, so
// each pass gives its own key type; values carry the kind the script gave
// them.

module Dictionaries {

  datatype Option<T> = None | Some(value: T)

  const UInt32Limit: nat := 0x1_0000_0000

  /**
   * A scripting value: a non-negative integer, a flag, an enumerator (by the
   * name of its enumeration type and its own name), a 2-D size, or anything
   * this model does not track (floats, strings, option objects).
   */
  datatype Value =
    | UInt(n: nat)
    | Bool(b: bool)
    | Enum(enumType: string, tag: string)
    | Size(x: nat, y: nat)
    | Other

  /**
   * The value converts to `bool` when it is read into a flag: a flag as it
   * is, an integer by its truth value.
   */
  predicate ConvertsToBool(v: Value)
  {
    v.Bool? || v.UInt?
  }

  /**
   * The value converts to `uint32_t`: an integer that fits 32 bits, or a
   * flag (a Python `bool` is an integer).
   */
  predicate ConvertsToUInt32(v: Value)
  {
    (v.UInt? && v.n < UInt32Limit) || v.Bool?
  }

  /** The flag a convertible value reads as: an integer is true unless it is zero. */
  function AsBool(v: Value): (b: bool)
    requires ConvertsToBool(v)
    ensures b <==> v != Bool(false) && v != UInt(0)
  {
    if v.UInt? then v.n != 0 else v.b
  }

  /** The `uint32_t` a convertible value reads as: a flag reads as 0 or 1. */
  function AsUInt32(v: Value): (n: nat)
    requires ConvertsToUInt32(v)
    ensures n < UInt32Limit
    ensures v.UInt? ==> n == v.n
    ensures v.Bool? ==> (n == 1 <==> v.b) && n <= 1
  {
    if v.Bool? then (if v.b then 1 else 0) else v.n
  }

  type Dictionary<K> = seq<(K, Value)>

  /** A well-formed dictionary holds each key at most once. */
  ghost predicate DistinctKeys<K>(d: Dictionary<K>)
  {
    forall i, j :: 0 <= i < j < |d| ==> d[i].0 != d[j].0
  }

  /** `d[key]`: the value most recently stored under `key`. */
  function Lookup<K(==)>(d: Dictionary<K>, key: K): (r: Option<Value>)
    ensures r.Some? <==> exists i :: 0 <= i < |d| && d[i].0 == key
    ensures r.Some? ==> exists i :: 0 <= i < |d| && d[i] == (key, r.value)
    decreases |d|
  {
    if d == [] then None
    else
      var n := |d| - 1;
      var r := if d[n].0 == key then Some(d[n].1) else Lookup(d[..n], key);
      assert forall i :: 0 <= i < n ==> d[..n][i] == d[i];
      r
  }

  /** `keyExists(key)`. */
  predicate KeyExists<K(==)>(d: Dictionary<K>, key: K)
  {
    Lookup(d, key).Some?
  }

  /** Storing under a key not yet present makes it the one entry with that key. */
  lemma LookupAppend<K>(d: Dictionary<K>, key: K, v: Value, other: K)
    ensures Lookup(d + [(key, v)], other) == if other == key then Some(v) else Lookup(d, other)
  {
    assert (d + [(key, v)])[..|d|] == d;
  }

  /** In a well-formed dictionary the value found is the one entry's value. */
  lemma LookupDistinct<K>(d: Dictionary<K>, i: nat)
    requires DistinctKeys(d) && i < |d|
    ensures Lookup(d, d[i].0) == Some(d[i].1)
  {
    var v := Lookup(d, d[i].0).value;
    var j :| 0 <= j < |d| && d[j] == (d[i].0, v);
    assert j == i;
  }
}
