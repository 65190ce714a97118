/** Dictionary helpers used by the peer directory of the client.

    `Appending` is the non-mutating keyed update defined as an extension of
    Swift's `Dictionary`: it copies the receiver, assigns one key on the copy
    and returns the copy. Dafny maps are values, so the receiver can never be
    changed by it. `RemoveKey` is the matching removal the client calls when a
    peer is lost; its definition is not part of this model and is assumed to
    be "the same dictionary without that key".
 */
module Utils {

  /** `d.appending(key, value)`: a copy of `d` in which `key` maps to `value`. */
  function Appending<K, V>(d: map<K, V>, key: K, value: V): (r: map<K, V>)
    ensures key in r && r[key] == value
    ensures r.Keys == d.Keys + {key}
    ensures forall k :: k in d && k != key ==> r[k] == d[k]
  {
    d[key := value]
  }

  /** `d.removeKey(key)`: a copy of `d` without `key` (assumed semantics). */
  function RemoveKey<K, V>(d: map<K, V>, key: K): (r: map<K, V>)
    ensures key !in r
    ensures r.Keys == d.Keys - {key}
    ensures forall k :: k in r ==> r[k] == d[k]
  {
    d - {key}
  }

  /** Appending the same pair twice is the same as appending it once. */
  lemma AppendingIdempotent<K, V>(d: map<K, V>, key: K, value: V)
    ensures Appending(Appending(d, key, value), key, value) == Appending(d, key, value)
  {
  }

  /** A later write to the same key wins over an earlier one. */
  lemma AppendingLastWriteWins<K, V>(d: map<K, V>, key: K, v1: V, v2: V)
    ensures Appending(Appending(d, key, v1), key, v2) == Appending(d, key, v2)
  {
  }

  /** Writes to two different keys commute. */
  lemma AppendingCommutes<K, V>(d: map<K, V>, k1: K, v1: V, k2: K, v2: V)
    requires k1 != k2
    ensures Appending(Appending(d, k1, v1), k2, v2) == Appending(Appending(d, k2, v2), k1, v1)
  {
  }

  /** The dictionary grows by one entry exactly when the key was absent. */
  lemma AppendingSize<K, V>(d: map<K, V>, key: K, value: V)
    ensures key !in d ==> |Appending(d, key, value)| == |d| + 1
    ensures key in d ==> |Appending(d, key, value)| == |d|
  {
    var r := Appending(d, key, value);
    if key in d {
      assert r.Keys == d.Keys;
    } else {
      assert r.Keys == d.Keys + {key};
    }
  }

  /** Removing the key again undoes an `Appending` of a key that was absent. */
  lemma RemoveKeyUndoesAppending<K, V>(d: map<K, V>, key: K, value: V)
    requires key !in d
    ensures RemoveKey(Appending(d, key, value), key) == d
  {
  }

  /** An `Appending` after a removal of the same key overrides the removal. */
  lemma AppendingOverridesRemoveKey<K, V>(d: map<K, V>, key: K, value: V)
    ensures Appending(RemoveKey(d, key), key, value) == Appending(d, key, value)
  {
  }

  /** Removing a key is idempotent, and removing an absent key changes nothing. */
  lemma RemoveKeyIdempotent<K, V>(d: map<K, V>, key: K)
    ensures RemoveKey(RemoveKey(d, key), key) == RemoveKey(d, key)
    ensures key !in d ==> RemoveKey(d, key) == d
  {
  }
}
