/** PHP associative-array operations the renderer relies on. */
module PhpArray {

  /** `$a += $b`: the union of two arrays in which the LEFT operand wins on
      every shared key. Keys only in `b` are added with `b`'s value. */
  function PlusAssign<K, V>(a: map<K, V>, b: map<K, V>): (r: map<K, V>)
    ensures r.Keys == a.Keys + b.Keys
    ensures forall k :: k in a ==> r[k] == a[k]
    ensures forall k :: k in b && k !in a ==> r[k] == b[k]
  {
    b + a
  }

  /** Adding keys that are all present already changes nothing. */
  lemma PlusAssignCovered<K, V>(a: map<K, V>, b: map<K, V>)
    requires b.Keys <= a.Keys
    ensures PlusAssign(a, b) == a
  {
  }
}
