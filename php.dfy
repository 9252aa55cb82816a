/** The few pieces of PHP semantics the gateway code leans on. */
module Php {

  /** A value that PHP may hold as NULL. */
  datatype Option<+T> = None | Some(value: T)

  /**
   * PHP's array union `$left + $right`: every key of either operand, and
   * where both operands hold a key the left-hand value is kept.
   */
  function Union<K, V>(left: map<K, V>, right: map<K, V>): (r: map<K, V>)
    ensures r.Keys == left.Keys + right.Keys
    ensures forall k :: k in left ==> r[k] == left[k]
    ensures forall k :: k in right && k !in left ==> r[k] == right[k]
  {
    right + left
  }

  /** PHP truthiness of a string: only '' and '0' are falsy. */
  predicate TruthyString(s: string)
  {
    s != "" && s != "0"
  }

  /** PHP `empty($m[$key])` on an array of strings: a missing key, '' or '0'. */
  predicate EmptyEntry(m: map<string, string>, key: string)
  {
    key !in m || !TruthyString(m[key])
  }

  /** PHP truthiness of an integer that may be NULL. */
  predicate TruthyInt(v: Option<int>)
  {
    v.Some? && v.value != 0
  }
}
