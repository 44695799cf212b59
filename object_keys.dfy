/**
 * Enumerating the own keys of a JavaScript object, as `Object.keys` and
 * `for ... in` do. The engine's ordering rules (integer-like keys ascending,
 * then insertion order) are not modelled: every key comes exactly once, in an
 * order left open.
 */
module ObjectKeys {
  /** `Object.keys(m)`: every key of `m` once, and nothing else. */
  method EnumerateKeys<K(==), V>(m: map<K, V>) returns (keys: seq<K>)
    ensures forall i, j :: 0 <= i < j < |keys| ==> keys[i] != keys[j]
    ensures forall k :: k in keys <==> k in m
  {
    keys := [];
    var rest := m.Keys;
    while rest != {}
      invariant rest <= m.Keys
      invariant forall k :: k in keys <==> k in m && k !in rest
      invariant forall i, j :: 0 <= i < j < |keys| ==> keys[i] != keys[j]
      decreases rest
    {
      var k :| k in rest;
      keys := keys + [k];
      rest := rest - {k};
    }
  }}
