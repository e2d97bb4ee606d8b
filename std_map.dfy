/**
  The three std::map operations the engine uses, on Dafny maps (keys are unique in both).
 */
module StdMap {

  /** std::map::insert: adds (k, v) when k is absent; an entry already present is
      never overwritten. */
  function Insert<K, V>(m: map<K, V>, k: K, v: V): (r: map<K, V>)
    ensures r.Keys == m.Keys + {k}
    ensures forall j :: j in m ==> r[j] == m[j]
    ensures k !in m ==> r[k] == v
  {
    if k in m then m else m[k := v]
  }

  /** std::map::count: 1 when k is a key, 0 otherwise. */
  function Count<K, V>(m: map<K, V>, k: K): (n: nat)
    ensures n <= 1
    ensures n > 0 <==> k in m
  {
    if k in m then 1 else 0
  }

  /** std::map::operator[]: the map afterwards and the value read. A missing key is
      first inserted with the value-initialised `zero`. */
  function Subscript<K, V>(m: map<K, V>, k: K, zero: V): (r: (map<K, V>, V))
    ensures r.0.Keys == m.Keys + {k}
    ensures forall j :: j in m ==> r.0[j] == m[j]
    ensures r.1 == r.0[k]
    ensures k in m ==> r.1 == m[k]
    ensures k !in m ==> r.1 == zero
  {
    var m' := Insert(m, k, zero);
    (m', m'[k])
  }
}
