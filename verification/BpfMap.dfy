/** Bounded hash maps as the kernel helpers see them. */
module BpfMap {
  /** bpf_map_update_elem with flags 0: overwrite a present key, insert an absent one while
      there is room, otherwise leave the map alone (the error return is ignored by callers). */
  function Update<K, V>(m: map<K, V>, maxEntries: nat, k: K, v: V): (r: map<K, V>)
    ensures |r| == |m| + if k !in m && |m| < maxEntries then 1 else 0
    ensures k !in r <==> k !in m && |m| >= maxEntries
  {
    if k in m || |m| < maxEntries then
      var r := m[k := v];
      assert r.Keys == m.Keys + {k};
      assert k in m ==> r.Keys == m.Keys;
      r
    else m
  }

  /** bpf_map_delete_elem; deleting an absent key is a no-op. */
  function Delete<K, V>(m: map<K, V>, k: K): (r: map<K, V>)
    ensures |r| == if k in m then |m| - 1 else |m|
    ensures r.Keys == m.Keys - {k}
  {
    var r := m - {k};
    assert r.Keys == m.Keys - {k};
    r
  }

  /** An accepted update is found afterwards, a refused one changes nothing, and other entries are
      kept either way; deleting the key then leaves what was there besides it. */
  lemma UpdateThenDelete<K(!new), V>(m: map<K, V>, maxEntries: nat, k: K, v: V)
    ensures var r := Update(m, maxEntries, k, v);
            && (k in r <==> k in m || |m| < maxEntries)
            && (k in r ==> r[k] == v)
            && (k !in r ==> r == m)
            && (forall j :: j != k ==> (j in r <==> j in m) && (j in m ==> r[j] == m[j]))
            && Delete(r, k) == Delete(m, k)
    ensures forall j :: j in Delete(m, k) <==> j in m && j != k
    ensures forall j :: j in Delete(m, k) ==> Delete(m, k)[j] == m[j]
  {
  }
}
