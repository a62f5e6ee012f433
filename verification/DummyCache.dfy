/** cache/dummyPrinterCache.go beside cache/fakePasstroughCache.go, the cache that caches
    nothing. An initializer enters as the value it would return if called; every Get says
    whether it called it. */
module DummyCache {
  import opened Basics
  import opened Objects

  type Store = map<string, Object>

  datatype Got = Got(result: Fetched, called: bool)

  function NotFound(key: string): Fetched {
    Err("Object with key " + key + " not found")
  }

  /** FakePasstroughCache.Get: no lookup ever finds anything. */
  function PassThroughGet(key: string, initializer: Option<Fetched>): Got {
    match initializer
    case None => Got(NotFound(key), false)
    case Some(fetched) => Got(fetched, true)
  }

  /** DummyPrinterCache.Get. */
  function DummyGet(store: Store, key: string, initializer: Option<Fetched>): (Store, Got) {
    if key in store then (store, Got(Ok(store[key]), false))
    else
      match initializer
      case None => (store, Got(NotFound(key), false))
      case Some(Err(e)) => (store, Got(Err(e), true))
      case Some(Ok(o)) => (store[o.key := o], Got(Ok(o), true))
  }

  class DummyPrinterCache {
    var store: Store

    constructor ()
      ensures store == map[]
    {
      store := map[];
    }

    method Lookup(key: string) returns (found: Option<Object>)
      ensures found == if key in store then Some(store[key]) else None
    {
      if key in store { return Some(store[key]); }
      return None;
    }

    method Put(o: Object)
      modifies this
      ensures store == old(store)[o.key := o]
    {
      store := store[o.key := o];
    }

    method Initialize(key: string, initializer: Option<Fetched>) returns (got: Got)
      modifies this
      ensures (store, got) == DummyGet(old(store), key, initializer)
    {
      var found := Lookup(key);
      if found.Some? { return Got(Ok(found.value), false); }
      if initializer.Some? {
        var fetched := initializer.value;
        if fetched.Err? { return Got(Err(fetched.error), true); }
        Put(fetched.value);
        return Got(Ok(fetched.value), true);
      }
      return Got(NotFound(key), false);
    }

    method Get(key: string, initializer: Option<Fetched>) returns (got: Got)
      modifies this
      ensures (store, got) == DummyGet(old(store), key, initializer)
    {
      var found := Lookup(key);
      if found.None? {
        got := Initialize(key, initializer);
      } else {
        got := Got(Ok(found.value), false);
      }
    }
  }

  // ----- sequences of Gets against an origin that answers as a function of the key -----

  datatype Trace = Trace(store: Store, results: seq<Fetched>, calls: seq<string>)

  function RunDummy(store: Store, keys: seq<string>, origin: string -> Fetched): (t: Trace)
    ensures |t.results| == |keys|
    decreases |keys|
  {
    if keys == [] then Trace(store, [], [])
    else
      var (store', got) := DummyGet(store, keys[0], Some(origin(keys[0])));
      var rest := RunDummy(store', keys[1..], origin);
      Trace(rest.store, [got.result] + rest.results, (if got.called then [keys[0]] else []) + rest.calls)
  }

  function RunPassThrough(keys: seq<string>, origin: string -> Fetched): (r: seq<Fetched>)
    ensures |r| == |keys|
  {
    if keys == [] then [] else [PassThroughGet(keys[0], Some(origin(keys[0]))).result] + RunPassThrough(keys[1..], origin)
  }

  /** An object is found again under its own key: whoever asks for that key is sent the same. */
  ghost predicate Consistent(origin: string -> Fetched) {
    forall k :: origin(k).Ok? ==> origin(origin(k).value.key) == origin(k)
  }

  ghost predicate Agrees(store: Store, origin: string -> Fetched) {
    forall k :: k in store ==> origin(k) == Ok(store[k])
  }

  ghost predicate Same(store: Store, keys: seq<string>, origin: string -> Fetched) {
    RunDummy(store, keys, origin).results == RunPassThrough(keys, origin)
  }

  lemma {:induction false} SameResults(store: Store, keys: seq<string>, origin: string -> Fetched)
    requires Consistent(origin) && Agrees(store, origin)
    ensures Same(store, keys, origin)
    ensures Agrees(RunDummy(store, keys, origin).store, origin)
    decreases |keys|
  {
    if keys != [] {
      SameResults(DummyGet(store, keys[0], Some(origin(keys[0]))).0, keys[1..], origin);
    }
  }

  /** The cache is indistinguishable from no cache, for every sequence of Gets, exactly when
      every object the origin returns is also what the origin returns for that object's key. */
  lemma CacheIsTransparent(origin: string -> Fetched)
    ensures (forall keys :: Same(map[], keys, origin)) <==> Consistent(origin)
  {
    if Consistent(origin) {
      forall keys
        ensures Same(map[], keys, origin)
      {
        SameResults(map[], keys, origin);
      }
    }
    if forall keys :: Same(map[], keys, origin) {
      forall k | origin(k).Ok?
        ensures origin(origin(k).value.key) == origin(k)
      {
        assert Same(map[], [k, origin(k).value.key], origin);
        TwoGets(k, origin);
      }
    }
  }

  lemma TwoGets(k: string, origin: string -> Fetched)
    requires origin(k).Ok?
    ensures var j := origin(k).value.key;
            Same(map[], [k, j], origin) ==> origin(j) == origin(k)
  {
    var o := origin(k).value;
    var keys := [k, o.key];
    assert keys[1..] == [o.key] && keys[1..][1..] == [];
    assert RunDummy(map[], keys, origin).results[1] == Ok(o);
    assert RunPassThrough(keys, origin)[1] == origin(o.key);
  }

  /** When objects carry the requested key, the origin is asked once for each distinct key that it
      knows and is not stored, however often that key is requested, and at every request for a key
      that it does not know. */
  lemma {:induction false} FetchedOnce(store: Store, keys: seq<string>, origin: string -> Fetched, k: string)
    requires forall j :: origin(j).Ok? ==> origin(j).value.key == j
    ensures Times(RunDummy(store, keys, origin).calls, k)
            == if k in store then 0
               else if origin(k).Ok? then if k in keys then 1 else 0
               else Times(keys, k)
    decreases |keys|
  {
    if keys != [] {
      var (store', got) := DummyGet(store, keys[0], Some(origin(keys[0])));
      FetchedOnce(store', keys[1..], origin, k);
      var t, rest := RunDummy(store, keys, origin), RunDummy(store', keys[1..], origin);
      assert if got.called then t.calls[0] == keys[0] && t.calls[1..] == rest.calls else t.calls == rest.calls;
      assert k in keys <==> k == keys[0] || k in keys[1..];
    }
  }

  /** The pass-through calls every initializer and returns what it returns. Without one both caches only
      look: the pass-through never finds anything, and the dummy cache exactly what it has stored. */
  lemma NilInitializer(store: Store, key: string, fetched: Fetched)
    ensures PassThroughGet(key, Some(fetched)) == Got(fetched, true)
    ensures PassThroughGet(key, None) == Got(Err("Object with key " + key + " not found"), false)
    ensures DummyGet(store, key, None)
            == (store, if key in store then Got(Ok(store[key]), false) else PassThroughGet(key, None))
  {
  }
}
