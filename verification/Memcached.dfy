/** cache/memcachedClient.go: a write-through cache that stores an object under any key but only
    looks up keys of at least three segments. */
module Memcached {
  import opened Text
  import opened Basics
  import opened Objects

  const INVALID_KEY := "key is invalid"
  const OBJECT_NIL := "object is nil"
  const DATA_NIL := "data is nil"
  const INITIALIZER_NIL := "initializer is nil"
  const INITIALIZER := "initializer error"
  const CACHE_MISS := "cache miss"
  const REFUSED := "server refused"

  /** The server's contents, each object as it will be decoded. */
  type Store = map<string, Object>

  /** What an initializer returns; the object pointer may be nil. */
  type Initialized = Result<Option<Object>>

  /** Whether the server answers the first lookup, the second lookup and the write of one Get. */
  datatype Link = Link(first: bool, second: bool, write: bool)

  const UP := Link(true, true, true)

  datatype Got = Got(result: Result<Object>, called: bool)

  predicate LongKey(key: string) {
    key != "" && |Split(key, '/')| >= 3
  }

  // ----- one operation, on values -----

  function Lookup(store: Store, key: string, up: bool): Result<Object> {
    if !LongKey(key) then Err(INVALID_KEY)
    else if !up then Err(REFUSED)
    else if key in store then Ok(store[key])
    else Err(CACHE_MISS)
  }

  /** The checks of set, and the object when they pass. */
  function Checked(obj: Option<Object>, up: bool): Result<Object> {
    match obj
    case None => Err(OBJECT_NIL)
    case Some(o) =>
      if o.key == "" then Err(INVALID_KEY)
      else if o.data.None? then Err(DATA_NIL)
      else if !up then Err(REFUSED)
      else Ok(o)
  }

  function Stored(store: Store, checked: Result<Object>): Store {
    if checked.Ok? then store[checked.value.key := ThroughGob(checked.value)] else store
  }

  /** Get without any lookup: the initializer, then the checks of set. */
  function Uncached(init: Initialized, up: bool): Result<Object> {
    match init
    case Err(e) => Err(INITIALIZER + ": " + e)
    case Ok(obj) => Checked(obj, up)
  }

  function InitializeEffect(store: Store, key: string, initializer: Option<Initialized>, link: Link): (Store, Got) {
    match initializer
    case None => (store, Got(Err(INITIALIZER_NIL), false))
    case Some(init) =>
      var hit := Lookup(store, key, link.second);
      if hit.Ok? then (store, Got(hit, false))
      else
        var result := Uncached(init, link.write);
        (Stored(store, result), Got(result, true))
  }

  function GetEffect(store: Store, key: string, initializer: Option<Initialized>, link: Link): (Store, Got) {
    var hit := Lookup(store, key, link.first);
    if hit.Ok? then (store, Got(hit, false)) else InitializeEffect(store, key, initializer, link)
  }

  function DeleteEffect(store: Store, key: string, up: bool): (Store, Option<string>) {
    if !LongKey(key) then (store, Some(INVALID_KEY))
    else if !up then (store, Some(REFUSED))
    else if key !in store then (store, Some(CACHE_MISS))
    else (store - {key}, None)
  }

  class MemcachedClient {
    var store: Store

    constructor ()
      ensures store == map[]
    {
      store := map[];
    }

    method Fetch(key: string, up: bool) returns (r: Result<Object>)
      ensures r == Lookup(store, key, up)
    {
      if key == "" || |Split(key, '/')| < 3 { return Err(INVALID_KEY); }
      if !up { return Err(REFUSED); }
      if key !in store { return Err(CACHE_MISS); }
      return Ok(store[key]);
    }

    /** Put is this method too. */
    method Set(obj: Option<Object>, up: bool) returns (r: Result<Object>)
      modifies this
      ensures r == Checked(obj, up) && store == Stored(old(store), r)
      ensures store == Effect(old(store), PutCall(obj, up))
      ensures r.Ok? <==> obj.Some? && obj.value.key != "" && obj.value.data.Some? && up
      ensures r.Ok? ==> r.value == obj.value && store == old(store)[obj.value.key := ThroughGob(obj.value)]
      ensures r.Err? ==> store == old(store)
      ensures obj.None? ==> r == Err(OBJECT_NIL)
      ensures obj.Some? && obj.value.key == "" ==> r == Err(INVALID_KEY)
      ensures obj.Some? && obj.value.key != "" && obj.value.data.None? ==> r == Err(DATA_NIL)
    {
      if obj.None? { return Err(OBJECT_NIL); }
      var o := obj.value;
      if o.key == "" { return Err(INVALID_KEY); }
      if o.data.None? { return Err(DATA_NIL); }
      if !up { return Err(REFUSED); }
      store := store[o.key := ThroughGob(o)];
      return Ok(o);
    }

    method Initialize(key: string, initializer: Option<Initialized>, link: Link) returns (got: Got)
      modifies this
      ensures (store, got) == InitializeEffect(old(store), key, initializer, link)
    {
      if initializer.None? { return Got(Err(INITIALIZER_NIL), false); }
      var hit := Fetch(key, link.second);
      if hit.Ok? { return Got(hit, false); }
      var init := initializer.value;
      if init.Err? { return Got(Err(INITIALIZER + ": " + init.error), true); }
      var r := Set(init.value, link.write);
      return Got(r, true);
    }

    method Get(key: string, initializer: Option<Initialized>, link: Link) returns (got: Got)
      modifies this
      ensures (store, got) == GetEffect(old(store), key, initializer, link)
      ensures store == Effect(old(store), GetCall(key, initializer, link))
    {
      var hit := Fetch(key, link.first);
      if hit.Err? {
        got := Initialize(key, initializer, link);
      } else {
        got := Got(hit, false);
      }
    }

    method Delete(key: string, up: bool) returns (error: Option<string>)
      modifies this
      ensures (store, error) == DeleteEffect(old(store), key, up)
      ensures store == Effect(old(store), DeleteCall(key, up))
      ensures error.None? ==> store == old(store) - {key}
    {
      if key == "" || |Split(key, '/')| < 3 { return Some(INVALID_KEY); }
      if !up { return Some(REFUSED); }
      if key !in store { return Some(CACHE_MISS); }
      store := store - {key};
      return None;
    }

    method Flush()
      modifies this
      ensures store == map[] == Effect(old(store), FlushCall)
    {
      store := map[];
    }
  }

  // ----- every run -----

  datatype Call =
    | GetCall(key: string, initializer: Option<Initialized>, link: Link)
    | PutCall(obj: Option<Object>, up: bool)
    | DeleteCall(gone: string, up: bool)
    | FlushCall

  function Effect(store: Store, call: Call): Store {
    match call
    case GetCall(key, initializer, link) => GetEffect(store, key, initializer, link).0
    case PutCall(obj, up) => Stored(store, Checked(obj, up))
    case DeleteCall(gone, up) => DeleteEffect(store, gone, up).0
    case FlushCall => map[]
  }

  function Run(store: Store, calls: seq<Call>): Store
    decreases |calls|
  {
    if calls == [] then store else Run(Effect(store, calls[0]), calls[1..])
  }

  /** Every stored object carries its key and comes back as it was stored. */
  ghost predicate Sound(store: Store) {
    forall k :: k in store ==> k != "" && store[k].key == k && ThroughGob(store[k]) == store[k]
  }

  lemma {:induction false} RunSound(store: Store, calls: seq<Call>)
    requires Sound(store)
    ensures Sound(Run(store, calls))
    decreases |calls|
  {
    if calls != [] { RunSound(Effect(store, calls[0]), calls[1..]); }
  }

  predicate Removes(call: Call) {
    call.DeleteCall? || call.FlushCall?
  }

  /** The call stores an object under this key. */
  predicate Writes(store: Store, call: Call, key: string) {
    match call
    case GetCall(k, initializer, link) =>
      var got := GetEffect(store, k, initializer, link).1;
      got.called && got.result.Ok? && got.result.value.key == key
    case PutCall(obj, up) => Checked(obj, up).Ok? && obj.value.key == key
    case _ => false
  }

  predicate NoWrites(store: Store, calls: seq<Call>, key: string)
    decreases |calls|
  {
    calls == [] || (!Writes(store, calls[0], key) && NoWrites(Effect(store, calls[0]), calls[1..], key))
  }

  /** Write-through: in every run without removals, the object a successful Get returned under its
      own long key is what every later lookup of that key finds, up to gob and until the key is
      written again; Gets of that key then never call their initializer. */
  lemma {:induction false} StaysReadable(store: Store, key: string, init: Initialized, link: Link, later: seq<Call>)
    requires Sound(store) && LongKey(key)
    requires GetEffect(store, key, Some(init), link).1.result.Ok?
    requires GetEffect(store, key, Some(init), link).1.result.value.key == key
    requires forall c :: c in later ==> !Removes(c)
    requires NoWrites(GetEffect(store, key, Some(init), link).0, later, key)
    ensures var (store1, got) := GetEffect(store, key, Some(init), link);
            var store2 := Run(store1, later);
            && Lookup(store2, key, true) == Ok(ThroughGob(got.result.value))
            && forall next :: GetEffect(store2, key, next, UP) == (store2, Got(Ok(ThroughGob(got.result.value)), false))
  {
    var (store1, got) := GetEffect(store, key, Some(init), link);
    assert store1[key] == ThroughGob(got.result.value);
    Kept(store1, later, key);
  }

  lemma {:induction false} Kept(store: Store, calls: seq<Call>, key: string)
    requires key in store
    requires forall c :: c in calls ==> !Removes(c)
    requires NoWrites(store, calls, key)
    ensures key in Run(store, calls) && Run(store, calls)[key] == store[key]
    decreases |calls|
  {
    if calls != [] {
      assert calls[0] in calls;
      forall c | c in calls[1..]
        ensures !Removes(c)
      {
        assert c in calls;
      }
      Kept(Effect(store, calls[0]), calls[1..], key);
    }
  }

  /** A key can be looked up exactly when it contains two slashes. */
  lemma LongKeyMeans(key: string)
    ensures LongKey(key) <==> Count(key, '/') >= 2
  {
  }

  /** A lookup of this Get finds the object. */
  predicate Hits(store: Store, key: string, link: Link) {
    Count(key, '/') >= 2 && key in store && (link.first || link.second)
  }

  predicate Storable(obj: Option<Object>) {
    obj.Some? && obj.value.key != "" && obj.value.data.Some?
  }

  /** Everything a Get can do. With an initializer it finds a stored object in one of its two lookups,
      or calls the initializer and returns its object exactly when that is storable and the server
      accepts the write; only then does the store change, by that object. Without an initializer only
      the first lookup counts. */
  lemma GetOutcomes(store: Store, key: string, init: Initialized, link: Link)
    ensures var (store', got) := GetEffect(store, key, Some(init), link);
            && (got.called <==> !Hits(store, key, link))
            && (!got.called ==> got.result == Ok(store[key]) && store' == store)
            && (got.called && init.Ok? && Storable(init.value) && link.write ==>
                  && got.result == Ok(init.value.value)
                  && store' == store[init.value.value.key := ThroughGob(init.value.value)])
            && (got.called && !(init.Ok? && Storable(init.value) && link.write) ==>
                  got.result.Err? && store' == store)
            && (got.called && init.Err? ==> got.result == Err("initializer error: " + init.error))
    ensures GetEffect(store, key, None, link)
            == (store, Got(if Count(key, '/') >= 2 && key in store && link.first then Ok(store[key])
                           else Err(INITIALIZER_NIL), false))
  {
    LongKeyMeans(key);
  }

  /** When the object a Get fetched carries another key, the requested key stays unreadable: with a
      long key that was absent, a lookup succeeds afterwards exactly when the keys match. */
  lemma ReadableAfter(store: Store, key: string, init: Initialized, link: Link)
    requires LongKey(key) && key !in store
    ensures var (store1, got) := GetEffect(store, key, Some(init), link);
            Lookup(store1, key, true).Ok? <==> got.result.Ok? && got.result.value.key == key
  {
    assert GetEffect(store, key, Some(init), link).1.result == Uncached(init, link.write);
  }

  /** A key can be deleted exactly when it can be looked up, with the same errors otherwise; what was
      deleted is then a miss, and other keys are unaffected. */
  lemma DeleteMatchesLookup(store: Store, key: string, other: string, up: bool)
    ensures var (store', error) := DeleteEffect(store, key, up);
            && (error.None? <==> Lookup(store, key, up).Ok?)
            && (error.Some? ==> Lookup(store, key, up) == Err(error.value) && store' == store)
            && (error.None? ==> Lookup(store', key, up) == Err(CACHE_MISS))
            && (other != key ==> Lookup(store', other, up) == Lookup(store, other, up))
  {
  }

  /** Key asymmetry: in every state, a Get of a short key is the uncached Get followed by a checked
      write, the object it stores is never found by a lookup, and only a flush or another write of
      that key changes it. */
  lemma ShortKeyPassesThrough(store: Store, key: string, init: Initialized, link: Link, call: Call)
    requires !LongKey(key)
    ensures GetEffect(store, key, Some(init), link)
            == (Stored(store, Uncached(init, link.write)), Got(Uncached(init, link.write), true))
    ensures Lookup(store, key, link.first) == Err(INVALID_KEY)
    ensures key in store && !call.FlushCall? && !Writes(store, call, key) ==>
              key in Effect(store, call) && Effect(store, call)[key] == store[key]
  {
    assert !Lookup(store, key, link.first).Ok? && !Lookup(store, key, link.second).Ok?;
  }

  // ----- Gets against an origin that answers as a function of the key -----

  datatype Trace = Trace(results: seq<Result<Object>>, fetched: seq<string>)

  function RunGets(store: Store, keys: seq<string>, origin: string -> Initialized): (t: Trace)
    ensures |t.results| == |keys|
    decreases |keys|
  {
    if keys == [] then Trace([], [])
    else
      var (store', got) := GetEffect(store, keys[0], Some(origin(keys[0])), UP);
      var rest := RunGets(store', keys[1..], origin);
      Trace([got.result] + rest.results, (if got.called then [keys[0]] else []) + rest.fetched)
  }

  function RunUncached(keys: seq<string>, origin: string -> Initialized): (r: seq<Result<Object>>)
    ensures |r| == |keys|
  {
    if keys == [] then [] else [Uncached(origin(keys[0]), true)] + RunUncached(keys[1..], origin)
  }

  /** The origin labels every object that it returns with the requested key. */
  ghost predicate Labels(origin: string -> Initialized) {
    forall k :: Uncached(origin(k), true).Ok? ==> Uncached(origin(k), true).value.key == k
  }

  ghost predicate Agrees(store: Store, origin: string -> Initialized) {
    forall k :: k in store && LongKey(k) ==> Uncached(origin(k), true) == Ok(store[k])
  }

  /** No object that can be looked up loses its body on the way through gob. */
  ghost predicate NoEmptyBodies(origin: string -> Initialized) {
    forall k :: LongKey(k) && Uncached(origin(k), true).Ok? ==>
      var o := Uncached(origin(k), true).value;
      ThroughGob(o) == o
  }

  ghost predicate Same(keys: seq<string>, origin: string -> Initialized) {
    RunGets(map[], keys, origin).results == RunUncached(keys, origin)
  }

  /** Against such an origin the cache answers like no cache, for every sequence of Gets, exactly
      when no object under a long key has an empty body. */
  lemma CacheIsTransparent(origin: string -> Initialized)
    requires Labels(origin)
    ensures (forall keys :: Same(keys, origin)) <==> NoEmptyBodies(origin)
  {
    if NoEmptyBodies(origin) {
      forall keys
        ensures Same(keys, origin)
      {
        SameResults(map[], keys, origin);
      }
    }
    if forall keys :: Same(keys, origin) {
      forall k | LongKey(k) && Uncached(origin(k), true).Ok?
        ensures ThroughGob(Uncached(origin(k), true).value) == Uncached(origin(k), true).value
      {
        assert Same([k, k], origin);
        Twice(k, origin);
      }
    }
  }

  lemma {:induction false} SameResults(store: Store, keys: seq<string>, origin: string -> Initialized)
    requires Labels(origin) && NoEmptyBodies(origin) && Agrees(store, origin)
    ensures RunGets(store, keys, origin).results == RunUncached(keys, origin)
    decreases |keys|
  {
    if keys != [] {
      SameResults(GetEffect(store, keys[0], Some(origin(keys[0])), UP).0, keys[1..], origin);
    }
  }

  /** The second of two Gets is answered from the store. */
  lemma Twice(k: string, origin: string -> Initialized)
    requires Labels(origin) && LongKey(k) && Uncached(origin(k), true).Ok?
    ensures RunGets(map[], [k, k], origin).results[1] == Ok(ThroughGob(Uncached(origin(k), true).value))
    ensures RunUncached([k, k], origin)[1] == Uncached(origin(k), true)
  {
    assert [k, k][1..] == [k];
    var store' := GetEffect(map[], k, Some(origin(k)), UP).0;
    assert RunGets(store', [k], origin).results[0] == Ok(store'[k]);
  }

  /** How often the origin is asked for a key: never for a long key that is stored, once for another
      long key that it knows, and at every request for a short key or one that it does not know. */
  lemma {:induction false} FetchCount(store: Store, keys: seq<string>, origin: string -> Initialized, k: string)
    requires Labels(origin)
    ensures Times(RunGets(store, keys, origin).fetched, k)
            == if LongKey(k) && k in store then 0
               else if LongKey(k) && Uncached(origin(k), true).Ok? then if k in keys then 1 else 0
               else Times(keys, k)
    decreases |keys|
  {
    if keys != [] {
      var (store', got) := GetEffect(store, keys[0], Some(origin(keys[0])), UP);
      FetchCount(store', keys[1..], origin, k);
      var t, rest := RunGets(store, keys, origin), RunGets(store', keys[1..], origin);
      assert if got.called then t.fetched[0] == keys[0] && t.fetched[1..] == rest.fetched else t.fetched == rest.fetched;
      assert k in keys <==> k == keys[0] || k in keys[1..];
    }
  }
}
