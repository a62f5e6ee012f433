/** cache/bigcacheWrapper.go and the handler of proxy/httpCachingProxy.go as the code runs them for
    one request, and their place among the interleaved runs of ProxyRuns. */
module CachingProxy {
  import opened Basics
  import opened Objects
  import opened Adapter
  import opened Fetch
  import opened ProxyRuns
  import opened ProxyTheorems

  const INITIALIZER_NIL := "initializer is nil"
  const NOT_FOUND := "Entry not found"

  datatype Got = Got(result: Objects.Fetched, called: bool)

  /** Get, with nobody else at work: the new pending puts and the result. */
  function GetEffect(store: Store, pending: multiset<Object>, key: string, initializer: Option<Objects.Fetched>):
    (multiset<Object>, Got)
  {
    if key in store then (pending, Got(Ok(store[key]), false))
    else
      match initializer
      case None => (pending, Got(Err(INITIALIZER_NIL), false))
      case Some(Err(e)) => (pending, Got(Err(e), true))
      case Some(Ok(o)) => (pending + multiset{o}, Got(Ok(o), true))
  }

  /** The cache: what it stores, and the puts that spawned goroutines have still to make. */
  class BigcacheWrapper {
    var store: Store
    var pending: multiset<Object>

    constructor ()
      ensures store == map[] && pending == multiset{}
    {
      store, pending := map[], multiset{};
    }

    method Lookup(key: string) returns (r: Result<Object>)
      ensures r == if key in store then Ok(store[key]) else Err(NOT_FOUND)
    {
      if key !in store { return Err(NOT_FOUND); }
      return Ok(store[key]);
    }

    method Initialize(key: string, initializer: Option<Objects.Fetched>) returns (got: Got)
      modifies this`pending
      ensures initializer.None? ==> pending == old(pending) && got == Got(Err(INITIALIZER_NIL), false)
      ensures initializer.Some? ==> (pending, got) == GetEffect(store, old(pending), key, initializer)
    {
      if initializer.None? { return Got(Err(INITIALIZER_NIL), false); }
      var again := Lookup(key);
      if again.Ok? { return Got(again, false); }
      var fetched := initializer.value;
      if fetched.Err? { return Got(Err(fetched.error), true); }
      pending := pending + multiset{fetched.value};
      return Got(Ok(fetched.value), true);
    }

    method Get(key: string, initializer: Option<Objects.Fetched>) returns (got: Got)
      modifies this`pending
      ensures (pending, got) == GetEffect(store, old(pending), key, initializer)
    {
      var r := Lookup(key);
      if r.Err? {
        got := Initialize(key, initializer);
      } else {
        got := Got(r, false);
      }
    }

    /** Also what a spawned goroutine does; the store may refuse the entry. */
    method Put(o: Object, kept: bool)
      modifies this`store
      ensures store == if kept then old(store)[o.key := ThroughGob(o)] else old(store)
    {
      if kept { store := store[o.key := ThroughGob(o)]; }
    }
  }

  /** How the network and the client behave for one request: the fetch, the forwarding, and whether
      writing a local response succeeds. */
  datatype Weather = Weather(fetch: Network, forward: Network, writes: bool)

  /** None is the crash. */
  type Outcome = Option<Delivery>

  function HandleEffect(hosts: seq<string>, store: Store, pending: multiset<Object>, req: Request, w: Weather):
    (multiset<Object>, Outcome)
  {
    if !Wanted(hosts, req) then (pending, Some(Forward(w.forward)))
    else
      var key := ExtractObjectKey(req);
      var (pending', got) := GetEffect(store, pending, key, Some(Prefixed(FetchedObject(key, w.fetch))));
      if got.result.Err? then (pending', Some(Forward(w.forward)))
      else
        match CreateLocalResponse(got.result.value)
        case None => (pending', None)
        case Some(r) => (pending', Some(if w.writes then Full(r) else Forward(w.forward)))
  }

  /** The fetch brings a complete 200 reply to a request that was written. */
  predicate Fetches(net: Network) {
    net.dial.None? && net.write.None? && net.reply.Ok? && net.reply.value.status == 200 && net.reply.value.body.Ok?
  }

  /** All outcomes of the handler: a request that is not intercepted, or that neither store nor fetch
      can serve, is plainly forwarded, and so is one whose local response cannot be written; a stored
      object is served without a fetch, or brings the process down when it has no data; a fetched one
      is served and left as the one new pending put. */
  lemma Outcomes(hosts: seq<string>, store: Store, pending: multiset<Object>, req: Request, w: Weather)
    ensures var key := ExtractObjectKey(req);
            var (pending', outcome) := HandleEffect(hosts, store, pending, req, w);
            if !Wanted(hosts, req) || (key !in store && !Fetches(w.fetch)) then
              pending' == pending && outcome == Some(Plainly(w.forward))
            else if key in store then
              && pending' == pending
              && outcome == if store[key].data.None? then None
                            else if w.writes then Some(Full(Response(200, store[key].headers, store[key].data.value)))
                            else Some(Plainly(w.forward))
            else
              && pending' == pending + multiset{Object(key, Some(w.fetch.reply.value.body.value), w.fetch.reply.value.headers)}
              && outcome == Some(if w.writes then Relayed(w.fetch.reply.value) else Plainly(w.forward))
  {
    FetchMeetsForward(ExtractObjectKey(req), w.fetch);
    ForwardRelays(w.fetch);
    ForwardRelays(w.forward);
  }

  method HandleHttp(hosts: seq<string>, cache: BigcacheWrapper, req: Request, w: Weather) returns (outcome: Outcome)
    modifies cache`pending
    ensures !Wanted(hosts, req) || (ExtractObjectKey(req) !in cache.store && !Fetches(w.fetch)) ==>
              cache.pending == old(cache.pending) && outcome == Some(Plainly(w.forward))
    ensures (cache.pending, outcome) == HandleEffect(hosts, cache.store, old(cache.pending), req, w)
  {
    Outcomes(hosts, cache.store, cache.pending, req, w);
    var intercept, _ := FindAdapter(hosts, req);
    if intercept {
      var key := ExtractObjectKey(req);
      var fetched := RetrieveTimed(key, w.fetch);
      var got := cache.Get(key, Some(Prefixed(fetched)));
      if got.result.Ok? {
        var response := CreateLocalResponse(got.result.value);
        if response.None? { return None; }
        if !w.writes { return Some(Forward(w.forward)); }
        return Some(Full(response.value));
      }
      return Some(Forward(w.forward));
    }
    return Some(Forward(w.forward));
  }

  // ----- the handler as one thread of a run -----

  ghost function Choice(t: Thread, id: Id, w: Weather): Event {
    match t.place
    case Fetching => Event.Fetched(id, w.fetch)
    case Writing(_) => Wrote(id, w.writes)
    case Forwarding => Forwarded(id, w.forward)
    case _ => Go(id)
  }

  /** What is left to do for a handler that nobody interrupts. */
  function RestOf(hosts: seq<string>, store: Store, pending: multiset<Object>, t: Thread, w: Weather):
    (multiset<Object>, Outcome)
    requires !t.place.Done?
  {
    match t.place
    case Start => HandleEffect(hosts, store, pending, t.req, w)
    case FirstLookup => Served(GetEffect(store, pending, t.key, Some(Prefixed(FetchedObject(t.key, w.fetch)))), w)
    case SecondLookup => Served(GetEffect(store, pending, t.key, Some(Prefixed(FetchedObject(t.key, w.fetch)))), w)
    case Fetching => Served(GetEffect(map[], pending, t.key, Some(Prefixed(FetchedObject(t.key, w.fetch)))), w)
    case Rendering(o) => Served((pending, Got(Ok(o), false)), w)
    case Writing(r) => (pending, Some(if w.writes then Full(r) else Forward(w.forward)))
    case Forwarding => (pending, Some(Forward(w.forward)))
  }

  function Served(g: (multiset<Object>, Got), w: Weather): (multiset<Object>, Outcome) {
    if g.1.result.Err? then (g.0, Some(Forward(w.forward)))
    else
      match CreateLocalResponse(g.1.result.value)
      case None => (g.0, None)
      case Some(r) => (g.0, Some(if w.writes then Full(r) else Forward(w.forward)))
  }

  /** The handler has ended in s' as the outcome says, and nothing else but the pending puts and its
      own records differs from s. */
  ghost predicate Ended(s: State, s': State, id: Id, rest: (multiset<Object>, Outcome), fetches: seq<FetchRecord>) {
    && s'.fetches == s.fetches + fetches
    && s'.store == s.store && s'.pending == rest.0
    && s'.crashed == rest.1.None?
    && id in s'.threads && (rest.1.Some? ==> s'.threads[id].place.Done?)
    && (forall i :: i != id ==> (i in s'.threads <==> i in s.threads))
    && (forall i :: i != id && i in s.threads ==> s'.threads[i] == s.threads[i])
    && |s'.sent| == |s.sent| + (if rest.1.Some? then 1 else 0) && s'.sent[..|s.sent|] == s.sent
    && (rest.1.Some? ==> s'.sent[|s.sent|].id == id && s'.sent[|s.sent|].delivery == rest.1.value)
  }

  /** The fetches it will still have completed, each a call of the initializer. */
  function FetchesOf(hosts: seq<string>, store: Store, id: Id, t: Thread, w: Weather): seq<FetchRecord> {
    var called := match t.place
      case Start => Wanted(hosts, t.req) && GetEffect(store, multiset{}, t.key, Some(FetchedObject(t.key, w.fetch))).1.called
      case FirstLookup => GetEffect(store, multiset{}, t.key, Some(FetchedObject(t.key, w.fetch))).1.called
      case SecondLookup => GetEffect(store, multiset{}, t.key, Some(FetchedObject(t.key, w.fetch))).1.called
      case Fetching => true
      case _ => false;
    if called then [FetchRecord(id, t.req, t.key, w.fetch)] else []
  }

  ghost predicate Ready(s: State, id: Id) {
    && !s.crashed && id in s.threads && !s.threads[id].place.Done?
    && s.threads[id].key == ExtractObjectKey(s.threads[id].req)
    && (s.threads[id].place.SecondLookup? ==> s.threads[id].key !in s.store)
  }

  /** One step of the uninterrupted handler ends it, or leaves the rest of its work. */
  ghost predicate Leaves(hosts: seq<string>, s: State, s': State, id: Id, w: Weather)
    requires id in s.threads && !s.threads[id].place.Done?
  {
    var t := s.threads[id];
    var rest := RestOf(hosts, s.store, s.pending, t, w);
    id in s'.threads
    && if s'.crashed || s'.threads[id].place.Done? then Ended(s, s', id, rest, FetchesOf(hosts, s.store, id, t, w))
       else
         && s'.fetches + FetchesOf(hosts, s'.store, id, s'.threads[id], w) == s.fetches + FetchesOf(hosts, s.store, id, t, w)
         && RestOf(hosts, s'.store, s'.pending, s'.threads[id], w) == rest
         && s'.store == s.store && s'.sent == s.sent
         && s'.threads == s.threads[id := s'.threads[id]]
         && Ready(s', id) && Rank(s'.threads[id].place) < Rank(t.place)
  }

  lemma StartLeaves(hosts: seq<string>, s: State, id: Id, w: Weather)
    requires Ready(s, id) && s.threads[id].place.Start?
    ensures Leaves(hosts, s, Next(hosts, s, Go(id)), id, w)
  {
  }

  lemma LookupLeaves(hosts: seq<string>, s: State, id: Id, w: Weather)
    requires Ready(s, id) && (s.threads[id].place.FirstLookup? || s.threads[id].place.SecondLookup?)
    ensures Leaves(hosts, s, Next(hosts, s, Go(id)), id, w)
  {
  }

  lemma RenderLeaves(hosts: seq<string>, s: State, id: Id, w: Weather)
    requires Ready(s, id) && s.threads[id].place.Rendering?
    ensures Leaves(hosts, s, Next(hosts, s, Go(id)), id, w)
  {
  }

  lemma FetchLeaves(hosts: seq<string>, s: State, id: Id, w: Weather)
    requires Ready(s, id) && s.threads[id].place.Fetching?
    ensures Leaves(hosts, s, Next(hosts, s, Event.Fetched(id, w.fetch)), id, w)
  {
    var t := s.threads[id];
    var s' := Next(hosts, s, Event.Fetched(id, w.fetch));
    match FetchedObject(t.key, w.fetch)
    case Err(_) => assert s'.threads[id] == t.(place := Forwarding);
    case Ok(o) => assert s'.threads[id] == t.(place := Rendering(o));
  }

  lemma LastLeaves(hosts: seq<string>, s: State, id: Id, w: Weather)
    requires Ready(s, id) && (s.threads[id].place.Writing? || s.threads[id].place.Forwarding?)
    ensures Leaves(hosts, s, Next(hosts, s, Choice(s.threads[id], id, w)), id, w)
  {
  }

  lemma StepLeaves(hosts: seq<string>, s: State, id: Id, w: Weather)
    requires Ready(s, id)
    ensures Leaves(hosts, s, Next(hosts, s, Choice(s.threads[id], id, w)), id, w)
  {
    match s.threads[id].place
    case Start => StartLeaves(hosts, s, id, w);
    case FirstLookup => LookupLeaves(hosts, s, id, w);
    case SecondLookup => LookupLeaves(hosts, s, id, w);
    case Rendering(_) => RenderLeaves(hosts, s, id, w);
    case Fetching => FetchLeaves(hosts, s, id, w);
    case _ => LastLeaves(hosts, s, id, w);
  }

  lemma {:induction false} Alone(hosts: seq<string>, s: State, id: Id, w: Weather) returns (events: seq<Event>)
    requires Ready(s, id)
    ensures IsRun(hosts, s, events) && forall e :: e in events ==> Own(e, id)
    ensures Ended(s, Run(hosts, s, events), id, RestOf(hosts, s.store, s.pending, s.threads[id], w),
                  FetchesOf(hosts, s.store, id, s.threads[id], w))
    decreases Rank(s.threads[id].place)
  {
    StepLeaves(hosts, s, id, w);
    var e := Choice(s.threads[id], id, w);
    var s' := Next(hosts, s, e);
    if s'.crashed || s'.threads[id].place.Done? {
      events := Before(hosts, s, e, []);
    } else {
      events := Alone(hosts, s', id, w);
      events := Before(hosts, s, e, events);
    }
  }

  /** What the code does for one request is a run of the interleaved system in which, after the
      request arrives, only its own handler moves: so everything proved of all runs holds of it. */
  lemma HandlerIsARun(hosts: seq<string>, s: State, id: Id, req: Request, w: Weather) returns (events: seq<Event>)
    requires !s.crashed && id !in s.threads
    ensures IsRun(hosts, s, events) && forall e :: e in events ==> e == Arrive(id, req) || Own(e, id)
    ensures var key := ExtractObjectKey(req);
            var called := Wanted(hosts, req)
                          && GetEffect(s.store, s.pending, key, Some(Prefixed(FetchedObject(key, w.fetch)))).1.called;
            Ended(s, Run(hosts, s, events), id, HandleEffect(hosts, s.store, s.pending, req, w),
                  if called then [FetchRecord(id, req, key, w.fetch)] else [])
  {
    var s' := Next(hosts, s, Arrive(id, req));
    events := Alone(hosts, s', id, w);
    events := Before(hosts, s, Arrive(id, req), events);
  }
}
