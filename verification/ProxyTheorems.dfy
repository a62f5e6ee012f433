/** What the caching proxy promises in every run: its clients cannot tell it from plain forwarding,
    it fetches boundedly, and when it crashes. */
module ProxyTheorems {
  import opened Basics
  import opened Objects
  import opened Adapter
  import opened Fetch
  import opened ProxyRuns
  import opened ProxyCounts

  /** The servers, each of which answers each request always the same: which one is asked depends on
      the request's target. */
  type Origin = Request -> Reply

  function Answering(origin: Origin, req: Request): Network {
    Network(None, None, Ok(origin(req)))
  }

  /** In this history only allowed requests were intercepted, and the origin was reachable and
      answered every exchange on their behalf. */
  ghost predicate Steady(hosts: seq<string>, origin: Origin, allowed: Request -> bool, s: State) {
    && (forall i :: 0 <= i < |s.fetches| ==>
          allowed(s.fetches[i].req) && s.fetches[i].net == Answering(origin, s.fetches[i].req))
    && (forall i :: 0 <= i < |s.sent| && Wanted(hosts, s.sent[i].req) ==>
          allowed(s.sent[i].req)
          && (s.sent[i].via.Some? ==> s.sent[i].via.value == Answering(origin, s.sent[i].req)))
  }

  lemma StartsSound(hosts: seq<string>)
    ensures Provenance(hosts, EMPTY) && Counts(EMPTY)
  {
  }

  /** Provenance of answers, with an origin that may change at will: every response was delivered by
      the network in the handler's own exchange, or in a fetch under the same key, for an intercepted
      request, that was complete before the response was sent. Requests that are not intercepted are
      always forwarded. */
  lemma AnswerHasSource(hosts: seq<string>, events: seq<Event>, i: nat)
    requires IsRun(hosts, EMPTY, events)
    requires i < |Run(hosts, EMPTY, events).sent|
    ensures var s := Run(hosts, EMPTY, events);
            var d := s.sent[i];
            && (d.via.Some? ==> d.delivery == Forward(d.via.value))
            && (d.via.None? ==>
                  && Wanted(hosts, d.req)
                  && exists j :: 0 <= j < d.after && j < |s.fetches| && IsSource(hosts, s.fetches[j], d))
  {
    StartsSound(hosts);
    RunProvenance(hosts, EMPTY, events);
    RunCounts(hosts, EMPTY, events);
    RunWants(hosts, EMPTY, events);
    var s := Run(hosts, EMPTY, events);
    var d := s.sent[i];
    assert SentInv(hosts, d, s.fetches);
    if d.via.None? { SourceIn(hosts, s, d); }
  }

  ghost predicate IsSource(hosts: seq<string>, f: FetchRecord, d: Sent) {
    && Wanted(hosts, f.req) && ExtractObjectKey(f.req) == ExtractObjectKey(d.req)
    && FetchedObject(f.key, f.net).Ok? && Forward(f.net) == d.delivery
  }

  lemma SourceIn(hosts: seq<string>, s: State, d: Sent)
    requires ThreadsInv(hosts, s.threads, s.fetches) && FetchersInv(s.threads, s.fetches) && WantedFetches(hosts, s.fetches)
    requires SentInv(hosts, d, s.fetches) && d.via.None?
    ensures exists j :: 0 <= j < d.after && j < |s.fetches| && IsSource(hosts, s.fetches[j], d)
  {
    var log := s.fetches[..d.after];
    var j :| 0 <= j < |log| && Showed(log[j], d.key, d.delivery.response);
    KeyOfRecord(hosts, s, j);
    assert log[j] == s.fetches[j];
    assert IsSource(hosts, s.fetches[j], d);
  }

  lemma KeyOfRecord(hosts: seq<string>, s: State, j: nat)
    requires ThreadsInv(hosts, s.threads, s.fetches) && FetchersInv(s.threads, s.fetches) && j < |s.fetches|
    ensures s.fetches[j].key == ExtractObjectKey(s.fetches[j].req)
  {
    assert FetcherOf(s.threads, s.fetches[j]);
    assert ThreadInv(hosts, s.threads[s.fetches[j].id], s.fetches);
  }

  ghost predicate WantedFetches(hosts: seq<string>, fetches: seq<FetchRecord>) {
    forall i :: 0 <= i < |fetches| ==> Wanted(hosts, fetches[i].req)
  }

  lemma {:induction false} RunWants(hosts: seq<string>, s: State, events: seq<Event>)
    requires Provenance(hosts, s) && WantedFetches(hosts, s.fetches) && IsRun(hosts, s, events)
    ensures WantedFetches(hosts, Run(hosts, s, events).fetches)
    decreases |events|
  {
    if events != [] {
      StepKeeps(hosts, s, events[0]);
      StepWants(hosts, s, events[0]);
      RunWants(hosts, Next(hosts, s, events[0]), events[1..]);
    }
  }

  lemma StepWants(hosts: seq<string>, s: State, e: Event)
    requires ThreadsInv(hosts, s.threads, s.fetches) && WantedFetches(hosts, s.fetches) && Enabled(s, e)
    ensures WantedFetches(hosts, Next(hosts, s, e).fetches)
  {
    if e.Fetched? {
      assert ThreadInv(hosts, s.threads[e.id], s.fetches);
      var t := s.threads[e.id];
      assert Next(hosts, s, e).fetches == s.fetches + [FetchRecord(e.id, t.req, t.key, e.net)];
    } else {
      assert Next(hosts, s, e).fetches == s.fetches;
    }
  }

  // ----- when the process crashes -----

  ghost predicate EmptyBodied(f: FetchRecord) {
    FetchedObject(f.key, f.net).Ok? && FetchedObject(f.key, f.net).value.data == Some([])
  }

  /** A handler is about to render an object without data. */
  ghost predicate Stuck(threads: map<Id, Thread>) {
    exists id :: id in threads && threads[id].place.Rendering? && threads[id].place.found.data.None?
  }

  lemma {:induction false} CrashIsStuck(hosts: seq<string>, s: State, events: seq<Event>)
    requires IsRun(hosts, s, events) && !s.crashed && Run(hosts, s, events).crashed
    ensures Stuck(Run(hosts, s, events).threads)
    decreases |events|
  {
    var s' := Next(hosts, s, events[0]);
    if s'.crashed {
      assert events[1..] == [];
      assert s.threads[events[0].id].place.Rendering?;
    } else {
      CrashIsStuck(hosts, s', events[1..]);
    }
  }

  lemma StuckOnEmptyBody(fetches: seq<FetchRecord>, key: string, o: Object)
    requires From(fetches, key, o) && o.data.None?
    ensures exists j :: 0 <= j < |fetches| && EmptyBodied(fetches[j])
  {
    var j :| 0 <= j < |fetches| && Yields(fetches[j], key, o);
    FetchMeetsForward(key, fetches[j].net);
    assert EmptyBodied(fetches[j]);
  }

  lemma StuckThread(hosts: seq<string>, threads: map<Id, Thread>, fetches: seq<FetchRecord>)
    requires ThreadsInv(hosts, threads, fetches) && Stuck(threads)
    ensures exists j :: 0 <= j < |fetches| && EmptyBodied(fetches[j])
  {
    var id :| id in threads && threads[id].place.Rendering? && threads[id].place.found.data.None?;
    assert ThreadInv(hosts, threads[id], fetches);
    StuckOnEmptyBody(fetches, threads[id].key, threads[id].place.found);
  }

  /** Whatever the origin does, the process crashes only if a fetch returned an empty body. */
  lemma CrashNeedsEmptyBody(hosts: seq<string>, events: seq<Event>)
    requires IsRun(hosts, EMPTY, events) && Run(hosts, EMPTY, events).crashed
    ensures var s := Run(hosts, EMPTY, events);
            exists j :: 0 <= j < |s.fetches| && EmptyBodied(s.fetches[j])
  {
    StartsSound(hosts);
    RunProvenance(hosts, EMPTY, events);
    CrashIsStuck(hosts, EMPTY, events);
    StuckThread(hosts, Run(hosts, EMPTY, events).threads, Run(hosts, EMPTY, events).fetches);
  }

  // ----- transparency -----

  /** In this history every client was answered as forwarding alone would have answered it. */
  ghost predicate Right(hosts: seq<string>, origin: Origin, s: State) {
    && !s.crashed
    && forall i :: 0 <= i < |s.sent| ==> AnsweredRight(hosts, origin, s.sent[i])
  }

  /** A client whose request is not intercepted receives what its own exchange delivers. */
  ghost predicate AnsweredRight(hosts: seq<string>, origin: Origin, d: Sent) {
    if Wanted(hosts, d.req) then d.delivery == Relayed(origin(d.req))
    else d.via.Some? && d.delivery == Plainly(d.via.value)
  }

  ghost predicate RunIsRight(hosts: seq<string>, origin: Origin, allowed: Request -> bool, events: seq<Event>) {
    IsRun(hosts, EMPTY, events) && Steady(hosts, origin, allowed, Run(hosts, EMPTY, events)) ==>
      Right(hosts, origin, Run(hosts, EMPTY, events))
  }

  /** The origin answers this request with a complete 200 response. */
  predicate Cacheable(origin: Origin, req: Request) {
    origin(req).status == STATUS_OK && origin(req).body.Ok?
  }

  ghost predicate Allowed(hosts: seq<string>, allowed: Request -> bool, req: Request) {
    Wanted(hosts, req) && allowed(req)
  }

  ghost predicate Clash(origin: Origin, r1: Request, r2: Request) {
    && Cacheable(origin, r1) && ExtractObjectKey(r1) == ExtractObjectKey(r2)
    && Relayed(origin(r1)) != Relayed(origin(r2))
  }

  /** Cacheable responses have a body and depend on the cache key alone. */
  ghost predicate CacheFriendly(hosts: seq<string>, origin: Origin, allowed: Request -> bool) {
    && (forall r :: Allowed(hosts, allowed, r) && Cacheable(origin, r) ==> origin(r).body != Ok([]))
    && (forall r1, r2 :: Allowed(hosts, allowed, r1) && Allowed(hosts, allowed, r2) ==> !Clash(origin, r1, r2))
  }

  /** Cache transparency, exactly: the process never crashes and every response equals what
      forwarding alone would deliver, in every run, however lookups, fetches, puts, evictions and
      failed writes interleave, if and only if every complete 200 response of the origin has a body
      and is also its response to every other intercepted request with the same key. */
  lemma TransparentExactly(hosts: seq<string>, origin: Origin, allowed: Request -> bool)
    ensures (forall events :: RunIsRight(hosts, origin, allowed, events)) <==> CacheFriendly(hosts, origin, allowed)
  {
    if CacheFriendly(hosts, origin, allowed) {
      forall events
        ensures RunIsRight(hosts, origin, allowed, events)
      {
        if IsRun(hosts, EMPTY, events) && Steady(hosts, origin, allowed, Run(hosts, EMPTY, events)) {
          FriendlyRunIsRight(hosts, origin, allowed, events);
        }
      }
    }
    if forall events :: RunIsRight(hosts, origin, allowed, events) {
      forall r | Allowed(hosts, allowed, r) && Cacheable(origin, r)
        ensures origin(r).body != Ok([])
      {
        if origin(r).body == Ok([]) { var _ := SecondRequestCrashes(hosts, origin, allowed, r); }
      }
      forall r1, r2 | Allowed(hosts, allowed, r1) && Allowed(hosts, allowed, r2)
        ensures !Clash(origin, r1, r2)
      {
        if Clash(origin, r1, r2) { var _ := SecondRequestMisled(hosts, origin, allowed, r1, r2); }
      }
    }
  }

  lemma FriendlyRunIsRight(hosts: seq<string>, origin: Origin, allowed: Request -> bool, events: seq<Event>)
    requires CacheFriendly(hosts, origin, allowed)
    requires IsRun(hosts, EMPTY, events) && Steady(hosts, origin, allowed, Run(hosts, EMPTY, events))
    ensures Right(hosts, origin, Run(hosts, EMPTY, events))
  {
    var s := Run(hosts, EMPTY, events);
    if s.crashed {
      CrashNeedsEmptyBody(hosts, events);
      StartsSound(hosts);
      RunWants(hosts, EMPTY, events);
      var j :| 0 <= j < |s.fetches| && EmptyBodied(s.fetches[j]);
      assert Allowed(hosts, allowed, s.fetches[j].req) && Cacheable(origin, s.fetches[j].req);
      assert false;
    }
    forall i | 0 <= i < |s.sent|
      ensures AnsweredRight(hosts, origin, s.sent[i])
    {
      AnswerHasSource(hosts, events, i);
      if s.sent[i].via.None? {
        var j :| 0 <= j < |s.fetches| && IsSource(hosts, s.fetches[j], s.sent[i]);
        FriendlySource(hosts, origin, allowed, s.fetches[j], s.sent[i]);
      } else {
        ForwardRelays(s.sent[i].via.value);
      }
    }
  }

  lemma FriendlySource(hosts: seq<string>, origin: Origin, allowed: Request -> bool, f: FetchRecord, d: Sent)
    requires CacheFriendly(hosts, origin, allowed) && IsSource(hosts, f, d)
    requires allowed(f.req) && f.net == Answering(origin, f.req) && Allowed(hosts, allowed, d.req)
    ensures AnsweredRight(hosts, origin, d)
  {
    ForwardRelays(f.net);
    FetchMeetsForward(f.key, f.net);
    assert Allowed(hosts, allowed, f.req);
    assert !Clash(origin, f.req, d.req);
  }

  /** For requests as they come over the wire, and servers that all answer by the URL's host, path and
      query only, keys never clash: transparency is then exactly the absence of empty bodies. */
  lemma TransparentForPlainRequests(hosts: seq<string>, origin: Origin, allowed: Request -> bool)
    requires forall r :: allowed(r) ==> Plain(r.url)
    requires forall r1, r2 :: SameURL(r1, r2) ==> origin(r1) == origin(r2)
    ensures (forall events :: RunIsRight(hosts, origin, allowed, events))
            <==> forall r :: Allowed(hosts, allowed, r) && Cacheable(origin, r) ==> origin(r).body != Ok([])
  {
    TransparentExactly(hosts, origin, allowed);
    forall r1, r2 | Allowed(hosts, allowed, r1) && Allowed(hosts, allowed, r2)
      ensures !Clash(origin, r1, r2)
    {
      if Clash(origin, r1, r2) {
        KeyDetermines(r1, r2);
        assert SameURL(r1, r2);
      }
    }
  }

  ghost predicate SameURL(r1: Request, r2: Request) {
    r1.url.host == r2.url.host && r1.url.path == r2.url.path && r1.url.rawQuery == r2.url.rawQuery
  }

  // ----- the runs that go wrong -----

  lemma Before(hosts: seq<string>, s: State, e: Event, rest: seq<Event>) returns (events: seq<Event>)
    requires Enabled(s, e) && IsRun(hosts, Next(hosts, s, e), rest)
    ensures events == [e] + rest
    ensures IsRun(hosts, s, events) && Run(hosts, s, events) == Run(hosts, Next(hosts, s, e), rest)
  {
    events := [e] + rest;
    assert events[1..] == rest;
  }

  /** What one request leaves behind once its put has landed, its own answer still to be written. */
  ghost function Landed(origin: Origin, req: Request): State
    requires Cacheable(origin, req)
  {
    var key, net := ExtractObjectKey(req), Answering(origin, req);
    var o := FetchedObject(key, net).value;
    State(map[key := ThroughGob(o)], multiset{}, map[0 := Thread(req, key, Rendering(o), 2, true)], false,
          [FetchRecord(0, req, key, net)], [])
  }

  /** One request fetches the object and its put lands; then the rest of the run follows. */
  lemma FirstRequestLands(hosts: seq<string>, origin: Origin, req: Request, rest: seq<Event>) returns (events: seq<Event>)
    requires Wanted(hosts, req) && Cacheable(origin, req) && IsRun(hosts, Landed(origin, req), rest)
    ensures IsRun(hosts, EMPTY, events) && Run(hosts, EMPTY, events) == Run(hosts, Landed(origin, req), rest)
  {
    var key, net := ExtractObjectKey(req), Answering(origin, req);
    var o := FetchedObject(key, net).value;
    var landed := Landed(origin, req);
    var fetched := landed.(store := map[], pending := multiset{o});
    assert Next(hosts, fetched, Land(o, true)) == landed;
    events := Before(hosts, fetched, Land(o, true), rest);
    var atFetch := FirstMisses(req);
    assert Next(hosts, atFetch, Fetched(0, net)) == fetched;
    events := Before(hosts, atFetch, Fetched(0, net), events);
    events := FirstRequestMisses(hosts, req, events);
  }

  ghost function FirstMisses(req: Request): State {
    State(map[], multiset{}, map[0 := Thread(req, ExtractObjectKey(req), Fetching, 2, true)], false, [], [])
  }

  lemma FirstRequestMisses(hosts: seq<string>, req: Request, rest: seq<Event>) returns (events: seq<Event>)
    requires Wanted(hosts, req) && IsRun(hosts, FirstMisses(req), rest)
    ensures IsRun(hosts, EMPTY, events) && Run(hosts, EMPTY, events) == Run(hosts, FirstMisses(req), rest)
  {
    var t := Thread(req, ExtractObjectKey(req), Start, 0, true);
    var atFetch := FirstMisses(req);
    var atSecond := atFetch.(threads := map[0 := t.(place := SecondLookup, misses := 1)]);
    assert Next(hosts, atSecond, Go(0)) == atFetch;
    events := Before(hosts, atSecond, Go(0), rest);
    var atFirst := atFetch.(threads := map[0 := t.(place := FirstLookup)]);
    assert Next(hosts, atFirst, Go(0)) == atSecond;
    events := Before(hosts, atFirst, Go(0), events);
    var arrived := atFetch.(threads := map[0 := t]);
    assert Next(hosts, arrived, Go(0)) == atFirst;
    events := Before(hosts, arrived, Go(0), events);
    assert Next(hosts, EMPTY, Arrive(0, req)) == arrived;
    events := Before(hosts, EMPTY, Arrive(0, req), events);
  }

  /** A new request whose object is stored reaches the point of rendering it. */
  lemma NextRequestHits(hosts: seq<string>, s: State, id: Id, req: Request, rest: seq<Event>) returns (events: seq<Event>)
    requires !s.crashed && id !in s.threads && Wanted(hosts, req) && ExtractObjectKey(req) in s.store
    requires IsRun(hosts, Hit(s, id, req), rest)
    ensures IsRun(hosts, s, events) && Run(hosts, s, events) == Run(hosts, Hit(s, id, req), rest)
  {
    var t := Thread(req, ExtractObjectKey(req), Start, 0, true);
    var s1 := s.(threads := s.threads[id := t]);
    var s2 := s.(threads := s.threads[id := t.(place := FirstLookup)]);
    assert s1.threads[id := s2.threads[id]] == s2.threads;
    assert s2.threads[id := Hit(s, id, req).threads[id]] == Hit(s, id, req).threads;
    events := Before(hosts, s2, Go(id), rest);
    events := Before(hosts, s1, Go(id), events);
    events := Before(hosts, s, Arrive(id, req), events);
  }

  ghost function Hit(s: State, id: Id, req: Request): State
    requires ExtractObjectKey(req) in s.store
  {
    var key := ExtractObjectKey(req);
    s.(threads := s.threads[id := Thread(req, key, Rendering(s.store[key]), 0, true)])
  }

  /** An object with an empty body is fetched, and the next request for it is a hit. */
  lemma SecondRequestCrashes(hosts: seq<string>, origin: Origin, allowed: Request -> bool, req: Request)
    returns (events: seq<Event>)
    requires Allowed(hosts, allowed, req) && Cacheable(origin, req) && origin(req).body == Ok([])
    ensures IsRun(hosts, EMPTY, events) && Run(hosts, EMPTY, events).crashed
    ensures Steady(hosts, origin, allowed, Run(hosts, EMPTY, events))
    ensures !RunIsRight(hosts, origin, allowed, events)
  {
    var landed := Landed(origin, req);
    var hit := Hit(landed, 1, req);
    assert Next(hosts, hit, Go(1)) == hit.(crashed := true);
    events := Before(hosts, hit, Go(1), []);
    events := NextRequestHits(hosts, landed, 1, req, events);
    events := FirstRequestLands(hosts, origin, req, events);
  }

  /** Two requests share a key, and the second is sent what the origin answered to the first. */
  lemma SecondRequestMisled(hosts: seq<string>, origin: Origin, allowed: Request -> bool, r1: Request, r2: Request)
    returns (events: seq<Event>)
    requires Allowed(hosts, allowed, r1) && Allowed(hosts, allowed, r2) && Clash(origin, r1, r2)
    requires origin(r1).body != Ok([])
    ensures IsRun(hosts, EMPTY, events) && Steady(hosts, origin, allowed, Run(hosts, EMPTY, events))
    ensures var s := Run(hosts, EMPTY, events);
            |s.sent| == 1 && s.sent[0].req == r2 && s.sent[0].delivery != Relayed(origin(r2))
    ensures !RunIsRight(hosts, origin, allowed, events)
  {
    var landed := Landed(origin, r1);
    var key := ExtractObjectKey(r1);
    var hit := Hit(landed, 1, r2);
    var response := Response(STATUS_OK, origin(r1).headers, origin(r1).body.value);
    var rendered := hit.(threads := hit.threads[1 := Thread(r2, key, Writing(response), 0, true)]);
    assert Next(hosts, hit, Go(1)) == rendered;
    events := Before(hosts, rendered, Wrote(1, true), []);
    events := Before(hosts, hit, Go(1), events);
    events := NextRequestHits(hosts, landed, 1, r2, events);
    events := FirstRequestLands(hosts, origin, r1, events);
  }

  // ----- bounded fetching -----

  /** The handlers that have asked for this key and missed it twice. */
  function Missed(threads: map<Id, Thread>, key: string): set<Id> {
    set id | id in threads && threads[id].key == key && threads[id].misses == 2
  }

  function FetchCount(fetches: seq<FetchRecord>, key: string): nat {
    if fetches == [] then 0
    else FetchCount(fetches[..|fetches| - 1], key) + if fetches[|fetches| - 1].key == key then 1 else 0
  }

  function FetchIds(fetches: seq<FetchRecord>, key: string): set<Id> {
    if fetches == [] then {}
    else
      var last := fetches[|fetches| - 1];
      FetchIds(fetches[..|fetches| - 1], key) + if last.key == key then {last.id} else {}
  }

  lemma {:induction false} IdFetched(fetches: seq<FetchRecord>, key: string, id: Id) returns (i: nat)
    requires id in FetchIds(fetches, key)
    ensures i < |fetches| && fetches[i].id == id && fetches[i].key == key
  {
    i := |fetches| - 1;
    if fetches[i].id != id || fetches[i].key != key { i := IdFetched(fetches[..i], key, id); }
  }

  lemma {:induction false} CountIds(fetches: seq<FetchRecord>, key: string)
    requires DistinctFetchers(fetches)
    ensures FetchCount(fetches, key) == |FetchIds(fetches, key)|
  {
    if fetches != [] {
      var init, last := fetches[..|fetches| - 1], fetches[|fetches| - 1];
      CountIds(init, key);
      if last.id in FetchIds(init, key) {
        var _ := IdFetched(init, key, last.id);
      }
    }
  }

  /** While an entry is not evicted, no further handler misses it. */
  lemma {:induction false} NoNewMisses(hosts: seq<string>, s: State, events: seq<Event>, key: string)
    requires IsRun(hosts, s, events) && key in s.store && Evict(key) !in events
    ensures key in Run(hosts, s, events).store
    ensures forall id :: id in Missed(Run(hosts, s, events).threads, key) ==> id in Missed(s.threads, key)
    decreases |events|
  {
    if events != [] {
      assert events[0] in events && forall e :: e in events[1..] ==> e in events;
      StepNoNewMisses(hosts, s, events[0], key);
      NoNewMisses(hosts, Next(hosts, s, events[0]), events[1..], key);
    }
  }

  lemma StepNoNewMisses(hosts: seq<string>, s: State, e: Event, key: string)
    requires Enabled(s, e) && key in s.store && e != Evict(key)
    ensures key in Next(hosts, s, e).store
    ensures forall id :: id in Missed(Next(hosts, s, e).threads, key) ==> id in Missed(s.threads, key)
  {
  }

  /** Bounded fetching: once a put for a key has landed, and while the entry is not evicted, only
      handlers that had missed the key twice by then ever fetch it, each at most once: the fetches
      of the key in the whole run are no more than those handlers. */
  lemma FetchesBounded(hosts: seq<string>, before: seq<Event>, after: seq<Event>, key: string)
    requires IsRun(hosts, EMPTY, before)
    requires IsRun(hosts, Run(hosts, EMPTY, before), after)
    requires key in Run(hosts, EMPTY, before).store && Evict(key) !in after
    ensures var s1 := Run(hosts, EMPTY, before);
            var s2 := Run(hosts, s1, after);
            && (forall i :: 0 <= i < |s2.fetches| && s2.fetches[i].key == key ==> s2.fetches[i].id in Missed(s1.threads, key))
            && FetchCount(s2.fetches, key) <= |Missed(s1.threads, key)|
  {
    var s1 := Run(hosts, EMPTY, before);
    var s2 := Run(hosts, s1, after);
    StartsSound(hosts);
    RunCounts(hosts, EMPTY, before);
    RunCounts(hosts, s1, after);
    NoNewMisses(hosts, s1, after, key);
    forall i | 0 <= i < |s2.fetches| && s2.fetches[i].key == key
      ensures s2.fetches[i].id in Missed(s1.threads, key)
    {
      assert FetcherOf(s2.threads, s2.fetches[i]);
      assert s2.fetches[i].id in Missed(s2.threads, key);
    }
    forall id | id in FetchIds(s2.fetches, key)
      ensures id in Missed(s1.threads, key)
    {
      var _ := IdFetched(s2.fetches, key, id);
    }
    CountIds(s2.fetches, key);
    SubsetSize(FetchIds(s2.fetches, key), Missed(s1.threads, key));
  }

  // ----- every handler finishes -----

  function Rank(p: Place): nat {
    match p
    case Start => 7
    case FirstLookup => 6
    case SecondLookup => 5
    case Fetching => 4
    case Rendering(_) => 3
    case Writing(_) => 2
    case Forwarding => 1
    case Done => 0
  }

  /** The steps of one handler. */
  predicate Own(e: Event, id: Id) {
    match e
    case Go(i) => i == id
    case Fetched(i, _) => i == id
    case Wrote(i, _) => i == id
    case Forwarded(i, _) => i == id
    case _ => false
  }

  function OwnCount(events: seq<Event>, id: Id): nat {
    if events == [] then 0 else (if Own(events[0], id) then 1 else 0) + OwnCount(events[1..], id)
  }

  /** Each handler takes at most seven steps, whatever the others do, unless the process crashes. */
  lemma {:induction false} HandlerBounded(hosts: seq<string>, s: State, events: seq<Event>, id: Id)
    requires IsRun(hosts, s, events) && id in s.threads && !Run(hosts, s, events).crashed
    ensures id in Run(hosts, s, events).threads
    ensures OwnCount(events, id) + Rank(Run(hosts, s, events).threads[id].place) <= Rank(s.threads[id].place)
    decreases |events|
  {
    if events != [] {
      var s', rest := Next(hosts, s, events[0]), events[1..];
      assert s'.crashed ==> rest == [];
      HandlerStep(hosts, s, events[0], id);
      HandlerBounded(hosts, s', rest, id);
    }
  }

  lemma HandlerStep(hosts: seq<string>, s: State, e: Event, id: Id)
    requires Enabled(s, e) && id in s.threads && !Next(hosts, s, e).crashed
    ensures id in Next(hosts, s, e).threads
    ensures Own(e, id) ==> Rank(Next(hosts, s, e).threads[id].place) < Rank(s.threads[id].place)
    ensures !Own(e, id) ==> Next(hosts, s, e).threads[id] == s.threads[id]
  {
  }

  /** An unfinished handler can always take its next step: nothing it waits for is held by another
      handler, by a put or by an eviction. */
  lemma HandlerCanStep(s: State, id: Id) returns (e: Event)
    requires !s.crashed && id in s.threads && !s.threads[id].place.Done?
    ensures Own(e, id) && Enabled(s, e)
  {
    var down := Network(Some(""), None, Err(""));
    e := match s.threads[id].place
      case Fetching => Fetched(id, down)
      case Writing(_) => Wrote(id, true)
      case Forwarding => Forwarded(id, down)
      case _ => Go(id);
  }
}
