/** proxy/httpCachingProxy.go on top of cache/bigcacheWrapper.go: any number of requests handled at
    once, sharing one store. Every cache lookup, fetch, write to a client and landing of an
    asynchronous put is a step of its own, and entries may be evicted at any time. */
module ProxyRuns {
  import opened Basics
  import opened Objects
  import opened Adapter
  import opened Fetch

  type Id = nat

  type Store = map<string, Object>

  /** Where one call of handleHttpInternal is. */
  datatype Place =
    | Start
    | FirstLookup
    | SecondLookup
    | Fetching
    | Rendering(found: Object)
    | Writing(response: Response)
    | Forwarding
    | Done

  /** misses counts failed lookups; clean is false once a write to the client failed. */
  datatype Thread = Thread(req: Request, key: string, place: Place, misses: nat, clean: bool)

  /** A completed call of an initializer. */
  datatype FetchRecord = FetchRecord(id: Id, req: Request, key: string, net: Network)

  /** A response written to a client; via is the exchange when it was forwarded, and after the
      number of fetches completed before. */
  datatype Sent = Sent(id: Id, req: Request, key: string, delivery: Delivery, via: Option<Network>, after: nat, clean: bool)

  datatype State = State(
    store: Store,
    pending: multiset<Object>,
    threads: map<Id, Thread>,
    crashed: bool,
    fetches: seq<FetchRecord>,
    sent: seq<Sent>
  )

  const EMPTY := State(map[], multiset{}, map[], false, [], [])

  /** Go is a step a handler takes on its own; Land is a put arriving in the store, or being
      dropped by it. */
  datatype Event =
    | Arrive(id: Id, req: Request)
    | Go(id: Id)
    | Fetched(id: Id, net: Network)
    | Wrote(id: Id, ok: bool)
    | Forwarded(id: Id, net: Network)
    | Land(o: Object, kept: bool)
    | Evict(key: string)

  predicate Wanted(hosts: seq<string>, req: Request) {
    exists i :: 0 <= i < |hosts| && ShouldIntercept(hosts[i], req)
  }

  predicate Enabled(s: State, e: Event) {
    && !s.crashed
    && match e
       case Arrive(id, _) => id !in s.threads
       case Go(id) =>
         id in s.threads
         && var p := s.threads[id].place; p.Start? || p.FirstLookup? || p.SecondLookup? || p.Rendering?
       case Fetched(id, _) => id in s.threads && s.threads[id].place.Fetching?
       case Wrote(id, _) => id in s.threads && s.threads[id].place.Writing?
       case Forwarded(id, _) => id in s.threads && s.threads[id].place.Forwarding?
       case Land(o, _) => o in s.pending
       case Evict(key) => key in s.store
  }

  function LookUp(store: Store, t: Thread, otherwise: Place): Thread {
    if t.key in store then t.(place := Rendering(store[t.key])) else t.(place := otherwise, misses := t.misses + 1)
  }

  /** None is the crash of the whole process. */
  function AfterGo(hosts: seq<string>, store: Store, t: Thread): Option<Thread> {
    match t.place
    case Start => Some(t.(place := if Wanted(hosts, t.req) then FirstLookup else Forwarding))
    case FirstLookup => Some(LookUp(store, t, SecondLookup))
    case SecondLookup => Some(LookUp(store, t, Fetching))
    case Rendering(o) =>
      (match CreateLocalResponse(o)
       case None => None
       case Some(r) => Some(t.(place := Writing(r))))
    case _ => Some(t)
  }

  function Next(hosts: seq<string>, s: State, e: Event): State
    requires Enabled(s, e)
  {
    match e
    case Arrive(id, req) =>
      s.(threads := s.threads[id := Thread(req, ExtractObjectKey(req), Start, 0, true)])
    case Go(id) =>
      (match AfterGo(hosts, s.store, s.threads[id])
       case None => s.(crashed := true)
       case Some(t) => s.(threads := s.threads[id := t]))
    case Fetched(id, net) =>
      var t := s.threads[id];
      var s' := s.(fetches := s.fetches + [FetchRecord(id, t.req, t.key, net)]);
      (match Prefixed(FetchedObject(t.key, net))
       case Err(_) => s'.(threads := s.threads[id := t.(place := Forwarding)])
       case Ok(o) => s'.(threads := s.threads[id := t.(place := Rendering(o))], pending := s.pending + multiset{o}))
    case Wrote(id, ok) =>
      var t := s.threads[id];
      if !ok then s.(threads := s.threads[id := t.(place := Forwarding, clean := false)])
      else s.(threads := s.threads[id := t.(place := Done)],
              sent := s.sent + [Sent(id, t.req, t.key, Full(t.place.response), None, |s.fetches|, t.clean)])
    case Forwarded(id, net) =>
      var t := s.threads[id];
      s.(threads := s.threads[id := t.(place := Done)],
         sent := s.sent + [Sent(id, t.req, t.key, Forward(net), Some(net), |s.fetches|, t.clean)])
    case Land(o, kept) =>
      s.(pending := s.pending - multiset{o}, store := if kept then s.store[o.key := ThroughGob(o)] else s.store)
    case Evict(key) =>
      s.(store := s.store - {key})
  }

  ghost predicate IsRun(hosts: seq<string>, s: State, events: seq<Event>)
    decreases |events|
  {
    events == [] || (Enabled(s, events[0]) && IsRun(hosts, Next(hosts, s, events[0]), events[1..]))
  }

  ghost function Run(hosts: seq<string>, s: State, events: seq<Event>): State
    requires IsRun(hosts, s, events)
    decreases |events|
  {
    if events == [] then s else Run(hosts, Next(hosts, s, events[0]), events[1..])
  }

  // ----- where objects and responses come from -----

  /** A completed fetch under this key produced the object, possibly before a trip through gob. */
  predicate Yields(f: FetchRecord, key: string, o: Object) {
    && f.key == key && FetchedObject(key, f.net).Ok?
    && (o == FetchedObject(key, f.net).value || o == ThroughGob(FetchedObject(key, f.net).value))
  }

  ghost predicate From(fetches: seq<FetchRecord>, key: string, o: Object) {
    exists j :: 0 <= j < |fetches| && Yields(fetches[j], key, o)
  }

  /** A completed fetch under this key saw the network deliver exactly this 200 response. */
  predicate Showed(f: FetchRecord, key: string, r: Response) {
    f.key == key && FetchedObject(key, f.net).Ok? && Forward(f.net) == Full(r) && r.status == STATUS_OK
  }

  ghost predicate Echoes(fetches: seq<FetchRecord>, key: string, r: Response) {
    exists j :: 0 <= j < |fetches| && Showed(fetches[j], key, r)
  }

  ghost predicate StoreInv(store: Store, fetches: seq<FetchRecord>) {
    forall k :: k in store ==> store[k].key == k && From(fetches, k, store[k])
  }

  ghost predicate PendingInv(pending: multiset<Object>, fetches: seq<FetchRecord>) {
    forall o :: o in pending ==> From(fetches, o.key, o)
  }

  /** What holds of one handler whatever the others do. */
  ghost predicate ThreadInv(hosts: seq<string>, t: Thread, fetches: seq<FetchRecord>) {
    && t.key == ExtractObjectKey(t.req)
    && (t.place.FirstLookup? || t.place.SecondLookup? || t.place.Fetching? || t.place.Rendering? || t.place.Writing? ==>
          Wanted(hosts, t.req))
    && (t.place.Start? || t.place.FirstLookup? ==> t.misses == 0)
    && (t.place.SecondLookup? ==> t.misses == 1)
    && (t.place.Fetching? ==> t.misses == 2)
    && (t.place.Rendering? ==> From(fetches, t.key, t.place.found))
    && (t.place.Writing? ==> Echoes(fetches, t.key, t.place.response))
  }

  ghost predicate ThreadsInv(hosts: seq<string>, threads: map<Id, Thread>, fetches: seq<FetchRecord>) {
    forall id :: id in threads ==> ThreadInv(hosts, threads[id], fetches)
  }

  ghost predicate SentInv(hosts: seq<string>, d: Sent, fetches: seq<FetchRecord>) {
    && d.key == ExtractObjectKey(d.req)
    && d.after <= |fetches|
    && (d.via.Some? ==> d.delivery == Forward(d.via.value))
    && (d.via.None? ==> Wanted(hosts, d.req) && d.delivery.Full? && Echoes(fetches[..d.after], d.key, d.delivery.response))
  }

  ghost predicate SentAllInv(hosts: seq<string>, sent: seq<Sent>, fetches: seq<FetchRecord>) {
    forall i :: 0 <= i < |sent| ==> SentInv(hosts, sent[i], fetches)
  }

  ghost predicate Provenance(hosts: seq<string>, s: State) {
    && StoreInv(s.store, s.fetches)
    && PendingInv(s.pending, s.fetches)
    && ThreadsInv(hosts, s.threads, s.fetches)
    && SentAllInv(hosts, s.sent, s.fetches)
  }

  lemma FromGrows(fetches: seq<FetchRecord>, f: FetchRecord, key: string, o: Object)
    requires From(fetches, key, o)
    ensures From(fetches + [f], key, o)
  {
    var j :| 0 <= j < |fetches| && Yields(fetches[j], key, o);
    assert (fetches + [f])[j] == fetches[j];
  }

  lemma EchoesGrows(fetches: seq<FetchRecord>, f: FetchRecord, key: string, r: Response)
    requires Echoes(fetches, key, r)
    ensures Echoes(fetches + [f], key, r)
  {
    var j :| 0 <= j < |fetches| && Showed(fetches[j], key, r);
    assert (fetches + [f])[j] == fetches[j];
  }

  /** Serving an object delivers what the network delivered to the fetch that produced it. */
  lemma RenderedEchoes(fetches: seq<FetchRecord>, key: string, o: Object)
    requires From(fetches, key, o) && CreateLocalResponse(o).Some?
    ensures Echoes(fetches, key, CreateLocalResponse(o).value)
  {
    var j :| 0 <= j < |fetches| && Yields(fetches[j], key, o);
    FetchMeetsForward(key, fetches[j].net);
    assert Showed(fetches[j], key, CreateLocalResponse(o).value);
  }

  lemma Fresh(fetches: seq<FetchRecord>, f: FetchRecord)
    requires FetchedObject(f.key, f.net).Ok?
    ensures From(fetches + [f], f.key, FetchedObject(f.key, f.net).value)
  {
    assert (fetches + [f])[|fetches|] == f;
    assert Yields(f, f.key, FetchedObject(f.key, f.net).value);
  }

  lemma GobOf(fetches: seq<FetchRecord>, key: string, o: Object)
    requires From(fetches, key, o)
    ensures From(fetches, key, ThroughGob(o))
  {
    var j :| 0 <= j < |fetches| && Yields(fetches[j], key, o);
    assert Yields(fetches[j], key, ThroughGob(o));
  }

  lemma FetchesGrow(hosts: seq<string>, s: State, f: FetchRecord)
    requires Provenance(hosts, s)
    ensures Provenance(hosts, s.(fetches := s.fetches + [f]))
  {
    var log := s.fetches + [f];
    forall k | k in s.store ensures From(log, k, s.store[k]) { FromGrows(s.fetches, f, k, s.store[k]); }
    forall o | o in s.pending ensures From(log, o.key, o) { FromGrows(s.fetches, f, o.key, o); }
    forall id | id in s.threads ensures ThreadInv(hosts, s.threads[id], log) { ThreadGrows(hosts, s.threads[id], s.fetches, f); }
    forall i | 0 <= i < |s.sent| ensures SentInv(hosts, s.sent[i], log) {
      assert SentInv(hosts, s.sent[i], s.fetches);
      assert log[..s.sent[i].after] == s.fetches[..s.sent[i].after];
    }
  }

  lemma ThreadGrows(hosts: seq<string>, t: Thread, fetches: seq<FetchRecord>, f: FetchRecord)
    requires ThreadInv(hosts, t, fetches)
    ensures ThreadInv(hosts, t, fetches + [f])
  {
    if t.place.Rendering? { FromGrows(fetches, f, t.key, t.place.found); }
    if t.place.Writing? { EchoesGrows(fetches, f, t.key, t.place.response); }
  }

  lemma ThreadSet(hosts: seq<string>, threads: map<Id, Thread>, id: Id, t: Thread, fetches: seq<FetchRecord>)
    requires ThreadsInv(hosts, threads, fetches) && ThreadInv(hosts, t, fetches)
    ensures ThreadsInv(hosts, threads[id := t], fetches)
  {
  }

  lemma GoKeeps(hosts: seq<string>, store: Store, t: Thread, fetches: seq<FetchRecord>)
    requires StoreInv(store, fetches) && ThreadInv(hosts, t, fetches) && AfterGo(hosts, store, t).Some?
    ensures ThreadInv(hosts, AfterGo(hosts, store, t).value, fetches)
  {
    if t.place.Rendering? { RenderedEchoes(fetches, t.key, t.place.found); }
  }

  lemma FetchKeeps(hosts: seq<string>, s: State, id: Id, net: Network)
    requires Provenance(hosts, s) && Enabled(s, Fetched(id, net))
    ensures Provenance(hosts, Next(hosts, s, Fetched(id, net)))
  {
    var t := s.threads[id];
    var f := FetchRecord(id, t.req, t.key, net);
    var log := s.fetches + [f];
    FetchesGrow(hosts, s, f);
    ThreadGrows(hosts, t, s.fetches, f);
    if FetchedObject(t.key, net).Ok? {
      Fresh(s.fetches, f);
      ThreadSet(hosts, s.threads, id, t.(place := Rendering(FetchedObject(t.key, net).value)), log);
    } else {
      ThreadSet(hosts, s.threads, id, t.(place := Forwarding), log);
    }
  }

  lemma SentKeeps(hosts: seq<string>, sent: seq<Sent>, d: Sent, fetches: seq<FetchRecord>)
    requires SentAllInv(hosts, sent, fetches) && SentInv(hosts, d, fetches)
    ensures SentAllInv(hosts, sent + [d], fetches)
  {
  }

  lemma WriteKeeps(hosts: seq<string>, s: State, id: Id, ok: bool)
    requires Provenance(hosts, s) && Enabled(s, Wrote(id, ok))
    ensures Provenance(hosts, Next(hosts, s, Wrote(id, ok)))
  {
    var t := s.threads[id];
    if ok {
      assert s.fetches[..|s.fetches|] == s.fetches;
      SentKeeps(hosts, s.sent, Sent(id, t.req, t.key, Full(t.place.response), None, |s.fetches|, t.clean), s.fetches);
      ThreadSet(hosts, s.threads, id, t.(place := Done), s.fetches);
    } else {
      ThreadSet(hosts, s.threads, id, t.(place := Forwarding, clean := false), s.fetches);
    }
  }

  lemma ForwardKeeps(hosts: seq<string>, s: State, id: Id, net: Network)
    requires Provenance(hosts, s) && Enabled(s, Forwarded(id, net))
    ensures Provenance(hosts, Next(hosts, s, Forwarded(id, net)))
  {
    var t := s.threads[id];
    SentKeeps(hosts, s.sent, Sent(id, t.req, t.key, Forward(net), Some(net), |s.fetches|, t.clean), s.fetches);
    ThreadSet(hosts, s.threads, id, t.(place := Done), s.fetches);
  }

  lemma ArriveKeeps(hosts: seq<string>, s: State, id: Id, req: Request)
    requires Provenance(hosts, s) && Enabled(s, Arrive(id, req))
    ensures Provenance(hosts, Next(hosts, s, Arrive(id, req)))
  {
    ThreadSet(hosts, s.threads, id, Thread(req, ExtractObjectKey(req), Start, 0, true), s.fetches);
  }

  lemma GoStepKeeps(hosts: seq<string>, s: State, id: Id)
    requires Provenance(hosts, s) && Enabled(s, Go(id))
    ensures Provenance(hosts, Next(hosts, s, Go(id)))
  {
    var t := s.threads[id];
    if AfterGo(hosts, s.store, t).Some? {
      GoKeeps(hosts, s.store, t, s.fetches);
      ThreadSet(hosts, s.threads, id, AfterGo(hosts, s.store, t).value, s.fetches);
    }
  }

  lemma LandKeeps(hosts: seq<string>, s: State, o: Object, kept: bool)
    requires Provenance(hosts, s) && Enabled(s, Land(o, kept))
    ensures Provenance(hosts, Next(hosts, s, Land(o, kept)))
  {
    GobOf(s.fetches, o.key, o);
  }

  lemma StepKeeps(hosts: seq<string>, s: State, e: Event)
    requires Provenance(hosts, s) && Enabled(s, e)
    ensures Provenance(hosts, Next(hosts, s, e))
  {
    match e
    case Arrive(id, req) => ArriveKeeps(hosts, s, id, req);
    case Go(id) => GoStepKeeps(hosts, s, id);
    case Fetched(id, net) => FetchKeeps(hosts, s, id, net);
    case Wrote(id, ok) => WriteKeeps(hosts, s, id, ok);
    case Forwarded(id, net) => ForwardKeeps(hosts, s, id, net);
    case Land(o, kept) => LandKeeps(hosts, s, o, kept);
    case Evict(_) =>
  }

  /** Provenance, over every run and with an origin that may change at will: each object stored or
      pending under a key came from a completed 200 fetch under that key, and so did each response
      not obtained by forwarding, from a fetch completed before it was sent. */
  lemma {:induction false} RunProvenance(hosts: seq<string>, s: State, events: seq<Event>)
    requires Provenance(hosts, s) && IsRun(hosts, s, events)
    ensures Provenance(hosts, Run(hosts, s, events))
    decreases |events|
  {
    if events != [] {
      StepKeeps(hosts, s, events[0]);
      RunProvenance(hosts, Next(hosts, s, events[0]), events[1..]);
    }
  }

  /** Objects reach the pending puts only through a successful fetch, and the store only through a
      pending put; a fetch that failed or got another status changes neither. */
  lemma OnlyFetchesFill(hosts: seq<string>, s: State, e: Event, o: Object, k: string)
    requires Enabled(s, e)
    ensures var s' := Next(hosts, s, e);
            && (s'.pending[o] > s.pending[o] ==>
                  && e.Fetched? && e.net.reply.Ok? && e.net.reply.value.status == STATUS_OK
                  && o.key == s.threads[e.id].key && e.net.reply.value.body == Ok(o.data.value))
            && (k in s'.store && (k !in s.store || s'.store[k] != s.store[k]) ==>
                  e.Land? && e.o in s.pending && e.o.key == k && s'.store[k] == ThroughGob(e.o))
            && (e.Fetched? && FetchedObject(s.threads[e.id].key, e.net).Err? ==>
                  s'.store == s.store && s'.pending == s.pending && s'.threads[e.id].place == Forwarding)
  {
    if e.Fetched? { FetchMeetsForward(s.threads[e.id].key, e.net); }
  }
}
