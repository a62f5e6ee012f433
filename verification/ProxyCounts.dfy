/** How often the handlers of the caching proxy fetch and answer, in every run. */
module ProxyCounts {
  import opened Basics
  import opened Objects
  import opened Adapter
  import opened Fetch
  import opened ProxyRuns

  // ----- each handler fetches at most once and answers at most once -----

  /** A handler that has not come past its fetch. */
  predicate Early(p: Place) {
    p.Start? || p.FirstLookup? || p.SecondLookup? || p.Fetching?
  }

  /** The record belongs to a handler of that request that is past its fetch, with two failed
      lookups behind it. */
  ghost predicate FetcherOf(threads: map<Id, Thread>, f: FetchRecord) {
    && f.id in threads
    && threads[f.id].req == f.req && threads[f.id].key == f.key
    && threads[f.id].misses == 2 && !Early(threads[f.id].place)
  }

  ghost predicate FetchersInv(threads: map<Id, Thread>, fetches: seq<FetchRecord>) {
    forall i :: 0 <= i < |fetches| ==> FetcherOf(threads, fetches[i])
  }

  ghost predicate DistinctFetchers(fetches: seq<FetchRecord>) {
    forall i, j :: 0 <= i < j < |fetches| ==> fetches[i].id != fetches[j].id
  }

  ghost predicate ReceiverOf(threads: map<Id, Thread>, d: Sent) {
    d.id in threads && threads[d.id].req == d.req && threads[d.id].place.Done? && threads[d.id].clean == d.clean
  }

  ghost predicate ReceiversInv(threads: map<Id, Thread>, sent: seq<Sent>) {
    forall i :: 0 <= i < |sent| ==> ReceiverOf(threads, sent[i])
  }

  ghost predicate DistinctReceivers(sent: seq<Sent>) {
    forall i, j :: 0 <= i < j < |sent| ==> sent[i].id != sent[j].id
  }

  ghost predicate Answered(sent: seq<Sent>, id: Id) {
    exists i :: 0 <= i < |sent| && sent[i].id == id
  }

  ghost predicate DoneInv(threads: map<Id, Thread>, sent: seq<Sent>) {
    forall id :: id in threads && threads[id].place.Done? ==> Answered(sent, id)
  }

  /** Failed lookups are counted as they happen. */
  predicate MissesMatch(t: Thread) {
    match t.place
    case Start => t.misses == 0
    case FirstLookup => t.misses == 0
    case SecondLookup => t.misses == 1
    case Fetching => t.misses == 2
    case _ => true
  }

  ghost predicate MissesInv(threads: map<Id, Thread>) {
    forall id :: id in threads ==> MissesMatch(threads[id])
  }

  ghost predicate Counts(s: State) {
    && MissesInv(s.threads)
    && FetchersInv(s.threads, s.fetches) && DistinctFetchers(s.fetches)
    && ReceiversInv(s.threads, s.sent) && DistinctReceivers(s.sent) && DoneInv(s.threads, s.sent)
  }

  /** A handler moves from one place to the next. */
  predicate Moves(t: Thread, t': Thread) {
    && t'.req == t.req && t'.key == t.key && !t.place.Done?
    && MissesMatch(t')
    && (!Early(t.place) ==> !Early(t'.place) && t'.misses == t.misses)
  }

  lemma MovedFetchers(threads: map<Id, Thread>, id: Id, t: Thread, fetches: seq<FetchRecord>)
    requires FetchersInv(threads, fetches) && id in threads && Moves(threads[id], t)
    ensures FetchersInv(threads[id := t], fetches)
  {
    forall i | 0 <= i < |fetches| ensures FetcherOf(threads[id := t], fetches[i]) {
      assert FetcherOf(threads, fetches[i]);
    }
  }

  lemma MovedReceivers(threads: map<Id, Thread>, id: Id, t: Thread, sent: seq<Sent>)
    requires ReceiversInv(threads, sent) && id in threads && !threads[id].place.Done?
    ensures ReceiversInv(threads[id := t], sent)
    ensures forall i :: 0 <= i < |sent| ==> sent[i].id != id
  {
    forall i | 0 <= i < |sent|
      ensures ReceiverOf(threads[id := t], sent[i]) && sent[i].id != id
    {
      assert ReceiverOf(threads, sent[i]);
    }
  }

  /** A handler moves on without fetching or answering. */
  lemma MovedCounts(s: State, id: Id, t: Thread)
    requires Counts(s) && id in s.threads && Moves(s.threads[id], t) && !t.place.Done?
    ensures Counts(s.(threads := s.threads[id := t]))
  {
    MovedFetchers(s.threads, id, t, s.fetches);
    MovedReceivers(s.threads, id, t, s.sent);
  }

  lemma AnsweredCounts(s: State, id: Id, t: Thread, d: Sent)
    requires Counts(s) && id in s.threads && Moves(s.threads[id], t)
    requires t.place.Done? && d.id == id && d.req == t.req && d.clean == t.clean
    ensures Counts(s.(threads := s.threads[id := t], sent := s.sent + [d]))
  {
    MovedFetchers(s.threads, id, t, s.fetches);
    MovedReceivers(s.threads, id, t, s.sent);
    var sent := s.sent + [d];
    assert sent[|s.sent|] == d;
    forall k | k in s.threads[id := t] && s.threads[id := t][k].place.Done?
      ensures Answered(sent, k)
    {
      if k != id {
        var i :| 0 <= i < |s.sent| && s.sent[i].id == k;
        assert sent[i].id == k;
      }
    }
  }

  lemma FetchedCounts(s: State, id: Id, t: Thread, f: FetchRecord)
    requires Counts(s) && id in s.threads && s.threads[id].place.Fetching?
    requires Moves(s.threads[id], t) && t.misses == 2 && !Early(t.place) && !t.place.Done?
    requires f.id == id && f.req == t.req && f.key == t.key
    ensures Counts(s.(threads := s.threads[id := t], fetches := s.fetches + [f]))
  {
    MovedCounts(s, id, t);
    forall i | 0 <= i < |s.fetches| ensures s.fetches[i].id != id {
      assert FetcherOf(s.threads, s.fetches[i]);
    }
  }

  lemma ArrivedCounts(s: State, id: Id, t: Thread)
    requires Counts(s) && id !in s.threads && t.place.Start? && t.misses == 0
    ensures Counts(s.(threads := s.threads[id := t]))
  {
    forall i | 0 <= i < |s.fetches| ensures FetcherOf(s.threads[id := t], s.fetches[i]) {
      assert FetcherOf(s.threads, s.fetches[i]);
    }
    forall i | 0 <= i < |s.sent| ensures ReceiverOf(s.threads[id := t], s.sent[i]) {
      assert ReceiverOf(s.threads, s.sent[i]);
    }
  }

  lemma GoCounts(hosts: seq<string>, s: State, id: Id)
    requires Counts(s) && Enabled(s, Go(id))
    ensures Counts(Next(hosts, s, Go(id)))
  {
    if AfterGo(hosts, s.store, s.threads[id]).Some? {
      MovedCounts(s, id, AfterGo(hosts, s.store, s.threads[id]).value);
    }
  }

  lemma FetchCounts(hosts: seq<string>, s: State, id: Id, net: Network)
    requires Counts(s) && Enabled(s, Fetched(id, net))
    ensures Counts(Next(hosts, s, Fetched(id, net)))
  {
    var t := s.threads[id];
    var f := FetchRecord(id, t.req, t.key, net);
    match Prefixed(FetchedObject(t.key, net))
    case Err(_) => FetchedCounts(s, id, t.(place := Forwarding), f);
    case Ok(o) => FetchedCounts(s, id, t.(place := Rendering(o)), f);
  }

  lemma StepCounts(hosts: seq<string>, s: State, e: Event)
    requires Counts(s) && Enabled(s, e)
    ensures Counts(Next(hosts, s, e))
  {
    match e
    case Arrive(id, req) => ArrivedCounts(s, id, Thread(req, ExtractObjectKey(req), Start, 0, true));
    case Go(id) => GoCounts(hosts, s, id);
    case Fetched(id, net) => FetchCounts(hosts, s, id, net);
    case Wrote(id, ok) =>
      var t := s.threads[id];
      if ok {
        AnsweredCounts(s, id, t.(place := Done), Sent(id, t.req, t.key, Full(t.place.response), None, |s.fetches|, t.clean));
      } else {
        MovedCounts(s, id, t.(place := Forwarding, clean := false));
      }
    case Forwarded(id, net) =>
      var t := s.threads[id];
      AnsweredCounts(s, id, t.(place := Done), Sent(id, t.req, t.key, Forward(net), Some(net), |s.fetches|, t.clean));
    case Land(_, _) =>
    case Evict(_) =>
  }

  /** In every run each handler calls its initializer at most once, and only after two failed
      lookups, and a handler is finished exactly when its client was answered, once. */
  lemma {:induction false} RunCounts(hosts: seq<string>, s: State, events: seq<Event>)
    requires Counts(s) && IsRun(hosts, s, events)
    ensures Counts(Run(hosts, s, events))
    decreases |events|
  {
    if events != [] {
      StepCounts(hosts, s, events[0]);
      RunCounts(hosts, Next(hosts, s, events[0]), events[1..]);
    }
  }
}
