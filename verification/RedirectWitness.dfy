/** Why transparency needs its two conditions: a run in which a full map, and one in which a shared
    source port, make the proxy be told the destination of another client. In both the config is
    published and every redirected connection goes to the proxy's port. */
module RedirectWitness {
  import opened Basics
  import opened Wire
  import opened BpfMap
  import opened Hooks
  import opened Redirect
  import opened RedirectHistory

  /** The proxy of main.go on its port, as process 7. */
  const CONFIG := Config(18000, 7)

  /** Process 1 connects to k through the proxy, after publication. */
  function Through(k: Connect): Hop {
    Hop(1, AskOf(k), Some(CONFIG.proxyPort), true)
  }

  /** The same address, but a port that is not intercepted. */
  function Elsewhere(k: Connect): Connect {
    k.(port := Htons(LittleEndian, 80) as U32)
  }

  lemma ElsewherePasses(k: Connect)
    ensures !Eligible(Elsewhere(k))
  {
  }

  lemma Grow(s: State, e: Event) returns (s': State)
    requires Reachable(s) && WellPosed(e) && Enabled(s.core, e)
    ensures Reachable(s') && s' == Apply(s, e)
  {
    s' := Apply(s, e);
    var ss: seq<State>, es: seq<Event> :| IsRun(ss, es) && ss[|es|] == s;
    var ss', es' := ss + [s'], es + [e];
    assert IsRun(ss', es') && ss'[|es'|] == s';
  }

  /** Nothing is in flight, nobody waits, and the config is published. */
  ghost predicate Quiet(k: Core) {
    k.conns == map[] && k.ests == map[] && k.queries == map[] && k.waiting == map[] && k.holder == map[]
    && k.published && k.maps.config == CONFIG
  }

  lemma Started() returns (s: State)
    ensures Reachable(s) && Quiet(s.core)
    ensures s.core == INITIAL.core.(maps := EMPTY_MAPS.(config := CONFIG), published := true)
    ensures s.history == INITIAL.history
  {
    var ss, es: seq<Event> := [INITIAL], [];
    assert IsRun(ss, es) && ss[|es|] == INITIAL;
    s := Grow(INITIAL, Publish(CONFIG));
  }

  /** A complete redirected connect, from a quiet state. */
  lemma Redirected(s: State, c: Cookie, k: Connect) returns (s': State)
    requires Reachable(s) && Quiet(s.core) && c !in s.core.from && Eligible(k)
    ensures Reachable(s')
    ensures s'.core == s.core.(
      maps := s.core.maps.(socks := Update(s.core.maps.socks, MAX_CONNECTIONS, c, RecordOf(k))),
      asks := s.core.asks[c := AskOf(k)], redirected := s.core.redirected + {c},
      lost := s'.core.lost)
    ensures s'.history.hops == s.history.hops + {Through(k)}
    ensures c in s'.core.lost <==> c !in s'.core.maps.socks
  {
    var s1 := Grow(s, CallConnect(c, 1, AskOf(k)));
    s' := Finish(s1, c, AskOf(k));
    assert s.core.redirected - {c} + {c} == s.core.redirected + {c};
  }

  lemma Finish(s: State, c: Cookie, ask: Ask) returns (s': State)
    requires Reachable(s) && ask.eligible && s.core.conns == map[c := Check(1, ask)]
    requires s.core.published && s.core.maps.config == CONFIG
    ensures Reachable(s')
    ensures s'.core == s.core.(
      conns := map[],
      maps := s.core.maps.(socks := Update(s.core.maps.socks, MAX_CONNECTIONS, c, ask.record)),
      redirected := s.core.redirected + {c}, lost := s'.core.lost)
    ensures s'.history.hops == s.history.hops + {Hop(1, ask, Some(CONFIG.proxyPort), true)}
    ensures c in s'.core.lost <==> c !in s'.core.maps.socks
  {
    var s1 := Grow(s, ConnStep(c));
    assert s1.core.conns[c] == Store(1, ask, true) && s1.history == s.history;
    var s2 := Grow(s1, ConnStep(c));
    assert s2.core.conns[c] == Write(1, ask, true) && s2.history.hops == s.history.hops;
    assert s2.core.maps.config == CONFIG;
    s' := Grow(s2, ConnStep(c));
    assert s'.core.conns == map[];
  }

  /** A complete connect that the filters let through. */
  lemma PassedOver(s: State, c: Cookie, k: Connect) returns (s': State)
    requires Reachable(s) && Quiet(s.core) && c !in s.core.from && !Eligible(k)
    ensures Reachable(s')
    ensures s'.core == s.core.(asks := s.core.asks[c := AskOf(k)], redirected := s.core.redirected - {c})
    ensures s'.history.stored == s.history.stored
  {
    var s1 := Grow(s, CallConnect(c, 1, AskOf(k)));
    s' := Grow(s1, ConnStep(c));
    assert s'.core.conns == map[];
  }

  /** A complete established call on a socket with a record that no longer goes to the proxy. */
  lemma BindsStale(s: State, c: Cookie, p: Port) returns (s': State)
    requires Reachable(s) && Quiet(s.core) && c !in s.core.from && c in s.core.maps.socks && c !in s.core.redirected
    requires s.core.maps.ports == map[]
    ensures Reachable(s') && Quiet(s'.core)
    ensures s'.core.from == s.core.from[c := p] && s'.core.maps.ports == map[p := c]
    ensures s'.core.maps.socks == s.core.maps.socks
  {
    var s1 := Grow(s, CallEstablished(c, p));
    var s2 := Grow(s1, EstStep(c));
    assert s2.core.ests[c] == Bind;
    s' := Grow(s2, EstStep(c));
    assert s'.core.ests == map[] && s'.core.holder == map[];
  }

  /** Socket 0 is redirected, gives up before it establishes, and connects to another port. */
  lemma LeftOver(a: Connect) returns (s: State)
    requires Eligible(a)
    ensures Reachable(s) && Quiet(s.core)
    ensures s.core.from == map[] && s.core.maps.ports == map[] && 0 !in s.core.redirected
    ensures s.core.maps.socks == map[0 := RecordOf(a)]
  {
    var s0 := Started();
    var s1 := Redirected(s0, 0, a);
    assert Quiet(s1.core);
    ElsewherePasses(a);
    s := PassedOver(s1, 0, Elsewhere(a));
  }

  /** It establishes there, and leaves its source port bound. */
  lemma StaleBinding(a: Connect) returns (s: State)
    requires Eligible(a)
    ensures Reachable(s) && Quiet(s.core)
    ensures s.core.from == map[0 := 5] && s.core.maps.ports == map[5 := 0]
    ensures s.core.maps.socks == map[0 := RecordOf(a)]
  {
    var s1 := LeftOver(a);
    s := BindsStale(s1, 0, 5);
  }

  /** Further clients fill the map without establishing. */
  lemma {:induction false} Fill(s: State, n: nat) returns (s': State)
    requires Reachable(s) && Quiet(s.core) && |s.core.maps.socks| + n <= MAX_CONNECTIONS
    requires s.core.from == map[0 := 5]
    requires forall c :: c in s.core.maps.socks ==> c == 0
    requires exists k :: Eligible(k)
    ensures Reachable(s') && Quiet(s'.core) && s'.core.from == s.core.from
    ensures s'.core.maps.ports == s.core.maps.ports && |s'.core.maps.socks| == |s.core.maps.socks| + n
    ensures forall c :: c in s'.core.maps.socks ==> c <= n
    ensures forall c :: c in s.core.maps.socks ==> c in s'.core.maps.socks && s'.core.maps.socks[c] == s.core.maps.socks[c]
  {
    if n == 0 {
      s' := s;
    } else {
      var s1 := Fill(s, n - 1);
      var k :| Eligible(k);
      s' := Redirected(s1, n, k);
    }
  }

  /** Once map_socks is full, a client is still redirected but not recorded; on a port that an
      earlier socket left bound, the proxy is then told that socket's destination. */
  lemma Misdirected(a: Connect, b: Connect) returns (s: State, ans: Answer)
    requires Eligible(a) && Eligible(b)
    ensures Reachable(s) && s.core.published && s.core.maps.config == CONFIG
    ensures ans in s.history.answers && Through(b) in s.history.hops
    ensures ans.reply.Some? && Reply(ans.reply.value) == Asked(a)
    ensures ans.client in s.core.lost && ans.client in s.core.asks && s.core.asks[ans.client].k == b
  {
    var c: Cookie := MAX_CONNECTIONS;
    var s0 := StaleBinding(a);
    var s1 := Fill(s0, MAX_CONNECTIONS - 1);
    var s2 := Redirected(s1, c, b);
    assert c !in s2.core.maps.socks;
    var s3 := Grow(s2, CallEstablished(c, 5));
    var s4 := Grow(s3, EstStep(c));
    assert c in s4.core.settled && 5 in s4.core.waiting;
    s, ans := Asks(s4, c, 5, 0);
    ReplyOfRecord(a);
  }

  /** A query that finds key bound to the port copies out key's record. */
  lemma Asks(s: State, c: Cookie, p: Port, key: Cookie) returns (s': State, ans: Answer)
    requires Reachable(s) && p in s.core.waiting && s.core.waiting[p] == c && c in s.core.settled
    requires Bound(s.core, p, key) && key in s.core.maps.socks
    ensures Reachable(s') && s'.core.asks == s.core.asks && s'.core.lost == s.core.lost
    ensures s'.core.published == s.core.published && s'.core.maps.config == s.core.maps.config
    ensures s'.history.hops == s.history.hops && ans in s'.history.answers
    ensures ans == Answer(p, c, SOCKADDR_SIZE, Some(key), Some(s.core.maps.socks[key]))
  {
    var s1 := Grow(s, CallQuery(p, SOCKADDR_SIZE));
    var s2 := Grow(s1, QueryStep(c));
    assert s2.core.queries[c] == FindSock(p, SOCKADDR_SIZE, key);
    var s3 := Grow(s2, QueryStep(c));
    assert s3.core.queries[c] == Copy(p, SOCKADDR_SIZE, key, s.core.maps.socks[key]);
    s' := Grow(s3, QueryStep(c));
    ans := Answer(p, c, SOCKADDR_SIZE, Some(key), Some(s.core.maps.socks[key]));
  }

  // ----- a shared source port -----

  /** A continuation by events that socket pairs alone allow. */
  ghost predicate Follows(s: State, es: seq<Event>, s': State)
    decreases |es|
  {
    if es == [] then s' == s else Possible(s.core, es[0]) && Follows(Apply(s, es[0]), es[1..], s')
  }

  lemma Before(s: State, e: Event, es: seq<Event>, s': State)
    requires Possible(s.core, e) && Follows(Apply(s, e), es, s')
    ensures Follows(s, [e] + es, s')
  {
    assert ([e] + es)[1..] == es;
  }

  /** The established call of a socket c with a record left over, going elsewhere from port p. */
  function Shares(c: Cookie, p: Port): seq<Event> {
    [CallEstablished(c, p), EstStep(c), EstStep(c)]
  }

  /** The proxy asks about the client w on port p. */
  function AsksAbout(w: Cookie, p: Port): seq<Event> {
    [CallQuery(p, SOCKADDR_SIZE), QueryStep(w), QueryStep(w), QueryStep(w)]
  }

  /** From a state whose binding of p is key, the answer about the client waiting there is key's. */
  lemma AskedOf(s: State, w: Cookie, p: Port, key: Cookie) returns (s': State)
    requires p in s.core.waiting && s.core.waiting[p] == w && w in s.core.settled
    requires Bound(s.core, p, key) && key in s.core.maps.socks
    ensures Follows(s, AsksAbout(w, p), s')
    ensures Answer(p, w, SOCKADDR_SIZE, Some(key), Some(s.core.maps.socks[key])) in s'.history.answers
  {
    var s1 := Apply(s, CallQuery(p, SOCKADDR_SIZE));
    var s2 := Apply(s1, QueryStep(w));
    assert s2.core.queries[w] == FindSock(p, SOCKADDR_SIZE, key);
    var s3 := Apply(s2, QueryStep(w));
    assert s3.core.queries[w] == Copy(p, SOCKADDR_SIZE, key, s.core.maps.socks[key]);
    s' := Apply(s3, QueryStep(w));
    Before(s3, QueryStep(w), [], s');
    Before(s2, QueryStep(w), [QueryStep(w)], s');
    Before(s1, QueryStep(w), [QueryStep(w), QueryStep(w)], s');
    Before(s, CallQuery(p, SOCKADDR_SIZE), [QueryStep(w), QueryStep(w), QueryStep(w)], s');
  }

  ghost predicate Stale(k: Core, c: Cookie) {
    c in k.maps.socks && c !in k.redirected && c !in k.from && c !in k.conns
  }

  /** The stale socket takes over the binding of the port and leaves the rest as it was. */
  lemma Overbinds(s: State, c: Cookie, p: Port) returns (s': State)
    requires Stale(s.core, c) && |s.core.maps.ports| < MAX_CONNECTIONS
    ensures Possible(s.core, CallEstablished(c, p)) && Follows(s, Shares(c, p), s')
    ensures Bound(s'.core, p, c) && s'.core.maps.socks == s.core.maps.socks
    ensures s'.core.waiting == s.core.waiting && s.core.settled <= s'.core.settled
  {
    var s1 := Apply(s, CallEstablished(c, p));
    var s2 := Apply(s1, EstStep(c));
    assert s2.core.ests[c] == Bind && s2.core.from[c] == p;
    s' := Apply(s2, EstStep(c));
    Before(s2, EstStep(c), [], s');
    Before(s1, EstStep(c), [EstStep(c)], s');
    Before(s, CallEstablished(c, p), [EstStep(c), EstStep(c)], s');
  }

  /** Why Enabled asks for more than socket pairs. In any reachable state let a client wait on port p,
      and let a socket with a record left over establish elsewhere from the same port number. The
      proxy is then told the stale socket's destination: the right one exactly when both sockets
      asked for the same. */
  lemma SharedPort(s: State, p: Port, c: Cookie) returns (s1: State, s2: State, ans: Answer)
    requires Reachable(s) && Stale(s.core, c) && p in s.core.waiting && s.core.waiting[p] in s.core.settled
    ensures Possible(s.core, CallEstablished(c, p)) && !Enabled(s.core, CallEstablished(c, p))
    ensures var w := s.core.waiting[p];
            && Follows(s, Shares(c, p), s1) && Follows(s1, AsksAbout(w, p), s2)
            && ans in s2.history.answers && ans.client == w && ans.key == Some(c) && ans.reply.Some?
            && w in s.core.asks && c in s.history.stored
            && (Reply(ans.reply.value) == Asked(s.core.asks[w].k)
                <==> Asked(s.history.stored[c].k) == Asked(s.core.asks[w].k))
  {
    ReachableInv(s);
    ReachableTraced(s);
    AsksAreReal(s);
    PortsHaveRoom(s.core.maps.ports);
    var w := s.core.waiting[p];
    assert From(s.core, w, p) && HeldBy(s.core, p, w);
    s1 := Overbinds(s, c, p);
    s2 := AskedOf(s1, w, p, c);
    ans := Answer(p, w, SOCKADDR_SIZE, Some(c), Some(s.core.maps.socks[c]));
    ReplyOfRecord(s.history.stored[c].k);
  }

  /** Such a state is reachable with two records in map_socks. */
  lemma SharedPortReachable(a: Connect, b: Connect) returns (s: State)
    requires Eligible(a) && Eligible(b)
    ensures Reachable(s) && s.core.published && s.core.maps.config == CONFIG && |s.core.maps.socks| == 2
    ensures Stale(s.core, 0) && s.core.maps.socks[0] == RecordOf(a)
    ensures 5 in s.core.waiting && s.core.waiting[5] == 1 && 1 in s.core.settled && 1 !in s.core.lost
    ensures 1 in s.core.asks && s.core.asks[1].k == b && Through(b) in s.history.hops
  {
    var s0 := LeftOver(a);
    var s1 := Redirected(s0, 1, b);
    assert 1 in s1.core.maps.socks && |s1.core.maps.socks| == 2;
    var s2 := Grow(s1, CallEstablished(1, 5));
    var s3 := Grow(s2, EstStep(1));
    assert s3.core.ests[1] == Bind;
    s := Grow(s3, EstStep(1));
  }
}
