/** What the redirect protocol promises over every run, and how the programs of Hooks relate to
    the steps of Redirect. */
module RedirectTheorems {
  import opened Basics
  import opened Wire
  import opened BpfMap
  import opened Hooks
  import opened Redirect
  import opened RedirectHistory

  // ----- transparency -----

  /** Whatever the interleaving: an answered query returns exactly what the socket whose cookie was
      found under the port asked for when it last had a record stored, and that socket is the
      client itself exactly when the client's own record was accepted; otherwise it is another one
      that established from the same port. A client whose record was accepted is answered exactly
      when the caller gives room for a sockaddr_in, and then with what it last passed to connect;
      a smaller buffer is filled for nobody. */
  lemma Transparency(s: State, a: Answer)
    requires Reachable(s) && a in s.history.answers
    ensures From(s.core, a.client, a.port) && a.client in s.core.redirected && a.client in s.core.asks
    ensures a.reply.Some? ==>
              && a.room >= SOCKADDR_SIZE && a.key.Some? && From(s.core, a.key.value, a.port)
              && a.key.value in s.history.stored && Reply(a.reply.value) == Asked(s.history.stored[a.key.value].k)
              && (a.key.value == a.client <==> a.client !in s.core.lost)
    ensures a.client !in s.core.lost ==>
              && (a.reply.Some? <==> a.room >= SOCKADDR_SIZE)
              && (a.reply.Some? ==> Reply(a.reply.value) == Asked(s.core.asks[a.client].k))
  {
    ReachableInv(s);
    ReachableTraced(s);
    AsksAreReal(s);
    assert AnswerOk(s.core, a);
    ReplyOfRecord(s.core.asks[a.client].k);
    if a.reply.Some? { ReplyOfRecord(s.history.stored[a.key.value].k); }
  }

  /** A record is refused exactly when the map is full of records not yet consumed. */
  lemma LostOnlyWhenFull(s: State, c: Cookie)
    requires Reachable(s) && c in s.core.conns && s.core.conns[c].Store?
    ensures c in NextConn(s.core, c).lost <==>
            c !in s.core.maps.socks && s.history.inserted - s.history.consumed == MAX_CONNECTIONS
  {
    ReachableInv(s);
  }

  /** A run in which map_socks never holds MAX_CONNECTIONS records that were not consumed. */
  ghost predicate NeverFull(ss: seq<State>) {
    forall i :: 0 <= i < |ss| ==> ss[i].history.inserted - ss[i].history.consumed < MAX_CONNECTIONS
  }

  lemma NothingLost(k: Core, e: Event)
    requires Enabled(k, e) && k.lost == {} && |k.maps.socks| < MAX_CONNECTIONS
    ensures Next(k, e).lost == {}
  {
    match e
    case ConnStep(c) => ConnLosesNothing(k, c, k.conns[c]);
    case QueryStep(c) => QueryLeaves(k, c, k.queries[c]);
    case EstStep(c) => EstLosesNothing(k, c, k.from[c]);
    case _ =>
  }

  lemma ConnLosesNothing(k: Core, c: Cookie, n: Conn)
    requires c in k.conns && n == k.conns[c] && k.lost == {} && |k.maps.socks| < MAX_CONNECTIONS
    ensures NextConn(k, c).lost == {}
  {
    match n
    case Check(_, _) =>
    case Store(_, _, _) => assert c in ConnMaps(k.maps, c, n).socks;
    case Write(_, _, _) =>
  }

  lemma EstLosesNothing(k: Core, c: Cookie, p: Port)
    requires c in k.ests
    ensures NextEst(k, c, p).lost == k.lost
  {
    var k' := k.(maps := EstMaps(k.maps, c, p, k.ests[c]));
    assert Settle(k', c, p).lost == k.lost;
  }

  lemma {:induction false} RunLosesNothing(ss: seq<State>, es: seq<Event>, i: nat)
    requires IsRun(ss, es) && NeverFull(ss) && i < |ss|
    ensures ss[i].core.lost == {}
  {
    if i > 0 {
      RunLosesNothing(ss, es, i - 1);
      RunInv(ss, es, i - 1);
      assert Counted(ss[i - 1].core, ss[i - 1].history);
      NothingLost(ss[i - 1].core, es[i - 1]);
    }
  }

  /** In such a run, however long and however many connections it has served, no record is lost and
      every query with room is answered with what its client last passed to connect. */
  lemma NobodyLost(ss: seq<State>, es: seq<Event>, i: nat, a: Answer)
    requires IsRun(ss, es) && NeverFull(ss) && i < |ss|
    requires a in ss[i].history.answers && a.room >= SOCKADDR_SIZE
    ensures ss[i].core.lost == {} && a.client in ss[i].core.asks
    ensures a.reply.Some? && a.key == Some(a.client) && Reply(a.reply.value) == Asked(ss[i].core.asks[a.client].k)
  {
    RunLosesNothing(ss, es, i);
    assert Reachable(ss[i]) by {
      assert IsRun(ss[..i + 1], es[..i]) && ss[..i + 1][|es[..i]|] == ss[i];
    }
    Transparency(ss[i], a);
  }

  // ----- the two maps -----

  /** map_ports is injective, every cookie in it has a record, and neither map overflows;
      map_socks holds what was inserted and not yet consumed. */
  lemma MapsAgree(s: State)
    requires Reachable(s)
    ensures var m := s.core.maps;
            && (forall p, q :: p in m.ports && q in m.ports && m.ports[p] == m.ports[q] ==> p == q)
            && (forall p :: p in m.ports ==> m.ports[p] in m.socks)
            && |m.ports| < MAX_CONNECTIONS
            && |m.socks| == s.history.inserted - s.history.consumed <= MAX_CONNECTIONS
  {
    ReachableInv(s);
    PortsHaveRoom(s.core.maps.ports);
    var m := s.core.maps;
    forall p, q | p in m.ports && q in m.ports && m.ports[p] == m.ports[q]
      ensures p == q
    {
      assert From(s.core, m.ports[p], p) && From(s.core, m.ports[q], q);
    }
  }

  /** The second delete of a query removes a record no port refers to any more, and for a client
      whose own record was accepted it is that client's. */
  lemma DeletesOnlyItsOwn(s: State, c: Cookie)
    requires Reachable(s) && c in s.core.queries && s.core.queries[c].DropSock?
    ensures var key := s.core.queries[c].key;
            && key in s.core.maps.socks
            && (forall p :: p in s.core.maps.ports ==> s.core.maps.ports[p] != key)
            && (c !in s.core.lost ==> key == c)
  {
    ReachableInv(s);
    assert QueryOk(s.core, c, s.core.queries[c]);
    var key := s.core.queries[c].key;
    forall p | p in s.core.maps.ports
      ensures s.core.maps.ports[p] != key
    {
      assert s.core.maps.ports[p] == key ==> From(s.core, key, p);
    }
  }

  // ----- no loops -----

  /** Where a finished connect really went. */
  function Arrives(h: Hop): Endpoint {
    match h.proxyPort
    case None => Asked(h.ask.k)
    case Some(port) => Asked(Overwritten(Config(port, 0), h.ask.k))
  }

  /** Once the config is published: a connect is redirected exactly when it asks for the intercepted
      port over TCP and IPv4 and is made by another process than the proxy; then it goes to the
      proxy, and otherwise where it asked. So the proxy's own connects are never redirected. */
  lemma NoLoop(s: State, h: Hop)
    requires Reachable(s) && h in s.history.hops && h.late
    ensures Arrives(h) == if Eligible(h.ask.k) && h.tgid != s.core.maps.config.proxyPid
                          then Endpoint(127, 0, 0, 1, s.core.maps.config.proxyPort) else Asked(h.ask.k)
    ensures h.proxyPort.Some? ==> Asked(h.ask.k).port == HTTP_PORT
  {
    ReachableTraced(s);
    AsksAreReal(s);
    assert HopExact(s.core, h);
    if h.proxyPort.Some? {
      OverwrittenGoesToProxy(Config(h.proxyPort.value, 0), h.ask.k);
      EligiblePort(h.ask.k);
    }
  }

  /** A connect whose program read the config before it was published goes where it asked, or, if
      eligible, to port 0 of the local host, unless publication fell inside the call. */
  lemma BeforePublication(s: State, h: Hop)
    requires Reachable(s) && h in s.history.hops && !h.late
    ensures !Eligible(h.ask.k) || h.tgid == 0 ==> Arrives(h) == Asked(h.ask.k)
    ensures Eligible(h.ask.k) && h.tgid != 0 ==>
              || Arrives(h) == Endpoint(127, 0, 0, 1, 0)
              || (s.core.published && Arrives(h) == Endpoint(127, 0, 0, 1, s.core.maps.config.proxyPort))
  {
    ReachableTraced(s);
    AsksAreReal(s);
    assert HopExact(s.core, h);
    if h.proxyPort.Some? { OverwrittenGoesToProxy(Config(h.proxyPort.value, 0), h.ask.k); }
  }

  /** A connect by the proxy that began after publication ends at its first step, and changes
      neither the maps nor what is redirected. */
  lemma ProxyTouchesNothing(s: State, c: Cookie)
    requires Reachable(s) && s.core.published && c in s.core.conns
    requires s.core.conns[c].tgid == s.core.maps.config.proxyPid && (s.core.conns[c].Check? || s.core.conns[c].late)
    ensures s.core.conns[c].Check?
    ensures var k' := NextConn(s.core, c);
            k'.maps == s.core.maps && c !in k'.conns && c !in k'.redirected && k'.redirected == s.core.redirected
  {
    ReachableInv(s);
    assert ConnOk(s.core, c, s.core.conns[c]);
  }

  lemma EligiblePort(k: Connect)
    requires Eligible(k)
    ensures Asked(k).port == HTTP_PORT
  {
  }

  // ----- a call that runs undisturbed is one run of the program -----

  function RunConn(s: State, c: Cookie, steps: nat): State
    decreases steps
  {
    if steps == 0 || c !in s.core.conns then s else RunConn(Apply(s, ConnStep(c)), c, steps - 1)
  }

  function RunEst(k: Core, c: Cookie, p: Port, steps: nat): Core
    decreases steps
  {
    if steps == 0 || c !in k.ests then k else RunEst(NextEst(k, c, p), c, p, steps - 1)
  }

  function RunQuery(s: State, c: Cookie, steps: nat): State
    decreases steps
  {
    if steps == 0 || c !in s.core.queries then s else RunQuery(Apply(s, QueryStep(c)), c, steps - 1)
  }

  /** cg_connect4 takes at most three steps, and alone they do to the maps what the program does; the
      hop recorded is the destination that the program leaves in the context. */
  lemma SoloConnect(s: State, c: Cookie, pidTgid: U64, n: Connect)
    requires Enabled(s.core, CallConnect(c, Tgid(pidTgid), AskOf(n)))
    ensures var s' := RunConn(Apply(s, CallConnect(c, Tgid(pidTgid), AskOf(n))), c, 3);
            var (maps, left) := Connect4Effect(s.core.maps, pidTgid, c, n);
            var hop := Hop(Tgid(pidTgid), AskOf(n),
                           if Intercepts(s.core.maps.config, pidTgid, n) then Some(s.core.maps.config.proxyPort) else None,
                           s.core.published);
            && c !in s'.core.conns && s'.core.maps == maps
            && (c in s'.core.redirected <==> Intercepts(s.core.maps.config, pidTgid, n))
            && s'.history.hops == s.history.hops + {hop} && Arrives(hop) == Asked(left)
  {
    AloneConn(Apply(s, CallConnect(c, Tgid(pidTgid), AskOf(n))), c, Tgid(pidTgid), AskOf(n));
    OverwrittenGoesToProxy(s.core.maps.config, n);
    OverwrittenGoesToProxy(Config(s.core.maps.config.proxyPort, 0), n);
  }

  lemma AloneConn(s: State, c: Cookie, tgid: Pid, ask: Ask)
    requires c in s.core.conns && s.core.conns[c] == Check(tgid, ask) && c !in s.core.redirected
    ensures var k, s' := s.core, RunConn(s, c, 3);
            && c !in s'.core.conns && (c in s'.core.redirected <==> Passes(k, tgid, ask))
            && s'.core.maps == (if Passes(k, tgid, ask)
                                then k.maps.(socks := Update(k.maps.socks, MAX_CONNECTIONS, c, ask.record)) else k.maps)
            && s'.history.hops == s.history.hops
                 + {Hop(tgid, ask, if Passes(k, tgid, ask) then Some(k.maps.config.proxyPort) else None, k.published)}
  {
    var s1 := Apply(s, ConnStep(c));
    assert RunConn(s, c, 3) == RunConn(s1, c, 2);
    if Passes(s.core, tgid, ask) {
      assert s1.core.conns[c] == Store(tgid, ask, s.core.published) && s1.history.hops == s.history.hops;
      var s2 := Apply(s1, ConnStep(c));
      assert s2.core.conns[c] == Write(tgid, ask, s.core.published) && s2.history.hops == s.history.hops;
      assert s2.core.maps.config == s.core.maps.config;
      assert RunConn(s1, c, 2) == RunConn(s2, c, 1) == Apply(s2, ConnStep(c));
    }
  }

  /** cg_sock_ops takes at most two. */
  lemma SoloEstablished(k: Core, c: Cookie, localPort: U32)
    requires Enabled(k, CallEstablished(c, LocalPort(localPort)))
    ensures var p := LocalPort(localPort);
            var k' := RunEst(Next(k, CallEstablished(c, p)), c, p, 2);
            c !in k'.ests && k'.maps == SockOpsEffect(k.maps, AF_INET, ACTIVE_ESTABLISHED, localPort, c)
  {
    var p := LocalPort(localPort);
    var k1 := Next(k, CallEstablished(c, p));
    AloneEst(k1, c, p);
  }

  lemma AloneEst(k: Core, c: Cookie, p: Port)
    requires c in k.ests && k.ests[c].Lookup?
    ensures var k' := RunEst(k, c, p, 2);
            && c !in k'.ests
            && k'.maps == if c in k.maps.socks
                          then k.maps.(ports := Update(k.maps.ports, MAX_CONNECTIONS, p, c)) else k.maps
  {
    var k1 := NextEst(k, c, p);
    assert RunEst(k, c, p, 2) == RunEst(k1, c, p, 1);
    if c in k.maps.socks {
      var k2 := NextEst(k1, c, p);
      assert RunEst(k1, c, p, 1) == RunEst(k2, c, p, 0) == k2;
    }
  }

  /** cg_sock_opt takes at most five. Alone they do to the maps what the program does, and the answer
      recorded is what the program fills into the buffer: the record's destination, or nothing. */
  lemma SoloQuery(s: State, q: Query)
    requires q.optname == SO_ORIGINAL_DST && q.family == AF_INET && q.protocol == IPPROTO_TCP
    requires Enabled(s.core, CallQuery(PeerPort(q.dstPort), |q.optval|))
    ensures var p := PeerPort(q.dstPort);
            var c := s.core.waiting[p];
            var s' := RunQuery(Apply(s, CallQuery(p, |q.optval|)), c, 5);
            var (maps, filled) := SockOptEffect(s.core.maps, q);
            var (key, reply) := Told(s.core.maps, FindPort(p, |q.optval|));
            && c !in s'.core.queries && s'.core.maps == maps
            && s'.history.answers == s.history.answers + {Answer(p, c, |q.optval|, key, reply)}
            && filled == match reply
                         case None => q
                         case Some(r) =>
                           q.(optval := SockaddrBytes(LittleEndian, AF_INET as U16, r.dstAddr, r.dstPort) + q.optval[8..],
                              optlen := SOCKADDR_SIZE, retval := 0)
  {
    var p := PeerPort(q.dstPort);
    var c := s.core.waiting[p];
    var s1 := Apply(s, CallQuery(p, |q.optval|));
    AloneQuery(s1, c, FindPort(p, |q.optval|));
    WholeQuery(s.core.maps, p, |q.optval|);
    WholeAnswer(s.core.maps, p, |q.optval|);
    FilledBuffer(s.core.maps, q);
  }

  lemma FilledBuffer(m: Maps, q: Query)
    requires q.family == AF_INET
    ensures SockOptEffect(m, q).1 ==
            if !Answers(m, q) then q
            else
              var r := m.socks[m.ports[PeerPort(q.dstPort)]];
              q.(optval := SockaddrBytes(LittleEndian, AF_INET as U16, r.dstAddr, r.dstPort) + q.optval[8..],
                 optlen := SOCKADDR_SIZE, retval := 0)
  {
  }

  /** The cookie and the record that the rest of a query finds when nothing interferes. */
  function Told(m: Maps, q: Qry): (r: (Option<Cookie>, Option<Socket>))
    ensures r.1.Some? ==> !q.DropPort? && !q.DropSock? && q.room >= SOCKADDR_SIZE
    decreases StepsLeft(q)
  {
    match q
    case FindPort(p, room) => if p in m.ports then Told(m, FindSock(p, room, m.ports[p])) else (None, None)
    case FindSock(p, room, key) =>
      if key in m.socks then Told(m, Copy(p, room, key, m.socks[key])) else (Some(key), None)
    case Copy(_, room, key, seen) =>
      (Some(key), if room < SOCKADDR_SIZE then None else Some(if key in m.socks then m.socks[key] else seen))
    case _ => (None, None)
  }

  /** The answers that the rest of a query will record. */
  ghost function ToldBy(m: Maps, c: Cookie, q: Qry): set<Answer> {
    if q.DropPort? || q.DropSock? then {} else {Answer(q.p, c, q.room, Told(m, q).0, Told(m, q).1)}
  }

  function StepsLeft(q: Qry): nat {
    match q
    case FindPort(_, _) => 5
    case FindSock(_, _, _) => 4
    case Copy(_, _, _, _) => 3
    case DropPort(_, _) => 2
    case DropSock(_, _) => 1
  }

  /** What the rest of a query does to the maps when nothing interferes. */
  function Rest(m: Maps, q: Qry): Maps
    decreases StepsLeft(q)
  {
    match q
    case FindPort(p, room) => if p in m.ports then Rest(m, FindSock(p, room, m.ports[p])) else m
    case FindSock(p, room, key) => if key in m.socks then Rest(m, Copy(p, room, key, m.socks[key])) else m
    case Copy(p, room, key, _) => if room >= SOCKADDR_SIZE then Rest(m, DropPort(p, key)) else m
    case DropPort(p, key) => Rest(m.(ports := Delete(m.ports, p)), DropSock(p, key))
    case DropSock(_, key) => m.(socks := Delete(m.socks, key))
  }

  lemma {:induction false} AloneQuery(s: State, c: Cookie, q: Qry)
    requires c in s.core.queries && s.core.queries[c] == q
    ensures var s' := RunQuery(s, c, StepsLeft(q));
            && c !in s'.core.queries && s'.core.maps == Rest(s.core.maps, q)
            && s'.history.answers == s.history.answers + ToldBy(s.core.maps, c, q)
    decreases StepsLeft(q)
  {
    OneStep(s.core, c, q);
    OneAnswer(s.core, s.history, c, q);
    var s1 := State(NextQuery(s.core, c), NoteQuery(s.core, s.history, q, c));
    assert RunQuery(s, c, StepsLeft(q)) == RunQuery(s1, c, StepsLeft(q) - 1);
    if c in s1.core.queries { AloneQuery(s1, c, s1.core.queries[c]); }
  }

  /** What the next step leaves still to be told. */
  ghost function StillTold(k: Core, c: Cookie): set<Answer> {
    if c in k.queries then ToldBy(k.maps, c, k.queries[c]) else {}
  }

  /** The step that answers tells all there is to tell; the steps before it leave it to be told. */
  lemma ToldLater(k: Core, c: Cookie, q: Qry)
    requires c in k.queries && k.queries[c] == q
    ensures StillTold(NextQuery(k, c), c) == if GivesUp(k, q) || q.Copy? then {} else ToldBy(k.maps, c, q)
  {
    if GivesUp(k, q) {
      assert c !in NextQuery(k, c).queries;
    } else {
      match q
      case FindPort(p, room) => assert NextQuery(k, c).queries[c] == FindSock(p, room, k.maps.ports[p]);
      case FindSock(p, room, key) => assert NextQuery(k, c).queries[c] == Copy(p, room, key, k.maps.socks[key]);
      case Copy(p, _, key, _) => assert NextQuery(k, c).queries[c] == DropPort(p, key);
      case DropPort(p, key) => assert NextQuery(k, c).queries[c] == DropSock(p, key);
      case DropSock(_, _) => assert c !in NextQuery(k, c).queries;
    }
  }

  lemma ToldNow(k: Core, h: History, c: Cookie, q: Qry)
    ensures NoteQuery(k, h, q, c).answers
            == h.answers + if GivesUp(k, q) || q.Copy? then ToldBy(k.maps, c, q) else {}
  {
  }

  lemma OneAnswer(k: Core, h: History, c: Cookie, q: Qry)
    requires c in k.queries && k.queries[c] == q
    ensures NoteQuery(k, h, q, c).answers + StillTold(NextQuery(k, c), c) == h.answers + ToldBy(k.maps, c, q)
  {
    ToldLater(k, c, q);
    ToldNow(k, h, c, q);
  }

  lemma WholeAnswer(m: Maps, p: Port, room: nat)
    ensures Told(m, FindPort(p, room)).1 ==
            if p in m.ports && m.ports[p] in m.socks && room >= SOCKADDR_SIZE then Some(m.socks[m.ports[p]]) else None
  {
    if p in m.ports {
      var key := m.ports[p];
      assert Told(m, FindPort(p, room)) == Told(m, FindSock(p, room, key));
      if key in m.socks {
        assert Told(m, FindSock(p, room, key)) == Told(m, Copy(p, room, key, m.socks[key]));
      }
    }
  }

  lemma OneStep(k: Core, c: Cookie, q: Qry)
    requires c in k.queries && k.queries[c] == q
    ensures var k1 := NextQuery(k, c);
            if c in k1.queries
            then StepsLeft(k1.queries[c]) == StepsLeft(q) - 1 && Rest(k1.maps, k1.queries[c]) == Rest(k.maps, q)
            else k1.maps == Rest(k.maps, q)
  {
    if GivesUp(k, q) {
      assert c !in NextQuery(k, c).queries;
    } else if q.DropPort? {
      var m := k.maps.(ports := Delete(k.maps.ports, q.p));
      assert Rest(k.maps, q) == Rest(m, DropSock(q.p, q.key));
    } else if q.DropSock? {
      assert c !in NextQuery(k, c).queries;
    } else {
      assert NextQuery(k, c).maps == k.maps;
    }
  }

  lemma WholeQuery(m: Maps, p: Port, room: nat)
    ensures Rest(m, FindPort(p, room)) ==
            if p in m.ports && m.ports[p] in m.socks && room >= SOCKADDR_SIZE
            then m.(ports := Delete(m.ports, p), socks := Delete(m.socks, m.ports[p])) else m
  {
    if p in m.ports {
      var key := m.ports[p];
      assert Rest(m, FindPort(p, room)) == Rest(m, FindSock(p, room, key));
      if key in m.socks {
        assert Rest(m, FindSock(p, room, key)) == Rest(m, Copy(p, room, key, m.socks[key]));
        assert Rest(m, DropPort(p, key)) == Rest(m.(ports := Delete(m.ports, p)), DropSock(p, key));
      }
    }
  }
}
