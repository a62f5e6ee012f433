/** What the history of a run records, exactly: where every answer and every finished connect
    comes from. */
module RedirectHistory {
  import opened Basics
  import opened Wire
  import opened BpfMap
  import opened Hooks
  import opened Redirect

  // ----- asks: every request in a state is one some process made -----

  ghost predicate AllAsks(good: Ask -> bool, s: State) {
    && PendingAsks(good, s.core)
    && (forall h :: h in s.history.hops ==> good(h.ask))
    && (forall c :: c in s.history.stored ==> good(s.history.stored[c]))
  }

  ghost predicate PendingAsks(good: Ask -> bool, k: Core) {
    && (forall c :: c in k.asks ==> good(k.asks[c]))
    && (forall c :: c in k.conns ==> good(k.conns[c].ask))
  }

  lemma {:induction false} AsksKept(good: Ask -> bool, s: State, e: Event)
    requires AllAsks(good, s) && Enabled(s.core, e) && (e.CallConnect? ==> good(e.ask))
    ensures AllAsks(good, Apply(s, e))
  {
    match e
    case ConnStep(c) => ConnKeepsAsks(good, s, c);
    case QueryStep(c) => QueryKeepsAsks(good, s, c);
    case EstStep(c) => EstKeepsAsks(good, s, c);
    case _ =>
  }

  lemma {:induction false} ConnKeepsAsks(good: Ask -> bool, s: State, c: Cookie)
    requires AllAsks(good, s) && c in s.core.conns
    ensures AllAsks(good, State(NextConn(s.core, c), NoteConn(s.core, s.history, s.core.conns[c], c)))
  {
    PendingAfterConn(good, s.core, c, s.core.conns[c]);
    assert good(s.core.conns[c].ask);
  }

  lemma {:induction false} PendingAfterConn(good: Ask -> bool, k: Core, c: Cookie, n: Conn)
    requires PendingAsks(good, k) && c in k.conns && n == k.conns[c]
    ensures PendingAsks(good, NextConn(k, c))
  {
    assert good(n.ask);
    match n
    case Check(_, _) =>
    case Store(_, _, _) =>
    case Write(_, _, _) =>
  }

  lemma {:induction false} QueryKeepsAsks(good: Ask -> bool, s: State, c: Cookie)
    requires AllAsks(good, s) && c in s.core.queries
    ensures AllAsks(good, State(NextQuery(s.core, c), NoteQuery(s.core, s.history, s.core.queries[c], c)))
  {
    PendingAfterQuery(good, s.core, c, s.core.queries[c]);
  }

  lemma {:induction false} PendingAfterQuery(good: Ask -> bool, k: Core, c: Cookie, q: Qry)
    requires PendingAsks(good, k) && c in k.queries && q == k.queries[c]
    ensures PendingAsks(good, NextQuery(k, c))
  {
    if GivesUp(k, q) {
    } else {
      match q
      case FindPort(_, _) =>
      case FindSock(_, _, _) =>
      case Copy(_, _, _, _) =>
      case DropPort(_, _) =>
      case DropSock(_, _) =>
    }
  }

  lemma EstLeaves(k: Core, c: Cookie, p: Port)
    requires c in k.ests
    ensures var k' := NextEst(k, c, p);
            k'.maps == EstMaps(k.maps, c, p, k.ests[c]) && k'.conns == k.conns && k'.asks == k.asks
            && k'.published == k.published
  {
    var k' := k.(maps := EstMaps(k.maps, c, p, k.ests[c]));
    assert Settle(k', c, p).maps == k'.maps && Settle(k', c, p).conns == k.conns;
  }

  lemma {:induction false} EstKeepsAsks(good: Ask -> bool, s: State, c: Cookie)
    requires AllAsks(good, s) && Enabled(s.core, EstStep(c))
    ensures AllAsks(good, s.(core := NextEst(s.core, c, s.core.from[c])))
  {
    EstLeaves(s.core, c, s.core.from[c]);
  }

  lemma {:induction false} RunAsks(good: Ask -> bool, ss: seq<State>, es: seq<Event>, i: nat)
    requires IsRun(ss, es) && i < |ss|
    requires forall j :: 0 <= j < |es| && es[j].CallConnect? ==> good(es[j].ask)
    ensures AllAsks(good, ss[i])
  {
    if i > 0 {
      RunAsks(good, ss, es, i - 1);
      AsksKept(good, ss[i - 1], es[i - 1]);
    }
  }

  lemma AsksAreReal(s: State)
    requires Reachable(s)
    ensures AllAsks((a: Ask) => a == AskOf(a.k), s)
  {
    var ss: seq<State>, es: seq<Event> :| IsRun(ss, es) && ss[|es|] == s;
    RunAsks((a: Ask) => a == AskOf(a.k), ss, es, |es|);
  }

  // ----- records and answers -----

  /** map_socks holds what each socket last had recorded. */
  ghost predicate Stored(k: Core, h: History) {
    forall c :: c in k.maps.socks ==> c in h.stored && k.maps.socks[c] == h.stored[c].record
  }

  /** An answer is what the socket whose cookie was found last had recorded. */
  ghost predicate AnswersStored(h: History) {
    forall a :: a in h.answers && a.reply.Some? ==>
      a.key.Some? && a.key.value in h.stored && a.reply.value == h.stored[a.key.value].record
  }

  lemma StoredByConn(k: Core, h: History, c: Cookie, n: Conn)
    requires Stored(k, h) && c in k.conns && n == k.conns[c]
    ensures Stored(NextConn(k, c), NoteConn(k, h, n, c))
  {
    StoreLeaves(k, c, n);
    if n.Store? {
      StoredByStore(k, h, c, n);
    } else {
      assert NoteConn(k, h, n, c).stored == h.stored;
    }
  }

  lemma StoreLeaves(k: Core, c: Cookie, n: Conn)
    requires c in k.conns && n == k.conns[c]
    ensures NextConn(k, c).maps == ConnMaps(k.maps, c, n)
  {
    match n
    case Check(_, _) =>
    case Store(_, _, _) =>
    case Write(_, _, _) =>
  }

  lemma StoredByStore(k: Core, h: History, c: Cookie, n: Conn)
    requires Stored(k, h) && n.Store?
    ensures var socks, stored := ConnMaps(k.maps, c, n).socks, NoteConn(k, h, n, c).stored;
            forall d :: d in socks ==> d in stored && socks[d] == stored[d].record
  {
    UpdateThenDelete(k.maps.socks, MAX_CONNECTIONS, c, n.ask.record);
  }

  lemma StoredByQuery(k: Core, h: History, c: Cookie, q: Qry)
    requires Stored(k, h) && c in k.queries && q == k.queries[c]
    ensures Stored(NextQuery(k, c), NoteQuery(k, h, q, c))
  {
    QueryLeaves(k, c, q);
    assert NoteQuery(k, h, q, c).stored == h.stored;
    forall d | d in QueryMaps(k.maps, q).socks
      ensures d in k.maps.socks && QueryMaps(k.maps, q).socks[d] == k.maps.socks[d]
    {
    }
  }

  lemma StoredKept(k: Core, h: History, e: Event)
    requires Stored(k, h) && Enabled(k, e)
    ensures Stored(Next(k, e), Note(k, h, e))
  {
    match e
    case ConnStep(c) => StoredByConn(k, h, c, k.conns[c]);
    case QueryStep(c) => StoredByQuery(k, h, c, k.queries[c]);
    case EstStep(c) => assert NextEst(k, c, k.from[c]).maps == EstMaps(k.maps, c, k.from[c], k.ests[c]);
    case _ =>
  }

  lemma AnswersByConn(k: Core, h: History, c: Cookie, n: Conn)
    requires AnswersStored(h) && Observed(k, h) && c !in k.from
    ensures AnswersStored(NoteConn(k, h, n, c))
  {
    forall a | a in h.answers && a.reply.Some?
      ensures a.key.value != c
    {
      assert AnswerOk(k, a);
    }
  }

  lemma AnswersByQuery(k: Core, h: History, c: Cookie, q: Qry)
    requires AnswersStored(h) && Stored(k, h) && PortsOk(k) && QueryOk(k, c, q)
    ensures AnswersStored(NoteQuery(k, h, q, c))
  {
  }

  lemma AnswersKept(k: Core, h: History, e: Event)
    requires AnswersStored(h) && Stored(k, h) && Observed(k, h) && CoreInv(k) && Enabled(k, e)
    ensures AnswersStored(Note(k, h, e))
  {
    match e
    case ConnStep(c) => assert ConnOk(k, c, k.conns[c]); AnswersByConn(k, h, c, k.conns[c]);
    case QueryStep(c) => assert QueryOk(k, c, k.queries[c]); AnswersByQuery(k, h, c, k.queries[c]);
    case _ =>
  }

  // ----- hops -----

  /** Whether, and to which port, a finished connect was redirected. Before the config is published
      the programs read zeros: no process is the proxy yet, and the port written is 0, or the
      published one when publication falls inside the call. */
  ghost predicate HopExact(k: Core, x: Hop) {
    if x.late then
      k.published
      && x.proxyPort == if x.ask.eligible && x.tgid != k.maps.config.proxyPid then Some(k.maps.config.proxyPort) else None
    else
      && (x.proxyPort.Some? <==> x.ask.eligible && x.tgid != 0)
      && (x.proxyPort.Some? ==> x.proxyPort.value == 0 || (k.published && x.proxyPort.value == k.maps.config.proxyPort))
  }

  ghost predicate ConnExact(k: Core, n: Conn) {
    !n.Check? ==> n.ask.eligible && if n.late then k.published && n.tgid != k.maps.config.proxyPid else n.tgid != 0
  }

  ghost predicate HopsExact(k: Core, h: History) {
    && (!k.published ==> k.maps.config == Config(0, 0))
    && (forall c :: c in k.conns ==> ConnExact(k, k.conns[c]))
    && (forall x :: x in h.hops ==> HopExact(k, x))
  }

  lemma ConnsByConn(k: Core, c: Cookie, n: Conn)
    requires !k.published ==> k.maps.config == Config(0, 0)
    requires c in k.conns && n == k.conns[c] && (forall d :: d in k.conns ==> ConnExact(k, k.conns[d]))
    ensures var k' := NextConn(k, c);
            && k'.published == k.published && k'.maps.config == k.maps.config
            && (forall d :: d in k'.conns ==> ConnExact(k', k'.conns[d]))
  {
    var k' := NextConn(k, c);
    match n
    case Check(tgid, ask) =>
      assert Passes(k, tgid, ask) ==> k'.conns == k.conns[c := Store(tgid, ask, k.published)];
      assert !Passes(k, tgid, ask) ==> k'.conns == k.conns - {c};
    case Store(tgid, ask, late) => assert k'.conns == k.conns[c := Write(tgid, ask, late)];
    case Write(_, _, _) => assert k'.conns == k.conns - {c};
  }

  lemma HopsByConn(k: Core, h: History, c: Cookie, n: Conn)
    requires HopsExact(k, h) && c in k.conns && n == k.conns[c]
    ensures forall x :: x in NoteConn(k, h, n, c).hops ==> HopExact(k, x)
  {
    assert ConnExact(k, n);
    match n
    case Check(tgid, ask) =>
      if !Passes(k, tgid, ask) { assert HopExact(k, Hop(tgid, ask, None, k.published)); }
    case Store(_, _, _) => assert NoteConn(k, h, n, c).hops == h.hops;
    case Write(tgid, ask, late) => assert HopExact(k, Hop(tgid, ask, Some(k.maps.config.proxyPort), late));
  }

  /** Other steps leave config, connect calls and hops alone. */
  ghost predicate SameHops(k: Core, h: History, k': Core, h': History) {
    k'.published == k.published && k'.maps.config == k.maps.config && k'.conns == k.conns && h'.hops == h.hops
  }

  lemma EstSameHops(k: Core, h: History, c: Cookie, p: Port)
    requires c in k.ests
    ensures SameHops(k, h, NextEst(k, c, p), h)
  {
    EstLeaves(k, c, p);
  }

  lemma QuerySameHops(k: Core, h: History, c: Cookie, q: Qry)
    requires c in k.queries && q == k.queries[c]
    ensures SameHops(k, h, NextQuery(k, c), NoteQuery(k, h, q, c))
  {
    if GivesUp(k, q) {
    } else {
      match q
      case FindPort(_, _) =>
      case FindSock(_, _, _) =>
      case Copy(_, _, _, _) =>
      case DropPort(_, _) =>
      case DropSock(_, _) =>
    }
  }

  lemma SameHopsExact(k: Core, h: History, k': Core, h': History)
    requires HopsExact(k, h) && SameHops(k, h, k', h')
    ensures HopsExact(k', h')
  {
  }

  lemma PublishExact(k: Core, h: History, config: Config)
    requires HopsExact(k, h) && !k.published
    ensures HopsExact(k.(maps := k.maps.(config := config), published := true), h)
  {
  }

  lemma HopsKept(k: Core, h: History, e: Event)
    requires HopsExact(k, h) && Enabled(k, e)
    ensures HopsExact(Next(k, e), Note(k, h, e))
  {
    match e
    case Publish(config) => PublishExact(k, h, config);
    case CallConnect(_, _, _) =>
    case ConnStep(c) => ConnsByConn(k, c, k.conns[c]); HopsByConn(k, h, c, k.conns[c]);
    case EstStep(c) => EstSameHops(k, h, c, k.from[c]); SameHopsExact(k, h, Next(k, e), h);
    case QueryStep(c) =>
      QuerySameHops(k, h, c, k.queries[c]);
      SameHopsExact(k, h, Next(k, e), Note(k, h, e));
    case _ => SameHopsExact(k, h, Next(k, e), h);
  }

  // ----- every run -----

  ghost predicate Traced(s: State) {
    Stored(s.core, s.history) && AnswersStored(s.history) && HopsExact(s.core, s.history)
  }

  lemma {:induction false} RunTraced(ss: seq<State>, es: seq<Event>, i: nat)
    requires IsRun(ss, es) && i < |ss|
    ensures Traced(ss[i])
  {
    if i > 0 {
      RunTraced(ss, es, i - 1);
      RunInv(ss, es, i - 1);
      var s, e := ss[i - 1], es[i - 1];
      StoredKept(s.core, s.history, e);
      AnswersKept(s.core, s.history, e);
      HopsKept(s.core, s.history, e);
    }
  }

  lemma ReachableTraced(s: State)
    requires Reachable(s)
    ensures Traced(s)
  {
    var ss: seq<State>, es: seq<Event> :| IsRun(ss, es) && ss[|es|] == s;
    RunTraced(ss, es, |es|);
  }
}
