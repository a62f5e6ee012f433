/** The redirect protocol of proxy.c as a transition system. Any number of calls of the three
    programs are in flight at once, each split at its map operations with the locals it holds
    in between, so every step of one call may fall between any two steps of another. */
module Redirect {
  import opened Basics
  import opened Wire
  import opened BpfMap
  import opened Hooks

  /** What a connect call asks for, with everything cg_connect4 computes from it. */
  datatype Ask = Ask(k: Connect, eligible: bool, asked: Endpoint, record: Socket)

  function AskOf(k: Connect): Ask {
    Ask(k, Eligible(k), Asked(k), RecordOf(k))
  }

  /** A call of cg_connect4: filters and config, the record, the overwritten destination. */
  datatype Conn =
    | Check(tgid: Pid, ask: Ask)
    | Store(tgid: Pid, ask: Ask, late: bool)
    | Write(tgid: Pid, ask: Ask, late: bool)

  /** A call of cg_sock_ops: is there a record, then bind the source port. */
  datatype Est = Lookup | Bind

  /** A call of cg_sock_opt: port, record, copy out, and the two deletes. */
  datatype Qry =
    | FindPort(p: Port, room: nat)
    | FindSock(p: Port, room: nat, key: Cookie)
    | Copy(p: Port, room: nat, key: Cookie, seen: Socket)
    | DropPort(p: Port, key: Cookie)
    | DropSock(p: Port, key: Cookie)

  /** A query by the proxy about the connection that client opened from port: the cookie found
      under the port, and the record copied out, if any. */
  datatype Answer = Answer(port: Port, client: Cookie, room: nat, key: Option<Cookie>, reply: Option<Socket>)

  /** A finished connect by process tgid: what was asked for, the proxy port written over it if
      it was redirected, and whether the config had been published when the program read it. */
  datatype Hop = Hop(tgid: Pid, ask: Ask, proxyPort: Option<U16>, late: bool)

  /** The maps, the calls in flight by socket (queries by the client they are about), and what
      the kernel and the proxy know of the connections. */
  datatype Core = Core(
    maps: Maps,
    conns: map<Cookie, Conn>,
    ests: map<Cookie, Est>,
    queries: map<Cookie, Qry>,
    published: bool,
    asks: map<Cookie, Ask>,           // what each socket last passed to connect
    redirected: set<Cookie>,          // sockets whose last connect finished redirected
    lost: set<Cookie>,                // sockets whose last insert into map_socks failed
    from: map<Cookie, Port>,          // source port of each socket that established
    settled: set<Cookie>,             // sockets whose established call has finished
    waiting: map<Port, Cookie>,       // connections to the proxy it has not begun to query
    holder: map<Port, Cookie>)        // sockets whose use of a source port is not over

  /** What has been observed: finished queries and connects, how many records were freshly
      inserted into map_socks and deleted from it, and what each socket last had recorded there. */
  datatype History = History(
    answers: set<Answer>, hops: set<Hop>, inserted: nat, consumed: nat, stored: map<Cookie, Ask>)

  datatype State = State(core: Core, history: History)

  const INITIAL := State(
    Core(EMPTY_MAPS, map[], map[], map[], false, map[], {}, {}, map[], {}, map[], map[]),
    History({}, {}, 0, 0, map[]))

  datatype Event =
    | Publish(config: Config)
    | CallConnect(c: Cookie, tgid: Pid, ask: Ask)
    | ConnStep(c: Cookie)
    | CallEstablished(c: Cookie, p: Port)
    | EstStep(c: Cookie)
    | CallQuery(p: Port, room: nat)
    | QueryStep(c: Cookie)

  // ----- the environment -----

  /** Sockets whose established call can bind a port or whose connection reaches the proxy. */
  predicate Tracked(k: Core, c: Cookie) {
    c in k.maps.socks || c in k.redirected
  }

  predicate HeldBy(k: Core, p: Port, c: Cookie) {
    p in k.holder && k.holder[p] == c
  }

  /** What socket pairs and main.go alone guarantee about the order of calls: connect runs on a
      socket that is not established and not already connecting; a socket establishes once; two
      connections to the proxy do not use one source port; the proxy queries a connection once,
      after the client's established call. */
  predicate Possible(k: Core, e: Event) {
    match e
    case Publish(_) => !k.published
    case CallConnect(c, _, _) => c !in k.from && c !in k.conns
    case ConnStep(c) => c in k.conns
    case CallEstablished(c, p) =>
      c !in k.from && c !in k.conns && (c in k.redirected && p in k.holder ==> k.holder[p] !in k.redirected)
    case EstStep(c) => c in k.ests && c in k.from
    case CallQuery(p, _) => p in k.waiting && k.waiting[p] in k.settled
    case QueryStep(c) => c in k.queries
  }

  /** What the protocol needs beyond that: a connection to the proxy has its source port to itself
      until the proxy has queried it, also against a socket that has a record left over and now
      goes elsewhere. A stale binding of the port may well exist. */
  predicate Enabled(k: Core, e: Event) {
    Possible(k, e) && (e.CallEstablished? && Tracked(k, e.c) ==> e.p !in k.holder)
  }

  // ----- steps of the protocol -----

  function Next(k: Core, e: Event): Core
    requires Possible(k, e)
  {
    match e
    case Publish(config) => k.(maps := k.maps.(config := config), published := true)
    case CallConnect(c, tgid, ask) =>
      k.(conns := k.conns[c := Check(tgid, ask)], asks := k.asks[c := ask], redirected := k.redirected - {c})
    case ConnStep(c) => NextConn(k, c)
    case CallEstablished(c, p) =>
      k.(ests := k.ests[c := Lookup],
         from := k.from[c := p],
         waiting := if c in k.redirected then k.waiting[p := c] else k.waiting,
         holder := if Tracked(k, c) then k.holder[p := c] else k.holder)
    case EstStep(c) => NextEst(k, c, k.from[c])
    case CallQuery(p, room) =>
      k.(queries := k.queries[k.waiting[p] := FindPort(p, room)], waiting := k.waiting - {p})
    case QueryStep(c) => NextQuery(k, c)
  }

  predicate Passes(k: Core, tgid: Pid, ask: Ask) {
    ask.eligible && tgid != k.maps.config.proxyPid
  }

  /** What one step of each program does to the maps. */
  function ConnMaps(m: Maps, c: Cookie, n: Conn): Maps {
    if n.Store? then m.(socks := Update(m.socks, MAX_CONNECTIONS, c, n.ask.record)) else m
  }

  function EstMaps(m: Maps, c: Cookie, p: Port, n: Est): Maps {
    if n.Bind? then m.(ports := Update(m.ports, MAX_CONNECTIONS, p, c)) else m
  }

  function QueryMaps(m: Maps, q: Qry): Maps {
    match q
    case DropPort(p, _) => m.(ports := Delete(m.ports, p))
    case DropSock(_, key) => m.(socks := Delete(m.socks, key))
    case _ => m
  }

  function NextConn(k: Core, c: Cookie): Core
    requires c in k.conns
  {
    var n := k.conns[c];
    var maps := ConnMaps(k.maps, c, n);
    match n
    case Check(tgid, ask) =>
      if Passes(k, tgid, ask) then k.(maps := maps, conns := k.conns[c := Store(tgid, ask, k.published)])
      else k.(maps := maps, conns := k.conns - {c})
    case Store(tgid, ask, late) =>
      k.(maps := maps, conns := k.conns[c := Write(tgid, ask, late)],
         lost := if c in maps.socks then k.lost - {c} else k.lost + {c})
    case Write(_, _, _) => k.(maps := maps, conns := k.conns - {c}, redirected := k.redirected + {c})
  }

  function NextEst(k: Core, c: Cookie, p: Port): Core
    requires c in k.ests
  {
    var k' := k.(maps := EstMaps(k.maps, c, p, k.ests[c]));
    if k.ests[c].Lookup? && c in k.maps.socks then k'.(ests := k.ests[c := Bind]) else Settle(k', c, p)
  }

  function Settle(k: Core, c: Cookie, p: Port): Core {
    k.(ests := k.ests - {c}, settled := k.settled + {c},
       holder := if c !in k.redirected && HeldBy(k, p, c) then k.holder - {p} else k.holder)
  }

  /** The record read by a query about to copy it out: the live one, or the one seen earlier. */
  function Live(k: Core, q: Qry): Socket
    requires q.Copy?
  {
    if q.key in k.maps.socks then k.maps.socks[q.key] else q.seen
  }

  predicate GivesUp(k: Core, q: Qry) {
    match q
    case FindPort(p, _) => p !in k.maps.ports
    case FindSock(_, _, key) => key !in k.maps.socks
    case Copy(_, room, _, _) => room < SOCKADDR_SIZE
    case _ => false
  }

  function NextQuery(k: Core, c: Cookie): Core
    requires c in k.queries
  {
    var q := k.queries[c];
    var maps := QueryMaps(k.maps, q);
    if GivesUp(k, q) then k.(maps := maps, queries := k.queries - {c}, holder := k.holder - {q.p})
    else
      match q
      case FindPort(p, room) => k.(maps := maps, queries := k.queries[c := FindSock(p, room, k.maps.ports[p])])
      case FindSock(p, room, key) =>
        k.(maps := maps, queries := k.queries[c := Copy(p, room, key, k.maps.socks[key])])
      case Copy(p, _, key, _) => k.(maps := maps, queries := k.queries[c := DropPort(p, key)])
      case DropPort(p, key) =>
        k.(maps := maps, queries := k.queries[c := DropSock(p, key)], holder := k.holder - {p})
      case DropSock(_, _) => k.(maps := maps, queries := k.queries - {c})
  }

  function Move(k: Core, c: Cookie, q: Qry): Core {
    k.(queries := k.queries[c := q])
  }

  // ----- what each step adds to the history -----

  function Note(k: Core, h: History, e: Event): History
    requires Possible(k, e)
  {
    match e
    case ConnStep(c) => NoteConn(k, h, k.conns[c], c)
    case QueryStep(c) => NoteQuery(k, h, k.queries[c], c)
    case _ => h
  }

  function NoteConn(k: Core, h: History, n: Conn, c: Cookie): History {
    match n
    case Check(tgid, ask) =>
      if Passes(k, tgid, ask) then h else h.(hops := h.hops + {Hop(tgid, ask, None, k.published)})
    case Store(_, ask, _) =>
      if c in k.maps.socks then h.(stored := h.stored[c := ask])
      else if |k.maps.socks| < MAX_CONNECTIONS then h.(stored := h.stored[c := ask], inserted := h.inserted + 1)
      else h
    case Write(tgid, ask, late) => h.(hops := h.hops + {Hop(tgid, ask, Some(k.maps.config.proxyPort), late)})
  }

  function NoteQuery(k: Core, h: History, q: Qry, c: Cookie): History {
    if GivesUp(k, q) then
      h.(answers := h.answers + {Answer(q.p, c, q.room, if q.FindPort? then None else Some(q.key), None)})
    else if q.Copy? then h.(answers := h.answers + {Answer(q.p, c, q.room, Some(q.key), Some(Live(k, q)))})
    else if q.DropSock? && q.key in k.maps.socks then h.(consumed := h.consumed + 1)
    else h
  }

  // ----- runs -----

  /** A connect call passes words that the program itself takes apart. */
  predicate WellPosed(e: Event) {
    e.CallConnect? ==> e.ask == AskOf(e.ask.k)
  }

  function Apply(s: State, e: Event): State
    requires Possible(s.core, e)
  {
    State(Next(s.core, e), Note(s.core, s.history, e))
  }

  /** States after some sequence of events, each allowed where it happens. */
  ghost predicate IsRun(ss: seq<State>, es: seq<Event>) {
    && |ss| == |es| + 1 && ss[0] == INITIAL
    && forall i :: 0 <= i < |es| ==>
                     WellPosed(es[i]) && Enabled(ss[i].core, es[i]) && ss[i + 1] == Apply(ss[i], es[i])
  }

  ghost predicate Reachable(s: State) {
    exists ss: seq<State>, es: seq<Event> :: IsRun(ss, es) && ss[|es|] == s
  }

  // ----- the invariant -----

  predicate Bound(k: Core, p: Port, c: Cookie) {
    p in k.maps.ports && k.maps.ports[p] == c
  }

  predicate From(k: Core, c: Cookie, p: Port) {
    c in k.from && k.from[c] == p
  }

  /** Every bound cookie has a record and is bound at its own source port only. */
  ghost predicate PortsOk(k: Core) {
    forall p :: p in k.maps.ports ==>
                  var c := k.maps.ports[p];
                  c in k.maps.socks && c in k.settled && From(k, c, p)
  }

  ghost predicate SocksOk(k: Core) {
    forall c :: c in k.redirected ==>
                  && c in k.asks
                  && (c in k.lost ==> c !in k.maps.socks)
                  && (c in k.maps.socks ==> k.maps.socks[c] == k.asks[c].record)
                  && (c !in k.settled && c !in k.maps.socks ==> c in k.lost)
  }

  ghost predicate WaitingOk(k: Core) {
    forall p :: p in k.waiting ==>
                  var c := k.waiting[p];
                  && From(k, c, p) && HeldBy(k, p, c) && c in k.redirected && c !in k.queries
                  && (c in k.settled && c !in k.lost ==> Bound(k, p, c))
  }

  ghost predicate UsesOk(k: Core) {
    && (forall c :: c in k.settled ==> c in k.from)
    && (forall p :: p in k.holder ==> From(k, k.holder[p], p))
  }

  ghost predicate ConnOk(k: Core, c: Cookie, n: Conn) {
    && c !in k.from && c !in k.redirected && c in k.asks && k.asks[c] == n.ask
    && (!n.Check? ==> n.ask.eligible && (n.late ==> k.published && n.tgid != k.maps.config.proxyPid))
    && (n.Write? ==> (c in k.lost <==> c !in k.maps.socks))
    && (n.Write? && c in k.maps.socks ==> k.maps.socks[c] == n.ask.record)
  }

  ghost predicate EstOk(k: Core, c: Cookie, n: Est) {
    && c in k.from && c !in k.settled && c !in k.conns
    && (n.Bind? ==> c in k.maps.socks)
    && (Tracked(k, c) ==> HeldBy(k, k.from[c], c))
    && (c in k.redirected ==> k.from[c] in k.waiting)
  }

  ghost predicate QueryOk(k: Core, c: Cookie, q: Qry) {
    && From(k, c, q.p) && c in k.settled && c in k.redirected
    && (!q.DropSock? ==> HeldBy(k, q.p, c) && q.p !in k.waiting)
    && (q.FindPort? && c !in k.lost ==> Bound(k, q.p, c))
    && (q.FindSock? || q.Copy? || q.DropPort? ==>
          Bound(k, q.p, q.key) && (c !in k.lost ==> q.key == c))
    && (q.DropSock? ==>
          && q.key in k.maps.socks && q.key in k.settled && From(k, q.key, q.p)
          && !Bound(k, q.p, q.key) && (c !in k.lost ==> q.key == c))
  }

  ghost predicate ConnsOk(k: Core) {
    forall c :: c in k.conns ==> ConnOk(k, c, k.conns[c])
  }

  ghost predicate EstsOk(k: Core) {
    forall c :: c in k.ests ==> EstOk(k, c, k.ests[c])
  }

  ghost predicate QueriesOk(k: Core) {
    && (forall c :: c in k.queries ==> QueryOk(k, c, k.queries[c]))
    && (forall c, d :: c in k.queries && d in k.queries && c != d && k.queries[c].DropSock? && k.queries[d].DropSock? ==>
                         k.queries[c].key != k.queries[d].key)
  }

  ghost predicate Tables(k: Core) {
    PortsOk(k) && SocksOk(k) && WaitingOk(k) && UsesOk(k)
  }

  ghost predicate Calls(k: Core) {
    ConnsOk(k) && EstsOk(k) && QueriesOk(k)
  }

  ghost predicate CoreInv(k: Core) {
    Tables(k) && Calls(k)
  }

  ghost predicate AnswerOk(k: Core, a: Answer) {
    && From(k, a.client, a.port) && a.client in k.redirected && a.client in k.asks
    && (a.reply.Some? ==> a.room >= SOCKADDR_SIZE && a.key.Some?)
    && (a.client !in k.lost && a.room >= SOCKADDR_SIZE ==> a.reply == Some(k.asks[a.client].record))
    && (a.key.Some? ==> From(k, a.key.value, a.port) && (a.key.value == a.client <==> a.client !in k.lost))
  }

  ghost predicate HopOk(k: Core, h: Hop) {
    h.proxyPort.Some? ==>
      && h.ask.eligible
      && (h.late ==>
            && k.published && h.tgid != k.maps.config.proxyPid
            && h.proxyPort.value == k.maps.config.proxyPort)
  }

  ghost predicate Observed(k: Core, h: History) {
    && (forall a :: a in h.answers ==> AnswerOk(k, a))
    && (forall x :: x in h.hops ==> HopOk(k, x))
  }

  /** Capacity, and conservation of records. */
  ghost predicate Counted(k: Core, h: History) {
    && |k.maps.socks| <= MAX_CONNECTIONS
    && |k.maps.socks| + h.consumed == h.inserted
    && (forall c :: c in k.lost ==> h.inserted >= MAX_CONNECTIONS)
  }

  ghost predicate HistoryInv(k: Core, h: History) {
    Observed(k, h) && Counted(k, h)
  }

  ghost predicate Inv(s: State) {
    CoreInv(s.core) && HistoryInv(s.core, s.history)
  }

  // ----- preservation -----

  /** map_ports can never be full: its keys are 16-bit numbers. */
  lemma PortsHaveRoom(ports: map<Port, Cookie>)
    ensures |ports| <= 0x1_0000 < MAX_CONNECTIONS
  {
    var all := Below(0x1_0000);
    assert ports.Keys <= all;
    SubsetSize(ports.Keys, all);
  }

  ghost function Below(n: nat): (r: set<Port>)
    requires n <= 0x1_0000
    ensures |r| == n && forall p: Port :: p in r <==> p < n
  {
    if n == 0 then {} else Below(n - 1) + {n - 1}
  }

  /** What no step takes back: everything about sockets that established, and the config. */
  ghost predicate Persists(k: Core, k': Core) {
    && (forall c :: c in k.from ==>
                      && From(k', c, k.from[c]) && (c in k.redirected ==> c in k'.redirected)
                      && (c in k.lost <==> c in k'.lost)
                      && (c in k.asks ==> c in k'.asks && k'.asks[c] == k.asks[c]))
    && (k.published ==> k'.published && k'.maps.config == k.maps.config)
  }

  lemma {:induction false} KeptByPublish(k: Core, config: Config, k': Core)
    requires CoreInv(k) && !k.published
    requires k' == k.(maps := k.maps.(config := config), published := true)
    ensures CoreInv(k')
    ensures Persists(k, k')
  {
  }

  /** A step of a connect call on c, as the rest of the protocol sees it: only what concerns c
      changes, and no record disappears. */
  ghost predicate ConnMoves(k: Core, c: Cookie, k': Core) {
    && c !in k.from
    && k'.ests == k.ests && k'.queries == k.queries && k'.from == k.from && k'.settled == k.settled
    && k'.waiting == k.waiting && k'.holder == k.holder && k'.maps.ports == k.maps.ports
    && (c in k.maps.socks ==> c in k'.maps.socks)
    && (forall d :: d != c ==>
                      && (d in k'.redirected <==> d in k.redirected) && (d in k'.lost <==> d in k.lost)
                      && (d in k'.maps.socks <==> d in k.maps.socks))
    && (forall d :: d != c && d in k.maps.socks ==> k'.maps.socks[d] == k.maps.socks[d])
    && (forall d :: d != c && d in k.conns ==> d in k'.conns)
    && (forall d :: d in k'.conns ==> d == c || d in k.conns)
  }

  lemma {:induction false} ConnMovesTables(k: Core, c: Cookie, k': Core)
    requires ConnMoves(k, c, k') && PortsOk(k) && WaitingOk(k) && UsesOk(k)
    ensures PortsOk(k') && WaitingOk(k') && UsesOk(k')
  {
  }

  lemma {:induction false} ConnMovesEsts(k: Core, c: Cookie, k': Core)
    requires ConnMoves(k, c, k') && EstsOk(k)
    ensures EstsOk(k')
  {
  }

  lemma {:induction false} ConnMovesQueries(k: Core, c: Cookie, k': Core)
    requires ConnMoves(k, c, k') && QueriesOk(k) && UsesOk(k)
    ensures QueriesOk(k')
  {
  }

  lemma {:induction false} KeptByCallConnect(k: Core, c: Cookie, tgid: Pid, ask: Ask, k': Core)
    requires Enabled(k, CallConnect(c, tgid, ask)) && k' == Next(k, CallConnect(c, tgid, ask))
    requires SocksOk(k) && ConnsOk(k)
    ensures ConnMoves(k, c, k') && SocksOk(k') && ConnsOk(k')
    ensures Persists(k, k')
  {
  }

  lemma {:induction false} KeptByPassing(k: Core, c: Cookie, k': Core)
    requires c in k.conns && k.conns[c].Check? && Passes(k, k.conns[c].tgid, k.conns[c].ask)
    requires k' == NextConn(k, c)
    requires SocksOk(k) && ConnsOk(k)
    ensures ConnMoves(k, c, k') && SocksOk(k') && ConnsOk(k')
    ensures Persists(k, k')
  {
    assert ConnOk(k, c, k.conns[c]);
  }

  lemma {:induction false} KeptByFiltered(k: Core, c: Cookie, k': Core)
    requires c in k.conns && k.conns[c].Check? && !Passes(k, k.conns[c].tgid, k.conns[c].ask)
    requires k' == NextConn(k, c)
    requires SocksOk(k) && ConnsOk(k)
    ensures ConnMoves(k, c, k') && SocksOk(k') && ConnsOk(k')
    ensures Persists(k, k')
  {
    assert ConnOk(k, c, k.conns[c]);
  }

  lemma {:induction false} KeptByStore(k: Core, c: Cookie, k': Core)
    requires c in k.conns && k.conns[c].Store? && k' == NextConn(k, c)
    requires SocksOk(k) && ConnsOk(k)
    ensures ConnMoves(k, c, k') && SocksOk(k') && ConnsOk(k')
    ensures Persists(k, k')
  {
    assert ConnOk(k, c, k.conns[c]);
  }

  lemma {:induction false} KeptByWrite(k: Core, c: Cookie, k': Core)
    requires c in k.conns && k.conns[c].Write? && k' == NextConn(k, c)
    requires SocksOk(k) && ConnsOk(k)
    ensures ConnMoves(k, c, k') && SocksOk(k') && ConnsOk(k')
    ensures Persists(k, k')
  {
    assert ConnOk(k, c, k.conns[c]);
  }

  lemma {:induction false} EstablishedTables(k: Core, c: Cookie, p: Port, k': Core)
    requires Enabled(k, CallEstablished(c, p)) && k' == Next(k, CallEstablished(c, p))
    requires PortsOk(k) && SocksOk(k) && UsesOk(k)
    ensures PortsOk(k') && SocksOk(k') && UsesOk(k')
    ensures Persists(k, k')
  {
  }

  lemma {:induction false} EstablishedWaiting(k: Core, c: Cookie, p: Port, k': Core)
    requires Enabled(k, CallEstablished(c, p)) && k' == Next(k, CallEstablished(c, p))
    requires WaitingOk(k) && UsesOk(k) && c !in k.queries
    ensures WaitingOk(k')
  {
  }

  lemma {:induction false} EstablishedConnsEsts(k: Core, c: Cookie, p: Port, k': Core)
    requires Enabled(k, CallEstablished(c, p)) && k' == Next(k, CallEstablished(c, p))
    requires ConnsOk(k) && EstsOk(k) && UsesOk(k) && WaitingOk(k)
    ensures ConnsOk(k') && EstsOk(k')
  {
  }

  lemma {:induction false} EstablishedQueries(k: Core, c: Cookie, p: Port, k': Core)
    requires Enabled(k, CallEstablished(c, p)) && k' == Next(k, CallEstablished(c, p))
    requires QueriesOk(k) && UsesOk(k)
    ensures QueriesOk(k')
  {
  }

  lemma {:induction false} KeptByFound(k: Core, c: Cookie, k': Core)
    requires c in k.ests && c in k.maps.socks && k' == k.(ests := k.ests[c := Bind])
    requires EstsOk(k)
    ensures EstsOk(k')
    ensures Persists(k, k')
  {
  }

  /** The end of an established call on c: with a record, its port is bound; without, it is not. */
  ghost predicate Settles(k: Core, c: Cookie, k': Core) {
    && c in k.ests && EstOk(k, c, k.ests[c])
    && var p := k.from[c];
       k' == Settle(k.(maps := k.maps.(ports := if c in k.maps.socks then k.maps.ports[p := c] else k.maps.ports)), c, p)
  }

  lemma {:induction false} SettlesTables(k: Core, c: Cookie, k': Core)
    requires Settles(k, c, k') && PortsOk(k) && SocksOk(k) && UsesOk(k)
    ensures PortsOk(k') && SocksOk(k') && UsesOk(k')
    ensures Persists(k, k')
  {
  }

  lemma {:induction false} SettlesWaiting(k: Core, c: Cookie, k': Core)
    requires Settles(k, c, k') && WaitingOk(k) && SocksOk(k)
    ensures WaitingOk(k')
  {
  }

  lemma {:induction false} SettlesConnsEsts(k: Core, c: Cookie, k': Core)
    requires Settles(k, c, k') && ConnsOk(k) && EstsOk(k) && UsesOk(k)
    ensures ConnsOk(k') && EstsOk(k')
  {
  }

  lemma {:induction false} SettlesQueries(k: Core, c: Cookie, k': Core)
    requires Settles(k, c, k') && QueriesOk(k) && PortsOk(k)
    ensures QueriesOk(k')
  {
  }

  lemma {:induction false} CallQueryTables(k: Core, p: Port, room: nat, k': Core)
    requires Enabled(k, CallQuery(p, room)) && k' == Next(k, CallQuery(p, room))
    requires Tables(k)
    ensures Tables(k')
    ensures Persists(k, k')
  {
  }

  lemma {:induction false} CallQueryCalls(k: Core, p: Port, room: nat, k': Core)
    requires Enabled(k, CallQuery(p, room)) && k' == Next(k, CallQuery(p, room))
    requires Calls(k) && WaitingOk(k)
    ensures Calls(k')
  {
  }

  lemma {:induction false} GivingUpTables(k: Core, c: Cookie, k': Core)
    requires c in k.queries && !k.queries[c].DropSock? && QueryOk(k, c, k.queries[c])
    requires k' == k.(queries := k.queries - {c}, holder := k.holder - {k.queries[c].p})
    requires Tables(k)
    ensures Tables(k')
    ensures Persists(k, k')
  {
  }

  lemma {:induction false} GivingUpCalls(k: Core, c: Cookie, k': Core)
    requires c in k.queries && !k.queries[c].DropSock? && Calls(k) && UsesOk(k)
    requires k' == k.(queries := k.queries - {c}, holder := k.holder - {k.queries[c].p})
    ensures Calls(k')
  {
  }

  lemma {:induction false} KeptByMove(k: Core, c: Cookie, q: Qry, k': Core)
    requires c in k.queries && !k.queries[c].DropSock? && !q.DropSock? && QueryOk(k, c, q) && k' == Move(k, c, q)
    requires WaitingOk(k) && QueriesOk(k)
    ensures WaitingOk(k') && QueriesOk(k')
    ensures Persists(k, k')
  {
  }

  lemma {:induction false} DropPortTables(k: Core, c: Cookie, k': Core)
    requires c in k.queries && k.queries[c].DropPort? && QueryOk(k, c, k.queries[c]) && k' == NextQuery(k, c)
    requires Tables(k)
    ensures Tables(k')
    ensures Persists(k, k')
  {
  }

  lemma {:induction false} DropPortConnsEsts(k: Core, c: Cookie, k': Core)
    requires c in k.queries && k.queries[c].DropPort? && QueryOk(k, c, k.queries[c]) && k' == NextQuery(k, c)
    requires ConnsOk(k) && EstsOk(k)
    ensures ConnsOk(k') && EstsOk(k')
  {
  }

  lemma {:induction false} DropPortQueries(k: Core, c: Cookie, k': Core)
    requires c in k.queries && k.queries[c].DropPort? && QueryOk(k, c, k.queries[c]) && k' == NextQuery(k, c)
    requires QueriesOk(k) && PortsOk(k)
    ensures QueriesOk(k')
  {
    var q := k.queries[c];
    assert k'.queries == k.queries[c := DropSock(q.p, q.key)] && k'.maps.ports == k.maps.ports - {q.p};
    assert k'.maps.socks == k.maps.socks && k'.holder == k.holder - {q.p};
  }

  lemma {:induction false} DropSockTables(k: Core, c: Cookie, k': Core)
    requires c in k.queries && k.queries[c].DropSock? && QueryOk(k, c, k.queries[c]) && k' == NextQuery(k, c)
    requires Tables(k)
    ensures Tables(k')
    ensures Persists(k, k')
  {
  }

  lemma {:induction false} DropSockConnsEsts(k: Core, c: Cookie, k': Core)
    requires c in k.queries && k.queries[c].DropSock? && QueryOk(k, c, k.queries[c]) && k' == NextQuery(k, c)
    requires ConnsOk(k) && EstsOk(k)
    ensures ConnsOk(k') && EstsOk(k')
  {
  }

  lemma {:induction false} DropSockQueries(k: Core, c: Cookie, k': Core)
    requires c in k.queries && k.queries[c].DropSock? && QueryOk(k, c, k.queries[c]) && k' == NextQuery(k, c)
    requires QueriesOk(k) && PortsOk(k)
    ensures QueriesOk(k')
  {
  }

  lemma {:induction false} CoreKept(k: Core, e: Event)
    requires CoreInv(k) && Enabled(k, e)
    ensures CoreInv(Next(k, e))
    ensures Persists(k, Next(k, e))
  {
    var k' := Next(k, e);
    match e
    case Publish(config) => KeptByPublish(k, config, k');
    case CallConnect(c, tgid, ask) =>
      KeptByCallConnect(k, c, tgid, ask, k');
      ConnMovesKept(k, c, k');
    case CallEstablished(c, p) =>
      assert c in k.queries ==> QueryOk(k, c, k.queries[c]);
      EstablishedTables(k, c, p, k');
      EstablishedWaiting(k, c, p, k');
      EstablishedConnsEsts(k, c, p, k');
      EstablishedQueries(k, c, p, k');
    case CallQuery(p, room) => CallQueryTables(k, p, room, k'); CallQueryCalls(k, p, room, k');
    case ConnStep(c) => ConnStepKept(k, c, k');
    case EstStep(c) => EstStepKept(k, c, k');
    case QueryStep(c) => QueryStepKept(k, c, k');
  }

  lemma {:induction false} ConnMovesKept(k: Core, c: Cookie, k': Core)
    requires CoreInv(k) && ConnMoves(k, c, k') && SocksOk(k') && ConnsOk(k')
    ensures CoreInv(k')
  {
    ConnMovesTables(k, c, k');
    ConnMovesEsts(k, c, k');
    ConnMovesQueries(k, c, k');
  }

  lemma {:induction false} ConnStepKept(k: Core, c: Cookie, k': Core)
    requires CoreInv(k) && c in k.conns && k' == NextConn(k, c)
    ensures CoreInv(k')
    ensures Persists(k, k')
  {
    var n := k.conns[c];
    if n.Store? { StoreKept(k, c, k'); }
    else if n.Write? { WriteKept(k, c, k'); }
    else { CheckKept(k, c, k'); }
  }

  lemma {:induction false} StoreKept(k: Core, c: Cookie, k': Core)
    requires CoreInv(k) && c in k.conns && k.conns[c].Store? && k' == NextConn(k, c)
    ensures CoreInv(k') && Persists(k, k')
  {
    KeptByStore(k, c, k');
    ConnMovesKept(k, c, k');
  }

  lemma {:induction false} WriteKept(k: Core, c: Cookie, k': Core)
    requires CoreInv(k) && c in k.conns && k.conns[c].Write? && k' == NextConn(k, c)
    ensures CoreInv(k') && Persists(k, k')
  {
    KeptByWrite(k, c, k');
    ConnMovesKept(k, c, k');
  }

  lemma {:induction false} CheckKept(k: Core, c: Cookie, k': Core)
    requires CoreInv(k) && c in k.conns && k.conns[c].Check? && k' == NextConn(k, c)
    ensures CoreInv(k') && Persists(k, k')
  {
    if Passes(k, k.conns[c].tgid, k.conns[c].ask) { KeptByPassing(k, c, k'); } else { KeptByFiltered(k, c, k'); }
    ConnMovesKept(k, c, k');
  }

  lemma {:induction false} EstStepKept(k: Core, c: Cookie, k': Core)
    requires CoreInv(k) && c in k.ests && k' == NextEst(k, c, k.from[c])
    ensures CoreInv(k')
    ensures Persists(k, k')
  {
    if k.ests[c].Lookup? && c in k.maps.socks {
      FoundKept(k, c, k');
    } else {
      EndsBySettling(k, c, k');
      SettlesKept(k, c, k');
    }
  }

  lemma {:induction false} FoundKept(k: Core, c: Cookie, k': Core)
    requires CoreInv(k) && c in k.ests && c in k.maps.socks && k' == k.(ests := k.ests[c := Bind])
    ensures CoreInv(k') && Persists(k, k')
  {
    KeptByFound(k, c, k');
  }

  lemma {:induction false} SettlesKept(k: Core, c: Cookie, k': Core)
    requires CoreInv(k) && Settles(k, c, k')
    ensures CoreInv(k') && Persists(k, k')
  {
    SettlesTables(k, c, k');
    SettlesWaiting(k, c, k');
    SettlesConnsEsts(k, c, k');
    SettlesQueries(k, c, k');
  }

  lemma {:induction false} EndsBySettling(k: Core, c: Cookie, k': Core)
    requires c in k.ests && EstOk(k, c, k.ests[c]) && k' == NextEst(k, c, k.from[c])
    requires k.ests[c].Lookup? ==> c !in k.maps.socks
    ensures Settles(k, c, k')
  {
    PortsHaveRoom(k.maps.ports);
  }

  lemma {:induction false} QueryStepKept(k: Core, c: Cookie, k': Core)
    requires CoreInv(k) && c in k.queries && k' == NextQuery(k, c)
    ensures CoreInv(k')
    ensures Persists(k, k')
  {
    var q := k.queries[c];
    if GivesUp(k, q) {
      GivingUpTables(k, c, k');
      GivingUpCalls(k, c, k');
    } else if q.DropPort? {
      DropPortTables(k, c, k');
      DropPortConnsEsts(k, c, k');
      DropPortQueries(k, c, k');
    } else if q.DropSock? {
      DropSockTables(k, c, k');
      DropSockConnsEsts(k, c, k');
      DropSockQueries(k, c, k');
    } else {
      MovesOn(k, c, q, k');
      MoveKept(k, c, k'.queries[c], k');
    }
  }

  lemma {:induction false} MovesOn(k: Core, c: Cookie, q: Qry, k': Core)
    requires c in k.queries && q == k.queries[c] && QueryOk(k, c, q) && PortsOk(k)
    requires !GivesUp(k, q) && !q.DropPort? && !q.DropSock? && k' == NextQuery(k, c)
    ensures c in k'.queries && !k'.queries[c].DropSock? && k' == Move(k, c, k'.queries[c])
    ensures QueryOk(k, c, k'.queries[c])
  {
    match q
    case FindPort(_, _) =>
    case FindSock(_, _, _) =>
    case Copy(_, _, _, _) =>
  }

  lemma {:induction false} MoveKept(k: Core, c: Cookie, q: Qry, k': Core)
    requires CoreInv(k) && c in k.queries && !k.queries[c].DropSock? && !q.DropSock? && QueryOk(k, c, q)
    requires k' == Move(k, c, q)
    ensures CoreInv(k')
    ensures Persists(k, k')
  {
    KeptByMove(k, c, q, k');
  }

  lemma {:induction false} ObservedPersists(k: Core, h: History, k': Core)
    requires Observed(k, h) && Persists(k, k')
    ensures Observed(k', h)
  {
  }

  lemma {:induction false} ObservedKept(k: Core, h: History, e: Event)
    requires CoreInv(k) && Observed(k, h) && Enabled(k, e)
    ensures Observed(Next(k, e), Note(k, h, e))
  {
    var k' := Next(k, e);
    CoreKept(k, e);
    ObservedPersists(k, h, k');
    match e
    case ConnStep(c) => NewHopOk(k, h, c, k');
    case QueryStep(c) => NewAnswerOk(k, h, c, k');
    case _ =>
  }

  lemma {:induction false} NewHopOk(k: Core, h: History, c: Cookie, k': Core)
    requires c in k.conns && ConnOk(k, c, k.conns[c]) && Persists(k, k') && Observed(k', h)
    requires k' == NextConn(k, c)
    ensures Observed(k', NoteConn(k, h, k.conns[c], c))
  {
  }

  /** The cookie found under a client's port is the client's exactly when its record was accepted. */
  lemma {:induction false} KeyIsOwn(k: Core, c: Cookie, q: Qry)
    requires QueryOk(k, c, q) && PortsOk(k) && SocksOk(k) && !q.FindPort?
    ensures From(k, q.key, q.p) && (q.key == c <==> c !in k.lost)
  {
  }

  lemma {:induction false} NewAnswerOk(k: Core, h: History, c: Cookie, k': Core)
    requires CoreInv(k) && c in k.queries && Persists(k, k') && Observed(k', h)
    ensures Observed(k', NoteQuery(k, h, k.queries[c], c))
  {
    var q := k.queries[c];
    assert QueryOk(k, c, q);
    if !q.FindPort? { KeyIsOwn(k, c, q); }
    if GivesUp(k, q) { assert AnswerOk(k', Answer(q.p, c, q.room, if q.FindPort? then None else Some(q.key), None)); }
    else if q.Copy? { assert AnswerOk(k', Answer(q.p, c, q.room, Some(q.key), Some(Live(k, q)))); }
  }

  /** An insert fails only when the map is full, so only after MAX_CONNECTIONS inserts. */
  lemma {:induction false} CountedKept(k: Core, h: History, e: Event)
    requires Counted(k, h) && Enabled(k, e)
    ensures Counted(Next(k, e), Note(k, h, e))
  {
    match e
    case ConnStep(c) => CountedConn(k, h, c, k.conns[c]);
    case QueryStep(c) => CountedQuery(k, h, c, k.queries[c]);
    case EstStep(c) => CountedEst(k, h, c, k.from[c]);
    case _ =>
  }

  lemma {:induction false} CountedConn(k: Core, h: History, c: Cookie, n: Conn)
    requires Counted(k, h) && c in k.conns && n == k.conns[c]
    ensures Counted(NextConn(k, c), NoteConn(k, h, n, c))
  {
    match n
    case Check(_, _) =>
    case Store(_, _, _) =>
    case Write(_, _, _) =>
  }

  lemma {:induction false} CountedQuery(k: Core, h: History, c: Cookie, q: Qry)
    requires Counted(k, h) && c in k.queries && q == k.queries[c]
    ensures Counted(NextQuery(k, c), NoteQuery(k, h, q, c))
  {
    QueryLeaves(k, c, q);
    ConsumedNote(k, h, c, q);
  }

  lemma QueryLeaves(k: Core, c: Cookie, q: Qry)
    requires c in k.queries && q == k.queries[c]
    ensures NextQuery(k, c).maps == QueryMaps(k.maps, q) && NextQuery(k, c).lost == k.lost
  {
    if GivesUp(k, q) {
    } else {
      match q
      case FindPort(_, _) =>
      case FindSock(_, _, _) =>
      case Copy(_, _, _, _) =>
      case DropPort(_, _) =>
      case DropSock(_, _) =>
    }
  }

  /** A query consumes a record exactly when it deletes one. */
  lemma ConsumedNote(k: Core, h: History, c: Cookie, q: Qry)
    ensures var h' := NoteQuery(k, h, q, c);
            h'.inserted == h.inserted
            && |QueryMaps(k.maps, q).socks| + h'.consumed == |k.maps.socks| + h.consumed
  {
  }

  lemma {:induction false} CountedEst(k: Core, h: History, c: Cookie, p: Port)
    requires Counted(k, h) && c in k.ests
    ensures Counted(NextEst(k, c, p), h)
  {
    assert NextEst(k, c, p).maps == EstMaps(k.maps, c, p, k.ests[c]);
  }

  lemma {:induction false} StepInv(s: State, e: Event)
    requires Inv(s) && Enabled(s.core, e)
    ensures Inv(Apply(s, e))
  {
    CoreKept(s.core, e);
    ObservedKept(s.core, s.history, e);
    CountedKept(s.core, s.history, e);
  }

  lemma {:induction false} RunInv(ss: seq<State>, es: seq<Event>, i: nat)
    requires IsRun(ss, es) && i < |ss|
    ensures Inv(ss[i])
  {
    if i > 0 {
      RunInv(ss, es, i - 1);
      StepInv(ss[i - 1], es[i - 1]);
    }
  }

  /** The invariant holds in every state of every run. */
  lemma ReachableInv(s: State)
    requires Reachable(s)
    ensures Inv(s)
  {
    var ss: seq<State>, es: seq<Event> :| IsRun(ss, es) && ss[|es|] == s;
    RunInv(ss, es, |es|);
  }
}
