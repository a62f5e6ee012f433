/** The three programs of proxy.c, each run to completion, over the three maps they share.
    The class has the program text's shape; the functions above it say what one complete run
    does to the values, and Redirect takes the programs apart at their map operations. */
module Hooks {
  import opened Wire
  import opened BpfMap

  const MAX_CONNECTIONS: nat := 100000
  const AF_INET: U32 := 2
  const IPPROTO_TCP: U32 := 6
  const SO_ORIGINAL_DST: U32 := 80
  const ACTIVE_ESTABLISHED: U32 := 4
  const SOCKADDR_SIZE: nat := 16
  const HTTP_PORT: U16 := 9000

  /** bpf_get_socket_cookie: an opaque value, one per socket. */
  type Cookie = nat

  /** A __u16 port used as a map key, as a number. */
  type Port = p: nat | p < 0x1_0000

  /** A process id: the upper half of bpf_get_current_pid_tgid, as a number. */
  type Pid = p: nat | p < 0x1_0000_0000_0000_0000

  function Tgid(pidTgid: U64): Pid {
    (pidTgid >> 32) as Pid
  }

  /** bpf_get_current_pid_tgid in thread tid of process pid. */
  function CurrentPidTgid(pid: U32, tid: U32): U64 {
    ((pid as U64) << 32) | (tid as U64)
  }

  /** Its upper half names the process, whichever thread runs. */
  lemma ThreadsOfProcess(pid: U32, tid: U32)
    ensures Tgid(CurrentPidTgid(pid, tid)) == pid as Pid
  {
    UpperHalf(pid, tid);
  }

  lemma UpperHalf(pid: U32, tid: U32)
    ensures ((((pid as U64) << 32) | (tid as U64)) >> 32) as Pid == pid as Pid
  {
    assert (((pid as U64) << 32) | (tid as U64)) >> 32 == pid as U64;
  }

  datatype Config = Config(proxyPort: U16, proxyPid: Pid)

  datatype Socket = Socket(srcAddr: U32, srcPort: U16, dstAddr: U32, dstPort: U16)

  /** map_config is a one-entry array map, so it always holds a value: zeros until published. */
  datatype Maps = Maps(config: Config, socks: map<Cookie, Socket>, ports: map<Port, Cookie>)

  const EMPTY_MAPS := Maps(Config(0, 0), map[], map[])

  /** struct bpf_sock_addr as cg_connect4 sees it. */
  datatype Connect = Connect(family: U32, protocol: U32, ip4: U32, port: U32)

  /** struct bpf_sockopt as cg_sock_opt sees it; dstPort is the peer's port in network order. */
  datatype Query = Query(optname: U32, family: U32, protocol: U32, dstPort: U16,
                         optval: seq<Byte>, optlen: int, retval: int)

  // ----- what a connect asks for, and what is recorded of it -----

  function Asked(k: Connect): Endpoint {
    Destination(LittleEndian, k.ip4, k.port)
  }

  /** The address-family, protocol and port filters. */
  predicate Eligible(k: Connect) {
    && k.family == AF_INET && k.protocol == IPPROTO_TCP
    && k.port == Htons(LittleEndian, HTTP_PORT) as U32
  }

  /** In plain numbers: IPv4, TCP, and port 9000 in a field that holds nothing but a port. */
  lemma EligibleMeans(k: Connect)
    ensures Eligible(k) <==> k.family == 2 && k.protocol == 6 && k.port <= 0xffff && Asked(k).port == 9000
  {
    if k.port <= 0xffff && Asked(k).port == 9000 { PortFieldIsExact(k.port); }
  }

  predicate Intercepts(config: Config, pidTgid: U64, k: Connect) {
    Eligible(k) && Tgid(pidTgid) != config.proxyPid
  }

  function RecordOf(k: Connect): Socket {
    Socket(0, 0, RecordedAddr(LittleEndian, k.ip4), RecordedPort(LittleEndian, k.port))
  }

  function Overwritten(config: Config, k: Connect): Connect {
    k.(ip4 := Htonl(LittleEndian, 0x7f000001),
       port := Htonl(LittleEndian, (config.proxyPort as U32) << 16))
  }

  /** What the Go side decodes from the sockaddr_in filled from a record. */
  function Reply(sock: Socket): Endpoint {
    GoDecode(SockaddrBytes(LittleEndian, AF_INET as U16, sock.dstAddr, sock.dstPort))
  }

  /** A record gives back what was asked for. */
  lemma ReplyOfRecord(k: Connect)
    ensures Reply(RecordOf(k)) == Asked(k)
  {
    ChainOnFields(AF_INET as U16, k.ip4, k.port);
  }

  /** A redirected connect goes to the proxy. */
  lemma OverwrittenGoesToProxy(config: Config, k: Connect)
    ensures Asked(Overwritten(config, k)) == Endpoint(127, 0, 0, 1, config.proxyPort)
  {
    RedirectTarget(config.proxyPort);
  }

  // ----- one complete run of each program, on values -----

  function Connect4Effect(m: Maps, pidTgid: U64, cookie: Cookie, k: Connect): (Maps, Connect) {
    if Intercepts(m.config, pidTgid, k) then
      (m.(socks := Update(m.socks, MAX_CONNECTIONS, cookie, RecordOf(k))), Overwritten(m.config, k))
    else (m, k)
  }

  function SockOpsEffect(m: Maps, family: U32, op: U32, localPort: U32, cookie: Cookie): Maps {
    if family == AF_INET && op == ACTIVE_ESTABLISHED && cookie in m.socks then
      m.(ports := Update(m.ports, MAX_CONNECTIONS, LocalPort(localPort), cookie))
    else m
  }

  /** ctx->local_port, in host order, cut to 16 bits. */
  function LocalPort(localPort: U32): Port {
    ((localPort & 0xffff) as U16) as Port
  }

  /** The client's port: sk->dst_port of the proxy's end of the connection. */
  function PeerPort(dstPort: U16): Port {
    Ntohs(LittleEndian, dstPort) as Port
  }

  /** The two ends of a connection meet in map_ports: the number the client's established program
      binds is the one under which the proxy's query looks, for every port. */
  lemma PortsMeet(p: U16)
    ensures LocalPort(p as U32) == PeerPort(PortWord(LittleEndian, p)) == p as Port
  {
    PortBytes(LittleEndian, p);
    NarrowWidened(p);
  }

  predicate Answers(m: Maps, q: Query) {
    && q.optname == SO_ORIGINAL_DST && q.family == AF_INET && q.protocol == IPPROTO_TCP
    && var p := PeerPort(q.dstPort);
    && p in m.ports && m.ports[p] in m.socks
    && |q.optval| >= SOCKADDR_SIZE
  }

  function SockOptEffect(m: Maps, q: Query): (Maps, Query) {
    if Answers(m, q) then
      var p := PeerPort(q.dstPort);
      var cookie := m.ports[p];
      var s := SockaddrBytes(LittleEndian, q.family as U16, m.socks[cookie].dstAddr, m.socks[cookie].dstPort);
      (m.(ports := Delete(m.ports, p), socks := Delete(m.socks, cookie)),
       q.(optval := s + q.optval[|s|..], optlen := SOCKADDR_SIZE, retval := 0))
    else (m, q)
  }

  /** Each filter of cg_connect4 on its own lets a connect through untouched. */
  lemma ConnectFilters(m: Maps, pid: U32, tid: U32, cookie: Cookie, k: Connect)
    requires k.family != 2 || k.protocol != 6 || Asked(k).port != 9000 || m.config.proxyPid == pid as Pid
    ensures Connect4Effect(m, CurrentPidTgid(pid, tid), cookie, k) == (m, k)
  {
    ThreadsOfProcess(pid, tid);
  }

  lemma ConnectFiltersHold(m: Maps, pid: U32, tid: U32, cookie: Cookie, k: Connect)
    ensures k.family != AF_INET || k.protocol != IPPROTO_TCP || Asked(k).port != HTTP_PORT
            || m.config.proxyPid == pid as Pid ==>
              Connect4Effect(m, CurrentPidTgid(pid, tid), cookie, k) == (m, k)
  {
    if k.family != 2 || k.protocol != 6 || Asked(k).port != 9000 || m.config.proxyPid == pid as Pid {
      ConnectFilters(m, pid, tid, cookie, k);
    }
  }

  /** What passes them all is recorded, if there is room, as exactly what it asked for, and goes to the
      proxy. */
  lemma ConnectPasses(m: Maps, pid: U32, tid: U32, cookie: Cookie, k: Connect)
    requires k.family == 2 && k.protocol == 6 && k.port <= 0xffff && Asked(k).port == 9000
    requires m.config.proxyPid != pid as Pid
    ensures var (m', k') := Connect4Effect(m, CurrentPidTgid(pid, tid), cookie, k);
            && Asked(k') == Endpoint(127, 0, 0, 1, m.config.proxyPort)
            && k'.family == k.family && k'.protocol == k.protocol
            && m'.config == m.config && m'.ports == m.ports
            && (cookie in m'.socks <==> cookie in m.socks || |m.socks| < 100000)
            && (cookie in m'.socks ==> Reply(m'.socks[cookie]) == Asked(k))
            && (forall c :: c != cookie ==> (c in m'.socks <==> c in m.socks))
            && (forall c :: c != cookie && c in m.socks ==> m'.socks[c] == m.socks[c])
  {
    ThreadsOfProcess(pid, tid);
    PortFieldIsExact(k.port);
    OverwrittenGoesToProxy(m.config, k);
    ReplyOfRecord(k);
  }

  lemma PortFieldIsExact(port: U32)
    requires port <= 0xffff && Ntohs(LittleEndian, (port & 0xffff) as U16) == 9000
    ensures port == Htons(LittleEndian, 9000) as U32
  {
  }

  /** Any other callback, or another family, binds nothing; an established one binds exactly when the
      socket has a record. */
  lemma SockOpsFilters(m: Maps, family: U32, op: U32, localPort: U32, cookie: Cookie)
    ensures var m' := SockOpsEffect(m, family, op, localPort, cookie);
            && m'.config == m.config && m'.socks == m.socks
            && (family != 2 || op != 4 || cookie !in m.socks ==> m' == m)
            && (family == 2 && op == 4 && cookie in m.socks ==>
                  m'.ports == Update(m.ports, 100000, LocalPort(localPort), cookie))
  {
  }

  /** Each filter of cg_sock_opt on its own leaves the maps and the query alone. */
  lemma QueryFilters(m: Maps, q: Query)
    requires || q.optname != 80 || q.family != 2 || q.protocol != 6 || |q.optval| < 16
             || PeerPort(q.dstPort) !in m.ports || m.ports[PeerPort(q.dstPort)] !in m.socks
    ensures SockOptEffect(m, q) == (m, q)
  {
  }

  /** What passes them all is answered, and both entries are consumed. */
  lemma QueryPasses(m: Maps, q: Query)
    requires q.optname == 80 && q.family == 2 && q.protocol == 6 && |q.optval| >= 16
    requires PeerPort(q.dstPort) in m.ports && m.ports[PeerPort(q.dstPort)] in m.socks
    ensures var p := PeerPort(q.dstPort);
            var (m', q') := SockOptEffect(m, q);
            && GoDecode(q'.optval) == Reply(m.socks[m.ports[p]])
            && Load16(LittleEndian, Bytes2(q'.optval[0], q'.optval[1])) == 2
            && q'.optval[8..] == q.optval[8..] && q'.optlen == 16 && q'.retval == 0
            && m' == m.(ports := m.ports - {p}, socks := m.socks - {m.ports[p]})
  {
    AnsweredReply(m, q);
  }

  /** An answered query returns the recorded destination and leaves the rest of the buffer alone. */
  lemma AnsweredReply(m: Maps, q: Query)
    requires Answers(m, q)
    ensures var q' := SockOptEffect(m, q).1;
            && |q'.optval| == |q.optval| && q'.optval[8..] == q.optval[8..]
            && GoDecode(q'.optval) == Reply(m.socks[m.ports[PeerPort(q.dstPort)]])
  {
    var sock := m.socks[m.ports[PeerPort(q.dstPort)]];
    var s := SockaddrBytes(LittleEndian, q.family as U16, sock.dstAddr, sock.dstPort);
    DecodePrefix(s, q.optval[8..]);
  }

  lemma DecodePrefix(s: seq<Byte>, rest: seq<Byte>)
    requires |s| == 8
    ensures GoDecode(s + rest) == GoDecode(s) && (s + rest)[8..] == rest
  {
  }

  // ----- the programs -----

  class SockAddrContext {
    const family: U32
    const protocol: U32
    var userIp4: U32
    var userPort: U32

    constructor (k: Connect)
      ensures View() == k
    {
      family, protocol, userIp4, userPort := k.family, k.protocol, k.ip4, k.port;
    }

    ghost function View(): Connect
      reads this
    {
      Connect(family, protocol, userIp4, userPort)
    }
  }

  class SockOptContext {
    const optname: U32
    const family: U32
    const protocol: U32
    const dstPort: U16
    const optval: array<Byte>
    var optlen: int
    var retval: int

    constructor (optname: U32, family: U32, protocol: U32, dstPort: U16, optval: array<Byte>, optlen: int, retval: int)
      ensures View() == Query(optname, family, protocol, dstPort, optval[..], optlen, retval)
    {
      this.optname, this.family, this.protocol, this.dstPort := optname, family, protocol, dstPort;
      this.optval, this.optlen, this.retval := optval, optlen, retval;
    }

    ghost function View(): Query
      reads this, optval
    {
      Query(optname, family, protocol, dstPort, optval[..], optlen, retval)
    }
  }

  class Kernel {
    var mapConfig: Config
    var mapSocks: map<Cookie, Socket>
    var mapPorts: map<Port, Cookie>

    constructor ()
      ensures View() == EMPTY_MAPS
    {
      mapConfig, mapSocks, mapPorts := Config(0, 0), map[], map[];
    }

    ghost function View(): Maps
      reads this
    {
      Maps(mapConfig, mapSocks, mapPorts)
    }

    /** main.go publishing its port and pid. */
    method PublishConfig(config: Config)
      modifies this`mapConfig
      ensures View() == old(View()).(config := config)
    {
      mapConfig := config;
    }

    /** Called by thread tid of process pid. */
    method CgConnect4(ctx: SockAddrContext, pid: U32, tid: U32, cookie: Cookie) returns (verdict: int)
      modifies this`mapSocks, ctx
      ensures verdict == 1
      ensures (View(), ctx.View()) == Connect4Effect(old(View()), CurrentPidTgid(pid, tid), cookie, old(ctx.View()))
      ensures ctx.family != AF_INET || ctx.protocol != IPPROTO_TCP || old(Asked(ctx.View())).port != HTTP_PORT
              || old(mapConfig).proxyPid == pid as Pid ==>
                View() == old(View()) && ctx.View() == old(ctx.View())
    {
      ConnectFiltersHold(View(), pid, tid, cookie, ctx.View());
      verdict := Connect4(ctx, CurrentPidTgid(pid, tid), cookie);
    }

    /** The program text, given what bpf_get_current_pid_tgid returns. */
    method Connect4(ctx: SockAddrContext, pidTgid: U64, cookie: Cookie) returns (verdict: int)
      modifies this`mapSocks, ctx
      ensures verdict == 1
      ensures (View(), ctx.View()) == Connect4Effect(old(View()), pidTgid, cookie, old(ctx.View()))
    {
      if ctx.family != AF_INET { return 1; }
      if ctx.protocol != IPPROTO_TCP { return 1; }
      if ctx.userPort != Htons(LittleEndian, HTTP_PORT) as U32 { return 1; }
      var conf := mapConfig;
      if Tgid(pidTgid) == conf.proxyPid { return 1; }

      var dstAddr := Ntohl(LittleEndian, ctx.userIp4);
      var dstPort := (Ntohl(LittleEndian, ctx.userPort) >> 16) as U16;
      var sock := Socket(0, 0, 0, 0);
      sock := sock.(dstAddr := dstAddr);
      sock := sock.(dstPort := dstPort);
      mapSocks := Update(mapSocks, MAX_CONNECTIONS, cookie, sock);

      ctx.userIp4 := Htonl(LittleEndian, 0x7f000001);
      ctx.userPort := Htonl(LittleEndian, (conf.proxyPort as U32) << 16);
      return 1;
    }

    method CgSockOps(family: U32, op: U32, localPort: U32, cookie: Cookie) returns (verdict: int)
      modifies this`mapPorts
      ensures verdict == 0
      ensures View() == SockOpsEffect(old(View()), family, op, localPort, cookie)
      ensures family != AF_INET || op != ACTIVE_ESTABLISHED ==> View() == old(View())
    {
      if family != AF_INET { return 0; }
      if op == ACTIVE_ESTABLISHED {
        if cookie in mapSocks {
          var srcPort := LocalPort(localPort);
          mapPorts := Update(mapPorts, MAX_CONNECTIONS, srcPort, cookie);
        }
      }
      return 0;
    }

    /** The cookie used by the last delete is the value read when the port was looked up. */
    method CgSockOpt(ctx: SockOptContext) returns (verdict: int)
      modifies this`mapPorts, this`mapSocks, ctx, ctx.optval
      ensures verdict == 1
      ensures (View(), ctx.View()) == SockOptEffect(old(View()), old(ctx.View()))
      ensures ctx.optname != SO_ORIGINAL_DST || ctx.family != AF_INET || ctx.protocol != IPPROTO_TCP
              || ctx.optval.Length < SOCKADDR_SIZE ==>
                View() == old(View()) && ctx.View() == old(ctx.View())
    {
      if ctx.optname != SO_ORIGINAL_DST { return 1; }
      if ctx.family != AF_INET { return 1; }
      if ctx.protocol != IPPROTO_TCP { return 1; }
      var srcPort := PeerPort(ctx.dstPort);
      if srcPort !in mapPorts { return 1; }
      var cookie := mapPorts[srcPort];
      if cookie !in mapSocks { return 1; }
      var sock := mapSocks[cookie];
      if ctx.optval.Length < SOCKADDR_SIZE { return 1; }

      ctx.optlen := SOCKADDR_SIZE;
      FillSockaddr(ctx.optval, ctx.family as U16, sock.dstAddr, sock.dstPort);
      ctx.retval := 0;

      mapPorts := Delete(mapPorts, srcPort);
      mapSocks := Delete(mapSocks, cookie);
      return 1;
    }
  }

  /** The three assignments to the sockaddr_in at the front of the option buffer. */
  method FillSockaddr(sa: array<Byte>, family: U16, dstAddr: U32, dstPort: U16)
    requires sa.Length >= SOCKADDR_SIZE
    modifies sa
    ensures sa[..] == SockaddrBytes(LittleEndian, family, dstAddr, dstPort) + old(sa[..])[8..]
  {
    FillWords(sa, Store16(LittleEndian, family), Store32(LittleEndian, Htonl(LittleEndian, dstAddr)),
              Store16(LittleEndian, Htons(LittleEndian, dstPort)));
  }

  method FillWords(sa: array<Byte>, f: Bytes2, a: Bytes4, p: Bytes2)
    requires sa.Length >= SOCKADDR_SIZE
    modifies sa
    ensures sa[..] == [f.b0, f.b1, p.b0, p.b1, a.b0, a.b1, a.b2, a.b3] + old(sa[..])[8..]
  {
    PutShort(sa, 0, f);
    PutShort(sa, 4, Bytes2(a.b0, a.b1));
    PutShort(sa, 6, Bytes2(a.b2, a.b3));
    PutShort(sa, 2, p);
  }

  method PutShort(sa: array<Byte>, at: nat, m: Bytes2)
    requires at + 2 <= sa.Length
    modifies sa
    ensures sa[at] == m.b0 && sa[at + 1] == m.b1
    ensures forall i :: 0 <= i < sa.Length && i != at && i != at + 1 ==> sa[i] == old(sa[i])
  {
    sa[at] := m.b0;
    sa[at + 1] := m.b1;
  }
}
