/** Machine words and byte order: bpf-utils.h, the address fields proxy.c reads and
    writes, and the decoding main.go applies to the returned sockaddr_in. */
module Wire {
  type Byte = bv8
  type U16 = bv16
  type U32 = bv32
  type U64 = bv64

  datatype Host = LittleEndian | BigEndian

  /** An IPv4 address, most significant byte first, and a port number. */
  datatype Endpoint = Endpoint(a: Byte, b: Byte, c: Byte, d: Byte, port: U16)

  // ----- memory -----

  datatype Bytes2 = Bytes2(b0: Byte, b1: Byte)

  datatype Bytes4 = Bytes4(b0: Byte, b1: Byte, b2: Byte, b3: Byte)

  /** The 16-bit word a host reads from two consecutive bytes. */
  function Load16(host: Host, m: Bytes2): U16 {
    if host.LittleEndian? then (m.b0 as U16) | ((m.b1 as U16) << 8)
    else ((m.b0 as U16) << 8) | (m.b1 as U16)
  }

  /** The two bytes a host stores for a 16-bit word. */
  function Store16(host: Host, x: U16): Bytes2 {
    var lo, hi := (x & 0xff) as Byte, (x >> 8) as Byte;
    if host.LittleEndian? then Bytes2(lo, hi) else Bytes2(hi, lo)
  }

  function Load32(host: Host, m: Bytes4): U32 {
    if host.LittleEndian? then
      (m.b0 as U32) | ((m.b1 as U32) << 8) | ((m.b2 as U32) << 16) | ((m.b3 as U32) << 24)
    else
      ((m.b0 as U32) << 24) | ((m.b1 as U32) << 16) | ((m.b2 as U32) << 8) | (m.b3 as U32)
  }

  function Store32(host: Host, x: U32): Bytes4 {
    var b0, b1, b2, b3 :=
      (x & 0xff) as Byte, ((x >> 8) & 0xff) as Byte, ((x >> 16) & 0xff) as Byte, (x >> 24) as Byte;
    if host.LittleEndian? then Bytes4(b0, b1, b2, b3) else Bytes4(b3, b2, b1, b0)
  }

  // ----- bpf-utils.h -----

  function Bswap16(x: U16): U16 {
    (x << 8) | (x >> 8)
  }

  function Bswap32(x: U32): U32 {
    (x << 24) | ((x << 8) & 0xff0000) | ((x >> 8) & 0xff00) | (x >> 24)
  }

  function Ntohs(host: Host, x: U16): U16 {
    if host.LittleEndian? then Bswap16(x) else x
  }

  function Htons(host: Host, x: U16): U16 {
    if host.LittleEndian? then Bswap16(x) else x
  }

  function Ntohl(host: Host, x: U32): U32 {
    if host.LittleEndian? then Bswap32(x) else x
  }

  function Htonl(host: Host, x: U32): U32 {
    if host.LittleEndian? then Bswap32(x) else x
  }

  // ----- the four stages an address passes through -----

  /** Stage 1: `user_ip4` of a socket that calls connect for e (bytes in network order). */
  function UserIp4(host: Host, e: Endpoint): U32 {
    Load32(host, Bytes4(e.a, e.b, e.c, e.d))
  }

  /** Stage 1: `user_port`, the 16-bit network-order port widened to 32 bits. */
  function UserPort(host: Host, e: Endpoint): U32 {
    PortWord(host, e.port) as U32
  }

  function PortWord(host: Host, port: U16): U16 {
    Load16(host, Bytes2((port >> 8) as Byte, (port & 0xff) as Byte))
  }

  /** The destination the kernel connects to when a hook leaves these two fields behind. */
  function Destination(host: Host, ip4: U32, port: U32): Endpoint {
    var s := Store32(host, ip4);
    Endpoint(s.b0, s.b1, s.b2, s.b3, Ntohs(host, (port & 0xffff) as U16))
  }

  /** Stage 2: the host-order address and port that cg_connect4 records. */
  function RecordedAddr(host: Host, ip4: U32): U32 {
    Ntohl(host, ip4)
  }

  function RecordedPort(host: Host, port: U32): U16 {
    (Ntohl(host, port) >> 16) as U16
  }

  /** Stage 3: the eight leading bytes of the sockaddr_in that cg_sock_opt fills. */
  function SockaddrBytes(host: Host, family: U16, addr: U32, port: U16): (s: seq<Byte>)
    ensures |s| == 8
  {
    var f, p, a := Store16(host, family), Store16(host, Htons(host, port)), Store32(host, Htonl(host, addr));
    [f.b0, f.b1, p.b0, p.b1, a.b0, a.b1, a.b2, a.b3]
  }

  /** Stage 4: the address and port the Go side reads out of those bytes. */
  function GoDecode(s: seq<Byte>): Endpoint
    requires |s| >= 8
  {
    Endpoint(s[4], s[5], s[6], s[7], ((s[2] as U16) << 8) | (s[3] as U16))
  }

  // ----- laws -----

  /** Each pair of macros is an involution on either host. */
  lemma SwapsCancel(host: Host, x: U16, y: U32)
    ensures Ntohs(host, Htons(host, x)) == x && Htons(host, Ntohs(host, x)) == x
    ensures Ntohl(host, Htonl(host, y)) == y && Htonl(host, Ntohl(host, y)) == y
  {
  }

  /** The shift proxy.c uses to widen a port agrees with htons exactly on little-endian
      hosts; on a big-endian host only port 0 survives it. */
  lemma ShiftedPortIsHtons(host: Host, p: U16)
    ensures Htonl(host, (p as U32) << 16) == Htons(host, p) as U32 <==> host.LittleEndian? || p == 0
  {
  }

  /** Storing what was loaded gives back the bytes. */
  lemma MemoryRoundTrip(m: Bytes4)
    ensures Store32(LittleEndian, Load32(LittleEndian, m)) == m
    ensures Store32(BigEndian, Load32(BigEndian, m)) == m
  {
    BytesOfWord(m.b0, m.b1, m.b2, m.b3);
    BytesOfWord(m.b3, m.b2, m.b1, m.b0);
  }

  lemma BytesOfWord(b0: Byte, b1: Byte, b2: Byte, b3: Byte)
    ensures var x := (b0 as U32) | ((b1 as U32) << 8) | ((b2 as U32) << 16) | ((b3 as U32) << 24);
            && (x & 0xff) as Byte == b0 && ((x >> 8) & 0xff) as Byte == b1
            && ((x >> 16) & 0xff) as Byte == b2 && (x >> 24) as Byte == b3
  {
  }

  /** A port in network order, read back as the Go side reads it. */
  lemma PortBytes(host: Host, p: U16)
    ensures var s := Store16(host, Htons(host, p)); ((s.b0 as U16) << 8) | (s.b1 as U16) == p
    ensures Ntohs(host, PortWord(host, p)) == p
  {
    match host
    case LittleEndian =>
    case BigEndian =>
  }

  /** The extracted port, for every value of the 32-bit field; a field that holds a 16-bit port gives
      0 on a big-endian host. */
  lemma ExtractedPort(host: Host, port: U32)
    ensures host.LittleEndian? ==> RecordedPort(host, port) == Ntohs(host, (port & 0xffff) as U16)
    ensures host.BigEndian? && port <= 0xffff ==> RecordedPort(host, port) == 0
  {
  }

  /** What connect was asked for is what the kernel fields say. */
  lemma DestinationOfUserFields(host: Host, e: Endpoint)
    ensures Destination(host, UserIp4(host, e), UserPort(host, e)) == e
  {
    match host
    case LittleEndian => DestinationOnLittle(e);
    case BigEndian => DestinationOnBig(e);
  }

  lemma DestinationOnLittle(e: Endpoint)
    ensures Destination(LittleEndian, UserIp4(LittleEndian, e), UserPort(LittleEndian, e)) == e
  {
    MemoryRoundTrip(Bytes4(e.a, e.b, e.c, e.d));
    PortBytes(LittleEndian, e.port);
    NarrowWidened(PortWord(LittleEndian, e.port));
  }

  lemma DestinationOnBig(e: Endpoint)
    ensures Destination(BigEndian, UserIp4(BigEndian, e), UserPort(BigEndian, e)) == e
  {
    MemoryRoundTrip(Bytes4(e.a, e.b, e.c, e.d));
    PortBytes(BigEndian, e.port);
    NarrowWidened(PortWord(BigEndian, e.port));
  }

  lemma NarrowWidened(x: U16)
    ensures ((x as U32) & 0xffff) as U16 == x && (x as U32) <= 0xffff
  {
  }

  /** What the Go side decodes from any recorded pair: the same address and port. */
  lemma Returned(host: Host, family: U16, addr: U32, port: U16)
    ensures var d, s := GoDecode(SockaddrBytes(host, family, addr, port)), Store32(host, Htonl(host, addr));
            d == Endpoint(s.b0, s.b1, s.b2, s.b3, port)
  {
    PortBytes(host, port);
  }

  /** Recording, returning and decoding an address is the identity on every address and port
      of a little-endian host. On a big-endian host the extracted port is always 0. */
  lemma ChainExact(host: Host, family: U16, e: Endpoint)
    ensures var ip4, port := UserIp4(host, e), UserPort(host, e);
            GoDecode(SockaddrBytes(host, family, RecordedAddr(host, ip4), RecordedPort(host, port))) == e
            <==> host.LittleEndian? || e.port == 0
  {
    var ip4, port := UserIp4(host, e), UserPort(host, e);
    DestinationOfUserFields(host, e);
    Returned(host, family, RecordedAddr(host, ip4), RecordedPort(host, port));
    SwapsCancel(host, 0, ip4);
    NarrowWidened(PortWord(host, e.port));
    ExtractedPort(host, port);
  }

  /** The same chain on whatever words the two context fields hold. */
  lemma ChainOnFields(family: U16, ip4: U32, port: U32)
    ensures GoDecode(SockaddrBytes(LittleEndian, family, RecordedAddr(LittleEndian, ip4), RecordedPort(LittleEndian, port)))
            == Destination(LittleEndian, ip4, port)
  {
    Returned(LittleEndian, family, RecordedAddr(LittleEndian, ip4), RecordedPort(LittleEndian, port));
    SwapsCancel(LittleEndian, 0, ip4);
    ExtractedPort(LittleEndian, port);
  }

  /** The overwritten fields name 127.0.0.1 and the proxy's port. */
  lemma RedirectTarget(proxyPort: U16)
    ensures Destination(LittleEndian, Htonl(LittleEndian, 0x7f000001), Htonl(LittleEndian, (proxyPort as U32) << 16))
            == Endpoint(127, 0, 0, 1, proxyPort)
  {
  }
}
