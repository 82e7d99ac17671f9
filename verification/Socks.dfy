/**
 * The SOCKS messages of netfilter/SOCKS.h as the program fills them in and reads them back:
 * sections 3, 4, 6 and 7 of RFC 1928 and section 2 of RFC 1929.
 */
module Socks {
  import opened Bytes

  const SOCKS_5: byte := 5
  const S5C_UDP_ASSOCIATE: byte := 3
  const S5AM_NONE: byte := 0
  const S5AM_UNPW: byte := 2
  const SOCKS5_ADDR_IPV4: byte := 1
  const SOCKS5_ADDR_IPV6: byte := 4

  // sizeof of the packed records.
  const SIZEOF_AUTH_RESPONSE := 2
  const SIZEOF_RESPONSE := 5
  const SIZEOF_UDP_REQUEST := 4
  const SIZEOF_UDP_REQUEST_IPV4 := 10
  const SIZEOF_UDP_REQUEST_IPV6 := 22

  const PACKET_SIZE := 65536

  type Ip4 = s: seq<byte> | |s| == 4 witness [0, 0, 0, 0]
  type Ip6 = s: seq<byte> | |s| == 16 witness seq(16, _ => 0)
  // Two bytes in network order.
  type Port = s: seq<byte> | |s| == 2 witness [0, 0]
  // A sockaddr buffer of NF_MAX_ADDRESS_LENGTH bytes.
  type RawAddress = s: seq<byte> | |s| == 28 witness seq(28, _ => 0)
  // What a receive operation reads into.
  type Packet = s: seq<byte> | |s| == PACKET_SIZE witness seq(PACKET_SIZE, _ => 0)

  // Families other than AF_INET are handled as IPv6.
  datatype SockAddr = V4(ip: Ip4, port: Port) | V6(ip6: Ip6, port: Port)

  datatype Datagram = Datagram(remote: SockAddr, payload: seq<byte>)

  // ---------------------------------------------------------------- handshake

  function Greeting(user: seq<byte>): seq<byte> {
    [SOCKS_5, 1, if user == [] then S5AM_NONE else S5AM_UNPW]
  }

  // A server's reading of the request of section 3 of RFC 1928: the methods offered.
  function ParseGreeting(m: seq<byte>): Option<seq<byte>> {
    if |m| < 2 || m[0] != 5 || |m| - 2 != m[1] then None else Some(m[2..])
  }

  /** The server is offered no authentication without a user name, and the password exchange alone with one. */
  lemma GreetingUnderstood(user: seq<byte>)
    ensures ParseGreeting(Greeting(user)) == Some([if |user| == 0 then 0 else 2])
  {
  }

  // Each length is cut to the one byte the request has for it.
  function UserPass(user: seq<byte>, pass: seq<byte>): seq<byte> {
    [1, |user| % 256] + user + [|pass| % 256] + pass
  }

  const Associate: seq<byte> := [SOCKS_5, S5C_UDP_ASSOCIATE, 0, SOCKS5_ADDR_IPV4, 0, 0, 0, 0, 0, 0]

  datatype Socks5 = Socks5(command: byte, destination: SockAddr)

  // A server's reading of the request of section 4 of RFC 1928, for the two kinds of numeric addresses.
  function ParseRequest(m: seq<byte>): Option<Socks5> {
    if |m| < 4 || m[0] != 5 || m[2] != 0 then None
    else if m[3] == 1 && |m| == 10 then Some(Socks5(m[1], V4(m[4..8], m[8..10])))
    else if m[3] == 4 && |m| == 22 then Some(Socks5(m[1], V6(m[4..20], m[20..22])))
    else None
  }

  /** The server is asked for UDP ASSOCIATE, command 3, from an address and port not known yet. */
  lemma AssociateUnderstood()
    ensures ParseRequest(Associate) == Some(Socks5(3, V4([0, 0, 0, 0], [0, 0])))
  {
    assert Associate[4..8] == [0, 0, 0, 0] && Associate[8..10] == [0, 0];
  }

  datatype Credentials = Credentials(user: seq<byte>, pass: seq<byte>)

  // A server's reading of the request of section 2 of RFC 1929: both lengths 1 to 255, nothing left over.
  function ParseUserPass(m: seq<byte>): Option<Credentials> {
    if |m| < 2 || m[0] != 1 || m[1] == 0 || |m| - 3 < m[1] then None
    else
      var ulen: int := m[1];
      var plen: int := m[2 + ulen];
      if plen == 0 || |m| != 3 + ulen + plen then None
      else Some(Credentials(m[2..2 + ulen], m[3 + ulen..]))
  }

  /** The server reads back the configured credentials exactly when both lengths fit RFC 1929. */
  lemma UserPassUnderstood(user: seq<byte>, pass: seq<byte>)
    requires user != []
    ensures ParseUserPass(UserPass(user, pass)) == Some(Credentials(user, pass))
       <==> |user| <= 255 && 1 <= |pass| <= 255
  {
    var m := UserPass(user, pass);
    if |user| <= 255 {
      assert m[2 + |user|] == |pass| % 256;
      assert m[2..2 + |user|] == user;
      assert m[3 + |user|..] == pass;
    }
  }

  // The relay of a UDP ASSOCIATE reply in `buffer`: the proxy's own address with the port of the reply.
  function ReplyRelay(proxy: RawAddress, buffer: Packet): Option<SockAddr> {
    if buffer[3] == SOCKS5_ADDR_IPV4 then Some(V4(proxy[4..8], buffer[8..10]))
    else if buffer[3] == SOCKS5_ADDR_IPV6 then Some(V6(proxy[8..24], buffer[20..22]))
    else None
  }

  // Section 6 of RFC 1928: a success reply carrying a bound address.
  function Reply(bound: SockAddr): seq<byte> {
    match bound
    case V4(ip, port) => [5, 0, 0, 1] + ip + port
    case V6(ip, port) => [5, 0, 0, 4] + ip + port
  }

  // The sockaddr_in or sockaddr_in6 of an address, its family stored low byte first: 2 or 23.
  function Raw(a: SockAddr): RawAddress {
    match a
    case V4(ip, port) => [2, 0] + port + ip + seq(20, _ => 0)
    case V6(ip, port) => [23, 0] + port + [0, 0, 0, 0] + ip + [0, 0, 0, 0]
  }

  // The kernel writes what it received over the start of the buffer.
  function Overwrite(buffer: seq<byte>, data: seq<byte>): (r: seq<byte>)
    requires |data| <= |buffer|
    ensures |r| == |buffer|
    ensures r[..|data|] == data
  {
    data + buffer[|data|..]
  }

  /** Of a whole success reply the program keeps family and port, and never the bound address. */
  lemma ReplyUnderstood(proxy: RawAddress, stale: Packet, bound: SockAddr)
    ensures ReplyRelay(proxy, Overwrite(stale, Reply(bound)))
         == Some(RelayFor(proxy, bound))
  {
    var b := Overwrite(stale, Reply(bound));
    if bound.V4? {
      assert b[8..10] == Reply(bound)[8..10] == bound.port;
    } else {
      assert b[20..22] == Reply(bound)[20..22] == bound.port;
    }
  }

  function RelayFor(proxy: RawAddress, bound: SockAddr): SockAddr {
    if bound.V4? then V4(proxy[4..8], bound.port) else V6(proxy[8..24], bound.port)
  }

  /** The relay is at the address of the proxy and the port of the reply. */
  lemma RelayAt(proxy: SockAddr, bound: SockAddr)
    requires proxy.V4? == bound.V4?
    ensures RelayFor(Raw(proxy), bound) == if proxy.V4? then V4(proxy.ip, bound.port) else V6(proxy.ip6, bound.port)
  {
  }

  /** The length check of five bytes does not cover the port: whatever the buffer held before, the relay is the
      reply's exactly when the whole reply has arrived in one receive. */
  lemma ReplyWhole(proxy: RawAddress, bound: SockAddr, n: nat)
    requires SIZEOF_RESPONSE <= n <= |Reply(bound)|
    ensures (forall stale: Packet ::
            ReplyRelay(proxy, Overwrite(stale, Reply(bound)[..n])) == Some(RelayFor(proxy, bound)))
       <==> n == |Reply(bound)|
  {
    var reply := Reply(bound);
    if n == |reply| {
      assert reply[..n] == reply;
      forall stale: Packet
        ensures ReplyRelay(proxy, Overwrite(stale, reply)) == Some(RelayFor(proxy, bound))
      {
        ReplyUnderstood(proxy, stale, bound);
      }
    } else {
      var last: int := bound.port[1];
      var other: byte := (last + 1) % 256;
      var stale: Packet := seq(PACKET_SIZE, _ => other);
      var b := Overwrite(stale, reply[..n]);
      assert b[|reply| - 1] == other;
      assert b[3] == reply[3];
      assert RelayFor(proxy, bound).port[1] != other;
      assert ReplyRelay(proxy, b) != Some(RelayFor(proxy, bound));
    }
  }

  // ---------------------------------------------------------------- UDP framing

  // The bytes given to WSASendTo for a datagram; without payload there is no header either.
  function Frame(d: Datagram): seq<byte> {
    if d.payload == [] then []
    else
      match d.remote
      case V4(ip, port) => [0, 0, 0, SOCKS5_ADDR_IPV4] + ip + port + d.payload
      case V6(ip, port) => [0, 0, 0, SOCKS5_ADDR_IPV6] + ip + port + d.payload
  }

  // A relay's reading of a request of section 7 of RFC 1928: no reserved bits, a whole datagram, an address and port,
  // and the data.
  function ParseUdpRequest(m: seq<byte>): Option<Datagram> {
    if |m| < 4 || m[0] != 0 || m[1] != 0 || m[2] != 0 then None
    else if m[3] == 1 && |m| >= 10 then Some(Datagram(V4(m[4..8], m[8..10]), m[10..]))
    else if m[3] == 4 && |m| >= 22 then Some(Datagram(V6(m[4..20], m[20..22]), m[22..]))
    else None
  }

  /** The relay reads the datagram back, for either family, exactly when it has a payload. */
  lemma FrameUnderstood(d: Datagram)
    ensures ParseUdpRequest(Frame(d)) == Some(d) <==> d.payload != []
  {
    var f := Frame(d);
    if d.payload != [] {
      if d.remote.V4? {
        assert f[4..8] == d.remote.ip && f[8..10] == d.remote.port && f[10..] == d.payload;
      } else {
        assert f[4..20] == d.remote.ip6 && f[20..22] == d.remote.port && f[22..] == d.payload;
      }
    }
  }

  function HeaderSize(remote: SockAddr): nat {
    if remote.V4? then SIZEOF_UDP_REQUEST_IPV4 else SIZEOF_UDP_REQUEST_IPV6
  }

  // What the handler is called with. A length below zero is possible: see `LengthSound`.
  datatype Delivery = Delivery(from: SockAddr, payload: seq<byte>, len: int)

  // Reading n received bytes at the front of the buffer.
  function Unframe(buffer: Packet, n: nat): Option<Delivery>
    requires n <= PACKET_SIZE
  {
    if n <= SIZEOF_UDP_REQUEST then None
    else if buffer[3] == SOCKS5_ADDR_IPV4 then
      Some(Delivery(V4(buffer[4..8], buffer[8..10]), Slice(buffer, SIZEOF_UDP_REQUEST_IPV4, n),
          n - SIZEOF_UDP_REQUEST_IPV4))
    else if buffer[3] == SOCKS5_ADDR_IPV6 then
      Some(Delivery(V6(buffer[4..20], buffer[20..22]), Slice(buffer, SIZEOF_UDP_REQUEST_IPV6, n),
          n - SIZEOF_UDP_REQUEST_IPV6))
    else None
  }

  function Slice(s: seq<byte>, from: nat, to: nat): seq<byte>
    requires to <= |s|
  {
    if from <= to then s[from..to] else []
  }

  /** Unframing what was framed returns the datagram, whatever the buffer held before, exactly when it has a payload. */
  lemma FramingRoundTrip(d: Datagram, stale: Packet)
    requires |Frame(d)| <= PACKET_SIZE
    ensures Unframe(Overwrite(stale, Frame(d)), |Frame(d)|) == Some(Delivery(d.remote, d.payload, |d.payload|))
       <==> d.payload != []
  {
    var f := Frame(d);
    var b := Overwrite(stale, f);
    if d.payload != [] {
      var h := HeaderSize(d.remote);
      assert b[3] == f[3];
      if d.remote.V4? {
        assert b[4..8] == f[4..8] == d.remote.ip;
        assert b[8..10] == f[8..10] == d.remote.port;
        assert b[10..|f|] == f[10..] == d.payload;
      } else {
        assert b[4..20] == f[4..20] == d.remote.ip6;
        assert b[20..22] == f[20..22] == d.remote.port;
        assert b[22..|f|] == f[22..] == d.payload;
      }
    }
  }

  // What a relay sends for data it received from an address: section 7 of RFC 1928.
  function UdpReply(from: SockAddr, data: seq<byte>): seq<byte> {
    match from
    case V4(ip, port) => [0, 0, 0, 1] + ip + port + data
    case V6(ip, port) => [0, 0, 0, 4] + ip + port + data
  }

  /** Whatever a relay sends, empty data too, is handed on with its sender, data and length. */
  lemma UdpReplyUnderstood(from: SockAddr, data: seq<byte>, stale: Packet)
    requires |UdpReply(from, data)| <= PACKET_SIZE
    ensures Unframe(Overwrite(stale, UdpReply(from, data)), |UdpReply(from, data)|)
         == Some(Delivery(from, data, |data|))
  {
    var f := UdpReply(from, data);
    var b := Overwrite(stale, f);
    assert b[3] == f[3];
    if from.V4? {
      assert b[4..8] == f[4..8] == from.ip && b[8..10] == f[8..10] == from.port;
      assert b[10..|f|] == f[10..] == data;
    } else {
      assert b[4..20] == f[4..20] == from.ip6 && b[20..22] == f[20..22] == from.port;
      assert b[22..|f|] == f[22..] == data;
    }
  }

  /** Exactly what has more than four bytes and one of the two address types is handed on. */
  lemma HandedOn(buffer: Packet, n: nat)
    requires n <= PACKET_SIZE
    ensures Unframe(buffer, n).Some? <==> n >= 5 && (buffer[3] == 1 || buffer[3] == 4)
  {
  }

  /** Two non-empty datagrams with the same frame are the same datagram. */
  lemma FrameInjective(a: Datagram, b: Datagram)
    requires a.payload != [] && b.payload != []
    ensures Frame(a) == Frame(b) <==> a == b
  {
    var f, g := Frame(a), Frame(b);
    if f == g {
      assert f[3] == g[3];
      var h := HeaderSize(a.remote);
      assert f[h..] == a.payload && g[h..] == b.payload;
      assert f[4..h - 2] == g[4..h - 2] && f[h - 2..h] == g[h - 2..h];
      if a.remote.V4? {
        assert f[4..8] == a.remote.ip && g[4..8] == b.remote.ip;
        assert f[8..10] == a.remote.port && g[8..10] == b.remote.port;
      } else {
        assert f[4..20] == a.remote.ip6 && g[4..20] == b.remote.ip6;
        assert f[20..22] == a.remote.port && g[20..22] == b.remote.port;
      }
    }
  }

  /** The length handed on is the payload's exactly when the datagram covers its header; the check against
      four bytes lets shorter ones through, with a negative length. */
  lemma LengthSound(buffer: Packet, n: nat)
    requires n <= PACKET_SIZE && Unframe(buffer, n).Some?
    ensures var d := Unframe(buffer, n).value;
            (d.len == |d.payload| <==> n >= HeaderSize(d.from)) && (d.len < 0 <==> n < HeaderSize(d.from))
  {
  }

  /** A five-byte datagram reaches the handler with length -5. */
  lemma ShortDatagramDelivered(stale: Packet)
    ensures var b := Overwrite(stale, [0, 0, 0, SOCKS5_ADDR_IPV4, 9]);
            Unframe(b, 5).Some? && Unframe(b, 5).value.len == -5
  {
    assert Overwrite(stale, [0, 0, 0, SOCKS5_ADDR_IPV4, 9])[3] == SOCKS5_ADDR_IPV4;
  }
}
