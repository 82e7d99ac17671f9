/**
 * The TCP side of the event handler of netfilter/NFEventHandler.cpp: what the application sends before the proxy's
 * first answer is held back behind SOCKS4 requests, then released.
 *
 * `TcpStep` is what each callback does; the theorems compare any run of callbacks with what was said and heard on one
 * endpoint. Every run is, for an endpoint, a stretch without a connect request and then one stretch for each request.
 */
module TcpStream {
  import opened Bytes
  import opened Socks
  import opened Operations

  const AF_INET6 := 23

  // The sa_family of a sockaddr, stored low byte first.
  function Family(a: RawAddress): int {
    var low: int, high: int := a[0], a[1];
    low + 256 * high
  }

  // SOCKS4_REQUEST with an empty user id: version, CONNECT, port, address, terminator.
  function ConnectRequest(remote: RawAddress): seq<byte> {
    [4, 1] + remote[2..4] + remote[4..8] + [0]
  }

  datatype Socks4 = Socks4(command: byte, port: Port, ip: Ip4, user: seq<byte>)

  // A SOCKS4 server's reading of a request: version 4, the command, port, address, and a user id ended by a zero
  // byte, with nothing after it.
  function ParseSocks4(m: seq<byte>): Option<Socks4> {
    if |m| < 9 || m[0] != 4 || m[|m| - 1] != 0 || 0 in m[8..|m| - 1] then None
    else Some(Socks4(m[1], m[2..4], m[4..8], m[8..|m| - 1]))
  }

  /** The proxy is asked to connect, command 1, to the port and address the application wanted, for no user. */
  lemma ConnectUnderstood(ip: Ip4, port: Port)
    ensures ParseSocks4(ConnectRequest(Raw(V4(ip, port)))) == Some(Socks4(1, port, ip, []))
  {
    var raw := Raw(V4(ip, port));
    assert raw[2..4] == port && raw[4..8] == ip;
    var m := ConnectRequest(raw);
    assert m[2..4] == port && m[4..8] == ip && m[8..|m| - 1] == [];
  }

  /** The family dropped is the one whose sockaddr begins with the bytes 23 and 0: AF_INET6, and never AF_INET. */
  lemma DroppedFamily(a: RawAddress)
    ensures Family(a) == AF_INET6 <==> a[0] == 23 && a[1] == 0
    ensures forall b: SockAddr :: Family(Raw(b)) == AF_INET6 <==> b.V6?
  {
  }

  // ORIGINAL_CONN_INFO
  datatype ConnInfo = ConnInfo(remote: RawAddress, pended: seq<byte>)

  // m_connInfoMap, with the bytes given to nf_tcpPostSend and nf_tcpPostReceive, and the endpoints given to
  // nf_tcpDisableFiltering.
  datatype Tcp = Tcp(info: map<Id, ConnInfo>, up: map<Id, seq<byte>>, down: map<Id, seq<byte>>, unfiltered: set<Id>)

  datatype TcpEvent =
    | Request(id: Id, remote: RawAddress)
    | Send(id: Id, buf: seq<byte>)
    | Receive(id: Id, buf: seq<byte>)
    | Closed(id: Id)

  const Quiet := Tcp(map[], map[], map[], {})

  function Of(m: map<Id, seq<byte>>, id: Id): seq<byte> {
    if id in m then m[id] else []
  }

  function Append(m: map<Id, seq<byte>>, id: Id, buf: seq<byte>): map<Id, seq<byte>> {
    m[id := Of(m, id) + buf]
  }

  function TcpStep(s: Tcp, e: TcpEvent): Tcp {
    match e
    case Request(id, remote) => s.(info := s.info[id := ConnInfo(remote, [])])
    case Send(id, buf) =>
      if id !in s.info then s.(up := Append(s.up, id, buf))
      else if Family(s.info[id].remote) == AF_INET6 then s
      else
        s.(up := Append(s.up, id, ConnectRequest(s.info[id].remote)),
           info := s.info[id := s.info[id].(pended := s.info[id].pended + buf)])
    case Receive(id, buf) =>
      if id in s.info then
        s.(up := if s.info[id].pended == [] then s.up else Append(s.up, id, s.info[id].pended), info := s.info - {id})
      else s.(down := Append(s.down, id, buf), unfiltered := s.unfiltered + {id})
    case Closed(id) => s.(info := s.info - {id})
  }

  function TcpRun(s: Tcp, es: seq<TcpEvent>): Tcp {
    if es == [] then s else TcpStep(TcpRun(s, es[..|es| - 1]), es[|es| - 1])
  }

  // ---------------------------------------------------------------- the history of one endpoint

  // What first happened to the endpoint beside sends: nothing yet, an answer, its closing.
  datatype Ending = Open | Answered | Ended

  // Of an endpoint's events: the bytes sent before that, and how many sends they were; the bytes sent and the bytes
  // received after it, and whether anything was.
  datatype History = History(
    ending: Ending,
    early: seq<byte>,
    sends: nat,
    late: seq<byte>,
    heard: seq<byte>,
    answered: bool)

  const NoHistory := History(Open, [], 0, [], [], false)

  function Continued(h: History, e: TcpEvent): History {
    match e
    case Request(_, _) => h
    case Send(_, buf) =>
      if h.ending.Open? then h.(early := h.early + buf, sends := h.sends + 1) else h.(late := h.late + buf)
    case Receive(_, buf) =>
      if h.ending.Open? then h.(ending := Answered) else h.(heard := h.heard + buf, answered := true)
    case Closed(_) => if h.ending.Open? then h.(ending := Ended) else h
  }

  function HistoryOf(es: seq<TcpEvent>, id: Id): History {
    if es == [] then NoHistory
    else
      var h := HistoryOf(es[..|es| - 1], id);
      if es[|es| - 1].id == id then Continued(h, es[|es| - 1]) else h
  }

  // All bytes the application sent, and all that were received, in order.
  function Said(es: seq<TcpEvent>, id: Id): seq<byte> {
    if es == [] then []
    else
      var e := es[|es| - 1];
      Said(es[..|es| - 1], id) + if e.Send? && e.id == id then e.buf else []
  }

  function Heard(es: seq<TcpEvent>, id: Id): seq<byte> {
    if es == [] then []
    else
      var e := es[|es| - 1];
      Heard(es[..|es| - 1], id) + if e.Receive? && e.id == id then e.buf else []
  }

  lemma {:induction false} SaidParts(es: seq<TcpEvent>, id: Id)
    ensures var h := HistoryOf(es, id); Said(es, id) == h.early + h.late && (h.ending.Open? ==> h.late == [])
  {
    if es != [] {
      SaidParts(es[..|es| - 1], id);
    }
  }

  predicate IsRequest(e: TcpEvent, id: Id) {
    e.Request? && e.id == id
  }

  predicate NoRequest(es: seq<TcpEvent>, id: Id) {
    forall i | 0 <= i < |es| :: !IsRequest(es[i], id)
  }

  function Repeat(m: seq<byte>, k: nat): seq<byte> {
    if k == 0 then [] else Repeat(m, k - 1) + m
  }

  // The SOCKS4 requests posted: one for each send before the first answer.
  function Requests(remote: RawAddress, h: History): seq<byte> {
    if Family(remote) == AF_INET6 then [] else Repeat(ConnectRequest(remote), h.sends)
  }

  // ---------------------------------------------------------------- conservation

  /** An endpoint that is not held back: everything goes through as it comes. */
  lemma {:induction false} PassedThrough(s: Tcp, es: seq<TcpEvent>, id: Id)
    requires id !in s.info && NoRequest(es, id)
    ensures var t := TcpRun(s, es);
            && id !in t.info
            && Of(t.up, id) == Of(s.up, id) + Said(es, id)
            && Of(t.down, id) == Of(s.down, id) + Heard(es, id)
  {
    if es != [] {
      var before := es[..|es| - 1];
      assert forall i | 0 <= i < |before| :: before[i] == es[i];
      PassedThrough(s, before, id);
      PassedOne(s, TcpRun(s, before), es[|es| - 1], id, Said(before, id), Heard(before, id));
      assert !IsRequest(es[|es| - 1], id);
    }
  }

  /** Filtering is switched off for it with the first bytes that are passed on to the application. */
  lemma {:induction false} FilteringStops(s: Tcp, es: seq<TcpEvent>, id: Id)
    requires id !in s.info && NoRequest(es, id)
    ensures id in TcpRun(s, es).unfiltered <==>
              id in s.unfiltered || exists k | 0 <= k < |es| :: es[k].Receive? && es[k].id == id
  {
    if es != [] {
      var before, e := es[..|es| - 1], es[|es| - 1];
      assert forall k | 0 <= k < |before| :: before[k] == es[k];
      FilteringStops(s, before, id);
      PassedThrough(s, before, id);
      var t := TcpRun(s, before);
      if e.id != id {
        OtherUntouched(t, e, id);
        hide TcpStep;
      }
      hide Family, ConnectRequest;
      assert forall k | 0 <= k < |es| :: k == |es| - 1 || es[k] == before[k];
    }
  }

  lemma PassedOne(s: Tcp, t: Tcp, e: TcpEvent, id: Id, said: seq<byte>, heard: seq<byte>)
    requires id !in t.info && Of(t.up, id) == Of(s.up, id) + said && Of(t.down, id) == Of(s.down, id) + heard
    ensures var t' := TcpStep(t, e);
            && Of(t'.up, id) == Of(s.up, id) + (said + if e.Send? && e.id == id then e.buf else [])
            && Of(t'.down, id) == Of(s.down, id) + (heard + if e.Receive? && e.id == id then e.buf else [])
  {
    hide Family, ConnectRequest;
    assert said + [] == said && heard + [] == heard;
    if e.id != id {
      OtherUntouched(t, e, id);
      hide TcpStep;
    } else if e.Send? {
      assert Of(s.up, id) + said + e.buf == Of(s.up, id) + (said + e.buf);
    } else if e.Receive? {
      assert Of(s.down, id) + heard + e.buf == Of(s.down, id) + (heard + e.buf);
    }
  }

  lemma OtherUntouched(t: Tcp, e: TcpEvent, id: Id)
    requires e.id != id
    ensures var t' := TcpStep(t, e);
            && Of(t'.up, id) == Of(t.up, id) && Of(t'.down, id) == Of(t.down, id)
            && (id in t'.info <==> id in t.info) && (id in t.info ==> t'.info[id] == t.info[id])
            && (id in t'.unfiltered <==> id in t.unfiltered)
  {
    hide Family, ConnectRequest;
  }

  // From the connect request on: what was posted to the server and to the application since s, and what is held back.
  predicate Conserved(s: Tcp, t: Tcp, remote: RawAddress, h: History, id: Id) {
    var v6 := Family(remote) == AF_INET6;
    && (id in t.info <==> h.ending.Open?)
    && (id in t.info ==> t.info[id] == ConnInfo(remote, if v6 then [] else h.early))
    && Of(t.up, id) == Of(s.up, id) +
        (Requests(remote, h) + ((if h.ending.Answered? && !v6 then h.early else []) + h.late))
    && Of(t.down, id) == Of(s.down, id) + h.heard
    && (h.ending.Open? ==> h.late == [] && h.heard == [] && !h.answered)
    && (id in t.unfiltered <==> id in s.unfiltered || h.answered)
  }

  /** Whatever went before, from an endpoint's connect request on, what is posted and held back is fixed by what the
      application and the server said since: a request for each send before the first answer, then, if there was an
      answer, all that was sent, in order; otherwise what was sent after the closing. */
  lemma {:induction false} Conservation(s: Tcp, remote: RawAddress, es: seq<TcpEvent>, id: Id)
    requires NoRequest(es, id)
    ensures Conserved(s, TcpRun(TcpStep(s, Request(id, remote)), es), remote, HistoryOf(es, id), id)
  {
    if es == [] {
      assert Of(s.up, id) + ([] + ([] + [])) == Of(s.up, id) && Of(s.down, id) + [] == Of(s.down, id);
    } else {
      var before, e := es[..|es| - 1], es[|es| - 1];
      assert forall i | 0 <= i < |before| :: before[i] == es[i];
      Conservation(s, remote, before, id);
      assert !IsRequest(e, id);
      var t := TcpRun(TcpStep(s, Request(id, remote)), before);
      hide Conserved, TcpStep, Continued;
      if e.id == id {
        ConservedOne(s, t, remote, HistoryOf(before, id), e);
      } else {
        ConservedOther(s, t, remote, HistoryOf(before, id), id, e);
      }
    }
  }

  lemma ConservedOther(s: Tcp, t: Tcp, remote: RawAddress, h: History, id: Id, e: TcpEvent)
    requires Conserved(s, t, remote, h, id) && e.id != id
    ensures Conserved(s, TcpStep(t, e), remote, h, id)
  {
    OtherUntouched(t, e, id);
    hide TcpStep, Family, ConnectRequest, Repeat, Requests;
  }

  lemma ConservedOne(s: Tcp, t: Tcp, remote: RawAddress, h: History, e: TcpEvent)
    requires Conserved(s, t, remote, h, e.id) && !e.Request?
    ensures Conserved(s, TcpStep(t, e), remote, Continued(h, e), e.id)
  {
    match e
    case Send(_, _) =>
      if h.ending.Open? {
        SentEarly(s, t, remote, h, e);
      } else {
        SentLate(s, t, remote, h, e);
      }
    case _ => NotSent(s, t, remote, h, e);
  }

  // Rebracketing.
  lemma Joined(base: seq<byte>, r: seq<byte>, x: seq<byte>, y: seq<byte>)
    ensures base + (r + x) + y == base + (r + (x + y))
    ensures base + (r + []) + y == base + ((r + y) + [])
  {
  }

  lemma SentEarly(s: Tcp, t: Tcp, remote: RawAddress, h: History, e: TcpEvent)
    requires Conserved(s, t, remote, h, e.id) && e.Send? && h.ending.Open?
    ensures Conserved(s, TcpStep(t, e), remote, Continued(h, e), e.id)
  {
    var r, m, k := Requests(remote, h), ConnectRequest(remote), Continued(h, e);
    assert Requests(remote, k) == if Family(remote) == AF_INET6 then r else r + m;
    Joined(Of(s.up, e.id), r, [], m);
    var none: seq<byte> := [];
    assert none + none == none;
    hide Family, ConnectRequest, Repeat, Requests;
  }

  lemma SentLate(s: Tcp, t: Tcp, remote: RawAddress, h: History, e: TcpEvent)
    requires Conserved(s, t, remote, h, e.id) && e.Send? && !h.ending.Open?
    ensures Conserved(s, TcpStep(t, e), remote, Continued(h, e), e.id)
  {
    var r, k := Requests(remote, h), Continued(h, e);
    assert Requests(remote, k) == r;
    var kept := if h.ending.Answered? && Family(remote) != AF_INET6 then h.early else [];
    Joined(Of(s.up, e.id), r, kept + h.late, e.buf);
    assert kept + h.late + e.buf == kept + (h.late + e.buf);
    hide Family, ConnectRequest, Repeat, Requests;
  }

  lemma NotSent(s: Tcp, t: Tcp, remote: RawAddress, h: History, e: TcpEvent)
    requires Conserved(s, t, remote, h, e.id) && (e.Receive? || e.Closed?)
    ensures Conserved(s, TcpStep(t, e), remote, Continued(h, e), e.id)
  {
    assert Requests(remote, Continued(h, e)) == Requests(remote, h);
    if h.ending.Open? {
      Released(s, t, remote, h, e);
    } else {
      assert e.Receive? ==> Of(s.down, e.id) + h.heard + e.buf == Of(s.down, e.id) + (h.heard + e.buf);
      hide Family, ConnectRequest, Repeat, Requests;
    }
  }

  // The first answer, or the closing before one.
  lemma Released(s: Tcp, t: Tcp, remote: RawAddress, h: History, e: TcpEvent)
    requires Conserved(s, t, remote, h, e.id) && (e.Receive? || e.Closed?) && h.ending.Open?
    requires Requests(remote, Continued(h, e)) == Requests(remote, h)
    ensures Conserved(s, TcpStep(t, e), remote, Continued(h, e), e.id)
  {
    hide Family, ConnectRequest, Repeat, Requests;
    var r, base := Requests(remote, h), Of(s.up, e.id);
    var none: seq<byte> := [];
    assert none + none == none && h.early + none == h.early && none + h.early == h.early;
    Joined(base, r, none, t.info[e.id].pended);
    assert Of(t.up, e.id) == base + (r + none);
  }

  // The bytes still held back.
  function Pended(s: Tcp, id: Id): seq<byte> {
    if id in s.info then s.info[id].pended else []
  }

  /** From the connect request on, no byte is lost, duplicated or moved, except exactly these: what an IPv6 connection
      says before its first answer, and what a connection says that is closed before one. */
  lemma StreamKept(s: Tcp, remote: RawAddress, es: seq<TcpEvent>, id: Id)
    requires NoRequest(es, id)
    ensures var t := TcpRun(TcpStep(s, Request(id, remote)), es);
            var h := HistoryOf(es, id);
            (Of(t.up, id) + Pended(t, id) == Of(s.up, id) + (Requests(remote, h) + Said(es, id)) <==>
             (Family(remote) == AF_INET6 || h.ending.Ended? ==> h.early == []))
  {
    Conservation(s, remote, es, id);
    SaidParts(es, id);
    var h := HistoryOf(es, id);
    var t := TcpRun(TcpStep(s, Request(id, remote)), es);
    hide TcpRun, Family, ConnectRequest, Repeat, Said, HistoryOf, Requests;
    KeptBytes(Of(s.up, id), Requests(remote, h), h, Family(remote) == AF_INET6);
  }

  lemma KeptBytes(base: seq<byte>, requests: seq<byte>, h: History, v6: bool)
    requires h.ending.Open? ==> h.late == []
    ensures var kept := if h.ending.Answered? && !v6 then h.early else [];
            var pended := if h.ending.Open? && !v6 then h.early else [];
            (base + (requests + (kept + h.late)) + pended == base + (requests + (h.early + h.late)) <==>
             (v6 || h.ending.Ended? ==> h.early == []))
  {
    var posted := base + requests;
    assert forall x: seq<byte> :: base + (requests + x) == posted + x;
    var kept := if h.ending.Answered? && !v6 then h.early else [];
    var pended := if h.ending.Open? && !v6 then h.early else [];
    assert |posted + (kept + h.late) + pended| == |posted| + |kept| + |h.late| + |pended|;
    assert |posted + (h.early + h.late)| == |posted| + |h.early| + |h.late|;
    if h.ending.Open? {
      assert posted + (kept + h.late) + pended == posted + pended;
      assert h.early + h.late == h.early;
    } else {
      assert posted + (kept + h.late) + pended == posted + (kept + h.late);
    }
  }

  /** An IPv6 connection's first words are dropped. */
  lemma Ipv6FirstSendLost(remote: RawAddress, buf: seq<byte>)
    requires Family(remote) == AF_INET6
    ensures var t := TcpRun(TcpStep(Quiet, Request(1, remote)), [Send(1, buf), Receive(1, [])]);
            Said([Send(1, buf), Receive(1, [])], 1) == buf && Of(t.up, 1) == [] && 1 !in t.info
  {
    var s := TcpStep(Quiet, Request(1, remote));
    var e1, e2 := [Send(1, buf)], [Send(1, buf), Receive(1, [])];
    assert e1[..0] == [] && e2[..1] == e1;
    assert TcpRun(s, e1) == TcpStep(s, Send(1, buf)) == s;
    assert TcpRun(s, e2) == TcpStep(s, Receive(1, []));
    assert Said(e1, 1) == [] + buf == buf;
    assert Said(e2, 1) == Said(e1, 1) + [];
  }

  // ---------------------------------------------------------------- the callbacks

  class TcpRedirector {
    var g_proxyAddress: RawAddress
    var m_connInfoMap: map<Id, ConnInfo>
    ghost var up: map<Id, seq<byte>>
    ghost var down: map<Id, seq<byte>>
    ghost var unfiltered: set<Id>

    ghost function View(): Tcp
      reads this
    {
      Tcp(m_connInfoMap, up, down, unfiltered)
    }

    constructor (proxy: RawAddress)
      ensures View() == Quiet && g_proxyAddress == proxy
    {
      g_proxyAddress := proxy;
      m_connInfoMap, up, down, unfiltered := map[], map[], map[], {};
    }

    // nf_tcpPostSend
    ghost method PostSend(id: Id, buf: seq<byte>)
      modifies this`up
      ensures up == Append(old(up), id, buf)
    {
      up := Append(up, id, buf);
    }

    // The connection is redirected to the proxy and filtered, unless it goes there already: as many bytes of the
    // address are compared as its family has.
    method TcpConnectRequest(id: Id, remoteAddress: RawAddress) returns (redirected: RawAddress, filter: bool)
      modifies this`m_connInfoMap
      ensures View() == TcpStep(old(View()), Request(id, remoteAddress))
      ensures var n := if Family(remoteAddress) == AF_INET6 then 28 else 16;
              filter == (remoteAddress[..n] != g_proxyAddress[..n]) &&
              redirected == if filter then g_proxyAddress else remoteAddress
    {
      m_connInfoMap := m_connInfoMap[id := ConnInfo(remoteAddress, [])];
      var addrLen := if Family(remoteAddress) == AF_INET6 then 28 else 16;
      redirected, filter := remoteAddress, false;
      if remoteAddress[..addrLen] != g_proxyAddress[..addrLen] {
        redirected := g_proxyAddress;
        filter := true;
      }
    }

    method TcpClosed(id: Id)
      modifies this`m_connInfoMap
      ensures View() == TcpStep(old(View()), Closed(id))
    {
      m_connInfoMap := m_connInfoMap - {id};
    }

    method TcpReceive(id: Id, buf: seq<byte>)
      modifies this`m_connInfoMap, this`up, this`down, this`unfiltered
      ensures View() == TcpStep(old(View()), Receive(id, buf))
    {
      if id in m_connInfoMap {
        if m_connInfoMap[id].pended != [] {
          PostSend(id, m_connInfoMap[id].pended);
        }
        m_connInfoMap := m_connInfoMap - {id};
        return;
      }
      down := Append(down, id, buf);
      unfiltered := unfiltered + {id};
    }

    method TcpSend(id: Id, buf: seq<byte>)
      modifies this`m_connInfoMap, this`up
      ensures View() == TcpStep(old(View()), Send(id, buf))
    {
      if id in m_connInfoMap {
        var remote := m_connInfoMap[id].remote;
        if Family(remote) == AF_INET6 {
          return;
        }
        var request: seq<byte> := [4];
        request := request + [1];
        request := request + remote[2..4];
        request := request + remote[4..8];
        request := request + [0];
        assert request == ConnectRequest(remote);
        PostSend(id, request);
        m_connInfoMap := m_connInfoMap[id := m_connInfoMap[id].(pended := m_connInfoMap[id].pended + buf)];
        return;
      }
      PostSend(id, buf);
    }
  }
}
