/**
 * UDPProxy of netfilter/UDPProxy.cpp with its fields and its handlers as they are written, statement by statement,
 * proved to compute the functions of ProxyModel and to keep the invariant of ProxyInvariant.
 *
 * Memory for OV_DATA is the map `heap`: a cell can be read or written only while it is allocated, so that every
 * access below is also a proof that nothing deleted is used. m_cs is not taken here; see LockOrder.dfy.
 */
module Proxy {
  import opened Bytes
  import opened Socks
  import opened Operations
  import opened ProxyModel
  import opened ProxyInvariant
  import opened ProxySteps
  import opened ProxyHistory
  import opened Contexts

  // PROXY_DATA
  class ProxyData {
    const userName: seq<byte>
    const userPassword: seq<byte>
    var proxyState: ProxyState
    var remoteAddress: Option<SockAddr>
    var udpSendPackets: seq<Datagram>
    var udpRecvStarted: bool

    constructor (user: seq<byte>, pass: seq<byte>)
      ensures Value() == Conn(user, pass, PsNone, None, [], false)
    {
      userName, userPassword := user, pass;
      proxyState, remoteAddress, udpSendPackets, udpRecvStarted := PsNone, None, [], false;
    }

    ghost function Value(): Conn
      reads this
    {
      Conn(userName, userPassword, proxyState, remoteAddress, udpSendPackets, udpRecvStarted)
    }
  }

  class UDPProxy {
    const cfg: Config
    const m_pProxyHandler: Contexts
    var m_ovDataSet: set<Op>
    var m_socketMap: map<Id, ProxyData>

    // Allocated OV_DATA cells and the next address.
    var heap: map<Op, OvData>
    var next: Op
    // Winsock calls made so far.
    var calls: nat

    // The completion port and the kernel, and what went over the sockets.
    ghost var armed: multiset<Op>
    ghost var posted: multiset<Op>
    ghost var freed: multiset<Op>
    ghost var hand: Option<Hand>
    ghost var logs: map<Id, Log>
    ghost var delivered: seq<Delivered>

    ghost function Objects(): set<object>
      reads this`m_socketMap
    {
      set id | id in m_socketMap :: m_socketMap[id] as object
    }

    ghost function Conns(): map<Id, Conn>
      reads this`m_socketMap, Objects()
    {
      map id | id in m_socketMap :: m_socketMap[id].Value()
    }

    ghost function View(): State
      reads this, Objects()
    {
      State(Memory(), Conns(), logs, delivered, calls)
    }

    // The set tracks the allocated cells; no two entries of the map share their data.
    ghost predicate Tracked()
      reads this`m_ovDataSet, this`heap, this`m_socketMap
    {
      && m_ovDataSet == heap.Keys
      && forall i, j | i in m_socketMap && j in m_socketMap && i != j :: m_socketMap[i] != m_socketMap[j]
    }

    ghost predicate Valid()
      reads this, Objects()
    {
      Tracked() && Inv(cfg, View())
    }

    constructor (cfg: Config, handler: Contexts)
      ensures Valid() && View() == Initial && this.cfg == cfg && m_pProxyHandler == handler
    {
      this.cfg, m_pProxyHandler := cfg, handler;
      m_ovDataSet, m_socketMap, heap, next, calls := {}, map[], map[], 0, 0;
      armed, posted, freed, hand := multiset{}, multiset{}, multiset{}, None;
      logs, delivered := map[], [];
      new;
      InitialOk(cfg);
    }

    // ---------------------------------------------------------------- Winsock and the completion port

    // Call number `calls` of Winsock.
    method Winsock() returns (outcome: Outcome)
      modifies this`calls
      ensures calls == old(calls) + 1 && outcome == cfg.net(old(calls))
    {
      outcome := cfg.net(calls);
      calls := calls + 1;
    }

    // ---------------------------------------------------------------- OV_DATA

    method NewOvData() returns (pov: Op)
      requires Numbered()
      modifies this`m_ovDataSet, this`heap, this`next
      ensures Numbered() && Memory() == Alloc(old(Memory()))
      ensures pov == old(next) && pov in heap && next == pov + 1
    {
      pov := next;
      next := next + 1;
      heap := heap[pov := OvData(0, OvtConnect, [])];
      m_ovDataSet := m_ovDataSet + {pov};
    }

    method DeleteOvData(pov: Op)
      requires Tracked()
      modifies this`m_ovDataSet, this`heap, this`freed
      ensures Tracked() && Memory() == Free(old(Memory()), pov) && heap.Keys <= old(heap.Keys)
    {
      if pov !in m_ovDataSet {
        return;
      }
      m_ovDataSet := m_ovDataSet - {pov};
      heap := heap - {pov};
      freed := freed + multiset{pov};
    }

    // A rejected operation: its completion is posted with no bytes, or the operation deleted.
    method PostOrDelete(pov: Op, outcome: Outcome)
      requires Tracked() && !outcome.Accepted? && pov in heap
      modifies this`m_ovDataSet, this`heap, this`freed, this`posted
      ensures Tracked() && Memory() == Settle(old(Memory()), pov, outcome) && heap.Keys <= old(heap.Keys)
    {
      if outcome.Posted? {
        posted := posted + multiset{pov};
      } else {
        DeleteOvData(pov);
      }
    }

    // ---------------------------------------------------------------- starting operations

    ghost predicate Numbered()
      reads this`m_ovDataSet, this`heap, this`m_socketMap, this`next
    {
      Tracked() && forall o | o in heap :: o < next
    }

    ghost function Memory(): Cells
      reads this`heap, this`next, this`armed, this`posted, this`freed, this`hand
    {
      Cells(heap, next, armed, posted, freed, hand)
    }

    method StartConnect(id: Id) returns (ok: bool)
      requires Numbered()
      modifies this`m_ovDataSet, this`heap, this`next, this`calls, this`armed, this`freed
      ensures Numbered() && View() == ProxyModel.StartConnect(cfg, old(View()), id).0
      ensures ok == ProxyModel.StartConnect(cfg, old(View()), id).1
    {
      hide NewConnect;
      ok := ConnectEx(id);
      assert View() == Called(old(View()), Memory());
    }

    method ConnectEx(id: Id) returns (ok: bool)
      requires Numbered()
      modifies this`m_ovDataSet, this`heap, this`next, this`calls, this`armed, this`freed
      ensures Numbered() && ok == cfg.net(old(calls)).Accepted? && calls == old(calls) + 1
      ensures Memory() == NewConnect(old(Memory()), id, cfg.net(old(calls)))
    {
      hide Start, Alloc;
      var pov := NewOvData();
      ghost var a := Memory();
      heap := heap[pov := OvData(id, OvtConnect, [])];
      assert Memory() == Write(a, pov, OvData(id, OvtConnect, []));
      var outcome := Winsock();
      ok := outcome.Accepted?;
      if !ok {
        hide Free;
        DeleteOvData(pov);
        StartSteps(old(Memory()), OvData(id, OvtConnect, []), Lost);
      } else {
        armed := armed + multiset{pov};
        StartSteps(old(Memory()), OvData(id, OvtConnect, []), Accepted);
      }
    }

    method StartTcpSend(id: Id, buf: seq<byte>) returns (ok: bool)
      requires Numbered()
      modifies this`m_ovDataSet, this`heap, this`next, this`calls, this`armed, this`posted, this`freed, this`logs
      ensures Numbered() && View() == ProxyModel.StartTcpSend(cfg, old(View()), id, buf).0
      ensures ok == cfg.net(old(calls)).Accepted?
    {
      hide NewSend;
      ok := Send(id, OvtTcpSend, buf);
      assert View() == Called(old(View()), Memory());
      if ok {
        logs := logs[id := LogOf(View(), id).(tcp := LogOf(View(), id).tcp + [buf])];
      }
    }

    // What startTcpSend and udpSend do with a filled buffer: WSASend or WSASendTo, and the retagging when it is
    // rejected.
    method Send(id: Id, kind: Kind, buf: seq<byte>) returns (ok: bool)
      requires Numbered() && (kind.OvtTcpSend? || kind.OvtUdpSend?)
      modifies this`m_ovDataSet, this`heap, this`next, this`calls, this`armed, this`posted, this`freed
      ensures Numbered() && ok == cfg.net(old(calls)).Accepted? && calls == old(calls) + 1
      ensures Memory() == NewSend(old(Memory()), id, kind, buf, cfg.net(old(calls)))
    {
      hide Start, Free, Alloc;
      var pov := NewOvData();
      ghost var a := Memory();
      heap := heap[pov := OvData(id, kind, buf)];
      var outcome := Winsock();
      ok := outcome.Accepted?;
      if !ok {
        var receive := if kind.OvtTcpSend? then OvtTcpReceive else OvtUdpReceive;
        heap := heap[pov := heap[pov].(kind := receive, buffer := [])];
        WriteTwice(a, pov, OvData(id, kind, buf), OvData(id, Retag(kind), []));
        assert Memory() == Write(a, pov, OvData(id, Retag(kind), []));
        PostOrDelete(pov, outcome);
        StartSteps(old(Memory()), OvData(id, Retag(kind), []), outcome);
      } else {
        assert Memory() == Write(a, pov, OvData(id, kind, buf));
        armed := armed + multiset{pov};
        StartSteps(old(Memory()), OvData(id, kind, buf), outcome);
      }
    }

    // startTcpReceive and startUdpReceive on a new operation; they differ in the type and the Winsock call.
    method StartReceive(id: Id, kind: Kind)
      requires Numbered() && IsReceive(kind)
      modifies this`m_ovDataSet, this`heap, this`next, this`calls, this`armed, this`posted, this`freed
      ensures Numbered() && View() == ProxyModel.StartReceive(cfg, old(View()), id, kind)
    {
      hide NewReceive;
      PostReceive(id, kind);
      assert View() == Called(old(View()), Memory());
    }

    method PostReceive(id: Id, kind: Kind)
      requires Numbered() && IsReceive(kind)
      modifies this`m_ovDataSet, this`heap, this`next, this`calls, this`armed, this`posted, this`freed
      ensures Numbered() && calls == old(calls) + 1
      ensures Memory() == NewReceive(old(Memory()), id, kind, cfg.net(old(calls)))
    {
      hide EmptyPacket, Start, Alloc, Free, Settle;
      var pov := NewOvData();
      ghost var a := Memory();
      heap := heap[pov := OvData(id, kind, EmptyPacket())];
      assert Memory() == Write(a, pov, OvData(id, kind, EmptyPacket()));
      Receive(pov);
      StartSteps(old(Memory()), OvData(id, kind, EmptyPacket()), cfg.net(old(calls)));
    }

    // The receive call itself.
    method Receive(pov: Op)
      requires Tracked() && pov in heap
      modifies this`m_ovDataSet, this`heap, this`calls, this`armed, this`posted, this`freed
      ensures Tracked() && heap.Keys <= old(heap.Keys) && calls == old(calls) + 1
      ensures Memory() == Settle(old(Memory()), pov, cfg.net(old(calls)))
    {
      var outcome := Winsock();
      if outcome.Accepted? {
        armed := armed + multiset{pov};
      } else {
        PostOrDelete(pov, outcome);
      }
    }

    // ---------------------------------------------------------------- connections

    // One connection's data has been assigned to; the rest is as before.
    twostate lemma Updated(id: Id)
      requires id in m_socketMap && m_socketMap == old(m_socketMap)
      requires forall i | i in m_socketMap && i != id :: m_socketMap[i].Value() == old(m_socketMap[i].Value())
      ensures Conns() == old(Conns())[id := m_socketMap[id].Value()]
    {
    }

    // The request header in front of the payload, by the address family.
    method BuildFrame(d: Datagram) returns (buffer: seq<byte>)
      ensures buffer == Frame(d)
    {
      buffer := [];
      if |d.payload| > 0 {
        if d.remote.V4? {
          buffer := [0, 0] + [0] + [SOCKS5_ADDR_IPV4] + d.remote.ip + d.remote.port;
          buffer := buffer + d.payload;
        } else {
          buffer := [0, 0] + [0] + [SOCKS5_ADDR_IPV6] + d.remote.ip6 + d.remote.port;
          buffer := buffer + d.payload;
        }
      }
    }

    method WSASendTo(id: Id, buffer: seq<byte>, dest: Option<SockAddr>) returns (ok: bool)
      requires Numbered()
      modifies this`m_ovDataSet, this`heap, this`next, this`calls, this`armed, this`posted, this`freed, this`logs
      ensures Numbered() && ok == cfg.net(old(calls)).Accepted?
      ensures var s := old(View());
              View() == SetLog(Called(s, NewSend(s.cells, id, OvtUdpSend, buffer, cfg.net(s.calls))), id,
                               LogOf(s, id).(udp := LogOf(s, id).udp + [Sent(buffer, dest, ok)]))
    {
      hide NewSend;
      ok := Send(id, OvtUdpSend, buffer);
      assert View() == Called(old(View()), Memory());
      logs := logs[id := LogOf(View(), id).(udp := LogOf(View(), id).udp + [Sent(buffer, dest, ok)])];
    }

    // udpSend from the point where the relay is known to be connected.
    method SendDatagram(id: Id, d: Datagram) returns (ok: bool)
      requires Numbered() && id in m_socketMap
      modifies this`m_ovDataSet, this`heap, this`next, this`calls, this`armed, this`posted, this`freed, this`logs
      modifies Objects()
      ensures Numbered() && View() == SendFrame(cfg, old(View()), id, d).0 && ok == SendFrame(cfg, old(View()), id, d).1
    {
      hide NewSend, NewReceive, Frame;
      var pd := m_socketMap[id];
      var buffer := BuildFrame(d);
      ok := WSASendTo(id, buffer, pd.remoteAddress);
      if !ok {
        return;
      }
      if !pd.udpRecvStarted {
        label Before:
        pd.udpRecvStarted := true;
        Updated@Before(id);
        StartReceive(id, OvtUdpReceive);
      }
    }

    // A datagram of the application's is logged when it is taken.
    method UdpSend(id: Id, d: Datagram, ghost fromApp: bool) returns (ok: bool)
      requires Numbered()
      modifies this`m_ovDataSet, this`heap, this`next, this`calls, this`armed, this`posted, this`freed, this`logs
      modifies Objects()
      ensures Numbered()
      ensures var r := if fromApp then Submit(cfg, old(View()), id, d) else ProxyModel.UdpSend(cfg, old(View()), id, d);
              View() == r.0 && ok == r.1
    {
      hide SendFrame;
      if fromApp && Taken(View(), id, d) {
        logs := logs[id := LogOf(View(), id).(submitted := LogOf(View(), id).submitted + [d])];
      }
      if id !in m_socketMap {
        return false;
      }
      var pd := m_socketMap[id];
      if pd.proxyState != PsConnected {
        if |d.payload| > 0 {
          QueuePacket(id, d);
        }
        return true;
      }
      ok := SendDatagram(id, d);
    }

    // The datagram waits for the handshake.
    method QueuePacket(id: Id, d: Datagram)
      requires Numbered() && id in m_socketMap
      modifies Objects()
      ensures Numbered()
      ensures var c := old(m_socketMap[id].Value());
              View() == SetConn(old(View()), id, c.(queue := c.queue + [d]))
    {
      var pd := m_socketMap[id];
      pd.udpSendPackets := pd.udpSendPackets + [d];
      Updated(id);
    }

    method DeleteProxyConnection(id: Id)
      requires Tracked()
      modifies this`m_socketMap
      ensures Tracked() && Objects() <= old(Objects()) && View() == Erase(old(View()), id)
    {
      if id in m_socketMap {
        m_socketMap := m_socketMap - {id};
        assert Conns() == old(Conns()) - {id};
      } else {
        assert old(Conns()) - {id} == old(Conns());
      }
    }

    // The result is the two sockets' being made, both registrations and the connect.
    method CreateProxyConnection(id: Id, tcpSocket: bool, udpSocket: bool) returns (result: bool)
      requires Numbered()
      modifies this`m_ovDataSet, this`heap, this`next, this`calls, this`armed, this`freed, this`m_socketMap, this`logs
      ensures Numbered() && fresh(Objects() - old(Objects()))
      ensures var r := Create(cfg, old(View()), id, tcpSocket && udpSocket); View() == r.0 && result == r.1
    {
      hide Register, Insert, Erase;
      result := false;
      if !tcpSocket {
        return;
      }
      if !udpSocket {
        return;
      }
      InsertConnection(id);
      result := RegisterSockets(id);
      if !result {
        DeleteProxyConnection(id);
      }
    }

    method InsertConnection(id: Id)
      requires Numbered()
      modifies this`m_socketMap, this`logs
      ensures Numbered() && fresh(Objects() - old(Objects())) && View() == Insert(cfg, old(View()), id)
    {
      var pd := new ProxyData(cfg.user, cfg.pass);
      m_socketMap := m_socketMap[id := pd];
      logs := logs[id := EmptyLog];
      assert Conns() == old(Conns())[id := pd.Value()];
    }

    method RegisterSockets(id: Id) returns (ok: bool)
      requires Numbered()
      modifies this`m_ovDataSet, this`heap, this`next, this`calls, this`armed, this`freed
      ensures Numbered() && View() == Register(cfg, old(View()), id).0 && ok == Register(cfg, old(View()), id).1
    {
      hide ProxyModel.StartConnect;
      var registered := Winsock();
      assert View() == Try(cfg, old(View())).0;
      if !registered.Accepted? {
        return false;
      }
      registered := Winsock();
      assert View() == Try(cfg, Try(cfg, old(View())).0).0;
      if !registered.Accepted? {
        return false;
      }
      ok := StartConnect(id);
    }

    // ---------------------------------------------------------------- completions

    // GetQueuedCompletionStatus: a completion's data is in the operation's buffer.
    method Dequeue(pov: Op, data: seq<byte>, failed: bool)
      requires Valid() && CanTake(Memory(), pov, data, failed)
      modifies this`heap, this`armed, this`posted, this`hand
      ensures Valid() && HandReady(Memory()) && hand == Some(Hand(pov, |data|, failed, true))
      ensures View() == old(View()).(cells := Take(old(Memory()), pov, data, failed))
    {
      hide Inv, HandReady, Take, CanTake;
      GetCompletion(pov, data, failed);
      assert View() == old(View()).(cells := Memory());
      TakeStepOk(cfg, old(View()), pov, data, failed);
    }

    method GetCompletion(pov: Op, data: seq<byte>, failed: bool)
      requires Tracked() && CanTake(Memory(), pov, data, failed)
      modifies this`heap, this`armed, this`posted, this`hand
      ensures Tracked() && Memory() == Take(old(Memory()), pov, data, failed)
      ensures hand == Some(Hand(pov, |data|, failed, true))
    {
      hide Filled;
      if pov in posted {
        posted := posted - multiset{pov};
      } else {
        armed := armed - multiset{pov};
      }
      heap := Filled(heap, pov, data);
      hand := Some(Hand(pov, |data|, failed, true));
    }

    // A handshake message, and the next state if the socket takes it.
    method SendHandshake(id: Id, msg: seq<byte>, state: ProxyState)
      requires Numbered() && id in m_socketMap
      modifies this`m_ovDataSet, this`heap, this`next, this`calls, this`armed, this`posted, this`freed, this`logs
      modifies Objects()
      ensures Numbered() && View() == SendThen(cfg, old(View()), id, msg, state)
    {
      hide ProxyModel.StartTcpSend;
      var ok := StartTcpSend(id, msg);
      if ok {
        label Before:
        m_socketMap[id].proxyState := state;
        Updated@Before(id);
      }
      SendThenSteps(cfg, old(View()), id, msg, state);
    }

    lemma SendThenSteps(cfg: Config, s: State, id: Id, msg: seq<byte>, state: ProxyState)
      requires id in s.conns
      ensures var (t, ok) := ProxyModel.StartTcpSend(cfg, s, id, msg);
              && ok == cfg.net(s.calls).Accepted? && t.conns == s.conns
              && SendThen(cfg, s, id, msg, state) == if ok then SetConn(t, id, s.conns[id].(state := state)) else t
    {
      hide NewSend;
    }

    // The first waiting datagram goes through udpSend again and off the queue.
    method FlushFirst(id: Id)
      requires Numbered() && id in m_socketMap && m_socketMap[id].proxyState == PsConnected &&
               m_socketMap[id].udpSendPackets != []
      modifies this`m_ovDataSet, this`heap, this`next, this`calls, this`armed, this`posted, this`freed, this`logs
      modifies Objects()
      ensures Numbered() && m_socketMap[id].proxyState == PsConnected
      ensures m_socketMap[id].udpSendPackets == old(m_socketMap[id].udpSendPackets)[1..]
      ensures Flush(cfg, View(), id) == Flush(cfg, old(View()), id)
    {
      var pd := m_socketMap[id];
      assert Conns()[id] == pd.Value();
      hide SendFrame;
      var _ := UdpSend(id, pd.udpSendPackets[0], false);
      assert Conns()[id] == pd.Value();
      label Before:
      pd.udpSendPackets := pd.udpSendPackets[1..];
      Updated@Before(id);
    }

    // The loop over the waiting datagrams.
    method FlushPackets(id: Id)
      requires Numbered() && id in m_socketMap && m_socketMap[id].proxyState == PsConnected
      modifies this`m_ovDataSet, this`heap, this`next, this`calls, this`armed, this`posted, this`freed, this`logs
      modifies Objects()
      ensures Numbered() && View() == Flush(cfg, old(View()), id)
    {
      hide ProxyModel.UdpSend;
      while |m_socketMap[id].udpSendPackets| > 0
        invariant Numbered() && m_socketMap == old(m_socketMap) && m_socketMap[id].proxyState == PsConnected
        invariant Flush(cfg, View(), id) == Flush(cfg, old(View()), id)
        decreases |m_socketMap[id].udpSendPackets|
      {
        FlushFirst(id);
      }
      assert Conns()[id] == m_socketMap[id].Value();
    }

    // The locked block of onTcpReceiveComplete.
    method TcpReplied(id: Id, n: nat, buffer: Packet)
      requires Numbered() && id in m_socketMap
      modifies this`m_ovDataSet, this`heap, this`next, this`calls, this`armed, this`posted, this`freed, this`logs
      modifies Objects()
      ensures Numbered() && View() == TcpReply(cfg, old(View()), id, n, buffer)
    {
      var pd := m_socketMap[id];
      assert Conns()[id] == pd.Value();
      hide SendThen, Flush;
      match pd.proxyState {
        case PsNone =>
        case PsAuth =>
          if n < SIZEOF_AUTH_RESPONSE {
            return;
          }
          if buffer[0] != SOCKS_5 {
            return;
          }
          if buffer[1] == S5AM_UNPW && pd.userName != [] {
            var authReq: seq<byte> := [1];
            authReq := authReq + [|pd.userName| % 256];
            authReq := authReq + pd.userName;
            authReq := authReq + [|pd.userPassword| % 256];
            if pd.userPassword != [] {
              authReq := authReq + pd.userPassword;
            }
            assert authReq == UserPass(pd.userName, pd.userPassword);
            SendHandshake(id, authReq, PsAuthNegotiation);
            return;
          }
          SendHandshake(id, Associate, PsUdpAssoc);
        case PsAuthNegotiation =>
          if n < SIZEOF_AUTH_RESPONSE {
            return;
          }
          if buffer[0] != 1 || buffer[1] != 0 {
            return;
          }
          SendHandshake(id, Associate, PsUdpAssoc);
        case PsUdpAssoc => Associated(id, n, buffer);
        case PsConnected =>
      }
    }

    method Associated(id: Id, n: nat, buffer: Packet)
      requires Numbered() && id in m_socketMap && m_socketMap[id].proxyState == PsUdpAssoc
      modifies this`m_ovDataSet, this`heap, this`next, this`calls, this`armed, this`posted, this`freed, this`logs
      modifies Objects()
      ensures Numbered() && View() == TcpReply(cfg, old(View()), id, n, buffer)
    {
      var pd := m_socketMap[id];
      assert Conns()[id] == pd.Value();
      hide Flush, SendThen;
      if n < SIZEOF_RESPONSE || buffer[0] != SOCKS_5 || buffer[1] != 0 {
        return;
      }
      if buffer[3] == SOCKS5_ADDR_IPV4 {
        SetRelay(id, V4(cfg.proxy[4..8], buffer[8..10]));
      } else if buffer[3] == SOCKS5_ADDR_IPV6 {
        SetRelay(id, V6(cfg.proxy[8..24], buffer[20..22]));
      } else {
        return;
      }
      FlushPackets(id);
    }

    // The relay's address and the state that goes with it.
    method SetRelay(id: Id, relay: SockAddr)
      requires Numbered() && id in m_socketMap
      modifies Objects()
      ensures Numbered() && m_socketMap[id].proxyState == PsConnected
      ensures View() == SetConn(old(View()), id,
              old(m_socketMap[id].Value()).(relay := Some(relay), state := PsConnected))
    {
      var pd := m_socketMap[id];
      pd.remoteAddress := Some(relay);
      pd.proxyState := PsConnected;
      Updated(id);
    }

    // The locked block of onConnectComplete, up to the deletion.
    method Greet(id: Id)
      requires Numbered() && id in m_socketMap
      modifies this`m_ovDataSet, this`heap, this`next, this`calls, this`armed, this`posted, this`freed, this`logs
      modifies Objects()
      ensures Numbered() && View() == Connected(cfg, old(View()), id)
    {
      hide SendThen;
      var authReq: seq<byte> := [SOCKS_5, 1, if m_socketMap[id].userName == [] then S5AM_NONE else S5AM_UNPW];
      SendHandshake(id, authReq, PsAuth);
      StartReceive(id, OvtTcpReceive);
    }

    // The handler for the operation in hand is done with its data.
    ghost method BodyDone()
      requires Tracked() && hand.Some?
      modifies this`hand
      ensures Tracked() && View() == old(View()).(cells := HandDone(old(Memory())))
    {
      hand := Some(hand.value.(body := false));
    }

    // deleteOV_DATA on the operation in hand.
    method DropHand(pov: Op)
      requires Tracked() && hand.Some? && hand.value.op == pov
      modifies this`m_ovDataSet, this`heap, this`freed, this`hand
      ensures Tracked() && hand == None && View() == Drop(old(View()))
    {
      hand := None;
      ghost var m := Memory();
      DeleteOvData(pov);
      assert Memory() == Free(m, pov);
      hide Free;
      assert View() == old(View()).(cells := Memory());
    }

    // The receive is armed again with the same operation.
    method RearmHand(pov: Op)
      requires Tracked() && pov in heap && hand.Some? && hand.value.op == pov && Rearms(Memory())
      modifies this`m_ovDataSet, this`heap, this`calls, this`armed, this`posted, this`freed, this`hand
      ensures Tracked() && View() == Called(old(View()), Release(old(Memory()), cfg.net(old(calls))))
    {
      hide Release, Rearms;
      ReceiveAgain(pov);
      assert View() == Called(old(View()), Memory());
    }

    method ReceiveAgain(pov: Op)
      requires Tracked() && pov in heap && hand.Some? && hand.value.op == pov && Rearms(Memory())
      modifies this`m_ovDataSet, this`heap, this`calls, this`armed, this`posted, this`freed, this`hand
      ensures Tracked() && calls == old(calls) + 1 && Memory() == Release(old(Memory()), cfg.net(old(calls)))
    {
      hide Settle;
      hand := None;
      ghost var m := Memory();
      Receive(pov);
      assert Memory() == Settle(m, pov, cfg.net(old(calls)));
    }

    // The operation in hand, as the port reported it.
    ghost predicate Given(pov: Op, n: nat, kind: Kind)
      reads this, Objects()
    {
      && Valid() && HandReady(Memory())
      && hand.value.op == pov && hand.value.n == n && hand.value.body
      && heap[pov].kind == kind
    }

    method OnTcpReceiveComplete(dwTransferred: nat, pov: Op)
      requires Given(pov, dwTransferred, OvtTcpReceive)
      modifies this`m_ovDataSet, this`heap, this`next, this`calls, this`armed, this`posted, this`freed, this`hand
      modifies this`logs, Objects()
      ensures Valid() && View() == Handle(cfg, old(View()))
    {
      HandleOk(cfg, View());
      InvNumbered();
      hide Inv, Body, Finish;
      ReplyInHand(dwTransferred, pov);
      FinishReceive(dwTransferred, pov);
    }

    // The locked block, if anything was received.
    method ReplyInHand(dwTransferred: nat, pov: Op)
      requires Numbered() && HandReady(Memory()) && hand == Some(Hand(pov, dwTransferred, hand.value.failed, true))
      requires heap[pov].kind == OvtTcpReceive
      modifies this`m_ovDataSet, this`heap, this`next, this`calls, this`armed, this`posted, this`freed, this`hand
      modifies this`logs, Objects()
      ensures Tracked() && HandReady(Memory()) && View() == Body(cfg, old(View()))
      ensures hand == Some(old(hand).value.(body := false)) && heap[pov].kind == OvtTcpReceive
    {
      BodyDone();
      ghost var t := View();
      if dwTransferred > 0 && heap[pov].id in m_socketMap {
        var id, buffer := heap[pov].id, heap[pov].buffer;
        TcpReplyExtends(cfg, t, id, dwTransferred, buffer);
        TcpReplied(id, dwTransferred, buffer);
      }
      hide TcpReply, Connected, Unframe, Drop;
    }

    lemma InvNumbered()
      requires Valid()
      ensures Numbered()
    {
    }

    // What a completion of d hands on to the event handler.
    function Received(d: OvData, n: nat): Option<Delivery>
      requires d.kind.OvtUdpReceive? && n > 0 ==> |d.buffer| == PACKET_SIZE && n <= PACKET_SIZE
    {
      if d.kind.OvtUdpReceive? && n > 0 then Unframe(d.buffer, n) else None
    }

    method OnUdpReceiveComplete(dwTransferred: nat, pov: Op)
      requires Given(pov, dwTransferred, OvtUdpReceive)
      modifies this`m_ovDataSet, this`heap, this`calls, this`armed, this`posted, this`freed, this`hand, this`delivered
      modifies m_pProxyHandler`toApp, m_pProxyHandler`toAppOptions
      ensures Valid() && View() == Handle(cfg, old(View()))
      ensures m_pProxyHandler.toApp == old(m_pProxyHandler.toApp) +
                m_pProxyHandler.Shown(old(heap[pov].id), Received(old(heap[pov]), dwTransferred))
    {
      HandleOk(cfg, View());
      hide InvDuring, Unframe, Body, Finish;
      DeliverHand(dwTransferred, pov);
      FinishReceive(dwTransferred, pov);
    }

    // The receive is armed again with the same operation, or the operation deleted.
    method FinishReceive(dwTransferred: nat, pov: Op)
      requires Tracked() && HandReady(Memory()) && hand == Some(Hand(pov, dwTransferred, hand.value.failed, false))
      requires IsReceive(heap[pov].kind)
      modifies this`m_ovDataSet, this`heap, this`calls, this`armed, this`posted, this`freed, this`hand
      ensures Tracked() && View() == Finish(cfg, old(View()))
    {
      if dwTransferred == 0 {
        DropHand(pov);
      } else {
        RearmHand(pov);
      }
    }

    // The call of the handler, if there is something to hand on.
    method DeliverHand(dwTransferred: nat, pov: Op)
      requires Tracked() && HandReady(Memory()) && hand == Some(Hand(pov, dwTransferred, hand.value.failed, true))
      requires heap[pov].kind == OvtUdpReceive
      modifies this`hand, this`delivered, m_pProxyHandler`toApp, m_pProxyHandler`toAppOptions
      ensures Tracked() && hand == Some(old(hand).value.(body := false)) && View() == Body(cfg, old(View()))
      ensures m_pProxyHandler.toApp == old(m_pProxyHandler.toApp) +
                m_pProxyHandler.Shown(heap[pov].id, Received(heap[pov], dwTransferred))
    {
      ReceiveBody(View());
      hide Unframe, Body;
      BodyDone();
      var delivery := None;
      if dwTransferred > 0 {
        delivery := ParseDatagram(heap[pov].buffer, dwTransferred);
      }
      HandOn(heap[pov].id, delivery);
    }

    lemma ReceiveBody(s: State)
      requires HandReady(s.cells) && s.cells.ops[s.cells.hand.value.op].kind.OvtUdpReceive?
      ensures var d := s.cells.ops[s.cells.hand.value.op];
              var out := Received(d, s.cells.hand.value.n);
              Body(cfg, s) == s.(cells := HandDone(s.cells),
                                 delivered := s.delivered + if out.Some? then [Delivered(d.id, out.value)] else [])
    {
      hide Unframe, TcpReply, Connected, Drop;
      assert s.delivered + [] == s.delivered;
    }

    method HandOn(id: Id, delivery: Option<Delivery>)
      modifies this`delivered, m_pProxyHandler`toApp, m_pProxyHandler`toAppOptions
      ensures delivered == old(delivered) + if delivery.Some? then [Delivered(id, delivery.value)] else []
      ensures View() == old(View()).(delivered := delivered)
      ensures m_pProxyHandler.toApp == old(m_pProxyHandler.toApp) + m_pProxyHandler.Shown(id, delivery)
    {
      if delivery.Some? {
        delivered := delivered + [Delivered(id, delivery.value)];
        m_pProxyHandler.OnUdpReceiveComplete(id, delivery.value);
      }
    }

    // What the handler is given, by the address type of the request.
    method ParseDatagram(buffer: Packet, dwTransferred: nat) returns (delivery: Option<Delivery>)
      requires dwTransferred <= PACKET_SIZE
      ensures delivery == Unframe(buffer, dwTransferred)
    {
      delivery := None;
      if dwTransferred > SIZEOF_UDP_REQUEST {
        var addressType := buffer[3];
        if addressType == SOCKS5_ADDR_IPV4 {
          var addr := V4(buffer[4..8], buffer[8..10]);
          delivery := Some(Delivery(addr, Slice(buffer, 10, dwTransferred), dwTransferred - 10));
        } else if addressType == SOCKS5_ADDR_IPV6 {
          var addr := V6(buffer[4..20], buffer[20..22]);
          delivery := Some(Delivery(addr, Slice(buffer, 22, dwTransferred), dwTransferred - 22));
        }
      }
    }

    // onTcpSendComplete and onUdpSendComplete
    method OnSendComplete(dwTransferred: nat, pov: Op)
      requires Given(pov, dwTransferred, OvtTcpSend) || Given(pov, dwTransferred, OvtUdpSend)
      modifies this`m_ovDataSet, this`heap, this`freed, this`hand
      ensures Valid() && View() == Handle(cfg, old(View()))
    {
      HandleOk(cfg, View());
      hide InvDuring, TcpReply, Connected, Unframe, Release, Drop;
      BodyDone();
      assert View() == Body(cfg, old(View()));
      hide Body;
      DropHand(pov);
    }

    method OnConnectComplete(dwTransferred: nat, pov: Op, error: bool)
      requires Given(pov, dwTransferred, OvtConnect) && hand.value.failed == error
      modifies this`m_ovDataSet, this`heap, this`next, this`calls, this`armed, this`posted, this`freed, this`hand
      modifies this`logs, this`m_socketMap, Objects()
      ensures Valid() && View() == Handle(cfg, old(View())) && Objects() <= old(Objects())
    {
      HandleOk(cfg, View());
      InvNumbered();
      hide InvDuring, TcpReply, Unframe, Release;
      if error {
        ConnectFailed(pov);
        hide Body, Drop;
        DropHand(pov);
      } else {
        ConnectSucceeded(pov);
        hide Body;
      }
    }

    method ConnectFailed(pov: Op)
      requires Tracked() && HandReady(Memory()) && hand.value.op == pov && hand.value.failed &&
               heap[pov].kind == OvtConnect
      modifies this`hand, this`m_socketMap
      ensures Tracked() && Objects() <= old(Objects()) && hand == Some(old(hand).value.(body := false))
      ensures View() == Body(cfg, old(View()))
    {
      hide Connected, TcpReply, Unframe;
      BodyDone();
      DeleteProxyConnection(heap[pov].id);
    }

    // setsockopt is not modelled.
    method ConnectSucceeded(pov: Op)
      requires Numbered() && HandReady(Memory()) && hand.value.op == pov && !hand.value.failed &&
               heap[pov].kind == OvtConnect
      modifies this`m_ovDataSet, this`heap, this`next, this`calls, this`armed, this`posted, this`freed, this`hand
      modifies this`logs, Objects()
      ensures Tracked() && hand == None && View() == Body(cfg, old(View()))
    {
      hide Connected, TcpReply, Unframe, Drop;
      var id := heap[pov].id;
      BodyDone();
      if id in m_socketMap {
        ConnectedHand(cfg, View(), id);
        Greet(id);
      }
      DropHand(pov);
    }

    // onComplete: the handler by the type of the operation.
    method OnComplete(pov: Op, dwTransferred: nat, error: bool)
      requires Valid() && HandReady(Memory()) && hand == Some(Hand(pov, dwTransferred, error, true))
      modifies this`m_ovDataSet, this`heap, this`next, this`calls, this`armed, this`posted, this`freed, this`hand
      modifies this`logs, this`m_socketMap, this`delivered, Objects()
      modifies m_pProxyHandler`toApp, m_pProxyHandler`toAppOptions
      ensures Valid() && View() == Handle(cfg, old(View())) && Objects() <= old(Objects())
      ensures m_pProxyHandler.toApp == old(m_pProxyHandler.toApp) +
                m_pProxyHandler.Shown(old(heap[pov].id), Received(old(heap[pov]), dwTransferred))
    {
      hide Valid, Handle, Unframe;
      match heap[pov].kind {
        case OvtUdpSend => OnSendComplete(dwTransferred, pov);
        case OvtUdpReceive => OnUdpReceiveComplete(dwTransferred, pov);
        case OvtConnect => OnConnectComplete(dwTransferred, pov, error);
        case OvtTcpSend => OnSendComplete(dwTransferred, pov);
        case OvtTcpReceive => OnTcpReceiveComplete(dwTransferred, pov);
      }
    }

    // free, the worker being gone: the set and the map are emptied entry by entry.
    method FreeAll()
      requires Valid() && hand.None?
      modifies this`m_ovDataSet, this`heap, this`freed, this`m_socketMap
      ensures m_ovDataSet == {} && m_socketMap == map[] && View() == Shutdown(old(View()))
    {
      hide Inv;
      FreeOperations();
      FreeConnections();
    }

    method FreeOperations()
      requires Tracked()
      modifies this`m_ovDataSet, this`heap, this`freed
      ensures Tracked() && m_ovDataSet == {} && heap == map[] && freed == old(freed) + multiset(old(heap).Keys)
    {
      ghost var gone: set<Op> := {};
      while m_ovDataSet != {}
        invariant Tracked() && gone !! m_ovDataSet && gone + m_ovDataSet == old(m_ovDataSet)
        invariant freed == old(freed) + multiset(gone)
        decreases m_ovDataSet
      {
        var pov :| pov in m_ovDataSet;
        assert multiset(gone + {pov}) == multiset(gone) + multiset{pov};
        gone := gone + {pov};
        heap := heap - {pov};
        freed := freed + multiset{pov};
        m_ovDataSet := m_ovDataSet - {pov};
      }
    }

    method FreeConnections()
      modifies this`m_socketMap
      ensures m_socketMap == map[] && Conns() == map[]
    {
      while m_socketMap != map[]
        decreases |m_socketMap|
      {
        var id :| id in m_socketMap;
        m_socketMap := m_socketMap - {id};
      }
    }
  }
}
