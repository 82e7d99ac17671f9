/**
 * The invariant of the UDP proxy, over every step of ProxyModel: operations, connections, queues and the traces on
 * the wire, tied together.
 */
module ProxyInvariant {
  import opened Bytes
  import opened Socks
  import opened Operations
  import opened ProxyModel

  // ---------------------------------------------------------------- one connection and its log

  /** The messages the TCP socket has accepted, as the state fixes them: sections 3 and 4 of RFC 1928 and
      section 2 of RFC 1929. The password exchange is only ever there for a non-empty user name. */
  predicate Scripted(state: ProxyState, user: seq<byte>, pass: seq<byte>, tcp: seq<seq<byte>>) {
    match state
    case PsNone => tcp == []
    case PsAuth => tcp == [Greeting(user)]
    case PsAuthNegotiation => user != [] && tcp == [Greeting(user), UserPass(user, pass)]
    case _ =>
      || tcp == [Greeting(user), Associate]
      || (user != [] && tcp == [Greeting(user), UserPass(user, pass), Associate])
  }

  // The frames given to WSASendTo are those of the first submitted datagrams, in order.
  predicate InOrder(l: Log) {
    && |l.udp| <= |l.submitted|
    && forall i | 0 <= i < |l.udp| :: l.udp[i].frame == Frame(l.submitted[i])
  }

  // What is left of a connection's log once the connection is gone.
  predicate LogOk(cfg: Config, l: Log) {
    && InOrder(l)
    && exists state: ProxyState :: Scripted(state, cfg.user, cfg.pass, l.tcp)
  }

  predicate ConnOk(cfg: Config, c: Conn, l: Log) {
    && c.user == cfg.user && c.pass == cfg.pass
    && Scripted(c.state, c.user, c.pass, l.tcp)
    && InOrder(l)
    // What waits is exactly what was submitted and not sent.
    && c.queue == l.submitted[|l.udp|..]
    && (c.state != PsConnected ==>
         l.udp == [] && c.relay.None? && !c.recvStarted && forall i | 0 <= i < |c.queue| :: c.queue[i].payload != [])
    && (c.state == PsConnected ==> c.relay.Some? && forall i | 0 <= i < |l.udp| :: l.udp[i].dest == c.relay)
  }

  // ---------------------------------------------------------------- the whole state

  // Operations belong to connections that were made; a connect still to complete finds its connection untouched,
  // and the UDP socket is only read on behalf of a connection that says so.
  predicate Tied(d: OvData, conns: map<Id, Conn>, logs: map<Id, Log>) {
    && d.id in logs
    && (d.id in conns && d.kind.OvtConnect? ==> conns[d.id].state.PsNone?)
    && (d.id in conns && SlotOf(d).UdpSlot? ==> conns[d.id].recvStarted)
  }

  ghost predicate Ties(m: Cells, conns: map<Id, Conn>, logs: map<Id, Log>) {
    forall o | o in m.ops :: Tied(m.ops[o], conns, logs)
  }

  // Inside the flush loop of `flushing` that connection may be connected with datagrams still queued.
  ghost predicate Agree(cfg: Config, conns: map<Id, Conn>, logs: map<Id, Log>, flushing: Option<Id>) {
    && (forall id | id in conns :: id in logs && ConnOk(cfg, conns[id], logs[id]))
    && (forall id | id in conns && flushing != Some(id) :: conns[id].state == PsConnected ==> conns[id].queue == [])
    && (forall id | id in logs :: LogOk(cfg, logs[id]))
  }

  ghost predicate InvDuring(cfg: Config, s: State, flushing: Option<Id>) {
    CellsOk(s.cells) && Ties(s.cells, s.conns, s.logs) && Agree(cfg, s.conns, s.logs, flushing)
  }

  ghost predicate Inv(cfg: Config, s: State) {
    InvDuring(cfg, s, None)
  }

  lemma InitialOk(cfg: Config)
    ensures Inv(cfg, Initial)
  {
  }

  // ---------------------------------------------------------------- operations keep the ties

  lemma StartTies(m: Cells, conns: map<Id, Conn>, logs: map<Id, Log>, d: OvData, outcome: Outcome)
    requires Owned(m) && Ties(m, conns, logs) && Tied(d, conns, logs)
    ensures var t := Start(m, d, outcome); Ties(t, conns, logs) && t.hand == m.hand
  {
    StartOwned(m, d, outcome);
    SameHand(m, d, outcome);
    hide Owned, Start, Tied;
  }

  lemma SameHand(m: Cells, d: OvData, outcome: Outcome)
    ensures Start(m, d, outcome).hand == m.hand
  {
  }

  lemma SendTies(m: Cells, conns: map<Id, Conn>, logs: map<Id, Log>, id: Id, kind: Kind, buffer: seq<byte>,
      outcome: Outcome)
    requires CellsOk(m) && Ties(m, conns, logs) && id in logs && (kind.OvtTcpSend? || kind.OvtUdpSend?)
    ensures var t := NewSend(m, id, kind, buffer, outcome);
            CellsOk(t) && Ties(t, conns, logs) && t.hand == m.hand
    ensures forall i: Id, slot: Slot | !slot.NoSlot? && SlotTaken(NewSend(m, id, kind, buffer, outcome), i, slot) ::
              SlotTaken(m, i, slot)
  {
    NewSendOk(m, id, kind, buffer, outcome);
    hide Buffered, Exclusive, Owned, Start, Ties, SlotTaken;
    var d := if outcome.Accepted? then OvData(id, kind, buffer) else OvData(id, Retag(kind), []);
    StartTies(m, conns, logs, d, outcome);
    NoSlotAdded(m, d, outcome);
  }

  lemma NoSlotAdded(m: Cells, d: OvData, outcome: Outcome)
    requires Owned(m) && SlotOf(d).NoSlot?
    ensures forall i: Id, slot: Slot | !slot.NoSlot? && SlotTaken(Start(m, d, outcome), i, slot) ::
            SlotTaken(m, i, slot)
  {
    StartOwned(m, d, outcome);
    hide Owned, Start;
    var t := Start(m, d, outcome);
    forall i: Id, slot: Slot | !slot.NoSlot? && SlotTaken(t, i, slot)
      ensures SlotTaken(m, i, slot)
    {
      var o :| o in t.ops && t.ops[o].id == i && SlotOf(t.ops[o]) == slot;
      assert o in m.ops && m.ops[o] == t.ops[o];
    }
  }

  lemma ReceiveTies(m: Cells, conns: map<Id, Conn>, logs: map<Id, Log>, id: Id, kind: Kind, outcome: Outcome)
    requires CellsOk(m) && Ties(m, conns, logs) && id in logs && IsReceive(kind)
    requires !SlotTaken(m, id, if kind.OvtTcpReceive? then TcpSlot else UdpSlot)
    requires kind.OvtUdpReceive? && id in conns ==> conns[id].recvStarted
    ensures var t := NewReceive(m, id, kind, outcome); CellsOk(t) && Ties(t, conns, logs) && t.hand == m.hand
  {
    NewReceiveOk(m, id, kind, outcome);
    hide Buffered, Exclusive, Owned, Start, Ties, SlotTaken;
    StartTies(m, conns, logs, OvData(id, kind, EmptyPacket()), outcome);
  }

  // No read of the UDP socket while recvStarted is unset.
  lemma UdpSlotFree(s: State, id: Id)
    requires Ties(s.cells, s.conns, s.logs) && id in s.conns && !s.conns[id].recvStarted
    ensures !SlotTaken(s.cells, id, UdpSlot)
  {
  }

  // ---------------------------------------------------------------- sending

  lemma SendFrameIs(cfg: Config, s: State, id: Id, d: Datagram)
    requires id in s.conns && id in s.logs
    ensures var (t, ok) := SendFrame(cfg, s, id, d);
            var c := s.conns[id];
            var m := NewSend(s.cells, id, OvtUdpSend, Frame(d), cfg.net(s.calls));
            && ok == cfg.net(s.calls).Accepted?
            && t.cells == (if ok && !c.recvStarted then NewReceive(m, id, OvtUdpReceive, cfg.net(s.calls + 1)) else m)
            && t.conns == (if ok && !c.recvStarted then s.conns[id := c.(recvStarted := true)] else s.conns)
            && t.logs == s.logs[id := s.logs[id].(udp := s.logs[id].udp + [Sent(Frame(d), c.relay, ok)])]
            && t.delivered == s.delivered
  {
    hide NewSend, NewReceive, Frame;
  }

  /** One WSASendTo on a connected relay: the first unsent datagram's frame goes out and the next waits. */
  lemma SendFrameOk(cfg: Config, s: State, id: Id, d: Datagram)
    requires InvDuring(cfg, s, Some(id)) && id in s.conns && s.conns[id].state == PsConnected
    requires s.conns[id].queue != [] && d == s.conns[id].queue[0]
    ensures var t := SendFrame(cfg, s, id, d).0;
            id in t.conns && t.conns[id] == s.conns[id].(recvStarted := t.conns[id].recvStarted) &&
            InvDuring(cfg, SetConn(t, id, t.conns[id].(queue := s.conns[id].queue[1..])), Some(id)) &&
            t.cells.hand == s.cells.hand && t.delivered == s.delivered
    ensures id in s.logs
    ensures SendFrame(cfg, s, id, d).0.logs == s.logs[id := s.logs[id].(
              udp := s.logs[id].udp + [Sent(Frame(d), s.conns[id].relay, cfg.net(s.calls).Accepted?)])]
  {
    assert id in s.logs;
    SendFrameIs(cfg, s, id, d);
    hide SendFrame, NewSend, NewReceive, Frame, CellsOk, Ties, Agree;
    var t := SendFrame(cfg, s, id, d).0;
    var c := t.conns[id].(queue := s.conns[id].queue[1..]);
    SendFrameAgrees(cfg, s, id, c, t.logs[id], cfg.net(s.calls).Accepted?);
    SendFrameTies(cfg, s, id, d, c);
    UpdatedTwice(s.conns, id, s.conns[id].(recvStarted := true), c);
  }

  lemma SendFrameTies(cfg: Config, s: State, id: Id, d: Datagram, c: Conn)
    requires InvDuring(cfg, s, Some(id)) && id in s.conns && s.conns[id].state == PsConnected && s.conns[id].queue != []
    requires c == SendFrame(cfg, s, id, d).0.conns[id].(queue := s.conns[id].queue[1..])
    ensures var t := SendFrame(cfg, s, id, d).0;
            CellsOk(t.cells) && Ties(t.cells, s.conns[id := c], t.logs) && t.cells.hand == s.cells.hand
  {
    SendFrameIs(cfg, s, id, d);
    hide SendFrame, CellsOk, NewSend, NewReceive, Agree, Frame, SlotTaken;
    var t := SendFrame(cfg, s, id, d).0;
    var m := NewSend(s.cells, id, OvtUdpSend, Frame(d), cfg.net(s.calls));
    SendTies(s.cells, s.conns, s.logs, id, OvtUdpSend, Frame(d), cfg.net(s.calls));
    Retied(m, s.conns, s.logs, s.conns[id := c], t.logs);
    if cfg.net(s.calls).Accepted? && !s.conns[id].recvStarted {
      UdpSlotFree(s, id);
      ReceiveTies(m, s.conns[id := c], t.logs, id, OvtUdpReceive, cfg.net(s.calls + 1));
    }
  }

  ghost predicate NoConnect(m: Cells, id: Id) {
    forall o | o in m.ops && m.ops[o].id == id :: !m.ops[o].kind.OvtConnect?
  }

  // Ties survive changes of the connections that leave one being connected as it is.
  lemma Retied(m: Cells, conns: map<Id, Conn>, logs: map<Id, Log>, conns': map<Id, Conn>, logs': map<Id, Log>)
    requires Ties(m, conns, logs) && logs.Keys <= logs'.Keys && conns'.Keys <= conns.Keys
    requires forall id | id in conns' ::
      && (conns[id].state.PsNone? ==> conns'[id].state.PsNone? || NoConnect(m, id))
      && (conns[id].recvStarted ==> conns'[id].recvStarted)
    ensures Ties(m, conns', logs')
  {
    forall o | o in m.ops
      ensures Tied(m.ops[o], conns', logs')
    {
      assert Tied(m.ops[o], conns, logs);
    }
  }

  // One connection and its log change together.
  lemma Agreed(cfg: Config, conns: map<Id, Conn>, logs: map<Id, Log>, id: Id, c: Conn, l: Log, before: Option<Id>,
      after: Option<Id>)
    requires Agree(cfg, conns, logs, before) && (before == None || before == Some(id))
    requires after == None || after == Some(id)
    requires ConnOk(cfg, c, l) && (after == None && c.state == PsConnected ==> c.queue == [])
    ensures Agree(cfg, conns[id := c], logs[id := l], after)
  {
    hide ConnOk, LogOk;
    ConnLog(cfg, c, l);
  }

  lemma ConnLog(cfg: Config, c: Conn, l: Log)
    requires ConnOk(cfg, c, l)
    ensures LogOk(cfg, l)
  {
    assert Scripted(c.state, cfg.user, cfg.pass, l.tcp);
  }

  lemma SendFrameAgrees(cfg: Config, s: State, id: Id, c: Conn, l: Log, ok: bool)
    requires InvDuring(cfg, s, Some(id)) && id in s.conns && s.conns[id].state == PsConnected && s.conns[id].queue != []
    requires c == s.conns[id].(recvStarted := c.recvStarted, queue := s.conns[id].queue[1..])
    requires l == s.logs[id].(udp := s.logs[id].udp + [Sent(Frame(s.conns[id].queue[0]), s.conns[id].relay, ok)])
    ensures Agree(cfg, s.conns[id := c], s.logs[id := l], Some(id))
  {
    assert l.submitted[|l.udp|..] == c.queue;
    Agreed(cfg, s.conns, s.logs, id, c, l, Some(id), Some(id));
  }

  /** The flush loop ends with nothing queued, every datagram's frame having gone out in turn. */
  lemma {:induction false} FlushOk(cfg: Config, s: State, id: Id)
    requires InvDuring(cfg, s, Some(id)) && id in s.conns && s.conns[id].state == PsConnected
    ensures var t := Flush(cfg, s, id);
            Inv(cfg, t) && t.cells.hand == s.cells.hand && t.delivered == s.delivered
    ensures var t := Flush(cfg, s, id);
            && id in t.conns && id in t.logs
            && t.conns[id] == s.conns[id].(queue := [], recvStarted := t.conns[id].recvStarted)
            && |t.logs[id].udp| == |t.logs[id].submitted|
    decreases |s.conns[id].queue|
  {
    var q := s.conns[id].queue;
    if q != [] {
      SendFrameOk(cfg, s, id, q[0]);
      hide SendFrame, InvDuring;
      var t := UdpSend(cfg, s, id, q[0]).0;
      assert t.conns[id].queue == q;
      FlushOk(cfg, SetConn(t, id, t.conns[id].(queue := q[1..])), id);
    } else {
      hide CellsOk, Ties, ConnOk, LogOk;
    }
  }

  // ---------------------------------------------------------------- the handshake

  lemma SendThenIs(cfg: Config, s: State, id: Id, msg: seq<byte>, state: ProxyState)
    requires id in s.conns && id in s.logs
    ensures var t := SendThen(cfg, s, id, msg, state);
            var ok := cfg.net(s.calls).Accepted?;
            && t.cells == NewSend(s.cells, id, OvtTcpSend, msg, cfg.net(s.calls))
            && t.conns == (if ok then s.conns[id := s.conns[id].(state := state)] else s.conns)
            && t.logs == (if ok then s.logs[id := s.logs[id].(tcp := s.logs[id].tcp + [msg])] else s.logs)
            && t.delivered == s.delivered && t.calls == s.calls + 1
  {
    hide NewSend;
  }

  lemma Advanced(s: State, id: Id, state: ProxyState, l: Log)
    requires Ties(s.cells, s.conns, s.logs) && id in s.conns
    requires s.conns[id].state.PsNone? ==> NoConnect(s.cells, id)
    ensures Ties(s.cells, s.conns[id := s.conns[id].(state := state)], s.logs[id := l])
  {
    hide Ties;
    forall i | i in s.conns && s.conns[i].state.PsNone?
      ensures s.conns[id := s.conns[id].(state := state)][i].state.PsNone? || NoConnect(s.cells, i)
    {
    }
    hide NoConnect;
    Retied(s.cells, s.conns, s.logs, s.conns[id := s.conns[id].(state := state)], s.logs[id := l]);
  }

  /** A handshake message moves the connection on exactly when the socket accepts it. */
  lemma SendThenOk(cfg: Config, s: State, id: Id, msg: seq<byte>, state: ProxyState)
    requires Inv(cfg, s) && id in s.conns && s.conns[id].state != PsConnected && state != PsConnected
    requires s.conns[id].state.PsNone? ==> NoConnect(s.cells, id)
    requires Scripted(state, cfg.user, cfg.pass, s.logs[id].tcp + [msg])
    ensures var t := SendThen(cfg, s, id, msg, state);
            Inv(cfg, t) && t.cells.hand == s.cells.hand && t.delivered == s.delivered && t.conns.Keys == s.conns.Keys
    ensures var t := SendThen(cfg, s, id, msg, state);
            var l := s.logs[id];
            if cfg.net(s.calls).Accepted? then
              t.conns[id] == s.conns[id].(state := state) && t.logs == s.logs[id := l.(tcp := l.tcp + [msg])]
            else
              t.conns == s.conns && t.logs == s.logs
    ensures SlotTaken(SendThen(cfg, s, id, msg, state).cells, id, TcpSlot) ==> SlotTaken(s.cells, id, TcpSlot)
  {
    SendThenIs(cfg, s, id, msg, state);
    var t := SendThen(cfg, s, id, msg, state);
    assert id in s.logs;
    hide SendThen, NewSend, CellsOk, Agree, SlotTaken, Scripted, Ties, NoConnect;
    if cfg.net(s.calls).Accepted? {
      SaidOk(cfg, s, id, msg, state);
    }
    assert id in t.logs && t.conns.Keys == s.conns.Keys;
    SendTies(s.cells, t.conns, t.logs, id, OvtTcpSend, msg, cfg.net(s.calls));
  }

  // The connection and its log once the message is accepted.
  lemma SaidOk(cfg: Config, s: State, id: Id, msg: seq<byte>, state: ProxyState)
    requires Inv(cfg, s) && id in s.conns && s.conns[id].state != PsConnected && state != PsConnected
    requires s.conns[id].state.PsNone? ==> NoConnect(s.cells, id)
    requires Scripted(state, cfg.user, cfg.pass, s.logs[id].tcp + [msg])
    ensures var conns := s.conns[id := s.conns[id].(state := state)];
            var logs := s.logs[id := s.logs[id].(tcp := s.logs[id].tcp + [msg])];
            Ties(s.cells, conns, logs) && Agree(cfg, conns, logs, None)
  {
    var c := s.conns[id].(state := state);
    var l := s.logs[id].(tcp := s.logs[id].tcp + [msg]);
    assert ConnOk(cfg, s.conns[id], s.logs[id]);
    assert ConnOk(cfg, c, l);
    hide CellsOk, ConnOk, LogOk, Scripted, Ties, NoConnect;
    Advanced(s, id, state, l);
    Agreed(cfg, s.conns, s.logs, id, c, l, None, None);
  }

  // What is said after the greeting: user name and password, or the request at once.
  lemma MethodChosen(cfg: Config, s: State, id: Id, asked: bool)
    requires Inv(cfg, s) && id in s.conns && s.conns[id].state == PsAuth && (asked ==> s.conns[id].user != [])
    ensures var c := s.conns[id];
            var t := if asked then SendThen(cfg, s, id, UserPass(c.user, c.pass), PsAuthNegotiation)
                     else SendThen(cfg, s, id, Associate, PsUdpAssoc);
            Inv(cfg, t) && t.cells.hand == s.cells.hand && t.delivered == s.delivered
  {
    var c := s.conns[id];
    assert ConnOk(cfg, c, s.logs[id]);
    var greeting := Greeting(cfg.user);
    assert [greeting] + [Associate] == [greeting, Associate];
    assert [greeting] + [UserPass(c.user, c.pass)] == [greeting, UserPass(c.user, c.pass)];
    hide SendThen, CellsOk, Ties, Agree, ConnOk, NoConnect, Greeting, UserPass;
    if asked {
      SendThenOk(cfg, s, id, UserPass(c.user, c.pass), PsAuthNegotiation);
    } else {
      SendThenOk(cfg, s, id, Associate, PsUdpAssoc);
    }
  }

  // And the request after them.
  lemma PasswordAccepted(cfg: Config, s: State, id: Id)
    requires Inv(cfg, s) && id in s.conns && s.conns[id].state == PsAuthNegotiation
    ensures var t := SendThen(cfg, s, id, Associate, PsUdpAssoc);
            Inv(cfg, t) && t.cells.hand == s.cells.hand && t.delivered == s.delivered
  {
    var c := s.conns[id];
    assert ConnOk(cfg, c, s.logs[id]);
    var greeting := Greeting(cfg.user);
    assert [greeting, UserPass(c.user, c.pass)] + [Associate] == [greeting, UserPass(c.user, c.pass), Associate];
    hide SendThen, CellsOk, Ties, Agree, ConnOk, NoConnect, Greeting, UserPass;
    SendThenOk(cfg, s, id, Associate, PsUdpAssoc);
  }

  /** Any reply, whatever the state. */
  lemma TcpReplyOk(cfg: Config, s: State, id: Id, n: nat, buffer: Packet)
    requires Inv(cfg, s) && id in s.conns
    ensures var t := TcpReply(cfg, s, id, n, buffer);
            Inv(cfg, t) && t.cells.hand == s.cells.hand && t.delivered == s.delivered
  {
    hide SendThen, Flush, InvDuring, ReplyRelay, UserPass;
    match s.conns[id].state
    case PsAuth => MethodChosen(cfg, s, id, buffer[1] == S5AM_UNPW && s.conns[id].user != []);
    case PsAuthNegotiation => PasswordAccepted(cfg, s, id);
    case PsUdpAssoc =>
      if ReplyRelay(cfg.proxy, buffer).Some? {
        RelayKnown(cfg, s, id, ReplyRelay(cfg.proxy, buffer).value);
      }
    case _ =>
  }

  /** The relay's address has been learnt: the connection is connected and what waited is sent. */
  lemma RelayKnown(cfg: Config, s: State, id: Id, relay: SockAddr)
    requires Inv(cfg, s) && id in s.conns && s.conns[id].state == PsUdpAssoc
    ensures var u := SetConn(s, id, s.conns[id].(relay := Some(relay), state := PsConnected));
            var t := Flush(cfg, u, id);
            && Inv(cfg, t) && t.cells.hand == s.cells.hand && t.delivered == s.delivered
            && id in t.conns && id in t.logs
            && t.conns[id] == u.conns[id].(queue := [], recvStarted := t.conns[id].recvStarted)
            && |t.logs[id].udp| == |t.logs[id].submitted|
  {
    RelaySet(cfg, s, id, relay);
    hide InvDuring;
    FlushOk(cfg, SetConn(s, id, s.conns[id].(relay := Some(relay), state := PsConnected)), id);
  }

  // Connected, with everything that waited still in the queue.
  lemma RelaySet(cfg: Config, s: State, id: Id, relay: SockAddr)
    requires Inv(cfg, s) && id in s.conns && s.conns[id].state == PsUdpAssoc
    ensures InvDuring(cfg, SetConn(s, id, s.conns[id].(relay := Some(relay), state := PsConnected)), Some(id))
  {
    var c := s.conns[id].(relay := Some(relay), state := PsConnected);
    assert ConnOk(cfg, s.conns[id], s.logs[id]);
    assert ConnOk(cfg, c, s.logs[id]);
    hide ConnOk, LogOk, CellsOk;
    Agreed(cfg, s.conns, s.logs, id, c, s.logs[id], None, Some(id));
    assert s.logs[id := s.logs[id]] == s.logs;
    Retied(s.cells, s.conns, s.logs, s.conns[id := c], s.logs);
    hide Agree, Ties;
  }
}
