/**
 * What a step of the UDP proxy may change: only the connection it is about, and that one only forwards. Handshake
 * states never go back, a relay address once learnt stays, the traces on the wire only grow, nothing is added to
 * what the application submitted, and the log of a connection that is gone or goes stays as it is.
 */
module ProxyHistory {
  import opened Bytes
  import opened Socks
  import opened Operations
  import opened ProxyModel

  function Rank(state: ProxyState): nat {
    match state
    case PsNone => 0
    case PsAuth => 1
    case PsAuthNegotiation => 2
    case PsUdpAssoc => 3
    case PsConnected => 4
  }

  predicate LogGrows(l: Log, l': Log) {
    l.tcp <= l'.tcp && l.udp <= l'.udp && l'.submitted == l.submitted
  }

  predicate ConnGrows(c: Conn, c': Conn) {
    && c'.user == c.user && c'.pass == c.pass
    && Rank(c.state) <= Rank(c'.state)
    && (c.state == PsConnected ==> c'.relay == c.relay)
    && (c.recvStarted ==> c'.recvStarted)
  }

  // Other endpoints' entries stay.
  ghost predicate Apart<T>(m: map<Id, T>, m': map<Id, T>, id: Id) {
    forall i | i != id :: (i in m <==> i in m') && (i in m ==> m'[i] == m[i])
  }

  ghost predicate OpsApart(m: Cells, m': Cells, id: Id) {
    && (forall o | o in m'.ops :: m'.ops[o].id == id || (o in m.ops && m'.ops[o].id == m.ops[o].id))
    && m.next <= m'.next
    && m.freed <= m'.freed
  }

  ghost predicate Moves(s: State, t: State, id: Id) {
    && Apart(s.conns, t.conns, id)
    && Apart(s.logs, t.logs, id)
    && OpsApart(s.cells, t.cells, id)
    && (id in t.conns ==> id in s.conns && ConnGrows(s.conns[id], t.conns[id]))
    && (id in s.logs <==> id in t.logs)
    && (id in s.logs ==> LogGrows(s.logs[id], t.logs[id]))
    && (id in s.logs && id !in t.conns ==> t.logs[id] == s.logs[id])
    && s.delivered <= t.delivered
  }

  lemma MovesOn(s: State, t: State, u: State, id: Id)
    requires Moves(s, t, id) && Moves(t, u, id) && (id in s.conns ==> id in t.conns)
    requires id in s.logs && id !in u.conns ==> t.logs[id] == s.logs[id]
    ensures Moves(s, u, id)
  {
    forall o | o in u.cells.ops
      ensures u.cells.ops[o].id == id || (o in s.cells.ops && u.cells.ops[o].id == s.cells.ops[o].id)
    {
    }
  }

  lemma StartMoves(m: Cells, d: OvData, outcome: Outcome)
    ensures OpsApart(m, Start(m, d, outcome), d.id)
  {
  }

  lemma ReceiveMoves(cfg: Config, s: State, id: Id, kind: Kind)
    ensures Moves(s, StartReceive(cfg, s, id, kind), id)
  {
    StartMoves(s.cells, OvData(id, kind, EmptyPacket()), cfg.net(s.calls));
    hide Start, OpsApart;
  }

  lemma SendThenMoves(cfg: Config, s: State, id: Id, msg: seq<byte>, state: ProxyState)
    requires id in s.conns && id in s.logs && Rank(s.conns[id].state) <= Rank(state) < 4 &&
             s.conns[id].state != PsConnected
    ensures var t := SendThen(cfg, s, id, msg, state); Moves(s, t, id) && id in t.conns
  {
    var d := if cfg.net(s.calls).Accepted? then OvData(id, OvtTcpSend, msg) else OvData(id, OvtTcpReceive, []);
    StartMoves(s.cells, d, cfg.net(s.calls));
    hide Start, OpsApart;
  }

  lemma SendFrameMoves(cfg: Config, s: State, id: Id, d: Datagram)
    requires id in s.conns && id in s.logs
    ensures var t := SendFrame(cfg, s, id, d).0; Moves(s, t, id) && id in t.conns
  {
    var c := s.conns[id];
    var l := s.logs[id];
    var ok := cfg.net(s.calls).Accepted?;
    var e := if ok then OvData(id, OvtUdpSend, Frame(d)) else OvData(id, OvtUdpReceive, []);
    StartMoves(s.cells, e, cfg.net(s.calls));
    hide Start, OpsApart, Frame;
    var u := SetLog(Called(s, NewSend(s.cells, id, OvtUdpSend, Frame(d), cfg.net(s.calls))), id,
                    l.(udp := l.udp + [Sent(Frame(d), c.relay, ok)]));
    assert Moves(s, u, id);
    if ok && !c.recvStarted {
      var v := SetConn(u, id, c.(recvStarted := true));
      ReceiveMoves(cfg, v, id, OvtUdpReceive);
      RestMoves(s, u, v, id);
      hide Moves, StartReceive;
      MovesOn(s, v, StartReceive(cfg, v, id, OvtUdpReceive), id);
    }
  }

  lemma RestMoves(s: State, u: State, v: State, id: Id)
    requires Moves(s, u, id) && id in u.conns && id in v.conns && ConnGrows(u.conns[id], v.conns[id])
    requires v == SetConn(u, id, v.conns[id])
    ensures Moves(s, v, id)
  {
    hide OpsApart;
  }

  lemma {:induction false} FlushMoves(cfg: Config, s: State, id: Id)
    requires id in s.conns && id in s.logs
    ensures var t := Flush(cfg, s, id); Moves(s, t, id) && id in t.conns
    decreases |s.conns[id].queue|
  {
    var q := s.conns[id].queue;
    if s.conns[id].state == PsConnected && q != [] {
      SendFrameMoves(cfg, s, id, q[0]);
      var t := UdpSend(cfg, s, id, q[0]).0;
      var u := SetConn(t, id, t.conns[id].(queue := t.conns[id].queue[1..]));
      assert t.conns[id].queue == q;
      hide SendFrame;
      RestMoves(s, t, u, id);
      FlushMoves(cfg, u, id);
      hide Moves, UdpSend;
      MovesOn(s, u, Flush(cfg, u, id), id);
    } else {
      StaysMoves(s, id);
    }
  }

  lemma StaysMoves(s: State, id: Id)
    ensures Moves(s, s, id)
  {
  }

  lemma TcpReplyMoves(cfg: Config, s: State, id: Id, n: nat, buffer: Packet)
    requires id in s.conns && id in s.logs
    ensures Moves(s, TcpReply(cfg, s, id, n, buffer), id)
  {
    var c := s.conns[id];
    StaysMoves(s, id);
    hide SendThen, Flush, ReplyRelay, UserPass;
    match c.state
    case PsAuth =>
      hide Moves;
      SendThenMoves(cfg, s, id, UserPass(c.user, c.pass), PsAuthNegotiation);
      SendThenMoves(cfg, s, id, Associate, PsUdpAssoc);
    case PsAuthNegotiation =>
      hide Moves;
      SendThenMoves(cfg, s, id, Associate, PsUdpAssoc);
    case PsUdpAssoc =>
      if ReplyRelay(cfg.proxy, buffer).Some? {
        var u := SetConn(s, id, c.(relay := ReplyRelay(cfg.proxy, buffer), state := PsConnected));
        FlushMoves(cfg, u, id);
        RestMoves(s, s, u, id);
        hide Moves;
        MovesOn(s, u, Flush(cfg, u, id), id);
      }
    case _ =>
  }

  lemma ConnectedMoves(cfg: Config, s: State, id: Id)
    requires id in s.conns && id in s.logs && s.conns[id].state == PsNone
    ensures Moves(s, Connected(cfg, s, id), id)
  {
    var msg := Greeting(s.conns[id].user);
    SendThenMoves(cfg, s, id, msg, PsAuth);
    var t := SendThen(cfg, s, id, msg, PsAuth);
    ReceiveMoves(cfg, t, id, OvtTcpReceive);
    hide Moves, StartReceive, SendThen;
    MovesOn(s, t, StartReceive(cfg, t, id, OvtTcpReceive), id);
  }

  lemma EraseMoves(s: State, id: Id)
    ensures Moves(s, Erase(s, id), id)
  {
  }

  lemma CellsMove(s: State, m: Cells, id: Id)
    requires OpsApart(s.cells, m, id)
    ensures Moves(s, s.(cells := m), id)
  {
    hide OpsApart;
  }

  lemma HandMoves(m: Cells, hand: Option<Hand>, id: Id)
    ensures OpsApart(m, m.(hand := hand), id)
  {
  }

  lemma DropMoves(s: State, t: State, id: Id)
    requires Moves(s, t, id) && t.cells.hand.Some?
    ensures Moves(s, Drop(t), id)
  {
  }

  lemma ConnectedHand(cfg: Config, s: State, id: Id)
    requires id in s.conns
    ensures Connected(cfg, s, id).cells.hand == s.cells.hand
  {
  }

  /** A handler's work moves nothing but the connection its operation belongs to. */
  lemma BodyMoves(cfg: Config, s: State)
    requires HandReady(s.cells)
    requires var d := s.cells.ops[s.cells.hand.value.op];
             d.id in s.conns ==> d.id in s.logs && (d.kind.OvtConnect? ==> s.conns[d.id].state == PsNone)
    ensures Moves(s, Body(cfg, s), s.cells.ops[s.cells.hand.value.op].id)
  {
    var h := s.cells.hand.value;
    var d := s.cells.ops[h.op];
    var m := s.cells.(hand := Some(h.(body := false)));
    var t := s.(cells := m);
    HandMoves(s.cells, m.hand, d.id);
    CellsMove(s, m, d.id);
    match d.kind
    case OvtTcpReceive =>
      if h.n > 0 && d.id in s.conns {
        TcpReplyMoves(cfg, t, d.id, h.n, d.buffer);
        hide Moves, TcpReply;
        MovesOn(s, t, TcpReply(cfg, t, d.id, h.n, d.buffer), d.id);
      }
    case OvtConnect =>
      if h.failed {
        EraseMoves(t, d.id);
        hide Moves;
        MovesOn(s, t, Erase(t, d.id), d.id);
      } else if d.id in s.conns {
        ConnectedMoves(cfg, t, d.id);
        ConnectedHand(cfg, t, d.id);
        hide Moves, Connected;
        MovesOn(s, t, Connected(cfg, t, d.id), d.id);
        DropMoves(s, Connected(cfg, t, d.id), d.id);
      } else {
        hide Moves;
        DropMoves(s, t, d.id);
      }
    case _ =>
      hide OpsApart, Unframe;
  }

  lemma FinishMoves(cfg: Config, s: State)
    requires HandReady(s.cells)
    ensures Moves(s, Finish(cfg, s), s.cells.ops[s.cells.hand.value.op].id)
    ensures Finish(cfg, s).conns == s.conns && Finish(cfg, s).logs == s.logs && Finish(cfg, s).delivered == s.delivered
  {
  }

  lemma TakeMoves(s: State, op: Op, data: seq<byte>, failed: bool)
    requires CanTake(s.cells, op, data, failed)
    ensures Moves(s, s.(cells := Take(s.cells, op, data, failed)), s.cells.ops[op].id)
  {
    hide Filled;
  }

  // The state in which the log has the datagram, when udpSend takes it.
  function Logged(s: State, id: Id, d: Datagram): State {
    if Taken(s, id, d) then SetLog(s, id, LogOf(s, id).(submitted := LogOf(s, id).submitted + [d])) else s
  }

  lemma SubmitMoves(cfg: Config, s: State, id: Id, d: Datagram)
    requires id in s.conns ==> id in s.logs
    ensures Moves(Logged(s, id, d), Submit(cfg, s, id, d).0, id)
    ensures id in s.conns ==> id in Submit(cfg, s, id, d).0.conns
  {
    var u := Logged(s, id, d);
    StaysMoves(u, id);
    if Taken(s, id, d) {
      if s.conns[id].state == PsConnected {
        SendFrameMoves(cfg, u, id, d);
        hide Moves, SendFrame;
      } else {
        var c := u.conns[id].(queue := u.conns[id].queue + [d]);
        RestMoves(u, u, SetConn(u, id, c), id);
      }
    }
  }

  /** What one udpSend adds to the log: nothing, a datagram that joins the queue, or a datagram and its WSASendTo. */
  lemma SubmitEffect(cfg: Config, s: State, id: Id, d: Datagram)
    requires id in s.conns ==> id in s.logs
    ensures var (t, ok) := Submit(cfg, s, id, d);
            var l := LogOf(s, id);
            if !Taken(s, id, d) then t == s && ok == (id in s.conns)
            else if s.conns[id].state != PsConnected then
              var c := s.conns[id];
              ok && t == SetConn(SetLog(s, id, l.(submitted := l.submitted + [d])), id, c.(queue := c.queue + [d]))
            else
              LogOf(t, id) == l.(submitted := l.submitted + [d],
                                 udp := l.udp + [Sent(Frame(d), s.conns[id].relay, ok)])
  {
    hide Start, Frame;
  }

  /** udpSend returns true and has done nothing at all exactly for an empty datagram that would have to wait. */
  lemma EmptyDropped(cfg: Config, s: State, id: Id, d: Datagram)
    requires id in s.conns ==> id in s.logs
    ensures var (t, ok) := Submit(cfg, s, id, d);
            ok && t == s <==> id in s.conns && s.conns[id].state != PsConnected && d.payload == []
  {
    SubmitEffect(cfg, s, id, d);
    var t := Submit(cfg, s, id, d).0;
    hide Submit;
    assert Taken(s, id, d) ==> |LogOf(t, id).submitted| == |LogOf(s, id).submitted| + 1;
  }

  lemma RegisterMoves(cfg: Config, s: State, id: Id)
    ensures Moves(s, Register(cfg, s, id).0, id)
  {
    StartMoves(s.cells, OvData(id, OvtConnect, []), if cfg.net(s.calls + 2).Accepted? then Accepted else Lost);
    StaysMoves(s, id);
    hide Start, OpsApart;
  }

  /** A new connection leaves the others alone. */
  lemma InsertApart(cfg: Config, s: State, id: Id)
    ensures var t := Insert(cfg, s, id);
            Apart(s.conns, t.conns, id) && Apart(s.logs, t.logs, id) && t.cells == s.cells && t.delivered == s.delivered
  {
  }

  // ---------------------------------------------------------------- cells in use stay

  // Starting further operations leaves the allocated cells as they are.
  ghost predicate Extends(m: Cells, m': Cells) {
    && m.next <= m'.next
    && m'.hand == m.hand
    && forall o | o in m.ops && o < m.next :: o in m'.ops && m'.ops[o] == m.ops[o]
  }

  lemma StartExtends(m: Cells, d: OvData, outcome: Outcome)
    ensures Extends(m, Start(m, d, outcome))
  {
  }

  lemma SendThenExtends(cfg: Config, s: State, id: Id, msg: seq<byte>, state: ProxyState)
    requires id in s.conns
    ensures Extends(s.cells, SendThen(cfg, s, id, msg, state).cells)
  {
    var d := if cfg.net(s.calls).Accepted? then OvData(id, OvtTcpSend, msg) else OvData(id, OvtTcpReceive, []);
    StartExtends(s.cells, d, cfg.net(s.calls));
    hide Start, Extends;
  }

  lemma SendFrameExtends(cfg: Config, s: State, id: Id, d: Datagram)
    requires id in s.conns
    ensures Extends(s.cells, SendFrame(cfg, s, id, d).0.cells)
  {
    hide Start, Frame, Extends, EmptyPacket, SendFrame;
    var m := NewSend(s.cells, id, OvtUdpSend, Frame(d), cfg.net(s.calls));
    var r := NewReceive(m, id, OvtUdpReceive, cfg.net(s.calls + 1));
    SendCells(cfg, s, id, d);
    var sent := cfg.net(s.calls);
    var e := if sent.Accepted? then OvData(id, OvtUdpSend, Frame(d)) else OvData(id, OvtUdpReceive, []);
    StartExtends(s.cells, e, sent);
    StartExtends(m, OvData(id, OvtUdpReceive, EmptyPacket()), cfg.net(s.calls + 1));
    ExtendsOn(s.cells, m, r);
  }

  lemma SendCells(cfg: Config, s: State, id: Id, d: Datagram)
    requires id in s.conns
    ensures var m := NewSend(s.cells, id, OvtUdpSend, Frame(d), cfg.net(s.calls));
            SendFrame(cfg, s, id, d).0.cells ==
            if cfg.net(s.calls).Accepted? && !s.conns[id].recvStarted then
              NewReceive(m, id, OvtUdpReceive, cfg.net(s.calls + 1))
            else m
  {
    hide NewSend, NewReceive, Frame;
  }

  lemma ExtendsOn(m: Cells, m': Cells, m'': Cells)
    requires Extends(m, m') && Extends(m', m'')
    ensures Extends(m, m'')
  {
  }

  lemma {:induction false} FlushExtends(cfg: Config, s: State, id: Id)
    ensures Extends(s.cells, Flush(cfg, s, id).cells)
    decreases if id in s.conns then |s.conns[id].queue| else 0
  {
    if id in s.conns && s.conns[id].state == PsConnected && s.conns[id].queue != [] {
      var q := s.conns[id].queue;
      SendFrameExtends(cfg, s, id, q[0]);
      var t := ProxyModel.UdpSend(cfg, s, id, q[0]).0;
      assert t.conns[id].queue == q;
      hide SendFrame;
      FlushExtends(cfg, SetConn(t, id, t.conns[id].(queue := q[1..])), id);
    }
  }

  lemma TcpReplyExtends(cfg: Config, s: State, id: Id, n: nat, buffer: Packet)
    requires id in s.conns
    ensures Extends(s.cells, TcpReply(cfg, s, id, n, buffer).cells)
  {
    var c := s.conns[id];
    hide SendThen, Flush, ReplyRelay, UserPass;
    match c.state
    case PsAuth =>
      SendThenExtends(cfg, s, id, UserPass(c.user, c.pass), PsAuthNegotiation);
      SendThenExtends(cfg, s, id, Associate, PsUdpAssoc);
    case PsAuthNegotiation => SendThenExtends(cfg, s, id, Associate, PsUdpAssoc);
    case PsUdpAssoc =>
      if ReplyRelay(cfg.proxy, buffer).Some? {
        FlushExtends(cfg, SetConn(s, id, c.(relay := ReplyRelay(cfg.proxy, buffer), state := PsConnected)), id);
      }
    case _ =>
  }
}
