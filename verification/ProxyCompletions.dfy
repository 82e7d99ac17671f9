/**
 * What one completion does, in the bytes that arrived: which replies move a connection on and what is then said to the
 * proxy server, what is handed on, and when the operation is there afterwards to read again. The whole handshake is put
 * together from these at the end.
 */
module ProxyCompletions {
  import opened Bytes
  import opened Socks
  import opened Operations
  import opened ProxyModel
  import opened ProxyInvariant
  import opened ProxySteps
  import opened ProxyHistory

  // The worker has taken a completion and run its handler to the end.
  ghost function After(cfg: Config, s: State, op: Op, data: seq<byte>, failed: bool): (t: State)
    requires Inv(cfg, s) && CanTake(s.cells, op, data, failed)
    ensures Inv(cfg, t) && t.cells.hand.None?
  {
    TakeStepOk(cfg, s, op, data, failed);
    var u := s.(cells := Take(s.cells, op, data, failed));
    HandleOk(cfg, u);
    Handle(cfg, u)
  }

  // What the buffer of a receive holds once data has arrived.
  function Arrived(d: OvData, data: seq<byte>): seq<byte>
    requires |data| <= |d.buffer|
  {
    data + d.buffer[|data|..]
  }

  // ---------------------------------------------------------------- taking

  /** The completion is in hand, gone from where it was, and a receive's data is at the front of its buffer; nothing
      else has changed. */
  lemma TakeEffect(m: Cells, op: Op, data: seq<byte>, failed: bool)
    requires CanTake(m, op, data, failed)
    ensures var t := Take(m, op, data, failed); var d := m.ops[op];
            && t.hand == Some(Hand(op, |data|, failed, true))
            && t.ops == m.ops[op := d.(buffer := if d.kind.OvtTcpReceive? || d.kind.OvtUdpReceive? then Arrived(d, data)
                                                 else d.buffer)]
            && t.armed + t.posted == m.armed + m.posted - multiset{op}
            && t.next == m.next && t.freed == m.freed
  {
  }

  // ---------------------------------------------------------------- starting

  // How many completions this operation has with the kernel, and how many posted by the program.
  predicate Awaits(m: Cells, op: Op, armed: nat, posted: nat) {
    m.armed[op] == armed && m.posted[op] == posted
  }

  // The operation holds d and awaits one completion, of the kernel's or a posted one; or it is gone.
  predicate Pending(m: Cells, op: Op, d: OvData, outcome: Outcome) {
    match outcome
    case Accepted => op in m.ops && m.ops[op] == d && Awaits(m, op, 1, 0)
    case Posted => op in m.ops && m.ops[op] == d && Awaits(m, op, 0, 1)
    case Lost => op !in m.ops && Awaits(m, op, 0, 0)
  }

  lemma StartPending(m: Cells, d: OvData, outcome: Outcome)
    requires Owned(m)
    ensures Pending(Start(m, d, outcome), m.next, d, outcome)
  {
    NewAddress(m);
  }

  // What a cell of a send is to hold: the bytes while the kernel has it, and otherwise an empty receive on the socket.
  function SentCell(id: Id, tcp: bool, bytes: seq<byte>, accepted: bool): OvData {
    if accepted then OvData(id, if tcp then OvtTcpSend else OvtUdpSend, bytes)
    else OvData(id, if tcp then OvtTcpReceive else OvtUdpReceive, [])
  }

  lemma SendGiven(m: Cells, id: Id, tcp: bool, bytes: seq<byte>, outcome: Outcome)
    requires CellsOk(m)
    ensures var t := NewSend(m, id, if tcp then OvtTcpSend else OvtUdpSend, bytes, outcome);
            && Owned(t) && t.next == m.next + 1 && t.hand == m.hand
            && Pending(t, m.next, SentCell(id, tcp, bytes, outcome.Accepted?), outcome)
  {
    StartPending(m, SentCell(id, tcp, bytes, outcome.Accepted?), outcome);
    StartNext(m, SentCell(id, tcp, bytes, outcome.Accepted?), outcome);
    NewSendOk(m, id, if tcp then OvtTcpSend else OvtUdpSend, bytes, outcome);
    hide Owned, Buffered, Exclusive, Start, Pending;
  }

  /** The bytes logged as said to the proxy server are those the kernel is given to send. */
  lemma MessageGiven(cfg: Config, s: State, id: Id, msg: seq<byte>, state: ProxyState)
    requires CellsOk(s.cells) && id in s.conns && id in s.logs
    ensures var t := SendThen(cfg, s, id, msg, state); var outcome := cfg.net(s.calls);
            && (outcome.Accepted? ==> t.logs == s.logs[id := s.logs[id].(tcp := s.logs[id].tcp + [msg])])
            && Pending(t.cells, s.cells.next, SentCell(id, true, msg, outcome.Accepted?), outcome)
            && t.calls == s.calls + 1 && t.delivered == s.delivered
            && Owned(t.cells) && t.cells.next == s.cells.next + 1 && t.cells.hand == s.cells.hand
  {
    SendThenIs(cfg, s, id, msg, state);
    SendGiven(s.cells, id, true, msg, cfg.net(s.calls));
    hide CellsOk, SendThen, NewSend, Pending, Owned;
  }

  /** So are those logged as sent to the relay. The first frame that is accepted starts a read of the UDP socket. */
  lemma FrameGiven(cfg: Config, s: State, id: Id, d: Datagram)
    requires CellsOk(s.cells) && id in s.conns && id in s.logs
    ensures var (t, ok) := SendFrame(cfg, s, id, d); var outcome := cfg.net(s.calls);
            && ok == outcome.Accepted? && t.calls == s.calls + (if ok && !s.conns[id].recvStarted then 2 else 1)
            && t.logs == s.logs[id := s.logs[id].(udp := s.logs[id].udp + [Sent(Frame(d), s.conns[id].relay, ok)])]
            && Pending(t.cells, s.cells.next, SentCell(id, false, Frame(d), ok), outcome)
            && if ok && !s.conns[id].recvStarted then
                 && t.conns == s.conns[id := s.conns[id].(recvStarted := true)]
                 && Pending(t.cells, s.cells.next + 1, OvData(id, OvtUdpReceive, EmptyPacket()), cfg.net(s.calls + 1))
               else t.conns == s.conns && t.cells.next == s.cells.next + 1
  {
    SendFrameIs(cfg, s, id, d);
    SendGiven(s.cells, id, false, Frame(d), cfg.net(s.calls));
    var ok := cfg.net(s.calls).Accepted?;
    var m := NewSend(s.cells, id, OvtUdpSend, Frame(d), cfg.net(s.calls));
    hide CellsOk, NewSend, NewReceive, SendFrame, Frame, Pending, Owned, EmptyPacket;
    if ok && !s.conns[id].recvStarted {
      ReadGiven(m, id, OvtUdpReceive, cfg.net(s.calls + 1));
      OtherPending(m, OvData(id, OvtUdpReceive, EmptyPacket()), cfg.net(s.calls + 1), s.cells.next,
                   SentCell(id, false, Frame(d), ok), cfg.net(s.calls));
    }
  }

  lemma StartNext(m: Cells, d: OvData, outcome: Outcome)
    ensures Start(m, d, outcome).next == m.next + 1 && Start(m, d, outcome).hand == m.hand
  {
  }

  lemma ReadGiven(m: Cells, id: Id, kind: Kind, outcome: Outcome)
    requires Owned(m)
    ensures var t := NewReceive(m, id, kind, outcome);
            Pending(t, m.next, OvData(id, kind, EmptyPacket()), outcome) && t.hand == m.hand
  {
    StartPending(m, OvData(id, kind, EmptyPacket()), outcome);
    StartNext(m, OvData(id, kind, EmptyPacket()), outcome);
    hide Owned, Start, Pending;
  }

  // Starting an operation leaves the earlier ones pending.
  lemma OtherPending(m: Cells, e: OvData, next: Outcome, op: Op, d: OvData, outcome: Outcome)
    requires op < m.next && Pending(m, op, d, outcome)
    ensures Pending(Start(m, e, next), op, d, outcome)
  {
  }

  // ---------------------------------------------------------------- the proxy server's replies

  /** The replies a connection waits for: the method chosen (section 3 of RFC 1928), the password accepted (section 2 of
      RFC 1929), an address for the relay (section 6 of RFC 1928) of one of the two numeric types. */
  predicate Answers(state: ProxyState, reply: seq<byte>) {
    match state
    case PsAuth => |reply| >= 2 && reply[0] == 5
    case PsAuthNegotiation => |reply| >= 2 && reply[0] == 1 && reply[1] == 0
    case PsUdpAssoc => |reply| >= 5 && reply[0] == 5 && reply[1] == 0 && (reply[3] == 1 || reply[3] == 4)
    case _ => false
  }

  // What is then said, and the state that goes with it: the password exchange if the server chose it and there is a
  // user name, the request otherwise.
  function Next(cfg: Config, state: ProxyState, reply: seq<byte>): (seq<byte>, ProxyState)
    requires Answers(state, reply)
  {
    if state == PsAuth && reply[1] == 2 && cfg.user != [] then (UserPass(cfg.user, cfg.pass), PsAuthNegotiation)
    else (Associate, PsUdpAssoc)
  }

  // The relay of a reply in a receive buffer: at the proxy's address, and the port where the reply has it.
  function Relay(proxy: RawAddress, buffer: seq<byte>): SockAddr
    requires |buffer| == PACKET_SIZE
  {
    if buffer[3] == 1 then V4(proxy[4..8], buffer[8..10]) else V6(proxy[8..24], buffer[20..22])
  }

  // The message went out on this connection, and its state went with it.
  predicate Said(s: State, t: State, id: Id, msg: seq<byte>, state: ProxyState) {
    && id in s.conns && id in s.logs
    && t.conns == s.conns[id := s.conns[id].(state := state)]
    && t.logs == s.logs[id := s.logs[id].(tcp := s.logs[id].tcp + [msg])]
  }

  // This connection has its relay, and everything that waited has been given to it.
  ghost predicate Learnt(s: State, t: State, id: Id, relay: SockAddr) {
    && id in s.conns && id in s.logs && id in t.conns && id in t.logs
    && t.conns[id] == s.conns[id].(state := PsConnected, relay := Some(relay), queue := [],
                                   recvStarted := t.conns[id].recvStarted)
    && t.logs[id] == s.logs[id].(udp := t.logs[id].udp) && |t.logs[id].udp| == |t.logs[id].submitted|
    && Apart(s.conns, t.conns, id) && Apart(s.logs, t.logs, id)
  }

  // What a reply does.
  ghost predicate Replied(cfg: Config, s: State, t: State, id: Id, reply: seq<byte>, buffer: seq<byte>)
    requires id in s.conns && (reply != [] ==> |buffer| == PACKET_SIZE)
  {
    var state := s.conns[id].state;
    if !Answers(state, reply) then t.conns == s.conns && t.logs == s.logs
    else if state == PsUdpAssoc then Learnt(s, t, id, Relay(cfg.proxy, buffer))
    else if cfg.net(s.calls).Accepted? then Said(s, t, id, Next(cfg, state, reply).0, Next(cfg, state, reply).1)
    else t.conns == s.conns && t.logs == s.logs
  }

  lemma ReplyIs(cfg: Config, s: State, id: Id, n: nat, buffer: Packet)
    requires Inv(cfg, s) && id in s.conns && n <= PACKET_SIZE
    ensures Replied(cfg, s, TcpReply(cfg, s, id, n, buffer), id, buffer[..n], buffer)
  {
    UserHere(cfg, s, id);
    hide Inv, SendThen, Flush, UserPass, Learnt, Said;
    match s.conns[id].state
    case PsAuth =>
      SayIs(cfg, s, id, UserPass(cfg.user, cfg.pass), PsAuthNegotiation);
      SayIs(cfg, s, id, Associate, PsUdpAssoc);
    case PsAuthNegotiation => SayIs(cfg, s, id, Associate, PsUdpAssoc);
    case PsUdpAssoc =>
      if Answers(PsUdpAssoc, buffer[..n]) {
        RelayLearnt(cfg, s, id, Relay(cfg.proxy, buffer));
      }
    case _ =>
  }

  lemma SayIs(cfg: Config, s: State, id: Id, msg: seq<byte>, state: ProxyState)
    requires id in s.conns && id in s.logs
    ensures var t := SendThen(cfg, s, id, msg, state);
            if cfg.net(s.calls).Accepted? then Said(s, t, id, msg, state) else t.conns == s.conns && t.logs == s.logs
  {
    SendThenIs(cfg, s, id, msg, state);
  }

  lemma UserHere(cfg: Config, s: State, id: Id)
    requires Inv(cfg, s) && id in s.conns
    ensures id in s.logs && s.conns[id].user == cfg.user && s.conns[id].pass == cfg.pass
  {
    hide CellsOk, Ties, LogOk;
    assert ConnOk(cfg, s.conns[id], s.logs[id]);
  }

  lemma RelayLearnt(cfg: Config, s: State, id: Id, relay: SockAddr)
    requires Inv(cfg, s) && id in s.conns && s.conns[id].state == PsUdpAssoc
    ensures var u := SetConn(s, id, s.conns[id].(relay := Some(relay), state := PsConnected));
            Learnt(s, Flush(cfg, u, id), id, relay)
  {
    var c := s.conns[id].(relay := Some(relay), state := PsConnected);
    var u := SetConn(s, id, c);
    UserHere(cfg, s, id);
    RelayKnown(cfg, s, id, relay);
    FlushMoves(cfg, u, id);
    FlushTcp(cfg, u, id);
    hide Inv, Flush, Moves, Learnt;
    LearntFrom(s, u, Flush(cfg, u, id), id, relay);
  }

  lemma LearntFrom(s: State, u: State, t: State, id: Id, relay: SockAddr)
    requires Moves(u, t, id) && id in s.conns && id in s.logs && id in t.conns && id in t.logs
    requires u == SetConn(s, id, s.conns[id].(relay := Some(relay), state := PsConnected))
    requires t.conns[id] == u.conns[id].(queue := [], recvStarted := t.conns[id].recvStarted)
    requires |t.logs[id].udp| == |t.logs[id].submitted| && t.logs[id].tcp == u.logs[id].tcp
    ensures Learnt(s, t, id, relay)
  {
    hide OpsApart, ConnGrows;
  }

  // Flushing says nothing to the proxy server.
  lemma {:induction false} FlushTcp(cfg: Config, s: State, id: Id)
    requires id in s.conns && id in s.logs
    ensures var t := Flush(cfg, s, id); id in t.logs && t.logs[id].tcp == s.logs[id].tcp
    decreases |s.conns[id].queue|
  {
    var q := s.conns[id].queue;
    if s.conns[id].state == PsConnected && q != [] {
      SendFrameIs(cfg, s, id, q[0]);
      var t := UdpSend(cfg, s, id, q[0]).0;
      hide SendFrame;
      assert t.conns[id].queue == q;
      FlushTcp(cfg, SetConn(t, id, t.conns[id].(queue := q[1..])), id);
    }
  }

  // The handler of a taken completion, which is in hand.
  lemma TakenHand(cfg: Config, s: State, op: Op, data: seq<byte>, failed: bool)
    requires Inv(cfg, s) && CanTake(s.cells, op, data, failed)
    ensures var u := s.(cells := Take(s.cells, op, data, failed));
            && Inv(cfg, u) && HandReady(u.cells) && After(cfg, s, op, data, failed) == Handle(cfg, u)
            && u.cells.hand == Some(Hand(op, |data|, failed, true))
            && u.cells.ops[op].id == s.cells.ops[op].id && u.cells.ops[op].kind == s.cells.ops[op].kind
    ensures IsReceive(s.cells.ops[op].kind) ==>
              var b := Take(s.cells, op, data, failed).ops[op].buffer;
              b == Arrived(s.cells.ops[op], data) && (data != [] ==> |b| == PACKET_SIZE)
  {
    TakeEffect(s.cells, op, data, failed);
    TakeStepOk(cfg, s, op, data, failed);
    hide InvDuring, Handle, Take, CanTake;
  }

  // Arming the operation again or deleting it changes nothing else.
  lemma HandleMoves(cfg: Config, s: State)
    requires HandReady(s.cells)
    ensures var t, b := Handle(cfg, s), Body(cfg, s);
            t.conns == b.conns && t.logs == b.logs && t.delivered == b.delivered
  {
    hide Body, Release;
  }

  /** Exactly the replies of `Answers` move a connection on, and then only if the message they ask for is accepted by
      the socket. Every other reply, a refused password or request among them, leaves all connections and logs alone. */
  lemma ReplyDecides(cfg: Config, s: State, op: Op, data: seq<byte>, failed: bool)
    requires Inv(cfg, s) && CanTake(s.cells, op, data, failed)
    requires s.cells.ops[op].kind.OvtTcpReceive? && s.cells.ops[op].id in s.conns
    ensures data != [] ==> |Arrived(s.cells.ops[op], data)| == PACKET_SIZE
    ensures var t := After(cfg, s, op, data, failed); var id := s.cells.ops[op].id;
            && Replied(cfg, s, t, id, data, Arrived(s.cells.ops[op], data))
            && (id in t.conns && t.conns[id].state != s.conns[id].state <==>
                  Answers(s.conns[id].state, data) && (s.conns[id].state == PsUdpAssoc || cfg.net(s.calls).Accepted?))
            && t.delivered == s.delivered
  {
    TakenHand(cfg, s, op, data, failed);
    var u := s.(cells := Take(s.cells, op, data, failed));
    HandleMoves(cfg, u);
    hide After, Handle, InvDuring, Take, CanTake;
    BodyReplies(cfg, u);
    var b := u.cells.ops[op].buffer;
    assert b[..|data|] == data;
    hide Answers;
  }

  lemma BodyReplies(cfg: Config, s: State)
    requires Inv(cfg, s) && HandReady(s.cells)
    requires var d := s.cells.ops[s.cells.hand.value.op]; d.kind.OvtTcpReceive? && d.id in s.conns
    requires s.cells.hand.value.n <= |s.cells.ops[s.cells.hand.value.op].buffer|
    ensures var h := s.cells.hand.value; var d := s.cells.ops[h.op]; var t := Body(cfg, s);
            && Replied(cfg, s, t, d.id, d.buffer[..h.n], d.buffer)
            && t.delivered == s.delivered
  {
    var h := s.cells.hand.value;
    var d := s.cells.ops[h.op];
    var t := s.(cells := HandDone(s.cells));
    HandDoneOk(s.cells);
    assert Inv(cfg, t);
    hide InvDuring, TcpReply, HandDone, Learnt, Said, Answers;
    if h.n > 0 {
      ReplyIs(cfg, t, d.id, h.n, d.buffer);
      TcpReplyOk(cfg, t, d.id, h.n, d.buffer);
      assert Replied(cfg, t, Body(cfg, s), d.id, d.buffer[..h.n], d.buffer);
      SameBut(cfg, s, t, Body(cfg, s), d.id, d.buffer[..h.n], d.buffer);
    } else {
      NoAnswer(s.conns[d.id].state);
    }
  }

  lemma NoAnswer(state: ProxyState)
    ensures !Answers(state, [])
  {
  }

  lemma SameBut(cfg: Config, s: State, s': State, t: State, id: Id, reply: seq<byte>, buffer: seq<byte>)
    requires s' == s.(cells := s'.cells) && id in s.conns && (reply != [] ==> |buffer| == PACKET_SIZE)
    requires Replied(cfg, s', t, id, reply, buffer)
    ensures Replied(cfg, s, t, id, reply, buffer)
  {
    hide Answers;
  }

  // ---------------------------------------------------------------- reading again

  // The operation is gone, or holds d and awaits its next completion; arming it was the last call made.
  predicate ReadsAgain(cfg: Config, s: State, t: State, op: Op, d: OvData, n: nat) {
    var m := t.cells;
    if n == 0 then op !in m.ops && Awaits(m, op, 0, 0)
    else t.calls > s.calls && Pending(m, op, d, cfg.net(t.calls - 1))
  }

  /** A receive that brought data is there again afterwards: the same operation on the same socket, its buffer of full
      size with the data at the front, and its next completion with the kernel, or posted when the socket would not
      take it. It is gone only when nothing arrived, or when neither was possible. */
  lemma RearmedExactly(cfg: Config, s: State, op: Op, data: seq<byte>, failed: bool)
    requires Inv(cfg, s) && CanTake(s.cells, op, data, failed)
    requires s.cells.ops[op].kind.OvtTcpReceive? || s.cells.ops[op].kind.OvtUdpReceive?
    ensures var d := s.cells.ops[op];
            && (data != [] ==> |d.buffer| == 65536)
            && ReadsAgain(cfg, s, After(cfg, s, op, data, failed), op, d.(buffer := Arrived(d, data)), |data|)
  {
    TakenHand(cfg, s, op, data, failed);
    hide After, InvDuring, Handle, CanTake, ReadsAgain;
    HandleReleases(cfg, s.(cells := Take(s.cells, op, data, failed)));
    TakenAgain(cfg, s, After(cfg, s, op, data, failed), op, data, failed);
    hide Take, HandReady;
  }

  lemma TakenAgain(cfg: Config, s: State, t: State, op: Op, data: seq<byte>, failed: bool)
    requires CanTake(s.cells, op, data, failed) && IsReceive(s.cells.ops[op].kind)
    requires var u := s.(cells := Take(s.cells, op, data, failed)); ReadsAgain(cfg, u, t, op, u.cells.ops[op], |data|)
    ensures var d := s.cells.ops[op]; ReadsAgain(cfg, s, t, op, d.(buffer := Arrived(d, data)), |data|)
  {
    TakeEffect(s.cells, op, data, failed);
    hide Take, CanTake, Awaits;
  }

  lemma HandleReleases(cfg: Config, s: State)
    requires Inv(cfg, s) && HandReady(s.cells) && IsReceive(s.cells.ops[s.cells.hand.value.op].kind)
    ensures var h := s.cells.hand.value; ReadsAgain(cfg, s, Handle(cfg, s), h.op, s.cells.ops[h.op], h.n)
  {
    BodyHand(cfg, s);
    BodyKeepsHeld(cfg, s);
    BodyOk(cfg, s);
    CallsGrow(cfg, s);
    var h := s.cells.hand.value;
    var b := Body(cfg, s);
    hide InvDuring, Body, Finish, HandReady, ReadsAgain;
    ReleaseHeld(cfg, b);
    CalledSince(cfg, s, b, Finish(cfg, b), h.op, s.cells.ops[h.op], h.n);
  }

  lemma CalledSince(cfg: Config, s: State, s': State, t: State, op: Op, d: OvData, n: nat)
    requires ReadsAgain(cfg, s', t, op, d, n) && s'.calls >= s.calls
    ensures ReadsAgain(cfg, s, t, op, d, n)
  {
    hide Awaits;
  }

  lemma CallsGrow(cfg: Config, s: State)
    requires HandReady(s.cells)
    ensures Body(cfg, s).calls >= s.calls
  {
    var h := s.cells.hand.value;
    var d := s.cells.ops[h.op];
    hide Unframe, TcpReply;
    if d.kind.OvtTcpReceive? && h.n > 0 && d.id in s.conns {
      ReplyCalls(cfg, s.(cells := HandDone(s.cells)), d.id, h.n, d.buffer);
    }
  }

  lemma ReplyCalls(cfg: Config, s: State, id: Id, n: nat, buffer: Packet)
    requires id in s.conns
    ensures TcpReply(cfg, s, id, n, buffer).calls >= s.calls
  {
    var c := s.conns[id];
    hide Flush, ReplyRelay, NewSend, UserPass;
    if c.state == PsUdpAssoc {
      FlushCalls(cfg, SetConn(s, id, c.(relay := ReplyRelay(cfg.proxy, buffer), state := PsConnected)), id);
    }
  }

  lemma {:induction false} FlushCalls(cfg: Config, s: State, id: Id)
    ensures Flush(cfg, s, id).calls >= s.calls
    decreases if id in s.conns then |s.conns[id].queue| else 0
  {
    if id in s.conns && s.conns[id].state == PsConnected && s.conns[id].queue != [] {
      var q := s.conns[id].queue;
      var t := UdpSend(cfg, s, id, q[0]).0;
      assert t.conns[id].queue == q;
      FlushCalls(cfg, SetConn(t, id, t.conns[id].(queue := q[1..])), id);
    }
  }

  // The operation of a receive is as it was when its handler has done its work.
  lemma BodyKeepsHeld(cfg: Config, s: State)
    requires Inv(cfg, s) && HandReady(s.cells) && IsReceive(s.cells.ops[s.cells.hand.value.op].kind)
    ensures var op := s.cells.hand.value.op; var t := Body(cfg, s);
            op in t.cells.ops && t.cells.ops[op] == s.cells.ops[op]
  {
    HandReal(s.cells);
    BodyExtends(cfg, s);
    hide InvDuring, Body;
  }

  lemma BodyExtends(cfg: Config, s: State)
    requires HandReady(s.cells) && IsReceive(s.cells.ops[s.cells.hand.value.op].kind)
    ensures Extends(HandDone(s.cells), Body(cfg, s).cells)
  {
    var h := s.cells.hand.value;
    var d := s.cells.ops[h.op];
    hide TcpReply, Unframe, Extends;
    Unextended(HandDone(s.cells));
    if d.kind.OvtTcpReceive? && h.n > 0 && d.id in s.conns {
      TcpReplyExtends(cfg, s.(cells := HandDone(s.cells)), d.id, h.n, d.buffer);
    }
  }

  lemma Unextended(m: Cells)
    ensures Extends(m, m)
  {
  }

  lemma HandReal(m: Cells)
    requires Owned(m) && m.hand.Some?
    ensures m.hand.value.op < m.next
  {
    HeldOnce(m);
  }

  // Arming again or deleting, on an operation that has no other completion.
  lemma ReleaseHeld(cfg: Config, s: State)
    requires Inv(cfg, s) && HandReady(s.cells) && IsReceive(s.cells.ops[s.cells.hand.value.op].kind)
    ensures var h := s.cells.hand.value; ReadsAgain(cfg, s, Finish(cfg, s), h.op, s.cells.ops[h.op], h.n)
  {
    HeldOnce(s.cells);
    hide InvDuring;
  }

  // ---------------------------------------------------------------- sends, datagrams and connects

  /** The completion of a send deletes its operation and does nothing else. */
  lemma SendDone(cfg: Config, s: State, op: Op, data: seq<byte>, failed: bool)
    requires Inv(cfg, s) && CanTake(s.cells, op, data, failed)
    requires s.cells.ops[op].kind.OvtTcpSend? || s.cells.ops[op].kind.OvtUdpSend?
    ensures var t := After(cfg, s, op, data, failed); var m := t.cells;
            && t == s.(cells := m)
            && m.ops == s.cells.ops - {op} && m.freed == s.cells.freed + multiset{op} && m.next == s.cells.next
            && m.armed + m.posted == s.cells.armed + s.cells.posted - multiset{op}
  {
    TakenHand(cfg, s, op, data, failed);
    TakeEffect(s.cells, op, data, failed);
    hide InvDuring, Take, After, Handle, CanTake;
    var u := s.(cells := Take(s.cells, op, data, failed));
    SendHandled(cfg, u);
    assert u.cells.ops - {op} == s.cells.ops - {op};
  }

  lemma SendHandled(cfg: Config, s: State)
    requires HandReady(s.cells) && !IsReceive(s.cells.ops[s.cells.hand.value.op].kind)
    requires !s.cells.ops[s.cells.hand.value.op].kind.OvtConnect?
    ensures var t := Handle(cfg, s); var op := s.cells.hand.value.op;
            && t == s.(cells := t.cells) && t.cells.armed == s.cells.armed && t.cells.posted == s.cells.posted
            && t.cells.next == s.cells.next && t.cells.hand.None?
            && t.cells.ops == s.cells.ops - {op} && t.cells.freed == s.cells.freed + multiset{op}
  {
  }

  // What is handed on of a received datagram: section 7 of RFC 1928, its header skipped.
  function HandedOver(id: Id, buffer: seq<byte>, n: nat): seq<Delivered>
    requires n <= |buffer|
  {
    if n < 5 || |buffer| < 22 then []
    else if buffer[3] == 1 then
      [Delivered(id, Delivery(V4(buffer[4..8], buffer[8..10]), if n < 10 then [] else buffer[10..n], n - 10))]
    else if buffer[3] == 4 then
      [Delivered(id, Delivery(V6(buffer[4..20], buffer[20..22]), if n < 22 then [] else buffer[22..n], n - 22))]
    else []
  }

  lemma UnframeIs(id: Id, buffer: Packet, n: nat)
    requires n <= PACKET_SIZE
    ensures HandedOver(id, buffer, n)
         == match Unframe(buffer, n) case None => [] case Some(x) => [Delivered(id, x)]
  {
  }

  lemma BodyHandsOn(cfg: Config, s: State)
    requires HandReady(s.cells) && s.cells.ops[s.cells.hand.value.op].kind.OvtUdpReceive?
    requires s.cells.hand.value.n <= |s.cells.ops[s.cells.hand.value.op].buffer|
    ensures var h := s.cells.hand.value; var d := s.cells.ops[h.op]; var t := Body(cfg, s);
            && t.delivered == s.delivered + HandedOver(d.id, d.buffer, h.n)
            && t.conns == s.conns && t.logs == s.logs
  {
    var h := s.cells.hand.value;
    var d := s.cells.ops[h.op];
    if h.n > 0 {
      UnframeIs(d.id, d.buffer, h.n);
      hide HandedOver, Unframe;
    }
  }

  /** A datagram from the relay is handed on at once and once, and no connection or log changes. */
  lemma DatagramHandedOn(cfg: Config, s: State, op: Op, data: seq<byte>, failed: bool)
    requires Inv(cfg, s) && CanTake(s.cells, op, data, failed) && s.cells.ops[op].kind.OvtUdpReceive?
    ensures var t := After(cfg, s, op, data, failed); var d := s.cells.ops[op];
            && t.delivered == s.delivered + HandedOver(d.id, Arrived(d, data), |data|)
            && t.conns == s.conns && t.logs == s.logs
  {
    TakenHand(cfg, s, op, data, failed);
    var u := s.(cells := Take(s.cells, op, data, failed));
    HandleMoves(cfg, u);
    BodyHandsOn(cfg, u);
    hide After, Handle, InvDuring, Take, CanTake, Body, HandedOver;
  }

  /** A connect that failed takes its connection out of the map, and only that one. */
  lemma ConnectFailed(cfg: Config, s: State, op: Op, data: seq<byte>)
    requires Inv(cfg, s) && CanTake(s.cells, op, data, true) && s.cells.ops[op].kind.OvtConnect?
    ensures var t := After(cfg, s, op, data, true);
            && t.conns == s.conns - {s.cells.ops[op].id} && t.logs == s.logs && t.delivered == s.delivered
            && t.cells.ops == s.cells.ops - {op} && t.calls == s.calls
  {
    TakenHand(cfg, s, op, data, true);
    TakeEffect(s.cells, op, data, true);
    hide InvDuring, Take;
    var u := s.(cells := Take(s.cells, op, data, true));
    assert u.cells.ops - {op} == s.cells.ops - {op};
  }

  // The greeting is out, and the state went with it, or neither; the TCP stream is being read, a new operation for it
  // started, or that was not possible.
  predicate Greeted(cfg: Config, s: State, t: State, id: Id) {
    && (if cfg.net(s.calls).Accepted? then Said(s, t, id, [5, 1, if cfg.user == [] then 0 else 2], PsAuth)
        else t.conns == s.conns && t.logs == s.logs)
    && Pending(t.cells, s.cells.next + 1, OvData(id, OvtTcpReceive, EmptyPacket()), cfg.net(s.calls + 1))
    && t.calls == s.calls + 2 && t.delivered == s.delivered
  }

  /** A connect that succeeded says the greeting, and the TCP stream is read from then on. */
  lemma ConnectSucceeded(cfg: Config, s: State, op: Op, data: seq<byte>)
    requires Inv(cfg, s) && CanTake(s.cells, op, data, false) && s.cells.ops[op].kind.OvtConnect?
    requires s.cells.ops[op].id in s.conns
    ensures var t := After(cfg, s, op, data, false);
            s.conns[s.cells.ops[op].id].state == PsNone && Greeted(cfg, s, t, s.cells.ops[op].id) && op !in t.cells.ops
  {
    TakenHand(cfg, s, op, data, false);
    TakeEffect(s.cells, op, data, false);
    var u := s.(cells := Take(s.cells, op, data, false));
    hide After, InvDuring, Handle, Take, CanTake, Greeted, HandReady;
    ConnectHandled(cfg, u);
    GreetedSame(cfg, s, u, After(cfg, s, op, data, false), s.cells.ops[op].id);
  }

  lemma GreetedSame(cfg: Config, s: State, s': State, t: State, id: Id)
    requires s' == s.(cells := s'.cells) && s'.cells.next == s.cells.next && Greeted(cfg, s', t, id)
    ensures Greeted(cfg, s, t, id)
  {
    hide Pending, EmptyPacket;
  }

  lemma ConnectHandled(cfg: Config, s: State)
    requires Inv(cfg, s) && HandReady(s.cells) && !s.cells.hand.value.failed
    requires var d := s.cells.ops[s.cells.hand.value.op]; d.kind.OvtConnect? && d.id in s.conns
    ensures var op := s.cells.hand.value.op; var id := s.cells.ops[op].id; var t := Handle(cfg, s);
            s.conns[id].state == PsNone && Greeted(cfg, s, t, id) && op !in t.cells.ops
  {
    var h := s.cells.hand.value;
    var id := s.cells.ops[h.op].id;
    var u := s.(cells := HandDone(s.cells));
    HandDoneOk(s.cells);
    HandReal(s.cells);
    BodyHand(cfg, s);
    UserHere(cfg, s, id);
    assert Tied(s.cells.ops[h.op], s.conns, s.logs);
    hide InvDuring, Connected, Greeted;
    ConnectedIs(cfg, u, id);
    GreetedSame(cfg, s, u, Connected(cfg, u, id), id);
    DropGreeted(cfg, s, Connected(cfg, u, id), id, h.op);
  }

  lemma DropGreeted(cfg: Config, s: State, t: State, id: Id, op: Op)
    requires Greeted(cfg, s, t, id) && t.cells.hand.Some? && t.cells.hand.value.op == op && op < s.cells.next
    ensures Greeted(cfg, s, Drop(t), id) && op !in Drop(t).cells.ops
  {
    DropPending(t.cells, op, s.cells.next + 1, OvData(id, OvtTcpReceive, EmptyPacket()), cfg.net(s.calls + 1));
    hide Pending, EmptyPacket;
  }

  /** When its connection is gone meanwhile, nothing happens but the deletion of the operation. */
  lemma ConnectOrphaned(cfg: Config, s: State, op: Op, data: seq<byte>)
    requires Inv(cfg, s) && CanTake(s.cells, op, data, false) && s.cells.ops[op].kind.OvtConnect?
    requires s.cells.ops[op].id !in s.conns
    ensures var t := After(cfg, s, op, data, false);
            t == s.(cells := t.cells) && t.cells.ops == s.cells.ops - {op}
  {
    TakenHand(cfg, s, op, data, false);
    TakeEffect(s.cells, op, data, false);
    hide InvDuring, Take;
    var u := s.(cells := Take(s.cells, op, data, false));
    assert u.cells.ops - {op} == s.cells.ops - {op};
  }

  lemma ConnectedIs(cfg: Config, s: State, id: Id)
    requires CellsOk(s.cells) && id in s.conns && id in s.logs && s.conns[id].user == cfg.user
    ensures var t := Connected(cfg, s, id); Greeted(cfg, s, t, id) && t.cells.hand == s.cells.hand
  {
    SayIs(cfg, s, id, Greeting(cfg.user), PsAuth);
    MessageGiven(cfg, s, id, Greeting(cfg.user), PsAuth);
    var t := SendThen(cfg, s, id, Greeting(cfg.user), PsAuth);
    hide CellsOk, SendThen, NewReceive, Pending, Said, EmptyPacket, Owned;
    ReadGiven(t.cells, id, OvtTcpReceive, cfg.net(t.calls));
  }

  // Deleting an operation leaves the others pending.
  lemma DropPending(m: Cells, gone: Op, op: Op, d: OvData, outcome: Outcome)
    requires op != gone && Pending(m, op, d, outcome)
    ensures Pending(Free(m.(hand := None), gone), op, d, outcome) && gone !in Free(m.(hand := None), gone).ops
  {
  }

  // ---------------------------------------------------------------- the driver's calls

  /** A connect is started exactly when both registrations and ConnectEx itself succeed; otherwise there is no operation
      for it. */
  lemma RegisterDecides(cfg: Config, s: State, id: Id)
    requires CellsOk(s.cells)
    ensures var (t, ok) := Register(cfg, s, id); var d := OvData(id, OvtConnect, []);
            && (ok <==> cfg.net(s.calls).Accepted? && cfg.net(s.calls + 1).Accepted? && cfg.net(s.calls + 2).Accepted?)
            && t.conns == s.conns && t.logs == s.logs && t.delivered == s.delivered
            && (ok ==> t.cells.ops == s.cells.ops[s.cells.next := d] && Pending(t.cells, s.cells.next, d, Accepted))
            && (!ok ==> t.cells.ops == s.cells.ops
                        && t.cells.armed == s.cells.armed && t.cells.posted == s.cells.posted)
  {
    var d := OvData(id, OvtConnect, []);
    StartPending(s.cells, d, Accepted);
    NewAddress(s.cells);
    StartLost(s.cells, d);
    hide CellsOk, Pending;
  }

  /** udpSend fails without a connection; before the relay is known a datagram waits, but for an empty one; afterwards
      its frame goes out, and udpSend says whether the socket accepted it. */
  lemma SubmitDecides(cfg: Config, s: State, id: Id, d: Datagram)
    requires Inv(cfg, s)
    ensures var (t, ok) := Submit(cfg, s, id, d);
            if id !in s.conns then !ok && t == s
            else
              && id in s.logs
              && var c := s.conns[id]; var l := s.logs[id]; var next := s.cells.next;
              if c.state != PsConnected then
                ok && t == if d.payload == [] then s
                           else SetConn(SetLog(s, id, l.(submitted := l.submitted + [d])), id,
                                        c.(queue := c.queue + [d]))
              else
                && (ok <==> cfg.net(s.calls).Accepted?)
                && t.logs == s.logs[id := l.(submitted := l.submitted + [d],
                                             udp := l.udp + [Sent(Frame(d), c.relay, ok)])]
                && Pending(t.cells, next, SentCell(id, false, Frame(d), ok), cfg.net(s.calls))
                && if ok && !c.recvStarted then
                     Pending(t.cells, next + 1, OvData(id, OvtUdpReceive, EmptyPacket()), cfg.net(s.calls + 1))
                   else t.cells.next == next + 1
  {
    if id in s.conns {
      UserHere(cfg, s, id);
      if s.conns[id].state == PsConnected {
        hide InvDuring, Submit, Pending, EmptyPacket, Frame;
        SubmitFrame(cfg, s, id, d);
      } else {
        SubmitEffect(cfg, s, id, d);
        hide InvDuring, SendFrame;
      }
    }
  }

  lemma SubmitFrame(cfg: Config, s: State, id: Id, d: Datagram)
    requires Inv(cfg, s) && id in s.conns && id in s.logs && s.conns[id].state == PsConnected
    ensures var (t, ok) := Submit(cfg, s, id, d); var c := s.conns[id]; var l := s.logs[id]; var next := s.cells.next;
            && (ok <==> cfg.net(s.calls).Accepted?)
            && t.logs == s.logs[id := l.(submitted := l.submitted + [d], udp := l.udp + [Sent(Frame(d), c.relay, ok)])]
            && Pending(t.cells, next, SentCell(id, false, Frame(d), ok), cfg.net(s.calls))
            && if ok && !c.recvStarted then
                 Pending(t.cells, next + 1, OvData(id, OvtUdpReceive, EmptyPacket()), cfg.net(s.calls + 1))
               else t.cells.next == next + 1
  {
    var l := s.logs[id].(submitted := s.logs[id].submitted + [d]);
    var u := SetLog(s, id, l);
    CellsOfInv(cfg, s);
    SubmitSends(cfg, s, id, d);
    FrameGiven(cfg, u, id, d);
    hide InvDuring, Submit, SendFrame, Pending, EmptyPacket, Frame, CellsOk, SentCell;
    UpdatedTwice(s.logs, id, l, l.(udp := l.udp + [Sent(Frame(d), s.conns[id].relay, SendFrame(cfg, u, id, d).1)]));
  }

  lemma CellsOfInv(cfg: Config, s: State)
    requires Inv(cfg, s)
    ensures CellsOk(s.cells)
  {
    hide CellsOk, Ties, Agree;
  }

  // ---------------------------------------------------------------- the handshake

  // The TCP stream of this connection is being read by r.
  predicate Reading(m: Cells, r: Op, id: Id) {
    && m.hand.None? && r in m.ops && Awaits(m, r, 1, 0)
    && m.ops[r].id == id && m.ops[r].kind == OvtTcpReceive && |m.ops[r].buffer| == 65536
  }

  lemma MayArrive(m: Cells, r: Op, id: Id, data: seq<byte>)
    requires Reading(m, r, id) && |data| <= 65536
    ensures CanTake(m, r, data, false)
  {
  }

  lemma StillReading(cfg: Config, s: State, t: State, r: Op, d: OvData, n: nat)
    requires ReadsAgain(cfg, s, t, r, d, n) && n > 0 && forall k | k >= s.calls :: cfg.net(k).Accepted?
    requires t.cells.hand.None? && d.kind == OvtTcpReceive && |d.buffer| == 65536
    ensures Reading(t.cells, r, d.id) && t.calls >= s.calls
  {
    assert cfg.net(t.calls - 1).Accepted?;
  }

  lemma HandshakeStep(cfg: Config, s: State, r: Op, id: Id, reply: seq<byte>)
    requires Inv(cfg, s) && Reading(s.cells, r, id) && |reply| <= 65536
    requires id in s.conns && s.conns[id].state != PsUdpAssoc && Answers(s.conns[id].state, reply)
    requires forall k | k >= s.calls :: cfg.net(k).Accepted?
    ensures CanTake(s.cells, r, reply, false)
    ensures var t := After(cfg, s, r, reply, false); var (msg, state) := Next(cfg, s.conns[id].state, reply);
            Reading(t.cells, r, id) && Said(s, t, id, msg, state) && t.calls >= s.calls
  {
    MayArrive(s.cells, r, id, reply);
    NoAnswer(s.conns[id].state);
    ReplyDecides(cfg, s, r, reply, false);
    RearmedExactly(cfg, s, r, reply, false);
    var t := After(cfg, s, r, reply, false);
    var d := s.cells.ops[r];
    StillReading(cfg, s, t, r, d.(buffer := Arrived(d, reply)), |reply|);
    hide After, InvDuring, CanTake, Said, Learnt, Next, ReadsAgain, Answers;
  }

  lemma LastReply(cfg: Config, s: State, r: Op, id: Id, bound: SockAddr)
    requires Inv(cfg, s) && Reading(s.cells, r, id) && id in s.conns && s.conns[id].state == PsUdpAssoc
    ensures CanTake(s.cells, r, Reply(bound), false)
    ensures Learnt(s, After(cfg, s, r, Reply(bound), false), id, RelayFor(cfg.proxy, bound))
  {
    MayArrive(s.cells, r, id, Reply(bound));
    ReplyDecides(cfg, s, r, Reply(bound), false);
    BoundPort(cfg.proxy, s.cells.ops[r], bound);
    hide After, InvDuring, CanTake, Learnt, Answers, Reply, Relay, RelayFor, Arrived;
  }

  lemma BoundPort(proxy: RawAddress, d: OvData, bound: SockAddr)
    requires |d.buffer| == PACKET_SIZE
    ensures Answers(PsUdpAssoc, Reply(bound)) && Relay(proxy, Arrived(d, Reply(bound))) == RelayFor(proxy, bound)
  {
    var b := Arrived(d, Reply(bound));
    assert b[3] == Reply(bound)[3];
    if bound.V4? {
      assert b[8..10] == Reply(bound)[8..10] == bound.port;
    } else {
      assert b[20..22] == Reply(bound)[20..22] == bound.port;
    }
  }

  // The relay is known, nothing waits any more, and this is all the proxy server was told.
  predicate Established(cfg: Config, t: State, id: Id, bound: SockAddr, told: seq<seq<byte>>) {
    && id in t.conns && id in t.logs
    && t.conns[id].state == PsConnected && t.conns[id].relay == Some(RelayFor(cfg.proxy, bound))
    && t.conns[id].queue == [] && t.logs[id].tcp == told
  }

  // The same where there may be no such completion to take.
  ghost function Handled(cfg: Config, s: State, op: Op, data: seq<byte>): Option<State> {
    if Inv(cfg, s) && CanTake(s.cells, op, data, false) then Some(After(cfg, s, op, data, false)) else None
  }

  // The TCP stream's operation takes these replies one after the other.
  ghost function Hear(cfg: Config, s: State, r: Op, replies: seq<seq<byte>>): Option<State>
    decreases |replies|
  {
    if replies == [] then Some(s)
    else if Handled(cfg, s, r, replies[0]).Some? then
      Hear(cfg, Handled(cfg, s, r, replies[0]).value, r, replies[1..])
    else None
  }

  lemma Hears(cfg: Config, s: State, r: Op, reply: seq<byte>, t: State, rest: seq<seq<byte>>)
    requires Handled(cfg, s, r, reply) == Some(t)
    ensures Hear(cfg, s, r, [reply] + rest) == Hear(cfg, t, r, rest)
  {
    hide Handled;
    assert ([reply] + rest)[1..] == rest;
  }

  // What is on the wire and in the map once the TCP stream is read.
  predicate Stage(s: State, r: Op, id: Id, state: ProxyState, told: seq<seq<byte>>) {
    && Reading(s.cells, r, id) && id in s.conns && id in s.logs
    && s.conns[id].state == state && s.logs[id].tcp == told
  }

  // The connect has completed and every socket call from now on is accepted: the greeting is out.
  lemma Opened(cfg: Config, s: State, op: Op, id: Id)
    requires Inv(cfg, s) && CanTake(s.cells, op, [], false) && s.cells.ops[op] == OvData(id, OvtConnect, [])
    requires id in s.conns && forall k | k >= s.calls :: cfg.net(k).Accepted?
    ensures var t := After(cfg, s, op, [], false);
            Stage(t, s.cells.next + 1, id, PsAuth, [[5, 1, if cfg.user == [] then 0 else 2]]) && t.calls >= s.calls
  {
    ConnectSucceeded(cfg, s, op, []);
    NothingSaid(cfg, s, id);
    hide After, InvDuring, CanTake, Greeted, Stage;
    GreetedStage(cfg, s, After(cfg, s, op, [], false), id);
  }

  lemma GreetedStage(cfg: Config, s: State, t: State, id: Id)
    requires Greeted(cfg, s, t, id) && id in s.logs && s.logs[id].tcp == [] && t.cells.hand.None?
    requires forall k | k >= s.calls :: cfg.net(k).Accepted?
    ensures Stage(t, s.cells.next + 1, id, PsAuth, [[5, 1, if cfg.user == [] then 0 else 2]]) && t.calls >= s.calls
  {
    assert cfg.net(s.calls).Accepted? && cfg.net(s.calls + 1).Accepted?;
  }

  lemma NextStage(cfg: Config, s: State, r: Op, id: Id, state: ProxyState, told: seq<seq<byte>>, reply: seq<byte>)
      returns (t: State)
    requires Inv(cfg, s) && Stage(s, r, id, state, told) && |reply| <= 65536
    requires state != PsUdpAssoc && Answers(state, reply)
    requires forall k | k >= s.calls :: cfg.net(k).Accepted?
    ensures Handled(cfg, s, r, reply) == Some(t) && Inv(cfg, t)
    ensures var (msg, next) := Next(cfg, state, reply); Stage(t, r, id, next, told + [msg]) && t.calls >= s.calls
  {
    HandshakeStep(cfg, s, r, id, reply);
    t := After(cfg, s, r, reply, false);
    hide After, InvDuring, CanTake, Reading, Next, Answers, Said;
    SaidStage(s, t, r, id, Next(cfg, state, reply).0, Next(cfg, state, reply).1);
  }

  lemma SaidStage(s: State, t: State, r: Op, id: Id, msg: seq<byte>, state: ProxyState)
    requires Said(s, t, id, msg, state) && Reading(t.cells, r, id)
    ensures Stage(t, r, id, state, s.logs[id].tcp + [msg])
  {
    hide Reading;
  }

  lemma NothingSaid(cfg: Config, s: State, id: Id)
    requires Inv(cfg, s) && id in s.conns && s.conns[id].state == PsNone
    ensures id in s.logs && s.logs[id].tcp == []
  {
    hide CellsOk, Ties, LogOk;
    assert ConnOk(cfg, s.conns[id], s.logs[id]);
  }

  /** With a user name: the greeting offers the password exchange, the server chooses it and accepts the password, and
      the reply to the request names the relay. */
  lemma PasswordHandshake(cfg: Config, s: State, op: Op, id: Id, bound: SockAddr)
    requires Inv(cfg, s) && CanTake(s.cells, op, [], false) && s.cells.ops[op] == OvData(id, OvtConnect, [])
    requires id in s.conns && cfg.user != [] && forall k | k >= s.calls :: cfg.net(k).Accepted?
    ensures var heard := Hear(cfg, After(cfg, s, op, [], false), s.cells.next + 1, [[5, 2], [1, 0], Reply(bound)]);
            && heard.Some?
            && Established(cfg, heard.value, id, bound, [[5, 1, 2], UserPass(cfg.user, cfg.pass), Associate])
  {
    var r := s.cells.next + 1;
    Opened(cfg, s, op, id);
    hide After, InvDuring, CanTake, Stage, UserPass, Hear, Established, Reply, Handled;
    PasswordStages(cfg, After(cfg, s, op, [], false), r, id, bound);
  }

  lemma PasswordStages(cfg: Config, s: State, r: Op, id: Id, bound: SockAddr)
    requires Inv(cfg, s) && Stage(s, r, id, PsAuth, [[5, 1, 2]]) && cfg.user != []
    requires forall k | k >= s.calls :: cfg.net(k).Accepted?
    ensures var heard := Hear(cfg, s, r, [[5, 2], [1, 0], Reply(bound)]);
            && heard.Some?
            && Established(cfg, heard.value, id, bound, [[5, 1, 2], UserPass(cfg.user, cfg.pass), Associate])
  {
    hide InvDuring, Stage, UserPass, Hear, Established, Reply, Handled;
    var t := NextStage(cfg, s, r, id, PsAuth, [[5, 1, 2]], [5, 2]);
    Hears(cfg, s, r, [5, 2], t, [[1, 0], Reply(bound)]);
    var told := [[5, 1, 2]] + [UserPass(cfg.user, cfg.pass)];
    var u := NextStage(cfg, t, r, id, PsAuthNegotiation, told, [1, 0]);
    Hears(cfg, t, r, [1, 0], u, [Reply(bound)]);
    LastStage(cfg, u, r, id, bound, told + [Associate]);
    assert [[5, 2], [1, 0], Reply(bound)] == [[5, 2]] + [[1, 0], Reply(bound)];
    assert [[1, 0], Reply(bound)] == [[1, 0]] + [Reply(bound)];
    assert told + [Associate] == [[5, 1, 2], UserPass(cfg.user, cfg.pass), Associate];
  }

  lemma LastStage(cfg: Config, s: State, r: Op, id: Id, bound: SockAddr, told: seq<seq<byte>>)
    requires Inv(cfg, s) && Stage(s, r, id, PsUdpAssoc, told)
    ensures var heard := Hear(cfg, s, r, [Reply(bound)]); heard.Some? && Established(cfg, heard.value, id, bound, told)
  {
    LastReply(cfg, s, r, id, bound);
    hide After, InvDuring, CanTake, Reading, Reply, RelayFor;
    Hears(cfg, s, r, Reply(bound), After(cfg, s, r, Reply(bound), false), []);
    assert [Reply(bound)] + [] == [Reply(bound)];
  }

  /** The server may choose no authentication, with or without a user name: the request follows at once. */
  lemma OpenHandshake(cfg: Config, s: State, op: Op, id: Id, bound: SockAddr)
    requires Inv(cfg, s) && CanTake(s.cells, op, [], false) && s.cells.ops[op] == OvData(id, OvtConnect, [])
    requires id in s.conns && forall k | k >= s.calls :: cfg.net(k).Accepted?
    ensures var heard := Hear(cfg, After(cfg, s, op, [], false), s.cells.next + 1, [[5, 0], Reply(bound)]);
            && heard.Some?
            && Established(cfg, heard.value, id, bound, [[5, 1, if cfg.user == [] then 0 else 2], Associate])
  {
    var r := s.cells.next + 1;
    var greeting: seq<byte> := [5, 1, if cfg.user == [] then 0 else 2];
    Opened(cfg, s, op, id);
    hide After, InvDuring, CanTake, Stage, UserPass, Hear, Established, Reply, Handled;
    OpenStages(cfg, After(cfg, s, op, [], false), r, id, bound, greeting);
  }

  lemma OpenStages(cfg: Config, s: State, r: Op, id: Id, bound: SockAddr, greeting: seq<byte>)
    requires Inv(cfg, s) && Stage(s, r, id, PsAuth, [greeting])
    requires forall k | k >= s.calls :: cfg.net(k).Accepted?
    ensures var heard := Hear(cfg, s, r, [[5, 0], Reply(bound)]);
            heard.Some? && Established(cfg, heard.value, id, bound, [greeting, Associate])
  {
    hide InvDuring, Stage, UserPass, Hear, Established, Reply, Handled;
    var t := NextStage(cfg, s, r, id, PsAuth, [greeting], [5, 0]);
    Hears(cfg, s, r, [5, 0], t, [Reply(bound)]);
    LastStage(cfg, t, r, id, bound, [greeting] + [Associate]);
    assert [[5, 0], Reply(bound)] == [[5, 0]] + [Reply(bound)];
    assert [greeting] + [Associate] == [greeting, Associate];
  }
}
