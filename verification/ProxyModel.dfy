/**
 * What netfilter/UDPProxy.cpp computes, step by step, on values: one function for each stretch of code that runs
 * under m_cs or touches no shared data. The class in Proxy.dfy runs the program's statements and is proved against
 * these; Session.dfy interleaves them.
 *
 * Winsock is an oracle: call number k of the run ends as cfg.net(k), for any cfg.net.
 * `logs` records what was put on the sockets and what the application submitted; nothing in the program reads it.
 */
module ProxyModel {
  import opened Bytes
  import opened Socks
  import opened Operations

  datatype Config = Config(user: seq<byte>, pass: seq<byte>, proxy: RawAddress, net: nat -> Outcome)

  // PS_CLOSED is declared by the program and never assigned.
  datatype ProxyState = PsNone | PsAuth | PsAuthNegotiation | PsUdpAssoc | PsConnected

  // PROXY_DATA
  datatype Conn = Conn(
    user: seq<byte>,
    pass: seq<byte>,
    state: ProxyState,
    relay: Option<SockAddr>,
    queue: seq<Datagram>,
    recvStarted: bool)

  // One WSASendTo.
  datatype Sent = Sent(frame: seq<byte>, dest: Option<SockAddr>, accepted: bool)

  // Per endpoint: messages the TCP socket accepted, calls of WSASendTo, datagrams taken from the application.
  datatype Log = Log(tcp: seq<seq<byte>>, udp: seq<Sent>, submitted: seq<Datagram>)

  datatype Delivered = Delivered(id: Id, delivery: Delivery)

  datatype State = State(
    cells: Cells,
    conns: map<Id, Conn>,
    logs: map<Id, Log>,
    delivered: seq<Delivered>,
    calls: nat)

  const Initial := State(NoCells, map[], map[], [], 0)
  const EmptyLog := Log([], [], [])

  function LogOf(s: State, id: Id): Log {
    if id in s.logs then s.logs[id] else EmptyLog
  }

  function SetConn(s: State, id: Id, c: Conn): State {
    s.(conns := s.conns[id := c])
  }

  function SetLog(s: State, id: Id, l: Log): State {
    s.(logs := s.logs[id := l])
  }

  function Called(s: State, cells: Cells): State {
    s.(cells := cells, calls := s.calls + 1)
  }

  // ---------------------------------------------------------------- starting operations

  function StartReceive(cfg: Config, s: State, id: Id, kind: Kind): State {
    Called(s, NewReceive(s.cells, id, kind, cfg.net(s.calls)))
  }

  function StartConnect(cfg: Config, s: State, id: Id): (State, bool) {
    (Called(s, NewConnect(s.cells, id, cfg.net(s.calls))), cfg.net(s.calls).Accepted?)
  }

  function StartTcpSend(cfg: Config, s: State, id: Id, msg: seq<byte>): (State, bool) {
    var t := Called(s, NewSend(s.cells, id, OvtTcpSend, msg, cfg.net(s.calls)));
    if cfg.net(s.calls).Accepted? then (SetLog(t, id, LogOf(s, id).(tcp := LogOf(s, id).tcp + [msg])), true)
    else (t, false)
  }

  // udpSend on a connected relay.
  function SendFrame(cfg: Config, s: State, id: Id, d: Datagram): (State, bool)
    requires id in s.conns
  {
    var c := s.conns[id];
    var ok := cfg.net(s.calls).Accepted?;
    var l := LogOf(s, id);
    var t := SetLog(Called(s, NewSend(s.cells, id, OvtUdpSend, Frame(d), cfg.net(s.calls))), id,
                    l.(udp := l.udp + [Sent(Frame(d), c.relay, ok)]));
    if ok && !c.recvStarted then (StartReceive(cfg, SetConn(t, id, c.(recvStarted := true)), id, OvtUdpReceive), true)
    else (t, ok)
  }

  function UdpSend(cfg: Config, s: State, id: Id, d: Datagram): (State, bool) {
    if id !in s.conns then (s, false)
    else if s.conns[id].state != PsConnected then
      (if d.payload == [] then s else SetConn(s, id, s.conns[id].(queue := s.conns[id].queue + [d])), true)
    else SendFrame(cfg, s, id, d)
  }

  // udpSend called by the application's side. An empty datagram that would have to wait is dropped.
  predicate Taken(s: State, id: Id, d: Datagram) {
    id in s.conns && (s.conns[id].state == PsConnected || d.payload != [])
  }

  function Submit(cfg: Config, s: State, id: Id, d: Datagram): (State, bool) {
    var l := LogOf(s, id);
    UdpSend(cfg, if Taken(s, id, d) then SetLog(s, id, l.(submitted := l.submitted + [d])) else s, id, d)
  }

  // ---------------------------------------------------------------- connections

  // createProxyConnection up to the end of its locked block.
  function Insert(cfg: Config, s: State, id: Id): State {
    SetLog(SetConn(s, id, Conn(cfg.user, cfg.pass, PsNone, None, [], false)), id, EmptyLog)
  }

  // deleteProxyConnection
  function Erase(s: State, id: Id): State {
    s.(conns := s.conns - {id})
  }

  // A call that yields no operation: WSASocket, CreateIoCompletionPort.
  function Try(cfg: Config, s: State): (State, bool) {
    (s.(calls := s.calls + 1), cfg.net(s.calls).Accepted?)
  }

  // Both registrations and the connect, each only after the one before it.
  function Register(cfg: Config, s: State, id: Id): (State, bool) {
    var (s1, ok1) := Try(cfg, s);
    if !ok1 then (s1, false)
    else
      var (s2, ok2) := Try(cfg, s1);
      if !ok2 then (s2, false) else StartConnect(cfg, s2, id)
  }

  // createProxyConnection, its two sockets made or not.
  function Create(cfg: Config, s: State, id: Id, sockets: bool): (State, bool) {
    if !sockets then (s, false)
    else
      var (t, ok) := Register(cfg, Insert(cfg, s, id), id);
      (if ok then t else Erase(t, id), ok)
  }

  // ---------------------------------------------------------------- completions

  // PS_CONNECTED is set before the loop, so that udpSend sends.
  function Flush(cfg: Config, s: State, id: Id): State
    decreases if id in s.conns then |s.conns[id].queue| else 0
  {
    if id !in s.conns || s.conns[id].state != PsConnected || s.conns[id].queue == [] then s
    else
      var t := UdpSend(cfg, s, id, s.conns[id].queue[0]).0;
      Flush(cfg, SetConn(t, id, t.conns[id].(queue := t.conns[id].queue[1..])), id)
  }

  function SendThen(cfg: Config, s: State, id: Id, msg: seq<byte>, state: ProxyState): State
    requires id in s.conns
  {
    var (t, ok) := StartTcpSend(cfg, s, id, msg);
    if ok then SetConn(t, id, t.conns[id].(state := state)) else t
  }

  // The locked block of onTcpReceiveComplete.
  function TcpReply(cfg: Config, s: State, id: Id, n: nat, buffer: Packet): State
    requires id in s.conns
  {
    var c := s.conns[id];
    match c.state
    case PsNone => s
    case PsAuth =>
      if n < SIZEOF_AUTH_RESPONSE || buffer[0] != SOCKS_5 then s
      else if buffer[1] == S5AM_UNPW && c.user != [] then
        SendThen(cfg, s, id, UserPass(c.user, c.pass), PsAuthNegotiation)
      else SendThen(cfg, s, id, Associate, PsUdpAssoc)
    case PsAuthNegotiation =>
      if n < SIZEOF_AUTH_RESPONSE || buffer[0] != 1 || buffer[1] != 0 then s
      else SendThen(cfg, s, id, Associate, PsUdpAssoc)
    case PsUdpAssoc =>
      if n < SIZEOF_RESPONSE || buffer[0] != SOCKS_5 || buffer[1] != 0 then s
      else
        (match ReplyRelay(cfg.proxy, buffer)
         case None => s
         case Some(relay) => Flush(cfg, SetConn(s, id, c.(relay := Some(relay), state := PsConnected)), id))
    case PsConnected => s
  }

  // The locked block of onConnectComplete, without the deletion at its end.
  function Connected(cfg: Config, s: State, id: Id): State
    requires id in s.conns
  {
    StartReceive(cfg, SendThen(cfg, s, id, Greeting(s.conns[id].user), PsAuth), id, OvtTcpReceive)
  }

  // The cell in hand is deleted.
  function Drop(s: State): State
    requires s.cells.hand.Some?
  {
    s.(cells := Free(s.cells.(hand := None), s.cells.hand.value.op))
  }

  // The handler of the operation in hand has done its work.
  function HandDone(m: Cells): Cells
    requires m.hand.Some?
  {
    m.(hand := Some(m.hand.value.(body := false)))
  }

  // What a handler does with its completion before the cell is armed again or deleted. A connect that
  // succeeded is deleted in the same locked block.
  function Body(cfg: Config, s: State): State
    requires HandReady(s.cells)
  {
    var h := s.cells.hand.value;
    var d := s.cells.ops[h.op];
    var t := s.(cells := HandDone(s.cells));
    match d.kind
    case OvtTcpReceive => if h.n == 0 || d.id !in s.conns then t else TcpReply(cfg, t, d.id, h.n, d.buffer)
    case OvtUdpReceive =>
      if h.n == 0 then t
      else
        (match Unframe(d.buffer, h.n)
         case None => t
         case Some(x) => t.(delivered := t.delivered + [Delivered(d.id, x)]))
    case OvtConnect =>
      if h.failed then Erase(t, d.id)
      else Drop(if d.id in s.conns then Connected(cfg, t, d.id) else t)
    case _ => t
  }

  // The cell is armed again, a call of its own, or deleted.
  function Finish(cfg: Config, s: State): State
    requires HandReady(s.cells)
  {
    if Rearms(s.cells) then Called(s, Release(s.cells, cfg.net(s.calls)))
    else Drop(s)
  }

  // A whole handler.
  function Handle(cfg: Config, s: State): State
    requires HandReady(s.cells)
  {
    var t := Body(cfg, s);
    if HandReady(t.cells) then Finish(cfg, t) else t
  }

  // free, once the worker is gone.
  function Shutdown(s: State): State {
    s.(cells := s.cells.(ops := map[], freed := s.cells.freed + multiset(s.cells.ops.Keys)), conns := map[])
  }
}
