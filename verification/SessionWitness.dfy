/**
 * Two runs in which a datagram that waits in the queue is lost: the handshake succeeds and the relay socket refuses its
 * frame when the queue is flushed; or the connection to the proxy server fails and goes. udpSend has returned true
 * long before, so nobody posts it directly.
 */
module SessionWitness {
  import opened Bytes
  import opened Socks
  import opened Operations
  import opened ProxyModel
  import opened Session
  import opened SessionHistory
  import opened SessionFates

  // No user name; every Winsock call is accepted but the eighth, the WSASendTo of the flush.
  function Refusing(): Config {
    Config([], [], seq(28, _ => 0), (k: nat) => if k == 7 then Outcome.Posted else Accepted)
  }

  const Hello: Datagram := Datagram(V4([1, 2, 3, 4], [0, 53]), [42])

  const Success: seq<byte> := [5, 0, 0, 1, 1, 2, 3, 4, 31, 64]

  const Story: seq<Event> := [
    AppSend(1, Hello, true), Connect, Publish, Send,
    Completion(0, [], false), Work, Check,
    Completion(2, [5, 0], false), Work, Settled, Check,
    Completion(2, Success, false), Work]

  function Known(state: ProxyState): Conn {
    Conn([], [], state, None, [Hello], false)
  }

  // The one endpoint, while its datagram waits.
  function Waits(cells: Cells, state: ProxyState, tcp: seq<seq<byte>>, calls: nat, worker: Worker): World {
    World(State(cells, map[1 := Known(state)], map[1 := Log(tcp, [], [Hello])], [], calls),
          {1}, Idle, worker, NotStopped, {}, map[1 := [Fated(Hello, Waiting)]], map[], [])
  }

  function ConnectOp(): OvData {
    OvData(1, OvtConnect, [])
  }

  function SendOp(msg: seq<byte>): OvData {
    OvData(1, OvtTcpSend, msg)
  }

  function ReceiveOp(buffer: seq<byte>): OvData {
    OvData(1, OvtTcpReceive, buffer)
  }

  lemma ThenIn(cfg: Config, es: seq<Event>, k: nat, w: World)
    requires k < |es| && Run(cfg, Begin, es[..k]) == w
    ensures Run(cfg, Begin, es[..k + 1]) == Step(cfg, w, es[k])
  {
    assert es[..k + 1][..k] == es[..k];
    hide Step;
  }

  lemma Then(cfg: Config, k: nat, w: World)
    requires k < |Story| && Run(cfg, Begin, Story[..k]) == w
    ensures Run(cfg, Begin, Story[..k + 1]) == Step(cfg, w, Story[k])
  {
    ThenIn(cfg, Story, k, w);
  }

  // ---------------------------------------------------------------- the application sends

  function Connecting(): Cells {
    Cells(map[0 := ConnectOp()], 1, multiset{0}, multiset{}, multiset{}, None)
  }

  lemma Opening()
    ensures Run(Refusing(), Begin, Story[..3]) == Waits(Connecting(), PsNone, [], 3, AtPort).(
              p := Opened(), driver := Sending(1, Hello), fates := map[])
  {
    var cfg := Refusing();
    Then(cfg, 0, Begin);
    var p := Insert(cfg, Initial, 1);
    var w1 := Begin.(p := p, driver := Creating(1, Hello));
    assert Step(cfg, Begin, Story[0]) == w1;
    Then(cfg, 1, w1);
    Registered();
    var w2 := w1.(p := Opened(), driver := Publishing(1, Hello));
    hide Register, Insert, Opened;
    assert Step(cfg, w1, Story[1]) == w2;
    Then(cfg, 2, w2);
  }

  // The connection before its first datagram.
  function Opened(): State {
    State(Connecting(), map[1 := Conn([], [], PsNone, None, [], false)], map[1 := EmptyLog], [], 3)
  }

  lemma Registered()
    ensures Register(Refusing(), Insert(Refusing(), Initial, 1), 1) == (Opened(), true)
  {
    var cfg := Refusing();
    var p := Insert(cfg, Initial, 1);
    assert NewConnect(p.cells, 1, Accepted) == Connecting();
    hide NewConnect;
    var q := Try(cfg, Try(cfg, p).0).0;
    assert q == p.(calls := 2);
    assert StartConnect(cfg, q, 1) == (Called(q, Connecting()), true);
    assert p.conns == Opened().conns && p.logs == Opened().logs;
  }

  lemma Queued()
    ensures Run(Refusing(), Begin, Story[..4]) == Waits(Connecting(), PsNone, [], 3, AtPort)
  {
    var cfg := Refusing();
    Opening();
    var w := Waits(Connecting(), PsNone, [], 3, AtPort).(p := Opened(), driver := Sending(1, Hello), fates := map[]);
    Then(cfg, 3, w);
    hide Run;
    var t := Waits(Connecting(), PsNone, [], 3, AtPort);
    assert [] + [Hello] == [Hello];
    var l := EmptyLog.(submitted := [Hello]);
    assert Opened().logs[1 := l] == t.p.logs;
    assert Opened().conns[1 := Opened().conns[1].(queue := [Hello])] == t.p.conns;
    assert Submit(cfg, Opened(), 1, Hello) == (t.p, true);
    hide Submit;
    assert FateOf(w.p, 1, Hello, true) == Waiting;
    assert [] + [Fated(Hello, Waiting)] == [Fated(Hello, Waiting)];
    assert w.fates[1 := [Fated(Hello, Waiting)]] == t.fates;
    assert Fate1(w.(p := t.p, driver := Idle), 1, Hello, Waiting) == t;
    assert Step(cfg, w, Send) == SubmitStep(cfg, w, 1, Hello);
  }

  // ---------------------------------------------------------------- the worker shakes hands

  function Greeted(): Cells {
    Cells(map[1 := SendOp(Greeting([])), 2 := ReceiveOp(EmptyPacket())], 3, multiset{1, 2}, multiset{}, multiset{0},
        None)
  }

  lemma ConnectTaken()
    ensures CanTake(Connecting(), 0, [], false)
    ensures Take(Connecting(), 0, [], false)
         == Connecting().(armed := multiset{}, hand := Some(Hand(0, 0, false, true)))
  {
  }

  lemma GreetingSent(s: State)
    requires s == Waits(Connecting().(armed := multiset{}, hand := Some(Hand(0, 0, false, true))), PsNone, [], 3,
             Handling).p
    ensures HandReady(s.cells) && Body(Refusing(), s) == Waits(Greeted(), PsAuth, [Greeting([])], 5, Checking).p
  {
    hide EmptyPacket;
    var cfg := Refusing();
    var t := s.(cells := HandDone(s.cells));
    var u := SendThen(cfg, t, 1, Greeting([]), PsAuth);
    var m := t.cells.(ops := map[0 := ConnectOp(), 1 := SendOp(Greeting([]))], next := 2, armed := multiset{1});
    assert NewSend(t.cells, 1, OvtTcpSend, Greeting([]), Accepted) == m;
    assert [] + [Greeting([])] == [Greeting([])];
    var v := Waits(m, PsAuth, [Greeting([])], 4, Handling).p;
    assert t.logs[1 := Log([Greeting([])], [], [Hello])] == v.logs;
    assert t.conns[1 := Known(PsAuth)] == v.conns;
    hide NewSend, Greeting;
    assert u == v;
    var m' := m.(ops := map[0 := ConnectOp(), 1 := SendOp(Greeting([])), 2 := ReceiveOp(EmptyPacket())], next := 3,
        armed := multiset{1, 2});
    assert NewReceive(m, 1, OvtTcpReceive, Accepted) == m';
    assert Connected(cfg, t, 1) == Called(u, m');
    assert Free(m'.(hand := None), 0) == Greeted();
  }

  lemma Authenticating()
    ensures Run(Refusing(), Begin, Story[..7]) == Waits(Greeted(), PsAuth, [Greeting([])], 5, AtPort)
  {
    var cfg := Refusing();
    Queued();
    hide Run, Body, Take, CanTake, HandReady, Unframe, Step;
    var w := Waits(Connecting(), PsNone, [], 3, AtPort);
    ConnectTaken();
    Then(cfg, 4, w);
    TakeRuns(cfg, w, 0, [], false);
    var m := Connecting().(armed := multiset{}, hand := Some(Hand(0, 0, false, true)));
    var w1 := Waits(m, PsNone, [], 3, Handling);
    GreetingSent(w1.p);
    Then(cfg, 5, w1);
    WorkRuns(cfg, w1);
    Then(cfg, 6, Waits(Greeted(), PsAuth, [Greeting([])], 5, Checking));
    CheckRuns(cfg, Waits(Greeted(), PsAuth, [Greeting([])], 5, Checking));
  }

  // A reply in hand, the greeting and what else was sent still with the kernel.
  function Replied(ops: map<Op, OvData>, next: Op, others: multiset<Op>, n: nat, body: bool): Cells {
    Cells(ops, next, others, multiset{}, multiset{0}, Some(Hand(2, n, false, body)))
  }

  function Ops1(buffer: seq<byte>): map<Op, OvData> {
    map[1 := SendOp(Greeting([])), 2 := ReceiveOp(buffer)]
  }

  function Ops2(buffer: seq<byte>): map<Op, OvData> {
    map[1 := SendOp(Greeting([])), 2 := ReceiveOp(buffer), 3 := SendOp(Associate)]
  }

  function MethodReply(): Packet {
    Overwrite(EmptyPacket(), [5, 0])
  }

  lemma MethodTaken()
    ensures CanTake(Greeted(), 2, [5, 0], false)
    ensures Take(Greeted(), 2, [5, 0], false) == Replied(Ops1(MethodReply()), 3, multiset{1}, 2, true)
  {
    assert multiset{1, 2} - multiset{2} == multiset{1};
  }

  lemma MethodAnswered(s: State)
    requires s == Waits(Replied(Ops1(MethodReply()), 3, multiset{1}, 2, true), PsAuth, [Greeting([])], 5, Handling).p
    ensures HandReady(s.cells)
    ensures Body(Refusing(), s)
         == Waits(Replied(Ops2(MethodReply()), 4, multiset{1, 3}, 2, false), PsUdpAssoc, [Greeting([]), Associate], 6,
             Handling).p
  {
    var cfg := Refusing();
    var b := MethodReply();
    assert b[..2] == [5, 0];
    assert b[0] == 5 && b[1] == 0;
    hide MethodReply, EmptyPacket, Overwrite;
    var t := s.(cells := HandDone(s.cells));
    var v := Waits(Replied(Ops2(b), 4, multiset{1, 3}, 2, false), PsUdpAssoc, [Greeting([]), Associate], 6, Handling).p;
    assert NewSend(t.cells, 1, OvtTcpSend, Associate, Accepted) == v.cells;
    assert [Greeting([])] + [Associate] == [Greeting([]), Associate];
    assert t.logs[1 := Log([Greeting([]), Associate], [], [Hello])] == v.logs;
    assert t.conns[1 := Known(PsUdpAssoc)] == v.conns;
    hide NewSend, Greeting;
    assert SendThen(cfg, t, 1, Associate, PsUdpAssoc) == v;
    hide SendThen;
    assert TcpReply(cfg, t, 1, 2, b) == v;
  }

  function Associating(buffer: seq<byte>): Cells {
    Cells(Ops2(buffer), 4, multiset{1, 2, 3}, multiset{}, multiset{0}, None)
  }

  lemma ReceiveRearmed(s: State)
    requires s.calls == 6 && s.cells == Replied(Ops2(MethodReply()), 4, multiset{1, 3}, 2, false)
    ensures HandReady(s.cells) && Finish(Refusing(), s) == Called(s, Associating(MethodReply()))
  {
    hide MethodReply;
    assert multiset{1, 3} + multiset{2} == multiset{1, 2, 3};
  }

  lemma Associated()
    ensures Run(Refusing(), Begin, Story[..11])
         == Waits(Associating(MethodReply()), PsUdpAssoc, [Greeting([]), Associate], 7, AtPort)
  {
    var cfg := Refusing();
    Authenticating();
    hide Run, Body, Take, CanTake, HandReady, Unframe, Step, Finish, MethodReply;
    var w := Waits(Greeted(), PsAuth, [Greeting([])], 5, AtPort);
    MethodTaken();
    Then(cfg, 7, w);
    TakeRuns(cfg, w, 2, [5, 0], false);
    var w1 := Waits(Replied(Ops1(MethodReply()), 3, multiset{1}, 2, true), PsAuth, [Greeting([])], 5, Handling);
    MethodAnswered(w1.p);
    Then(cfg, 8, w1);
    WorkRuns(cfg, w1);
    var w2 := Waits(Replied(Ops2(MethodReply()), 4, multiset{1, 3}, 2, false), PsUdpAssoc, [Greeting([]), Associate],
        6, Handling);
    Then(cfg, 9, w2);
    ReceiveRearmed(w2.p);
    SettledRuns(cfg, w2);
    var w3 := Waits(Associating(MethodReply()), PsUdpAssoc, [Greeting([]), Associate], 7, Checking);
    Then(cfg, 10, w3);
    CheckRuns(cfg, w3);
  }

  // ---------------------------------------------------------------- the flush is refused

  function SuccessReply(): Packet {
    Overwrite(MethodReply(), Success)
  }

  lemma SuccessTaken()
    ensures CanTake(Associating(MethodReply()), 2, Success, false)
    ensures Take(Associating(MethodReply()), 2, Success, false)
            == Replied(Ops2(SuccessReply()), 4, multiset{1, 3}, 10, true)
  {
    hide MethodReply;
    assert multiset{1, 2, 3} - multiset{2} == multiset{1, 3};
  }

  lemma FlushRefused(s: State)
    requires s == Waits(Replied(Ops2(SuccessReply()), 4, multiset{1, 3}, 10, true), PsUdpAssoc,
             [Greeting([]), Associate], 7, Handling).p
    ensures HandReady(s.cells)
    ensures var t := Body(Refusing(), s);
            && 1 in t.logs && t.logs[1].submitted == [Hello]
            && |t.logs[1].udp| == 1 && t.logs[1].udp[0].frame == Frame(Hello) && !t.logs[1].udp[0].accepted
  {
    var cfg := Refusing();
    var b := SuccessReply();
    assert b[..10] == Success;
    assert b[0] == 5 && b[1] == 0 && b[3] == 1;
    var t := s.(cells := HandDone(s.cells));
    var relay := ReplyRelay(cfg.proxy, b);
    hide SuccessReply, MethodReply, ReplyRelay;
    var u := SetConn(t, 1, Known(PsUdpAssoc).(relay := relay, state := PsConnected));
    hide NewSend, Frame;
    var v := SendFrame(cfg, u, 1, Hello).0;
    assert v.logs[1] == Log([Greeting([]), Associate], [Sent(Frame(Hello), relay, false)], [Hello]);
    var x := SetConn(v, 1, v.conns[1].(queue := v.conns[1].queue[1..]));
    assert Flush(cfg, x, 1) == x;
    assert Flush(cfg, u, 1) == x;
    assert TcpReply(cfg, t, 1, 10, b) == x;
  }

  // A datagram already given to the socket is not in the queue.
  lemma NowhereQueued(p: State, id: Id, k: nat)
    requires k < |LogOf(p, id).udp|
    ensures !IsQueued(p, id, k)
  {
  }

  /** The datagram was taken and its frame refused by the relay socket; it was not posted directly. */
  lemma FlushLoses()
    ensures var w := Run(Refusing(), Begin, Story);
            && LogOf(w.p, 1).submitted == [Hello] && |LogOf(w.p, 1).udp| == 1 && !LogOf(w.p, 1).udp[0].accepted
            && Get(w.direct, 1) == []
            && IsLost(w, 1, 0)
  {
    var cfg := Refusing();
    Associated();
    hide Run, Body, Take, CanTake, HandReady, Unframe, Step, MethodReply, SuccessReply;
    var w := Waits(Associating(MethodReply()), PsUdpAssoc, [Greeting([]), Associate], 7, AtPort);
    SuccessTaken();
    Then(cfg, 11, w);
    TakeRuns(cfg, w, 2, Success, false);
    var w1 := Waits(Replied(Ops2(SuccessReply()), 4, multiset{1, 3}, 10, true), PsUdpAssoc, [Greeting([]), Associate],
        7, Handling);
    FlushRefused(w1.p);
    Then(cfg, 12, w1);
    WorkRuns(cfg, w1);
    assert Story[..13] == Story;
    NowhereQueued(Run(cfg, Begin, Story).p, 1, 0);
  }

  // ---------------------------------------------------------------- the connect fails

  const Failure: seq<Event> := [
    AppSend(1, Hello, true), Connect, Publish, Send,
    Completion(0, [], true), Work]

  lemma FailureTaken()
    ensures CanTake(Connecting(), 0, [], true)
    ensures Take(Connecting(), 0, [], true) == Connecting().(armed := multiset{}, hand := Some(Hand(0, 0, true, true)))
  {
  }

  /** The datagram was taken, its connection is gone, and nothing was ever sent or posted. */
  lemma FailedConnectLoses()
    ensures var w := Run(Refusing(), Begin, Failure);
            && LogOf(w.p, 1) == Log([], [], [Hello]) && 1 !in w.p.conns && Get(w.direct, 1) == []
            && IsLost(w, 1, 0)
  {
    var cfg := Refusing();
    Queued();
    hide Run, Take, CanTake, Unframe, Step;
    assert Failure[..4] == Story[..4];
    var w := Waits(Connecting(), PsNone, [], 3, AtPort);
    FailureTaken();
    ThenIn(cfg, Failure, 4, w);
    TakeRuns(cfg, w, 0, [], true);
    var m := Connecting().(armed := multiset{}, hand := Some(Hand(0, 0, true, true)));
    var w1 := Waits(m, PsNone, [], 3, Handling);
    ThenIn(cfg, Failure, 5, w1);
    WorkRuns(cfg, w1);
    assert Failure[..6] == Failure;
  }
}
