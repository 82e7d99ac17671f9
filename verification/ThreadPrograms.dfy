/**
 * What the program's threads do with the two locks: the lock actions of each function of netfilter/UDPProxy.cpp and
 * netfilter/NFEventHandler.cpp, with its branches, in whatever state it finds the proxy. Every other action is Work.
 */
module ThreadPrograms {
  import opened Bytes
  import opened Socks
  import opened Operations
  import opened ProxyModel
  import L = LockOrder

  // One block under m_cs: newOV_DATA, deleteOV_DATA, deleteProxyConnection.
  const Block: L.Program := [L.AcqCs, L.Work, L.RelCs]

  // One block under `lock`: onUdpReceiveComplete, udpCreated, the end of udpClosed.
  const LockBlock: L.Program := [L.AcqLock, L.Work, L.RelLock]

  function If(b: bool, p: L.Program): L.Program {
    if b then p else []
  }

  // ---------------------------------------------------------------- the proxy

  function StartActs(isNew: bool, deleted: bool): L.Program {
    If(isNew, Block) + [L.Work] + If(deleted, Block)
  }

  function SendFrameActs(cfg: Config, s: State, id: Id): L.Program
    requires id in s.conns
  {
    var outcome := cfg.net(s.calls);
    StartActs(true, outcome.Lost?) +
    If(outcome.Accepted? && !s.conns[id].recvStarted, StartActs(true, cfg.net(s.calls + 1).Lost?))
  }

  function UdpSendActs(cfg: Config, s: State, id: Id): L.Program {
    [L.AcqCs] +
    (if id !in s.conns || s.conns[id].state != PsConnected then [L.Work] else SendFrameActs(cfg, s, id)) +
    [L.RelCs]
  }

  // The flush loop calls udpSend, which takes m_cs again.
  function FlushActs(cfg: Config, s: State, id: Id): L.Program
    decreases if id in s.conns then |s.conns[id].queue| else 0
  {
    if id !in s.conns || s.conns[id].state != PsConnected || s.conns[id].queue == [] then []
    else
      var t := UdpSend(cfg, s, id, s.conns[id].queue[0]).0;
      UdpSendActs(cfg, s, id) + FlushActs(cfg, SetConn(t, id, t.conns[id].(queue := t.conns[id].queue[1..])), id)
  }

  function CreateActs(cfg: Config, s: State, sockets: bool): L.Program {
    if !sockets then [L.Work]
    else if !cfg.net(s.calls).Accepted? || !cfg.net(s.calls + 1).Accepted? then Block + [L.Work] + Block
    else
      var ok := cfg.net(s.calls + 2).Accepted?;
      Block + [L.Work] + StartActs(true, !ok) + If(!ok, Block)
  }

  // The locked block of onTcpReceiveComplete; whether a handshake message is sent is left open.
  function TcpReplyActs(cfg: Config, s: State, id: Id, sends: bool, relay: Option<SockAddr>): L.Program
    requires id in s.conns
  {
    var c := s.conns[id];
    if (c.state == PsAuth || c.state == PsAuthNegotiation) && sends then StartActs(true, cfg.net(s.calls).Lost?)
    else if c.state == PsUdpAssoc && relay.Some? then
      FlushActs(cfg, SetConn(s, id, c.(relay := relay, state := PsConnected)), id)
    else [L.Work]
  }

  // A completion as it is handled: the proxy's state when m_cs is taken, the kind and id of its operation, and
  // what the branches of the handlers turn on.
  datatype Handled = Handled(
    s: State,
    id: Id,
    kind: Kind,
    n: nat,
    failed: bool,
    sends: bool,
    relay: Option<SockAddr>,
    delivers: bool,
    lost: bool)

  function HandlerActs(cfg: Config, c: Handled): L.Program {
    match c.kind
    case OvtTcpReceive =>
      if c.n == 0 then Block
      else
        [L.AcqCs] +
        (if c.id in c.s.conns then TcpReplyActs(cfg, c.s, c.id, c.sends, c.relay) else [L.Work]) +
        [L.RelCs] + StartActs(false, c.lost)
    case OvtUdpReceive => if c.n == 0 then Block else If(c.delivers, LockBlock) + StartActs(false, c.lost)
    case OvtConnect =>
      if c.failed then Block + Block
      else
        [L.AcqCs] +
        If(c.id in c.s.conns,
           StartActs(true, cfg.net(c.s.calls).Lost?) + StartActs(true, cfg.net(c.s.calls + 1).Lost?)) +
        Block + [L.RelCs]
    case _ => Block
  }

  // ---------------------------------------------------------------- who takes `lock`

  lemma SendFrameUnlocked(cfg: Config, s: State, id: Id)
    requires id in s.conns
    ensures L.AcqLock !in SendFrameActs(cfg, s, id)
  {
  }

  lemma {:induction false} FlushUnlocked(cfg: Config, s: State, id: Id)
    ensures L.AcqLock !in FlushActs(cfg, s, id)
    decreases if id in s.conns then |s.conns[id].queue| else 0
  {
    if id in s.conns && s.conns[id].state == PsConnected && s.conns[id].queue != [] {
      var t := UdpSend(cfg, s, id, s.conns[id].queue[0]).0;
      SendFrameUnlocked(cfg, s, id);
      FlushUnlocked(cfg, SetConn(t, id, t.conns[id].(queue := t.conns[id].queue[1..])), id);
      hide SendFrameActs, UdpSend;
    }
  }

  /** Of all a handler does, only handing a datagram on takes `lock`; it does so whenever it hands one on. */
  lemma OnlyDeliveryLocks(cfg: Config, c: Handled)
    ensures L.AcqLock in HandlerActs(cfg, c) <==> c.kind.OvtUdpReceive? && c.n > 0 && c.delivers
  {
    if c.kind.OvtTcpReceive? && c.id in c.s.conns {
      FlushUnlocked(cfg, SetConn(c.s, c.id, c.s.conns[c.id].(relay := c.relay, state := PsConnected)), c.id);
      hide FlushActs;
    } else if c.kind.OvtUdpReceive? && c.delivers {
      assert LockBlock[0] == L.AcqLock;
    }
  }

  // ---------------------------------------------------------------- the threads

  // A driver callback; the worker may have changed the proxy between the two blocks of udpSend.
  datatype Callback =
    | UdpSendCall(known: bool, sockets: bool, p: State, later: State, id: Id)
    | UdpClosedCall
    | UdpCreatedCall

  function CallbackActs(cfg: Config, c: Callback): L.Program {
    match c
    case UdpSendCall(known, sockets, p, later, id) =>
      [L.AcqLock] + (if known then [L.Work] else CreateActs(cfg, p, sockets)) + [L.RelLock] +
      If(known || Create(cfg, p, id, sockets).1, UdpSendActs(cfg, later, id))
    case UdpClosedCall => Block + LockBlock
    case UdpCreatedCall => LockBlock
  }

  function Driver(cfg: Config, cs: seq<Callback>): L.Program {
    if cs == [] then [] else CallbackActs(cfg, cs[0]) + Driver(cfg, cs[1..])
  }

  // A round of the worker: it waits on the port, half a second at most, and then looks at the stop event.
  datatype Round = TimedOut | Took(completion: Handled)

  function RoundActs(cfg: Config, r: Round): L.Program {
    [L.Work] + (if r.Took? then HandlerActs(cfg, r.completion) else []) + [L.CheckStop]
  }

  // The completions that would come, and then only timeouts until the stop event is set.
  function Worker(cfg: Config, rs: seq<Round>): L.Program {
    if rs == [] then [L.AwaitStop] else RoundActs(cfg, rs[0]) + Worker(cfg, rs[1..])
  }

  // free of the event handler: the stop event, the wait for the worker, the two loops, then the contexts.
  const Stopper: L.Program := [L.SetStop, L.Join(1), L.Work] + LockBlock

  function System(cfg: Config, calls: seq<Callback>, rounds: seq<Round>): seq<L.Program> {
    [Driver(cfg, calls), Worker(cfg, rounds), Stopper]
  }

  // ---------------------------------------------------------------- they keep the discipline

  // p leaves a thread that may run it holding h with what it held.
  predicate Keeps(p: L.Program, h: L.Held, self: nat) {
    L.Ends(p, h, self) == h
  }

  lemma Then(p: L.Program, q: L.Program, h: L.Held, self: nat)
    requires Keeps(p, h, self) && Keeps(q, h, self)
    ensures Keeps(p + q, h, self)
  {
    L.Appended(p, q, h, self);
  }

  lemma BlockKeeps(h: L.Held, self: nat)
    requires h.Held?
    ensures Keeps(Block, h, self) && Keeps([L.Work], h, self) && Keeps([], h, self)
  {
    assert Keeps([L.Work], L.Held(h.lock, h.depth + 1), self);
    Inside([L.Work], h, self);
    assert Block == [L.AcqCs] + [L.Work] + [L.RelCs];
  }

  lemma LockBlockKeeps(self: nat)
    ensures Keeps(LockBlock, L.Nothing, self)
  {
    L.Appended([L.AcqLock] + [L.Work], [L.RelLock], L.Nothing, self);
    L.Appended([L.AcqLock], [L.Work], L.Nothing, self);
    assert LockBlock == [L.AcqLock] + [L.Work] + [L.RelLock];
  }

  // A program that keeps what is held keeps it inside m_cs.
  lemma Inside(p: L.Program, h: L.Held, self: nat)
    requires h.Held? && Keeps(p, L.Held(h.lock, h.depth + 1), self)
    ensures Keeps([L.AcqCs] + p + [L.RelCs], h, self)
  {
    L.Appended([L.AcqCs] + p, [L.RelCs], h, self);
    L.Appended([L.AcqCs], p, h, self);
  }

  lemma StartKeeps(isNew: bool, deleted: bool, h: L.Held, self: nat)
    requires h.Held?
    ensures Keeps(StartActs(isNew, deleted), h, self)
  {
    BlockKeeps(h, self);
    hide Keeps;
    Then(If(isNew, Block), [L.Work], h, self);
    Then(If(isNew, Block) + [L.Work], If(deleted, Block), h, self);
  }

  lemma UdpSendKeeps(cfg: Config, s: State, id: Id, h: L.Held, self: nat)
    requires h.Held?
    ensures Keeps(UdpSendActs(cfg, s, id), h, self)
  {
    var inner := L.Held(h.lock, h.depth + 1);
    BlockKeeps(inner, self);
    if id in s.conns && s.conns[id].state == PsConnected {
      var first := StartActs(true, cfg.net(s.calls).Lost?);
      var second := StartActs(true, cfg.net(s.calls + 1).Lost?);
      StartKeeps(true, cfg.net(s.calls).Lost?, inner, self);
      StartKeeps(true, cfg.net(s.calls + 1).Lost?, inner, self);
      hide Keeps, StartActs;
      Then(first, If(cfg.net(s.calls).Accepted? && !s.conns[id].recvStarted, second), inner, self);
      Inside(SendFrameActs(cfg, s, id), h, self);
    } else {
      hide Keeps;
      Inside([L.Work], h, self);
    }
  }

  lemma {:induction false} FlushKeeps(cfg: Config, s: State, id: Id, h: L.Held, self: nat)
    requires h.Held?
    ensures Keeps(FlushActs(cfg, s, id), h, self)
    decreases if id in s.conns then |s.conns[id].queue| else 0
  {
    if id in s.conns && s.conns[id].state == PsConnected && s.conns[id].queue != [] {
      var t := UdpSend(cfg, s, id, s.conns[id].queue[0]).0;
      var t' := SetConn(t, id, t.conns[id].(queue := t.conns[id].queue[1..]));
      UdpSendKeeps(cfg, s, id, h, self);
      FlushKeeps(cfg, t', id, h, self);
      Then(UdpSendActs(cfg, s, id), FlushActs(cfg, t', id), h, self);
    }
  }

  lemma CreateKeeps(cfg: Config, s: State, sockets: bool, h: L.Held, self: nat)
    requires h.Held?
    ensures Keeps(CreateActs(cfg, s, sockets), h, self)
  {
    BlockKeeps(h, self);
    var ok := cfg.net(s.calls + 2).Accepted?;
    StartKeeps(true, !ok, h, self);
    hide Keeps, StartActs;
    Then(Block, [L.Work], h, self);
    Then(Block + [L.Work], Block, h, self);
    Then(Block + [L.Work], StartActs(true, !ok), h, self);
    Then(Block + [L.Work] + StartActs(true, !ok), If(!ok, Block), h, self);
  }

  lemma TcpReplyKeeps(cfg: Config, c: Handled, h: L.Held, self: nat)
    requires h.Held? && c.id in c.s.conns
    ensures Keeps(TcpReplyActs(cfg, c.s, c.id, c.sends, c.relay), h, self)
  {
    BlockKeeps(h, self);
    StartKeeps(true, cfg.net(c.s.calls).Lost?, h, self);
    FlushKeeps(cfg, SetConn(c.s, c.id, c.s.conns[c.id].(relay := c.relay, state := PsConnected)), c.id, h, self);
  }

  /** The handlers of the worker: the call of the event handler, which takes `lock`, is made outside m_cs. */
  lemma HandlerKeeps(cfg: Config, c: Handled, self: nat)
    ensures Keeps(HandlerActs(cfg, c), L.Nothing, self)
  {
    var inner := L.Held(false, 1);
    BlockKeeps(L.Nothing, self);
    BlockKeeps(inner, self);
    LockBlockKeeps(self);
    StartKeeps(false, c.lost, L.Nothing, self);
    match c.kind
    case OvtTcpReceive =>
      var reply := if c.id in c.s.conns then TcpReplyActs(cfg, c.s, c.id, c.sends, c.relay) else [L.Work];
      if c.id in c.s.conns {
        TcpReplyKeeps(cfg, c, inner, self);
      }
      hide Keeps, TcpReplyActs, StartActs;
      Inside(reply, L.Nothing, self);
      Then([L.AcqCs] + reply + [L.RelCs], StartActs(false, c.lost), L.Nothing, self);
    case OvtUdpReceive =>
      hide Keeps, StartActs;
      Then(If(c.delivers, LockBlock), StartActs(false, c.lost), L.Nothing, self);
    case OvtConnect =>
      ConnectKeeps(cfg, c, self);
    case _ =>
  }

  lemma ConnectKeeps(cfg: Config, c: Handled, self: nat)
    requires c.kind.OvtConnect?
    ensures Keeps(HandlerActs(cfg, c), L.Nothing, self)
  {
    var inner := L.Held(false, 1);
    BlockKeeps(L.Nothing, self);
    BlockKeeps(inner, self);
    var first := StartActs(true, cfg.net(c.s.calls).Lost?);
    var second := StartActs(true, cfg.net(c.s.calls + 1).Lost?);
    StartKeeps(true, cfg.net(c.s.calls).Lost?, inner, self);
    StartKeeps(true, cfg.net(c.s.calls + 1).Lost?, inner, self);
    hide Keeps, StartActs;
    Then(Block, Block, L.Nothing, self);
    Then(first, second, inner, self);
    Then(If(c.id in c.s.conns, first + second), Block, inner, self);
    Inside(If(c.id in c.s.conns, first + second) + Block, L.Nothing, self);
    assert [L.AcqCs] + If(c.id in c.s.conns, first + second) + Block + [L.RelCs]
        == [L.AcqCs] + (If(c.id in c.s.conns, first + second) + Block) + [L.RelCs];
  }

  /** The callbacks of the driver: a connection is made inside `lock` and m_cs taken inside that, never the reverse. */
  lemma CallbackKeeps(cfg: Config, c: Callback, self: nat)
    ensures Keeps(CallbackActs(cfg, c), L.Nothing, self)
  {
    BlockKeeps(L.Nothing, self);
    LockBlockKeeps(self);
    match c
    case UdpSendCall(known, sockets, p, later, id) =>
      var inner := L.Held(true, 0);
      var made := if known then [L.Work] else CreateActs(cfg, p, sockets);
      BlockKeeps(inner, self);
      CreateKeeps(cfg, p, sockets, inner, self);
      L.Appended([L.AcqLock] + made, [L.RelLock], L.Nothing, self);
      L.Appended([L.AcqLock], made, L.Nothing, self);
      assert Keeps([L.AcqLock] + made + [L.RelLock], L.Nothing, self);
      UdpSendKeeps(cfg, later, id, L.Nothing, self);
      hide Keeps, CreateActs, UdpSendActs, Create;
      Then([L.AcqLock] + made + [L.RelLock], If(known || Create(cfg, p, id, sockets).1, UdpSendActs(cfg, later, id)),
          L.Nothing, self);
    case UdpClosedCall => Then(Block, LockBlock, L.Nothing, self);
    case UdpCreatedCall =>
  }

  lemma {:induction false} DriverKeeps(cfg: Config, cs: seq<Callback>)
    ensures Keeps(Driver(cfg, cs), L.Nothing, 0)
  {
    if cs != [] {
      CallbackKeeps(cfg, cs[0], 0);
      DriverKeeps(cfg, cs[1..]);
      Then(CallbackActs(cfg, cs[0]), Driver(cfg, cs[1..]), L.Nothing, 0);
    }
  }

  lemma {:induction false} WorkerKeeps(cfg: Config, rs: seq<Round>)
    ensures Keeps(Worker(cfg, rs), L.Nothing, 1)
  {
    BlockKeeps(L.Nothing, 1);
    assert Keeps([L.CheckStop], L.Nothing, 1) && Keeps([L.AwaitStop], L.Nothing, 1);
    if rs != [] {
      var handler := if rs[0].Took? then HandlerActs(cfg, rs[0].completion) else [];
      if rs[0].Took? {
        HandlerKeeps(cfg, rs[0].completion, 1);
      }
      WorkerKeeps(cfg, rs[1..]);
      hide Keeps, HandlerActs;
      Then([L.Work], handler, L.Nothing, 1);
      Then([L.Work] + handler, [L.CheckStop], L.Nothing, 1);
      Then([L.Work] + handler + [L.CheckStop], Worker(cfg, rs[1..]), L.Nothing, 1);
    }
  }

  lemma StopperKeeps()
    ensures Keeps(Stopper, L.Nothing, 2) && L.WillStop(Stopper)
  {
    LockBlockKeeps(2);
    var first: L.Program := [L.SetStop, L.Join(1), L.Work];
    assert Keeps([L.Work], L.Nothing, 2) && Keeps([L.Join(1)], L.Nothing, 2) && Keeps([L.SetStop], L.Nothing, 2);
    assert first == [L.SetStop] + [L.Join(1)] + [L.Work];
    hide Keeps;
    Then([L.SetStop], [L.Join(1)], L.Nothing, 2);
    Then([L.SetStop] + [L.Join(1)], [L.Work], L.Nothing, 2);
    Then(first, LockBlock, L.Nothing, 2);
  }

  lemma SystemDisciplined(cfg: Config, calls: seq<Callback>, rounds: seq<Round>)
    ensures L.AllDisciplined(System(cfg, calls, rounds)) && L.StopComes(L.Begin(System(cfg, calls, rounds)), 2)
  {
    DriverKeeps(cfg, calls);
    WorkerKeeps(cfg, rounds);
    StopperKeeps();
    hide Driver, Worker, L.Ends, L.WillStop;
  }

  /** Driver, worker and stopping thread never deadlock: whatever calls and completions there are, whichever branches
      they take and in whatever order the threads run, while one of them has anything left to do one can step. */
  lemma {:induction false} NeverDeadlocks(cfg: Config, calls: seq<Callback>, rounds: seq<Round>, order: seq<nat>,
      j: nat)
    requires var s := L.Begin(System(cfg, calls, rounds)); L.Feasible(s, order) && L.Busy(L.Run(s, order), j)
    ensures var t := L.Run(L.Begin(System(cfg, calls, rounds)), order); L.CanStep(t, L.Chosen(t, j, 2))
  {
    SystemDisciplined(cfg, calls, rounds);
    L.NoDeadlock(System(cfg, calls, rounds), order, j, 2);
  }

  /** And stopping finishes: every schedule is at most as long as the actions there are, and where it ends all three
      threads are through and both locks free. */
  lemma {:induction false} StopFinishes(cfg: Config, calls: seq<Callback>, rounds: seq<Round>, order: seq<nat>)
    requires L.Feasible(L.Begin(System(cfg, calls, rounds)), order)
    ensures var todo := System(cfg, calls, rounds);
            var t := L.Run(L.Begin(todo), order);
            && |order| + L.Total(t.todo) <= L.Total(todo)
            && ((forall i: nat :: !L.CanStep(t, i)) ==>
                 t.stop && t.lock.Nobody? && t.cs.Nobody? && forall j: nat :: !L.Busy(t, j))
  {
    SystemDisciplined(cfg, calls, rounds);
    L.AllFinish(System(cfg, calls, rounds), order, 2);
    WorkerUntilStop(cfg, rounds);
    hide Worker, Driver;
    L.LeavesOnStop(System(cfg, calls, rounds), order, 1);
    var t := L.Run(L.Begin(System(cfg, calls, rounds)), order);
    assert t.todo[1] != [] ==> L.Busy(t, 1);
  }

  // No program but the worker's own end waits for the stop event.
  predicate NoAwait(p: L.Program) {
    forall k | 0 <= k < |p| :: !p[k].AwaitStop?
  }

  lemma UdpSendNoAwait(cfg: Config, s: State, id: Id)
    ensures NoAwait(UdpSendActs(cfg, s, id))
  {
  }

  lemma JoinedNoAwait(p: L.Program, q: L.Program)
    requires NoAwait(p) && NoAwait(q)
    ensures NoAwait(p + q)
  {
  }

  lemma {:induction false} FlushNoAwait(cfg: Config, s: State, id: Id)
    ensures NoAwait(FlushActs(cfg, s, id))
    decreases if id in s.conns then |s.conns[id].queue| else 0
  {
    if id in s.conns && s.conns[id].state == PsConnected && s.conns[id].queue != [] {
      var t := UdpSend(cfg, s, id, s.conns[id].queue[0]).0;
      var t' := SetConn(t, id, t.conns[id].(queue := t.conns[id].queue[1..]));
      UdpSendNoAwait(cfg, s, id);
      FlushNoAwait(cfg, t', id);
      JoinedNoAwait(UdpSendActs(cfg, s, id), FlushActs(cfg, t', id));
      hide NoAwait, UdpSendActs, UdpSend;
    }
  }

  lemma TcpReplyNoAwait(cfg: Config, c: Handled)
    requires c.id in c.s.conns
    ensures NoAwait(TcpReplyActs(cfg, c.s, c.id, c.sends, c.relay))
  {
    FlushNoAwait(cfg, SetConn(c.s, c.id, c.s.conns[c.id].(relay := c.relay, state := PsConnected)), c.id);
    hide FlushActs;
  }

  lemma HandlerNoAwait(cfg: Config, c: Handled)
    ensures NoAwait(HandlerActs(cfg, c))
  {
    match c.kind
    case OvtTcpReceive =>
      var reply := if c.id in c.s.conns then TcpReplyActs(cfg, c.s, c.id, c.sends, c.relay) else [L.Work];
      if c.id in c.s.conns {
        TcpReplyNoAwait(cfg, c);
      }
      assert NoAwait([L.AcqCs]) && NoAwait([L.RelCs]) && NoAwait(StartActs(false, c.lost)) && NoAwait(reply);
      hide NoAwait, TcpReplyActs, StartActs;
      JoinedNoAwait([L.AcqCs], reply);
      JoinedNoAwait([L.AcqCs] + reply, [L.RelCs]);
      JoinedNoAwait([L.AcqCs] + reply + [L.RelCs], StartActs(false, c.lost));
    case _ =>
      hide TcpReplyActs;
  }

  lemma {:induction false} WorkerUntilStop(cfg: Config, rs: seq<Round>)
    ensures L.UntilStop(Worker(cfg, rs))
  {
    if rs != [] {
      WorkerUntilStop(cfg, rs[1..]);
      if rs[0].Took? {
        HandlerNoAwait(cfg, rs[0].completion);
      }
      hide HandlerActs;
      assert NoAwait(RoundActs(cfg, rs[0]));
    }
  }

  /** However many completions there are to come, the worker does not leave before the stop event is set, and once it
      is set leaves after at most the rest of the round it is in. */
  lemma {:induction false} WorkerStops(cfg: Config, calls: seq<Callback>, rounds: seq<Round>, order: seq<nat>,
      more: seq<nat>)
    requires var s := L.Begin(System(cfg, calls, rounds)); L.Feasible(s, order) && L.Feasible(L.Run(s, order), more)
    ensures var t := L.Run(L.Begin(System(cfg, calls, rounds)), order);
            && |t.todo| == 3 && (t.todo[1] == [] ==> t.stop)
            && (t.stop ==> L.StepsOf(more, 1) <= L.RoundLeft(t.todo[1]))
  {
    var todo := System(cfg, calls, rounds);
    WorkerUntilStop(cfg, rounds);
    hide Worker, Driver;
    L.LeavesOnStop(todo, order, 1);
    var t := L.Run(L.Begin(todo), order);
    if t.stop {
      L.RoundEnds(t, more, 1);
    }
  }

  /** Why the worker must call the event handler outside m_cs: any program that takes `lock` while it holds a lock can
      block for ever together with the driver making a connection, whatever that finds. */
  lemma InsideBlocks(cfg: Config, found: State, later: State, id: Id, p: L.Program, k: nat)
    requires k < |p| && p[k].AcqLock? && L.NoWait(p[..k])
    requires L.Ends(p[..k], L.Nothing, 1).Held? && L.Ends(p[..k], L.Nothing, 1) != L.Nothing
    ensures var s := L.Begin([CallbackActs(cfg, UdpSendCall(false, true, found, later, id)), p]);
            exists order :: L.Feasible(s, order) && L.Busy(L.Run(s, order), 0) && L.Busy(L.Run(s, order), 1) &&
                            forall i: nat :: !L.CanStep(L.Run(s, order), i)
  {
    var q := CallbackActs(cfg, UdpSendCall(false, true, found, later, id));
    var acts := CreateActs(cfg, found, true);
    assert acts[0] == L.AcqCs;
    assert q[0] == L.AcqLock && q[1] == acts[0];
    hide CallbackActs, CreateActs;
    L.LockInsideBlocks(q, p, k);
  }
}
