/** Every step of the UDP proxy keeps the invariant: the driver's calls and the worker's handlers. */
module ProxySteps {
  import opened Bytes
  import opened Socks
  import opened Operations
  import opened ProxyModel
  import opened ProxyInvariant

  // ---------------------------------------------------------------- the driver's calls

  /** A connection may be made again only when an earlier attempt left nothing behind. */
  lemma InsertOk(cfg: Config, s: State, id: Id)
    requires Inv(cfg, s) && id !in s.conns && NoOperation(s.cells, id)
    requires id in s.logs ==> s.logs[id] == EmptyLog
    ensures Inv(cfg, Insert(cfg, s, id))
  {
    var c := Conn(cfg.user, cfg.pass, PsNone, None, [], false);
    assert ConnOk(cfg, c, EmptyLog);
    hide CellsOk, ConnOk, LogOk;
    Agreed(cfg, s.conns, s.logs, id, c, EmptyLog, None, None);
  }

  // No operation was ever started for the connection, or all are gone.
  ghost predicate NoOperation(m: Cells, id: Id) {
    forall o | o in m.ops :: m.ops[o].id != id
  }

  lemma EraseOk(cfg: Config, s: State, id: Id)
    requires Inv(cfg, s)
    ensures Inv(cfg, Erase(s, id))
  {
    hide CellsOk, ConnOk, LogOk;
  }

  lemma RegisterIs(cfg: Config, s: State, id: Id)
    ensures var (t, ok) := Register(cfg, s, id);
            && t.conns == s.conns && t.logs == s.logs && t.delivered == s.delivered
            && (t.cells == s.cells || t.cells == NewConnect(s.cells, id, cfg.net(s.calls + 2)))
            && (ok ==> t.cells == NewConnect(s.cells, id, Accepted))
  {
    hide Start;
  }

  lemma RegisterOk(cfg: Config, s: State, id: Id)
    requires Inv(cfg, s) && id in s.conns && s.conns[id].state == PsNone && NoOperation(s.cells, id)
    ensures Inv(cfg, Register(cfg, s, id).0)
    ensures var t := Register(cfg, s, id).0;
            t.conns == s.conns && t.logs == s.logs && t.delivered == s.delivered && t.cells.hand == s.cells.hand
  {
    RegisterIs(cfg, s, id);
    var outcome := cfg.net(s.calls + 2);
    assert !SlotTaken(s.cells, id, TcpSlot);
    assert id in s.logs;
    NewConnectOk(s.cells, id, outcome);
    hide Buffered, Exclusive, Owned, Agree, Register, SlotTaken, NoOperation;
    StartTies(s.cells, s.conns, s.logs, OvData(id, OvtConnect, []), if outcome.Accepted? then Accepted else Lost);
    hide Ties, Start;
  }

  /** A datagram submitted before the relay is connected waits; afterwards its frame goes out at once. */
  lemma SubmitOk(cfg: Config, s: State, id: Id, d: Datagram)
    requires Inv(cfg, s)
    ensures Inv(cfg, Submit(cfg, s, id, d).0)
    ensures var t := Submit(cfg, s, id, d).0; t.cells.hand == s.cells.hand && t.delivered == s.delivered
  {
    if Taken(s, id, d) {
      Enqueued(cfg, s, id, d);
      if s.conns[id].state == PsConnected {
        SubmitSent(cfg, s, id, d);
      } else {
        hide InvDuring;
      }
    }
  }

  // The state with the datagram logged and at the end of the queue.
  ghost function Enqueue(s: State, id: Id, d: Datagram): State
    requires id in s.conns
  {
    var l := LogOf(s, id);
    SetConn(SetLog(s, id, l.(submitted := l.submitted + [d])), id, s.conns[id].(queue := s.conns[id].queue + [d]))
  }

  lemma Enqueued(cfg: Config, s: State, id: Id, d: Datagram)
    requires Inv(cfg, s) && Taken(s, id, d)
    ensures InvDuring(cfg, Enqueue(s, id, d), if s.conns[id].state == PsConnected then Some(id) else None)
  {
    var c := s.conns[id];
    var l := s.logs[id].(submitted := s.logs[id].submitted + [d]);
    var queued := c.(queue := c.queue + [d]);
    assert l.submitted[|l.udp|..] == queued.queue;
    assert ConnOk(cfg, queued, l);
    hide CellsOk, ConnOk, LogOk, Ties;
    Agreed(cfg, s.conns, s.logs, id, queued, l, None, if c.state == PsConnected then Some(id) else None);
    hide Agree;
    QueuedTies(s, id, queued, l);
  }

  lemma NothingQueued(cfg: Config, s: State, id: Id)
    requires Inv(cfg, s) && id in s.conns && s.conns[id].state == PsConnected
    ensures s.conns[id].queue == [] && id in s.logs
  {
    hide CellsOk, Ties, ConnOk, LogOk;
  }

  lemma SubmitSends(cfg: Config, s: State, id: Id, d: Datagram)
    requires Taken(s, id, d) && s.conns[id].state == PsConnected && id in s.logs
    ensures Submit(cfg, s, id, d)
            == SendFrame(cfg, SetLog(s, id, s.logs[id].(submitted := s.logs[id].submitted + [d])), id, d)
  {
    hide SendFrame;
  }

  lemma SubmitSent(cfg: Config, s: State, id: Id, d: Datagram)
    requires Inv(cfg, s) && Taken(s, id, d) && s.conns[id].state == PsConnected
    requires InvDuring(cfg, Enqueue(s, id, d), Some(id))
    ensures var t := Submit(cfg, s, id, d).0;
            Inv(cfg, t) && t.cells.hand == s.cells.hand && t.delivered == s.delivered
  {
    NothingQueued(cfg, s, id);
    SubmitSends(cfg, s, id, d);
    hide InvDuring, SendFrame, Submit;
    var c := s.conns[id];
    var u := Enqueue(s, id, d);
    var l := s.logs[id].(submitted := s.logs[id].submitted + [d]);
    assert c.queue + [d] == [d];
    SendFrameOk(cfg, u, id, d);
    SendIgnoresQueue(cfg, s, id, d, c.(queue := [d]), l);
    var t := SendFrame(cfg, u, id, d).0;
    assert u.conns[id].queue[1..] == [];
    SettledAfter(cfg, SetConn(t, id, t.conns[id].(queue := [])), id);
  }

  lemma QueuedTies(s: State, id: Id, c: Conn, l: Log)
    requires Ties(s.cells, s.conns, s.logs) && id in s.conns && c == s.conns[id].(queue := c.queue)
    ensures Ties(s.cells, s.conns[id := c], s.logs[id := l])
  {
    hide NoConnect;
    Retied(s.cells, s.conns, s.logs, s.conns[id := c], s.logs[id := l]);
  }

  // Sending does not look at the queue.
  lemma SendIgnoresQueue(cfg: Config, s: State, id: Id, d: Datagram, queued: Conn, l: Log)
    requires id in s.conns && id in s.logs && s.conns[id].queue == [] && queued == s.conns[id].(queue := [d])
    ensures var u := SendFrame(cfg, SetLog(SetConn(s, id, queued), id, l), id, d).0;
            SendFrame(cfg, SetLog(s, id, l), id, d).0 == SetConn(u, id, u.conns[id].(queue := []))
  {
    var c := s.conns[id];
    hide NewSend, NewReceive, Frame;
    var v := SetLog(SetConn(s, id, queued), id, l);
    var u := SendFrame(cfg, v, id, d).0;
    var t := SendFrame(cfg, SetLog(s, id, l), id, d).0;
    UpdatedTwice(s.conns, id, queued, c);
    UpdatedTwice(s.conns, id, queued, c.(recvStarted := true));
    UpdatedTwice(s.conns, id, queued, queued.(recvStarted := true));
    UpdatedTwice(s.conns, id, queued.(recvStarted := true), c.(recvStarted := true));
    assert s.conns[id := c] == s.conns;
  }

  lemma SettledAfter(cfg: Config, s: State, id: Id)
    requires InvDuring(cfg, s, Some(id)) && id in s.conns && s.conns[id].queue == []
    ensures Inv(cfg, s)
  {
    hide CellsOk, Ties, ConnOk, LogOk;
  }

  // ---------------------------------------------------------------- the worker's handlers

  lemma TakeStepOk(cfg: Config, s: State, op: Op, data: seq<byte>, failed: bool)
    requires Inv(cfg, s) && CanTake(s.cells, op, data, failed)
    ensures var t := s.(cells := Take(s.cells, op, data, failed)); Inv(cfg, t) && HandReady(t.cells)
  {
    TakeOk(s.cells, op, data, failed);
    hide Take, Agree, CanTake;
    var m := Take(s.cells, op, data, failed);
    forall o | o in m.ops
      ensures Tied(m.ops[o], s.conns, s.logs)
    {
      assert Tied(s.cells.ops[o], s.conns, s.logs);
    }
    TakeInHand(s.cells, op, data, failed);
  }

  lemma TakeInHand(m: Cells, op: Op, data: seq<byte>, failed: bool)
    requires CanTake(m, op, data, failed)
    ensures Take(m, op, data, failed).hand == Some(Hand(op, |data|, failed, true))
  {
  }

  lemma HandDoneOk(m: Cells)
    requires CellsOk(m) && m.hand.Some?
    ensures CellsOk(HandDone(m)) && HandReady(HandDone(m))
  {
    var t := HandDone(m);
    forall o: Op
      ensures Completions(t, o) == if o in t.ops then 1 else 0
    {
      assert Completions(m, o) == if o in m.ops then 1 else 0;
    }
  }

  lemma FinishOk(cfg: Config, s: State)
    requires Inv(cfg, s) && HandReady(s.cells)
    ensures Inv(cfg, Finish(cfg, s)) && Finish(cfg, s).cells.hand.None?
  {
    ReleaseOk(s.cells, cfg.net(s.calls));
    DropOk(cfg, s);
    hide CellsOk, Agree;
  }

  lemma DropOk(cfg: Config, s: State)
    requires Inv(cfg, s) && s.cells.hand.Some? && s.cells.hand.value.op in s.cells.ops
    ensures var t := Drop(s);
            Inv(cfg, t) && t.cells.hand.None? && t.cells.ops == s.cells.ops - {s.cells.hand.value.op}
    ensures var t := Drop(s); t.conns == s.conns && t.logs == s.logs && t.delivered == s.delivered
  {
    ReleaseOk(s.cells, Lost);
    hide CellsOk, Agree;
  }

  // Starting an operation and deleting the one in hand can be swapped.
  lemma StartDrop(m: Cells, d: OvData, outcome: Outcome)
    requires CellsOk(m) && m.hand.Some?
    ensures var op := m.hand.value.op;
            Free(Start(m, d, outcome).(hand := None), op) == Start(Free(m.(hand := None), op), d, outcome)
  {
    NewAddress(m);
    HeldOnce(m);
    var op := m.hand.value.op;
    hide CellsOk;
    assert m.ops[m.next := d] - {op} == (m.ops - {op})[m.next := d];
    if outcome.Lost? {
      StartLost(m, d);
      StartLost(Free(m.(hand := None), op), d);
      assert m.freed + multiset{m.next} + multiset{op} == m.freed + multiset{op} + multiset{m.next};
    }
  }

  lemma StartLost(m: Cells, d: OvData)
    requires m.next !in m.ops
    ensures Start(m, d, Lost) == m.(next := m.next + 1, freed := m.freed + multiset{m.next})
  {
    assert m.ops[m.next := d] - {m.next} == m.ops;
  }

  /** A connect that succeeded: the greeting goes out, and with it the state moves on or not; one receive is started. */
  lemma ConnectedOk(cfg: Config, s: State, id: Id)
    requires Inv(cfg, s) && id in s.conns && s.conns[id].state == PsNone
    requires NoConnect(s.cells, id) && !SlotTaken(s.cells, id, TcpSlot)
    ensures var t := Connected(cfg, s, id); Inv(cfg, t) && t.delivered == s.delivered && t.cells.hand == s.cells.hand
    ensures ConnectedSays(cfg, s, id, Connected(cfg, s, id))
    ensures SlotTaken(Connected(cfg, s, id).cells, id, TcpSlot) <==> !cfg.net(s.calls + 1).Lost?
  {
    assert [] + [Greeting(cfg.user)] == [Greeting(cfg.user)];
    assert s.conns[id].user == cfg.user && s.logs[id].tcp == [];
    GreetingOk(cfg, s, id);
    hide SendThen, CellsOk, ConnOk, LogOk, Ties, Greeting, SlotTaken, Agree;
    var t := SendThen(cfg, s, id, Greeting(cfg.user), PsAuth);
    hide Inv, InvDuring;
    ReceiveOk(cfg, t, id);
  }

  // The greeting was accepted by the socket and the state moved on, or neither.
  predicate ConnectedSays(cfg: Config, s: State, id: Id, t: State) {
    && id in s.logs && id in t.conns && id in t.logs
    && s.logs[id].tcp == []
    && if cfg.net(s.calls).Accepted? then t.conns[id].state == PsAuth && t.logs[id].tcp == [Greeting(cfg.user)]
       else t.conns[id].state == PsNone && t.logs[id].tcp == []
  }

  lemma GreetingOk(cfg: Config, s: State, id: Id)
    requires Inv(cfg, s) && id in s.conns && s.conns[id].state == PsNone
    requires NoConnect(s.cells, id) && !SlotTaken(s.cells, id, TcpSlot)
    requires id in s.logs && s.logs[id].tcp == []
    ensures var t := SendThen(cfg, s, id, Greeting(cfg.user), PsAuth);
            && Inv(cfg, t) && t.cells.hand == s.cells.hand && t.delivered == s.delivered && t.calls == s.calls + 1
            && ConnectedSays(cfg, s, id, t) && !SlotTaken(t.cells, id, TcpSlot)
  {
    assert [] + [Greeting(cfg.user)] == [Greeting(cfg.user)];
    SendThenOk(cfg, s, id, Greeting(cfg.user), PsAuth);
    SendThenIs(cfg, s, id, Greeting(cfg.user), PsAuth);
    hide SendThen, InvDuring, Greeting, SlotTaken, NewSend;
  }

  lemma ReceiveOk(cfg: Config, s: State, id: Id)
    requires Inv(cfg, s) && id in s.logs && !SlotTaken(s.cells, id, TcpSlot)
    ensures var t := StartReceive(cfg, s, id, OvtTcpReceive);
            && Inv(cfg, t) && t.cells.hand == s.cells.hand
            && t == s.(cells := t.cells, calls := s.calls + 1)
            && (SlotTaken(t.cells, id, TcpSlot) <==> !cfg.net(s.calls).Lost?)
  {
    hide CellsOk, Ties, SlotTaken, Agree;
    ReceiveTies(s.cells, s.conns, s.logs, id, OvtTcpReceive, cfg.net(s.calls));
    SlotFilled(s.cells, id, cfg.net(s.calls));
  }

  lemma SlotFilled(m: Cells, id: Id, outcome: Outcome)
    requires CellsOk(m) && !SlotTaken(m, id, TcpSlot)
    ensures SlotTaken(NewReceive(m, id, OvtTcpReceive, outcome), id, TcpSlot) <==> !outcome.Lost?
  {
    var d := OvData(id, OvtTcpReceive, EmptyPacket());
    StartOk(m, d, outcome);
    hide CellsOk, Start;
    if !outcome.Lost? {
      assert m.next in Start(m, d, outcome).ops && SlotOf(Start(m, d, outcome).ops[m.next]) == TcpSlot;
    }
  }

  // The deletion of the connect at the end of the block could as well come first.
  lemma ConnectedDrop(cfg: Config, s: State, id: Id)
    requires Inv(cfg, s) && id in s.conns && s.cells.hand.Some?
    ensures var t := Connected(cfg, s, id);
            t.cells.hand == s.cells.hand && Drop(t) == Connected(cfg, Drop(s), id)
  {
    var msg := Greeting(s.conns[id].user);
    assert id in s.logs;
    hide Agree, ConnOk, Greeting;
    SendThenDrop(cfg, s, id, msg);
    var u := SendThen(cfg, s, id, msg, PsAuth);
    hide SendThen, CellsOk;
    var e := OvData(id, OvtTcpReceive, EmptyPacket());
    StartDrop(u.cells, e, cfg.net(u.calls));
    SameHand(u.cells, e, cfg.net(u.calls));
    hide Start;
  }

  lemma SendThenDrop(cfg: Config, s: State, id: Id, msg: seq<byte>)
    requires CellsOk(s.cells) && Ties(s.cells, s.conns, s.logs) && id in s.conns && id in s.logs && s.cells.hand.Some?
    ensures var u := SendThen(cfg, s, id, msg, PsAuth);
            CellsOk(u.cells) && u.cells.hand == s.cells.hand && Drop(u) == SendThen(cfg, Drop(s), id, msg, PsAuth)
  {
    var out := cfg.net(s.calls);
    SendThenIs(cfg, s, id, msg, PsAuth);
    SendThenIs(cfg, Drop(s), id, msg, PsAuth);
    var d := if out.Accepted? then OvData(id, OvtTcpSend, msg) else OvData(id, OvtTcpReceive, []);
    StartDrop(s.cells, d, out);
    SendTies(s.cells, s.conns, s.logs, id, OvtTcpSend, msg, out);
    hide CellsOk, Ties, Start, SendThen;
  }

  /** Each handler keeps the invariant, and its completion stays in hand until it is armed again or deleted. */
  lemma BodyOk(cfg: Config, s: State)
    requires Inv(cfg, s) && HandReady(s.cells)
    ensures var t := Body(cfg, s); Inv(cfg, t) && (HandReady(t.cells) || t.cells.hand.None?)
  {
    var h := s.cells.hand.value;
    var d := s.cells.ops[h.op];
    var t := s.(cells := HandDone(s.cells));
    HandDoneOk(s.cells);
    assert Inv(cfg, t);
    match d.kind
    case OvtTcpReceive =>
      if h.n > 0 && d.id in s.conns {
        hide InvDuring, TcpReply;
        TcpReplyOk(cfg, t, d.id, h.n, d.buffer);
        InvHand(cfg, TcpReply(cfg, t, d.id, h.n, d.buffer));
      }
    case OvtConnect =>
      hide Connected, Drop;
      if h.failed {
        hide InvDuring;
        EraseOk(cfg, t, d.id);
      } else {
        ConnectBodyOk(cfg, t);
      }
    case _ =>
      hide InvDuring, Unframe;
      DeliveredMore(cfg, t, Body(cfg, s));
  }

  // A connect that succeeded is deleted by its handler; every other operation is still in hand.
  lemma BodyHand(cfg: Config, s: State)
    requires Inv(cfg, s) && HandReady(s.cells)
    ensures var h := s.cells.hand.value;
            Body(cfg, s).cells.hand ==
            if s.cells.ops[h.op].kind.OvtConnect? && !h.failed then None else Some(h.(body := false))
  {
    var h := s.cells.hand.value;
    var d := s.cells.ops[h.op];
    var t := s.(cells := HandDone(s.cells));
    HandDoneOk(s.cells);
    assert Inv(cfg, t);
    hide InvDuring, TcpReply, Connected, Unframe;
    if d.kind.OvtTcpReceive? && h.n > 0 && d.id in s.conns {
      TcpReplyOk(cfg, t, d.id, h.n, d.buffer);
    }
  }

  lemma DeliveredMore(cfg: Config, s: State, t: State)
    requires Inv(cfg, s) && t == s.(delivered := t.delivered)
    ensures Inv(cfg, t)
  {
  }

  lemma InvHand(cfg: Config, s: State)
    requires Inv(cfg, s) && s.cells.hand.Some?
    ensures HandReady(s.cells)
  {
  }

  lemma ConnectBodyOk(cfg: Config, s: State)
    requires Inv(cfg, s) && HandReady(s.cells)
    requires s.cells.ops[s.cells.hand.value.op].kind.OvtConnect?
    ensures var id := s.cells.ops[s.cells.hand.value.op].id;
            var t := if id in s.conns then Connected(cfg, s, id) else s;
            t.cells.hand.Some? && Inv(cfg, Drop(t)) && Drop(t).cells.hand.None? && Drop(t).delivered == s.delivered
  {
    var op := s.cells.hand.value.op;
    var id := s.cells.ops[op].id;
    DropOk(cfg, s);
    if id in s.conns {
      var u := Drop(s);
      assert Tied(s.cells.ops[op], s.conns, s.logs);
      ConnectGone(s.cells, op);
      ConnectedDrop(cfg, s, id);
      hide InvDuring, Connected, Drop;
      assert u.cells.ops == s.cells.ops - {op};
      GoneAfter(s.cells, u.cells, op);
      ConnectedOk(cfg, u, id);
    }
  }

  // The connect is the only operation of its connection that connects or reads the TCP stream.
  lemma ConnectGone(m: Cells, op: Op)
    requires CellsOk(m) && op in m.ops && m.ops[op].kind.OvtConnect?
    ensures forall o | o in m.ops && o != op && m.ops[o].id == m.ops[op].id :: !SlotOf(m.ops[o]).TcpSlot?
  {
  }

  lemma GoneAfter(m: Cells, t: Cells, op: Op)
    requires op in m.ops && t.ops == m.ops - {op}
    requires forall o | o in m.ops && o != op && m.ops[o].id == m.ops[op].id :: !SlotOf(m.ops[o]).TcpSlot?
    ensures NoConnect(t, m.ops[op].id) && !SlotTaken(t, m.ops[op].id, TcpSlot)
  {
  }

  /** A handler from the completion it is given to the cell armed again or deleted. */
  lemma HandleOk(cfg: Config, s: State)
    requires Inv(cfg, s) && HandReady(s.cells)
    ensures Inv(cfg, Handle(cfg, s)) && Handle(cfg, s).cells.hand.None?
  {
    BodyOk(cfg, s);
    hide InvDuring, Body, Finish;
    var t := Body(cfg, s);
    if HandReady(t.cells) {
      FinishOk(cfg, t);
    }
  }
}
