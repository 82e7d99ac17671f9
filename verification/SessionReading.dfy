/**
 * Once the first frame has gone to the relay its answers are read for as long as the connection is there: in every run
 * an endpoint that has started reading its UDP socket has an operation that reads it, unless such a read has brought
 * nothing or could not be started or started again.
 */
module SessionReading {
  import opened Bytes
  import opened Socks
  import opened Operations
  import opened ProxyModel
  import opened ProxyInvariant
  import opened ProxySteps
  import opened ProxyHistory
  import opened ProxyCompletions
  import opened Session
  import opened SessionProof
  import opened SessionHistory

  // o reads the UDP socket of this endpoint, or has brought data and is to read it again.
  predicate ReadsAt(m: Cells, id: Id, o: Op) {
    && o in m.ops && m.ops[o].id == id && m.ops[o].kind == OvtUdpReceive && |m.ops[o].buffer| == 65536
    && (m.hand.Some? && m.hand.value.op == o ==> m.hand.value.n > 0)
  }

  ghost predicate IsRead(m: Cells, id: Id) {
    exists o :: ReadsAt(m, id, o)
  }

  predicate Started(s: State, id: Id) {
    id in s.conns && s.conns[id].recvStarted
  }

  // Call j was accepted, and the one after it could not be made.
  predicate LostAfter(cfg: Config, j: nat) {
    cfg.net(j).Accepted? && cfg.net(j + 1).Lost?
  }

  ghost predicate NoneAccepted(cfg: Config, from: nat, to: nat) {
    forall k | from <= k < to :: !cfg.net(k).Accepted?
  }

  // Among these calls the first that was accepted, a frame's, is followed by one that could not be made: its read.
  ghost predicate FirstReadLost(cfg: Config, from: nat, to: nat) {
    exists j | from <= j < to - 1 :: LostAfter(cfg, j) && NoneAccepted(cfg, from, j)
  }

  // ---------------------------------------------------------------- the proxy's steps

  lemma ExtendsRead(m: Cells, m': Cells, id: Id)
    requires Owned(m) && Extends(m, m') && IsRead(m, id)
    ensures IsRead(m', id)
  {
    var o :| ReadsAt(m, id, o);
    assert ReadsAt(m', id, o);
  }

  lemma PendingRead(m: Cells, id: Id, o: Op, outcome: Outcome)
    requires Pending(m, o, OvData(id, OvtUdpReceive, EmptyPacket()), outcome) && !outcome.Lost?
    requires m.hand.Some? ==> m.hand.value.op < o
    ensures IsRead(m, id)
  {
    assert ReadsAt(m, id, o);
  }

  lemma FrameReads(cfg: Config, s: State, id: Id, d: Datagram)
    requires CellsOk(s.cells) && id in s.conns && id in s.logs && (Started(s, id) ==> IsRead(s.cells, id))
    ensures var t := SendFrame(cfg, s, id, d).0;
            && s.calls < t.calls && id in t.conns && id in t.logs
            && (Started(t, id) ==> IsRead(t.cells, id) || FirstReadLost(cfg, s.calls, t.calls))
            && (!Started(t, id) ==> t.calls == s.calls + 1 && !cfg.net(s.calls).Accepted?)
  {
    FrameGiven(cfg, s, id, d);
    SendFrameExtends(cfg, s, id, d);
    var (t, ok) := SendFrame(cfg, s, id, d);
    if Started(s, id) {
      hide CellsOk, Extends, SendFrame, Pending;
      assert Owned(s.cells);
      ExtendsRead(s.cells, t.cells, id);
    } else if ok {
      NewAddress(s.cells);
      hide CellsOk, SendFrame, Pending, EmptyPacket;
      if cfg.net(s.calls + 1).Lost? {
        assert LostAfter(cfg, s.calls) && NoneAccepted(cfg, s.calls, s.calls);
      } else {
        PendingRead(t.cells, id, s.cells.next + 1, cfg.net(s.calls + 1));
      }
    }
  }

  // The first frame of a flush that is accepted starts the read, and the frames after it leave it there.
  lemma {:induction false} FlushReads(cfg: Config, s: State, id: Id)
    requires InvDuring(cfg, s, Some(id)) && id in s.conns && s.conns[id].state == PsConnected
    requires Started(s, id) ==> IsRead(s.cells, id)
    ensures var t := Flush(cfg, s, id);
            Started(t, id) ==> IsRead(t.cells, id) || FirstReadLost(cfg, s.calls, t.calls)
    decreases |s.conns[id].queue|
  {
    var q := s.conns[id].queue;
    if q != [] {
      var t := UdpSend(cfg, s, id, q[0]).0;
      SendFrameOk(cfg, s, id, q[0]);
      DuringCells(cfg, s, id);
      FrameReads(cfg, s, id, q[0]);
      hide SendFrame, InvDuring, FirstReadLost, IsRead;
      assert t.conns[id].queue == q;
      var u := SetConn(t, id, t.conns[id].(queue := q[1..]));
      if Started(u, id) && !IsRead(u.cells, id) {
        FlushCalls(cfg, u, id);
        LaterLost(cfg, s.calls, t.calls, Flush(cfg, u, id).calls);
      } else {
        FlushReads(cfg, u, id);
        if !Started(u, id) && FirstReadLost(cfg, u.calls, Flush(cfg, u, id).calls) {
          EarlierLost(cfg, s.calls, Flush(cfg, u, id).calls);
        } else if Started(u, id) {
          StaysRead(cfg, u, id);
        }
      }
    }
  }

  lemma StaysRead(cfg: Config, s: State, id: Id)
    requires InvDuring(cfg, s, Some(id)) && IsRead(s.cells, id)
    ensures IsRead(Flush(cfg, s, id).cells, id)
  {
    DuringCells(cfg, s, id);
    FlushExtends(cfg, s, id);
    hide InvDuring, Flush, Extends, IsRead, Buffered, Exclusive, Owned;
    ExtendsRead(s.cells, Flush(cfg, s, id).cells, id);
  }

  lemma DuringCells(cfg: Config, s: State, id: Id)
    requires InvDuring(cfg, s, Some(id))
    ensures CellsOk(s.cells) && (id in s.conns ==> id in s.logs)
  {
    hide CellsOk, Ties, ConnOk, LogOk;
  }

  lemma LaterLost(cfg: Config, from: nat, mid: nat, to: nat)
    requires FirstReadLost(cfg, from, mid) && mid <= to
    ensures FirstReadLost(cfg, from, to)
  {
    var j :| from <= j < mid - 1 && LostAfter(cfg, j) && NoneAccepted(cfg, from, j);
    assert j < to - 1;
  }

  lemma EarlierLost(cfg: Config, from: nat, to: nat)
    requires FirstReadLost(cfg, from + 1, to) && !cfg.net(from).Accepted?
    ensures FirstReadLost(cfg, from, to)
  {
    var j :| from + 1 <= j < to - 1 && LostAfter(cfg, j) && NoneAccepted(cfg, from + 1, j);
    assert NoneAccepted(cfg, from, j);
  }

  lemma ReplyReads(cfg: Config, s: State, id: Id, n: nat, buffer: Packet)
    requires Inv(cfg, s) && id in s.conns && (Started(s, id) ==> IsRead(s.cells, id))
    ensures var t := TcpReply(cfg, s, id, n, buffer);
            Started(t, id) ==> IsRead(t.cells, id) || (!Started(s, id) && FirstReadLost(cfg, s.calls, t.calls))
  {
    if Started(s, id) {
      CellsOfInv(cfg, s);
      CellsOwned(s.cells);
      TcpReplyExtends(cfg, s, id, n, buffer);
      hide InvDuring, TcpReply, Extends, IsRead, CellsOk, Owned;
      ExtendsRead(s.cells, TcpReply(cfg, s, id, n, buffer).cells, id);
    } else {
      ReplyStarts(cfg, s, id, n, buffer);
    }
  }

  lemma ReplyStarts(cfg: Config, s: State, id: Id, n: nat, buffer: Packet)
    requires Inv(cfg, s) && id in s.conns && !Started(s, id)
    ensures var t := TcpReply(cfg, s, id, n, buffer);
            Started(t, id) ==> IsRead(t.cells, id) || FirstReadLost(cfg, s.calls, t.calls)
  {
    var c := s.conns[id];
    UserHere(cfg, s, id);
    hide InvDuring, SendThen, Flush, ReplyRelay, UserPass, IsRead, FirstReadLost, NewSend;
    match c.state
    case PsAuth =>
      SendThenIs(cfg, s, id, UserPass(c.user, c.pass), PsAuthNegotiation);
      SendThenIs(cfg, s, id, Associate, PsUdpAssoc);
    case PsAuthNegotiation => SendThenIs(cfg, s, id, Associate, PsUdpAssoc);
    case PsUdpAssoc =>
      if ReplyRelay(cfg.proxy, buffer).Some? {
        var relay := ReplyRelay(cfg.proxy, buffer).value;
        RelaySet(cfg, s, id, relay);
        FlushReads(cfg, SetConn(s, id, c.(relay := Some(relay), state := PsConnected)), id);
      }
    case _ =>
  }

  // ---------------------------------------------------------------- a handler

  lemma BodyReads(cfg: Config, s: State, id: Id)
    requires Inv(cfg, s) && HandReady(s.cells) && (Started(s, id) ==> IsRead(s.cells, id))
    ensures var t := Body(cfg, s);
            Started(t, id) ==> IsRead(t.cells, id) || (!Started(s, id) && FirstReadLost(cfg, s.calls, t.calls))
  {
    var h := s.cells.hand.value;
    var d := s.cells.ops[h.op];
    var u := s.(cells := HandDone(s.cells));
    HandDoneOk(s.cells);
    assert Inv(cfg, u);
    if d.kind.OvtTcpReceive? && h.n > 0 && d.id == id && id in s.conns {
      hide InvDuring, TcpReply, IsRead, FirstReadLost, HandReady;
      DoneRead(s.cells, id);
      ReplyReads(cfg, u, id, h.n, d.buffer);
    } else {
      NotStarted(cfg, s, id);
      if IsRead(s.cells, id) {
        BodyKeepsRead(cfg, s, id);
      }
      hide InvDuring, Body, IsRead, FirstReadLost;
    }
  }

  lemma DoneRead(m: Cells, id: Id)
    requires m.hand.Some?
    ensures IsRead(HandDone(m), id) <==> IsRead(m, id)
  {
    assert forall o :: ReadsAt(HandDone(m), id, o) <==> ReadsAt(m, id, o);
  }

  // Only a reply on its own TCP stream can start the read of an endpoint.
  lemma NotStarted(cfg: Config, s: State, id: Id)
    requires Inv(cfg, s) && HandReady(s.cells)
    requires var h := s.cells.hand.value; var d := s.cells.ops[h.op];
             !(d.kind.OvtTcpReceive? && h.n > 0 && d.id == id && id in s.conns)
    ensures Started(Body(cfg, s), id) ==> Started(s, id)
  {
    var h := s.cells.hand.value;
    var d := s.cells.ops[h.op];
    var u := s.(cells := HandDone(s.cells));
    HandTied(cfg, s);
    if d.id != id {
      BodyMoves(cfg, s);
      hide InvDuring, Body, OpsApart;
    } else {
      hide InvDuring, TcpReply, Unframe, SendThen;
      if d.kind.OvtConnect? && !h.failed && id in s.conns {
        SendThenIs(cfg, u, id, Greeting(s.conns[id].user), PsAuth);
      }
    }
  }

  lemma BodyKeepsRead(cfg: Config, s: State, id: Id)
    requires Inv(cfg, s) && HandReady(s.cells) && IsRead(s.cells, id)
    ensures IsRead(Body(cfg, s).cells, id)
  {
    var h := s.cells.hand.value;
    var d := s.cells.ops[h.op];
    var u := s.(cells := HandDone(s.cells));
    HandDoneOk(s.cells);
    assert Owned(u.cells);
    DoneRead(s.cells, id);
    hide InvDuring, IsRead;
    if IsReceive(d.kind) {
      BodyExtends(cfg, s);
      hide Body;
      ExtendsRead(u.cells, Body(cfg, s).cells, id);
    } else if d.kind.OvtConnect? && !h.failed {
      ConnectKeepsRead(cfg, u, id);
    }
  }

  lemma ConnectKeepsRead(cfg: Config, s: State, id: Id)
    requires Owned(s.cells) && HandReady(s.cells) && s.cells.ops[s.cells.hand.value.op].kind.OvtConnect?
    requires IsRead(s.cells, id)
    ensures var i := s.cells.ops[s.cells.hand.value.op].id;
            IsRead(Drop(if i in s.conns then Connected(cfg, s, i) else s).cells, id)
  {
    var op := s.cells.hand.value.op;
    var i := s.cells.ops[op].id;
    HandReal(s.cells);
    if i in s.conns {
      var msg := Greeting(s.conns[i].user);
      var t := SendThen(cfg, s, i, msg, PsAuth);
      SendThenExtends(cfg, s, i, msg, PsAuth);
      StartExtends(t.cells, OvData(i, OvtTcpReceive, EmptyPacket()), cfg.net(t.calls));
      var u := Connected(cfg, s, i);
      hide Owned, SendThen, Start, EmptyPacket;
      ExtendsOn(s.cells, t.cells, u.cells);
      ExtendsRead(s.cells, u.cells, id);
      DropOther(u.cells, op, id);
    } else {
      DropOther(s.cells, op, id);
    }
  }

  // Deleting another operation than a read.
  lemma DropOther(m: Cells, op: Op, id: Id)
    requires IsRead(m, id) && (op in m.ops ==> !m.ops[op].kind.OvtUdpReceive?)
    ensures IsRead(Free(m.(hand := None), op), id)
  {
    var o :| ReadsAt(m, id, o);
    assert ReadsAt(Free(m.(hand := None), op), id, o);
  }

  // The read of the UDP socket in hand has data and cannot be started again.
  predicate ReadLost(cfg: Config, s: State, id: Id)
    requires HandReady(s.cells)
  {
    var h := s.cells.hand.value;
    var d := s.cells.ops[h.op];
    d.id == id && d.kind.OvtUdpReceive? && h.n > 0 && cfg.net(s.calls).Lost?
  }

  lemma FinishReads(cfg: Config, s: State, id: Id)
    requires HandReady(s.cells) && IsRead(s.cells, id) && !ReadLost(cfg, s, id)
    ensures IsRead(Finish(cfg, s).cells, id)
  {
    var o :| ReadsAt(s.cells, id, o);
    assert ReadsAt(Finish(cfg, s).cells, id, o);
  }

  lemma TakeReads(m: Cells, op: Op, data: seq<byte>, failed: bool, id: Id)
    requires CanTake(m, op, data, failed) && IsRead(m, id) && !(ReadsAt(m, id, op) && data == [])
    ensures IsRead(Take(m, op, data, failed), id)
  {
    TakeEffect(m, op, data, failed);
    var o :| ReadsAt(m, id, o);
    hide Take;
    assert ReadsAt(Take(m, op, data, failed), id, o);
  }

  // ---------------------------------------------------------------- the driver's calls

  lemma SubmitReads(cfg: Config, s: State, i: Id, d: Datagram, id: Id)
    requires Inv(cfg, s) && (Started(s, id) ==> IsRead(s.cells, id))
    ensures var t := Submit(cfg, s, i, d).0;
            Started(t, id) ==> IsRead(t.cells, id) || (!Started(s, id) && FirstReadLost(cfg, s.calls, t.calls))
  {
    if i in s.conns && s.conns[i].state == PsConnected {
      CellsOfInv(cfg, s);
      CellsOwned(s.cells);
      UserHere(cfg, s, i);
      SubmitSends(cfg, s, i, d);
      hide InvDuring, SendFrame, Submit, IsRead, FirstReadLost, CellsOk, Owned;
      var u := SetLog(s, i, s.logs[i].(submitted := s.logs[i].submitted + [d]));
      SendFrameExtends(cfg, u, i, d);
      SendFrameIs(cfg, u, i, d);
      if Started(s, id) {
        ExtendsRead(s.cells, SendFrame(cfg, u, i, d).0.cells, id);
      } else if id == i {
        FrameReads(cfg, u, i, d);
      }
    } else {
      hide InvDuring, SendFrame, IsRead, FirstReadLost;
    }
  }

  lemma CellsOwned(m: Cells)
    requires CellsOk(m)
    ensures Owned(m)
  {
    hide Owned, Buffered, Exclusive;
  }

  lemma RegisterReads(cfg: Config, s: State, i: Id, id: Id)
    requires Inv(cfg, s) && IsRead(s.cells, id)
    ensures IsRead(Register(cfg, s, i).0.cells, id)
  {
    RegisterIs(cfg, s, i);
    CellsOfInv(cfg, s);
    CellsOwned(s.cells);
    var outcome := cfg.net(s.calls + 2);
    var d := OvData(i, OvtConnect, []);
    StartExtends(s.cells, d, if outcome.Accepted? then Accepted else Lost);
    hide InvDuring, Register, Start, CellsOk, Extends, IsRead, Owned;
    if Register(cfg, s, i).0.cells != s.cells {
      ExtendsRead(s.cells, Register(cfg, s, i).0.cells, id);
    }
  }

  // ---------------------------------------------------------------- runs

  // The first frame to the relay has been accepted in this step.
  predicate Starts(w: World, t: World, id: Id) {
    !Started(w.p, id) && Started(t.p, id)
  }

  // What ends the reading of an endpoint's UDP socket: its read brought nothing; what it brought was handed on, and it
  // could not be started again; or the read that goes with the first frame could not be started.
  ghost predicate Ends(cfg: Config, w: World, e: Event, id: Id) {
    Enabled(w, e) &&
    match e
    case Completion(op, data, _) => ReadsAt(w.p.cells, id, op) && data == []
    case Settled => ReadLost(cfg, w.p, id)
    case Send => Starts(w, Step(cfg, w, e), id) && FirstReadLost(cfg, w.p.calls, Step(cfg, w, e).p.calls)
    case Work => Starts(w, Step(cfg, w, e), id) && FirstReadLost(cfg, w.p.calls, Step(cfg, w, e).p.calls)
    case _ => false
  }

  ghost predicate Ended(cfg: Config, es: seq<Event>, id: Id) {
    es != [] && var before := es[..|es| - 1];
                Ended(cfg, before, id) || Ends(cfg, Run(cfg, Begin, before), es[|es| - 1], id)
  }

  lemma StepReads(cfg: Config, w: World, e: Event, id: Id)
    requires WorldOk(cfg, w) && (Live(w) && Started(w.p, id) ==> IsRead(w.p.cells, id)) && !Ends(cfg, w, e, id)
    ensures var t := Step(cfg, w, e); Live(t) && Started(t.p, id) ==> IsRead(t.p.cells, id)
  {
    if Enabled(w, e) && Live(w) {
      InvWhenLive(cfg, w);
      hide WorldOk, InvDuring, IsRead, FirstReadLost, DriverOk;
      match e
      case Connect => ConnectReads(cfg, w, id);
      case Send =>
        hide Submit, FateOf;
        SubmitReads(cfg, w.p, w.driver.id, w.driver.d, id);
      case Completion(op, data, failed) =>
        hide Take, CanTake;
        if IsRead(w.p.cells, id) {
          TakeReads(w.p.cells, op, data, failed, id);
        }
      case Work =>
        hide Body, Unframe, Delivers;
        BodyReads(cfg, w.p, id);
      case Settled =>
        hide Finish;
        SettledReads(cfg, w, id);
      case _ => hide Submit, Body, Finish, Register, Take;
    }
  }

  lemma ConnectReads(cfg: Config, w: World, id: Id)
    requires Inv(cfg, w.p) && w.driver.Creating? && (Started(w.p, id) ==> IsRead(w.p.cells, id))
    ensures var t := ConnectStep(cfg, w, w.driver.id, w.driver.d); Started(t.p, id) ==> IsRead(t.p.cells, id)
  {
    RegisterIs(cfg, w.p, w.driver.id);
    hide InvDuring, Register, IsRead;
    if Started(w.p, id) {
      RegisterReads(cfg, w.p, w.driver.id, id);
    }
  }

  lemma SettledReads(cfg: Config, w: World, id: Id)
    requires HandReady(w.p.cells) && (Started(w.p, id) ==> IsRead(w.p.cells, id)) && !ReadLost(cfg, w.p, id)
    ensures Started(Finish(cfg, w.p), id) ==> IsRead(Finish(cfg, w.p).cells, id)
  {
    FinishMoves(cfg, w.p);
    hide Finish, IsRead, ReadLost;
    if Started(w.p, id) {
      FinishReads(cfg, w.p, id);
    }
  }

  /** An endpoint that has started reading its UDP socket has an operation for it, with the kernel, posted, or in hand
      with the data it brought, unless its reading has ended in one of the three ways. */
  lemma {:induction false} UdpRead(cfg: Config, es: seq<Event>, id: Id)
    requires Started(Run(cfg, Begin, es).p, id) && !Ended(cfg, es, id)
    ensures var m := Run(cfg, Begin, es).p.cells;
            exists o :: ReadsAt(m, id, o) && (o in m.armed || o in m.posted || (m.hand.Some? && m.hand.value.op == o))
  {
    AlwaysOk(cfg, es);
    var w := Run(cfg, Begin, es);
    ReadInRun(cfg, es, id);
    hide Run, Ended, FatesOk, MapsAgree, DriverOk, Lazy, Agree, Ties, Buffered, Exclusive;
    var o :| ReadsAt(w.p.cells, id, o);
    assert Completions(w.p.cells, o) == 1;
  }

  lemma {:induction false} ReadInRun(cfg: Config, es: seq<Event>, id: Id)
    requires !Ended(cfg, es, id)
    ensures var w := Run(cfg, Begin, es);
            && (Live(w) && Started(w.p, id) ==> IsRead(w.p.cells, id))
            && (!Live(w) ==> w.p.conns == map[])
  {
    AlwaysOk(cfg, es);
    if es != [] {
      var before := es[..|es| - 1];
      ReadInRun(cfg, before, id);
      AlwaysOk(cfg, before);
      hide WorldOk, Step, IsRead, Ends;
      StepReads(cfg, Run(cfg, Begin, before), es[|es| - 1], id);
    }
    EmptyWhenDead(cfg, Run(cfg, Begin, es));
  }

  lemma EmptyWhenDead(cfg: Config, w: World)
    requires WorldOk(cfg, w)
    ensures !Live(w) ==> w.p.conns == map[]
  {
    hide FatesOk, InvDuring, MapsAgree, DriverOk, Lazy, AllDeleted;
  }

  // ---------------------------------------------------------------- what is handed on

  /** What a read brings is posted to the application when its handler runs, for an endpoint that has a context and in
      the bytes that came; no other step posts anything from the proxy. */
  lemma PostedOn(cfg: Config, w: World, e: Event)
    requires WorldOk(cfg, w) && Enabled(w, e)
    ensures Step(cfg, w, e).toApp == w.toApp +
              if e.Work? then
                var h := w.p.cells.hand.value;
                var d := w.p.cells.ops[h.op];
                if d.kind.OvtUdpReceive? && h.n > 0 && d.id in w.ctx then HandedOver(d.id, d.buffer, h.n) else []
              else []
  {
    if e.Work? {
      var h := w.p.cells.hand.value;
      var d := w.p.cells.ops[h.op];
      if d.kind.OvtUdpReceive? && h.n > 0 {
        UnframeIs(d.id, d.buffer, h.n);
      }
      hide WorldOk, Body, Unframe, HandedOver;
    } else {
      hide WorldOk, Submit, Body, Finish, Register, Take, CanTake;
    }
  }
}
