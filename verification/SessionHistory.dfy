/** What one step of Session does to one endpoint: its connection only goes forward, and its log only grows. */
module SessionHistory {
  import opened Bytes
  import opened Socks
  import opened Operations
  import opened ProxyModel
  import opened ProxyInvariant
  import opened ProxyHistory
  import opened Session
  import opened SessionProof

  // ---------------------------------------------------------------- connections

  lemma Stays(c: Conn)
    ensures ConnGrows(c, c)
  {
  }

  lemma MovesForward(s: State, t: State, i: Id, id: Id)
    requires Moves(s, t, i) && id in s.conns && id in t.conns
    ensures ConnGrows(s.conns[id], t.conns[id])
  {
    hide OpsApart;
  }

  lemma StepForward(cfg: Config, w: World, e: Event, id: Id)
    requires WorldOk(cfg, w) && id in w.p.conns && id in Step(cfg, w, e).p.conns
    ensures ConnGrows(w.p.conns[id], Step(cfg, w, e).p.conns[id])
  {
    Stays(w.p.conns[id]);
    hide WorldOk, ConnGrows, Enabled;
    if Enabled(w, e) {
      hide Step;
      match e
      case Connect => ConnectForward(cfg, w, id);
      case Send =>
        SendingOk(cfg, w);
        SendForward(cfg, w, id);
      case Work => WorkForward(cfg, w, id);
      case Settled => SettledForward(cfg, w, id);
      case _ => Unmoved(cfg, w, e, id);
    }
  }

  lemma Unmoved(cfg: Config, w: World, e: Event, id: Id)
    requires WorldOk(cfg, w) && Enabled(w, e) && id in w.p.conns && id in Step(cfg, w, e).p.conns
    requires !e.Connect? && !e.Send? && !e.Work? && !e.Settled?
    ensures Step(cfg, w, e).p.conns[id] == w.p.conns[id]
  {
    if e.AppSend? {
      LiveWhenDriven(cfg, w, e);
      NotInserted(cfg, w, e.id, e.d, e.sockets, id);
      hide WorldOk, AppSendStep;
    } else {
      hide WorldOk, Take, CanTake, Delivers, SubmitStep, AppSendStep, ConnectStep, WorkStep, Finish;
    }
  }

  // A connection is made only for an endpoint that has none.
  lemma NotInserted(cfg: Config, w: World, i: Id, d: Datagram, sockets: bool, id: Id)
    requires WorldOk(cfg, w) && Live(w) && w.driver.Idle? && id in w.p.conns
    ensures var t := AppSendStep(cfg, w, i, d, sockets); id in t.p.conns && t.p.conns[id] == w.p.conns[id]
  {
    hide FatesOk, InvDuring, DriverOk, Lazy;
  }

  lemma InvWhenLive(cfg: Config, w: World)
    requires WorldOk(cfg, w) && Live(w)
    ensures Inv(cfg, w.p) && DriverOk(w)
  {
    hide FatesOk, InvDuring, MapsAgree, DriverOk, Lazy;
  }

  lemma SendingOk(cfg: Config, w: World)
    requires WorldOk(cfg, w) && Enabled(w, Send)
    ensures Inv(cfg, w.p) && w.driver.Sending?
  {
    LiveWhenDriven(cfg, w, Send);
    InvWhenLive(cfg, w);
  }

  lemma ConnectForward(cfg: Config, w: World, id: Id)
    requires WorldOk(cfg, w) && Enabled(w, Connect) && id in w.p.conns && id in Step(cfg, w, Connect).p.conns
    ensures ConnGrows(w.p.conns[id], Step(cfg, w, Connect).p.conns[id])
  {
    LiveWhenDriven(cfg, w, Connect);
    InvWhenLive(cfg, w);
    hide WorldOk, InvDuring, Register, Moves, ConnGrows;
    RegisterMoves(cfg, w.p, w.driver.id);
    MovesForward(w.p, Register(cfg, w.p, w.driver.id).0, w.driver.id, id);
  }

  lemma SendForward(cfg: Config, w: World, id: Id)
    requires Inv(cfg, w.p) && w.driver.Sending? && id in w.p.conns && id in Step(cfg, w, Send).p.conns
    ensures ConnGrows(w.p.conns[id], Step(cfg, w, Send).p.conns[id])
  {
    hide InvDuring, Submit, Moves, ConnGrows, FateOf;
    SubmitForward(cfg, w.p, w.driver.id, w.driver.d, id);
  }

  lemma WorkForward(cfg: Config, w: World, id: Id)
    requires WorldOk(cfg, w) && Enabled(w, Work) && id in w.p.conns && id in Step(cfg, w, Work).p.conns
    ensures ConnGrows(w.p.conns[id], Step(cfg, w, Work).p.conns[id])
  {
    LiveWhenDriven(cfg, w, Work);
    InvWhenLive(cfg, w);
    hide WorldOk, InvDuring, Body, Moves, ConnGrows, Unframe, Delivers;
    HandTied(cfg, w.p);
    BodyMoves(cfg, w.p);
    MovesForward(w.p, Body(cfg, w.p), w.p.cells.ops[w.p.cells.hand.value.op].id, id);
  }

  lemma SettledForward(cfg: Config, w: World, id: Id)
    requires WorldOk(cfg, w) && Enabled(w, Settled) && id in w.p.conns && id in Step(cfg, w, Settled).p.conns
    ensures ConnGrows(w.p.conns[id], Step(cfg, w, Settled).p.conns[id])
  {
    LiveWhenDriven(cfg, w, Settled);
    InvWhenLive(cfg, w);
    Stays(w.p.conns[id]);
    hide WorldOk, InvDuring, Finish, ConnGrows;
    FinishMoves(cfg, w.p);
  }

  lemma SubmitForward(cfg: Config, s: State, i: Id, d: Datagram, id: Id)
    requires Inv(cfg, s) && id in s.conns && id in Submit(cfg, s, i, d).0.conns
    ensures ConnGrows(s.conns[id], Submit(cfg, s, i, d).0.conns[id])
  {
    if i in s.conns {
      CaughtUp(cfg, s, i);
    }
    hide InvDuring;
    SubmitMoves(cfg, s, i, d);
    hide Submit, Moves, ConnGrows;
    MovesForward(Logged(s, i, d), Submit(cfg, s, i, d).0, i, id);
  }

  // ---------------------------------------------------------------- logs

  // The datagram the proxy takes from the application in this step, if it takes one on this endpoint.
  function TakenNow(w: World, e: Event, id: Id): seq<Datagram> {
    if e.Send? && Enabled(w, e) && w.driver.id == id && Taken(w.p, id, w.driver.d) then [w.driver.d] else []
  }

  // A connection that is gone, or goes, leaves its log as it is; one that is new begins with an empty log.
  ghost predicate Advances(s: State, t: State, id: Id, taken: seq<Datagram>) {
    var l, l' := LogOf(s, id), LogOf(t, id);
    && l'.submitted == l.submitted + taken
    && l.udp <= l'.udp && l.tcp <= l'.tcp
    && (id !in t.conns ==> l' == l)
    && (id in t.conns && id !in s.conns ==> l == EmptyLog && l' == EmptyLog)
  }

  lemma MovesAdvance(s: State, t: State, i: Id, id: Id)
    requires Moves(s, t, i) && (id in s.conns ==> id in s.logs)
    ensures Advances(s, t, id, [])
  {
    hide OpsApart;
    assert LogOf(s, id).submitted + [] == LogOf(s, id).submitted;
  }

  lemma SameAdvance(s: State, t: State, id: Id)
    requires t.conns.Keys <= s.conns.Keys && LogOf(t, id) == LogOf(s, id)
    ensures Advances(s, t, id, [])
  {
    assert LogOf(s, id).submitted + [] == LogOf(s, id).submitted;
  }

  lemma LoggedConn(cfg: Config, s: State, id: Id)
    requires Inv(cfg, s) && id in s.conns
    ensures id in s.logs
  {
    hide CellsOk, Ties, ConnOk, LogOk;
  }

  lemma SubmitAdvances(cfg: Config, s: State, i: Id, d: Datagram, id: Id)
    requires Inv(cfg, s)
    ensures Advances(s, Submit(cfg, s, i, d).0, id, if i == id && Taken(s, i, d) then [d] else [])
  {
    if i in s.conns {
      LoggedConn(cfg, s, i);
    }
    if id in s.conns {
      LoggedConn(cfg, s, id);
    }
    hide InvDuring;
    SubmitMoves(cfg, s, i, d);
    hide Submit, Moves;
    var u := Logged(s, i, d);
    MovesAdvance(u, Submit(cfg, s, i, d).0, i, id);
  }

  /** Only a datagram taken from the application enters an endpoint's log; what went to its sockets stays there. */
  lemma LogStep(cfg: Config, w: World, e: Event, id: Id)
    requires WorldOk(cfg, w)
    ensures Advances(w.p, Step(cfg, w, e).p, id, TakenNow(w, e, id))
  {
    hide WorldOk, Advances;
    SameAdvance(w.p, w.p, id);
    if Enabled(w, e) {
      match e
      case AppSend(_, _, _) => AppSendLog(cfg, w, e, id);
      case Connect => ConnectLog(cfg, w, id);
      case Send => SendLog(cfg, w, id);
      case Work => WorkLog(cfg, w, id);
      case Settled => SettledLog(cfg, w, id);
      case _ => QuietLog(cfg, w, e, id);
    }
  }

  lemma QuietLog(cfg: Config, w: World, e: Event, id: Id)
    requires WorldOk(cfg, w) && Enabled(w, e)
    requires !e.AppSend? && !e.Connect? && !e.Send? && !e.Work? && !e.Settled?
    ensures Advances(w.p, Step(cfg, w, e).p, id, [])
  {
    hide WorldOk, Advances, Take, CanTake, Delivers;
    SameAdvance(w.p, Step(cfg, w, e).p, id);
  }

  lemma AppSendLog(cfg: Config, w: World, e: Event, id: Id)
    requires WorldOk(cfg, w) && Enabled(w, e) && e.AppSend?
    ensures Advances(w.p, Step(cfg, w, e).p, id, [])
  {
    var t := Step(cfg, w, e).p;
    if t != w.p {
      assert Untouched(w.p, e.id);
      hide FatesOk, InvDuring, DriverOk;
      assert LogOf(t, id) == LogOf(w.p, id);
      assert LogOf(w.p, id).submitted + [] == LogOf(w.p, id).submitted;
    } else {
      SameAdvance(w.p, t, id);
    }
  }

  lemma ConnectLog(cfg: Config, w: World, id: Id)
    requires WorldOk(cfg, w) && Enabled(w, Connect)
    ensures Advances(w.p, Step(cfg, w, Connect).p, id, [])
  {
    LiveWhenDriven(cfg, w, Connect);
    InvWhenLive(cfg, w);
    hide WorldOk, InvDuring, Register, Moves, Advances;
    RegisterMoves(cfg, w.p, w.driver.id);
    if id in w.p.conns {
      LoggedConn(cfg, w.p, id);
    }
    MovesAdvance(w.p, Register(cfg, w.p, w.driver.id).0, w.driver.id, id);
  }

  lemma SendLog(cfg: Config, w: World, id: Id)
    requires WorldOk(cfg, w) && Enabled(w, Send)
    ensures Advances(w.p, Step(cfg, w, Send).p, id, TakenNow(w, Send, id))
  {
    LiveWhenDriven(cfg, w, Send);
    InvWhenLive(cfg, w);
    hide WorldOk, InvDuring, Submit, Advances, FateOf;
    SubmitAdvances(cfg, w.p, w.driver.id, w.driver.d, id);
  }

  lemma WorkLog(cfg: Config, w: World, id: Id)
    requires WorldOk(cfg, w) && Enabled(w, Work)
    ensures Advances(w.p, Step(cfg, w, Work).p, id, [])
  {
    LiveWhenDriven(cfg, w, Work);
    InvWhenLive(cfg, w);
    hide WorldOk, InvDuring, Body, Moves, Advances, Unframe, Delivers;
    HandTied(cfg, w.p);
    BodyMoves(cfg, w.p);
    if id in w.p.conns {
      LoggedConn(cfg, w.p, id);
    }
    MovesAdvance(w.p, Body(cfg, w.p), w.p.cells.ops[w.p.cells.hand.value.op].id, id);
  }

  lemma SettledLog(cfg: Config, w: World, id: Id)
    requires WorldOk(cfg, w) && Enabled(w, Settled)
    ensures Advances(w.p, Step(cfg, w, Settled).p, id, [])
  {
    hide WorldOk, Finish, Advances;
    FinishMoves(cfg, w.p);
    SameAdvance(w.p, Finish(cfg, w.p), id);
  }

  // ---------------------------------------------------------------- single steps

  lemma Runs(cfg: Config, w: World, e: Event)
    ensures Run(cfg, w, [e]) == Step(cfg, w, e)
    ensures forall f :: Run(cfg, w, [e, f]) == Step(cfg, Step(cfg, w, e), f)
    ensures forall f, g :: Run(cfg, w, [e, f, g]) == Step(cfg, Step(cfg, Step(cfg, w, e), f), g)
    ensures forall f, g, h :: Run(cfg, w, [e, f, g, h]) == Step(cfg, Step(cfg, Step(cfg, Step(cfg, w, e), f), g), h)
  {
    hide Step;
    assert [e][..0] == [];
    assert Run(cfg, w, [e]) == Step(cfg, w, e);
    forall f
      ensures Run(cfg, w, [e, f]) == Step(cfg, Step(cfg, w, e), f)
    {
      assert [e, f][..1] == [e];
    }
    forall f, g
      ensures Run(cfg, w, [e, f, g]) == Step(cfg, Step(cfg, Step(cfg, w, e), f), g)
    {
      assert [e, f, g][..2] == [e, f];
    }
    forall f, g, h
      ensures Run(cfg, w, [e, f, g, h]) == Step(cfg, Step(cfg, Step(cfg, Step(cfg, w, e), f), g), h)
    {
      assert [e, f, g, h][..3] == [e, f, g];
    }
  }

  lemma TakeRuns(cfg: Config, w: World, op: Op, data: seq<byte>, failed: bool)
    requires w.worker.AtPort? && CanTake(w.p.cells, op, data, failed)
    ensures Step(cfg, w, Completion(op, data, failed))
         == w.(p := w.p.(cells := Take(w.p.cells, op, data, failed)), worker := Handling)
  {
  }

  lemma WorkRuns(cfg: Config, w: World)
    requires HandReady(w.p.cells) && w.p.cells.hand.value.body && w.worker.Handling? && LockFree(w)
    ensures Step(cfg, w, Work) == WorkStep(cfg, w)
  {
    hide WorkStep, Delivers;
  }

  lemma SettledRuns(cfg: Config, w: World)
    requires HandReady(w.p.cells) && !w.p.cells.hand.value.body && w.worker.Handling?
    ensures Step(cfg, w, Settled) == w.(p := Finish(cfg, w.p), worker := Checking)
  {
    hide Finish;
  }

  lemma CheckRuns(cfg: Config, w: World)
    requires w.worker.Checking? && w.stopper.NotStopped?
    ensures Step(cfg, w, Check) == w.(worker := AtPort)
  {
  }
}
