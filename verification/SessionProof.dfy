/** The invariant of Session holds in every run. */
module SessionProof {
  import opened Bytes
  import opened Socks
  import opened Operations
  import opened ProxyModel
  import opened ProxyInvariant
  import opened ProxySteps
  import opened ProxyHistory
  import opened Session

  // ---------------------------------------------------------------- fates

  lemma FatesMoved(w: World, p: State, id: Id)
    requires FatesOk(w) && Moves(w.p, p, id)
    ensures FatesOk(w.(p := p))
  {
    forall i: Id
      ensures FatesMatch(Get(w.fates, i), LogOf(p, i), Get(w.direct, i))
    {
      assert FatesMatch(Get(w.fates, i), LogOf(w.p, i), Get(w.direct, i));
      var l, l' := LogOf(w.p, i), LogOf(p, i);
      assert LogGrows(l, l');
      forall k | 0 <= k < |l.udp|
        ensures l'.udp[k] == l.udp[k]
      {
      }
    }
  }

  lemma TookMore(fs: seq<Fated>, f: Fated)
    ensures Took(fs + [f]) == Took(fs) + (if f.fate.Waiting? || f.fate.Relayed? || f.fate.Refused? then [f] else [])
    ensures PostedDirectly(fs + [f]) == PostedDirectly(fs) +
              (if f.fate.Refused? then [Posting(f.d, Some(|Took(fs)|))]
               else if f.fate.NoConnection? then [Posting(f.d, None)]
               else [])
  {
    assert (fs + [f])[..|fs|] == fs;
  }

  // What each fate does to the log and to the direct postings.
  predicate Accounts(fate: Fate, d: Datagram, l: Log, l': Log, direct: seq<Posting>, direct': seq<Posting>) {
    match fate
    case Waiting => l' == l.(submitted := l.submitted + [d]) && direct' == direct
    case Relayed => SentOne(l, l', d, true) && direct' == direct
    case Refused => SentOne(l, l', d, false) && direct' == direct + [Posting(d, Some(|l.submitted|))]
    case NoConnection => l' == l && direct' == direct + [Posting(d, None)]
    case _ => l' == l && direct' == direct
  }

  predicate SentOne(l: Log, l': Log, d: Datagram, accepted: bool) {
    && |l.udp| == |l.submitted|
    && l'.submitted == l.submitted + [d]
    && |l'.udp| == |l.udp| + 1 && l.udp <= l'.udp && l'.udp[|l.udp|].accepted == accepted
  }

  lemma OneMore(fs: seq<Fated>, l: Log, direct: seq<Posting>, d: Datagram, fate: Fate, l': Log, direct': seq<Posting>)
    requires FatesMatch(fs, l, direct) && Accounts(fate, d, l, l', direct, direct')
    ensures FatesMatch(fs + [Fated(d, fate)], l', direct')
  {
    TookMore(fs, Fated(d, fate));
    hide Took, PostedDirectly;
  }

  lemma OthersKeep(w: World, t: World, id: Id)
    requires FatesOk(w) && FatesMatch(Get(t.fates, id), LogOf(t.p, id), Get(t.direct, id))
    requires Apart(w.p.logs, t.p.logs, id)
    requires forall i | i != id :: Get(t.fates, i) == Get(w.fates, i) && Get(t.direct, i) == Get(w.direct, i)
    ensures FatesOk(t)
  {
    forall i: Id
      ensures FatesMatch(Get(t.fates, i), LogOf(t.p, i), Get(t.direct, i))
    {
      assert FatesMatch(Get(w.fates, i), LogOf(w.p, i), Get(w.direct, i));
      hide FatesMatch;
    }
  }

  // A datagram that never reached the proxy.
  lemma NotTaken(w: World, id: Id, d: Datagram)
    requires FatesOk(w)
    ensures FatesOk(Fate1(w, id, d, Discarded))
  {
    OneMore(Get(w.fates, id), LogOf(w.p, id), Get(w.direct, id), d, Discarded, LogOf(w.p, id), Get(w.direct, id));
    hide FatesMatch;
    OthersKeep(w, Fate1(w, id, d, Discarded), id);
  }

  /** Each submitted datagram gets one fate, and it is the one its log entry shows. */
  lemma SubmitFates(cfg: Config, w: World, id: Id, d: Datagram)
    requires FatesOk(w) && Inv(cfg, w.p)
    ensures FatesOk(SubmitStep(cfg, w, id, d))
  {
    SubmitMatches(cfg, w, id, d);
    SubmitApart(cfg, w.p, id, d);
    hide Submit, InvDuring, FateOf, FatesMatch;
    OthersKeep(w, SubmitStep(cfg, w, id, d), id);
  }

  lemma SubmitMatches(cfg: Config, w: World, id: Id, d: Datagram)
    requires FatesOk(w) && Inv(cfg, w.p)
    ensures var t := SubmitStep(cfg, w, id, d); FatesMatch(Get(t.fates, id), LogOf(t.p, id), Get(t.direct, id))
  {
    assert FatesMatch(Get(w.fates, id), LogOf(w.p, id), Get(w.direct, id));
    SubmitAccounts(cfg, w.p, id, d, Get(w.direct, id));
    hide Submit, Accounts, InvDuring, FateOf, FatesMatch;
    var t := SubmitStep(cfg, w, id, d);
    var fate := FateOf(w.p, id, d, Submit(cfg, w.p, id, d).1);
    OneMore(Get(w.fates, id), LogOf(w.p, id), Get(w.direct, id), d, fate, LogOf(t.p, id), Get(t.direct, id));
  }

  lemma SubmitApart(cfg: Config, s: State, id: Id, d: Datagram)
    requires Inv(cfg, s)
    ensures Apart(s.logs, Submit(cfg, s, id, d).0.logs, id)
  {
    assert id in s.conns ==> id in s.logs;
    hide InvDuring, Submit;
    SubmitMoves(cfg, s, id, d);
  }

  lemma SubmitAccounts(cfg: Config, s: State, id: Id, d: Datagram, direct: seq<Posting>)
    requires Inv(cfg, s)
    ensures var (t, ok) := Submit(cfg, s, id, d);
            var posting := Posting(d, if Taken(s, id, d) then Some(|LogOf(s, id).submitted|) else None);
            Accounts(FateOf(s, id, d, ok), d, LogOf(s, id), LogOf(t, id),
                     direct, if ok then direct else direct + [posting])
  {
    if id in s.conns {
      CaughtUp(cfg, s, id);
    }
    hide InvDuring;
    SubmitEffect(cfg, s, id, d);
    SubmitFails(cfg, s, id, d);
    var (t, ok) := Submit(cfg, s, id, d);
    hide Submit, Frame;
    AccountsFor(s, t, id, d, ok, direct);
  }

  lemma AccountsFor(s: State, t: State, id: Id, d: Datagram, ok: bool, direct: seq<Posting>)
    requires id !in s.conns ==> !ok
    requires id in s.conns && s.conns[id].state == PsConnected ==> |LogOf(s, id).udp| == |LogOf(s, id).submitted|
    requires var l := LogOf(s, id);
             if !Taken(s, id, d) then LogOf(t, id) == l && ok == (id in s.conns)
             else if s.conns[id].state != PsConnected then ok && LogOf(t, id) == l.(submitted := l.submitted + [d])
             else
               LogOf(t, id) == l.(submitted := l.submitted + [d],
                                  udp := l.udp + [Sent(Frame(d), s.conns[id].relay, ok)])
    ensures var posting := Posting(d, if Taken(s, id, d) then Some(|LogOf(s, id).submitted|) else None);
            Accounts(FateOf(s, id, d, ok), d, LogOf(s, id), LogOf(t, id),
                     direct, if ok then direct else direct + [posting])
  {
    hide Frame;
  }

  // A connected relay has been sent everything that was submitted.
  lemma CaughtUp(cfg: Config, s: State, id: Id)
    requires Inv(cfg, s) && id in s.conns
    ensures id in s.logs && (s.conns[id].state == PsConnected ==> |s.logs[id].udp| == |s.logs[id].submitted|)
  {
    assert ConnOk(cfg, s.conns[id], s.logs[id]);
  }

  lemma SubmitFails(cfg: Config, s: State, id: Id, d: Datagram)
    ensures id !in s.conns ==> !Submit(cfg, s, id, d).1
  {
  }

  // ---------------------------------------------------------------- the worker's steps

  // A step of the worker is about a connection that has an operation: not one being made, nor one without context.
  lemma WorkerMoved(cfg: Config, w: World, p: State, id: Id)
    requires WorldOk(cfg, w) && Live(w) && Moves(w.p, p, id) && !NoOperation(w.p.cells, id)
    ensures var t := w.(p := p); FatesOk(t) && MapsAgree(t) && DriverOk(t) && Lazy(t)
  {
    FatesMoved(w, p, id);
    MapsMoved(w, p, id);
    hide FatesOk, InvDuring, MapsAgree, DriverOk, Lazy, Moves, NoOperation;
  }

  lemma MapsMoved(w: World, p: State, id: Id)
    requires MapsAgree(w) && DriverOk(w) && Lazy(w) && Moves(w.p, p, id) && !NoOperation(w.p.cells, id)
    ensures var t := w.(p := p); MapsAgree(t) && DriverOk(t) && Lazy(t)
  {
    var t := w.(p := p);
    forall i | i != id
      ensures NoOperation(w.p.cells, i) ==> NoOperation(p.cells, i)
      ensures Untouched(w.p, i) ==> Untouched(p, i)
    {
      assert Apart(w.p.logs, p.logs, id);
    }
    assert forall i | i in p.conns :: i in w.p.conns;
    assert !Untouched(w.p, id);
    forall i | i !in t.ctx && i !in t.closed && !Between(t, i)
      ensures Untouched(p, i)
    {
      assert Untouched(w.p, i);
    }
  }

  lemma OpKnown(m: Cells, op: Op)
    requires op in m.ops
    ensures !NoOperation(m, m.ops[op].id)
  {
  }

  lemma CompletionOk(cfg: Config, w: World, op: Op, data: seq<byte>, failed: bool)
    requires WorldOk(cfg, w) && Live(w) && w.worker.AtPort? && CanTake(w.p.cells, op, data, failed)
    ensures WorldOk(cfg, w.(p := w.p.(cells := Take(w.p.cells, op, data, failed)), worker := Handling))
  {
    TakeMoves(w.p, op, data, failed);
    OpKnown(w.p.cells, op);
    TakeStepOk(cfg, w.p, op, data, failed);
    var p := w.p.(cells := Take(w.p.cells, op, data, failed));
    WorkerMoved(cfg, w, p, w.p.cells.ops[op].id);
    hide FatesOk, InvDuring, Moves, MapsAgree, DriverOk, Lazy, Take, CanTake;
    SameWorld(w.(p := p), w.(p := p, worker := Handling));
  }

  // The worker's position, deliveries and the stopper do not enter the maps.
  lemma SameWorld(w: World, t: World)
    requires t == w.(worker := t.worker, toApp := t.toApp, stopper := t.stopper)
    ensures FatesOk(t) == FatesOk(w) && MapsAgree(t) == MapsAgree(w) && DriverOk(t) == DriverOk(w) && Lazy(t) == Lazy(w)
  {
  }

  lemma WorkOk(cfg: Config, w: World)
    requires WorldOk(cfg, w) && Live(w) && w.worker.Handling? && HandReady(w.p.cells)
    ensures WorldOk(cfg, WorkStep(cfg, w))
  {
    var op := w.p.cells.hand.value.op;
    var d := w.p.cells.ops[op];
    OpKnown(w.p.cells, op);
    HandTied(cfg, w.p);
    BodyMoves(cfg, w.p);
    BodyOk(cfg, w.p);
    var p := Body(cfg, w.p);
    WorkerMoved(cfg, w, p, d.id);
    hide FatesOk, InvDuring, Moves, MapsAgree, DriverOk, Lazy, Body, Unframe, Delivers;
    SameWorld(w.(p := p), WorkStep(cfg, w));
  }

  lemma HandTied(cfg: Config, s: State)
    requires Inv(cfg, s) && HandReady(s.cells)
    ensures var d := s.cells.ops[s.cells.hand.value.op];
            d.id in s.conns ==> d.id in s.logs && (d.kind.OvtConnect? ==> s.conns[d.id].state == PsNone)
  {
    assert Tied(s.cells.ops[s.cells.hand.value.op], s.conns, s.logs);
  }

  lemma SettledOk(cfg: Config, w: World)
    requires WorldOk(cfg, w) && Live(w) && w.worker.Handling? && HandReady(w.p.cells)
    ensures WorldOk(cfg, w.(p := Finish(cfg, w.p), worker := Checking))
  {
    var op := w.p.cells.hand.value.op;
    OpKnown(w.p.cells, op);
    FinishMoves(cfg, w.p);
    FinishOk(cfg, w.p);
    var p := Finish(cfg, w.p);
    WorkerMoved(cfg, w, p, w.p.cells.ops[op].id);
    hide FatesOk, InvDuring, Moves, MapsAgree, DriverOk, Lazy, Finish;
    SameWorld(w.(p := p), w.(p := p, worker := Checking));
  }

  // ---------------------------------------------------------------- the driver's steps

  // What the driver does to connection id, the one it is serving.
  lemma DriverMoved(cfg: Config, w: World, p: State, id: Id)
    requires WorldOk(cfg, w) && Live(w) && Moves(w.p, p, id)
    ensures forall i | i != id && Untouched(w.p, i) :: Untouched(p, i)
    ensures forall i | i in p.conns :: i in w.p.conns
  {
    hide FatesOk, InvDuring;
    assert Apart(w.p.logs, p.logs, id);
  }

  lemma SendOk(cfg: Config, w: World, id: Id, d: Datagram)
    requires WorldOk(cfg, w) && Live(w) && w.driver == Sending(id, d) && w.stopper.NotStopped?
    ensures WorldOk(cfg, SubmitStep(cfg, w, id, d))
  {
    SubmitFates(cfg, w, id, d);
    SubmitOk(cfg, w.p, id, d);
    SubmitMoved(cfg, w.p, id, d);
    hide FatesOk, InvDuring, Submit, FateOf;
    Served(w, SubmitStep(cfg, w, id, d), id);
  }

  // The driver is done with an endpoint that has a context.
  lemma Served(w: World, t: World, id: Id)
    requires MapsAgree(w) && DriverOk(w) && Lazy(w) && WorkerOk(w) && w.driver.Sending? && w.driver.id == id
    requires t == w.(p := t.p, driver := Idle, fates := t.fates, direct := t.direct) && t.p.cells.hand == w.p.cells.hand
    requires forall i | i != id && Untouched(w.p, i) :: Untouched(t.p, i)
    requires forall i | i in t.p.conns :: i in w.p.conns
    ensures MapsAgree(t) && DriverOk(t) && Lazy(t) && WorkerOk(t)
  {
    hide Untouched;
  }

  lemma SubmitMoved(cfg: Config, s: State, id: Id, d: Datagram)
    requires Inv(cfg, s)
    ensures var p := Submit(cfg, s, id, d).0;
            && (forall i | i != id && Untouched(s, i) :: Untouched(p, i))
            && (forall i | i in p.conns :: i in s.conns)
  {
    if id in s.conns {
      CaughtUp(cfg, s, id);
    }
    hide InvDuring;
    SubmitMoves(cfg, s, id, d);
    var p := Submit(cfg, s, id, d).0;
    var l := Logged(s, id, d);
    assert Apart(s.logs, l.logs, id) && l.conns == s.conns && l.cells == s.cells;
    hide Submit, Logged;
    assert Apart(l.logs, p.logs, id);
  }

  lemma AppCloseOk(cfg: Config, w: World, id: Id)
    requires WorldOk(cfg, w) && Live(w) && w.driver.Idle? && w.stopper.NotStopped? && id !in w.closed
    ensures WorldOk(cfg, w.(p := Erase(w.p, id), driver := Closing(id)))
  {
    var p := Erase(w.p, id);
    EraseOk(cfg, w.p, id);
    EraseMoves(w.p, id);
    DriverMoved(cfg, w, p, id);
    FatesMoved(w, p, id);
    hide FatesOk, InvDuring, Moves, Untouched;
    SameFates(w.(p := p), w.(p := p, driver := Closing(id)));
  }

  lemma SameFates(w: World, t: World)
    requires t.p.logs == w.p.logs && t.fates == w.fates && t.direct == w.direct && FatesOk(w)
    ensures FatesOk(t)
  {
    forall i: Id
      ensures FatesMatch(Get(t.fates, i), LogOf(t.p, i), Get(t.direct, i))
    {
      assert FatesMatch(Get(w.fates, i), LogOf(w.p, i), Get(w.direct, i));
    }
  }

  lemma FailOk(cfg: Config, w: World, id: Id, d: Datagram)
    requires WorldOk(cfg, w) && Live(w) && w.driver == Failing(id, d) && w.stopper.NotStopped?
    ensures WorldOk(cfg, Fate1(w.(p := Erase(w.p, id), driver := Idle), id, d, Discarded))
  {
    var p := Erase(w.p, id);
    EraseOk(cfg, w.p, id);
    EraseMoves(w.p, id);
    DriverMoved(cfg, w, p, id);
    FatesMoved(w, p, id);
    NotTaken(w.(p := p), id, d);
    hide FatesOk, InvDuring, Moves;
    SameFates(Fate1(w.(p := p), id, d, Discarded), Fate1(w.(p := p, driver := Idle), id, d, Discarded));
  }

  lemma ConnectOk(cfg: Config, w: World, id: Id, d: Datagram)
    requires WorldOk(cfg, w) && Live(w) && w.driver == Creating(id, d) && w.stopper.NotStopped?
    ensures WorldOk(cfg, ConnectStep(cfg, w, id, d))
  {
    var (p, ok) := Register(cfg, w.p, id);
    RegisterOk(cfg, w.p, id);
    RegisterMoves(cfg, w.p, id);
    DriverMoved(cfg, w, p, id);
    if !ok {
      RegisterFails(cfg, w.p, id);
    }
    ConnectFates(cfg, w, id, d);
    hide InvDuring, Moves, Register, FatesOk;
    Made(w, ConnectStep(cfg, w, id, d), id, d, ok);
  }

  // The connect was started and the endpoint will get its context, or it failed and its connection goes.
  lemma Made(w: World, t: World, id: Id, d: Datagram, ok: bool)
    requires MapsAgree(w) && DriverOk(w) && Lazy(w) && WorkerOk(w) && w.driver == Creating(id, d)
    requires t == w.(p := t.p, driver := if ok then Publishing(id, d) else Failing(id, d))
    requires t.p.conns == w.p.conns && t.p.logs == w.p.logs && t.p.cells.hand == w.p.cells.hand
    requires forall i | i != id && Untouched(w.p, i) :: Untouched(t.p, i)
    requires ok || NoOperation(t.p.cells, id)
    ensures MapsAgree(t) && DriverOk(t) && Lazy(t) && WorkerOk(t)
  {
    hide NoOperation;
  }

  lemma PublishOk(cfg: Config, w: World)
    requires WorldOk(cfg, w) && Live(w) && Enabled(w, Publish) && w.stopper.NotStopped?
    ensures WorldOk(cfg, Step(cfg, w, Publish))
  {
    hide InvDuring;
    SameFates(w, Step(cfg, w, Publish));
    hide FatesOk;
  }

  lemma ConnectFates(cfg: Config, w: World, id: Id, d: Datagram)
    requires FatesOk(w) && Register(cfg, w.p, id).0.logs == w.p.logs
    ensures FatesOk(ConnectStep(cfg, w, id, d))
  {
    hide FatesOk, Register;
    SameFates(w, ConnectStep(cfg, w, id, d));
  }

  /** A connection whose connect could not be started has no operation. */
  lemma RegisterFails(cfg: Config, s: State, id: Id)
    requires NoOperation(s.cells, id) && !Register(cfg, s, id).1
    ensures NoOperation(Register(cfg, s, id).0.cells, id)
  {
  }

  lemma AppSendOk(cfg: Config, w: World, id: Id, d: Datagram, sockets: bool)
    requires WorldOk(cfg, w) && Live(w) && w.driver.Idle? && w.stopper.NotStopped? && id !in w.closed
    ensures WorldOk(cfg, AppSendStep(cfg, w, id, d, sockets))
  {
    hide WorldOk, Insert, Fate1;
    if id in w.ctx {
      KnownOk(cfg, w, id, d);
    } else if !sockets {
      NoSocketsOk(cfg, w, id, d);
    } else {
      CreatingOk(cfg, w, id, d);
    }
  }

  lemma KnownOk(cfg: Config, w: World, id: Id, d: Datagram)
    requires WorldOk(cfg, w) && Live(w) && w.driver.Idle? && w.stopper.NotStopped? && id !in w.closed && id in w.ctx
    ensures WorldOk(cfg, w.(driver := Sending(id, d)))
  {
    hide InvDuring, FatesMatch, Untouched;
    SameFates(w, w.(driver := Sending(id, d)));
    hide FatesOk;
  }

  lemma NoSocketsOk(cfg: Config, w: World, id: Id, d: Datagram)
    requires WorldOk(cfg, w) && Live(w) && w.driver.Idle? && w.stopper.NotStopped?
    ensures WorldOk(cfg, Fate1(w, id, d, Discarded))
  {
    NotTaken(w, id, d);
    hide FatesOk, InvDuring, Untouched;
  }

  lemma CreatingOk(cfg: Config, w: World, id: Id, d: Datagram)
    requires WorldOk(cfg, w) && Live(w) && w.driver.Idle? && w.stopper.NotStopped? && id !in w.closed && id !in w.ctx
    ensures WorldOk(cfg, w.(p := Insert(cfg, w.p, id), driver := Creating(id, d)))
  {
    assert Untouched(w.p, id);
    assert id !in w.p.conns;
    InsertOk(cfg, w.p, id);
    hide InvDuring;
    var t := w.(p := Insert(cfg, w.p, id), driver := Creating(id, d));
    InsertFates(cfg, w, t, id);
    hide FatesOk;
    InsertMaps(cfg, w, t, id, d);
  }

  lemma InsertMaps(cfg: Config, w: World, t: World, id: Id, d: Datagram)
    requires MapsAgree(w) && Lazy(w) && WorkerOk(w) && w.driver.Idle? && id !in w.ctx && id !in w.closed
    requires t == w.(p := Insert(cfg, w.p, id), driver := Creating(id, d))
    ensures MapsAgree(t) && DriverOk(t) && Lazy(t) && WorkerOk(t)
  {
    InsertApart(cfg, w.p, id);
    assert Untouched(w.p, id);
    forall i | i != id
      ensures Untouched(w.p, i) ==> Untouched(t.p, i)
    {
      assert Apart(w.p.logs, t.p.logs, id);
    }
  }

  lemma InsertFates(cfg: Config, w: World, t: World, id: Id)
    requires FatesOk(w) && (id in w.p.logs ==> w.p.logs[id] == EmptyLog)
    requires t.p == Insert(cfg, w.p, id) && t.fates == w.fates && t.direct == w.direct
    ensures FatesOk(t)
  {
    forall i: Id
      ensures FatesMatch(Get(t.fates, i), LogOf(t.p, i), Get(t.direct, i))
    {
      assert FatesMatch(Get(w.fates, i), LogOf(w.p, i), Get(w.direct, i));
      assert LogOf(t.p, i) == LogOf(w.p, i);
    }
  }

  lemma ForgetOk(cfg: Config, w: World)
    requires WorldOk(cfg, w) && Enabled(w, Forget) && Live(w)
    ensures WorldOk(cfg, Step(cfg, w, Forget))
  {
    hide InvDuring;
    SameFates(w, Step(cfg, w, Forget));
    hide FatesOk;
  }

  // ---------------------------------------------------------------- every run

  lemma StoppingOk(cfg: Config, w: World, e: Event)
    requires WorldOk(cfg, w) && Enabled(w, e) && (e.SetStop? || e.Join? || e.Check? || e.Timeout?)
    ensures WorldOk(cfg, Step(cfg, w, e))
  {
    var t := Step(cfg, w, e);
    hide FatesOk, InvDuring, AllDeleted, MapsAgree, DriverOk, Lazy;
    SameWorld(w, t);
  }

  lemma FreeingOk(cfg: Config, w: World, e: Event)
    requires WorldOk(cfg, w) && Enabled(w, e) && (e.FreeProxy? || e.FreeCtx?)
    ensures WorldOk(cfg, Step(cfg, w, e))
  {
    SameFates(w, Step(cfg, w, e));
    if e.FreeProxy? {
      ShutdownOk(cfg, w.p);
    }
    hide FatesOk, InvDuring, AllDeleted, Shutdown, MapsAgree, DriverOk, Lazy;
  }

  /** free deletes every operation that is left, none of them a second time, and every connection. */
  lemma ShutdownOk(cfg: Config, s: State)
    requires Inv(cfg, s) && s.cells.hand.None?
    ensures Shutdown(s).conns == map[] && AllDeleted(Shutdown(s).cells)
  {
    var m := s.cells;
    forall o: Op
      ensures Shutdown(s).cells.freed[o] == if o < m.next then 1 else 0
    {
      assert m.freed[o] == if o < m.next && o !in m.ops then 1 else 0;
    }
  }

  lemma LiveWhenDriven(cfg: Config, w: World, e: Event)
    requires WorldOk(cfg, w) && Enabled(w, e)
    ensures Live(w) || e.FreeCtx?
    ensures e.Connect? || e.Fail? || e.Publish? || e.Send? || e.Forget? ==> w.stopper.NotStopped?
  {
    hide FatesOk, InvDuring;
  }

  /** Every step of any of the threads keeps the invariant. */
  lemma StepOk(cfg: Config, w: World, e: Event)
    requires WorldOk(cfg, w)
    ensures WorldOk(cfg, Step(cfg, w, e))
  {
    if Enabled(w, e) {
      LiveWhenDriven(cfg, w, e);
      hide FatesOk, InvDuring, MapsAgree, DriverOk, Lazy, Submit, Register, Body, Finish, Insert, Take;
      match e
      case AppSend(id, d, sockets) => AppSendOk(cfg, w, id, d, sockets);
      case Connect => ConnectOk(cfg, w, w.driver.id, w.driver.d);
      case Fail => FailOk(cfg, w, w.driver.id, w.driver.d);
      case Publish => PublishOk(cfg, w);
      case Send => SendOk(cfg, w, w.driver.id, w.driver.d);
      case AppClose(id) => AppCloseOk(cfg, w, id);
      case Forget => ForgetOk(cfg, w);
      case Completion(op, data, failed) => CompletionOk(cfg, w, op, data, failed);
      case Work => WorkOk(cfg, w);
      case Settled => SettledOk(cfg, w);
      case FreeProxy => FreeingOk(cfg, w, e);
      case FreeCtx => FreeingOk(cfg, w, e);
      case _ => StoppingOk(cfg, w, e);
    }
  }

  lemma {:induction false} AlwaysOk(cfg: Config, es: seq<Event>)
    ensures WorldOk(cfg, Run(cfg, Begin, es))
  {
    if es == [] {
      assert Inv(cfg, Initial);
    } else {
      AlwaysOk(cfg, es[..|es| - 1]);
      StepOk(cfg, Run(cfg, Begin, es[..|es| - 1]), es[|es| - 1]);
    }
  }
}
