/**
 * What holds in every run of Session: of the proxy's operations, its connections and the wire, of the two maps, and
 * of stopping. SessionFates has what becomes of each datagram the application sends.
 */
module SessionTheorems {
  import opened Bytes
  import opened Socks
  import opened Operations
  import opened ProxyModel
  import opened ProxyInvariant
  import opened ProxySteps
  import opened ProxyHistory
  import opened Session
  import opened SessionProof
  import opened SessionHistory

  // ---------------------------------------------------------------- operations

  /** Until free, an address is an operation's exactly when one completion is to come for it or in hand, and no
      address is deleted twice or deleted while in use; afterwards every operation there was has been deleted once. */
  lemma {:induction false} Ownership(cfg: Config, es: seq<Event>, o: Op)
    ensures var w := Run(cfg, Begin, es); var m := w.p.cells;
            && m.freed[o] + (if o in m.ops then 1 else 0) == (if o < m.next then 1 else 0)
            && (Live(w) ==> Completions(m, o) == if o in m.ops then 1 else 0)
            && (!Live(w) ==> o !in m.ops)
  {
    AlwaysOk(cfg, es);
    var w := Run(cfg, Begin, es);
    hide FatesOk, Agree, Ties, Buffered, Exclusive, Run;
    var m := w.p.cells;
    if Live(w) {
      assert Completions(m, o) == if o in m.ops then 1 else 0;
      assert m.freed[o] == if o < m.next && o !in m.ops then 1 else 0;
    } else {
      assert m.freed[o] == if o < m.next then 1 else 0;
    }
  }

  /** A handler that reads or arms a buffer again has one of full size, and what the program posted itself carries
      no data: a buffer emptied after a failed send is never read. */
  lemma {:induction false} BuffersReal(cfg: Config, es: seq<Event>, o: Op)
    requires var w := Run(cfg, Begin, es); Live(w) && o in w.p.cells.ops && IsReceive(w.p.cells.ops[o].kind)
    ensures var m := Run(cfg, Begin, es).p.cells;
            && (m.hand.Some? && m.hand.value.op == o && m.hand.value.n > 0 ==>
                 |m.ops[o].buffer| == PACKET_SIZE && m.hand.value.n <= PACKET_SIZE)
            && (o in m.armed ==> |m.ops[o].buffer| == PACKET_SIZE)
            && (|m.ops[o].buffer| == 0 || |m.ops[o].buffer| == PACKET_SIZE)
  {
    AlwaysOk(cfg, es);
    hide FatesOk, Agree, Ties, Owned, Exclusive, Run;
    var m := Run(cfg, Begin, es).p.cells;
    assert FitFor(m.ops[o], o in m.posted, o in m.armed);
  }

  /** One operation at most connects or reads a connection's TCP stream, one at most reads its UDP socket. This is for
      the sockets of one endpoint: a handle the system gives out again, once closed, the program does not tell apart. */
  lemma {:induction false} OneReader(cfg: Config, es: seq<Event>, a: Op, b: Op)
    requires var w := Run(cfg, Begin, es); Live(w) && a in w.p.cells.ops && b in w.p.cells.ops
    requires var ops := Run(cfg, Begin, es).p.cells.ops;
             ops[a].id == ops[b].id && SlotOf(ops[a]) == SlotOf(ops[b]) && !SlotOf(ops[a]).NoSlot?
    ensures a == b
  {
    AlwaysOk(cfg, es);
    hide FatesOk, Agree, Ties, Owned, Buffered, Run;
  }

  // ---------------------------------------------------------------- connections and the wire

  function Frames(ds: seq<Datagram>): seq<seq<byte>> {
    seq(|ds|, i requires 0 <= i < |ds| => Frame(ds[i]))
  }

  function SentFrames(udp: seq<Sent>): seq<seq<byte>> {
    seq(|udp|, i requires 0 <= i < |udp| => udp[i].frame)
  }

  /** The frames given to WSASendTo and then those of the queue are the frames of everything submitted: no loss, no
      duplicate, no change of order, while queueing, flushing or sending directly. */
  lemma {:induction false} Fifo(cfg: Config, es: seq<Event>, id: Id)
    requires var w := Run(cfg, Begin, es); Live(w) && id in w.p.conns
    ensures var p := Run(cfg, Begin, es).p;
            && id in p.logs
            && SentFrames(p.logs[id].udp) + Frames(p.conns[id].queue) == Frames(p.logs[id].submitted)
  {
    AlwaysOk(cfg, es);
    hide FatesOk, CellsOk, Ties, Run, Frame;
    var p := Run(cfg, Begin, es).p;
    assert ConnOk(cfg, p.conns[id], p.logs[id]);
  }

  /** Between locked blocks nothing of what was submitted has been given to WSASendTo or all of it has, and a
      connection that is gone leaves it so: its wire shows no frame or every one, in order. */
  lemma {:induction false} FifoGone(cfg: Config, es: seq<Event>, id: Id)
    ensures var l := LogOf(Run(cfg, Begin, es).p, id); AllOrNothing(l)
  {
    if es != [] {
      var before := es[..|es| - 1];
      FifoGone(cfg, before, id);
      AlwaysOk(cfg, before);
      AlwaysOk(cfg, es);
      var w := Run(cfg, Begin, before);
      LogStep(cfg, w, es[|es| - 1], id);
      var t := Run(cfg, Begin, es);
      hide Run, Step, AllOrNothing;
      if id in t.p.conns {
        LogSettled(cfg, t, id);
      }
    }
  }

  predicate AllOrNothing(l: Log) {
    l.udp == [] || SentFrames(l.udp) == Frames(l.submitted)
  }

  lemma LogSettled(cfg: Config, w: World, id: Id)
    requires WorldOk(cfg, w) && id in w.p.conns
    ensures id in w.p.logs && AllOrNothing(w.p.logs[id])
  {
    hide FatesOk, MapsAgree, DriverOk, Lazy, CellsOk, Ties, Frame;
    assert Live(w);
    assert ConnOk(cfg, w.p.conns[id], w.p.logs[id]);
  }

  /** The handshake messages the proxy server's socket accepted are the ones the state stands for, and a connect
      still to complete belongs to a connection on which nothing was said. */
  lemma {:induction false} StateOnTheWire(cfg: Config, es: seq<Event>, id: Id)
    requires var w := Run(cfg, Begin, es); Live(w) && id in w.p.conns
    ensures var p := Run(cfg, Begin, es).p;
            && id in p.logs
            && Scripted(p.conns[id].state, cfg.user, cfg.pass, p.logs[id].tcp)
    ensures var p := Run(cfg, Begin, es).p;
            forall o | o in p.cells.ops && p.cells.ops[o].id == id && p.cells.ops[o].kind.OvtConnect? ::
                p.logs[id].tcp == []
  {
    AlwaysOk(cfg, es);
    hide FatesOk, CellsOk, Run;
    var p := Run(cfg, Begin, es).p;
    assert ConnOk(cfg, p.conns[id], p.logs[id]);
    forall o | o in p.cells.ops && p.cells.ops[o].id == id && p.cells.ops[o].kind.OvtConnect?
      ensures p.logs[id].tcp == []
    {
      assert Tied(p.cells.ops[o], p.conns, p.logs);
    }
  }

  /** Of a connection that is gone, too, the server was told a beginning of the handshake, and never a password for
      an empty user name. */
  lemma {:induction false} ScriptGone(cfg: Config, es: seq<Event>, id: Id)
    ensures exists state: ProxyState :: Scripted(state, cfg.user, cfg.pass, LogOf(Run(cfg, Begin, es).p, id).tcp)
  {
    if es == [] {
      assert Scripted(PsNone, cfg.user, cfg.pass, LogOf(Run(cfg, Begin, es).p, id).tcp);
    } else {
      var before := es[..|es| - 1];
      ScriptGone(cfg, before, id);
      AlwaysOk(cfg, before);
      AlwaysOk(cfg, es);
      LogStep(cfg, Run(cfg, Begin, before), es[|es| - 1], id);
      var t := Run(cfg, Begin, es);
      hide Run, Step, Scripted;
      if id in t.p.conns {
        ScriptNow(cfg, t, id);
      }
    }
  }

  lemma ScriptNow(cfg: Config, w: World, id: Id)
    requires WorldOk(cfg, w) && id in w.p.conns
    ensures id in w.p.logs && Scripted(w.p.conns[id].state, cfg.user, cfg.pass, w.p.logs[id].tcp)
  {
    hide FatesOk, MapsAgree, DriverOk, Lazy, CellsOk, Ties, Scripted;
    assert Live(w);
    assert ConnOk(cfg, w.p.conns[id], w.p.logs[id]);
  }

  /** Between locked blocks a connected relay has a fixed address, an empty queue and all its frames sent there;
      before that nothing was sent or is being read. */
  lemma {:induction false} SettledRelay(cfg: Config, es: seq<Event>, id: Id)
    requires var w := Run(cfg, Begin, es); Live(w) && id in w.p.conns
    ensures var p := Run(cfg, Begin, es).p;
            && id in p.logs
            && var c := p.conns[id];
            if c.state == PsConnected then
              && c.queue == [] && c.relay.Some?
              && forall k | 0 <= k < |p.logs[id].udp| :: p.logs[id].udp[k].dest == c.relay
            else
              p.logs[id].udp == [] && c.relay.None? && !c.recvStarted && c.queue == p.logs[id].submitted
  {
    AlwaysOk(cfg, es);
    hide FatesOk, CellsOk, Ties, Run;
    var p := Run(cfg, Begin, es).p;
    assert ConnOk(cfg, p.conns[id], p.logs[id]);
  }

  /** No step takes a connection back: its state only rises, and its relay once known stays. */
  lemma {:induction false} OnlyForward(cfg: Config, es: seq<Event>, e: Event, id: Id)
    requires id in Run(cfg, Begin, es).p.conns && id in Run(cfg, Begin, es + [e]).p.conns
    ensures ConnGrows(Run(cfg, Begin, es).p.conns[id], Run(cfg, Begin, es + [e]).p.conns[id])
  {
    AlwaysOk(cfg, es);
    assert (es + [e])[..|es|] == es;
    StepForward(cfg, Run(cfg, Begin, es), e, id);
  }

  // ---------------------------------------------------------------- the two maps

  /** Every connection of the proxy has a context or is the one being created; a closed endpoint has neither. */
  lemma {:induction false} TwoMaps(cfg: Config, es: seq<Event>, id: Id)
    requires Live(Run(cfg, Begin, es))
    ensures var w := Run(cfg, Begin, es);
            && (id in w.p.conns ==> id in w.ctx || Making(w, id))
            && (id in w.closed ==> id !in w.p.conns && id !in w.ctx)
  {
    AlwaysOk(cfg, es);
    hide FatesOk, InvDuring, DriverOk, Lazy, Run;
  }

  lemma {:induction false} RunOn(cfg: Config, es: seq<Event>, more: seq<Event>)
    ensures Run(cfg, Begin, es + more) == Run(cfg, Run(cfg, Begin, es), more)
  {
    if more == [] {
      assert es + more == es;
    } else {
      var last := |more| - 1;
      assert (es + more)[..|es + more| - 1] == es + more[..last];
      RunOn(cfg, es, more[..last]);
    }
  }

  // The application has heard nothing new of an endpoint.
  predicate Silent(w: World, t: World, id: Id) {
    && w.toApp <= t.toApp
    && forall k | |w.toApp| <= k < |t.toApp| :: t.toApp[k].id != id
  }

  /** Once udpClosed has returned for an endpoint, nothing the worker was still doing reaches the application for it. */
  lemma {:induction false} SilentAfterClose(cfg: Config, es: seq<Event>, more: seq<Event>, id: Id)
    requires id in Run(cfg, Begin, es).closed
    ensures id in Run(cfg, Begin, es + more).closed
    ensures Silent(Run(cfg, Begin, es), Run(cfg, Begin, es + more), id)
  {
    if more == [] {
      assert es + more == es;
    } else {
      var last := |more| - 1;
      assert (es + more)[..|es + more| - 1] == es + more[..last];
      SilentAfterClose(cfg, es, more[..last], id);
      AlwaysOk(cfg, es + more[..last]);
      var w := Run(cfg, Begin, es + more[..last]);
      hide Run;
      SilentStep(cfg, w, more[last], id);
    }
  }

  lemma SilentStep(cfg: Config, w: World, e: Event, id: Id)
    requires WorldOk(cfg, w) && id in w.closed
    ensures id in Step(cfg, w, e).closed && Silent(w, Step(cfg, w, e), id)
  {
    if Enabled(w, e) && e.Work? {
      LiveWhenDriven(cfg, w, e);
      hide FatesOk, InvDuring, DriverOk, Lazy, Body, Unframe, Delivers;
    } else if Enabled(w, e) {
      hide WorldOk, SubmitStep, AppSendStep, ConnectStep, Finish, Take, Erase, Shutdown;
      QuietStep(cfg, w, e);
    }
  }

  lemma QuietStep(cfg: Config, w: World, e: Event)
    requires !e.Work?
    ensures Step(cfg, w, e).toApp == w.toApp && w.closed <= Step(cfg, w, e).closed
  {
    hide Enabled, Submit, FateOf, Register, Insert, Finish, Take, Erase, Shutdown;
  }

  // ---------------------------------------------------------------- stopping

  function WorkerLeft(w: World): nat {
    match w.worker
    case AtPort => 4
    case Handling => if w.p.cells.hand.Some? && w.p.cells.hand.value.body then 3 else 2
    case Checking => 1
    case Exited => 0
  }

  function StopLeft(w: World): nat {
    match w.stopper
    case NotStopped => 4
    case Stopping => 3
    case Joined => 2
    case ProxyFreed => 1
    case Stopped => 0
  }

  function Left(w: World): nat {
    WorkerLeft(w) + StopLeft(w)
  }

  /** Once stopping has begun every step that can be taken brings the end nearer. */
  lemma {:induction false} StoppingAdvances(cfg: Config, w: World, e: Event)
    requires WorldOk(cfg, w) && !w.stopper.NotStopped? && Enabled(w, e)
    ensures Left(Step(cfg, w, e)) < Left(w) && !Step(cfg, w, e).stopper.NotStopped?
  {
    hide WorkStep, SubmitStep, AppSendStep, ConnectStep, Take, CanTake, Fate1;
    hide FatesOk, InvDuring, MapsAgree, DriverOk, Lazy, Finish, Insert, Erase, Shutdown, Unframe, Delivers;
    match e
    case Work => WorkAdvances(cfg, w);
    case Completion(op, data, failed) => TakeInHand(w.p.cells, op, data, failed);
    case _ =>
  }

  lemma WorkAdvances(cfg: Config, w: World)
    requires WorldOk(cfg, w) && Enabled(w, Work)
    ensures WorkerLeft(WorkStep(cfg, w)) < WorkerLeft(w) && WorkStep(cfg, w).stopper == w.stopper
  {
    LiveWhenDriven(cfg, w, Work);
    hide FatesOk, MapsAgree, DriverOk, Lazy, Body, Unframe, Delivers;
    BodyHand(cfg, w.p);
    hide InvDuring, WorldOk, HandReady;
  }

  // The thread that can go on: whatever the worker or the stopper has to do next.
  function Next(w: World): Event {
    match w.worker
    case AtPort => Timeout
    case Handling => if w.p.cells.hand.Some? && w.p.cells.hand.value.body then Work else Settled
    case Checking => Check
    case Exited => if w.stopper.Stopping? then Join else if w.stopper.Joined? then FreeProxy else FreeCtx
  }

  /** Until it has finished, stopping is never stuck. */
  lemma StoppingNeverStuck(cfg: Config, w: World)
    requires WorldOk(cfg, w) && !w.stopper.NotStopped? && !w.stopper.Stopped?
    ensures Enabled(w, Next(w))
  {
    if Live(w) && w.worker.Handling? {
      InvHand(cfg, w.p);
    }
    hide FatesOk, InvDuring, MapsAgree, DriverOk, Lazy, Unframe;
  }

  predicate AllEnabled(cfg: Config, w: World, es: seq<Event>) {
    es == [] || (AllEnabled(cfg, w, es[..|es| - 1]) && Enabled(Run(cfg, w, es[..|es| - 1]), es[|es| - 1]))
  }

  lemma {:induction false} StopFrom(cfg: Config, w: World, es: seq<Event>)
    requires WorldOk(cfg, w) && w.stopper.Stopping? && AllEnabled(cfg, w, es)
    ensures var t := Run(cfg, w, es); WorldOk(cfg, t) && !t.stopper.NotStopped? && |es| + Left(t) <= Left(w) <= 7
  {
    if es != [] {
      var u := Run(cfg, w, es[..|es| - 1]);
      StopFrom(cfg, w, es[..|es| - 1]);
      StoppingAdvances(cfg, u, es[|es| - 1]);
      StepOk(cfg, u, es[|es| - 1]);
    }
  }

  /** Whenever in a run stopping begins, and whatever order the threads step in from then on, they are through in at
      most seven steps, and when none can step any more everything is freed. */
  lemma {:induction false} StopFinishes(cfg: Config, es: seq<Event>, more: seq<Event>)
    requires Run(cfg, Begin, es).stopper.Stopping? && AllEnabled(cfg, Run(cfg, Begin, es), more)
    ensures |more| + Left(Run(cfg, Begin, es + more)) <= Left(Run(cfg, Begin, es)) <= 7
    ensures var t := Run(cfg, Begin, es + more);
            (forall e :: !Enabled(t, e)) ==>
              t.stopper.Stopped? && t.ctx == {} && t.p.conns == map[] && AllDeleted(t.p.cells)
  {
    AlwaysOk(cfg, es);
    StopFrom(cfg, Run(cfg, Begin, es), more);
    RunOn(cfg, es, more);
    var t := Run(cfg, Begin, es + more);
    hide InvDuring, Step, Run, FatesOk, MapsAgree, DriverOk, Lazy, AllDeleted, Enabled;
    if !t.stopper.Stopped? {
      StoppingNeverStuck(cfg, t);
    }
  }
}
