/**
 * The event handler of netfilter/NFEventHandler.cpp over the UDP proxy, with the three threads that touch them:
 * the driver thread calling udpSend and udpClosed, the worker of netfilter/iocp.h taking completions, and the
 * thread that stops both. A step is one locked block or one stretch that touches no shared data; any order of
 * steps is a run. The locks are here as the blocks they make: `lock` is held exactly while a connection is being
 * created, and a delivery waits for it. LockOrder.dfy has the locks themselves.
 *
 * The driver delivers one event at a time, never one for an endpoint it has closed, and none once stopping began.
 */
module Session {
  import opened Bytes
  import opened Socks
  import opened Operations
  import opened ProxyModel
  import opened ProxyInvariant
  import opened ProxySteps

  // Where the driver thread is inside udpSend or udpClosed. `lock` is held while Creating, Failing and Publishing:
  // the connection is in m_socketMap, its connect may already have completed, and its context is yet to come.
  datatype Driver =
    | Idle
    | Creating(id: Id, d: Datagram)
    | Failing(id: Id, d: Datagram)
    | Publishing(id: Id, d: Datagram)
    | Sending(id: Id, d: Datagram)
    | Closing(id: Id)

  datatype Worker = AtPort | Handling | Checking | Exited

  datatype Stopper = NotStopped | Stopping | Joined | ProxyFreed | Stopped

  // What became of a datagram when the application sent it.
  datatype Fate =
    | Waiting       // queued until the relay is connected
    | Relayed       // its frame was accepted by the relay socket
    | Refused       // the relay socket rejected it, and it was posted directly
    | NoConnection  // posted directly, its connection being gone
    | Dropped       // empty, and the relay not connected yet
    | Discarded     // its connection could not be made

  datatype Fated = Fated(d: Datagram, fate: Fate)

  // One nf_udpPostSend: the datagram, and its number among those the proxy took if it took it.
  datatype Posting = Posting(d: Datagram, taken: Option<nat>)

  datatype World = World(
    p: State,                       // m_udpProxy
    ctx: set<Id>,                   // the keys of m_udpCtxMap
    driver: Driver,
    worker: Worker,
    stopper: Stopper,
    closed: set<Id>,                // endpoints udpClosed has returned for
    fates: map<Id, seq<Fated>>,
    direct: map<Id, seq<Posting>>,   // nf_udpPostSend
    toApp: seq<Delivered>)          // nf_udpPostReceive from the proxy

  const Begin := World(Initial, {}, Idle, AtPort, NotStopped, {}, map[], map[], [])

  datatype Event =
    | AppSend(id: Id, d: Datagram, sockets: bool) | Connect | Fail | Publish | Send
    | AppClose(id: Id) | Forget
    | Completion(op: Op, data: seq<byte>, failed: bool) | Timeout | Work | Settled | Check
    | SetStop | Join | FreeProxy | FreeCtx

  function Get<T>(m: map<Id, seq<T>>, id: Id): seq<T> {
    if id in m then m[id] else []
  }

  function Fate1(w: World, id: Id, d: Datagram, fate: Fate): World {
    w.(fates := w.fates[id := Get(w.fates, id) + [Fated(d, fate)]])
  }

  predicate LockFree(w: World) {
    !w.driver.Creating? && !w.driver.Failing? && !w.driver.Publishing?
  }

  predicate Enabled(w: World, e: Event) {
    match e
    case AppSend(id, d, _) => w.driver.Idle? && w.stopper.NotStopped? && id !in w.closed
    case Connect => w.driver.Creating?
    case Fail => w.driver.Failing?
    case Publish => w.driver.Publishing?
    case Send => w.driver.Sending?
    case AppClose(id) => w.driver.Idle? && w.stopper.NotStopped? && id !in w.closed
    case Forget => w.driver.Closing?
    case Completion(op, data, failed) => w.worker.AtPort? && CanTake(w.p.cells, op, data, failed)
    case Timeout => w.worker.AtPort?
    case Work =>
      && w.worker.Handling? && HandReady(w.p.cells) && w.p.cells.hand.value.body
      && (Delivers(w.p) ==> LockFree(w))
    case Settled => w.worker.Handling? && HandReady(w.p.cells) && !w.p.cells.hand.value.body
    case Check => w.worker.Checking?
    case SetStop => w.stopper.NotStopped? && w.driver.Idle?
    case Join => w.stopper.Stopping? && w.worker.Exited?
    case FreeProxy => w.stopper.Joined?
    case FreeCtx => w.stopper.ProxyFreed? && LockFree(w)
  }

  // The completion in hand ends in a call of the handler, which takes `lock`.
  predicate Delivers(p: State)
    requires HandReady(p.cells)
  {
    var h := p.cells.hand.value;
    var d := p.cells.ops[h.op];
    d.kind.OvtUdpReceive? && h.n > 0 && Unframe(d.buffer, h.n).Some?
  }

  // The fate of a datagram for which the proxy's udpSend, begun in state p, returned ok.
  function FateOf(p: State, id: Id, d: Datagram, ok: bool): Fate {
    if id !in p.conns then NoConnection
    else if !ok then Refused
    else if p.conns[id].state == PsConnected then Relayed
    else if d.payload == [] then Dropped
    else Waiting
  }

  // udpSend of the proxy, and the direct posting when it fails.
  function SubmitStep(cfg: Config, w: World, id: Id, d: Datagram): World {
    var (p, ok) := Submit(cfg, w.p, id, d);
    var posting := Posting(d, if Taken(w.p, id, d) then Some(|LogOf(w.p, id).submitted|) else None);
    Fate1(w.(p := p, driver := Idle, direct := if ok then w.direct else w.direct[id := Get(w.direct, id) + [posting]]),
          id, d, FateOf(w.p, id, d, ok))
  }

  // Deliveries for endpoints without a context go nowhere.
  function WorkStep(cfg: Config, w: World): World
    requires HandReady(w.p.cells)
  {
    var p := Body(cfg, w.p);
    var h := w.p.cells.hand.value;
    var d := w.p.cells.ops[h.op];
    var out := if Delivers(w.p) && d.id in w.ctx then [Delivered(d.id, Unframe(d.buffer, h.n).value)] else [];
    w.(p := p, toApp := w.toApp + out, worker := if p.cells.hand.Some? then Handling else Checking)
  }

  // udpSend of the event handler up to the first locked block of createProxyConnection.
  function AppSendStep(cfg: Config, w: World, id: Id, d: Datagram, sockets: bool): World {
    if id in w.ctx then w.(driver := Sending(id, d))
    else if !sockets then Fate1(w, id, d, Discarded)
    else w.(p := Insert(cfg, w.p, id), driver := Creating(id, d))
  }

  function ConnectStep(cfg: Config, w: World, id: Id, d: Datagram): World {
    var (p, ok) := Register(cfg, w.p, id);
    w.(p := p, driver := if ok then Publishing(id, d) else Failing(id, d))
  }

  function Step(cfg: Config, w: World, e: Event): World {
    if !Enabled(w, e) then w
    else
      match e
      case AppSend(id, d, sockets) => AppSendStep(cfg, w, id, d, sockets)
      case Connect => ConnectStep(cfg, w, w.driver.id, w.driver.d)
      case Fail => Fate1(w.(p := Erase(w.p, w.driver.id), driver := Idle), w.driver.id, w.driver.d, Discarded)
      case Publish => w.(ctx := w.ctx + {w.driver.id}, driver := Sending(w.driver.id, w.driver.d))
      case Send => SubmitStep(cfg, w, w.driver.id, w.driver.d)
      case AppClose(id) => w.(p := Erase(w.p, id), driver := Closing(id))
      case Forget => w.(ctx := w.ctx - {w.driver.id}, closed := w.closed + {w.driver.id}, driver := Idle)
      case Completion(op, data, failed) =>
        w.(p := w.p.(cells := Take(w.p.cells, op, data, failed)), worker := Handling)
      case Timeout => w.(worker := Checking)
      case Work => WorkStep(cfg, w)
      case Settled => w.(p := Finish(cfg, w.p), worker := Checking)
      case Check => w.(worker := if w.stopper.NotStopped? then AtPort else Exited)
      case SetStop => w.(stopper := Stopping)
      case Join => w.(stopper := Joined)
      case FreeProxy => w.(p := Shutdown(w.p), stopper := ProxyFreed)
      case FreeCtx => w.(ctx := {}, stopper := Stopped)
  }

  function Run(cfg: Config, w: World, es: seq<Event>): World {
    if es == [] then w else Step(cfg, Run(cfg, w, es[..|es| - 1]), es[|es| - 1])
  }

  // ---------------------------------------------------------------- the invariant

  predicate Live(w: World) {
    w.stopper.NotStopped? || w.stopper.Stopping? || w.stopper.Joined?
  }

  // The driver is busy with a connection it is making.
  predicate Making(w: World, id: Id) {
    (w.driver.Creating? || w.driver.Failing? || w.driver.Publishing?) && w.driver.id == id
  }

  ghost predicate Untouched(p: State, id: Id) {
    NoOperation(p.cells, id) && (id in p.logs ==> p.logs[id] == EmptyLog)
  }

  /** m_socketMap and m_udpCtxMap. */
  ghost predicate MapsAgree(w: World) {
    && (forall id | id in w.p.conns :: id in w.ctx || Making(w, id))
    && (forall id | id in w.closed :: id !in w.ctx && id !in w.p.conns)
  }

  ghost predicate DriverOk(w: World) {
    match w.driver
    case Idle => true
    case Creating(id, _) =>
      && id !in w.ctx && id !in w.closed && Untouched(w.p, id)
      && id in w.p.conns && w.p.conns[id].state == PsNone
    case Failing(id, _) => id !in w.ctx && id !in w.closed && Untouched(w.p, id)
    case Publishing(id, _) => id !in w.ctx && id !in w.closed
    case Sending(id, _) => id in w.ctx && id !in w.closed
    case Closing(id) => id !in w.p.conns && id !in w.closed
  }

  // Its context is about to come or to go.
  predicate Between(w: World, id: Id) {
    (w.driver.Publishing? || w.driver.Closing?) && w.driver.id == id
  }

  // An endpoint without a context that is neither being served nor closed has never had an operation.
  ghost predicate Lazy(w: World) {
    forall id | id !in w.ctx && id !in w.closed && !Between(w, id) :: Untouched(w.p, id)
  }

  ghost predicate WorkerOk(w: World) {
    w.worker.Handling? <==> w.p.cells.hand.Some?
  }

  function Took(fs: seq<Fated>): seq<Fated> {
    if fs == [] then []
    else
      var f := fs[|fs| - 1];
      Took(fs[..|fs| - 1]) + (if f.fate.Waiting? || f.fate.Relayed? || f.fate.Refused? then [f] else [])
  }

  function PostedDirectly(fs: seq<Fated>): seq<Posting> {
    if fs == [] then []
    else
      var before := fs[..|fs| - 1];
      var f := fs[|fs| - 1];
      PostedDirectly(before) +
      (if f.fate.Refused? then [Posting(f.d, Some(|Took(before)|))]
       else if f.fate.NoConnection? then [Posting(f.d, None)]
       else [])
  }

  // The proxy's log holds exactly the datagrams whose fate says so, each handed to the socket with that outcome.
  ghost predicate FatesMatch(fs: seq<Fated>, l: Log, direct: seq<Posting>) {
    && |Took(fs)| == |l.submitted|
    && (forall k | 0 <= k < |l.submitted| ::
          && Took(fs)[k].d == l.submitted[k]
          && (Took(fs)[k].fate.Relayed? ==> k < |l.udp| && l.udp[k].accepted)
          && (Took(fs)[k].fate.Refused? ==> k < |l.udp| && !l.udp[k].accepted))
    && direct == PostedDirectly(fs)
  }

  ghost predicate FatesOk(w: World) {
    forall id: Id :: FatesMatch(Get(w.fates, id), LogOf(w.p, id), Get(w.direct, id))
  }

  // No cell is left, and every one there was has been deleted once.
  ghost predicate AllDeleted(m: Cells) {
    m.ops == map[] && m.hand.None? && forall o: Op :: m.freed[o] == if o < m.next then 1 else 0
  }

  ghost predicate WorldOk(cfg: Config, w: World) {
    && FatesOk(w)
    && (Live(w) ==> Inv(cfg, w.p) && MapsAgree(w) && DriverOk(w) && Lazy(w) && WorkerOk(w))
    && (!w.stopper.NotStopped? ==> w.driver.Idle?)
    && (w.stopper.Joined? || !Live(w) ==> w.worker.Exited?)
    && (!Live(w) ==> w.p.conns == map[] && AllDeleted(w.p.cells))
    && (w.stopper.Stopped? ==> w.ctx == {})
  }
}
